/**
 * Clients of the two records, built only on their contracts: sample dataset rows, what
 * the records make of them, and what linking changes.
 */
module Scenarios {
  import opened Wrappers
  import opened PyValues
  import opened Models

  /** The row of 433 Eros: named, with a known diameter, not hazardous. */
  function ErosInfo(): NeoInfo {
    NeoInfo(Some("433"), Some("Eros"), Some(PyNumber(Finite(16.84))), Some(PyText("N")), None)
  }

  /** The row of 2015 AB: no name, no diameter, hazardous. */
  function UnnamedInfo(): NeoInfo {
    NeoInfo(Some("2015 AB"), None, Some(PyNone), Some(PyText("Y")), None)
  }

  /** 433 Eros: its full name, its sentence and its serialized row. */
  method ErosScenario(floatOfText: string -> Option<Float>, formatFixed: (Float, nat) -> string)
    returns (fullname: string, sentence: string, row: map<string, Value>)
    ensures fullname == "433 (Eros)"
    ensures EndsWith(sentence, "is not potentially hazardous.")
    ensures row == map["designation" := PyText("433"), "name" := PyText("Eros"),
                       "diameter_km" := PyNumber(Finite(16.84)), "potentially_hazardous" := PyBool(false)]
  {
    var created := NearEarthObject.Create(ErosInfo(), floatOfText);
    assert DecodeHazard(Some(PyText("N"))) == Success(false);
    var eros := created.value;
    assert eros.Attributes() == NeoAttributes("433", Some("Eros"), Finite(16.84), false);
    assert eros.FullName() == "433 (Eros)";
    fullname := eros.FullName();
    sentence := eros.Describe(formatFixed);
    row := eros.Serialize();
    NeoRowDeterminesSerialization(eros, map["designation" := PyText("433"), "name" := PyText("Eros"),
                                            "diameter_km" := PyNumber(Finite(16.84)),
                                            "potentially_hazardous" := PyBool(false)]);
  }

  /** 2015 AB: the diameter is the NaN sentinel, and the `None` name is still rendered. */
  method UnnamedScenario(floatOfText: string -> Option<Float>)
    returns (diameter: Float, fullname: string, row: map<string, Value>)
    ensures diameter == NaN
    ensures fullname == "2015 AB (None)"
    ensures row == map["designation" := PyText("2015 AB"), "name" := PyNone,
                       "diameter_km" := PyNumber(NaN), "potentially_hazardous" := PyBool(true)]
  {
    var created := NearEarthObject.Create(UnnamedInfo(), floatOfText);
    assert DecodeHazard(Some(PyText("Y"))) == Success(true);
    var neo := created.value;
    diameter := neo.diameter;
    fullname := neo.FullName();
    row := neo.Serialize();
    NeoRowDeterminesSerialization(neo, map["designation" := PyText("2015 AB"), "name" := PyNone,
                                           "diameter_km" := PyNumber(NaN),
                                           "potentially_hazardous" := PyBool(true)]);
  }

  /**
   * Rows the constructor rejects, in the order it checks them, and one it accepts beyond the
   * four keys of the hazard dictionary literal: a zero number equals `False`.
   */
  method RejectedRowsScenario(floatOfText: string -> Option<Float>)
    returns (maybe: Result<NearEarthObject, Exception>, notANumber: Result<NearEarthObject, Exception>,
             noDiameter: Result<NearEarthObject, Exception>, zeroFlag: Result<NearEarthObject, Exception>)
    requires floatOfText("not-a-number").None?
    ensures maybe == Failure(KeyError(PyText("maybe")))
    ensures notANumber == Failure(ValueError("not-a-number"))
    ensures noDiameter == Failure(KeyError(PyText("diameter")))
    ensures zeroFlag.Success? && !zeroFlag.value.hazardous
  {
    maybe := NearEarthObject.Create(
      NeoInfo(Some("433"), None, Some(PyNumber(Finite(16.84))), Some(PyText("maybe")), None), floatOfText);
    notANumber := NearEarthObject.Create(
      NeoInfo(Some("433"), None, Some(PyText("not-a-number")), Some(PyText("maybe")), None), floatOfText);
    noDiameter := NearEarthObject.Create(NeoInfo(Some("433"), None, None, None, None), floatOfText);
    zeroFlag := NearEarthObject.Create(
      NeoInfo(Some("433"), None, Some(PyNumber(Finite(16.84))), Some(PyNumber(Finite(0.0))), None), floatOfText);
  }

  /**
   * An approach of 433 Eros: it cannot be rendered until its `neo` is set, as the database's
   * linking step does; after that its sentence names Eros.
   */
  method ApproachScenario(parseTime: string -> Option<DateTime>, floatOfText: string -> Option<Float>,
                          timeToText: DateTime -> string, formatFixed: (Float, nat) -> string)
    returns (before: Result<string, Exception>, after: Result<string, Exception>, row: map<string, Value>)
    requires parseTime("2020-Jan-01 12:30").Some?
    ensures before == Failure(AttributeError("fullname"))
    ensures after.Success?
    ensures "At " + timeToText(parseTime("2020-Jan-01 12:30").value) + ", '" + "433 (Eros)"
            + "' approaches Earth, at a distance of " + formatFixed(Finite(0.262), 2) <= after.value
    ensures EndsWith(after.value, " au and a velocity of " + formatFixed(Finite(5.5), 2) + " km/s.")
    ensures row == map["datetime_utc" := PyText(timeToText(parseTime("2020-Jan-01 12:30").value)),
                       "distance_au" := PyNumber(Finite(0.262)), "velocity_km_s" := PyNumber(Finite(5.5))]
  {
    var neoCreated := NearEarthObject.Create(ErosInfo(), floatOfText);
    assert DecodeHazard(Some(PyText("N"))) == Success(false);
    var eros := neoCreated.value;
    assert eros.Attributes() == NeoAttributes("433", Some("Eros"), Finite(16.84), false);
    assert eros.FullName() == "433 (Eros)";
    var info := ApproachInfo(Some("433"), Some(PyNumber(Finite(0.262))), Some(PyNumber(Finite(5.5))), null);
    var created := CloseApproach.Create("2020-Jan-01 12:30", info, parseTime, floatOfText);
    var approach := created.value;
    assert approach.Attributes() == ApproachAttributes("433", parseTime("2020-Jan-01 12:30").value, Finite(0.262), Finite(5.5));
    before := approach.Describe(timeToText, formatFixed);
    approach.neo := eros;
    eros.approaches := eros.approaches + [approach];
    assert eros.FullName() == "433 (Eros)";
    assert approach.TimeStr(timeToText) == timeToText(parseTime("2020-Jan-01 12:30").value);
    assert approach.distance == Finite(0.262);
    after := approach.Describe(timeToText, formatFixed);
    row := approach.Serialize(timeToText);
    ApproachRowDeterminesSerialization(approach, timeToText,
      map["datetime_utc" := PyText(timeToText(parseTime("2020-Jan-01 12:30").value)),
          "distance_au" := PyNumber(Finite(0.262)), "velocity_km_s" := PyNumber(Finite(5.5))]);
  }
}
