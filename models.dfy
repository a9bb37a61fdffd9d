/**
 * The two record types of the near-Earth-object dataset: a `NearEarthObject` with its
 * identity, diameter and hazard flag, and a `CloseApproach` with the time, distance and
 * velocity of one pass by Earth. Both are built from loosely typed keyword arguments and are
 * later cross-linked by the database (not part of this model): the NEO's `approaches` grow,
 * the approach's `neo` is set.
 *
 * The helpers this module calls and cannot see are parameters: `floatOfText` is the numeral
 * grammar of Python's `float(str)`, `parseTime` is `cd_to_datetime`, `timeToText` is
 * `datetime_to_str`, and `formatFixed(f, d)` is the format specification `.{d}f`.
 */
module Models {
  import opened Wrappers
  import opened PyValues

  /** A date-time as `cd_to_datetime` returns it; its structure belongs to the helpers module. */
  type DateTime(==)

  /** `s` ends with `t`. */
  predicate EndsWith(s: string, t: string) {
    |t| <= |s| && s[|s| - |t|..] == t
  }

  /** Whether `a + b` ends with `t` depends on `b` alone when `t` is no longer than `b`. */
  lemma EndsWithAppend(a: string, b: string, t: string)
    requires |t| <= |b|
    ensures EndsWith(a + b, t) == EndsWith(b, t)
  {
  }

  /** Both hazard sentences continue " km " with "and ". */
  lemma SentencePrefix(opening: string, tail: string)
    requires tail == "and is not potentially hazardous." || tail == "and is potentially hazardous."
    ensures opening + " km and " <= opening + " km " + tail
  {
  }

  /** Each of the two hazard sentences' endings tells it apart from the other. */
  lemma HazardTailsDiffer()
    ensures EndsWith("and is not potentially hazardous.", "is not potentially hazardous.")
    ensures !EndsWith("and is not potentially hazardous.", "and is potentially hazardous.")
    ensures EndsWith("and is potentially hazardous.", "and is potentially hazardous.")
    ensures !EndsWith("and is potentially hazardous.", "is not potentially hazardous.")
  {
  }

  // ----------------------------------------------------------------------------------------
  // NearEarthObject
  // ----------------------------------------------------------------------------------------

  /**
   * The keyword arguments `NearEarthObject(**info)` reads, `None` marking a key not supplied.
   * For `name`, an absent key and an explicit `None` are stored alike, so `None` covers both.
   */
  datatype NeoInfo = NeoInfo(
    designation: Option<string>,
    name: Option<string>,
    diameter: Option<Value>,
    hazardous: Option<Value>,
    approaches: Option<seq<CloseApproach>>)

  /** What the constructor stores besides `approaches`; a NaN diameter means "unknown". */
  datatype NeoAttributes = NeoAttributes(designation: string, name: Option<string>, diameter: Float, hazardous: bool)

  /** The dictionary literal that decodes the hazard flag, entries in the source's order. */
  const HazardOutputs: seq<(Value, bool)> :=
    [(PyText("N"), false), (PyText("Y"), true), (PyBool(false), false), (PyText(""), false)]

  /** The columns of a serialized NEO. */
  const NeoColumns: set<string> := {"designation", "name", "diameter_km", "potentially_hazardous"}

  /**
   * The stored hazard flag: the supplied flag, or `False` when absent, looked up in
   * `HazardOutputs`. Since `False == 0` in Python, a zero number decodes like `False`;
   * every other value raises `KeyError`.
   */
  function DecodeHazard(flag: Option<Value>): (r: Result<bool, Exception>)
    ensures r == Success(true) <==> flag == Some(PyText("Y"))
    ensures r == Success(false) <==>
              flag.None? || flag.value in {PyText("N"), PyText(""), PyBool(false), PyNumber(Finite(0.0))}
    ensures r.Failure? ==> flag.Some? && r.error == KeyError(flag.value)
  {
    var key := flag.GetOr(PyBool(false));
    match Lookup(HazardOutputs, key)
    case Some(b) => Success(b)
    case None => Failure(KeyError(key))
  }

  /**
   * The stored diameter: `info['diameter']` must be present; a falsy value becomes the NaN
   * sentinel, any other value goes through `float()`.
   */
  function DecodeDiameter(diameter: Option<Value>, floatOfText: string -> Option<Float>): (r: Result<Float, Exception>)
    ensures r == Failure(KeyError(PyText("diameter"))) <==> diameter.None?
    ensures diameter.Some? && Falsy(diameter.value) ==> r == Success(NaN)
    ensures diameter.Some? && !Falsy(diameter.value) ==> r == ToFloat(diameter.value, floatOfText)
    // A stored zero can only come from a numeral text such as "0", never from a number.
    ensures r == Success(Finite(0.0)) ==> diameter.Some? && diameter.value.PyText?
  {
    match diameter
    case None => Failure(KeyError(PyText("diameter")))
    case Some(v) => if Falsy(v) then Success(NaN) else ToFloat(v, floatOfText)
  }

  /** What `NearEarthObject.__init__` stores, or the exception it raises first. */
  function Normalize(info: NeoInfo, floatOfText: string -> Option<Float>): (r: Result<NeoAttributes, Exception>)
    ensures r.Success? <==>
              DecodeDiameter(info.diameter, floatOfText).Success? && DecodeHazard(info.hazardous).Success?
    // The diameter is coerced before the hazard flag, so its exception wins.
    ensures DecodeDiameter(info.diameter, floatOfText).Failure? ==>
              r == Failure(DecodeDiameter(info.diameter, floatOfText).error)
    // Once the diameter is stored, an unknown hazard flag raises the lookup's `KeyError`.
    ensures DecodeDiameter(info.diameter, floatOfText).Success? && DecodeHazard(info.hazardous).Failure? ==>
              r == Failure(DecodeHazard(info.hazardous).error)
    ensures r.Success? ==>
              && r.value.designation == info.designation.GetOr("")
              && r.value.name == info.name
              && r.value.diameter == DecodeDiameter(info.diameter, floatOfText).value
              && r.value.hazardous == DecodeHazard(info.hazardous).value
  {
    var diameter :- DecodeDiameter(info.diameter, floatOfText);
    var hazardous :- DecodeHazard(info.hazardous);
    Success(NeoAttributes(info.designation.GetOr(""), info.name, diameter, hazardous))
  }

  /** The hazard table's keys are pairwise unequal under `==`. */
  lemma HazardKeysDistinct()
    ensures KeysDistinct(HazardOutputs)
  {
  }

  /** So every flag equal to one of the table's keys decodes to that entry's value, as in Python. */
  lemma DecodeHazardIsDictLookup(flag: Value, i: nat)
    requires i < |HazardOutputs| && PyEq(HazardOutputs[i].0, flag)
    ensures DecodeHazard(Some(flag)) == Success(HazardOutputs[i].1)
  {
    HazardKeysDistinct();
    LookupFindsTheEqualKey(HazardOutputs, flag, i);
  }

  /** A row with only a falsy diameter gets every default `info.get` supplies. */
  lemma NeoDefaults(diameter: Value, floatOfText: string -> Option<Float>)
    requires Falsy(diameter)
    ensures Normalize(NeoInfo(None, None, Some(diameter), None, None), floatOfText)
              == Success(NeoAttributes("", None, NaN, false))
  {
  }

  /** Python's `f'{name}'`: the text itself, or "None". */
  function NameText(name: Option<string>): string {
    match name
    case None => "None"
    case Some(s) => s
  }

  /** The serialized form of a name: `str` or `None`. */
  function NameValue(name: Option<string>): Value {
    match name
    case None => PyNone
    case Some(s) => PyText(s)
  }

  /**
   * `fullname`: the designation with the name in parentheses, unless the name is the empty
   * string. A `None` name differs from "" and so is rendered, as "(None)".
   */
  function FullNameOf(designation: string, name: Option<string>): (s: string)
    ensures s == designation <==> name == Some("")
    ensures designation <= s
    ensures name != Some("") ==> s[|designation|..] == " (" + NameText(name) + ")"
  {
    if name != Some("") then designation + " (" + NameText(name) + ")" else designation
  }

  /** Reads a serialized NEO back; None for a row that is not of that shape. */
  function ParseNeoRow(row: map<string, Value>): Option<NeoAttributes> {
    if && row.Keys == NeoColumns
       && row["designation"].PyText?
       && (row["name"].PyNone? || row["name"].PyText?)
       && row["diameter_km"].PyNumber?
       && row["potentially_hazardous"].PyBool?
    then
      var name := if row["name"].PyText? then Some(row["name"].s) else None;
      Some(NeoAttributes(row["designation"].s, name, row["diameter_km"].n, row["potentially_hazardous"].b))
    else None
  }

  class NearEarthObject {
    var designation: string
    var name: Option<string>
    var diameter: Float
    var hazardous: bool
    /** The NEO's close approaches, in order; the database's linking step appends to them. */
    var approaches: seq<CloseApproach>

    /** Stores already coerced attributes; `Create` does the coercion. */
    constructor (attributes: NeoAttributes, approaches: seq<CloseApproach>)
      ensures Attributes() == attributes && this.approaches == approaches
    {
      designation := attributes.designation;
      name := attributes.name;
      diameter := attributes.diameter;
      hazardous := attributes.hazardous;
      this.approaches := approaches;
    }

    function Attributes(): NeoAttributes
      reads this
    {
      NeoAttributes(designation, name, diameter, hazardous)
    }

    /** `NearEarthObject(**info)`: a new object, or the exception the constructor raises. */
    static method Create(info: NeoInfo, floatOfText: string -> Option<Float>) returns (r: Result<NearEarthObject, Exception>)
      ensures r.Failure? <==> Normalize(info, floatOfText).Failure?
      ensures r.Failure? ==> r.error == Normalize(info, floatOfText).error
      ensures r.Success? ==>
                && fresh(r.value)
                && r.value.Attributes() == Normalize(info, floatOfText).value
                && r.value.approaches == info.approaches.GetOr([])
    {
      match Normalize(info, floatOfText)
      case Failure(e) =>
        r := Failure(e);
      case Success(attributes) =>
        var neo := new NearEarthObject(attributes, info.approaches.GetOr([]));
        r := Success(neo);
    }

    /** The `fullname` property; `FullNameOf` states the rule. */
    function FullName(): (s: string)
      reads this
      ensures designation <= s
      ensures s == designation <==> name == Some("")
      ensures name != Some("") ==> s[|designation|..] == " (" + NameText(name) + ")"
    {
      FullNameOf(designation, name)
    }

    /** `str(self)`: one of two sentences, chosen by the hazard flag. */
    function Describe(formatFixed: (Float, nat) -> string): (s: string)
      reads this
      ensures "NEO " + FullName() + " has a diameter of " + formatFixed(diameter, 3) + " km and " <= s
      ensures !hazardous <==> EndsWith(s, "is not potentially hazardous.")
      ensures hazardous <==> EndsWith(s, "and is potentially hazardous.")
      ensures |s| == |"NEO " + FullName() + " has a diameter of " + formatFixed(diameter, 3) + " km and "|
                     + if hazardous then |"is potentially hazardous."| else |"is not potentially hazardous."|
    {
      var opening := "NEO " + FullName() + " has a diameter of " + formatFixed(diameter, 3);
      var tail := if hazardous == false then "and is not potentially hazardous." else "and is potentially hazardous.";
      EndsWithAppend(opening + " km ", tail, "is not potentially hazardous.");
      EndsWithAppend(opening + " km ", tail, "and is potentially hazardous.");
      HazardTailsDiffer();
      SentencePrefix(opening, tail);
      opening + " km " + tail
    }

    /** `serialize()`: the four NEO columns; the approaches are never part of it. */
    function Serialize(): (row: map<string, Value>)
      reads this
      ensures row.Keys == NeoColumns
      ensures "approaches" !in row
    {
      map["designation" := PyText(designation),
          "name" := NameValue(name),
          "diameter_km" := PyNumber(diameter),
          "potentially_hazardous" := PyBool(hazardous)]
    }
  }

  /** Serializing keeps every stored attribute: reading the row back gives them all. */
  lemma NeoSerializeRoundTrip(neo: NearEarthObject)
    ensures ParseNeoRow(neo.Serialize()) == Some(neo.Attributes())
  {
  }

  /** A row that reads back as an NEO's attributes is exactly that NEO's serialization. */
  lemma NeoRowDeterminesSerialization(neo: NearEarthObject, row: map<string, Value>)
    requires ParseNeoRow(row) == Some(neo.Attributes())
    ensures neo.Serialize() == row
  {
  }

  // ----------------------------------------------------------------------------------------
  // CloseApproach
  // ----------------------------------------------------------------------------------------

  /** The keyword arguments `CloseApproach(time, **info)` reads; `None` marks a key not supplied. */
  datatype ApproachInfo = ApproachInfo(
    designation: Option<string>,
    distance: Option<Value>,
    velocity: Option<Value>,
    neo: NearEarthObject?)

  /** What the constructor stores besides the NEO reference. */
  datatype ApproachAttributes = ApproachAttributes(designation: string, time: DateTime, distance: Float, velocity: Float)

  /** The columns of a serialized close approach. */
  const ApproachColumns: set<string> := {"datetime_utc", "distance_au", "velocity_km_s"}

  /** What `CloseApproach.__init__` stores, or the exception it raises first. */
  function NormalizeApproach(time: string, info: ApproachInfo, parseTime: string -> Option<DateTime>,
                             floatOfText: string -> Option<Float>): (r: Result<ApproachAttributes, Exception>)
    ensures parseTime(time).None? ==> r == Failure(TimeNotParsed(time))
    // The distance is converted next, then the velocity; the first failing conversion's exception wins.
    ensures parseTime(time).Some? && ToFloat(info.distance.GetOr(PyNumber(Finite(0.0))), floatOfText).Failure? ==>
              r == Failure(ToFloat(info.distance.GetOr(PyNumber(Finite(0.0))), floatOfText).error)
    ensures && parseTime(time).Some?
            && ToFloat(info.distance.GetOr(PyNumber(Finite(0.0))), floatOfText).Success?
            && ToFloat(info.velocity.GetOr(PyNumber(Finite(0.0))), floatOfText).Failure? ==>
              r == Failure(ToFloat(info.velocity.GetOr(PyNumber(Finite(0.0))), floatOfText).error)
    ensures r.Success? <==>
              && parseTime(time).Some?
              && ToFloat(info.distance.GetOr(PyNumber(Finite(0.0))), floatOfText).Success?
              && ToFloat(info.velocity.GetOr(PyNumber(Finite(0.0))), floatOfText).Success?
    ensures r.Success? ==>
              && r.value.designation == info.designation.GetOr("")
              && r.value.time == parseTime(time).value
              && (info.distance.None? ==> r.value.distance == Finite(0.0))
              && (info.velocity.None? ==> r.value.velocity == Finite(0.0))
              && (info.distance.Some? ==> Success(r.value.distance) == ToFloat(info.distance.value, floatOfText))
              && (info.velocity.Some? ==> Success(r.value.velocity) == ToFloat(info.velocity.value, floatOfText))
  {
    var t :- match parseTime(time)
             case Some(t) => Success(t)
             case None => Failure(TimeNotParsed(time));
    var distance :- ToFloat(info.distance.GetOr(PyNumber(Finite(0.0))), floatOfText);
    var velocity :- ToFloat(info.velocity.GetOr(PyNumber(Finite(0.0))), floatOfText);
    Success(ApproachAttributes(info.designation.GetOr(""), t, distance, velocity))
  }

  /** An approach row with a parseable time and nothing else gets every default `info.get` supplies. */
  lemma ApproachDefaults(time: string, parseTime: string -> Option<DateTime>, floatOfText: string -> Option<Float>)
    requires parseTime(time).Some?
    ensures NormalizeApproach(time, ApproachInfo(None, None, None, null), parseTime, floatOfText)
              == Success(ApproachAttributes("", parseTime(time).value, Finite(0.0), Finite(0.0)))
  {
  }

  /** Reads a serialized close approach back as (time text, distance, velocity). */
  function ParseApproachRow(row: map<string, Value>): Option<(string, Float, Float)> {
    if && row.Keys == ApproachColumns
       && row["datetime_utc"].PyText?
       && row["distance_au"].PyNumber?
       && row["velocity_km_s"].PyNumber?
    then Some((row["datetime_utc"].s, row["distance_au"].n, row["velocity_km_s"].n))
    else None
  }

  class CloseApproach {
    /** The NEO's designation as the input gave it, kept as the join key for linking. */
    const designationKey: string
    var time: DateTime
    var distance: Float
    var velocity: Float
    /** The NEO this approach belongs to; the database's linking step sets it. */
    var neo: NearEarthObject?

    /** Stores already coerced attributes; `Create` does the coercion. */
    constructor (attributes: ApproachAttributes, neo: NearEarthObject?)
      ensures Attributes() == attributes && this.neo == neo
    {
      designationKey := attributes.designation;
      time := attributes.time;
      distance := attributes.distance;
      velocity := attributes.velocity;
      this.neo := neo;
    }

    function Attributes(): ApproachAttributes
      reads this
    {
      ApproachAttributes(designationKey, time, distance, velocity)
    }

    /** `CloseApproach(time, **info)`: a new object, or the exception the constructor raises. */
    static method Create(time: string, info: ApproachInfo, parseTime: string -> Option<DateTime>,
                         floatOfText: string -> Option<Float>) returns (r: Result<CloseApproach, Exception>)
      ensures r.Failure? <==> NormalizeApproach(time, info, parseTime, floatOfText).Failure?
      ensures r.Failure? ==> r.error == NormalizeApproach(time, info, parseTime, floatOfText).error
      ensures r.Success? ==>
                && fresh(r.value)
                && r.value.Attributes() == NormalizeApproach(time, info, parseTime, floatOfText).value
                && r.value.Designation() == info.designation.GetOr("")
                && r.value.neo == info.neo
    {
      match NormalizeApproach(time, info, parseTime, floatOfText)
      case Failure(e) =>
        r := Failure(e);
      case Success(attributes) =>
        var approach := new CloseApproach(attributes, info.neo);
        r := Success(approach);
    }

    /** The `designation` property: the join key, read-only. */
    function Designation(): (d: string)
      reads this
      ensures d == Attributes().designation
    {
      designationKey
    }

    /** The `time_str` property: the helpers module's formatter applied to the stored time. */
    function TimeStr(timeToText: DateTime -> string): (s: string)
      reads this
      ensures s == timeToText(Attributes().time)
    {
      timeToText(time)
    }

    /**
     * The `fullname` property as written: it reads `self.name`, an attribute no
     * `CloseApproach` has, so every call raises `AttributeError`.
     */
    function FullNameAsWritten(): (r: Result<string, Exception>)
      ensures r.Failure? && r.error.AttributeError?
    {
      Failure(AttributeError("name"))
    }

    /** `fullname` as evidently intended: the NEO's full name logic, with the linked NEO's name. */
    function FullName(): (r: Result<string, Exception>)
      reads this, neo
      ensures r.Success? <==> neo != null
      ensures r.Failure? ==> r.error == AttributeError("name")
      ensures neo != null && neo.designation == designationKey ==> r == Success(neo.FullName())
    {
      if neo == null then Failure(AttributeError("name"))
      else Success(FullNameOf(designationKey, neo.name))
    }

    /** `str(self)`; before linking, `self.neo.fullname` raises `AttributeError`. */
    function Describe(timeToText: DateTime -> string, formatFixed: (Float, nat) -> string): (r: Result<string, Exception>)
      reads this, neo
      ensures r.Failure? <==> neo == null
      ensures r.Failure? ==> r.error == AttributeError("fullname")
      ensures r.Success? ==>
                "At " + TimeStr(timeToText) + ", '" + neo.FullName() + "' approaches Earth, at a distance of "
                + formatFixed(distance, 2) <= r.value
      ensures r.Success? ==> EndsWith(r.value, " au and a velocity of " + formatFixed(velocity, 2) + " km/s.")
      ensures r.Success? ==>
                |r.value| == |"At " + TimeStr(timeToText) + ", '" + neo.FullName() + "' approaches Earth, at a distance of "
                              + formatFixed(distance, 2)| + |" au and a velocity of " + formatFixed(velocity, 2) + " km/s."|
    {
      if neo == null then Failure(AttributeError("fullname"))
      else
        Success("At " + TimeStr(timeToText) + ", '" + neo.FullName() + "' approaches Earth, at a distance of "
                + formatFixed(distance, 2) + " au and a velocity of " + formatFixed(velocity, 2) + " km/s.")
    }

    /** `serialize()`: the three approach columns; neither the NEO nor the join key is part of it. */
    function Serialize(timeToText: DateTime -> string): (row: map<string, Value>)
      reads this
      ensures row.Keys == ApproachColumns
      ensures "neo" !in row && "designation" !in row
    {
      map["datetime_utc" := PyText(TimeStr(timeToText)),
          "distance_au" := PyNumber(distance),
          "velocity_km_s" := PyNumber(velocity)]
    }
  }

  /** Serializing keeps the time text, distance and velocity: reading the row back gives them. */
  lemma ApproachSerializeRoundTrip(approach: CloseApproach, timeToText: DateTime -> string)
    ensures ParseApproachRow(approach.Serialize(timeToText))
              == Some((approach.TimeStr(timeToText), approach.distance, approach.velocity))
  {
  }

  /** A row that reads back as an approach's values is exactly that approach's serialization. */
  lemma ApproachRowDeterminesSerialization(approach: CloseApproach, timeToText: DateTime -> string, row: map<string, Value>)
    requires ParseApproachRow(row) == Some((approach.TimeStr(timeToText), approach.distance, approach.velocity))
    ensures approach.Serialize(timeToText) == row
  {
  }

  /** However an approach is linked, `fullname` as written fails where the intended one succeeds. */
  lemma FullNameAsWrittenFailsWhenLinked(approach: CloseApproach)
    requires approach.neo != null
    ensures approach.FullNameAsWritten().Failure?
    ensures approach.FullName().Success?
  {
  }
}
