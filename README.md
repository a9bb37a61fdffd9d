# Near-Earth objects and their close approaches

A Dafny model of `models.py`, which defines the two record types of a
near-Earth-object (NEO) dataset. A `NearEarthObject` holds a primary designation, an
optional name, a diameter in kilometres that may be unknown, and a flag saying whether
the object is potentially hazardous. A `CloseApproach` holds the time, distance (au) and
velocity (km/s) of one pass by Earth. Both are built from loosely typed keyword
arguments, which may be missing or malformed. Later, the database links them: it appends
each approach to its NEO's `approaches` and sets each approach's `neo`. Both records can
render a sentence and serialize to a flat row for export.

Files:

- `wrappers.dfy` (module `Wrappers`): `Option` and `Result`.
- `py_values.dfy` (module `PyValues`): the Python value semantics the constructors rely
  on. It covers the scalar values a loader passes, truthiness, `==` (where `False == 0`),
  dictionary-literal lookup, `float()`, and the exceptions these raise.
- `models.dfy` (module `Models`): the two classes. Each constructor is a static `Create`
  method returning `Result`, specified by a pure normalisation function (`Normalize`,
  `NormalizeApproach`). The properties are functions with contracts and lemmas: fullname,
  sentence templates, serialized columns and the serialization round trip.
- `scenarios.dfy` (module `Scenarios`): clients that use the records through their contracts. They
  cover 433 Eros, an unnamed object with unknown diameter, rejected rows, and an approach
  before and after linking.

Modelling choices:

- `**info` becomes a record of optional fields (`NeoInfo`, `ApproachInfo`). `None`
  means the key was not supplied.
- A Python float is `Float = NaN | Finite(real)`. The unknown-diameter sentinel is
  `NaN`, as in the source. Infinities are not modelled.
- Foreign code becomes function parameters:
  - `floatOfText` is the numeral grammar of `float(str)`;
  - `parseTime` is `cd_to_datetime`;
  - `timeToText` is `datetime_to_str`;
  - `formatFixed(f, d)` is the `.{d}f` format specification.
- `DateTime` is an opaque type, because the helpers module is not part of this model.

Where the code behaves differently from what its docstrings and names suggest, the model follows the code:

- The hazard flag is decoded by looking it up in a dictionary literal. Python's `False`
  equals `0` and `0.0`, so a zero number decodes to `False` as well, besides the four
  keys of the dictionary literal `'Y'`, `'N'`, `''` and `False` (`DecodeHazard`,
  `RejectedRowsScenario`).
- `fullname` falls back to the bare designation only for the empty-string name. A
  `None` name compares unequal to `''`, so it is rendered: an unnamed object is
  `"2015 AB (None)"`, not `"2015 AB"` (`FullNameOf`, `UnnamedScenario`).
- `CloseApproach.fullname` cannot work at all (see Findings).

## Model

| member | source | states |
|---|---|---|
| `PyValues.Lookup` | models.py:52 | Dictionary subscription: finds an entry exactly when some key equals the looked-up value under Python `==`, and then returns that entry's value. |
| `Models.DecodeHazard` | models.py:50-52 | The flag decodes to true exactly for `'Y'` and to false exactly for an absent flag, `'N'`, `''`, `False` or numeric zero. Any other value raises `KeyError` carrying that value; there is no fallback. |
| `PyValues.PyEqSymmetric` | models.py:52 | Python `==` between the scalars a row holds is symmetric. |
| `PyValues.PyEqTransitive` | models.py:52 | Python `==` between those scalars is transitive. |
| `PyValues.NaNEqualsNothing` | models.py:52 | A NaN equals no value under `==`, on either side, itself included. |
| `PyValues.LookupFindsTheEqualKey` | models.py:52 | In a table with pairwise unequal keys, as in a dictionary, looking up a value equal to some entry's key returns exactly that entry's value. |
| `Models.HazardKeysDistinct` | models.py:50 | No two keys of the hazard table are equal under `==`. |
| `Models.DecodeHazardIsDictLookup` | models.py:50-52 | A flag equal to a key of the hazard dictionary literal decodes to that entry's value, whichever entry it is. |
| `Models.DecodeDiameter` | models.py:45-48 | A missing `diameter` key, and only that, raises `KeyError('diameter')`. A falsy value stores the NaN sentinel. Any other value goes through `float()`, so a stored zero can only come from a numeral text such as `"0"`. |
| `Models.Normalize` | models.py:42-54 | Construction succeeds exactly when both the diameter and the hazard flag decode. The diameter's exception takes precedence; when the diameter decodes but the flag does not, the flag's `KeyError` is raised. On success, `designation` defaults to `''`, `name` is stored unchanged, and the decoded diameter and flag are stored. |
| `Models.NeoDefaults` | models.py:42-54 | A row with only a falsy diameter gives designation `''`, name None, diameter NaN and not hazardous. |
| `Models.NearEarthObject.constructor` | models.py:37-54 | Stores the given coerced attributes and approach list unchanged. |
| `Models.NearEarthObject.Create` | models.py:37-54 | Fails exactly when `Normalize` fails, with the same exception. On success it returns a fresh NEO holding the normalised attributes, with `approaches` empty unless supplied. |
| `Models.FullNameOf` | models.py:56-61 | The full name equals the bare designation exactly when the name is `''`. Otherwise it is the designation followed by `" (" + name + ")"`, and a `None` name renders as `"None"`. |
| `Models.NearEarthObject.FullName` | models.py:56-61 | The `fullname` property: it starts with the designation and equals it exactly when the name is `''`. Otherwise the rest is `" (" + name + ")"`, and a `None` name renders as `"None"`. |
| `Models.NearEarthObject.Describe` | models.py:63-69 | The sentence starts with `"NEO " + fullname + " has a diameter of " + <diameter to 3 places> + " km and "`. It ends "is not potentially hazardous." exactly when the flag is false, and "and is potentially hazardous." exactly when it is true. Its length is that opening's plus the chosen ending's, so nothing else is in it. |
| `Models.NearEarthObject.Serialize` | models.py:76-83 | The row has exactly the keys `designation`, `name`, `diameter_km`, `potentially_hazardous`, and never `approaches`. |
| `Models.NeoSerializeRoundTrip` | models.py:76-83 | Reading a serialized NEO back gives exactly its stored designation, name, diameter (NaN included) and flag. |
| `Models.NeoRowDeterminesSerialization` | models.py:76-83 | Any row that reads back as an NEO's attributes is exactly that NEO's serialization. |
| `Models.NormalizeApproach` | models.py:106-114 | If the time does not parse, the result is that failure. Otherwise a failing `float()` of the distance is raised, and then one of the velocity. Success requires the time to parse and both distance and velocity to pass `float()`. The stored join key is the given designation or `''`. Distance and velocity are `float()` of the given values, or 0.0 when absent. |
| `Models.ApproachDefaults` | models.py:106-114 | An approach row with only a parseable time gives designation `''` and distance and velocity 0.0. |
| `Models.CloseApproach.constructor` | models.py:100-114 | Stores the given coerced attributes and NEO reference unchanged. |
| `Models.CloseApproach.Create` | models.py:100-119 | Fails exactly when `NormalizeApproach` fails, with the same exception. On success it returns a fresh approach whose `designation` accessor returns the captured join key unchanged, and whose `neo` is the supplied reference, or null. |
| `Models.CloseApproach.Designation` | models.py:116-119 | The `designation` property returns the join key the approach stores; `Create` states that this is the given designation or `''`. |
| `Models.CloseApproach.TimeStr` | models.py:121-134 | The `time_str` property is the helpers module's `datetime_to_str`, an opaque parameter, applied to the stored time. |
| `Models.CloseApproach.FullNameAsWritten` | models.py:136-141 | Always raises `AttributeError`: it reads `self.name`, which no approach has. |
| `Models.CloseApproach.FullName` | models.py:136-141 | Corrected `fullname`: succeeds exactly when the approach is linked. When its NEO's designation is the join key, the result equals the NEO's own full name. |
| `Models.FullNameAsWrittenFailsWhenLinked` | models.py:136-141 | For every linked approach, the as-written `fullname` fails while the corrected one succeeds. |
| `Models.CloseApproach.Describe` | models.py:143-146 | Fails with `AttributeError('fullname')` exactly when `neo` is null. Otherwise the sentence starts with the time text, the linked NEO's full name in quotes and the distance to 2 places, and ends with the velocity to 2 places and `" km/s."`. Its length is the sum of those two parts, so nothing else is in it. |
| `Models.CloseApproach.Serialize` | models.py:153-159 | The row has exactly the keys `datetime_utc`, `distance_au`, `velocity_km_s`. It never contains the NEO reference or the join key. |
| `Models.ApproachSerializeRoundTrip` | models.py:153-159 | Reading a serialized approach back gives its `time_str`, distance and velocity. |
| `Models.ApproachRowDeterminesSerialization` | models.py:153-159 | Any row that reads back as an approach's values is exactly that approach's serialization. |
| `Scenarios.ErosScenario` | models.py:37-83 | 433 Eros has the full name `"433 (Eros)"`, its sentence says it is not potentially hazardous, and this is its serialized row. |
| `Scenarios.UnnamedScenario` | models.py:42-61 | 2015 AB with a `None` diameter has the NaN diameter, the full name `"2015 AB (None)"`, and a serialized row with name None and flag true. |
| `Scenarios.RejectedRowsScenario` | models.py:45-52 | These rows are rejected: a `'maybe'` flag (`KeyError`), a non-numeral diameter (`ValueError`, raised before the bad flag is looked at), and a missing diameter (`KeyError`). A flag of numeric zero is accepted as not hazardous. |
| `Scenarios.ApproachScenario` | models.py:100-159 | An unlinked approach cannot render. Once its `neo` is set to Eros, it renders a sentence naming `'433 (Eros)'`, and its row holds the time text, distance and velocity. |

## Left out

- Parsing and formatting of date-times (`cd_to_datetime`, `datetime_to_str` in the
  helpers module): the helpers module is not part of this model. They are parameters, so
  the claim that `time_str` has no seconds is not modelled.
- Python's `float()` on text, and the `.3f` / `.2f` float formatting: these are
  interpreter behaviour, passed in as parameters. Infinities and IEEE arithmetic are not
  modelled; NaN is a distinct value that equals nothing.
- `__repr__` of both classes (models.py:71-74, 148-151): a debug rendering with no
  stable contract.
- The linking step (filling `approaches`, setting `neo`) belongs to `NEODatabase`, which
  is not part of this model. Only the scenario does it, by assigning the two fields.
- Aliasing: Python stores a supplied `approaches` list by reference. In the model,
  `approaches` is a sequence value.
- The `isinstance` assertions (models.py:43, 49, 53, 107, 109, 111, 113): the field types
  enforce them.
- Arbitrary extra keyword arguments and non-scalar argument values: the input records
  list exactly the fields the constructors read. Names and designations are strings or
  `None`.

## Findings

| source | as written | input that shows it | evidently intended | confidence | as-written member | corrected member |
|---|---|---|---|---|---|---|
| models.py:136-141 | `CloseApproach.fullname` reads `self.name`, which `__init__` never assigns, so it always raises `AttributeError` | any approach, such as `CloseApproach('2020-Jan-01 12:30', designation='433')` linked to 433 Eros, then `.fullname` | the NEO's full-name rule applied to the join key and the linked NEO's name | high (not executed) | `Models.CloseApproach.FullNameAsWritten`, `Models.FullNameAsWrittenFailsWhenLinked` | `Models.CloseApproach.FullName` |
