# Smart irrigation store — a Dafny model

This project models the state store of the smart irrigation dashboard
(`smart_irrigation_system/app.py`): the current sensor record, the auto-mode
flag, and the bounded moisture history. Two POST handlers change that state:

- **ingest** accepts a sensor snapshot pushed by the field device. It rejects a
  missing or falsy body with 400 and `{"error": "invalid json"}`. Otherwise it
  copies whichever of `moisture`, `raw_value`, `pump_status`, `threshold_low`
  and `threshold_high` the body carries into the record. Then it appends one
  `{timestamp, moisture}` entry to the history and deletes the oldest entries
  beyond 500.
- **control** accepts an operator command. It rejects a missing or falsy body
  the same way. Otherwise it applies `auto_mode` first and `manual_pump`
  second. Both values are coerced with Python's `bool()`. A `manual_pump`
  command also forces auto mode off, so it wins over an `auto_mode` in the same
  body.

The model is in two modules:

- `JsonValues` (`json_values.dfy`): decoded JSON values (`Json`, with integer
  numbers), an `Option` for "the body did not parse", and `Truthy`, which is
  Python's `bool()` on those values.
- `Irrigation` (`irrigation.dfy`): the constants and initial records, the
  specification functions (`SensorUpdate`, `Truncated`, `Replay`,
  `ApplyControl`) with the lemmas about them, and the class `Store`. Its fields
  `sensorData` (a map, like the Python dict), `autoMode`, `history` and
  `reportedStatus` are the module-level state. Its methods `Ingest` and
  `Control` are the handler bodies. The model treats each handler as one
  atomic step. `Ingest`'s two parts are the methods
  `ApplySensorUpdate` (the loop over the five keys) and `AppendHistory`
  (append, then delete a prefix). Each method's `ensures` ties the new fields
  to the specification functions applied to the old ones.

Three client methods use only the class's contracts.
`ScenarioPartialIngest` shows that a partial ingest keeps the default
thresholds and records the new moisture. `ScenarioControlPrecedence` shows
that `{auto_mode: true, manual_pump: false}` ends with the pump off and auto
mode off. `ScenarioEmptyCommandRefused` shows that `{}` is refused.

Facts about the code that the model keeps:

- The field names are the code's snake_case keys (`raw_value`, `pump_status`,
  `auto_mode`, `manual_pump`).
- A body is refused when it is falsy (`not payload`, app.py:64 and :90), so
  the empty mapping `{}` is refused too.
- `Ingest` never touches `autoMode`, and neither handler writes
  `reportedStatus`, the status dict that the data query reports (app.py:51).

## Model

| member | source | states |
|---|---|---|
| `JsonValues.FalsyIffFalsyLiteral` | smart_irrigation_system/app.py:95-99 | `bool()` on a decoded JSON value is false exactly for null, false, 0, "", [] and {} |
| `Irrigation.RejectedIffMissingOrEmpty` | smart_irrigation_system/app.py:63-65 | a body is refused exactly when it is missing or is the empty mapping |
| `Irrigation.SensorUpdate` | smart_irrigation_system/app.py:68-71 | each of the five sensor keys in the payload is overwritten with the payload's value; absent sensor keys and all other fields keep their value; no key outside the five is added |
| `Irrigation.SensorUpdateKeepsFields` | smart_irrigation_system/app.py:27-33 | a record holding exactly the five sensor fields still holds exactly those after an update |
| `Irrigation.SensorUpdateIgnoresUnrecognised` | smart_irrigation_system/app.py:69-71 | two payloads that agree on the five sensor keys give the same record, whatever other keys they carry |
| `Irrigation.SensorUpdateMoisture` | smart_irrigation_system/app.py:69-76 | the moisture an accepted ingest records is the payload's when it carries one, and the previous reading otherwise |
| `Irrigation.PartialIngestKeepsDefaults` | smart_irrigation_system/app.py:27-33 | ingesting only moisture 55 and pump on into the initial record leaves raw value null and the thresholds at 30 and 60 |
| `Irrigation.SensorUpdateIdempotent` | smart_irrigation_system/app.py:69-71 | ingesting the same payload twice gives the record one ingest gives |
| `Irrigation.SensorUpdateLastWriteWins` | smart_irrigation_system/app.py:69-71 | two ingests in a row equal one ingest of the merged payload, the later payload winning on shared keys |
| `Irrigation.AppendBounded` | smart_irrigation_system/app.py:74-80 | one append leaves min(old length + 1, 500) entries, which are the newest entries of old + [new], with the new entry last |
| `Irrigation.TruncatedLength` | smart_irrigation_system/app.py:79-80 | truncation keeps min(length, 500) entries |
| `Irrigation.TruncatedAbsorbs` | smart_irrigation_system/app.py:79-80 | truncating and then appending a non-empty run of entries, once truncated again, is the same as appending and truncating once |
| `Irrigation.TruncatedFirstThenRest` | smart_irrigation_system/app.py:74-80 | one ingest step followed by appending the remaining entries gives the same truncated history as appending them all at once |
| `Irrigation.ReplayKeepsNewest` | smart_irrigation_system/app.py:74-80 | after any series of accepted ingests, the history is the newest 500 of all entries ever appended, in order (FIFO eviction) |
| `Irrigation.ReplayBounded` | smart_irrigation_system/app.py:74-80 | after n accepted ingests from a history of length m, the length is min(m + n, 500); it never exceeds 500 |
| `Irrigation.ApplyControl` | smart_irrigation_system/app.py:94-101 | with `manual_pump`: pump set to its truthiness and auto mode off, whatever `auto_mode` said; with only `auto_mode`: auto mode set to its truthiness and pump unchanged; with neither: nothing changes |
| `Irrigation.ApplyControlIdempotent` | smart_irrigation_system/app.py:94-101 | repeating a control command changes nothing further |
| `Irrigation.ManualPumpOverridesHistory` | smart_irrigation_system/app.py:97-101 | after a `manual_pump` command the mode does not depend on any earlier command |
| `Irrigation.Store.constructor` | smart_irrigation_system/app.py:20-36 | moisture and raw value null, pump off, thresholds 30/60, auto mode on, empty history, the reported status dict at its literal value |
| `Irrigation.Store.Ingest` | smart_irrigation_system/app.py:63-82 | a refused body gives 400 and leaves every field unchanged; an accepted one gives 200, the record becomes `SensorUpdate` of the payload and the history becomes `Truncated` of old history plus one entry stamped with the time + "Z" and the new moisture; auto mode and the reported status never change |
| `Irrigation.Store.ApplySensorUpdate` | smart_irrigation_system/app.py:69-71 | the loop over the five keys leaves the record equal to `SensorUpdate` of the old record |
| `Irrigation.Store.AppendHistory` | smart_irrigation_system/app.py:74-80 | the history becomes `Truncated` of old history plus one entry carrying the current moisture |
| `Irrigation.Store.Control` | smart_irrigation_system/app.py:89-103 | a refused body gives 400 and leaves every field unchanged; an accepted one gives 200 with copies of both records, sets auto mode and the pump field as `ApplyControl` says, and leaves the other sensor fields, the history and the reported status unchanged |

## Left out

- Flask routing, `jsonify`, CORS and the page route: web framework plumbing. Response bodies are modelled as `Json` values.
- The data and history queries: they only project data from the sensor-reading module, which is not part of this model.
- The lock: each handler is modelled as one atomic method. The control response is read after the lock is released (app.py:103); the model builds it from the state the command leaves, so it does not capture a concurrent ingest showing up in that response.
- The clock: the ISO time string is a parameter `isoNow`, and the model only appends the literal "Z" to it.
- JSON parsing: the parsed body is an `Option<map<string, Json>>`. `None` stands for every refused body that is not a mapping: one that did not parse, `null`, and the falsy non-mappings `false`, `0`, `""` and `[]`, which app.py:64 and :90 refuse the same way (400, no state change).
- A truthy body that is not a mapping (a non-empty list, a non-zero number, a non-empty string): Python's behaviour for it is membership tests on that value or an exception, and the model does not reproduce either.
- Floating-point JSON numbers: numbers are integers.
- The startup block: process start and serial I/O.
