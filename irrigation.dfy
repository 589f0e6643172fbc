/** The in-memory state store behind the ingest and control handlers of the
    irrigation dashboard: the current sensor record, the auto-mode flag and a
    history of moisture readings bounded to the newest 500 entries. */
module Irrigation {
  import opened JsonValues

  /** Largest number of history entries the store keeps. */
  const MaxHistory: nat := 500

  /** The sensor fields an ingest payload may set, in the order they are copied. */
  const SensorKeys: seq<string> :=
    ["moisture", "raw_value", "pump_status", "threshold_low", "threshold_high"]

  /** The same five field names as a set, for cheap membership proofs; it
      equals KeySet(SensorKeys), as ApplySensorUpdate asserts. */
  const SensorFields: set<string> :=
    {"moisture", "raw_value", "pump_status", "threshold_low", "threshold_high"}

  /** One history record: the ingest time and the moisture value after that ingest. */
  datatype Entry = Entry(timestamp: string, moisture: Json)

  /** The auto-mode flag together with the pump field that control commands set. */
  datatype Mode = Mode(autoMode: bool, pumpStatus: Json)

  /** The sensor record before any ingest: no reading yet, pump off, thresholds 30/60. */
  const InitialSensorData: map<string, Json> :=
    map["moisture" := JNull, "raw_value" := JNull, "pump_status" := JBool(false),
        "threshold_low" := JNum(30), "threshold_high" := JNum(60)]

  /** The separate status record reported by the data query; no handler writes it. */
  const InitialReportedStatus: map<string, Json> :=
    map["auto_mode" := JBool(true), "manual_override" := JBool(false),
        "manual_pump_status" := JBool(false)]

  /** Body of every 400 response. */
  const InvalidJsonBody: Json := JObj(map["error" := JStr("invalid json")])

  /** Body of an accepted ingest. */
  const IngestOkBody: Json := JObj(map["ok" := JBool(true)])

  /** Body of an accepted control command: the acknowledgement and copies of both records. */
  function ControlOkBody(autoMode: bool, sensorData: map<string, Json>): Json {
    JObj(map["ok" := JBool(true),
             "system_status" := JObj(map["auto_mode" := JBool(autoMode)]),
             "sensor_data" := JObj(sensorData)])
  }

  function KeySet(keys: seq<string>): set<string> {
    set k | k in keys
  }

  /** The keys of a one-longer prefix are those of the prefix and the next key. */
  lemma KeySetExtend(keys: seq<string>, i: nat)
    requires i < |keys|
    ensures KeySet(keys[..i + 1]) == KeySet(keys[..i]) + {keys[i]}
  {
    assert keys[..i + 1] == keys[..i] + [keys[i]];
  }

  // ---------------------------------------------------------------------------
  // Payload acceptance

  /** A handler refuses a body that did not parse (or was null) and a falsy mapping. */
  predicate Rejected(payload: Option<map<string, Json>>) {
    match payload
    case None => true
    case Some(m) => !Truthy(JObj(m))
  }

  /** Exactly the missing body and the empty mapping are refused. */
  lemma RejectedIffMissingOrEmpty(payload: Option<map<string, Json>>)
    ensures Rejected(payload) <==> payload == None || payload == Some(map[])
  {
  }

  // ---------------------------------------------------------------------------
  // Sensor record update

  /** `data` with every key of `keys` that `payload` carries overwritten. */
  function Merged(data: map<string, Json>, payload: map<string, Json>, keys: set<string>): map<string, Json> {
    map k | k in data.Keys + (payload.Keys * keys) ::
      if k in payload && k in keys then payload[k] else data[k]
  }

  /** Widening the overwritten keys by one key k is one more write of k, when
      the payload carries it. */
  lemma MergedStep(data: map<string, Json>, payload: map<string, Json>, keys: set<string>, k: string)
    ensures Merged(data, payload, keys + {k})
         == if k in payload then Merged(data, payload, keys)[k := payload[k]] else Merged(data, payload, keys)
  {
  }

  /** The sensor record after an accepted ingest of `payload`. */
  function SensorUpdate(data: map<string, Json>, payload: map<string, Json>): (r: map<string, Json>)
    ensures r.Keys == data.Keys + (payload.Keys * SensorFields)
    ensures forall k :: k in payload && k in SensorFields ==> r[k] == payload[k]
    ensures forall k :: k in data && k !in payload ==> r[k] == data[k]
    ensures forall k :: k in data && k !in SensorFields ==> r[k] == data[k]
  {
    Merged(data, payload, SensorFields)
  }

  /** The update keeps the record's fields exactly the five sensor fields. */
  lemma SensorUpdateKeepsFields(data: map<string, Json>, payload: map<string, Json>)
    requires data.Keys == SensorFields
    ensures SensorUpdate(data, payload).Keys == SensorFields
  {
  }

  /** Keys outside the five sensor fields make no difference to the update. */
  lemma SensorUpdateIgnoresUnrecognised(data: map<string, Json>, p: map<string, Json>, q: map<string, Json>)
    requires forall k :: k in SensorFields ==> (k in p <==> k in q)
    requires forall k :: k in SensorFields && k in p ==> p[k] == q[k]
    ensures SensorUpdate(data, p) == SensorUpdate(data, q)
  {
  }

  /** The moisture an accepted ingest records is the payload's, when it carries
      one, and the previous reading otherwise. */
  lemma SensorUpdateMoisture(data: map<string, Json>, payload: map<string, Json>)
    requires "moisture" in data
    ensures "moisture" in SensorUpdate(data, payload)
    ensures SensorUpdate(data, payload)["moisture"]
         == if "moisture" in payload then payload["moisture"] else data["moisture"]
  {
  }

  /** Ingesting the same payload twice leaves the record as one ingest does. */
  lemma SensorUpdateIdempotent(data: map<string, Json>, payload: map<string, Json>)
    ensures SensorUpdate(SensorUpdate(data, payload), payload) == SensorUpdate(data, payload)
  {
  }

  /** Two ingests in a row equal one ingest of both payloads, the later one's
      values winning where both carry a field. */
  lemma SensorUpdateLastWriteWins(data: map<string, Json>, p: map<string, Json>, q: map<string, Json>)
    ensures SensorUpdate(SensorUpdate(data, p), q) == SensorUpdate(data, p + q)
  {
  }

  // ---------------------------------------------------------------------------
  // History

  /** The history with its oldest entries deleted until at most MaxHistory remain. */
  function Truncated(h: seq<Entry>): seq<Entry> {
    if |h| > MaxHistory then h[|h| - MaxHistory..] else h
  }

  /** One accepted ingest adds one entry and never lets the history exceed
      MaxHistory: the result is the newest min(|h| + 1, MaxHistory) entries of
      h + [e], so only the oldest entries are dropped and e is always last. */
  lemma AppendBounded(h: seq<Entry>, e: Entry)
    ensures var r := Truncated(h + [e]);
      && |r| == (if |h| + 1 < MaxHistory then |h| + 1 else MaxHistory)
      && r == (h + [e])[|h| + 1 - |r|..]
      && r[|r| - 1] == e
  {
  }

  /** The history after a series of accepted ingests that append es in order. */
  function Replay(h: seq<Entry>, es: seq<Entry>): seq<Entry>
    decreases |es|
  {
    if es == [] then h else Replay(Truncated(h + [es[0]]), es[1..])
  }

  /** Truncating early and appending more is the same as appending and truncating once. */
  lemma TruncatedAbsorbs(y: seq<Entry>, z: seq<Entry>)
    requires z != []
    ensures Truncated(Truncated(y) + z) == Truncated(y + z)
  {
    if |y| > MaxHistory {
      var a := |y| - MaxHistory;
      var w := (y + z)[a..];
      assert Truncated(y) + z == w;
      assert Truncated(w) == w[|z|..];
      assert Truncated(y + z) == (y + z)[a + |z|..];
      assert w[|z|..] == (y + z)[a + |z|..];
    }
  }

  /** Appending the first entry, truncating, and appending the rest gives,
      once truncated, the same history as appending all at once. */
  lemma TruncatedFirstThenRest(h: seq<Entry>, es: seq<Entry>)
    requires es != []
    ensures Truncated(Truncated(h + [es[0]]) + es[1..]) == Truncated(h + es)
  {
    assert (h + [es[0]]) + es[1..] == h + es;
    if es[1..] == [] {
      assert Truncated(h + [es[0]]) + es[1..] == Truncated(h + [es[0]]);
    } else {
      TruncatedAbsorbs(h + [es[0]], es[1..]);
    }
  }

  /** Truncation keeps min(|h|, MaxHistory) entries. */
  lemma TruncatedLength(h: seq<Entry>)
    ensures |Truncated(h)| == (if |h| < MaxHistory then |h| else MaxHistory)
  {
  }

  /** Over any series of ingests the history holds exactly the newest
      MaxHistory of all entries ever held, in insertion order. */
  lemma {:induction false} ReplayKeepsNewest(h: seq<Entry>, es: seq<Entry>)
    requires |h| <= MaxHistory
    ensures Replay(h, es) == Truncated(h + es)
    decreases |es|
  {
    if es == [] {
      assert h + es == h;
    } else {
      TruncatedLength(h + [es[0]]);
      ReplayKeepsNewest(Truncated(h + [es[0]]), es[1..]);
      TruncatedFirstThenRest(h, es);
    }
  }

  /** The history never holds more than MaxHistory entries. */
  lemma ReplayBounded(h: seq<Entry>, es: seq<Entry>)
    requires |h| <= MaxHistory
    ensures |Replay(h, es)| == (if |h| + |es| < MaxHistory then |h| + |es| else MaxHistory)
  {
    ReplayKeepsNewest(h, es);
    TruncatedLength(h + es);
  }

  // ---------------------------------------------------------------------------
  // Control commands

  /** The auto_mode command: set the flag to the truthiness of its value. */
  function SetAutoMode(m: Mode, payload: map<string, Json>): Mode {
    if "auto_mode" in payload then m.(autoMode := Truthy(payload["auto_mode"])) else m
  }

  /** The manual_pump command: set the pump to the truthiness of its value and
      leave auto mode. */
  function SetManualPump(m: Mode, payload: map<string, Json>): Mode {
    if "manual_pump" in payload
    then Mode(false, JBool(Truthy(payload["manual_pump"])))
    else m
  }

  /** An accepted control command applies auto_mode, then manual_pump. */
  function ApplyControl(m: Mode, payload: map<string, Json>): (r: Mode)
    ensures "manual_pump" in payload ==> !r.autoMode
    ensures "manual_pump" in payload ==> r.pumpStatus == JBool(Truthy(payload["manual_pump"]))
    ensures "manual_pump" !in payload ==> r.pumpStatus == m.pumpStatus
    ensures "manual_pump" !in payload && "auto_mode" in payload ==> r.autoMode == Truthy(payload["auto_mode"])
    ensures "manual_pump" !in payload && "auto_mode" !in payload ==> r == m
  {
    SetManualPump(SetAutoMode(m, payload), payload)
  }

  /** Repeating a control command changes nothing further. */
  lemma ApplyControlIdempotent(m: Mode, payload: map<string, Json>)
    ensures ApplyControl(ApplyControl(m, payload), payload) == ApplyControl(m, payload)
  {
  }

  /** A manual_pump command decides the whole mode, whatever came before it. */
  lemma ManualPumpOverridesHistory(m: Mode, p: map<string, Json>, q: map<string, Json>)
    requires "manual_pump" in q
    ensures ApplyControl(ApplyControl(m, p), q) == ApplyControl(m, q)
  {
  }

  // ---------------------------------------------------------------------------
  // The store

  class Store {
    /** The current sensor record, keyed by the five sensor field names. */
    var sensorData: map<string, Json>
    /** Whether the system controls the pump from the thresholds. */
    var autoMode: bool
    /** Recent moisture readings, oldest first. */
    var history: seq<Entry>
    /** The status record the data query reports; the handlers never write it. */
    var reportedStatus: map<string, Json>

    ghost predicate Valid()
      reads this
    {
      sensorData.Keys == SensorFields && |history| <= MaxHistory
    }

    /** The store as the process starts. */
    constructor ()
      ensures Valid()
      ensures sensorData == InitialSensorData && autoMode && history == []
      ensures reportedStatus == InitialReportedStatus
    {
      sensorData := InitialSensorData;
      autoMode := true;
      history := [];
      reportedStatus := InitialReportedStatus;
    }

    /** The ingest handler: refuse a missing or falsy payload without touching
        the store; otherwise update the sensor record, then append one history
        entry, as one atomic step. */
    method Ingest(payload: Option<map<string, Json>>, isoNow: string) returns (status: int, body: Json)
      requires Valid()
      modifies this
      ensures Valid()
      ensures autoMode == old(autoMode) && reportedStatus == old(reportedStatus)
      ensures Rejected(payload) ==> status == 400 && body == InvalidJsonBody
      ensures Rejected(payload) ==> sensorData == old(sensorData) && history == old(history)
      ensures !Rejected(payload) ==> status == 200 && body == IngestOkBody
      ensures !Rejected(payload) ==> sensorData == SensorUpdate(old(sensorData), payload.value)
      ensures !Rejected(payload) ==>
        history == Truncated(old(history) + [Entry(isoNow + "Z", sensorData["moisture"])])
    {
      if Rejected(payload) {
        return 400, InvalidJsonBody;
      }
      ApplySensorUpdate(payload.value);
      AppendHistory(isoNow);
      status, body := 200, IngestOkBody;
    }

    /** Copy each of the five sensor fields that the payload carries into the
        record, in order; other payload keys are ignored. */
    method ApplySensorUpdate(p: map<string, Json>)
      requires Valid()
      modifies this`sensorData
      ensures Valid()
      ensures sensorData == SensorUpdate(old(sensorData), p)
    {
      var i := 0;
      while i < |SensorKeys|
        invariant 0 <= i <= |SensorKeys|
        invariant sensorData == Merged(old(sensorData), p, KeySet(SensorKeys[..i]))
      {
        var k := SensorKeys[i];
        KeySetExtend(SensorKeys, i);
        MergedStep(old(sensorData), p, KeySet(SensorKeys[..i]), k);
        if k in p {
          sensorData := sensorData[k := p[k]];
        }
        i := i + 1;
      }
      assert SensorKeys[..i] == SensorKeys;
      assert KeySet(SensorKeys) == SensorFields;
      SensorUpdateKeepsFields(old(sensorData), p);
    }

    /** Append an entry stamped isoNow + "Z" carrying the current moisture,
        then delete the oldest entries beyond MaxHistory. */
    method AppendHistory(isoNow: string)
      requires Valid()
      modifies this`history
      ensures Valid()
      ensures history == Truncated(old(history) + [Entry(isoNow + "Z", sensorData["moisture"])])
    {
      assert "moisture" in sensorData by {
        assert SensorKeys[0] == "moisture";
      }
      var entry := Entry(isoNow + "Z", if "moisture" in sensorData then sensorData["moisture"] else JNull);
      history := history + [entry];
      if |history| > MaxHistory {
        history := history[|history| - MaxHistory..];
      }
    }

    /** The control handler: refuse a missing or falsy payload without touching
        the store; otherwise apply auto_mode, then manual_pump, and answer with
        the resulting records. */
    method Control(payload: Option<map<string, Json>>) returns (status: int, body: Json)
      requires Valid()
      modifies this
      ensures Valid()
      ensures history == old(history) && reportedStatus == old(reportedStatus)
      ensures Rejected(payload) ==> status == 400 && body == InvalidJsonBody
      ensures Rejected(payload) ==> sensorData == old(sensorData) && autoMode == old(autoMode)
      ensures !Rejected(payload) ==>
        var m := ApplyControl(Mode(old(autoMode), old(sensorData)["pump_status"]), payload.value);
        && autoMode == m.autoMode
        && sensorData == old(sensorData)["pump_status" := m.pumpStatus]
        && status == 200
        && body == ControlOkBody(autoMode, sensorData)
    {
      if Rejected(payload) {
        return 400, InvalidJsonBody;
      }
      var p := payload.value;
      if "auto_mode" in p {
        autoMode := Truthy(p["auto_mode"]);
      }
      if "manual_pump" in p {
        sensorData := sensorData["pump_status" := JBool(Truthy(p["manual_pump"]))];
        autoMode := false;
      }
      status, body := 200, ControlOkBody(autoMode, sensorData);
    }
  }

  /** An ingest carrying only moisture and pump status, on the initial record,
      keeps the default thresholds and the absent raw value. */
  lemma PartialIngestKeepsDefaults()
    ensures var d := SensorUpdate(InitialSensorData, map["moisture" := JNum(55), "pump_status" := JBool(true)]);
      && d["moisture"] == JNum(55) && d["pump_status"] == JBool(true)
      && d["raw_value"] == JNull && d["threshold_low"] == JNum(30) && d["threshold_high"] == JNum(60)
  {
  }

  /** A client of the store: a partial ingest sets the fields it carries and
      keeps the default thresholds; the first entry carries the new moisture. */
  method ScenarioPartialIngest(isoNow: string) {
    var store := new Store();
    var reading := map["moisture" := JNum(55), "pump_status" := JBool(true)];
    assert !Rejected(Some(reading));
    var status, body := store.Ingest(Some(reading), isoNow);
    PartialIngestKeepsDefaults();
    assert store.sensorData["threshold_low"] == JNum(30);
    assert store.history == [Entry(isoNow + "Z", JNum(55))];
  }

  /** A client of the store: a control command carrying both keys ends in
      manual mode with the pump off. */
  method ScenarioControlPrecedence() {
    var store := new Store();
    var command := map["auto_mode" := JBool(true), "manual_pump" := JBool(false)];
    assert !Rejected(Some(command)) && command["manual_pump"] == JBool(false);
    var status, body := store.Control(Some(command));
    assert !store.autoMode && store.sensorData["pump_status"] == JBool(false);
  }

  /** A client of the store: an empty control command is refused. */
  method ScenarioEmptyCommandRefused() {
    var store := new Store();
    RejectedIffMissingOrEmpty(Some(map[]));
    var status, body := store.Control(Some(map[]));
    assert status == 400 && store.autoMode;
  }
}
