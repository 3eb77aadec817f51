/** The web-facing state of run.py: the shared detection state object with
    its two setters, and the derivation of the `/status` response from the
    last detection dictionary, the counter globals, the OPC-UA client and
    whether the camera has been initialised. */
module StatusApi {
  import opened Records
  import opened Statistics

  /** The last detection dictionary before any frame has been processed. */
  const InitialDetection: map<string, Value> :=
    map["pizza" := Bool(false), "blister" := Bool(false), "timestamp" := Null]

  /** The object shared between the web handlers and the detection code. */
  class SharedState {
    var detectionEnabled: bool
    var lastDetection: map<string, Value>

    /** Detection is enabled from the start. */
    constructor ()
      ensures detectionEnabled && lastDetection == InitialDetection
    {
      detectionEnabled := true;
      lastDetection := InitialDetection;
    }

    /** `start_detection`: enables detection and reports success. */
    method StartDetection() returns (success: bool)
      modifies this`detectionEnabled
      ensures success && detectionEnabled
    {
      detectionEnabled := true;
      success := true;
    }

    /** `stop_detection`: disables detection and reports success. */
    method StopDetection() returns (success: bool)
      modifies this`detectionEnabled
      ensures success && !detectionEnabled
    {
      detectionEnabled := false;
      success := true;
    }
  }

  datatype PlcSignals = PlcSignals(bit0PizzaSinBlister: bool, bit1PizzaConBlister: bool)

  datatype StatusReport = StatusReport(
    detectionEnabled: bool,
    lastDetection: map<string, Value>,
    plcSignals: PlcSignals,
    opcuaConnected: bool,
    systemStatus: string)

  /** The keys the status handler writes into its copy of the last detection. */
  const OverriddenKeys: set<string> :=
    {"counter_sin_blister", "counter_con_blister", "counter_total",
     "porcentaje_sin_blister", "porcentaje_con_blister"}

  /** The status response. `opcuaClient` is None when no client exists and
      otherwise holds the client's `connected` flag. The response carries
      the enabled flag as it is, every key of the last detection plus the
      counter and percentage keys, never both PLC bits, and reports a
      connection only for an existing, connected client. */
  function Status(detectionEnabled: bool, lastDetection: map<string, Value>, counters: Counts,
                  opcuaClient: Option<bool>, cameraInitialized: bool): (r: StatusReport)
    ensures r.detectionEnabled == detectionEnabled
    ensures r.lastDetection.Keys == lastDetection.Keys + OverriddenKeys
    ensures !(r.plcSignals.bit0PizzaSinBlister && r.plcSignals.bit1PizzaConBlister)
    ensures r.opcuaConnected <==> opcuaClient == Some(true)
    ensures r.systemStatus in {"active", "initializing"}
  {
    var withCounters := lastDetection["counter_sin_blister" := Int(counters.sinBlister)]
                                     ["counter_con_blister" := Int(counters.conBlister)]
                                     ["counter_total" := Int(counters.total)];
    var data := withCounters["porcentaje_sin_blister" := Real(Percentage(counters.sinBlister, counters.total))]
                            ["porcentaje_con_blister" := Real(Percentage(counters.conBlister, counters.total))];
    var pizza := Truthy(Get(data, "pizza", Bool(false)));
    var blister := Truthy(Get(data, "blister", Bool(false)));
    StatusReport(
      detectionEnabled,
      data,
      PlcSignals(pizza && !blister, pizza && blister),
      opcuaClient.Some? && opcuaClient.value,
      if cameraInitialized then "active" else "initializing")
  }

  /** The two PLC bits are never both set; with boolean `pizza`/`blister`
      entries they are pizza-and-not-blister and pizza-and-blister, and when
      the entries are missing both bits are false. */
  lemma StatusSignals(detectionEnabled: bool, lastDetection: map<string, Value>, counters: Counts,
                      opcuaClient: Option<bool>, cameraInitialized: bool)
    ensures var s := Status(detectionEnabled, lastDetection, counters, opcuaClient, cameraInitialized).plcSignals;
            && !(s.bit0PizzaSinBlister && s.bit1PizzaConBlister)
            && ("pizza" !in lastDetection ==> !s.bit0PizzaSinBlister && !s.bit1PizzaConBlister)
            && ("pizza" in lastDetection && lastDetection["pizza"].Bool? &&
                "blister" in lastDetection && lastDetection["blister"].Bool? ==>
                  var p, b := lastDetection["pizza"].b, lastDetection["blister"].b;
                  s == PlcSignals(p && !b, p && b))
  {
  }

  /** The counter entries of the response always equal the counters, whatever
      the last detection held, every other entry is kept, and for consistent
      counters the percentages are 0 when nothing was counted and otherwise
      add up to 100. */
  lemma StatusCounters(detectionEnabled: bool, lastDetection: map<string, Value>, counters: Counts,
                       opcuaClient: Option<bool>, cameraInitialized: bool)
    ensures var d := Status(detectionEnabled, lastDetection, counters, opcuaClient, cameraInitialized).lastDetection;
            && d.Keys == lastDetection.Keys + OverriddenKeys
            && d["counter_sin_blister"] == Int(counters.sinBlister)
            && d["counter_con_blister"] == Int(counters.conBlister)
            && d["counter_total"] == Int(counters.total)
            && (forall k :: k in lastDetection && k !in OverriddenKeys ==> d[k] == lastDetection[k])
            && (Consistent(counters) && counters.total == 0 ==>
                  d["porcentaje_sin_blister"] == Real(0.0) && d["porcentaje_con_blister"] == Real(0.0))
            && (Consistent(counters) && counters.total > 0 ==>
                  d["porcentaje_sin_blister"].r + d["porcentaje_con_blister"].r == 100.0)
  {
    if Consistent(counters) {
      PercentagesSplit(counters);
    }
  }

  /** The system is reported active exactly when the camera object exists, and
      OPC-UA connected exactly when a client exists and is connected. */
  lemma StatusHealth(detectionEnabled: bool, lastDetection: map<string, Value>, counters: Counts,
                     opcuaClient: Option<bool>, cameraInitialized: bool)
    ensures var r := Status(detectionEnabled, lastDetection, counters, opcuaClient, cameraInitialized);
            && (r.systemStatus == "active" <==> cameraInitialized)
            && (r.systemStatus == "initializing" <==> !cameraInitialized)
            && (r.opcuaConnected <==> opcuaClient == Some(true))
            && r.detectionEnabled == detectionEnabled
  {
  }
}
