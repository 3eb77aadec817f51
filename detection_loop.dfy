/** The background detection loop of app/camera.py: for every captured frame
    it computes the zone, classifies the boxes, runs the edge-detection step
    (dispatching pulses to the OPC-UA client and bumping the counters),
    stores the latest detections and publishes the detection dictionary to
    the shared state; a failed capture is skipped. The per-viewer
    `get_detection_flags` runs the same classification. */
module DetectionLoop {
  import opened Records
  import opened Geometry
  import opened Classification
  import opened Statistics
  import opened EdgeDetection
  import opened OpcUa
  import opened StatusApi

  /** The class identifiers of the configuration. */
  datatype DetectionConfig = DetectionConfig(pizzaClassId: int, blisterClassId: int)

  /** The identifiers config.py sets. */
  const DefaultConfig := DetectionConfig(1, 0)

  /** One capture: a failure, or a frame of the given size with the boxes the
      detector found in it and the clock reading taken after processing it. */
  datatype Frame =
    | CaptureFailed
    | Captured(width: nat, height: nat, detections: seq<Detection>, timestamp: string)

  /** The flags of a captured frame, computed over its zone. */
  function FrameFlags(frame: Frame, cfg: DetectionConfig): Flags
    requires frame.Captured?
  {
    Classified(frame.detections, GreenBoxArea(frame.width, frame.height), cfg.pizzaClassId, cfg.blisterClassId)
  }

  function ObservationOf(f: Flags): Observation
  {
    Observation(f.pizza, f.blister)
  }

  /** The classifications the loop acts on: one per captured frame, in order. */
  function Observations(frames: seq<Frame>, cfg: DetectionConfig): seq<Observation>
    decreases |frames|
  {
    if frames == [] then []
    else
      var last := frames[|frames| - 1];
      Observations(frames[..|frames| - 1], cfg) +
      (if last.Captured? then [ObservationOf(FrameFlags(last, cfg))] else [])
  }

  /** The last frame that was captured, if any: the one whose flags the
      loop stored and published last. */
  function LastCaptured(frames: seq<Frame>): (r: Option<Frame>)
    ensures r.Some? ==> r.value.Captured?
    decreases |frames|
  {
    if frames == [] then None
    else if frames[|frames| - 1].Captured? then Some(frames[|frames| - 1])
    else LastCaptured(frames[..|frames| - 1])
  }

  /** With the configured identifiers, a 640 × 480 frame holding a pizza
      box and a blister box inside its zone (x 60..480, y 75..405) raises both
      flags with their confidences, while a blister box that crosses the
      zone's left edge is ignored. */
  lemma DefaultConfigExample()
    ensures var pizza := Detection(Some(1), Some(91.5), Box(100.0, 100.0, 300.0, 300.0));
            var blister := Detection(Some(0), Some(80.0), Box(150.0, 150.0, 250.0, 250.0));
            var outside := Detection(Some(0), Some(99.0), Box(50.0, 150.0, 250.0, 250.0));
            && FrameFlags(Captured(640, 480, [pizza, blister], "t"), DefaultConfig) == Flags(true, true, 91.5, 80.0)
            && FrameFlags(Captured(640, 480, [pizza, outside], "t"), DefaultConfig) == Flags(true, false, 91.5, 0.0)
  {
    var pizza := Detection(Some(1), Some(91.5), Box(100.0, 100.0, 300.0, 300.0));
    var blister := Detection(Some(0), Some(80.0), Box(150.0, 150.0, 250.0, 250.0));
    var outside := Detection(Some(0), Some(99.0), Box(50.0, 150.0, 250.0, 250.0));
    var area := GreenBoxArea(640, 480);
    assert area == Area(60, 75, 480, 405);
    assert [pizza, blister][..1] == [pizza] && [pizza, outside][..1] == [pizza];
    assert [pizza][..0] == [];
    assert IsInsideArea(pizza.box, area) && IsInsideArea(blister.box, area) && !IsInsideArea(outside.box, area);
    var afterPizza := Classified([pizza], area, 1, 0);
    assert afterPizza == Absorb(Classified([pizza][..0], area, 1, 0), pizza, area, 1, 0);
    assert afterPizza == Absorb(NoFlags, pizza, area, 1, 0);
    assert Classified([pizza, blister], area, 1, 0) == Absorb(afterPizza, blister, area, 1, 0);
    assert Classified([pizza, outside], area, 1, 0) == Absorb(afterPizza, outside, area, 1, 0);
  }

  /** The detection dictionary the loop publishes to the shared state. */
  function Snapshot(f: Flags, opcuaConnected: bool, c: Counts, timestamp: string): map<string, Value>
  {
    map[
      "pizza" := Bool(f.pizza),
      "blister" := Bool(f.blister),
      "conf_pizza" := Real(f.confPizza),
      "conf_blister" := Real(f.confBlister),
      "opcua_connected" := Bool(opcuaConnected),
      "counter_sin_blister" := Int(c.sinBlister),
      "counter_con_blister" := Int(c.conBlister),
      "counter_total" := Int(c.total),
      "porcentaje_sin_blister" := Real(Percentage(c.sinBlister, c.total)),
      "porcentaje_con_blister" := Real(Percentage(c.conBlister, c.total)),
      "timestamp" := Str(timestamp)]
  }

  /** The detection dictionary `get_detection_flags` publishes (no counters). */
  function ViewerSnapshot(f: Flags, opcuaConnected: bool, timestamp: string): map<string, Value>
  {
    map[
      "pizza" := Bool(f.pizza),
      "blister" := Bool(f.blister),
      "conf_pizza" := Real(f.confPizza),
      "conf_blister" := Real(f.confBlister),
      "opcua_connected" := Bool(opcuaConnected),
      "timestamp" := Str(timestamp)]
  }

  /** A failed capture adds no classification, so it can neither dispatch a
      pulse nor move a counter. */
  lemma FailedCaptureAddsNothing(frames: seq<Frame>, cfg: DetectionConfig)
    ensures Observations(frames + [CaptureFailed], cfg) == Observations(frames, cfg)
  {
    assert (frames + [CaptureFailed])[..|frames|] == frames;
  }

  /** Any number of failed captures add no classification. */
  lemma {:induction false} FailuresObserveNothing(k: nat, cfg: DetectionConfig)
    ensures Observations(seq(k, _ => CaptureFailed), cfg) == []
  {
    if k > 0 {
      FailuresObserveNothing(k - 1, cfg);
      assert seq(k, _ => CaptureFailed) == seq(k - 1, _ => CaptureFailed) + [CaptureFailed];
      FailedCaptureAddsNothing(seq(k - 1, _ => CaptureFailed), cfg);
    }
  }

  /** Any number of failed captures followed by a good frame: the loop acts
      on the good frame alone, exactly as if the failures had not happened. */
  lemma FailuresThenFrame(k: nat, frame: Frame, cfg: DetectionConfig, s: LoopState, clientPresent: bool)
    requires frame.Captured?
    ensures Observations(seq(k, _ => CaptureFailed) + [frame], cfg) == [ObservationOf(FrameFlags(frame, cfg))]
    ensures Run(s, Observations(seq(k, _ => CaptureFailed) + [frame], cfg), clientPresent) ==
            Step(s, ObservationOf(FrameFlags(frame, cfg)), clientPresent)
  {
    var failures := seq(k, _ => CaptureFailed);
    var o := ObservationOf(FrameFlags(frame, cfg));
    assert (failures + [frame])[..k] == failures;
    FailuresObserveNothing(k, cfg);
    assert Observations(failures + [frame], cfg) == [] + [o];
    RunAppend(s, [], o, clientPresent);
  }

  /** A record that only grows, mirrored into another: extending it twice is
      one extension, and the mirror still holds everything added since the start. */
  lemma ExtendTwice<T>(p0: seq<T>, p1: seq<T>, p2: seq<T>, d0: seq<T>, d1: seq<T>, d2: seq<T>)
    requires |p0| <= |p1| <= |p2| && p1[..|p0|] == p0 && p2[..|p1|] == p1
    requires d1 == d0 + p1[|p0|..] && d2 == d1 + p2[|p1|..]
    ensures p2[..|p0|] == p0 && d2 == d0 + p2[|p0|..]
  {
    assert p2[..|p0|] == p2[..|p1|][..|p0|];
    assert p2[|p0|..] == p1[|p0|..] + p2[|p1|..];
  }

  /** Extending the frames by one: a captured frame adds one step to the
      run, a failed capture leaves it as it was. */
  lemma RunOneMoreFrame(s: LoopState, frames: seq<Frame>, i: nat, cfg: DetectionConfig, clientPresent: bool)
    requires i < |frames|
    ensures Run(s, Observations(frames[..i + 1], cfg), clientPresent) ==
            (if frames[i].Captured? then Step(Run(s, Observations(frames[..i], cfg), clientPresent), ObservationOf(FrameFlags(frames[i], cfg)), clientPresent)
             else Run(s, Observations(frames[..i], cfg), clientPresent))
  {
    assert frames[..i + 1][..i] == frames[..i];
    assert frames[..i + 1][i] == frames[i];
    var prefix := Observations(frames[..i], cfg);
    if frames[i].Captured? {
      var o := ObservationOf(FrameFlags(frames[i], cfg));
      assert Observations(frames[..i + 1], cfg) == prefix + [o];
      RunAppend(s, prefix, o, clientPresent);
    } else {
      assert Observations(frames[..i + 1], cfg) == prefix + [];
      assert prefix + [] == prefix;
    }
  }

  /** After a frame is processed, the PLC bits of the status response built
      from the published dictionary equal the edge flags the loop keeps:
      bit 0 is previous_red and bit 1 previous_green. */
  lemma StatusMirrorsEdgeState(s: LoopState, f: Flags, clientPresent: bool, opcuaConnected: bool, timestamp: string,
                               detectionEnabled: bool, opcuaClient: Option<bool>, cameraInitialized: bool)
    ensures var r := Step(s, ObservationOf(f), clientPresent);
            Status(detectionEnabled, Snapshot(f, opcuaConnected, r.counts, timestamp), r.counts, opcuaClient, cameraInitialized).plcSignals
            == PlcSignals(r.edge.previousRed, r.edge.previousGreen)
  {
    var r := Step(s, ObservationOf(f), clientPresent);
    StepRemembersCategory(s, ObservationOf(f), clientPresent);
    StatusSignals(detectionEnabled, Snapshot(f, opcuaConnected, r.counts, timestamp), r.counts, opcuaClient, cameraInitialized);
  }

  /** The shared state, as a frame. */
  function SharedSet(shared: SharedState?): set<SharedState>
  {
    if shared == null then {} else {shared}
  }

  /** `get_detection_flags`: the same box loop, run for one viewer, which
      also publishes its flags to the shared state when one is given. */
  method GetDetectionFlags(dets: seq<Detection>, area: Area, cfg: DetectionConfig, client: OpcUaClient?,
                           timestamp: string, shared: SharedState?) returns (flags: Flags)
    modifies SharedSet(shared)`lastDetection
    ensures flags == Classified(dets, area, cfg.pizzaClassId, cfg.blisterClassId)
    ensures shared != null ==>
              shared.lastDetection == ViewerSnapshot(flags, client != null && client.connected, timestamp)
  {
    flags := Classify(dets, area, cfg.pizzaClassId, cfg.blisterClassId);
    if shared != null {
      var connected := client != null && client.connected;
      shared.lastDetection := ViewerSnapshot(flags, connected, timestamp);
    }
  }

  /** The part of the loop's state a run is about: the edge state, counters
      and pulses, the stored flags, the published dictionary (empty when
      there is no shared state) and the pulses handed to the client (none
      when there is no client). */
  datatype Point = Point(state: LoopState, latest: Flags, published: map<string, Value>, dispatched: seq<Signal>)

  /** One iteration on that state. A failed capture changes nothing. A
      captured frame applies the step to its classification, stores its
      flags, publishes the dictionary with the counters after the step (when
      there is a shared state) and hands the step's pulse to the client (when
      there is one). */
  function Next(p: Point, frame: Frame, cfg: DetectionConfig, clientPresent: bool, sharedPresent: bool, connected: bool): Point
  {
    if frame.CaptureFailed? then p
    else
      var f := FrameFlags(frame, cfg);
      var s := Step(p.state, ObservationOf(f), clientPresent);
      StepAppendsPulse(p.state, ObservationOf(f), clientPresent);
      Point(s, f,
            if sharedPresent then Snapshot(f, connected, s.counts, frame.timestamp) else p.published,
            if clientPresent then p.dispatched + s.pulses[|p.state.pulses|..] else p.dispatched)
  }

  /** The iterations over a sequence of captures, in order. */
  function Iterate(p: Point, frames: seq<Frame>, cfg: DetectionConfig, clientPresent: bool, sharedPresent: bool, connected: bool): Point
    decreases |frames|
  {
    if frames == [] then p
    else Next(Iterate(p, frames[..|frames| - 1], cfg, clientPresent, sharedPresent, connected),
              frames[|frames| - 1], cfg, clientPresent, sharedPresent, connected)
  }

  /** The edge state, counters and pulses after the iterations are the
      specification run over the classifications of the captured frames. */
  lemma {:induction false} IterateRuns(p: Point, frames: seq<Frame>, cfg: DetectionConfig, clientPresent: bool, sharedPresent: bool, connected: bool)
    ensures Iterate(p, frames, cfg, clientPresent, sharedPresent, connected).state == Run(p.state, Observations(frames, cfg), clientPresent)
    decreases |frames|
  {
    if frames != [] {
      var n := |frames| - 1;
      IterateRuns(p, frames[..n], cfg, clientPresent, sharedPresent, connected);
      RunOneMoreFrame(p.state, frames, n, cfg, clientPresent);
      assert frames[..n + 1] == frames;
    }
  }

  /** The iterations only append pulses, and every pulse appended is handed
      to the client, in order. */
  lemma {:induction false} IterateExtends(p: Point, frames: seq<Frame>, cfg: DetectionConfig, clientPresent: bool, sharedPresent: bool, connected: bool)
    ensures var q := Iterate(p, frames, cfg, clientPresent, sharedPresent, connected);
            && |p.state.pulses| <= |q.state.pulses| && q.state.pulses[..|p.state.pulses|] == p.state.pulses
            && (clientPresent ==> q.dispatched == p.dispatched + q.state.pulses[|p.state.pulses|..])
    decreases |frames|
  {
    if frames != [] {
      var n := |frames| - 1;
      IterateExtends(p, frames[..n], cfg, clientPresent, sharedPresent, connected);
      var before := Iterate(p, frames[..n], cfg, clientPresent, sharedPresent, connected);
      var q := Next(before, frames[n], cfg, clientPresent, sharedPresent, connected);
      if frames[n].Captured? {
        StepAppendsPulse(before.state, ObservationOf(FrameFlags(frames[n], cfg)), clientPresent);
      } else {
        assert q.state.pulses[..|before.state.pulses|] == before.state.pulses;
      }
      if clientPresent {
        ExtendTwice(p.state.pulses, before.state.pulses, q.state.pulses, p.dispatched, before.dispatched, q.dispatched);
      } else {
        assert q.state.pulses[..|p.state.pulses|] == q.state.pulses[..|before.state.pulses|][..|p.state.pulses|];
      }
    }
  }

  /** After the iterations, the stored flags and the published dictionary
      are those of the last captured frame (with the counters as they stand),
      or what was there before when no frame was captured. */
  lemma {:induction false} IterateShowsLast(p: Point, frames: seq<Frame>, cfg: DetectionConfig, clientPresent: bool, sharedPresent: bool, connected: bool)
    ensures var q := Iterate(p, frames, cfg, clientPresent, sharedPresent, connected);
            && (LastCaptured(frames).None? ==> q.latest == p.latest && q.published == p.published)
            && (LastCaptured(frames).Some? ==>
                  var last := LastCaptured(frames).value;
                  && q.latest == FrameFlags(last, cfg)
                  && (sharedPresent ==> q.published == Snapshot(FrameFlags(last, cfg), connected, q.state.counts, last.timestamp)))
    decreases |frames|
  {
    if frames != [] {
      IterateShowsLast(p, frames[..|frames| - 1], cfg, clientPresent, sharedPresent, connected);
    }
  }

  /** The state owned by the background detection thread, with references to
      the counter globals, the OPC-UA client (null when none exists) and the
      shared state (null when none was handed over). */
  class BackgroundDetection {
    const stats: Registry
    const client: OpcUaClient?
    const shared: SharedState?
    var previousRed: bool
    var previousGreen: bool
    /** The `_latest_detections` global. */
    var latestDetections: Flags
    /** The pulses dispatched so far. */
    ghost var pulses: seq<Signal>

    /** The client, as a frame. */
    function ClientSet(): set<OpcUaClient>
    {
      if client == null then {} else {client}
    }

    ghost function State(): LoopState
      reads this, stats
    {
      LoopState(EdgeState(previousRed, previousGreen), stats.Snapshot(), pulses)
    }

    ghost predicate Valid()
      reads this, stats
    {
      stats.Valid() && !(previousRed && previousGreen)
    }

    constructor (stats: Registry, client: OpcUaClient?, shared: SharedState?)
      requires stats.Valid()
      ensures Valid()
      ensures this.stats == stats && this.client == client && this.shared == shared
      ensures State() == LoopState(InitialEdge, stats.Snapshot(), [])
      ensures latestDetections == NoFlags
    {
      this.stats := stats;
      this.client := client;
      this.shared := shared;
      previousRed, previousGreen := false, false;
      latestDetections := NoFlags;
      pulses := [];
    }

    /** The edge-detection step for one classified frame: it follows `Step`,
        and every pulse it records is the one handed to the client. */
    method Act(o: Observation)
      requires Valid()
      modifies this, stats, ClientSet()`dispatched
      ensures Valid()
      ensures State() == Step(old(State()), o, client != null)
      ensures latestDetections == old(latestDetections)
      ensures client != null ==> client.dispatched == old(client.dispatched) + pulses[|old(pulses)|..]
    {
      if o.pizza && !o.blister {
        if !previousRed && client != null {
          var _ := client.GeneratePulse(SinBlister);
          pulses := pulses + [SinBlister];
          stats.RecordSinBlister();
        }
        previousRed, previousGreen := true, false;
      } else if o.pizza && o.blister {
        if !previousGreen && client != null {
          var _ := client.GeneratePulse(ConBlister);
          pulses := pulses + [ConBlister];
          stats.RecordConBlister();
        }
        previousRed, previousGreen := false, true;
      } else {
        previousRed, previousGreen := false, false;
      }
    }

    /** One iteration of the loop. A failed capture changes nothing. A captured
        frame is classified over its zone, the step is applied, the flags
        become the latest detections and the detection dictionary (with the
        counters after the step) is published to the shared state. */
    method ProcessFrame(frame: Frame, cfg: DetectionConfig)
      requires Valid()
      modifies this, stats, ClientSet()`dispatched, SharedSet(shared)`lastDetection
      ensures Valid()
      ensures Here() == Next(old(Here()), frame, cfg, client != null, shared != null, client != null && client.connected)
    {
      if frame.CaptureFailed? {
        return;
      }
      var area := GreenBoxArea(frame.width, frame.height);
      var flags := Classify(frame.detections, area, cfg.pizzaClassId, cfg.blisterClassId);
      Act(Observation(flags.pizza, flags.blister));
      latestDetections := flags;
      var connected := client != null && client.connected;
      if shared != null {
        shared.lastDetection := Snapshot(flags, connected, stats.Snapshot(), frame.timestamp);
      }
    }

    /** The part of the state a run of the loop is about. */
    ghost function Here(): Point
      reads this, stats, ClientSet(), SharedSet(shared)
    {
      Point(State(), latestDetections,
            if shared != null then shared.lastDetection else map[],
            if client != null then client.dispatched else [])
    }

    /** The loop over a finite sequence of captures: its state is the
        specification run over the classifications of the captured frames,
        so every property of `Run` holds of it. */
    method RunLoop(frames: seq<Frame>, cfg: DetectionConfig)
      requires Valid()
      modifies this, stats, ClientSet()`dispatched, SharedSet(shared)`lastDetection
      ensures Valid()
      ensures State() == Run(old(State()), Observations(frames, cfg), client != null)
      ensures |old(pulses)| <= |pulses| && pulses[..|old(pulses)|] == old(pulses)
      ensures client != null ==> client.dispatched == old(client.dispatched) + pulses[|old(pulses)|..]
      ensures LastCaptured(frames).None? ==>
                && latestDetections == old(latestDetections)
                && (shared != null ==> shared.lastDetection == old(shared.lastDetection))
      ensures LastCaptured(frames).Some? ==>
                var last := LastCaptured(frames).value;
                && latestDetections == FrameFlags(last, cfg)
                && (shared != null ==>
                      shared.lastDetection == Snapshot(FrameFlags(last, cfg), client != null && client.connected, stats.Snapshot(), last.timestamp))
    {
      ghost var start := Here();
      ghost var connected := client != null && client.connected;
      var i := 0;
      while i < |frames|
        invariant 0 <= i <= |frames|
        invariant Valid() && connected == (client != null && client.connected)
        invariant Here() == Iterate(start, frames[..i], cfg, client != null, shared != null, connected)
      {
        ProcessFrame(frames[i], cfg);
        assert frames[..i + 1][..i] == frames[..i];
        i := i + 1;
      }
      assert frames[..|frames|] == frames;
      IterateRuns(start, frames, cfg, client != null, shared != null, connected);
      IterateExtends(start, frames, cfg, client != null, shared != null, connected);
      IterateShowsLast(start, frames, cfg, client != null, shared != null, connected);
    }
  }
}
