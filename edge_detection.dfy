/** The edge-detection step of the background detection loop
    (app/camera.py): from the classification of each frame it decides whether
    to dispatch a pulse and bumps the counters, remembering the previous
    classification in the two flags previous_red and previous_green.
    This module states that step as a function on values; the class in
    module DetectionLoop is proved to follow it. */
module EdgeDetection {
  import opened Statistics

  /** The two PLC outputs a pulse can be sent on. */
  datatype Signal = SinBlister | ConBlister

  /** The classification booleans of one frame. */
  datatype Observation = Observation(pizza: bool, blister: bool)

  /** What a frame shows: a pizza without blister (red), a pizza with blister
      (green), or neither. The blister check only matters once a pizza is seen. */
  datatype Category = Nothing | PizzaSinBlister | PizzaConBlister

  /** previous_red / previous_green. */
  datatype EdgeState = EdgeState(previousRed: bool, previousGreen: bool)

  /** Everything the step reads and writes: the edge flags, the counters and
      the pulses dispatched so far. */
  datatype LoopState = LoopState(edge: EdgeState, counts: Counts, pulses: seq<Signal>)

  const InitialEdge := EdgeState(false, false)
  const InitialLoopState := LoopState(InitialEdge, ZeroCounts, [])

  function CategoryOf(o: Observation): Category
  {
    if o.pizza && !o.blister then PizzaSinBlister
    else if o.pizza && o.blister then PizzaConBlister
    else Nothing
  }

  /** The edge flags that remember a category. */
  function EdgeFor(c: Category): EdgeState
  {
    EdgeState(c == PizzaSinBlister, c == PizzaConBlister)
  }

  /** One loop iteration after classification: on a rising edge into a
      category, and only when the OPC-UA client exists, dispatch the pulse and
      count it; in every case remember the current category. */
  function Step(s: LoopState, o: Observation, clientPresent: bool): (r: LoopState)
    ensures !(r.edge.previousRed && r.edge.previousGreen)
  {
    if o.pizza && !o.blister then
      var fire := !s.edge.previousRed && clientPresent;
      LoopState(EdgeState(true, false),
                if fire then AddSinBlister(s.counts) else s.counts,
                if fire then s.pulses + [SinBlister] else s.pulses)
    else if o.pizza && o.blister then
      var fire := !s.edge.previousGreen && clientPresent;
      LoopState(EdgeState(false, true),
                if fire then AddConBlister(s.counts) else s.counts,
                if fire then s.pulses + [ConBlister] else s.pulses)
    else
      LoopState(EdgeState(false, false), s.counts, s.pulses)
  }

  /** A step only ever appends to the pulses, and at most one. */
  lemma StepAppendsPulse(s: LoopState, o: Observation, clientPresent: bool)
    ensures var r := Step(s, o, clientPresent);
            |s.pulses| <= |r.pulses| <= |s.pulses| + 1 && r.pulses[..|s.pulses|] == s.pulses
  {
  }

  /** The iterations over a sequence of observations, in order. */
  function Run(s: LoopState, obs: seq<Observation>, clientPresent: bool): LoopState
    decreases |obs|
  {
    if obs == [] then s
    else Step(Run(s, obs[..|obs| - 1], clientPresent), obs[|obs| - 1], clientPresent)
  }

  /** Running one more observation is one more step. */
  lemma RunAppend(s: LoopState, obs: seq<Observation>, o: Observation, clientPresent: bool)
    ensures Run(s, obs + [o], clientPresent) == Step(Run(s, obs, clientPresent), o, clientPresent)
  {
    assert (obs + [o])[..|obs|] == obs;
  }

  /** The pulse due when the category changes from `before` to `now`. */
  function PulseFor(before: Category, now: Category): seq<Signal>
  {
    if now == before then []
    else if now == PizzaSinBlister then [SinBlister]
    else if now == PizzaConBlister then [ConBlister]
    else []
  }

  /** Reference definition of the pulses: one for every observation whose
      category differs from that of the observation before it (or from
      `prev` for the first) and is not Nothing. */
  function RisingEdges(prev: Category, obs: seq<Observation>): seq<Signal>
    decreases |obs|
  {
    if obs == [] then []
    else
      var n := |obs|;
      var before := if n == 1 then prev else CategoryOf(obs[n - 2]);
      RisingEdges(prev, obs[..n - 1]) + PulseFor(before, CategoryOf(obs[n - 1]))
  }

  /** How many times a signal occurs in a sequence of pulses. */
  function Occurrences(pulses: seq<Signal>, sig: Signal): nat
    decreases |pulses|
  {
    if pulses == [] then 0
    else Occurrences(pulses[..|pulses| - 1], sig) + (if pulses[|pulses| - 1] == sig then 1 else 0)
  }

  /** After a step the edge flags record exactly the current category, so
      they are never both set. */
  lemma StepRemembersCategory(s: LoopState, o: Observation, clientPresent: bool)
    ensures Step(s, o, clientPresent).edge == EdgeFor(CategoryOf(o))
    ensures Step(s, o, clientPresent).edge.previousRed <==> o.pizza && !o.blister
    ensures Step(s, o, clientPresent).edge.previousGreen <==> o.pizza && o.blister
  {
  }

  /** A step dispatches (and counts) a pulse exactly on a rising edge into
      its category while the client is present, and nothing otherwise. */
  lemma StepPulsesOnRisingEdge(s: LoopState, prev: Category, o: Observation, clientPresent: bool)
    requires s.edge == EdgeFor(prev)
    ensures Step(s, o, clientPresent).pulses ==
            s.pulses + (if clientPresent then PulseFor(prev, CategoryOf(o)) else [])
    ensures Step(s, o, clientPresent).counts ==
            (if !clientPresent || PulseFor(prev, CategoryOf(o)) == [] then s.counts
             else if CategoryOf(o) == PizzaSinBlister then AddSinBlister(s.counts)
             else AddConBlister(s.counts))
  {
  }

  /** Sustained presence: a frame in the category already remembered changes nothing. */
  lemma SustainedCategoryIsSilent(s: LoopState, o: Observation, clientPresent: bool)
    requires s.edge == EdgeFor(CategoryOf(o))
    ensures Step(s, o, clientPresent) == s
  {
  }

  /** With the client present, the loop dispatches exactly the rising edges of
      the category sequence, and its edge flags remember the last category. */
  lemma {:induction false} RunEmitsRisingEdges(s: LoopState, prev: Category, obs: seq<Observation>)
    requires s.edge == EdgeFor(prev)
    ensures Run(s, obs, true).pulses == s.pulses + RisingEdges(prev, obs)
    ensures Run(s, obs, true).edge == EdgeFor(if obs == [] then prev else CategoryOf(obs[|obs| - 1]))
    decreases |obs|
  {
    if obs != [] {
      var n := |obs|;
      var prefix := obs[..n - 1];
      RunEmitsRisingEdges(s, prev, prefix);
      var before := if n == 1 then prev else CategoryOf(obs[n - 2]);
      assert n > 1 ==> prefix[|prefix| - 1] == obs[n - 2];
      StepPulsesOnRisingEdge(Run(s, prefix, true), before, obs[n - 1], true);
    }
  }

  /** Without the client no pulse is dispatched and no counter moves, while
      the edge flags still follow the frames. */
  lemma {:induction false} RunWithoutClientIsSilent(s: LoopState, obs: seq<Observation>)
    ensures Run(s, obs, false).pulses == s.pulses
    ensures Run(s, obs, false).counts == s.counts
    decreases |obs|
  {
    if obs != [] {
      RunWithoutClientIsSilent(s, obs[..|obs| - 1]);
    }
  }

  /** Counter increments and pulse dispatches happen together: over any run,
      each counter grows by exactly the number of pulses of its kind
      dispatched, and the total by the number of all pulses. */
  lemma {:induction false} RunCountsMatchPulses(s: LoopState, obs: seq<Observation>, clientPresent: bool)
    ensures |s.pulses| <= |Run(s, obs, clientPresent).pulses|
    ensures Run(s, obs, clientPresent).pulses[..|s.pulses|] == s.pulses
    ensures var added := Run(s, obs, clientPresent).pulses[|s.pulses|..];
            Run(s, obs, clientPresent).counts ==
            Counts(s.counts.sinBlister + Occurrences(added, SinBlister),
                   s.counts.conBlister + Occurrences(added, ConBlister),
                   s.counts.total + |added|)
    decreases |obs|
  {
    if obs != [] {
      var prefix := obs[..|obs| - 1];
      RunCountsMatchPulses(s, prefix, clientPresent);
      var r := Run(s, prefix, clientPresent);
      var r' := Run(s, obs, clientPresent);
      var added := r.pulses[|s.pulses|..];
      if |r'.pulses| != |r.pulses| {
        var sig := r'.pulses[|r'.pulses| - 1];
        assert r'.pulses == r.pulses + [sig];
        assert r'.pulses[|s.pulses|..] == added + [sig];
        assert (added + [sig])[..|added|] == added;
      }
    }
  }

  /** The counter-sum invariant holds after any run that starts from it, and
      no counter ever decreases. */
  lemma {:induction false} RunKeepsCountsConsistent(s: LoopState, obs: seq<Observation>, clientPresent: bool)
    requires Consistent(s.counts)
    ensures Consistent(Run(s, obs, clientPresent).counts)
    ensures s.counts.sinBlister <= Run(s, obs, clientPresent).counts.sinBlister
    ensures s.counts.conBlister <= Run(s, obs, clientPresent).counts.conBlister
    ensures s.counts.total <= Run(s, obs, clientPresent).counts.total
    decreases |obs|
  {
    if obs != [] {
      RunKeepsCountsConsistent(s, obs[..|obs| - 1], clientPresent);
    }
  }

  /** The example stream: nothing, pizza, pizza, pizza with blister, nothing,
      pizza. It yields the pulses red, green, red and counters 2 / 1 / 3. */
  lemma ExampleStream()
    ensures var none := Observation(false, false);
            var sin := Observation(true, false);
            var con := Observation(true, true);
            var r := Run(InitialLoopState, [none, sin, sin, con, none, sin], true);
            r.pulses == [SinBlister, ConBlister, SinBlister] && r.counts == Counts(2, 1, 3) &&
            r.edge == EdgeState(true, false)
  {
    var none := Observation(false, false);
    var sin := Observation(true, false);
    var con := Observation(true, true);
    var s0 := InitialLoopState;
    var s1 := LoopState(EdgeState(false, false), Counts(0, 0, 0), []);
    var s2 := LoopState(EdgeState(true, false), Counts(1, 0, 1), [SinBlister]);
    var s4 := LoopState(EdgeState(false, true), Counts(1, 1, 2), [SinBlister, ConBlister]);
    var s5 := LoopState(EdgeState(false, false), Counts(1, 1, 2), [SinBlister, ConBlister]);
    RunAppend(s0, [], none, true);
    assert Run(s0, [none], true) == s1;
    RunAppend(s0, [none], sin, true);
    assert Run(s0, [none, sin], true) == s2;
    RunAppend(s0, [none, sin], sin, true);
    assert [none, sin] + [sin] == [none, sin, sin];
    assert Run(s0, [none, sin, sin], true) == s2;
    RunAppend(s0, [none, sin, sin], con, true);
    assert [none, sin, sin] + [con] == [none, sin, sin, con];
    assert Run(s0, [none, sin, sin, con], true) == s4;
    RunAppend(s0, [none, sin, sin, con], none, true);
    assert [none, sin, sin, con] + [none] == [none, sin, sin, con, none];
    assert Run(s0, [none, sin, sin, con, none], true) == s5;
    RunAppend(s0, [none, sin, sin, con, none], sin, true);
    assert [none, sin, sin, con, none] + [sin] == [none, sin, sin, con, none, sin];
  }
}
