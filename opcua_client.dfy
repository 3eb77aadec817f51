/** The persistent OPC-UA connection to the PLC (class OPCUAClient in
    app/camera.py): rate-limited connects, fail-fast writes, a health probe,
    one iteration of the reconnection loop with its failure counter and
    capped backoff, and the two-write pulses.
    The clock and every outcome of the OPC-UA library (opening the session,
    looking up the two nodes, writing a node, reading the namespace array)
    are parameters. A ghost log records the transport operations made. */
module OpcUa {
  import opened Records
  import opened EdgeDetection

  const DefaultUrl: string := "opc.tcp://192.168.9.20:4840"
  const DefaultNodeSinBlister: string := "ns=4;i=3"
  const DefaultNodeConBlister: string := "ns=4;i=4"
  /** Seconds between connection attempts that are not forced. */
  const ReconnectInterval: real := 5.0
  /** Longest wait of the reconnection loop, in seconds. */
  const MaxWait: real := 30.0
  /** More consecutive failures than this make the loop recreate the client. */
  const FailureLimit: nat := 10

  /** What the library does on one connection attempt. */
  datatype ConnectOutcome = ConnectOutcome(sessionOk: bool, sinNodeOk: bool, conNodeOk: bool)

  predicate Succeeds(o: ConnectOutcome)
  {
    o.sessionOk && o.sinNodeOk && o.conNodeOk
  }

  /** A transport operation. */
  datatype Op =
    | OpenSession(ok: bool)
    | CloseSession
    | WriteNode(node: Option<string>, value: bool, ok: bool)
    | ReadNamespaces(ok: bool)
    | NewClient

  /** The operations of one connection attempt: close any stale session, open
      a new one and, when the node lookups fail, close it again. */
  function AttemptOps(o: ConnectOutcome): seq<Op>
  {
    [CloseSession, OpenSession(o.sessionOk)] +
    (if o.sessionOk && !(o.sinNodeOk && o.conNodeOk) then [CloseSession] else [])
  }

  /** Whether `connect` makes a real attempt rather than returning early. */
  predicate AttemptMade(connected: bool, lastAttempt: real, force: bool, now: real)
  {
    force || (!connected && now - lastAttempt >= ReconnectInterval)
  }

  /** The number of sessions opened. */
  ghost function Attempts(ops: seq<Op>): nat
    decreases |ops|
  {
    if ops == [] then 0
    else Attempts(ops[..|ops| - 1]) + (if ops[|ops| - 1].OpenSession? then 1 else 0)
  }

  lemma {:induction false} AttemptsAppend(a: seq<Op>, b: seq<Op>)
    ensures Attempts(a + b) == Attempts(a) + Attempts(b)
    decreases |b|
  {
    if b == [] {
      assert a + b == a;
    } else {
      var n := |b|;
      assert (a + b)[..|a + b| - 1] == a + b[..n - 1];
      AttemptsAppend(a, b[..n - 1]);
    }
  }

  /** One connection attempt opens exactly one session. */
  lemma AttemptOpsShape(o: ConnectOutcome)
    ensures Attempts(AttemptOps(o)) == 1
  {
    var ops := AttemptOps(o);
    var two := [CloseSession, OpenSession(o.sessionOk)];
    assert two[..1] == [CloseSession] && two[..1][..0] == [];
    assert Attempts(two[..1]) == 0;
    assert Attempts(two) == 1;
    if o.sessionOk && !(o.sinNodeOk && o.conNodeOk) {
      assert ops[..2] == two;
    } else {
      assert ops == two;
    }
  }

  /** The wait after a reconnection-loop iteration:
      min(interval * (1 + failures * 0.2), 30). */
  function WaitTime(interval: real, failures: nat): (w: real)
    ensures w <= MaxWait
    ensures interval >= 0.0 ==> 0.0 <= w
    ensures interval * (1.0 + failures as real * 0.2) <= MaxWait ==> w == interval * (1.0 + failures as real * 0.2)
  {
    var raw := interval * (1.0 + failures as real * 0.2);
    if raw < MaxWait then raw else MaxWait
  }

  /** The wait never shrinks as failures accumulate. */
  lemma WaitTimeMonotone(interval: real, fewer: nat, more: nat)
    requires 0.0 <= interval && fewer <= more
    ensures WaitTime(interval, fewer) <= WaitTime(interval, more)
  {
    var d := (more - fewer) as real * 0.2;
    assert 1.0 + more as real * 0.2 == (1.0 + fewer as real * 0.2) + d;
    assert interval * (1.0 + more as real * 0.2) == interval * (1.0 + fewer as real * 0.2) + interval * d;
    assert 0.0 <= interval * d;
  }

  /** The inputs of one reconnection-loop iteration: the clock, the outcome of
      a connection attempt and of the health probe. */
  datatype Round = Round(now: real, outcome: ConnectOutcome, sessionPresent: bool, probeOk: bool)

  /** Whether the client is connected after a reconnection-loop iteration:
      a disconnected client makes a forced connection attempt, a connected
      one stays connected iff it has a session and the probe succeeds. */
  function ConnectedAfter(wasConnected: bool, round: Round): bool
  {
    if wasConnected then round.sessionPresent && round.probeOk else Succeeds(round.outcome)
  }

  /** The failure count after an iteration: 0 when it ends connected;
      otherwise one more, counted from 0 again when a disconnected client
      past FailureLimit was recreated. */
  function FailuresAfter(wasConnected: bool, failures: nat, nowConnected: bool): nat
  {
    if nowConnected then 0
    else if !wasConnected && failures > FailureLimit then 1
    else failures + 1
  }

  /** `counts` is the failure count after each iteration of a loop started
      with no failures, and `states` the connection state before the first
      iteration and after each one. */
  ghost predicate FollowsRule(states: seq<bool>, counts: seq<nat>)
  {
    && |states| == |counts| + 1
    && (|counts| > 0 ==> counts[0] == FailuresAfter(states[0], 0, states[1]))
    && forall k :: 0 < k < |counts| ==> counts[k] == FailuresAfter(states[k], counts[k - 1], states[k + 1])
  }

  /** Along any such trace the count never exceeds FailureLimit + 1 and is 0
      whenever the client is connected, so no wait goes above 16 seconds. */
  lemma {:induction false} FollowsRuleBounded(states: seq<bool>, counts: seq<nat>)
    requires FollowsRule(states, counts)
    ensures forall k :: 0 <= k < |counts| ==> counts[k] <= FailureLimit + 1 && (states[k + 1] ==> counts[k] == 0)
    ensures forall k :: 0 <= k < |counts| ==> 0.0 <= WaitTime(ReconnectInterval, counts[k]) <= 16.0
    decreases |counts|
  {
    if |counts| > 0 {
      var n := |counts| - 1;
      assert FollowsRule(states[..n + 1], counts[..n]);
      FollowsRuleBounded(states[..n + 1], counts[..n]);
      assert n > 0 ==> counts[n - 1] == counts[..n][n - 1] && states[n] == states[..n + 1][n];
      forall k | 0 <= k < |counts|
        ensures 0.0 <= WaitTime(ReconnectInterval, counts[k]) <= 16.0
      {
        if k < n {
          assert counts[k] == counts[..n][k];
        }
        WaitTimeMonotone(ReconnectInterval, counts[k], FailureLimit + 1);
      }
    }
  }

  /** The outcomes a `write_value` call meets: its own connection attempt
      (when it makes one) and the node write. */
  datatype WriteAttempt = WriteAttempt(reconnect: ConnectOutcome, ok: bool)

  class OpcUaClient {
    const url: string
    const nodeSinId: string
    const nodeConId: string
    /** Which library client object is in use; bumped when it is recreated. */
    var clientGeneration: nat
    var nodeSin: Option<string>
    var nodeCon: Option<string>
    var connected: bool
    var lastConnectionAttempt: real
    ghost var log: seq<Op>
    /** The node writes among the operations of `log`, in order. */
    ghost var writes: seq<Op>
    /** Pulses handed to the worker pool. */
    ghost var dispatched: seq<Signal>

    ghost predicate Valid()
      reads this
    {
      (nodeSin.Some? ==> nodeSin == Some(nodeSinId)) &&
      (nodeCon.Some? ==> nodeCon == Some(nodeConId)) &&
      (connected ==> nodeSin.Some? && nodeCon.Some?)
    }

    /** The endpoint and the node ids come from the configuration, with defaults. */
    constructor (config: map<string, string>)
      ensures Valid()
      ensures url == (if "OPCUA_URL" in config then config["OPCUA_URL"] else DefaultUrl)
      ensures nodeSinId == (if "OPCUA_NODE_SIN_BLISTER" in config then config["OPCUA_NODE_SIN_BLISTER"] else DefaultNodeSinBlister)
      ensures nodeConId == (if "OPCUA_NODE_CON_BLISTER" in config then config["OPCUA_NODE_CON_BLISTER"] else DefaultNodeConBlister)
      ensures !connected && nodeSin == None && nodeCon == None
      ensures lastConnectionAttempt == 0.0 && log == [] && writes == [] && dispatched == []
    {
      url := if "OPCUA_URL" in config then config["OPCUA_URL"] else DefaultUrl;
      nodeSinId := if "OPCUA_NODE_SIN_BLISTER" in config then config["OPCUA_NODE_SIN_BLISTER"] else DefaultNodeSinBlister;
      nodeConId := if "OPCUA_NODE_CON_BLISTER" in config then config["OPCUA_NODE_CON_BLISTER"] else DefaultNodeConBlister;
      clientGeneration := 0;
      nodeSin, nodeCon := None, None;
      connected := false;
      lastConnectionAttempt := 0.0;
      log, writes, dispatched := [], [], [];
    }

    /** `connect(force)`: returns true at once when connected and not forced;
        returns the (false) connection state without trying when the last
        attempt is less than the reconnect interval ago and not forced;
        otherwise records the attempt time and reconnects, and is connected
        afterwards exactly when the session and both node lookups succeed. */
    method Connect(force: bool, now: real, outcome: ConnectOutcome) returns (ok: bool)
      requires Valid()
      modifies this
      ensures Valid()
      ensures ok == connected
      ensures old(connected) && !force ==> ok && unchanged(this)
      ensures !AttemptMade(old(connected), old(lastConnectionAttempt), force, now) ==> unchanged(this)
      ensures !force && !old(connected) && now - old(lastConnectionAttempt) < ReconnectInterval ==> !ok
      ensures AttemptMade(old(connected), old(lastConnectionAttempt), force, now) ==>
                && lastConnectionAttempt == now
                && connected == Succeeds(outcome)
                && log == old(log) + AttemptOps(outcome)
                && nodeSin == (if outcome.sessionOk && outcome.sinNodeOk then Some(nodeSinId) else old(nodeSin))
                && nodeCon == (if Succeeds(outcome) then Some(nodeConId) else old(nodeCon))
      ensures clientGeneration == old(clientGeneration) && dispatched == old(dispatched) && writes == old(writes)
    {
      if connected && !force {
        return true;
      }
      if !force && now - lastConnectionAttempt < ReconnectInterval {
        return connected;
      }
      lastConnectionAttempt := now;
      log := log + [CloseSession, OpenSession(outcome.sessionOk)];
      if !outcome.sessionOk {
        connected := false;
        return false;
      }
      if !outcome.sinNodeOk {
        connected := false;
        log := log + [CloseSession];
        return false;
      }
      nodeSin := Some(nodeSinId);
      if !outcome.conNodeOk {
        connected := false;
        log := log + [CloseSession];
        return false;
      }
      nodeCon := Some(nodeConId);
      connected := true;
      return true;
    }

    /** `disconnect`: closes an open session; afterwards never connected,
        whether or not closing raised. */
    method Disconnect()
      requires Valid()
      modifies this
      ensures Valid() && !connected
      ensures log == old(log) + (if old(connected) then [CloseSession] else [])
      ensures lastConnectionAttempt == old(lastConnectionAttempt) && nodeSin == old(nodeSin) && nodeCon == old(nodeCon)
      ensures clientGeneration == old(clientGeneration) && dispatched == old(dispatched) && writes == old(writes)
    {
      if connected {
        log := log + [CloseSession];
        connected := false;
      }
    }

    /** `write_value`: when disconnected it first makes an unforced connect and
        gives up (false, nothing written) if still disconnected; otherwise it
        writes the node and a failed write drops the connection. The result
        always equals the connection state afterwards. */
    method WriteValue(node: Option<string>, value: bool, now: real, outcome: ConnectOutcome, writeOk: bool)
      returns (ok: bool)
      requires Valid()
      modifies this
      ensures Valid()
      ensures ok == connected
      ensures var attempted := !old(connected) && AttemptMade(false, old(lastConnectionAttempt), false, now);
              var wrote := old(connected) || (attempted && Succeeds(outcome));
              && log == old(log) + (if attempted then AttemptOps(outcome) else []) +
                                   (if wrote then [WriteNode(node, value, ok)] else [])
              && writes == old(writes) + (if wrote then [WriteNode(node, value, ok)] else [])
              && ok == (wrote && node.Some? && writeOk)
              && lastConnectionAttempt == (if attempted then now else old(lastConnectionAttempt))
              && nodeSin == (if attempted && outcome.sessionOk && outcome.sinNodeOk then Some(nodeSinId) else old(nodeSin))
              && nodeCon == (if attempted && Succeeds(outcome) then Some(nodeConId) else old(nodeCon))
      ensures !old(connected) && !AttemptMade(false, old(lastConnectionAttempt), false, now) ==> unchanged(this)
      ensures clientGeneration == old(clientGeneration) && dispatched == old(dispatched)
    {
      if !connected {
        var _ := Connect(false, now, outcome);
        if !connected {
          return false;
        }
      }
      ok := node.Some? && writeOk;
      log := log + [WriteNode(node, value, ok)];
      writes := writes + [WriteNode(node, value, ok)];
      if !ok {
        connected := false;
      }
    }

    /** `check_connection`: probes the server by reading its namespace array;
        a missing session or a failed read marks the client disconnected. */
    method CheckConnection(sessionPresent: bool, probeOk: bool) returns (alive: bool)
      requires Valid()
      modifies this
      ensures Valid()
      ensures alive == (sessionPresent && probeOk)
      ensures connected == (old(connected) && alive)
      ensures log == old(log) + (if sessionPresent then [ReadNamespaces(probeOk)] else [])
      ensures lastConnectionAttempt == old(lastConnectionAttempt) && nodeSin == old(nodeSin) && nodeCon == old(nodeCon)
      ensures clientGeneration == old(clientGeneration) && dispatched == old(dispatched) && writes == old(writes)
    {
      if sessionPresent {
        log := log + [ReadNamespaces(probeOk)];
        if probeOk {
          return true;
        }
      }
      connected := false;
      return false;
    }

    /** One iteration of the reconnection loop. Disconnected: after more than
        FailureLimit failures the client is recreated and the count restarts
        from 0, then a forced connect resets the count on success and adds one
        on failure. Connected: a successful probe resets the count, a failed
        one adds one. Returns the new count and the wait that follows. */
    method ReconnectIteration(failures: nat, round: Round) returns (failuresAfter: nat, wait: real)
      requires Valid()
      modifies this
      ensures Valid()
      ensures wait == WaitTime(ReconnectInterval, failuresAfter)
      ensures !old(connected) ==>
                && connected == Succeeds(round.outcome)
                && failuresAfter == (if connected then 0 else if failures > FailureLimit then 1 else failures + 1)
                && clientGeneration == old(clientGeneration) + (if failures > FailureLimit then 1 else 0)
                && log == old(log) + (if failures > FailureLimit then [CloseSession, NewClient] else []) + AttemptOps(round.outcome)
                && lastConnectionAttempt == round.now
                && nodeSin == (if round.outcome.sessionOk && round.outcome.sinNodeOk then Some(nodeSinId) else old(nodeSin))
                && nodeCon == (if Succeeds(round.outcome) then Some(nodeConId) else old(nodeCon))
      ensures old(connected) ==>
                && connected == (round.sessionPresent && round.probeOk)
                && failuresAfter == (if connected then 0 else failures + 1)
                && clientGeneration == old(clientGeneration)
                && log == old(log) + (if round.sessionPresent then [ReadNamespaces(round.probeOk)] else [])
                && lastConnectionAttempt == old(lastConnectionAttempt)
                && nodeSin == old(nodeSin) && nodeCon == old(nodeCon)
      ensures connected == ConnectedAfter(old(connected), round)
      ensures failuresAfter == FailuresAfter(old(connected), failures, connected)
      ensures dispatched == old(dispatched) && writes == old(writes)
    {
      failuresAfter := failures;
      if !connected {
        if failuresAfter > FailureLimit {
          log := log + [CloseSession, NewClient];
          clientGeneration := clientGeneration + 1;
          failuresAfter := 0;
        }
        var success := Connect(true, round.now, round.outcome);
        if success {
          failuresAfter := 0;
        } else {
          failuresAfter := failuresAfter + 1;
        }
      } else {
        var alive := CheckConnection(round.sessionPresent, round.probeOk);
        if alive {
          failuresAfter := 0;
        } else {
          failuresAfter := failuresAfter + 1;
        }
      }
      wait := WaitTime(ReconnectInterval, failuresAfter);
    }

    /** The reconnection loop over a finite sequence of iterations, starting
        from no failures. `states` is the connection state before the first
        iteration and after each one, `counts` the failure count after each;
        every iteration follows `ReconnectIteration`, the waits are those of
        the counts, and the count returned is the last one. While the loop is
        the only user of the client, the count never exceeds FailureLimit + 1
        and is 0 whenever connected, so every wait is at most 16 seconds:
        the 30-second cap is never reached. */
    method ReconnectLoop(rounds: seq<Round>) returns (failures: nat, waits: seq<real>, ghost states: seq<bool>, ghost counts: seq<nat>)
      requires Valid()
      modifies this
      ensures Valid()
      ensures |waits| == |counts| == |rounds| && |states| == |rounds| + 1
      ensures states[0] == old(connected) && states[|rounds|] == connected
      ensures forall k :: 0 <= k < |rounds| ==> states[k + 1] == ConnectedAfter(states[k], rounds[k])
      ensures FollowsRule(states, counts)
      ensures forall k :: 0 <= k < |rounds| ==> waits[k] == WaitTime(ReconnectInterval, counts[k])
      ensures failures == if rounds == [] then 0 else counts[|rounds| - 1]
      ensures dispatched == old(dispatched) && writes == old(writes)
      ensures failures <= FailureLimit + 1 && (connected ==> failures == 0)
      ensures forall k :: 0 <= k < |waits| ==> 0.0 <= waits[k] <= 16.0
    {
      failures := 0;
      waits, states, counts := [], [connected], [];
      var i := 0;
      while i < |rounds|
        invariant Valid()
        invariant 0 <= i <= |rounds| && |waits| == |counts| == i && |states| == i + 1
        invariant states[0] == old(connected) && states[i] == connected
        invariant forall k :: 0 <= k < i ==> states[k + 1] == ConnectedAfter(states[k], rounds[k])
        invariant FollowsRule(states, counts)
        invariant forall k :: 0 <= k < i ==> waits[k] == WaitTime(ReconnectInterval, counts[k])
        invariant failures == if i == 0 then 0 else counts[i - 1]
        invariant dispatched == old(dispatched) && writes == old(writes)
      {
        var wait;
        failures, wait := ReconnectIteration(failures, rounds[i]);
        waits, states, counts := waits + [wait], states + [connected], counts + [failures];
        i := i + 1;
      }
      FollowsRuleBounded(states, counts);
    }

    /** The node a signal is written to. */
    function NodeFor(signal: Signal): Option<string>
      reads this
    {
      if signal == SinBlister then nodeSin else nodeCon
    }

    /** `generate_pulse_*`: hands the pulse to the worker pool and reports
        success without waiting for it. */
    method GeneratePulse(signal: Signal) returns (accepted: bool)
      modifies this`dispatched
      ensures accepted && dispatched == old(dispatched) + [signal]
    {
      dispatched := dispatched + [signal];
      accepted := true;
    }

    /** `_execute_pulse_*`, the work a pool thread does: reconnect (forced)
        if disconnected, write True and, only if that write reported success,
        write False to the same node. The writes are exactly: none when the
        client neither was nor became connected; a failed True write; or a
        successful True write followed by the False write. The forced
        connect is the only connection attempt: the writes that follow it
        run at the same clock reading and so never retry. */
    method ExecutePulse(signal: Signal, now: real, reconnect: ConnectOutcome, first: WriteAttempt, second: WriteAttempt)
      requires Valid()
      modifies this
      ensures Valid()
      ensures |old(writes)| <= |writes| && writes[..|old(writes)|] == old(writes)
      ensures var w := writes[|old(writes)|..];
              && |w| <= 2
              && (|w| == 0 ==> !connected)
              && (|w| >= 1 ==> w[0].WriteNode? && w[0].value)
              && (|w| >= 1 && w[0].ok ==> |w| == 2)
              && (|w| == 2 ==> w[0].ok && w[1].WriteNode? && !w[1].value)
              && (|w| == 2 ==> w[0].node == w[1].node == Some(if signal == SinBlister then nodeSinId else nodeConId))
      ensures var n := Some(if signal == SinBlister then nodeSinId else nodeConId);
              writes[|old(writes)|..] ==
                if !(old(connected) || Succeeds(reconnect)) then []
                else if !first.ok then [WriteNode(n, true, false)]
                else [WriteNode(n, true, true), WriteNode(n, false, second.ok)]
      ensures connected == ((old(connected) || Succeeds(reconnect)) && first.ok && second.ok)
      ensures log == old(log) + (if old(connected) then [] else AttemptOps(reconnect)) + writes[|old(writes)|..]
      ensures lastConnectionAttempt == (if old(connected) then old(lastConnectionAttempt) else now)
      ensures old(connected) ==> nodeSin == old(nodeSin) && nodeCon == old(nodeCon)
      ensures !old(connected) ==>
                && nodeSin == (if reconnect.sessionOk && reconnect.sinNodeOk then Some(nodeSinId) else old(nodeSin))
                && nodeCon == (if Succeeds(reconnect) then Some(nodeConId) else old(nodeCon))
      ensures clientGeneration == old(clientGeneration) && dispatched == old(dispatched)
    {
      ghost var start := writes;
      ghost var startLog := log;
      if !connected {
        var _ := Connect(true, now, reconnect);
      }
      assert writes == start && log == startLog + (if old(connected) then [] else AttemptOps(reconnect));
      var node := NodeFor(signal);
      var ok := WriteValue(node, true, now, first.reconnect, first.ok);
      if ok {
        var _ := WriteValue(node, false, now, second.reconnect, second.ok);
      }
      assert writes[..|start|] == start;
    }
  }

  /** Two unforced connects less than the reconnect interval apart open at
      most one session between them. */
  method TwoConnectsWithinInterval(c: OpcUaClient, t1: real, t2: real, o1: ConnectOutcome, o2: ConnectOutcome)
    requires c.Valid()
    requires t2 - t1 < ReconnectInterval
    modifies c
    ensures c.Valid()
    ensures |old(c.log)| <= |c.log| && c.log[..|old(c.log)|] == old(c.log)
    ensures Attempts(c.log) <= Attempts(old(c.log)) + 1
  {
    ghost var start := c.log;
    var _ := c.Connect(false, t1, o1);
    ghost var middle := c.log;
    var _ := c.Connect(false, t2, o2);
    AttemptOpsShape(o1);
    AttemptOpsShape(o2);
    if middle == start {
      if c.log != middle {
        AttemptsAppend(start, AttemptOps(o2));
      }
    } else {
      assert c.log == middle;
      AttemptsAppend(start, AttemptOps(o1));
    }
  }

  // The lock discipline of write_value.

  /** Whether a call returns or blocks forever. */
  datatype LockOutcome = Completes | Blocks

  /** How a call ends and whether it leaves the client's lock held. */
  datatype LockRun = LockRun(outcome: LockOutcome, heldAfter: bool)

  /** Acquiring a non-reentrant lock that is already held never returns;
      otherwise the lock becomes held. */
  function Acquire(held: bool): Option<bool>
  {
    if held then None else Some(true)
  }

  /** `connect` (or `disconnect`) as far as the lock goes: it takes the lock
      and releases it on return. */
  function ConnectLocking(held: bool): LockRun
  {
    match Acquire(held)
    case None => LockRun(Blocks, held)
    case Some(_) => LockRun(Completes, false)
  }

  /** `write_value` as written, from a free lock: it takes the client's lock
      and, when disconnected, calls `connect`, which takes the same lock
      again; a thread blocked there never releases the lock it holds.
      It blocks exactly when the client is disconnected, and then leaves the
      lock held. */
  function WriteValueLockingAsWritten(connected: bool): (r: LockRun)
    ensures r.outcome == Blocks <==> !connected
    ensures r.heldAfter <==> r.outcome == Blocks
  {
    match Acquire(false)
    case None => LockRun(Blocks, false)
    case Some(held) =>
      if connected then LockRun(Completes, false)
      else
        var inner := ConnectLocking(held);
        if inner.outcome == Blocks then LockRun(Blocks, held) else LockRun(Completes, false)
  }

  /** `write_value` with its connect running under the lock it already holds,
      as `WriteValue` models it: the lock is taken once and released on return. */
  function WriteValueLockingCorrected(connected: bool): LockRun
  {
    match Acquire(false)
    case None => LockRun(Blocks, false)
    case Some(_) => LockRun(Completes, false)
  }

  /** As written, a write while disconnected blocks its thread forever with the
      lock held, so every later `connect` (the reconnection loop's included)
      blocks too; a write while connected returns and frees the lock. */
  lemma WriteValueDeadlocksWhenDisconnected()
    ensures WriteValueLockingAsWritten(false).outcome == Blocks
    ensures WriteValueLockingAsWritten(false).heldAfter
    ensures ConnectLocking(WriteValueLockingAsWritten(false).heldAfter).outcome == Blocks
    ensures WriteValueLockingAsWritten(true) == LockRun(Completes, false)
  {
  }

  /** With the connect made under the held lock, every write returns and
      leaves the lock free for the next `connect`. */
  lemma WriteValueCorrectedCompletes(connected: bool)
    ensures WriteValueLockingCorrected(connected) == LockRun(Completes, false)
    ensures ConnectLocking(WriteValueLockingCorrected(connected).heldAfter).outcome == Completes
  {
  }
}
