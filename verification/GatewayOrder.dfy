/** Abandoned calls are never finished by a reply, and surviving calls start in arrival order. */
module GatewayOrder {
  import opened Collections
  import opened Protocol
  import opened Gateway
  import opened GatewayInvariants

  /** The effect of a reply to a running call, with the number `k` of queue entries it consumed. */
  ghost predicate Replied(s: State, s': State, call: FuncCall, next: Option<Record>, k: nat) {
    && k <= |s.t.pending| && s'.t.pending == s.t.pending[k..]
    && (next.None? ==> k == |s.t.pending| && s'.t.running == s.t.running - {call} && s'.h.started == s.h.started)
    && (next.Some? ==> k > 0 && next.value == s.t.pending[k - 1])
    && (next.Some? ==> s'.t.running == (s.t.running - {call})[next.value.call := next.value])
    && (next.Some? ==> s'.h.started == s.h.started + [next.value.recvTimestamp])
    && (next.Some? ==> next.value.connection in s.t.connections)
    && (next.Some? && next.value.call in s.t.discarded ==>
          next.value.call == call || next.value.call in CallsIn(s.t.pending[..k - 1]))
    && s'.t.discarded <= s.t.discarded - {call}
    && (forall c :: c in s.t.discarded && c != call ==> (c !in s'.t.discarded <==> c in CallsIn(s.t.pending[..k])))
    && (forall i :: 0 <= i < (if next.Some? then k - 1 else k) ==>
          s.t.pending[i].call in s.t.discarded || s.t.pending[i].connection !in s.t.connections)
    && s'.h.dropped == s.h.dropped + (Waiting(s.t.pending) - Waiting(s.t.pending[k..]) - if next.Some? then {next.value} else {})
    && s'.h.admitted == s.h.admitted && s'.h.closed == s.h.closed
    && s'.t.connections == s.t.connections && s'.t.lastTimestamp == s.t.lastTimestamp && s'.t.maxRunning == s.t.maxRunning
  }

  lemma ReplyEffect(s: State, call: FuncCall, node: NodeId, b: Balance, capped: bool) returns (k: nat)
    requires CapOk(s.t, capped) && call in s.t.running
    ensures Replied(s, OnReply(s, call, node, b), call, Reply(s.t, call, node, b).1.next, k)
  {
    assert (s.t.running - {call}).Keys == s.t.running.Keys - {call};
    k := NextPendingSearches(s.t.(discarded := s.t.discarded - {call}, running := s.t.running - {call}));
  }

  // ---- Abandoned calls ----------------------------------------------------------------------

  predicate Live(t: Tables, r: Record) { Runs(t.running, r) || r in t.pending }

  /** The admission left the tables, or its call was discarded, or its connection is closed for good. */
  predicate Doomed(s: State, r: Record) {
    && r in s.h.admitted
    && (Live(s.t, r) ==> r.call in s.t.discarded || r.connection in s.h.closed)
  }

  /** A call that is started from the queue is neither discarded nor without its connection. */
  lemma StartedIsWanted(s: State, s': State, call: FuncCall, next: Option<Record>, k: nat)
    requires PartitionOk(s.t.running, s.t.pending, s.t.lastTimestamp, s.h)
    requires call in s.t.running && Replied(s, s', call, next, k) && next.Some?
    ensures next.value.call !in s.t.discarded && next.value.connection in s.t.connections && next.value in s.t.pending
  {
    NextIsApart(s.t.running, s.t.pending, s.t.lastTimestamp, s.h, k);
  }

  lemma RepliedDoomed(s: State, s': State, call: FuncCall, next: Option<Record>, k: nat, r: Record)
    requires PartitionOk(s.t.running, s.t.pending, s.t.lastTimestamp, s.h) && s.t.connections !! s.h.closed
    requires call in s.t.running && Replied(s, s', call, next, k) && Doomed(s, r)
    ensures Doomed(s', r)
  {
    QueueDistinct(s.t.running, s.t.pending, s.t.lastTimestamp, s.h, k);
    if next.Some? { StartedIsWanted(s, s', call, next, k); }
    WaitingIsNotRunning(s, s.t.pending);
    if Live(s'.t, r) {
      if r in s.t.pending[k..] { assert r.call in CallsIn(s.t.pending[k..]); }
      assert Live(s.t, r) && r.call != call && r.call !in CallsIn(s.t.pending[..k]);
    }
  }

  lemma WaitingIsNotRunning(s: State, q: seq<Record>)
    requires PartitionOk(s.t.running, s.t.pending, s.t.lastTimestamp, s.h) && q == s.t.pending
    ensures forall c :: c in CallsIn(q) ==> c !in s.t.running
  {
    forall c | c in CallsIn(q) ensures c !in s.t.running {
      var r :| r in q && r.call == c;
    }
  }

  lemma AdmitDoomed(s: State, call: FuncCall, connection: int, now: int, b: Balance, r: Record)
    requires PartitionOk(s.t.running, s.t.pending, s.t.lastTimestamp, s.h) && Doomed(s, r)
    requires call !in s.t.running
    ensures Doomed(OnNewCall(s, call, connection, now, b), r)
  {
    AdmitCases(s, call, connection, now, b);
  }

  lemma StepDoomed(s: State, e: Event, perNode: nat, r: Record)
    requires Inv(s, perNode) && Enabled(s, e) && Doomed(s, r)
    ensures Doomed(Step(s, e, perNode), r)
    ensures r !in FinishedNow(s, e)
  {
    match e
    case EngineReplies(call, node, b) =>
      if call in s.t.running {
        var k := ReplyEffect(s, call, node, b, perNode > 0);
        RepliedDoomed(s, OnReply(s, call, node, b), call, Reply(s.t, call, node, b).1.next, k, r);
      }
    case NewCall(call, connection, now, b) => AdmitDoomed(s, call, connection, now, b, r);
    case _ =>
  }

  /**
   Once a call is discarded, or its connection closes, while it runs or waits, no later step
   of any run finishes its context from an engine's reply, even when its id is used again.
   */
  lemma {:induction false} DoomedIsNeverFinished(s: State, events: seq<Event>, perNode: nat, r: Record)
    requires Inv(s, perNode) && FewCalls(s) && Feasible(s, events, perNode) && Doomed(s, r)
    ensures r !in FinishedBy(s, events, perNode)
    decreases |events|
  {
    if events != [] {
      StepDoomed(s, events[0], perNode, r);
      StepKeepsInv(s, events[0], perNode);
      StepFewCalls(s, events[0], perNode);
      DoomedIsNeverFinished(Step(s, events[0], perNode), events[1..], perNode, r);
    }
  }

  /** Discarding a live call, or closing its connection, dooms it. */
  lemma DiscardDooms(s: State, e: Event, perNode: nat, r: Record)
    requires r in s.h.admitted
    requires e == ClientDiscards(r.call) || e == Close(r.connection)
    ensures Doomed(Step(s, e, perNode), r)
  {
  }

  lemma AnsweredLeaves(s: State, call: FuncCall, node: NodeId, b: Balance, perNode: nat)
    requires Inv(s, perNode) && FewCalls(s) && Enabled(s, EngineReplies(call, node, b)) && call in s.t.running
    ensures var r, s' := s.t.running[call], OnReply(s, call, node, b); r in s'.h.done && r !in s.h.done && Doomed(s', r)
  {
    StepKeepsInv(s, EngineReplies(call, node, b), perNode);
    var r, s' := s.t.running[call], OnReply(s, call, node, b);
    assert r in s'.h.done && forall c :: c in s'.t.running ==> s'.t.running[c] !in s'.h.done;
  }

  lemma OneMore(r: Record, rest: seq<Record>)
    requires r !in rest && forall x :: multiset(rest)[x] <= 1
    ensures forall x :: multiset([r] + rest)[x] <= 1
  {
    assert multiset([r] + rest) == multiset{r} + multiset(rest) && multiset(rest)[r] == 0;
  }

  /** Over any run, replies finish the context of every admission at most once. */
  lemma {:induction false} FinishedAtMostOnce(s: State, events: seq<Event>, perNode: nat)
    requires Inv(s, perNode) && FewCalls(s) && Feasible(s, events, perNode)
    ensures forall r :: multiset(FinishedBy(s, events, perNode))[r] <= 1
    decreases |events|
  {
    if events != [] {
      var e, s' := events[0], Step(s, events[0], perNode);
      var rest := FinishedBy(s', events[1..], perNode);
      StepKeepsInv(s, e, perNode);
      StepFewCalls(s, e, perNode);
      FinishedAtMostOnce(s', events[1..], perNode);
      if FinishedNow(s, e) != [] {
        AnsweredLeaves(s, e.call, e.node, e.balance, perNode);
        DoomedIsNeverFinished(s', events[1..], perNode, s.t.running[e.call]);
        OneMore(s.t.running[e.call], rest);
      } else {
        assert FinishedNow(s, e) + rest == rest;
      }
    }
  }

  // ---- Replies that come too late -----------------------------------------------------------

  /** A reply changes nothing exactly when its call id is not running. */
  lemma ReplyChangesNothingIff(s: State, perNode: nat, call: FuncCall, node: NodeId, b: Balance)
    requires Inv(s, perNode) && FewCalls(s) && Enabled(s, EngineReplies(call, node, b))
    ensures OnReply(s, call, node, b) == s <==> call !in s.t.running
    ensures call !in s.t.running ==> Reply(s.t, call, node, b) == (s.t, Outcome(false, None, 0))
  {
    if call in s.t.running { AnsweredLeaves(s, call, node, b, perNode); }
  }

  predicate Idle(s: State, call: FuncCall) { call !in s.t.running && call !in CallsIn(s.t.pending) }

  predicate NeverAdmits(events: seq<Event>, call: FuncCall) {
    forall e :: e in events && e.NewCall? ==> e.call != call
  }

  lemma StepIdle(s: State, e: Event, perNode: nat, call: FuncCall)
    requires Inv(s, perNode) && Enabled(s, e) && Idle(s, call) && !(e.NewCall? && e.call == call)
    ensures Idle(Step(s, e, perNode), call)
  {
    match e
    case NewCall(c, connection, now, b) =>
      AdmitCases(s, c, connection, now, b);
      QueuedAppend(s.t.pending, Record(c, connection, Stamp(s.t, now)));
    case EngineReplies(c, node, b) =>
      if c in s.t.running {
        var k := ReplyEffect(s, c, node, b, perNode > 0);
        QueueDistinct(s.t.running, s.t.pending, s.t.lastTimestamp, s.h, k);
        if Reply(s.t, c, node, b).1.next.Some? { NextIsApart(s.t.running, s.t.pending, s.t.lastTimestamp, s.h, k); }
      }
    case _ =>
  }

  /** After a call left the tables, however many replies to it arrive change nothing until its id is used again. */
  lemma {:induction false} DuplicateRepliesChangeNothing(s: State, events: seq<Event>, perNode: nat, call: FuncCall, node: NodeId, b: Balance)
    requires Inv(s, perNode) && FewCalls(s) && Feasible(s, events, perNode) && Idle(s, call) && NeverAdmits(events, call)
    ensures
      var s' := Run(s, events, perNode);
      Step(s', EngineReplies(call, node, b), perNode) == s' && Reply(s'.t, call, node, b) == (s'.t, Outcome(false, None, 0))
    decreases |events|
  {
    if events != [] {
      assert events[0] in events && NeverAdmits(events[1..], call);
      StepKeepsInv(s, events[0], perNode);
      StepFewCalls(s, events[0], perNode);
      StepIdle(s, events[0], perNode, call);
      DuplicateRepliesChangeNothing(Step(s, events[0], perNode), events[1..], perNode, call, node, b);
    }
  }

  // ---- Arrival order ------------------------------------------------------------------------

  function Stamps(q: seq<Record>): seq<int> { seq(|q|, i requires 0 <= i < |q| => q[i].recvTimestamp) }

  /** Calls wait only when the cap is reached. */
  predicate Saturated(t: Tables) { t.pending != [] ==> |t.running| == t.maxRunning }

  /** Calls started so far, followed by the waiting ones, arrived in this order. */
  predicate InOrder(s: State) {
    && Increasing(s.h.started + Stamps(s.t.pending))
    && (forall x :: x in s.h.started + Stamps(s.t.pending) ==> x <= s.t.lastTimestamp)
  }

  /** An admission is started at once although others wait: the tables are below the cap. */
  predicate Overtakes(t: Tables) { t.pending != [] && t.nodes != [] && !AtCap(t) }

  lemma AdmitInOrderIff(s: State, call: FuncCall, connection: int, now: int, b: Balance)
    requires InOrder(s)
    ensures InOrder(OnNewCall(s, call, connection, now, b)) <==> !Overtakes(s.t)
  {
    var s', r := OnNewCall(s, call, connection, now, b), Record(call, connection, Stamp(s.t, now));
    AdmitCases(s, call, connection, now, b);
    if s.t.nodes != [] {
      assert |Stamps(s.t.pending)| == |s.t.pending|;
      assert Stamps(s.t.pending + [r]) == Stamps(s.t.pending) + [r.recvTimestamp];
      OrderAfterArrival(s.h.started, Stamps(s.t.pending), s'.h.started, Stamps(s'.t.pending), r.recvTimestamp, !AtCap(s.t));
    }
  }

  lemma AdmitSaturated(s: State, call: FuncCall, connection: int, now: int, b: Balance, capped: bool)
    requires CapOk(s.t, capped) && Saturated(s.t) && call !in s.t.running
    ensures Saturated(OnNewCall(s, call, connection, now, b).t)
  {
    AdmitCases(s, call, connection, now, b);
  }

  lemma Cut(a: seq<int>, i: nat, j: nat)
    requires i <= j <= |a| && Increasing(a)
    ensures Increasing(a[..i] + a[j..])
    ensures forall x :: x in a[..i] + a[j..] ==> x in a
  {
  }

  /** Dropping the first `k` queue entries keeps the order of what was started and what waits. */
  lemma DropKeepsOrder(started: seq<int>, q: seq<Record>, k: nat, last: int)
    requires Increasing(started + Stamps(q)) && k <= |q| && (forall x :: x in started + Stamps(q) ==> x <= last)
    ensures Increasing(started + Stamps(q[k..]))
    ensures forall x :: x in started + Stamps(q[k..]) ==> x <= last
  {
    var n, all := |started|, started + Stamps(q);
    Cut(all, n, n + k);
    assert all[..n] + all[n + k..] == started + Stamps(q[k..]);
  }

  lemma RepliedInOrder(s: State, s': State, call: FuncCall, next: Option<Record>, k: nat)
    requires Replied(s, s', call, next, k) && InOrder(s)
    ensures InOrder(s')
  {
    var q := s.t.pending;
    if next.Some? {
      DropKeepsOrder(s.h.started, q, k - 1, s.t.lastTimestamp);
      assert Stamps(q[k - 1..]) == [next.value.recvTimestamp] + Stamps(q[k..]);
      assert s.h.started + Stamps(q[k - 1..]) == s'.h.started + Stamps(s'.t.pending);
    } else {
      DropKeepsOrder(s.h.started, q, k, s.t.lastTimestamp);
    }
  }

  lemma RepliedSaturated(s: State, s': State, call: FuncCall, next: Option<Record>, k: nat)
    requires Replied(s, s', call, next, k) && call in s.t.running && Saturated(s.t)
    requires next.Some? ==> next.value.call !in s.t.running
    ensures Saturated(s'.t)
  {
    if next.Some? {
      assert s'.t.running.Keys == s.t.running.Keys - {call} + {next.value.call};
    }
  }

  /** The two steps that leave calls waiting below the cap: a missed node, and a joining one. */
  predicate Unsaturating(s: State, e: Event, perNode: nat) {
    s.t.pending != [] && (e.NotSent? || (e.NodeJoins? && perNode > 0 && e.node !in s.t.nodes))
  }

  lemma StepSaturated(s: State, e: Event, perNode: nat)
    requires Inv(s, perNode) && Enabled(s, e) && Saturated(s.t) && !Unsaturating(s, e, perNode)
    ensures Saturated(Step(s, e, perNode).t)
  {
    match e
    case NewCall(call, connection, now, b) => AdmitSaturated(s, call, connection, now, b, perNode > 0);
    case EngineReplies(call, node, b) =>
      if call in s.t.running {
        var next := Reply(s.t, call, node, b).1.next;
        var k := ReplyEffect(s, call, node, b, perNode > 0);
        if next.Some? { assert s.t.pending[k - 1] in s.t.pending; }
        RepliedSaturated(s, OnReply(s, call, node, b), call, next, k);
      }
    case NodeJoins(n) => assert n !in s.t.nodes ==> s.t.pending == [];
    case _ =>
  }

  /** Exactly these steps break it: every other step of every event keeps calls waiting only at the cap. */
  lemma SaturationIff(s: State, e: Event, perNode: nat)
    requires Inv(s, perNode) && Enabled(s, e) && Saturated(s.t)
    ensures Saturated(Step(s, e, perNode).t) <==> !Unsaturating(s, e, perNode)
  {
    if !Unsaturating(s, e, perNode) {
      StepSaturated(s, e, perNode);
    } else if e.NotSent? {
      assert (s.t.running - {e.call}).Keys == s.t.running.Keys - {e.call};
    } else {
      JoinGrows(perNode, |s.t.nodes|);
    }
  }

  /** Every step keeps arrival order, except exactly a new call below the cap while others wait. */
  lemma StepInOrderIff(s: State, e: Event, perNode: nat)
    requires Inv(s, perNode) && Enabled(s, e) && InOrder(s)
    ensures InOrder(Step(s, e, perNode)) <==> !(e.NewCall? && Overtakes(s.t))
  {
    match e
    case NewCall(call, connection, now, b) => AdmitInOrderIff(s, call, connection, now, b);
    case EngineReplies(call, node, b) =>
      if call in s.t.running {
        var k := ReplyEffect(s, call, node, b, perNode > 0);
        RepliedInOrder(s, OnReply(s, call, node, b), call, Reply(s.t, call, node, b).1.next, k);
      }
    case _ =>
  }

  lemma JoinGrows(perNode: nat, n: nat)
    requires perNode > 0
    ensures perNode * n < perNode * (n + 1)
  {
  }

  predicate NeverUnsaturating(s: State, events: seq<Event>, perNode: nat)
    decreases |events|
  {
    events == [] || (!Unsaturating(s, events[0], perNode) && NeverUnsaturating(Step(s, events[0], perNode), events[1..], perNode))
  }

  /**
   As long as no dispatch lacks a connection and no node joins while calls wait: calls wait
   only at the cap, and the calls started, followed by the waiting ones, are in arrival order.
   */
  lemma {:induction false} StartsFollowArrival(s: State, events: seq<Event>, perNode: nat)
    requires Inv(s, perNode) && FewCalls(s) && Feasible(s, events, perNode) && Saturated(s.t) && InOrder(s)
    requires NeverUnsaturating(s, events, perNode)
    ensures
      var s' := Run(s, events, perNode);
      && (s'.t.pending != [] ==> |s'.t.running| == perNode * |s'.t.nodes|)
      && Increasing(s'.h.started + Stamps(s'.t.pending))
    decreases |events|
  {
    if events != [] {
      StepInOrderIff(s, events[0], perNode);
      StepSaturated(s, events[0], perNode);
      StepKeepsInv(s, events[0], perNode);
      StepFewCalls(s, events[0], perNode);
      StartsFollowArrival(Step(s, events[0], perNode), events[1..], perNode);
    }
  }

  /** In particular over every such run of a gateway from its start. */
  lemma EveryRunStartsInOrder(events: seq<Event>, perNode: nat)
    requires Feasible(Init(), events, perNode) && NeverUnsaturating(Init(), events, perNode)
    ensures
      var s := Run(Init(), events, perNode);
      && (s.t.pending != [] ==> |s.t.running| == perNode * |s.t.nodes|)
      && Increasing(s.h.started + Stamps(s.t.pending))
  {
    InitInv(perNode);
    StartsFollowArrival(Init(), events, perNode);
  }

  // ---- Who is missing from the order ----------------------------------------------------------

  /** Every admission was started, waits, or was dropped from the queue. */
  ghost predicate Accounted(s: State) {
    && (forall r :: r in s.h.admitted ==> r in s.h.dropped || r.recvTimestamp in s.h.started || r in s.t.pending)
    && s.h.dropped <= s.h.admitted
  }

  lemma RepliedAccounted(s: State, s': State, call: FuncCall, next: Option<Record>, k: nat)
    requires PartitionOk(s.t.running, s.t.pending, s.t.lastTimestamp, s.h)
    requires Replied(s, s', call, next, k) && Accounted(s)
    ensures Accounted(s')
  {
    if next.Some? { assert s.t.pending[k - 1] in s.t.pending; }
  }

  lemma StepAccounted(s: State, e: Event, perNode: nat)
    requires Inv(s, perNode) && Enabled(s, e) && Accounted(s)
    ensures Accounted(Step(s, e, perNode))
  {
    match e
    case NewCall(call, connection, now, b) => AdmitCases(s, call, connection, now, b);
    case EngineReplies(call, node, b) =>
      if call in s.t.running {
        var k := ReplyEffect(s, call, node, b, perNode > 0);
        RepliedAccounted(s, OnReply(s, call, node, b), call, Reply(s.t, call, node, b).1.next, k);
      }
    case _ =>
  }

  lemma {:induction false} RunAccounted(s: State, events: seq<Event>, perNode: nat)
    requires Inv(s, perNode) && FewCalls(s) && Feasible(s, events, perNode) && Accounted(s)
    ensures Accounted(Run(s, events, perNode))
    decreases |events|
  {
    if events != [] {
      StepAccounted(s, events[0], perNode);
      StepKeepsInv(s, events[0], perNode);
      StepFewCalls(s, events[0], perNode);
      RunAccounted(Step(s, events[0], perNode), events[1..], perNode);
    }
  }

  /** Nobody is lost: after every run each admission was started, waits, or was dropped. */
  lemma NobodyIsForgotten(events: seq<Event>, perNode: nat)
    requires Feasible(Init(), events, perNode)
    ensures Accounted(Run(Init(), events, perNode))
  {
    InitInv(perNode);
    RunAccounted(Init(), events, perNode);
  }

  /** The admission waits although its call was discarded or its connection is gone. */
  predicate Abandoned(s: State, r: Record) {
    r in s.t.pending && (r.call in s.t.discarded || r.connection !in s.t.connections)
  }

  lemma RepliedDrops(s: State, s': State, call: FuncCall, next: Option<Record>, k: nat, r: Record)
    requires PartitionOk(s.t.running, s.t.pending, s.t.lastTimestamp, s.h)
    requires call in s.t.running && Replied(s, s', call, next, k) && r in s'.h.dropped && r !in s.h.dropped
    ensures Abandoned(s, r)
  {
    assert r in Waiting(s.t.pending) && r !in Waiting(s.t.pending[k..]);
    var i :| 0 <= i < |s.t.pending| && s.t.pending[i] == r;
    assert i < k by { TailRecords(s.t.pending, k); }
  }

  lemma TailRecords(q: seq<Record>, k: nat)
    requires k <= |q|
    ensures forall j :: k <= j < |q| ==> q[j] in Waiting(q[k..])
  {
    forall j | k <= j < |q| ensures q[j] in Waiting(q[k..]) {
      assert q[j] == q[k..][j - k];
    }
  }

  lemma StepDrops(s: State, e: Event, perNode: nat, r: Record)
    requires Inv(s, perNode) && Enabled(s, e) && r !in s.h.dropped && r in Step(s, e, perNode).h.dropped
    ensures Abandoned(s, r)
  {
    match e
    case NewCall(call, connection, now, b) => AdmitCases(s, call, connection, now, b);
    case EngineReplies(call, node, b) =>
      if call in s.t.running {
        var k := ReplyEffect(s, call, node, b, perNode > 0);
        RepliedDrops(s, OnReply(s, call, node, b), call, Reply(s.t, call, node, b).1.next, k, r);
      }
    case _ =>
  }

  /** Over any run, an admission is dropped only while it is abandoned. */
  lemma {:induction false} OnlyAbandonedAreDropped(s: State, events: seq<Event>, perNode: nat, r: Record)
    requires Inv(s, perNode) && FewCalls(s) && Feasible(s, events, perNode)
    requires r !in s.h.dropped && r in Run(s, events, perNode).h.dropped
    ensures exists i :: 0 <= i < |events| && Abandoned(Run(s, events[..i], perNode), r)
    decreases |events|
  {
    var s' := Step(s, events[0], perNode);
    if r in s'.h.dropped {
      StepDrops(s, events[0], perNode, r);
      assert Run(s, events[..0], perNode) == s;
    } else {
      StepKeepsInv(s, events[0], perNode);
      StepFewCalls(s, events[0], perNode);
      OnlyAbandonedAreDropped(s', events[1..], perNode, r);
      var i :| 0 <= i < |events[1..]| && Abandoned(Run(s', events[1..][..i], perNode), r);
      assert events[..i + 1][0] == events[0] && events[..i + 1][1..] == events[1..][..i];
      assert Run(s, events[..i + 1], perNode) == Run(s', events[1..][..i], perNode);
    }
  }

  // ---- Concrete runs ---------------------------------------------------------------------------

  lemma Cons(s: State, e: Event, rest: seq<Event>, perNode: nat)
    ensures Run(s, [e] + rest, perNode) == Run(Step(s, e, perNode), rest, perNode)
    ensures Feasible(s, [e] + rest, perNode) <==> Enabled(s, e) && Feasible(Step(s, e, perNode), rest, perNode)
    ensures FinishedBy(s, [e] + rest, perNode) == FinishedNow(s, e) + FinishedBy(Step(s, e, perNode), rest, perNode)
  {
    assert ([e] + rest)[1..] == rest;
  }

  lemma ThreeEvents(s: State, s1: State, s2: State, e1: Event, e2: Event, e3: Event, perNode: nat)
    requires s1 == Step(s, e1, perNode) && s2 == Step(s1, e2, perNode)
    ensures Run(s, [e1, e2, e3], perNode) == Step(s2, e3, perNode)
    ensures Feasible(s, [e1, e2, e3], perNode) <==> Enabled(s, e1) && Enabled(s1, e2) && Enabled(s2, e3)
    ensures FinishedBy(s, [e1, e2, e3], perNode) == FinishedNow(s, e1) + FinishedNow(s1, e2) + FinishedNow(s2, e3)
  {
    Cons(s2, e3, [], perNode);
    Cons(s1, e2, [e3], perNode);
    Cons(s, e1, [e2, e3], perNode);
    assert [e3] + [] == [e3] && [e2] + [e3] == [e2, e3] && [e1] + [e2, e3] == [e1, e2, e3];
    AssociateRecords(FinishedNow(s, e1), FinishedNow(s1, e2), FinishedNow(s2, e3));
  }

  lemma {:induction false} RunAppend(s: State, a: seq<Event>, b: seq<Event>, perNode: nat)
    ensures Run(s, a + b, perNode) == Run(Run(s, a, perNode), b, perNode)
    ensures Feasible(s, a + b, perNode) <==> Feasible(s, a, perNode) && Feasible(Run(s, a, perNode), b, perNode)
    ensures FinishedBy(s, a + b, perNode) == FinishedBy(s, a, perNode) + FinishedBy(Run(s, a, perNode), b, perNode)
    decreases |a|
  {
    if a == [] {
      assert a + b == b;
    } else {
      var ab, s' := a + b, Step(s, a[0], perNode);
      assert ab[0] == a[0] && ab[1..] == a[1..] + b;
      RunAppend(s', a[1..], b, perNode);
      AssociateRecords(FinishedNow(s, a[0]), FinishedBy(s', a[1..], perNode), FinishedBy(Run(s', a[1..], perNode), b, perNode));
    }
  }

  // ---- Stranded calls -------------------------------------------------------------------------

  /** With nothing running, no list of replies ever starts a waiting call; only a new call does something. */
  lemma {:induction false} RepliesStartNothing(s: State, replies: seq<Event>, perNode: nat)
    requires s.t.running == map[] && forall e :: e in replies ==> e.EngineReplies?
    ensures Run(s, replies, perNode) == s
    decreases |replies|
  {
    if replies != [] {
      assert replies[0] in replies;
      RepliesStartNothing(s, replies[1..], perNode);
    }
  }

  lemma NewCallOvertakes(s: State, call: FuncCall, connection: int, now: int, b: Balance)
    requires s.t.running == map[] && s.t.nodes != []
    ensures
      var s' := OnNewCall(s, call, connection, now, b);
      s'.t.pending == s.t.pending && s'.h.started == s.h.started + [Stamp(s.t, now)]
  {
    AdmitCases(s, call, connection, now, b);
  }

  function SampleCall(id: nat): FuncCall { FuncCall(1, 0, 0, id) }

  /** One node and one place on it: two calls arrive, and the running one misses its node. */
  function StrandingRun(): seq<Event> {
    [NodeJoins(1)] + [NewCall(SampleCall(1), 7, 0, LeastLoad), NewCall(SampleCall(2), 7, 0, LeastLoad), NotSent(SampleCall(1))]
  }

  /** Nothing runs, waits or is being sent, and node 1 is the only node. */
  predicate Empty(s: State) {
    s.t.nodes == [1] && s.t.running == map[] && s.t.pending == [] && s.h.sending == {} && s.h.placed == map[]
  }

  lemma StartAlone(s: State, r: Record, now: int, perNode: nat)
    requires Empty(s) && r.recvTimestamp == Stamp(s.t, now)
    ensures
      var s' := Step(s, NewCall(r.call, r.connection, now, LeastLoad), perNode);
      && s'.t == s.t.(running := map[r.call := r], lastTimestamp := r.recvTimestamp, inflight := s'.t.inflight)
      && s'.h == s.h.(admitted := s.h.admitted + {r}, placed := map[r := 1], sending := {r.call}, started := s.h.started + [r.recvTimestamp])
  {
    AdmitCases(s, r.call, r.connection, now, LeastLoad);
  }

  /** On one node with one place: the first call starts, the second waits, the first misses its node. */
  lemma Strands(s: State, a: Record, b: Record)
    requires Empty(s) && s.t.maxRunning == 1 && |s.h.admitted| + 2 < SIZE_MAX && a.call != b.call
    requires a.recvTimestamp == Stamp(s.t, 0) && b.recvTimestamp == a.recvTimestamp + 1 && a.recvTimestamp >= 0
    ensures
      var events := [NewCall(a.call, a.connection, 0, LeastLoad), NewCall(b.call, b.connection, 0, LeastLoad), NotSent(a.call)];
      var s' := Run(s, events, 1);
      && Feasible(s, events, 1) && s'.t.nodes == [1]
      && s'.t.running == map[] && s'.t.pending == [b] && s'.h.started == s.h.started + [a.recvTimestamp]
  {
    var e1, e2, e3 := NewCall(a.call, a.connection, 0, LeastLoad), NewCall(b.call, b.connection, 0, LeastLoad), NotSent(a.call);
    StartAlone(s, a, 0, 1);
    var s1 := Step(s, e1, 1);
    WaitsBehind(s1, a, b);
    var s2 := Step(s1, e2, 1);
    MissAlone(s2, a);
    ThreeEvents(s, s1, s2, e1, e2, e3, 1);
  }

  lemma MissAlone(s: State, a: Record)
    requires s.t.running == map[a.call := a] && s.h.sending == {a.call}
    ensures
      var s' := Step(s, NotSent(a.call), 1);
      && Enabled(s, NotSent(a.call)) && s'.t.running == map[] && s'.t.pending == s.t.pending
      && s'.t.nodes == s.t.nodes && s'.h.started == s.h.started
  {
    assert s.t.running - {a.call} == map[];
  }

  lemma WaitsBehind(s: State, a: Record, b: Record)
    requires s.t.nodes == [1] && s.t.maxRunning == 1 && s.t.running == map[a.call := a] && s.t.pending == []
    requires b.recvTimestamp == Stamp(s.t, 0) && a.call != b.call && |s.h.admitted| + 1 < SIZE_MAX
    ensures Enabled(s, NewCall(b.call, b.connection, 0, LeastLoad))
    ensures Step(s, NewCall(b.call, b.connection, 0, LeastLoad), 1)
         == State(s.t.(lastTimestamp := b.recvTimestamp, pending := [b]), s.h.(admitted := s.h.admitted + {b}))
  {
    AdmitCases(s, b.call, b.connection, 0, LeastLoad);
  }

  lemma StrandingRunStrands()
    ensures Feasible(Init(), StrandingRun(), 1)
    ensures var s := Run(Init(), StrandingRun(), 1);
      s.t.running == map[] && s.t.pending == [Record(SampleCall(2), 7, 1)] && s.t.nodes == [1] && s.h.started == [0]
  {
    var a, b := SampleCall(1), SampleCall(2);
    var rest := [NewCall(a, 7, 0, LeastLoad), NewCall(b, 7, 0, LeastLoad), NotSent(a)];
    Strands(Step(Init(), NodeJoins(1), 1), Record(a, 7, 0), Record(b, 7, 1));
    Cons(Init(), NodeJoins(1), rest, 1);
  }

  /**
   Why saturation needs its condition: after that run the second call waits although nothing
   runs, no replies whatever start it, and the next call overtakes it.
   */
  lemma StrandedCallsAreOvertaken(replies: seq<Event>, call: FuncCall, connection: int, now: int, b: Balance)
    requires forall e :: e in replies ==> e.EngineReplies?
    ensures
      var s := Run(Init(), StrandingRun(), 1);
      var s' := OnNewCall(Run(s, replies, 1), call, connection, now, b);
      && Feasible(Init(), StrandingRun(), 1)
      && Run(s, replies, 1) == s
      && s'.t.pending == [Record(SampleCall(2), 7, 1)]
      && s'.h.started == [0, Stamp(s.t, now)]
  {
    StrandingRunStrands();
    var s := Run(Init(), StrandingRun(), 1);
    RepliesStartNothing(s, replies, 1);
    NewCallOvertakes(s, call, connection, now, b);
  }
}
