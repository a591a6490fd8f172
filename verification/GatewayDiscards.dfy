/**
 Discards that stay behind. The server keeps discarded call ids in a set and erases an id only
 when that call is answered or taken off the queue; a discard of a call that already left the
 tables remains, and meets the next call with the same id.
 */
module GatewayDiscards {
  import opened Collections
  import opened Protocol
  import opened Gateway
  import opened GatewayInvariants
  import opened GatewayOrder

  predicate Stale(s: State, c: FuncCall) { c in s.t.discarded && Idle(s, c) }

  lemma RepliedStale(s: State, s': State, call: FuncCall, next: Option<Record>, k: nat, c: FuncCall)
    requires PartitionOk(s.t.running, s.t.pending, s.t.lastTimestamp, s.h)
    requires call in s.t.running && Replied(s, s', call, next, k)
    ensures Stale(s', c) <==> Stale(s, c)
  {
    QueueDistinct(s.t.running, s.t.pending, s.t.lastTimestamp, s.h, k);
    if next.Some? { NextIsApart(s.t.running, s.t.pending, s.t.lastTimestamp, s.h, k); }
  }

  lemma AdmitStale(s: State, call: FuncCall, connection: int, now: int, b: Balance, c: FuncCall)
    requires s.t.nodes != []
    ensures Stale(OnNewCall(s, call, connection, now, b), c) <==> Stale(s, c) && c != call
  {
    AdmitCases(s, call, connection, now, b);
    QueuedAppend(s.t.pending, Record(call, connection, Stamp(s.t, now)));
  }

  /**
   Exactly two steps leave a discard behind: a client discards a call that is in no table any
   more, or a discarded running call misses its node.
   */
  lemma BecomesStaleIff(s: State, e: Event, perNode: nat, c: FuncCall)
    requires Inv(s, perNode) && Enabled(s, e) && !Stale(s, c)
    ensures Stale(Step(s, e, perNode), c) <==>
      (e == ClientDiscards(c) && Idle(s, c)) || (e == NotSent(c) && c in s.t.discarded)
  {
    match e
    case NewCall(call, connection, now, b) =>
      AdmitCases(s, call, connection, now, b);
      if s.t.nodes != [] { AdmitStale(s, call, connection, now, b, c); }
    case EngineReplies(call, node, b) =>
      if call in s.t.running {
        var k := ReplyEffect(s, call, node, b, perNode > 0);
        RepliedStale(s, OnReply(s, call, node, b), call, Reply(s.t, call, node, b).1.next, k, c);
      }
    case NotSent(call) =>
      if call == c { MissedIsIdle(s, perNode, c); }
    case _ =>
  }

  lemma MissedIsIdle(s: State, perNode: nat, c: FuncCall)
    requires Inv(s, perNode) && c in s.h.sending
    ensures c in s.t.running && c !in CallsIn(s.t.pending)
  {
    WaitingIsNotRunning(s, s.t.pending);
  }

  /** A discard left behind goes away only when its call id is admitted again. */
  lemma StaleEndsIff(s: State, e: Event, perNode: nat, c: FuncCall)
    requires Inv(s, perNode) && Enabled(s, e) && Stale(s, c)
    ensures Stale(Step(s, e, perNode), c) <==> !(e.NewCall? && e.call == c && s.t.nodes != [])
  {
    match e
    case NewCall(call, connection, now, b) =>
      AdmitCases(s, call, connection, now, b);
      if s.t.nodes != [] { AdmitStale(s, call, connection, now, b, c); }
    case EngineReplies(call, node, b) =>
      if call in s.t.running {
        var k := ReplyEffect(s, call, node, b, perNode > 0);
        RepliedStale(s, OnReply(s, call, node, b), call, Reply(s.t, call, node, b).1.next, k, c);
      }
    case _ =>
  }

  // ---- What it does to the next call with that id ---------------------------------------------

  /** The admission is in the tables, its client has not discarded it, and its connection is open. */
  predicate Wanted(s: State, r: Record) {
    Live(s.t, r) && r.call !in s.t.discarded && r.connection in s.t.connections
  }

  lemma AdmittedIsLive(s: State, call: FuncCall, connection: int, now: int, b: Balance)
    requires s.t.nodes != []
    ensures
      var r, s' := Record(call, connection, Stamp(s.t, now)), OnNewCall(s, call, connection, now, b);
      && Live(s'.t, r) && r in s'.h.admitted && s'.t.discarded == s.t.discarded
      && s'.t.connections == s.t.connections && s'.h.closed == s.h.closed
  {
    AdmitCases(s, call, connection, now, b);
  }

  /** A new admission is doomed from the start exactly when a discard of its id was left behind. */
  lemma DoomedFromStartIff(s: State, call: FuncCall, connection: int, now: int, b: Balance, perNode: nat)
    requires Inv(s, perNode) && Enabled(s, NewCall(call, connection, now, b)) && s.t.nodes != [] && connection in s.t.connections
    ensures
      var r, s' := Record(call, connection, Stamp(s.t, now)), OnNewCall(s, call, connection, now, b);
      && (Doomed(s', r) <==> Stale(s, call))
      && (Wanted(s', r) <==> !Stale(s, call))
  {
    AdmittedIsLive(s, call, connection, now, b);
  }

  lemma RepliedWanted(s: State, s': State, call: FuncCall, next: Option<Record>, k: nat, r: Record)
    requires PartitionOk(s.t.running, s.t.pending, s.t.lastTimestamp, s.h)
    requires call in s.t.running && Replied(s, s', call, next, k) && Wanted(s, r) && r.call != call
    ensures Wanted(s', r)
  {
    if Runs(s.t.running, r) {
      if next.Some? { NextIsApart(s.t.running, s.t.pending, s.t.lastTimestamp, s.h, k); }
    } else {
      var i :| 0 <= i < |s.t.pending| && s.t.pending[i] == r;
      WantedIsNotDropped(s, s', call, next, k, i);
    }
  }

  lemma WantedIsNotDropped(s: State, s': State, call: FuncCall, next: Option<Record>, k: nat, i: nat)
    requires Replied(s, s', call, next, k) && i < |s.t.pending|
    requires s.t.pending[i].call !in s.t.discarded && s.t.pending[i].connection in s.t.connections
    ensures Live(s'.t, s.t.pending[i])
  {
    assert i >= (if next.Some? then k - 1 else k);
    if i >= k { assert s.t.pending[k..][i - k] == s.t.pending[i]; }
  }

  predicate Disturbs(e: Event, r: Record) {
    e == ClientDiscards(r.call) || e == Close(r.connection) || e == NotSent(r.call)
  }

  /** A wanted admission that nobody disturbs stays wanted or is finished by the reply to it. */
  lemma StepWanted(s: State, e: Event, perNode: nat, r: Record)
    requires Inv(s, perNode) && Enabled(s, e) && Wanted(s, r) && !Disturbs(e, r)
    ensures Wanted(Step(s, e, perNode), r) || FinishedNow(s, e) == [r]
  {
    match e
    case NewCall(call, connection, now, b) => AdmitCases(s, call, connection, now, b);
    case EngineReplies(call, node, b) =>
      if call in s.t.running {
        if call == r.call {
          WaitingIsNotRunning(s, s.t.pending);
          assert r in s.t.pending ==> r.call in CallsIn(s.t.pending);
        } else {
          var k := ReplyEffect(s, call, node, b, perNode > 0);
          RepliedWanted(s, OnReply(s, call, node, b), call, Reply(s.t, call, node, b).1.next, k, r);
        }
      }
    case _ =>
  }

  lemma {:induction false} WantedIsFinished(s: State, events: seq<Event>, perNode: nat, r: Record)
    requires Inv(s, perNode) && FewCalls(s) && Feasible(s, events, perNode) && Wanted(s, r)
    requires forall e :: e in events ==> !Disturbs(e, r)
    ensures Wanted(Run(s, events, perNode), r) || r in FinishedBy(s, events, perNode)
    decreases |events|
  {
    if events != [] {
      assert events[0] in events;
      StepWanted(s, events[0], perNode, r);
      StepKeepsInv(s, events[0], perNode);
      StepFewCalls(s, events[0], perNode);
      if FinishedNow(s, events[0]) != [r] {
        WantedIsFinished(Step(s, events[0], perNode), events[1..], perNode, r);
      }
    }
  }

  /**
   Exactly when a discard left behind harms a later call: an admission that nobody disturbs
   and that has left the tables was finished if and only if no discard of its id was in the
   set when it arrived.
   */
  lemma StaleDiscardHarmsIff(s: State, call: FuncCall, connection: int, now: int, b: Balance, events: seq<Event>, perNode: nat)
    requires Inv(s, perNode) && FewCalls(s) && s.t.nodes != [] && connection in s.t.connections
    requires Feasible(s, [NewCall(call, connection, now, b)] + events, perNode)
    requires
      var r := Record(call, connection, Stamp(s.t, now));
      && (forall e :: e in events ==> !Disturbs(e, r))
      && !Live(Run(OnNewCall(s, call, connection, now, b), events, perNode).t, r)
    ensures
      var r := Record(call, connection, Stamp(s.t, now));
      r in FinishedBy(OnNewCall(s, call, connection, now, b), events, perNode) <==> call !in s.t.discarded
  {
    var e, r := NewCall(call, connection, now, b), Record(call, connection, Stamp(s.t, now));
    var s' := Step(s, e, perNode);
    assert ([e] + events)[0] == e && ([e] + events)[1..] == events;
    StepKeepsInv(s, e, perNode);
    StepFewCalls(s, e, perNode);
    DoomedFromStartIff(s, call, connection, now, b, perNode);
    if call in s.t.discarded {
      DoomedIsNeverFinished(s', events, perNode, r);
    } else {
      WantedIsFinished(s', events, perNode, r);
    }
  }

  // ---- A run in which it happens --------------------------------------------------------------

  /** A call is answered and then discarded; the next call with its id is answered in vain. */
  function ReuseRun(): seq<Event> {
    [Open(7)] + ([NodeJoins(1)] + (Visit(SampleCall(1)) + ([ClientDiscards(SampleCall(1))] + Visit(SampleCall(1)))))
  }

  /** A call that is admitted, sent and answered. */
  function Visit(c: FuncCall): seq<Event> { [NewCall(c, 7, 0, LeastLoad), Sent(c), EngineReplies(c, 1, LeastLoad)] }

  lemma Opening(rest: seq<Event>) returns (s: State)
    ensures Empty(s) && s.t.maxRunning == 0 && 7 in s.t.connections && s.t.discarded == {} && s.h.admitted == {} && s.t.lastTimestamp == -1
    ensures Run(Init(), [Open(7)] + ([NodeJoins(1)] + rest), 0) == Run(s, rest, 0)
    ensures Feasible(Init(), [Open(7)] + ([NodeJoins(1)] + rest), 0) <==> Feasible(s, rest, 0)
    ensures FinishedBy(Init(), [Open(7)] + ([NodeJoins(1)] + rest), 0) == FinishedBy(s, rest, 0)
  {
    var s1 := Step(Init(), Open(7), 0);
    s := Step(s1, NodeJoins(1), 0);
    Cons(s1, NodeJoins(1), rest, 0);
    Cons(Init(), Open(7), [NodeJoins(1)] + rest, 0);
  }

  /** The first admission is finished, the second, although answered, is not. */
  lemma TwoVisits(s: State, a: FuncCall)
    requires Empty(s) && s.t.maxRunning == 0 && 7 in s.t.connections && s.t.discarded == {} && s.h.admitted == {} && s.t.lastTimestamp == -1
    ensures
      var events := Visit(a) + ([ClientDiscards(a)] + Visit(a));
      && Feasible(s, events, 0) && FinishedBy(s, events, 0) == [Record(a, 7, 0)]
      && Record(a, 7, 1) in Run(s, events, 0).h.done
  {
    OneCall(s, Record(a, 7, 0));
    var s1 := Run(s, Visit(a), 0);
    OneCall(Step(s1, ClientDiscards(a), 0), Record(a, 7, 1));
    Cons(s1, ClientDiscards(a), Visit(a), 0);
    RunAppend(s, Visit(a), [ClientDiscards(a)] + Visit(a), 0);
  }

  lemma ReuseRunLoses()
    ensures Feasible(Init(), ReuseRun(), 0)
    ensures FinishedBy(Init(), ReuseRun(), 0) == [Record(SampleCall(1), 7, 0)]
    ensures Record(SampleCall(1), 7, 1) in Run(Init(), ReuseRun(), 0).h.done
  {
    var s := Opening(Visit(SampleCall(1)) + ([ClientDiscards(SampleCall(1))] + Visit(SampleCall(1))));
    TwoVisits(s, SampleCall(1));
  }

  /** One call in an otherwise empty server with one node: admitted, sent and answered. */
  lemma OneCall(s: State, r: Record)
    requires Empty(s) && s.t.maxRunning == 0 && 7 in s.t.connections && |s.h.admitted| + 1 < SIZE_MAX
    requires r.connection == 7 && r.recvTimestamp == Stamp(s.t, 0)
    ensures
      var events := Visit(r.call);
      var s' := Run(s, events, 0);
      && Feasible(s, events, 0)
      && FinishedBy(s, events, 0) == (if r.call in s.t.discarded then [] else [r])
      && r in s'.h.done && Empty(s') && s'.h.admitted == s.h.admitted + {r}
      && s'.t == s.t.(lastTimestamp := r.recvTimestamp, discarded := s.t.discarded - {r.call}, inflight := s'.t.inflight)
  {
    var e1, e2, e3 := NewCall(r.call, 7, 0, LeastLoad), Sent(r.call), EngineReplies(r.call, 1, LeastLoad);
    StartAlone(s, r, 0, 0);
    var s1 := Step(s, e1, 0);
    var s2 := Step(s1, e2, 0);
    assert s2 == s1.(h := s1.h.(sending := {}));
    AnswerAlone(s2, r);
    ThreeEvents(s, s1, s2, e1, e2, e3, 0);
  }

  lemma AnswerAlone(s: State, r: Record)
    requires s.t.nodes == [1] && s.t.running == map[r.call := r] && s.t.pending == [] && s.t.maxRunning == 0
    requires r.connection in s.t.connections && s.h.placed == map[r := 1] && s.h.sending == {}
    ensures
      var e := EngineReplies(r.call, 1, LeastLoad);
      var s' := Step(s, e, 0);
      && Enabled(s, e) && Empty(s') && r in s'.h.done && s'.h.admitted == s.h.admitted
      && FinishedNow(s, e) == (if r.call in s.t.discarded then [] else [r])
      && s'.t == s.t.(running := map[], discarded := s.t.discarded - {r.call}, inflight := s'.t.inflight)
  {
    assert s.t.running - {r.call} == map[] && s.h.placed - {r} == map[];
  }
}
