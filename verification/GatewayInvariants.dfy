/** What every reachable state of the gateway satisfies. */
module GatewayInvariants {
  import opened Collections
  import opened Protocol
  import opened Gateway

  // ---- The invariant ----------------------------------------------------------------------

  /**
   Every admission is in exactly one of running, pending and done, and no call id is live
   twice. Stamps tell admissions of one call id apart.
   */
  ghost predicate PartitionOk(running: map<FuncCall, Record>, pending: seq<Record>, last: int, h: History) {
    && (forall r :: r in h.admitted ==> r.recvTimestamp <= last)
    && (forall c :: c in running ==> running[c].call == c && running[c] in h.admitted && running[c] !in h.done)
    && (forall r :: r in pending ==> r in h.admitted && r !in h.done && r.call !in running)
    && (forall i, j :: 0 <= i < j < |pending| ==> pending[i].recvTimestamp < pending[j].recvTimestamp)
    && (forall i, j :: 0 <= i < j < |pending| ==> pending[i].call != pending[j].call)
    && (forall r :: r in h.admitted ==> Runs(running, r) || r in pending || r in h.done)
    && h.done <= h.admitted && h.dropped <= h.done
  }

  function On(placement: map<Record, NodeId>, n: NodeId): set<Record> { set r | r in placement && placement[r] == n }

  /** Each node's counter is its running calls plus the calls that missed it. */
  ghost predicate LoadOk(inflight: map<NodeId, nat>, running: map<FuncCall, Record>, h: History) {
    && (forall r :: r in h.placed <==> Runs(running, r))
    && h.sending <= running.Keys
    && h.missed.Keys <= h.done
    && (forall n :: Load(inflight, n) == |On(h.placed, n)| + |On(h.missed, n)|)
  }

  /** With a positive flag the running calls never exceed the cap; without one nobody ever waits. */
  ghost predicate CapOk(t: Tables, capped: bool) {
    && (capped && t.nodes != [] <==> t.maxRunning > 0)
    && (capped ==> |t.running| <= t.maxRunning)
    && (!capped ==> t.pending == [])
    && (t.nodes == [] ==> t.running == map[] && t.pending == [])
    && (forall f :: f in t.nextNode ==> t.nextNode[f] < |t.nodes|)
  }

  ghost predicate TablesOk(s: State, capped: bool) {
    && PartitionOk(s.t.running, s.t.pending, s.t.lastTimestamp, s.h)
    && LoadOk(s.t.inflight, s.t.running, s.h)
    && CapOk(s.t, capped)
    && s.t.connections !! s.h.closed
  }

  ghost predicate Inv(s: State, perNode: nat) { TablesOk(s, perNode > 0) && s.t.maxRunning == perNode * |s.t.nodes| }

  // ---- Placing a call ---------------------------------------------------------------------

  lemma AddPlacement(p: map<Record, NodeId>, r: Record, node: NodeId)
    requires r !in p
    ensures forall n :: |On(p[r := node], n)| == |On(p, n)| + if n == node then 1 else 0
  {
    forall n
      ensures |On(p[r := node], n)| == |On(p, n)| + if n == node then 1 else 0
    {
      assert On(p[r := node], n) == On(p, n) + if n == node then {r} else {};
    }
  }

  lemma RemovePlacement(p: map<Record, NodeId>, r: Record)
    requires r in p
    ensures forall n :: |On(p - {r}, n)| == |On(p, n)| - if n == p[r] then 1 else 0
  {
    forall n
      ensures |On(p - {r}, n)| == |On(p, n)| - if n == p[r] then 1 else 0
    {
      assert On(p, n) == On(p - {r}, n) + if n == p[r] then {r} else {};
    }
  }

  ghost predicate RunningAdmitted(running: map<FuncCall, Record>, h: History) {
    && (forall c :: c in running ==> running[c].call == c && running[c] in h.admitted && running[c] !in h.done)
    && h.done <= h.admitted
  }

  /** No counter can reach 2^64: it counts distinct admissions. */
  lemma LoadBounded(inflight: map<NodeId, nat>, running: map<FuncCall, Record>, h: History, n: NodeId)
    requires LoadOk(inflight, running, h) && RunningAdmitted(running, h)
    ensures Load(inflight, n) <= |h.admitted|
  {
    var both := On(h.placed, n) + On(h.missed, n);
    assert On(h.placed, n) !! On(h.missed, n);
    assert |both| == |On(h.placed, n)| + |On(h.missed, n)|;
    SubsetCard(both, h.admitted);
  }

  lemma PickNodeOk(t: Tables, call: FuncCall, b: Balance)
    requires t.nodes != [] && BalanceOk(t, b) && forall f :: f in t.nextNode ==> t.nextNode[f] < |t.nodes|
    ensures
      var (t', node) := PickNode(t, call, b);
      && node in t.nodes
      && (forall n :: Load(t'.inflight, n) == if n == node then Inc(Load(t.inflight, n)) else Load(t.inflight, n))
      && (forall f :: f in t'.nextNode ==> t'.nextNode[f] < |t'.nodes|)
  {
    assert PickIndex(t, call.funcId, b) < |t.nodes|;
  }

  lemma StartLoad(inflight: map<NodeId, nat>, inflight': map<NodeId, nat>, running: map<FuncCall, Record>,
                  h: History, r: Record, node: NodeId)
    requires LoadOk(inflight, running, h) && r.call !in running && RunningAdmitted(running, h)
    requires |h.admitted| < SIZE_MAX
    requires forall n :: Load(inflight', n) == if n == node then Inc(Load(inflight, n)) else Load(inflight, n)
    ensures LoadOk(inflight', running[r.call := r], Begin(h, r, node))
  {
    LoadBounded(inflight, running, h, node);
    AddPlacement(h.placed, r, node);
  }

  lemma LeaveLoad(inflight: map<NodeId, nat>, running: map<FuncCall, Record>, h: History, h': History, c: FuncCall)
    requires LoadOk(inflight, running, h) && c in running && running[c].call == c && c !in h.sending
    requires h'.placed == h.placed - {running[c]} && h'.missed == h.missed && h'.sending == h.sending && h.done <= h'.done
    ensures running[c] in h.placed
    ensures
      var node := h.placed[running[c]];
      Load(inflight, node) > 0 && LoadOk(inflight[node := Dec(Load(inflight, node))], running - {c}, h')
  {
    var r := running[c];
    assert Runs(running, r);
    RemovePlacement(h.placed, r);
    assert r in On(h.placed, h.placed[r]);
  }

  lemma MissLoad(inflight: map<NodeId, nat>, running: map<FuncCall, Record>, h: History, c: FuncCall)
    requires LoadOk(inflight, running, h) && c in running && running[c].call == c && running[c] !in h.done
    ensures running[c] in h.placed
    ensures
      var r := running[c];
      LoadOk(inflight, running - {c},
             h.(done := h.done + {r}, sending := h.sending - {c}, placed := h.placed - {r}, missed := h.missed[r := h.placed[r]]))
  {
    var r := running[c];
    assert Runs(running, r);
    RemovePlacement(h.placed, r);
    AddPlacement(h.missed, r, h.placed[r]);
    assert h.missed[r := h.placed[r]].Keys == h.missed.Keys + {r};
  }

  // ---- Admission --------------------------------------------------------------------------

  lemma QueuedAppend(q: seq<Record>, r: Record)
    ensures CallsIn(q + [r]) == CallsIn(q) + {r.call}
  {
    assert r in q + [r] && forall x :: x in q ==> x in q + [r];
  }

  lemma AdmitQueued(t: Tables, h: History, r: Record, now: int)
    requires PartitionOk(t.running, t.pending, t.lastTimestamp, h) && r.recvTimestamp == Stamp(t, now)
    requires r.call !in t.running && r.call !in CallsIn(t.pending)
    ensures PartitionOk(t.running, t.pending + [r], r.recvTimestamp, h.(admitted := h.admitted + {r}))
  {
    assert forall q :: q in t.pending ==> q.call in CallsIn(t.pending);
    assert forall i :: 0 <= i < |t.pending| ==> t.pending[i] in t.pending;
  }

  lemma AdmitRunning(t: Tables, h: History, r: Record, now: int)
    requires PartitionOk(t.running, t.pending, t.lastTimestamp, h) && r.recvTimestamp == Stamp(t, now)
    requires r.call !in t.running && r.call !in CallsIn(t.pending)
    ensures PartitionOk(t.running[r.call := r], t.pending, r.recvTimestamp, h.(admitted := h.admitted + {r}))
  {
    assert forall q :: q in t.pending ==> q.call in CallsIn(t.pending);
  }

  lemma RunningGrows(running: map<FuncCall, Record>, r: Record)
    requires r.call !in running
    ensures |running[r.call := r]| == |running| + 1
  {
    assert running[r.call := r].Keys == running.Keys + {r.call};
  }

  /** The tables after `r` started on `node`. */
  lemma StartOk(t: Tables, h: History, r: Record, b: Balance, capped: bool)
    requires PartitionOk(t.running[r.call := r], t.pending, t.lastTimestamp, h)
    requires r.call !in t.running && RunningAdmitted(t.running, h)
    requires LoadOk(t.inflight, t.running, h) && CapOk(t, capped) && t.nodes != [] && BalanceOk(t, b)
    requires |h.admitted| < SIZE_MAX && (capped ==> |t.running| < t.maxRunning)
    ensures
      var (t', node) := Start(t, r, b);
      var h' := Begin(h, r, node);
      && PartitionOk(t'.running, t'.pending, t'.lastTimestamp, h')
      && LoadOk(t'.inflight, t'.running, h')
      && CapOk(t', capped)
  {
    var t1 := t.(running := t.running[r.call := r]);
    PickNodeOk(t1, r.call, b);
    var (t2, node) := PickNode(t1, r.call, b);
    StartLoad(t.inflight, t2.inflight, t.running, h, r, node);
    RunningGrows(t.running, r);
  }

  /** The three outcomes of an admission. */
  lemma AdmitCases(s: State, call: FuncCall, connection: int, now: int, b: Balance)
    ensures
      var r := Record(call, connection, Stamp(s.t, now));
      var t1, h := s.t.(lastTimestamp := r.recvTimestamp), s.h.(admitted := s.h.admitted + {r});
      OnNewCall(s, call, connection, now, b) ==
      if s.t.nodes == [] then State(t1, s.h)
      else if AtCap(s.t) then State(t1.(pending := s.t.pending + [r]), h)
      else State(Start(t1, r, b).0, Begin(h, r, Start(t1, r, b).1))
  {
  }

  lemma LaterStamp(running: map<FuncCall, Record>, pending: seq<Record>, last: int, later: int, h: History)
    requires PartitionOk(running, pending, last, h) && last <= later
    ensures PartitionOk(running, pending, later, h)
  {
  }

  lemma AdmitStarted(s: State, r: Record, b: Balance, capped: bool)
    requires TablesOk(s, capped) && r.call !in s.t.running && |s.h.admitted| + 1 < SIZE_MAX && BalanceOk(s.t, b)
    requires s.t.nodes != [] && !AtCap(s.t)
    requires PartitionOk(s.t.running[r.call := r], s.t.pending, r.recvTimestamp, s.h.(admitted := s.h.admitted + {r}))
    ensures
      var (t, node) := Start(s.t.(lastTimestamp := r.recvTimestamp), r, b);
      TablesOk(State(t, Begin(s.h.(admitted := s.h.admitted + {r}), r, node)), capped)
  {
    var h := s.h.(admitted := s.h.admitted + {r});
    StartOk(s.t.(lastTimestamp := r.recvTimestamp), h, r, b, capped);
  }

  lemma AdmitOk(s: State, call: FuncCall, connection: int, now: int, b: Balance, capped: bool)
    requires TablesOk(s, capped) && Enabled(s, NewCall(call, connection, now, b))
    ensures TablesOk(OnNewCall(s, call, connection, now, b), capped)
  {
    var r := Record(call, connection, Stamp(s.t, now));
    AdmitCases(s, call, connection, now, b);
    LaterStamp(s.t.running, s.t.pending, s.t.lastTimestamp, r.recvTimestamp, s.h);
    AdmitQueued(s.t, s.h, r, now);
    AdmitRunning(s.t, s.h, r, now);
    if s.t.nodes != [] && !AtCap(s.t) {
      AdmitStarted(s, r, b, capped);
    }
  }

  // ---- Replies ----------------------------------------------------------------------------

  /**
   The search for a successor removes the first `k` waiting calls: all but the one it found,
   if any, were abandoned by their clients.
   */
  ghost predicate Searched(t: Tables, k: nat, t': Tables, next: Option<Record>) {
    && k <= |t.pending|
    && t' == t.(pending := t.pending[k..], discarded := t'.discarded)
    && t'.discarded <= t.discarded
    && (forall c :: c in t.discarded ==> (c !in t'.discarded <==> c in CallsIn(t.pending[..k])))
    && (next.None? ==> k == |t.pending|)
    && (next.Some? ==> k > 0 && next.value == t.pending[k - 1])
    && (next.Some? ==> next.value.connection in t.connections)
    && (next.Some? ==> next.value.call !in t.discarded || next.value.call in CallsIn(t.pending[..k - 1]))
    && (forall i :: 0 <= i < (if next.Some? then k - 1 else k) ==>
          t.pending[i].call in t.discarded || t.pending[i].connection !in t.connections)
  }

  lemma {:induction false} NextPendingSearches(t: Tables) returns (k: nat)
    ensures Searched(t, k, NextPending(t).0, NextPending(t).1)
    decreases |t.pending|
  {
    k := 0;
    if t.pending != [] {
      var r, t1 := t.pending[0], t.(pending := t.pending[1..]);
      assert t.pending[..1] == [r];
      if r.call in t.discarded {
        var t2 := t1.(discarded := t.discarded - {r.call});
        var j := NextPendingSearches(t2);
        k := j + 1;
        SearchedTail(t, t2, j, NextPending(t2).0, NextPending(t2).1);
      } else if r.connection in t.connections {
        k := 1;
      } else {
        var j := NextPendingSearches(t1);
        k := j + 1;
        SearchedTail(t, t1, j, NextPending(t1).0, NextPending(t1).1);
      }
    }
  }

  /** One abandoned call in front of a search. */
  lemma SearchedTail(t: Tables, t1: Tables, j: nat, t': Tables, next: Option<Record>)
    requires t.pending != [] && Searched(t1, j, t', next)
    requires t1 == t.(pending := t.pending[1..], discarded := t1.discarded)
    requires t1.discarded <= t.discarded && t.discarded - t1.discarded <= {t.pending[0].call}
    requires t.pending[0].call in t.discarded || t.pending[0].connection !in t.connections
    requires t.pending[0].call !in t1.discarded
    ensures Searched(t, j + 1, t', next)
  {
    assert t1.pending[j..] == t.pending[j + 1..];
    FrontCalls(t.pending, j);
    if next.Some? { FrontCalls(t.pending, j - 1); }
    forall i | 0 <= i < (if next.Some? then j else j + 1)
      ensures t.pending[i].call in t.discarded || t.pending[i].connection !in t.connections
    {
      if i > 0 { assert t.pending[i] == t1.pending[i - 1]; }
    }
    forall c | c in t.discarded && c !in t1.discarded ensures c == t.pending[0].call {
      assert c in t.discarded - t1.discarded;
    }
  }

  lemma FrontCalls(q: seq<Record>, j: nat)
    requires j < |q|
    ensures CallsIn(q[..j + 1]) == {q[0].call} + CallsIn(q[1..][..j])
  {
    assert q[..j + 1] == [q[0]] + q[1..][..j];
    CallsConcat([q[0]], q[1..][..j]);
    assert CallsIn([q[0]]) == {q[0].call} by { assert q[0] in [q[0]]; }
  }

  lemma CallsConcat(a: seq<Record>, b: seq<Record>)
    ensures CallsIn(a + b) == CallsIn(a) + CallsIn(b)
  {
    assert forall r :: r in a + b <==> r in a || r in b;
  }

  lemma TailCalls(q: seq<Record>, k: nat, j: nat)
    requires k <= j < |q|
    ensures q[j].call in CallsIn(q[k..])
  {
    assert q[j] == q[k..][j - k];
  }

  /** A queue in strict order, cut in two: the parts share neither records nor calls. */
  lemma QueueDistinct(running: map<FuncCall, Record>, pending: seq<Record>, last: int, h: History, k: nat)
    requires PartitionOk(running, pending, last, h) && k <= |pending|
    ensures Waiting(pending[..k]) !! Waiting(pending[k..]) && CallsIn(pending[..k]) !! CallsIn(pending[k..])
    ensures Waiting(pending) == Waiting(pending[..k]) + Waiting(pending[k..])
    ensures CallsIn(pending) == CallsIn(pending[..k]) + CallsIn(pending[k..])
  {
    assert pending == pending[..k] + pending[k..];
    CallsConcat(pending[..k], pending[k..]);
    forall r1, r2 | r1 in pending[..k] && r2 in pending[k..]
      ensures r1 != r2 && r1.call != r2.call
    {
      var i :| 0 <= i < k && pending[i] == r1;
      var j :| k <= j < |pending| && pending[j] == r2;
    }
  }

  lemma LeavePartition(running: map<FuncCall, Record>, pending: seq<Record>, last: int, h: History,
                       call: FuncCall, k: nat, next: Option<Record>, dropped: set<Record>)
    requires PartitionOk(running, pending, last, h) && call in running
    requires k <= |pending| && (next.Some? ==> k > 0 && next.value == pending[k - 1])
    requires dropped == Waiting(pending) - Waiting(pending[k..]) - if next.Some? then {next.value} else {}
    ensures
      var running' := if next.Some? then (running - {call})[next.value.call := next.value] else running - {call};
      PartitionOk(running', pending[k..], last,
                  h.(done := h.done + {running[call]} + dropped, dropped := h.dropped + dropped, placed := h.placed - {running[call]}))
  {
    var running' := if next.Some? then (running - {call})[next.value.call := next.value] else running - {call};
    QueueDistinct(running, pending, last, h, k);
    if next.Some? { NextIsApart(running, pending, last, h, k); }
    forall r | r in pending[k..]
      ensures r in pending && r in Waiting(pending[k..]) && r.call in CallsIn(pending[k..])
    {
    }
    forall r | r in h.admitted
      ensures Runs(running', r) || r in pending[k..] || r in h.done + {running[call]} + dropped
    {
      if r in pending { assert r in Waiting(pending); }
    }
  }

  lemma NextIsApart(running: map<FuncCall, Record>, pending: seq<Record>, last: int, h: History, k: nat)
    requires PartitionOk(running, pending, last, h) && 0 < k <= |pending|
    ensures pending[k - 1] in pending && pending[k - 1] in pending[..k] && pending[k - 1] in Waiting(pending[..k])
    ensures pending[k - 1].call in CallsIn(pending[..k]) && pending[k - 1].call !in CallsIn(pending[..k - 1])
  {
    assert pending[..k][k - 1] == pending[k - 1];
    QueueDistinct(running, pending, last, h, k - 1);
    TailCalls(pending, k - 1, k - 1);
  }

  /** The tables and the history once the answered call left, before a successor starts. */
  ghost predicate Settled(s: State, call: FuncCall, t1: Tables, h1: History, next: Option<Record>, capped: bool) {
    && PartitionOk(if next.Some? then t1.running[next.value.call := next.value] else t1.running, t1.pending, t1.lastTimestamp, h1)
    && LoadOk(t1.inflight, t1.running, h1)
    && CapOk(t1, capped) && (capped ==> |t1.running| < t1.maxRunning)
    && t1.nodes == s.t.nodes && t1.connections == s.t.connections && h1.closed == s.h.closed && h1.admitted == s.h.admitted
    && (next.Some? ==> next.value.call !in t1.running) && RunningAdmitted(t1.running, h1)
  }

  lemma SettlePartition(s: State, call: FuncCall, k: nat, t1: Tables, h1: History, next: Option<Record>)
    requires PartitionOk(s.t.running, s.t.pending, s.t.lastTimestamp, s.h) && call in s.t.running
    requires k <= |s.t.pending| && (next.Some? ==> k > 0 && next.value == s.t.pending[k - 1])
    requires t1.running == s.t.running - {call} && t1.pending == s.t.pending[k..] && t1.lastTimestamp == s.t.lastTimestamp
    requires h1 == Leave(s.h, s.t.running[call], s.t, t1, next)
    ensures PartitionOk(if next.Some? then t1.running[next.value.call := next.value] else t1.running, t1.pending, t1.lastTimestamp, h1)
    ensures (next.Some? ==> next.value.call !in t1.running) && RunningAdmitted(t1.running, h1)
  {
    var dropped := Waiting(s.t.pending) - Waiting(t1.pending) - if next.Some? then {next.value} else {};
    LeavePartition(s.t.running, s.t.pending, s.t.lastTimestamp, s.h, call, k, next, dropped);
    if next.Some? {
      assert s.t.pending[k - 1] in s.t.pending;
      assert forall c :: c in t1.running ==> t1.running[next.value.call := next.value][c] == t1.running[c];
    }
  }

  lemma SettleOk(s: State, call: FuncCall, node: NodeId, t1: Tables, h1: History, next: Option<Record>, capped: bool)
    requires TablesOk(s, capped) && call in s.t.running && call !in s.h.sending
    requires s.t.running[call] in s.h.placed ==> s.h.placed[s.t.running[call]] == node
    requires (t1, next) == Settle(s.t, call, node) && h1 == Leave(s.h, s.t.running[call], s.t, t1, next)
    ensures Settled(s, call, t1, h1, next, capped)
  {
    var k := SettleSearches(s.t, call, node, capped);
    SettlePartition(s, call, k, t1, h1, next);
    LeaveLoad(s.t.inflight, s.t.running, s.h, h1, call);
  }

  lemma SuccessorOk(s: State, call: FuncCall, t1: Tables, h1: History, r: Record, b: Balance, capped: bool)
    requires Settled(s, call, t1, h1, Some(r), capped) && BalanceOk(t1, b) && t1.nodes != [] && |h1.admitted| < SIZE_MAX
    requires s.t.connections !! s.h.closed
    ensures var (t2, n) := Start(t1, r, b); TablesOk(State(t2, Begin(h1, r, n)), capped)
  {
    StartOk(t1, h1, r, b, capped);
  }

  lemma NoSuccessorOk(s: State, call: FuncCall, t1: Tables, h1: History, capped: bool)
    requires Settled(s, call, t1, h1, None, capped) && s.t.connections !! s.h.closed
    ensures TablesOk(State(t1, h1), capped)
  {
  }

  /** The state after a reply, from its settled tables. */
  lemma ReplyShape(s: State, call: FuncCall, node: NodeId, b: Balance, t1: Tables, h1: History, next: Option<Record>)
    requires call in s.t.running && (t1, next) == Settle(s.t, call, node) && h1 == Leave(s.h, s.t.running[call], s.t, t1, next)
    ensures next.None? ==> OnReply(s, call, node, b) == State(t1, h1)
    ensures next.Some? ==> OnReply(s, call, node, b) == State(Start(t1, next.value, b).0, Begin(h1, next.value, Start(t1, next.value, b).1))
  {
  }

  /** A running call is answered: `Settle`, then `Start` of its successor if there is one. */
  lemma ReplyOk(s: State, call: FuncCall, node: NodeId, b: Balance, capped: bool)
    requires TablesOk(s, capped) && Enabled(s, EngineReplies(call, node, b)) && |s.h.admitted| < SIZE_MAX
    ensures TablesOk(OnReply(s, call, node, b), capped)
  {
    if call in s.t.running {
      var (t1, next) := Settle(s.t, call, node);
      AnsweredOk(s, call, node, b, t1, Leave(s.h, s.t.running[call], s.t, t1, next), next, capped);
    }
  }

  lemma AnsweredOk(s: State, call: FuncCall, node: NodeId, b: Balance, t1: Tables, h1: History, next: Option<Record>, capped: bool)
    requires TablesOk(s, capped) && Enabled(s, EngineReplies(call, node, b)) && |s.h.admitted| < SIZE_MAX && call in s.t.running
    requires (t1, next) == Settle(s.t, call, node) && h1 == Leave(s.h, s.t.running[call], s.t, t1, next)
    ensures TablesOk(OnReply(s, call, node, b), capped)
  {
    SettleOk(s, call, node, t1, h1, next, capped);
    ReplyShape(s, call, node, b, t1, h1, next);
    if next.Some? {
      SuccessorOk(s, call, t1, h1, next.value, b, capped);
    } else {
      NoSuccessorOk(s, call, t1, h1, capped);
    }
  }

  /** An answered call always frees a place, so the search for a successor is made. */
  lemma AnswerFreesPlace(t: Tables, call: FuncCall, capped: bool)
    requires CapOk(t, capped) && call in t.running
    ensures CapOk(t.(running := t.running - {call}), capped)
    ensures t.maxRunning == 0 || |t.running - {call}| < t.maxRunning
    ensures capped ==> |t.running - {call}| < t.maxRunning
  {
    assert (t.running - {call}).Keys == t.running.Keys - {call};
    assert |(t.running - {call}).Keys| == |t.running| - 1;
  }

  /** The cap does not depend on which calls wait, as long as none is added. */
  lemma SearchKeepsCap(t: Tables, k: nat, t': Tables, capped: bool)
    requires CapOk(t, capped) && k <= |t.pending|
    requires t' == t.(pending := t.pending[k..], discarded := t'.discarded, inflight := t'.inflight)
    ensures CapOk(t', capped)
  {
  }

  lemma SettleSearches(t: Tables, call: FuncCall, node: NodeId, capped: bool) returns (k: nat)
    requires CapOk(t, capped) && call in t.running
    ensures
      var (t1, next) := Settle(t, call, node);
      && k <= |t.pending| && (next.Some? ==> k > 0 && next.value == t.pending[k - 1])
      && (next.None? ==> k == |t.pending|)
      && t1 == t.(running := t.running - {call}, pending := t.pending[k..], discarded := t1.discarded,
                  inflight := t.inflight[node := Dec(Load(t.inflight, node))])
      && CapOk(t1, capped) && (capped ==> |t1.running| < t1.maxRunning)
  {
    AnswerFreesPlace(t, call, capped);
    var t0 := t.(discarded := t.discarded - {call}, running := t.running - {call});
    k := NextPendingSearches(t0);
    SearchKeepsCap(t.(running := t.running - {call}), k, Settle(t, call, node).0, capped);
  }

  // ---- Every step -------------------------------------------------------------------------

  lemma JoinCap(perNode: nat, n: nat)
    ensures perNode * n <= perNode * (n + 1) && (perNode > 0 <==> perNode * (n + 1) > 0)
  {
  }

  lemma NotSentOk(s: State, call: FuncCall, capped: bool)
    requires TablesOk(s, capped) && call in s.h.sending
    ensures TablesOk(OnNotSent(s, call), capped)
  {
    MissLoad(s.t.inflight, s.t.running, s.h, call);
    assert (s.t.running - {call}).Keys == s.t.running.Keys - {call};
  }

  lemma StepKeepsInv(s: State, e: Event, perNode: nat)
    requires Inv(s, perNode) && Enabled(s, e) && |s.h.admitted| < SIZE_MAX
    ensures Inv(Step(s, e, perNode), perNode)
  {
    match e
    case NodeJoins(n) => JoinCap(perNode, |s.t.nodes|);
    case NewCall(call, connection, now, b) =>
      AdmitOk(s, call, connection, now, b, perNode > 0);
      NodesKept(s, e, perNode);
    case NotSent(call) => NotSentOk(s, call, perNode > 0);
    case EngineReplies(call, node, b) =>
      ReplyOk(s, call, node, b, perNode > 0);
      NodesKept(s, e, perNode);
    case _ =>
  }

  lemma NodesKept(s: State, e: Event, perNode: nat)
    requires e.NewCall? || e.EngineReplies?
    ensures Step(s, e, perNode).t.nodes == s.t.nodes && Step(s, e, perNode).t.maxRunning == s.t.maxRunning
    ensures Step(s, e, perNode).t.connections == s.t.connections
  {
    if e.EngineReplies? && e.call in s.t.running {
      var k := NextPendingSearches(s.t.(discarded := s.t.discarded - {e.call}, running := s.t.running - {e.call}));
    }
  }

  /** Fewer than 2^64 calls were ever admitted; every feasible run keeps it so. */
  ghost predicate FewCalls(s: State) { |s.h.admitted| < SIZE_MAX }

  lemma StepFewCalls(s: State, e: Event, perNode: nat)
    requires FewCalls(s) && Enabled(s, e)
    ensures FewCalls(Step(s, e, perNode))
  {
    if e.NewCall? {
      AdmitCases(s, e.call, e.connection, e.now, e.balance);
    }
  }

  lemma {:induction false} RunKeepsInv(s: State, events: seq<Event>, perNode: nat)
    requires Inv(s, perNode) && FewCalls(s) && Feasible(s, events, perNode)
    ensures Inv(Run(s, events, perNode), perNode) && FewCalls(Run(s, events, perNode))
    decreases |events|
  {
    if events != [] {
      StepKeepsInv(s, events[0], perNode);
      StepFewCalls(s, events[0], perNode);
      RunKeepsInv(Step(s, events[0], perNode), events[1..], perNode);
    }
  }

  lemma InitInv(perNode: nat)
    ensures Inv(Init(), perNode) && FewCalls(Init())
  {
  }

  lemma AssociateRecords(a: seq<Record>, b: seq<Record>, c: seq<Record>)
    ensures a + (b + c) == a + b + c
  {
  }

  // ---- What holds after every run -----------------------------------------------------------

  /**
   Every admission is in exactly one of running, pending and done; with a positive flag the
   running calls never exceed flag times nodes; and each node's counter is exactly the running
   calls placed on it plus the dispatches to it that found no connection.
   */
  lemma GatewayIsConsistent(events: seq<Event>, perNode: nat)
    requires Feasible(Init(), events, perNode)
    ensures
      var s := Run(Init(), events, perNode);
      && (forall r :: r in s.h.admitted <==> Runs(s.t.running, r) || r in s.t.pending || r in s.h.done)
      && (forall r :: r in s.h.done ==> !Runs(s.t.running, r) && r !in s.t.pending)
      && (forall r :: r in s.t.pending ==> r.call !in s.t.running)
      && (perNode > 0 ==> |s.t.running| <= perNode * |s.t.nodes|)
      && (forall n :: Load(s.t.inflight, n) == |On(s.h.placed, n)| + |On(s.h.missed, n)|)
      && (forall r :: r in s.h.placed <==> Runs(s.t.running, r))
  {
    InitInv(perNode);
    RunKeepsInv(Init(), events, perNode);
  }

  /**
   In every reachable state a reply from the right node finds a positive counter, and placing
   a call on any node at all stays below 2^64: the counters never wrap.
   */
  lemma CounterNeverWraps(events: seq<Event>, perNode: nat, n: NodeId)
    requires Feasible(Init(), events, perNode)
    ensures
      var s := Run(Init(), events, perNode);
      && Inc(Load(s.t.inflight, n)) == Load(s.t.inflight, n) + 1
      && ((exists r :: Runs(s.t.running, r) && r in s.h.placed && s.h.placed[r] == n) ==>
            Dec(Load(s.t.inflight, n)) == Load(s.t.inflight, n) - 1)
  {
    InitInv(perNode);
    RunKeepsInv(Init(), events, perNode);
    var s := Run(Init(), events, perNode);
    LoadBounded(s.t.inflight, s.t.running, s.h, n);
    if r :| Runs(s.t.running, r) && r in s.h.placed && s.h.placed[r] == n {
      assert r in On(s.h.placed, n);
    }
  }
}
