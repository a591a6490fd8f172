/**
 Where calls are placed and who is connected, read off the list of events: the nodes in the
 order they joined, the connections that were not closed, and the node of every call started.
 */
module GatewayPlacement {
  import opened Collections
  import opened Protocol
  import opened Gateway
  import opened Circles
  import I = GatewayInvariants
  import O = GatewayOrder
  import GatewayObjects

  lemma RunSnoc(s: State, events: seq<Event>, e: Event, perNode: nat)
    ensures Run(s, events + [e], perNode) == Step(Run(s, events, perNode), e, perNode)
    ensures Feasible(s, events + [e], perNode) <==> Feasible(s, events, perNode) && Enabled(Run(s, events, perNode), e)
  {
    O.RunAppend(s, events, [e], perNode);
    var t := Run(s, events, perNode);
    assert [e][1..] == [] && Run(Step(t, e, perNode), [], perNode) == Step(t, e, perNode);
    assert Feasible(Step(t, e, perNode), [e][1..], perNode);
  }

  // ---- Connections ------------------------------------------------------------------------

  /** The connection was opened and not closed since. */
  predicate IsOpen(events: seq<Event>, c: int) {
    exists i :: 0 <= i < |events| && events[i] == Open(c) && forall j :: i < j < |events| ==> events[j] != Close(c)
  }

  lemma OpenSnoc(events: seq<Event>, e: Event, c: int)
    ensures IsOpen(events + [e], c) <==> e == Open(c) || (IsOpen(events, c) && e != Close(c))
  {
    var all, n := events + [e], |events|;
    assert all[n] == e;
    if IsOpen(all, c) && e != Open(c) {
      var i :| 0 <= i < |all| && all[i] == Open(c) && forall j :: i < j < |all| ==> all[j] != Close(c);
      assert all[n] != Close(c) && events[i] == all[i];
      assert forall j :: i < j < n ==> events[j] == all[j];
    }
    if IsOpen(events, c) && e != Close(c) {
      var i :| 0 <= i < n && events[i] == Open(c) && forall j :: i < j < n ==> events[j] != Close(c);
      assert all[i] == Open(c) && forall j :: i < j < |all| ==> all[j] != Close(c);
    }
  }

  // ---- Nodes ------------------------------------------------------------------------------

  /** The position of the first event by which the node joined; the length of the list if it never did. */
  function FirstJoin(events: seq<Event>, n: NodeId): (i: nat)
    ensures i <= |events|
  {
    if events == [] || events[0] == NodeJoins(n) then 0 else 1 + FirstJoin(events[1..], n)
  }

  lemma {:induction false} FirstJoinSnoc(events: seq<Event>, e: Event, n: NodeId)
    ensures FirstJoin(events + [e], n)
         == if FirstJoin(events, n) < |events| || e == NodeJoins(n) then FirstJoin(events, n) else |events| + 1
    decreases |events|
  {
    var all := events + [e];
    if events == [] {
      assert all[1..] == [];
    } else if events[0] != NodeJoins(n) {
      assert all[1..] == events[1..] + [e];
      FirstJoinSnoc(events[1..], e, n);
    }
  }

  lemma {:induction false} JoinedIff(events: seq<Event>, n: NodeId)
    ensures FirstJoin(events, n) < |events| <==> NodeJoins(n) in events
    decreases |events|
  {
    if events != [] && events[0] != NodeJoins(n) { JoinedIff(events[1..], n); }
  }

  /** The list holds exactly the nodes that joined, ordered by when they first did. */
  ghost predicate JoinOrder(nodes: seq<NodeId>, events: seq<Event>) {
    && (forall n :: n in nodes <==> FirstJoin(events, n) < |events|)
    && (forall a, b :: 0 <= a < b < |nodes| ==> FirstJoin(events, nodes[a]) < FirstJoin(events, nodes[b]))
  }

  /** What a step does to the node list and to the connections. */
  lemma StepMembers(s: State, e: Event, perNode: nat)
    ensures Step(s, e, perNode).t.nodes == if e.NodeJoins? && e.node !in s.t.nodes then s.t.nodes + [e.node] else s.t.nodes
    ensures forall c :: c in Step(s, e, perNode).t.connections <==> e == Open(c) || (c in s.t.connections && e != Close(c))
  {
    if e.NewCall? || e.EngineReplies? { I.NodesKept(s, e, perNode); }
  }

  lemma {:induction false} SearchMembers(t: Tables)
    ensures
      var t' := NextPending(t).0;
      && t'.nodes == t.nodes && t'.connections == t.connections && t'.nextNode == t.nextNode
      && t'.inflight == t.inflight && t'.maxRunning == t.maxRunning && t'.running == t.running
    decreases |t.pending|
  {
    if t.pending != [] {
      var r, t' := t.pending[0], t.(pending := t.pending[1..]);
      if r.call in t.discarded {
        SearchMembers(t'.(discarded := t.discarded - {r.call}));
      } else if r.connection !in t.connections {
        SearchMembers(t');
      }
    }
  }

  lemma SettleMembers(t: Tables, call: FuncCall, node: NodeId)
    ensures
      var t' := Settle(t, call, node).0;
      && t'.nodes == t.nodes && t'.connections == t.connections && t'.nextNode == t.nextNode
      && t'.inflight == t.inflight[node := Dec(Load(t.inflight, node))]
  {
    SearchMembers(t.(discarded := t.discarded - {call}, running := t.running - {call}));
  }

  lemma JoinOrderSnoc(nodes: seq<NodeId>, events: seq<Event>, e: Event)
    requires JoinOrder(nodes, events)
    ensures JoinOrder(if e.NodeJoins? && e.node !in nodes then nodes + [e.node] else nodes, events + [e])
  {
    forall n ensures FirstJoin(events + [e], n)
                  == if FirstJoin(events, n) < |events| || e == NodeJoins(n) then FirstJoin(events, n) else |events| + 1 {
      FirstJoinSnoc(events, e, n);
    }
    assert forall a :: 0 <= a < |nodes| ==> nodes[a] in nodes;
  }

  /** After every run the tables hold the nodes in join order, each once, and the connections that are open. */
  lemma {:induction false} MembersAreRecorded(events: seq<Event>, perNode: nat)
    ensures
      var t := Run(Init(), events, perNode).t;
      && JoinOrder(t.nodes, events) && NoDup(t.nodes)
      && (forall c :: c in t.connections <==> IsOpen(events, c))
    decreases |events|
  {
    if events != [] {
      var before, e := events[..|events| - 1], events[|events| - 1];
      assert events == before + [e];
      RunSnoc(Init(), before, e, perNode);
      MembersAreRecorded(before, perNode);
      StepMembers(Run(Init(), before, perNode), e, perNode);
      JoinOrderSnoc(Run(Init(), before, perNode).t.nodes, before, e);
      forall c ensures IsOpen(events, c) <==> e == Open(c) || (IsOpen(before, c) && e != Close(c)) { OpenSnoc(before, e, c); }
    }
  }

  // ---- Placement --------------------------------------------------------------------------

  /** The admission an event starts, and on which node. */
  function StartOf(s: State, e: Event): Option<(Record, NodeId)> {
    match e
    case NewCall(call, connection, now, b) =>
      var a := Admit(s.t, call, connection, now, b).1;
      if a.Started? then Some((Record(call, connection, Stamp(s.t, now)), a.node)) else None
    case EngineReplies(call, node, b) =>
      var o := Reply(s.t, call, node, b).1;
      if o.next.Some? then Some((o.next.value, o.node)) else None
    case _ => None
  }

  /** Whose turn it is for the function, as a position in the node list. */
  function Turn(t: Tables, f: nat): nat { if f in t.nextNode then t.nextNode[f] else 0 }

  predicate TurnsOk(t: Tables) { forall f :: f in t.nextNode ==> t.nextNode[f] < |t.nodes| }

  /** The policies: the next node in turn, a least loaded one (the first of them), or the drawn one. */
  ghost predicate Obeys(t: Tables, f: nat, b: Balance, node: NodeId, loads: map<NodeId, nat>) {
    match b
    case RoundRobin => Turn(t, f) < |t.nodes| && node == t.nodes[Turn(t, f)]
    case LeastLoad =>
      exists i :: 0 <= i < |t.nodes| && node == t.nodes[i]
                  && (forall j :: 0 <= j < |t.nodes| ==> Load(loads, node) <= Load(loads, t.nodes[j]))
                  && (forall j :: 0 <= j < i ==> Load(loads, node) < Load(loads, t.nodes[j]))
    case Random(i) => i < |t.nodes| && node == t.nodes[i]
  }

  /** Only a round-robin pick of `f` moves the turn of `f`, to the next node in the circle. */
  ghost predicate TurnsAfter(t: Tables, t': Tables, f: nat, b: Balance)
    requires t.nodes != []
  {
    forall g :: Turn(t', g) == if g == f && b.RoundRobin? then Slot(Turn(t, g) + 1, |t.nodes|) else Turn(t, g)
  }

  lemma PickObeys(t: Tables, call: FuncCall, b: Balance)
    requires t.nodes != [] && BalanceOk(t, b) && TurnsOk(t)
    ensures
      var (t', node) := PickNode(t, call, b);
      && Obeys(t, call.funcId, b, node, t.inflight) && TurnsAfter(t, t', call.funcId, b) && TurnsOk(t')
      && t'.nodes == t.nodes
  {
    assert PickIndex(t, call.funcId, b) < |t.nodes|;
    if b.LeastLoad? {
      var n := |t.nodes|;
      var least := LeastIndex(t.inflight, t.nodes, n);
      forall j | 0 <= j < n
        ensures Load(t.inflight, t.nodes[least]) <= Load(t.inflight, t.nodes[j])
        ensures j < least ==> Load(t.inflight, t.nodes[least]) < Load(t.inflight, t.nodes[j])
      {
        GatewayObjects.LeastIsMinimum(t.inflight, t.nodes, n, j);
      }
      assert PickNode(t, call, b).1 == t.nodes[least];
    }
  }

  /** The counters a pick sees: at a reply the answered call is no longer counted. */
  function LoadsSeen(t: Tables, e: Event): map<NodeId, nat> {
    if e.EngineReplies? then t.inflight[e.node := Dec(Load(t.inflight, e.node))] else t.inflight
  }

  /** What a step does to the turns: a start obeys the policy and moves one turn; nothing else moves any. */
  ghost predicate StepPlaces(s: State, e: Event, perNode: nat) {
    var t, t', start := s.t, Step(s, e, perNode).t, StartOf(s, e);
    if start.Some? then
      && t.nodes != []
      && Obeys(t, start.value.0.call.funcId, e.balance, start.value.1, LoadsSeen(t, e))
      && TurnsAfter(t, t', start.value.0.call.funcId, e.balance)
    else
      forall g :: Turn(t', g) == Turn(t, g)
  }

  lemma AdmitPlaces(s: State, e: Event, perNode: nat)
    requires e.NewCall? && TurnsOk(s.t) && BalanceOk(s.t, e.balance)
    ensures StepPlaces(s, e, perNode)
  {
    if StartOf(s, e).Some? {
      var r := Record(e.call, e.connection, Stamp(s.t, e.now));
      var t1 := s.t.(lastTimestamp := Stamp(s.t, e.now), running := s.t.running[r.call := r]);
      PickObeys(t1, e.call, e.balance);
      assert Step(s, e, perNode).t == PickNode(t1, e.call, e.balance).0;
    }
  }

  lemma ReplyPlaces(s: State, e: Event, perNode: nat)
    requires e.EngineReplies? && TurnsOk(s.t) && BalanceOk(s.t, e.balance) && (s.t.nodes == [] ==> s.t.running == map[])
    ensures StepPlaces(s, e, perNode)
  {
    if e.call in s.t.running {
      var (t1, next) := Settle(s.t, e.call, e.node);
      SettleMembers(s.t, e.call, e.node);
      ReplyShape(s, e, perNode, t1, next);
      if next.Some? {
        var t2 := t1.(running := t1.running[next.value.call := next.value]);
        assert TurnsOk(t2) && t2.nodes == s.t.nodes && t2.nextNode == s.t.nextNode && t2.inflight == LoadsSeen(s.t, e);
        PickObeys(t2, next.value.call, e.balance);
        SameRules(s.t, t2, PickNode(t2, next.value.call, e.balance).0, next.value.call.funcId, e.balance, PickNode(t2, next.value.call, e.balance).1, LoadsSeen(s.t, e));
      }
    }
  }

  /** The rules read only the node list and the turns. */
  lemma SameRules(t: Tables, t2: Tables, t3: Tables, f: nat, b: Balance, node: NodeId, loads: map<NodeId, nat>)
    requires t2.nodes == t.nodes != [] && t2.nextNode == t.nextNode && Obeys(t2, f, b, node, loads) && TurnsAfter(t2, t3, f, b)
    ensures Obeys(t, f, b, node, loads) && TurnsAfter(t, t3, f, b)
  {
  }

  lemma ReplyShape(s: State, e: Event, perNode: nat, t1: Tables, next: Option<Record>)
    requires e.EngineReplies? && e.call in s.t.running && (t1, next) == Settle(s.t, e.call, e.node)
    ensures next.None? ==> StartOf(s, e) == None && Step(s, e, perNode).t == t1
    ensures next.Some? ==>
      var (t2, node) := PickNode(t1.(running := t1.running[next.value.call := next.value]), next.value.call, e.balance);
      StartOf(s, e) == Some((next.value, node)) && Step(s, e, perNode).t == t2
  {
  }

  lemma StepObeys(s: State, e: Event, perNode: nat)
    requires I.Inv(s, perNode) && Enabled(s, e)
    ensures StepPlaces(s, e, perNode)
  {
    if e.NewCall? { AdmitPlaces(s, e, perNode); }
    if e.EngineReplies? { ReplyPlaces(s, e, perNode); }
  }

  /** The nodes on which a run places the calls of `f` by round robin, in order. */
  function RoundRobinNodes(s: State, events: seq<Event>, perNode: nat, f: nat): seq<NodeId>
    decreases |events|
  {
    if events == [] then []
    else
      var e, rest := events[0], RoundRobinNodes(Step(s, events[0], perNode), events[1..], perNode, f);
      var start := StartOf(s, e);
      if start.Some? && start.value.0.call.funcId == f && e.balance.RoundRobin? then [start.value.1] + rest else rest
  }

  /** `k` places on the circle of nodes from a position: entry `i` is the node at `(start + i) % |nodes|`. */
  function Circle(nodes: seq<NodeId>, start: nat, k: nat): seq<NodeId>
    requires nodes != []
  {
    seq(k, i requires 0 <= i < k => nodes[Slot(start + i, |nodes|)])
  }

  lemma CircleStep(nodes: seq<NodeId>, start: nat, k: nat)
    requires nodes != [] && start < |nodes|
    ensures Circle(nodes, start, k + 1) == [nodes[start]] + Circle(nodes, Slot(start + 1, |nodes|), k)
  {
    var n := |nodes|;
    var whole, rest := Circle(nodes, start, k + 1), Circle(nodes, Slot(start + 1, n), k);
    forall i | 0 <= i < k ensures whole[i + 1] == rest[i] { Shift(start, i, n); }
    assert whole[0] == nodes[start] by { Small(start, n); }
    assert whole == [whole[0]] + whole[1..] && whole[1..] == rest;
  }

  lemma Shift(start: nat, i: nat, n: nat)
    requires start < n
    ensures Slot(Slot(start + 1, n) + i, n) == Slot(start + (i + 1), n)
  {
    if start + 1 == n {
      FullCircle(0, n);
      FullCircle(i, n);
      Small(0, n);
    } else {
      Small(start + 1, n);
    }
  }

  lemma Small(i: nat, n: nat)
    requires i < n
    ensures Slot(i, n) == i
  {
  }

  /** No node joins for the first time. */
  predicate SameNodes(nodes: seq<NodeId>, events: seq<Event>) { forall e :: e in events && e.NodeJoins? ==> e.node in nodes }

  /**
   Over any stretch of a run in which no new node joins, the round-robin calls of a function go
   round the circle of nodes from its turn, whatever other calls and policies come between.
   */
  lemma {:induction false} RoundRobinGoesRound(s: State, events: seq<Event>, perNode: nat, f: nat)
    requires I.Inv(s, perNode) && I.FewCalls(s) && Feasible(s, events, perNode) && s.t.nodes != [] && SameNodes(s.t.nodes, events)
    ensures
      var picked := RoundRobinNodes(s, events, perNode, f);
      picked == Circle(s.t.nodes, Turn(s.t, f), |picked|)
    decreases |events|
  {
    if events != [] {
      var e, s' := events[0], Step(s, events[0], perNode);
      StepObeys(s, e, perNode);
      StepMembers(s, e, perNode);
      I.StepKeepsInv(s, e, perNode);
      I.StepFewCalls(s, e, perNode);
      assert e in events && s'.t.nodes == s.t.nodes;
      RoundRobinGoesRound(s', events[1..], perNode, f);
      TurnInRange(s, perNode, f);
      OneMorePick(s, e, perNode, f, RoundRobinNodes(s', events[1..], perNode, f));
    }
  }

  /** The pick of one event in front of the picks of the rest. */
  lemma OneMorePick(s: State, e: Event, perNode: nat, f: nat, rest: seq<NodeId>)
    requires s.t.nodes != [] && Turn(s.t, f) < |s.t.nodes| && StepPlaces(s, e, perNode)
    requires rest == Circle(s.t.nodes, Turn(Step(s, e, perNode).t, f), |rest|)
    ensures
      var start := StartOf(s, e);
      var picked := if start.Some? && start.value.0.call.funcId == f && e.balance.RoundRobin? then [start.value.1] + rest else rest;
      picked == Circle(s.t.nodes, Turn(s.t, f), |picked|)
  {
    CircleStep(s.t.nodes, Turn(s.t, f), |rest|);
  }

  lemma TurnInRange(s: State, perNode: nat, f: nat)
    requires I.Inv(s, perNode) && s.t.nodes != []
    ensures Turn(s.t, f) < |s.t.nodes|
  {
  }

  /** One round returns every node exactly once. */
  lemma EveryNodeOnce(nodes: seq<NodeId>, start: nat)
    requires nodes != [] && NoDup(nodes)
    ensures NoDup(Circle(nodes, start, |nodes|))
    ensures forall n :: n in nodes <==> n in Circle(nodes, start, |nodes|)
  {
    var n, picked := |nodes|, Circle(nodes, start, |nodes|);
    forall i, j | 0 <= i < j < n ensures picked[i] != picked[j] { CloseNumbersDiffer(start + i, start + j, n); }
    forall i | 0 <= i < n ensures picked[i] in nodes { assert picked[i] == nodes[Slot(start + i, n)]; }
    DistinctFills(picked, nodes);
  }

  /** The same over the events of a whole run: as many round-robin starts as nodes use each node once. */
  lemma OneRoundUsesEveryNode(before: seq<Event>, events: seq<Event>, perNode: nat, f: nat)
    requires Feasible(Init(), before + events, perNode)
    requires var s := Run(Init(), before, perNode); s.t.nodes != [] && SameNodes(s.t.nodes, events)
    requires var s := Run(Init(), before, perNode); |RoundRobinNodes(s, events, perNode, f)| == |s.t.nodes|
    ensures
      var s := Run(Init(), before, perNode);
      var picked := RoundRobinNodes(s, events, perNode, f);
      NoDup(picked) && forall n :: n in picked <==> NodeJoins(n) in before
  {
    var s := Run(Init(), before, perNode);
    O.RunAppend(Init(), before, events, perNode);
    I.InitInv(perNode);
    I.RunKeepsInv(Init(), before, perNode);
    RoundRobinGoesRound(s, events, perNode, f);
    MembersAreRecorded(before, perNode);
    EveryNodeOnce(s.t.nodes, Turn(s.t, f));
    forall n ensures n in s.t.nodes <==> NodeJoins(n) in before { JoinedIff(before, n); }
  }

  // ---- Receive stamps -----------------------------------------------------------------------

  /** The receive stamp of a call is the least time after every earlier stamp and not before the clock. */
  lemma StampIsLeast(s: State, e: Event, perNode: nat, x: int)
    requires e.NewCall?
    ensures
      var last := Step(s, e, perNode).t.lastTimestamp;
      last > s.t.lastTimestamp && last >= e.now && (x > s.t.lastTimestamp && x >= e.now ==> x >= last)
  {
  }
}
