/** The gateway server as an object; every method computes the function of the same name over its tables. */
module GatewayObjects {
  import opened Collections
  import opened Protocol
  import G = Gateway

  /** The least-load choice is a true minimum, and the first one. */
  lemma {:induction false} LeastIsMinimum(inflight: map<G.NodeId, nat>, nodes: seq<G.NodeId>, n: nat, i: nat)
    requires 0 < n <= |nodes| && i < n
    ensures
      var least := G.LeastIndex(inflight, nodes, n);
      && G.Load(inflight, nodes[least]) <= G.Load(inflight, nodes[i])
      && (i < least ==> G.Load(inflight, nodes[least]) < G.Load(inflight, nodes[i]))
  {
    if n > 1 {
      var before := G.LeastIndex(inflight, nodes, n - 1);
      LeastIsMinimum(inflight, nodes, n - 1, before);
      if i < n - 1 { LeastIsMinimum(inflight, nodes, n - 1, i); }
    }
  }

  class Server {
    var connections: set<int>
    var connectedNodes: seq<G.NodeId>
    var maxRunningRequests: nat
    var runningFuncCalls: map<FuncCall, G.Record>
    var pendingFuncCalls: seq<G.Record>
    var discardedFuncCalls: set<FuncCall>
    var inflightRequestsPerNode: map<G.NodeId, nat>
    var nextDispatchNodeIdx: map<nat, nat>
    var lastRequestTimestamp: int

    ghost function View(): G.Tables
      reads this
    {
      G.Tables(connections, connectedNodes, maxRunningRequests, runningFuncCalls, pendingFuncCalls, discardedFuncCalls,
               inflightRequestsPerNode, nextDispatchNodeIdx, lastRequestTimestamp)
    }

    constructor ()
      ensures View() == G.Init().t
    {
      connections, connectedNodes, maxRunningRequests := {}, [], 0;
      runningFuncCalls, pendingFuncCalls, discardedFuncCalls := map[], [], {};
      inflightRequestsPerNode, nextDispatchNodeIdx, lastRequestTimestamp := map[], map[], -1;
    }

    method LeastLoadedIndex() returns (idx: nat)
      requires connectedNodes != []
      ensures idx == G.LeastIndex(inflightRequestsPerNode, connectedNodes, |connectedNodes|)
      ensures forall i :: 0 <= i < |connectedNodes| ==>
                G.Load(inflightRequestsPerNode, connectedNodes[idx]) <= G.Load(inflightRequestsPerNode, connectedNodes[i])
    {
      idx := 0;
      var i := 1;
      while i < |connectedNodes|
        invariant 1 <= i <= |connectedNodes|
        invariant idx == G.LeastIndex(inflightRequestsPerNode, connectedNodes, i)
      {
        if G.Load(inflightRequestsPerNode, connectedNodes[i]) < G.Load(inflightRequestsPerNode, connectedNodes[idx]) {
          idx := i;
        }
        i := i + 1;
      }
      forall j | 0 <= j < |connectedNodes|
        ensures G.Load(inflightRequestsPerNode, connectedNodes[idx]) <= G.Load(inflightRequestsPerNode, connectedNodes[j])
      {
        LeastIsMinimum(inflightRequestsPerNode, connectedNodes, |connectedNodes|, j);
      }
    }

    /** Whose turn it is for the function. */
    ghost function Turn(f: nat): nat
      reads this
    {
      if f in nextDispatchNodeIdx then nextDispatchNodeIdx[f] else 0
    }

    method PickNextNode(call: FuncCall, b: G.Balance) returns (node: G.NodeId)
      requires connectedNodes != [] && G.BalanceOk(View(), b)
      requires forall f :: f in nextDispatchNodeIdx ==> nextDispatchNodeIdx[f] < |connectedNodes|
      modifies this`inflightRequestsPerNode, this`nextDispatchNodeIdx
      ensures (View(), node) == G.PickNode(old(View()), call, b)
      ensures node in connectedNodes
      ensures b.RoundRobin? ==> old(Turn(call.funcId)) < |connectedNodes| && node == connectedNodes[old(Turn(call.funcId))]
      ensures b.RoundRobin? ==> Turn(call.funcId) == (old(Turn(call.funcId)) + 1) % |connectedNodes|
      ensures forall f :: f != call.funcId || !b.RoundRobin? ==> Turn(f) == old(Turn(f))
      ensures b.Random? ==> node == connectedNodes[b.index]
      ensures b.LeastLoad? ==> forall n :: n in connectedNodes ==>
                old(G.Load(inflightRequestsPerNode, node)) <= old(G.Load(inflightRequestsPerNode, n))
    {
      var idx;
      match b {
        case RoundRobin =>
          idx := if call.funcId in nextDispatchNodeIdx then nextDispatchNodeIdx[call.funcId] else 0;
          nextDispatchNodeIdx := nextDispatchNodeIdx[call.funcId := (idx + 1) % |connectedNodes|];
        case LeastLoad =>
          idx := LeastLoadedIndex();
        case Random(r) =>
          idx := r;
      }
      node := connectedNodes[idx];
      inflightRequestsPerNode := inflightRequestsPerNode[node := G.Inc(G.Load(inflightRequestsPerNode, node))];
    }

    ghost predicate Ready(b: G.Balance)
      reads this
    {
      && G.BalanceOk(View(), b)
      && (forall f :: f in nextDispatchNodeIdx ==> nextDispatchNodeIdx[f] < |connectedNodes|)
      && (connectedNodes == [] ==> pendingFuncCalls == [])
    }

    method OnNewFuncCall(call: FuncCall, connection: int, now: int, b: G.Balance) returns (a: G.Admission)
      requires Ready(b)
      modifies this
      ensures (View(), a) == G.Admit(old(View()), call, connection, now, b)
    {
      var stamp := if now <= lastRequestTimestamp then lastRequestTimestamp + 1 else now;
      lastRequestTimestamp := stamp;
      if |connectedNodes| == 0 {
        return G.NoNode;
      }
      var r := G.Record(call, connection, stamp);
      if maxRunningRequests > 0 && |runningFuncCalls| >= maxRunningRequests {
        pendingFuncCalls := pendingFuncCalls + [r];
        return G.Queued;
      }
      runningFuncCalls := runningFuncCalls[call := r];
      var node := PickNextNode(call, b);
      a := G.Started(node);
    }

    /** The loop of `OnRecvEngineMessage`. */
    method PopPending() returns (next: Option<G.Record>)
      modifies this`pendingFuncCalls, this`discardedFuncCalls
      ensures (View(), next) == G.NextPending(old(View()))
      ensures next.Some? ==> old(pendingFuncCalls) != []
    {
      ghost var goal := G.NextPending(View());
      next := None;
      while pendingFuncCalls != []
        invariant goal == G.NextPending(View())
        invariant pendingFuncCalls != [] ==> old(pendingFuncCalls) != []
        decreases |pendingFuncCalls|
      {
        var r := pendingFuncCalls[0];
        pendingFuncCalls := pendingFuncCalls[1..];
        if r.call in discardedFuncCalls {
          discardedFuncCalls := discardedFuncCalls - {r.call};
        } else if r.connection in connections {
          return Some(r);
        }
      }
    }

    /** The answered call leaves, its node's counter goes down, and a successor is looked for. */
    method Settle(call: FuncCall, node: G.NodeId) returns (next: Option<G.Record>)
      requires call in runningFuncCalls
      modifies this
      ensures (View(), next) == G.Settle(old(View()), call, node)
      ensures connectedNodes == old(connectedNodes) && nextDispatchNodeIdx == old(nextDispatchNodeIdx)
      ensures next.Some? ==> old(pendingFuncCalls) != []
    {
      discardedFuncCalls := discardedFuncCalls - {call};
      runningFuncCalls := runningFuncCalls - {call};
      next := None;
      if maxRunningRequests == 0 || |runningFuncCalls| < maxRunningRequests {
        next := PopPending();
      }
      inflightRequestsPerNode := inflightRequestsPerNode[node := G.Dec(G.Load(inflightRequestsPerNode, node))];
    }

    method OnRecvEngineMessage(call: FuncCall, node: G.NodeId, b: G.Balance) returns (o: G.Outcome)
      requires Ready(b)
      modifies this
      ensures (View(), o) == G.Reply(old(View()), call, node, b)
    {
      if call !in runningFuncCalls {
        return G.Outcome(false, None, 0);
      }
      var finishes := runningFuncCalls[call].connection in connections && call !in discardedFuncCalls;
      var next := Settle(call, node);
      if next.Some? {
        runningFuncCalls := runningFuncCalls[next.value.call := next.value];
        var n := PickNextNode(next.value.call, b);
        o := G.Outcome(finishes, next, n);
      } else {
        o := G.Outcome(finishes, None, 0);
      }
    }

    /** Until the call leaves the tables, no reply to it finishes its context. */
    method DiscardFuncCall(call: FuncCall)
      modifies this`discardedFuncCalls
      ensures View() == G.Discard(old(View()), call)
      ensures forall node, b :: !G.Reply(View(), call, node, b).1.finishes
    {
      discardedFuncCalls := discardedFuncCalls + {call};
    }

    /** A call that missed its node is forgotten: replies to it change nothing, but its node's counter keeps it. */
    method DispatchFailed(call: FuncCall)
      modifies this`runningFuncCalls
      ensures View() == G.DispatchFail(old(View()), call)
      ensures forall node, b :: G.Reply(View(), call, node, b) == (View(), G.Outcome(false, None, 0))
      ensures forall n :: G.Load(inflightRequestsPerNode, n) == old(G.Load(inflightRequestsPerNode, n))
    {
      runningFuncCalls := runningFuncCalls - {call};
    }

    /** The node can be picked, the cap stays the product of flag and nodes, and it never shrinks under running calls. */
    method OnEngineHandshake(node: G.NodeId, maxRunningRequestsFlag: nat)
      modifies this`connectedNodes, this`maxRunningRequests
      ensures View() == G.Join(old(View()), node, maxRunningRequestsFlag)
      ensures node in connectedNodes && old(connectedNodes) <= connectedNodes
      ensures old(maxRunningRequests == maxRunningRequestsFlag * |connectedNodes|) ==>
                maxRunningRequests == maxRunningRequestsFlag * |connectedNodes| && old(maxRunningRequests) <= maxRunningRequests
    {
      if node !in connectedNodes {
        connectedNodes := connectedNodes + [node];
        maxRunningRequests := maxRunningRequestsFlag * |connectedNodes|;
      }
    }

    method RegisterConnection(connection: int)
      modifies this`connections
      ensures View() == old(View()).(connections := old(connections) + {connection})
    {
      connections := connections + {connection};
    }

    /** Replies to calls of a closed connection finish nothing. */
    method OnConnectionClose(connection: int)
      modifies this`connections
      ensures View() == old(View()).(connections := old(connections) - {connection})
      ensures forall call, node, b :: call in runningFuncCalls && runningFuncCalls[call].connection == connection ==>
                !G.Reply(View(), call, node, b).1.finishes
    {
      connections := connections - {connection};
    }
  }
}

/** The server object driven through whole runs. */
module GatewayReplay {
  import opened Collections
  import opened Protocol
  import opened Gateway
  import opened GatewayInvariants
  import opened GatewayObjects

  /** One event on the object: its tables become those of the step, and it finishes what the step finishes. */
  method Apply(server: Server, e: Event, perNode: nat, ghost s: State) returns (finished: seq<Record>)
    requires Inv(s, perNode) && Enabled(s, e) && server.View() == s.t
    modifies server
    ensures server.View() == Step(s, e, perNode).t
    ensures finished == FinishedNow(s, e)
  {
    finished := [];
    match e {
      case Open(c) => server.RegisterConnection(c);
      case Close(c) => server.OnConnectionClose(c);
      case NodeJoins(n) => server.OnEngineHandshake(n, perNode);
      case NewCall(call, connection, now, b) => var a := server.OnNewFuncCall(call, connection, now, b);
      case Sent(_) =>
      case NotSent(call) => server.DispatchFailed(call);
      case ClientDiscards(call) => server.DiscardFuncCall(call);
      case EngineReplies(call, node, b) =>
        if call in server.runningFuncCalls {
          var r := server.runningFuncCalls[call];
          var o := server.OnRecvEngineMessage(call, node, b);
          finished := if o.finishes then [r] else [];
        }
    }
  }

  /** The object driven through any feasible run from any reachable state. */
  method Drive(server: Server, events: seq<Event>, perNode: nat, ghost s: State) returns (finished: seq<Record>)
    requires Inv(s, perNode) && FewCalls(s) && Feasible(s, events, perNode) && server.View() == s.t
    modifies server
    ensures server.View() == Run(s, events, perNode).t
    ensures finished == FinishedBy(s, events, perNode)
    decreases |events|
  {
    if events == [] { return []; }
    StepKeepsInv(s, events[0], perNode);
    StepFewCalls(s, events[0], perNode);
    var now := Apply(server, events[0], perNode, s);
    var later := Drive(server, events[1..], perNode, Step(s, events[0], perNode));
    finished := now + later;
  }

  /** A new server driven through any feasible run ends with the tables of that run, and finishes what it finishes. */
  method Replay(events: seq<Event>, perNode: nat) returns (server: Server, finished: seq<Record>)
    requires Feasible(Init(), events, perNode)
    ensures server.View() == Run(Init(), events, perNode).t
    ensures finished == FinishedBy(Init(), events, perNode)
  {
    InitInv(perNode);
    server := new Server();
    finished := Drive(server, events, perNode, Init());
  }
}
