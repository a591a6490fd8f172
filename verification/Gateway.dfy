/**
 The gateway server: admission of calls, the concurrency cap, placement on nodes, replies of
 the engines, and calls whose client went away.
 */
module Gateway {
  import opened Collections
  import opened Protocol

  type NodeId = nat

  /** `FuncCallState`; receive timestamps are forced to be strictly increasing. */
  datatype Record = Record(call: FuncCall, connection: int, recvTimestamp: int)

  const SIZE_MAX: nat := 0xFFFF_FFFF_FFFF_FFFF

  /** The tables behind the server's lock. */
  datatype Tables = Tables(
    connections: set<int>, nodes: seq<NodeId>, maxRunning: nat,
    running: map<FuncCall, Record>, pending: seq<Record>, discarded: set<FuncCall>,
    inflight: map<NodeId, nat>, nextNode: map<nat, nat>, lastTimestamp: int)

  /** The load-balancing flags, with the random choice where it is used. */
  datatype Balance = RoundRobin | LeastLoad | Random(index: nat)

  function Load(inflight: map<NodeId, nat>, n: NodeId): nat { if n in inflight then inflight[n] else 0 }

  /** Increment and decrement of a `size_t`. */
  function Inc(x: nat): nat { if x >= SIZE_MAX then 0 else x + 1 }

  function Dec(x: nat): nat { if x == 0 then SIZE_MAX else x - 1 }

  /** The index the least-load loop of `PickNextNode` ends with after looking at the first `n` nodes. */
  function LeastIndex(inflight: map<NodeId, nat>, nodes: seq<NodeId>, n: nat): (i: nat)
    requires 0 < n <= |nodes|
    ensures i < n
  {
    if n == 1 then 0
    else
      var i := LeastIndex(inflight, nodes, n - 1);
      if Load(inflight, nodes[n - 1]) < Load(inflight, nodes[i]) then n - 1 else i
  }

  function PickIndex(t: Tables, func: nat, b: Balance): nat
    requires t.nodes != []
  {
    match b
    case RoundRobin => if func in t.nextNode then t.nextNode[func] else 0
    case LeastLoad => LeastIndex(t.inflight, t.nodes, |t.nodes|)
    case Random(i) => i
  }

  /** `PickNextNode`. */
  function PickNode(t: Tables, call: FuncCall, b: Balance): (Tables, NodeId) {
    if t.nodes == [] then (t, 0)
    else
      var i := PickIndex(t, call.funcId, b);
      var node := if i < |t.nodes| then t.nodes[i] else 0;
      (t.(inflight := t.inflight[node := Inc(Load(t.inflight, node))],
          nextNode := if b.RoundRobin? then t.nextNode[call.funcId := (i + 1) % |t.nodes|] else t.nextNode),
       node)
  }

  function Start(t: Tables, r: Record, b: Balance): (Tables, NodeId) {
    PickNode(t.(running := t.running[r.call := r]), r.call, b)
  }

  datatype Admission = NoNode | Queued | Started(node: NodeId)

  function Stamp(t: Tables, now: int): int { if now <= t.lastTimestamp then t.lastTimestamp + 1 else now }

  predicate AtCap(t: Tables) { t.maxRunning > 0 && |t.running| >= t.maxRunning }

  /** The locked part of `OnNewFuncCallCommon`. */
  function Admit(t: Tables, call: FuncCall, connection: int, now: int, b: Balance): (Tables, Admission) {
    var stamp := Stamp(t, now);
    var t1 := t.(lastTimestamp := stamp);
    var r := Record(call, connection, stamp);
    if t.nodes == [] then (t1, NoNode)
    else if AtCap(t) then (t1.(pending := t1.pending + [r]), Queued)
    else
      var (t2, node) := Start(t1, r, b);
      (t2, Started(node))
  }

  /** The loop of `OnRecvEngineMessage`: the first pending call whose client is still there. */
  function NextPending(t: Tables): (Tables, Option<Record>)
    decreases |t.pending|
  {
    if t.pending == [] then (t, None)
    else
      var r, t' := t.pending[0], t.(pending := t.pending[1..]);
      if r.call in t.discarded then NextPending(t'.(discarded := t.discarded - {r.call}))
      else if r.connection in t.connections then (t', Some(r))
      else NextPending(t')
  }

  /** What a reply does: whether it finishes the call's context, and which call it starts where. */
  datatype Outcome = Outcome(finishes: bool, next: Option<Record>, node: NodeId)

  /** The tables after a running call is answered, before a successor starts. */
  function Settle(t: Tables, call: FuncCall, node: NodeId): (Tables, Option<Record>) {
    var t1 := t.(discarded := t.discarded - {call}, running := t.running - {call});
    var (t2, next) := if t1.maxRunning == 0 || |t1.running| < t1.maxRunning then NextPending(t1) else (t1, None);
    (t2.(inflight := t2.inflight[node := Dec(Load(t2.inflight, node))]), next)
  }

  /** The locked part of `OnRecvEngineMessage`. */
  function Reply(t: Tables, call: FuncCall, node: NodeId, b: Balance): (Tables, Outcome) {
    if call !in t.running then (t, Outcome(false, None, 0))
    else
      var finishes := t.running[call].connection in t.connections && call !in t.discarded;
      var (t1, next) := Settle(t, call, node);
      if next.None? then (t1, Outcome(finishes, None, 0))
      else
        var (t2, n) := Start(t1, next.value, b);
        (t2, Outcome(finishes, next, n))
  }

  /** `DispatchFuncCall` when the node has no connection on this IO worker. */
  function DispatchFail(t: Tables, call: FuncCall): Tables { t.(running := t.running - {call}) }

  function Discard(t: Tables, call: FuncCall): Tables { t.(discarded := t.discarded + {call}) }

  /** The node bookkeeping of `OnEngineHandshake`. */
  function Join(t: Tables, node: NodeId, perNode: nat): Tables {
    if node in t.nodes then t
    else t.(nodes := t.nodes + [node], maxRunning := perNode * (|t.nodes| + 1))
  }

  // ---- Runs -----------------------------------------------------------------------------

  /**
   An admission is a record: its receive stamp is its own even when its call id was used
   before. `admitted`, `done`: admissions that entered and left the tables; `dropped`: those
   removed from the queue unstarted. `placed`: the node of every running one. `sending`: calls
   between the locked region that started them and `DispatchFuncCall`. `missed`: admissions
   whose node had no connection. `started`: receive stamps in start order. `closed`: used-up
   connection ids.
   */
  datatype History = History(
    admitted: set<Record>, done: set<Record>, dropped: set<Record>,
    placed: map<Record, NodeId>, sending: set<FuncCall>, missed: map<Record, NodeId>,
    started: seq<int>, closed: set<int>)

  datatype State = State(t: Tables, h: History)

  function Init(): State {
    State(Tables({}, [], 0, map[], [], {}, map[], map[], -1), History({}, {}, {}, map[], {}, map[], [], {}))
  }

  datatype Event =
    | Open(connection: int)
    | Close(connection: int)
    | NodeJoins(node: NodeId)
    | NewCall(call: FuncCall, connection: int, now: int, balance: Balance)
    | Sent(call: FuncCall)
    | NotSent(call: FuncCall)
    | ClientDiscards(call: FuncCall)
    | EngineReplies(call: FuncCall, node: NodeId, balance: Balance)

  function CallsIn(q: seq<Record>): set<FuncCall> { set r | r in q :: r.call }

  function Waiting(q: seq<Record>): set<Record> { set r | r in q }

  predicate Runs(running: map<FuncCall, Record>, r: Record) { r.call in running && running[r.call] == r }

  function Begin(h: History, r: Record, node: NodeId): History {
    h.(placed := h.placed[r := node], sending := h.sending + {r.call}, started := h.started + [r.recvTimestamp])
  }

  function OnNewCall(s: State, call: FuncCall, connection: int, now: int, b: Balance): State {
    var (t, a) := Admit(s.t, call, connection, now, b);
    var r := Record(call, connection, Stamp(s.t, now));
    var h := s.h.(admitted := s.h.admitted + {r});
    match a
    case NoNode => State(t, s.h)
    case Queued => State(t, h)
    case Started(node) => State(t, Begin(h, r, node))
  }

  /** The history when the admission `r` left and the queue was searched for a successor. */
  function Leave(h: History, r: Record, before: Tables, after: Tables, next: Option<Record>): History {
    var dropped := Waiting(before.pending) - Waiting(after.pending) - if next.Some? then {next.value} else {};
    h.(done := h.done + {r} + dropped, dropped := h.dropped + dropped, placed := h.placed - {r})
  }

  function OnReply(s: State, call: FuncCall, node: NodeId, b: Balance): State {
    if call !in s.t.running then s
    else
      var (t, o) := Reply(s.t, call, node, b);
      var h := Leave(s.h, s.t.running[call], s.t, t, o.next);
      State(t, if o.next.Some? then Begin(h, o.next.value, o.node) else h)
  }

  function OnNotSent(s: State, call: FuncCall): State {
    if call !in s.t.running then s
    else
      var r := s.t.running[call];
      State(DispatchFail(s.t, call),
            s.h.(done := s.h.done + {r}, sending := s.h.sending - {call}, placed := s.h.placed - {r},
                 missed := if r in s.h.placed then s.h.missed[r := s.h.placed[r]] else s.h.missed))
  }

  /** One critical section; `perNode` is the flag `max_running_requests`. */
  function Step(s: State, e: Event, perNode: nat): State {
    match e
    case Open(c) => s.(t := s.t.(connections := s.t.connections + {c}))
    case Close(c) => State(s.t.(connections := s.t.connections - {c}), s.h.(closed := s.h.closed + {c}))
    case NodeJoins(n) => s.(t := Join(s.t, n, perNode))
    case NewCall(call, connection, now, b) => OnNewCall(s, call, connection, now, b)
    case Sent(call) => s.(h := s.h.(sending := s.h.sending - {call}))
    case NotSent(call) => OnNotSent(s, call)
    case ClientDiscards(call) => s.(t := Discard(s.t, call))
    case EngineReplies(call, node, b) => OnReply(s, call, node, b)
  }

  predicate BalanceOk(t: Tables, b: Balance) { b.Random? && t.nodes != [] ==> b.index < |t.nodes| }

  /**
   A call id is fresh while it runs or waits and may be used again afterwards; connection ids
   are never reused; there are fewer than 2^64 admissions; an engine replies only to calls
   that were sent, from the node they were placed on.
   */
  predicate Enabled(s: State, e: Event) {
    match e
    case Open(c) => c !in s.t.connections && c !in s.h.closed
    case Close(c) => c in s.t.connections
    case NodeJoins(_) => true
    case NewCall(call, _, _, b) =>
      call !in s.t.running && call !in CallsIn(s.t.pending) && |s.h.admitted| + 1 < SIZE_MAX && BalanceOk(s.t, b)
    case Sent(call) => call in s.h.sending
    case NotSent(call) => call in s.h.sending
    case ClientDiscards(_) => true
    case EngineReplies(call, node, b) =>
      call !in s.h.sending && BalanceOk(s.t, b)
      && (call in s.t.running && s.t.running[call] in s.h.placed ==> s.h.placed[s.t.running[call]] == node)
  }

  function Run(s: State, events: seq<Event>, perNode: nat): State
    decreases |events|
  {
    if events == [] then s else Run(Step(s, events[0], perNode), events[1..], perNode)
  }

  predicate Feasible(s: State, events: seq<Event>, perNode: nat)
    decreases |events|
  {
    events == [] || (Enabled(s, events[0]) && Feasible(Step(s, events[0], perNode), events[1..], perNode))
  }

  /** The admissions whose contexts were finished by replies along a run. */
  function FinishedBy(s: State, events: seq<Event>, perNode: nat): seq<Record>
    decreases |events|
  {
    if events == [] then [] else FinishedNow(s, events[0]) + FinishedBy(Step(s, events[0], perNode), events[1..], perNode)
  }

  /** What one event finishes. */
  function FinishedNow(s: State, e: Event): seq<Record> {
    if e.EngineReplies? && e.call in s.t.running && Reply(s.t, e.call, e.node, e.balance).1.finishes
    then [s.t.running[e.call]] else []
  }
}
