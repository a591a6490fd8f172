/**
 The engine's dispatcher of one function, with the tracer's records of its calls.

 `State` is what the dispatcher's lock and the tracer's locks protect. `History` is what an
 observer of the whole run knows: it is never consulted by the operations, and the
 invariants below tie the tables to it.
 */
module Dispatcher {
  import opened Collections
  import opened Bytes
  import opened Protocol

  /** `uint16_t client_id`. */
  type ClientId = id: nat | id < 0x1_0000

  // ---- Data ---------------------------------------------------------------------------

  /** A `Message*` and a `FuncCallInfo*`: objects are numbered in the order they are made. */
  type MessageRef = nat
  type InfoRef = nat

  datatype CallState = Received | Dispatched | Completed | Failed

  /** `Tracer::FuncCallInfo`. */
  datatype CallInfo = CallInfo(call: FuncCall, recvTimestamp: int, state: CallState, worker: ClientId)

  /** `func_call_infos_`, `func_call_info_pool_` (to which nothing is ever returned) and `inflight_requests`. */
  datatype Tracer = Tracer(infos: map<FuncCall, InfoRef>, pool: seq<CallInfo>, inflight: int)

  /** `SimpleObjectPool<Message>`: the free list, and the contents of every object it made. */
  datatype Pool = Pool(free: seq<MessageRef>, cells: seq<Message>)

  datatype PendingCall = PendingCall(message: MessageRef, info: InfoRef)

  /** What goes over a worker's wire, in order. */
  datatype Wire = Send(worker: ClientId, message: Message) | Report(worker: ClientId, call: FuncCall)

  /** A completion is handled in three critical sections; a call is between two of them. */
  datatype Stage = Counted(success: bool) | Erased(success: bool)

  /**
   `seen`: client ids that ever connected. `wire`: every message sent to a worker and every
   report received from one. `reports`: calls whose report is being handled. `ticket`: the
   arrival number of every call that is accepted and not yet finished or discarded. `built`:
   the dispatch message made for each arrival. `sent`: arrival numbers in dispatch order.
   */
  datatype History = History(
    seen: set<ClientId>, wire: seq<Wire>, reports: map<FuncCall, Stage>,
    ticket: map<FuncCall, InfoRef>, built: seq<Message>,
    sent: seq<InfoRef>, finished: set<InfoRef>, discarded: set<InfoRef>)

  datatype State = State(
    workers: set<ClientId>, running: map<ClientId, FuncCall>, idle: seq<ClientId>,
    pool: Pool, pending: seq<PendingCall>, assignee: map<FuncCall, ClientId>,
    tracer: Tracer, hist: History)

  function Init(): State {
    State({}, map[], [], Pool([], []), [], map[], Tracer(map[], [], 0),
          History({}, [], map[], map[], [], [], {}, {}))
  }

  // ---- Object pool --------------------------------------------------------------------

  function PoolGet(p: Pool): (Pool, MessageRef) {
    if p.free == [] then (Pool([], p.cells + [NewMessage(Invalid, FuncCall(0, 0, 0, 0))]), |p.cells|)
    else (p.(free := p.free[..|p.free| - 1]), p.free[|p.free| - 1])
  }

  function PoolWrite(p: Pool, r: MessageRef, m: Message): Pool {
    if r < |p.cells| then p.(cells := p.cells[r := m]) else p
  }

  function PoolRead(p: Pool, r: MessageRef): Message {
    if r < |p.cells| then p.cells[r] else NewMessage(Invalid, FuncCall(0, 0, 0, 0))
  }

  function PoolReturn(p: Pool, r: MessageRef): Pool { p.(free := p.free + [r]) }

  // ---- Tracer -------------------------------------------------------------------------

  /** `Tracer::OnNewFuncCall`; a call that is already in the table gets no record. */
  function TraceNew(t: Tracer, call: FuncCall, now: int): (Tracer, Option<InfoRef>) {
    if call in t.infos then (t, None)
    else (Tracer(t.infos[call := |t.pool|], t.pool + [CallInfo(call, now, Received, 0)], t.inflight + 1),
          Some(|t.pool|))
  }

  function SetInfo(t: Tracer, call: FuncCall, state: CallState, worker: Option<ClientId>): Tracer {
    if call in t.infos && t.infos[call] < |t.pool| then
      var was := t.pool[t.infos[call]];
      t.(pool := t.pool[t.infos[call] := was.(state := state, worker := if worker.Some? then worker.value else was.worker)])
    else t
  }

  /** `Tracer::OnFuncCallDispatched`. */
  function TraceDispatched(t: Tracer, call: FuncCall, w: ClientId): Tracer { SetInfo(t, call, Dispatched, Some(w)) }

  /** The counter update of `OnFuncCallCompleted` and `OnFuncCallFailed`, with its clamp at zero. */
  function Decremented(inflight: int): int { if inflight - 1 < 0 then 0 else inflight - 1 }

  /** `Tracer::OnFuncCallCompleted` and `Tracer::OnFuncCallFailed`. */
  function TraceFinished(t: Tracer, call: FuncCall, success: bool): Tracer {
    if call in t.infos then
      SetInfo(t, call, if success then Completed else Failed, None).(inflight := Decremented(t.inflight))
    else t
  }

  /** `Tracer::DiscardFuncCallInfo`. */
  function TraceErase(t: Tracer, call: FuncCall): Tracer { t.(infos := t.infos - {call}) }

  // ---- Dispatcher ---------------------------------------------------------------------

  /** How the input of a call travels: inside the message, or in shared memory. */
  datatype Input = InlineInput(data: seq<byte>) | ShmInput(size: nat)

  /** The message built by `OnNewFuncCall`. */
  function BuildMessage(call: FuncCall, input: Input): Message {
    var m := NewMessage(DispatchFuncCall, call);
    match input
    case InlineInput(data) => SetInlineData(m, data)
    case ShmInput(size) => m.(payloadSize := -(size as int))
  }

  /** The pooled message and the trace record of a call that just arrived. */
  function Accept(s: State, call: FuncCall, input: Input, now: int): (State, PendingCall) {
    var m := BuildMessage(call, input);
    var (pool, r) := PoolGet(s.pool);
    var (tracer, info) := TraceNew(s.tracer, call, now);
    var i := if info.Some? then info.value else 0;
    (s.(pool := PoolWrite(pool, r, m), tracer := tracer,
        hist := s.hist.(ticket := s.hist.ticket[call := i], built := s.hist.built + [m])),
     PendingCall(r, i))
  }

  function Enqueue(s: State, p: PendingCall): State { s.(pending := s.pending + [p]) }

  /** `DispatchFuncCall`. */
  function Dispatch(s: State, w: ClientId, p: PendingCall): State {
    var m := PoolRead(s.pool, p.message);
    s.(tracer := TraceDispatched(s.tracer, m.call, w), assignee := s.assignee[m.call := w],
       running := s.running[w := m.call], pool := PoolReturn(s.pool, p.message),
       hist := s.hist.(wire := s.hist.wire + [Send(w, m)], sent := s.hist.sent + [p.info]))
  }

  /** The discarding branch of `DispatchPendingFuncCall`. */
  function Discard(s: State, p: PendingCall): State {
    var call := PoolRead(s.pool, p.message).call;
    s.(pool := PoolReturn(s.pool, p.message), tracer := TraceErase(s.tracer, call),
       hist := s.hist.(ticket := s.hist.ticket - {call}, discarded := s.hist.discarded + {p.info}))
  }

  /** The inputs of the queueing-delay test: a clock, a flag and a moving average. */
  datatype Policy = Policy(now: int, maxRelativeDelay: real, averageTime: real)

  predicate Keep(s: State, p: PendingCall, policy: Policy) {
    var call := PoolRead(s.pool, p.message).call;
    var recv := if p.info < |s.tracer.pool| then s.tracer.pool[p.info].recvTimestamp else 0;
    || call.clientId == 0
    || policy.maxRelativeDelay == 0.0
    || (policy.now - recv) as real <= policy.maxRelativeDelay * policy.averageTime
  }

  function TakeFirst(s: State): State
    requires s.pending != []
  {
    s.(pending := s.pending[1..])
  }

  /** `DispatchPendingFuncCall`: discard overdue calls from the front, dispatch the first one kept. */
  function DispatchPending(s: State, w: ClientId, policy: Policy): (State, bool)
    decreases |s.pending|
  {
    if s.pending == [] then (s, false)
    else
      var p := s.pending[0];
      var s' := TakeFirst(s);
      if Keep(s', p, policy) then (Dispatch(s', w, p), true)
      else DispatchPending(Discard(s', p), w, policy)
  }

  /** The loop of `PickIdleWorker`: pop until a connected worker that is not running turns up. */
  function PickIdle(idle: seq<ClientId>, workers: set<ClientId>, running: map<ClientId, FuncCall>): (seq<ClientId>, Option<ClientId>)
  {
    if idle == [] then ([], None)
    else
      var rest, w := idle[..|idle| - 1], idle[|idle| - 1];
      if w in workers && w !in running then (rest, Some(w)) else PickIdle(rest, workers, running)
  }

  function PickIdleWorker(s: State, limit: nat): (State, Option<ClientId>) {
    if |s.running| >= limit then (s, None)
    else
      var (idle, w) := PickIdle(s.idle, s.workers, s.running);
      (s.(idle := idle), w)
  }

  /** A worker that holds nothing takes the next pending call or becomes idle. */
  function Employ(s: State, w: ClientId, policy: Policy): State {
    var (s', done) := DispatchPending(s, w, policy);
    if done then s' else s'.(idle := s'.idle + [w])
  }

  function OnConnected(s: State, w: ClientId, policy: Policy): State {
    Employ(s.(workers := s.workers + {w}, hist := s.hist.(seen := s.hist.seen + {w})), w, policy)
  }

  function OnDisconnected(s: State, w: ClientId): State { s.(workers := s.workers - {w}) }

  function OnNewCall(s: State, call: FuncCall, input: Input, now: int, limit: nat): State {
    var (s1, p) := Accept(s, call, input, now);
    var (s2, w) := PickIdleWorker(s1, limit);
    if w.Some? then Dispatch(s2, w.value, p) else Enqueue(s2, p)
  }

  /** `OnFuncCallCompleted` / `OnFuncCallFailed`, first section: the tracer counts the report. */
  function OnReport(s: State, w: ClientId, call: FuncCall, success: bool): State {
    s.(tracer := TraceFinished(s.tracer, call, success),
       hist := s.hist.(wire := s.hist.wire + [Report(w, call)], reports := s.hist.reports[call := Counted(success)]))
  }

  /** What the report that is being handled says. */
  function Verdict(reports: map<FuncCall, Stage>, call: FuncCall): bool { call in reports && reports[call].success }

  /** Second section: the tracer forgets the call. */
  function OnReportErase(s: State, call: FuncCall): State {
    s.(tracer := TraceErase(s.tracer, call), hist := s.hist.(reports := s.hist.reports[call := Erased(Verdict(s.hist.reports, call))]))
  }

  function Release(s: State, call: FuncCall): State {
    s.(assignee := s.assignee - {call},
       hist := s.hist.(reports := s.hist.reports - {call}, ticket := s.hist.ticket - {call},
                       finished := if call in s.hist.ticket then s.hist.finished + {s.hist.ticket[call]} else s.hist.finished))
  }

  /** Third section, under the dispatcher's lock. */
  function OnReportFinish(s: State, call: FuncCall, policy: Policy): State {
    if call !in s.assignee then Release(s, call)
    else
      var w := s.assignee[call];
      if w in s.workers then Release(Employ(s.(running := s.running - {w}), w, policy), call)
      else Release(s, call)
  }
}
