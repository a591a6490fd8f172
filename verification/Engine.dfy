/**
 The engine's accounting of external calls (those that came from the gateway, client id 0):
 the in-flight counter, the stored shared-memory inputs and the list of discarded calls,
 around one dispatcher per configured function.
 */
module Engine {
  import opened Collections
  import opened Bytes
  import opened Protocol
  import D = Dispatcher
  import opened DispatcherInvariants
  import R = DispatcherRuns

  predicate External(c: FuncCall) { c.clientId == 0 }

  /** A message sent back to the gateway (`ExternalFuncCallCompleted` / `ExternalFuncCallFailed`). */
  datatype Answer = Answer(call: FuncCall, success: bool)

  /** `external_func_call_shm_inputs_`, `discarded_func_calls_`, `inflight_external_requests_`, and the answers given. */
  datatype Books = Books(shmInputs: map<FuncCall, seq<byte>>, discarded: seq<FuncCall>, inflight: int, answers: seq<Answer>)

  /** An external call on its way in: its input is not stored yet, or it is; or its function does not exist. */
  datatype Arrival = Created | Stored | Unknown

  /** A report on its way through the engine: before, or after the dispatcher handled it. */
  datatype Return = Grabbed(success: bool) | Returned(success: bool)

  /**
   `open`: the input of every external call received and not yet answered. `arriving` and
   `returning`: calls inside `OnExternalFuncCall` and inside the report branch of
   `OnRecvMessage`. `received`: every external call ever received.
   */
  datatype History = History(
    open: map<FuncCall, seq<byte>>, arriving: map<FuncCall, Arrival>,
    returning: map<FuncCall, Return>, received: seq<FuncCall>)

  datatype State = State(dispatchers: map<nat, D.State>, books: Books, hist: History)

  function Init(): State { State(map[], Books(map[], [], 0, []), History(map[], map[], map[], [])) }

  // ---- The engine's own tables ------------------------------------------------------------

  function Answered(b: Books, call: FuncCall, success: bool): Books {
    b.(inflight := b.inflight - 1, answers := b.answers + [Answer(call, success)])
  }

  /** `GrabExternalFuncCallShmInput`. */
  function Grab(b: Books, call: FuncCall): Books { b.(shmInputs := b.shmInputs - {call}) }

  /** The calls `ProcessDiscardedFuncCallIfNecessary` has to fail towards the gateway. */
  function ExternalsOf(calls: seq<FuncCall>): seq<FuncCall> {
    if calls == [] then []
    else
      var before, last := ExternalsOf(calls[..|calls| - 1]), calls[|calls| - 1];
      if External(last) then before + [last] else before
  }

  function InternalsOf(calls: seq<FuncCall>): seq<FuncCall> {
    if calls == [] then []
    else
      var before, last := InternalsOf(calls[..|calls| - 1]), calls[|calls| - 1];
      if External(last) then before else before + [last]
  }

  /** The two lists split the calls: each call goes to exactly one of them. */
  lemma {:induction false} SplitIsExact(calls: seq<FuncCall>)
    ensures multiset(InternalsOf(calls)) + multiset(ExternalsOf(calls)) == multiset(calls)
    ensures forall c :: c in InternalsOf(calls) ==> !External(c)
    ensures forall c :: c in ExternalsOf(calls) ==> External(c)
  {
    if calls != [] {
      var before, last := calls[..|calls| - 1], calls[|calls| - 1];
      SplitIsExact(before);
      assert calls == before + [last];
    }
  }

  function GrabAll(b: Books, calls: seq<FuncCall>): Books {
    if calls == [] then b else Grab(GrabAll(b, calls[..|calls| - 1]), calls[|calls| - 1])
  }

  function FailAll(b: Books, calls: seq<FuncCall>): Books {
    if calls == [] then b else Answered(FailAll(b, calls[..|calls| - 1]), calls[|calls| - 1], false)
  }

  function ProcessDiscarded(b: Books): Books {
    var externals := ExternalsOf(b.discarded);
    FailAll(GrabAll(b, externals).(discarded := []), externals)
  }

  // ---- Steps ------------------------------------------------------------------------------

  datatype Event =
    | Receive(call: FuncCall, data: seq<byte>, shmCreated: bool)
    | Store(call: FuncCall)
    | Reject(call: FuncCall)
    | Submit(call: FuncCall, now: int, limit: nat)
    | Invoke(call: FuncCall, input: D.Input, now: int, limit: nat)
    | ReportReceived(func: nat, w: D.ClientId, success: bool)
    | Inner(func: nat, event: R.Event)
    | Reply(call: FuncCall, outputFound: bool)
    | Process

  function DispatcherOf(s: State, func: nat): D.State {
    if func in s.dispatchers then s.dispatchers[func] else D.Init()
  }

  /** The calls that this dispatcher event hands to `Engine::DiscardFuncCall`. */
  function DiscardedBy(s: D.State, policy: D.Policy): seq<FuncCall>
    decreases |s.pending|
  {
    if s.pending == [] then []
    else
      var p, s' := s.pending[0], D.TakeFirst(s);
      if D.Keep(s', p, policy) then []
      else [D.PoolRead(s'.pool, p.message).call] + DiscardedBy(D.Discard(s', p), policy)
  }

  /** A worker of this event is about to take pending calls. */
  predicate Employs(s: D.State, e: R.Event) {
    e.Connect? || (e.ReportFinish? && e.call in s.assignee && s.assignee[e.call] in s.workers)
  }

  function ShmNeeded(input: seq<byte>): bool { |input| > INLINE_DATA_SIZE }

  function InputOf(data: seq<byte>): D.Input {
    if ShmNeeded(data) then D.ShmInput(|data|) else D.InlineInput(data)
  }

  /** What the report of a call that is being handled says. */
  function Verdict(returning: map<FuncCall, Return>, call: FuncCall): bool { call in returning && returning[call].success }

  function Step(s: State, e: Event, known: set<nat>): State {
    var h := s.hist;
    match e
    case Receive(call, data, shmCreated) =>
      var books := s.books.(inflight := s.books.inflight + 1);
      if ShmNeeded(data) && !shmCreated then
        s.(books := Answered(books, call, false), hist := h.(received := h.received + [call]))
      else
        s.(books := books,
           hist := h.(received := h.received + [call], open := h.open[call := data], arriving := h.arriving[call := Created]))
    case Store(call) =>
      if call !in h.open then s
      else if call.funcId !in known then s.(hist := h.(arriving := h.arriving[call := Unknown]))
      else
        s.(dispatchers := s.dispatchers[call.funcId := DispatcherOf(s, call.funcId)],
           books := if ShmNeeded(h.open[call]) then s.books.(shmInputs := s.books.shmInputs[call := h.open[call]]) else s.books,
           hist := h.(arriving := h.arriving[call := Stored]))
    case Reject(call) =>
      s.(books := Answered(s.books, call, false), hist := h.(open := h.open - {call}, arriving := h.arriving - {call}))
    case Submit(call, now, limit) =>
      if call !in h.open then s
      else
        var d := D.OnNewCall(DispatcherOf(s, call.funcId), call, InputOf(h.open[call]), now, limit);
        s.(dispatchers := s.dispatchers[call.funcId := d], hist := h.(arriving := h.arriving - {call}))
    case Invoke(call, input, now, limit) =>
      if call.funcId !in known then s
      else
        var d := D.OnNewCall(DispatcherOf(s, call.funcId), call, input, now, limit);
        s.(dispatchers := s.dispatchers[call.funcId := d])
    case ReportReceived(func, w, success) =>
      var held := Holding(DispatcherOf(s, func).hist.wire);
      if w !in held then s
      else
        s.(books := if External(held[w]) then Grab(s.books, held[w]) else s.books,
           hist := h.(returning := h.returning[held[w] := Grabbed(success)]))
    case Inner(func, event) =>
      var d := DispatcherOf(s, func);
      s.(dispatchers := s.dispatchers[func := R.Step(d, event)],
         books := if Employs(d, event) then s.books.(discarded := s.books.discarded + DiscardedBy(d, event.policy)) else s.books,
         hist := if event.ReportFinish? then h.(returning := h.returning[event.call := Returned(Verdict(h.returning, event.call))]) else h)
    case Reply(call, outputFound) =>
      s.(books := if External(call) then Answered(s.books, call, Verdict(h.returning, call) && outputFound) else s.books,
         hist := h.(open := h.open - {call}, returning := h.returning - {call}))
    case Process => s.(books := ProcessDiscarded(s.books))
  }

  predicate Live(s: State, call: FuncCall) {
    || call in s.hist.arriving || call in s.hist.returning
    || call in DispatcherOf(s, call.funcId).hist.ticket
  }

  /**
   Call ids are fresh while live; the sections of one activity run in order; a worker reports
   the call it holds, once; and the own events of a configured function's dispatcher, which the
   first of them creates, are enabled for it.
   */
  predicate Enabled(s: State, e: Event, known: set<nat>) {
    match e
    case Receive(call, _, _) => External(call) && !Live(s, call)
    case Store(call) => call in s.hist.arriving && s.hist.arriving[call].Created?
    case Reject(call) => call in s.hist.arriving && s.hist.arriving[call].Unknown?
    case Submit(call, _, _) => call in s.hist.arriving && s.hist.arriving[call].Stored?
    case Invoke(call, _, _, _) => !External(call) && !Live(s, call)
    case ReportReceived(func, w, _) =>
      func in s.dispatchers
      && var held := Holding(s.dispatchers[func].hist.wire);
         w in held && held[w] !in s.hist.returning
    case Inner(func, event) =>
      func in known && R.Enabled(DispatcherOf(s, func), event) && !event.NewCall?
      && (event.ReportBegin? ==>
            var call := Holding(DispatcherOf(s, func).hist.wire)[event.w];
            call in s.hist.returning && s.hist.returning[call] == Grabbed(event.success))
    case Reply(call, _) => call in s.hist.returning && s.hist.returning[call].Returned?
    case Process => true
  }

  function Run(s: State, events: seq<Event>, known: set<nat>): State
    decreases |events|
  {
    if events == [] then s else Run(Step(s, events[0], known), events[1..], known)
  }

  predicate Feasible(s: State, events: seq<Event>, known: set<nat>)
    decreases |events|
  {
    events == [] || (Enabled(s, events[0], known) && Feasible(Step(s, events[0], known), events[1..], known))
  }

  /** The ordinary start-up: workers of a configured function connect before anybody calls it. */
  lemma WorkerMayConnectFirst(f: nat, w: D.ClientId, policy: D.Policy, known: set<nat>)
    requires f in known
    ensures Feasible(Init(), [Inner(f, R.Connect(w, policy))], known)
    ensures f in Run(Init(), [Inner(f, R.Connect(w, policy))], known).dispatchers
  {
    var e := Inner(f, R.Connect(w, policy));
    assert Feasible(Step(Init(), e, known), [e][1..], known);
    assert Run(Init(), [e], known) == Step(Init(), e, known);
  }

  // ---- Invariant --------------------------------------------------------------------------

  type Dispatchers = map<nat, D.State>

  predicate Tracked(ds: Dispatchers, c: FuncCall) { c.funcId in ds && c in ds[c.funcId].hist.ticket }

  predicate Placed(ds: Dispatchers, c: FuncCall) { c.funcId in ds && c in ds[c.funcId].assignee }

  predicate Reporting(ds: Dispatchers, c: FuncCall) { c.funcId in ds && c in ds[c.funcId].hist.reports }

  /** Each dispatcher is in a reachable state and only knows calls of its function. */
  ghost predicate Healthy(f: nat, d: D.State) { Inv(d) && forall c :: c in d.hist.ticket ==> c.funcId == f }

  ghost predicate AllOk<V(!new)>(m: map<nat, V>, ok: (nat, V) -> bool) { forall f :: f in m ==> ok(f, m[f]) }

  ghost predicate DispatchersOk(ds: Dispatchers) { AllOk(ds, Healthy) }

  /** An external call is open exactly while it arrives, is known to a dispatcher, or returns. */
  ghost predicate OpenOk(ds: Dispatchers, h: History) {
    && (forall c :: c in h.open ==> External(c))
    && (forall c :: c in h.arriving ==> External(c) && !Tracked(ds, c) && c !in h.returning)
    && (forall c :: External(c) ==> (c in h.open <==> c in h.arriving || Tracked(ds, c) || c in h.returning))
  }

  /** Reports inside the engine and inside its dispatchers agree. */
  ghost predicate ReturnsOk(ds: Dispatchers, h: History) {
    && (forall c :: c in h.returning ==> if h.returning[c].Grabbed? then Placed(ds, c) else !Tracked(ds, c))
    && (forall c :: Reporting(ds, c) ==> c in h.returning && h.returning[c].Grabbed?)
  }

  predicate InputStored(h: History, c: FuncCall) {
    && c in h.open && ShmNeeded(h.open[c])
    && c !in h.returning && (c in h.arriving ==> h.arriving[c].Stored?)
  }

  /** The stored inputs are those of open external calls above the inline size that nobody reported yet. */
  ghost predicate InputsOk(inputs: map<FuncCall, seq<byte>>, h: History) {
    forall c :: (c in inputs <==> InputStored(h, c)) && (c in inputs ==> inputs[c] == h.open[c])
  }

  function AnsweredCalls(answers: seq<Answer>): multiset<FuncCall> {
    if answers == [] then multiset{}
    else AnsweredCalls(answers[..|answers| - 1]) + multiset{answers[|answers| - 1].call}
  }

  /** What was received is what was answered plus what is open, each open call once. */
  ghost predicate BooksOk(b: Books, open: set<FuncCall>, received: seq<FuncCall>) {
    && multiset(received) == AnsweredCalls(b.answers) + multiset(open)
    && b.inflight == |open|
    && (forall c :: c in b.discarded ==> !External(c))
  }

  ghost predicate TablesOk(s: State) {
    && OpenOk(s.dispatchers, s.hist)
    && ReturnsOk(s.dispatchers, s.hist)
    && InputsOk(s.books.shmInputs, s.hist)
    && BooksOk(s.books, s.hist.open.Keys, s.hist.received)
  }

  ghost predicate EngineInv(s: State) { DispatchersOk(s.dispatchers) && TablesOk(s) }

  // ---- What a dispatcher event can do to the calls the engine follows -----------------------

  /** `d` became `d'`: a report of `begun` was counted, the report of `done` was finished, only workers' calls were dropped. */
  ghost predicate Evolved(d: D.State, d': D.State, begun: Option<FuncCall>, done: Option<FuncCall>) {
    && (forall c :: c in d'.hist.ticket ==> c in d.hist.ticket && done != Some(c))
    && (forall c :: External(c) && c in d.hist.ticket && done != Some(c) ==> c in d'.hist.ticket)
    && (forall c :: c in d.assignee && done != Some(c) ==> c in d'.assignee)
    && (forall c :: c in d'.hist.reports <==> (c in d.hist.reports && done != Some(c)) || begun == Some(c))
  }

  lemma {:induction false} DispatchPendingEffect(s: D.State, w: D.ClientId, policy: D.Policy)
    ensures Evolved(s, D.DispatchPending(s, w, policy).0, None, None)
    ensures forall c :: c in DiscardedBy(s, policy) ==> !External(c)
    decreases |s.pending|
  {
    if s.pending != [] {
      var p, s' := s.pending[0], D.TakeFirst(s);
      if !D.Keep(s', p, policy) {
        DispatchPendingEffect(D.Discard(s', p), w, policy);
      }
    }
  }

  lemma ConnectEffect(s: D.State, w: D.ClientId, policy: D.Policy)
    ensures Evolved(s, D.OnConnected(s, w, policy), None, None)
  {
    DispatchPendingEffect(s.(workers := s.workers + {w}, hist := s.hist.(seen := s.hist.seen + {w})), w, policy);
  }

  lemma FinishEffect(s: D.State, call: FuncCall, policy: D.Policy)
    ensures Evolved(s, D.OnReportFinish(s, call, policy), None, Some(call))
  {
    if call in s.assignee && s.assignee[call] in s.workers {
      var w := s.assignee[call];
      DispatchPendingEffect(s.(running := s.running - {w}), w, policy);
    }
  }

  function Begun(s: D.State, e: R.Event): Option<FuncCall> {
    if e.ReportBegin? && e.w in Holding(s.hist.wire) then Some(Holding(s.hist.wire)[e.w]) else None
  }

  function Done(e: R.Event): Option<FuncCall> { if e.ReportFinish? then Some(e.call) else None }

  /** A dispatcher event never drops an external call except when it finishes its report. */
  lemma InnerEffect(s: D.State, e: R.Event)
    requires R.Enabled(s, e) && !e.NewCall?
    ensures Evolved(s, R.Step(s, e), Begun(s, e), Done(e))
    ensures Employs(s, e) ==> forall c :: c in DiscardedBy(s, e.policy) ==> !External(c)
  {
    match e
    case Connect(w, policy) =>
      ConnectEffect(s, w, policy);
      DispatchPendingEffect(s, w, policy);
    case ReportFinish(call, policy) =>
      FinishEffect(s, call, policy);
      DispatchPendingEffect(s, 0, policy);
    case _ =>
  }

  /** A dispatcher takes in one new call. */
  lemma NewCallEffect(s: D.State, call: FuncCall, input: D.Input, now: int, limit: nat)
    ensures
      var s' := D.OnNewCall(s, call, input, now, limit);
      && s'.hist.ticket.Keys == s.hist.ticket.Keys + {call}
      && s'.hist.reports == s.hist.reports
      && s.assignee.Keys <= s'.assignee.Keys
  {
    var (s1, p) := D.Accept(s, call, input, now);
    assert s1.hist.ticket == s.hist.ticket[call := p.info] && s1.hist.reports == s.hist.reports && s1.assignee == s.assignee;
    assert s1.hist.ticket.Keys == s.hist.ticket.Keys + {call};
    var (s2, w) := D.PickIdleWorker(s1, limit);
    assert s2.hist == s1.hist && s2.assignee == s1.assignee;
    PlaceEffect(s2, w, p);
  }

  lemma PlaceEffect(s: D.State, w: Option<D.ClientId>, p: D.PendingCall)
    ensures var s' := if w.Some? then D.Dispatch(s, w.value, p) else D.Enqueue(s, p);
      s'.hist.ticket == s.hist.ticket && s'.hist.reports == s.hist.reports && s.assignee.Keys <= s'.assignee.Keys
  {
  }

  // ---- Every step keeps the invariant -------------------------------------------------------

  lemma PutOk<V(!new)>(m: map<nat, V>, ok: (nat, V) -> bool, f: nat, v: V)
    requires AllOk(m, ok) && ok(f, v)
    ensures AllOk(m[f := v], ok)
  {
  }

  lemma PutDispatcher(ds: Dispatchers, f: nat, d: D.State)
    requires DispatchersOk(ds) && Healthy(f, d)
    ensures DispatchersOk(ds[f := d])
  {
    PutOk(ds, Healthy, f, d);
  }

  lemma InnerKeepsDispatchers(ds: Dispatchers, f: nat, d: D.State, e: R.Event)
    requires DispatchersOk(ds) && Healthy(f, d) && R.Enabled(d, e) && !e.NewCall?
    ensures DispatchersOk(ds[f := R.Step(d, e)])
  {
    R.StepKeepsInv(d, e);
    InnerEffect(d, e);
    PutDispatcher(ds, f, R.Step(d, e));
  }

  lemma NewCallKeepsDispatchers(s: State, call: FuncCall, input: D.Input, now: int, limit: nat)
    requires DispatchersOk(s.dispatchers) && !Tracked(s.dispatchers, call)
    ensures DispatchersOk(s.dispatchers[call.funcId := D.OnNewCall(DispatcherOf(s, call.funcId), call, input, now, limit)])
  {
    InitInv();
    var d := DispatcherOf(s, call.funcId);
    assert Healthy(call.funcId, d);
    OnNewCallOk(d, call, input, now, limit);
    NewCallEffect(d, call, input, now, limit);
    PutDispatcher(s.dispatchers, call.funcId, D.OnNewCall(d, call, input, now, limit));
  }

  /** A dispatcher that does not exist yet is created in its initial state. */
  lemma DispatcherIsHealthy(s: State, f: nat)
    requires DispatchersOk(s.dispatchers)
    ensures Healthy(f, DispatcherOf(s, f))
  {
    InitInv();
  }

  /** What the engine does to its dispatchers. */
  lemma DispatchersAfter(s: State, e: Event, known: set<nat>)
    requires Enabled(s, e, known)
    ensures var ds := Step(s, e, known).dispatchers;
      || ds == s.dispatchers
      || (e.Store? && ds == s.dispatchers[e.call.funcId := DispatcherOf(s, e.call.funcId)])
      || (e.Submit? && e.call in s.hist.open
          && ds == s.dispatchers[e.call.funcId := D.OnNewCall(DispatcherOf(s, e.call.funcId), e.call, InputOf(s.hist.open[e.call]), e.now, e.limit)])
      || (e.Invoke? && ds == s.dispatchers[e.call.funcId := D.OnNewCall(DispatcherOf(s, e.call.funcId), e.call, e.input, e.now, e.limit)])
      || (e.Inner? && ds == s.dispatchers[e.func := R.Step(DispatcherOf(s, e.func), e.event)])
  {
  }

  /** The dispatchers of the engine stay reachable whatever the engine does. */
  lemma StepKeepsDispatchers(s: State, e: Event, known: set<nat>)
    requires DispatchersOk(s.dispatchers) && Enabled(s, e, known)
    requires e.Submit? ==> !Tracked(s.dispatchers, e.call)
    ensures DispatchersOk(Step(s, e, known).dispatchers)
  {
    DispatchersAfter(s, e, known);
    match e
    case Store(call) =>
      DispatcherIsHealthy(s, call.funcId);
      PutDispatcher(s.dispatchers, call.funcId, DispatcherOf(s, call.funcId));
    case Submit(call, now, limit) =>
      if call in s.hist.open { NewCallKeepsDispatchers(s, call, InputOf(s.hist.open[call]), now, limit); }
    case Invoke(call, input, now, limit) => NewCallKeepsDispatchers(s, call, input, now, limit);
    case Inner(f, event) =>
      DispatcherIsHealthy(s, f);
      InnerKeepsDispatchers(s.dispatchers, f, DispatcherOf(s, f), event);
    case _ =>
  }

  lemma SetToMultiset(s: set<FuncCall>, x: FuncCall)
    requires x in s
    ensures multiset(s) == multiset(s - {x}) + multiset{x}
  {
    assert s == (s - {x}) + {x};
  }

  lemma AnswerOnce(b: Books, open: set<FuncCall>, received: seq<FuncCall>, call: FuncCall, success: bool)
    requires BooksOk(b, open, received) && call in open
    ensures BooksOk(Answered(b, call, success), open - {call}, received)
  {
    var answers := b.answers + [Answer(call, success)];
    assert answers[..|b.answers|] == b.answers;
    SetToMultiset(open, call);
  }

  lemma ReceiveOnce(b: Books, open: set<FuncCall>, received: seq<FuncCall>, call: FuncCall)
    requires BooksOk(b, open, received) && call !in open
    ensures BooksOk(b.(inflight := b.inflight + 1), open + {call}, received + [call])
  {
    SetToMultiset(open + {call}, call);
    assert open + {call} - {call} == open;
  }

  lemma ReceiveOk(s: State, e: Event, known: set<nat>)
    requires TablesOk(s) && Enabled(s, e, known) && e.Receive?
    ensures TablesOk(Step(s, e, known))
  {
    var call, data, open := e.call, e.data, s.hist.open.Keys;
    assert !Tracked(s.dispatchers, call);
    ReceiveOnce(s.books, open, s.hist.received, call);
    if ShmNeeded(data) && !e.shmCreated {
      AnswerOnce(s.books.(inflight := s.books.inflight + 1), open + {call}, s.hist.received + [call], call, false);
      assert open + {call} - {call} == open;
    } else {
      assert Step(s, e, known).hist.open.Keys == open + {call};
    }
  }

  /** Creating the dispatcher of a function changes nothing for any call. */
  lemma CreateKeeps(ds: Dispatchers, h: History, f: nat)
    requires OpenOk(ds, h) && ReturnsOk(ds, h)
    ensures
      var ds' := ds[f := if f in ds then ds[f] else D.Init()];
      OpenOk(ds', h) && ReturnsOk(ds', h)
  {
    var ds' := ds[f := if f in ds then ds[f] else D.Init()];
    assert forall c :: (Tracked(ds', c) <==> Tracked(ds, c)) && (Placed(ds, c) ==> Placed(ds', c)) && (Reporting(ds', c) <==> Reporting(ds, c));
  }

  lemma StoreKeeps(ds: Dispatchers, h: History, inputs: map<FuncCall, seq<byte>>, call: FuncCall, arrival: Arrival)
    requires OpenOk(ds, h) && ReturnsOk(ds, h) && InputsOk(inputs, h)
    requires call in h.arriving && h.arriving[call].Created? && arrival != Created
    ensures
      var h' := h.(arriving := h.arriving[call := arrival]);
      && OpenOk(ds, h') && ReturnsOk(ds, h')
      && call in h.open
      && InputsOk(if arrival.Stored? && ShmNeeded(h.open[call]) then inputs[call := h.open[call]] else inputs, h')
  {
  }

  lemma StoreOk(s: State, e: Event, known: set<nat>)
    requires TablesOk(s) && Enabled(s, e, known) && e.Store?
    ensures TablesOk(Step(s, e, known))
  {
    StoreKeeps(s.dispatchers, s.hist, s.books.shmInputs, e.call, if e.call.funcId in known then Stored else Unknown);
    CreateKeeps(s.dispatchers, Step(s, e, known).hist, e.call.funcId);
  }

  lemma RejectOk(s: State, e: Event, known: set<nat>)
    requires TablesOk(s) && Enabled(s, e, known) && e.Reject?
    ensures TablesOk(Step(s, e, known))
  {
    AnswerOnce(s.books, s.hist.open.Keys, s.hist.received, e.call, false);
    assert (s.hist.open - {e.call}).Keys == s.hist.open.Keys - {e.call};
  }

  /** The tables after dispatcher `call.funcId` became `d'` by taking in `call`. */
  lemma NewCallKeeps(ds: Dispatchers, h: History, call: FuncCall, d: D.State, d': D.State)
    requires OpenOk(ds, h) && ReturnsOk(ds, h) && !Tracked(ds, call) && call !in h.returning
    requires d == (if call.funcId in ds then ds[call.funcId] else D.Init())
    requires d'.hist.ticket.Keys == d.hist.ticket.Keys + {call} && d'.hist.reports == d.hist.reports
    requires d.assignee.Keys <= d'.assignee.Keys
    requires External(call) ==> call in h.open
    ensures
      var ds', h' := ds[call.funcId := d'], h.(arriving := h.arriving - {call});
      OpenOk(ds', h') && ReturnsOk(ds', h')
  {
    var ds' := ds[call.funcId := d'];
    assert forall c :: Tracked(ds', c) <==> Tracked(ds, c) || c == call;
    assert forall c :: Placed(ds, c) ==> Placed(ds', c);
    assert forall c :: Reporting(ds', c) <==> Reporting(ds, c);
  }

  lemma SubmitOk(s: State, e: Event, known: set<nat>)
    requires TablesOk(s) && Enabled(s, e, known) && e.Submit?
    ensures TablesOk(Step(s, e, known))
  {
    var call, d := e.call, DispatcherOf(s, e.call.funcId);
    var d' := D.OnNewCall(d, call, InputOf(s.hist.open[call]), e.now, e.limit);
    NewCallEffect(d, call, InputOf(s.hist.open[call]), e.now, e.limit);
    SubmittedOk(s, call, d, d');
    assert Step(s, e, known) == s.(dispatchers := s.dispatchers[call.funcId := d'], hist := s.hist.(arriving := s.hist.arriving - {call}));
  }

  /** A stored call moved into its dispatcher, whatever the dispatcher made of it. */
  lemma SubmittedOk(s: State, call: FuncCall, d: D.State, d': D.State)
    requires TablesOk(s) && call in s.hist.arriving && s.hist.arriving[call].Stored? && d == DispatcherOf(s, call.funcId)
    requires d'.hist.ticket.Keys == d.hist.ticket.Keys + {call} && d'.hist.reports == d.hist.reports
    requires d.assignee.Keys <= d'.assignee.Keys
    ensures TablesOk(s.(dispatchers := s.dispatchers[call.funcId := d'], hist := s.hist.(arriving := s.hist.arriving - {call})))
  {
    assert !Tracked(s.dispatchers, call);
    NewCallKeeps(s.dispatchers, s.hist, call, d, d');
  }

  lemma InvokeOk(s: State, e: Event, known: set<nat>)
    requires TablesOk(s) && Enabled(s, e, known) && e.Invoke?
    ensures TablesOk(Step(s, e, known))
  {
    if e.call.funcId in known {
      var call, d := e.call, DispatcherOf(s, e.call.funcId);
      assert !Tracked(s.dispatchers, call);
      assert s.hist.arriving - {call} == s.hist.arriving && s.hist.(arriving := s.hist.arriving) == s.hist;
      NewCallEffect(d, call, e.input, e.now, e.limit);
      NewCallKeeps(s.dispatchers, s.hist, call, d, D.OnNewCall(d, call, e.input, e.now, e.limit));
    }
  }

  lemma HeldIsPlaced(ds: Dispatchers, f: nat, w: D.ClientId)
    requires DispatchersOk(ds) && f in ds && w in Holding(ds[f].hist.wire)
    ensures
      var c := Holding(ds[f].hist.wire)[w];
      c.funcId == f && Placed(ds, c) && Tracked(ds, c)
  {
    var d := ds[f];
    assert Healthy(f, d);
    var c := Holding(d.hist.wire)[w];
    assert c in d.assignee && c in d.hist.ticket;
  }

  lemma ReportReceivedKeeps(ds: Dispatchers, h: History, inputs: map<FuncCall, seq<byte>>, c: FuncCall, success: bool)
    requires OpenOk(ds, h) && ReturnsOk(ds, h) && InputsOk(inputs, h)
    requires c !in h.returning && Placed(ds, c) && Tracked(ds, c)
    ensures
      var h' := h.(returning := h.returning[c := Grabbed(success)]);
      OpenOk(ds, h') && ReturnsOk(ds, h') && InputsOk(if External(c) then inputs - {c} else inputs, h')
  {
  }

  lemma ReportReceivedOk(s: State, f: nat, w: D.ClientId, success: bool, known: set<nat>, c: FuncCall)
    requires TablesOk(s) && f in s.dispatchers && w in Holding(s.dispatchers[f].hist.wire)
    requires Holding(s.dispatchers[f].hist.wire)[w] == c && c !in s.hist.returning && Placed(s.dispatchers, c) && Tracked(s.dispatchers, c)
    ensures TablesOk(Step(s, ReportReceived(f, w, success), known))
  {
    ReportReceivedKeeps(s.dispatchers, s.hist, s.books.shmInputs, c, success);
  }

  /** A dispatcher, possibly created by this event, became `d'`. */
  lemma InnerKeeps(ds: Dispatchers, h: History, f: nat, d: D.State, d': D.State, begun: Option<FuncCall>, done: Option<FuncCall>)
    requires OpenOk(ds, h) && ReturnsOk(ds, h) && Evolved(d, d', begun, done)
    requires d == if f in ds then ds[f] else D.Init()
    requires begun.None? || done.None?
    requires begun.Some? ==> begun.value in h.returning && h.returning[begun.value].Grabbed?
    requires done.Some? ==> done.value.funcId == f && done.value in h.returning
    ensures
      var ds', h' := ds[f := d'], if done.Some? then h.(returning := h.returning[done.value := Returned(Verdict(h.returning, done.value))]) else h;
      OpenOk(ds', h') && ReturnsOk(ds', h')
  {
    var ds' := ds[f := d'];
    assert forall c :: Tracked(ds', c) ==> Tracked(ds, c) && done != Some(c);
    assert forall c :: External(c) && Tracked(ds, c) && done != Some(c) ==> Tracked(ds', c);
    assert forall c :: Placed(ds, c) && done != Some(c) ==> Placed(ds', c);
    assert forall c :: Reporting(ds', c) ==> (Reporting(ds, c) && done != Some(c)) || begun == Some(c);
    TablesFollow(ds, ds', h, begun, done);
  }

  lemma TablesFollow(ds: Dispatchers, ds': Dispatchers, h: History, begun: Option<FuncCall>, done: Option<FuncCall>)
    requires OpenOk(ds, h) && ReturnsOk(ds, h) && (begun.None? || done.None?)
    requires begun.Some? ==> begun.value in h.returning && h.returning[begun.value].Grabbed?
    requires done.Some? ==> done.value in h.returning && !Tracked(ds', done.value)
    requires forall c :: Tracked(ds', c) ==> Tracked(ds, c) && done != Some(c)
    requires forall c :: External(c) && Tracked(ds, c) && done != Some(c) ==> Tracked(ds', c)
    requires forall c :: Placed(ds, c) && done != Some(c) ==> Placed(ds', c)
    requires forall c :: Reporting(ds', c) ==> (Reporting(ds, c) && done != Some(c)) || begun == Some(c)
    ensures
      var h' := if done.Some? then h.(returning := h.returning[done.value := Returned(Verdict(h.returning, done.value))]) else h;
      OpenOk(ds', h') && ReturnsOk(ds', h')
  {
  }

  /** The report that a dispatcher is about to count or finish is one the engine is handling. */
  predicate ReportReturns(s: State, f: nat, e: R.Event) {
    var begun, done := Begun(DispatcherOf(s, f), e), Done(e);
    && (begun.Some? ==> begun.value in s.hist.returning && s.hist.returning[begun.value].Grabbed?)
    && (done.Some? ==> done.value.funcId == f && done.value in s.hist.returning)
  }

  lemma ReportIsReturning(s: State, f: nat, e: R.Event, known: set<nat>)
    requires DispatchersOk(s.dispatchers) && ReturnsOk(s.dispatchers, s.hist) && Enabled(s, Inner(f, e), known)
    ensures ReportReturns(s, f, e)
  {
    if e.ReportBegin? { HeldIsPlaced(s.dispatchers, f, e.w); }
    if e.ReportFinish? { ReportsBelong(s.dispatchers, f, e.call); }
  }

  lemma ReportsBelong(ds: Dispatchers, f: nat, c: FuncCall)
    requires DispatchersOk(ds) && f in ds && c in ds[f].hist.reports
    ensures c.funcId == f && Reporting(ds, c)
  {
    assert Healthy(f, ds[f]);
    assert c in ds[f].assignee && c in ds[f].hist.ticket;
  }

  lemma InnerOk(s: State, e: Event, known: set<nat>)
    requires TablesOk(s) && Enabled(s, e, known) && e.Inner? && ReportReturns(s, e.func, e.event)
    ensures TablesOk(Step(s, e, known))
  {
    var d := DispatcherOf(s, e.func);
    InnerEffect(d, e.event);
    InnerKeeps(s.dispatchers, s.hist, e.func, d, R.Step(d, e.event), Begun(d, e.event), Done(e.event));
  }

  lemma ReplyKeeps(ds: Dispatchers, h: History, inputs: map<FuncCall, seq<byte>>, c: FuncCall)
    requires OpenOk(ds, h) && ReturnsOk(ds, h) && InputsOk(inputs, h) && c in h.returning && h.returning[c].Returned?
    ensures
      var h' := h.(open := h.open - {c}, returning := h.returning - {c});
      OpenOk(ds, h') && ReturnsOk(ds, h') && InputsOk(inputs, h')
  {
  }

  lemma ReplyOk(s: State, e: Event, known: set<nat>)
    requires TablesOk(s) && Enabled(s, e, known) && e.Reply?
    ensures TablesOk(Step(s, e, known))
  {
    ReplyKeeps(s.dispatchers, s.hist, s.books.shmInputs, e.call);
    assert (s.hist.open - {e.call}).Keys == s.hist.open.Keys - {e.call};
    if External(e.call) {
      AnswerOnce(s.books, s.hist.open.Keys, s.hist.received, e.call, Verdict(s.hist.returning, e.call) && e.outputFound);
    } else {
      assert s.hist.open.Keys - {e.call} == s.hist.open.Keys;
    }
  }

  lemma {:induction false} NoExternals(calls: seq<FuncCall>)
    requires forall c :: c in calls ==> !External(c)
    ensures ExternalsOf(calls) == []
  {
    if calls != [] { NoExternals(calls[..|calls| - 1]); }
  }

  lemma ProcessOk(s: State, known: set<nat>)
    requires TablesOk(s)
    ensures TablesOk(Step(s, Process, known))
    ensures Step(s, Process, known).books == s.books.(discarded := [])
  {
    NoExternals(s.books.discarded);
  }

  lemma StepKeepsInv(s: State, e: Event, known: set<nat>)
    requires EngineInv(s) && Enabled(s, e, known)
    ensures EngineInv(Step(s, e, known))
  {
    if e.Submit? { assert !Tracked(s.dispatchers, e.call); }
    StepKeepsDispatchers(s, e, known);
    StepKeepsTables(s, e, known);
  }

  lemma StepKeepsTables(s: State, e: Event, known: set<nat>)
    requires EngineInv(s) && Enabled(s, e, known)
    ensures TablesOk(Step(s, e, known))
  {
    match e
    case Receive(_, _, _) => ReceiveOk(s, e, known);
    case Store(_) => StoreOk(s, e, known);
    case Reject(_) => RejectOk(s, e, known);
    case Submit(_, _, _) => SubmitOk(s, e, known);
    case Invoke(_, _, _, _) => InvokeOk(s, e, known);
    case ReportReceived(f, w, success) =>
      HeldIsPlaced(s.dispatchers, f, w);
      ReportReceivedOk(s, f, w, success, known, Holding(s.dispatchers[f].hist.wire)[w]);
    case Inner(f, event) =>
      ReportIsReturning(s, f, event, known);
      InnerOk(s, e, known);
    case Reply(_, _) => ReplyOk(s, e, known);
    case Process => ProcessOk(s, known);
  }

  lemma {:induction false} RunKeepsInv(s: State, events: seq<Event>, known: set<nat>)
    requires EngineInv(s) && Feasible(s, events, known)
    ensures EngineInv(Run(s, events, known))
    decreases |events|
  {
    if events != [] {
      StepKeepsInv(s, events[0], known);
      RunKeepsInv(Step(s, events[0], known), events[1..], known);
    }
  }

  /**
   Over any run: every external call is answered at most once per time it was received and
   at most one receipt of it is unanswered; the counter is received minus answered; the
   stored inputs are exactly those of unanswered calls above the inline size that are stored
   and not yet reported; and no external call is ever on the discard list.
   */
  lemma ExternalCallsAreAccounted(events: seq<Event>, known: set<nat>)
    requires Feasible(Init(), events, known)
    ensures
      var s := Run(Init(), events, known);
      var received, answered := multiset(s.hist.received), AnsweredCalls(s.books.answers);
      && (forall c :: received[c] == answered[c] + if c in s.hist.open then 1 else 0)
      && s.books.inflight == |s.hist.received| - |s.books.answers|
      && (forall c :: c in s.books.shmInputs <==> InputStored(s.hist, c))
      && (forall c :: c in s.books.shmInputs ==> s.books.shmInputs[c] == s.hist.open[c])
      && ExternalsOf(s.books.discarded) == []
  {
    assert EngineInv(Init());
    RunKeepsInv(Init(), events, known);
    var s := Run(Init(), events, known);
    NoExternals(s.books.discarded);
    AnsweredCard(s.books.answers);
    assert |multiset(s.hist.received)| == |s.hist.received|;
    assert |multiset(s.hist.open.Keys)| == |s.hist.open|;
  }

  lemma {:induction false} AnsweredCard(answers: seq<Answer>)
    ensures |AnsweredCalls(answers)| == |answers|
  {
    if answers != [] { AnsweredCard(answers[..|answers| - 1]); }
  }

  // ---- The engine's own tables as an object --------------------------------------------------

  class ExternalCalls {
    var externalFuncCallShmInputs: map<FuncCall, seq<byte>>
    var discardedFuncCalls: seq<FuncCall>
    var inflightExternalRequests: int
    var answers: seq<Answer>

    ghost function View(): Books
      reads this
    {
      Books(externalFuncCallShmInputs, discardedFuncCalls, inflightExternalRequests, answers)
    }

    constructor ()
      ensures View() == Init().books
    {
      externalFuncCallShmInputs, discardedFuncCalls, inflightExternalRequests, answers := map[], [], 0, [];
    }

    /** Answering an open call settles it: what was received is still what was answered plus what is open. */
    method ExternalFuncCallFinished(call: FuncCall, success: bool)
      modifies this
      ensures View() == Answered(old(View()), call, success)
      ensures answers == old(answers) + [Answer(call, success)] && inflightExternalRequests == old(inflightExternalRequests) - 1
      ensures forall open, received :: old(BooksOk(View(), open, received)) && call in open ==>
                BooksOk(View(), open - {call}, received)
    {
      forall open, received | BooksOk(View(), open, received) && call in open
        ensures BooksOk(Answered(View(), call, success), open - {call}, received)
      {
        AnswerOnce(View(), open, received, call, success);
      }
      inflightExternalRequests := inflightExternalRequests - 1;
      answers := answers + [Answer(call, success)];
    }

    method GrabExternalFuncCallShmInput(call: FuncCall) returns (region: Option<seq<byte>>)
      modifies this`externalFuncCallShmInputs
      ensures View() == Grab(old(View()), call)
      ensures region == if call in old(externalFuncCallShmInputs) then Some(old(externalFuncCallShmInputs)[call]) else None
    {
      region := None;
      if call in externalFuncCallShmInputs {
        region := Some(externalFuncCallShmInputs[call]);
      }
      externalFuncCallShmInputs := externalFuncCallShmInputs - {call};
    }

    /** The next processing will fail the call towards the gateway exactly if it is external; books without external discards stay so. */
    method DiscardFuncCall(call: FuncCall)
      modifies this`discardedFuncCalls
      ensures discardedFuncCalls == old(discardedFuncCalls) + [call]
      ensures ExternalsOf(discardedFuncCalls) == old(ExternalsOf(discardedFuncCalls)) + if External(call) then [call] else []
      ensures forall open, received :: old(BooksOk(View(), open, received)) && !External(call) ==> BooksOk(View(), open, received)
    {
      assert (discardedFuncCalls + [call])[..|discardedFuncCalls|] == discardedFuncCalls;
      discardedFuncCalls := discardedFuncCalls + [call];
    }

    /** Returns the discarded calls of workers, which are answered through their FIFOs. */
    method ProcessDiscardedFuncCallIfNecessary() returns (internals: seq<FuncCall>)
      modifies this
      ensures View() == ProcessDiscarded(old(View()))
      ensures multiset(internals) + multiset(ExternalsOf(old(discardedFuncCalls))) == multiset(old(discardedFuncCalls))
      ensures forall c :: c in internals ==> !External(c)
    {
      var externals;
      SplitIsExact(discardedFuncCalls);
      internals, externals := SplitDiscarded();
      discardedFuncCalls := [];
      FailExternals(externals);
    }

    /** The first loop: discarded external calls give up their shared memory input. */
    method SplitDiscarded() returns (internals: seq<FuncCall>, externals: seq<FuncCall>)
      modifies this`externalFuncCallShmInputs
      ensures internals == InternalsOf(discardedFuncCalls) && externals == ExternalsOf(discardedFuncCalls)
      ensures View() == GrabAll(old(View()), externals)
    {
      ghost var b0, calls := View(), discardedFuncCalls;
      internals, externals := [], [];
      var i := 0;
      while i < |discardedFuncCalls|
        invariant i <= |calls| && discardedFuncCalls == calls
        invariant internals == InternalsOf(calls[..i]) && externals == ExternalsOf(calls[..i])
        invariant View() == GrabAll(b0, externals)
      {
        var call := discardedFuncCalls[i];
        assert calls[..i + 1][..i] == calls[..i] && calls[..i + 1][i] == call;
        if External(call) {
          var shmInput := GrabExternalFuncCallShmInput(call);
          assert (externals + [call])[..|externals|] == externals;
          externals := externals + [call];
        } else {
          internals := internals + [call];
        }
        i := i + 1;
      }
      assert calls[..i] == calls;
    }

    /** The second loop: each of them is answered as failed. */
    method FailExternals(externals: seq<FuncCall>)
      modifies this
      ensures View() == FailAll(old(View()), externals)
    {
      ghost var b1 := View();
      var i := 0;
      while i < |externals|
        invariant i <= |externals|
        invariant View() == FailAll(b1, externals[..i])
      {
        assert externals[..i + 1][..i] == externals[..i];
        ExternalFuncCallFinished(externals[i], false);
        i := i + 1;
      }
      assert externals[..i] == externals;
    }

    /** `OnExternalFuncCall` until its input region exists: one more external call is open. */
    method CountExternalFuncCall()
      modifies this`inflightExternalRequests
      ensures View() == old(View()).(inflight := old(inflightExternalRequests) + 1)
      ensures forall open, received, call :: old(BooksOk(View(), open, received)) && call !in open ==>
                BooksOk(View(), open + {call}, received + [call])
    {
      forall open, received, call | BooksOk(View(), open, received) && call !in open
        ensures BooksOk(View().(inflight := View().inflight + 1), open + {call}, received + [call])
      {
        ReceiveOnce(View(), open, received, call);
      }
      inflightExternalRequests := inflightExternalRequests + 1;
    }

    method StoreShmInput(call: FuncCall, data: seq<byte>)
      modifies this`externalFuncCallShmInputs
      ensures View() == old(View()).(shmInputs := old(externalFuncCallShmInputs)[call := data])
      ensures Grab(View(), call) == Grab(old(View()), call)
    {
      externalFuncCallShmInputs := externalFuncCallShmInputs[call := data];
      assert externalFuncCallShmInputs - {call} == old(externalFuncCallShmInputs) - {call};
    }
  }

  // ---- The object driven through whole runs ---------------------------------------------------

  /** One engine event on the object: its books become those of the step. */
  method Apply(calls: ExternalCalls, s: State, e: Event, known: set<nat>)
    requires calls.View() == s.books
    modifies calls
    ensures calls.View() == Step(s, e, known).books
  {
    match e {
      case Receive(call, data, shmCreated) =>
        calls.CountExternalFuncCall();
        if ShmNeeded(data) && !shmCreated { calls.ExternalFuncCallFinished(call, false); }
      case Store(call) =>
        if call in s.hist.open && call.funcId in known && ShmNeeded(s.hist.open[call]) {
          calls.StoreShmInput(call, s.hist.open[call]);
        }
      case Reject(call) => calls.ExternalFuncCallFinished(call, false);
      case Submit(_, _, _) =>
      case Invoke(_, _, _, _) =>
      case ReportReceived(func, w, _) =>
        var held := Holding(DispatcherOf(s, func).hist.wire);
        if w in held && External(held[w]) { var region := calls.GrabExternalFuncCallShmInput(held[w]); }
      case Inner(func, event) =>
        var d := DispatcherOf(s, func);
        if Employs(d, event) { DiscardAll(calls, DiscardedBy(d, event.policy)); }
      case Reply(call, outputFound) =>
        if External(call) { calls.ExternalFuncCallFinished(call, Verdict(s.hist.returning, call) && outputFound); }
      case Process => var internals := calls.ProcessDiscardedFuncCallIfNecessary();
    }
  }

  method DiscardAll(calls: ExternalCalls, discarded: seq<FuncCall>)
    modifies calls
    ensures calls.View() == old(calls.View()).(discarded := old(calls.discardedFuncCalls) + discarded)
    decreases |discarded|
  {
    if discarded != [] {
      calls.DiscardFuncCall(discarded[0]);
      DiscardAll(calls, discarded[1..]);
      assert discarded == [discarded[0]] + discarded[1..];
    }
  }

  method Drive(calls: ExternalCalls, s: State, events: seq<Event>, known: set<nat>)
    requires calls.View() == s.books
    modifies calls
    ensures calls.View() == Run(s, events, known).books
    decreases |events|
  {
    if events != [] {
      Apply(calls, s, events[0], known);
      Drive(calls, Step(s, events[0], known), events[1..], known);
    }
  }

  /** A new object driven through any feasible run of the engine ends with the books of that run, which are balanced. */
  method Replay(events: seq<Event>, known: set<nat>) returns (calls: ExternalCalls)
    requires Feasible(Init(), events, known)
    ensures calls.View() == Run(Init(), events, known).books
    ensures calls.inflightExternalRequests == |Run(Init(), events, known).hist.received| - |calls.answers|
    ensures ExternalsOf(calls.discardedFuncCalls) == []
  {
    ExternalCallsAreAccounted(events, known);
    calls := new ExternalCalls();
    Drive(calls, Init(), events, known);
  }
}
