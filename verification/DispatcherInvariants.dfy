/** What every reachable state of a dispatcher satisfies, and why each step keeps it. */
module DispatcherInvariants {
  import opened Collections
  import opened Bytes
  import opened Protocol
  import opened Dispatcher

  // ---- The invariant, table by table ----------------------------------------------------

  /**
   Worker bookkeeping. `hand` are connected workers that an operation holds between taking
   them out of `running` or `idle` and putting them back; it is empty between operations.
   */
  ghost predicate WorkersOk(workers: set<ClientId>, running: map<ClientId, FuncCall>, idle: seq<ClientId>,
                            seen: set<ClientId>, hand: set<ClientId>)
  {
    && workers <= seen && running.Keys <= seen && hand <= workers
    && NoDup(idle)
    && (forall w :: w in idle ==> w in seen && w !in running && w !in hand)
    && (forall w :: w in hand ==> w !in running)
    && (forall w :: w in workers && w !in running && w !in hand ==> w in idle)
  }

  /** The call each worker process is executing, read off the wire. */
  function Holding(wire: seq<Wire>): map<ClientId, FuncCall> {
    if wire == [] then map[]
    else
      var before := Holding(wire[..|wire| - 1]);
      match wire[|wire| - 1]
      case Send(w, m) => before[w := m.call]
      case Report(w, c) => before - {w}
  }

  /** No worker is sent a call while it holds one, and workers report only what they hold. */
  predicate WireOk(wire: seq<Wire>) {
    wire == []
    || (WireOk(wire[..|wire| - 1])
        && var before := Holding(wire[..|wire| - 1]);
           match wire[|wire| - 1]
           case Send(w, m) => w !in before
           case Report(w, c) => w in before && before[w] == c)
  }

  /** Assignments, running workers and what the worker processes hold agree. */
  ghost predicate AssignOk(workers: set<ClientId>, running: map<ClientId, FuncCall>, assignee: map<FuncCall, ClientId>,
                           held: map<ClientId, FuncCall>, reports: map<FuncCall, Stage>)
  {
    && (forall c :: c in assignee ==> assignee[c] in running && running[assignee[c]] == c)
    && (forall w :: w in workers && w in running ==> running[w] in assignee && assignee[running[w]] == w)
    && (forall w :: w in held ==> held[w] in assignee && assignee[held[w]] == w && held[w] !in reports)
    && (forall c :: c in assignee && c !in reports ==> assignee[c] in held && held[assignee[c]] == c)
    && reports.Keys <= assignee.Keys
  }

  function Infos(q: seq<PendingCall>): set<InfoRef> { set p | p in q :: p.info }

  /** The waiting calls and their arrival numbers; `loose` is a call an operation has in its hands. */
  ghost predicate QueueOk(pending: seq<PendingCall>, loose: Option<PendingCall>, assignee: map<FuncCall, ClientId>,
                          ticket: map<FuncCall, InfoRef>, built: seq<Message>)
  {
    && (forall i, j :: 0 <= i < j < |pending| ==> pending[i].info < pending[j].info)
    && (forall p :: p in pending ==> Waits(p, assignee, ticket, built))
    && (loose.Some? ==> Waits(loose.value, assignee, ticket, built) && loose.value.info !in Infos(pending))
    && assignee.Keys <= ticket.Keys
    && (forall c :: c in ticket ==> ticket[c] < |built| && built[ticket[c]].call == c)
    && (forall c :: c in ticket && c !in assignee ==>
          ticket[c] in Infos(pending) || (loose.Some? && ticket[c] == loose.value.info))
  }

  ghost predicate Waits(p: PendingCall, assignee: map<FuncCall, ClientId>, ticket: map<FuncCall, InfoRef>, built: seq<Message>)
  {
    && p.info < |built|
    && built[p.info].call in ticket && ticket[built[p.info].call] == p.info
    && built[p.info].call !in assignee
  }

  predicate Live(i: InfoRef, ticket: map<FuncCall, InfoRef>, built: seq<Message>)
    requires i < |built|
  {
    built[i].call in ticket && ticket[built[i].call] == i
  }

  /** Every arrival is live, finished or discarded, and only one of them; what was sent is what is assigned or finished. */
  ghost predicate LedgerOk(h: History, assignee: map<FuncCall, ClientId>) {
    && (forall i :: i in h.finished || i in h.discarded || i in h.sent ==> i < |h.built|)
    && h.finished !! h.discarded
    && (forall i :: 0 <= i < |h.built| ==>
          (Live(i, h.ticket, h.built) <==> i !in h.finished && i !in h.discarded))
    && NoDup(h.sent)
    && (forall i :: 0 <= i < |h.built| ==>
          (i in h.sent <==> i in h.finished || (Live(i, h.ticket, h.built) && h.built[i].call in assignee)))
  }

  /** The messages sent so far, in order. */
  function SentMessages(wire: seq<Wire>): seq<Message> {
    if wire == [] then []
    else
      var before := SentMessages(wire[..|wire| - 1]);
      match wire[|wire| - 1]
      case Send(w, m) => before + [m]
      case Report(w, c) => before
  }

  /** Dispatch `k` sent exactly the message that was built for arrival `sent[k]`. */
  ghost predicate WireContentsOk(h: History) {
    && |SentMessages(h.wire)| == |h.sent|
    && (forall k :: 0 <= k < |h.sent| ==> h.sent[k] < |h.built| && SentMessages(h.wire)[k] == h.built[h.sent[k]])
  }

  ghost predicate TracerOk(t: Tracer, h: History, assignee: map<FuncCall, ClientId>) {
    && TableOk(t, h.ticket, h.reports, h.built)
    && StatesOk(t.pool, h.ticket, h.reports, assignee)
    && CountsOk(t.inflight, h)
  }

  /** The tracer's table holds the live calls that are not past the second section of a report. */
  ghost predicate TableOk(t: Tracer, ticket: map<FuncCall, InfoRef>, reports: map<FuncCall, Stage>, built: seq<Message>) {
    && |t.pool| == |built|
    && (forall i :: 0 <= i < |t.pool| ==> t.pool[i].call == built[i].call)
    && (forall c :: c in t.infos <==> c in ticket && (c in reports ==> reports[c].Counted?))
    && (forall c :: c in t.infos ==> t.infos[c] == ticket[c])
  }

  ghost predicate StatesOk(pool: seq<CallInfo>, ticket: map<FuncCall, InfoRef>, reports: map<FuncCall, Stage>,
                           assignee: map<FuncCall, ClientId>)
  {
    forall c :: c in ticket && ticket[c] < |pool| ==> StateOk(pool[ticket[c]], c, reports, assignee)
  }

  /** The in-flight counter is what was accepted minus what was reported; discarded calls stay in it. */
  ghost predicate CountsOk(inflight: int, h: History) {
    && inflight == |h.built| - |h.finished| - |h.reports|
    && |h.built| == |h.ticket| + |h.finished| + |h.discarded|
  }

  ghost predicate StateOk(info: CallInfo, c: FuncCall, reports: map<FuncCall, Stage>, assignee: map<FuncCall, ClientId>) {
    if c in reports then info.state == if reports[c].success then Completed else Failed
    else if c in assignee then info.state.Dispatched? && info.worker == assignee[c]
    else info.state.Received?
  }

  /** The pool's outstanding messages are exactly those of the waiting calls, each with its own contents. */
  ghost predicate PoolOk(pool: Pool, pending: seq<PendingCall>, loose: Option<PendingCall>, built: seq<Message>) {
    && NoDup(pool.free)
    && (forall r :: r in pool.free ==> r < |pool.cells|)
    && (forall i, j :: 0 <= i < j < |pending| ==> pending[i].message != pending[j].message)
    && (forall p :: p in pending ==> Stored(p, pool, built))
    && (loose.Some? ==> Stored(loose.value, pool, built) && forall p :: p in pending ==> p.message != loose.value.message)
    && (forall r :: 0 <= r < |pool.cells| && r !in pool.free ==>
          r in Refs(pending) || (loose.Some? && r == loose.value.message))
  }

  function Refs(q: seq<PendingCall>): set<MessageRef> { set p | p in q :: p.message }

  ghost predicate Stored(p: PendingCall, pool: Pool, built: seq<Message>) {
    && p.message < |pool.cells| && p.message !in pool.free
    && p.info < |built| && pool.cells[p.message] == built[p.info]
  }

  /** The invariant inside an operation that has `hand` and `loose` in its hands. */
  ghost predicate Inside(s: State, hand: set<ClientId>, loose: Option<PendingCall>) {
    && WorkersOk(s.workers, s.running, s.idle, s.hist.seen, hand)
    && WireOk(s.hist.wire)
    && AssignOk(s.workers, s.running, s.assignee, Holding(s.hist.wire), s.hist.reports)
    && QueueOk(s.pending, loose, s.assignee, s.hist.ticket, s.hist.built)
    && LedgerOk(s.hist, s.assignee)
    && WireContentsOk(s.hist)
    && TracerOk(s.tracer, s.hist, s.assignee)
    && PoolOk(s.pool, s.pending, loose, s.hist.built)
  }

  ghost predicate Inv(s: State) { Inside(s, {}, None) }

  lemma InitInv()
    ensures Inv(Init())
  {
  }

  // ---- Taking a pooled message ----------------------------------------------------------

  lemma PoolGetOk(pool: Pool, pending: seq<PendingCall>, built: seq<Message>, m: Message)
    requires PoolOk(pool, pending, None, built)
    ensures
      var (pool', r) := PoolGet(pool);
      PoolOk(PoolWrite(pool', r, m), pending, Some(PendingCall(r, |built|)), built + [m])
  {
    var (p1, r) := PoolGet(pool);
    var p2 := PoolWrite(p1, r, m);
    if pool.free != [] { assert r in pool.free && forall x :: x in p1.free ==> x in pool.free; }
    forall p | p in pending
      ensures Stored(p, p2, built + [m]) && p.message != r
    {
      assert Stored(p, pool, built);
    }
  }

  lemma PoolReturnOk(pool: Pool, pending: seq<PendingCall>, p: PendingCall, built: seq<Message>)
    requires PoolOk(pool, pending, Some(p), built)
    ensures PoolOk(PoolReturn(pool, p.message), pending, None, built)
  {
    forall q | q in pending
      ensures Stored(q, PoolReturn(pool, p.message), built)
    {
      assert Stored(q, pool, built);
    }
  }

  lemma TakeFirstPool(pool: Pool, pending: seq<PendingCall>, built: seq<Message>)
    requires pending != [] && PoolOk(pool, pending, None, built)
    ensures PoolOk(pool, pending[1..], Some(pending[0]), built)
  {
    forall r | 0 <= r < |pool.cells| && r !in pool.free
      ensures r in Refs(pending[1..]) || r == pending[0].message
    {
      var p :| p in pending && p.message == r;
      assert p == pending[0] || p in pending[1..];
    }
    assert forall p :: p in pending[1..] ==> p in pending;
  }

  lemma EnqueuePool(pool: Pool, pending: seq<PendingCall>, p: PendingCall, built: seq<Message>)
    requires PoolOk(pool, pending, Some(p), built)
    ensures PoolOk(pool, pending + [p], None, built)
  {
    forall r | 0 <= r < |pool.cells| && r !in pool.free
      ensures r in Refs(pending + [p])
    {
      if r == p.message { assert p in pending + [p]; } else { var q :| q in pending && q.message == r; assert q in pending + [p]; }
    }
  }

  // ---- Accepting a call -----------------------------------------------------------------

  lemma AcceptQueue(pending: seq<PendingCall>, assignee: map<FuncCall, ClientId>, ticket: map<FuncCall, InfoRef>,
                    built: seq<Message>, r: MessageRef, m: Message)
    requires QueueOk(pending, None, assignee, ticket, built) && m.call !in ticket
    ensures QueueOk(pending, Some(PendingCall(r, |built|)), assignee, ticket[m.call := |built|], built + [m])
  {
    forall p | p in pending
      ensures Waits(p, assignee, ticket[m.call := |built|], built + [m]) && p.info != |built|
    {
      assert Waits(p, assignee, ticket, built);
    }
  }

  lemma AcceptLedger(h: History, assignee: map<FuncCall, ClientId>, m: Message)
    requires LedgerOk(h, assignee) && m.call !in h.ticket && assignee.Keys <= h.ticket.Keys
    requires forall c :: c in h.ticket ==> h.ticket[c] < |h.built|
    ensures LedgerOk(h.(ticket := h.ticket[m.call := |h.built|], built := h.built + [m]), assignee)
  {
    var h' := h.(ticket := h.ticket[m.call := |h.built|], built := h.built + [m]);
    forall i | 0 <= i < |h'.built|
      ensures Live(i, h'.ticket, h'.built) <==> i == |h.built| || Live(i, h.ticket, h.built)
    {
      assert h'.built[i] == if i < |h.built| then h.built[i] else m;
    }
  }

  lemma AcceptTable(t: Tracer, ticket: map<FuncCall, InfoRef>, reports: map<FuncCall, Stage>, built: seq<Message>, m: Message, now: int)
    requires TableOk(t, ticket, reports, built) && m.call !in ticket && m.call !in reports
    ensures TraceNew(t, m.call, now).1 == Some(|built|)
    ensures TableOk(TraceNew(t, m.call, now).0, ticket[m.call := |built|], reports, built + [m])
    ensures TraceNew(t, m.call, now).0.pool == t.pool + [CallInfo(m.call, now, Received, 0)]
    ensures TraceNew(t, m.call, now).0.inflight == t.inflight + 1 && |t.pool| == |built|
  {
  }

  lemma AcceptCounts(inflight: int, h: History, m: Message)
    requires CountsOk(inflight, h) && m.call !in h.ticket
    ensures CountsOk(inflight + 1, h.(ticket := h.ticket[m.call := |h.built|], built := h.built + [m]))
  {
    var ticket := h.ticket[m.call := |h.built|];
    assert ticket.Keys == h.ticket.Keys + {m.call};
    assert |ticket| == |ticket.Keys| && |h.ticket| == |h.ticket.Keys|;
  }

  lemma AcceptStates(pool: seq<CallInfo>, ticket: map<FuncCall, InfoRef>, reports: map<FuncCall, Stage>,
                     assignee: map<FuncCall, ClientId>, call: FuncCall, info: CallInfo)
    requires StatesOk(pool, ticket, reports, assignee) && StateOk(info, call, reports, assignee)
    requires forall c :: c in ticket ==> ticket[c] < |pool|
    ensures StatesOk(pool + [info], ticket[call := |pool|], reports, assignee)
  {
  }

  lemma AcceptTracer(t: Tracer, h: History, assignee: map<FuncCall, ClientId>, m: Message, now: int)
    requires TracerOk(t, h, assignee) && m.call !in h.ticket && assignee.Keys <= h.ticket.Keys
    requires h.reports.Keys <= assignee.Keys
    requires forall c :: c in h.ticket ==> h.ticket[c] < |h.built|
    ensures
      var h' := h.(ticket := h.ticket[m.call := |h.built|], built := h.built + [m]);
      var (t', i) := TraceNew(t, m.call, now);
      i == Some(|h.built|) && TracerOk(t', h', assignee)
  {
    AcceptCounts(t.inflight, h, m);
    AcceptTable(t, h.ticket, h.reports, h.built, m, now);
    AcceptStates(t.pool, h.ticket, h.reports, assignee, m.call, CallInfo(m.call, now, Received, 0));
  }

  /** The state after `Accept` when the tracer gave the call the next arrival number. */
  lemma AcceptShape(s: State, call: FuncCall, input: Input, now: int)
    requires TraceNew(s.tracer, call, now).1 == Some(|s.hist.built|)
    ensures
      var m, n, (pool, r) := BuildMessage(call, input), |s.hist.built|, PoolGet(s.pool);
      && m.call == call
      && Accept(s, call, input, now)
         == (s.(pool := PoolWrite(pool, r, m), tracer := TraceNew(s.tracer, call, now).0,
                hist := s.hist.(ticket := s.hist.ticket[m.call := n], built := s.hist.built + [m])),
             PendingCall(r, n))
  {
  }

  lemma AcceptOk(s: State, call: FuncCall, input: Input, now: int)
    requires Inv(s) && call !in s.hist.ticket
    ensures
      var (s', p) := Accept(s, call, input, now);
      && Inside(s', {}, Some(p))
      && p.info == |s.hist.built|
      && s'.hist.built == s.hist.built + [BuildMessage(call, input)]
  {
    var m := BuildMessage(call, input);
    assert m.call == call;
    var (pool, r) := PoolGet(s.pool);
    AcceptTracer(s.tracer, s.hist, s.assignee, m, now);
    AcceptShape(s, call, input, now);
    PoolGetOk(s.pool, s.pending, s.hist.built, m);
    AcceptQueue(s.pending, s.assignee, s.hist.ticket, s.hist.built, r, m);
    AcceptLedger(s.hist, s.assignee, m);
  }

  lemma EnqueueQueue(pending: seq<PendingCall>, p: PendingCall, assignee: map<FuncCall, ClientId>,
                     ticket: map<FuncCall, InfoRef>, built: seq<Message>)
    requires QueueOk(pending, Some(p), assignee, ticket, built)
    requires forall q :: q in pending ==> q.info < p.info
    ensures QueueOk(pending + [p], None, assignee, ticket, built)
  {
    var q := pending + [p];
    assert Infos(q) == Infos(pending) + {p.info} by {
      assert p in q && forall x :: x in pending ==> x in q;
    }
  }

  lemma EnqueueOk(s: State, hand: set<ClientId>, p: PendingCall)
    requires Inside(s, hand, Some(p))
    requires forall q :: q in s.pending ==> q.info < p.info
    ensures Inside(Enqueue(s, p), hand, None)
  {
    EnqueuePool(s.pool, s.pending, p, s.hist.built);
    EnqueueQueue(s.pending, p, s.assignee, s.hist.ticket, s.hist.built);
  }

  lemma FirstInfo(pending: seq<PendingCall>)
    requires pending != []
    ensures Infos(pending) == Infos(pending[1..]) + {pending[0].info}
  {
    assert forall q :: q in pending <==> q == pending[0] || q in pending[1..];
  }

  lemma TakeFirstQueue(pending: seq<PendingCall>, assignee: map<FuncCall, ClientId>,
                       ticket: map<FuncCall, InfoRef>, built: seq<Message>)
    requires QueueOk(pending, None, assignee, ticket, built) && pending != []
    ensures QueueOk(pending[1..], Some(pending[0]), assignee, ticket, built)
  {
    FirstInfo(pending);
    assert pending[0] in pending && forall q :: q in pending[1..] ==> q in pending;
    assert pending[0].info !in Infos(pending[1..]) by { LaterInfos(pending); }
  }

  lemma LaterInfos(pending: seq<PendingCall>)
    requires pending != [] && forall i, j :: 0 <= i < j < |pending| ==> pending[i].info < pending[j].info
    ensures forall i :: i in Infos(pending[1..]) ==> pending[0].info < i
  {
  }

  lemma TakeFirstOk(s: State, hand: set<ClientId>)
    requires Inside(s, hand, None) && s.pending != []
    ensures Inside(TakeFirst(s), hand, Some(s.pending[0]))
  {
    TakeFirstPool(s.pool, s.pending, s.hist.built);
    TakeFirstQueue(s.pending, s.assignee, s.hist.ticket, s.hist.built);
  }

  // ---- Sending and discarding -----------------------------------------------------------

  lemma WireSend(wire: seq<Wire>, w: ClientId, m: Message)
    ensures Holding(wire + [Send(w, m)]) == Holding(wire)[w := m.call]
    ensures WireOk(wire + [Send(w, m)]) <==> WireOk(wire) && w !in Holding(wire)
    ensures SentMessages(wire + [Send(w, m)]) == SentMessages(wire) + [m]
  {
    assert (wire + [Send(w, m)])[..|wire|] == wire;
  }

  lemma WireReport(wire: seq<Wire>, w: ClientId, c: FuncCall)
    ensures Holding(wire + [Report(w, c)]) == Holding(wire) - {w}
    ensures WireOk(wire + [Report(w, c)]) <==> WireOk(wire) && w in Holding(wire) && Holding(wire)[w] == c
    ensures SentMessages(wire + [Report(w, c)]) == SentMessages(wire)
  {
    assert (wire + [Report(w, c)])[..|wire|] == wire;
  }

  lemma DispatchAssign(workers: set<ClientId>, running: map<ClientId, FuncCall>, assignee: map<FuncCall, ClientId>,
                       held: map<ClientId, FuncCall>, reports: map<FuncCall, Stage>, w: ClientId, c: FuncCall)
    requires AssignOk(workers, running, assignee, held, reports)
    requires w !in running && c !in assignee
    ensures w !in held
    ensures AssignOk(workers, running[w := c], assignee[c := w], held[w := c], reports)
  {
  }

  lemma DispatchLedger(h: History, assignee: map<FuncCall, ClientId>, w: ClientId, i: InfoRef)
    requires LedgerOk(h, assignee)
    requires i < |h.built| && Live(i, h.ticket, h.built) && h.built[i].call !in assignee
    ensures LedgerOk(h.(wire := h.wire + [Send(w, h.built[i])], sent := h.sent + [i]), assignee[h.built[i].call := w])
  {
    forall j | 0 <= j < |h.built|
      ensures j in h.sent + [i] <==> j in h.sent || j == i
    {
    }
  }

  lemma DispatchTracer(t: Tracer, h: History, assignee: map<FuncCall, ClientId>, w: ClientId, i: InfoRef)
    requires TracerOk(t, h, assignee)
    requires i < |h.built| && Live(i, h.ticket, h.built)
    requires h.built[i].call !in assignee && h.built[i].call !in h.reports
    requires forall c :: c in h.ticket ==> h.ticket[c] < |h.built| && h.built[h.ticket[c]].call == c
    ensures
      var m := h.built[i];
      TracerOk(TraceDispatched(t, m.call, w), h.(wire := h.wire + [Send(w, m)], sent := h.sent + [i]), assignee[m.call := w])
  {
    var m := h.built[i];
    var t', assignee' := TraceDispatched(t, m.call, w), assignee[m.call := w];
    assert t'.pool == t.pool[i := t.pool[i].(state := Dispatched, worker := w)];
    forall c | c in h.ticket && h.ticket[c] < |t'.pool|
      ensures StateOk(t'.pool[h.ticket[c]], c, h.reports, assignee')
    {
      assert StateOk(t.pool[h.ticket[c]], c, h.reports, assignee);
      if h.ticket[c] == i { assert c == m.call; }
    }
  }

  lemma DispatchQueue(pending: seq<PendingCall>, p: PendingCall, assignee: map<FuncCall, ClientId>,
                      ticket: map<FuncCall, InfoRef>, built: seq<Message>, w: ClientId)
    requires QueueOk(pending, Some(p), assignee, ticket, built)
    ensures QueueOk(pending, None, assignee[built[p.info].call := w], ticket, built)
  {
    forall q | q in pending
      ensures Waits(q, assignee[built[p.info].call := w], ticket, built)
    {
      assert Waits(q, assignee, ticket, built) && q.info in Infos(pending);
    }
  }

  lemma DispatchWireContents(h: History, w: ClientId, i: InfoRef)
    requires WireContentsOk(h) && i < |h.built|
    ensures WireContentsOk(h.(wire := h.wire + [Send(w, h.built[i])], sent := h.sent + [i]))
  {
    WireSend(h.wire, w, h.built[i]);
  }

  lemma DispatchOk(s: State, w: ClientId, p: PendingCall)
    requires Inside(s, {w}, Some(p))
    ensures Inside(Dispatch(s, w, p), {}, None)
  {
    var m := s.hist.built[p.info];
    assert PoolRead(s.pool, p.message) == m;
    DispatchWireContents(s.hist, w, p.info);
    WireSend(s.hist.wire, w, m);
    DispatchAssign(s.workers, s.running, s.assignee, Holding(s.hist.wire), s.hist.reports, w, m.call);
    PoolReturnOk(s.pool, s.pending, p, s.hist.built);
    DispatchQueue(s.pending, p, s.assignee, s.hist.ticket, s.hist.built, w);
    DispatchLedger(s.hist, s.assignee, w, p.info);
    DispatchTracer(s.tracer, s.hist, s.assignee, w, p.info);
  }

  lemma DiscardQueue(pending: seq<PendingCall>, p: PendingCall, assignee: map<FuncCall, ClientId>,
                     ticket: map<FuncCall, InfoRef>, built: seq<Message>)
    requires QueueOk(pending, Some(p), assignee, ticket, built)
    ensures QueueOk(pending, None, assignee, ticket - {built[p.info].call}, built)
  {
    forall q | q in pending
      ensures Waits(q, assignee, ticket - {built[p.info].call}, built)
    {
      assert Waits(q, assignee, ticket, built) && q.info in Infos(pending);
    }
  }

  lemma DiscardLedger(h: History, assignee: map<FuncCall, ClientId>, i: InfoRef)
    requires LedgerOk(h, assignee)
    requires i < |h.built| && Live(i, h.ticket, h.built) && h.built[i].call !in assignee
    ensures LedgerOk(h.(ticket := h.ticket - {h.built[i].call}, discarded := h.discarded + {i}), assignee)
  {
    var ticket' := h.ticket - {h.built[i].call};
    forall j | 0 <= j < |h.built|
      ensures Live(j, ticket', h.built) <==> Live(j, h.ticket, h.built) && j != i
    {
    }
  }

  lemma DiscardTracer(t: Tracer, h: History, assignee: map<FuncCall, ClientId>, i: InfoRef)
    requires TracerOk(t, h, assignee)
    requires i < |h.built| && Live(i, h.ticket, h.built) && i !in h.discarded && h.built[i].call !in h.reports
    ensures
      var c := h.built[i].call;
      TracerOk(TraceErase(t, c), h.(ticket := h.ticket - {c}, discarded := h.discarded + {i}), assignee)
  {
    assert (h.ticket - {h.built[i].call}).Keys == h.ticket.Keys - {h.built[i].call};
  }

  lemma DiscardOk(s: State, hand: set<ClientId>, p: PendingCall)
    requires Inside(s, hand, Some(p))
    ensures Inside(Discard(s, p), hand, None)
  {
    assert PoolRead(s.pool, p.message) == s.hist.built[p.info];
    PoolReturnOk(s.pool, s.pending, p, s.hist.built);
    DiscardQueue(s.pending, p, s.assignee, s.hist.ticket, s.hist.built);
    DiscardLedger(s.hist, s.assignee, p.info);
    DiscardTracer(s.tracer, s.hist, s.assignee, p.info);
  }

  // ---- Workers come, go, and take pending calls -----------------------------------------

  lemma {:induction false} PickIdleOk(workers: set<ClientId>, running: map<ClientId, FuncCall>, idle: seq<ClientId>, seen: set<ClientId>)
    requires WorkersOk(workers, running, idle, seen, {})
    ensures
      var (rest, w) := PickIdle(idle, workers, running);
      && WorkersOk(workers, running, rest, seen, if w.Some? then {w.value} else {})
      && (w.None? ==> rest == [])
  {
    if idle != [] {
      var rest, w := idle[..|idle| - 1], idle[|idle| - 1];
      assert forall x :: x in idle <==> x in rest || x == w;
      if !(w in workers && w !in running) {
        PickIdleOk(workers, running, rest, seen);
      }
    }
  }

  lemma PickIdleWorkerOk(s: State, loose: Option<PendingCall>, limit: nat)
    requires Inside(s, {}, loose)
    ensures
      var (s', w) := PickIdleWorker(s, limit);
      Inside(s', if w.Some? then {w.value} else {}, loose)
  {
    PickIdleOk(s.workers, s.running, s.idle, s.hist.seen);
  }

  lemma BecomeIdleOk(s: State, w: ClientId)
    requires Inside(s, {w}, None)
    ensures Inv(s.(idle := s.idle + [w]))
  {
  }

  lemma {:induction false} DispatchPendingOk(s: State, w: ClientId, policy: Policy)
    requires Inside(s, {w}, None)
    ensures
      var (s', done) := DispatchPending(s, w, policy);
      && Inside(s', if done then {} else {w}, None)
      && (!done ==> s'.pending == [])
    decreases |s.pending|
  {
    if s.pending != [] {
      var p := s.pending[0];
      var s' := TakeFirst(s);
      TakeFirstOk(s, {w});
      if Keep(s', p, policy) {
        DispatchOk(s', w, p);
      } else {
        DiscardOk(s', {w}, p);
        DispatchPendingOk(Discard(s', p), w, policy);
      }
    }
  }

  lemma EmployOk(s: State, w: ClientId, policy: Policy)
    requires Inside(s, {w}, None)
    ensures Inv(Employ(s, w, policy))
  {
    DispatchPendingOk(s, w, policy);
    var (s', done) := DispatchPending(s, w, policy);
    if !done { BecomeIdleOk(s', w); }
  }

  lemma OnConnectedOk(s: State, w: ClientId, policy: Policy)
    requires Inv(s) && w !in s.hist.seen
    ensures Inv(OnConnected(s, w, policy))
  {
    var s' := s.(workers := s.workers + {w}, hist := s.hist.(seen := s.hist.seen + {w}));
    assert Inside(s', {w}, None);
    EmployOk(s', w, policy);
  }

  lemma OnDisconnectedOk(s: State, w: ClientId)
    requires Inv(s)
    ensures Inv(OnDisconnected(s, w))
  {
  }

  lemma OnNewCallOk(s: State, call: FuncCall, input: Input, now: int, limit: nat)
    requires Inv(s) && call !in s.hist.ticket
    ensures Inv(OnNewCall(s, call, input, now, limit))
    ensures OnNewCall(s, call, input, now, limit).hist.built == s.hist.built + [BuildMessage(call, input)]
  {
    AcceptOk(s, call, input, now);
    var (s1, p) := Accept(s, call, input, now);
    PickIdleWorkerOk(s1, Some(p), limit);
    var (s2, w) := PickIdleWorker(s1, limit);
    if w.Some? {
      DispatchOk(s2, w.value, p);
    } else {
      forall q | q in s2.pending
        ensures q.info < p.info
      {
        assert Waits(q, s.assignee, s.hist.ticket, s.hist.built);
      }
      EnqueueOk(s2, {}, p);
    }
  }

  // ---- Reports --------------------------------------------------------------------------

  lemma ReportAssign(workers: set<ClientId>, running: map<ClientId, FuncCall>, assignee: map<FuncCall, ClientId>,
                     held: map<ClientId, FuncCall>, reports: map<FuncCall, Stage>, w: ClientId, success: bool)
    requires AssignOk(workers, running, assignee, held, reports) && w in held
    ensures AssignOk(workers, running, assignee, held - {w}, reports[held[w] := Counted(success)])
  {
  }

  /** The negative clamp of the tracer's counter does not fire for a call that a worker holds. */
  lemma InflightPositive(t: Tracer, h: History, assignee: map<FuncCall, ClientId>, c: FuncCall)
    requires TracerOk(t, h, assignee) && h.reports.Keys <= h.ticket.Keys && c in h.ticket && c !in h.reports
    ensures t.inflight >= 1 && Decremented(t.inflight) == t.inflight - 1
  {
    SubsetCard(h.reports.Keys, h.ticket.Keys);
  }

  lemma ReportTable(t: Tracer, ticket: map<FuncCall, InfoRef>, reports: map<FuncCall, Stage>, built: seq<Message>, c: FuncCall, success: bool)
    requires TableOk(t, ticket, reports, built) && c in ticket && c !in reports && ticket[c] < |built|
    ensures TableOk(TraceFinished(t, c, success), ticket, reports[c := Counted(success)], built)
    ensures TraceFinished(t, c, success).pool == t.pool[ticket[c] := t.pool[ticket[c]].(state := if success then Completed else Failed)]
    ensures TraceFinished(t, c, success).inflight == Decremented(t.inflight)
  {
  }

  lemma ReportStates(pool: seq<CallInfo>, ticket: map<FuncCall, InfoRef>, reports: map<FuncCall, Stage>,
                     assignee: map<FuncCall, ClientId>, c: FuncCall, info: CallInfo, success: bool)
    requires StatesOk(pool, ticket, reports, assignee) && c in ticket && ticket[c] < |pool|
    requires info.state == if success then Completed else Failed
    requires forall d :: d in ticket && ticket[d] == ticket[c] ==> d == c
    ensures StatesOk(pool[ticket[c] := info], ticket, reports[c := Counted(success)], assignee)
  {
  }

  lemma ReportTracer(t: Tracer, h: History, assignee: map<FuncCall, ClientId>, w: ClientId, c: FuncCall, success: bool)
    requires TracerOk(t, h, assignee) && h.reports.Keys <= h.ticket.Keys && c in h.ticket && c !in h.reports
    requires forall d :: d in h.ticket ==> h.ticket[d] < |h.built| && h.built[h.ticket[d]].call == d
    ensures TracerOk(TraceFinished(t, c, success),
                     h.(wire := h.wire + [Report(w, c)], reports := h.reports[c := Counted(success)]), assignee)
  {
    InflightPositive(t, h, assignee, c);
    assert h.reports[c := Counted(success)].Keys == h.reports.Keys + {c};
    ReportTable(t, h.ticket, h.reports, h.built, c, success);
    var i := h.ticket[c];
    ReportStates(t.pool, h.ticket, h.reports, assignee, c, t.pool[i].(state := if success then Completed else Failed), success);
  }

  lemma OnReportOk(s: State, w: ClientId, success: bool)
    requires Inv(s) && w in Holding(s.hist.wire)
    ensures Inv(OnReport(s, w, Holding(s.hist.wire)[w], success))
  {
    var held := Holding(s.hist.wire);
    var c := held[w];
    WireReport(s.hist.wire, w, c);
    ReportAssign(s.workers, s.running, s.assignee, held, s.hist.reports, w, success);
    ReportTracer(s.tracer, s.hist, s.assignee, w, c, success);
  }

  lemma EraseTracer(t: Tracer, h: History, assignee: map<FuncCall, ClientId>, c: FuncCall)
    requires TracerOk(t, h, assignee) && c in h.reports && c in h.ticket
    ensures TracerOk(TraceErase(t, c), h.(reports := h.reports[c := Erased(h.reports[c].success)]), assignee)
  {
    var reports' := h.reports[c := Erased(h.reports[c].success)];
    assert reports'.Keys == h.reports.Keys;
    forall d | d in h.ticket && h.ticket[d] < |t.pool|
      ensures StateOk(t.pool[h.ticket[d]], d, reports', assignee)
    {
      assert StateOk(t.pool[h.ticket[d]], d, h.reports, assignee);
    }
  }

  lemma EraseAssign(workers: set<ClientId>, running: map<ClientId, FuncCall>, assignee: map<FuncCall, ClientId>,
                    held: map<ClientId, FuncCall>, reports: map<FuncCall, Stage>, c: FuncCall)
    requires AssignOk(workers, running, assignee, held, reports) && c in reports
    ensures AssignOk(workers, running, assignee, held, reports[c := Erased(reports[c].success)])
  {
    assert reports[c := Erased(reports[c].success)].Keys == reports.Keys;
  }

  lemma OnReportEraseOk(s: State, call: FuncCall)
    requires Inv(s) && call in s.hist.reports && s.hist.reports[call].Counted?
    ensures Inv(OnReportErase(s, call))
  {
    EraseTracer(s.tracer, s.hist, s.assignee, call);
    EraseAssign(s.workers, s.running, s.assignee, Holding(s.hist.wire), s.hist.reports, call);
  }

  lemma ReleaseQueue(pending: seq<PendingCall>, assignee: map<FuncCall, ClientId>, ticket: map<FuncCall, InfoRef>,
                     built: seq<Message>, c: FuncCall)
    requires QueueOk(pending, None, assignee, ticket, built) && c in assignee
    ensures QueueOk(pending, None, assignee - {c}, ticket - {c}, built)
  {
    forall q | q in pending
      ensures Waits(q, assignee - {c}, ticket - {c}, built)
    {
      assert Waits(q, assignee, ticket, built);
    }
  }

  lemma ReleaseLedger(h: History, assignee: map<FuncCall, ClientId>, c: FuncCall)
    requires LedgerOk(h, assignee) && c in assignee && c in h.ticket
    requires forall d :: d in h.ticket ==> h.ticket[d] < |h.built| && h.built[h.ticket[d]].call == d
    ensures LedgerOk(h.(reports := h.reports - {c}, ticket := h.ticket - {c}, finished := h.finished + {h.ticket[c]}), assignee - {c})
  {
    var i := h.ticket[c];
    forall j | 0 <= j < |h.built|
      ensures Live(j, h.ticket - {c}, h.built) <==> Live(j, h.ticket, h.built) && j != i
    {
    }
  }

  lemma ReleaseTracer(t: Tracer, h: History, assignee: map<FuncCall, ClientId>, c: FuncCall)
    requires TracerOk(t, h, assignee) && c in h.reports && h.reports[c].Erased? && c in h.ticket && h.ticket[c] !in h.finished
    ensures TracerOk(t, h.(reports := h.reports - {c}, ticket := h.ticket - {c}, finished := h.finished + {h.ticket[c]}), assignee - {c})
  {
    assert (h.reports - {c}).Keys == h.reports.Keys - {c};
    assert (h.ticket - {c}).Keys == h.ticket.Keys - {c};
    forall d | d in h.ticket - {c} && h.ticket[d] < |t.pool|
      ensures StateOk(t.pool[h.ticket[d]], d, h.reports - {c}, assignee - {c})
    {
      assert StateOk(t.pool[h.ticket[d]], d, h.reports, assignee);
    }
  }

  lemma ReleaseAssign(workers: set<ClientId>, running: map<ClientId, FuncCall>, assignee: map<FuncCall, ClientId>,
                      held: map<ClientId, FuncCall>, reports: map<FuncCall, Stage>, c: FuncCall)
    requires AssignOk(workers, running, assignee, held, reports) && c in reports
    ensures
      var w := assignee[c];
      && w in running
      && (w in workers ==> AssignOk(workers, running - {w}, assignee - {c}, held, reports - {c}))
      && (w !in workers ==> AssignOk(workers, running, assignee - {c}, held, reports - {c}))
  {
  }

  /** A finished call leaves its worker in the operation's hand, or nothing if the worker is gone. */
  lemma ReleaseOk(s: State, c: FuncCall)
    requires Inv(s) && c in s.hist.reports && s.hist.reports[c].Erased?
    ensures
      var w := s.assignee[c];
      if w in s.workers then Inside(Release(s.(running := s.running - {w}), c), {w}, None) else Inv(Release(s, c))
  {
    ReleaseAssign(s.workers, s.running, s.assignee, Holding(s.hist.wire), s.hist.reports, c);
    ReleaseQueue(s.pending, s.assignee, s.hist.ticket, s.hist.built, c);
    assert Live(s.hist.ticket[c], s.hist.ticket, s.hist.built);
    ReleaseLedger(s.hist, s.assignee, c);
    ReleaseTracer(s.tracer, s.hist, s.assignee, c);
    ReleaseWorkers(s.workers, s.running, s.idle, s.hist.seen, s.assignee[c]);
  }

  lemma ReleaseWorkers(workers: set<ClientId>, running: map<ClientId, FuncCall>, idle: seq<ClientId>, seen: set<ClientId>, w: ClientId)
    requires WorkersOk(workers, running, idle, seen, {}) && w in running
    ensures w in workers ==> WorkersOk(workers, running - {w}, idle, seen, {w})
  {
  }

  /** Erasing the finished assignment after employing its worker, as the source does, or before is the same. */
  lemma {:induction false} ReleaseCommutes(s: State, w: ClientId, policy: Policy, c: FuncCall)
    requires forall p :: p in s.pending ==> PoolRead(s.pool, p.message).call != c
    ensures DispatchPending(Release(s, c), w, policy) ==
            (Release(DispatchPending(s, w, policy).0, c), DispatchPending(s, w, policy).1)
    decreases |s.pending|
  {
    if s.pending != [] {
      var p := s.pending[0];
      assert p in s.pending && forall q :: q in s.pending[1..] ==> q in s.pending;
      var s', r' := TakeFirst(s), TakeFirst(Release(s, c));
      assert r' == Release(s', c);
      var m := PoolRead(s.pool, p.message);
      if Keep(s', p, policy) {
        assert (s.assignee - {c})[m.call := w] == s.assignee[m.call := w] - {c};
        assert Dispatch(r', w, p) == Release(Dispatch(s', w, p), c);
      } else {
        assert s.hist.ticket - {c} - {m.call} == s.hist.ticket - {m.call} - {c};
        assert Discard(r', p) == Release(Discard(s', p), c);
        ReleaseCommutes(Discard(s', p), w, policy, c);
      }
    }
  }

  lemma EmployReleaseCommute(s: State, w: ClientId, policy: Policy, c: FuncCall)
    requires forall p :: p in s.pending ==> PoolRead(s.pool, p.message).call != c
    ensures Employ(Release(s, c), w, policy) == Release(Employ(s, w, policy), c)
  {
    ReleaseCommutes(s, w, policy, c);
  }

  lemma OnReportFinishOk(s: State, c: FuncCall, policy: Policy)
    requires Inv(s) && c in s.hist.reports && s.hist.reports[c].Erased?
    ensures Inv(OnReportFinish(s, c, policy))
  {
    ReleaseOk(s, c);
    var w := s.assignee[c];
    if w in s.workers {
      var s' := s.(running := s.running - {w});
      forall p | p in s.pending
        ensures PoolRead(s.pool, p.message).call != c
      {
        assert Stored(p, s.pool, s.hist.built) && Waits(p, s.assignee, s.hist.ticket, s.hist.built);
      }
      EmployReleaseCommute(s', w, policy, c);
      EmployOk(Release(s', c), w, policy);
    }
  }
}
