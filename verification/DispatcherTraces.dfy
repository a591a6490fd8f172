/**
 The dispatcher's tables read off the list of events alone: who is connected, what arrived
 when, which waiting calls a search discards and which one it sends.
 */
module DispatcherTraces {
  import opened Collections
  import opened Bytes
  import opened Protocol
  import opened Dispatcher
  import opened DispatcherInvariants
  import opened DispatcherRuns

  lemma {:induction false} RunSnoc(s: State, events: seq<Event>, e: Event)
    ensures Run(s, events + [e]) == Step(Run(s, events), e)
    ensures Feasible(s, events + [e]) <==> Feasible(s, events) && Enabled(Run(s, events), e)
    decreases |events|
  {
    var all := events + [e];
    if events == [] {
      assert all == [e] && all[1..] == [];
      assert Run(Step(s, e), all[1..]) == Step(s, e) && Feasible(Step(s, e), all[1..]);
    } else {
      assert all[0] == events[0] && all[1..] == events[1..] + [e];
      RunSnoc(Step(s, events[0]), events[1..], e);
    }
  }

  lemma {:induction false} RunAppend(s: State, a: seq<Event>, b: seq<Event>)
    ensures Run(s, a + b) == Run(Run(s, a), b)
    ensures Feasible(s, a + b) <==> Feasible(s, a) && Feasible(Run(s, a), b)
    decreases |a|
  {
    if a == [] {
      assert a + b == b;
    } else {
      assert (a + b)[0] == a[0] && (a + b)[1..] == a[1..] + b;
      RunAppend(Step(s, a[0]), a[1..], b);
    }
  }

  // ---- Who is connected ---------------------------------------------------------------------

  predicate Joins(e: Event, w: ClientId) { e.Connect? && e.w == w }
  predicate Leaves(e: Event, w: ClientId) { e.Disconnect? && e.w == w }

  /** The worker connected and did not disconnect afterwards. */
  predicate IsConnected(events: seq<Event>, w: ClientId) {
    exists i :: 0 <= i < |events| && Joins(events[i], w) && forall j :: i < j < |events| ==> !Leaves(events[j], w)
  }

  lemma ConnectedSnoc(events: seq<Event>, e: Event, w: ClientId)
    ensures IsConnected(events + [e], w) <==> Joins(e, w) || (IsConnected(events, w) && !Leaves(e, w))
  {
    var all, n := events + [e], |events|;
    assert all[n] == e;
    if IsConnected(all, w) && !Joins(e, w) {
      var i :| 0 <= i < |all| && Joins(all[i], w) && forall j :: i < j < |all| ==> !Leaves(all[j], w);
      assert !Leaves(all[n], w);
      assert forall j :: i < j < n ==> events[j] == all[j];
      assert events[i] == all[i];
    }
    if IsConnected(events, w) && !Leaves(e, w) {
      var i :| 0 <= i < n && Joins(events[i], w) && forall j :: i < j < n ==> !Leaves(events[j], w);
      assert Joins(all[i], w) && forall j :: i < j < |all| ==> !Leaves(all[j], w);
    }
    if Joins(e, w) { assert Joins(all[n], w); }
  }

  /** Messages put on the wire since `before`, none of them for `w`. */
  ghost predicate NoSendTo(before: seq<Wire>, wire: seq<Wire>, w: ClientId) {
    before <= wire && forall k :: |before| <= k < |wire| ==> !(wire[k].Send? && wire[k].worker == w)
  }

  lemma {:induction false} SearchEffect(s: State, w: ClientId, policy: Policy, x: ClientId)
    ensures
      var s' := DispatchPending(s, w, policy).0;
      s'.workers == s.workers && s'.hist.seen == s.hist.seen && (x != w ==> NoSendTo(s.hist.wire, s'.hist.wire, x))
    decreases |s.pending|
  {
    if s.pending != [] && !Keep(TakeFirst(s), s.pending[0], policy) {
      SearchEffect(Discard(TakeFirst(s), s.pending[0]), w, policy, x);
    }
  }

  lemma PickIdleConnected(idle: seq<ClientId>, workers: set<ClientId>, running: map<ClientId, FuncCall>)
    ensures var w := PickIdle(idle, workers, running).1; w.Some? ==> w.value in workers
  {
  }

  lemma NewCallEffect(s: State, call: FuncCall, input: Input, now: int, limit: nat, x: ClientId)
    ensures
      var s' := OnNewCall(s, call, input, now, limit);
      s'.workers == s.workers && s'.hist.seen == s.hist.seen && (x !in s.workers ==> NoSendTo(s.hist.wire, s'.hist.wire, x))
  {
    var (s1, p) := Accept(s, call, input, now);
    assert s1.workers == s.workers && s1.hist.wire == s.hist.wire && s1.hist.seen == s.hist.seen;
    var (s2, w) := PickIdleWorker(s1, limit);
    PickIdleConnected(s1.idle, s1.workers, s1.running);
    assert w.Some? ==> w.value in s.workers;
    assert s2.hist == s1.hist && s2.workers == s1.workers;
  }

  /** The only steps that change who is connected; nothing is sent to a worker that is not. */
  lemma StepWorkers(s: State, e: Event, x: ClientId)
    ensures x in Step(s, e).workers <==> Joins(e, x) || (x in s.workers && !Leaves(e, x))
    ensures x !in s.workers && !Joins(e, x) ==> NoSendTo(s.hist.wire, Step(s, e).hist.wire, x)
    ensures Step(s, e).hist.seen == if e.Connect? then s.hist.seen + {e.w} else s.hist.seen
  {
    match e
    case Connect(w, policy) =>
      SearchEffect(s.(workers := s.workers + {w}, hist := s.hist.(seen := s.hist.seen + {w})), w, policy, x);
    case NewCall(call, input, now, limit) => NewCallEffect(s, call, input, now, limit, x);
    case ReportFinish(call, policy) =>
      if call in s.assignee && s.assignee[call] in s.workers {
        SearchEffect(s.(running := s.running - {s.assignee[call]}), s.assignee[call], policy, x);
      }
    case _ =>
  }

  /** After every run, exactly the workers that connected and did not disconnect since are in the table. */
  lemma {:induction false} WorkersAreTheConnected(events: seq<Event>, w: ClientId)
    requires Feasible(Init(), events)
    ensures w in Run(Init(), events).workers <==> IsConnected(events, w)
    decreases |events|
  {
    if events != [] {
      var before, e := events[..|events| - 1], events[|events| - 1];
      assert events == before + [e];
      RunSnoc(Init(), before, e);
      WorkersAreTheConnected(before, w);
      StepWorkers(Run(Init(), before), e, w);
      ConnectedSnoc(before, e, w);
    }
  }

  lemma {:induction false} GoneStaysSilent(s: State, events: seq<Event>, w: ClientId)
    requires Feasible(s, events) && w !in s.workers && w in s.hist.seen
    ensures NoSendTo(s.hist.wire, Run(s, events).hist.wire, w)
    decreases |events|
  {
    if events != [] {
      StepWorkers(s, events[0], w);
      GoneStaysSilent(Step(s, events[0]), events[1..], w);
    }
  }

  /** Nothing is put on a worker's wire after it disconnected, in any run. */
  lemma NothingIsSentAfterDisconnect(before: seq<Event>, w: ClientId, after: seq<Event>)
    requires Feasible(Init(), before + [Disconnect(w)] + after)
    ensures NoSendTo(Run(Init(), before + [Disconnect(w)]).hist.wire, Run(Init(), before + [Disconnect(w)] + after).hist.wire, w)
  {
    RunAppend(Init(), before + [Disconnect(w)], after);
    RunSnoc(Init(), before, Disconnect(w));
    var s := Run(Init(), before);
    InitInv();
    RunKeepsInv(Init(), before);
    StepWorkers(s, Disconnect(w), w);
    GoneStaysSilent(Step(s, Disconnect(w)), after, w);
  }

  // ---- Workers that left while running ---------------------------------------------------------

  /** `x` runs in `t` exactly what it runs in `s`, if anything. */
  ghost predicate SameWork(s: State, t: State, x: ClientId) {
    (x in t.running <==> x in s.running) && (x in s.running ==> t.running[x] == s.running[x])
  }

  lemma {:induction false} SearchKeepsOthersWork(s: State, w: ClientId, policy: Policy, x: ClientId)
    requires x != w
    ensures SameWork(s, DispatchPending(s, w, policy).0, x)
    decreases |s.pending|
  {
    if s.pending != [] && !Keep(TakeFirst(s), s.pending[0], policy) {
      SearchKeepsOthersWork(Discard(TakeFirst(s), s.pending[0]), w, policy, x);
    }
  }

  lemma NewCallKeepsOthersWork(s: State, call: FuncCall, input: Input, now: int, limit: nat, x: ClientId)
    requires x !in s.workers
    ensures SameWork(s, OnNewCall(s, call, input, now, limit), x)
  {
    var (s1, p) := Accept(s, call, input, now);
    assert s1.workers == s.workers && s1.running == s.running;
    var (s2, w) := PickIdleWorker(s1, limit);
    PickIdleConnected(s1.idle, s1.workers, s1.running);
    assert s2.running == s.running && (w.Some? ==> w.value in s.workers);
  }

  /** No step gives work to, or takes it from, a worker that is not connected. */
  lemma StepKeepsGoneWork(s: State, e: Event, x: ClientId)
    requires x !in s.workers && !Joins(e, x)
    ensures SameWork(s, Step(s, e), x)
  {
    match e
    case Connect(w, policy) =>
      SearchKeepsOthersWork(s.(workers := s.workers + {w}, hist := s.hist.(seen := s.hist.seen + {w})), w, policy, x);
    case NewCall(call, input, now, limit) => NewCallKeepsOthersWork(s, call, input, now, limit, x);
    case ReportFinish(call, policy) =>
      if call in s.assignee && s.assignee[call] in s.workers {
        SearchKeepsOthersWork(s.(running := s.running - {s.assignee[call]}), s.assignee[call], policy, x);
      }
    case _ =>
  }

  lemma {:induction false} GoneKeepsItsWork(s: State, events: seq<Event>, w: ClientId)
    requires Feasible(s, events) && w !in s.workers && w in s.hist.seen
    ensures SameWork(s, Run(s, events), w)
    decreases |events|
  {
    if events != [] {
      StepWorkers(s, events[0], w);
      StepKeepsGoneWork(s, events[0], w);
      GoneKeepsItsWork(Step(s, events[0]), events[1..], w);
    }
  }

  /**
   A worker that disconnects while it runs a call stays in the table of running workers for
   good, even after its report, and so takes up one place of the concurrency limit; a worker
   that disconnects while idle never appears in it again.
   */
  lemma DisconnectedRunnersStay(before: seq<Event>, w: ClientId, after: seq<Event>)
    requires Feasible(Init(), before + [Disconnect(w)] + after)
    ensures SameWork(Run(Init(), before), Run(Init(), before + [Disconnect(w)] + after), w)
  {
    RunAppend(Init(), before + [Disconnect(w)], after);
    RunSnoc(Init(), before, Disconnect(w));
    var s := Run(Init(), before);
    InitInv();
    RunKeepsInv(Init(), before);
    StepWorkers(s, Disconnect(w), w);
    GoneKeepsItsWork(Step(s, Disconnect(w)), after, w);
  }

  // ---- Reports ----------------------------------------------------------------------------------

  /** A report marks the record of the call its worker holds, and that record only, with its verdict. */
  lemma ReportMarksRecord(events: seq<Event>, w: ClientId, success: bool)
    requires Feasible(Init(), events + [ReportBegin(w, success)])
    ensures
      var s, s' := Run(Init(), events), Run(Init(), events + [ReportBegin(w, success)]);
      && w in Holding(s.hist.wire) && Holding(s.hist.wire)[w] in s.hist.ticket
      && s.hist.ticket[Holding(s.hist.wire)[w]] < |s.tracer.pool|
      && s'.tracer.pool == s.tracer.pool[s.hist.ticket[Holding(s.hist.wire)[w]] :=
           s.tracer.pool[s.hist.ticket[Holding(s.hist.wire)[w]]].(state := if success then Completed else Failed)]
      && s'.tracer.inflight == s.tracer.inflight - 1
  {
    RunSnoc(Init(), events, ReportBegin(w, success));
    InitInv();
    RunKeepsInv(Init(), events);
    var s := Run(Init(), events);
    var call := Holding(s.hist.wire)[w];
    assert call in s.assignee && call !in s.hist.reports;
    assert call in s.hist.ticket && call in s.tracer.infos && s.tracer.infos[call] == s.hist.ticket[call];
    InflightPositive(s.tracer, s.hist, s.assignee, call);
  }

  // ---- What arrived when --------------------------------------------------------------------

  datatype Arrival = Arrival(call: FuncCall, input: Input, now: int)

  /** The calls in the order they arrived, with the clock at that moment. */
  function Arrivals(events: seq<Event>): seq<Arrival> {
    if events == [] then []
    else
      var before, e := Arrivals(events[..|events| - 1]), events[|events| - 1];
      if e.NewCall? then before + [Arrival(e.call, e.input, e.now)] else before
  }

  /** Arrival `i` got message `i` with its input, and record `i` with its time. */
  ghost predicate Recorded(built: seq<Message>, pool: seq<CallInfo>, arrivals: seq<Arrival>) {
    && |built| == |pool| == |arrivals|
    && (forall i :: 0 <= i < |arrivals| ==> built[i] == BuildMessage(arrivals[i].call, arrivals[i].input))
    && (forall i :: 0 <= i < |arrivals| ==> pool[i].call == arrivals[i].call && pool[i].recvTimestamp == arrivals[i].now)
  }

  /** The same calls and times, whatever happened to the states of the records. */
  ghost predicate SameTimes(pool: seq<CallInfo>, pool': seq<CallInfo>) {
    |pool| == |pool'| && forall i :: 0 <= i < |pool| ==> pool'[i].call == pool[i].call && pool'[i].recvTimestamp == pool[i].recvTimestamp
  }

  lemma {:induction false} SearchKeepsRecords(s: State, w: ClientId, policy: Policy)
    ensures
      var s' := DispatchPending(s, w, policy).0;
      s'.hist.built == s.hist.built && SameTimes(s.tracer.pool, s'.tracer.pool)
    decreases |s.pending|
  {
    if s.pending != [] && !Keep(TakeFirst(s), s.pending[0], policy) {
      SearchKeepsRecords(Discard(TakeFirst(s), s.pending[0]), w, policy);
    }
  }

  lemma PlaceKeepsRecords(s: State, w: Option<ClientId>, p: PendingCall)
    ensures
      var s' := if w.Some? then Dispatch(s, w.value, p) else Enqueue(s, p);
      s'.hist.built == s.hist.built && SameTimes(s.tracer.pool, s'.tracer.pool)
  {
  }

  lemma NewCallRecords(s: State, call: FuncCall, input: Input, now: int, limit: nat)
    requires call !in s.tracer.infos
    ensures
      var s' := OnNewCall(s, call, input, now, limit);
      && s'.hist.built == s.hist.built + [BuildMessage(call, input)]
      && SameTimes(s.tracer.pool + [CallInfo(call, now, Received, 0)], s'.tracer.pool)
  {
    var (s1, p) := Accept(s, call, input, now);
    assert s1.tracer.pool == s.tracer.pool + [CallInfo(call, now, Received, 0)];
    assert s1.hist.built == s.hist.built + [BuildMessage(call, input)];
    var (s2, w) := PickIdleWorker(s1, limit);
    assert s2.tracer == s1.tracer && s2.hist == s1.hist;
    PlaceKeepsRecords(s2, w, p);
  }

  /** Only a new call adds a message or a record, and no step changes a time. */
  lemma StepKeepsRecords(s: State, e: Event)
    requires !e.NewCall?
    ensures Step(s, e).hist.built == s.hist.built && SameTimes(s.tracer.pool, Step(s, e).tracer.pool)
  {
    match e
    case Connect(w, policy) =>
      SearchKeepsRecords(s.(workers := s.workers + {w}, hist := s.hist.(seen := s.hist.seen + {w})), w, policy);
    case ReportFinish(call, policy) =>
      if call in s.assignee && s.assignee[call] in s.workers {
        SearchKeepsRecords(s.(running := s.running - {s.assignee[call]}), s.assignee[call], policy);
      }
    case _ =>
  }

  lemma RecordedKept(built: seq<Message>, pool: seq<CallInfo>, pool': seq<CallInfo>, arrivals: seq<Arrival>)
    requires Recorded(built, pool, arrivals) && SameTimes(pool, pool')
    ensures Recorded(built, pool', arrivals)
  {
  }

  lemma RecordedSnoc(built: seq<Message>, pool: seq<CallInfo>, arrivals: seq<Arrival>, a: Arrival)
    requires Recorded(built, pool, arrivals)
    ensures Recorded(built + [BuildMessage(a.call, a.input)], pool + [CallInfo(a.call, a.now, Received, 0)], arrivals + [a])
  {
  }

  lemma StepRecords(s: State, e: Event, arrivals: seq<Arrival>)
    requires (e.NewCall? ==> e.call !in s.tracer.infos) && Recorded(s.hist.built, s.tracer.pool, arrivals)
    ensures Recorded(Step(s, e).hist.built, Step(s, e).tracer.pool,
                     if e.NewCall? then arrivals + [Arrival(e.call, e.input, e.now)] else arrivals)
  {
    if e.NewCall? {
      NewCallRecords(s, e.call, e.input, e.now, e.limit);
      RecordedSnoc(s.hist.built, s.tracer.pool, arrivals, Arrival(e.call, e.input, e.now));
      RecordedKept(s.hist.built + [BuildMessage(e.call, e.input)], s.tracer.pool + [CallInfo(e.call, e.now, Received, 0)],
                   Step(s, e).tracer.pool, arrivals + [Arrival(e.call, e.input, e.now)]);
    } else {
      StepKeepsRecords(s, e);
      RecordedKept(s.hist.built, s.tracer.pool, Step(s, e).tracer.pool, arrivals);
    }
  }

  lemma NewIsUntraced(events: seq<Event>, e: Event)
    requires Feasible(Init(), events) && Enabled(Run(Init(), events), e)
    ensures e.NewCall? ==> e.call !in Run(Init(), events).tracer.infos
  {
    ReachableInv(events);
  }

  /** After every run the messages built and the times recorded are those of the arrivals, in order. */
  lemma {:induction false} ArrivalsAreRecorded(events: seq<Event>)
    requires Feasible(Init(), events)
    ensures Recorded(Run(Init(), events).hist.built, Run(Init(), events).tracer.pool, Arrivals(events))
    decreases |events|
  {
    if events != [] {
      var before, e := events[..|events| - 1], events[|events| - 1];
      assert events == before + [e];
      RunSnoc(Init(), before, e);
      NewIsUntraced(before, e);
      ArrivalsAreRecorded(before);
      StepRecords(Run(Init(), before), e, Arrivals(before));
    }
  }

  // ---- What a search does -------------------------------------------------------------------

  /** The queueing-delay rule: a worker's call that waited longer than the flag times the average. */
  predicate TooLate(a: Arrival, policy: Policy) {
    && a.call.clientId != 0
    && policy.maxRelativeDelay != 0.0
    && (policy.now - a.now) as real > policy.maxRelativeDelay * policy.averageTime
  }

  /** How many calls at the front of the queue, given by arrival number, are too late. */
  function LateCount(waiting: seq<InfoRef>, arrivals: seq<Arrival>, policy: Policy): (n: nat)
    ensures n <= |waiting|
  {
    if waiting == [] || waiting[0] >= |arrivals| || !TooLate(arrivals[waiting[0]], policy) then 0
    else 1 + LateCount(waiting[1..], arrivals, policy)
  }

  /** Every waiting entry points at its arrival's message and record. */
  ghost predicate Readable(s: State, arrivals: seq<Arrival>) {
    && Recorded(s.hist.built, s.tracer.pool, arrivals)
    && (forall p :: p in s.pending ==> p.info < |arrivals| && PoolRead(s.pool, p.message) == s.hist.built[p.info])
  }

  lemma KeepIsNotTooLate(s: State, arrivals: seq<Arrival>, policy: Policy)
    requires Readable(s, arrivals) && s.pending != []
    ensures s.pending[0].info < |arrivals|
    ensures Keep(TakeFirst(s), s.pending[0], policy) <==> !TooLate(arrivals[s.pending[0].info], policy)
  {
    assert s.pending[0] in s.pending;
  }

  lemma DiscardStaysReadable(s: State, arrivals: seq<Arrival>)
    requires Readable(s, arrivals) && s.pending != []
    ensures Readable(Discard(TakeFirst(s), s.pending[0]), arrivals)
    ensures PendingInfos(Discard(TakeFirst(s), s.pending[0])) == PendingInfos(s)[1..]
  {
    assert forall p :: p in s.pending[1..] ==> p in s.pending;
  }

  function Numbers(waiting: seq<InfoRef>): set<InfoRef> { set i | i in waiting }

  /** The outcome of a search by `w`: the late front is discarded, the next call is sent to `w`, the rest waits. */
  ghost predicate Searched(s: State, s': State, w: ClientId, k: nat) {
    var waiting := PendingInfos(s);
    && k <= |waiting|
    && s'.hist.discarded == s.hist.discarded + Numbers(waiting[..k])
    && (k < |waiting| ==> waiting[k] < |s.hist.built| && PendingInfos(s') == waiting[k + 1..])
    && (k < |waiting| ==> s'.hist.sent == s.hist.sent + [waiting[k]] && s'.hist.wire == s.hist.wire + [Send(w, s.hist.built[waiting[k]])])
    && (k == |waiting| ==> PendingInfos(s') == [] && s'.hist.sent == s.hist.sent && s'.hist.wire == s.hist.wire)
  }

  lemma SearchedAfterDiscard(s: State, d: State, s': State, w: ClientId, k: nat)
    requires s.pending != [] && PendingInfos(d) == PendingInfos(s)[1..]
    requires d.hist.sent == s.hist.sent && d.hist.wire == s.hist.wire && d.hist.built == s.hist.built
    requires d.hist.discarded == s.hist.discarded + {s.pending[0].info} && Searched(d, s', w, k)
    ensures Searched(s, s', w, k + 1)
  {
    var waiting := PendingInfos(s);
    assert waiting[..k + 1] == [waiting[0]] + waiting[1..][..k];
    assert Numbers(waiting[..k + 1]) == {waiting[0]} + Numbers(waiting[1..][..k]);
    assert k < |waiting[1..]| ==> waiting[1..][k] == waiting[k + 1] && waiting[1..][k + 1..] == waiting[k + 2..];
  }

  lemma SearchedAtOnce(s: State, w: ClientId, arrivals: seq<Arrival>)
    requires Readable(s, arrivals) && s.pending != []
    ensures Searched(s, Dispatch(TakeFirst(s), w, s.pending[0]), w, 0)
  {
    assert s.pending[0] in s.pending;
    var waiting := PendingInfos(s);
    assert PendingInfos(Dispatch(TakeFirst(s), w, s.pending[0])) == waiting[1..];
    assert Numbers(waiting[..0]) == {};
  }

  /** How the count of late calls and the search go on together. */
  lemma FirstDecides(s: State, w: ClientId, policy: Policy, arrivals: seq<Arrival>)
    requires Readable(s, arrivals) && s.pending != []
    ensures
      var p, d, k := s.pending[0], Discard(TakeFirst(s), s.pending[0]), LateCount(PendingInfos(s), arrivals, policy);
      if Keep(TakeFirst(s), p, policy) then k == 0 && DispatchPending(s, w, policy) == (Dispatch(TakeFirst(s), w, p), true)
      else k == 1 + LateCount(PendingInfos(d), arrivals, policy) && DispatchPending(s, w, policy) == DispatchPending(d, w, policy)
  {
    KeepIsNotTooLate(s, arrivals, policy);
    DiscardStaysReadable(s, arrivals);
  }

  lemma {:induction false} SearchFollowsRule(s: State, w: ClientId, policy: Policy, arrivals: seq<Arrival>)
    requires Readable(s, arrivals)
    ensures
      var k := LateCount(PendingInfos(s), arrivals, policy);
      var (s', done) := DispatchPending(s, w, policy);
      Searched(s, s', w, k) && (done <==> k < |s.pending|)
    decreases |s.pending|
  {
    if s.pending == [] {
      assert PendingInfos(s) == [] && Numbers(PendingInfos(s)[..0]) == {};
    } else {
      FirstDecides(s, w, policy, arrivals);
      if Keep(TakeFirst(s), s.pending[0], policy) {
        SearchedAtOnce(s, w, arrivals);
      } else {
        var d := Discard(TakeFirst(s), s.pending[0]);
        DiscardStaysReadable(s, arrivals);
        SearchFollowsRule(d, w, policy, arrivals);
        SearchedAfterDiscard(s, d, DispatchPending(d, w, policy).0, w, LateCount(PendingInfos(d), arrivals, policy));
      }
    }
  }

  /** Which worker an event makes look for a pending call, and under which policy. */
  function SearchOf(s: State, e: Event): Option<(ClientId, Policy)> {
    if e.Connect? then Some((e.w, e.policy))
    else if e.ReportFinish? && e.call in s.assignee && s.assignee[e.call] in s.workers then Some((s.assignee[e.call], e.policy))
    else None
  }

  lemma EmployFollowsRule(s: State, s0: State, w: ClientId, policy: Policy, arrivals: seq<Arrival>)
    requires Readable(s, arrivals)
    requires s0.pending == s.pending && s0.pool == s.pool && s0.tracer == s.tracer
    requires s0.hist.built == s.hist.built && s0.hist.discarded == s.hist.discarded && s0.hist.sent == s.hist.sent && s0.hist.wire == s.hist.wire
    ensures Searched(s, Employ(s0, w, policy), w, LateCount(PendingInfos(s), arrivals, policy))
  {
    assert PendingInfos(s0) == PendingInfos(s) && Readable(s0, arrivals);
    SearchFollowsRule(s0, w, policy, arrivals);
    var (s1, done) := DispatchPending(s0, w, policy);
    assert PendingInfos(s1.(idle := s1.idle + [w])) == PendingInfos(s1);
  }

  lemma FinishFollowsRule(s: State, call: FuncCall, policy: Policy, arrivals: seq<Arrival>)
    requires Readable(s, arrivals) && call in s.assignee && s.assignee[call] in s.workers
    ensures Searched(s, OnReportFinish(s, call, policy), s.assignee[call], LateCount(PendingInfos(s), arrivals, policy))
  {
    var w, s0 := s.assignee[call], s.(running := s.running - {s.assignee[call]});
    EmployFollowsRule(s, s0, w, policy, arrivals);
    var t := Employ(s0, w, policy);
    assert PendingInfos(Release(t, call)) == PendingInfos(t);
  }

  lemma ReachableIsReadable(events: seq<Event>)
    requires Feasible(Init(), events)
    ensures Readable(Run(Init(), events), Arrivals(events))
  {
    ArrivalsAreRecorded(events);
    InitInv();
    RunKeepsInv(Init(), events);
    var s := Run(Init(), events);
    forall p | p in s.pending
      ensures p.info < |Arrivals(events)| && PoolRead(s.pool, p.message) == s.hist.built[p.info]
    {
      assert Stored(p, s.pool, s.hist.built);
    }
  }

  /**
   The whole effect of a search, read off the events: of the waiting calls the longest front
   that is too late by its arrival times is discarded, the next call is sent to the searching
   worker with the message of its arrival, and the rest goes on waiting.
   */
  lemma SearchesFollowTheRule(events: seq<Event>, e: Event)
    requires Feasible(Init(), events + [e]) && SearchOf(Run(Init(), events), e).Some?
    ensures
      var s, s' := Run(Init(), events), Run(Init(), events + [e]);
      var (w, policy) := SearchOf(s, e).value;
      Searched(s, s', w, LateCount(PendingInfos(s), Arrivals(events), policy))
  {
    RunSnoc(Init(), events, e);
    ReachableIsReadable(events);
    var s := Run(Init(), events);
    match e
    case Connect(w, policy) =>
      EmployFollowsRule(s, s.(workers := s.workers + {w}, hist := s.hist.(seen := s.hist.seen + {w})), w, policy, Arrivals(events));
    case ReportFinish(call, policy) => FinishFollowsRule(s, call, policy, Arrivals(events));
  }

  // ---- Which idle worker is taken ------------------------------------------------------------

  /** The last entry of the idle list that is connected and not running; entries behind it are stale. */
  lemma {:induction false} PickIdleTakesLast(idle: seq<ClientId>, workers: set<ClientId>, running: map<ClientId, FuncCall>)
    ensures
      var (rest, w) := PickIdle(idle, workers, running);
      && |rest| <= |idle| && rest == idle[..|rest|]
      && (w.Some? ==> |rest| < |idle| && idle[|rest|] == w.value && w.value in workers && w.value !in running)
      && (w.None? ==> rest == [])
      && (forall j :: (if w.Some? then |rest| + 1 else 0) <= j < |idle| ==> !(idle[j] in workers && idle[j] !in running))
  {
    if idle != [] {
      var before, w := idle[..|idle| - 1], idle[|idle| - 1];
      if !(w in workers && w !in running) {
        PickIdleTakesLast(before, workers, running);
        var (rest, x) := PickIdle(before, workers, running);
        assert forall j :: 0 <= j < |before| ==> before[j] == idle[j];
      }
    }
  }

  lemma {:induction false} SearchKeepsIdle(s: State, w: ClientId, policy: Policy)
    ensures DispatchPending(s, w, policy).0.idle == s.idle
    decreases |s.pending|
  {
    if s.pending != [] && !Keep(TakeFirst(s), s.pending[0], policy) {
      SearchKeepsIdle(Discard(TakeFirst(s), s.pending[0]), w, policy);
    }
  }

  /** A worker that finds nothing to do goes to the end of the idle list; only new calls take workers off it. */
  lemma IdleListGrowsAtTheEnd(s: State, e: Event)
    requires !e.NewCall?
    ensures
      var search := SearchOf(s, e);
      Step(s, e).idle == s.idle || (search.Some? && Step(s, e).idle == s.idle + [search.value.0])
  {
    match e
    case Connect(w, policy) =>
      SearchKeepsIdle(s.(workers := s.workers + {w}, hist := s.hist.(seen := s.hist.seen + {w})), w, policy);
    case ReportFinish(call, policy) =>
      if call in s.assignee && s.assignee[call] in s.workers {
        SearchKeepsIdle(s.(running := s.running - {s.assignee[call]}), s.assignee[call], policy);
      }
    case _ =>
  }
}
