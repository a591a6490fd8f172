/** Runs of a dispatcher, and what holds after every run. */
module DispatcherRuns {
  import opened Collections
  import opened Bytes
  import opened Protocol
  import opened Dispatcher
  import opened DispatcherInvariants

  /** One critical section each; the three report events are the three sections of one report. */
  datatype Event =
    | Connect(w: ClientId, policy: Policy)
    | Disconnect(w: ClientId)
    | NewCall(call: FuncCall, input: Input, now: int, limit: nat)
    | ReportBegin(w: ClientId, success: bool)
    | ReportErase(call: FuncCall)
    | ReportFinish(call: FuncCall, policy: Policy)

  /**
   What the surroundings guarantee: client ids are never reused, call ids are fresh while
   live, a worker reports only the call it holds, and one report's sections run in order.
   */
  predicate Enabled(s: State, e: Event) {
    match e
    case Connect(w, _) => w !in s.hist.seen
    case Disconnect(w) => w in s.workers
    case NewCall(call, _, _, _) => call !in s.hist.ticket
    case ReportBegin(w, _) => w in Holding(s.hist.wire)
    case ReportErase(call) => call in s.hist.reports && s.hist.reports[call].Counted?
    case ReportFinish(call, _) => call in s.hist.reports && s.hist.reports[call].Erased?
  }

  function Step(s: State, e: Event): State {
    match e
    case Connect(w, policy) => OnConnected(s, w, policy)
    case Disconnect(w) => OnDisconnected(s, w)
    case NewCall(call, input, now, limit) => OnNewCall(s, call, input, now, limit)
    case ReportBegin(w, success) =>
      if w in Holding(s.hist.wire) then OnReport(s, w, Holding(s.hist.wire)[w], success) else s
    case ReportErase(call) => OnReportErase(s, call)
    case ReportFinish(call, policy) => OnReportFinish(s, call, policy)
  }

  function Run(s: State, events: seq<Event>): State
    decreases |events|
  {
    if events == [] then s else Run(Step(s, events[0]), events[1..])
  }

  predicate Feasible(s: State, events: seq<Event>)
    decreases |events|
  {
    events == [] || (Enabled(s, events[0]) && Feasible(Step(s, events[0]), events[1..]))
  }

  lemma StepKeepsInv(s: State, e: Event)
    requires Inv(s) && Enabled(s, e)
    ensures Inv(Step(s, e))
  {
    match e
    case Connect(w, policy) => OnConnectedOk(s, w, policy);
    case Disconnect(w) => OnDisconnectedOk(s, w);
    case NewCall(call, input, now, limit) => OnNewCallOk(s, call, input, now, limit);
    case ReportBegin(w, success) => OnReportOk(s, w, success);
    case ReportErase(call) => OnReportEraseOk(s, call);
    case ReportFinish(call, policy) => OnReportFinishOk(s, call, policy);
  }

  lemma {:induction false} RunKeepsInv(s: State, events: seq<Event>)
    requires Inv(s) && Feasible(s, events)
    ensures Inv(Run(s, events))
    decreases |events|
  {
    if events != [] {
      StepKeepsInv(s, events[0]);
      RunKeepsInv(Step(s, events[0]), events[1..]);
    }
  }

  lemma ReachableInv(events: seq<Event>)
    requires Feasible(Init(), events)
    ensures Inv(Run(Init(), events))
  {
    InitInv();
    RunKeepsInv(Init(), events);
  }

  // ---- Workers --------------------------------------------------------------------------

  lemma {:induction false} NoDupCount<T>(s: seq<T>, x: T)
    requires NoDup(s)
    ensures multiset(s)[x] == if x in s then 1 else 0
  {
    if s != [] {
      var rest := s[1..];
      assert s == [s[0]] + rest && multiset(s) == multiset{s[0]} + multiset(rest);
      NoDupCount(rest, x);
    }
  }

  /**
   In every reachable state, disconnects included: no worker was ever sent a call while it
   held one; every assigned call is what its worker runs and every connected running worker
   is the assignee of what it runs; and a connected worker is either running, or in the idle
   list exactly once, never both.
   */
  lemma WorkersAreExclusive(events: seq<Event>)
    requires Feasible(Init(), events)
    ensures
      var s := Run(Init(), events);
      && WireOk(s.hist.wire)
      && (forall c :: c in s.assignee ==> s.assignee[c] in s.running && s.running[s.assignee[c]] == c)
      && (forall w :: w in s.workers && w in s.running ==> s.running[w] in s.assignee && s.assignee[s.running[w]] == w)
      && (forall w :: w in s.workers ==> multiset(s.idle)[w] == if w in s.running then 0 else 1)
  {
    ReachableInv(events);
    var s := Run(Init(), events);
    forall w | w in s.workers
      ensures multiset(s.idle)[w] == if w in s.running then 0 else 1
    {
      NoDupCount(s.idle, w);
    }
  }

  /** `WireOk`, spelled out: between two calls sent to one worker there is a report from it. */
  lemma {:induction false} SendsAlternateWithReports(wire: seq<Wire>, i: nat, j: nat)
    requires WireOk(wire) && i < j < |wire|
    requires wire[i].Send? && wire[j].Send? && wire[i].worker == wire[j].worker
    ensures exists k :: i < k < j && wire[k] == Report(wire[i].worker, wire[i].message.call)
    decreases |wire|
  {
    var before := wire[..|wire| - 1];
    if j < |wire| - 1 {
      SendsAlternateWithReports(before, i, j);
      var k :| i < k < j && before[k] == Report(before[i].worker, before[i].message.call);
      assert wire[k] == before[k];
    } else {
      HeldSince(before, i);
    }
  }

  /** A worker that was sent a call and sent no report since still holds it. */
  lemma {:induction false} HeldSince(wire: seq<Wire>, i: nat)
    requires WireOk(wire) && i < |wire| && wire[i].Send?
    ensures
      || (wire[i].worker in Holding(wire) && Holding(wire)[wire[i].worker] == wire[i].message.call)
      || exists k :: i < k < |wire| && wire[k] == Report(wire[i].worker, wire[i].message.call)
    decreases |wire|
  {
    var before, last := wire[..|wire| - 1], |wire| - 1;
    if i < last {
      HeldSince(before, i);
      if !(exists k :: i < k < last && before[k] == Report(before[i].worker, before[i].message.call)) {
        if wire[last].Report? && wire[last].worker == wire[i].worker {
          assert wire[last] == Report(wire[i].worker, wire[i].message.call);
        }
      } else {
        var k :| i < k < last && before[k] == Report(before[i].worker, before[i].message.call);
        assert wire[k] == before[k];
      }
    }
  }

  // ---- Calls ----------------------------------------------------------------------------

  predicate IsPending(s: State, i: InfoRef) { i in Infos(s.pending) }

  predicate IsAssigned(s: State, i: InfoRef) {
    exists c :: c in s.assignee && c in s.hist.ticket && s.hist.ticket[c] == i
  }

  /**
   Every accepted call is in exactly one of pending, assigned, finished and discarded, the
   tracer's table is pending plus assigned minus the calls past the erasing section, and the
   counter is what was accepted minus what was reported.
   */
  lemma CallsArePartitioned(events: seq<Event>, i: InfoRef)
    requires Feasible(Init(), events) && i < |Run(Init(), events).hist.built|
    ensures
      var s := Run(Init(), events);
      && (IsPending(s, i) <==> !IsAssigned(s, i) && i !in s.hist.finished && i !in s.hist.discarded)
      && (IsAssigned(s, i) ==> i !in s.hist.finished && i !in s.hist.discarded)
      && (i in s.hist.finished ==> i !in s.hist.discarded)
      && (i in s.tracer.infos.Values <==>
            (IsPending(s, i) || IsAssigned(s, i))
            && (s.hist.built[i].call in s.hist.reports ==> s.hist.reports[s.hist.built[i].call].Counted?))
  {
    ReachableInv(events);
    PartitionFromInv(Run(Init(), events), i);
  }

  lemma PartitionFromInv(s: State, i: InfoRef)
    requires Inv(s) && i < |s.hist.built|
    ensures IsAssigned(s, i) <==> Live(i, s.hist.ticket, s.hist.built) && s.hist.built[i].call in s.assignee
    ensures IsPending(s, i) <==> Live(i, s.hist.ticket, s.hist.built) && s.hist.built[i].call !in s.assignee
    ensures i in s.tracer.infos.Values <==> Live(i, s.hist.ticket, s.hist.built) && s.hist.built[i].call in s.tracer.infos
  {
    var c := s.hist.built[i].call;
    if IsPending(s, i) {
      var p :| p in s.pending && p.info == i;
      assert Waits(p, s.assignee, s.hist.ticket, s.hist.built);
    }
    if Live(i, s.hist.ticket, s.hist.built) && c in s.tracer.infos { assert s.tracer.infos[c] == i; }
  }

  /** The tracer's counter never goes negative, and it counts the live calls exactly when nothing was discarded. */
  lemma InflightIsAcceptedMinusReported(events: seq<Event>)
    requires Feasible(Init(), events)
    ensures
      var s := Run(Init(), events);
      && s.tracer.inflight == |s.hist.built| - |s.hist.finished| - |s.hist.reports|
      && s.tracer.inflight >= 0
      && (s.tracer.inflight == |s.hist.ticket| - |s.hist.reports| <==> s.hist.discarded == {})
  {
    ReachableInv(events);
    var h := Run(Init(), events).hist;
    SubsetCard(h.reports.Keys, h.ticket.Keys);
  }

  /** A reported call was counted in: the clamp of `inflight_requests` at zero never fires. */
  lemma ClampNeverFires(events: seq<Event>, w: ClientId)
    requires Feasible(Init(), events) && w in Holding(Run(Init(), events).hist.wire)
    ensures
      var s := Run(Init(), events);
      var c := Holding(s.hist.wire)[w];
      c in s.tracer.infos && Decremented(s.tracer.inflight) == s.tracer.inflight - 1
  {
    ReachableInv(events);
    var s := Run(Init(), events);
    InflightPositive(s.tracer, s.hist, s.assignee, Holding(s.hist.wire)[w]);
  }

  // ---- Messages -------------------------------------------------------------------------

  /**
   The pool's outstanding messages are exactly those of the pending queue, no two entries
   share an object, and every object still holds the message built when its call arrived;
   dispatch number `k` delivered exactly the message built for arrival `sent[k]`.
   */
  lemma PooledMessagesAreThePending(events: seq<Event>)
    requires Feasible(Init(), events)
    ensures
      var s := Run(Init(), events);
      && NoDup(s.pool.free)
      && (forall r :: 0 <= r < |s.pool.cells| ==> (r !in s.pool.free <==> r in Refs(s.pending)))
      && (forall i, j :: 0 <= i < j < |s.pending| ==> s.pending[i].message != s.pending[j].message)
      && (forall p :: p in s.pending ==> p.info < |s.hist.built| && PoolRead(s.pool, p.message) == s.hist.built[p.info])
      && |SentMessages(s.hist.wire)| == |s.hist.sent|
      && (forall k :: 0 <= k < |s.hist.sent| ==>
            s.hist.sent[k] < |s.hist.built| && SentMessages(s.hist.wire)[k] == s.hist.built[s.hist.sent[k]])
  {
    ReachableInv(events);
    var s := Run(Init(), events);
    forall r | 0 <= r < |s.pool.cells|
      ensures r !in s.pool.free <==> r in Refs(s.pending)
    {
      if r in Refs(s.pending) {
        var p :| p in s.pending && p.message == r;
        assert Stored(p, s.pool, s.hist.built);
      }
    }
    forall p | p in s.pending
      ensures p.info < |s.hist.built| && PoolRead(s.pool, p.message) == s.hist.built[p.info]
    {
      assert Stored(p, s.pool, s.hist.built);
    }
  }

  // ---- Arrival order --------------------------------------------------------------------

  /** `DetermineConcurrencyLimit`; the estimate comes from moving averages and may be anything. */
  function ConcurrencyLimit(limiterDisabled: bool, estimate: Option<nat>, minWorkers: nat, maxWorkers: nat): nat {
    if limiterDisabled then maxWorkers
    else
      var result := if estimate.Some? then estimate.value else SIZE_MAX;
      if result < minWorkers then minWorkers else if maxWorkers < result then maxWorkers else result
  }

  const SIZE_MAX: nat := 0xFFFF_FFFF_FFFF_FFFF

  /** With the limiter on, the limit is the estimate clamped to the configured range, and the upper end without one. */
  lemma LimitIsClamped(estimate: Option<nat>, minWorkers: nat, maxWorkers: nat)
    requires minWorkers <= maxWorkers <= SIZE_MAX
    ensures
      var r := ConcurrencyLimit(false, estimate, minWorkers, maxWorkers);
      && minWorkers <= r <= maxWorkers
      && (estimate.None? ==> r == maxWorkers)
      && (estimate.Some? ==> forall x: nat :: minWorkers <= x <= maxWorkers ==> Distance(estimate.value, r) <= Distance(estimate.value, x))
    ensures ConcurrencyLimit(true, estimate, minWorkers, maxWorkers) == maxWorkers
  {
  }

  function Distance(a: int, b: int): nat { if a <= b then b - a else a - b }

  function PendingInfos(s: State): seq<InfoRef> { seq(|s.pending|, i requires 0 <= i < |s.pending| => s.pending[i].info) }

  /** Calls wait only when nobody is idle, and everything sent arrived before everything that waits. */
  predicate Orderly(s: State) {
    && (s.pending != [] ==> s.idle == [])
    && Increasing(s.hist.sent + PendingInfos(s))
  }

  lemma WithoutOne(all: seq<InfoRef>, n: nat)
    requires Increasing(all) && n < |all|
    ensures Increasing(all[..n] + all[n + 1..])
  {
  }

  /** Sending the first waiting call moves its number over; discarding it drops its number. */
  lemma FirstNumber(s: State, w: ClientId)
    requires s.pending != []
    ensures var p, s', n := s.pending[0], TakeFirst(s), |s.hist.sent|;
      var all, sent, dropped := s.hist.sent + PendingInfos(s), Dispatch(s', w, p), Discard(s', p);
      && sent.hist.sent + PendingInfos(sent) == all
      && n < |all| && dropped.hist.sent + PendingInfos(dropped) == all[..n] + all[n + 1..]
      && sent.idle == s.idle && dropped.idle == s.idle && |dropped.pending| < |s.pending|
  {
  }

  lemma {:induction false} DispatchPendingOrderly(s: State, w: ClientId, policy: Policy)
    requires Increasing(s.hist.sent + PendingInfos(s))
    ensures
      var (s', done) := DispatchPending(s, w, policy);
      Increasing(s'.hist.sent + PendingInfos(s')) && s'.idle == s.idle && (!done ==> s'.pending == [])
    decreases |s.pending|
  {
    if s.pending != [] {
      FirstNumber(s, w);
      var p, s' := s.pending[0], TakeFirst(s);
      if !Keep(s', p, policy) {
        WithoutOne(s.hist.sent + PendingInfos(s), |s.hist.sent|);
        DispatchPendingOrderly(Discard(s', p), w, policy);
      }
    }
  }

  lemma EmployOrderly(s: State, w: ClientId, policy: Policy)
    requires Orderly(s) && (s.pending != [] ==> s.idle == [])
    ensures Orderly(Employ(s, w, policy))
  {
    DispatchPendingOrderly(s, w, policy);
    var (s', done) := DispatchPending(s, w, policy);
    if !done {
      var e := s'.(idle := s'.idle + [w]);
      assert PendingInfos(e) == PendingInfos(s');
    }
  }

  lemma {:induction false} PickIdleEmpty(idle: seq<ClientId>, workers: set<ClientId>, running: map<ClientId, FuncCall>)
    ensures PickIdle(idle, workers, running).1.None? ==> PickIdle(idle, workers, running).0 == []
  {
    if idle != [] { PickIdleEmpty(idle[..|idle| - 1], workers, running); }
  }

  lemma NumbersAreArrivals(s: State)
    requires Inv(s)
    ensures forall i :: i in s.hist.sent + PendingInfos(s) ==> i < |s.hist.built|
  {
    var sent, waiting := s.hist.sent, PendingInfos(s);
    forall k | 0 <= k < |waiting|
      ensures waiting[k] < |s.hist.built|
    {
      assert Waits(s.pending[k], s.assignee, s.hist.ticket, s.hist.built);
    }
  }

  lemma Placed(s: State, s2: State, p: PendingCall)
    requires s2.pending == s.pending
    ensures PendingInfos(s2) == PendingInfos(s) && PendingInfos(Enqueue(s2, p)) == PendingInfos(s) + [p.info]
  {
  }

  /** Where a new call goes: straight to an idle worker, or to the end of the queue. */
  lemma NewCallPlacement(s: State, call: FuncCall, input: Input, now: int, limit: nat)
    requires Inv(s) && call !in s.hist.ticket
    ensures
      var s', n := OnNewCall(s, call, input, now, limit), |s.hist.built|;
      var (idle, w) := PickIdle(s.idle, s.workers, s.running);
      if |s.running| >= limit then
        s'.idle == s.idle && s'.hist.sent == s.hist.sent && PendingInfos(s') == PendingInfos(s) + [n]
      else if w.None? then
        s'.idle == idle && s'.hist.sent == s.hist.sent && PendingInfos(s') == PendingInfos(s) + [n]
      else
        s'.idle == idle && s'.hist.sent == s.hist.sent + [n] && PendingInfos(s') == PendingInfos(s)
  {
    AcceptTable(s.tracer, s.hist.ticket, s.hist.reports, s.hist.built, BuildMessage(call, input), now);
    var (s1, p) := Accept(s, call, input, now);
    var s2 := PickIdleWorker(s1, limit).0;
    assert s2.pending == s.pending && s2.hist.sent == s.hist.sent && p.info == |s.hist.built|;
    Placed(s, s2, p);
  }

  /** The order after number `n`, larger than all others, went to the end of the queue or was sent. */
  lemma OrderlyAfter(s: State, s': State, n: InfoRef)
    requires Orderly(s) && forall i :: i in s.hist.sent + PendingInfos(s) ==> i < n
    requires (s.pending == [] && s'.pending == [] && s'.hist.sent == s.hist.sent + [n])
          || (s'.hist.sent == s.hist.sent && PendingInfos(s') == PendingInfos(s) + [n])
    ensures Orderly(s') <==> s'.pending == [] || s'.idle == []
  {
    var all := s.hist.sent + PendingInfos(s);
    IncreasingAppend(all, n);
    assert s'.hist.sent + PendingInfos(s') == all + [n];
  }

  /**
   A new call keeps the calls waiting only while the idle list is empty exactly when the
   limiter lets it through or the list is empty already.
   */
  lemma NewCallOrderly(s: State, call: FuncCall, input: Input, now: int, limit: nat)
    requires Inv(s) && Orderly(s) && call !in s.hist.ticket
    ensures Orderly(OnNewCall(s, call, input, now, limit)) <==> |s.running| < limit || s.idle == []
  {
    NumbersAreArrivals(s);
    NewCallPlacement(s, call, input, now, limit);
    PickIdleEmpty(s.idle, s.workers, s.running);
    var s' := OnNewCall(s, call, input, now, limit);
    assert |PendingInfos(s')| == |s'.pending| && |PendingInfos(s)| == |s.pending|;
    OrderlyAfter(s, s', |s.hist.built|);
  }

  /** Everything sent arrived before everything that waits, and both in arrival order. */
  predicate InOrder(s: State) { Increasing(s.hist.sent + PendingInfos(s)) }

  /** The call would be sent at once: the limiter lets it through and some connected worker is idle. */
  predicate SentAtOnce(s: State, limit: nat) {
    |s.running| < limit && PickIdle(s.idle, s.workers, s.running).1.Some?
  }

  /** A new call breaks arrival order exactly when it is sent at once although others wait. */
  lemma NewCallInOrderIff(s: State, call: FuncCall, input: Input, now: int, limit: nat)
    requires Inv(s) && InOrder(s) && call !in s.hist.ticket
    ensures InOrder(OnNewCall(s, call, input, now, limit)) <==> !(s.pending != [] && SentAtOnce(s, limit))
  {
    var s' := OnNewCall(s, call, input, now, limit);
    NumbersAreArrivals(s);
    NewCallPlacement(s, call, input, now, limit);
    assert |PendingInfos(s)| == |s.pending|;
    OrderAfterArrival(s.hist.sent, PendingInfos(s), s'.hist.sent, PendingInfos(s'), |s.hist.built|, SentAtOnce(s, limit));
  }

  lemma EmployInOrder(s: State, w: ClientId, policy: Policy)
    requires InOrder(s)
    ensures InOrder(Employ(s, w, policy))
  {
    DispatchPendingOrderly(s, w, policy);
    var (s', done) := DispatchPending(s, w, policy);
    assert !done ==> PendingInfos(s'.(idle := s'.idle + [w])) == PendingInfos(s');
  }

  /** Every step keeps arrival order, except exactly a new call that is sent at once although others wait. */
  lemma StepInOrderIff(s: State, e: Event)
    requires Inv(s) && InOrder(s) && Enabled(s, e)
    ensures InOrder(Step(s, e)) <==> !(e.NewCall? && s.pending != [] && SentAtOnce(s, e.limit))
  {
    match e
    case Connect(w, policy) =>
      var s' := s.(workers := s.workers + {w}, hist := s.hist.(seen := s.hist.seen + {w}));
      assert PendingInfos(s') == PendingInfos(s);
      EmployInOrder(s', w, policy);
    case NewCall(call, input, now, limit) => NewCallInOrderIff(s, call, input, now, limit);
    case ReportFinish(call, policy) => FinishInOrder(s, call, policy);
    case _ => assert PendingInfos(Step(s, e)) == PendingInfos(s);
  }

  lemma FinishInOrder(s: State, call: FuncCall, policy: Policy)
    requires InOrder(s)
    ensures InOrder(OnReportFinish(s, call, policy))
  {
    if call in s.assignee && s.assignee[call] in s.workers {
      var s' := s.(running := s.running - {s.assignee[call]});
      assert PendingInfos(s') == PendingInfos(s);
      EmployInOrder(s', s.assignee[call], policy);
      var t := Employ(s', s.assignee[call], policy);
      assert PendingInfos(Release(t, call)) == PendingInfos(t);
    } else {
      assert PendingInfos(Release(s, call)) == PendingInfos(s);
    }
  }

  /** A `uint16_t` has 65536 values, so the running table never reaches `SIZE_MAX` entries. */
  lemma RunningIsSmall(running: map<ClientId, FuncCall>)
    ensures |running| <= 0x1_0000 < SIZE_MAX
  {
    BelowCard(running.Keys, 0x1_0000);
  }

  lemma {:induction false} BelowCard(s: set<nat>, n: nat)
    requires forall x :: x in s ==> x < n
    ensures |s| <= n
  {
    if n > 0 {
      BelowCard(s - {n - 1}, n - 1);
    }
  }

  lemma StepOrderly(s: State, e: Event)
    requires Inv(s) && Orderly(s) && Enabled(s, e)
    requires e.NewCall? ==> e.limit == SIZE_MAX
    ensures Orderly(Step(s, e))
  {
    match e
    case Connect(w, policy) =>
      var s' := s.(workers := s.workers + {w}, hist := s.hist.(seen := s.hist.seen + {w}));
      assert PendingInfos(s') == PendingInfos(s);
      EmployOrderly(s', w, policy);
    case NewCall(call, input, now, limit) =>
      RunningIsSmall(s.running);
      NewCallOrderly(s, call, input, now, limit);
    case ReportFinish(call, policy) =>
      var w := s.assignee[call];
      var s' := s.(running := s.running - {w});
      assert PendingInfos(s') == PendingInfos(s);
      if w in s.workers {
        EmployOrderly(s', w, policy);
        assert PendingInfos(Release(Employ(s', w, policy), call)) == PendingInfos(Employ(s', w, policy));
      } else {
        assert PendingInfos(Release(s, call)) == PendingInfos(s);
      }
    case _ =>
      assert PendingInfos(Step(s, e)) == PendingInfos(s);
  }

  lemma {:induction false} RunOrderly(s: State, events: seq<Event>)
    requires Inv(s) && Orderly(s) && Feasible(s, events)
    requires forall e :: e in events && e.NewCall? ==> e.limit == SIZE_MAX
    ensures Inv(Run(s, events)) && Orderly(Run(s, events))
    decreases |events|
  {
    if events != [] {
      StepOrderly(s, events[0]);
      StepKeepsInv(s, events[0]);
      RunOrderly(Step(s, events[0]), events[1..]);
    }
  }

  /**
   With the limiter disabled and no `maxWorkers`, calls wait only when no connected worker is
   idle, and the dispatches followed by the waiting calls are all arrivals in arrival order
   with exactly the discarded ones missing.
   */
  lemma DispatchFollowsArrival(events: seq<Event>, estimate: Option<nat>, minWorkers: nat)
    requires Feasible(Init(), events)
    requires forall e :: e in events && e.NewCall? ==> e.limit == ConcurrencyLimit(true, estimate, minWorkers, SIZE_MAX)
    ensures
      var s := Run(Init(), events);
      && (s.pending != [] ==> forall w :: w in s.workers ==> w in s.running)
      && Increasing(s.hist.sent + PendingInfos(s))
      && (forall i :: 0 <= i < |s.hist.built| ==> (i in s.hist.sent + PendingInfos(s) <==> i !in s.hist.discarded))
  {
    InitInv();
    RunOrderly(Init(), events);
    OrderlyFollowsArrival(Run(Init(), events));
  }

  lemma OrderlyFollowsArrival(s: State)
    requires Inv(s) && Orderly(s)
    ensures s.pending != [] ==> forall w :: w in s.workers ==> w in s.running
    ensures forall i :: 0 <= i < |s.hist.built| ==> (i in s.hist.sent + PendingInfos(s) <==> i !in s.hist.discarded)
  {
    forall i | 0 <= i < |s.hist.built|
      ensures i in s.hist.sent + PendingInfos(s) <==> i !in s.hist.discarded
    {
      OnlyDiscardedAreMissing(s, i);
    }
  }

  lemma OnlyDiscardedAreMissing(s: State, i: InfoRef)
    requires Inv(s) && i < |s.hist.built|
    ensures i in s.hist.sent + PendingInfos(s) <==> i !in s.hist.discarded
  {
    PartitionFromInv(s, i);
    PendingNumbers(s, i);
  }

  lemma PendingNumbers(s: State, i: InfoRef)
    ensures IsPending(s, i) <==> i in PendingInfos(s)
  {
    if IsPending(s, i) {
      var p :| p in s.pending && p.info == i;
      var k :| 0 <= k < |s.pending| && s.pending[k] == p;
      assert PendingInfos(s)[k] == i;
    }
    if i in PendingInfos(s) {
      var k :| 0 <= k < |s.pending| && PendingInfos(s)[k] == i;
      assert s.pending[k] in s.pending;
    }
  }

  /**
   What happens when that condition fails: a call refused by the limiter while a worker is
   idle is overtaken by the next call that the limiter lets through.
   */
  lemma RefusedCallIsOvertaken(s: State, b: FuncCall, c: FuncCall, input: Input, now: int, low: nat, high: nat)
    requires Inv(s) && b !in s.hist.ticket && c !in s.hist.ticket && b != c
    requires low <= |s.running| < high
    requires PickIdle(s.idle, s.workers, s.running).1.Some?
    ensures
      var s1 := OnNewCall(s, b, input, now, low);
      var s2, n := OnNewCall(s1, c, input, now, high), |s.hist.built|;
      s2.hist.sent == s.hist.sent + [n + 1] && PendingInfos(s2) == PendingInfos(s) + [n]
  {
    OnNewCallOk(s, b, input, now, low);
    NewCallPlacement(s, b, input, now, low);
    NewCallPlacement(OnNewCall(s, b, input, now, low), c, input, now, high);
  }
}
