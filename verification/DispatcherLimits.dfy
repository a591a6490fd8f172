/** Exactly when calls are discarded or overtaken, with runs in which it happens. */
module DispatcherLimits {
  import opened Collections
  import opened Bytes
  import opened Protocol
  import opened Dispatcher
  import opened DispatcherInvariants
  import opened DispatcherRuns

  // ---- Discarding ---------------------------------------------------------------------------

  /** The front call is a worker's, the flag is set, and the time since its record was made exceeds flag times average. */
  predicate Overdue(s: State, policy: Policy) {
    && s.pending != []
    && var front := s.pending[0];
       var received := if front.info < |s.tracer.pool| then s.tracer.pool[front.info].recvTimestamp else 0;
       && PoolRead(s.pool, front.message).call.clientId != 0
       && policy.maxRelativeDelay != 0.0
       && (policy.now - received) as real > policy.maxRelativeDelay * policy.averageTime
  }

  /** A worker of this event looks for a pending call, under this policy. */
  function Search(s: State, e: Event): Option<Policy> {
    if e.Connect? then Some(e.policy)
    else if e.ReportFinish? && e.call in s.assignee && s.assignee[e.call] in s.workers then Some(e.policy)
    else None
  }

  lemma {:induction false} DiscardsGrow(s: State, w: ClientId, policy: Policy)
    ensures s.hist.discarded <= DispatchPending(s, w, policy).0.hist.discarded
    decreases |s.pending|
  {
    if s.pending != [] && !Keep(TakeFirst(s), s.pending[0], policy) {
      DiscardsGrow(Discard(TakeFirst(s), s.pending[0]), w, policy);
    }
  }

  lemma SearchDiscardsIff(s: State, w: ClientId, policy: Policy)
    requires s.pending != [] ==> s.pending[0].info !in s.hist.discarded
    ensures DispatchPending(s, w, policy).0.hist.discarded != s.hist.discarded <==> Overdue(s, policy)
  {
    if Overdue(s, policy) {
      var s' := Discard(TakeFirst(s), s.pending[0]);
      DiscardsGrow(s', w, policy);
      assert s.pending[0].info in s'.hist.discarded;
    }
  }

  lemma FrontIsNotDiscarded(s: State)
    requires Inv(s) && s.pending != []
    ensures s.pending[0].info !in s.hist.discarded
  {
    var p := s.pending[0];
    assert p in s.pending && Waits(p, s.assignee, s.hist.ticket, s.hist.built);
    assert Live(p.info, s.hist.ticket, s.hist.built);
  }

  /** The overdue test looks at the queue, the pool and the trace records only. */
  lemma EmployDiscardsIff(s: State, s': State, w: ClientId, policy: Policy)
    requires s'.pending == s.pending && s'.pool == s.pool && s'.tracer == s.tracer && s'.hist.discarded == s.hist.discarded
    requires s.pending != [] ==> s.pending[0].info !in s.hist.discarded
    ensures Employ(s', w, policy).hist.discarded != s.hist.discarded <==> Overdue(s, policy)
  {
    SearchDiscardsIff(s', w, policy);
    assert Overdue(s', policy) <==> Overdue(s, policy);
  }

  lemma NewCallDiscardsNothing(s: State, call: FuncCall, input: Input, now: int, limit: nat)
    ensures OnNewCall(s, call, input, now, limit).hist.discarded == s.hist.discarded
  {
    var (s1, p) := Accept(s, call, input, now);
    assert s1.hist.discarded == s.hist.discarded;
  }

  lemma FinishDiscardsIff(s: State, call: FuncCall, policy: Policy)
    requires s.pending != [] ==> s.pending[0].info !in s.hist.discarded
    ensures OnReportFinish(s, call, policy).hist.discarded != s.hist.discarded <==>
      call in s.assignee && s.assignee[call] in s.workers && Overdue(s, policy)
  {
    if call in s.assignee && s.assignee[call] in s.workers {
      EmployDiscardsIff(s, s.(running := s.running - {s.assignee[call]}), s.assignee[call], policy);
    }
  }

  lemma StepDiscardsFrom(s: State, e: Event)
    requires s.pending != [] ==> s.pending[0].info !in s.hist.discarded
    ensures Step(s, e).hist.discarded != s.hist.discarded <==> Search(s, e).Some? && Overdue(s, Search(s, e).value)
  {
    match e
    case Connect(w, policy) =>
      EmployDiscardsIff(s, s.(workers := s.workers + {w}, hist := s.hist.(seen := s.hist.seen + {w})), w, policy);
    case NewCall(call, input, now, limit) => NewCallDiscardsNothing(s, call, input, now, limit);
    case ReportFinish(call, policy) => FinishDiscardsIff(s, call, policy);
    case _ =>
  }

  /** A step discards calls exactly when its worker looks for a pending call and the front one is overdue. */
  lemma StepDiscardsIff(s: State, e: Event)
    requires Inv(s) && Enabled(s, e)
    ensures Step(s, e).hist.discarded != s.hist.discarded <==> Search(s, e).Some? && Overdue(s, Search(s, e).value)
  {
    if s.pending != [] { FrontIsNotDiscarded(s); }
    StepDiscardsFrom(s, e);
  }

  predicate Patient(e: Event) {
    (e.Connect? || e.ReportFinish?) ==> e.policy.maxRelativeDelay == 0.0
  }

  lemma {:induction false} PatientRun(s: State, events: seq<Event>)
    requires Inv(s) && Feasible(s, events) && forall e :: e in events ==> Patient(e)
    ensures Run(s, events).hist.discarded == s.hist.discarded
    decreases |events|
  {
    if events != [] {
      assert events[0] in events;
      StepDiscardsIff(s, events[0]);
      StepKeepsInv(s, events[0]);
      PatientRun(Step(s, events[0]), events[1..]);
    }
  }

  /** With the delay test switched off nothing is ever discarded, and the counter counts the live unreported calls. */
  lemma NoLimitNoLeak(events: seq<Event>)
    requires Feasible(Init(), events) && forall e :: e in events ==> Patient(e)
    ensures
      var s := Run(Init(), events);
      s.hist.discarded == {} && s.tracer.inflight == |s.hist.ticket| - |s.hist.reports|
  {
    InitInv();
    PatientRun(Init(), events);
    InflightIsAcceptedMinusReported(events);
  }

  // ---- Concrete runs ------------------------------------------------------------------------

  lemma Cons(s: State, e: Event, rest: seq<Event>)
    ensures Run(s, [e] + rest) == Run(Step(s, e), rest)
    ensures Feasible(s, [e] + rest) <==> Enabled(s, e) && Feasible(Step(s, e), rest)
  {
    assert ([e] + rest)[1..] == rest;
  }

  const PATIENT: Policy := Policy(0, 0.0, 0.0)
  const IMPATIENT: Policy := Policy(100, 1.0, 1.0)

  function OuterCall(): FuncCall { FuncCall(1, 0, 0, 1) }
  function InnerCall(): FuncCall { FuncCall(1, 0, 2, 1) }

  /** One idle worker; the limiter refuses the first call and lets the second through. */
  function OvertakingRun(): seq<Event> {
    [Connect(1, PATIENT)] + ([NewCall(InnerCall(), InlineInput([]), 0, 0)] + ([NewCall(OuterCall(), InlineInput([]), 0, 1)] + []))
  }

  /** The second arrival is sent while the first one still waits. */
  lemma OvertakingRunOvertakes()
    ensures Feasible(Init(), OvertakingRun())
    ensures Run(Init(), OvertakingRun()).hist.sent == [1] && PendingInfos(Run(Init(), OvertakingRun())) == [0]
  {
    var b, c, none := InnerCall(), OuterCall(), InlineInput([]);
    InitInv();
    StepKeepsInv(Init(), Connect(1, PATIENT));
    assert Step(Init(), Connect(1, PATIENT)) == Leak1();
    TwoArrivals(Leak1(), b, c, none);
    Cons(Init(), Connect(1, PATIENT), [NewCall(b, none, 0, 0)] + ([NewCall(c, none, 0, 1)] + []));
  }

  lemma TwoArrivals(s: State, b: FuncCall, c: FuncCall, input: Input)
    requires Inv(s) && s.idle == [1] && s.workers == {1} && s.running == map[] && s.pending == [] && s.hist.ticket == map[]
    requires s.hist.built == [] && s.hist.sent == [] && b != c
    ensures
      var events := [NewCall(b, input, 0, 0)] + ([NewCall(c, input, 0, 1)] + []);
      Feasible(s, events) && Run(s, events).hist.sent == [1] && PendingInfos(Run(s, events)) == [0]
  {
    RefusedCallIsOvertaken(s, b, c, input, 0, 0, 1);
    TicketOfNew(s, b, input, 0, 0);
    var s2 := Step(s, NewCall(b, input, 0, 0));
    Cons(s2, NewCall(c, input, 0, 1), []);
    Cons(s, NewCall(b, input, 0, 0), [NewCall(c, input, 0, 1)] + []);
  }

  lemma TicketOfNew(s: State, call: FuncCall, input: Input, now: int, limit: nat)
    ensures OnNewCall(s, call, input, now, limit).hist.ticket.Keys == s.hist.ticket.Keys + {call}
  {
    var (s1, p) := Accept(s, call, input, now);
    assert s1.hist.ticket == s.hist.ticket[call := p.info];
  }

  /**
   One worker runs a call while a call of another worker waits; by the time the first is
   reported the second is overdue.
   */
  function LeakingRun(a: FuncCall, b: FuncCall): seq<Event> {
    [Connect(1, PATIENT)] + ([NewCall(a, InlineInput([]), 0, 9)] + ([NewCall(b, InlineInput([]), 0, 9)]
      + ([ReportBegin(1, true)] + ([ReportErase(a)] + ([ReportFinish(a, IMPATIENT)] + [])))))
  }

  function Built(c: FuncCall): Message { BuildMessage(c, InlineInput([])) }

  /** The states of that run, one after the other. */
  function Leak1(): State {
    Init().(workers := {1}, idle := [1], hist := Init().hist.(seen := {1}))
  }

  function Leak2(a: FuncCall): State {
    State({1}, map[1 := a], [], Pool([0], [Built(a)]), [], map[a := 1],
          Tracer(map[a := 0], [CallInfo(a, 0, Dispatched, 1)], 1),
          History({1}, [Send(1, Built(a))], map[], map[a := 0], [Built(a)], [0], {}, {}))
  }

  function Leak3(a: FuncCall, b: FuncCall): State {
    State({1}, map[1 := a], [], Pool([], [Built(b)]), [PendingCall(0, 1)], map[a := 1],
          Tracer(map[a := 0, b := 1], [CallInfo(a, 0, Dispatched, 1), CallInfo(b, 0, Received, 0)], 2),
          History({1}, [Send(1, Built(a))], map[], map[a := 0, b := 1], [Built(a), Built(b)], [0], {}, {}))
  }

  /** After the worker's report was counted and the tracer forgot the call. */
  function Leak5(a: FuncCall, b: FuncCall): State {
    State({1}, map[1 := a], [], Pool([], [Built(b)]), [PendingCall(0, 1)], map[a := 1],
          Tracer(map[b := 1], [CallInfo(a, 0, Completed, 1), CallInfo(b, 0, Received, 0)], 1),
          History({1}, [Send(1, Built(a)), Report(1, a)], map[a := Erased(true)], map[a := 0, b := 1], [Built(a), Built(b)], [0], {}, {}))
  }

  lemma LeakFirst(a: FuncCall)
    ensures Step(Leak1(), NewCall(a, InlineInput([]), 0, 9)) == Leak2(a)
  {
    var (s1, p) := Accept(Leak1(), a, InlineInput([]), 0);
    assert s1.pool == Pool([], [Built(a)]) && p == PendingCall(0, 0);
    assert s1.tracer == Tracer(map[a := 0], [CallInfo(a, 0, Received, 0)], 1);
    assert PickIdleWorker(s1, 9) == (s1.(idle := []), Some(1));
  }

  lemma LeakSecond(a: FuncCall, b: FuncCall)
    requires a != b
    ensures Step(Leak2(a), NewCall(b, InlineInput([]), 0, 9)) == Leak3(a, b)
  {
    var (s1, p) := Accept(Leak2(a), b, InlineInput([]), 0);
    assert s1.pool == Pool([], [Built(b)]) && p == PendingCall(0, 1);
    assert s1.tracer == Leak3(a, b).tracer;
    assert PickIdleWorker(s1, 9) == (s1, None);
  }

  lemma HeldAfterSend(a: FuncCall)
    ensures Holding([Send(1, Built(a))]) == map[1 := a]
  {
    WireSend([], 1, Built(a));
    assert [] + [Send(1, Built(a))] == [Send(1, Built(a))];
  }

  lemma LeakReport(a: FuncCall, b: FuncCall)
    requires a != b
    ensures 1 in Holding(Leak3(a, b).hist.wire)
    ensures
      var s4 := Step(Leak3(a, b), ReportBegin(1, true));
      && a in s4.hist.reports && s4.hist.reports[a].Counted?
      && Step(s4, ReportErase(a)) == Leak5(a, b)
  {
    HeldAfterSend(a);
    var s3, s4 := Leak3(a, b), Step(Leak3(a, b), ReportBegin(1, true));
    assert s4 == OnReport(s3, 1, a, true);
    assert s4.tracer == Tracer(map[a := 0, b := 1], Leak5(a, b).tracer.pool, 1);
    assert map[a := 0, b := 1] - {a} == map[b := 1];
  }

  lemma LeakDiscard(a: FuncCall, b: FuncCall)
    requires a != b && b.clientId != 0
    ensures
      var s := Step(Leak5(a, b), ReportFinish(a, IMPATIENT));
      && s.hist.ticket == map[] && s.hist.reports == map[] && s.pending == [] && s.running == map[]
      && s.hist.discarded == {1} && s.tracer.inflight == 1
  {
    var s := Leak5(a, b).(running := map[1 := a] - {1});
    var p, s' := PendingCall(0, 1), TakeFirst(s);
    assert s.running == map[];
    assert !Keep(s', p, IMPATIENT);
    var d := Discard(s', p);
    assert d.pending == [] && d.hist.discarded == {1} && d.hist.ticket == map[a := 0, b := 1] - {b};
    assert DispatchPending(s, 1, IMPATIENT) == (d, false);
    assert d.hist.ticket - {a} == map[] && d.hist.reports - {a} == map[];
  }

  /** Nothing is pending, running or reported any more, and the in-flight counter still says one. */
  lemma LeakingRunLeaks(a: FuncCall, b: FuncCall)
    requires a != b && b.clientId != 0
    ensures Feasible(Init(), LeakingRun(a, b))
    ensures
      var s := Run(Init(), LeakingRun(a, b));
      && s.hist.ticket == map[] && s.hist.reports == map[] && s.pending == [] && s.running == map[]
      && s.hist.discarded == {1} && s.tracer.inflight == 1
  {
    LeakConnect();
    LeakFirst(a);
    LeakSecond(a, b);
    LeakReport(a, b);
    LeakDiscard(a, b);
    var s4 := Step(Leak3(a, b), ReportBegin(1, true));
    var e1, e2, e3 := Connect(1, PATIENT), NewCall(a, InlineInput([]), 0, 9), NewCall(b, InlineInput([]), 0, 9);
    SixEvents(Init(), Leak1(), Leak2(a), Leak3(a, b), s4, Leak5(a, b), e1, e2, e3, ReportBegin(1, true), ReportErase(a), ReportFinish(a, IMPATIENT));
    LeakEnabled(a, b, s4);
  }

  lemma LeakConnect()
    ensures Step(Init(), Connect(1, PATIENT)) == Leak1()
  {
  }

  lemma LeakEnabled(a: FuncCall, b: FuncCall, s4: State)
    requires a != b && 1 in Holding(Leak3(a, b).hist.wire) && a in s4.hist.reports && s4.hist.reports[a].Counted?
    ensures Enabled(Init(), Connect(1, PATIENT)) && Enabled(Leak1(), NewCall(a, InlineInput([]), 0, 9))
    ensures Enabled(Leak2(a), NewCall(b, InlineInput([]), 0, 9)) && Enabled(Leak3(a, b), ReportBegin(1, true))
    ensures Enabled(s4, ReportErase(a)) && Enabled(Leak5(a, b), ReportFinish(a, IMPATIENT))
  {
  }

  lemma SixEvents(s0: State, s1: State, s2: State, s3: State, s4: State, s5: State,
                  e1: Event, e2: Event, e3: Event, e4: Event, e5: Event, e6: Event)
    requires s1 == Step(s0, e1) && s2 == Step(s1, e2) && s3 == Step(s2, e3) && s4 == Step(s3, e4) && s5 == Step(s4, e5)
    ensures
      var events := [e1] + ([e2] + ([e3] + ([e4] + ([e5] + ([e6] + [])))));
      && Run(s0, events) == Step(s5, e6)
      && (Feasible(s0, events) <==> Enabled(s0, e1) && Enabled(s1, e2) && Enabled(s2, e3) && Enabled(s3, e4) && Enabled(s4, e5) && Enabled(s5, e6))
  {
    Cons(s5, e6, []);
    Cons(s4, e5, [e6] + []);
    Cons(s3, e4, [e5] + ([e6] + []));
    Cons(s2, e3, [e4] + ([e5] + ([e6] + [])));
    Cons(s1, e2, [e3] + ([e4] + ([e5] + ([e6] + []))));
    Cons(s0, e1, [e2] + ([e3] + ([e4] + ([e5] + ([e6] + [])))));
  }
}
