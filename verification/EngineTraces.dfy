/**
 What the engine tells the gateway and what it hands to its dispatchers, read off the list of
 events: which answers go out with which verdict, which message carries which input, and which
 calls are put on the discard list.
 */
module EngineTraces {
  import opened Collections
  import opened Bytes
  import opened Protocol
  import D = Dispatcher
  import DI = DispatcherInvariants
  import opened DispatcherInvariants
  import R = DispatcherRuns
  import DT = DispatcherTraces
  import P = Payload
  import opened Engine

  // ---- Answers ------------------------------------------------------------------------------

  /** The verdict of the last report received for each call. */
  function Heard(s: State, e: Event, verdicts: map<FuncCall, bool>): map<FuncCall, bool> {
    if e.ReportReceived? && e.w in Holding(DispatcherOf(s, e.func).hist.wire)
    then verdicts[Holding(DispatcherOf(s, e.func).hist.wire)[e.w] := e.success]
    else verdicts
  }

  /**
   What an event makes the engine tell the gateway: a reported external call is answered with
   its verdict, as a failure if its output is missing; a call of an unknown function or without
   an input region is answered as failed; nothing else is answered.
   */
  function AnswersTo(e: Event, verdicts: map<FuncCall, bool>): seq<Answer> {
    match e
    case Reply(c, outputFound) =>
      if c.clientId == 0 then [Answer(c, c in verdicts && verdicts[c] && outputFound)] else []
    case Reject(c) => [Answer(c, false)]
    case Receive(c, data, shmCreated) => if |data| > 960 && !shmCreated then [Answer(c, false)] else []
    case _ => []
  }

  function Expected(s: State, events: seq<Event>, known: set<nat>, verdicts: map<FuncCall, bool>): seq<Answer>
    decreases |events|
  {
    if events == [] then []
    else
      var e := events[0];
      AnswersTo(e, verdicts) + Expected(Step(s, e, known), events[1..], known, Heard(s, e, verdicts))
  }

  /** Reports on their way through the engine keep the verdict they came with. */
  ghost predicate Agree(returning: map<FuncCall, Return>, verdicts: map<FuncCall, bool>) {
    forall c :: c in returning ==> c in verdicts && verdicts[c] == returning[c].success
  }

  lemma StepAnswers(s: State, e: Event, known: set<nat>, verdicts: map<FuncCall, bool>)
    requires TablesOk(s) && Enabled(s, e, known) && Agree(s.hist.returning, verdicts)
    ensures Step(s, e, known).books.answers == s.books.answers + AnswersTo(e, verdicts)
  {
    if e.Process? { ProcessOk(s, known); } else { SectionAnswers(s, e, known, verdicts); }
  }

  lemma SectionAnswers(s: State, e: Event, known: set<nat>, verdicts: map<FuncCall, bool>)
    requires !e.Process? && Enabled(s, e, known) && Agree(s.hist.returning, verdicts)
    ensures Step(s, e, known).books.answers == s.books.answers + AnswersTo(e, verdicts)
  {
    match e
    case Inner(f, event) => assert Step(s, e, known).books.answers == s.books.answers;
    case _ =>
  }

  lemma StepAgrees(s: State, e: Event, known: set<nat>, verdicts: map<FuncCall, bool>)
    requires Enabled(s, e, known) && Agree(s.hist.returning, verdicts)
    requires e.Inner? && e.event.ReportFinish? ==> e.event.call in s.hist.returning
    ensures Agree(Step(s, e, known).hist.returning, Heard(s, e, verdicts))
  {
  }

  /** A report that a dispatcher finishes is one the engine is handling. */
  lemma FinishedReturns(s: State, e: Event, known: set<nat>)
    requires EngineInv(s) && Enabled(s, e, known) && e.Inner? && e.event.ReportFinish?
    ensures e.event.call in s.hist.returning
  {
    FinishIsReported(s, e.func, e.event, known);
    ReportedReturns(s.dispatchers, s.hist, e.func, e.event.call);
  }

  lemma FinishIsReported(s: State, f: nat, e: R.Event, known: set<nat>)
    requires Enabled(s, Inner(f, e), known) && e.ReportFinish?
    ensures f in s.dispatchers && e.call in s.dispatchers[f].hist.reports
  {
  }

  lemma ReportedReturns(ds: Dispatchers, h: History, f: nat, c: FuncCall)
    requires DispatchersOk(ds) && ReturnsOk(ds, h) && f in ds && c in ds[f].hist.reports
    ensures c in h.returning
  {
    ReportsBelong(ds, f, c);
  }

  /** Over any run the engine answers exactly as the reports and arrivals demand, in order, verdicts included. */
  lemma {:induction false} AnswersFollowReports(s: State, events: seq<Event>, known: set<nat>, verdicts: map<FuncCall, bool>)
    requires EngineInv(s) && Feasible(s, events, known) && Agree(s.hist.returning, verdicts)
    ensures Run(s, events, known).books.answers == s.books.answers + Expected(s, events, known, verdicts)
    decreases |events|
  {
    if events != [] {
      var s', heard := Step(s, events[0], known), Heard(s, events[0], verdicts);
      StepAnswers(s, events[0], known, verdicts);
      if events[0].Inner? && events[0].event.ReportFinish? { FinishedReturns(s, events[0], known); }
      StepAgrees(s, events[0], known, verdicts);
      StepKeepsInv(s, events[0], known);
      AnswersFollowReports(s', events[1..], known, heard);
      AssociateAnswers(s.books.answers, AnswersTo(events[0], verdicts), Expected(s', events[1..], known, heard));
    }
  }

  lemma AssociateAnswers(a: seq<Answer>, b: seq<Answer>, c: seq<Answer>)
    ensures a + b + c == a + (b + c)
  {
  }

  lemma EveryAnswerIsExpected(events: seq<Event>, known: set<nat>)
    requires Feasible(Init(), events, known)
    ensures Run(Init(), events, known).books.answers == Expected(Init(), events, known, map[])
  {
    assert EngineInv(Init());
    AnswersFollowReports(Init(), events, known, map[]);
    assert [] + Expected(Init(), events, known, map[]) == Expected(Init(), events, known, map[]);
  }

  // ---- Configured functions -------------------------------------------------------------------

  /** Only configured functions have dispatchers; a call is rejected exactly for a function that is not configured. */
  ghost predicate ConfiguredOnly(s: State, known: set<nat>) {
    && s.dispatchers.Keys <= known
    && (forall c :: c in s.hist.arriving && s.hist.arriving[c].Stored? ==> c.funcId in known)
    && (forall c :: c in s.hist.arriving && s.hist.arriving[c].Unknown? ==> c.funcId !in known)
  }

  lemma {:induction false} RunStaysConfigured(s: State, events: seq<Event>, known: set<nat>)
    requires ConfiguredOnly(s, known) && Feasible(s, events, known)
    ensures ConfiguredOnly(Run(s, events, known), known)
    decreases |events|
  {
    if events != [] {
      StepStaysConfigured(s, events[0], known);
      RunStaysConfigured(Step(s, events[0], known), events[1..], known);
    }
  }

  lemma StepStaysConfigured(s: State, e: Event, known: set<nat>)
    requires ConfiguredOnly(s, known) && Enabled(s, e, known)
    ensures ConfiguredOnly(Step(s, e, known), known)
  {
  }

  // ---- Inputs of external calls ---------------------------------------------------------------

  /** The dispatch message of an external call, read by its worker, gives exactly the input the gateway sent. */
  lemma ExternalInputArrives(w: P.World, call: FuncCall, data: seq<byte>)
    requires |data| < P.MAX_PAYLOAD
    requires |data| > 960 ==> P.ShmRead(w, P.InputOf(FullCallId(call))) == Some(data)
    ensures
      var m := D.BuildMessage(call, InputOf(data));
      && m.call == call && m.kind == DispatchFuncCall
      && m.payloadSize == (if |data| > 960 then -|data| else |data|)
      && P.GetFuncCallInput(w, m) == Some(data)
  {
    if |data| <= INLINE_DATA_SIZE { P.InlineRoundTrip(NewMessage(DispatchFuncCall, call), data); }
  }

  /** The message a dispatcher keeps for a live external call is the one made from its input. */
  ghost predicate Carries(d: D.State, c: FuncCall, data: seq<byte>) {
    c in d.hist.ticket && d.hist.ticket[c] < |d.hist.built| && d.hist.built[d.hist.ticket[c]] == D.BuildMessage(c, InputOf(data))
  }

  ghost predicate CarriedOk(ds: Dispatchers, open: map<FuncCall, seq<byte>>) {
    forall c :: c in open && External(c) && Tracked(ds, c) ==> Carries(ds[c.funcId], c, open[c])
  }

  /** A dispatcher that lost tickets and kept its messages. */
  ghost predicate Shrunk(d: D.State, d': D.State) {
    && d'.hist.built == d.hist.built
    && (forall c :: c in d'.hist.ticket ==> c in d.hist.ticket && d'.hist.ticket[c] == d.hist.ticket[c])
  }

  lemma {:induction false} SearchShrinks(s: D.State, w: D.ClientId, policy: D.Policy)
    ensures Shrunk(s, D.DispatchPending(s, w, policy).0)
    decreases |s.pending|
  {
    if s.pending != [] && !D.Keep(D.TakeFirst(s), s.pending[0], policy) {
      SearchShrinks(D.Discard(D.TakeFirst(s), s.pending[0]), w, policy);
    }
  }

  lemma InnerShrinks(d: D.State, e: R.Event)
    requires !e.NewCall?
    ensures Shrunk(d, R.Step(d, e))
  {
    match e
    case Connect(w, policy) =>
      SearchShrinks(d.(workers := d.workers + {w}, hist := d.hist.(seen := d.hist.seen + {w})), w, policy);
    case ReportFinish(call, policy) =>
      if call in d.assignee && d.assignee[call] in d.workers {
        SearchShrinks(d.(running := d.running - {d.assignee[call]}), d.assignee[call], policy);
      }
    case _ =>
  }

  /** A dispatcher that took in one call. */
  ghost predicate Extended(d: D.State, d': D.State, call: FuncCall, input: D.Input) {
    && d'.hist.built == d.hist.built + [D.BuildMessage(call, input)]
    && d'.hist.ticket == d.hist.ticket[call := |d.hist.built|]
  }

  lemma PlaceKeepsTickets(s: D.State, w: Option<D.ClientId>, p: D.PendingCall)
    ensures
      var s' := if w.Some? then D.Dispatch(s, w.value, p) else D.Enqueue(s, p);
      s'.hist.built == s.hist.built && s'.hist.ticket == s.hist.ticket
  {
  }

  lemma NewCallExtends(d: D.State, call: FuncCall, input: D.Input, now: int, limit: nat)
    requires D.TraceNew(d.tracer, call, now).1 == Some(|d.hist.built|)
    ensures Extended(d, D.OnNewCall(d, call, input, now, limit), call, input)
  {
    AcceptShape(d, call, input, now);
    var (s1, p) := D.Accept(d, call, input, now);
    var (s2, w) := D.PickIdleWorker(s1, limit);
    assert s2.hist == s1.hist;
    PlaceKeepsTickets(s2, w, p);
  }

  lemma FreshTicket(f: nat, d: D.State, call: FuncCall, now: int)
    requires Healthy(f, d) && call !in d.hist.ticket
    ensures D.TraceNew(d.tracer, call, now).1 == Some(|d.hist.built|)
    ensures forall c :: c in d.hist.ticket ==> d.hist.ticket[c] < |d.hist.built|
  {
    assert call !in d.tracer.infos && |d.tracer.pool| == |d.hist.built|;
  }

  lemma CarriedAfterNew(ds: Dispatchers, open: map<FuncCall, seq<byte>>, call: FuncCall, d: D.State, d': D.State, input: D.Input)
    requires CarriedOk(ds, open) && d == (if call.funcId in ds then ds[call.funcId] else D.Init()) && Extended(d, d', call, input)
    requires forall c :: c in d.hist.ticket ==> d.hist.ticket[c] < |d.hist.built|
    requires External(call) ==> call in open && input == InputOf(open[call])
    ensures CarriedOk(ds[call.funcId := d'], open)
  {
    var ds' := ds[call.funcId := d'];
    forall c | c in open && External(c) && Tracked(ds', c) ensures Carries(ds'[c.funcId], c, open[c]) {
      if c.funcId == call.funcId && c != call { assert Tracked(ds, c) && Carries(ds[c.funcId], c, open[c]); }
    }
  }

  lemma CarriedAfterInner(ds: Dispatchers, open: map<FuncCall, seq<byte>>, f: nat, d: D.State, d': D.State)
    requires CarriedOk(ds, open) && d == (if f in ds then ds[f] else D.Init()) && Shrunk(d, d')
    ensures CarriedOk(ds[f := d'], open)
  {
    var ds' := ds[f := d'];
    forall c | c in open && External(c) && Tracked(ds', c) ensures Carries(ds'[c.funcId], c, open[c]) {
      assert Tracked(ds, c) && Carries(ds[c.funcId], c, open[c]);
    }
  }

  lemma StepCarries(s: State, e: Event, known: set<nat>)
    requires EngineInv(s) && Enabled(s, e, known) && CarriedOk(s.dispatchers, s.hist.open)
    ensures CarriedOk(Step(s, e, known).dispatchers, Step(s, e, known).hist.open)
  {
    DispatchersAfter(s, e, known);
    if e.Inner? {
      InnerCarries(s, e.func, e.event, known);
    } else if e.Submit? || e.Invoke? {
      AddedCarries(s, e, known);
    } else {
      OwnStepCarries(s, e, known);
    }
  }

  lemma OwnStepCarries(s: State, e: Event, known: set<nat>)
    requires !e.Inner? && !e.Submit? && !e.Invoke? && Enabled(s, e, known) && CarriedOk(s.dispatchers, s.hist.open)
    ensures CarriedOk(Step(s, e, known).dispatchers, Step(s, e, known).hist.open)
  {
    var ds', open' := Step(s, e, known).dispatchers, Step(s, e, known).hist.open;
    forall c | c in open' && External(c) && Tracked(ds', c) ensures Carries(ds'[c.funcId], c, open'[c]) {
      assert Tracked(s.dispatchers, c) && ds'[c.funcId] == s.dispatchers[c.funcId];
      assert c in s.hist.open && open'[c] == s.hist.open[c];
    }
  }

  lemma InnerCarries(s: State, f: nat, e: R.Event, known: set<nat>)
    requires Enabled(s, Inner(f, e), known) && CarriedOk(s.dispatchers, s.hist.open)
    ensures CarriedOk(Step(s, Inner(f, e), known).dispatchers, Step(s, Inner(f, e), known).hist.open)
  {
    var d' := R.Step(DispatcherOf(s, f), e);
    InnerShrinks(DispatcherOf(s, f), e);
    CarriedAfterInner(s.dispatchers, s.hist.open, f, DispatcherOf(s, f), d');
    assert Step(s, Inner(f, e), known).dispatchers == s.dispatchers[f := d'];
  }

  lemma AddedCarries(s: State, e: Event, known: set<nat>)
    requires e.Submit? || e.Invoke?
    requires EngineInv(s) && Enabled(s, e, known) && CarriedOk(s.dispatchers, s.hist.open)
    ensures CarriedOk(Step(s, e, known).dispatchers, Step(s, e, known).hist.open)
  {
    AddedIsNew(s, e, known);
    if e.Submit? {
      SubmitCarries(s, e.call, InputOf(s.hist.open[e.call]), e.now, e.limit);
    } else {
      SubmitCarries(s, e.call, e.input, e.now, e.limit);
    }
    AddedTo(s, e, known);
  }

  lemma AddedIsNew(s: State, e: Event, known: set<nat>)
    requires (e.Submit? || e.Invoke?) && OpenOk(s.dispatchers, s.hist) && Enabled(s, e, known)
    ensures !Tracked(s.dispatchers, e.call) && (if e.Submit? then e.call in s.hist.open else !External(e.call))
  {
  }

  lemma AddedTo(s: State, e: Event, known: set<nat>)
    requires (e.Submit? && e.call in s.hist.open) || e.Invoke?
    ensures
      var s', input := Step(s, e, known), if e.Submit? then InputOf(s.hist.open[e.call]) else e.input;
      && s'.hist.open == s.hist.open
      && (s'.dispatchers == s.dispatchers
          || s'.dispatchers == s.dispatchers[e.call.funcId := D.OnNewCall(DispatcherOf(s, e.call.funcId), e.call, input, e.now, e.limit)])
  {
  }

  lemma SubmitCarries(s: State, call: FuncCall, input: D.Input, now: int, limit: nat)
    requires EngineInv(s) && CarriedOk(s.dispatchers, s.hist.open) && !Tracked(s.dispatchers, call)
    requires External(call) ==> call in s.hist.open && input == InputOf(s.hist.open[call])
    ensures CarriedOk(s.dispatchers[call.funcId := D.OnNewCall(DispatcherOf(s, call.funcId), call, input, now, limit)], s.hist.open)
  {
    var d := DispatcherOf(s, call.funcId);
    DispatcherIsHealthy(s, call.funcId);
    FreshTicket(call.funcId, d, call, now);
    NewCallExtends(d, call, input, now, limit);
    CarriedAfterNew(s.dispatchers, s.hist.open, call, d, D.OnNewCall(d, call, input, now, limit), input);
  }

  lemma {:induction false} RunCarries(s: State, events: seq<Event>, known: set<nat>)
    requires EngineInv(s) && Feasible(s, events, known) && CarriedOk(s.dispatchers, s.hist.open)
    ensures EngineInv(Run(s, events, known)) && CarriedOk(Run(s, events, known).dispatchers, Run(s, events, known).hist.open)
    decreases |events|
  {
    if events != [] {
      StepCarries(s, events[0], known);
      StepKeepsInv(s, events[0], known);
      RunCarries(Step(s, events[0], known), events[1..], known);
    }
  }

  /**
   Over any run: whatever was sent for an open external call is a message from which its worker
   reads exactly the input the gateway sent.
   */
  lemma WorkersSeeExternalInputs(events: seq<Event>, known: set<nat>, c: FuncCall, k: nat, w: P.World)
    requires Feasible(Init(), events, known)
    requires
      var s := Run(Init(), events, known);
      && c in s.hist.open && External(c) && Tracked(s.dispatchers, c) && |s.hist.open[c]| < P.MAX_PAYLOAD
      && k < |s.dispatchers[c.funcId].hist.sent| && s.dispatchers[c.funcId].hist.sent[k] == s.dispatchers[c.funcId].hist.ticket[c]
      && (|s.hist.open[c]| > 960 ==> P.ShmRead(w, P.InputOf(FullCallId(c))) == Some(s.hist.open[c]))
    ensures
      var s := Run(Init(), events, known);
      var sent := SentMessages(s.dispatchers[c.funcId].hist.wire);
      k < |sent| && sent[k].call == c && P.GetFuncCallInput(w, sent[k]) == Some(s.hist.open[c])
  {
    assert EngineInv(Init()) && CarriedOk(Init().dispatchers, Init().hist.open);
    RunCarries(Init(), events, known);
    var s := Run(Init(), events, known);
    assert Healthy(c.funcId, s.dispatchers[c.funcId]);
    SentIsCarried(s.dispatchers[c.funcId], c, s.hist.open[c], k, w);
  }

  lemma SentIsCarried(d: D.State, c: FuncCall, data: seq<byte>, k: nat, w: P.World)
    requires WireContentsOk(d.hist) && Carries(d, c, data) && |data| < P.MAX_PAYLOAD
    requires k < |d.hist.sent| && d.hist.sent[k] == d.hist.ticket[c]
    requires |data| > 960 ==> P.ShmRead(w, P.InputOf(FullCallId(c))) == Some(data)
    ensures
      var sent := SentMessages(d.hist.wire);
      k < |sent| && sent[k].call == c && P.GetFuncCallInput(w, sent[k]) == Some(data)
  {
    ExternalInputArrives(w, c, data);
    assert SentMessages(d.hist.wire)[k] == D.BuildMessage(c, InputOf(data));
  }

  // ---- What each dispatcher goes through ------------------------------------------------------

  /** The input given with each call, as the gateway or a worker sent it. */
  function Given(e: Event, given: map<FuncCall, D.Input>): map<FuncCall, D.Input> {
    match e
    case Receive(c, data, _) => given[c := if |data| > 960 then D.ShmInput(|data|) else D.InlineInput(data)]
    case Invoke(c, input, _, _) => given[c := input]
    case _ => given
  }

  /** What an event of the engine is to the dispatcher of one function: a new call with its input, its own event, or nothing. */
  function Seen(e: Event, f: nat, known: set<nat>, given: map<FuncCall, D.Input>): seq<R.Event> {
    match e
    case Submit(c, now, limit) => if c.funcId == f && c in given then [R.NewCall(c, given[c], now, limit)] else []
    case Invoke(c, input, now, limit) => if c.funcId == f && f in known then [R.NewCall(c, input, now, limit)] else []
    case Inner(g, event) => if g == f then [event] else []
    case _ => []
  }

  function Share(events: seq<Event>, f: nat, known: set<nat>, given: map<FuncCall, D.Input>): seq<R.Event>
    decreases |events|
  {
    if events == [] then []
    else Seen(events[0], f, known, given) + Share(events[1..], f, known, Given(events[0], given))
  }

  /** The inputs of open calls are those that were given. */
  ghost predicate GivenOk(open: map<FuncCall, seq<byte>>, given: map<FuncCall, D.Input>) {
    forall c :: c in open ==> c in given && given[c] == InputOf(open[c])
  }

  lemma StepGiven(s: State, e: Event, known: set<nat>, given: map<FuncCall, D.Input>)
    requires OpenOk(s.dispatchers, s.hist) && Enabled(s, e, known) && GivenOk(s.hist.open, given)
    ensures GivenOk(Step(s, e, known).hist.open, Given(e, given))
  {
  }

  lemma OneEvent(d: D.State, e: R.Event)
    requires R.Enabled(d, e)
    ensures R.Feasible(d, [e]) && R.Run(d, [e]) == R.Step(d, e)
  {
    assert [e][1..] == [] && R.Run(R.Step(d, e), []) == R.Step(d, e) && R.Feasible(R.Step(d, e), []);
  }

  /** A call that is handed to a dispatcher is new to it. */
  lemma AddedIsEnabled(s: State, e: Event, known: set<nat>, input: D.Input)
    requires (e.Submit? || e.Invoke?) && OpenOk(s.dispatchers, s.hist) && Enabled(s, e, known)
    ensures R.Enabled(DispatcherOf(s, e.call.funcId), R.NewCall(e.call, input, e.now, e.limit))
  {
    AddedIsNew(s, e, known);
  }

  lemma StepShare(s: State, e: Event, known: set<nat>, f: nat, given: map<FuncCall, D.Input>)
    requires OpenOk(s.dispatchers, s.hist) && Enabled(s, e, known) && GivenOk(s.hist.open, given)
    ensures
      var d, seen := DispatcherOf(s, f), Seen(e, f, known, given);
      R.Feasible(d, seen) && DispatcherOf(Step(s, e, known), f) == R.Run(d, seen)
  {
    var d, seen := DispatcherOf(s, f), Seen(e, f, known, given);
    if e.Submit? || e.Invoke? {
      AddedIsNew(s, e, known);
      if seen != [] {
        AddedIsEnabled(s, e, known, seen[0].input);
        OneEvent(d, seen[0]);
      }
      AddedShare(s, e, known, f, given);
    } else if e.Inner? && e.func == f {
      OneEvent(d, e.event);
    }
  }

  lemma AddedShare(s: State, e: Event, known: set<nat>, f: nat, given: map<FuncCall, D.Input>)
    requires (e.Submit? && e.call in s.hist.open) || e.Invoke?
    requires GivenOk(s.hist.open, given)
    ensures
      var d, seen := DispatcherOf(s, f), Seen(e, f, known, given);
      DispatcherOf(Step(s, e, known), f) == if seen == [] then d else R.Step(d, seen[0])
  {
  }

  /** Over any run, each dispatcher goes through a feasible run of its own: its share of the engine's events. */
  lemma {:induction false} RunShares(s: State, events: seq<Event>, known: set<nat>, f: nat, given: map<FuncCall, D.Input>)
    requires EngineInv(s) && Feasible(s, events, known) && GivenOk(s.hist.open, given)
    ensures
      var d, share := DispatcherOf(s, f), Share(events, f, known, given);
      R.Feasible(d, share) && DispatcherOf(Run(s, events, known), f) == R.Run(d, share)
    decreases |events|
  {
    if events != [] {
      var e, s' := events[0], Step(s, events[0], known);
      StepShare(s, e, known, f, given);
      StepGiven(s, e, known, given);
      StepKeepsInv(s, e, known);
      RunShares(s', events[1..], known, f, Given(e, given));
      DT.RunAppend(DispatcherOf(s, f), Seen(e, f, known, given), Share(events[1..], f, known, Given(e, given)));
    }
  }

  /**
   From the start: everything proved about runs of one dispatcher holds for each dispatcher of
   an engine, and its arrivals are the engine's calls with their inputs and times.
   */
  lemma EveryDispatcherRunsItsShare(events: seq<Event>, known: set<nat>, f: nat)
    requires Feasible(Init(), events, known)
    ensures
      var share := Share(events, f, known, map[]);
      R.Feasible(D.Init(), share) && DispatcherOf(Run(Init(), events, known), f) == R.Run(D.Init(), share)
  {
    assert EngineInv(Init());
    RunShares(Init(), events, known, f, map[]);
  }

  // ---- The discard list -----------------------------------------------------------------------

  function CallsAt(built: seq<Message>, numbers: seq<nat>): seq<FuncCall> {
    seq(|numbers|, i requires 0 <= i < |numbers| => if numbers[i] < |built| then built[numbers[i]].call else FuncCall(0, 0, 0, 0))
  }

  /** Every waiting entry points at the message of its arrival. */
  ghost predicate Pointed(d: D.State) {
    forall p :: p in d.pending ==> p.info < |d.hist.built| && D.PoolRead(d.pool, p.message) == d.hist.built[p.info]
  }

  lemma PendingIsPointed(d: D.State)
    requires PoolOk(d.pool, d.pending, None, d.hist.built)
    ensures Pointed(d)
  {
    forall p | p in d.pending ensures p.info < |d.hist.built| && D.PoolRead(d.pool, p.message) == d.hist.built[p.info] {
      assert DI.Stored(p, d.pool, d.hist.built);
    }
  }

  /** `handed` are the calls of the first waiting entries, and exactly those entries were discarded. */
  ghost predicate HandedOver(built: seq<Message>, waiting: seq<nat>, handed: seq<FuncCall>, before: set<nat>, after: set<nat>) {
    && |handed| <= |waiting|
    && handed == CallsAt(built, waiting[..|handed|])
    && after == before + DT.Numbers(waiting[..|handed|])
  }

  lemma NothingHandedOver(built: seq<Message>, waiting: seq<nat>, before: set<nat>)
    ensures HandedOver(built, waiting, [], before, before)
  {
    assert waiting[..0] == [] && CallsAt(built, waiting[..0]) == [] && DT.Numbers(waiting[..0]) == {};
  }

  lemma OneMoreHandedOver(built: seq<Message>, waiting: seq<nat>, handed: seq<FuncCall>, before: set<nat>, after: set<nat>)
    requires waiting != [] && waiting[0] < |built| && HandedOver(built, waiting[1..], handed, before + {waiting[0]}, after)
    ensures HandedOver(built, waiting, [built[waiting[0]].call] + handed, before, after)
  {
    var k := |handed|;
    assert waiting[..k + 1] == [waiting[0]] + waiting[1..][..k];
    assert DT.Numbers(waiting[..k + 1]) == {waiting[0]} + DT.Numbers(waiting[1..][..k]);
    assert CallsAt(built, waiting[..k + 1]) == [built[waiting[0]].call] + CallsAt(built, waiting[1..][..k]);
  }

  lemma DiscardStaysPointed(d: D.State)
    requires Pointed(d) && d.pending != []
    ensures
      var p, d' := d.pending[0], D.Discard(D.TakeFirst(d), d.pending[0]);
      && Pointed(d') && R.PendingInfos(d') == R.PendingInfos(d)[1..] && d'.hist.built == d.hist.built
      && d'.hist.discarded == d.hist.discarded + {p.info}
      && p.info < |d.hist.built| && D.PoolRead(D.TakeFirst(d).pool, p.message) == d.hist.built[p.info]
  {
    assert d.pending[0] in d.pending && forall q :: q in d.pending[1..] ==> q in d.pending;
  }

  /** A search hands to the engine exactly the calls it discards, in queue order. */
  lemma {:induction false} HandedOverAreDiscarded(d: D.State, w: D.ClientId, policy: D.Policy)
    requires Pointed(d)
    ensures HandedOver(d.hist.built, R.PendingInfos(d), DiscardedBy(d, policy), d.hist.discarded,
                       D.DispatchPending(d, w, policy).0.hist.discarded)
    decreases |d.pending|
  {
    if d.pending != [] && !D.Keep(D.TakeFirst(d), d.pending[0], policy) {
      var d1 := D.Discard(D.TakeFirst(d), d.pending[0]);
      DiscardStaysPointed(d);
      HandedOverAreDiscarded(d1, w, policy);
      OneMoreHandedOver(d.hist.built, R.PendingInfos(d), DiscardedBy(d1, policy), d.hist.discarded,
                        D.DispatchPending(d1, w, policy).0.hist.discarded);
    } else {
      NothingHandedOver(d.hist.built, R.PendingInfos(d), d.hist.discarded);
    }
  }

  lemma {:induction false} SameHandOver(d: D.State, d0: D.State, policy: D.Policy)
    requires d0.pending == d.pending && d0.pool == d.pool && d0.tracer == d.tracer
    ensures DiscardedBy(d0, policy) == DiscardedBy(d, policy) && R.PendingInfos(d0) == R.PendingInfos(d)
    decreases |d.pending|
  {
    if d.pending != [] && !D.Keep(D.TakeFirst(d), d.pending[0], policy) {
      SameHandOver(D.Discard(D.TakeFirst(d), d.pending[0]), D.Discard(D.TakeFirst(d0), d.pending[0]), policy);
    }
  }

  /** A worker that is employed hands over what the dispatcher discards for it. */
  lemma EmployHandsOver(d: D.State, d0: D.State, w: D.ClientId, policy: D.Policy)
    requires Pointed(d) && d0.pending == d.pending && d0.pool == d.pool && d0.tracer == d.tracer
    requires d0.hist.built == d.hist.built && d0.hist.discarded == d.hist.discarded
    ensures HandedOver(d.hist.built, R.PendingInfos(d), DiscardedBy(d, policy), d.hist.discarded,
                       D.Employ(d0, w, policy).hist.discarded)
  {
    SameHandOver(d, d0, policy);
    HandedOverAreDiscarded(d0, w, policy);
  }

  lemma InnerHandsOver(d: D.State, e: R.Event)
    requires Pointed(d) && !e.NewCall?
    ensures HandedOver(d.hist.built, R.PendingInfos(d), if Employs(d, e) then DiscardedBy(d, e.policy) else [],
                       d.hist.discarded, R.Step(d, e).hist.discarded)
  {
    if Employs(d, e) {
      if e.Connect? {
        EmployHandsOver(d, d.(workers := d.workers + {e.w}, hist := d.hist.(seen := d.hist.seen + {e.w})), e.w, e.policy);
      } else {
        EmployHandsOver(d, d.(running := d.running - {d.assignee[e.call]}), d.assignee[e.call], e.policy);
      }
    } else {
      NothingHandedOver(d.hist.built, R.PendingInfos(d), d.hist.discarded);
    }
  }

  /** The discard list changes only when it is processed and when a search discards calls, by exactly those calls. */
  lemma DiscardListFollowsSearches(s: State, e: Event, known: set<nat>)
    requires EngineInv(s) && Enabled(s, e, known)
    ensures e.Process? ==> Step(s, e, known).books.discarded == []
    ensures !e.Process? && !e.Inner? ==> Step(s, e, known).books.discarded == s.books.discarded
    ensures e.Inner? ==> exists handed :: Step(s, e, known).books.discarded == s.books.discarded + handed && HandsOver(s, e, handed)
  {
    if e.Process? {
      ProcessOk(s, known);
    } else if e.Inner? {
      DispatcherIsPointed(s, e.func);
      InnerEventHandsOver(s, e, known);
    } else {
      OwnStepKeepsDiscards(s, e, known);
    }
  }

  lemma OwnStepKeepsDiscards(s: State, e: Event, known: set<nat>)
    requires !e.Process? && !e.Inner?
    ensures Step(s, e, known).books.discarded == s.books.discarded
  {
  }

  lemma DispatcherIsPointed(s: State, f: nat)
    requires DispatchersOk(s.dispatchers)
    ensures Pointed(DispatcherOf(s, f))
  {
    DispatcherIsHealthy(s, f);
    PendingIsPointed(DispatcherOf(s, f));
  }

  lemma InnerEventHandsOver(s: State, e: Event, known: set<nat>)
    requires Enabled(s, e, known) && e.Inner? && Pointed(DispatcherOf(s, e.func))
    ensures exists handed :: Step(s, e, known).books.discarded == s.books.discarded + handed && HandsOver(s, e, handed)
  {
    var d := DispatcherOf(s, e.func);
    InnerHandsOver(d, e.event);
    var handed := if Employs(d, e.event) then DiscardedBy(d, e.event.policy) else [];
    assert HandsOver(s, e, handed);
    assert Step(s, e, known).books.discarded == s.books.discarded + handed;
  }

  /** `handed` are the first waiting calls of the dispatcher of `e`, and those that the event discards. */
  ghost predicate HandsOver(s: State, e: Event, handed: seq<FuncCall>)
    requires e.Inner?
  {
    var d := DispatcherOf(s, e.func);
    HandedOver(d.hist.built, R.PendingInfos(d), handed, d.hist.discarded, R.Step(d, e.event).hist.discarded)
  }
}
