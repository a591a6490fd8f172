/**
 The dispatcher, the tracer and the message pool as objects that update their tables in
 place. Every method is proved to compute the function of the same name over the tables.
 */
module DispatcherObjects {
  import opened Collections
  import opened Bytes
  import opened Protocol
  import D = Dispatcher
  import opened DispatcherInvariants

  /** `SimpleObjectPool<Message>`. */
  class MessagePool {
    var freeObjs: seq<D.MessageRef>
    var objs: seq<Message>

    ghost function View(): D.Pool
      reads this
    {
      D.Pool(freeObjs, objs)
    }

    constructor ()
      ensures View() == D.Pool([], [])
    {
      freeObjs, objs := [], [];
    }

    method Get() returns (r: D.MessageRef)
      requires forall x :: x in freeObjs ==> x < |objs|
      modifies this
      ensures (View(), r) == D.PoolGet(old(View()))
      ensures r < |objs|
    {
      if freeObjs == [] {
        objs := objs + [NewMessage(Invalid, FuncCall(0, 0, 0, 0))];
        freeObjs := [|objs| - 1];
      }
      r := freeObjs[|freeObjs| - 1];
      assert r in freeObjs;
      freeObjs := freeObjs[..|freeObjs| - 1];
    }

    method Write(r: D.MessageRef, m: Message)
      requires r < |objs|
      modifies this
      ensures View() == D.PoolWrite(old(View()), r, m)
    {
      objs := objs[r := m];
    }

    /** The next `Get` hands out this object again and leaves the pool as it was before. */
    method Return(r: D.MessageRef)
      modifies this
      ensures View() == D.PoolReturn(old(View()), r)
      ensures D.PoolGet(View()) == (old(View()), r)
    {
      freeObjs := freeObjs + [r];
    }
  }

  /** `Tracer`, the part that concerns one function. */
  class Tracer {
    var funcCallInfos: map<FuncCall, D.InfoRef>
    var infoPool: seq<D.CallInfo>
    var inflightRequests: int

    ghost function View(): D.Tracer
      reads this
    {
      D.Tracer(funcCallInfos, infoPool, inflightRequests)
    }

    constructor ()
      ensures View() == D.Tracer(map[], [], 0)
    {
      funcCallInfos, infoPool, inflightRequests := map[], [], 0;
    }

    method OnNewFuncCall(call: FuncCall, now: int) returns (info: Option<D.InfoRef>)
      modifies this
      ensures (View(), info) == D.TraceNew(old(View()), call, now)
    {
      if call in funcCallInfos {
        return None;
      }
      infoPool := infoPool + [D.CallInfo(call, now, D.Received, 0)];
      funcCallInfos := funcCallInfos[call := |infoPool| - 1];
      inflightRequests := inflightRequests + 1;
      info := Some(|infoPool| - 1);
    }

    method OnFuncCallDispatched(call: FuncCall, w: D.ClientId)
      modifies this
      ensures View() == D.TraceDispatched(old(View()), call, w)
    {
      if call in funcCallInfos && funcCallInfos[call] < |infoPool| {
        var i := funcCallInfos[call];
        infoPool := infoPool[i := infoPool[i].(state := D.Dispatched, worker := w)];
      }
    }

    method OnFuncCallFinished(call: FuncCall, success: bool) returns (found: bool)
      modifies this
      ensures View() == D.TraceFinished(old(View()), call, success)
      ensures found <==> call in old(funcCallInfos)
    {
      if call !in funcCallInfos {
        return false;
      }
      var i := funcCallInfos[call];
      if i < |infoPool| {
        infoPool := infoPool[i := infoPool[i].(state := if success then D.Completed else D.Failed)];
      }
      inflightRequests := inflightRequests - 1;
      if inflightRequests < 0 {
        inflightRequests := 0;
      }
      found := true;
    }

    /** Reports of the call find nothing from now on, every other call keeps its record, and the id can be traced anew. */
    method DiscardFuncCallInfo(call: FuncCall)
      modifies this
      ensures View() == D.TraceErase(old(View()), call)
      ensures forall success :: D.TraceFinished(View(), call, success) == View()
      ensures forall c :: c != call ==> (c in funcCallInfos <==> c in old(funcCallInfos))
      ensures forall now :: D.TraceNew(View(), call, now).1 == Some(|old(infoPool)|)
    {
      funcCallInfos := funcCallInfos - {call};
    }
  }

  class Dispatcher {
    const tracer: Tracer
    const messagePool: MessagePool
    var workers: set<D.ClientId>
    var runningWorkers: map<D.ClientId, FuncCall>
    var idleWorkers: seq<D.ClientId>
    var pendingFuncCalls: seq<D.PendingCall>
    var assignedWorkers: map<FuncCall, D.ClientId>
    ghost var hist: D.History

    ghost function View(): D.State
      reads this, tracer, messagePool
    {
      D.State(workers, runningWorkers, idleWorkers, messagePool.View(), pendingFuncCalls, assignedWorkers, tracer.View(), hist)
    }

    ghost predicate Valid()
      reads this, tracer, messagePool
    {
      Inv(View())
    }

    constructor ()
      ensures View() == D.Init()
      ensures Valid() && fresh(tracer) && fresh(messagePool)
    {
      tracer := new Tracer();
      messagePool := new MessagePool();
      workers, runningWorkers, idleWorkers, pendingFuncCalls, assignedWorkers := {}, map[], [], [], map[];
      hist := D.Init().hist;
      new;
      InitInv();
    }

    ghost predicate RefsOk()
      reads this, tracer, messagePool
    {
      forall p :: p in pendingFuncCalls ==> p.message < |messagePool.objs| && p.info < |tracer.infoPool|
    }

    method DispatchFuncCall(w: D.ClientId, p: D.PendingCall)
      requires p.message < |messagePool.objs|
      modifies this, tracer, messagePool
      ensures View() == D.Dispatch(old(View()), w, p)
    {
      var message := messagePool.objs[p.message];
      tracer.OnFuncCallDispatched(message.call, w);
      assignedWorkers := assignedWorkers[message.call := w];
      runningWorkers := runningWorkers[w := message.call];
      hist := hist.(wire := hist.wire + [D.Send(w, message)], sent := hist.sent + [p.info]);
      messagePool.Return(p.message);
    }

    method DispatchPendingFuncCall(w: D.ClientId, policy: D.Policy) returns (done: bool)
      requires RefsOk()
      modifies this, tracer, messagePool
      ensures (View(), done) == D.DispatchPending(old(View()), w, policy)
    {
      ghost var goal := D.DispatchPending(View(), w, policy);
      done := false;
      while !done && pendingFuncCalls != []
        invariant RefsOk()
        invariant goal == if done then (View(), true) else D.DispatchPending(View(), w, policy)
        decreases |pendingFuncCalls|, !done
      {
        done := DispatchFirst(w, policy);
      }
    }

    /** One round of the loop of `DispatchPendingFuncCall`. */
    method DispatchFirst(w: D.ClientId, policy: D.Policy) returns (done: bool)
      requires RefsOk() && pendingFuncCalls != []
      modifies this, tracer, messagePool
      ensures |pendingFuncCalls| < |old(pendingFuncCalls)|
      ensures RefsOk()
      ensures
        var s, p := D.TakeFirst(old(View())), old(pendingFuncCalls)[0];
        done == D.Keep(s, p, policy) && View() == if done then D.Dispatch(s, w, p) else D.Discard(s, p)
    {
      var p := pendingFuncCalls[0];
      assert p in pendingFuncCalls && forall q :: q in pendingFuncCalls[1..] ==> q in pendingFuncCalls;
      pendingFuncCalls := pendingFuncCalls[1..];
      var call := messagePool.objs[p.message].call;
      var queueingDelay := policy.now - tracer.infoPool[p.info].recvTimestamp;
      if call.clientId == 0
         || policy.maxRelativeDelay == 0.0
         || queueingDelay as real <= policy.maxRelativeDelay * policy.averageTime {
        DispatchFuncCall(w, p);
        done := true;
      } else {
        messagePool.Return(p.message);
        hist := hist.(ticket := hist.ticket - {call}, discarded := hist.discarded + {p.info});
        tracer.DiscardFuncCallInfo(call);
        done := false;
      }
    }

    method PickIdleWorker(maxConcurrency: nat) returns (w: Option<D.ClientId>)
      modifies this`idleWorkers
      ensures (View(), w) == D.PickIdleWorker(old(View()), maxConcurrency)
    {
      if |runningWorkers| >= maxConcurrency {
        return None;
      }
      ghost var idle0 := idleWorkers;
      while idleWorkers != []
        invariant D.PickIdle(idleWorkers, workers, runningWorkers) == D.PickIdle(idle0, workers, runningWorkers)
        decreases |idleWorkers|
      {
        var id := idleWorkers[|idleWorkers| - 1];
        idleWorkers := idleWorkers[..|idleWorkers| - 1];
        if id in workers && id !in runningWorkers {
          return Some(id);
        }
      }
      w := None;
    }

    lemma ValidRefs()
      requires Valid()
      ensures RefsOk()
    {
      forall p | p in pendingFuncCalls
        ensures p.message < |messagePool.objs| && p.info < |tracer.infoPool|
      {
        assert Stored(p, messagePool.View(), hist.built);
      }
    }

    method OnFuncWorkerConnected(w: D.ClientId, policy: D.Policy)
      requires Valid() && w !in hist.seen
      modifies this, tracer, messagePool
      ensures View() == D.OnConnected(old(View()), w, policy)
      ensures Valid()
    {
      ValidRefs();
      OnConnectedOk(View(), w, policy);
      workers := workers + {w};
      hist := hist.(seen := hist.seen + {w});
      var done := DispatchPendingFuncCall(w, policy);
      if !done {
        idleWorkers := idleWorkers + [w];
      }
    }

    method OnFuncWorkerDisconnected(w: D.ClientId)
      requires Valid() && w in workers
      modifies this`workers
      ensures View() == D.OnDisconnected(old(View()), w)
      ensures w !in workers && forall x :: x != w ==> (x in workers <==> x in old(workers))
      ensures Valid()
    {
      OnDisconnectedOk(View(), w);
      workers := workers - {w};
    }

    method OnNewFuncCall(call: FuncCall, input: D.Input, now: int, maxConcurrency: nat)
      requires Valid() && call !in hist.ticket
      modifies this, tracer, messagePool
      ensures View() == D.OnNewCall(old(View()), call, input, now, maxConcurrency)
      ensures Valid()
    {
      OnNewCallOk(View(), call, input, now, maxConcurrency);
      AcceptAndPlace(call, input, now, maxConcurrency);
    }

    method AcceptAndPlace(call: FuncCall, input: D.Input, now: int, maxConcurrency: nat)
      requires forall r :: r in messagePool.freeObjs ==> r < |messagePool.objs|
      modifies this, tracer, messagePool
      ensures View() == D.OnNewCall(old(View()), call, input, now, maxConcurrency)
    {
      var r := messagePool.Get();
      var message := D.BuildMessage(call, input);
      messagePool.Write(r, message);
      var info := tracer.OnNewFuncCall(call, now);
      var p := D.PendingCall(r, if info.Some? then info.value else 0);
      hist := hist.(ticket := hist.ticket[call := p.info], built := hist.built + [message]);
      var idle := PickIdleWorker(maxConcurrency);
      if idle.Some? {
        DispatchFuncCall(idle.value, p);
      } else {
        pendingFuncCalls := pendingFuncCalls + [p];
      }
    }

    method FuncWorkerFinished(w: D.ClientId, policy: D.Policy)
      requires RefsOk() && w in workers && w in runningWorkers
      modifies this, tracer, messagePool
      ensures View() == D.Employ(old(View()).(running := old(runningWorkers) - {w}), w, policy)
    {
      runningWorkers := runningWorkers - {w};
      var done := DispatchPendingFuncCall(w, policy);
      if !done {
        idleWorkers := idleWorkers + [w];
      }
    }

    /** First section of `OnFuncCallCompleted` / `OnFuncCallFailed`: the tracer knows every reported call. */
    method CountReport(call: FuncCall, success: bool, ghost from: D.ClientId) returns (found: bool)
      requires Valid() && from in Holding(hist.wire) && Holding(hist.wire)[from] == call
      modifies this, tracer
      ensures View() == D.OnReport(old(View()), from, call, success)
      ensures found && Valid()
    {
      OnReportOk(View(), from, success);
      HeldIsTraced(View(), from);
      found := TraceReport(call, success, from);
    }

    method TraceReport(call: FuncCall, success: bool, ghost from: D.ClientId) returns (found: bool)
      modifies this, tracer
      ensures View() == D.OnReport(old(View()), from, call, success)
      ensures found == (call in old(View()).tracer.infos)
    {
      found := tracer.OnFuncCallFinished(call, success);
      hist := hist.(wire := hist.wire + [D.Report(from, call)], reports := hist.reports[call := D.Counted(success)]);
    }

    /** Second section. */
    method EraseReport(call: FuncCall)
      requires Valid() && call in hist.reports && hist.reports[call].Counted?
      modifies this, tracer
      ensures View() == D.OnReportErase(old(View()), call)
      ensures Valid()
    {
      OnReportEraseOk(View(), call);
      ForgetReport(call);
    }

    method ForgetReport(call: FuncCall)
      modifies this, tracer
      ensures View() == D.OnReportErase(old(View()), call)
    {
      tracer.DiscardFuncCallInfo(call);
      hist := hist.(reports := hist.reports[call := D.Erased(D.Verdict(hist.reports, call))]);
    }

    /** Third section, under the dispatcher's lock. */
    method FinishReport(call: FuncCall, policy: D.Policy)
      requires Valid() && call in hist.reports && hist.reports[call].Erased?
      modifies this, tracer, messagePool
      ensures View() == D.OnReportFinish(old(View()), call, policy)
      ensures Valid()
    {
      OnReportFinishOk(View(), call, policy);
      ValidRefs();
      ReleaseAssigned(call, policy);
    }

    method ReleaseAssigned(call: FuncCall, policy: D.Policy)
      requires RefsOk() && (call in assignedWorkers ==> assignedWorkers[call] in runningWorkers)
      modifies this, tracer, messagePool
      ensures View() == D.OnReportFinish(old(View()), call, policy)
    {
      if call in assignedWorkers {
        var w := assignedWorkers[call];
        if w in workers {
          FuncWorkerFinished(w, policy);
        }
        assignedWorkers := assignedWorkers - {call};
      }
      hist := hist.(reports := hist.reports - {call}, ticket := hist.ticket - {call},
                    finished := if call in hist.ticket then hist.finished + {hist.ticket[call]} else hist.finished);
    }
  }

  /** A call that a worker holds is in the tracer's table. */
  lemma HeldIsTraced(s: D.State, w: D.ClientId)
    requires Inv(s) && w in Holding(s.hist.wire)
    ensures Holding(s.hist.wire)[w] in s.tracer.infos
  {
    var c := Holding(s.hist.wire)[w];
    assert c in s.assignee && c !in s.hist.reports;
  }
}

/** The dispatcher object driven through whole runs. */
module DispatcherReplay {
  import opened Protocol
  import D = Dispatcher
  import opened DispatcherInvariants
  import O = DispatcherObjects
  import R = DispatcherRuns

  /** A worker that holds a call is running it. */
  lemma HeldIsRunning(s: D.State, w: D.ClientId)
    requires Inv(s) && w in Holding(s.hist.wire)
    ensures w in s.running && s.running[w] == Holding(s.hist.wire)[w]
  {
    assert Holding(s.hist.wire)[w] in s.assignee;
  }

  method Apply(d: O.Dispatcher, e: R.Event)
    requires d.Valid() && R.Enabled(d.View(), e)
    modifies d, d.tracer, d.messagePool
    ensures d.View() == R.Step(old(d.View()), e) && d.Valid()
  {
    match e {
      case Connect(w, policy) => d.OnFuncWorkerConnected(w, policy);
      case Disconnect(w) => d.OnFuncWorkerDisconnected(w);
      case NewCall(call, input, now, limit) => d.OnNewFuncCall(call, input, now, limit);
      case ReportBegin(w, success) =>
        HeldIsRunning(d.View(), w);
        var found := d.CountReport(d.runningWorkers[w], success, w);
      case ReportErase(call) => d.EraseReport(call);
      case ReportFinish(call, policy) => d.FinishReport(call, policy);
    }
  }

  method Drive(d: O.Dispatcher, events: seq<R.Event>)
    requires d.Valid() && R.Feasible(d.View(), events)
    modifies d, d.tracer, d.messagePool
    ensures d.View() == R.Run(old(d.View()), events) && d.Valid()
    decreases |events|
  {
    if events != [] {
      Apply(d, events[0]);
      Drive(d, events[1..]);
    }
  }

  /** A new dispatcher driven through any feasible run ends in the state of that run. */
  method Replay(events: seq<R.Event>) returns (d: O.Dispatcher)
    requires R.Feasible(D.Init(), events)
    ensures d.View() == R.Run(D.Init(), events) && d.Valid()
  {
    d := new O.Dispatcher();
    Drive(d, events);
  }
}
