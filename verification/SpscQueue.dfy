/**
 The lock-free single-producer single-consumer ring that lives in shared memory.

 Every atomic load, store, fetch-or and fetch-xor of `Push`, `Pop` and
 `ConsumerEnterSleep` is one step of a small machine, so a run is an arbitrary
 interleaving of producer and consumer steps. Between two steps each side only keeps
 the registers the source keeps, which may be stale.
 */
module SpscQueue {
  import opened Collections

  /** `kConsumerSleepMask`: the top bit of a 64-bit `size_t`. */
  const SLEEP_MASK: nat := 0x8000_0000_0000_0000

  predicate Asleep(word: nat) { word >= SLEEP_MASK }

  /** `word ^ kConsumerSleepMask`, for a 64-bit word. */
  function FlipSleep(word: nat): nat { if Asleep(word) then word - SLEEP_MASK else word + SLEEP_MASK }

  /** `word | kConsumerSleepMask`, for a 64-bit word. */
  function SetSleep(word: nat): nat { if Asleep(word) then word else word + SLEEP_MASK }

  function Index(word: nat): nat { if Asleep(word) then word - SLEEP_MASK else word }

  function NextIndex(current: nat, size: nat): nat { if current + 1 == size then 0 else current + 1 }

  /** Where the producer is inside `Push`, with its local variables. */
  datatype Producer<T> =
    | PIdle
    | PLoadedTail(message: T, current: nat, next: nat)
    | PHasRoom(message: T, current: nat, next: nat)
    | PStoredCell(message: T, current: nat, next: nat)

  /** Where the consumer is inside `Pop`, with its local variables. */
  datatype Consumer<T> =
    | CIdle
    | CMustWake(current: nat)
    | CLoadedHead(current: nat)
    | CNonEmpty(current: nat)
    | CLoadedCell(current: nat, message: T)

  /** The shared region: `head_` (with the sleep bit in it), `tail_` and the cells. */
  datatype Memory<T> = Memory(size: nat, head: nat, tail: nat, cells: seq<T>)

  /** What an observer of both ends has seen of the data. */
  datatype Log<T> = Log(pushed: seq<T>, popped: seq<T>, pushResults: seq<bool>, popResults: seq<Option<T>>)

  /**
   The producer's `wakeup_consumer_flag_`, with the head loads of its `Push` calls (was the
   consumer asleep?) and the number of calls of `wakeup_consumer_fn_`.
   */
  datatype Waking = Waking(flag: bool, loads: seq<bool>, calls: nat)

  datatype State<T> = State(mem: Memory<T>, producer: Producer<T>, consumer: Consumer<T>, log: Log<T>, waking: Waking)

  datatype Action<T> = PushBegin(message: T) | ProducerStep | PopBegin | ConsumerStep | EnterSleep

  /** `BuildMemoryLayout`; the cells hold whatever the region holds. */
  function Init<T>(cells: seq<T>): State<T> {
    State(Memory(|cells|, 0, 0, cells), PIdle, CIdle, Log([], [], [], []), Waking(false, [], 0))
  }

  /** One atomic step; an action that does not fit the program counters does nothing. */
  function Step<T>(s: State<T>, a: Action<T>): State<T> {
    match a
    case PushBegin(m) =>
      if s.producer.PIdle? then s.(producer := PLoadedTail(m, s.mem.tail, NextIndex(s.mem.tail, s.mem.size))) else s
    case ProducerStep => ProducerNext(s)
    case PopBegin =>
      if !s.consumer.CIdle? then s
      else if Asleep(s.mem.head) then s.(consumer := CMustWake(FlipSleep(s.mem.head)))
      else s.(consumer := CLoadedHead(s.mem.head))
    case ConsumerStep => ConsumerNext(s)
    case EnterSleep =>
      if s.consumer.CIdle? then s.(mem := s.mem.(head := SetSleep(s.mem.head))) else s
  }

  function ProducerNext<T>(s: State<T>): State<T> {
    match s.producer
    case PIdle => s
    case PLoadedTail(m, current, next) =>
      var seen := s.(waking := LoadedHead(s.waking, Asleep(s.mem.head)));
      if next != Index(s.mem.head) then seen.(producer := PHasRoom(m, current, next))
      else seen.(producer := PIdle, log := s.log.(pushResults := s.log.pushResults + [false]))
    case PHasRoom(m, current, next) =>
      s.(mem := StoreCell(s.mem, current, m), producer := PStoredCell(m, current, next))
    case PStoredCell(m, current, next) =>
      s.(mem := s.mem.(tail := next), producer := PIdle, log := Pushed(s.log, m))
  }

  /** The wake-up decision of a `Push` that has just loaded the head. */
  function LoadedHead(w: Waking, asleep: bool): Waking {
    Waking(asleep, w.loads + [asleep], if asleep && !w.flag then w.calls + 1 else w.calls)
  }

  function StoreCell<T>(mem: Memory<T>, i: nat, m: T): Memory<T> {
    if i < |mem.cells| then mem.(cells := mem.cells[i := m]) else mem
  }

  function Pushed<T>(log: Log<T>, m: T): Log<T> {
    log.(pushed := log.pushed + [m], pushResults := log.pushResults + [true])
  }

  function ConsumerNext<T>(s: State<T>): State<T> {
    match s.consumer
    case CIdle => s
    case CMustWake(current) =>
      s.(mem := s.mem.(head := FlipSleep(s.mem.head)), consumer := CLoadedHead(current))
    case CLoadedHead(current) =>
      if current == s.mem.tail then
        s.(consumer := CIdle, log := s.log.(popResults := s.log.popResults + [None]))
      else s.(consumer := CNonEmpty(current))
    case CNonEmpty(current) =>
      if current < |s.mem.cells| then s.(consumer := CLoadedCell(current, s.mem.cells[current])) else s
    case CLoadedCell(current, m) =>
      s.(mem := s.mem.(head := NextIndex(current, s.mem.size)), consumer := CIdle, log := Popped(s.log, m))
  }

  function Popped<T>(log: Log<T>, m: T): Log<T> {
    log.(popped := log.popped + [m], popResults := log.popResults + [Some(m)])
  }

  function Run<T>(s: State<T>, actions: seq<Action<T>>): State<T>
    decreases |actions|
  {
    if actions == [] then s else Run(Step(s, actions[0]), actions[1..])
  }

  /** The abstract queue: what has been pushed and not yet popped. */
  function Contents<T>(log: Log<T>): seq<T> {
    if |log.popped| <= |log.pushed| then log.pushed[|log.popped|..] else []
  }

  /** The cell `j` places after `head` on the ring. */
  function Slot(head: nat, j: nat, size: nat): nat { if head + j < size then head + j else head + j - size }

  /** The ring, read from the head, stores exactly the sequence `q`. */
  ghost predicate Holds<T>(mem: Memory<T>, q: seq<T>) {
    && 2 <= mem.size <= SLEEP_MASK
    && |mem.cells| == mem.size
    && Index(mem.head) < mem.size
    && |q| < mem.size
    && mem.tail == Slot(Index(mem.head), |q|, mem.size)
    && (forall j :: 0 <= j < |q| ==> mem.cells[Slot(Index(mem.head), j, mem.size)] == q[j])
  }

  ghost predicate ProducerInv<T>(p: Producer<T>, mem: Memory<T>, q: seq<T>) {
    && (!p.PIdle? ==> p.current == mem.tail && p.next == NextIndex(p.current, mem.size))
    && (p.PHasRoom? || p.PStoredCell? ==> |q| + 1 < mem.size)
    && (p.PStoredCell? ==> p.current < |mem.cells| && mem.cells[p.current] == p.message)
  }

  ghost predicate ConsumerInv<T>(c: Consumer<T>, mem: Memory<T>, q: seq<T>) {
    && (!c.CIdle? ==> c.current == Index(mem.head) && (Asleep(mem.head) <==> c.CMustWake?))
    && (c.CNonEmpty? || c.CLoadedCell? ==> |q| > 0)
    && (c.CLoadedCell? ==> c.message == q[0])
  }

  ghost predicate Inv<T>(s: State<T>) {
    && s.log.popped <= s.log.pushed
    && Holds(s.mem, Contents(s.log))
    && ProducerInv(s.producer, s.mem, Contents(s.log))
    && ConsumerInv(s.consumer, s.mem, Contents(s.log))
  }

  lemma CellStoreKeepsRing<T>(mem: Memory<T>, q: seq<T>, m: T)
    requires Holds(mem, q)
    ensures Holds(StoreCell(mem, mem.tail, m), q) && mem.tail < |mem.cells|
  {
  }

  lemma TailStoreKeepsRing<T>(mem: Memory<T>, q: seq<T>)
    requires Holds(mem, q) && |q| + 1 < mem.size && mem.tail < |mem.cells|
    ensures Holds(mem.(tail := NextIndex(mem.tail, mem.size)), q + [mem.cells[mem.tail]])
  {
  }

  lemma ProducerNextKeepsInv<T>(s: State<T>)
    requires Inv(s)
    ensures Inv(ProducerNext(s))
    ensures Contents(ProducerNext(s).log) ==
            if s.producer.PStoredCell? then Contents(s.log) + [s.producer.message] else Contents(s.log)
  {
    var t := ProducerNext(s);
    assert Contents(t.log) ==
           if s.producer.PStoredCell? then Contents(s.log) + [s.producer.message] else Contents(s.log);
    if s.producer.PHasRoom? { CellStoreKeepsRing(s.mem, Contents(s.log), s.producer.message); }
    if s.producer.PStoredCell? { TailStoreKeepsRing(s.mem, Contents(s.log)); }
  }

  lemma HeadStoreKeepsRing<T>(mem: Memory<T>, q: seq<T>)
    requires Holds(mem, q) && q != [] && !Asleep(mem.head)
    ensures Holds(mem.(head := NextIndex(mem.head, mem.size)), q[1..])
  {
    var mem' := mem.(head := NextIndex(mem.head, mem.size));
    forall j | 0 <= j < |q[1..]|
      ensures mem'.cells[Slot(Index(mem'.head), j, mem'.size)] == q[1..][j]
    {
      assert Slot(Index(mem'.head), j, mem'.size) == Slot(Index(mem.head), j + 1, mem.size);
    }
  }

  lemma ConsumerNextKeepsInv<T>(s: State<T>)
    requires Inv(s)
    ensures Inv(ConsumerNext(s))
    ensures Contents(s.log) ==
            (if s.consumer.CLoadedCell? then [s.consumer.message] else []) + Contents(ConsumerNext(s).log)
  {
    var t := ConsumerNext(s);
    if s.consumer.CLoadedCell? {
      assert Contents(t.log) == Contents(s.log)[1..];
      HeadStoreKeepsRing(s.mem, Contents(s.log));
    } else {
      assert Contents(t.log) == Contents(s.log);
      if s.consumer.CNonEmpty? {
        assert Slot(Index(s.mem.head), 0, s.mem.size) == s.consumer.current;
      }
    }
  }

  /**
   Refinement, one step at a time: a step of either side is invisible to the abstract
   queue, or it is the producer's tail store, which appends its message, or it is the
   consumer's head store, which removes and delivers the front.
   */
  lemma StepRefinesFifo<T>(s: State<T>, a: Action<T>)
    requires Inv(s)
    ensures Inv(Step(s, a))
    ensures
      var q, q' := Contents(s.log), Contents(Step(s, a).log);
      if a.ProducerStep? && s.producer.PStoredCell? then
        q' == q + [s.producer.message] && Step(s, a).log == Pushed(s.log, s.producer.message)
      else if a.ConsumerStep? && s.consumer.CLoadedCell? then
        q == [s.consumer.message] + q' && Step(s, a).log == Popped(s.log, s.consumer.message)
      else q' == q
  {
    match a {
      case ProducerStep => ProducerNextKeepsInv(s);
      case ConsumerStep => ConsumerNextKeepsInv(s);
      case _ =>
    }
  }

  lemma {:induction false} RunKeepsInv<T>(s: State<T>, actions: seq<Action<T>>)
    requires Inv(s)
    ensures Inv(Run(s, actions))
    decreases |actions|
  {
    if actions != [] {
      StepRefinesFifo(s, actions[0]);
      RunKeepsInv(Step(s, actions[0]), actions[1..]);
    }
  }

  /**
   Data safety of every interleaving: what came out is a prefix of what went in, nothing
   is lost or duplicated, and at most `size - 1` messages are in flight.
   */
  lemma EveryInterleavingIsFifo<T>(cells: seq<T>, actions: seq<Action<T>>)
    requires 2 <= |cells| <= SLEEP_MASK
    ensures
      var log := Run(Init(cells), actions).log;
      log.popped <= log.pushed && |log.pushed| - |log.popped| <= |cells| - 1
  {
    RunKeepsInv(Init(cells), actions);
    SizeNeverChanges(Init(cells), actions);
  }

  lemma {:induction false} SizeNeverChanges<T>(s: State<T>, actions: seq<Action<T>>)
    ensures Run(s, actions).mem.size == s.mem.size
    decreases |actions|
  {
    if actions != [] { SizeNeverChanges(Step(s, actions[0]), actions[1..]); }
  }

  /** A `Push` gives up exactly when the ring holds `size - 1` messages at its head load. */
  lemma PushFailsIffFull<T>(cells: seq<T>, actions: seq<Action<T>>)
    requires 2 <= |cells| <= SLEEP_MASK
    ensures
      var s := Run(Init(cells), actions);
      var t := ProducerNext(s);
      s.producer.PLoadedTail? ==>
        (t.producer.PIdle? <==> |Contents(s.log)| == |cells| - 1)
        && t.log.pushResults == s.log.pushResults + if t.producer.PIdle? then [false] else []
  {
    RunKeepsInv(Init(cells), actions);
    SizeNeverChanges(Init(cells), actions);
  }

  /** A `Pop` gives up exactly when the ring is empty at its tail load. */
  lemma PopFailsIffEmpty<T>(cells: seq<T>, actions: seq<Action<T>>)
    requires 2 <= |cells| <= SLEEP_MASK
    ensures
      var s := Run(Init(cells), actions);
      var t := ConsumerNext(s);
      s.consumer.CLoadedHead? ==>
        (t.consumer.CIdle? <==> Contents(s.log) == [])
        && t.log.popResults == s.log.popResults + if t.consumer.CIdle? then [None] else []
  {
    RunKeepsInv(Init(cells), actions);
  }

  /** The plain (non-atomic) cell accesses of the two sides never meet on one cell. */
  lemma CellsAreRaceFree<T>(cells: seq<T>, actions: seq<Action<T>>)
    requires 2 <= |cells| <= SLEEP_MASK
    ensures
      var s := Run(Init(cells), actions);
      s.producer.PHasRoom? && s.consumer.CNonEmpty? ==> s.producer.current != s.consumer.current
  {
    RunKeepsInv(Init(cells), actions);
  }

  // ---- The sleep bit is invisible to the data ------------------------------------------

  /** The same state seen by someone who cannot see sleeping or waking. */
  function Awake<T>(s: State<T>): State<T> {
    s.(mem := s.mem.(head := Index(s.mem.head)), waking := Waking(false, seq(|s.waking.loads|, _ => false), 0),
       consumer := if s.consumer.CMustWake? then CLoadedHead(s.consumer.current) else s.consumer)
  }

  predicate SleepAction<T>(s: State<T>, a: Action<T>) {
    a.EnterSleep? || (a.ConsumerStep? && s.consumer.CMustWake?)
  }

  /** The run with the sleeping taken out: no `EnterSleep`, no wake-up of oneself in `Pop`. */
  function SleepFree<T>(s: State<T>, actions: seq<Action<T>>): seq<Action<T>>
    decreases |actions|
  {
    if actions == [] then []
    else
      var rest := SleepFree(Step(s, actions[0]), actions[1..]);
      if SleepAction(s, actions[0]) then rest else [actions[0]] + rest
  }

  lemma StepIgnoresSleep<T>(s: State<T>, a: Action<T>)
    requires Inv(s)
    ensures Awake(Step(s, a)) == if SleepAction(s, a) then Awake(s) else Step(Awake(s), a)
  {
    var n := |s.waking.loads|;
    assert seq(n + 1, _ => false) == seq(n, _ => false) + [false];
  }

  /**
   Every run has a run in which nobody ever sleeps and that pushes, pops, accepts and
   refuses exactly the same, so the bit multiplexed into `head` never changes the data.
   */
  lemma {:induction false} SleepNeverChangesData<T>(s: State<T>, actions: seq<Action<T>>)
    requires Inv(s)
    ensures forall a :: a in SleepFree(s, actions) ==> !a.EnterSleep?
    ensures Awake(Run(s, actions)) == Run(Awake(s), SleepFree(s, actions))
    ensures Run(s, actions).log == Run(Awake(s), SleepFree(s, actions)).log
    decreases |actions|
  {
    if actions == [] {
    } else {
      var a := actions[0];
      var s' := Step(s, a);
      StepRefinesFifo(s, a);
      StepIgnoresSleep(s, a);
      SleepNeverChangesData(s', actions[1..]);
      var rest := SleepFree(s', actions[1..]);
      if !SleepAction(s, a) {
        assert ([a] + rest)[1..] == rest;
      }
    }
  }

  // ---- When a sleeping consumer is woken ------------------------------------------------

  /** Load `i` of the head by a `Push` finds a sleeping consumer that the previous load found awake. */
  predicate FreshSleep(loads: seq<bool>, i: nat)
    requires i < |loads|
  {
    loads[i] && (i == 0 || !loads[i - 1])
  }

  function FreshSleeps(loads: seq<bool>): nat {
    if loads == [] then 0
    else FreshSleeps(loads[..|loads| - 1]) + if FreshSleep(loads, |loads| - 1) then 1 else 0
  }

  ghost predicate WakeInv(w: Waking) {
    && w.flag == (w.loads != [] && w.loads[|w.loads| - 1])
    && w.calls == FreshSleeps(w.loads)
  }

  /**
   The wake function is called exactly once for each head load that finds the consumer
   asleep right after a load that found it awake (or the first load), and never otherwise.
   */
  lemma {:induction false} WakesExactlyFreshSleeps<T>(s: State<T>, actions: seq<Action<T>>)
    requires WakeInv(s.waking)
    ensures WakeInv(Run(s, actions).waking)
    decreases |actions|
  {
    if actions != [] {
      var t := Step(s, actions[0]);
      assert WakeInv(t.waking) by {
        if t.waking != s.waking { assert t.waking.loads[..|t.waking.loads| - 1] == s.waking.loads; }
      }
      WakesExactlyFreshSleeps(t, actions[1..]);
    }
  }

  /** No `Pop` begins: a sleeping consumer stays asleep. */
  predicate NoPop<T>(actions: seq<Action<T>>) { forall i :: 0 <= i < |actions| ==> !actions[i].PopBegin? }

  /** While the consumer sleeps, the flag is the one the sleep began with, or some `Push` has loaded the head since. */
  ghost predicate AsleepSince<T>(s: State<T>, before: Waking) {
    && s.consumer.CIdle? && Asleep(s.mem.head)
    && |s.waking.loads| >= |before.loads|
    && (|s.waking.loads| == |before.loads| ==> s.waking.flag == before.flag && s.waking.calls == before.calls)
    && (|s.waking.loads| > |before.loads| ==> s.waking.flag && s.waking.calls == before.calls + if before.flag then 0 else 1)
  }

  lemma {:induction false} SleepContinues<T>(s: State<T>, actions: seq<Action<T>>, before: Waking)
    requires AsleepSince(s, before) && NoPop(actions)
    ensures AsleepSince(Run(s, actions), before)
    decreases |actions|
  {
    if actions != [] {
      SleepContinues(Step(s, actions[0]), actions[1..], before);
    }
  }

  /**
   Exactly which sleeps are answered, over every continuation in which the consumer sleeps on:
   the wake function is called if and only if some `Push` loads the head during the sleep and
   the producer's flag was clear when it began.
   */
  lemma SleepIsAnsweredIff<T>(s: State<T>, actions: seq<Action<T>>)
    requires s.consumer.CIdle? && NoPop(actions)
    ensures
      var t := Run(Step(s, EnterSleep), actions);
      t.waking.calls > s.waking.calls <==> |t.waking.loads| > |s.waking.loads| && !s.waking.flag
  {
    SleepContinues(Step(s, EnterSleep), actions, s.waking);
  }

  function PushSteps<T>(m: T): seq<Action<T>> { [PushBegin(m), ProducerStep, ProducerStep, ProducerStep] }

  function PopHead<T>(asleep: bool): seq<Action<T>> { [PopBegin] + if asleep then [ConsumerStep] else [] }

  function PopSteps<T>(asleep: bool): seq<Action<T>> {
    PopHead(asleep) + [ConsumerStep, ConsumerStep, ConsumerStep]
  }

  lemma {:induction false} RunConcat<T>(s: State<T>, a: seq<Action<T>>, b: seq<Action<T>>)
    ensures Run(s, a + b) == Run(Run(s, a), b)
    decreases |a|
  {
    if a == [] {
      assert a + b == b;
    } else {
      assert (a + b)[1..] == a[1..] + b;
      RunConcat(Step(s, a[0]), a[1..], b);
    }
  }

  lemma RunOne<T>(s: State<T>, a: Action<T>)
    ensures Run(s, [a]) == Step(s, a)
  {
    assert Run(Step(s, a), [a][1..]) == Step(s, a);
  }

  lemma RunFour<T>(s: State<T>, a: Action<T>, b: Action<T>, c: Action<T>, d: Action<T>)
    ensures Run(s, [a, b, c, d]) == Step(Step(Step(Step(s, a), b), c), d)
  {
    var s1 := Step(s, a);
    var s2 := Step(s1, b);
    var s3 := Step(s2, c);
    assert [a, b, c, d][1..] == [b, c, d] && [b, c, d][1..] == [c, d] && [c, d][1..] == [d];
    RunOne(s3, d);
    assert Run(s2, [c, d]) == Step(s3, d);
    assert Run(s1, [b, c, d]) == Step(s3, d);
  }

  /** The ring as the two ends find it between operations. */
  lemma RingEnds<T>(mem: Memory<T>, q: seq<T>)
    requires Holds(mem, q)
    ensures mem.tail < |mem.cells| && Index(mem.head) < |mem.cells|
    ensures NextIndex(mem.tail, mem.size) == Index(mem.head) <==> |q| + 1 == mem.size
    ensures Index(mem.head) == mem.tail <==> q == []
    ensures q != [] ==> mem.cells[Index(mem.head)] == q[0]
  {
    if q != [] { assert Slot(Index(mem.head), 0, mem.size) == Index(mem.head); }
  }

  lemma PushRuns<T>(s: State<T>, m: T)
    requires s.producer.PIdle? && s.mem.tail < |s.mem.cells|
    ensures
      var tail, waking := s.mem.tail, LoadedHead(s.waking, Asleep(s.mem.head));
      var next := NextIndex(tail, s.mem.size);
      Run(s, PushSteps(m)) == if next == Index(s.mem.head) then
        s.(log := s.log.(pushResults := s.log.pushResults + [false]), waking := waking)
      else
        State(Memory(s.mem.size, s.mem.head, next, s.mem.cells[tail := m]), PIdle, s.consumer, Pushed(s.log, m), waking)
  {
    RunFour(s, PushBegin(m), ProducerStep, ProducerStep, ProducerStep);
  }

  /** An uninterrupted `Push`: it appends, or refuses exactly when the ring is full. */
  lemma PushAlone<T>(s: State<T>, m: T)
    requires Inv(s) && s.producer.PIdle?
    ensures
      var tail, waking := s.mem.tail, LoadedHead(s.waking, Asleep(s.mem.head));
      var next, t := NextIndex(tail, s.mem.size), Run(s, PushSteps(m));
      && tail < |s.mem.cells|
      && Inv(t)
      && (next == Index(s.mem.head) <==> |Contents(s.log)| + 1 == s.mem.size)
      && Contents(t.log) == Contents(s.log) + (if next == Index(s.mem.head) then [] else [m])
      && t == if next == Index(s.mem.head) then
                s.(log := s.log.(pushResults := s.log.pushResults + [false]), waking := waking)
              else
                State(Memory(s.mem.size, s.mem.head, next, s.mem.cells[tail := m]),
                      PIdle, s.consumer, Pushed(s.log, m), waking)
  {
    RingEnds(s.mem, Contents(s.log));
    PushRuns(s, m);
    RunKeepsInv(s, PushSteps(m));
    PushedContents(s.log, m);
  }

  lemma PushedContents<T>(log: Log<T>, m: T)
    requires log.popped <= log.pushed
    ensures Contents(Pushed(log, m)) == Contents(log) + [m]
    ensures Contents(log.(pushResults := log.pushResults + [false])) == Contents(log) + []
  {
  }

  lemma PopFirstSteps<T>(s: State<T>)
    requires Inv(s) && s.consumer.CIdle?
    ensures Run(s, PopHead(Asleep(s.mem.head))) ==
            s.(mem := s.mem.(head := Index(s.mem.head)), consumer := CLoadedHead(Index(s.mem.head)))
  {
    RunOne(s, PopBegin);
    RunOne(Step(s, PopBegin), ConsumerStep);
    RunConcat(s, [PopBegin], if Asleep(s.mem.head) then [ConsumerStep] else []);
  }

  lemma RunThree<T>(s: State<T>, a: Action<T>, b: Action<T>, c: Action<T>)
    ensures Run(s, [a, b, c]) == Step(Step(Step(s, a), b), c)
  {
    assert [a, b, c] == [a] + ([b] + [c]);
    RunConcat(s, [a], [b] + [c]);
    RunConcat(Step(s, a), [b], [c]);
    RunOne(s, a);
    RunOne(Step(s, a), b);
    RunOne(Step(Step(s, a), b), c);
  }

  lemma PopRuns<T>(s: State<T>)
    requires Inv(s) && s.consumer.CIdle? && Index(s.mem.head) < |s.mem.cells|
    ensures
      var head := Index(s.mem.head);
      Run(s, PopSteps(Asleep(s.mem.head))) == if head == s.mem.tail then
        s.(mem := s.mem.(head := head), log := s.log.(popResults := s.log.popResults + [None]))
      else
        s.(mem := s.mem.(head := NextIndex(head, s.mem.size)), log := Popped(s.log, s.mem.cells[head]))
  {
    var first := PopHead<T>(Asleep(s.mem.head));
    PopFirstSteps(s);
    RunConcat(s, first, [ConsumerStep, ConsumerStep, ConsumerStep]);
    RunThree(Run(s, first), ConsumerStep, ConsumerStep, ConsumerStep);
  }

  /** An uninterrupted `Pop`, on an empty or a non-empty ring. */
  lemma PopAlone<T>(s: State<T>)
    requires Inv(s) && s.consumer.CIdle?
    ensures
      var head, q, t := Index(s.mem.head), Contents(s.log), Run(s, PopSteps(Asleep(s.mem.head)));
      && head < |s.mem.cells|
      && Inv(t)
      && (head == s.mem.tail <==> q == [])
      && q == (if q == [] then [] else [s.mem.cells[head]]) + Contents(t.log)
      && t == if q == [] then
                s.(mem := s.mem.(head := head), log := s.log.(popResults := s.log.popResults + [None]))
              else
                s.(mem := s.mem.(head := NextIndex(head, s.mem.size)), log := Popped(s.log, s.mem.cells[head]))
  {
    RingEnds(s.mem, Contents(s.log));
    PopRuns(s);
    RunKeepsInv(s, PopSteps(Asleep(s.mem.head)));
    if Contents(s.log) != [] { PoppedContents(s.log, s.mem.cells[Index(s.mem.head)]); }
  }

  lemma PoppedContents<T>(log: Log<T>, m: T)
    requires Contents(log) != []
    ensures Contents(log) == [Contents(log)[0]] + Contents(Popped(log, m))
  {
  }

  /** The consumer goes to sleep and then a message is pushed. */
  function SleepThenPush(m: int): seq<Action<int>> { [EnterSleep] + PushSteps(m) }

  lemma SleepThenPushAlone(s: State<int>, m: int)
    requires Inv(s) && s.producer.PIdle? && s.consumer.CIdle? && |Contents(s.log)| + 1 < s.mem.size
    ensures
      var t := Run(s, SleepThenPush(m));
      && Inv(t) && t.producer.PIdle? && t.consumer.CIdle? && t.mem.size == s.mem.size
      && Asleep(t.mem.head) && Contents(t.log) == Contents(s.log) + [m]
      && t.waking == LoadedHead(s.waking, true)
  {
    RunConcat(s, [EnterSleep], PushSteps(m));
    RunOne(s, EnterSleep);
    StepRefinesFifo(s, EnterSleep);
    PushAlone(Step(s, EnterSleep), m);
  }

  /**
   "Every message pushed to a sleeping consumer wakes it" is false: sleep, push, pop, sleep
   again, push leaves the consumer asleep with a message waiting for it, and only its first
   sleep was answered by a call of the wake function.
   */
  lemma WakeupCanBeLost()
    ensures
      var s := Run(Init([0, 0, 0]), SleepThenPush(1) + PopSteps(true) + SleepThenPush(2));
      Asleep(s.mem.head) && s.consumer.CIdle? && Contents(s.log) == [2] && s.waking.calls == 1
  {
    var s0 := Init([0, 0, 0]);
    RunConcat(s0, SleepThenPush(1) + PopSteps(true), SleepThenPush(2));
    RunConcat(s0, SleepThenPush(1), PopSteps(true));
    SleepThenPushAlone(s0, 1);
    var s1 := Run(s0, SleepThenPush(1));
    PopAlone(s1);
    SleepThenPushAlone(Run(s1, PopSteps(true)), 2);
  }

  // ---- The operations themselves --------------------------------------------------------

  /** The queue as its two ends use it; run without interference, each call is its steps in a row. */
  class Ring<T> {
    const queueSize: nat
    var head: nat
    var tail: nat
    const cells: array<T>
    var wakeupConsumerFlag: bool
    var wakeupCalls: nat
    ghost var loads: seq<bool>
    ghost var log: Log<T>

    ghost function Snapshot(): State<T>
      reads this, cells
    {
      State(Memory(queueSize, head, tail, cells[..]), PIdle, CIdle, log, Waking(wakeupConsumerFlag, loads, wakeupCalls))
    }

    ghost predicate Valid()
      reads this, cells
    {
      Inv(Snapshot())
    }

    constructor (memory: array<T>)
      requires 2 <= memory.Length <= SLEEP_MASK
      ensures Valid() && Snapshot() == Init(memory[..]) && cells == memory
    {
      queueSize, cells := memory.Length, memory;
      head, tail, wakeupConsumerFlag, wakeupCalls := 0, 0, false, 0;
      loads, log := [], Log([], [], [], []);
    }

    /** The head load of a `Push`, with its wake-up decision. */
    method LoadHead() returns (h: nat)
      modifies this`wakeupConsumerFlag, this`wakeupCalls, this`loads
      ensures h == Index(head)
      ensures Waking(wakeupConsumerFlag, loads, wakeupCalls) ==
              LoadedHead(old(Waking(wakeupConsumerFlag, loads, wakeupCalls)), Asleep(head))
    {
      h := head;
      loads := loads + [Asleep(h)];
      if Asleep(h) {
        if !wakeupConsumerFlag {
          wakeupConsumerFlag := true;
          wakeupCalls := wakeupCalls + 1;
        }
        h := FlipSleep(h);
      } else {
        wakeupConsumerFlag := false;
      }
    }

    method Push(message: T) returns (ok: bool)
      requires Valid()
      modifies this, cells
      ensures Valid() && Snapshot() == Run(old(Snapshot()), PushSteps(message))
      ensures ok <==> |old(Contents(log))| < queueSize - 1
      ensures Contents(log) == old(Contents(log)) + if ok then [message] else []
    {
      ghost var s0 := Snapshot();
      PushAlone(s0, message);
      var current := tail;
      var next := current + 1;
      if next == queueSize { next := 0; }
      var h := LoadHead();
      if next != h {
        cells[current] := message;
        tail := next;
        log := Pushed(log, message);
        ok := true;
      } else {
        log := log.(pushResults := log.pushResults + [false]);
        ok := false;
      }
      assert Snapshot() == Run(s0, PushSteps(message));
    }

    method Pop() returns (message: Option<T>)
      requires Valid()
      modifies this
      ensures Valid() && Snapshot() == Run(old(Snapshot()), PopSteps(old(Asleep(head))))
      ensures message.None? <==> old(Contents(log)) == []
      ensures old(Contents(log)) == (if message.Some? then [message.value] else []) + Contents(log)
    {
      ghost var s0 := Snapshot();
      PopAlone(s0);
      var current := head;
      if Asleep(current) {
        current := FlipSleep(current);
        head := FlipSleep(head);
      }
      if current == tail {
        log := log.(popResults := log.popResults + [None]);
        message := None;
      } else {
        var next := current + 1;
        if next == queueSize { next := 0; }
        message := Some(cells[current]);
        head := next;
        log := Popped(log, message.value);
      }
      assert Snapshot() == Run(s0, PopSteps(Asleep(s0.mem.head)));
    }

    method ConsumerEnterSleep()
      requires Valid()
      modifies this`head
      ensures Valid() && Snapshot() == Run(old(Snapshot()), [EnterSleep]) && Asleep(head)
    {
      RunKeepsInv(Snapshot(), [EnterSleep]);
      RunOne(Snapshot(), EnterSleep);
      head := SetSleep(head);
    }
  }
}
