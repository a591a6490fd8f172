/**
 The connection tables of an IO worker (`server/io_worker.cpp`): the pick cache that speeds up
 round-robin choice, and the shutdown protocol of the pipe back to the server.
 */
module IoWorker {
  import opened Collections
  import opened BitFields
  import opened Circles

  const SIZE_LIMIT: nat := 0x1_0000_0000_0000_0000  // size_t

  /** A connection; `kind` is its type id, negative for connections that are never picked. */
  datatype Connection = Connection(id: nat, kind: int)

  // ---- Round robin --------------------------------------------------------------------------

  /** `n` picks in a row from an unchanging cache, with the counter wrapping like a `size_t`. */
  function Picks(cache: seq<Connection>, rr: nat, n: nat): seq<Connection>
    requires cache != []
    decreases n
  {
    if n == 0 then [] else [cache[Slot(rr, |cache|)]] + Picks(cache, (rr + 1) % SIZE_LIMIT, n - 1)
  }

  /** The position of the `k`-th of several picks. */
  function Position(rr: nat, k: nat, n: nat): (i: nat)
    requires n > 0
    ensures i < n
  {
    Slot((rr + k) % SIZE_LIMIT, n)
  }

  lemma {:induction false} PicksAt(cache: seq<Connection>, rr: nat, n: nat, k: nat)
    requires cache != [] && rr < SIZE_LIMIT && k < n
    ensures |Picks(cache, rr, n)| == n
    ensures Picks(cache, rr, n)[k] == cache[Position(rr, k, |cache|)]
    decreases n
  {
    PicksLength(cache, rr, n);
    if k > 0 {
      var rr1 := (rr + 1) % SIZE_LIMIT;
      PicksAt(cache, rr1, n - 1, k - 1);
      WrapTwice(rr, k);
      assert Position(rr1, k - 1, |cache|) == Position(rr, k, |cache|);
      assert Picks(cache, rr, n)[k] == Picks(cache, rr1, n - 1)[k - 1];
    } else {
      assert (rr + k) % SIZE_LIMIT == rr;
    }
  }

  lemma WrapTwice(rr: nat, k: nat)
    requires rr < SIZE_LIMIT && k > 0
    ensures ((rr + 1) % SIZE_LIMIT + (k - 1)) % SIZE_LIMIT == (rr + k) % SIZE_LIMIT
  {
    if rr + 1 == SIZE_LIMIT {
      var q, r := (k - 1) / SIZE_LIMIT, (k - 1) % SIZE_LIMIT;
      Divide(r, SIZE_LIMIT, q + 1);
      assert rr + k == r + SIZE_LIMIT * (q + 1);
    }
  }

  lemma {:induction false} PicksLength(cache: seq<Connection>, rr: nat, n: nat)
    requires cache != []
    ensures |Picks(cache, rr, n)| == n
    decreases n
  {
    if n > 0 { PicksLength(cache, (rr + 1) % SIZE_LIMIT, n - 1); }
  }

  /** A wrap of the counter is invisible when it does not happen, or when `n` divides 2^64. */
  lemma WrapIsInvisible(rr: nat, k: nat, n: nat)
    requires n > 0 && rr + k < 2 * SIZE_LIMIT && (rr + k < SIZE_LIMIT || SIZE_LIMIT % n == 0)
    ensures Position(rr, k, n) == Slot(rr + k, n)
  {
    if rr + k >= SIZE_LIMIT {
      var y, m := rr + k - SIZE_LIMIT, SIZE_LIMIT / n;
      assert SIZE_LIMIT == n * m;
      Divide(y % n, n, y / n + m);
      assert rr + k == y % n + n * (y / n + m) by { assert y == n * (y / n) + y % n; }
    }
  }

  ghost predicate PositionsDiffer(rr: nat, n: nat)
    requires n > 0
  {
    forall a, b :: 0 <= a < b < n ==> Position(rr, a, n) != Position(rr, b, n)
  }

  lemma PositionIs(rr: nat, k: nat, n: nat, value: nat, q: nat, r: nat)
    requires value < SIZE_LIMIT && (rr + k == value || rr + k == value + SIZE_LIMIT)
    requires r < n && value == n * q + r
    ensures Position(rr, k, n) == r
  {
    Divide(r, n, q);
    assert (rr + k) % SIZE_LIMIT == value;
  }

  /** A wrap inside the window makes two picks fall on the same connection. */
  lemma WrapRepeats(rr: nat, n: nat)
    requires 0 < n && rr < SIZE_LIMIT < rr + n && SIZE_LIMIT % n != 0
    ensures !PositionsDiffer(rr, n)
  {
    var j, q, m := SIZE_LIMIT - rr, SIZE_LIMIT % n, SIZE_LIMIT / n;
    assert SIZE_LIMIT == n * m + q;
    if q >= j {
      PositionIs(rr, 0, n, rr, m, q - j);
      PositionIs(rr, q, n, q - j, 0, q - j);
    } else {
      PositionIs(rr, j - q, n, SIZE_LIMIT - q, m, 0);
      PositionIs(rr, j, n, 0, 0, 0);
    }
  }

  lemma PositionsDifferIff(rr: nat, n: nat)
    requires 0 < n && n < SIZE_LIMIT && rr < SIZE_LIMIT
    ensures PositionsDiffer(rr, n) <==> rr + n <= SIZE_LIMIT || SIZE_LIMIT % n == 0
  {
    if rr + n <= SIZE_LIMIT || SIZE_LIMIT % n == 0 {
      forall a, b | 0 <= a < b < n ensures Position(rr, a, n) != Position(rr, b, n) {
        WrapIsInvisible(rr, a, n);
        WrapIsInvisible(rr, b, n);
        CloseNumbersDiffer(rr + a, rr + b, n);
      }
    } else {
      WrapRepeats(rr, n);
    }
  }

  /**
   As many picks as there are connections return each of them once, exactly when the counter
   does not wrap on the way or their number divides 2^64.
   */
  lemma EveryConnectionOnce(cache: seq<Connection>, rr: nat)
    requires cache != [] && |cache| < SIZE_LIMIT && rr < SIZE_LIMIT && NoDup(cache)
    ensures NoDup(Picks(cache, rr, |cache|)) <==> rr + |cache| <= SIZE_LIMIT || SIZE_LIMIT % |cache| == 0
    ensures NoDup(Picks(cache, rr, |cache|)) ==> forall c :: c in cache <==> c in Picks(cache, rr, |cache|)
  {
    var n := |cache|;
    var picks := Picks(cache, rr, n);
    PicksLength(cache, rr, n);
    forall k | 0 <= k < n ensures Position(rr, k, n) < n && picks[k] == cache[Position(rr, k, n)] {
      PicksAt(cache, rr, n, k);
    }
    assert forall c :: c in picks ==> c in cache;
    assert NoDup(picks) <==> PositionsDiffer(rr, n);
    PositionsDifferIff(rr, n);
    if NoDup(picks) { DistinctFills(picks, cache); }
  }

  /** Three connections and a counter about to wrap: the first of them is picked twice in a row. */
  lemma WrapPicksTwice(a: Connection, b: Connection, c: Connection)
    requires a != b && b != c && a != c
    ensures Picks([a, b, c], SIZE_LIMIT - 1, 3) == [a, a, b]
  {
    assert SIZE_LIMIT % 3 == 1;
    var rest := Picks([a, b, c], 0, 2);
    assert Picks([a, b, c], 1, 1) == [b];
    assert rest == [a] + Picks([a, b, c], 1, 1);
  }

  // ---- The worker ---------------------------------------------------------------------------

  datatype Phase = Running | Stopping

  /** The ids filed under each type are exactly the live connections of that type. */
  ghost predicate TypeTableOk(connections: map<nat, Connection>, byType: map<int, set<nat>>) {
    && (forall id :: id in connections ==> connections[id].id == id)
    && (forall id :: id in connections && connections[id].kind >= 0 ==>
          connections[id].kind in byType && id in byType[connections[id].kind])
    && (forall t, id :: t in byType && id in byType[t] ==> id in connections && connections[id].kind == t)
    && (forall t :: t in byType ==> t >= 0)
  }

  /** A cached pick list holds exactly the live connections of its type, without repeats. */
  ghost predicate CacheExact(connections: map<nat, Connection>, t: int, cache: seq<Connection>) {
    && NoDup(cache)
    && (forall c :: c in cache <==> c.id in connections && connections[c.id] == c && c.kind == t)
  }

  ghost predicate TablesOk(connections: map<nat, Connection>, byType: map<int, set<nat>>, forPick: map<int, seq<Connection>>) {
    && TypeTableOk(connections, byType)
    && (forall t :: t in forPick ==> t in byType && CacheExact(connections, t, forPick[t]))
  }

  /** The tables with a connection filed, and with it taken out again. */
  function Filed(byType: map<int, set<nat>>, c: Connection): map<int, set<nat>> {
    if c.kind < 0 then byType else byType[c.kind := (if c.kind in byType then byType[c.kind] else {}) + {c.id}]
  }

  function Cached(forPick: map<int, seq<Connection>>, c: Connection): map<int, seq<Connection>> {
    if c.kind >= 0 && c.kind in forPick then forPick[c.kind := forPick[c.kind] + [c]] else forPick
  }

  function Unfiled(byType: map<int, set<nat>>, c: Connection): map<int, set<nat>> {
    if c.kind < 0 || c.kind !in byType then byType else byType[c.kind := byType[c.kind] - {c.id}]
  }

  function Uncached(forPick: map<int, seq<Connection>>, c: Connection): map<int, seq<Connection>> {
    if c.kind >= 0 then forPick - {c.kind} else forPick
  }

  /** Where a connection that the server handed over is now. */
  datatype Place = Live | InTransit | HandedBack

  ghost function At(h: map<nat, Place>, p: Place): set<nat> { set id | id in h && h[id] == p }

  predicate AllBack(h: map<nat, Place>) { forall id :: id in h ==> h[id] == HandedBack }

  /** The pipe is closed once every connection is handed back in the stopping phase, and only then. */
  ghost predicate ShutdownOk(phase: Phase, connections: map<nat, Connection>, h: map<nat, Place>, onClosing: nat, pipeCloses: nat) {
    && connections.Keys == At(h, Live)
    && onClosing == |At(h, InTransit)|
    && pipeCloses == (if phase == Stopping && AllBack(h) then 1 else 0)
  }

  /** The worker's own test for "all handed back" is exact. */
  lemma NothingLeftIff(connections: map<nat, Connection>, h: map<nat, Place>)
    requires connections.Keys == At(h, Live)
    ensures |connections| == 0 && |At(h, InTransit)| == 0 <==> AllBack(h)
  {
    if |connections| == 0 && |At(h, InTransit)| == 0 {
      assert connections.Keys == {};
      forall id | id in h ensures h[id] == HandedBack {
        assert id !in At(h, Live) && id !in At(h, InTransit);
      }
    }
    if AllBack(h) {
      assert At(h, Live) == {} && At(h, InTransit) == {};
    }
  }

  /** A connection moves from one place to the next. */
  lemma Moves(h: map<nat, Place>, id: nat, p: Place)
    requires id in h ==> h[id] != p
    ensures At(h[id := p], p) == At(h, p) + {id} && |At(h[id := p], p)| == |At(h, p)| + 1
    ensures forall q :: q != p ==> At(h[id := p], q) == At(h, q) - {id}
    ensures forall q :: id in h && q == h[id] ==> |At(h[id := p], q)| == |At(h, q)| - 1
    ensures p != HandedBack ==> !AllBack(h[id := p])
  {
    assert h[id := p][id] == p;
    if id in h { assert id in At(h, h[id]); }
  }

  lemma WrittenBack(phase: Phase, connections: map<nat, Connection>, h: map<nat, Place>, onClosing: nat, pipeCloses: nat, id: nat)
    requires ShutdownOk(phase, connections, h, onClosing, pipeCloses) && id in h && h[id] == InTransit
    ensures pipeCloses == 0 && onClosing > 0
    ensures var closes := phase == Stopping && |connections| == 0 && onClosing - 1 == 0;
      && ShutdownOk(phase, connections, h[id := HandedBack], onClosing - 1, if closes then 1 else 0)
      && (closes <==> phase == Stopping && AllBack(h[id := HandedBack]))
  {
    assert id in At(h, InTransit);
    Moves(h, id, HandedBack);
    NothingLeftIff(connections, h[id := HandedBack]);
  }

  class IOWorker {
    var phase: Phase
    var connections: map<nat, Connection>
    var byType: map<int, set<nat>>
    var forPick: map<int, seq<Connection>>
    var forPickRr: map<int, nat>
    var onClosing: nat
    var pipeCloses: nat         // how often the pipe to the server was closed
    ghost var h: map<nat, Place>

    ghost predicate Valid()
      reads this
    {
      && TablesOk(connections, byType, forPick)
      && (forall t :: t in forPickRr ==> forPickRr[t] < SIZE_LIMIT)
      && ShutdownOk(phase, connections, h, onClosing, pipeCloses)
    }

    constructor ()
      ensures Valid() && phase == Running && h == map[] && pipeCloses == 0
    {
      phase, connections, byType, forPick, forPickRr := Running, map[], map[], map[], map[];
      onClosing, pipeCloses, h := 0, 0, map[];
    }

    method File(c: Connection)
      requires TablesOk(connections, byType, forPick) && c.id !in connections
      modifies this`connections, this`byType, this`forPick
      ensures connections == old(connections)[c.id := c]
      ensures TablesOk(connections, byType, forPick)
    {
      NewConnectionOk(connections, byType, forPick, c);
      ghost var byType0, forPick0 := byType, forPick;
      connections := connections[c.id := c];
      if c.kind >= 0 {
        byType := byType[c.kind := (if c.kind in byType then byType[c.kind] else {}) + {c.id}];
        if c.kind in forPick {
          forPick := forPick[c.kind := forPick[c.kind] + [c]];
        }
      }
      assert byType == Filed(byType0, c) && forPick == Cached(forPick0, c);
    }

    method Unfile(c: Connection)
      requires TablesOk(connections, byType, forPick) && c.id in connections && connections[c.id] == c
      modifies this`connections, this`byType, this`forPick
      ensures connections == old(connections) - {c.id}
      ensures TablesOk(connections, byType, forPick)
    {
      CloseOk(connections, byType, forPick, c);
      ghost var byType0, forPick0 := byType, forPick;
      connections := connections - {c.id};
      if c.kind >= 0 {
        byType := byType[c.kind := byType[c.kind] - {c.id}];
        if c.kind in forPick { forPick := forPick - {c.kind}; }
      }
      assert byType == Unfiled(byType0, c) && forPick == Uncached(forPick0, c);
    }

    /** A connection arrives over the pipe; in the stopping phase it is closed at once. */
    method OnNewConnection(c: Connection) returns (scheduleClose: bool)
      requires Valid() && pipeCloses == 0 && c.id !in h
      modifies this`connections, this`byType, this`forPick, this`h
      ensures connections == old(connections)[c.id := c] && h == old(h)[c.id := Live]
      ensures scheduleClose == (phase == Stopping)
      ensures Valid()
    {
      Moves(h, c.id, Live);
      File(c);
      h := h[c.id := Live];
      scheduleClose := phase == Stopping;
    }

    /** The rows a closing connection leaves; its write back to the server begins. */
    method OnConnectionClose(c: Connection)
      requires Valid() && c.id in connections && connections[c.id] == c
      modifies this`connections, this`byType, this`forPick, this`h, this`onClosing
      ensures connections == old(connections) - {c.id} && h == old(h)[c.id := InTransit]
      ensures Valid()
    {
      assert c.id in At(h, Live);
      Moves(h, c.id, InTransit);
      Unfile(c);
      onClosing := onClosing + 1;
      h := h[c.id := InTransit];
    }

    /** The server has the connection again. */
    method PipeWrite(ghost id: nat)
      requires Valid() && id in h && h[id] == InTransit
      modifies this`onClosing, this`pipeCloses, this`h
      ensures h == old(h)[id := HandedBack]
      ensures old(pipeCloses) == 0 && (pipeCloses == 1 <==> phase == Stopping && AllBack(h))
      ensures Valid()
    {
      WrittenBack(phase, connections, h, onClosing, pipeCloses, id);
      onClosing := onClosing - 1;
      h := h[id := HandedBack];
      if phase == Stopping && |connections| == 0 && onClosing == 0 {
        pipeCloses := pipeCloses + 1;
      }
    }

    /** The first stop closes the pipe if nothing is left, or asks every live connection to close. */
    method Stop() returns (scheduled: set<nat>)
      requires Valid()
      modifies this`phase, this`pipeCloses
      ensures phase == Stopping
      ensures old(phase) == Stopping ==> pipeCloses == old(pipeCloses) && scheduled == {}
      ensures old(phase) == Running ==> old(pipeCloses) == 0 && scheduled == At(h, Live)
      ensures pipeCloses == 1 <==> AllBack(h)
      ensures Valid()
    {
      scheduled := {};
      if phase == Stopping { return; }
      NothingLeftIff(connections, h);
      if |connections| == 0 && onClosing == 0 {
        pipeCloses := pipeCloses + 1;
      } else {
        scheduled := connections.Keys;
      }
      phase := Stopping;
    }

    ghost function Counter(t: int): nat
      reads this
    {
      if t in forPickRr then forPickRr[t] else 0
    }

    /** Null exactly when there is no connection of that type; otherwise the next one in turn. */
    method PickConnection(t: int) returns (r: Option<Connection>)
      requires Valid()
      modifies this`forPick, this`forPickRr
      ensures r.None? <==> t !in byType || byType[t] == {}
      ensures r.None? ==> forPick == old(forPick) && forPickRr == old(forPickRr)
      ensures r.Some? ==> t in forPick && forPick[t] != [] && (t in old(forPick) ==> forPick == old(forPick))
      ensures r.Some? ==> r.value in forPick[t] && [r.value] == Picks(forPick[t], old(Counter(t)), 1)
      ensures r.Some? ==> forPickRr == old(forPickRr)[t := (old(Counter(t)) + 1) % SIZE_LIMIT]
      ensures Valid()
    {
      if t !in byType || byType[t] == {} { return None; }
      var n := |byType[t]|;
      FillCache(t);
      var rr := if t in forPickRr then forPickRr[t] else 0;
      r := Some(PickAt(forPick[t], rr, n));
      forPickRr := forPickRr[t := (rr + 1) % SIZE_LIMIT];
    }

    /** Picks in a row with no change in between are `Picks` of one exact cache, which `EveryConnectionOnce` describes. */
    method PickMany(t: int, n: nat) returns (picked: seq<Connection>)
      requires Valid() && t in byType && byType[t] != {} && n > 0
      modifies this`forPick, this`forPickRr
      ensures t in forPick && |forPick[t]| == |byType[t]| && (t in old(forPick) ==> forPick == old(forPick))
      ensures forPick[t] != [] && picked == Picks(forPick[t], old(Counter(t)), n)
      ensures Valid()
      decreases n
    {
      var first := PickConnection(t);
      picked := [first.value];
      if n > 1 {
        var rest := PickMany(t, n - 1);
        picked := picked + rest;
      } else {
        CacheCount(connections, byType, t, forPick[t]);
      }
    }

    /** As many picks as there are connections of the type: each live one once, under the exact condition. */
    method PickRound(t: int) returns (picked: seq<Connection>)
      requires Valid() && t in byType && byType[t] != {} && |byType[t]| < SIZE_LIMIT
      modifies this`forPick, this`forPickRr
      ensures NoDup(picked) <==> old(Counter(t)) + |byType[t]| <= SIZE_LIMIT || SIZE_LIMIT % |byType[t]| == 0
      ensures NoDup(picked) ==> forall c :: c in picked <==> c.id in connections && connections[c.id] == c && c.kind == t
      ensures Valid()
    {
      picked := PickMany(t, |byType[t]|);
      EveryConnectionOnce(forPick[t], old(Counter(t)));
    }

    method FillCache(t: int)
      requires TablesOk(connections, byType, forPick) && t in byType
      modifies this`forPick
      ensures TablesOk(connections, byType, forPick) && t in forPick && |forPick[t]| == |byType[t]|
      ensures t in old(forPick) ==> forPick == old(forPick)
    {
      if t !in forPick {
        var conns := ListConnections(t);
        forPick := forPick[t := conns];
      }
      CacheCount(connections, byType, t, forPick[t]);
    }

    /** The loop that fills the cache, in whatever order the hash set yields the ids. */
    method ListConnections(t: int) returns (conns: seq<Connection>)
      requires TypeTableOk(connections, byType) && t in byType
      ensures CacheExact(connections, t, conns)
    {
      conns := [];
      var rest := byType[t];
      while rest != {}
        invariant rest <= byType[t] && NoDup(conns)
        invariant forall c :: c in conns <==> c.id in byType[t] - rest && connections[c.id] == c
      {
        var id :| id in rest;
        conns := conns + [connections[id]];
        rest := rest - {id};
      }
    }
  }

  /** The cached connection under the round-robin counter. */
  function PickAt(cache: seq<Connection>, rr: nat, n: nat): (c: Connection)
    requires 0 < n == |cache|
    ensures c in cache && [c] == Picks(cache, rr, 1)
  {
    assert Picks(cache, (rr + 1) % SIZE_LIMIT, 0) == [];
    cache[Slot(rr, n)]
  }

  lemma NewConnectionOk(connections: map<nat, Connection>, byType: map<int, set<nat>>, forPick: map<int, seq<Connection>>, c: Connection)
    requires TablesOk(connections, byType, forPick) && c.id !in connections
    ensures TablesOk(connections[c.id := c], Filed(byType, c), Cached(forPick, c))
  {
    forall t | t in forPick && t != c.kind ensures CacheExact(connections[c.id := c], t, forPick[t]) {}
    if c.kind >= 0 && c.kind in forPick {
      assert CacheExact(connections[c.id := c], c.kind, forPick[c.kind] + [c]);
    }
  }

  lemma CloseOk(connections: map<nat, Connection>, byType: map<int, set<nat>>, forPick: map<int, seq<Connection>>, c: Connection)
    requires TablesOk(connections, byType, forPick) && c.id in connections && connections[c.id] == c
    ensures c.kind >= 0 ==> c.kind in byType
    ensures TablesOk(connections - {c.id}, Unfiled(byType, c), Uncached(forPick, c))
  {
    forall t | t in forPick && t != c.kind ensures CacheExact(connections - {c.id}, t, forPick[t]) {}
  }

  /** Picking by type finds a connection exactly when a live one has that type. */
  lemma PickedIsLive(connections: map<nat, Connection>, byType: map<int, set<nat>>, forPick: map<int, seq<Connection>>, t: int)
    requires TablesOk(connections, byType, forPick) && t >= 0
    ensures t !in byType || byType[t] == {} <==> forall id :: id in connections ==> connections[id].kind != t
    ensures t in forPick ==> forall c :: c in forPick[t] <==> c.id in connections && connections[c.id] == c && c.kind == t
  {
    if t in byType && byType[t] != {} {
      var id :| id in byType[t];
      assert connections[id].kind == t;
    }
  }

  /** The cache is as long as the set of ids of its type, as the round robin assumes. */
  lemma CacheCount(connections: map<nat, Connection>, byType: map<int, set<nat>>, t: int, cache: seq<Connection>)
    requires TypeTableOk(connections, byType) && t in byType && CacheExact(connections, t, cache)
    ensures |cache| == |byType[t]|
  {
    DistinctCount(cache);
    var members := set c | c in cache;
    forall id | id in byType[t] ensures exists c :: c in members && c.id == id {
      assert connections[id] in members && connections[id].id == id;
    }
    SameCount(members, byType[t]);
  }

  lemma {:induction false} SameCount(members: set<Connection>, ids: set<nat>)
    requires forall c :: c in members ==> c.id in ids
    requires forall id :: id in ids ==> exists c :: c in members && c.id == id
    requires forall c, d :: c in members && d in members && c.id == d.id ==> c == d
    ensures |members| == |ids|
    decreases |members|
  {
    if members != {} {
      var c :| c in members;
      SameCount(members - {c}, ids - {c.id});
    }
  }

  // ---- Whole runs -----------------------------------------------------------------------------

  /** What an observer knows of a worker: its phase, its live connections, and where each one ever received is. */
  datatype Observed = Observed(phase: Phase, connections: map<nat, Connection>, h: map<nat, Place>)

  datatype Event = Arrives(c: Connection) | Closes(id: nat) | Written(id: nat) | Stops | PickOne(t: int)

  const START: Observed := Observed(Running, map[], map[])

  /** Stopping, and every connection handed back. */
  predicate Over(o: Observed) { o.phase == Stopping && AllBack(o.h) }

  /** Ids are never reused, nothing arrives over a closed pipe, and only live connections close. */
  predicate Enabled(o: Observed, e: Event) {
    match e
    case Arrives(c) => c.id !in o.h && !Over(o)
    case Closes(id) => id in o.connections
    case Written(id) => id in o.h && o.h[id] == InTransit
    case Stops => true
    case PickOne(_) => true
  }

  function Step(o: Observed, e: Event): Observed {
    match e
    case Arrives(c) => o.(connections := o.connections[c.id := c], h := o.h[c.id := Live])
    case Closes(id) => o.(connections := o.connections - {id}, h := o.h[id := InTransit])
    case Written(id) => o.(h := o.h[id := HandedBack])
    case Stops => o.(phase := Stopping)
    case PickOne(_) => o
  }

  function Run(o: Observed, events: seq<Event>): Observed
    decreases |events|
  {
    if events == [] then o else Run(Step(o, events[0]), events[1..])
  }

  predicate Feasible(o: Observed, events: seq<Event>)
    decreases |events|
  {
    events == [] || (Enabled(o, events[0]) && Feasible(Step(o, events[0]), events[1..]))
  }

  /** Once the pipe is closed it stays so: nothing arrives, closes or is written back any more. */
  lemma {:induction false} OverIsFinal(o: Observed, events: seq<Event>)
    requires Over(o) && Feasible(o, events) && (forall id :: id in o.connections ==> id in o.h && o.h[id] == Live)
    ensures Run(o, events) == o
    ensures forall i :: 0 <= i < |events| ==> events[i].Stops? || events[i].PickOne?
    decreases |events|
  {
    if events != [] {
      assert Step(o, events[0]) == o;
      OverIsFinal(o, events[1..]);
      forall i | 0 <= i < |events| ensures events[i].Stops? || events[i].PickOne? {
        if i > 0 { assert events[i] == events[1..][i - 1]; }
      }
    }
  }

  method Apply(w: IOWorker, e: Event)
    requires w.Valid() && Enabled(Observed(w.phase, w.connections, w.h), e)
    modifies w
    ensures w.Valid()
    ensures Observed(w.phase, w.connections, w.h) == Step(old(Observed(w.phase, w.connections, w.h)), e)
  {
    match e {
      case Arrives(c) => var close := w.OnNewConnection(c);
      case Closes(id) => w.OnConnectionClose(w.connections[id]);
      case Written(id) => w.PipeWrite(id);
      case Stops => var scheduled := w.Stop();
      case PickOne(t) => var picked := w.PickConnection(t);
    }
  }

  method Drive(w: IOWorker, events: seq<Event>)
    requires w.Valid() && Feasible(Observed(w.phase, w.connections, w.h), events)
    modifies w
    ensures w.Valid()
    ensures Observed(w.phase, w.connections, w.h) == Run(old(Observed(w.phase, w.connections, w.h)), events)
    decreases |events|
  {
    if events != [] {
      Apply(w, events[0]);
      Drive(w, events[1..]);
    }
  }

  /**
   A new worker driven through any feasible run: every cached pick list holds exactly the live
   connections of its type, and the pipe was closed once if everything is handed back in the
   stopping phase and never otherwise.
   */
  method Replay(events: seq<Event>) returns (w: IOWorker)
    requires Feasible(START, events)
    ensures w.Valid()
    ensures var o := Run(START, events);
      && w.connections == o.connections
      && w.pipeCloses == (if Over(o) then 1 else 0)
      && forall t :: t in w.forPick ==> CacheExact(o.connections, t, w.forPick[t])
  {
    w := new IOWorker();
    Drive(w, events);
  }
}
