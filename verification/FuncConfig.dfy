/**
 Loading the function table (`common/func_config.cpp`) from an already parsed list of items:
 ids, names, gRPC method ids and the two lookup tables.
 */
module FuncConfigs {
  import opened Collections
  import opened Protocol

  /** One parsed element of the configuration array; `None` where the key is absent. */
  datatype Item = Item(
    funcName: string, funcId: int, minWorkers: Option<int>, maxWorkers: Option<int>,
    allowHttpGet: Option<bool>, qsAsInput: Option<bool>, grpcMethods: Option<seq<string>>)

  datatype Entry = Entry(
    funcName: string, funcId: int, minWorkers: int, maxWorkers: int, allowHttpGet: bool, qsAsInput: bool,
    isGrpcService: bool, grpcServiceName: string, grpcMethods: seq<string>, grpcMethodIds: map<string, int>)

  const GRPC: string := "grpc:"

  predicate IsAlphanumeric(ch: char) { '0' <= ch <= '9' || 'a' <= ch <= 'z' || 'A' <= ch <= 'Z' }

  predicate ValidFuncId(id: int) { 0 < id < FUNC_ID_LIMIT }

  predicate ValidFuncName(name: string) {
    if GRPC <= name
    then forall i :: |GRPC| <= i < |name| ==> IsAlphanumeric(name[i]) || name[i] == '.' || name[i] == '_'
    else forall i :: 0 <= i < |name| ==> IsAlphanumeric(name[i])
  }

  predicate Distinct(names: seq<string>) { forall i, j :: 0 <= i < j < |names| ==> names[i] != names[j] }

  /** What an item must satisfy on its own. */
  predicate ValidItem(item: Item) {
    && ValidFuncName(item.funcName) && ValidFuncId(item.funcId)
    && (GRPC <= item.funcName ==> item.grpcMethods.Some?)
    && (GRPC <= item.funcName ==> |item.grpcMethods.value| <= METHOD_ID_LIMIT && Distinct(item.grpcMethods.value))
  }

  /** A whole list is loadable: every item valid, no name and no id used twice. */
  ghost predicate Loadable(items: seq<Item>) {
    && (forall i :: 0 <= i < |items| ==> ValidItem(items[i]))
    && (forall i, j :: 0 <= i < j < |items| ==> items[i].funcName != items[j].funcName)
    && (forall i, j :: 0 <= i < j < |items| ==> items[i].funcId != items[j].funcId)
  }

  /** Method ids number the methods, and looking a method up inverts the numbering. */
  ghost predicate MethodsOk(methods: seq<string>, ids: map<string, int>) {
    && |methods| <= METHOD_ID_LIMIT
    && (forall i :: 0 <= i < |methods| ==> methods[i] in ids && ids[methods[i]] == i)
    && (forall m :: m in ids ==> 0 <= ids[m] < |methods| && methods[ids[m]] == m)
  }

  /** An entry says what its item says. */
  ghost predicate EntryOf(e: Entry, item: Item) {
    && e.funcName == item.funcName && e.funcId == item.funcId
    && e.minWorkers == (if item.minWorkers.Some? then item.minWorkers.value else -1)
    && e.maxWorkers == (if item.maxWorkers.Some? then item.maxWorkers.value else -1)
    && e.isGrpcService == (GRPC <= item.funcName)
    && (e.isGrpcService ==> item.funcName == GRPC + e.grpcServiceName && item.grpcMethods == Some(e.grpcMethods))
    && (!e.isGrpcService ==> e.grpcMethods == [] && e.grpcServiceName == "")
    && e.allowHttpGet == (!e.isGrpcService && item.allowHttpGet == Some(true))
    && e.qsAsInput == (!e.isGrpcService && item.qsAsInput == Some(true))
    && MethodsOk(e.grpcMethods, e.grpcMethodIds)
  }

  ghost predicate Describes(entries: seq<Entry>, items: seq<Item>) {
    && |entries| == |items|
    && (forall i :: 0 <= i < |items| ==> EntryOf(entries[i], items[i]))
  }

  ghost predicate Indexed(entries: seq<Entry>, byName: map<string, Entry>, byId: map<int, Entry>) {
    && (forall e :: e in entries ==> e.funcName in byName && byName[e.funcName] == e)
    && (forall e :: e in entries ==> e.funcId in byId && byId[e.funcId] == e)
    && (forall n :: n in byName ==> byName[n] in entries && byName[n].funcName == n)
    && (forall d :: d in byId ==> byId[d] in entries && byId[d].funcId == d)
  }

  lemma IndexedSnoc(entries: seq<Entry>, byName: map<string, Entry>, byId: map<int, Entry>, e: Entry)
    requires Indexed(entries, byName, byId) && e.funcName !in byName && e.funcId !in byId
    ensures Indexed(entries + [e], byName[e.funcName := e], byId[e.funcId := e])
  {
  }

  lemma LoadableSnoc(entries: seq<Entry>, items: seq<Item>, item: Item)
    requires Loadable(items) && Describes(entries, items) && ValidItem(item)
    requires forall x :: x in entries ==> x.funcName != item.funcName && x.funcId != item.funcId
    ensures Loadable(items + [item])
  {
    forall i | 0 <= i < |items| ensures items[i].funcName != item.funcName && items[i].funcId != item.funcId {
      assert EntryOf(entries[i], items[i]) && entries[i] in entries;
    }
  }

  method ValidateFuncName(name: string) returns (ok: bool)
    ensures ok == ValidFuncName(name)
  {
    if GRPC <= name {
      for i := |GRPC| to |name|
        invariant forall j :: |GRPC| <= j < i ==> IsAlphanumeric(name[j]) || name[j] == '.' || name[j] == '_'
      {
        if !(IsAlphanumeric(name[i]) || name[i] == '.' || name[i] == '_') { return false; }
      }
    } else {
      for i := 0 to |name|
        invariant forall j :: 0 <= j < i ==> IsAlphanumeric(name[j])
      {
        if !IsAlphanumeric(name[i]) { return false; }
      }
    }
    return true;
  }

  /** Numbering the methods of a service fails exactly on a 65th method or a repeated name. */
  method NumberMethods(names: seq<string>) returns (ok: bool, methods: seq<string>, ids: map<string, int>)
    ensures ok <==> |names| <= METHOD_ID_LIMIT && Distinct(names)
    ensures ok ==> methods == names && MethodsOk(methods, ids)
  {
    methods, ids := [], map[];
    for i := 0 to |names|
      invariant methods == names[..i] && MethodsOk(methods, ids) && Distinct(methods)
    {
      if |methods| > METHOD_ID_LIMIT - 1 { return false, methods, ids; }
      if names[i] in ids {
        assert names[ids[names[i]]] == names[i];
        return false, methods, ids;
      }
      methods, ids := methods + [names[i]], ids[names[i] := |methods|];
    }
    ok := true;
  }

  class FuncConfig {
    var entries: seq<Entry>
    var byName: map<string, Entry>
    var byId: map<int, Entry>
    ghost var items: seq<Item>  // the items loaded so far

    /** The entries are those of a loadable list, and both tables index exactly them. */
    ghost predicate Valid()
      reads this
    {
      Loadable(items) && Describes(entries, items) && Indexed(entries, byName, byId)
    }

    constructor ()
      ensures Valid() && items == []
    {
      entries, byName, byId, items := [], map[], map[], [];
    }

    /** One item: taken exactly when the list extended by it is still loadable. */
    method LoadItem(item: Item) returns (ok: bool)
      requires Valid()
      modifies this
      ensures Valid()
      ensures ok <==> Loadable(old(items) + [item])
      ensures items == if ok then old(items) + [item] else old(items)
    {
      ghost var longer := items + [item];
      assert longer[|items|] == item;
      ok := ValidateFuncName(item.funcName);
      if !ok { return; }
      if item.funcName in byName {
        ghost var i :| 0 <= i < |entries| && entries[i] == byName[item.funcName];
        assert longer[i] == items[i];
        return false;
      }
      if !(0 < item.funcId <= FUNC_ID_LIMIT - 1) { return false; }
      if item.funcId in byId {
        ghost var i :| 0 <= i < |entries| && entries[i] == byId[item.funcId];
        assert longer[i] == items[i];
        return false;
      }
      var entry: Entry;
      ok, entry := MakeEntry(item);
      if !ok { return; }
      Register(item, entry);
    }

    method Register(ghost item: Item, entry: Entry)
      requires Valid() && ValidItem(item) && EntryOf(entry, item)
      requires entry.funcName !in byName && entry.funcId !in byId
      modifies this
      ensures items == old(items) + [item]
      ensures Valid()
    {
      IndexedSnoc(entries, byName, byId, entry);
      LoadableSnoc(entries, items, item);
      byName, byId := byName[entry.funcName := entry], byId[entry.funcId := entry];
      entries, items := entries + [entry], items + [item];
    }

    method Load(list: seq<Item>) returns (ok: bool)
      requires Valid()
      modifies this
      ensures Valid()
      ensures ok <==> Loadable(old(items) + list)
      ensures ok ==> items == old(items) + list
    {
      ghost var all, n := items + list, |items|;
      var i := 0;
      ok := true;
      while ok && i < |list|
        invariant i <= |list| && Valid()
        invariant ok ==> items == all[..n + i]
        invariant !ok ==> !Loadable(all)
      {
        ok := LoadNext(list[i], all);
        i := i + 1;
      }
      assert all[..n + |list|] == all;
    }

    /** One round of the loop: on failure the whole list is not loadable. */
    method LoadNext(item: Item, ghost all: seq<Item>) returns (ok: bool)
      requires Valid() && |items| < |all| && items == all[..|items|] && item == all[|items|]
      modifies this
      ensures Valid()
      ensures ok ==> items == all[..old(|items|) + 1]
      ensures !ok ==> !Loadable(all)
    {
      ghost var longer := items + [item];
      assert longer == all[..|items| + 1];
      LoadablePrefix(all, longer);
      ok := LoadItem(item);
    }

    method FindByFuncName(name: string) returns (r: Option<Entry>)
      requires Valid()
      ensures r.Some? ==> r.value in entries && r.value.funcName == name
      ensures r.None? ==> forall e :: e in entries ==> e.funcName != name
    {
      r := if name in byName then Some(byName[name]) else None;
    }

    method FindByFuncId(id: int) returns (r: Option<Entry>)
      requires Valid()
      ensures r.Some? ==> r.value in entries && r.value.funcId == id
      ensures r.None? ==> forall e :: e in entries ==> e.funcId != id
    {
      r := if id in byId then Some(byId[id]) else None;
    }

    /** Looking up by name and then by the id found, or the other way round, gives the same entry. */
    lemma LookupsAgree(name: string, id: int)
      requires Valid()
      ensures name in byName ==> byName[name].funcId in byId && byId[byName[name].funcId] == byName[name]
      ensures id in byId ==> byId[id].funcName in byName && byName[byId[id].funcName] == byId[id]
    {
      if name in byName { var i :| 0 <= i < |entries| && entries[i] == byName[name]; }
      if id in byId { var i :| 0 <= i < |entries| && entries[i] == byId[id]; }
    }

    /** Every function and method id fits the bits that a call id gives it, and method ids invert. */
    lemma IdsFit(e: Entry, clientId: nat, callId: nat)
      requires Valid() && e in entries && clientId < CLIENT_ID_LIMIT && callId < CALL_ID_LIMIT
      ensures 0 < e.funcId && InRange(FuncCall(e.funcId, 0, clientId, callId))
      ensures forall m :: m in e.grpcMethodIds ==>
        && 0 <= e.grpcMethodIds[m] < |e.grpcMethods| && e.grpcMethods[e.grpcMethodIds[m]] == m
        && InRange(FuncCall(e.funcId, e.grpcMethodIds[m], clientId, callId))
    {
      var i :| 0 <= i < |entries| && entries[i] == e;
      assert EntryOf(e, items[i]) && ValidItem(items[i]);
    }
  }

  lemma LoadablePrefix(list: seq<Item>, p: seq<Item>)
    requires p <= list
    ensures Loadable(list) ==> Loadable(p)
  {
    assert forall i :: 0 <= i < |p| ==> p[i] == list[i];
  }

  method MakeEntry(item: Item) returns (ok: bool, entry: Entry)
    requires ValidFuncName(item.funcName) && ValidFuncId(item.funcId)
    ensures ok <==> ValidItem(item)
    ensures ok ==> EntryOf(entry, item)
  {
    entry := Entry(item.funcName, item.funcId, -1, -1, false, false, false, "", [], map[]);
    if item.minWorkers.Some? { entry := entry.(minWorkers := item.minWorkers.value); }
    if item.maxWorkers.Some? { entry := entry.(maxWorkers := item.maxWorkers.value); }
    if GRPC <= item.funcName {
      if item.grpcMethods.None? { return false, entry; }
      var methods, ids;
      ok, methods, ids := NumberMethods(item.grpcMethods.value);
      entry := entry.(isGrpcService := true, grpcServiceName := item.funcName[|GRPC|..],
                      grpcMethods := methods, grpcMethodIds := ids);
    } else {
      ok := true;
      if item.allowHttpGet.Some? && item.allowHttpGet.value { entry := entry.(allowHttpGet := true); }
      if item.qsAsInput.Some? && item.qsAsInput.value { entry := entry.(qsAsInput := true); }
    }
  }
}
