/** Credential overwrites: the partly merged cache, the lookup over it, and filling user data from it. */
module CredentialOverwrites {
  import opened Wrappers
  import opened CredentialTypes

  /** A primitive field value. */
  datatype Value = Undefined | Null | Text(text: string) | Number(number: int) | Flag(flag: bool)

  type Fields = map<string, Value>

  type Overwrites = map<TypeName, Fields>

  const FIELD := "field"

  // ---- Resolving one type, and loading a whole configuration ----

  datatype Resolution = Resolution(resolved: seq<TypeName>, fields: Option<Fields>)

  function Stored(data: Overwrites, t: TypeName): Option<Fields> {
    if t in data then Some(data[t]) else None
  }

  function OrEmpty(fields: Option<Fields>): Fields {
    if fields.Some? then fields.value else map[]
  }

  /** What resolving `t` returns and which types count as resolved afterwards. */
  ghost function Resolve(reg: Registry, rank: TypeName -> nat, data: Overwrites, resolved: seq<TypeName>,
                         t: TypeName): Resolution
    requires Ranked(reg, rank)
    decreases rank(t), 1, 0
  {
    if t in resolved then Resolution(resolved, Stored(data, t))
    else if t !in reg then Resolution(resolved, None)
    else if reg[t].None? then Resolution(resolved + [t], Stored(data, t))
    else
      var merged := ResolveAll(reg, rank, data, resolved, Extends(reg, t), map[]);
      Resolution(merged.resolved + [t], Some(OrEmpty(merged.fields) + OrEmpty(Stored(data, t))))
  }

  /** Resolves the parents `ps` in order, later ones overriding earlier ones in `acc`. */
  ghost function ResolveAll(reg: Registry, rank: TypeName -> nat, data: Overwrites, resolved: seq<TypeName>,
                            ps: seq<TypeName>, acc: Fields): (r: Resolution)
    requires Ranked(reg, rank)
    ensures r.fields.Some?
    decreases Bound(rank, ps), 0, |ps|
  {
    if ps == [] then Resolution(resolved, Some(acc))
    else
      assert ps == [ps[0]] + ps[1..];
      var r := Resolve(reg, rank, data, resolved, ps[0]);
      ResolveAll(reg, rank, data, r.resolved, ps[1..], acc + OrEmpty(r.fields))
  }

  /** Loading: every type of `order` is resolved and a non-empty result replaces its entry. */
  ghost function Load(reg: Registry, rank: TypeName -> nat, data: Overwrites, resolved: seq<TypeName>,
                      order: seq<TypeName>): Overwrites
    requires Ranked(reg, rank)
    decreases |order|
  {
    if order == [] then data
    else
      var r := Resolve(reg, rank, data, resolved, order[0]);
      Load(reg, rank, Store(data, order[0], r.fields), r.resolved, order[1..])
  }

  function Store(data: Overwrites, t: TypeName, fields: Option<Fields>): Overwrites {
    if fields.Some? && fields.value != map[] then data[t := fields.value] else data
  }

  /** `order` lists every key of `raw` once. */
  ghost predicate KeyOrder(raw: Overwrites, order: seq<TypeName>) {
    && (forall t :: t in order <==> t in raw)
    && (forall i, j :: 0 <= i < j < |order| ==> order[i] != order[j])
  }

  lemma LoadFirst(reg: Registry, rank: TypeName -> nat, data: Overwrites, resolved: seq<TypeName>,
                  order: seq<TypeName>)
    requires Ranked(reg, rank) && order != []
    ensures var r := Resolve(reg, rank, data, resolved, order[0]);
      Load(reg, rank, data, resolved, order) == Load(reg, rank, Store(data, order[0], r.fields), r.resolved, order[1..])
  {
  }

  lemma LoadAt(reg: Registry, rank: TypeName -> nat, data: Overwrites, resolved: seq<TypeName>,
               order: seq<TypeName>, i: nat)
    requires Ranked(reg, rank) && i < |order|
    ensures var r := Resolve(reg, rank, data, resolved, order[i]);
      Load(reg, rank, data, resolved, order[i..]) ==
      Load(reg, rank, Store(data, order[i], r.fields), r.resolved, order[i + 1..])
  {
    LoadFirst(reg, rank, data, resolved, order[i..]);
    assert order[i..][0] == order[i] && order[i..][1..] == order[i + 1..];
  }

  // ---- The lookup ----

  /** The entries of `ts` laid over each other, earlier types on top; absent when no type has an entry. */
  ghost function Layers(data: Overwrites, ts: seq<TypeName>): Option<Fields> {
    if ts == [] then None
    else
      var below := Layers(data, ts[1..]);
      if ts[0] in data then Some(OrEmpty(below) + data[ts[0]]) else below
  }

  /** What the source's `get` returns for `n`. */
  ghost function Effective(reg: Registry, rank: TypeName -> nat, data: Overwrites, n: TypeName): Option<Fields>
    requires Ranked(reg, rank)
  {
    Layers(data, [n] + ParentList(reg, rank, n))
  }

  ghost predicate Defines(data: Overwrites, t: TypeName, k: string) {
    t in data && k in data[t]
  }

  /** The value of the first type in `ts` that defines `k`. */
  ghost function FirstDefiner(data: Overwrites, ts: seq<TypeName>, k: string): Option<Value> {
    if ts == [] then None
    else if Defines(data, ts[0], k) then Some(data[ts[0]][k])
    else FirstDefiner(data, ts[1..], k)
  }

  ghost function FieldOf(fields: Option<Fields>, k: string): Option<Value> {
    if fields.Some? && k in fields.value then Some(fields.value[k]) else None
  }

  lemma {:induction false} LayersField(data: Overwrites, ts: seq<TypeName>, k: string)
    ensures FieldOf(Layers(data, ts), k) == FirstDefiner(data, ts, k)
  {
    if ts != [] {
      LayersField(data, ts[1..], k);
    }
  }

  lemma {:induction false} LayersPresent(data: Overwrites, ts: seq<TypeName>)
    ensures Layers(data, ts).Some? <==> exists t :: t in ts && t in data
  {
    if ts != [] {
      LayersPresent(data, ts[1..]);
      assert ts == [ts[0]] + ts[1..];
    }
  }

  /** Two configurations with the same types and the same first definers look alike. */
  lemma LayersEqual(a: Overwrites, b: Overwrites, ts: seq<TypeName>)
    requires a.Keys == b.Keys
    requires forall k :: FirstDefiner(a, ts, k) == FirstDefiner(b, ts, k)
    ensures Layers(a, ts) == Layers(b, ts)
  {
    LayersPresent(a, ts);
    LayersPresent(b, ts);
    forall k
      ensures FieldOf(Layers(a, ts), k) == FieldOf(Layers(b, ts), k)
    {
      LayersField(a, ts, k);
      LayersField(b, ts, k);
    }
    if Layers(a, ts).Some? {
      var x, y := Layers(a, ts).value, Layers(b, ts).value;
      forall k
        ensures k in x <==> k in y
        ensures k in x && k in y ==> x[k] == y[k]
      {
        assert FieldOf(Layers(a, ts), k) == FieldOf(Layers(b, ts), k);
      }
      assert x == y;
    }
  }

  lemma {:induction false} FirstDefinerConcat(data: Overwrites, a: seq<TypeName>, b: seq<TypeName>, k: string)
    ensures FirstDefiner(data, a + b, k) ==
            if FirstDefiner(data, a, k).Some? then FirstDefiner(data, a, k) else FirstDefiner(data, b, k)
  {
    if a == [] {
      assert a + b == b;
    } else {
      assert (a + b)[1..] == a[1..] + b;
      FirstDefinerConcat(data, a[1..], b, k);
    }
  }

  lemma {:induction false} FirstDefinerSome(data: Overwrites, ts: seq<TypeName>, k: string)
    ensures FirstDefiner(data, ts, k).Some? <==> exists t :: t in ts && Defines(data, t, k)
  {
    if ts != [] {
      FirstDefinerSome(data, ts[1..], k);
      assert ts == [ts[0]] + ts[1..];
    }
  }

  // ---- The simple rule: a type's own value, else its parents' ----

  ghost function Nearest(reg: Registry, rank: TypeName -> nat, raw: Overwrites, t: TypeName, k: string): Option<Value>
    requires Ranked(reg, rank)
    decreases rank(t), 1, 0
  {
    if Defines(raw, t, k) then Some(raw[t][k]) else NearestOf(reg, rank, raw, Extends(reg, t), k)
  }

  ghost function NearestOf(reg: Registry, rank: TypeName -> nat, raw: Overwrites, ps: seq<TypeName>,
                           k: string): (r: Option<Value>)
    requires Ranked(reg, rank)
    ensures r.Some? ==> exists p :: p in ps && rank(p) < Bound(rank, ps) && Nearest(reg, rank, raw, p, k) == r
    ensures r.None? ==> forall p :: p in ps ==> rank(p) < Bound(rank, ps) && Nearest(reg, rank, raw, p, k).None?
    decreases Bound(rank, ps), 0, |ps|
  {
    if ps == [] then None
    else
      assert ps == [ps[0]] + ps[1..];
      var own := Nearest(reg, rank, raw, ps[0], k);
      if own.Some? then own else NearestOf(reg, rank, raw, ps[1..], k)
  }

  /** Wherever a type leaves a field to its parents, the parents that have it agree on it. */
  ghost predicate Unambiguous(reg: Registry, rank: TypeName -> nat, raw: Overwrites)
    requires Ranked(reg, rank)
  {
    forall t, k, p, q :: p in Extends(reg, t) && q in Extends(reg, t) && !Defines(raw, t, k) ==>
      Agree(Nearest(reg, rank, raw, p, k), Nearest(reg, rank, raw, q, k))
  }

  ghost predicate Agree(a: Option<Value>, b: Option<Value>) {
    a.Some? && b.Some? ==> a == b
  }

  lemma SingleIsUnambiguous(reg: Registry, rank: TypeName -> nat, raw: Overwrites)
    requires Ranked(reg, rank) && SingleInheritance(reg)
    ensures Unambiguous(reg, rank, raw)
  {
    forall t, k, p, q | p in Extends(reg, t) && q in Extends(reg, t)
      ensures Agree(Nearest(reg, rank, raw, p, k), Nearest(reg, rank, raw, q, k))
    {
      OneParent(reg, t, p, q);
    }
  }

  lemma OneParent(reg: Registry, t: TypeName, p: TypeName, q: TypeName)
    requires SingleInheritance(reg) && p in Extends(reg, t) && q in Extends(reg, t)
    ensures p == q
  {
    assert |Extends(reg, t)| <= 1;
  }

  /** With one parent per type the rule reads: the nearest type on the chain that defines the field. */
  lemma {:induction false} NearestOnChain(reg: Registry, rank: TypeName -> nat, raw: Overwrites, t: TypeName, k: string)
    requires Ranked(reg, rank) && SingleInheritance(reg)
    ensures Nearest(reg, rank, raw, t, k) == FirstDefiner(raw, [t] + Chain(reg, rank, t), k)
    decreases rank(t)
  {
    var ps := Extends(reg, t);
    assert ([t] + Chain(reg, rank, t))[1..] == Chain(reg, rank, t);
    if ps != [] {
      assert ps[0] in Extends(reg, t) && ps == [ps[0]];
      NearestOnChain(reg, rank, raw, ps[0], k);
    }
  }

  // ---- The cache holds partly merged entries ----

  /** Every entry of `data` keeps the type's raw fields and adds only fields with their nearest value. */
  ghost predicate PartlyMerged(reg: Registry, rank: TypeName -> nat, raw: Overwrites, data: Overwrites)
    requires Ranked(reg, rank)
  {
    && data.Keys == raw.Keys
    && forall t :: t in raw ==> raw[t].Keys <= data[t].Keys && Faithful(reg, rank, raw, t, data[t])
  }

  /** Each field of `fields` is the nearest value for `t`. */
  ghost predicate Faithful(reg: Registry, rank: TypeName -> nat, raw: Overwrites, t: TypeName, fields: Fields)
    requires Ranked(reg, rank)
  {
    forall k :: k in fields ==> Nearest(reg, rank, raw, t, k) == Some(fields[k])
  }

  lemma RawIsPartlyMerged(reg: Registry, rank: TypeName -> nat, raw: Overwrites)
    requires Ranked(reg, rank)
    ensures PartlyMerged(reg, rank, raw, raw)
  {
  }

  /** Resolving never drops or changes a field the type's own entry holds. */
  lemma ResolveKeepsOwn(reg: Registry, rank: TypeName -> nat, data: Overwrites, resolved: seq<TypeName>, t: TypeName)
    requires Ranked(reg, rank) && t in data
    ensures var r := Resolve(reg, rank, data, resolved, t);
      && (r.fields.None? ==> t !in reg)
      && (r.fields.Some? ==> forall k :: k in data[t] ==> k in r.fields.value && r.fields.value[k] == data[t][k])
  {
  }

  lemma {:induction false} ResolveFaithful(reg: Registry, rank: TypeName -> nat, raw: Overwrites, data: Overwrites,
                                           resolved: seq<TypeName>, t: TypeName)
    requires Ranked(reg, rank) && Unambiguous(reg, rank, raw) && PartlyMerged(reg, rank, raw, data)
    ensures Faithful(reg, rank, raw, t, OrEmpty(Resolve(reg, rank, data, resolved, t).fields))
    decreases rank(t), 1, 0
  {
    if t !in resolved && t in reg && reg[t].Some? {
      var merged := OrEmpty(ResolveAll(reg, rank, data, resolved, Extends(reg, t), map[]).fields);
      ResolveAllFromParents(reg, rank, raw, data, resolved, Extends(reg, t), map[], Extends(reg, t));
      OwnOverParents(reg, rank, raw, t, merged, OrEmpty(Stored(data, t)));
    }
  }

  lemma OwnOverParents(reg: Registry, rank: TypeName -> nat, raw: Overwrites, t: TypeName, merged: Fields, own: Fields)
    requires Ranked(reg, rank) && Unambiguous(reg, rank, raw)
    requires AllFromParents(reg, rank, raw, Extends(reg, t), merged)
    requires Faithful(reg, rank, raw, t, own) && (t in raw ==> raw[t].Keys <= own.Keys)
    ensures Faithful(reg, rank, raw, t, merged + own)
  {
    forall k | k in merged + own
      ensures Nearest(reg, rank, raw, t, k) == Some((merged + own)[k])
    {
      if k !in own {
        ParentValueIsNearest(reg, rank, raw, t, k, merged[k]);
      }
    }
  }

  lemma ParentValueIsNearest(reg: Registry, rank: TypeName -> nat, raw: Overwrites, t: TypeName, k: string, v: Value)
    requires Ranked(reg, rank) && Unambiguous(reg, rank, raw)
    requires !Defines(raw, t, k) && FromParent(reg, rank, raw, Extends(reg, t), k, v)
    ensures Nearest(reg, rank, raw, t, k) == Some(v)
  {
    var p :| p in Extends(reg, t) && Nearest(reg, rank, raw, p, k) == Some(v);
    var r := NearestOf(reg, rank, raw, Extends(reg, t), k);
    assert r.Some?;
    var q :| q in Extends(reg, t) && Nearest(reg, rank, raw, q, k) == r;
    assert Agree(Nearest(reg, rank, raw, p, k), Nearest(reg, rank, raw, q, k));
  }

  /** `v` is the nearest value of `k` for one of `ps`. */
  ghost predicate FromParent(reg: Registry, rank: TypeName -> nat, raw: Overwrites, ps: seq<TypeName>, k: string,
                             v: Value)
    requires Ranked(reg, rank)
  {
    exists p :: p in ps && Nearest(reg, rank, raw, p, k) == Some(v)
  }

  ghost predicate AllFromParents(reg: Registry, rank: TypeName -> nat, raw: Overwrites, ps: seq<TypeName>,
                                 fields: Fields)
    requires Ranked(reg, rank)
  {
    forall k :: k in fields ==> FromParent(reg, rank, raw, ps, k, fields[k])
  }

  lemma {:induction false} ResolveAllFromParents(reg: Registry, rank: TypeName -> nat, raw: Overwrites,
                                                 data: Overwrites, resolved: seq<TypeName>, ps: seq<TypeName>,
                                                 acc: Fields, all: seq<TypeName>)
    requires Ranked(reg, rank) && Unambiguous(reg, rank, raw) && PartlyMerged(reg, rank, raw, data)
    requires forall p :: p in ps ==> p in all
    requires AllFromParents(reg, rank, raw, all, acc)
    ensures AllFromParents(reg, rank, raw, all, OrEmpty(ResolveAll(reg, rank, data, resolved, ps, acc).fields))
    decreases Bound(rank, ps), 0, |ps|
  {
    if ps != [] {
      assert ps == [ps[0]] + ps[1..];
      assert ps[0] in ps && ps[0] in all;
      var r := Resolve(reg, rank, data, resolved, ps[0]);
      ResolveFaithful(reg, rank, raw, data, resolved, ps[0]);
      AddedFromParent(reg, rank, raw, all, ps[0], acc, OrEmpty(r.fields));
      assert forall p :: p in ps[1..] ==> p in ps;
      ResolveAllFromParents(reg, rank, raw, data, r.resolved, ps[1..], acc + OrEmpty(r.fields), all);
    }
  }

  lemma AddedFromParent(reg: Registry, rank: TypeName -> nat, raw: Overwrites, all: seq<TypeName>, p: TypeName,
                        acc: Fields, fields: Fields)
    requires Ranked(reg, rank) && p in all && AllFromParents(reg, rank, raw, all, acc)
    requires Faithful(reg, rank, raw, p, fields)
    ensures AllFromParents(reg, rank, raw, all, acc + fields)
  {
    forall k | k in acc + fields
      ensures FromParent(reg, rank, raw, all, k, (acc + fields)[k])
    {
      if k in fields {
        assert Nearest(reg, rank, raw, p, k) == Some((acc + fields)[k]);
      }
    }
  }

  lemma {:induction false} LoadPartlyMerged(reg: Registry, rank: TypeName -> nat, raw: Overwrites, data: Overwrites,
                                            resolved: seq<TypeName>, order: seq<TypeName>)
    requires Ranked(reg, rank) && Unambiguous(reg, rank, raw) && PartlyMerged(reg, rank, raw, data)
    requires forall t :: t in order ==> t in raw
    ensures PartlyMerged(reg, rank, raw, Load(reg, rank, data, resolved, order))
    decreases |order|
  {
    if order != [] {
      var t := order[0];
      var r := Resolve(reg, rank, data, resolved, t);
      assert t in order;
      ResolveFaithful(reg, rank, raw, data, resolved, t);
      ResolveKeepsOwn(reg, rank, data, resolved, t);
      assert forall x :: x in order[1..] ==> x in order;
      LoadPartlyMerged(reg, rank, raw, Store(data, t, r.fields), r.resolved, order[1..]);
    }
  }

  // ---- The lookup sees through the partial merging ----

  /** Whatever part of the merging has been done, the lookup returns the nearest value. */
  lemma {:induction false} LookupIsNearest(reg: Registry, rank: TypeName -> nat, raw: Overwrites, data: Overwrites,
                                           n: TypeName, k: string)
    requires Ranked(reg, rank) && Unambiguous(reg, rank, raw) && PartlyMerged(reg, rank, raw, data)
    ensures FirstDefiner(data, [n] + ParentList(reg, rank, n), k) == Nearest(reg, rank, raw, n, k)
    decreases rank(n)
  {
    var ps, list := Extends(reg, n), ParentList(reg, rank, n);
    assert ([n] + list)[1..] == list;
    if !Defines(data, n, k) {
      assert !Defines(raw, n, k);
      forall p | p in ps
        ensures FirstDefiner(data, [p] + ParentList(reg, rank, p), k) == Nearest(reg, rank, raw, p, k)
      {
        LookupIsNearest(reg, rank, raw, data, p, k);
      }
      if NearestOf(reg, rank, raw, ps, k).None? {
        NoDefinerAbove(reg, rank, raw, data, n, k);
      } else {
        SomeDefinerAbove(reg, rank, raw, data, n, k);
      }
    }
  }

  lemma SomeDefinerAbove(reg: Registry, rank: TypeName -> nat, raw: Overwrites, data: Overwrites, n: TypeName,
                         k: string)
    requires Ranked(reg, rank) && Unambiguous(reg, rank, raw) && !Defines(raw, n, k)
    requires NearestOf(reg, rank, raw, Extends(reg, n), k).Some?
    requires forall p :: p in Extends(reg, n) ==>
      FirstDefiner(data, [p] + ParentList(reg, rank, p), k) == Nearest(reg, rank, raw, p, k)
    ensures FirstDefiner(data, ParentList(reg, rank, n), k) == NearestOf(reg, rank, raw, Extends(reg, n), k)
  {
    var ps, list := Extends(reg, n), ParentList(reg, rank, n);
    var v := NearestOf(reg, rank, raw, ps, k);
    var q :| q in ps && Nearest(reg, rank, raw, q, k) == v;
    forall p | p in ps
      ensures Agree(FromUp(reg, rank, data, p, k), v)
    {
      assert Agree(Nearest(reg, rank, raw, p, k), Nearest(reg, rank, raw, q, k));
    }
    ParentsFirst(reg, rank, data, ps, k, v, q);
    ParentListPrefix(reg, rank, n);
    var front := ps + Lists(reg, rank, ps);
    FirstDefinerConcat(data, ps, Lists(reg, rank, ps), k);
    FirstDefinerOfPrefix(data, front, list, k);
  }

  lemma FirstDefinerOfPrefix(data: Overwrites, front: seq<TypeName>, list: seq<TypeName>, k: string)
    requires front <= list && FirstDefiner(data, front, k).Some?
    ensures FirstDefiner(data, list, k) == FirstDefiner(data, front, k)
  {
    assert list == front + list[|front|..];
    FirstDefinerConcat(data, front, list[|front|..], k);
  }

  lemma NoDefinerAbove(reg: Registry, rank: TypeName -> nat, raw: Overwrites, data: Overwrites, n: TypeName, k: string)
    requires Ranked(reg, rank)
    requires NearestOf(reg, rank, raw, Extends(reg, n), k).None?
    requires forall p :: p in Extends(reg, n) ==>
      FirstDefiner(data, [p] + ParentList(reg, rank, p), k) == Nearest(reg, rank, raw, p, k)
    ensures FirstDefiner(data, ParentList(reg, rank, n), k).None?
  {
    var list := ParentList(reg, rank, n);
    forall x | x in list
      ensures !Defines(data, x, k)
    {
      ParentListIsAncestors(reg, rank, n, x);
      AncestorUnfold(reg, n, x);
      var p :| p in Extends(reg, n) && (p == x || Ancestor(reg, p, x));
      ParentListIsAncestors(reg, rank, p, x);
      FirstDefinerSome(data, [p] + ParentList(reg, rank, p), k);
      assert x in [p] + ParentList(reg, rank, p);
    }
    FirstDefinerSome(data, list, k);
  }

  /** What the lookup of `k` finds from `p` upwards. */
  ghost function FromUp(reg: Registry, rank: TypeName -> nat, data: Overwrites, p: TypeName, k: string): Option<Value>
    requires Ranked(reg, rank)
  {
    FirstDefiner(data, [p] + ParentList(reg, rank, p), k)
  }

  lemma FromUpSplit(reg: Registry, rank: TypeName -> nat, data: Overwrites, p: TypeName, k: string)
    requires Ranked(reg, rank)
    ensures FromUp(reg, rank, data, p, k) ==
            if Defines(data, p, k) then Some(data[p][k]) else FirstDefiner(data, ParentList(reg, rank, p), k)
  {
    assert ([p] + ParentList(reg, rank, p))[1..] == ParentList(reg, rank, p);
  }

  /** Among parents that agree on `v`, the first definer in the parents and then their lists is `v`. */
  lemma {:induction false} ParentsFirst(reg: Registry, rank: TypeName -> nat, data: Overwrites,
                                        ps: seq<TypeName>, k: string, v: Option<Value>, q: TypeName)
    requires Ranked(reg, rank) && v.Some?
    requires forall p :: p in ps ==> Agree(FromUp(reg, rank, data, p, k), v)
    ensures FirstDefiner(data, ps, k).Some? ==> FirstDefiner(data, ps, k) == v
    ensures FirstDefiner(data, Lists(reg, rank, ps), k).Some? && FirstDefiner(data, ps, k).None? ==>
      FirstDefiner(data, Lists(reg, rank, ps), k) == v
    ensures q in ps && FromUp(reg, rank, data, q, k) == v && FirstDefiner(data, ps, k).None? ==>
      FirstDefiner(data, Lists(reg, rank, ps), k) == v
  {
    if ps != [] {
      var p, rest := ps[0], ps[1..];
      assert p in ps && forall x :: x in rest ==> x in ps;
      assert ps == [p] + rest;
      FromUpSplit(reg, rank, data, p, k);
      ParentsFirst(reg, rank, data, rest, k, v, q);
      FirstDefinerConcat(data, ParentList(reg, rank, p), Lists(reg, rank, rest), k);
    }
  }

  // ---- Main results ----

  /** Loading in any key order changes no lookup, and each lookup maps every field to its nearest value. */
  lemma CacheRefinesLookup(reg: Registry, rank: TypeName -> nat, raw: Overwrites, order: seq<TypeName>, n: TypeName)
    requires Ranked(reg, rank) && Unambiguous(reg, rank, raw) && KeyOrder(raw, order)
    ensures Effective(reg, rank, Load(reg, rank, raw, [], order), n) == Effective(reg, rank, raw, n)
    ensures forall k :: FieldOf(Effective(reg, rank, raw, n), k) == Nearest(reg, rank, raw, n, k)
  {
    var data := Load(reg, rank, raw, [], order);
    var ts := [n] + ParentList(reg, rank, n);
    RawIsPartlyMerged(reg, rank, raw);
    LoadPartlyMerged(reg, rank, raw, raw, [], order);
    forall k
      ensures FirstDefiner(data, ts, k) == FirstDefiner(raw, ts, k) == Nearest(reg, rank, raw, n, k)
      ensures FieldOf(Effective(reg, rank, raw, n), k) == Nearest(reg, rank, raw, n, k)
    {
      LookupIsNearest(reg, rank, raw, data, n, k);
      LookupIsNearest(reg, rank, raw, raw, n, k);
      LayersField(raw, ts, k);
    }
    LayersEqual(data, raw, ts);
  }

  /** With one parent per type, after loading in any key order, the lookup answers for every field with the value
      of the nearest type on the chain that defines it in the original data. */
  lemma NearestDefinerWins(reg: Registry, rank: TypeName -> nat, raw: Overwrites, order: seq<TypeName>, n: TypeName,
                           k: string)
    requires Ranked(reg, rank) && SingleInheritance(reg) && KeyOrder(raw, order)
    ensures FieldOf(Effective(reg, rank, Load(reg, rank, raw, [], order), n), k)
         == FirstDefiner(raw, [n] + Chain(reg, rank, n), k)
  {
    SingleIsUnambiguous(reg, rank, raw);
    CacheRefinesLookup(reg, rank, raw, order, n);
    NearestOnChain(reg, rank, raw, n, k);
  }

  /** Every partly merged configuration follows the same simple rule. */
  lemma {:induction false} MergedNearest(reg: Registry, rank: TypeName -> nat, raw: Overwrites, data: Overwrites,
                                         t: TypeName, k: string)
    requires Ranked(reg, rank) && Unambiguous(reg, rank, raw) && PartlyMerged(reg, rank, raw, data)
    ensures Nearest(reg, rank, data, t, k) == Nearest(reg, rank, raw, t, k)
    decreases rank(t), 1, 0
  {
    if !Defines(data, t, k) {
      assert !Defines(raw, t, k);
      MergedNearestOf(reg, rank, raw, data, Extends(reg, t), k);
    }
  }

  lemma {:induction false} MergedNearestOf(reg: Registry, rank: TypeName -> nat, raw: Overwrites, data: Overwrites,
                                           ps: seq<TypeName>, k: string)
    requires Ranked(reg, rank) && Unambiguous(reg, rank, raw) && PartlyMerged(reg, rank, raw, data)
    ensures NearestOf(reg, rank, data, ps, k) == NearestOf(reg, rank, raw, ps, k)
    decreases Bound(rank, ps), 0, |ps|
  {
    if ps != [] {
      assert ps == [ps[0]] + ps[1..];
      MergedNearest(reg, rank, raw, data, ps[0], k);
      MergedNearestOf(reg, rank, raw, data, ps[1..], k);
    }
  }

  /** Loading the already loaded data once more, in any order, leaves every lookup as it was. */
  lemma ReloadKeepsLookups(reg: Registry, rank: TypeName -> nat, raw: Overwrites, order: seq<TypeName>,
                           again: seq<TypeName>, n: TypeName)
    requires Ranked(reg, rank) && Unambiguous(reg, rank, raw) && KeyOrder(raw, order)
    requires KeyOrder(Load(reg, rank, raw, [], order), again)
    ensures Effective(reg, rank, Load(reg, rank, Load(reg, rank, raw, [], order), [], again), n) ==
            Effective(reg, rank, raw, n)
  {
    var data := Load(reg, rank, raw, [], order);
    RawIsPartlyMerged(reg, rank, raw);
    LoadPartlyMerged(reg, rank, raw, raw, [], order);
    forall t, k, p, q | p in Extends(reg, t) && q in Extends(reg, t) && !Defines(data, t, k)
      ensures Agree(Nearest(reg, rank, data, p, k), Nearest(reg, rank, data, q, k))
    {
      MergedNearest(reg, rank, raw, data, p, k);
      MergedNearest(reg, rank, raw, data, q, k);
      assert !Defines(raw, t, k);
      assert Agree(Nearest(reg, rank, raw, p, k), Nearest(reg, rank, raw, q, k));
    }
    CacheRefinesLookup(reg, rank, data, again, n);
    CacheRefinesLookup(reg, rank, raw, order, n);
  }

  // ---- The cache stays partly merged ----

  /** Two types below a middle one that has no entry, whose parent has one. */
  function Fork(a: TypeName, b: TypeName, mid: TypeName, top: TypeName): Registry {
    map[a := Some([mid]), b := Some([mid]), mid := Some([top]), top := None]
  }

  function ForkData(a: TypeName, b: TypeName, top: TypeName): Overwrites {
    map[a := map[], b := map[], top := map[FIELD := Number(1)]]
  }

  /** The type loaded first gets its ancestor's field; for the second one the middle type counts as resolved,
      has no entry to give, and its entry stays empty. The lookup finds the field for both. */
  lemma SecondStaysEmpty(a: TypeName, b: TypeName, mid: TypeName, top: TypeName, rank: TypeName -> nat)
    requires a != b && a != mid && a != top && b != mid && b != top && mid != top
    requires Ranked(Fork(a, b, mid, top), rank)
    ensures var reg, raw := Fork(a, b, mid, top), ForkData(a, b, top);
      var data := Load(reg, rank, raw, [], [a, b, top]);
      && Defines(data, a, FIELD) && !Defines(data, b, FIELD)
      && FieldOf(Effective(reg, rank, data, a), FIELD) == Some(Number(1))
      && FieldOf(Effective(reg, rank, data, b), FIELD) == Some(Number(1))
  {
    var reg, raw := Fork(a, b, mid, top), ForkData(a, b, top);
    ForkLoaded(a, b, mid, top, rank);
    ForkLookup(a, b, mid, top, rank, a);
    ForkLookup(a, b, mid, top, rank, b);
  }

  lemma ForkLoaded(a: TypeName, b: TypeName, mid: TypeName, top: TypeName, rank: TypeName -> nat)
    requires a != b && a != mid && a != top && b != mid && b != top && mid != top
    requires Ranked(Fork(a, b, mid, top), rank)
    ensures var reg, raw := Fork(a, b, mid, top), ForkData(a, b, top);
      Load(reg, rank, raw, [], [a, b, top]) == raw[a := map[FIELD := Number(1)]]
  {
    var reg, raw := Fork(a, b, mid, top), ForkData(a, b, top);
    var one := map[FIELD := Number(1)];
    ForkFirst(a, b, mid, top, rank);
    var data := raw[a := one];
    assert Store(raw, a, Some(one)) == data;
    ForkSecond(a, b, mid, top, rank);
    assert Resolve(reg, rank, data, [top, mid, a, b], top) == Resolution([top, mid, a, b], Some(one));
    assert Store(data, top, Some(one)) == data;
    LoadFirst(reg, rank, raw, [], [a, b, top]);
    LoadFirst(reg, rank, data, [top, mid, a], [b, top]);
    LoadFirst(reg, rank, data, [top, mid, a, b], [top]);
    assert [a, b, top][1..] == [b, top] && [b, top][1..] == [top];
  }

  lemma ForkFirst(a: TypeName, b: TypeName, mid: TypeName, top: TypeName, rank: TypeName -> nat)
    requires a != b && a != mid && a != top && b != mid && b != top && mid != top
    requires Ranked(Fork(a, b, mid, top), rank)
    ensures var reg, raw := Fork(a, b, mid, top), ForkData(a, b, top);
      Resolve(reg, rank, raw, [], a) == Resolution([top, mid, a], Some(map[FIELD := Number(1)]))
  {
    var reg, raw := Fork(a, b, mid, top), ForkData(a, b, top);
    var one := map[FIELD := Number(1)];
    assert Resolve(reg, rank, raw, [], top) == Resolution([top], Some(one));
    OneParentResolved(reg, rank, raw, [], mid, top);
    assert Stored(raw, mid) == None && one + OrEmpty(None) == one && [top] + [mid] == [top, mid];
    assert Resolve(reg, rank, raw, [], mid) == Resolution([top, mid], Some(one));
    OneParentResolved(reg, rank, raw, [], a, mid);
    assert one + map[] == one && [top, mid] + [a] == [top, mid, a];
  }

  lemma ForkSecond(a: TypeName, b: TypeName, mid: TypeName, top: TypeName, rank: TypeName -> nat)
    requires a != b && a != mid && a != top && b != mid && b != top && mid != top
    requires Ranked(Fork(a, b, mid, top), rank)
    ensures var reg, data := Fork(a, b, mid, top), ForkData(a, b, top)[a := map[FIELD := Number(1)]];
      Resolve(reg, rank, data, [top, mid, a], b) == Resolution([top, mid, a, b], Some(map[]))
  {
    var reg, data := Fork(a, b, mid, top), ForkData(a, b, top)[a := map[FIELD := Number(1)]];
    assert mid in [top, mid, a] && mid !in data;
    assert Resolve(reg, rank, data, [top, mid, a], mid) == Resolution([top, mid, a], None);
    OneParentResolved(reg, rank, data, [top, mid, a], b, mid);
  }

  /** A type not yet resolved that extends one type lays its own entry over what that one resolves to. */
  lemma OneParentResolved(reg: Registry, rank: TypeName -> nat, data: Overwrites, resolved: seq<TypeName>, t: TypeName,
                          p: TypeName)
    requires Ranked(reg, rank) && t !in resolved && t in reg && reg[t] == Some([p])
    ensures var r := Resolve(reg, rank, data, resolved, p);
      Resolve(reg, rank, data, resolved, t) ==
      Resolution(r.resolved + [t], Some(OrEmpty(r.fields) + OrEmpty(Stored(data, t))))
  {
    var r := Resolve(reg, rank, data, resolved, p);
    assert map[] + OrEmpty(r.fields) == OrEmpty(r.fields);
    assert [p][1..] == [];
    assert ResolveAll(reg, rank, data, resolved, [p], map[]) == Resolution(r.resolved, Some(OrEmpty(r.fields)));
  }

  lemma ForkLookup(a: TypeName, b: TypeName, mid: TypeName, top: TypeName, rank: TypeName -> nat, n: TypeName)
    requires a != b && a != mid && a != top && b != mid && b != top && mid != top
    requires Ranked(Fork(a, b, mid, top), rank) && (n == a || n == b)
    ensures var reg, raw := Fork(a, b, mid, top), ForkData(a, b, top);
      FieldOf(Effective(reg, rank, Load(reg, rank, raw, [], [a, b, top]), n), FIELD) == Some(Number(1))
  {
    var reg, raw := Fork(a, b, mid, top), ForkData(a, b, top);
    assert SingleInheritance(reg) && KeyOrder(raw, [a, b, top]);
    NearestDefinerWins(reg, rank, raw, [a, b, top], n, FIELD);
    ForkChain(a, b, mid, top, rank, n);
    TopDefines(raw, n, mid, top);
  }

  lemma ForkChain(a: TypeName, b: TypeName, mid: TypeName, top: TypeName, rank: TypeName -> nat, n: TypeName)
    requires a != b && a != mid && a != top && b != mid && b != top && mid != top && (n == a || n == b)
    requires Ranked(Fork(a, b, mid, top), rank)
    ensures SingleInheritance(Fork(a, b, mid, top)) && Chain(Fork(a, b, mid, top), rank, n) == [mid, top]
  {
    var reg := Fork(a, b, mid, top);
    assert Extends(reg, n) == [mid] && Extends(reg, mid) == [top] && Extends(reg, top) == [];
    assert Chain(reg, rank, mid) == [top] + Chain(reg, rank, top) == [top];
  }

  lemma TopDefines(raw: Overwrites, n: TypeName, mid: TypeName, top: TypeName)
    requires Defines(raw, top, FIELD) && !Defines(raw, n, FIELD) && !Defines(raw, mid, FIELD)
    ensures FirstDefiner(raw, [n] + [mid, top], FIELD) == Some(raw[top][FIELD])
  {
    assert [n] + [mid, top] == [n, mid, top] && [n, mid, top][1..] == [mid, top] && [mid, top][1..] == [top];
    assert FirstDefiner(raw, [mid, top], FIELD) == FirstDefiner(raw, [top], FIELD);
  }

  // ---- Exactly which registries make loading invisible for all data ----

  ghost predicate Invisible(reg: Registry, rank: TypeName -> nat, raw: Overwrites, order: seq<TypeName>)
    requires Ranked(reg, rank)
  {
    forall n :: Effective(reg, rank, Load(reg, rank, raw, [], order), n) == Effective(reg, rank, raw, n)
  }

  /** Parent `k` of `t` is the last one that is a known type. */
  predicate LastKnown(reg: Registry, t: TypeName, k: nat) {
    var ps := Extends(reg, t);
    k < |ps| && ps[k] in reg && forall j :: k < j < |ps| ==> ps[j] !in reg
  }

  /** The last known parent of `t` is another one than its first. */
  predicate TwoParents(reg: Registry, t: TypeName) {
    exists k: nat :: k < |Extends(reg, t)| && LastKnown(reg, t, k) && Extends(reg, t)[k] != Extends(reg, t)[0]
  }

  /** With one parent per type, known or not, loading is invisible for all data in all key orders. */
  lemma SingleIsInvisible(reg: Registry, rank: TypeName -> nat, raw: Overwrites, order: seq<TypeName>)
    requires Ranked(reg, rank) && SingleInheritance(reg) && KeyOrder(raw, order)
    ensures Invisible(reg, rank, raw, order)
  {
    SingleIsUnambiguous(reg, rank, raw);
    forall n {
      CacheRefinesLookup(reg, rank, raw, order, n);
    }
  }

  /** Loading is invisible for all data in all key orders exactly when no type has two parents. */
  lemma InvisibleIffSingle(reg: Registry, rank: TypeName -> nat)
    requires Ranked(reg, rank) && forall t :: |Extends(reg, t)| > 1 ==> TwoParents(reg, t)
    ensures (forall raw, order :: KeyOrder(raw, order) ==> Invisible(reg, rank, raw, order)) <==> SingleInheritance(reg)
  {
    if SingleInheritance(reg) {
      forall raw, order | KeyOrder(raw, order) {
        SingleIsInvisible(reg, rank, raw, order);
      }
    } else {
      var t :| |Extends(reg, t)| > 1;
      TwoParentsShow(reg, rank, t);
    }
  }

  /** Data on which a type with two parents looks different before and after loading. */
  ghost function Conflict(t: TypeName, first: TypeName, last: TypeName): Overwrites {
    map[t := map[], first := map[FIELD := Number(1)], last := map[FIELD := Number(2)]]
  }

  lemma TwoParentsShow(reg: Registry, rank: TypeName -> nat, t: TypeName)
    requires Ranked(reg, rank) && TwoParents(reg, t)
    ensures exists raw, order :: KeyOrder(raw, order) && !Invisible(reg, rank, raw, order)
  {
    var ps := Extends(reg, t);
    var k: nat :| k < |ps| && LastKnown(reg, t, k) && ps[k] != ps[0];
    var first, last := ps[0], ps[k];
    assert first in Extends(reg, t) && last in Extends(reg, t);
    assert rank(first) < rank(t) && rank(last) < rank(t) && first != last;
    var raw, order := Conflict(t, first, last), [t, first, last];
    assert KeyOrder(raw, order);
    FirstParentWinsBefore(reg, rank, t, first, last);
    LastParentWinsAfter(reg, rank, t, first, k);
    assert !Invisible(reg, rank, raw, order);
  }

  /** Before loading the first parent wins. */
  lemma FirstParentWinsBefore(reg: Registry, rank: TypeName -> nat, t: TypeName, first: TypeName, last: TypeName)
    requires Ranked(reg, rank) && |Extends(reg, t)| > 1 && first == Extends(reg, t)[0]
    requires t != first && t != last && first != last
    ensures FieldOf(Effective(reg, rank, Conflict(t, first, last), t), FIELD) == Some(Number(1))
  {
    ParentListPrefix(reg, rank, t);
    var list := ParentList(reg, rank, t);
    assert list[0] == first;
    assert ([t] + list)[1..] == list;
    LayersField(Conflict(t, first, last), [t] + list, FIELD);
  }

  /** After loading the type's own entry carries the last known parent's value. */
  lemma LastParentWinsAfter(reg: Registry, rank: TypeName -> nat, t: TypeName, first: TypeName, k: nat)
    requires Ranked(reg, rank) && LastKnown(reg, t, k)
    requires var last := Extends(reg, t)[k]; t != first && t != last && first != last
    ensures var last := Extends(reg, t)[k];
      FieldOf(Effective(reg, rank, Load(reg, rank, Conflict(t, first, last), [], [t, first, last]), t), FIELD)
      == Some(Number(2))
  {
    var last := Extends(reg, t)[k];
    var raw, order := Conflict(t, first, last), [t, first, last];
    var r := Resolve(reg, rank, raw, [], t);
    LastParentWins(reg, rank, raw, [], Extends(reg, t), map[], FIELD, k);
    var data1 := Store(raw, t, r.fields);
    assert FIELD in data1[t] && data1[t][FIELD] == Number(2);
    assert order[1..] == [first, last];
    LoadKeepsOthers(reg, rank, data1, r.resolved, [first, last], t);
    LayersField(Load(reg, rank, raw, [], order), [t] + ParentList(reg, rank, t), FIELD);
  }

  ghost predicate AllKnown(reg: Registry, ts: seq<TypeName>) {
    forall t :: t in ts ==> t in reg
  }

  /** Only known types come to count as resolved. */
  lemma {:induction false} ResolvedAreKnown(reg: Registry, rank: TypeName -> nat, data: Overwrites,
                                            resolved: seq<TypeName>, t: TypeName)
    requires Ranked(reg, rank) && AllKnown(reg, resolved)
    ensures AllKnown(reg, Resolve(reg, rank, data, resolved, t).resolved)
    decreases rank(t), 1, 0
  {
    if t !in resolved && t in reg && reg[t].Some? {
      ResolvedAllAreKnown(reg, rank, data, resolved, Extends(reg, t), map[]);
    }
  }

  lemma {:induction false} ResolvedAllAreKnown(reg: Registry, rank: TypeName -> nat, data: Overwrites,
                                               resolved: seq<TypeName>, ps: seq<TypeName>, acc: Fields)
    requires Ranked(reg, rank) && AllKnown(reg, resolved)
    ensures AllKnown(reg, ResolveAll(reg, rank, data, resolved, ps, acc).resolved)
    decreases Bound(rank, ps), 0, |ps|
  {
    if ps != [] {
      assert ps == [ps[0]] + ps[1..];
      ResolvedAreKnown(reg, rank, data, resolved, ps[0]);
      var r := Resolve(reg, rank, data, resolved, ps[0]);
      ResolvedAllAreKnown(reg, rank, data, r.resolved, ps[1..], acc + OrEmpty(r.fields));
    }
  }

  /** Unknown parents add nothing. */
  lemma {:induction false} UnknownAddNothing(reg: Registry, rank: TypeName -> nat, data: Overwrites,
                                             resolved: seq<TypeName>, ps: seq<TypeName>, acc: Fields)
    requires Ranked(reg, rank) && AllKnown(reg, resolved) && forall j :: 0 <= j < |ps| ==> ps[j] !in reg
    ensures ResolveAll(reg, rank, data, resolved, ps, acc).fields == Some(acc)
    decreases |ps|
  {
    if ps != [] {
      var r := Resolve(reg, rank, data, resolved, ps[0]);
      assert r == Resolution(resolved, None) && acc + OrEmpty(r.fields) == acc;
      UnknownAddNothing(reg, rank, data, resolved, ps[1..], acc);
    }
  }

  lemma {:induction false} LastParentWins(reg: Registry, rank: TypeName -> nat, data: Overwrites,
                                          resolved: seq<TypeName>, ps: seq<TypeName>, acc: Fields, f: string, k: nat)
    requires Ranked(reg, rank) && AllKnown(reg, resolved)
    requires k < |ps| && ps[k] in reg && Defines(data, ps[k], f) && forall j :: k < j < |ps| ==> ps[j] !in reg
    ensures var m := OrEmpty(ResolveAll(reg, rank, data, resolved, ps, acc).fields);
      f in m && m[f] == data[ps[k]][f]
    decreases |ps|
  {
    var r := Resolve(reg, rank, data, resolved, ps[0]);
    ResolvedAreKnown(reg, rank, data, resolved, ps[0]);
    if k == 0 {
      ResolveKeepsOwn(reg, rank, data, resolved, ps[0]);
      UnknownAddNothing(reg, rank, data, r.resolved, ps[1..], acc + OrEmpty(r.fields));
    } else {
      LastParentWins(reg, rank, data, r.resolved, ps[1..], acc + OrEmpty(r.fields), f, k - 1);
    }
  }

  lemma {:induction false} LoadKeepsOthers(reg: Registry, rank: TypeName -> nat, data: Overwrites,
                                           resolved: seq<TypeName>, order: seq<TypeName>, t: TypeName)
    requires Ranked(reg, rank) && t in data && t !in order
    ensures Stored(Load(reg, rank, data, resolved, order), t) == Stored(data, t)
    decreases |order|
  {
    if order != [] {
      var r := Resolve(reg, rank, data, resolved, order[0]);
      LoadKeepsOthers(reg, rank, Store(data, order[0], r.fields), r.resolved, order[1..], t);
    }
  }

  // ---- Filling user data ----

  predicate IsBlank(v: Value) {
    v == Undefined || v == Null || v == Text("")
  }

  function Read(data: Fields, k: string): Value {
    if k in data then data[k] else Undefined
  }

  /** Some overwritten field holds a value of the user's own. */
  ghost predicate Customized(data: Fields, over: Fields) {
    exists k :: k in over && !IsBlank(Read(data, k)) && Read(data, k) != over[k]
  }

  ghost function Applied(over: Option<Fields>, skip: bool, data: Fields): Fields {
    if over.None? || (skip && Customized(data, over.value)) then data else Filled(over.value, data)
  }

  ghost function Filled(over: Fields, data: Fields): Fields {
    map k | k in over.Keys + data.Keys :: if k in over && IsBlank(Read(data, k)) then over[k] else Read(data, k)
  }

  /** Whether filling changes an overwritten field. */
  ghost predicate Injects(over: Option<Fields>, skip: bool, data: Fields) {
    over.Some? && exists k :: k in over.value && Read(Applied(over, skip, data), k) != Read(data, k)
  }

  /** User values survive, blanks are filled unless a skip-listed credential is customised,
      a second pass does nothing. */
  lemma ApplyContract(over: Option<Fields>, skip: bool, data: Fields)
    ensures var r := Applied(over, skip, data);
      && (forall k :: !IsBlank(Read(data, k)) || over.None? || k !in over.value ==> Read(r, k) == Read(data, k))
      && (over.Some? && !(skip && Customized(data, over.value)) ==>
            forall k :: k in over.value && IsBlank(Read(data, k)) ==> Read(r, k) == over.value[k])
      && (over.Some? && skip && Customized(data, over.value) ==> r == data)
      && Applied(over, skip, r) == r
  {
    var r := Applied(over, skip, data);
    if over.Some? && !(skip && Customized(data, over.value)) {
      if skip {
        assert !Customized(r, over.value);
      }
      assert Applied(over, skip, r) == r;
    }
  }

  /** Managed exactly when the overwrite applies and some blank field has a value to receive. */
  lemma ManagedExactly(over: Option<Fields>, skip: bool, data: Fields)
    ensures Injects(over, skip, data) <==>
      && over.Some?
      && !(skip && Customized(data, over.value))
      && exists k :: k in over.value && IsBlank(Read(data, k)) && over.value[k] != Read(data, k)
  {
    ApplyContract(over, skip, data);
  }

  /** Some overwritten field has a value other than undefined, null and the empty text, and other than the overwrite. */
  ghost predicate OwnValue(over: Fields, data: Fields) {
    exists k :: k in over && Read(data, k) !in {Undefined, Null, Text("")} && Read(data, k) != over[k]
  }

  /** Spelt out: only undefined, null and the empty text are ever replaced, numbers and flags never;
      they are all replaced, unless the type is on the skip list and the user has a value of his own. */
  lemma ReplacedExactly(over: Fields, skip: bool, data: Fields, k: string)
    ensures var r := Applied(Some(over), skip, data);
      Read(r, k) ==
      if k in over && Read(data, k) in {Undefined, Null, Text("")} && !(skip && OwnValue(over, data))
      then over[k] else Read(data, k)
    ensures Applied(None, skip, data) == data
  {
    assert Customized(data, over) <==> OwnValue(over, data) by {
      if x :| x in over && !IsBlank(Read(data, x)) && Read(data, x) != over[x] {
        assert Read(data, x) !in {Undefined, Null, Text("")};
      }
      if x :| x in over && Read(data, x) !in {Undefined, Null, Text("")} && Read(data, x) != over[x] {
        assert !IsBlank(Read(data, x));
      }
    }
  }

  // ---- The service ----

  class CredentialsOverwrites {
    var overwriteData: Overwrites
    var resolvedTypes: seq<TypeName>
    const reg: Registry
    const skipTypes: set<TypeName>
    ghost const rank: TypeName -> nat

    constructor (reg: Registry, skipTypes: set<TypeName>, ghost rank: TypeName -> nat)
      ensures this.reg == reg && this.skipTypes == skipTypes && this.rank == rank
      ensures overwriteData == map[] && resolvedTypes == []
    {
      this.reg, this.skipTypes, this.rank := reg, skipTypes, rank;
      overwriteData, resolvedTypes := map[], [];
    }

    method GetOverwrites(t: TypeName) returns (r: Option<Fields>)
      requires Ranked(reg, rank)
      modifies this`resolvedTypes
      ensures Resolution(resolvedTypes, r) == Resolve(reg, rank, overwriteData, old(resolvedTypes), t)
      decreases rank(t)
    {
      if t in resolvedTypes {
        return Stored(overwriteData, t);
      }
      if t !in reg {
        return None;
      }
      if reg[t].None? {
        resolvedTypes := resolvedTypes + [t];
        return Stored(overwriteData, t);
      }
      var ps := reg[t].value;
      var overwrites: Fields := map[];
      for i := 0 to |ps|
        invariant ResolveAll(reg, rank, overwriteData, resolvedTypes, ps[i..], overwrites)
               == ResolveAll(reg, rank, overwriteData, old(resolvedTypes), ps, map[])
      {
        assert ps[i] in Extends(reg, t) && ps[i..][1..] == ps[i + 1..];
        var parent := GetOverwrites(ps[i]);
        overwrites := overwrites + OrEmpty(parent);
      }
      assert ps[|ps|..] == [] && overwrites + map[] == overwrites;
      if t in overwriteData {
        overwrites := overwrites + overwriteData[t];
      }
      resolvedTypes := resolvedTypes + [t];
      return Some(overwrites);
    }

    method SetPlainData(data: Overwrites, order: seq<TypeName>)
      requires Ranked(reg, rank) && KeyOrder(data, order)
      modifies this
      ensures overwriteData == Load(reg, rank, data, [], order)
    {
      resolvedTypes := [];
      overwriteData := data;
      for i := 0 to |order|
        invariant Load(reg, rank, overwriteData, resolvedTypes, order[i..]) == Load(reg, rank, data, [], order)
      {
        LoadAt(reg, rank, overwriteData, resolvedTypes, order, i);
        StoreOverwrites(order[i]);
      }
    }

    /** One round of the loop: the entry of `t` becomes what it resolves to. */
    method StoreOverwrites(t: TypeName)
      requires Ranked(reg, rank)
      modifies this
      ensures var r := Resolve(reg, rank, old(overwriteData), old(resolvedTypes), t);
        overwriteData == Store(old(overwriteData), t, r.fields) && resolvedTypes == r.resolved
    {
      var overwrites := GetOverwrites(t);
      if overwrites.Some? && overwrites.value != map[] {
        overwriteData := overwriteData[t := overwrites.value];
      }
    }

    method Get(name: TypeName) returns (r: Option<Fields>)
      requires Ranked(reg, rank)
      ensures r == Effective(reg, rank, overwriteData, name)
    {
      var parentTypes := GetParentTypes(reg, rank, name);
      var names := [name] + parentTypes;
      r := None;
      for i := |names| downto 0
        invariant r == Layers(overwriteData, names[i..])
      {
        assert names[i..][1..] == names[i + 1..];
        if names[i] in overwriteData {
          r := Some(OrEmpty(r) + overwriteData[names[i]]);
        }
      }
    }

    method ApplyOverwrite(t: TypeName, data: Fields) returns (r: Fields)
      requires Ranked(reg, rank)
      ensures r == Applied(Effective(reg, rank, overwriteData, t), t in skipTypes, data)
    {
      var overwrites := Get(t);
      if overwrites.None? {
        return data;
      }
      var over := overwrites.value;
      if t in skipTypes {
        var keys := over.Keys;
        while keys != {}
          invariant keys <= over.Keys
          invariant forall k :: k in over && k !in keys ==> IsBlank(Read(data, k)) || Read(data, k) == over[k]
        {
          var k :| k in keys;
          if !IsBlank(Read(data, k)) && Read(data, k) != over[k] {
            return data;
          }
          keys := keys - {k};
        }
      }
      r := data;
      var keys := over.Keys;
      while keys != {}
        invariant keys <= over.Keys
        invariant data.Keys <= r.Keys <= data.Keys + over.Keys
        invariant forall k :: k in over && k !in keys ==>
          k in r && r[k] == if IsBlank(Read(data, k)) then over[k] else data[k]
        invariant forall k :: k in keys || k !in over ==> Read(r, k) == Read(data, k) && (k in r <==> k in data)
      {
        var k :| k in keys;
        if IsBlank(Read(r, k)) {
          r := r[k := over[k]];
        }
        keys := keys - {k};
      }
      assert r == Applied(overwrites, t in skipTypes, data);
    }

    method UsesManagedAuth(t: TypeName, data: Fields) returns (b: bool)
      requires Ranked(reg, rank)
      ensures b <==> Injects(Effective(reg, rank, overwriteData, t), t in skipTypes, data)
    {
      var overwrites := Get(t);
      if overwrites.None? {
        return false;
      }
      var applied := ApplyOverwrite(t, data);
      var keys := overwrites.value.Keys;
      while keys != {}
        invariant keys <= overwrites.value.Keys
        invariant forall k :: k in overwrites.value && k !in keys ==> Read(applied, k) == Read(data, k)
      {
        var k :| k in keys;
        if Read(applied, k) != Read(data, k) {
          return true;
        }
        keys := keys - {k};
      }
      return false;
    }
  }
}
