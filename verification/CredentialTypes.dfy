/** The inheritance relation between credential types and the list of all parents of one. */
module CredentialTypes {
  import opened Wrappers

  type TypeName = string

  /** Every known type with its `extends` list; `None` when the type declares none. */
  type Registry = map<TypeName, Option<seq<TypeName>>>

  function Extends(reg: Registry, t: TypeName): seq<TypeName> {
    if t in reg && reg[t].Some? then reg[t].value else []
  }

  /** No set of known types in which every member has a parent inside the set. */
  ghost predicate Acyclic(reg: Registry) {
    forall s: set<TypeName> :: s != {} && s <= reg.Keys ==> HasMinimal(reg, s)
  }

  /** Some member of `s` has no parent in `s`. */
  ghost predicate HasMinimal(reg: Registry, s: set<TypeName>) {
    exists m :: Minimal(reg, s, m)
  }

  ghost predicate Minimal(reg: Registry, s: set<TypeName>, m: TypeName) {
    m in s && forall p :: p in Extends(reg, m) ==> p !in s
  }

  /** `rank` numbers the types so that parents come strictly below their children. */
  ghost predicate Ranked(reg: Registry, rank: TypeName -> nat) {
    forall t, p :: p in Extends(reg, t) ==> rank(p) < rank(t)
  }

  // ---- An acyclic relation is exactly one that can be ranked ----

  lemma AcyclicIffRanked(reg: Registry)
    ensures Acyclic(reg) <==> exists rank :: Ranked(reg, rank)
  {
    if Acyclic(reg) {
      var rank := TopologicalRank(reg, map[]);
    }
    if exists rank :: Ranked(reg, rank) {
      var rank :| Ranked(reg, rank);
      forall s: set<TypeName> | s != {} && s <= reg.Keys
        ensures HasMinimal(reg, s)
      {
        var x :| x in s;
        var m := LowestRanked(s, rank, x);
        assert Minimal(reg, s, m);
      }
    }
  }

  /** The types in `done` are numbered from 1 up, each above its known parents. */
  ghost predicate Numbered(reg: Registry, done: map<TypeName, nat>) {
    && done.Keys <= reg.Keys
    && (forall t :: t in done ==> 1 <= done[t] <= |done|)
    && (forall t, p :: t in done && p in Extends(reg, t) && p in reg ==> p in done && done[p] < done[t])
  }

  /** Numbers the types one by one, always taking one whose known parents are numbered. */
  lemma TopologicalRank(reg: Registry, done: map<TypeName, nat>) returns (rank: TypeName -> nat)
    requires Acyclic(reg) && Numbered(reg, done)
    ensures Ranked(reg, rank)
    decreases |reg.Keys - done.Keys|
  {
    if reg.Keys - done.Keys == {} {
      rank := t => if t in done then done[t] else 0;
      NumberedIsRanked(reg, done, rank);
    } else {
      var x := SomeMinimal(reg, reg.Keys - done.Keys);
      NumberedStep(reg, done, x);
      FewerOpen(reg, done, x);
      rank := TopologicalRank(reg, done[x := |done| + 1]);
    }
  }

  lemma SomeMinimal(reg: Registry, open: set<TypeName>) returns (x: TypeName)
    requires Acyclic(reg) && open != {} && open <= reg.Keys
    ensures Minimal(reg, open, x)
  {
    assert HasMinimal(reg, open);
    x :| Minimal(reg, open, x);
  }

  lemma FewerOpen(reg: Registry, done: map<TypeName, nat>, x: TypeName)
    requires x in reg.Keys - done.Keys
    ensures |reg.Keys - done[x := |done| + 1].Keys| < |reg.Keys - done.Keys|
  {
    assert reg.Keys - done[x := |done| + 1].Keys == (reg.Keys - done.Keys) - {x};
  }

  lemma NumberedIsRanked(reg: Registry, done: map<TypeName, nat>, rank: TypeName -> nat)
    requires Numbered(reg, done) && done.Keys == reg.Keys
    requires forall t :: rank(t) == if t in done then done[t] else 0
    ensures Ranked(reg, rank)
  {
    forall t, p | p in Extends(reg, t)
      ensures rank(p) < rank(t)
    {
      assert t in reg && t in done;
      assert p in reg ==> p in done && done[p] < done[t];
    }
  }

  lemma NumberedStep(reg: Registry, done: map<TypeName, nat>, x: TypeName)
    requires Numbered(reg, done) && Minimal(reg, reg.Keys - done.Keys, x)
    ensures Numbered(reg, done[x := |done| + 1])
  {
    var more := done[x := |done| + 1];
    OneMoreKey(done, x);
    forall t, p | t in more && p in Extends(reg, t) && p in reg
      ensures p in more && more[p] < more[t]
    {
      if t == x {
        assert p !in reg.Keys - done.Keys;
      } else {
        assert p in done && done[p] < done[t] && p != x;
      }
    }
  }

  lemma OneMoreKey(done: map<TypeName, nat>, x: TypeName)
    requires x !in done
    ensures var more := done[x := |done| + 1]; more.Keys == done.Keys + {x} && |more| == |done| + 1
  {
    assert done[x := |done| + 1].Keys == done.Keys + {x};
  }

  lemma LowestRanked(s: set<TypeName>, rank: TypeName -> nat, x: TypeName) returns (m: TypeName)
    requires x in s
    ensures m in s && forall y :: y in s ==> rank(m) <= rank(y)
    decreases rank(x)
  {
    if y :| y in s && rank(y) < rank(x) {
      m := LowestRanked(s, rank, y);
    } else {
      m := x;
    }
  }

  // ---- Ancestors, by paths ----

  ghost predicate IsPath(reg: Registry, path: seq<TypeName>) {
    |path| >= 2 && forall i :: 0 < i < |path| ==> path[i] in Extends(reg, path[i - 1])
  }

  ghost predicate PathBetween(reg: Registry, path: seq<TypeName>, t: TypeName, a: TypeName) {
    IsPath(reg, path) && path[0] == t && path[|path| - 1] == a
  }

  /** `a` is reached from `t` by one or more `extends` steps. */
  ghost predicate Ancestor(reg: Registry, t: TypeName, a: TypeName) {
    exists path :: PathBetween(reg, path, t, a)
  }

  lemma AncestorUnfold(reg: Registry, t: TypeName, a: TypeName)
    ensures Ancestor(reg, t, a) <==> exists p :: p in Extends(reg, t) && (p == a || Ancestor(reg, p, a))
  {
    if Ancestor(reg, t, a) {
      var path :| PathBetween(reg, path, t, a);
      var p := path[1];
      if |path| > 2 {
        assert PathBetween(reg, path[1..], p, a);
      }
      assert p in Extends(reg, t) && (p == a || Ancestor(reg, p, a));
    }
    if p :| p in Extends(reg, t) && (p == a || Ancestor(reg, p, a)) {
      if p == a {
        assert PathBetween(reg, [t, a], t, a);
      } else {
        var path :| PathBetween(reg, path, p, a);
        assert PathBetween(reg, [t] + path, t, a);
      }
    }
  }

  // ---- How often the growing loop visits each type ----

  /** One more than the highest rank in `ts`. */
  ghost function Bound(rank: TypeName -> nat, ts: seq<TypeName>): (b: nat)
    ensures forall t :: t in ts ==> rank(t) < b
    ensures b == 0 || exists t :: t in ts && b == rank(t) + 1
  {
    if ts == [] then 0
    else
      var rest := Bound(rank, ts[1..]);
      assert ts == [ts[0]] + ts[1..];
      if rest <= rank(ts[0]) then rank(ts[0]) + 1 else rest
  }

  /** Every type the loop appends for `t`, with multiplicity, in depth-first order. */
  ghost function ParentBag(reg: Registry, rank: TypeName -> nat, t: TypeName): (r: seq<TypeName>)
    requires Ranked(reg, rank)
    ensures forall x :: x in r ==> rank(x) < rank(t)
    decreases rank(t), 1, 0
  {
    Expand(reg, rank, Extends(reg, t))
  }

  /** `ts` together with everything the loop goes on to append for its members. */
  ghost function Expand(reg: Registry, rank: TypeName -> nat, ts: seq<TypeName>): (r: seq<TypeName>)
    requires Ranked(reg, rank)
    ensures forall x :: x in r ==> rank(x) < Bound(rank, ts)
    ensures |ts| <= |r|
    decreases Bound(rank, ts), 0, |ts|
  {
    if ts == [] then []
    else
      assert ts[0] in ts && forall t :: t in ts[1..] ==> t in ts;
      Visit(reg, rank, ts[0]) + Expand(reg, rank, ts[1..])
  }

  ghost function Visit(reg: Registry, rank: TypeName -> nat, t: TypeName): (r: seq<TypeName>)
    requires Ranked(reg, rank)
    ensures forall x :: x in r ==> rank(x) <= rank(t)
    ensures |r| >= 1
    decreases rank(t), 2, 0
  {
    [t] + Expand(reg, rank, ParentBag(reg, rank, t))
  }

  lemma {:induction false} ExpandConcat(reg: Registry, rank: TypeName -> nat, a: seq<TypeName>, b: seq<TypeName>)
    requires Ranked(reg, rank)
    ensures Expand(reg, rank, a + b) == Expand(reg, rank, a) + Expand(reg, rank, b)
    decreases |a|
  {
    if a == [] {
      assert a + b == b;
    } else {
      assert (a + b)[1..] == a[1..] + b;
      ExpandConcat(reg, rank, a[1..], b);
    }
  }

  /** Reordering a list reorders its expansion. */
  lemma {:induction false} ExpandPermutes(reg: Registry, rank: TypeName -> nat, a: seq<TypeName>, b: seq<TypeName>)
    requires Ranked(reg, rank)
    requires multiset(a) == multiset(b)
    ensures multiset(Expand(reg, rank, a)) == multiset(Expand(reg, rank, b))
    decreases |a|
  {
    if a == [] {
      assert |multiset(b)| == 0;
      assert b == [];
    } else {
      assert a[0] in multiset(a);
      var i :| 0 <= i < |b| && b[i] == a[0];
      TakeOut(a, b, i);
      ExpandPermutes(reg, rank, a[1..], b[..i] + b[i + 1..]);
      ExpandTakeOut(reg, rank, a, 0);
      ExpandTakeOut(reg, rank, b, i);
      assert a[..0] + a[0 + 1..] == a[1..];
    }
  }

  lemma TakeOut(a: seq<TypeName>, b: seq<TypeName>, i: nat)
    requires multiset(a) == multiset(b) && a != [] && i < |b| && b[i] == a[0]
    ensures multiset(a[1..]) == multiset(b[..i] + b[i + 1..])
  {
    assert a == [a[0]] + a[1..];
    assert b == b[..i] + ([b[i]] + b[i + 1..]);
    assert multiset(a[1..]) == multiset(a) - multiset{a[0]};
    assert multiset(b[..i] + b[i + 1..]) == multiset(b) - multiset{b[i]};
  }

  lemma ExpandTakeOut(reg: Registry, rank: TypeName -> nat, b: seq<TypeName>, i: nat)
    requires Ranked(reg, rank) && i < |b|
    ensures multiset(Expand(reg, rank, b)) ==
            multiset(Expand(reg, rank, [b[i]])) + multiset(Expand(reg, rank, b[..i] + b[i + 1..]))
  {
    assert b == b[..i] + ([b[i]] + b[i + 1..]);
    ExpandConcat(reg, rank, b[..i], [b[i]] + b[i + 1..]);
    ExpandConcat(reg, rank, [b[i]], b[i + 1..]);
    ExpandConcat(reg, rank, b[..i], b[i + 1..]);
  }

  // ---- The list the source builds ----

  /** The source's result for `t`, in its order. */
  ghost function ParentList(reg: Registry, rank: TypeName -> nat, t: TypeName): (r: seq<TypeName>)
    requires Ranked(reg, rank)
    ensures multiset(r) == multiset(ParentBag(reg, rank, t))
    decreases rank(t), 1, 0
  {
    Grow(reg, rank, Extends(reg, t), 0, rank(t))
  }

  /** The array when the loop stands at index `i` and its members all rank below `bound`, run to the end. */
  ghost function Grow(reg: Registry, rank: TypeName -> nat, arr: seq<TypeName>, i: nat, bound: nat): (r: seq<TypeName>)
    requires Ranked(reg, rank)
    requires i <= |arr| && Below(rank, arr, bound)
    ensures multiset(r) == multiset(arr[..i]) + multiset(Expand(reg, rank, arr[i..]))
    decreases bound, 0, |Expand(reg, rank, arr[i..])|
  {
    if i == |arr| then
      GrowEnds(reg, rank, arr);
      arr
    else
      assert rank(arr[i]) < bound;
      var more := ParentList(reg, rank, arr[i]);
      GrowStep(reg, rank, arr, i, more);
      BelowAppend(reg, rank, arr, i, more, bound);
      Grow(reg, rank, arr + more, i + 1, bound)
  }

  lemma GrowEnds(reg: Registry, rank: TypeName -> nat, arr: seq<TypeName>)
    requires Ranked(reg, rank)
    ensures multiset(arr) == multiset(arr[..|arr|]) + multiset(Expand(reg, rank, arr[|arr|..]))
  {
    assert arr[..|arr|] == arr && arr[|arr|..] == [];
  }

  ghost predicate Below(rank: TypeName -> nat, arr: seq<TypeName>, bound: nat) {
    forall j :: 0 <= j < |arr| ==> rank(arr[j]) < bound
  }

  lemma BelowAppend(reg: Registry, rank: TypeName -> nat, arr: seq<TypeName>, i: nat, more: seq<TypeName>, bound: nat)
    requires Ranked(reg, rank) && i < |arr| && Below(rank, arr, bound)
    requires multiset(more) == multiset(ParentBag(reg, rank, arr[i]))
    ensures Below(rank, arr + more, bound)
  {
    BagBelow(reg, rank, arr[i], more);
    assert forall j :: 0 <= j < |more| ==> more[j] in more;
  }

  lemma BagBelow(reg: Registry, rank: TypeName -> nat, t: TypeName, more: seq<TypeName>)
    requires Ranked(reg, rank)
    requires multiset(more) == multiset(ParentBag(reg, rank, t))
    ensures forall x :: x in more ==> rank(x) < rank(t) && x in ParentBag(reg, rank, t)
    ensures forall x :: x in ParentBag(reg, rank, t) ==> x in more
  {
    forall x | x in more
      ensures x in ParentBag(reg, rank, t)
    {
      assert x in multiset(more);
    }
    forall x | x in ParentBag(reg, rank, t)
      ensures x in more
    {
      assert x in multiset(ParentBag(reg, rank, t));
    }
  }

  /** One iteration: the total of visited and outstanding types is unchanged, the outstanding part shrinks by one. */
  lemma GrowStep(reg: Registry, rank: TypeName -> nat, arr: seq<TypeName>, i: nat, more: seq<TypeName>)
    requires Ranked(reg, rank) && i < |arr|
    requires multiset(more) == multiset(ParentBag(reg, rank, arr[i]))
    ensures multiset((arr + more)[..i + 1]) + multiset(Expand(reg, rank, (arr + more)[i + 1..]))
         == multiset(arr[..i]) + multiset(Expand(reg, rank, arr[i..]))
    ensures |Expand(reg, rank, (arr + more)[i + 1..])| + 1 == |Expand(reg, rank, arr[i..])|
  {
    var t, rest := arr[i], arr[i + 1..];
    SplitAt(arr, i, more);
    VisitedTail(reg, rank, t, rest, more);
  }

  lemma SplitAt(arr: seq<TypeName>, i: nat, more: seq<TypeName>)
    requires i < |arr|
    ensures (arr + more)[i + 1..] == arr[i + 1..] + more
    ensures multiset((arr + more)[..i + 1]) == multiset(arr[..i]) + multiset{arr[i]}
    ensures arr[i..] == [arr[i]] + arr[i + 1..]
  {
    assert (arr + more)[..i + 1] == arr[..i] + [arr[i]];
  }

  lemma VisitedTail(reg: Registry, rank: TypeName -> nat, t: TypeName, rest: seq<TypeName>, more: seq<TypeName>)
    requires Ranked(reg, rank) && multiset(more) == multiset(ParentBag(reg, rank, t))
    ensures multiset(Expand(reg, rank, [t] + rest)) == multiset{t} + multiset(Expand(reg, rank, rest + more))
    ensures |Expand(reg, rank, rest + more)| + 1 == |Expand(reg, rank, [t] + rest)|
  {
    var below := ParentBag(reg, rank, t);
    ExpandConcat(reg, rank, rest, more);
    ExpandConcat(reg, rank, [t], rest);
    ExpandPermutes(reg, rank, more, below);
    SameSize(Expand(reg, rank, more), Expand(reg, rank, below));
    ExpandOne(reg, rank, t);
    var x, y := Expand(reg, rank, below), Expand(reg, rank, rest);
    assert multiset([t] + x + y) == multiset{t} + multiset(x) + multiset(y);
  }

  lemma ExpandOne(reg: Registry, rank: TypeName -> nat, t: TypeName)
    requires Ranked(reg, rank)
    ensures Expand(reg, rank, [t]) == [t] + Expand(reg, rank, ParentBag(reg, rank, t))
  {
    assert Expand(reg, rank, [t]) == Visit(reg, rank, t) + Expand(reg, rank, []);
  }

  lemma SameSize(a: seq<TypeName>, b: seq<TypeName>)
    requires multiset(a) == multiset(b)
    ensures |a| == |b|
  {
    assert |multiset(a)| == |a| && |multiset(b)| == |b|;
  }

  /** The source's loop over an array it keeps appending to. */
  method GetParentTypes(reg: Registry, ghost rank: TypeName -> nat, t: TypeName) returns (r: seq<TypeName>)
    requires Ranked(reg, rank)
    ensures r == ParentList(reg, rank, t)
    decreases rank(t)
  {
    var extendsArr := Extends(reg, t);
    if |extendsArr| == 0 {
      return [];
    }
    r := extendsArr;
    var i := 0;
    while i < |r|
      invariant i <= |r| && Below(rank, r, rank(t))
      invariant Grow(reg, rank, r, i, rank(t)) == ParentList(reg, rank, t)
      decreases |Expand(reg, rank, r[i..])|
    {
      var more := GetParentTypes(reg, rank, r[i]);
      GrowStep(reg, rank, r, i, more);
      BelowAppend(reg, rank, r, i, more, rank(t));
      r := r + more;
      i := i + 1;
    }
  }

  // ---- What is in the list ----

  /** The members of the list are exactly the transitive ancestors. */
  lemma ParentListIsAncestors(reg: Registry, rank: TypeName -> nat, t: TypeName, a: TypeName)
    requires Ranked(reg, rank)
    ensures a in ParentList(reg, rank, t) <==> Ancestor(reg, t, a)
  {
    BagBelow(reg, rank, t, ParentList(reg, rank, t));
    BagIsAncestors(reg, rank, t, a);
  }

  lemma {:induction false} BagIsAncestors(reg: Registry, rank: TypeName -> nat, t: TypeName, a: TypeName)
    requires Ranked(reg, rank)
    ensures a in ParentBag(reg, rank, t) <==> Ancestor(reg, t, a)
    decreases rank(t), 1, 0
  {
    ExpandMembers(reg, rank, Extends(reg, t), a);
    AncestorUnfold(reg, t, a);
  }

  lemma {:induction false} ExpandMembers(reg: Registry, rank: TypeName -> nat, ts: seq<TypeName>, a: TypeName)
    requires Ranked(reg, rank)
    ensures a in Expand(reg, rank, ts) <==> exists p :: p in ts && (p == a || Ancestor(reg, p, a))
    decreases Bound(rank, ts), 0, |ts|
  {
    if ts != [] {
      assert ts == [ts[0]] + ts[1..];
      ExpandMembers(reg, rank, ts[1..], a);
      VisitMembers(reg, rank, ts[0], a);
      if a in Visit(reg, rank, ts[0]) {
        assert ts[0] in ts;
      }
      if p :| p in ts[1..] && (p == a || Ancestor(reg, p, a)) {
        assert p in ts;
      }
      if p :| p in ts && (p == a || Ancestor(reg, p, a)) {
        assert p == ts[0] || p in ts[1..];
      }
    }
  }

  lemma {:induction false} VisitMembers(reg: Registry, rank: TypeName -> nat, t: TypeName, a: TypeName)
    requires Ranked(reg, rank)
    ensures a in Visit(reg, rank, t) <==> t == a || Ancestor(reg, t, a)
    decreases rank(t), 2, 0
  {
    var bag := ParentBag(reg, rank, t);
    BagIsAncestors(reg, rank, t, a);
    ExpandMembers(reg, rank, bag, a);
    if q :| q in bag && Ancestor(reg, q, a) {
      BagIsAncestors(reg, rank, t, q);
      AncestorTransitive(reg, t, q, a);
    }
  }

  lemma AncestorTransitive(reg: Registry, t: TypeName, q: TypeName, a: TypeName)
    requires Ancestor(reg, t, q) && Ancestor(reg, q, a)
    ensures Ancestor(reg, t, a)
  {
    var p1 :| PathBetween(reg, p1, t, q);
    var p2 :| PathBetween(reg, p2, q, a);
    assert PathBetween(reg, p1 + p2[1..], t, a);
  }

  // ---- The order of the list ----

  /** The lists of the members of `ts`, one after the other. */
  ghost function Lists(reg: Registry, rank: TypeName -> nat, ts: seq<TypeName>): seq<TypeName>
    requires Ranked(reg, rank)
  {
    if ts == [] then [] else ParentList(reg, rank, ts[0]) + Lists(reg, rank, ts[1..])
  }

  /** The list starts with the direct parents and then the whole list of each of them in turn. */
  lemma ParentListPrefix(reg: Registry, rank: TypeName -> nat, t: TypeName)
    requires Ranked(reg, rank)
    ensures Extends(reg, t) + Lists(reg, rank, Extends(reg, t)) <= ParentList(reg, rank, t)
  {
    GrowPrefix(reg, rank, Extends(reg, t), 0, rank(t), Extends(reg, t));
  }

  lemma {:induction false} GrowPrefix(reg: Registry, rank: TypeName -> nat, arr: seq<TypeName>, i: nat, bound: nat,
                                      todo: seq<TypeName>)
    requires Ranked(reg, rank)
    requires i + |todo| <= |arr| && Below(rank, arr, bound)
    requires todo == arr[i..i + |todo|]
    ensures arr + Lists(reg, rank, todo) <= Grow(reg, rank, arr, i, bound)
    decreases |todo|
  {
    if todo == [] {
      GrowKeeps(reg, rank, arr, i, bound);
    } else {
      var more := ParentList(reg, rank, arr[i]);
      BelowAppend(reg, rank, arr, i, more, bound);
      GrowPrefix(reg, rank, arr + more, i + 1, bound, todo[1..]);
      PrefixJoin(arr, more, Lists(reg, rank, todo[1..]), Grow(reg, rank, arr + more, i + 1, bound));
    }
  }

  lemma {:induction false} GrowKeeps(reg: Registry, rank: TypeName -> nat, arr: seq<TypeName>, i: nat, bound: nat)
    requires Ranked(reg, rank)
    requires i <= |arr| && Below(rank, arr, bound)
    ensures arr <= Grow(reg, rank, arr, i, bound)
    decreases |Expand(reg, rank, arr[i..])|
  {
    if i < |arr| {
      var more := ParentList(reg, rank, arr[i]);
      GrowStep(reg, rank, arr, i, more);
      BelowAppend(reg, rank, arr, i, more, bound);
      GrowKeeps(reg, rank, arr + more, i + 1, bound);
      PrefixJoin(arr, more, [], Grow(reg, rank, arr + more, i + 1, bound));
    }
  }

  lemma PrefixJoin(a: seq<TypeName>, b: seq<TypeName>, c: seq<TypeName>, full: seq<TypeName>)
    requires a + b + c <= full || (c == [] && a + b <= full)
    ensures a + (b + c) <= full && a <= full
  {
    assert a + b + c == a + (b + c);
    assert c == [] ==> a + b + c == a + b;
  }

  /** No type names more than one parent. */
  ghost predicate SingleInheritance(reg: Registry) {
    forall t :: |Extends(reg, t)| <= 1
  }

  /** The ancestors of `t`, nearest first, when every type has at most one parent. */
  ghost function Chain(reg: Registry, rank: TypeName -> nat, t: TypeName): seq<TypeName>
    requires Ranked(reg, rank) && SingleInheritance(reg)
    decreases rank(t)
  {
    if Extends(reg, t) == [] then []
    else
      var p := Extends(reg, t)[0];
      [p] + Chain(reg, rank, p)
  }

  /** On a single-inheritance chain the list begins with the ancestors, nearest first. */
  lemma {:induction false} ListStartsWithChain(reg: Registry, rank: TypeName -> nat, t: TypeName)
    requires Ranked(reg, rank) && SingleInheritance(reg)
    ensures Chain(reg, rank, t) <= ParentList(reg, rank, t)
    decreases rank(t)
  {
    var ts := Extends(reg, t);
    if ts != [] {
      var p := ts[0];
      assert p in Extends(reg, t) && ts == [p];
      ListStartsWithChain(reg, rank, p);
      ParentListPrefix(reg, rank, t);
      var full := ParentList(reg, rank, t);
      var rest := ParentList(reg, rank, p);
      assert Lists(reg, rank, ts) == rest + Lists(reg, rank, ts[1..]) == rest;
      assert [p] + rest <= full;
      assert full[1..1 + |rest|] == rest;
      assert [p] + Chain(reg, rank, p) <= full;
    }
  }
}
