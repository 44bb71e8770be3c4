/** Repairing the credential references of a workflow's nodes against the database, with two caches. */
module CredentialRepair {
  import opened Wrappers

  /** A stored credential; `inProject` when the workflow's project may use it. */
  datatype Credential = Credential(id: string, name: string, kind: string, inProject: bool)

  /** A node's reference: absent, managed by the gateway, an old bare name, or an id (null in old style) with a name. */
  datatype Ref = Absent | Managed | Bare(name: string) | Named(id: Option<string>, name: string)

  /** One credential entry of one node, in workflow order. */
  datatype Slot = Slot(disabled: bool, safeKind: bool, kind: string, ref: Ref)

  // ---- The database ----

  function FindById(db: seq<Credential>, id: string, kind: string): Option<Credential> {
    if db == [] then None
    else if db[0].id == id && db[0].kind == kind then Some(db[0])
    else FindById(db[1..], id, kind)
  }

  function FindByName(db: seq<Credential>, name: string, kind: string): seq<Credential> {
    if db == [] then []
    else
      var rest := FindByName(db[1..], name, kind);
      if db[0].name == name && db[0].kind == kind && db[0].inProject then [db[0]] + rest else rest
  }

  ghost predicate UniqueIds(db: seq<Credential>) {
    forall i, j :: 0 <= i < j < |db| ==> db[i].id != db[j].id
  }

  lemma {:induction false} FoundByNameIsStored(db: seq<Credential>, name: string, kind: string, c: Credential)
    requires c in FindByName(db, name, kind)
    ensures c in db && c.kind == kind
  {
    if !(db[0].name == name && db[0].kind == kind && db[0].inProject && c == db[0]) {
      FoundByNameIsStored(db[1..], name, kind, c);
    }
  }

  lemma {:induction false} StoredIsFoundById(db: seq<Credential>, c: Credential)
    requires UniqueIds(db) && c in db
    ensures FindById(db, c.id, c.kind) == Some(c)
  {
    if db[0] != c {
      var i :| 0 <= i < |db| && db[i] == c;
      assert db[1..][i - 1] == c;
      StoredIsFoundById(db[1..], c);
    }
  }

  lemma {:induction false} FoundByIdMatches(db: seq<Credential>, id: string, kind: string)
    ensures var r := FindById(db, id, kind); r.Some? ==> r.value.id == id && r.value.kind == kind
  {
    if db != [] {
      FoundByIdMatches(db[1..], id, kind);
    }
  }

  function ToRef(c: Credential): Ref {
    Named(Some(c.id), c.name)
  }

  // ---- Resolving one reference on its own ----

  /** The only credential of that name and kind in the project, if there is exactly one. */
  function UniqueByName(db: seq<Credential>, name: string, kind: string): Option<Ref> {
    var found := FindByName(db, name, kind);
    if |found| == 1 then Some(ToRef(found[0])) else None
  }

  predicate Skipped(s: Slot) {
    s.disabled || !s.safeKind || s.ref.Absent? || s.ref.Managed?
  }

  predicate OldStyle(r: Ref) {
    r.Bare? || (r.Named? && r.id.None?)
  }

  /** What the reference becomes when nothing is cached. */
  function Resolve(db: seq<Credential>, s: Slot): Ref {
    if Skipped(s) then s.ref
    else if !OldStyle(s.ref) && FindById(db, s.ref.id.value, s.kind).Some?
    then ToRef(FindById(db, s.ref.id.value, s.kind).value)
    else
      var byName := UniqueByName(db, s.ref.name, s.kind);
      if byName.Some? then byName.value else s.ref
  }

  // ---- What that is, by the rows of the database ----

  /** Row `k` has that name and kind and may be used. */
  predicate NameAt(db: seq<Credential>, k: int, name: string, kind: string) {
    0 <= k < |db| && db[k].name == name && db[k].kind == kind && db[k].inProject
  }

  ghost predicate OnlyNameAt(db: seq<Credential>, k: int, name: string, kind: string) {
    NameAt(db, k, name, kind) && forall l :: NameAt(db, l, name, kind) ==> l == k
  }

  ghost predicate SomeOnlyName(db: seq<Credential>, name: string, kind: string) {
    exists k :: OnlyNameAt(db, k, name, kind)
  }

  predicate IdAt(db: seq<Credential>, k: int, id: string, kind: string) {
    0 <= k < |db| && db[k].id == id && db[k].kind == kind
  }

  ghost predicate SomeId(db: seq<Credential>, id: string, kind: string) {
    exists k :: IdAt(db, k, id, kind)
  }

  lemma {:induction false} FoundNoneExactly(db: seq<Credential>, name: string, kind: string)
    ensures FindByName(db, name, kind) == [] <==> forall k :: !NameAt(db, k, name, kind)
  {
    if db != [] {
      FoundNoneExactly(db[1..], name, kind);
      if NameAt(db, 0, name, kind) {
        assert FindByName(db, name, kind) != [];
      } else {
        assert forall k :: NameAt(db, k + 1, name, kind) <==> NameAt(db[1..], k, name, kind);
        assert forall k :: NameAt(db, k, name, kind) ==> k > 0 && NameAt(db[1..], k - 1, name, kind);
      }
    }
  }

  /** A single hit is the only row of that name. */
  lemma {:induction false} FoundOneExactly(db: seq<Credential>, name: string, kind: string)
    ensures |FindByName(db, name, kind)| == 1 <==> SomeOnlyName(db, name, kind)
    ensures forall k :: OnlyNameAt(db, k, name, kind) ==> FindByName(db, name, kind) == [db[k]]
  {
    if db != [] {
      var rest := db[1..];
      FoundOneExactly(rest, name, kind);
      FoundNoneExactly(rest, name, kind);
      NamesShift(db, name, kind);
      if NameAt(db, 0, name, kind) {
        if FindByName(rest, name, kind) == [] {
          assert OnlyNameAt(db, 0, name, kind);
        } else {
          var k :| NameAt(rest, k, name, kind);
          assert NameAt(db, k + 1, name, kind);
        }
      } else {
        if SomeOnlyName(rest, name, kind) {
          var k :| OnlyNameAt(rest, k, name, kind);
          assert OnlyNameAt(db, k + 1, name, kind);
        }
        forall k | OnlyNameAt(db, k, name, kind)
          ensures OnlyNameAt(rest, k - 1, name, kind) && db[k] == rest[k - 1]
        {
        }
      }
    }
  }

  lemma NamesShift(db: seq<Credential>, name: string, kind: string)
    requires db != []
    ensures forall k :: NameAt(db[1..], k, name, kind) ==> NameAt(db, k + 1, name, kind)
    ensures forall k :: NameAt(db, k, name, kind) && k != 0 ==> NameAt(db[1..], k - 1, name, kind)
  {
  }

  lemma {:induction false} FoundIdExactly(db: seq<Credential>, id: string, kind: string)
    ensures FindById(db, id, kind).Some? <==> SomeId(db, id, kind)
    ensures UniqueIds(db) ==> forall k :: IdAt(db, k, id, kind) ==> FindById(db, id, kind) == Some(db[k])
  {
    if db != [] {
      var rest := db[1..];
      FoundIdExactly(rest, id, kind);
      if IdAt(db, 0, id, kind) {
        assert SomeId(db, id, kind);
      } else {
        if SomeId(rest, id, kind) {
          var k :| IdAt(rest, k, id, kind);
          assert IdAt(db, k + 1, id, kind);
        }
        forall k | IdAt(db, k, id, kind)
          ensures IdAt(rest, k - 1, id, kind) && rest[k - 1] == db[k]
        {
        }
      }
    }
  }

  /** The reference is one the pass looks at. */
  predicate Active(s: Slot) {
    !s.disabled && s.safeKind && s.ref != Absent && s.ref != Managed
  }

  /** The reference carries an id. */
  predicate ById(s: Slot) {
    s.ref.Named? && s.ref.id.Some?
  }

  /** An active reference by a known id becomes that credential. One by a name only, or by an unknown id, becomes the
      credential of its name if exactly one row has that name and kind and may be used. All others stay. */
  lemma ResolveExactly(db: seq<Credential>, s: Slot)
    requires UniqueIds(db)
    ensures Active(s) && ById(s) ==> forall k :: IdAt(db, k, s.ref.id.value, s.kind) ==>
      Resolve(db, s) == Named(Some(db[k].id), db[k].name)
    ensures Active(s) && (!ById(s) || !SomeId(db, s.ref.id.value, s.kind)) ==> forall k ::
      OnlyNameAt(db, k, s.ref.name, s.kind) ==> Resolve(db, s) == Named(Some(db[k].id), db[k].name)
    ensures Active(s) && (!ById(s) || !SomeId(db, s.ref.id.value, s.kind)) && !SomeOnlyName(db, s.ref.name, s.kind) ==>
      Resolve(db, s) == s.ref
    ensures !Active(s) ==> Resolve(db, s) == s.ref
  {
    if Active(s) {
      FoundOneExactly(db, s.ref.name, s.kind);
      if ById(s) {
        FoundIdExactly(db, s.ref.id.value, s.kind);
      }
    }
  }

  /** A bare name means the same as that name with a null id. */
  function Normal(r: Ref): Ref {
    if r.Bare? then Named(None, r.name) else r
  }

  // ---- The pass with caches ----

  datatype Caches = Caches(byName: map<(string, string), Ref>, byId: map<(string, string), Ref>)

  const EMPTY := Caches(map[], map[])

  /** One round of the loop: the caches afterwards and what the reference becomes. */
  function Step(db: seq<Credential>, c: Caches, s: Slot): (Caches, Ref) {
    if Skipped(s) then (c, s.ref)
    else if OldStyle(s.ref) then
      var key := (s.kind, s.ref.name);
      if key in c.byName then (c, c.byName[key])
      else
        var byName := UniqueByName(db, s.ref.name, s.kind);
        if byName.Some? then (c.(byName := c.byName[key := byName.value]), byName.value)
        else (c.(byName := c.byName[key := Named(None, s.ref.name)]), s.ref)
    else
      var key := (s.kind, s.ref.id.value);
      if key in c.byId then (c, c.byId[key])
      else
        var byId := FindById(db, s.ref.id.value, s.kind);
        var byName := UniqueByName(db, s.ref.name, s.kind);
        if byId.Some? then (c.(byId := c.byId[key := ToRef(byId.value)]), ToRef(byId.value))
        else if byName.Some? then (c.(byId := c.byId[(s.kind, byName.value.id.value) := byName.value]), byName.value)
        else (c.(byId := c.byId[key := s.ref]), s.ref)
  }

  /** The caches after the first `n` slots. */
  ghost function After(db: seq<Credential>, slots: seq<Slot>, n: nat): Caches
    requires n <= |slots|
  {
    if n == 0 then EMPTY else Step(db, After(db, slots, n - 1), slots[n - 1]).0
  }

  /** What slot `i` becomes in the pass. */
  ghost function Repaired(db: seq<Credential>, slots: seq<Slot>, i: nat): Slot
    requires i < |slots|
  {
    slots[i].(ref := Step(db, After(db, slots, i), slots[i]).1)
  }

  ghost function RepairAll(db: seq<Credential>, slots: seq<Slot>, n: nat): (r: seq<Slot>)
    requires n <= |slots|
    ensures |r| == n && forall i :: 0 <= i < n ==> r[i] == Repaired(db, slots, i)
  {
    if n == 0 then [] else RepairAll(db, slots, n - 1) + [Repaired(db, slots, n - 1)]
  }

  // ---- What the caches hold ----

  /** An active reference by an id the database does not know, whose name does not settle it either. */
  predicate Unresolvable(db: seq<Credential>, s: Slot) {
    && !Skipped(s) && !OldStyle(s.ref)
    && FindById(db, s.ref.id.value, s.kind).None?
    && UniqueByName(db, s.ref.name, s.kind).None?
  }

  /** Slot `i` is unresolvable and refers to `id`. */
  ghost predicate DeadAt(db: seq<Credential>, slots: seq<Slot>, i: nat, key: (string, string)) {
    i < |slots| && Unresolvable(db, slots[i]) && (slots[i].kind, slots[i].ref.id.value) == key
  }

  ghost predicate IsFirstDead(db: seq<Credential>, slots: seq<Slot>, i: nat, key: (string, string)) {
    DeadAt(db, slots, i, key) && forall j :: 0 <= j < i ==> !DeadAt(db, slots, j, key)
  }

  ghost predicate NamesSound(db: seq<Credential>, c: Caches) {
    forall k :: k in c.byName ==>
      c.byName[k] == if UniqueByName(db, k.1, k.0).Some? then UniqueByName(db, k.1, k.0).value else Named(None, k.1)
  }

  ghost predicate LiveSound(db: seq<Credential>, c: Caches) {
    forall k :: k in c.byId && FindById(db, k.1, k.0).Some? ==> c.byId[k] == ToRef(FindById(db, k.1, k.0).value)
  }

  /** Every entry of the id cache keeps its key as its id. */
  ghost predicate KeysKept(c: Caches) {
    forall k :: k in c.byId ==> c.byId[k].Named? && c.byId[k].id == Some(k.1)
  }

  /** A dead id is cached exactly from its first unresolvable reference on, with that reference. */
  ghost predicate DeadSound(db: seq<Credential>, slots: seq<Slot>, n: nat, c: Caches) {
    && (forall k :: k in c.byId && FindById(db, k.1, k.0).None? ==>
          exists f: nat :: f < n && IsFirstDead(db, slots, f, k) && c.byId[k] == slots[f].ref)
    && (forall i: nat :: i < n && i < |slots| && Unresolvable(db, slots[i]) ==>
          (slots[i].kind, slots[i].ref.id.value) in c.byId)
  }

  ghost predicate CachesSound(db: seq<Credential>, slots: seq<Slot>, n: nat, c: Caches) {
    NamesSound(db, c) && LiveSound(db, c) && KeysKept(c) && DeadSound(db, slots, n, c)
  }

  /** A name hit is a stored credential of that kind, so its id is not dead. */
  lemma ByNameIsLive(db: seq<Credential>, name: string, kind: string)
    requires UniqueIds(db) && UniqueByName(db, name, kind).Some?
    ensures var r := UniqueByName(db, name, kind).value;
      r.Named? && r.id.Some? && FindById(db, r.id.value, kind).Some? && ToRef(FindById(db, r.id.value, kind).value) == r
  {
    var c := FindByName(db, name, kind)[0];
    FoundByNameIsStored(db, name, kind, c);
    StoredIsFoundById(db, c);
  }

  lemma {:induction false} CachesAreSound(db: seq<Credential>, slots: seq<Slot>, n: nat)
    requires UniqueIds(db) && n <= |slots|
    ensures CachesSound(db, slots, n, After(db, slots, n))
  {
    if n > 0 {
      CachesAreSound(db, slots, n - 1);
      var c, s := After(db, slots, n - 1), slots[n - 1];
      LiveStep(db, c, s);
      if !Skipped(s) && !OldStyle(s.ref) {
        DeadStep(db, slots, n, c);
      } else {
        assert Step(db, c, s).0.byId == c.byId && !Unresolvable(db, s);
        DeadSame(db, slots, n, c, Step(db, c, s).0);
      }
    }
  }

  lemma LiveStep(db: seq<Credential>, c: Caches, s: Slot)
    requires UniqueIds(db) && NamesSound(db, c) && LiveSound(db, c) && KeysKept(c)
    ensures var c' := Step(db, c, s).0; NamesSound(db, c') && LiveSound(db, c') && KeysKept(c')
  {
    if !Skipped(s) && !OldStyle(s.ref) {
      assert Step(db, c, s).0.byName == c.byName;
      FoundByIdMatches(db, s.ref.id.value, s.kind);
      if UniqueByName(db, s.ref.name, s.kind).Some? {
        ByNameIsLive(db, s.ref.name, s.kind);
      }
    }
  }

  lemma DeadSame(db: seq<Credential>, slots: seq<Slot>, n: nat, c: Caches, c': Caches)
    requires 0 < n <= |slots| && DeadSound(db, slots, n - 1, c) && c'.byId == c.byId && !Unresolvable(db, slots[n - 1])
    ensures DeadSound(db, slots, n, c')
  {
  }

  lemma DeadStep(db: seq<Credential>, slots: seq<Slot>, n: nat, c: Caches)
    requires UniqueIds(db) && 0 < n <= |slots| && CachesSound(db, slots, n - 1, c)
    requires !Skipped(slots[n - 1]) && !OldStyle(slots[n - 1].ref)
    ensures DeadSound(db, slots, n, Step(db, c, slots[n - 1]).0)
  {
    var s := slots[n - 1];
    var c' := Step(db, c, s).0;
    var key := (s.kind, s.ref.id.value);
    FoundByIdMatches(db, s.ref.id.value, s.kind);
    if UniqueByName(db, s.ref.name, s.kind).Some? {
      ByNameIsLive(db, s.ref.name, s.kind);
    }
    forall k | k in c'.byId && FindById(db, k.1, k.0).None?
      ensures exists f: nat :: f < n && IsFirstDead(db, slots, f, k) && c'.byId[k] == slots[f].ref
    {
      if k in c.byId {
        var f: nat :| f < n - 1 && IsFirstDead(db, slots, f, k) && c.byId[k] == slots[f].ref;
        assert c'.byId[k] == c.byId[k];
      } else {
        assert k == key && IsFirstDead(db, slots, n - 1, k);
      }
    }
  }

  // ---- When the cached pass equals independent resolution ----

  /** References by one dead id never carry different names once an unresolvable one has been met. */
  ghost predicate NamesAgree(db: seq<Credential>, slots: seq<Slot>) {
    forall i, j :: 0 <= i < j < |slots| && Unresolvable(db, slots[i]) && SameId(slots[i], slots[j]) ==>
      slots[j].ref.name == slots[i].ref.name
  }

  predicate SameId(a: Slot, b: Slot) {
    !Skipped(a) && !Skipped(b) && !OldStyle(a.ref) && !OldStyle(b.ref) && a.kind == b.kind && a.ref.id == b.ref.id
  }

  /** Slot `i` ends up as if it had been resolved on its own. */
  ghost predicate Independent(db: seq<Credential>, slots: seq<Slot>, i: nat)
    requires i < |slots|
  {
    Normal(Repaired(db, slots, i).ref) == Normal(Resolve(db, slots[i]))
  }

  /** Slot `f` comes before slot `j` and is the first unresolvable reference by the id slot `j` uses. */
  ghost predicate FirstDeadFor(db: seq<Credential>, slots: seq<Slot>, j: nat, f: nat) {
    && f < j < |slots| && !Skipped(slots[j]) && !OldStyle(slots[j].ref)
    && IsFirstDead(db, slots, f, (slots[j].kind, slots[j].ref.id.value))
  }

  /** Only a dead id met before with another name makes a difference. */
  lemma IndependentExactly(db: seq<Credential>, slots: seq<Slot>, j: nat)
    requires UniqueIds(db) && j < |slots|
    ensures Independent(db, slots, j) <==>
      forall f: nat :: FirstDeadFor(db, slots, j, f) ==> slots[j].ref.name == slots[f].ref.name
  {
    CachesAreSound(db, slots, j);
    var c, s := After(db, slots, j), slots[j];
    if !Skipped(s) && !OldStyle(s.ref) {
      var key := (s.kind, s.ref.id.value);
      if key in c.byId && FindById(db, key.1, key.0).None? {
        var f: nat :| f < j && IsFirstDead(db, slots, f, key) && c.byId[key] == slots[f].ref;
        if UniqueByName(db, s.ref.name, s.kind).Some? {
          ByNameIsLive(db, s.ref.name, s.kind);
        }
        forall g: nat | FirstDeadFor(db, slots, j, g)
          ensures g == f
        {
        }
        assert FirstDeadFor(db, slots, j, f);
      } else {
        forall f: nat
          ensures !FirstDeadFor(db, slots, j, f)
        {
        }
      }
    }
  }

  /** What the pass makes of every reference: by an id first met unresolvable, what stood there;
      else what it is alone. */
  lemma RepairedExactly(db: seq<Credential>, slots: seq<Slot>, j: nat)
    requires UniqueIds(db) && j < |slots|
    ensures forall f: nat :: FirstDeadFor(db, slots, j, f) ==> Repaired(db, slots, j).ref == slots[f].ref
    ensures (forall f: nat :: !FirstDeadFor(db, slots, j, f)) ==>
      Normal(Repaired(db, slots, j).ref) == Normal(Resolve(db, slots[j]))
  {
    CachesAreSound(db, slots, j);
    IndependentExactly(db, slots, j);
    forall f: nat | FirstDeadFor(db, slots, j, f)
      ensures Repaired(db, slots, j).ref == slots[f].ref
    {
      DeadAnswer(db, slots, j, f);
    }
  }

  lemma DeadAnswer(db: seq<Credential>, slots: seq<Slot>, j: nat, f: nat)
    requires UniqueIds(db) && FirstDeadFor(db, slots, j, f)
    ensures Repaired(db, slots, j).ref == slots[f].ref
  {
    CachesAreSound(db, slots, j);
    var c, key := After(db, slots, j), (slots[j].kind, slots[j].ref.id.value);
    assert key in c.byId && FindById(db, key.1, key.0).None?;
    var g: nat :| g < j && IsFirstDead(db, slots, g, key) && c.byId[key] == slots[g].ref;
    assert g == f;
  }

  /** The cached pass equals resolving every reference on its own exactly when names agree on dead ids. */
  lemma CachedEqualsIndependent(db: seq<Credential>, slots: seq<Slot>)
    requires UniqueIds(db)
    ensures (forall i :: 0 <= i < |slots| ==> Independent(db, slots, i)) <==> NamesAgree(db, slots)
  {
    if NamesAgree(db, slots) {
      forall j | 0 <= j < |slots|
        ensures Independent(db, slots, j)
      {
        IndependentExactly(db, slots, j);
        forall f: nat | FirstDeadFor(db, slots, j, f)
          ensures slots[j].ref.name == slots[f].ref.name
        {
          assert SameId(slots[f], slots[j]);
        }
      }
    }
    if forall i :: 0 <= i < |slots| ==> Independent(db, slots, i) {
      forall i, j | 0 <= i < j < |slots| && Unresolvable(db, slots[i]) && SameId(slots[i], slots[j])
        ensures slots[j].ref.name == slots[i].ref.name
      {
        var key := (slots[i].kind, slots[i].ref.id.value);
        assert DeadAt(db, slots, i, key);
        var f := FirstDead(db, slots, i, key);
        IndependentExactly(db, slots, i);
        IndependentExactly(db, slots, j);
        assert FirstDeadFor(db, slots, j, f);
        assert f < i ==> FirstDeadFor(db, slots, i, f);
      }
    }
  }

  lemma {:induction false} FirstDead(db: seq<Credential>, slots: seq<Slot>, i: nat, key: (string, string))
    returns (f: nat)
    requires DeadAt(db, slots, i, key)
    ensures f <= i && IsFirstDead(db, slots, f, key)
  {
    if j :| 0 <= j < i && DeadAt(db, slots, j, key) {
      f := FirstDead(db, slots, j, key);
    } else {
      f := i;
    }
  }

  /** An active reference by the id 9. */
  function NamedSlot(kind: string, name: string): Slot {
    Slot(false, true, kind, Named(Some("9"), name))
  }

  /** Two references by a dead id: the first one's name is unknown, the second one's would have been found. */
  lemma DeadIdTakesFirstName(kind: string)
    ensures var db := [Credential("1", "known", kind, true)];
      var slots := [NamedSlot(kind, "gone"), NamedSlot(kind, "known")];
      && Repaired(db, slots, 1).ref == Named(Some("9"), "gone")
      && Resolve(db, slots[1]) == Named(Some("1"), "known")
      && !Independent(db, slots, 1)
  {
    var db := [Credential("1", "known", kind, true)];
    var slots := [NamedSlot(kind, "gone"), NamedSlot(kind, "known")];
    assert db[1..] == [] && |"known"| != |"gone"| && "9"[0] != "1"[0];
    assert FindById(db, "9", kind) == None;
    assert db[0].name != "gone";
    assert FindByName(db, "gone", kind) == FindByName(db[1..], "gone", kind) == [];
    assert FindByName(db, "known", kind) == [db[0]];
    assert After(db, slots, 1) == EMPTY.(byId := map[(kind, "9") := slots[0].ref]);
  }

  // ---- A second pass ----

  /** The caches `d` of a pass over repaired slots, beside the caches `c` of the pass that repaired them. */
  ghost predicate Behind(db: seq<Credential>, c: Caches, d: Caches) {
    && NamesSound(db, d) && LiveSound(db, d)
    && (forall k :: k in d.byName && UniqueByName(db, k.1, k.0).None? ==> k in c.byName)
    && (forall k :: k in d.byId && FindById(db, k.1, k.0).None? ==> k in c.byId && d.byId[k] == c.byId[k])
    && (forall k :: k in c.byId && FindById(db, k.1, k.0).None? ==>
          c.byId[k].Named? && UniqueByName(db, c.byId[k].name, k.0).None?)
  }

  lemma SecondStep(db: seq<Credential>, c: Caches, d: Caches, s: Slot)
    requires UniqueIds(db) && NamesSound(db, c) && LiveSound(db, c) && KeysKept(c) && Behind(db, c, d)
    ensures var again := Step(db, d, s.(ref := Step(db, c, s).1));
      again.1 == Step(db, c, s).1 && Behind(db, Step(db, c, s).0, again.0)
  {
    if Skipped(s) {
    } else if OldStyle(s.ref) {
      SecondStepByName(db, c, d, s);
    } else if FindById(db, s.ref.id.value, s.kind).Some? {
      FoundByIdMatches(db, s.ref.id.value, s.kind);
      SecondStepLive(db, c, d, s);
    } else {
      SecondStepDead(db, c, d, s);
    }
  }

  lemma SecondStepByName(db: seq<Credential>, c: Caches, d: Caches, s: Slot)
    requires UniqueIds(db) && NamesSound(db, c) && Behind(db, c, d) && !Skipped(s) && OldStyle(s.ref)
    ensures var again := Step(db, d, s.(ref := Step(db, c, s).1));
      again.1 == Step(db, c, s).1 && Behind(db, Step(db, c, s).0, again.0)
  {
    var found := UniqueByName(db, s.ref.name, s.kind);
    if found.Some? {
      ByNameIsLive(db, s.ref.name, s.kind);
      assert Step(db, c, s).1 == found.value;
      LiveAgain(db, d, s.(ref := found.value));
      NameCached(db, c, d, Step(db, d, s.(ref := found.value)).0, s);
    } else {
      NameUnknown(db, c, d, s);
    }
  }

  lemma NameCached(db: seq<Credential>, c: Caches, d: Caches, d': Caches, s: Slot)
    requires Behind(db, c, d) && !Skipped(s) && OldStyle(s.ref) && UniqueByName(db, s.ref.name, s.kind).Some?
    requires NamesSound(db, d') && LiveSound(db, d') && d'.byName == d.byName
    requires forall k :: k in d'.byId && FindById(db, k.1, k.0).None? ==> k in d.byId && d'.byId[k] == d.byId[k]
    ensures Behind(db, Step(db, c, s).0, d')
  {
    var c' := Step(db, c, s).0;
    assert c'.byId == c.byId;
    assert forall k :: k in c.byName ==> k in c'.byName;
  }

  lemma NameUnknown(db: seq<Credential>, c: Caches, d: Caches, s: Slot)
    requires NamesSound(db, c) && Behind(db, c, d) && !Skipped(s) && OldStyle(s.ref)
    requires UniqueByName(db, s.ref.name, s.kind).None?
    ensures var again := Step(db, d, s.(ref := Step(db, c, s).1));
      again.1 == Step(db, c, s).1 && Behind(db, Step(db, c, s).0, again.0)
  {
    var key, miss := (s.kind, s.ref.name), Named(None, s.ref.name);
    UnknownStep(db, c, s);
    var out := Step(db, c, s).1;
    UnknownStep(db, d, s.(ref := out));
    BehindWithName(db, c, d, key, miss);
  }

  /** A name that settles nothing is cached as such, and the reference stays or loses a bare name's form. */
  lemma UnknownStep(db: seq<Credential>, c: Caches, s: Slot)
    requires NamesSound(db, c) && !Skipped(s) && OldStyle(s.ref) && UniqueByName(db, s.ref.name, s.kind).None?
    ensures var key, miss := (s.kind, s.ref.name), Named(None, s.ref.name);
      Step(db, c, s) == (c.(byName := c.byName[key := miss]), if key in c.byName then miss else s.ref)
  {
    var key := (s.kind, s.ref.name);
    if key in c.byName {
      assert c.byName[key := Named(None, s.ref.name)] == c.byName;
    }
  }

  lemma BehindWithName(db: seq<Credential>, c: Caches, d: Caches, key: (string, string), miss: Ref)
    requires Behind(db, c, d) && UniqueByName(db, key.1, key.0).None? && miss == Named(None, key.1)
    ensures Behind(db, c.(byName := c.byName[key := miss]), d.(byName := d.byName[key := miss]))
  {
  }

  /** A reference that is up to date stays as it is and caches nothing dead. */
  lemma LiveAgain(db: seq<Credential>, d: Caches, s: Slot)
    requires NamesSound(db, d) && LiveSound(db, d) && !Skipped(s) && !OldStyle(s.ref)
    requires FindById(db, s.ref.id.value, s.kind).Some? && ToRef(FindById(db, s.ref.id.value, s.kind).value) == s.ref
    ensures var (d', again) := Step(db, d, s);
      && again == s.ref && NamesSound(db, d') && LiveSound(db, d') && d'.byName == d.byName
      && (forall k :: k in d'.byId && FindById(db, k.1, k.0).None? ==> k in d.byId && d'.byId[k] == d.byId[k])
  {
  }

  lemma SecondStepLive(db: seq<Credential>, c: Caches, d: Caches, s: Slot)
    requires LiveSound(db, c) && Behind(db, c, d) && !Skipped(s) && !OldStyle(s.ref)
    requires FindById(db, s.ref.id.value, s.kind).Some?
    requires FindById(db, s.ref.id.value, s.kind).value.id == s.ref.id.value
    ensures var again := Step(db, d, s.(ref := Step(db, c, s).1));
      again.1 == Step(db, c, s).1 && Behind(db, Step(db, c, s).0, again.0)
  {
    var live := ToRef(FindById(db, s.ref.id.value, s.kind).value);
    assert Step(db, c, s).1 == live;
    var c' := Step(db, c, s).0;
    assert c'.byName == c.byName && c'.byId == c.byId[(s.kind, s.ref.id.value) := live];
    LiveAgain(db, d, s.(ref := live));
    BehindWithLive(db, c, c', d, Step(db, d, s.(ref := live)).0, (s.kind, s.ref.id.value));
  }

  lemma BehindWithLive(db: seq<Credential>, c: Caches, c': Caches, d: Caches, d': Caches, key: (string, string))
    requires Behind(db, c, d) && FindById(db, key.1, key.0).Some?
    requires c'.byName == c.byName && c'.byId.Keys == c.byId.Keys + {key}
    requires forall k :: k in c.byId && k != key ==> c'.byId[k] == c.byId[k]
    requires NamesSound(db, d') && LiveSound(db, d') && d'.byName == d.byName
    requires forall k :: k in d'.byId && FindById(db, k.1, k.0).None? ==> k in d.byId && d'.byId[k] == d.byId[k]
    ensures Behind(db, c', d')
  {
  }

  lemma SecondStepDead(db: seq<Credential>, c: Caches, d: Caches, s: Slot)
    requires UniqueIds(db) && LiveSound(db, c) && KeysKept(c) && Behind(db, c, d) && !Skipped(s) && !OldStyle(s.ref)
    requires FindById(db, s.ref.id.value, s.kind).None?
    ensures var again := Step(db, d, s.(ref := Step(db, c, s).1));
      again.1 == Step(db, c, s).1 && Behind(db, Step(db, c, s).0, again.0)
  {
    if (s.kind, s.ref.id.value) in c.byId {
      DeadCached(db, c, d, s);
    } else if UniqueByName(db, s.ref.name, s.kind).Some? {
      DeadByName(db, c, d, s);
    } else {
      assert Step(db, c, s).1 == s.ref;
    }
  }

  lemma DeadCached(db: seq<Credential>, c: Caches, d: Caches, s: Slot)
    requires KeysKept(c) && Behind(db, c, d) && !Skipped(s) && !OldStyle(s.ref)
    requires FindById(db, s.ref.id.value, s.kind).None? && (s.kind, s.ref.id.value) in c.byId
    ensures var again := Step(db, d, s.(ref := Step(db, c, s).1));
      again.1 == Step(db, c, s).1 && Behind(db, Step(db, c, s).0, again.0)
  {
    var key := (s.kind, s.ref.id.value);
    var out := c.byId[key];
    assert Step(db, c, s) == (c, out);
    assert out.Named? && out.id == Some(key.1);
    var again := Step(db, d, s.(ref := out));
    assert again == if key in d.byId then (d, out) else (d.(byId := d.byId[key := out]), out);
  }

  lemma DeadByName(db: seq<Credential>, c: Caches, d: Caches, s: Slot)
    requires UniqueIds(db) && Behind(db, c, d) && !Skipped(s) && !OldStyle(s.ref)
    requires FindById(db, s.ref.id.value, s.kind).None? && (s.kind, s.ref.id.value) !in c.byId
    requires UniqueByName(db, s.ref.name, s.kind).Some?
    ensures var again := Step(db, d, s.(ref := Step(db, c, s).1));
      again.1 == Step(db, c, s).1 && Behind(db, Step(db, c, s).0, again.0)
  {
    var out := UniqueByName(db, s.ref.name, s.kind).value;
    ByNameIsLive(db, s.ref.name, s.kind);
    var live := (s.kind, out.id.value);
    assert Step(db, c, s) == (c.(byId := c.byId[live := out]), out);
    LiveAgain(db, d, s.(ref := out));
  }

  lemma {:induction false} SecondPassBehind(db: seq<Credential>, slots: seq<Slot>, n: nat)
    requires UniqueIds(db) && n <= |slots|
    ensures Behind(db, After(db, slots, n), After(db, RepairAll(db, slots, |slots|), n))
  {
    if n > 0 {
      var once := RepairAll(db, slots, |slots|);
      SecondPassBehind(db, slots, n - 1);
      CachesAreSound(db, slots, n - 1);
      SecondStep(db, After(db, slots, n - 1), After(db, once, n - 1), slots[n - 1]);
      assert once[n - 1] == Repaired(db, slots, n - 1);
      assert After(db, once, n) == Step(db, After(db, once, n - 1), once[n - 1]).0;
    }
  }

  /** Repairing a repaired workflow changes nothing. */
  lemma RepairIsIdempotent(db: seq<Credential>, slots: seq<Slot>)
    requires UniqueIds(db)
    ensures var once := RepairAll(db, slots, |slots|); RepairAll(db, once, |slots|) == once
  {
    var once := RepairAll(db, slots, |slots|);
    forall i | 0 <= i < |slots|
      ensures Repaired(db, once, i) == once[i]
    {
      SecondPassBehind(db, slots, i);
      CachesAreSound(db, slots, i);
      SecondStep(db, After(db, slots, i), After(db, once, i), slots[i]);
    }
  }

  // ---- The pass itself ----

  method ReplaceInvalidCredentials(db: seq<Credential>, slots: array<Slot>)
    modifies slots
    ensures slots[..] == RepairAll(db, old(slots[..]), slots.Length)
  {
    ghost var was := slots[..];
    var credentialsByName: map<(string, string), Ref> := map[];
    var credentialsById: map<(string, string), Ref> := map[];
    for i := 0 to slots.Length
      invariant Caches(credentialsByName, credentialsById) == After(db, was, i)
      invariant forall j :: 0 <= j < i ==> slots[j] == Repaired(db, was, j)
      invariant forall j :: i <= j < slots.Length ==> slots[j] == was[j]
    {
      var s := slots[i];
      if s.disabled || !s.safeKind || s.ref.Absent? || s.ref.Managed? {
        continue;
      }
      if OldStyle(s.ref) {
        var key := (s.kind, s.ref.name);
        if key in credentialsByName {
          slots[i] := s.(ref := credentialsByName[key]);
          continue;
        }
        var credentials := FindByName(db, s.ref.name, s.kind);
        if |credentials| == 1 {
          credentialsByName := credentialsByName[key := ToRef(credentials[0])];
          slots[i] := s.(ref := credentialsByName[key]);
        } else {
          credentialsByName := credentialsByName[key := Named(None, s.ref.name)];
        }
        continue;
      }
      var key := (s.kind, s.ref.id.value);
      if key in credentialsById {
        slots[i] := s.(ref := credentialsById[key]);
        continue;
      }
      var credential := FindById(db, s.ref.id.value, s.kind);
      if credential.Some? {
        credentialsById := credentialsById[key := ToRef(credential.value)];
        slots[i] := s.(ref := credentialsById[key]);
        continue;
      }
      var credsByName := FindByName(db, s.ref.name, s.kind);
      if |credsByName| == 1 {
        credentialsById := credentialsById[(s.kind, credsByName[0].id) := ToRef(credsByName[0])];
        slots[i] := s.(ref := ToRef(credsByName[0]));
        continue;
      }
      credentialsById := credentialsById[key := s.ref];
    }
  }
}
