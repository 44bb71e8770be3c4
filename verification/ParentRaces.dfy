/** Updates of one parent by several children, each reading and writing in two steps, with other writers in between. */
module ParentRaces {
  import opened Wrappers
  import opened Executions
  import opened ParentUpdate

  /** `Other` is any write from elsewhere, as by a process that resumes the parent. */
  datatype Action = Read(child: nat) | Write(child: nat) | Other(now: Parent)

  /** `copies` holds what each child has read and not yet written. `base` and `written` are history: the row after the
      last other write, and the children that have written since, in order. */
  datatype Race = Race(row: Parent, copies: map<nat, Parent>, base: Parent, written: seq<Child>)

  function Start(p: Parent): Race {
    Race(p, map[], p, [])
  }

  /** The data of the copy with the report worked in; the status is not part of the write. */
  function Written(read: Parent, now: Parent, c: Child): Parent
    requires read.stack != []
  {
    Stamped(read, c).(status := now.status)
  }

  /** The children are `cs`; a child that has nothing to report or finds nothing to update gives up when it reads. */
  function Next(cs: seq<Child>, r: Race, a: Action): Race {
    match a
    case Read(i) =>
      if i < |cs| && Reports(cs[i]) && Receives(r.row) then r.(copies := r.copies[i := r.row])
      else r.(copies := r.copies - {i})
    case Write(i) =>
      if !Acts(cs, r, i) then r
      else r.(row := Written(r.copies[i], r.row, cs[i]), copies := r.copies - {i}, written := r.written + [cs[i]])
    case Other(now) => r.(row := now, base := now, written := [])
  }

  predicate Acts(cs: seq<Child>, r: Race, i: nat) {
    i < |cs| && i in r.copies && Reports(cs[i]) && Receives(r.copies[i])
  }

  /** A child that has something to report and finds a waiting parent holds the row as it is now, whatever it held
      before; any other holds nothing. */
  lemma ReadsNow(cs: seq<Child>, r: Race, i: nat)
    ensures var r' := Next(cs, r, Read(i));
      && (i in r'.copies <==>
            i < |cs| && (cs[i].error.Some? || cs[i].output.Some?) && r.row.status == Waiting && r.row.stack != [])
      && (i in r'.copies ==> r'.copies[i] == r.row)
      && r'.copies - {i} == r.copies - {i} && r'.row == r.row
  {
  }

  ghost function Run(cs: seq<Child>, r: Race, run: seq<Action>): Race {
    if run == [] then r else Next(cs, Run(cs, r, run[..|run| - 1]), run[|run| - 1])
  }

  // ---- When a write does what an atomic update would ----

  ghost predicate SameData(p: Parent, q: Parent) {
    p.stack == q.stack && p.runData == q.runData && p.executedBy == q.executedBy
  }

  /** Wherever the row differs from what was read, the child brings a value of its own. */
  ghost predicate Absorbs(read: Parent, now: Parent, c: Child)
    requires read.stack != []
  {
    && now.stack != [] && now.stack[1..] == read.stack[1..]
    && EntryAbsorbs(read.stack[0], now.stack[0], c)
    && TasksAbsorb(read.runData, now.runData, read.stack[0].node, c.usage)
    && (read.executedBy == now.executedBy ||
        (read.executedBy.Some? && now.executedBy.Some? && c.usage.used && c.usage.user.Some?))
  }

  predicate EntryAbsorbs(r: StackEntry, n: StackEntry, c: Child) {
    && n.node == r.node
    && (n.data == r.data || Succeeds(c))
    && (n.resumeError == r.resumeError || Fails(c))
    && (n.subExecution == r.subExecution || (Fails(c) && c.link.Some?))
    && (n.usage.used == r.usage.used || c.usage.used)
    && (n.usage.attempted == r.usage.attempted || c.usage.attempted)
    && (n.usage.user == r.usage.user || c.usage.user.Some?)
  }

  ghost predicate TasksAbsorb(r: map<string, seq<Task>>, n: map<string, seq<Task>>, node: string, u: Usage) {
    r.Keys == n.Keys && forall k :: k in r ==> if k == node then ListAbsorbs(r[k], n[k], u) else r[k] == n[k]
  }

  /** The lists differ at most in flags of the last task that the child sets. */
  predicate ListAbsorbs(r: seq<Task>, n: seq<Task>, u: Usage) {
    && |r| == |n|
    && (r != [] ==>
          var last := |r| - 1;
          && r[..last] == n[..last]
          && (r[last].used == n[last].used || u.used) && (r[last].attempted == n[last].attempted || u.attempted))
  }

  /** The parent already carries everything the child reports. */
  ghost predicate Carries(p: Parent, c: Child)
    requires p.stack != []
  {
    var e, u := p.stack[0], c.usage;
    && (u.used ==> e.usage.used) && (u.attempted ==> e.usage.attempted) && (u.user.Some? ==> e.usage.user == u.user)
    && (Fails(c) ==> e.resumeError == c.error && (c.link.Some? ==> e.subExecution == c.link))
    && (Succeeds(c) ==> Some(e.data) == c.output)
    && (u.used && u.user.Some? && p.executedBy.Some? ==> p.executedBy.value == u.user)
    && (e.node in p.runData && p.runData[e.node] != [] ==>
          var task := p.runData[e.node][|p.runData[e.node]| - 1];
          (u.used ==> task.used) && (u.attempted ==> task.attempted))
  }

  /** What was read and what is there now give the same data exactly when the child's report covers the difference. */
  lemma StampsMeetExactly(read: Parent, now: Parent, c: Child)
    requires read.stack != [] && now.stack != []
    ensures SameData(Stamped(read, c), Stamped(now, c)) <==> Absorbs(read, now, c)
  {
    var r, n := read.stack[0], now.stack[0];
    EntriesMeetExactly(r, n, c);
    HeadTail(StampEntry(r, c), read.stack[1..], StampEntry(n, c), now.stack[1..]);
    if r.node == n.node {
      TasksMeetExactly(read.runData, now.runData, r.node, c.usage);
    }
  }

  lemma HeadTail(x: StackEntry, xs: seq<StackEntry>, y: StackEntry, ys: seq<StackEntry>)
    ensures [x] + xs == [y] + ys <==> x == y && xs == ys
  {
    assert ([x] + xs)[0] == x && ([x] + xs)[1..] == xs;
    assert ([y] + ys)[0] == y && ([y] + ys)[1..] == ys;
  }

  lemma EntriesMeetExactly(r: StackEntry, n: StackEntry, c: Child)
    ensures StampEntry(r, c) == StampEntry(n, c) <==> EntryAbsorbs(r, n, c)
  {
  }

  lemma TasksMeetExactly(r: map<string, seq<Task>>, n: map<string, seq<Task>>, node: string, u: Usage)
    ensures StampTasks(r, node, u) == StampTasks(n, node, u) <==> TasksAbsorb(r, n, node, u)
  {
    TasksAt(r, node, u);
    TasksAt(n, node, u);
    var x, y := StampTasks(r, node, u), StampTasks(n, node, u);
    if node in r && node in n {
      ListsMeetExactly(r[node], n[node], u);
    }
    if TasksAbsorb(r, n, node, u) {
      assert forall k :: k in x ==> x[k] == y[k];
    }
    if x == y {
      assert r.Keys == n.Keys;
      assert forall k :: k in r && k != node ==> r[k] == x[k] && n[k] == y[k];
    }
  }

  function StampList(tasks: seq<Task>, u: Usage): seq<Task> {
    if tasks == [] then tasks else tasks[|tasks| - 1 := Flag(tasks[|tasks| - 1], u)]
  }

  lemma TasksAt(runData: map<string, seq<Task>>, node: string, u: Usage)
    ensures var x := StampTasks(runData, node, u);
      && x.Keys == runData.Keys
      && forall k :: k in x ==> x[k] == if k == node then StampList(runData[k], u) else runData[k]
  {
  }

  lemma ListsMeetExactly(r: seq<Task>, n: seq<Task>, u: Usage)
    ensures StampList(r, u) == StampList(n, u) <==> ListAbsorbs(r, n, u)
  {
    var x, y := StampList(r, u), StampList(n, u);
    assert |x| == |r| && |y| == |n|;
    if |r| == |n| && r != [] {
      var last := |r| - 1;
      assert x[..last] == r[..last] && y[..last] == n[..last];
      assert x == x[..last] + [x[last]] && y == y[..last] + [y[last]];
    }
  }

  /** Working a report in changes nothing exactly when the parent carries all of it already. */
  lemma StampIdleExactly(p: Parent, c: Child)
    requires p.stack != []
    ensures SameData(Stamped(p, c), p) <==> Carries(p, c)
  {
    var e := p.stack[0];
    assert p.stack == [e] + p.stack[1..];
    HeadTail(StampEntry(e, c), p.stack[1..], e, p.stack[1..]);
    TasksIdleExactly(p.runData, e.node, c.usage);
  }

  lemma TasksIdleExactly(runData: map<string, seq<Task>>, node: string, u: Usage)
    ensures StampTasks(runData, node, u) == runData <==>
      (node in runData && runData[node] != [] ==>
         var task := runData[node][|runData[node]| - 1];
         (u.used ==> task.used) && (u.attempted ==> task.attempted))
  {
    TasksAt(runData, node, u);
    if node in runData && runData[node] != [] {
      var tasks := runData[node];
      var last := |tasks| - 1;
      var flagged := tasks[last := Flag(tasks[last], u)];
      assert flagged[last] == Flag(tasks[last], u);
      assert flagged == tasks <==> Flag(tasks[last], u) == tasks[last];
    }
  }

  /** An update changes nothing exactly when the parent carries all of it already. */
  lemma UpdateIdleExactly(p: Parent, c: Child)
    requires Receives(p) && Reports(c)
    ensures Update(p, c) == p <==> Carries(p, c)
  {
    StampIdleExactly(p, c);
  }

  /** A report worked in twice is worked in once. */
  lemma StampedCarries(p: Parent, c: Child)
    requires p.stack != []
    ensures Carries(Stamped(p, c), c)
  {
    TasksAt(p.runData, p.stack[0].node, c.usage);
  }

  /** The row differs from what was read only where the child brings its own; and if it waits no more,
      it carries that. */
  ghost predicate Harmless(read: Parent, now: Parent, c: Child)
    requires read.stack != []
  {
    Absorbs(read, now, c) && (now.status == Waiting || Carries(now, c))
  }

  /** A write does what an atomic update of the present row would do exactly when it is harmless. */
  lemma WriteExactly(read: Parent, now: Parent, c: Child)
    requires Reports(c) && Receives(read)
    ensures Written(read, now, c) == Update(now, c) <==> Harmless(read, now, c)
  {
    if now.stack != [] {
      StampsMeetExactly(read, now, c);
      StampIdleExactly(now, c);
      if now.status != Waiting && Written(read, now, c) == now {
        StampedCarries(read, c);
        assert SameData(now, Stamped(read, c));
        SameCarries(Stamped(read, c), now, c);
      }
    }
  }

  lemma SameCarries(p: Parent, q: Parent, c: Child)
    requires p.stack != [] && SameData(p, q)
    ensures Carries(p, c) <==> Carries(q, c)
  {
  }

  // ---- Any number of children ----

  /** The row is what the children's updates, each at once and in the order of their writes, make of the base. */
  ghost predicate InOrder(r: Race) {
    r.row == UpdateAll(r.base, r.written)
  }

  /** A write that is not harmless. */
  ghost predicate Loses(cs: seq<Child>, r: Race, a: Action) {
    a.Write? && Acts(cs, r, a.child) && !Harmless(r.copies[a.child], r.row, cs[a.child])
  }

  lemma StepInOrder(cs: seq<Child>, r: Race, a: Action)
    requires InOrder(r)
    ensures InOrder(Next(cs, r, a)) <==> !Loses(cs, r, a)
  {
    if a.Write? && Acts(cs, r, a.child) {
      var c := cs[a.child];
      WriteExactly(r.copies[a.child], r.row, c);
      assert (r.written + [c])[..|r.written + [c]| - 1] == r.written;
      assert UpdateAll(r.base, r.written + [c]) == Update(r.row, c);
    }
  }

  ghost predicate AlwaysInOrder(cs: seq<Child>, p: Parent, run: seq<Action>) {
    InOrder(Run(cs, Start(p), run)) && (run != [] ==> AlwaysInOrder(cs, p, run[..|run| - 1]))
  }

  ghost predicate NeverLoses(cs: seq<Child>, p: Parent, run: seq<Action>) {
    run != [] ==>
      NeverLoses(cs, p, run[..|run| - 1]) && !Loses(cs, Run(cs, Start(p), run[..|run| - 1]), run[|run| - 1])
  }

  /** After every prefix of the run the parent is what atomic updates in the order of the writes make of it,
      exactly when every write is harmless. */
  lemma {:induction false} InOrderExactly(cs: seq<Child>, p: Parent, run: seq<Action>)
    ensures AlwaysInOrder(cs, p, run) <==> NeverLoses(cs, p, run)
  {
    if run != [] {
      var front := run[..|run| - 1];
      InOrderExactly(cs, p, front);
      if AlwaysInOrder(cs, p, front) {
        StepInOrder(cs, Run(cs, Start(p), front), run[|run| - 1]);
      }
    }
  }

  /** A write that finds the row as it was read is harmless. */
  lemma UndisturbedIsHarmless(p: Parent, c: Child)
    requires Receives(p)
    ensures Harmless(p, p, c)
  {
  }

  // ---- A parent resumed between read and write ----

  /** The update reads the parent as `read`; it is resumed and has become `now` when the data is written. */
  function WrittenLate(read: Parent, now: Parent, c: Child): Parent {
    if Reports(c) && Receives(read) then Written(read, now, c) else now
  }

  /** For a parent resumed without a change to its data yet: it stays so exactly when nothing is written
      or it carried all of it when read. */
  lemma LateWriteHarmlessExactly(read: Parent, status: Status, c: Child)
    ensures var now := read.(status := status);
      WrittenLate(read, now, c) == now <==> (Reports(c) && Receives(read) ==> Carries(read, c))
  {
    if Reports(c) && Receives(read) {
      StampIdleExactly(read, c);
    }
  }

  // ---- Two children ----

  /** Both children read the parent before either writes; the second writes last. */
  function Raced(p: Parent, first: Child, second: Child): Parent {
    if Reports(second) && Receives(p) then Update(p, second) else Update(p, first)
  }

  /** The race keeps one child's result whole, and forgets a usage flag of the first child
      exactly when only that child reports it. */
  lemma RaceLosesUsage(p: Parent, first: Child, second: Child)
    requires Receives(p)
    ensures Raced(p, first, second) == Update(p, first) || Raced(p, first, second) == Update(p, second)
    ensures Receives(Raced(p, first, second)) && Receives(UpdateAll(p, [first, second]))
    ensures Raced(p, first, second).stack[0].usage.used == UpdateAll(p, [first, second]).stack[0].usage.used <==>
      !(Reports(first) && Reports(second) && first.usage.used && !second.usage.used && !p.stack[0].usage.used)
    ensures var raced, serial := Raced(p, first, second), UpdateAll(p, [first, second]);
      raced.stack[0].usage.attempted == serial.stack[0].usage.attempted <==>
      !(Reports(first) && Reports(second) && first.usage.attempted && !second.usage.attempted &&
        !p.stack[0].usage.attempted)
    ensures Succeeds(second) ==> Raced(p, first, second).stack[0].data == UpdateAll(p, [first, second]).stack[0].data
  {
    RaceTops(p, first, second);
  }

  /** It forgets the first child's error, link, output or user exactly when the second child brings none of its own
      and the parent did not hold it before. */
  lemma RaceLosesResult(p: Parent, first: Child, second: Child)
    requires Receives(p)
    ensures Receives(Raced(p, first, second)) && Receives(UpdateAll(p, [first, second]))
    ensures var raced, serial, old_ :=
        Raced(p, first, second).stack[0], UpdateAll(p, [first, second]).stack[0], p.stack[0];
      && (raced.resumeError == serial.resumeError <==>
            !(Fails(first) && Reports(second) && !Fails(second) && old_.resumeError != first.error))
      && (raced.subExecution == serial.subExecution <==>
            !(FailsWithLink(first) && Reports(second) && !FailsWithLink(second) && old_.subExecution != first.link))
      && (raced.data == serial.data <==>
            !(Succeeds(first) && Reports(second) && !Succeeds(second) && Some(old_.data) != first.output))
      && (raced.usage.user == serial.usage.user <==>
            !(ReportsUser(first) && Reports(second) && !ReportsUser(second) && old_.usage.user != first.usage.user))
  {
    RaceTops(p, first, second);
  }

  lemma RaceTops(p: Parent, first: Child, second: Child)
    requires Receives(p)
    ensures Receives(Raced(p, first, second)) && Receives(UpdateAll(p, [first, second]))
    ensures var serial, one := UpdateAll(p, [first, second]), Update(p, first);
      && Receives(one) && serial == Update(one, second)
      && Raced(p, first, second) == (if Reports(second) then Update(p, second) else one)
      && TopOf(p, one, first) && TopOf(one, serial, second) && TopOf(p, Update(p, second), second)
  {
    TwoUpdates(p, first, second);
    UpdateTop(p, first);
    UpdateTop(p, second);
    UpdateTop(Update(p, first), second);
  }

  /** What one update does to usage, result and data of the top entry. */
  ghost predicate TopOf(p: Parent, q: Parent, c: Child)
    requires p.stack != []
  {
    && q.stack != []
    && q.stack[0].usage == (if Reports(c) then Union(p.stack[0].usage, c.usage) else p.stack[0].usage)
    && q.stack[0].data == (if Succeeds(c) then c.output.value else p.stack[0].data)
    && q.stack[0].resumeError == (if Fails(c) then c.error else p.stack[0].resumeError)
    && q.stack[0].subExecution == (if FailsWithLink(c) then c.link else p.stack[0].subExecution)
  }

  lemma TwoUpdates(p: Parent, first: Child, second: Child)
    ensures UpdateAll(p, [first, second]) == Update(Update(p, first), second)
  {
    assert [first, second][..1] == [first] && [first][..0] == [];
    assert UpdateAll(p, [first]) == Update(p, first);
  }

  // ---- Inputs that show it ----

  /** A waiting parent with one entry. */
  const WAITING := Parent(Waiting, [StackEntry("call", 0, None, None, NO_USAGE)], map[], None)

  /** One child has failed with a private credential, the other has succeeded without one. */
  const FAILED := Child(Some(7), None, Usage(true, false, None), Some("child"))
  const SUCCEEDED := Child(None, Some(5), NO_USAGE, None)

  /** The success, written last, erases the failure, its link and the usage:
      the parent resumes as if nothing had failed. */
  lemma RaceErasesFailure()
    ensures var run := [Read(0), Read(1), Write(0), Write(1)];
      var row := Run([FAILED, SUCCEEDED], Start(WAITING), run).row;
      && row.stack == [StackEntry("call", 5, None, None, NO_USAGE)]
      && row != UpdateAll(WAITING, [FAILED, SUCCEEDED])
  {
    var cs, r := [FAILED, SUCCEEDED], Start(WAITING);
    var r1 := Next(cs, r, Read(0));
    var r2 := Next(cs, r1, Read(1));
    var r3 := Next(cs, r2, Write(0));
    assert [Read(0), Read(1), Write(0), Write(1)][..3] == [Read(0), Read(1), Write(0)];
    assert [Read(0), Read(1), Write(0)][..2] == [Read(0), Read(1)] && [Read(0), Read(1)][..1] == [Read(0)];
    assert [Read(0)][..0] == [];
    assert Run(cs, r, [Read(0)]) == r1 && Run(cs, r, [Read(0), Read(1)]) == r2;
    assert Next(cs, r3, Write(1)).row == Stamped(WAITING, SUCCEEDED);
    RaceLosesResult(WAITING, FAILED, SUCCEEDED);
  }

  /** Resumed in between, the parent is given the output it no longer waits for. */
  lemma LateWriteChangesRunning()
    ensures WrittenLate(WAITING, WAITING.(status := Running), SUCCEEDED).stack[0].data == 5
    ensures WrittenLate(WAITING, WAITING.(status := Running), SUCCEEDED) != WAITING.(status := Running)
  {
    LateWriteHarmlessExactly(WAITING, Running, SUCCEEDED);
  }
}
