/** Writing a finished child's result into its waiting parent. */
module ParentUpdate {
  import opened Wrappers
  import opened Executions

  /** Output items, errors and links are carried around unread. */
  type Data = int

  type Failure = int

  /** Private-credential usage; `user` is the resolved user, when one is reported. */
  datatype Usage = Usage(used: bool, attempted: bool, user: Option<string>)

  const NO_USAGE := Usage(false, false, None)

  datatype StackEntry = StackEntry(
    node: string,
    data: Data,
    resumeError: Option<Failure>,
    subExecution: Option<ExecutionId>,
    usage: Usage)

  datatype Task = Task(used: bool, attempted: bool)

  /** `executedBy` is absent when the execution has no runtime data, otherwise it holds the user recorded there. */
  datatype Parent = Parent(
    status: Status,
    stack: seq<StackEntry>,
    runData: map<string, seq<Task>>,
    executedBy: Option<Option<string>>)

  /** What a finished child hands over. */
  datatype Child = Child(error: Option<Failure>, output: Option<Data>, usage: Usage, link: Option<ExecutionId>)

  // ---- One update ----

  predicate Reports(c: Child) {
    c.error.Some? || c.output.Some?
  }

  predicate Succeeds(c: Child) {
    c.error.None? && c.output.Some?
  }

  predicate Fails(c: Child) {
    c.error.Some?
  }

  /** Whether an update reaches this parent at all. */
  predicate Receives(p: Parent) {
    p.status == Waiting && p.stack != []
  }

  function Union(a: Usage, b: Usage): Usage {
    Usage(a.used || b.used, a.attempted || b.attempted, if b.user.Some? then b.user else a.user)
  }

  function Flag(t: Task, u: Usage): Task {
    Task(t.used || u.used, t.attempted || u.attempted)
  }

  function StampEntry(e: StackEntry, c: Child): StackEntry {
    var e1 := e.(usage := Union(e.usage, c.usage));
    if c.error.Some? then
      e1.(resumeError := c.error, subExecution := if c.link.Some? then c.link else e1.subExecution)
    else if c.output.Some? then e1.(data := c.output.value)
    else e1
  }

  /** Flags the last task of the waiting node. */
  function StampTasks(runData: map<string, seq<Task>>, node: string, u: Usage): map<string, seq<Task>> {
    if node in runData && runData[node] != [] then
      var last := |runData[node]| - 1;
      runData[node := runData[node][last := Flag(runData[node][last], u)]]
    else runData
  }

  function StampUser(executedBy: Option<Option<string>>, u: Usage): Option<Option<string>> {
    if u.used && u.user.Some? && executedBy.Some? then Some(u.user) else executedBy
  }

  /** The parent with the child's report worked in. */
  function Stamped(p: Parent, c: Child): Parent
    requires p.stack != []
  {
    p.(stack := [StampEntry(p.stack[0], c)] + p.stack[1..],
       runData := StampTasks(p.runData, p.stack[0].node, c.usage),
       executedBy := StampUser(p.executedBy, c.usage))
  }

  function Update(p: Parent, c: Child): Parent {
    if Reports(c) && Receives(p) then Stamped(p, c) else p
  }

  /** A child with neither error nor output changes nothing, whatever usage it had; nor does any child change a parent
      that is not waiting or has an empty stack. */
  lemma NothingToWrite(p: Parent, c: Child)
    requires (c.error == None && c.output == None) || p.status != Waiting || p.stack == []
    ensures Update(p, c) == p
  {
  }

  /** Otherwise the error, or the output when there is no error, arrives at the top entry. */
  lemma ReportArrives(p: Parent, c: Child)
    requires (c.error.Some? || c.output.Some?) && p.status == Waiting && p.stack != []
    ensures var q := Update(p, c);
      && q.status == Waiting && |q.stack| == |p.stack| && q.stack[1..] == p.stack[1..]
      && (c.error.Some? ==> q.stack[0].resumeError == c.error && q.stack[0].data == p.stack[0].data)
      && (c.error.None? ==> q.stack[0].resumeError == p.stack[0].resumeError && Some(q.stack[0].data) == c.output)
  {
  }

  // ---- Any sequence of updates ----

  function UpdateAll(p: Parent, cs: seq<Child>): Parent {
    if cs == [] then p else Update(UpdateAll(p, cs[..|cs| - 1]), cs[|cs| - 1])
  }

  /** Child `i` is the last of `cs` to satisfy `p`. */
  ghost predicate IsLast(cs: seq<Child>, p: Child -> bool, i: nat) {
    i < |cs| && p(cs[i]) && forall j :: i < j < |cs| ==> !p(cs[j])
  }

  ghost predicate Any(cs: seq<Child>, p: Child -> bool) {
    exists i :: 0 <= i < |cs| && p(cs[i])
  }

  ghost predicate ReportsUse(c: Child) {
    Reports(c) && c.usage.used
  }

  ghost predicate ReportsAttempt(c: Child) {
    Reports(c) && c.usage.attempted
  }

  ghost predicate FailsWithLink(c: Child) {
    Fails(c) && c.link.Some?
  }

  ghost predicate ReportsUser(c: Child) {
    Reports(c) && c.usage.user.Some?
  }

  lemma LastOfMore(cs: seq<Child>, p: Child -> bool)
    requires cs != []
    ensures var front, c := cs[..|cs| - 1], cs[|cs| - 1];
      && (Any(cs, p) <==> Any(front, p) || p(c))
      && (forall i: nat :: IsLast(cs, p, i) <==> if i == |cs| - 1 then p(c) else IsLast(front, p, i) && !p(c))
  {
    var front, c := cs[..|cs| - 1], cs[|cs| - 1];
    if Any(front, p) {
      var i :| 0 <= i < |front| && p(front[i]);
      assert p(cs[i]);
    }
    if p(c) {
      assert p(cs[|cs| - 1]);
    }
    forall i: nat | IsLast(front, p, i) && !p(c)
      ensures IsLast(cs, p, i)
    {
      forall j | i < j < |cs|
        ensures !p(cs[j])
      {
        assert j < |front| ==> front[j] == cs[j];
      }
    }
    forall i: nat | IsLast(cs, p, i) && i < |cs| - 1
      ensures IsLast(front, p, i) && !p(c)
    {
      forall j | i < j < |front|
        ensures !p(front[j])
      {
        assert front[j] == cs[j];
      }
    }
  }

  /** The last one of `cs` is the last one of all but the final child, or that child. */
  lemma LastBefore(cs: seq<Child>, p: Child -> bool, i: nat)
    requires IsLast(cs, p, i)
    ensures var front, c := cs[..|cs| - 1], cs[|cs| - 1];
      if i == |front| then p(c) else !p(c) && IsLast(front, p, i) && front[i] == cs[i]
  {
    LastOfMore(cs, p);
  }

  lemma NoneBefore(cs: seq<Child>, p: Child -> bool)
    requires cs != [] && !Any(cs, p)
    ensures !Any(cs[..|cs| - 1], p) && !p(cs[|cs| - 1])
  {
    LastOfMore(cs, p);
  }

  /** The top entry's data is the last successful child's output. */
  lemma {:induction false} LastSuccessWins(p: Parent, cs: seq<Child>)
    requires Receives(p)
    ensures var q := UpdateAll(p, cs);
      && Receives(q) && q.stack[0].node == p.stack[0].node && q.stack[1..] == p.stack[1..]
      && (!Any(cs, Succeeds) ==> q.stack[0].data == p.stack[0].data)
      && (forall i: nat :: IsLast(cs, Succeeds, i) ==> Some(q.stack[0].data) == cs[i].output)
  {
    if cs != [] {
      var front, c := cs[..|cs| - 1], cs[|cs| - 1];
      LastSuccessWins(p, front);
      UpdateTop(UpdateAll(p, front), c);
      if !Any(cs, Succeeds) {
        NoneBefore(cs, Succeeds);
      }
      forall i: nat | IsLast(cs, Succeeds, i)
        ensures Some(UpdateAll(p, cs).stack[0].data) == cs[i].output
      {
        LastBefore(cs, Succeeds, i);
      }
    }
  }

  /** The resume error is the last failing child's, with the link of the last failing child that has one;
      no later success removes either. */
  lemma LastFailureStays(p: Parent, cs: seq<Child>)
    requires Receives(p)
    ensures var q := UpdateAll(p, cs);
      && Receives(q)
      && (!Any(cs, Fails) ==> q.stack[0].resumeError == p.stack[0].resumeError)
      && (forall i: nat :: IsLast(cs, Fails, i) ==> q.stack[0].resumeError == cs[i].error)
      && (!Any(cs, FailsWithLink) ==> q.stack[0].subExecution == p.stack[0].subExecution)
      && (forall i: nat :: IsLast(cs, FailsWithLink, i) ==> q.stack[0].subExecution == cs[i].link)
  {
    LastErrorStays(p, cs);
    LastLinkStays(p, cs);
  }

  lemma {:induction false} LastErrorStays(p: Parent, cs: seq<Child>)
    requires Receives(p)
    ensures var q := UpdateAll(p, cs);
      && Receives(q)
      && (!Any(cs, Fails) ==> q.stack[0].resumeError == p.stack[0].resumeError)
      && (forall i: nat :: IsLast(cs, Fails, i) ==> q.stack[0].resumeError == cs[i].error)
  {
    if cs != [] {
      var front, c := cs[..|cs| - 1], cs[|cs| - 1];
      LastErrorStays(p, front);
      UpdateTop(UpdateAll(p, front), c);
      if !Any(cs, Fails) {
        NoneBefore(cs, Fails);
      }
      forall i: nat | IsLast(cs, Fails, i)
        ensures UpdateAll(p, cs).stack[0].resumeError == cs[i].error
      {
        LastBefore(cs, Fails, i);
      }
    }
  }

  lemma {:induction false} LastLinkStays(p: Parent, cs: seq<Child>)
    requires Receives(p)
    ensures var q := UpdateAll(p, cs);
      && Receives(q)
      && (!Any(cs, FailsWithLink) ==> q.stack[0].subExecution == p.stack[0].subExecution)
      && (forall i: nat :: IsLast(cs, FailsWithLink, i) ==> q.stack[0].subExecution == cs[i].link)
  {
    if cs != [] {
      var front, c := cs[..|cs| - 1], cs[|cs| - 1];
      LastLinkStays(p, front);
      UpdateTop(UpdateAll(p, front), c);
      if !Any(cs, FailsWithLink) {
        NoneBefore(cs, FailsWithLink);
      }
      forall i: nat | IsLast(cs, FailsWithLink, i)
        ensures UpdateAll(p, cs).stack[0].subExecution == cs[i].link
      {
        LastBefore(cs, FailsWithLink, i);
      }
    }
  }

  /** The usage flags are the union over all reporting children. */
  lemma {:induction false} UsageAccumulates(p: Parent, cs: seq<Child>)
    requires Receives(p)
    ensures var q := UpdateAll(p, cs);
      && Receives(q)
      && (q.stack[0].usage.used <==> p.stack[0].usage.used || Any(cs, ReportsUse))
      && (q.stack[0].usage.attempted <==> p.stack[0].usage.attempted || Any(cs, ReportsAttempt))
  {
    if cs != [] {
      UsageAccumulates(p, cs[..|cs| - 1]);
      LastOfMore(cs, ReportsUse);
      LastOfMore(cs, ReportsAttempt);
    }
  }

  /** The resolved user on the entry is the last one reported. */
  lemma {:induction false} LastUserWins(p: Parent, cs: seq<Child>)
    requires Receives(p)
    ensures var q := UpdateAll(p, cs);
      && Receives(q)
      && (!Any(cs, ReportsUser) ==> q.stack[0].usage.user == p.stack[0].usage.user)
      && (forall i: nat :: IsLast(cs, ReportsUser, i) ==> q.stack[0].usage.user == cs[i].usage.user)
  {
    if cs != [] {
      LastUserWins(p, cs[..|cs| - 1]);
      LastOfMore(cs, ReportsUser);
    }
  }

  ghost predicate ReportsResolvedUser(c: Child) {
    Reports(c) && c.usage.used && c.usage.user.Some?
  }

  /** Without a reported resolved user the runtime data keeps its user; it never appears or disappears. */
  lemma {:induction false} RuntimeUserKept(p: Parent, cs: seq<Child>)
    requires Receives(p)
    ensures Receives(UpdateAll(p, cs))
    ensures UpdateAll(p, cs).executedBy.Some? == p.executedBy.Some?
    ensures !Any(cs, ReportsResolvedUser) ==> UpdateAll(p, cs).executedBy == p.executedBy
  {
    if cs != [] {
      RuntimeUserKept(p, cs[..|cs| - 1]);
      LastOfMore(cs, ReportsResolvedUser);
      UpdateUser(UpdateAll(p, cs[..|cs| - 1]), cs[|cs| - 1]);
    }
  }

  /** Runtime data, when there is any, names the last resolved user reported. */
  lemma {:induction false} RuntimeUserFollows(p: Parent, cs: seq<Child>, i: nat)
    requires Receives(p) && p.executedBy.Some? && IsLast(cs, ReportsResolvedUser, i)
    ensures UpdateAll(p, cs).executedBy == Some(cs[i].usage.user)
  {
    var front := cs[..|cs| - 1];
    RuntimeUserKept(p, front);
    UpdateUser(UpdateAll(p, front), cs[|cs| - 1]);
    LastOfMore(cs, ReportsResolvedUser);
    if i < |cs| - 1 {
      RuntimeUserFollows(p, front, i);
    }
  }

  lemma UpdateUser(p: Parent, c: Child)
    requires Receives(p)
    ensures Receives(Update(p, c))
    ensures Update(p, c).executedBy ==
            if p.executedBy.Some? && ReportsResolvedUser(c) then Some(c.usage.user) else p.executedBy
  {
  }

  /** Whether a task is the waiting one, the last of the top entry's node. */
  ghost predicate IsWaitingTask(p: Parent, node: string, k: nat) {
    p.stack != [] && node == p.stack[0].node && node in p.runData && k == |p.runData[node]| - 1
  }

  /** The waiting task carries the same union; every other task keeps its flags. */
  lemma {:induction false} TasksAccumulate(p: Parent, cs: seq<Child>, node: string, k: nat)
    requires Receives(p) && node in p.runData && k < |p.runData[node]|
    ensures var q := UpdateAll(p, cs);
      && Receives(q) && q.stack[0].node == p.stack[0].node
      && node in q.runData && |q.runData[node]| == |p.runData[node]|
      && q.runData[node][k] ==
         if IsWaitingTask(p, node, k)
         then Task(p.runData[node][k].used || Any(cs, ReportsUse),
                   p.runData[node][k].attempted || Any(cs, ReportsAttempt))
         else p.runData[node][k]
  {
    if cs != [] {
      TasksAccumulate(p, cs[..|cs| - 1], node, k);
      LastOfMore(cs, ReportsUse);
      LastOfMore(cs, ReportsAttempt);
    }
  }

  /** A parent that is not waiting, or has nothing on its stack, never changes. */
  lemma {:induction false} OthersNeverChange(p: Parent, cs: seq<Child>)
    requires !Receives(p)
    ensures UpdateAll(p, cs) == p
  {
    if cs != [] {
      OthersNeverChange(p, cs[..|cs| - 1]);
    }
  }

  /** What one update does to usage and data of the top entry. */
  lemma UpdateTop(p: Parent, c: Child)
    requires Receives(p)
    ensures var q := Update(p, c);
      && Receives(q)
      && q.stack[0].node == p.stack[0].node && q.stack[1..] == p.stack[1..]
      && q.stack[0].usage == (if Reports(c) then Union(p.stack[0].usage, c.usage) else p.stack[0].usage)
      && q.stack[0].data == (if Succeeds(c) then c.output.value else p.stack[0].data)
      && q.stack[0].resumeError == (if Fails(c) then c.error else p.stack[0].resumeError)
      && q.stack[0].subExecution == (if FailsWithLink(c) then c.link else p.stack[0].subExecution)
      && (!Reports(c) ==> q == p)
  {
  }

  lemma NothingToStamp(runData: map<string, seq<Task>>, node: string)
    ensures StampTasks(runData, node, NO_USAGE) == runData
  {
    if node in runData && runData[node] != [] {
      var last := |runData[node]| - 1;
      assert runData[node][last := Flag(runData[node][last], NO_USAGE)] == runData[node];
    }
  }

  // ---- The database ----

  class ExecutionStore {
    var rows: map<ExecutionId, Parent>

    constructor (rows: map<ExecutionId, Parent>)
      ensures this.rows == rows
    {
      this.rows := rows;
    }

    /** Reads the parent, edits the copy and writes it back, as one atomic step. */
    method UpdateParentExecutionWithChildResults(parentId: ExecutionId, c: Child)
      modifies this
      ensures rows == if parentId in old(rows) then old(rows)[parentId := Update(old(rows)[parentId], c)] else old(rows)
    {
      if c.error.None? && c.output.None? {
        return;
      }
      if parentId !in rows || rows[parentId].status != Waiting {
        return;
      }
      var parent := rows[parentId];
      var stack := parent.stack;
      if |stack| == 0 {
        return;
      }
      var runData, executedBy := parent.runData, parent.executedBy;
      if c.usage != NO_USAGE {
        stack := stack[0 := stack[0].(usage := Union(stack[0].usage, c.usage))];
        var node := stack[0].node;
        if node in runData && |runData[node]| > 0 {
          var last := |runData[node]| - 1;
          var task: Task := runData[node][last];
          if c.usage.used {
            task := task.(used := true);
          }
          if c.usage.attempted {
            task := task.(attempted := true);
          }
          runData := runData[node := runData[node][last := task]];
        }
        if c.usage.used && c.usage.user.Some? && executedBy.Some? {
          executedBy := Some(c.usage.user);
        }
      } else {
        NothingToStamp(runData, stack[0].node);
      }
      if c.error.Some? {
        stack := stack[0 := stack[0].(resumeError := c.error)];
        if c.link.Some? {
          stack := stack[0 := stack[0].(subExecution := c.link)];
        }
      } else if c.output.Some? {
        stack := stack[0 := stack[0].(data := c.output.value)];
      }
      assert stack == Update(parent, c).stack;
      rows := rows[parentId := Parent(parent.status, stack, runData, executedBy)];
    }
  }
}
