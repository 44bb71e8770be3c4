/** The basic checks on a workflow's node groups. */
module NodeGroups {
  import opened Wrappers

  datatype Group = Group(id: string, name: string, nodeIds: seq<string>)

  datatype GroupError =
    | DuplicateId(id: string)
    | DuplicateName(name: string)
    | NoMembers(group: string)
    | UnknownNode(group: string, node: string)
    | InTwoGroups(node: string, first: string, second: string)

  /** One membership: a node id listed by the group of that name. */
  datatype Member = Member(node: string, group: string)

  function MembersOf(g: Group, n: nat): seq<Member>
    requires n <= |g.nodeIds|
  {
    if n == 0 then [] else MembersOf(g, n - 1) + [Member(g.nodeIds[n - 1], g.name)]
  }

  /** All memberships, in the order the check meets them. */
  function Members(groups: seq<Group>): seq<Member> {
    if groups == [] then []
    else
      var last := groups[|groups| - 1];
      Members(groups[..|groups| - 1]) + MembersOf(last, |last.nodeIds|)
  }

  // ---- What is accepted ----

  ghost predicate DistinctGroups(groups: seq<Group>) {
    forall i, j :: 0 <= i < j < |groups| ==> groups[i].id != groups[j].id && groups[i].name != groups[j].name
  }

  ghost predicate Populated(groups: seq<Group>) {
    forall g :: g in groups ==> g.nodeIds != []
  }

  /** Every member is the non-empty id of a node. */
  ghost predicate Known(nodes: seq<string>, members: seq<Member>) {
    forall m :: m in members ==> m.node in nodes && m.node != ""
  }

  /** A node is listed again only after memberships in a group with the empty name. */
  ghost predicate NoRepeat(members: seq<Member>) {
    forall i, j :: 0 <= i < j < |members| && members[i].node == members[j].node ==> members[i].group == ""
  }

  /** No node is listed twice. */
  ghost predicate Disjoint(members: seq<Member>) {
    forall i, j :: 0 <= i < j < |members| ==> members[i].node != members[j].node
  }

  ghost predicate Acceptable(nodes: seq<string>, groups: seq<Group>) {
    var members := Members(groups);
    groups == [] || (DistinctGroups(groups) && Populated(groups) && Known(nodes, members) && NoRepeat(members))
  }

  /** The error names a fault the groups have. */
  ghost predicate Truthful(nodes: seq<string>, groups: seq<Group>, e: GroupError) {
    match e
    case DuplicateId(id) => exists i, j :: 0 <= i < j < |groups| && groups[i].id == groups[j].id == id
    case DuplicateName(name) => exists i, j :: 0 <= i < j < |groups| && groups[i].name == groups[j].name == name
    case NoMembers(name) => exists g :: g in groups && g.name == name && g.nodeIds == []
    case UnknownNode(name, node) => Member(node, name) in Members(groups) && (node !in nodes || node == "")
    case InTwoGroups(node, first, second) => first != "" && Repeats(Members(groups), node, first, second)
  }

  ghost predicate Repeats(members: seq<Member>, node: string, first: string, second: string) {
    exists i, j :: 0 <= i < j < |members| && members[i] == Member(node, first) && members[j] == Member(node, second)
  }

  lemma TruthfulIsFault(nodes: seq<string>, groups: seq<Group>, e: GroupError)
    requires Truthful(nodes, groups, e)
    ensures !Acceptable(nodes, groups)
  {
    match e
    case InTwoGroups(node, first, second) =>
      var members := Members(groups);
      var i, j :| 0 <= i < j < |members| && members[i] == Member(node, first) && members[j] == Member(node, second);
    case _ =>
  }

  /** With names given to all groups, acceptance means no node id occurs twice across all member lists. */
  lemma NamedGroupsAreDisjoint(nodes: seq<string>, groups: seq<Group>)
    requires forall g :: g in groups ==> g.name != ""
    ensures var members := Members(groups);
      Acceptable(nodes, groups) <==>
        groups == [] || (DistinctGroups(groups) && Populated(groups) && Known(nodes, members) && Disjoint(members))
  {
    MembersHaveGroupNames(groups);
  }

  /** After a group with the empty name a node may be listed again, contrary to one group per node. */
  lemma EmptyNameSharesNode(node: string, first: string, second: string, name: string)
    requires node != "" && name != "" && first != second
    ensures var groups := [Group(first, "", [node]), Group(second, name, [node])];
      Acceptable([node], groups) && !Disjoint(Members(groups))
  {
    var a, b := Group(first, "", [node]), Group(second, name, [node]);
    assert MembersOf(a, 1) == [Member(node, "")] && MembersOf(b, 1) == [Member(node, name)];
    assert [a, b][..1] == [a] && [a][..0] == [];
    assert Members([a]) == [Member(node, "")];
    assert Members([a, b]) == [Member(node, ""), Member(node, name)];
    assert Members([a, b])[0].node == Members([a, b])[1].node;
  }

  lemma {:induction false} MembersHaveGroupNames(groups: seq<Group>)
    ensures forall m :: m in Members(groups) ==> exists g :: g in groups && g.name == m.group && m.node in g.nodeIds
  {
    if groups != [] {
      var front, last := groups[..|groups| - 1], groups[|groups| - 1];
      MembersHaveGroupNames(front);
      MembersOfGroup(last, |last.nodeIds|);
      forall m | m in Members(groups)
        ensures exists g :: g in groups && g.name == m.group && m.node in g.nodeIds
      {
        if m in MembersOf(last, |last.nodeIds|) {
          assert last in groups;
        } else {
          var g :| g in front && g.name == m.group && m.node in g.nodeIds;
          assert g in groups;
        }
      }
    }
  }

  lemma {:induction false} MembersOfGroup(g: Group, n: nat)
    requires n <= |g.nodeIds|
    ensures |MembersOf(g, n)| == n && forall i :: 0 <= i < n ==> MembersOf(g, n)[i] == Member(g.nodeIds[i], g.name)
  {
    if n > 0 {
      MembersOfGroup(g, n - 1);
    }
  }

  lemma {:induction false} MembersPrefix(groups: seq<Group>, n: nat)
    requires n <= |groups|
    ensures Members(groups[..n]) <= Members(groups)
  {
    if n == |groups| {
      assert groups[..n] == groups;
    } else {
      assert groups[..|groups| - 1][..n] == groups[..n];
      MembersPrefix(groups[..|groups| - 1], n);
    }
  }

  // ---- The check ----

  /** `nodeToGroup` holds for each node met the name of the group that listed it last. */
  ghost predicate Recorded(nodeToGroup: map<string, string>, seen: seq<Member>) {
    && (forall i :: 0 <= i < |seen| ==> seen[i].node in nodeToGroup)
    && (forall k :: k in nodeToGroup ==>
          exists i :: 0 <= i < |seen| && seen[i] == Member(k, nodeToGroup[k]) && LastMention(seen, i))
  }

  ghost predicate LastMention(seen: seq<Member>, i: nat) {
    i < |seen| && forall j :: i < j < |seen| ==> seen[j].node != seen[i].node
  }

  lemma RecordNext(nodeToGroup: map<string, string>, seen: seq<Member>, m: Member)
    requires Recorded(nodeToGroup, seen)
    ensures Recorded(nodeToGroup[m.node := m.group], seen + [m])
    ensures NoRepeat(seen) && (m.node !in nodeToGroup || nodeToGroup[m.node] == "") ==> NoRepeat(seen + [m])
    ensures m.node in nodeToGroup ==> Repeats(seen + [m], m.node, nodeToGroup[m.node], m.group)
  {
    var all, next := seen + [m], nodeToGroup[m.node := m.group];
    forall k | k in next
      ensures exists i :: 0 <= i < |all| && all[i] == Member(k, next[k]) && LastMention(all, i)
    {
      if k == m.node {
        assert all[|seen|] == m && LastMention(all, |seen|);
      } else {
        var i :| 0 <= i < |seen| && seen[i] == Member(k, nodeToGroup[k]) && LastMention(seen, i);
        assert all[i] == seen[i] && LastMention(all, i);
      }
    }
    if m.node in nodeToGroup {
      var i :| 0 <= i < |seen| && seen[i] == Member(m.node, nodeToGroup[m.node]) && LastMention(seen, i);
      assert all[i] == seen[i] && all[|seen|] == m;
      if NoRepeat(seen) && nodeToGroup[m.node] == "" {
        forall x, y | 0 <= x < y < |all| && all[x].node == all[y].node
          ensures all[x].group == ""
        {
          if y == |seen| && x != i {
            assert x < i ==> seen[x].node == seen[i].node;
          }
        }
      }
    }
  }

  /** The memberships met so far are faultless and recorded. */
  ghost predicate Faultless(nodes: seq<string>, nodeToGroup: map<string, string>, seen: seq<Member>) {
    Known(nodes, seen) && NoRepeat(seen) && Recorded(nodeToGroup, seen)
  }

  /** One more member: without fault it is recorded; a fault stays a fault of the full list. */
  lemma MemberNext(nodes: seq<string>, nodeToGroup: map<string, string>, groups: seq<Group>, seen: seq<Member>,
                   m: Member)
    requires Faultless(nodes, nodeToGroup, seen) && seen + [m] <= Members(groups)
    ensures m in Members(groups)
    ensures m.node in nodes && m.node != "" && (m.node !in nodeToGroup || nodeToGroup[m.node] == "") ==>
      Faultless(nodes, nodeToGroup[m.node := m.group], seen + [m])
    ensures m.node in nodeToGroup ==> Repeats(Members(groups), m.node, nodeToGroup[m.node], m.group)
  {
    RecordNext(nodeToGroup, seen, m);
    assert m in seen + [m];
    if m.node in nodeToGroup {
      RepeatsGrow(seen + [m], Members(groups), m.node, nodeToGroup[m.node], m.group);
    }
  }

  lemma RepeatsGrow(seen: seq<Member>, all: seq<Member>, node: string, first: string, second: string)
    requires seen <= all && Repeats(seen, node, first, second)
    ensures Repeats(all, node, first, second)
  {
    var i, j :| 0 <= i < j < |seen| && seen[i] == Member(node, first) && seen[j] == Member(node, second);
    assert all[i] == seen[i] && all[j] == seen[j];
  }

  /** The memberships before and up to member `m` of group `n` are a beginning of all memberships. */
  lemma SeenPrefix(groups: seq<Group>, n: nat, m: nat)
    requires n < |groups| && m <= |groups[n].nodeIds|
    ensures Members(groups[..n]) + MembersOf(groups[n], m) <= Members(groups)
  {
    MembersPrefix(groups, n + 1);
    assert groups[..n + 1][..n] == groups[..n];
    MembersOfGroup(groups[n], m);
    MembersOfGroup(groups[n], |groups[n].nodeIds|);
    assert MembersOf(groups[n], m) <= MembersOf(groups[n], |groups[n].nodeIds|);
  }

  /** The memberships met before member `m` of group `n`. */
  function SeenBefore(groups: seq<Group>, n: nat, m: nat): seq<Member>
    requires n < |groups| && m <= |groups[n].nodeIds|
  {
    Members(groups[..n]) + MembersOf(groups[n], m)
  }

  lemma MembersStart(groups: seq<Group>, n: nat)
    requires n < |groups|
    ensures SeenBefore(groups, n, 0) == Members(groups[..n])
  {
  }

  lemma SeenNext(groups: seq<Group>, n: nat, m: nat)
    requires n < |groups| && m < |groups[n].nodeIds|
    ensures SeenBefore(groups, n, m + 1) == SeenBefore(groups, n, m) + [Member(groups[n].nodeIds[m], groups[n].name)]
    ensures SeenBefore(groups, n, m + 1) <= Members(groups)
  {
    SeenPrefix(groups, n, m + 1);
  }

  /** `ids` and `names` are those of the first `n` groups. */
  ghost predicate HeadersSeen(groups: seq<Group>, n: nat, ids: set<string>, names: set<string>)
    requires n <= |groups|
  {
    && (forall x :: x in ids <==> exists j :: 0 <= j < n && groups[j].id == x)
    && (forall x :: x in names <==> exists j :: 0 <= j < n && groups[j].name == x)
  }

  lemma HeaderNext(groups: seq<Group>, n: nat, ids: set<string>, names: set<string>)
    requires n < |groups| && HeadersSeen(groups, n, ids, names)
    ensures HeadersSeen(groups, n + 1, ids + {groups[n].id}, names + {groups[n].name})
  {
  }

  lemma GroupNext(groups: seq<Group>, n: nat, ids: set<string>, names: set<string>)
    requires n < |groups| && HeadersSeen(groups, n, ids, names)
    requires DistinctGroups(groups[..n]) && Populated(groups[..n])
    requires groups[n].id !in ids && groups[n].name !in names && groups[n].nodeIds != []
    ensures DistinctGroups(groups[..n + 1]) && Populated(groups[..n + 1])
    ensures Members(groups[..n + 1]) == Members(groups[..n]) + MembersOf(groups[n], |groups[n].nodeIds|)
  {
    var next := groups[..n + 1];
    assert next == groups[..n] + [groups[n]] && next[..n] == groups[..n];
    forall i, j | 0 <= i < j < |next|
      ensures next[i].id != next[j].id && next[i].name != next[j].name
    {
      if j < n {
        assert groups[..n][i] == next[i] && groups[..n][j] == next[j];
      } else {
        assert groups[i].id in ids && groups[i].name in names;
      }
    }
  }

  /** Checks id, name and size of group `i`. */
  method ValidateHeader(groups: seq<Group>, i: nat, seenGroupIds: set<string>, seenGroupNames: set<string>)
    returns (error: Option<GroupError>)
    requires i < |groups| && HeadersSeen(groups, i, seenGroupIds, seenGroupNames)
    ensures var group := groups[i];
      error.None? <==> group.id !in seenGroupIds && group.name !in seenGroupNames && group.nodeIds != []
    ensures error.Some? ==> Truthful([], groups, error.value) && !error.value.UnknownNode?
  {
    var group := groups[i];
    if group.id in seenGroupIds {
      return Some(DuplicateId(group.id));
    }
    if group.name in seenGroupNames {
      return Some(DuplicateName(group.name));
    }
    if |group.nodeIds| == 0 {
      return Some(NoMembers(group.name));
    }
    return None;
  }

  /** Accepts exactly the acceptable groups; any error it reports is a fault the groups have. */
  method ValidateWorkflowNodeGroups(nodes: seq<string>, groups: seq<Group>) returns (error: Option<GroupError>)
    ensures error.None? <==> Acceptable(nodes, groups)
    ensures error.Some? ==> Truthful(nodes, groups, error.value)
  {
    if |groups| == 0 {
      return None;
    }
    var nodeIds := set n | n in nodes && n != "";
    var seenGroupIds: set<string> := {};
    var seenGroupNames: set<string> := {};
    var nodeToGroup: map<string, string> := map[];
    for i := 0 to |groups|
      invariant HeadersSeen(groups, i, seenGroupIds, seenGroupNames)
      invariant DistinctGroups(groups[..i]) && Populated(groups[..i])
      invariant Faultless(nodes, nodeToGroup, Members(groups[..i]))
    {
      error := ValidateHeader(groups, i, seenGroupIds, seenGroupNames);
      if error.Some? {
        TruthfulIsFault(nodes, groups, error.value);
        return;
      }
      GroupNext(groups, i, seenGroupIds, seenGroupNames);
      HeaderNext(groups, i, seenGroupIds, seenGroupNames);
      seenGroupIds := seenGroupIds + {groups[i].id};
      seenGroupNames := seenGroupNames + {groups[i].name};
      error, nodeToGroup := ValidateMembers(nodes, nodeIds, groups, i, nodeToGroup);
      if error.Some? {
        TruthfulIsFault(nodes, groups, error.value);
        return;
      }
    }
    assert groups[..|groups|] == groups;
    return None;
  }

  /** The inner loop over the members of group `i`. */
  method ValidateMembers(nodes: seq<string>, nodeIds: set<string>, groups: seq<Group>, i: nat,
                         recorded: map<string, string>)
    returns (error: Option<GroupError>, nodeToGroup: map<string, string>)
    requires i < |groups| && nodeIds == set n | n in nodes && n != ""
    requires Faultless(nodes, recorded, Members(groups[..i]))
    ensures error.Some? ==> Truthful(nodes, groups, error.value)
    ensures error.None? ==> Faultless(nodes, nodeToGroup, SeenBefore(groups, i, |groups[i].nodeIds|))
  {
    var group := groups[i];
    nodeToGroup := recorded;
    MembersStart(groups, i);
    for m := 0 to |group.nodeIds|
      invariant Faultless(nodes, nodeToGroup, SeenBefore(groups, i, m))
    {
      var nodeId := group.nodeIds[m];
      SeenNext(groups, i, m);
      MemberNext(nodes, nodeToGroup, groups, SeenBefore(groups, i, m), Member(nodeId, group.name));
      if nodeId !in nodeIds {
        return Some(UnknownNode(group.name, nodeId)), nodeToGroup;
      }
      if nodeId in nodeToGroup && nodeToGroup[nodeId] != "" {
        return Some(InTwoGroups(nodeId, nodeToGroup[nodeId], group.name)), nodeToGroup;
      }
      nodeToGroup := nodeToGroup[nodeId := group.name];
    }
    return None, nodeToGroup;
  }
}
