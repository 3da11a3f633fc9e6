/**
 * The missing-role rule: a member of a multipolygon relation whose role is
 * absent, empty or only whitespace is reported, from the member way's side
 * (through its parent relations) and from the relation's side (through its
 * indexed members). Each issue offers to set the role to `inner` or `outer`
 * or to remove the member.
 */
module MissingRole {
  import opened Wrappers
  import opened OsmGraph
  import opened Validation

  const IssueType := "missing_role"

  // ---------------------------------------------------------------------
  // Roles

  /** The characters `String.prototype.trim` removes: ECMAScript white space and line terminators. */
  predicate IsWhitespace(c: char)
  {
    var n := c as int;
    || (0x09 <= n <= 0x0D) || n == 0x20 || n == 0xA0 || n == 0x1680
    || (0x2000 <= n <= 0x200A) || n == 0x2028 || n == 0x2029 || n == 0x202F
    || n == 0x205F || n == 0x3000 || n == 0xFEFF
  }

  /** Drops leading white space: what remains is a suffix that starts with a visible character. */
  function TrimStart(s: string): (r: string)
    ensures |r| <= |s| && r == s[|s| - |r|..]
    ensures forall i :: 0 <= i < |s| - |r| ==> IsWhitespace(s[i])
    ensures r != [] ==> !IsWhitespace(r[0])
  {
    if s != [] && IsWhitespace(s[0]) then TrimStart(s[1..]) else s
  }

  /** Drops trailing white space: what remains is a prefix that ends with a visible character. */
  function TrimEnd(s: string): (r: string)
    ensures |r| <= |s| && r == s[..|r|]
    ensures forall i :: |r| <= i < |s| ==> IsWhitespace(s[i])
    ensures r != [] ==> !IsWhitespace(r[|r| - 1])
  {
    if s != [] && IsWhitespace(s[|s| - 1]) then TrimEnd(s[..|s| - 1]) else s
  }

  /** `s.trim()`: empty exactly when `s` is white space throughout. */
  function Trim(s: string): (r: string)
    ensures r == [] <==> forall i :: 0 <= i < |s| ==> IsWhitespace(s[i])
    ensures r != [] ==> !IsWhitespace(r[0]) && !IsWhitespace(r[|r| - 1])
  {
    var t := TrimStart(s);
    assert t != [] ==> t[0] == s[|s| - |t|];
    TrimEnd(t)
  }

  /** `!member.role || !member.role.trim().length`. */
  predicate IsMissingRole(role: Option<string>)
  {
    role.None? || role.value == "" || |Trim(role.value)| == 0
  }

  /** A role is missing iff it is absent or consists of white space only (the empty role included). */
  lemma MissingRoleIffBlank(role: Option<string>)
    ensures IsMissingRole(role) <==>
      role.None? || forall i :: 0 <= i < |role.value| ==> IsWhitespace(role.value[i])
  {
  }

  // ---------------------------------------------------------------------
  // The hash: the member index in decimal

  function DigitChar(d: nat): (c: char)
    requires d < 10
    ensures '0' <= c <= '9' && c as int - '0' as int == d
  {
    ('0' as int + d) as char
  }

  /** `index.toString()` for a non-negative integer. */
  function NatToString(n: nat): (r: string)
    ensures |r| > 0
    ensures forall i :: 0 <= i < |r| ==> '0' <= r[i] <= '9'
    decreases n
  {
    if n < 10 then [DigitChar(n)] else NatToString(n / 10) + [DigitChar(n % 10)]
  }

  /** Reads a string of decimal digits back as a number. */
  function ParseDecimal(s: string): nat
    requires forall i :: 0 <= i < |s| ==> '0' <= s[i] <= '9'
  {
    if s == [] then 0
    else ParseDecimal(s[..|s| - 1]) * 10 + (s[|s| - 1] as int - '0' as int)
  }

  lemma {:induction false} ParseNatToString(n: nat)
    ensures ParseDecimal(NatToString(n)) == n
    decreases n
  {
    if n >= 10 {
      var s := NatToString(n);
      assert s[..|s| - 1] == NatToString(n / 10);
      ParseNatToString(n / 10);
    }
  }

  /** Different member positions give different hashes. */
  lemma HashInjective(a: nat, b: nat)
    ensures NatToString(a) == NatToString(b) ==> a == b
  {
    ParseNatToString(a);
    ParseNatToString(b);
  }

  // ---------------------------------------------------------------------
  // The issue and its fixes

  /** The set-role fix: replace the member at its position with the same entity and type, role `role`. */
  function AddRoleFix(role: string, relationId: Id, wayId: Id, im: IndexedMember): Fix
  {
    Fix(None, SetAsTitle(role), None,
        ChangeMember(relationId, im.index, Member(wayId, im.member.memberType, Some(role))))
  }

  function RemoveFromRelationFix(relationId: Id, im: IndexedMember): Fix
  {
    Fix(Some(OperationDelete), RemoveFromRelationTitle, None, DeleteMember(relationId, im.index))
  }

  function MakeIssue(relationId: Id, wayId: Id, im: IndexedMember): Issue
  {
    Issue(IssueType, Warning, MissingRoleMessage, None, MissingRoleReference,
          [relationId, wayId], Some(im), Some(NatToString(im.index)),
          [AddRoleFix("inner", relationId, wayId, im),
           AddRoleFix("outer", relationId, wayId, im),
           RemoveFromRelationFix(relationId, im)])
  }

  /** What a set-role fix's click handler does, read from the issue it belongs to. */
  function ClickAddRole(issue: Issue, role: string): FixAction
    requires |issue.entityIds| == 2 && issue.data.Some?
  {
    var oldMember := issue.data.value;
    ChangeMember(issue.entityIds[0], oldMember.index,
                 Member(issue.entityIds[1], oldMember.member.memberType, Some(role)))
  }

  /** What the remove fix's click handler does, read from the issue it belongs to. */
  function ClickRemove(issue: Issue): FixAction
    requires |issue.entityIds| == 2 && issue.data.Some?
  {
    DeleteMember(issue.entityIds[0], issue.data.value.index)
  }

  /**
   * Every issue is a `missing_role` warning about `[relation, member]`
   * whose hash is the member position, and whose three fixes (inner, outer,
   * remove, in that order) do what their click handlers would do when read
   * from the issue's own entity list and data.
   */
  lemma WellFormedIssue(relationId: Id, wayId: Id, im: IndexedMember)
    ensures var issue := MakeIssue(relationId, wayId, im);
      && issue.issueType == IssueType && issue.severity == Warning
      && issue.entityIds == [relationId, wayId]
      && issue.data == Some(im)
      && issue.hash.Some? && ParseDecimal(issue.hash.value) == im.index
      && |issue.fixes| == 3
      && issue.fixes[0].title == SetAsTitle("inner") && issue.fixes[0].action == ClickAddRole(issue, "inner")
      && issue.fixes[1].title == SetAsTitle("outer") && issue.fixes[1].action == ClickAddRole(issue, "outer")
      && issue.fixes[2].title == RemoveFromRelationTitle && issue.fixes[2].action == ClickRemove(issue)
      && issue.fixes[2].icon == Some(OperationDelete)
  {
    ParseNatToString(im.index);
  }

  // ---------------------------------------------------------------------
  // From the way's side

  /** Relation `rid` is a multipolygon whose first entry for the way has a missing role. */
  predicate WayQualifies(g: Graph, wayId: Id, rid: Id)
    requires rid in g.entities
  {
    var relation := g.entities[rid];
    && IsMultipolygon(relation)
    && MemberById(relation.members, wayId).Some?
    && IsMissingRole(MemberById(relation.members, wayId).value.member.role)
  }

  function WayIssue(g: Graph, wayId: Id, rid: Id): Issue
    requires rid in g.entities && WayQualifies(g, wayId, rid)
  {
    MakeIssue(rid, wayId, MemberById(g.entities[rid].members, wayId).value)
  }

  /**
   * The issues for a way: one per qualifying parent relation, about that
   * relation, and nothing else.
   */
  ghost predicate IsWayIssueList(g: Graph, wayId: Id, issues: seq<Issue>)
  {
    && (forall i :: 0 <= i < |issues| ==>
          && |issues[i].entityIds| == 2
          && issues[i].entityIds[0] in g.ParentRelations(wayId)
          && WayQualifies(g, wayId, issues[i].entityIds[0])
          && issues[i] == WayIssue(g, wayId, issues[i].entityIds[0]))
    && (forall rid :: rid in g.ParentRelations(wayId) && WayQualifies(g, wayId, rid) ==>
          WayIssue(g, wayId, rid) in issues)
    && (forall i, j :: 0 <= i < j < |issues| && |issues[i].entityIds| > 0 && |issues[j].entityIds| > 0 ==>
          issues[i].entityIds[0] != issues[j].entityIds[0])
  }

  // ---------------------------------------------------------------------
  // From the relation's side

  /** A member whose entity is in the graph and whose role is missing. */
  predicate MemberQualifies(g: Graph, im: IndexedMember)
  {
    im.member.id in g.entities && IsMissingRole(im.member.role)
  }

  /** The issues for the indexed members `ims` of relation `relationId`, in member order. */
  function RelationIssues(g: Graph, relationId: Id, ims: seq<IndexedMember>): (r: seq<Issue>)
    ensures forall k :: 0 <= k < |r| ==>
      exists j :: 0 <= j < |ims| && MemberQualifies(g, ims[j]) &&
        r[k] == MakeIssue(relationId, g.entities[ims[j].member.id].id, ims[j])
    ensures forall j :: 0 <= j < |ims| && MemberQualifies(g, ims[j]) ==>
      MakeIssue(relationId, g.entities[ims[j].member.id].id, ims[j]) in r
  {
    if ims == [] then []
    else
      var last := ims[|ims| - 1];
      var front := RelationIssues(g, relationId, ims[..|ims| - 1]);
      if MemberQualifies(g, last) then front + [MakeIssue(relationId, g.entities[last.member.id].id, last)]
      else front
  }

  /** Each issue's hash is its member's position in decimal. */
  lemma IssueHashIsIndex(g: Graph, relationId: Id, ims: seq<IndexedMember>, k: nat)
    requires k < |RelationIssues(g, relationId, ims)|
    ensures var r := RelationIssues(g, relationId, ims);
      && r[k].data.Some? && r[k].data.value in ims && MemberQualifies(g, r[k].data.value)
      && r[k].hash == Some(NatToString(r[k].data.value.index))
  {
    var r := RelationIssues(g, relationId, ims);
    var j :| 0 <= j < |ims| && MemberQualifies(g, ims[j]) &&
      r[k] == MakeIssue(relationId, g.entities[ims[j].member.id].id, ims[j]);
  }

  /** Issues come in increasing member position when the members do. */
  lemma {:induction false} IndicesIncrease(g: Graph, relationId: Id, ims: seq<IndexedMember>)
    requires forall a, b :: 0 <= a < b < |ims| ==> ims[a].index < ims[b].index
    ensures var r := RelationIssues(g, relationId, ims);
      forall a, b :: 0 <= a < b < |r| ==>
        r[a].data.Some? && r[b].data.Some? && r[a].data.value.index < r[b].data.value.index
    decreases |ims|
  {
    if ims != [] {
      var front := ims[..|ims| - 1];
      var last := ims[|ims| - 1];
      IndicesIncrease(g, relationId, front);
      var rf := RelationIssues(g, relationId, front);
      forall k | 0 <= k < |rf|
        ensures rf[k].data.Some? && rf[k].data.value.index < last.index
      {
        IssueHashIsIndex(g, relationId, front, k);
      }
    }
  }

  /** Issues about the members of one relation carry pairwise different hashes. */
  lemma RelationIssueHashesDistinct(g: Graph, relationId: Id, members: seq<Member>)
    ensures var r := RelationIssues(g, relationId, IndexedMembers(members));
      forall a, b :: 0 <= a < b < |r| ==> r[a].hash != r[b].hash
  {
    var ims := IndexedMembers(members);
    IndicesIncrease(g, relationId, ims);
    var r := RelationIssues(g, relationId, ims);
    forall a, b | 0 <= a < b < |r|
      ensures r[a].hash != r[b].hash
    {
      IssueHashIsIndex(g, relationId, ims, a);
      IssueHashIsIndex(g, relationId, ims, b);
      HashInjective(r[a].data.value.index, r[b].data.value.index);
    }
  }

  /** A member that does not qualify has no issue carrying its hash. */
  lemma NoIssueForUnqualifiedMember(g: Graph, relationId: Id, members: seq<Member>, j: nat)
    requires j < |members| && !MemberQualifies(g, IndexedMember(members[j], j))
    ensures var r := RelationIssues(g, relationId, IndexedMembers(members));
      forall k :: 0 <= k < |r| ==> r[k].hash != Some(NatToString(j))
  {
    var ims := IndexedMembers(members);
    var r := RelationIssues(g, relationId, ims);
    forall k | 0 <= k < |r|
      ensures r[k].hash != Some(NatToString(j))
    {
      IssueHashIsIndex(g, relationId, ims, k);
      HashInjective(r[k].data.value.index, j);
    }
  }

  // ---------------------------------------------------------------------
  // The rule

  /** The way's side: each parent relation, in the set's unspecified order. */
  method CheckFromWay(g: Graph, e: Entity) returns (issues: seq<Issue>)
    requires e.Way?
    ensures IsWayIssueList(g, e.id, issues)
  {
    issues := [];
    var remaining := g.ParentRelations(e.id);
    ghost var done: set<Id> := {};
    while remaining != {}
      invariant remaining <= g.ParentRelations(e.id)
      invariant done == g.ParentRelations(e.id) - remaining
      invariant forall i :: 0 <= i < |issues| ==>
        && |issues[i].entityIds| == 2
        && issues[i].entityIds[0] in done
        && WayQualifies(g, e.id, issues[i].entityIds[0])
        && issues[i] == WayIssue(g, e.id, issues[i].entityIds[0])
      invariant forall rid :: rid in done && WayQualifies(g, e.id, rid) ==> WayIssue(g, e.id, rid) in issues
      invariant forall i, j :: 0 <= i < j < |issues| ==> issues[i].entityIds[0] != issues[j].entityIds[0]
      decreases remaining
    {
      var rid :| rid in remaining;
      var relation := g.entities[rid];
      if IsMultipolygon(relation) {
        var member := MemberById(relation.members, e.id);
        if member.Some? && IsMissingRole(member.value.member.role) {
          issues := issues + [MakeIssue(rid, e.id, member.value)];
        }
      }
      remaining := remaining - {rid};
      done := done + {rid};
    }
  }

  /** The relation's side: each indexed member, in member order. */
  method CheckFromRelation(g: Graph, e: Entity) returns (issues: seq<Issue>)
    requires e.Relation?
    ensures issues == RelationIssues(g, e.id, IndexedMembers(e.members))
  {
    issues := [];
    var ims := IndexedMembers(e.members);
    var i := 0;
    while i < |ims|
      invariant 0 <= i <= |ims|
      invariant issues == RelationIssues(g, e.id, ims[..i])
    {
      var m := ims[i];
      if m.member.id in g.entities && IsMissingRole(m.member.role) {
        issues := issues + [MakeIssue(e.id, g.entities[m.member.id].id, m)];
      }
      assert ims[..i + 1][..i] == ims[..i];
      i := i + 1;
    }
    assert ims[..i] == ims;
  }

  /**
   * The rule for one entity: a way is checked against each parent
   * multipolygon, a multipolygon against each of its members, anything else
   * yields nothing.
   */
  method CheckMissingRole(g: Graph, e: Entity) returns (issues: seq<Issue>)
    ensures e.Node? ==> issues == []
    ensures e.Relation? && !IsMultipolygon(e) ==> issues == []
    ensures e.Relation? && IsMultipolygon(e) ==> issues == RelationIssues(g, e.id, IndexedMembers(e.members))
    ensures e.Way? ==> IsWayIssueList(g, e.id, issues)
  {
    if e.Way? {
      issues := CheckFromWay(g, e);
    } else if e.Relation? && IsMultipolygon(e) {
      issues := CheckFromRelation(g, e);
    } else {
      issues := [];
    }
  }

  // ---------------------------------------------------------------------
  // Properties

  /**
   * Checking a way and checking its multipolygon agree: when the way's
   * first entry in the relation lacks a role, the way's issue for that
   * relation is exactly the relation's issue for that entry.
   */
  lemma BothSidesAgree(g: Graph, rid: Id, wayId: Id, j: nat)
    requires g.Valid() && rid in g.entities && wayId in g.entities
    requires IsMultipolygon(g.entities[rid])
    requires var members := g.entities[rid].members;
      && j < |members| && members[j].id == wayId && IsMissingRole(members[j].role)
      && forall k :: 0 <= k < j ==> members[k].id != wayId
    ensures rid in g.ParentRelations(wayId) && WayQualifies(g, wayId, rid)
    ensures var ims := IndexedMembers(g.entities[rid].members);
      && WayIssue(g, wayId, rid) in RelationIssues(g, rid, ims)
      && WayIssue(g, wayId, rid).entityIds == [rid, wayId]
      && WayIssue(g, wayId, rid).hash == Some(NatToString(j))
  {
    var members := g.entities[rid].members;
    var ims := IndexedMembers(members);
    assert MemberQualifies(g, ims[j]);
    assert g.entities[wayId].id == wayId;
  }

  /**
   * The two sides can disagree: when a way is listed twice and only its
   * second entry lacks a role, the relation reports that entry while the
   * way's check, which only looks at the first entry, reports nothing.
   */
  lemma DuplicateEntryReportedOnlyByRelation(g: Graph, rid: Id, wayId: Id)
    requires g.Valid() && rid in g.entities && wayId in g.entities
    requires IsMultipolygon(g.entities[rid])
    requires var members := g.entities[rid].members;
      && |members| == 2 && members[0].id == wayId && members[1].id == wayId
      && members[0].role == Some("outer") && members[1].role == None
    ensures !WayQualifies(g, wayId, rid)
    ensures var ims := IndexedMembers(g.entities[rid].members);
      MakeIssue(rid, wayId, IndexedMember(g.entities[rid].members[1], 1)) in RelationIssues(g, rid, ims)
  {
    var members := g.entities[rid].members;
    var ims := IndexedMembers(members);
    assert MemberQualifies(g, ims[1]);
    assert g.entities[wayId].id == wayId;
    assert Trim("outer") != [] by {
      assert !IsWhitespace("outer"[0]);
    }
  }

  /** Replaces member `index` of relation `rid`: the effect of the change-member edit. */
  function ChangeMemberEdit(g: Graph, rid: Id, index: nat, m: Member): (r: Graph)
    requires rid in g.entities && g.entities[rid].Relation? && index < |g.entities[rid].members|
    ensures r.entities.Keys == g.entities.Keys
    ensures forall id :: id in g.entities && id != rid ==> r.entities[id] == g.entities[id]
    ensures r.entities[rid].Relation?
    ensures r.entities[rid].members == ReplaceMember(g.entities[rid].members, index, m)
    ensures r.entities[rid].id == g.entities[rid].id && r.entities[rid].tags == g.entities[rid].tags
    ensures IsMultipolygon(r.entities[rid]) == IsMultipolygon(g.entities[rid])
    ensures g.Valid() ==> r.Valid()
  {
    var relation := g.entities[rid];
    Graph(g.entities[rid := relation.(members := ReplaceMember(relation.members, index, m))])
  }

  /**
   * Applying a set-role fix resolves its issue: afterwards the relation
   * reports no issue with that member's hash.
   */
  lemma SetRoleFixResolvesIssue(g: Graph, rid: Id, j: nat, role: string)
    requires g.Valid() && rid in g.entities && IsMultipolygon(g.entities[rid])
    requires j < |g.entities[rid].members|
    requires role == "inner" || role == "outer"
    ensures var prev := g.entities[rid].members[j];
      var g' := ChangeMemberEdit(g, rid, j, Member(prev.id, prev.memberType, Some(role)));
      var r := RelationIssues(g', rid, IndexedMembers(g'.entities[rid].members));
      forall k :: 0 <= k < |r| ==> r[k].hash != Some(NatToString(j))
  {
    var prev := g.entities[rid].members[j];
    var g' := ChangeMemberEdit(g, rid, j, Member(prev.id, prev.memberType, Some(role)));
    assert !IsMissingRole(Some(role)) by {
      assert !IsWhitespace(role[0]);
    }
    NoIssueForUnqualifiedMember(g', rid, g'.entities[rid].members, j);
  }
}
