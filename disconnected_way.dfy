/**
 * The disconnected-way rule: a routable highway is reported when every one of
 * its vertices is disconnected, when every way member of a highway
 * multipolygon is, or when a newly drawn road cannot reach an existing road
 * or an entrance through ways that share nodes.
 */
module DisconnectedWay {
  import opened Wrappers
  import opened OsmGraph
  import opened Validation

  const IssueType := "disconnected_way"

  /** The OSM data service: whether the tile holding a location has been downloaded. */
  datatype Connection = Connection(isDataLoaded: Loc -> bool)

  /**
   * What the rule reads: the graph snapshot, the data service (absent when
   * there is none) and the set of routable highway tag values.
   */
  datatype Context = Context(graph: Graph, connection: Option<Connection>, routable: set<string>)

  predicate IsTaggedAsHighway(routable: set<string>, e: Entity)
  {
    "highway" in e.tags && e.tags["highway"] in routable
  }

  /** Identities of ways drawn in this session start with `w-`. */
  predicate IsNewRoad(id: Id)
  {
    |id| >= 2 && id[0] == 'w' && id[1] == '-'
  }

  /** An `entrance` tag that is present, not empty and not `no`. */
  predicate IsEntrance(tags: Tags)
  {
    "entrance" in tags && tags["entrance"] != "" && tags["entrance"] != "no"
  }

  predicate IsLoaded(ctx: Context, v: Entity)
    requires v.Node?
  {
    ctx.connection.None? || ctx.connection.value.isDataLoaded(v.loc)
  }

  // ---------------------------------------------------------------------
  // The vertex test

  /** A parent relation that connects its member ways: a ferry route or a highway multipolygon. */
  predicate RelationConnects(ctx: Context, rid: Id, ignore: Option<Id>)
    requires rid in ctx.graph.entities
  {
    var r := ctx.graph.entities[rid];
    && ignore != Some(rid)
    && ((HasTag(r.tags, "type", "route") && HasTag(r.tags, "route", "ferry")) ||
        (IsMultipolygon(r) && IsTaggedAsHighway(ctx.routable, r)))
  }

  /** A parent way other than the tested way that counts as a connection. */
  predicate ParentWayConnects(ctx: Context, wayId: Id, pid: Id, ignore: Option<Id>)
    requires pid in ctx.graph.entities
  {
    var p := ctx.graph.entities[pid];
    && pid != wayId
    && (HasTag(p.tags, "route", "ferry") ||
        IsTaggedAsHighway(ctx.routable, p) ||
        exists rid :: rid in ctx.graph.ParentRelations(pid) && RelationConnects(ctx, rid, ignore))
  }

  /**
   * Whether vertex `v` of way `wayId` is disconnected, checked in order: an
   * unloaded tile counts as connected, a single parent way as disconnected, an
   * entrance as connected; otherwise some other parent way must connect.
   */
  predicate VertexIsDisconnected(ctx: Context, wayId: Id, v: Entity, ignore: Option<Id>)
    requires v.Node?
  {
    if !IsLoaded(ctx, v) then false
    else
      var parents := ctx.graph.ParentWays(v.id);
      if |parents| == 1 then true
      else if IsEntrance(v.tags) then false
      else !exists pid :: pid in parents && ParentWayConnects(ctx, wayId, pid, ignore)
  }

  /** Every vertex of the way is disconnected; a way without nodes counts as disconnected. */
  predicate IsDisconnectedWay(ctx: Context, e: Entity): (r: bool)
    requires ctx.graph.Valid() && ctx.graph.Contains(e)
    ensures r ==> e.Way?
    ensures e.Way? && e.nodes == [] ==> r
  {
    e.Way? &&
    forall k :: 0 <= k < |Nodes(e)| ==>
      VertexIsDisconnected(ctx, e.id, ctx.graph.entities[Nodes(e)[k]], None)
  }

  /** A member that is not a way, or is absent, counts as disconnected. */
  predicate MemberIsDisconnected(ctx: Context, m: Member, relationId: Id)
    requires ctx.graph.Valid()
  {
    || m.memberType != WayType
    || m.id !in ctx.graph.entities
    || (var w := ctx.graph.entities[m.id];
        forall k :: 0 <= k < |Nodes(w)| ==>
          VertexIsDisconnected(ctx, m.id, ctx.graph.entities[Nodes(w)[k]], Some(relationId)))
  }

  /**
   * Every member of the multipolygon is disconnected, so in particular a
   * multipolygon without way members counts as disconnected.
   */
  predicate IsDisconnectedMultipolygon(ctx: Context, e: Entity): (r: bool)
    requires ctx.graph.Valid()
    ensures r ==> IsMultipolygon(e)
    ensures IsMultipolygon(e) && (forall j :: 0 <= j < |e.members| ==> e.members[j].memberType != WayType) ==> r
  {
    IsMultipolygon(e) &&
    forall j :: 0 <= j < |e.members| ==> MemberIsDisconnected(ctx, e.members[j], e.id)
  }

  // ---------------------------------------------------------------------
  // Reachability of a new road

  /** Way `b` is a parent way of some node of `a`: the two share a node. */
  ghost predicate Adjacent(g: Graph, a: Id, b: Id)
  {
    a in g.entities &&
    exists k :: 0 <= k < |Nodes(g.entities[a])| && b in g.ParentWays(Nodes(g.entities[a])[k])
  }

  ghost predicate IsWalk(g: Graph, p: seq<Id>)
  {
    && |p| > 0
    && (forall i :: 0 <= i < |p| ==> p[i] in g.entities)
    && (forall i :: 0 <= i < |p| - 1 ==> Adjacent(g, p[i], p[i + 1]))
  }

  /** `b` can be reached from `a` through ways that share nodes (in zero or more steps). */
  ghost predicate Reaches(g: Graph, a: Id, b: Id)
  {
    exists p :: IsWalk(g, p) && p[0] == a && p[|p| - 1] == b
  }

  predicate HasEntranceNode(g: Graph, w: Id)
    requires g.Valid() && w in g.entities
  {
    exists k :: 0 <= k < |Nodes(g.entities[w])| && IsEntrance(g.entities[Nodes(g.entities[w])[k]].tags)
  }

  predicate IsExistingHighway(ctx: Context, w: Id)
    requires w in ctx.graph.entities
  {
    IsTaggedAsHighway(ctx.routable, ctx.graph.entities[w]) && !IsNewRoad(w)
  }

  /** Some way reachable from `start` has an entrance node or is an existing routable highway. */
  ghost predicate ConnectsToExistingRoadOrEntrance(ctx: Context, start: Id)
    requires ctx.graph.Valid()
  {
    exists x :: Reaches(ctx.graph, start, x) && x in ctx.graph.entities &&
      (HasEntranceNode(ctx.graph, x) || IsExistingHighway(ctx, x))
  }

  ghost predicate NewRoadUnreachable(ctx: Context, e: Entity)
    requires ctx.graph.Valid()
  {
    IsNewRoad(e.id) && IsTaggedAsHighway(ctx.routable, e) && !ConnectsToExistingRoadOrEntrance(ctx, e.id)
  }

  /** Every parent way of every node of `x` lies in `visited`. */
  ghost predicate NeighboursWithin(g: Graph, x: Id, visited: set<Id>)
    requires x in g.entities
  {
    forall k :: 0 <= k < |Nodes(g.entities[x])| ==> g.ParentWays(Nodes(g.entities[x])[k]) <= visited
  }

  /** Way `x` was expanded without success: no entrance node, all its neighbours visited. */
  ghost predicate Explored(g: Graph, x: Id, visited: set<Id>)
    requires g.Valid() && x in g.entities
  {
    !HasEntranceNode(g, x) && NeighboursWithin(g, x, visited)
  }

  lemma ReachesRefl(g: Graph, a: Id)
    requires a in g.entities
    ensures Reaches(g, a, a)
  {
    assert IsWalk(g, [a]);
  }

  lemma ReachesPrepend(g: Graph, a: Id, b: Id, c: Id)
    requires Adjacent(g, a, b) && Reaches(g, b, c)
    ensures Reaches(g, a, c)
  {
    var p :| IsWalk(g, p) && p[0] == b && p[|p| - 1] == c;
    var q := [a] + p;
    forall i | 0 <= i < |q| - 1
      ensures Adjacent(g, q[i], q[i + 1])
    {
      if i > 0 {
        assert q[i] == p[i - 1] && q[i + 1] == p[i];
      }
    }
    assert IsWalk(g, q);
  }

  /** A set of ways closed under sharing nodes holds everything reachable from its members. */
  lemma {:induction false} ClosedSetContainsReachable(g: Graph, visited: set<Id>, a: Id, b: Id)
    requires a in visited
    requires forall x :: x in visited ==> x in g.entities && NeighboursWithin(g, x, visited)
    requires Reaches(g, a, b)
    ensures b in visited
  {
    var p :| IsWalk(g, p) && p[0] == a && p[|p| - 1] == b;
    var i := 0;
    while i < |p| - 1
      invariant 0 <= i < |p|
      invariant p[i] in visited
    {
      assert Adjacent(g, p[i], p[i + 1]);
      i := i + 1;
    }
  }

  lemma ExploredMonotone(g: Graph, x: Id, v1: set<Id>, v2: set<Id>)
    requires g.Valid() && x in g.entities
    requires Explored(g, x, v1) && v1 <= v2
    ensures Explored(g, x, v2)
  {
  }

  /**
   * Depth-first search from way `wayId`. The visited set is threaded through
   * the calls: the set a call returns is the caller's set from then on.
   * Success means a way reached through shared nodes has an entrance node or
   * is an existing (not `w-`) routable highway found as a neighbour; failure
   * means every way this call visited was fully expanded.
   */
  method ConnectToExistingRoadOrEntrance(ctx: Context, wayId: Id, visited: set<Id>)
    returns (found: bool, visitedOut: set<Id>)
    requires ctx.graph.Valid() && wayId in ctx.graph.entities
    ensures visited + {wayId} <= visitedOut
    ensures found ==>
      exists x :: Reaches(ctx.graph, wayId, x) && x in ctx.graph.entities &&
        (HasEntranceNode(ctx.graph, x) || (x != wayId && x !in visited && IsExistingHighway(ctx, x)))
    ensures !found ==>
      forall x :: x in visitedOut && x !in visited ==>
        x in ctx.graph.entities && Explored(ctx.graph, x, visitedOut) &&
        (x != wayId ==> !IsExistingHighway(ctx, x))
    decreases ctx.graph.entities.Keys - visited - {wayId}
  {
    var g := ctx.graph;
    visitedOut := visited + {wayId};
    var nodes := Nodes(g.entities[wayId]);
    var i := 0;
    while i < |nodes|
      invariant 0 <= i <= |nodes|
      invariant visited + {wayId} <= visitedOut
      invariant forall k :: 0 <= k < i ==>
        !IsEntrance(g.entities[nodes[k]].tags) && g.ParentWays(nodes[k]) <= visitedOut
      invariant forall x :: x in visitedOut && x !in visited && x != wayId ==>
        x in g.entities && Explored(g, x, visitedOut) && !IsExistingHighway(ctx, x)
    {
      var vertex := g.entities[nodes[i]];
      if IsEntrance(vertex.tags) {
        assert HasEntranceNode(g, wayId);
        ReachesRefl(g, wayId);
        return true, visitedOut;
      }
      var parentWays := g.ParentWays(nodes[i]);
      var remaining := parentWays;
      while remaining != {}
        invariant remaining <= parentWays
        invariant parentWays - remaining <= visitedOut
        invariant visited + {wayId} <= visitedOut
        invariant forall k :: 0 <= k < i ==>
          !IsEntrance(g.entities[nodes[k]].tags) && g.ParentWays(nodes[k]) <= visitedOut
        invariant forall x :: x in visitedOut && x !in visited && x != wayId ==>
          x in g.entities && Explored(g, x, visitedOut) && !IsExistingHighway(ctx, x)
        decreases remaining
      {
        var p :| p in remaining;
        remaining := remaining - {p};
        if p in visitedOut {
          continue;
        }
        assert Adjacent(g, wayId, p);
        if IsExistingHighway(ctx, p) {
          ReachesRefl(g, p);
          ReachesPrepend(g, wayId, p, p);
          return true, visitedOut;
        }
        ghost var before := visitedOut;
        var sub;
        sub, visitedOut := ConnectToExistingRoadOrEntrance(ctx, p, visitedOut);
        if sub {
          ghost var x :| Reaches(g, p, x) && x in g.entities &&
            (HasEntranceNode(g, x) || (x != p && x !in before && IsExistingHighway(ctx, x)));
          ReachesPrepend(g, wayId, p, x);
          return true, visitedOut;
        }
        forall x | x in visitedOut && x !in visited && x != wayId
          ensures x in g.entities && Explored(g, x, visitedOut) && !IsExistingHighway(ctx, x)
        {
          if x in before {
            ExploredMonotone(g, x, before, visitedOut);
          }
        }
      }
      i := i + 1;
    }
    return false, visitedOut;
  }

  /** The rule's third test: a new highway that reaches no existing road and no entrance. */
  method IsNewRoadUnreachableFromExistingRoads(ctx: Context, e: Entity) returns (unreachable: bool)
    requires ctx.graph.Valid() && ctx.graph.Contains(e)
    ensures unreachable <==> NewRoadUnreachable(ctx, e)
  {
    if !IsNewRoad(e.id) || !IsTaggedAsHighway(ctx.routable, e) {
      return false;
    }
    var g := ctx.graph;
    var found, visited := ConnectToExistingRoadOrEntrance(ctx, e.id, {});
    if !found {
      forall x | Reaches(g, e.id, x) && x in g.entities
        ensures !HasEntranceNode(g, x) && !IsExistingHighway(ctx, x)
      {
        ClosedSetContainsReachable(g, visited, e.id, x);
      }
    }
    unreachable := !found;
  }

  // ---------------------------------------------------------------------
  // The issue and its fixes

  function ContinueFromStartFix(wayId: Id, vertexId: Id): Fix
  {
    Fix(Some(OperationContinueLeft), ContinueFromStartTitle, Some([vertexId]), ContinueDrawing(wayId, vertexId))
  }

  function ContinueFromEndFix(wayId: Id, vertexId: Id): Fix
  {
    Fix(Some(OperationContinue), ContinueFromEndTitle, Some([vertexId]), ContinueDrawing(wayId, vertexId))
  }

  const ConnectFeatureFix := Fix(None, ConnectFeatureTitle, None, NoAction)

  function DeleteFeatureFix(id: Id): Fix
  {
    Fix(Some(OperationDelete), DeleteFeatureTitle, Some([id]), DeleteEntities([id]))
  }

  /** The position a fix takes in the list: continue from start, from end, connect, delete. */
  function FixRank(f: Fix): nat
  {
    match f.title
    case ContinueFromStartTitle => 0
    case ContinueFromEndTitle => 1
    case ConnectFeatureTitle => 2
    case _ => 3
  }

  predicate NoExit(g: Graph, nodeId: Id)
    requires nodeId in g.entities
  {
    HasTag(g.entities[nodeId].tags, "noexit", "yes")
  }

  /**
   * The fix table: an open way offers continuing from each end not tagged
   * `noexit=yes`; a closed way or a relation offers "connect this feature";
   * the delete fix is offered exactly when deleting is not disabled; and the
   * list holds nothing else, in that order.
   */
  ghost predicate FollowsFixTable(g: Graph, e: Entity, deleteDisabled: bool, fixes: seq<Fix>)
    requires g.Valid() && g.Contains(e) && (e.Way? ==> e.nodes != [])
  {
    && (forall i :: 0 < i < |fixes| ==> FixRank(fixes[i - 1]) < FixRank(fixes[i]))
    && (DeleteFeatureFix(e.id) in fixes <==> !deleteDisabled)
    && if e.Way? && !IsClosed(e) then
         var first, last := Nodes(e)[0], Nodes(e)[|Nodes(e)| - 1];
         && (ContinueFromStartFix(e.id, first) in fixes <==> !NoExit(g, first))
         && (ContinueFromEndFix(e.id, last) in fixes <==> !NoExit(g, last))
         && (forall f :: f in fixes ==>
               f == ContinueFromStartFix(e.id, first) || f == ContinueFromEndFix(e.id, last) ||
               f == DeleteFeatureFix(e.id))
       else
         && ConnectFeatureFix in fixes
         && (forall f :: f in fixes ==> f == ConnectFeatureFix || f == DeleteFeatureFix(e.id))
  }

  /** Up to three fixes of increasing rank, each present or not, form a list in rank order. */
  lemma OptionalFixesInOrder(a: Fix, b: Fix, c: Fix, pa: bool, pb: bool, pc: bool, fixes: seq<Fix>)
    requires FixRank(a) < FixRank(b) < FixRank(c)
    requires fixes == (if pa then [a] else []) + (if pb then [b] else []) + (if pc then [c] else [])
    ensures (a in fixes <==> pa) && (b in fixes <==> pb) && (c in fixes <==> pc)
    ensures forall f :: f in fixes ==> f == a || f == b || f == c
    ensures forall i :: 0 < i < |fixes| ==> FixRank(fixes[i - 1]) < FixRank(fixes[i])
  {
    var sa: seq<Fix> := if pa then [a] else [];
    var sb: seq<Fix> := if pb then [b] else [];
    var sc: seq<Fix> := if pc then [c] else [];
    assert forall f :: f in fixes <==> f in sa || f in sb || f in sc;
  }

  /** An open way's list: continue from start, continue from end, delete, each when offered. */
  lemma OpenWayFixesFollowTable(g: Graph, e: Entity, deleteDisabled: bool, fixes: seq<Fix>)
    requires g.Valid() && g.Contains(e) && e.Way? && e.nodes != [] && !IsClosed(e)
    requires var first, last := Nodes(e)[0], Nodes(e)[|Nodes(e)| - 1];
      fixes == (if NoExit(g, first) then [] else [ContinueFromStartFix(e.id, first)]) +
               (if NoExit(g, last) then [] else [ContinueFromEndFix(e.id, last)]) +
               (if deleteDisabled then [] else [DeleteFeatureFix(e.id)])
    ensures FollowsFixTable(g, e, deleteDisabled, fixes)
  {
    var first, last := Nodes(e)[0], Nodes(e)[|Nodes(e)| - 1];
    OptionalFixesInOrder(ContinueFromStartFix(e.id, first), ContinueFromEndFix(e.id, last),
      DeleteFeatureFix(e.id), !NoExit(g, first), !NoExit(g, last), !deleteDisabled, fixes);
  }

  /** A closed way's or a relation's list: connect, then delete when offered. */
  lemma ClosedFixesFollowTable(g: Graph, e: Entity, deleteDisabled: bool, fixes: seq<Fix>)
    requires g.Valid() && g.Contains(e) && (e.Way? ==> e.nodes != [] && IsClosed(e))
    requires fixes == [ConnectFeatureFix] + (if deleteDisabled then [] else [DeleteFeatureFix(e.id)])
    ensures FollowsFixTable(g, e, deleteDisabled, fixes)
  {
  }

  /** Builds the fix list for a flagged entity, one push at a time. */
  method DisconnectedWayFixes(g: Graph, e: Entity, deleteDisabled: bool) returns (fixes: seq<Fix>)
    requires g.Valid() && g.Contains(e) && (e.Way? ==> e.nodes != [])
    ensures FollowsFixTable(g, e, deleteDisabled, fixes)
  {
    fixes := [];
    if e.Way? && !IsClosed(e) {
      var firstId, lastId := Nodes(e)[0], Nodes(e)[|Nodes(e)| - 1];
      if !NoExit(g, firstId) {
        fixes := fixes + [ContinueFromStartFix(e.id, firstId)];
      }
      if !NoExit(g, lastId) {
        fixes := fixes + [ContinueFromEndFix(e.id, lastId)];
      }
      if !deleteDisabled {
        fixes := fixes + [DeleteFeatureFix(e.id)];
      }
      OpenWayFixesFollowTable(g, e, deleteDisabled, fixes);
    } else {
      fixes := fixes + [ConnectFeatureFix];
      if !deleteDisabled {
        fixes := fixes + [DeleteFeatureFix(e.id)];
      }
      ClosedFixesFollowTable(g, e, deleteDisabled, fixes);
    }
  }

  function MessageKey(id: Id): TextKey
  {
    if IsNewRoad(id) then DisconnectedWayMessageNewRoad else DisconnectedWayMessage
  }

  function TooltipKey(id: Id): TextKey
  {
    if IsNewRoad(id) then DisconnectedWayReferenceNewRoad else DisconnectedWayReference
  }

  /** The entity is a routable highway and one of the three tests holds. */
  ghost predicate IsFlagged(ctx: Context, e: Entity)
    requires ctx.graph.Valid() && ctx.graph.Contains(e)
  {
    IsTaggedAsHighway(ctx.routable, e) &&
    (IsDisconnectedWay(ctx, e) || IsDisconnectedMultipolygon(ctx, e) || NewRoadUnreachable(ctx, e))
  }

  /**
   * The rule: no issue, or exactly one `disconnected_way` warning about the
   * entity whose fixes follow the fix table. `deleteDisabled` is the answer
   * of the delete operation's availability check.
   */
  method CheckDisconnectedWay(ctx: Context, e: Entity, deleteDisabled: bool) returns (issues: seq<Issue>)
    requires ctx.graph.Valid() && ctx.graph.Contains(e)
    requires e.Way? && IsTaggedAsHighway(ctx.routable, e) ==> e.nodes != []
    ensures !IsTaggedAsHighway(ctx.routable, e) ==> issues == []
    ensures issues == [] <==> !IsFlagged(ctx, e)
    ensures |issues| <= 1
    ensures forall issue :: issue in issues ==>
      && issue.issueType == IssueType && issue.severity == Warning
      && issue.entityIds == [e.id]
      && issue.message == MessageKey(e.id) && issue.tooltip == Some(TooltipKey(e.id))
      && issue.reference == DisconnectedWayReference
      && issue.data.None? && issue.hash.None?
      && FollowsFixTable(ctx.graph, e, deleteDisabled, issue.fixes)
  {
    if !IsTaggedAsHighway(ctx.routable, e) {
      return [];
    }
    if !IsDisconnectedWay(ctx, e) && !IsDisconnectedMultipolygon(ctx, e) {
      var unreachable := IsNewRoadUnreachableFromExistingRoads(ctx, e);
      if !unreachable {
        return [];
      }
    }
    var fixes := DisconnectedWayFixes(ctx.graph, e, deleteDisabled);
    var issue := Issue(IssueType, Warning, MessageKey(e.id), Some(TooltipKey(e.id)), DisconnectedWayReference,
                       [e.id], None, None, fixes);
    issues := [issue];
  }

  // ---------------------------------------------------------------------
  // Properties

  lemma TwoMembers(s: set<Id>, a: Id, b: Id)
    requires a in s && b in s && a != b
    ensures |s| >= 2
  {
    assert {a, b} <= s;
    assert |{a, b}| == 2;
    SubsetCardinality({a, b}, s);
  }

  lemma {:induction false} SubsetCardinality(small: set<Id>, big: set<Id>)
    requires small <= big
    ensures |small| <= |big|
    decreases |small|
  {
    if small != {} {
      var x :| x in small;
      SubsetCardinality(small - {x}, big - {x});
    }
  }

  /**
   * A way whose every vertex is loaded and has the way as its only parent is
   * disconnected, whatever the vertices' tags (an entrance included).
   */
  lemma DeadEndVerticesMakeWayDisconnected(ctx: Context, e: Entity)
    requires ctx.graph.Valid() && ctx.graph.Contains(e) && e.Way?
    requires forall k :: 0 <= k < |e.nodes| ==>
      IsLoaded(ctx, ctx.graph.entities[e.nodes[k]]) && ctx.graph.ParentWays(e.nodes[k]) == {e.id}
    ensures IsDisconnectedWay(ctx, e)
  {
  }

  /** A way whose every vertex also lies on another way tagged `route=ferry` is never disconnected. */
  lemma FerryAtEveryVertexKeepsWayConnected(ctx: Context, e: Entity)
    requires ctx.graph.Valid() && ctx.graph.Contains(e) && e.Way? && e.nodes != []
    requires forall k :: 0 <= k < |e.nodes| ==>
      exists pid :: pid in ctx.graph.ParentWays(e.nodes[k]) && pid != e.id &&
        HasTag(ctx.graph.entities[pid].tags, "route", "ferry")
    ensures !IsDisconnectedWay(ctx, e)
  {
    var g := ctx.graph;
    var v := g.entities[e.nodes[0]];
    var pid :| pid in g.ParentWays(e.nodes[0]) && pid != e.id && HasTag(g.entities[pid].tags, "route", "ferry");
    assert v.id == e.nodes[0] && v.Node?;
    assert e.id in g.ParentWays(v.id);
    TwoMembers(g.ParentWays(v.id), e.id, pid);
    assert ParentWayConnects(ctx, e.id, pid, None);
    assert !VertexIsDisconnected(ctx, e.id, v, None);
    assert Nodes(e)[0] == e.nodes[0];
  }

  /** For a way that is not new, a `route=ferry` way at every vertex keeps the rule from flagging it at all. */
  lemma FerryKeepsExistingWayUnflagged(ctx: Context, e: Entity)
    requires ctx.graph.Valid() && ctx.graph.Contains(e) && e.Way? && e.nodes != []
    requires !IsNewRoad(e.id)
    requires forall k :: 0 <= k < |e.nodes| ==>
      exists pid :: pid in ctx.graph.ParentWays(e.nodes[k]) && pid != e.id &&
        HasTag(ctx.graph.entities[pid].tags, "route", "ferry")
    ensures !IsFlagged(ctx, e)
  {
    FerryAtEveryVertexKeepsWayConnected(ctx, e);
  }

  /**
   * The ferry exception lives in the vertex test only: the reachability
   * search counts a ferry as neither an existing road nor an entrance, so a
   * new road whose every vertex is shared with one ferry way `f` (and with
   * nothing else) passes the vertex test and is still flagged as unreachable.
   */
  lemma FerryDoesNotConnectNewRoad(ctx: Context, e: Entity, f: Id)
    requires ctx.graph.Valid() && ctx.graph.Contains(e) && e.Way? && e.nodes != []
    requires IsNewRoad(e.id) && IsTaggedAsHighway(ctx.routable, e)
    requires f in ctx.graph.entities && f != e.id
    requires HasTag(ctx.graph.entities[f].tags, "route", "ferry") && !IsTaggedAsHighway(ctx.routable, ctx.graph.entities[f])
    requires forall k :: 0 <= k < |e.nodes| ==>
      ctx.graph.ParentWays(e.nodes[k]) == {e.id, f} && !IsEntrance(ctx.graph.entities[e.nodes[k]].tags)
    requires NeighboursWithin(ctx.graph, f, {e.id, f}) && !HasEntranceNode(ctx.graph, f)
    ensures !IsDisconnectedWay(ctx, e)
    ensures IsFlagged(ctx, e)
  {
    var g := ctx.graph;
    forall k | 0 <= k < |e.nodes|
      ensures exists pid :: (pid in g.ParentWays(e.nodes[k]) && pid != e.id &&
        HasTag(g.entities[pid].tags, "route", "ferry"))
    {
      assert f in g.ParentWays(e.nodes[k]);
    }
    FerryAtEveryVertexKeepsWayConnected(ctx, e);
    ClosedWayHasNoExit(ctx.graph, e, {e.id, f});
    var component := {e.id, f};
    forall x | x in component
      ensures x in g.entities && NeighboursWithin(g, x, component) &&
        !HasEntranceNode(g, x) && !IsExistingHighway(ctx, x)
    {
      if x == e.id {
        assert !IsExistingHighway(ctx, e.id);
      } else {
        assert x == f;
      }
    }
    ClosedComponentIsUnreachable(ctx, e, component);
  }

  /** A way whose vertices are entrance-free and lie only on ways of `component` is closed within it. */
  lemma ClosedWayHasNoExit(g: Graph, e: Entity, component: set<Id>)
    requires g.Valid() && g.Contains(e) && e.Way?
    requires forall k :: 0 <= k < |e.nodes| ==>
      g.ParentWays(e.nodes[k]) <= component && !IsEntrance(g.entities[e.nodes[k]].tags)
    ensures NeighboursWithin(g, e.id, component) && !HasEntranceNode(g, e.id)
  {
    assert Nodes(g.entities[e.id]) == e.nodes;
  }

  /** With a data service present, a vertex on a tile not downloaded keeps its way from being disconnected. */
  lemma UnloadedVertexKeepsWayConnected(ctx: Context, e: Entity, k: nat)
    requires ctx.graph.Valid() && ctx.graph.Contains(e) && e.Way? && k < |e.nodes|
    requires ctx.connection.Some?
    requires !ctx.connection.value.isDataLoaded(ctx.graph.entities[e.nodes[k]].loc)
    ensures !IsDisconnectedWay(ctx, e)
  {
    assert !VertexIsDisconnected(ctx, e.id, ctx.graph.entities[Nodes(e)[k]], None);
  }

  /**
   * An entrance is connected: a loaded entrance vertex shared by two or more
   * ways is not disconnected, whatever those ways are tagged.
   */
  lemma EntranceConnects(ctx: Context, wayId: Id, v: Entity)
    requires v.Node? && IsLoaded(ctx, v) && |ctx.graph.ParentWays(v.id)| >= 2 && IsEntrance(v.tags)
    ensures !VertexIsDisconnected(ctx, wayId, v, None)
  {
  }

  /**
   * The ignored relation does not connect: two untagged ways sharing a loaded
   * vertex, whose only parent relation is a highway multipolygon, are
   * disconnected when that multipolygon is tested and connected otherwise.
   */
  lemma IgnoredRelationDoesNotConnect(ctx: Context, w1: Id, w2: Id, v: Entity, r: Id)
    requires v.Node? && IsLoaded(ctx, v) && !IsEntrance(v.tags)
    requires ctx.graph.ParentWays(v.id) == {w1, w2} && w1 != w2
    requires !HasTag(ctx.graph.entities[w2].tags, "route", "ferry")
    requires !IsTaggedAsHighway(ctx.routable, ctx.graph.entities[w2])
    requires ctx.graph.ParentRelations(w2) == {r}
    requires IsMultipolygon(ctx.graph.entities[r]) && IsTaggedAsHighway(ctx.routable, ctx.graph.entities[r])
    ensures VertexIsDisconnected(ctx, w1, v, Some(r))
    ensures !VertexIsDisconnected(ctx, w1, v, None)
  {
    assert |ctx.graph.ParentWays(v.id)| == 2;
    assert RelationConnects(ctx, r, None);
    assert ParentWayConnects(ctx, w1, w2, None);
  }

  /**
   * A new highway inside a set of ways that is closed under sharing nodes,
   * holds no entrance node and no existing highway, is unreachable: the
   * search ends on cycles of new roads and reports them.
   */
  lemma {:induction false} ClosedComponentIsUnreachable(ctx: Context, e: Entity, component: set<Id>)
    requires ctx.graph.Valid() && ctx.graph.Contains(e)
    requires IsNewRoad(e.id) && IsTaggedAsHighway(ctx.routable, e)
    requires e.id in component
    requires forall x :: x in component ==>
      x in ctx.graph.entities && NeighboursWithin(ctx.graph, x, component) &&
      !HasEntranceNode(ctx.graph, x) && !IsExistingHighway(ctx, x)
    ensures NewRoadUnreachable(ctx, e)
  {
    forall x | Reaches(ctx.graph, e.id, x) && x in ctx.graph.entities
      ensures !HasEntranceNode(ctx.graph, x) && !IsExistingHighway(ctx, x)
    {
      ClosedSetContainsReachable(ctx.graph, component, e.id, x);
    }
  }

  /**
   * An isolated new highway (each vertex on this way only, no entrance) is
   * flagged whether or not its tiles are loaded: the reachability test does
   * not consult the data service.
   */
  lemma IsolatedNewRoadIsFlagged(ctx: Context, e: Entity)
    requires ctx.graph.Valid() && ctx.graph.Contains(e) && e.Way?
    requires IsNewRoad(e.id) && IsTaggedAsHighway(ctx.routable, e)
    requires forall k :: 0 <= k < |e.nodes| ==>
      ctx.graph.ParentWays(e.nodes[k]) == {e.id} && !IsEntrance(ctx.graph.entities[e.nodes[k]].tags)
    ensures IsFlagged(ctx, e)
  {
    assert NeighboursWithin(ctx.graph, e.id, {e.id});
    ClosedComponentIsUnreachable(ctx, e, {e.id});
  }

  /** A new highway sharing a node with an existing routable highway is reachable. */
  lemma ExistingNeighbourMakesNewRoadReachable(ctx: Context, e: Entity, k: nat, pid: Id)
    requires ctx.graph.Valid() && ctx.graph.Contains(e) && e.Way? && k < |e.nodes|
    requires pid in ctx.graph.ParentWays(e.nodes[k]) && IsExistingHighway(ctx, pid)
    ensures !NewRoadUnreachable(ctx, e)
  {
    assert Adjacent(ctx.graph, e.id, pid) by {
      assert Nodes(ctx.graph.entities[e.id])[k] == e.nodes[k];
    }
    ReachesRefl(ctx.graph, pid);
    ReachesPrepend(ctx.graph, e.id, pid, pid);
  }

  /** Nodes never raise the issue: they are neither ways nor relations, and their identities start with `n`. */
  lemma NodesAreNeverFlagged(ctx: Context, e: Entity)
    requires ctx.graph.Valid() && ctx.graph.Contains(e) && e.Node?
    ensures !IsFlagged(ctx, e)
  {
    assert e.id[0] == 'n';
  }
}
