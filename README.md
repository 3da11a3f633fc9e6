# iD validation rules and toolbar selection, modelled in Dafny

This project models four pieces of the iD OpenStreetMap editor:

- **The disconnected-way validation rule.** A routable highway is reported when any of these holds:
  - every one of its vertices is disconnected;
  - it is a highway multipolygon whose way members are all disconnected;
  - it is a newly drawn road (identity `w-…`) that cannot reach an existing road or an entrance through ways that share nodes.
  The report carries a fix list that depends on whether the way is open and on whether deleting it is allowed.
- **The missing-role validation rule.** A multipolygon member whose role is absent, empty or whitespace-only is reported. The rule can start from the member way or from the relation. Each issue carries:
  - a hash, which is the member's position;
  - three fixes: set the role to `inner`, set it to `outer`, or remove the member.
- **The top toolbar's `allowedTools`.** The current mode picks one of four tool lists. Unavailable tools are dropped, and adjacent equal entries (spacers in practice) are collapsed.
- **The way-segments tool.** It chooses between straight and orthogonal segments. The choice is kept in one storage slot, and the tool is offered only in modes whose id names a line or an area.

Files:

- `wrappers.dfy`: the `Option` type.
- `osm_graph.dfy`: the entity graph.
  - Nodes, ways and relations, keyed by identity.
  - Parent ways and parent relations.
  - `memberById` and `indexedMembers`.
- `validation.dfy`: the issue and fix records.
  - Texts are localisation keys.
  - A fix's click handler is an action descriptor.
- `disconnected_way.dfy`, `missing_role.dfy`, `way_segments.dfy`, `top_toolbar.dfy`: the four pieces above.

Where a module is imperative in the source, the model is too.

- The reachability search is a recursive method. It passes a visited set along, and its nested loops return early.
- The missing-role rule builds its issue list by appending inside loops, one over the parent relations and one over the indexed members.
- The disconnected-way rule builds its fix list by conditional pushes, with no loop, and returns a one-issue list.
- The toolbar collapses duplicates with a loop.
- The way-segments tool is a class whose field is the `line-segments` storage slot.

Each such method is proved against a specification function or predicate, and the promised properties are proved about that specification.

Three observations about the code. The model follows the code in all three.

- **Unloaded tiles.** The per-vertex test skips vertices on tiles not yet downloaded, with the comment that such vertices cannot be tested accurately (modules/validations/disconnected_way.js:116-120). So a vertex on an unloaded tile keeps a way from being judged disconnected by that test (`UnloadedVertexKeepsWayConnected`). The new-road reachability test (modules/validations/disconnected_way.js:159-182) does not consult loadedness, though. So an isolated new road is flagged even when its tiles are not loaded (`IsolatedNewRoadIsFlagged`).
- **Ferries.** The vertex test counts another `route=ferry` way as a connection (modules/validations/disconnected_way.js:132-133), so a way that is not new, with a ferry at every vertex, is never flagged (`FerryKeepsExistingWayUnflagged`). The reachability search for new roads treats a ferry as neither an existing road nor an entrance (modules/validations/disconnected_way.js:171-177). So a new road connected only to a ferry is still flagged as unreachable (`FerryDoesNotConnectNewRoad`).
- **The two sides of the missing-role check.** The code does not say whether the way side and the relation side are meant to report the same issues. They agree when the way's first entry in the relation is the one without a role (`BothSidesAgree`). The way side only looks at the first entry (`memberById`), so a role-less later entry for the same way is reported only from the relation side (`DuplicateEntryReportedOnlyByRelation`).

## Model

| member | source | states |
|---|---|---|
| OsmGraph.IndexedMembers | modules/validations/missing_role.js:23 | one entry per member, in member order, each paired with its own position |
| OsmGraph.MemberById | modules/validations/missing_role.js:17 | the first member with the given identity, together with its position; no result exactly when no member has that identity |
| OsmGraph.Graph.ParentWays | modules/validations/disconnected_way.js:122 | the parent ways of a vertex: every way whose node list mentions it, each once, and nothing but ways |
| OsmGraph.Graph.ParentRelations | modules/validations/missing_role.js:14 | the parent relations of an entity: every relation with a member of that identity, and nothing but relations |
| DisconnectedWay.IsTaggedAsHighway | modules/validations/disconnected_way.js:12-14 | an entity is a routable highway iff it has a `highway` tag whose value is one of the routable values |
| DisconnectedWay.IsNewRoad | modules/validations/disconnected_way.js:16-18 | an identity belongs to a way drawn in this session iff it starts with `w-` |
| DisconnectedWay.VertexIsDisconnected | modules/validations/disconnected_way.js:115-146 | the vertex test in its order: an unloaded tile counts as connected, a single parent way as disconnected, an entrance as connected, else connected iff another parent way is a ferry, a routable highway, or in a ferry route or highway multipolygon other than the ignored relation |
| DisconnectedWay.IsDisconnectedWay | modules/validations/disconnected_way.js:149-154 | only ways qualify, and a way without nodes counts as disconnected, since every vertex test holds vacuously |
| DisconnectedWay.MemberIsDisconnected | modules/validations/disconnected_way.js:188-196 | a member that is not a way or is absent from the graph counts as disconnected; a way member is disconnected when all its vertices are, with the relation under test ignored |
| DisconnectedWay.IsDisconnectedMultipolygon | modules/validations/disconnected_way.js:185-198 | only multipolygons qualify, and one without way members counts as disconnected |
| DisconnectedWay.ConnectToExistingRoadOrEntrance | modules/validations/disconnected_way.js:167-182 | the search terminates (decreasing unvisited ways); success means a way reached through shared nodes has a non-`no` entrance node or is an unvisited existing routable highway; failure means every way it newly visited was fully expanded and holds no entrance node, and every such way other than the start way is not an existing routable highway (the start way itself is never tested); the visited set only grows |
| DisconnectedWay.IsNewRoadUnreachableFromExistingRoads | modules/validations/disconnected_way.js:157-164 | true exactly when the entity is a new (`w-`) routable highway and no way reachable from it through shared nodes has an entrance node or is an existing routable highway |
| DisconnectedWay.OpenWayFixesFollowTable | modules/validations/disconnected_way.js:36-66 | for an open way, continue-from-start is offered iff the first node is not `noexit=yes`, continue-from-end likewise for the last node, delete iff not disabled, in that order and nothing else |
| DisconnectedWay.ClosedFixesFollowTable | modules/validations/disconnected_way.js:67-86 | for a closed way or a relation, the connect-feature fix (no entity ids) comes first, then delete iff not disabled, and nothing else |
| DisconnectedWay.DisconnectedWayFixes | modules/validations/disconnected_way.js:33-86 | the fix list built by successive pushes follows the fix table: presence conditions for each fix, strict order, nothing else |
| DisconnectedWay.CheckDisconnectedWay | modules/validations/disconnected_way.js:20-102 | a non-routable entity gives no issue; otherwise the result is empty iff none of the three tests holds, else exactly one `disconnected_way` warning about `[entity.id]` with the new-road or existing message and tooltip keys and a fix list following the table |
| DisconnectedWay.DeadEndVerticesMakeWayDisconnected | modules/validations/disconnected_way.js:115-128 | a way whose vertices are all loaded and each have that way as their only parent is disconnected, even when a vertex is an entrance |
| DisconnectedWay.EntranceConnects | modules/validations/disconnected_way.js:124-128 | a loaded entrance vertex shared by two or more ways is not disconnected |
| DisconnectedWay.FerryAtEveryVertexKeepsWayConnected | modules/validations/disconnected_way.js:130-133 | a way whose vertices each lie on another `route=ferry` way is not disconnected |
| DisconnectedWay.FerryKeepsExistingWayUnflagged | modules/validations/disconnected_way.js:20-30 | a way that is not new, with another `route=ferry` way at every vertex, raises no issue |
| DisconnectedWay.FerryDoesNotConnectNewRoad | modules/validations/disconnected_way.js:159-182 | a new road whose every vertex is shared only with one non-highway ferry way (closed off, no entrances) passes the vertex test yet is flagged, because the reachability search does not count ferries |
| DisconnectedWay.UnloadedVertexKeepsWayConnected | modules/validations/disconnected_way.js:116-120 | with a data service present, one vertex on an unloaded tile makes the way not disconnected |
| DisconnectedWay.IgnoredRelationDoesNotConnect | modules/validations/disconnected_way.js:136-144 | a highway multipolygon connects two ways at a shared vertex, except when it is the relation under test |
| DisconnectedWay.ClosedComponentIsUnreachable | modules/validations/disconnected_way.js:159-182 | a new highway inside a node-sharing-closed set of ways with no entrance node and no existing highway is unreachable |
| DisconnectedWay.IsolatedNewRoadIsFlagged | modules/validations/disconnected_way.js:157-164 | a new routable highway whose vertices belong to it alone and are not entrances is flagged, whatever the loadedness of its tiles |
| DisconnectedWay.ExistingNeighbourMakesNewRoadReachable | modules/validations/disconnected_way.js:173-177 | sharing a node with an existing routable highway makes a new road reachable |
| DisconnectedWay.NodesAreNeverFlagged | modules/validations/disconnected_way.js:20-30 | a node never raises the issue |
| MissingRole.TrimStart | modules/validations/missing_role.js:36 | the result is a suffix of the input starting with a non-whitespace character, and everything dropped is whitespace |
| MissingRole.TrimEnd | modules/validations/missing_role.js:36 | the result is a prefix of the input ending with a non-whitespace character, and everything dropped is whitespace |
| MissingRole.Trim | modules/validations/missing_role.js:36 | the trimmed role is empty iff the role is whitespace throughout; otherwise it starts and ends with a visible character |
| MissingRole.IsMissingRole | modules/validations/missing_role.js:35-37 | the role is absent, empty, or empty once trimmed |
| MissingRole.MissingRoleIffBlank | modules/validations/missing_role.js:35-37 | a role is missing iff it is absent or made of whitespace only (the empty role included) |
| MissingRole.NatToString | modules/validations/missing_role.js:53 | the decimal spelling of a member position: never empty and made of digits only |
| MissingRole.ParseNatToString | modules/validations/missing_role.js:53 | the decimal hash reads back as the member index |
| MissingRole.HashInjective | modules/validations/missing_role.js:53 | different member positions give different hashes |
| MissingRole.AddRoleFix | modules/validations/missing_role.js:82-94 | the set-role fix: its title names the role, and clicking it replaces the member at its position with the same entity and type and the given role |
| MissingRole.RemoveFromRelationFix | modules/validations/missing_role.js:57-66 | the remove fix: delete icon, remove-from-relation title, and clicking it deletes the member at its position |
| MissingRole.MakeIssue | modules/validations/missing_role.js:40-68 | the issue for a member: type, severity, entities `[relation, way]`, data the member, hash its position, and the set-inner, set-outer and remove fixes in that order |
| MissingRole.WellFormedIssue | modules/validations/missing_role.js:40-67 | each issue is a `missing_role` warning about `[relation, member]`, with data the indexed member and hash its position; it has exactly three fixes (set `inner`, set `outer`, remove), each doing what its click handler computes from the issue's own entity list and data |
| MissingRole.CheckFromWay | modules/validations/missing_role.js:13-21 | one issue per parent multipolygon whose first entry for the way lacks a role, about that relation, no other issue, no relation twice |
| MissingRole.CheckFromRelation | modules/validations/missing_role.js:22-28 | the issues of the relation side, in member order, one per present member lacking a role |
| MissingRole.RelationIssues | modules/validations/missing_role.js:22-28 | every issue comes from a present member lacking a role, and every such member has its issue |
| MissingRole.CheckMissingRole | modules/validations/missing_role.js:11-31 | nodes and non-multipolygon relations give nothing; ways and multipolygons are checked from their side |
| MissingRole.RelationIssueHashesDistinct | modules/validations/missing_role.js:49-53 | the issues about one relation carry pairwise different hashes |
| MissingRole.BothSidesAgree | modules/validations/missing_role.js:13-28 | when a way's first entry in a multipolygon lacks a role, the way side reports an issue for that relation which the relation side also reports, about `[relation, way]` with hash the entry's position |
| MissingRole.DuplicateEntryReportedOnlyByRelation | modules/validations/missing_role.js:17-18 | a role-less second entry for a way whose first entry has a role is reported by the relation side only |
| MissingRole.ChangeMemberEdit | modules/validations/missing_role.js:86-91 | the edit the set-role fix performs: only the relation changes, and in it only the member at the given position; the relation keeps its identity and tags, so it stays a multipolygon, and a well-formed graph stays well-formed |
| MissingRole.SetRoleFixResolvesIssue | modules/validations/missing_role.js:82-93 | after the set-role edit, the relation reports no issue with that member's hash |
| WaySegments.FirstItemWithId | modules/ui/tools/way_segments.js:31 | the first item with the id, or none exactly when no item has it |
| WaySegments.ActiveItemFor | modules/ui/tools/way_segments.js:12-32 | the active item is one of the two listed items whose id is the stored id, or `straight` when nothing or an empty value is stored; none when no item has that id |
| WaySegments.WaySegmentsTool.ActiveItem | modules/ui/tools/way_segments.js:29-32 | the active item is read from the tool's storage field |
| WaySegments.WaySegmentsTool.ChooseItem | modules/ui/tools/way_segments.js:25-27 | the storage slot holds the item's id, and an item of the list then reads back as active |
| WaySegments.ChosenItemIsActive | modules/ui/tools/way_segments.js:25-31 | storing an item's id and reading the active item gives that item back |
| WaySegments.DefaultIsStraight | modules/ui/tools/way_segments.js:30-31 | with nothing (or an empty value) stored, the straight item is active |
| WaySegments.UnknownIdHasNoActiveItem | modules/ui/tools/way_segments.js:31 | a stored id naming no item leaves no item active |
| WaySegments.IndexOfFrom | modules/ui/tools/way_segments.js:36 | `indexOf` from a start position within the string: the first occurrence at or after the start, or -1 exactly when there is none |
| WaySegments.Available | modules/ui/tools/way_segments.js:34-37 | the tool is available iff `indexOf` finds `line` or `area` in the mode id |
| WaySegments.AvailableIffSubstring | modules/ui/tools/way_segments.js:34-37 | the tool is available iff the mode id contains `line` or `area` |
| WaySegments.AvailabilityInModes | modules/ui/tools/way_segments.js:34-37 | available in `add-line`, `draw-line`, `add-area` and `draw-area`; not in `add-point`, `select`, `browse` or `save` |
| TopToolbar.ModeToolsChoice | modules/ui/top_toolbar.js:74-138 | the save list iff the mode is `save`; the select list iff not in save mode, selecting, not a new feature, and every selected id present; the drawing list iff in one of the five add/draw modes; the browse list otherwise |
| TopToolbar.ModeTools | modules/ui/top_toolbar.js:74-138 | the four literal tool lists and the conditions that pick one: save, selecting existing features, the five add and draw modes, anything else |
| TopToolbar.ToolsAreDistinct | modules/ui/top_toolbar.js:76-137 | no tool occurs twice in any of the four lists; only spacers repeat |
| TopToolbar.Filter | modules/ui/top_toolbar.js:140-142 | an entry is kept iff it is in the list and has no availability predicate or its predicate holds |
| TopToolbar.IsAvailable | modules/ui/top_toolbar.js:62-64 | spacers have no availability predicate, the cancel button is available only in the save mode, the way-segments tool follows its own rule, and other tools answer for themselves |
| TopToolbar.FilterKeepsFirst | modules/ui/top_toolbar.js:140-142 | an available first entry stays first |
| TopToolbar.FilterIsSubsequence | modules/ui/top_toolbar.js:140-142 | filtering keeps the order of the entries it keeps |
| TopToolbar.Compress | modules/ui/top_toolbar.js:144-150 | the first and last entries of a non-empty list are kept |
| TopToolbar.CompressNoAdjacentDuplicates | modules/ui/top_toolbar.js:144-150 | no two adjacent entries of the result are equal |
| TopToolbar.CompressSameEntries | modules/ui/top_toolbar.js:144-150 | the result holds exactly the entries of the input |
| TopToolbar.CompressIsSubsequence | modules/ui/top_toolbar.js:144-150 | the result is an order-preserving subsequence of the input |
| TopToolbar.RemoveAdjacentDuplicates | modules/ui/top_toolbar.js:144-150 | pushing each entry unless it equals the last one pushed yields the reference definition: keep an entry iff it is first or differs from its predecessor in the input |
| TopToolbar.Allowed | modules/ui/top_toolbar.js:67-153 | no mode gives an empty toolbar; otherwise the mode's list, filtered by availability, with adjacent duplicates collapsed |
| TopToolbar.AllowedTools | modules/ui/top_toolbar.js:67-153 | no mode gives an empty list; otherwise every entry is available, no two adjacent entries are equal, and the result is a subsequence of the filtered mode list |
| TopToolbar.AvailableToolShownOnce | modules/ui/top_toolbar.js:76-150 | every available tool of the mode's list appears in the toolbar, at exactly one position |
| TopToolbar.SaveModeShowsCancel | modules/ui/top_toolbar.js:62-79 | in the save mode the toolbar is exactly the cancel button and a spacer |
| TopToolbar.DrawModeStartsWithSpacer | modules/ui/top_toolbar.js:109-121 | in the add and draw modes the leading spacer is kept |
| TopToolbar.WaySegmentsShownForLinesAndAreas | modules/ui/top_toolbar.js:109-121 | in the add and draw modes the way-segments tool is shown iff the mode is not `add-point` |

## Left out

- Localisation (`t(...)`) and `utilDisplayLabel`. Messages, tooltips, references and fix titles are localisation keys, and the labels are not modelled.
- `showReference` in both rules. It is DOM rendering; only the key it displays is kept.
- `continueDrawing` (map zoom and entering the draw mode). The continue fixes are descriptors holding the way and vertex ids.
- The delete fix's click handler re-checks `operationDelete` and runs it. This is modelled as a descriptor, and whether deleting is disabled is a parameter.
- `actionChangeMember` and `actionDeleteMember` are not part of this model; `ChangeMemberEdit` is the member replacement that the set-role fix asks for.
- The data service's `isDataLoaded` and node coordinates are an abstract predicate over locations. There are no floats and no geometry.
- `osmRoutableHighwayTagValues` is an abstract set of tag values.
- The availability predicates of toolbar tools whose code is not part of this model (operations, structure, repeat-add, stop-draw and so on) are an abstract function.
- Persistence behind `context.storage` is a single optional-string field of the tool.
- `uiToolSegemented`, the toolbar's `update` (data join, debounce, event subscriptions), and the tools' install and render hooks are UI side effects and are not modelled.
- DisconnectedWay.CheckDisconnectedWay: requires a routable way to have at least one node (a non-routable way returns no issue before any node is read). For a way with no nodes, the source computes an empty vertex test and then reads `context.entity(undefined)` while building the fixes, which throws. The model does not cover that crash.
- DisconnectedWay.ConnectToExistingRoadOrEntrance: parent ways are a set, so the order in which they are tried is not modelled. Only the result is specified, and it does not depend on that order. The visited set is passed in and handed back by value rather than shared.
- MissingRole.CheckFromWay: parent relations are a set, so the order of the way-side issues is not modelled. Their content is specified, with one issue per relation.
