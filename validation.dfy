/**
 * The result model shared by the validation rules: an issue names the
 * entities it is about and carries fixes. Texts are localisation keys, and a
 * fix's click handler is an action descriptor the editing layer interprets.
 */
module Validation {
  import opened Wrappers
  import opened OsmGraph

  datatype Severity = Warning | Error

  /** The localisation keys the two rules use. */
  datatype TextKey =
    | DisconnectedWayMessage           // issues.disconnected_way.highway.message
    | DisconnectedWayMessageNewRoad    // issues.disconnected_way.highway.message_new_road
    | DisconnectedWayReference         // issues.disconnected_way.highway.reference
    | DisconnectedWayReferenceNewRoad  // issues.disconnected_way.highway.reference_new_road
    | MissingRoleMessage               // issues.missing_role.message
    | MissingRoleReference             // issues.missing_role.multipolygon.reference
    | ContinueFromStartTitle           // issues.fix.continue_from_start.title
    | ContinueFromEndTitle             // issues.fix.continue_from_end.title
    | ConnectFeatureTitle              // issues.fix.connect_feature.title
    | DeleteFeatureTitle               // issues.fix.delete_feature.title
    | SetAsTitle(role: string)         // issues.fix.set_as_<role>.title
    | RemoveFromRelationTitle          // issues.fix.remove_from_relation.title

  /** Fix icons. */
  datatype Icon =
    | OperationContinueLeft  // iD-operation-continue-left
    | OperationContinue      // iD-operation-continue
    | OperationDelete        // iD-operation-delete

  datatype FixAction =
    | NoAction                                    // the fix has no click handler
    | ContinueDrawing(wayId: Id, vertexId: Id)    // resume drawing the way from the vertex
    | DeleteEntities(ids: seq<Id>)                // the delete operation, re-checked when clicked
    | ChangeMember(relationId: Id, index: nat, newMember: Member)
    | DeleteMember(relationId: Id, index: nat)

  datatype Fix = Fix(icon: Option<Icon>, title: TextKey, entityIds: Option<seq<Id>>, action: FixAction)

  /** `reference` is the key the issue's reference renderer shows. */
  datatype Issue = Issue(
    issueType: string,
    severity: Severity,
    message: TextKey,
    tooltip: Option<TextKey>,
    reference: TextKey,
    entityIds: seq<Id>,
    data: Option<IndexedMember>,
    hash: Option<string>,
    fixes: seq<Fix>)
}
