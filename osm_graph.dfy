/**
 * The OpenStreetMap entity graph the validation rules read: nodes, ways and
 * relations keyed by identity, with parent ways and parent relations derived
 * from way node lists and relation member lists.
 */
module OsmGraph {
  import opened Wrappers

  type Id = string
  type Tags = map<string, string>

  /** A node location; only used as the key of the "is data loaded" probe. */
  datatype Loc = Loc(x: int, y: int)

  datatype EntityType = NodeType | WayType | RelationType

  /** A relation member: referenced identity, its type and its role (which may be absent). */
  datatype Member = Member(id: Id, memberType: EntityType, role: Option<string>)

  /** A member together with its position in the relation's member list. */
  datatype IndexedMember = IndexedMember(member: Member, index: nat)

  datatype Entity =
    | Node(id: Id, tags: Tags, loc: Loc)
    | Way(id: Id, tags: Tags, nodes: seq<Id>)
    | Relation(id: Id, tags: Tags, members: seq<Member>)

  /** `tags[key] === value`; an absent tag reads as `undefined` and matches nothing. */
  predicate HasTag(tags: Tags, key: string, value: string)
  {
    key in tags && tags[key] == value
  }

  /** The node list of a way; anything else has none. */
  function Nodes(e: Entity): seq<Id>
  {
    if e.Way? then e.nodes else []
  }

  /** A way is closed when it has more than one node and its first and last coincide. */
  predicate IsClosed(e: Entity)
    requires e.Way?
  {
    |e.nodes| > 1 && e.nodes[0] == e.nodes[|e.nodes| - 1]
  }

  predicate IsMultipolygon(e: Entity)
  {
    e.Relation? && HasTag(e.tags, "type", "multipolygon")
  }

  /** The first letter of an identity names the entity type: n1, w-2, r3. */
  function TypeLetter(e: Entity): char
  {
    match e
    case Node(_, _, _) => 'n'
    case Way(_, _, _) => 'w'
    case Relation(_, _, _) => 'r'
  }

  /** Members with their positions, in member order. */
  function IndexedMembers(members: seq<Member>): (r: seq<IndexedMember>)
    ensures |r| == |members|
    ensures forall i :: 0 <= i < |r| ==> r[i].member == members[i] && r[i].index == i
  {
    seq(|members|, i requires 0 <= i < |members| => IndexedMember(members[i], i))
  }

  /** The first member whose identity is `id`, with its position. */
  function MemberById(members: seq<Member>, id: Id): (r: Option<IndexedMember>)
    ensures r.Some? ==> r.value.index < |members| && r.value.member == members[r.value.index]
    ensures r.Some? ==> r.value.member.id == id
    ensures r.Some? ==> forall j :: 0 <= j < r.value.index ==> members[j].id != id
    ensures r.None? <==> forall j :: 0 <= j < |members| ==> members[j].id != id
  {
    if |members| == 0 then None
    else if members[0].id == id then Some(IndexedMember(members[0], 0))
    else match MemberById(members[1..], id)
      case None => None
      case Some(m) => Some(IndexedMember(m.member, m.index + 1))
  }

  /** Replaces the member at `index`: what a change-member edit does to a member list. */
  function ReplaceMember(members: seq<Member>, index: nat, m: Member): (r: seq<Member>)
    requires index < |members|
    ensures |r| == |members| && r[index] == m
    ensures forall j :: 0 <= j < |r| && j != index ==> r[j] == members[j]
  {
    members[index := m]
  }

  datatype Graph = Graph(entities: map<Id, Entity>) {

    /**
     * Identities are keys, carry their type letter, and every node of every
     * way is a node of the graph. Relation members may be absent.
     */
    ghost predicate Valid()
    {
      && (forall id :: id in entities ==> entities[id].id == id)
      && (forall id :: id in entities ==> |id| > 0 && id[0] == TypeLetter(entities[id]))
      && (forall id, k :: id in entities && entities[id].Way? && 0 <= k < |entities[id].nodes| ==>
            entities[id].nodes[k] in entities && entities[entities[id].nodes[k]].Node?)
    }

    /** `e` is the graph's current version of itself. */
    predicate Contains(e: Entity)
    {
      e.id in entities && entities[e.id] == e
    }

    /** The ways whose node lists mention `nodeId`, each once. */
    function ParentWays(nodeId: Id): (r: set<Id>)
      ensures forall w :: w in r ==> w in entities && entities[w].Way?
    {
      set w | w in entities && entities[w].Way? && nodeId in entities[w].nodes
    }

    /** The relations whose member lists mention `id`. */
    function ParentRelations(id: Id): (r: set<Id>)
      ensures forall rid :: rid in r ==> rid in entities && entities[rid].Relation?
    {
      set rid | rid in entities && entities[rid].Relation? &&
        exists j :: 0 <= j < |entities[rid].members| && entities[rid].members[j].id == id
    }
  }
}
