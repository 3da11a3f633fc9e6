/**
 * The way-segments toolbar tool: a two-item selector (straight or
 * orthogonal segments) whose choice lives in the `line-segments` storage
 * slot, offered only while adding or drawing lines and areas.
 */
module WaySegments {
  import opened Wrappers

  /** A selectable item; `title` is the localisation key of its title. */
  datatype Item = Item(id: string, icon: string, title: string)

  const Straight := Item("straight", "iD-segment-straight", "toolbar.segments.straight.title")
  const Orthogonal := Item("orthogonal", "iD-segment-orthogonal", "toolbar.segments.orthogonal.title")

  const Items: seq<Item> := [Straight, Orthogonal]

  /** The id in effect: an absent or empty stored value falls back to `straight`. */
  function EffectiveId(stored: Option<string>): string
  {
    if stored.None? || stored.value == "" then "straight" else stored.value
  }

  /** The first item whose id is `id`, if any. */
  function FirstItemWithId(items: seq<Item>, id: string): (r: Option<Item>)
    ensures r.Some? ==> r.value in items && r.value.id == id
    ensures r.None? <==> forall i :: 0 <= i < |items| ==> items[i].id != id
    ensures r.Some? ==> exists i :: 0 <= i < |items| && items[i] == r.value &&
                                   (forall j :: 0 <= j < i ==> items[j].id != id)
  {
    if items == [] then None
    else if items[0].id == id then Some(items[0])
    else
      var rest := FirstItemWithId(items[1..], id);
      assert rest.Some? ==> rest.value in items;
      rest
  }

  /** The item shown as active for a stored value. */
  function ActiveItemFor(stored: Option<string>): (r: Option<Item>)
    ensures r.Some? ==> r.value in Items && r.value.id == EffectiveId(stored)
    ensures r.None? <==> forall i :: 0 <= i < |Items| ==> Items[i].id != EffectiveId(stored)
  {
    FirstItemWithId(Items, EffectiveId(stored))
  }

  /** The tool; `lineSegments` is the `line-segments` storage slot. */
  class WaySegmentsTool {
    var lineSegments: Option<string>

    constructor(stored: Option<string>)
      ensures lineSegments == stored
    {
      lineSegments := stored;
    }

    /** Stores the item's id; an item of the list then reads back as active. */
    method ChooseItem(item: Item)
      modifies this
      ensures lineSegments == Some(item.id)
      ensures item in Items ==> ActiveItem() == Some(item)
    {
      lineSegments := Some(item.id);
      if item in Items {
        ChosenItemIsActive(item);
      }
    }

    function ActiveItem(): Option<Item>
      reads this
    {
      ActiveItemFor(lineSegments)
    }
  }

  /** The item ids are distinct and none is empty, so each item reads back as itself. */
  lemma ChosenItemIsActive(item: Item)
    requires item in Items
    ensures ActiveItemFor(Some(item.id)) == Some(item)
  {
    assert Straight.id != Orthogonal.id && Straight.id != "" && Orthogonal.id != "" by {
      assert Straight.id[0] != Orthogonal.id[0];
    }
  }

  /** With nothing stored, or an empty value, the straight item is active. */
  lemma DefaultIsStraight()
    ensures ActiveItemFor(None) == Some(Straight)
    ensures ActiveItemFor(Some("")) == Some(Straight)
  {
    ChosenItemIsActive(Straight);
  }

  /** A non-empty stored id that names no item leaves no item active. */
  lemma UnknownIdHasNoActiveItem(id: string)
    requires id != "" && id != Straight.id && id != Orthogonal.id
    ensures ActiveItemFor(Some(id)) == None
  {
  }

  // ---------------------------------------------------------------------
  // Availability

  predicate OccursAt(s: string, pattern: string, i: int)
  {
    0 <= i && i + |pattern| <= |s| && s[i..i + |pattern|] == pattern
  }

  /** `s.indexOf(pattern, from)`: the first occurrence at or after `from`, or -1. */
  function IndexOfFrom(s: string, pattern: string, from: nat): (r: int)
    requires from <= |s|
    ensures r == -1 || (from <= r && OccursAt(s, pattern, r))
    ensures r == -1 ==> forall i :: from <= i ==> !OccursAt(s, pattern, i)
    ensures r != -1 ==> forall i :: from <= i < r ==> !OccursAt(s, pattern, i)
    decreases |s| - from
  {
    if from + |pattern| > |s| then -1
    else if s[from..from + |pattern|] == pattern then from
    else IndexOfFrom(s, pattern, from + 1)
  }

  function IndexOf(s: string, pattern: string): int
  {
    IndexOfFrom(s, pattern, 0)
  }

  /** `mode.id.indexOf('line') !== -1 || mode.id.indexOf('area') !== -1`. */
  predicate Available(modeId: string)
  {
    IndexOf(modeId, "line") != -1 || IndexOf(modeId, "area") != -1
  }

  /** The tool is offered exactly in modes whose id contains `line` or `area`. */
  lemma AvailableIffSubstring(modeId: string)
    ensures Available(modeId) <==>
      exists i :: OccursAt(modeId, "line", i) || OccursAt(modeId, "area", i)
  {
    if Available(modeId) {
      if IndexOf(modeId, "line") != -1 {
        assert OccursAt(modeId, "line", IndexOf(modeId, "line"));
      } else {
        assert OccursAt(modeId, "area", IndexOf(modeId, "area"));
      }
    }
  }

  /** Offered while adding or drawing a line or an area, not while adding a point or selecting. */
  lemma AvailabilityInModes()
    ensures Available("add-line") && Available("draw-line")
    ensures Available("add-area") && Available("draw-area")
    ensures !Available("add-point") && !Available("select") && !Available("browse") && !Available("save")
  {
    assert OccursAt("add-line", "line", 4);
    assert OccursAt("draw-line", "line", 5);
    assert OccursAt("add-area", "area", 4);
    assert OccursAt("draw-area", "area", 5);
    NoOccurrence("add-point");
    NoOccurrence("select");
    NoOccurrence("browse");
    NoOccurrence("save");
  }

  /** An id in which no `l` is followed by `i` and no `a` by `r` contains neither pattern. */
  lemma NoOccurrence(s: string)
    requires forall i :: 0 <= i < |s| - 1 ==> !(s[i] == 'l' && s[i + 1] == 'i') && !(s[i] == 'a' && s[i + 1] == 'r')
    ensures !Available(s)
  {
    forall i
      ensures !OccursAt(s, "line", i) && !OccursAt(s, "area", i)
    {
      if 0 <= i && i + 4 <= |s| {
        assert s[i..i + 4][0] == s[i] && s[i..i + 4][1] == s[i + 1];
      }
    }
  }
}
