/**
 * Which tools the top toolbar shows: the current mode picks one of four
 * fixed tool lists, tools that declare themselves unavailable are dropped,
 * and runs of equal adjacent entries (in practice, spacers) collapse to one.
 */
module TopToolbar {
  import opened Wrappers
  import opened OsmGraph
  import WaySegments

  datatype ToolId =
    | CancelSave | Deselect | CenterZoom
    | Circularize | Continue | Disconnect | Extract | Merge | Orthogonalize | Reverse | Split | Straighten
    | Downgrade | Delete | UndoRedo | Save
    | Structure | Segments | RepeatAdd | StopDraw
    | AddFeature | AddFavorite | AddRecent | Notes

  /** A toolbar entry: a tool, or the `'spacer'` placeholder. */
  datatype Entry = Spacer | Tool(id: ToolId)

  /** The parts of the current mode the toolbar reads; `newFeature` is only consulted in `select`. */
  datatype Mode = Mode(id: string, newFeature: bool, selectedIDs: seq<Id>)

  /**
   * The current mode (absent before the editor has entered one), the graph,
   * and the availability answers of the tools whose own code is not part of
   * this model (operations, structure, repeat-add and so on).
   */
  datatype ToolbarContext = ToolbarContext(mode: Option<Mode>, graph: Graph, otherAvailable: ToolId -> bool)

  // ---------------------------------------------------------------------
  // The mode dispatch

  const SaveTools: seq<Entry> := [Tool(CancelSave), Spacer]

  const SelectTools: seq<Entry> := [
    Tool(Deselect), Spacer, Tool(CenterZoom), Spacer,
    Tool(Circularize), Tool(Continue), Tool(Disconnect), Tool(Extract), Tool(Merge),
    Tool(Orthogonalize), Tool(Reverse), Tool(Split), Tool(Straighten), Spacer,
    Tool(Downgrade), Tool(Delete), Spacer, Tool(UndoRedo), Tool(Save)]

  const DrawTools: seq<Entry> := [
    Spacer, Tool(Structure), Spacer, Tool(Segments), Spacer,
    Tool(RepeatAdd), Tool(UndoRedo), Tool(StopDraw)]

  const BrowseTools: seq<Entry> := [
    Spacer, Tool(CenterZoom), Spacer, Tool(AddFeature), Tool(AddFavorite), Tool(AddRecent), Spacer,
    Tool(Notes), Spacer, Tool(UndoRedo), Tool(Save)]

  predicate IsAddOrDrawMode(id: string)
  {
    id == "add-point" || id == "add-line" || id == "add-area" || id == "draw-line" || id == "draw-area"
  }

  /** Selecting existing features only: not a just-drawn feature, and every selected id still in the graph. */
  predicate SelectsExistingFeatures(mode: Mode, g: Graph)
  {
    mode.id == "select" && !mode.newFeature &&
    forall i :: 0 <= i < |mode.selectedIDs| ==> mode.selectedIDs[i] in g.entities
  }

  function ModeTools(mode: Mode, g: Graph): seq<Entry>
  {
    if mode.id == "save" then SaveTools
    else if SelectsExistingFeatures(mode, g) then SelectTools
    else if IsAddOrDrawMode(mode.id) then DrawTools
    else BrowseTools
  }

  /**
   * The four lists follow the mode: the selection list exactly when
   * existing features are selected outside the save mode, the drawing list
   * exactly in the five add and draw modes, and the browse list otherwise.
   */
  lemma ModeToolsChoice(mode: Mode, g: Graph)
    ensures Tool(CancelSave) in ModeTools(mode, g) <==> mode.id == "save"
    ensures Tool(Deselect) in ModeTools(mode, g) <==> mode.id != "save" && SelectsExistingFeatures(mode, g)
    ensures Tool(StopDraw) in ModeTools(mode, g) <==> IsAddOrDrawMode(mode.id)
    ensures Tool(AddFeature) in ModeTools(mode, g) <==>
      mode.id != "save" && !SelectsExistingFeatures(mode, g) && !IsAddOrDrawMode(mode.id)
  {
  }

  // ---------------------------------------------------------------------
  // Availability

  /**
   * `!tool.available || tool.available()`: spacers have no predicate, the
   * cancel button is offered in the save mode only, the way-segments tool
   * follows its own rule, and every other tool answers for itself.
   */
  predicate IsAvailable(mode: Mode, otherAvailable: ToolId -> bool, e: Entry)
  {
    match e
    case Spacer => true
    case Tool(CancelSave) => mode.id == "save"
    case Tool(Segments) => WaySegments.Available(mode.id)
    case Tool(t) => otherAvailable(t)
  }

  /** `b` with some entries removed and the rest in order. */
  predicate IsSubsequence<T(==)>(a: seq<T>, b: seq<T>)
    decreases |b|
  {
    if a == [] then true
    else if b == [] then false
    else (a[|a| - 1] == b[|b| - 1] && IsSubsequence(a[..|a| - 1], b[..|b| - 1])) ||
         IsSubsequence(a, b[..|b| - 1])
  }

  /** Every entry of a subsequence is an entry of the sequence. */
  lemma {:induction false} SubsequenceEntries<T>(a: seq<T>, b: seq<T>)
    requires IsSubsequence(a, b)
    ensures forall x :: x in a ==> x in b
    decreases |b|
  {
    if a != [] {
      var a', b' := a[..|a| - 1], b[..|b| - 1];
      assert b == b' + [b[|b| - 1]];
      if a[|a| - 1] == b[|b| - 1] && IsSubsequence(a', b') {
        SubsequenceEntries(a', b');
        assert a == a' + [a[|a| - 1]];
      } else {
        SubsequenceEntries(a, b');
      }
    }
  }

  /** No tool is listed twice; only spacers may repeat. */
  predicate ToolsDistinct(s: seq<Entry>)
  {
    forall i, j :: 0 <= i < j < |s| && s[i] == s[j] ==> s[i] == Spacer
  }

  /** A subsequence of a list without repeated tools has none either. */
  lemma {:induction false} SubsequenceKeepsToolsDistinct(a: seq<Entry>, b: seq<Entry>)
    requires IsSubsequence(a, b) && ToolsDistinct(b)
    ensures ToolsDistinct(a)
    decreases |b|
  {
    if a != [] {
      var a', b' := a[..|a| - 1], b[..|b| - 1];
      assert ToolsDistinct(b');
      if a[|a| - 1] == b[|b| - 1] && IsSubsequence(a', b') {
        SubsequenceKeepsToolsDistinct(a', b');
        SubsequenceEntries(a', b');
        forall i | 0 <= i < |a| - 1 && a[i] == a[|a| - 1]
          ensures a[i] == Spacer
        {
          assert a'[i] in b';
          var k :| 0 <= k < |b'| && b'[k] == a'[i];
          assert b[k] == b[|b| - 1];
        }
      } else {
        SubsequenceKeepsToolsDistinct(a, b');
      }
    }
  }

  /** The entries of `s` that are available, in order. */
  function Filter(mode: Mode, otherAvailable: ToolId -> bool, s: seq<Entry>): (r: seq<Entry>)
    ensures forall x :: x in r <==> x in s && IsAvailable(mode, otherAvailable, x)
  {
    if s == [] then []
    else
      var front, last := s[..|s| - 1], s[|s| - 1];
      assert s == front + [last];
      var f := Filter(mode, otherAvailable, front);
      if IsAvailable(mode, otherAvailable, last) then f + [last] else f
  }

  /** An available first entry stays first. */
  lemma {:induction false} FilterKeepsFirst(mode: Mode, otherAvailable: ToolId -> bool, s: seq<Entry>)
    requires |s| > 0 && IsAvailable(mode, otherAvailable, s[0])
    ensures var r := Filter(mode, otherAvailable, s); |r| > 0 && r[0] == s[0]
  {
    if |s| > 1 {
      FilterKeepsFirst(mode, otherAvailable, s[..|s| - 1]);
    }
  }

  /** Filtering keeps order: its result is a subsequence of its input. */
  lemma {:induction false} FilterIsSubsequence(mode: Mode, otherAvailable: ToolId -> bool, s: seq<Entry>)
    ensures IsSubsequence(Filter(mode, otherAvailable, s), s)
  {
    if s != [] {
      var front, last := s[..|s| - 1], s[|s| - 1];
      var f := Filter(mode, otherAvailable, front);
      FilterIsSubsequence(mode, otherAvailable, front);
      if IsAvailable(mode, otherAvailable, last) {
        assert (f + [last])[..|f|] == f;
      }
    }
  }

  // ---------------------------------------------------------------------
  // Removing adjacent duplicates

  /**
   * The reference definition: an entry is kept when it is the first one or
   * differs from the entry just before it in the input.
   */
  function Compress(s: seq<Entry>): (r: seq<Entry>)
    ensures |s| > 0 ==> |r| > 0 && r[0] == s[0] && r[|r| - 1] == s[|s| - 1]
  {
    if |s| <= 1 then s
    else
      var front, last := s[..|s| - 1], s[|s| - 1];
      var c := Compress(front);
      if front[|front| - 1] == last then c else c + [last]
  }

  predicate NoAdjacentDuplicates(r: seq<Entry>)
  {
    forall k :: 0 < k < |r| ==> r[k - 1] != r[k]
  }

  /** No two adjacent entries of the result are equal. */
  lemma {:induction false} CompressNoAdjacentDuplicates(s: seq<Entry>)
    ensures NoAdjacentDuplicates(Compress(s))
  {
    if |s| > 1 {
      var front, last := s[..|s| - 1], s[|s| - 1];
      var c := Compress(front);
      CompressNoAdjacentDuplicates(front);
      if front[|front| - 1] != last {
        var r := c + [last];
        assert r == Compress(s);
        forall k | 0 < k < |r|
          ensures r[k - 1] != r[k]
        {
          if k == |c| {
            assert r[k - 1] == c[|c| - 1] == front[|front| - 1];
          } else {
            assert r[k - 1] == c[k - 1] && r[k] == c[k];
          }
        }
      }
    }
  }

  /** Compressing loses no value: the result holds exactly the entries of the input. */
  lemma {:induction false} CompressSameEntries(s: seq<Entry>)
    ensures forall x :: x in Compress(s) <==> x in s
  {
    if |s| > 1 {
      var front, last := s[..|s| - 1], s[|s| - 1];
      assert s == front + [last];
      assert front[|front| - 1] in front;
      CompressSameEntries(front);
    }
  }

  /** Compressing keeps order: its result is a subsequence of its input. */
  lemma {:induction false} CompressIsSubsequence(s: seq<Entry>)
    ensures IsSubsequence(Compress(s), s)
  {
    if |s| > 1 {
      var front, last := s[..|s| - 1], s[|s| - 1];
      var c := Compress(front);
      CompressIsSubsequence(front);
      if front[|front| - 1] != last {
        assert (c + [last])[..|c|] == c;
      }
    }
  }

  /** The `forEach` that pushes an entry unless it equals the last one pushed. */
  method RemoveAdjacentDuplicates(tools: seq<Entry>) returns (deduplicated: seq<Entry>)
    ensures deduplicated == Compress(tools)
  {
    deduplicated := [];
    var i := 0;
    while i < |tools|
      invariant 0 <= i <= |tools|
      invariant deduplicated == Compress(tools[..i])
      invariant i > 0 ==> |deduplicated| > 0 && deduplicated[|deduplicated| - 1] == tools[i - 1]
    {
      var tool := tools[i];
      assert tools[..i + 1][..i] == tools[..i];
      if |deduplicated| == 0 || deduplicated[|deduplicated| - 1] != tool {
        deduplicated := deduplicated + [tool];
      }
      i := i + 1;
    }
    assert tools[..i] == tools;
  }

  // ---------------------------------------------------------------------
  // allowedTools

  /** What `allowedTools` returns: nothing without a mode, else the mode's list filtered and compressed. */
  function Allowed(ctx: ToolbarContext): seq<Entry>
  {
    if ctx.mode.None? then []
    else
      var mode := ctx.mode.value;
      Compress(Filter(mode, ctx.otherAvailable, ModeTools(mode, ctx.graph)))
  }

  /**
   * Without a mode the toolbar is empty; otherwise it shows only available
   * entries, never the same entry twice in a row, in the order of the
   * mode's list.
   */
  method AllowedTools(ctx: ToolbarContext) returns (tools: seq<Entry>)
    ensures tools == Allowed(ctx)
    ensures ctx.mode.None? ==> tools == []
    ensures ctx.mode.Some? ==>
      && (forall x :: x in tools ==> IsAvailable(ctx.mode.value, ctx.otherAvailable, x))
      && NoAdjacentDuplicates(tools)
      && IsSubsequence(tools, Filter(ctx.mode.value, ctx.otherAvailable, ModeTools(ctx.mode.value, ctx.graph)))
  {
    if ctx.mode.None? {
      return [];
    }
    var mode := ctx.mode.value;
    var candidates := ModeTools(mode, ctx.graph);
    candidates := Filter(mode, ctx.otherAvailable, candidates);
    tools := RemoveAdjacentDuplicates(candidates);
    CompressSameEntries(candidates);
    CompressNoAdjacentDuplicates(candidates);
    CompressIsSubsequence(candidates);
  }

  /** No tool is listed twice in any of the four lists; only spacers repeat. */
  lemma ToolsAreDistinct(mode: Mode, g: Graph)
    ensures ToolsDistinct(ModeTools(mode, g))
  {
    SelectToolsDistinct();
    DrawToolsDistinct();
    BrowseToolsDistinct();
  }

  lemma SelectToolsDistinct()
    ensures ToolsDistinct(SelectTools)
  {
  }

  lemma DrawToolsDistinct()
    ensures ToolsDistinct(DrawTools)
  {
  }

  lemma BrowseToolsDistinct()
    ensures ToolsDistinct(BrowseTools)
  {
  }

  /** Every available tool of the mode's list is shown, and at one position only. */
  lemma AvailableToolShownOnce(ctx: ToolbarContext, t: ToolId)
    requires ctx.mode.Some?
    requires Tool(t) in ModeTools(ctx.mode.value, ctx.graph)
    requires IsAvailable(ctx.mode.value, ctx.otherAvailable, Tool(t))
    ensures var r := Allowed(ctx);
      Tool(t) in r && forall i, j :: 0 <= i < j < |r| && r[i] == Tool(t) ==> r[j] != Tool(t)
  {
    var mode := ctx.mode.value;
    var s := ModeTools(mode, ctx.graph);
    var f := Filter(mode, ctx.otherAvailable, s);
    ToolsAreDistinct(mode, ctx.graph);
    FilterIsSubsequence(mode, ctx.otherAvailable, s);
    SubsequenceKeepsToolsDistinct(f, s);
    CompressIsSubsequence(f);
    SubsequenceKeepsToolsDistinct(Compress(f), f);
    CompressSameEntries(f);
  }

  /** In the save mode the toolbar shows the cancel button and a spacer. */
  lemma SaveModeShowsCancel(ctx: ToolbarContext)
    requires ctx.mode.Some? && ctx.mode.value.id == "save"
    ensures Allowed(ctx) == [Tool(CancelSave), Spacer]
  {
    var mode := ctx.mode.value;
    assert ModeTools(mode, ctx.graph) == SaveTools;
    assert SaveTools[..1] == [Tool(CancelSave)] && [Tool(CancelSave)][..0] == [];
    assert Filter(mode, ctx.otherAvailable, []) == [];
    var f1 := Filter(mode, ctx.otherAvailable, SaveTools[..1]);
    assert IsAvailable(mode, ctx.otherAvailable, Tool(CancelSave));
    assert f1 == [Tool(CancelSave)];
    var f := Filter(mode, ctx.otherAvailable, SaveTools);
    assert f == f1 + [Spacer];
    assert f[..1] == [Tool(CancelSave)];
    assert Compress(f[..1]) == [Tool(CancelSave)];
    assert Allowed(ctx) == Compress(f);
  }

  /** A leading spacer is kept: in the add and draw modes the toolbar starts with a spacer. */
  lemma DrawModeStartsWithSpacer(ctx: ToolbarContext)
    requires ctx.mode.Some? && IsAddOrDrawMode(ctx.mode.value.id)
    ensures |Allowed(ctx)| > 0 && Allowed(ctx)[0] == Spacer
  {
    var mode := ctx.mode.value;
    assert ModeTools(mode, ctx.graph) == DrawTools;
    FilterKeepsFirst(mode, ctx.otherAvailable, DrawTools);
  }

  /**
   * In the add and draw modes the way-segments tool is shown exactly when
   * the mode id names a line or an area, so never while adding a point.
   */
  lemma WaySegmentsShownForLinesAndAreas(ctx: ToolbarContext)
    requires ctx.mode.Some? && IsAddOrDrawMode(ctx.mode.value.id)
    ensures Tool(Segments) in Allowed(ctx) <==> ctx.mode.value.id != "add-point"
  {
    var mode := ctx.mode.value;
    assert ModeTools(mode, ctx.graph) == DrawTools;
    var f := Filter(mode, ctx.otherAvailable, DrawTools);
    CompressSameEntries(f);
    assert Tool(Segments) in DrawTools by {
      assert DrawTools[3] == Tool(Segments);
    }
    assert Tool(Segments) in Allowed(ctx) <==> WaySegments.Available(mode.id);
    WaySegments.AvailabilityInModes();
    if mode.id == "add-point" {
      assert !WaySegments.Available(mode.id);
    } else {
      assert WaySegments.Available(mode.id);
    }
  }
}
