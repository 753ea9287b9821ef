/**
 * The two-editor sync page: each event that editor 1 reports is classified
 * into a sync intent (a range and which layers to copy), and
 * `syncCellRange` copies that range of editor 1's active sheet onto
 * editor 2's, values first, then formulas, then styles and merges.
 */
module SyncEngine {
  import opened JsValue
  import opened SheetModel

  /** Which layers a sync copies: `isValue`, `isFormula`, `isStyles`. */
  datatype Flags = Flags(values: bool, formulas: bool, styles: bool)

  /** A range as the page builds it, straight from the event's fields. */
  datatype Box = Box(row: Value, col: Value, rowCount: Value, colCount: Value)

  datatype Intent =
    | NoSync
    | Sync(source: Box, target: Box, flags: Flags)
      /** The handler throws a TypeError reading `property` of a missing object. */
    | Throws(property: string)

  const ValuesAndFormulas := Flags(true, true, false)
  const StylesOnly := Flags(false, false, true)
  const Everything := Flags(true, true, true)

  /** `count || 1`: a missing or zero count becomes 1. */
  function OrOne(count: Value): (r: Value)
    ensures Truthy(r)
    ensures Truthy(count) ==> r == count
  {
    if Truthy(count) then count else Num(1)
  }

  /** The 1×1 range at the event's cell. */
  function CellBox(lastEvent: Value): Box {
    Box(Get(lastEvent, "row"), Get(lastEvent, "col"), Num(1), Num(1))
  }

  /** The range of a span or clear event, its counts defaulted to 1. */
  function RangeBox(v: Value): Box {
    Box(Get(v, "row"), Get(v, "col"), OrOne(Get(v, "rowCount")), OrOne(Get(v, "colCount")))
  }

  predicate IsFormulaText(v: Value) {
    v.Str? && |v.s| > 0 && v.s[0] == '='
  }

  /**
   * The event switch of the page: what a `lastEvent` record of type
   * `eventType` asks to copy from editor 1 to editor 2.
   */
  function Classify(eventType: string, lastEvent: Value): (r: Intent)
    ensures r.Sync? ==> r.source == r.target
    ensures r.Throws? ==> eventType == "ClipboardPasted"
    ensures r.Sync? && r.flags.styles ==> eventType == "RangeChanged" || eventType == "ClipboardPasted"
  {
    var defined := (key: string) => Get(lastEvent, key) != Undefined;
    if eventType == "ValueChanged" then
      if defined("newValue") && defined("row") && defined("col") then
        if IsFormulaText(Get(lastEvent, "newValue")) then
          Sync(CellBox(lastEvent), CellBox(lastEvent), ValuesAndFormulas)
        else
          Sync(CellBox(lastEvent), CellBox(lastEvent), ValuesAndFormulas)
      else NoSync
    else if eventType == "UserFormulaEntered" then
      if defined("formula") && defined("row") && defined("col") then
        Sync(CellBox(lastEvent), CellBox(lastEvent), ValuesAndFormulas)
      else NoSync
    else if eventType == "RangeChanged" then
      var span := Get(lastEvent, "propertyName") == Str("span");
      var action := Get(lastEvent, "action");
      if span && action == Str("add") then
        Sync(RangeBox(lastEvent), RangeBox(lastEvent), StylesOnly)
      else if span && action == Str("remove") then
        Sync(RangeBox(lastEvent), RangeBox(lastEvent), StylesOnly)
      else if action == Str("clear") || action == Num(2) then
        Sync(RangeBox(lastEvent), RangeBox(lastEvent), ValuesAndFormulas)
      else NoSync
    else if eventType == "ClipboardPasted" then
      var cellRange := Get(lastEvent, "cellRange");
      match Prop(cellRange, "row")
      case None => Throws("row")
      case Some(row) =>
        if row != Undefined && Get(cellRange, "col") != Undefined then
          Sync(RangeBox(cellRange), RangeBox(cellRange), Everything)
        else NoSync
    else NoSync
  }

  /** A cell edit syncs its one cell's values and formulas, formula text or not, exactly when all three fields are defined. */
  lemma ValueChangedSyncsCell(lastEvent: Value)
    ensures var r := Classify("ValueChanged", lastEvent);
      && (r.Sync? <==> Get(lastEvent, "newValue") != Undefined && Get(lastEvent, "row") != Undefined && Get(lastEvent, "col") != Undefined)
      && (r.Sync? ==> r.source == Box(Get(lastEvent, "row"), Get(lastEvent, "col"), Num(1), Num(1)))
      && (r.Sync? ==> r.flags.values && r.flags.formulas && !r.flags.styles)
      && (!r.Sync? ==> r == NoSync)
  {
  }

  /** A formula entry syncs its one cell's values and formulas exactly when formula, row and col are defined. */
  lemma FormulaEnteredSyncsCell(lastEvent: Value)
    ensures var r := Classify("UserFormulaEntered", lastEvent);
      && (r.Sync? <==> Get(lastEvent, "formula") != Undefined && Get(lastEvent, "row") != Undefined && Get(lastEvent, "col") != Undefined)
      && (r.Sync? ==> r.source == Box(Get(lastEvent, "row"), Get(lastEvent, "col"), Num(1), Num(1)))
      && (r.Sync? ==> r.flags == Flags(true, true, false))
      && (!r.Sync? ==> r == NoSync)
  {
  }

  /** Merging or unmerging cells copies styles and merges only, over a range whose counts are never 0 or missing. */
  lemma SpanChangeSyncsStyles(lastEvent: Value)
    requires Get(lastEvent, "propertyName") == Str("span")
    requires Get(lastEvent, "action") in {Str("add"), Str("remove")}
    ensures var r := Classify("RangeChanged", lastEvent);
      && r.Sync? && r.flags == Flags(false, false, true)
      && r.source.row == Get(lastEvent, "row") && r.source.col == Get(lastEvent, "col")
      && Truthy(r.source.rowCount) && Truthy(r.source.colCount)
      && (Truthy(Get(lastEvent, "rowCount")) ==> r.source.rowCount == Get(lastEvent, "rowCount"))
      && (!Truthy(Get(lastEvent, "rowCount")) ==> r.source.rowCount == Num(1))
  {
  }

  /** A clear that is not a span change copies values and formulas without styles; any other range change copies nothing. */
  lemma ClearSyncsValues(lastEvent: Value)
    requires !(Get(lastEvent, "propertyName") == Str("span") && Get(lastEvent, "action") in {Str("add"), Str("remove")})
    ensures var r := Classify("RangeChanged", lastEvent);
      && (r.Sync? <==> Get(lastEvent, "action") == Str("clear") || Get(lastEvent, "action") == Num(2))
      && (r.Sync? ==> r.flags == Flags(true, true, false) && r.source == RangeBox(lastEvent))
      && (!r.Sync? ==> r == NoSync)
  {
  }

  /**
   * A paste copies all three layers over its `cellRange`; without a
   * `cellRange` the handler throws instead of skipping.
   */
  lemma PasteSyncsEverything(lastEvent: Value)
    ensures var r := Classify("ClipboardPasted", lastEvent);
      var cellRange := Get(lastEvent, "cellRange");
      && (r.Throws? <==> cellRange == Undefined || cellRange == Null)
      && (r.Sync? <==> !r.Throws? && Get(cellRange, "row") != Undefined && Get(cellRange, "col") != Undefined)
      && (r.Sync? ==> r.flags == Flags(true, true, true) && r.source == RangeBox(cellRange))
  {
  }

  /** Selection changes, cell property changes and every other event type copy nothing. */
  lemma OtherEventsIgnored(eventType: string, lastEvent: Value)
    requires eventType !in {"ValueChanged", "UserFormulaEntered", "RangeChanged", "ClipboardPasted"}
    ensures Classify(eventType, lastEvent) == NoSync
  {
  }

  /** The range as `getArray` and friends take it, when every field is a number. */
  function AreaOf(b: Box): (r: Option<Area>)
    ensures r.Some? <==> b.row.Num? && b.col.Num? && b.rowCount.Num? && b.colCount.Num?
  {
    if b.row.Num? && b.col.Num? && b.rowCount.Num? && b.colCount.Num? then
      Some(Area(b.row.n, b.col.n, b.rowCount.n, b.colCount.n))
    else None
  }

  /**
   * What `syncCellRange` makes of editor 2's sheet `dst`, given editor 1's
   * sheet `src` (None: editor 1 has none, so every read is empty).  Each
   * flag guards its own layer, and the sheet's name and size never change.
   */
  function Synced(src: Option<Sheet>, dst: Sheet, source: Area, target: Area, flags: Flags): (r: Sheet)
    ensures r.name == dst.name && r.rowCount == dst.rowCount && r.colCount == dst.colCount
    ensures !flags.values ==> r.values == dst.values
    ensures !flags.formulas ==> r.formulas == dst.formulas
    ensures !flags.styles ==> r.styles == dst.styles && r.spans == dst.spans
  {
    var values := if src.None? then [] else Grid(src.value, source, Processed);
    var formulas := if src.None? then [] else Grid(src.value, source, Raw);
    var styles := if src.None? then [] else Grid(src.value, source, Style);
    var merges := if src.None? then [] else Meeting(src.value.spans, source);
    var afterValues := if flags.values then SetArray(dst, target.row, target.col, values, false) else dst;
    var afterFormulas := if flags.formulas then SetArray(afterValues, target.row, target.col, formulas, true) else afterValues;
    if flags.styles then Restyled(afterFormulas, target.row, target.col, source.rowCount, source.colCount, styles, merges)
    else afterFormulas
  }

  lemma MeetingTwice(spans: seq<Span>, a: Area)
    ensures Meeting(Meeting(spans, a), a) == Meeting(spans, a)
  {
  }

  /**
   * After a sync over one range, each copied layer of editor 2 reads over
   * that range exactly as editor 1 does, and editor 2's merges there are
   * editor 1's.
   */
  lemma {:induction false} SyncedMirrors(src: Sheet, dst: Sheet, a: Area, flags: Flags)
    ensures var d := Synced(Some(src), dst, a, a, flags);
      && (flags.values ==> Grid(d, a, Processed) == Grid(src, a, Processed))
      && (flags.formulas ==> Grid(d, a, Raw) == Grid(src, a, Raw))
      && (flags.styles ==> Grid(d, a, Style) == Grid(src, a, Style) && Meeting(d.spans, a) == Meeting(src.spans, a))
  {
    if flags.values {
      MirrorsValues(src, dst, a, flags);
    }
    if flags.formulas {
      MirrorsFormulas(src, dst, a, flags);
    }
    if flags.styles {
      MirrorsStyles(src, dst, a, flags);
    }
  }

  lemma MirrorsValues(src: Sheet, dst: Sheet, a: Area, flags: Flags)
    requires flags.values
    ensures Grid(Synced(Some(src), dst, a, a, flags), a, Processed) == Grid(src, a, Processed)
  {
    var values := Grid(src, a, Processed);
    var afterValues := SetArray(dst, a.row, a.col, values, false);
    var d := Synced(Some(src), dst, a, a, flags);
    assert d.values == afterValues.values;
    GridAgrees(d, afterValues, a, Processed);
    WriteThenRead(dst, a, values, false);
  }

  lemma MirrorsFormulas(src: Sheet, dst: Sheet, a: Area, flags: Flags)
    requires flags.formulas
    ensures Grid(Synced(Some(src), dst, a, a, flags), a, Raw) == Grid(src, a, Raw)
  {
    var formulas := Grid(src, a, Raw);
    var afterValues := if flags.values then SetArray(dst, a.row, a.col, Grid(src, a, Processed), false) else dst;
    var afterFormulas := SetArray(afterValues, a.row, a.col, formulas, true);
    var d := Synced(Some(src), dst, a, a, flags);
    assert d.values == afterFormulas.values && d.formulas == afterFormulas.formulas;
    GridAgrees(d, afterFormulas, a, Raw);
    WriteThenRead(afterValues, a, formulas, true);
  }

  /** Writing a grid read from an area of the same size and reading that area back gives the grid. */
  lemma WriteThenRead(sh: Sheet, a: Area, grid: seq<seq<Value>>, raw: bool)
    requires |grid| == Clamp(a.rowCount)
    requires forall i :: 0 <= i < |grid| ==> |grid[i]| == Clamp(a.colCount)
    ensures Grid(SetArray(sh, a.row, a.col, grid, raw), a, if raw then Raw else Processed) == grid
  {
    GridOfSetArray(sh, a.row, a.col, grid, Clamp(a.colCount), raw);
    GridClamped(SetArray(sh, a.row, a.col, grid, raw), a, if raw then Raw else Processed);
  }

  lemma MirrorsStyles(src: Sheet, dst: Sheet, a: Area, flags: Flags)
    requires flags.styles
    ensures var d := Synced(Some(src), dst, a, a, flags);
      Grid(d, a, Style) == Grid(src, a, Style) && Meeting(d.spans, a) == Meeting(src.spans, a)
  {
    var afterValues := if flags.values then SetArray(dst, a.row, a.col, Grid(src, a, Processed), false) else dst;
    var afterFormulas := if flags.formulas then SetArray(afterValues, a.row, a.col, Grid(src, a, Raw), true) else afterValues;
    var styles := Grid(src, a, Style);
    StylesAndMergesReadBack(afterFormulas, a.row, a.col, a.rowCount, a.colCount, styles, Clamp(a.colCount), Meeting(src.spans, a));
    var d := Synced(Some(src), dst, a, a, flags);
    assert d == Restyled(afterFormulas, a.row, a.col, a.rowCount, a.colCount, styles, Meeting(src.spans, a));
    GridClamped(d, a, Style);
    MeetingTwice(src.spans, a);
  }

  /** A read depends only on the cells of its layer. */
  lemma GridAgrees(s1: Sheet, s2: Sheet, a: Area, layer: Layer)
    requires forall p :: CellOf(s1, layer, p) == CellOf(s2, layer, p)
    ensures Grid(s1, a, layer) == Grid(s2, a, layer)
  {
    ReadOfIsGrid(Grid(s1, a, layer), s2, a, layer);
  }

  /** A read over negative counts is a read over zero. */
  lemma GridClamped(sh: Sheet, a: Area, layer: Layer)
    ensures Grid(sh, a, layer) == Grid(sh, Area(a.row, a.col, Clamp(a.rowCount), Clamp(a.colCount)), layer)
  {
    ReadOfIsGrid(Grid(sh, a, layer), sh, Area(a.row, a.col, Clamp(a.rowCount), Clamp(a.colCount)), layer);
  }

  /**
   * `syncCellRange(source, target, flags)`: copies from editor 1's active
   * sheet to editor 2's, each layer only when its flag is set; styles are
   * written with the source's counts.
   */
  method SyncCellRange(first: Editor, second: Editor, source: Area, target: Area, flags: Flags)
    requires first != second
    modifies second
    ensures second.ready == old(second.ready) && second.active == old(second.active)
    ensures var k := old(second.SheetIndex(Undefined));
      var src := first.SheetIndex(Undefined);
      second.sheets == if k.None? then old(second.sheets)
        else old(second.sheets)[k.value := Synced(if src.None? then None else Some(first.sheets[src.value]),
                                                  old(second.sheets)[k.value], source, target, flags)]
  {
    if flags.values {
      var values := first.Data(source.row, source.col, source.rowCount, source.colCount, Undefined, Processed);
      second.SetData(target.row, target.col, values, Undefined, false);
    }
    if flags.formulas {
      var formulas := first.Data(source.row, source.col, source.rowCount, source.colCount, Undefined, Raw);
      second.SetData(target.row, target.col, formulas, Undefined, true);
    }
    if flags.styles {
      var styles, merges := first.GetStylesAndMerges(source.row, source.col, Some(source.rowCount), Some(source.colCount), Undefined);
      second.SetStylesAndMerges(target.row, target.col, source.rowCount, source.colCount, styles, merges, Undefined);
    }
  }

  /**
   * The page's event callback: classify the event and, for a sync whose
   * range is numeric, copy it.  Returns the intent.
   */
  method OnEditorEvent(first: Editor, second: Editor, eventType: string, lastEvent: Value) returns (intent: Intent)
    requires first != second
    modifies second
    ensures intent == Classify(eventType, lastEvent)
    ensures !intent.Sync? || AreaOf(intent.source).None? ==> second.sheets == old(second.sheets)
    ensures intent.Sync? && AreaOf(intent.source).Some? ==>
      var a := AreaOf(intent.source).value;
      var k := old(second.SheetIndex(Undefined));
      var src := first.SheetIndex(Undefined);
      second.sheets == if k.None? then old(second.sheets)
        else old(second.sheets)[k.value := Synced(if src.None? then None else Some(first.sheets[src.value]),
                                                  old(second.sheets)[k.value], a, a, intent.flags)]
  {
    intent := Classify(eventType, lastEvent);
    if intent.Sync? {
      var area := AreaOf(intent.source);
      if area.Some? {
        SyncCellRange(first, second, area.value, area.value, intent.flags);
      }
    }
  }
}
