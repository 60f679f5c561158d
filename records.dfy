/**
 * The editor as the record store sees it, the flat params record that is
 * stored and persisted, and `EditorParamsConverter`, the pure mapping from the
 * first to the second (src/display/editor/annotation_editor_manager.js).
 */
module Records {
  import opened Wrappers

  /** One position rectangle of a highlight. */
  datatype Box = Box(x: real, y: real, width: real, height: real)

  /** The `_initialOptions` object of an editor. */
  datatype InitialOptions = InitialOptions(isCentered: Option<bool>)

  /**
   * What the converter reads from a live editor: its own fields, and what the
   * getters `getText`, `getMode`, `getMethodOfCreation` and `getBoxes` of a
   * highlight editor answer. `boxes` is `None` when `getBoxes()` gives
   * `null` or `undefined`.
   */
  datatype Editor = Editor(
    name: string,
    id: string,
    pageIndex: int,
    x: real, y: real, width: real, height: real,
    initialOptions: Option<InitialOptions>,
    text: string,
    mode: int,
    methodOfCreation: string,
    boxes: Option<seq<Box>>)

  /** The fields every converted record has (`fromCommon`). */
  datatype CommonParams = CommonParams(
    pageIndex: int,
    id: Option<string>,
    x: real, y: real, width: real, height: real,
    isCentered: Option<bool>,
    name: string)

  /** The fields a highlight adds (`fromHighlight`). */
  datatype HighlightParams = HighlightParams(
    text: string,
    mode: int,
    methodOfCreation: string,
    boxes: seq<Box>)

  /**
   * A params record, as the store keeps it and as it is written to storage.
   * `hidden` is never set by the converter; a persisted record may carry it.
   * An `id` of `None` is an absent id.
   */
  datatype Record = Record(common: CommonParams, highlight: Option<HighlightParams>, hidden: Option<bool>) {
    function Id(): Option<string> { common.id }
    function PageIndex(): int { common.pageIndex }
  }

  const HighlightEditorName := "highlightEditor"

  /** `cloneBoxes`: a fresh box per input box, copied field by field; nothing for `null`/`undefined`. */
  function CloneBoxes(boxes: Option<seq<Box>>): (r: seq<Box>)
    ensures boxes.None? ==> r == []
    ensures boxes.Some? ==> r == boxes.value
  {
    match boxes
    case None => []
    case Some(bs) => CopyBoxes(bs)
  }

  /** The loop of `cloneBoxes`: each box rebuilt from its four fields. */
  function CopyBoxes(bs: seq<Box>): (r: seq<Box>)
    ensures |r| == |bs|
    ensures forall i :: 0 <= i < |bs| ==>
      r[i].x == bs[i].x && r[i].y == bs[i].y && r[i].width == bs[i].width && r[i].height == bs[i].height
  {
    if bs == [] then []
    else [Box(bs[0].x, bs[0].y, bs[0].width, bs[0].height)] + CopyBoxes(bs[1..])
  }

  /** `fromCommon`: the position, identity and name of any editor. */
  function FromCommon(e: Editor): (c: CommonParams)
    ensures c.id == Some(e.id) && c.pageIndex == e.pageIndex && c.name == e.name
    ensures c.x == e.x && c.y == e.y && c.width == e.width && c.height == e.height
    ensures e.initialOptions.None? ==> c.isCentered.None?
    ensures e.initialOptions.Some? ==> c.isCentered == e.initialOptions.value.isCentered
  {
    CommonParams(
      e.pageIndex, Some(e.id), e.x, e.y, e.width, e.height,
      match e.initialOptions case None => None case Some(o) => o.isCentered,
      e.name)
  }

  /**
   * `fromHighlight`: the common fields plus what the highlight getters
   * answer, with the boxes equal to the editor's (none when it has none).
   */
  function FromHighlight(e: Editor): (r: Record)
    ensures r.common == FromCommon(e) && r.hidden.None? && r.highlight.Some?
    ensures r.highlight.value.text == e.text && r.highlight.value.mode == e.mode
    ensures r.highlight.value.methodOfCreation == e.methodOfCreation
    ensures r.highlight.value.boxes == if e.boxes.Some? then e.boxes.value else []
  {
    Record(
      FromCommon(e),
      Some(HighlightParams(e.text, e.mode, e.methodOfCreation, CloneBoxes(e.boxes))),
      None)
  }

  /** `convertToParams`: only a highlight editor has a params record; any other gives `null`. */
  function ConvertToParams(e: Editor): (r: Option<Record>)
    ensures r.Some? <==> e.name == HighlightEditorName
    ensures r.Some? ==> r.value.Id() == Some(e.id) && r.value.hidden.None?
  {
    if e.name == HighlightEditorName then Some(FromHighlight(e)) else None
  }

  /**
   * A converted highlight carries the editor's id, page, name and geometry,
   * what its getters answer, and a copy of its boxes; it is never hidden.
   */
  lemma ConvertedHighlight(e: Editor)
    requires e.name == HighlightEditorName
    ensures ConvertToParams(e).Some?
    ensures var r := ConvertToParams(e).value;
      r.common == CommonParams(e.pageIndex, Some(e.id), e.x, e.y, e.width, e.height,
                               if e.initialOptions.Some? then e.initialOptions.value.isCentered else None,
                               HighlightEditorName)
      && r.highlight == Some(HighlightParams(e.text, e.mode, e.methodOfCreation,
                                             if e.boxes.Some? then e.boxes.value else []))
      && r.hidden == None
  {
  }

  /**
   * The record depends on nothing but the fields the converter copies: two
   * editors that agree on them convert to equal records.
   */
  lemma ConverterReadsOnlyCopiedFields(e1: Editor, e2: Editor)
    requires e1.name == e2.name && e1.id == e2.id && e1.pageIndex == e2.pageIndex
    requires e1.x == e2.x && e1.y == e2.y && e1.width == e2.width && e1.height == e2.height
    requires (if e1.initialOptions.Some? then e1.initialOptions.value.isCentered else None)
          == (if e2.initialOptions.Some? then e2.initialOptions.value.isCentered else None)
    requires e1.text == e2.text && e1.mode == e2.mode && e1.methodOfCreation == e2.methodOfCreation
    requires CloneBoxes(e1.boxes) == CloneBoxes(e2.boxes)
    ensures ConvertToParams(e1) == ConvertToParams(e2)
  {
  }
}
