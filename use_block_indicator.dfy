/**
 * `useBlockIndicator`: the delayed show / delayed hide machine behind the
 * block indicator, the classifier that names a block's type, and where the
 * indicator is anchored. As in the hover toolbar, a hide timer whose ref is
 * overwritten without `clearTimeout` stays pending as a stray timer.
 */
module UseBlockIndicator {
  import opened Wrappers
  import opened Dom
  import opened BlockIndicator

  // ---------------------------------------------------------------------------
  // The type classifier

  /** The type names `getBlockType` can answer, in the order it tests them. */
  const Priority: seq<BlockType> := [Header, Paragraph, ListBlock, Quote, Code, Table, Image]

  /** The name a block type is known by. */
  function TypeName(t: BlockType): string {
    match t
    case Header => "header"
    case Paragraph => "paragraph"
    case ListBlock => "list"
    case Quote => "quote"
    case Code => "code"
    case Table => "table"
    case Image => "image"
    case OtherType => "paragraph"
  }

  /**
   * The evidence for each type taken on its own: the block's own class, the
   * tags found inside it (the lower-case names a selector matches), or for a
   * paragraph the block's own tag.
   */
  predicate Shows(e: Element, t: BlockType) {
    match t
    case Header => HasClass(e, "ce-header") || "h1" in e.descendantTags || "h2" in e.descendantTags
                   || "h3" in e.descendantTags || "h4" in e.descendantTags || "h5" in e.descendantTags
                   || "h6" in e.descendantTags
    case Paragraph => HasClass(e, "ce-paragraph") || "p" in e.descendantTags || e.tagName == "P"
    case ListBlock => HasClass(e, "cdx-list") || "ul" in e.descendantTags || "ol" in e.descendantTags
    case Quote => HasClass(e, "cdx-quote") || "blockquote" in e.descendantTags
    case Code => HasClass(e, "ce-code") || "pre" in e.descendantTags || "code" in e.descendantTags
    case Table => HasClass(e, "tc-table") || "table" in e.descendantTags
    case Image => HasClass(e, "image-tool") || "img" in e.descendantTags
    case OtherType => false
  }

  /** The first of `kinds` the block shows evidence for. */
  function FirstShown(e: Element, kinds: seq<BlockType>): (r: Option<BlockType>)
    ensures r.Some? ==> r.value in kinds && Shows(e, r.value)
    ensures r.Some? ==> exists i :: 0 <= i < |kinds| && kinds[i] == r.value && forall j :: 0 <= j < i ==> !Shows(e, kinds[j])
    ensures r.None? ==> forall k :: k in kinds ==> !Shows(e, k)
  {
    if kinds == [] then None
    else if Shows(e, kinds[0]) then Some(kinds[0])
    else FirstShown(e, kinds[1..])
  }

  /** `getBlockType`: a chain of tests in a fixed order, falling back to a paragraph. */
  function GetBlockType(e: Element): string {
    if HasClass(e, "ce-header") || "h1" in e.descendantTags || "h2" in e.descendantTags
       || "h3" in e.descendantTags || "h4" in e.descendantTags || "h5" in e.descendantTags
       || "h6" in e.descendantTags then "header"
    else if HasClass(e, "ce-paragraph") || "p" in e.descendantTags || e.tagName == "P" then "paragraph"
    else if HasClass(e, "cdx-list") || "ul" in e.descendantTags || "ol" in e.descendantTags then "list"
    else if HasClass(e, "cdx-quote") || "blockquote" in e.descendantTags then "quote"
    else if HasClass(e, "ce-code") || "pre" in e.descendantTags || "code" in e.descendantTags then "code"
    else if HasClass(e, "tc-table") || "table" in e.descendantTags then "table"
    else if HasClass(e, "image-tool") || "img" in e.descendantTags then "image"
    else "paragraph"
  }

  /**
   * The classifier names the first type in priority order that the block
   * shows evidence for, and a paragraph when it shows none.
   */
  lemma {:induction false} GetBlockTypeIsFirstShown(e: Element)
    ensures GetBlockType(e) == TypeName(FirstShown(e, Priority).GetOr(Paragraph))
  {
    var k := Priority;
    assert FirstShown(e, k) == if Shows(e, Header) then Some(Header) else FirstShown(e, k[1..]);
    assert k[1..][0] == Paragraph && k[1..][1..] == k[2..];
    assert FirstShown(e, k[1..]) == if Shows(e, Paragraph) then Some(Paragraph) else FirstShown(e, k[2..]);
    assert k[2..][0] == ListBlock && k[2..][1..] == k[3..];
    assert FirstShown(e, k[2..]) == if Shows(e, ListBlock) then Some(ListBlock) else FirstShown(e, k[3..]);
    assert k[3..][0] == Quote && k[3..][1..] == k[4..];
    assert FirstShown(e, k[3..]) == if Shows(e, Quote) then Some(Quote) else FirstShown(e, k[4..]);
    assert k[4..][0] == Code && k[4..][1..] == k[5..];
    assert FirstShown(e, k[4..]) == if Shows(e, Code) then Some(Code) else FirstShown(e, k[5..]);
    assert k[5..][0] == Table && k[5..][1..] == k[6..];
    assert FirstShown(e, k[5..]) == if Shows(e, Table) then Some(Table) else FirstShown(e, k[6..]);
    assert k[6..][0] == Image && k[6..][1..] == [];
    assert FirstShown(e, k[6..]) == if Shows(e, Image) then Some(Image) else None;
  }

  /** The answer is always one of the seven known types, so the indicator never shows the fallback label. */
  lemma GetBlockTypeKnown(e: Element)
    ensures TypeOfName(GetBlockType(e)) != OtherType
    ensures TypeName(TypeOfName(GetBlockType(e))) == GetBlockType(e)
  {
  }

  /** A header wins over every other evidence; a block with no evidence is a paragraph. */
  lemma HeaderFirstParagraphLast(e: Element)
    ensures Shows(e, Header) ==> GetBlockType(e) == "header"
    ensures (forall k :: k in Priority ==> !Shows(e, k)) ==> GetBlockType(e) == "paragraph"
  {
    if forall k :: k in Priority ==> !Shows(e, k) {
      assert !Shows(e, Header) && !Shows(e, Paragraph) && !Shows(e, ListBlock) && !Shows(e, Quote);
      assert !Shows(e, Code) && !Shows(e, Table) && !Shows(e, Image);
    }
  }

  // ---------------------------------------------------------------------------
  // The show / hide machine

  datatype IndicatorShow = IndicatorShow(x: real, y: real, block: Element, blockType: string)

  datatype IndicatorState = IndicatorState(
    listening: bool,
    position: Position,
    currentBlock: Option<Element>,
    blockType: string,
    pendingShow: Option<IndicatorShow>,
    pendingHide: bool,
    strayHides: nat,
    lastHovered: Option<Element>,
    hovered: Option<Element>)

  /** The first render; `listening` is `enabled && editorInstance`. */
  function Initial(listening: bool): IndicatorState {
    IndicatorState(listening, Position(0.0, 0.0, false), None, "paragraph", None, false, 0, None, None)
  }

  /** The indicator is drawn exactly for the current block, which is the last hovered one. */
  predicate Valid(s: IndicatorState) {
    && (s.position.visible <==> s.currentBlock.Some?)
    && s.lastHovered == s.currentBlock
    && (s.pendingShow.Some? ==> !s.pendingHide)
  }

  /**
   * `showIndicator`: cancels the pending hide; on the last hovered block only
   * moves the indicator; otherwise replaces any pending show.
   */
  function Show(s: IndicatorState, x: real, y: real, block: Element, blockType: string): IndicatorState {
    var t := s.(pendingHide := false);
    if s.lastHovered == Some(block) then t.(position := s.position.(x := x, y := y))
    else t.(pendingShow := Some(IndicatorShow(x, y, block, blockType)))
  }

  /** `hideIndicator`: cancels the pending show and starts a hide timer over the old one. */
  function Hide(s: IndicatorState): IndicatorState {
    s.(pendingShow := None, pendingHide := true, strayHides := if s.pendingHide then s.strayHides + 1 else s.strayHides)
  }

  function FireShow(s: IndicatorState): IndicatorState
    requires s.pendingShow.Some?
  {
    var q := s.pendingShow.value;
    s.(pendingShow := None, currentBlock := Some(q.block), blockType := q.blockType,
       position := Position(q.x, q.y, true), lastHovered := Some(q.block))
  }

  /** What every hide does: hidden, no block; the position and the type are kept. */
  function Cleared(s: IndicatorState): IndicatorState {
    s.(position := s.position.(visible := false), currentBlock := None, lastHovered := None)
  }

  function FireHide(s: IndicatorState): IndicatorState
    requires s.pendingHide
  {
    Cleared(s.(pendingHide := false))
  }

  function FireStrayHide(s: IndicatorState): IndicatorState
    requires s.strayHides > 0
  {
    Cleared(s.(strayHides := s.strayHides - 1))
  }

  /** `hideImmediately`: both tracked timers cancelled, hidden at once. */
  function HideNow(s: IndicatorState): IndicatorState {
    Cleared(s.(pendingShow := None, pendingHide := false))
  }

  /** The block test of this hook's `getBlockElement`. */
  predicate IsIndicatorBlock(e: Element) {
    HasClass(e, "ce-block") || HasClass(e, "cdx-block") || "data-block-id" in e.attributes
    || HasClass(e, "ce-paragraph") || HasClass(e, "ce-header") || HasClass(e, "cdx-list")
    || HasClass(e, "cdx-quote")
  }

  /** `calculateIndicatorPosition`: the block's left edge, halfway down. */
  function IndicatorAnchor(r: Rect, sc: Scroll): (p: Point)
    ensures p.x == PageLeft(r, sc)
    ensures p.y - PageTop(r, sc) == PageTop(r, sc) + r.height - p.y
  {
    Point(r.left + ScrollLeft(sc), r.top + ScrollTop(sc) + r.height / 2.0)
  }

  /**
   * `mousemove`: leaving the editor, or reaching no block, hides if a block
   * was hovered; a new block is shown with its type at its anchor, `r` being
   * that block's rectangle.
   */
  function MouseMove(s: IndicatorState, chain: seq<Element>, inEditor: bool, r: Rect, sc: Scroll): IndicatorState {
    if !s.listening then s
    else if !inEditor then
      if s.hovered.Some? then Hide(s.(hovered := None)) else s
    else
      var b := FirstBlock(chain, IsIndicatorBlock);
      if b.Some? && b != s.hovered then
        var p := IndicatorAnchor(r, sc);
        Show(s.(hovered := b), p.x, p.y, b.value, GetBlockType(b.value))
      else if b.None? && s.hovered.Some? then Hide(s.(hovered := None))
      else s
  }

  /** Scroll and keydown hide at once, shown or not. */
  function ScrollOrKey(s: IndicatorState): IndicatorState {
    if s.listening then HideNow(s) else s
  }

  lemma StepsKeepValid(s: IndicatorState, x: real, y: real, b: Element, t: string,
                       chain: seq<Element>, inEditor: bool, r: Rect, sc: Scroll)
    requires Valid(s)
    ensures Valid(Show(s, x, y, b, t)) && Valid(Hide(s)) && Valid(HideNow(s)) && Valid(ScrollOrKey(s))
    ensures s.pendingShow.Some? ==> Valid(FireShow(s))
    ensures s.pendingHide ==> Valid(FireHide(s))
    ensures s.strayHides > 0 ==> Valid(FireStrayHide(s))
    ensures Valid(MouseMove(s, chain, inEditor, r, sc))
  {
  }

  /** The indicator is drawn exactly while there is a current block. */
  lemma IndicatorDrawnIffBlock(s: IndicatorState)
    requires Valid(s)
    ensures IndicatorPlacement(s.position).Some? <==> s.currentBlock.Some?
  {
  }

  /**
   * Moving onto a new block and letting the show fire draws the indicator
   * 50 px left of the block's left page edge, level with the block's middle,
   * labelled with the block's type.
   */
  lemma IndicatorBesideBlock(s: IndicatorState, chain: seq<Element>, r: Rect, sc: Scroll)
    requires s.listening
    requires var b := FirstBlock(chain, IsIndicatorBlock); b.Some? && b != s.hovered && b != s.lastHovered
    ensures var u := MouseMove(s, chain, true, r, sc);
      && u.pendingShow.Some?
      && var w := FireShow(u);
      && IndicatorPlacement(w.position) == Some(Point(PageLeft(r, sc) - 50.0, PageTop(r, sc) + r.height / 2.0))
      && w.currentBlock == FirstBlock(chain, IsIndicatorBlock)
      && w.blockType == GetBlockType(FirstBlock(chain, IsIndicatorBlock).value)
  {
  }

  /** On the last hovered block a show cancels the pending hide and only moves the indicator. */
  lemma ShowSameBlockOnlyMoves(s: IndicatorState, x: real, y: real, b: Element, t: string)
    requires s.lastHovered == Some(b)
    ensures Show(s, x, y, b, t) == s.(pendingHide := false, position := s.position.(x := x, y := y))
  {
  }

  /** Any other show, once its timer fires, draws that block with that type at that point. */
  lemma ShowThenFire(s: IndicatorState, x: real, y: real, b: Element, t: string)
    requires s.lastHovered != Some(b)
    ensures var u := FireShow(Show(s, x, y, b, t));
      && u.currentBlock == Some(b) && u.lastHovered == Some(b) && u.blockType == t
      && u.position == Position(x, y, true) && !u.pendingHide
  {
  }

  /** A hide, when it fires, clears the block but keeps the last type. */
  lemma HideThenFire(s: IndicatorState)
    ensures Hide(s).pendingShow.None?
    ensures var u := FireHide(Hide(s));
      !u.position.visible && u.currentBlock.None? && u.lastHovered.None? && u.blockType == s.blockType
  {
  }

  /** Scroll and keydown cancel both timers and hide at once, whatever was shown. */
  lemma ScrollOrKeyClears(s: IndicatorState)
    requires s.listening
    ensures var u := ScrollOrKey(s);
      && u.pendingShow.None? && !u.pendingHide && !u.position.visible
      && u.currentBlock.None? && u.lastHovered.None? && u.blockType == s.blockType
  {
  }

  /** The type a mouse move schedules for a new block is the classifier's answer for it. */
  lemma {:induction false} MouseMoveClassifies(s: IndicatorState, chain: seq<Element>, r: Rect, sc: Scroll)
    requires s.listening
    requires FirstBlock(chain, IsIndicatorBlock).Some? && FirstBlock(chain, IsIndicatorBlock) != s.hovered
    requires s.lastHovered != FirstBlock(chain, IsIndicatorBlock)
    ensures var b := FirstBlock(chain, IsIndicatorBlock).value;
      var p := IndicatorAnchor(r, sc);
      MouseMove(s, chain, true, r, sc).pendingShow == Some(IndicatorShow(p.x, p.y, b, GetBlockType(b)))
  {
  }

  /** Two hides in a row leave the first timer stray; a later show cannot cancel it. */
  lemma StrayHideOutlivesShow(s: IndicatorState, x: real, y: real, b: Element, t: string)
    requires s.pendingHide
    ensures var u := Show(Hide(s), x, y, b, t);
      !u.pendingHide && u.strayHides == s.strayHides + 1 && !FireStrayHide(u).position.visible
  {
  }

  // ---------------------------------------------------------------------------
  // The hook

  class BlockIndicatorHook {
    const listening: bool
    var position: Position
    var currentBlock: Option<Element>
    var blockType: string
    var pendingShow: Option<IndicatorShow>
    var pendingHide: bool
    var strayHides: nat
    var lastHovered: Option<Element>
    var hovered: Option<Element>

    function State(): IndicatorState
      reads this
    {
      IndicatorState(listening, position, currentBlock, blockType, pendingShow, pendingHide, strayHides, lastHovered, hovered)
    }

    constructor (listening: bool)
      ensures State() == Initial(listening)
    {
      this.listening := listening;
      position := Position(0.0, 0.0, false);
      currentBlock := None;
      blockType := "paragraph";
      pendingShow := None;
      pendingHide := false;
      strayHides := 0;
      lastHovered := None;
      hovered := None;
    }

    method ShowIndicator(x: real, y: real, block: Element, t: string)
      modifies this
      ensures State() == Show(old(State()), x, y, block, t)
    {
      pendingHide := false;
      if lastHovered == Some(block) {
        position := position.(x := x, y := y);
        return;
      }
      pendingShow := Some(IndicatorShow(x, y, block, t));
    }

    method HideIndicator()
      modifies this
      ensures State() == Hide(old(State()))
    {
      pendingShow := None;
      if pendingHide {
        strayHides := strayHides + 1;
      }
      pendingHide := true;
    }

    method FireShowTimer()
      requires pendingShow.Some?
      modifies this
      ensures State() == FireShow(old(State()))
    {
      var q := pendingShow.value;
      pendingShow := None;
      currentBlock := Some(q.block);
      blockType := q.blockType;
      position := Position(q.x, q.y, true);
      lastHovered := Some(q.block);
    }

    method FireHideTimer()
      requires pendingHide
      modifies this
      ensures State() == FireHide(old(State()))
    {
      pendingHide := false;
      position := position.(visible := false);
      currentBlock := None;
      lastHovered := None;
    }

    method FireStrayHideTimer()
      requires strayHides > 0
      modifies this
      ensures State() == FireStrayHide(old(State()))
    {
      strayHides := strayHides - 1;
      position := position.(visible := false);
      currentBlock := None;
      lastHovered := None;
    }

    method HideImmediately()
      modifies this
      ensures State() == HideNow(old(State()))
    {
      pendingShow := None;
      pendingHide := false;
      position := position.(visible := false);
      currentBlock := None;
      lastHovered := None;
    }

    method HandleMouseMove(chain: seq<Element>, inEditor: bool, r: Rect, sc: Scroll)
      modifies this
      ensures State() == MouseMove(old(State()), chain, inEditor, r, sc)
    {
      if !listening {
        return;
      }
      if !inEditor {
        if hovered.Some? {
          hovered := None;
          HideIndicator();
        }
        return;
      }
      var b := GetBlockElement(chain, IsIndicatorBlock);
      if b.Some? && b != hovered {
        hovered := b;
        var p := IndicatorAnchor(r, sc);
        ShowIndicator(p.x, p.y, b.value, GetBlockType(b.value));
      } else if b.None? && hovered.Some? {
        hovered := None;
        HideIndicator();
      }
    }

    /** The scroll and keydown listeners. */
    method HandleScrollOrKey()
      modifies this
      ensures State() == ScrollOrKey(old(State()))
    {
      if listening {
        HideImmediately();
      }
    }
  }
}
