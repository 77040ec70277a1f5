/**
 * `useEditorJSToolbar`: the plus button that follows the hovered block and the
 * inline toolbar that follows the text selection. The plus button's show
 * timer is tracked and replaced; its hide timer is never tracked, so every
 * hide stays pending until it fires (counted, not cancellable). The inline
 * toolbar's show timer is tracked; its hide is immediate.
 */
module UseEditorJSToolbar {
  import opened Wrappers
  import opened JsString
  import opened Dom
  import EditorJSToolbar

  datatype ShowRequest = ShowRequest(x: real, y: real, block: Element)
  datatype InlineRequest = InlineRequest(x: real, y: real, text: string)

  /**
   * The hook's state and refs, and the mouse listener's hovered block.
   * `enabled` attaches the scroll and keydown listeners; `listening`
   * (`enabled` and an editor instance) attaches the mouse and selection ones.
   */
  datatype EditorToolbarState = EditorToolbarState(
    enabled: bool,
    listening: bool,
    plusButton: Position,
    inlineToolbar: Position,
    currentBlock: Option<Element>,
    selectedText: string,
    pendingPlusShow: Option<ShowRequest>,
    pendingPlusHides: nat,
    pendingInline: Option<InlineRequest>,
    lastHovered: Option<Element>,
    hovered: Option<Element>)

  function Initial(enabled: bool, editorPresent: bool): EditorToolbarState {
    EditorToolbarState(enabled, enabled && editorPresent, Position(0.0, 0.0, false), Position(0.0, 0.0, false),
                       None, "", None, 0, None, None, None)
  }

  /** The plus button is drawn exactly when there is a current block, which is the last hovered one. */
  predicate Valid(s: EditorToolbarState) {
    && (s.listening ==> s.enabled)
    && (s.plusButton.visible <==> s.currentBlock.Some?)
    && s.lastHovered == s.currentBlock
  }

  /**
   * `showPlusButton`: cancels the pending show; on the last hovered block
   * only moves the button, otherwise schedules the show.
   */
  function ShowPlus(s: EditorToolbarState, x: real, y: real, block: Element): EditorToolbarState {
    var t := s.(pendingPlusShow := None);
    if s.lastHovered == Some(block) then t.(plusButton := s.plusButton.(x := x, y := y))
    else t.(pendingPlusShow := Some(ShowRequest(x, y, block)))
  }

  /** `hidePlusButton`: cancels the pending show and starts an untracked hide timer. */
  function HidePlus(s: EditorToolbarState): EditorToolbarState {
    s.(pendingPlusShow := None, pendingPlusHides := s.pendingPlusHides + 1)
  }

  function FirePlusShow(s: EditorToolbarState): EditorToolbarState
    requires s.pendingPlusShow.Some?
  {
    var q := s.pendingPlusShow.value;
    s.(pendingPlusShow := None, currentBlock := Some(q.block), plusButton := Position(q.x, q.y, true),
       lastHovered := Some(q.block))
  }

  function FirePlusHide(s: EditorToolbarState): EditorToolbarState
    requires s.pendingPlusHides > 0
  {
    s.(pendingPlusHides := s.pendingPlusHides - 1, plusButton := s.plusButton.(visible := false),
       currentBlock := None, lastHovered := None)
  }

  /** `showInlineToolbar`: replaces any pending inline show. */
  function ShowInline(s: EditorToolbarState, x: real, y: real, text: string): EditorToolbarState {
    s.(pendingInline := Some(InlineRequest(x, y, text)))
  }

  function FireInline(s: EditorToolbarState): EditorToolbarState
    requires s.pendingInline.Some?
  {
    var q := s.pendingInline.value;
    s.(pendingInline := None, selectedText := q.text, inlineToolbar := Position(q.x, q.y, true))
  }

  /** `hideInlineToolbar`: cancels the pending show and hides at once, forgetting the text. */
  function HideInline(s: EditorToolbarState): EditorToolbarState {
    s.(pendingInline := None, inlineToolbar := s.inlineToolbar.(visible := false), selectedText := "")
  }

  /** The block test of this hook's `getBlockElement`. */
  predicate IsEditorBlock(e: Element) {
    HasClass(e, "ce-block") || HasClass(e, "cdx-block") || "data-block-id" in e.attributes
    || HasClass(e, "ce-paragraph") || HasClass(e, "ce-header") || HasClass(e, "cdx-list")
    || HasClass(e, "cdx-quote") || HasClass(e, "tc-table") || HasClass(e, "image-tool")
  }

  /** `calculatePlusButtonPosition`: the block's left edge, halfway down. */
  function PlusAnchor(r: Rect, sc: Scroll): (p: Point)
    ensures p.x == PageLeft(r, sc)
    ensures p.y - PageTop(r, sc) == PageTop(r, sc) + r.height - p.y
  {
    Point(r.left + ScrollLeft(sc), r.top + ScrollTop(sc) + r.height / 2.0)
  }

  /** `calculateInlineToolbarPosition`: none for an empty range box, else centred above the range. */
  function InlineAnchor(r: Rect, sc: Scroll): (p: Option<Point>)
    ensures p.None? <==> r.width == 0.0 && r.height == 0.0
    ensures p.Some? ==> p.value.x - PageLeft(r, sc) == PageLeft(r, sc) + r.width - p.value.x
    ensures p.Some? ==> p.value.y == PageTop(r, sc)
  {
    if r.width == 0.0 && r.height == 0.0 then None
    else Some(Point(r.left + ScrollLeft(sc) + r.width / 2.0, r.top + ScrollTop(sc)))
  }

  /**
   * `mousemove` over the element whose ancestor chain is `chain`, `r` being
   * the rectangle of the block found there: leaving the editor, or reaching
   * no block, hides the button if a block was hovered; a new block shows it.
   */
  function MouseMove(s: EditorToolbarState, chain: seq<Element>, inEditor: bool, r: Rect, sc: Scroll): EditorToolbarState {
    if !s.listening then s
    else if !inEditor then
      if s.hovered.Some? then HidePlus(s.(hovered := None)) else s
    else
      var b := FirstBlock(chain, IsEditorBlock);
      if b.Some? && b != s.hovered then
        var p := PlusAnchor(r, sc);
        ShowPlus(s.(hovered := b), p.x, p.y, b.value)
      else if b.None? && s.hovered.Some? then HidePlus(s.(hovered := None))
      else s
  }

  /** What `selectionchange` sees: no range, or the range's text, whether it lies in the editor, and its box. */
  datatype Selection = NoRange | Range(text: string, inEditor: bool, rect: Rect)

  /**
   * `selectionchange`: hides the inline toolbar for no range, a blank
   * selection or one outside the editor; otherwise shows it with the trimmed
   * text, unless the range box is empty.
   */
  function SelectionChange(s: EditorToolbarState, sel: Selection, sc: Scroll): EditorToolbarState {
    if !s.listening then s
    else match sel
      case NoRange => HideInline(s)
      case Range(text, inEditor, r) =>
        var t := Trim(text);
        if t == "" || !inEditor then HideInline(s)
        else
          var p := InlineAnchor(r, sc);
          if p.None? then s else ShowInline(s, p.value.x, p.value.y, t)
  }

  /** Scroll hides both the plus button (after its delay) and the inline toolbar. */
  function OnScroll(s: EditorToolbarState): EditorToolbarState {
    if s.enabled then HideInline(HidePlus(s)) else s
  }

  /** Keydown hides only the inline toolbar. */
  function KeyDown(s: EditorToolbarState): EditorToolbarState {
    if s.enabled then HideInline(s) else s
  }

  // ---------------------------------------------------------------------------
  // Properties of the machine

  lemma StepsKeepValid(s: EditorToolbarState, x: real, y: real, b: Element, text: string)
    requires Valid(s)
    ensures Valid(ShowPlus(s, x, y, b)) && Valid(HidePlus(s)) && Valid(ShowInline(s, x, y, text))
    ensures Valid(HideInline(s)) && Valid(OnScroll(s)) && Valid(KeyDown(s))
    ensures s.pendingPlusShow.Some? ==> Valid(FirePlusShow(s))
    ensures s.pendingPlusHides > 0 ==> Valid(FirePlusHide(s))
    ensures s.pendingInline.Some? ==> Valid(FireInline(s))
  {
  }

  lemma ListenersKeepValid(s: EditorToolbarState, chain: seq<Element>, inEditor: bool, r: Rect,
                           sc: Scroll, sel: Selection)
    requires Valid(s)
    ensures Valid(MouseMove(s, chain, inEditor, r, sc))
    ensures Valid(SelectionChange(s, sel, sc))
  {
    MouseMoveKeepsValid(s, chain, inEditor, r, sc);
    if s.listening && sel.Range? {
      var t := Trim(sel.text);
      if t != "" && sel.inEditor {
        var p := InlineAnchor(sel.rect, sc);
        if p.Some? {
          assert SelectionChange(s, sel, sc) == ShowInline(s, p.value.x, p.value.y, t);
        }
      }
    }
  }

  lemma MouseMoveKeepsValid(s: EditorToolbarState, chain: seq<Element>, inEditor: bool, r: Rect, sc: Scroll)
    requires Valid(s)
    ensures Valid(MouseMove(s, chain, inEditor, r, sc))
  {
    if s.listening && inEditor {
      var b := FirstBlock(chain, IsEditorBlock);
      if b.Some? && b != s.hovered {
        var p := PlusAnchor(r, sc);
        assert MouseMove(s, chain, inEditor, r, sc) == ShowPlus(s.(hovered := b), p.x, p.y, b.value);
      } else if b.None? && s.hovered.Some? {
        assert MouseMove(s, chain, inEditor, r, sc) == HidePlus(s.(hovered := None));
      } else {
        assert MouseMove(s, chain, inEditor, r, sc) == s;
      }
    }
  }

  /** The plus button is drawn exactly while there is a current block. */
  lemma PlusButtonDrawnIffBlock(s: EditorToolbarState)
    requires Valid(s)
    ensures EditorJSToolbar.PlusButtonPlacement(s.plusButton).Some? <==> s.currentBlock.Some?
  {
  }

  /**
   * Moving onto a new block and letting the show fire draws the plus button
   * 40 px left of the block's left page edge, level with the block's middle.
   */
  lemma PlusButtonBesideBlock(s: EditorToolbarState, chain: seq<Element>, r: Rect, sc: Scroll)
    requires s.listening
    requires var b := FirstBlock(chain, IsEditorBlock); b.Some? && b != s.hovered && b != s.lastHovered
    ensures var u := MouseMove(s, chain, true, r, sc);
      && u.pendingPlusShow.Some?
      && var w := FirePlusShow(u);
      && EditorJSToolbar.PlusButtonPlacement(w.plusButton)
         == Some(Point(PageLeft(r, sc) - 40.0, PageTop(r, sc) + r.height / 2.0))
      && w.currentBlock == FirstBlock(chain, IsEditorBlock)
  {
  }

  /**
   * A non-blank selection inside the editor, once its timer fires, draws the
   * inline toolbar centred over the selection and 50 px above its top edge,
   * holding the trimmed text; a hide takes it away again.
   */
  lemma InlineToolbarAboveSelection(s: EditorToolbarState, text: string, rect: Rect, sc: Scroll)
    requires s.listening && Trim(text) != "" && !(rect.width == 0.0 && rect.height == 0.0)
    ensures var u := SelectionChange(s, Range(text, true, rect), sc);
      && u.pendingInline.Some?
      && var w := FireInline(u);
      && EditorJSToolbar.InlineToolbarPlacement(w.inlineToolbar)
         == Some(Point(PageLeft(rect, sc) + rect.width / 2.0, PageTop(rect, sc) - 50.0))
      && w.selectedText == Trim(text)
      && EditorJSToolbar.InlineToolbarPlacement(HideInline(w).inlineToolbar).None?
  {
  }

  /**
   * On the last hovered block a show only moves the button, and it also
   * drops a show pending for another block.
   */
  lemma ShowSameBlockOnlyMoves(s: EditorToolbarState, x: real, y: real, b: Element)
    requires s.lastHovered == Some(b)
    ensures ShowPlus(s, x, y, b) == s.(pendingPlusShow := None, plusButton := s.plusButton.(x := x, y := y))
  {
  }

  /** Any other show, once its timer fires, draws the button for that block at that point. */
  lemma ShowPlusThenFire(s: EditorToolbarState, x: real, y: real, b: Element)
    requires s.lastHovered != Some(b)
    ensures ShowPlus(s, x, y, b).pendingPlusShow == Some(ShowRequest(x, y, b))
    ensures var t := FirePlusShow(ShowPlus(s, x, y, b));
      t.currentBlock == Some(b) && t.lastHovered == Some(b) && t.plusButton == Position(x, y, true)
  {
  }

  /** A hide cancels the pending show; when it fires the button and its block are gone. */
  lemma HidePlusThenFire(s: EditorToolbarState)
    ensures HidePlus(s).pendingPlusShow.None?
    ensures var t := FirePlusHide(HidePlus(s));
      !t.plusButton.visible && t.currentBlock.None? && t.lastHovered.None? && t.pendingPlusHides == s.pendingPlusHides
  {
  }

  /**
   * A show cannot cancel an earlier hide: leaving a block and coming back to
   * it before the hide fires still ends with the button hidden.
   */
  lemma UntrackedHideOutlivesShow(s: EditorToolbarState, x: real, y: real, b: Element)
    ensures var t := ShowPlus(HidePlus(s), x, y, b);
      t.pendingPlusHides > 0 && !FirePlusHide(t).plusButton.visible && FirePlusHide(t).currentBlock.None?
  {
  }

  /**
   * The mouse listener starts a hide exactly when a block was hovered and
   * the pointer is now outside the editor or over no block.
   */
  lemma {:induction false} MouseMoveHidesIff(s: EditorToolbarState, chain: seq<Element>, inEditor: bool, r: Rect, sc: Scroll)
    ensures var t := MouseMove(s, chain, inEditor, r, sc);
      t.pendingPlusHides == s.pendingPlusHides + 1
      <==> s.listening && s.hovered.Some? && (!inEditor || FirstBlock(chain, IsEditorBlock).None?)
    ensures var t := MouseMove(s, chain, inEditor, r, sc);
      t.pendingPlusHides != s.pendingPlusHides + 1 ==> t.pendingPlusHides == s.pendingPlusHides
  {
  }

  /** Moving over a block other than the hovered one inside the editor schedules or moves the button for it. */
  lemma {:induction false} MouseMoveOntoNewBlock(s: EditorToolbarState, chain: seq<Element>, r: Rect, sc: Scroll)
    requires s.listening
    requires FirstBlock(chain, IsEditorBlock).Some? && FirstBlock(chain, IsEditorBlock) != s.hovered
    ensures var b := FirstBlock(chain, IsEditorBlock).value;
      var p := PlusAnchor(r, sc);
      var t := MouseMove(s, chain, true, r, sc);
      && t.hovered == Some(b)
      && (s.lastHovered != Some(b) ==> t.pendingPlusShow == Some(ShowRequest(p.x, p.y, b)))
      && (s.lastHovered == Some(b) ==> t.pendingPlusShow.None? && t.plusButton.x == p.x && t.plusButton.y == p.y)
  {
  }

  /** A blank selection, a selection outside the editor or no range at all hides the inline toolbar. */
  lemma SelectionHides(s: EditorToolbarState, sel: Selection, sc: Scroll)
    requires s.listening
    requires sel.NoRange? || Trim(sel.text) == "" || !sel.inEditor
    ensures var t := SelectionChange(s, sel, sc);
      !t.inlineToolbar.visible && t.selectedText == "" && t.pendingInline.None?
  {
  }

  /**
   * A non-blank selection inside the editor with a non-empty box shows the
   * inline toolbar, once its timer fires, with the trimmed text above the range.
   */
  lemma SelectionShows(s: EditorToolbarState, text: string, r: Rect, sc: Scroll)
    requires s.listening && Trim(text) != "" && !(r.width == 0.0 && r.height == 0.0)
    ensures var t := SelectionChange(s, Range(text, true, r), sc);
      var p := InlineAnchor(r, sc).value;
      && t.pendingInline == Some(InlineRequest(p.x, p.y, Trim(text)))
      && FireInline(t).inlineToolbar == Position(p.x, p.y, true)
      && FireInline(t).selectedText == Trim(text) && FireInline(t).selectedText != ""
  {
  }

  /** Scroll hides both toolbars; keydown touches nothing of the plus button. */
  lemma ScrollAndKeyDown(s: EditorToolbarState)
    requires s.enabled
    ensures var t := OnScroll(s);
      !t.inlineToolbar.visible && t.pendingInline.None? && t.pendingPlusShow.None?
      && t.pendingPlusHides == s.pendingPlusHides + 1
    ensures var k := KeyDown(s);
      !k.inlineToolbar.visible && k.pendingInline.None? && k.selectedText == ""
      && k.plusButton == s.plusButton && k.pendingPlusShow == s.pendingPlusShow
      && k.pendingPlusHides == s.pendingPlusHides && k.currentBlock == s.currentBlock
  {
  }

  // ---------------------------------------------------------------------------
  // The hook

  class EditorJSToolbarHook {
    const enabled: bool
    const listening: bool
    var plusButton: Position
    var inlineToolbar: Position
    var currentBlock: Option<Element>
    var selectedText: string
    var pendingPlusShow: Option<ShowRequest>
    var pendingPlusHides: nat
    var pendingInline: Option<InlineRequest>
    var lastHovered: Option<Element>
    var hovered: Option<Element>

    function State(): EditorToolbarState
      reads this
    {
      EditorToolbarState(enabled, listening, plusButton, inlineToolbar, currentBlock, selectedText,
                         pendingPlusShow, pendingPlusHides, pendingInline, lastHovered, hovered)
    }

    constructor (enabled: bool, editorPresent: bool)
      ensures State() == Initial(enabled, editorPresent)
    {
      this.enabled := enabled;
      listening := enabled && editorPresent;
      plusButton := Position(0.0, 0.0, false);
      inlineToolbar := Position(0.0, 0.0, false);
      currentBlock := None;
      selectedText := "";
      pendingPlusShow := None;
      pendingPlusHides := 0;
      pendingInline := None;
      lastHovered := None;
      hovered := None;
    }

    method ShowPlusButton(x: real, y: real, block: Element)
      modifies this
      ensures State() == ShowPlus(old(State()), x, y, block)
    {
      pendingPlusShow := None;
      if lastHovered == Some(block) {
        plusButton := plusButton.(x := x, y := y);
        return;
      }
      pendingPlusShow := Some(ShowRequest(x, y, block));
    }

    method HidePlusButton()
      modifies this
      ensures State() == HidePlus(old(State()))
    {
      pendingPlusShow := None;
      pendingPlusHides := pendingPlusHides + 1;
    }

    method FirePlusShowTimer()
      requires pendingPlusShow.Some?
      modifies this
      ensures State() == FirePlusShow(old(State()))
    {
      var q := pendingPlusShow.value;
      pendingPlusShow := None;
      currentBlock := Some(q.block);
      plusButton := Position(q.x, q.y, true);
      lastHovered := Some(q.block);
    }

    method FirePlusHideTimer()
      requires pendingPlusHides > 0
      modifies this
      ensures State() == FirePlusHide(old(State()))
    {
      pendingPlusHides := pendingPlusHides - 1;
      plusButton := plusButton.(visible := false);
      currentBlock := None;
      lastHovered := None;
    }

    method ShowInlineToolbar(x: real, y: real, text: string)
      modifies this
      ensures State() == ShowInline(old(State()), x, y, text)
    {
      pendingInline := Some(InlineRequest(x, y, text));
    }

    method FireInlineTimer()
      requires pendingInline.Some?
      modifies this
      ensures State() == FireInline(old(State()))
    {
      var q := pendingInline.value;
      pendingInline := None;
      selectedText := q.text;
      inlineToolbar := Position(q.x, q.y, true);
    }

    method HideInlineToolbar()
      modifies this
      ensures State() == HideInline(old(State()))
    {
      pendingInline := None;
      inlineToolbar := inlineToolbar.(visible := false);
      selectedText := "";
    }

    method HandleMouseMove(chain: seq<Element>, inEditor: bool, r: Rect, sc: Scroll)
      modifies this
      ensures State() == MouseMove(old(State()), chain, inEditor, r, sc)
    {
      if !listening {
        return;
      }
      if !inEditor {
        if hovered.Some? {
          hovered := None;
          HidePlusButton();
        }
        return;
      }
      var b := GetBlockElement(chain, IsEditorBlock);
      if b.Some? && b != hovered {
        hovered := b;
        var p := PlusAnchor(r, sc);
        ShowPlusButton(p.x, p.y, b.value);
      } else if b.None? && hovered.Some? {
        hovered := None;
        HidePlusButton();
      }
    }

    method HandleSelectionChange(sel: Selection, sc: Scroll)
      modifies this
      ensures State() == SelectionChange(old(State()), sel, sc)
    {
      if !listening {
        return;
      }
      if sel.NoRange? {
        HideInlineToolbar();
        return;
      }
      var t := Trim(sel.text);
      if t == "" || !sel.inEditor {
        HideInlineToolbar();
        return;
      }
      var p := InlineAnchor(sel.rect, sc);
      if p.Some? {
        ShowInlineToolbar(p.value.x, p.value.y, t);
      }
    }

    method HandleScroll()
      modifies this
      ensures State() == OnScroll(old(State()))
    {
      if enabled {
        HidePlusButton();
        HideInlineToolbar();
      }
    }

    method HandleKeyDown()
      modifies this
      ensures State() == KeyDown(old(State()))
    {
      if enabled {
        HideInlineToolbar();
      }
    }
  }
}
