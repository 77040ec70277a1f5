/**
 * `useHoverToolbar`: the delayed show / delayed hide machine behind the hover
 * toolbar. Each `setTimeout` is a pending slot that a `Fire…` step runs; a hide
 * timer whose ref is overwritten without `clearTimeout` is still pending but
 * can no longer be cancelled, and is counted as a stray timer. The mouse
 * listeners live in an effect that also depends on `isToolbarVisible`: every
 * change of visibility re-runs it, which clears both tracked timers and
 * starts the listener's hovered block afresh.
 */
module UseHoverToolbar {
  import opened Wrappers
  import opened Dom

  /** A pending show: where to draw and for which block. */
  datatype ShowRequest = ShowRequest(x: real, y: real, block: Element)

  /** Everything the hook and its listeners keep between events. */
  datatype ToolbarState = ToolbarState(
    listening: bool,
    position: Position,
    currentBlock: Option<Element>,
    isToolbarVisible: bool,
    pendingShow: Option<ShowRequest>,
    pendingHide: bool,
    strayHides: nat,
    lastHovered: Option<Element>,
    hovered: Option<Element>)

  /** The first render; `listening` is `enabled && editorInstance`, without which no listener is attached. */
  function Initial(listening: bool): ToolbarState {
    ToolbarState(listening, Position(0.0, 0.0, false), None, false, None, false, 0, None, None)
  }

  /**
   * The flag, the drawn position and the current block agree, the last
   * hovered block is the current one, and a pending show never sits beside a
   * pending hide.
   */
  predicate Valid(s: ToolbarState) {
    && s.position.visible == s.isToolbarVisible
    && (s.isToolbarVisible <==> s.currentBlock.Some?)
    && s.lastHovered == s.currentBlock
    && (s.pendingShow.Some? ==> !s.pendingHide)
  }

  /**
   * Shows `block` at `pos` (or hides, for None). When visibility flips while
   * the listeners are attached, their effect is torn down and set up again:
   * its cleanup clears both tracked timers and the new listener has no
   * hovered block.
   */
  function Present(s: ToolbarState, block: Option<Element>, pos: Position): ToolbarState {
    var t := s.(position := pos, isToolbarVisible := block.Some?, currentBlock := block, lastHovered := block);
    if !s.listening || block.Some? == s.isToolbarVisible then t
    else t.(pendingShow := None, pendingHide := false, hovered := None)
  }

  /**
   * `showToolbar`: cancels the pending hide; on the block already shown only
   * moves the toolbar; otherwise replaces any pending show with this one.
   */
  function Show(s: ToolbarState, x: real, y: real, block: Element): ToolbarState {
    var t := s.(pendingHide := false);
    if s.isToolbarVisible && s.lastHovered == Some(block) then t.(position := s.position.(x := x, y := y))
    else t.(pendingShow := Some(ShowRequest(x, y, block)))
  }

  /** `hideToolbar`: cancels the pending show and starts a hide timer over the old one. */
  function Hide(s: ToolbarState): ToolbarState {
    s.(pendingShow := None, pendingHide := true, strayHides := if s.pendingHide then s.strayHides + 1 else s.strayHides)
  }

  function FireShow(s: ToolbarState): ToolbarState
    requires s.pendingShow.Some?
  {
    var q := s.pendingShow.value;
    Present(s.(pendingShow := None), Some(q.block), Position(q.x, q.y, true))
  }

  /** What every hide does to the drawn state; the position is kept. */
  function Cleared(s: ToolbarState): ToolbarState {
    Present(s, None, s.position.(visible := false))
  }

  function FireHide(s: ToolbarState): ToolbarState
    requires s.pendingHide
  {
    Cleared(s.(pendingHide := false))
  }

  function FireStrayHide(s: ToolbarState): ToolbarState
    requires s.strayHides > 0
  {
    Cleared(s.(strayHides := s.strayHides - 1))
  }

  /** `hideImmediately`: both tracked timers cancelled, hidden at once. */
  function HideNow(s: ToolbarState): ToolbarState {
    Cleared(s.(pendingShow := None, pendingHide := false))
  }

  function UpdatePosition(s: ToolbarState, x: real, y: real): ToolbarState {
    s.(position := s.position.(x := x, y := y))
  }

  /** Entering the toolbar itself cancels the pending hide. */
  function ToolbarEnter(s: ToolbarState): ToolbarState {
    s.(pendingHide := false)
  }

  /** Scroll and keydown hide at once, but only while the toolbar is shown. */
  function ScrollOrKey(s: ToolbarState): ToolbarState {
    if s.listening && s.isToolbarVisible then HideNow(s) else s
  }

  /** The block test of this hook's `getBlockElement`. */
  predicate IsToolbarBlock(e: Element) {
    HasClass(e, "ce-block") || HasClass(e, "cdx-block") || "data-block-id" in e.attributes
    || "ce-block__content" in e.descendantClasses
  }

  /** `calculateToolbarPosition`: horizontally centred on the block, at its top edge. */
  function ToolbarAnchor(r: Rect, sc: Scroll): (p: Point)
    ensures p.x - PageLeft(r, sc) == PageLeft(r, sc) + r.width - p.x
    ensures p.y == PageTop(r, sc)
  {
    Point(r.left + ScrollLeft(sc) + r.width / 2.0, r.top + ScrollTop(sc))
  }

  /**
   * `mouseover` on the element whose ancestor chain is `chain`: inside the
   * editor, a block other than the hovered one becomes hovered and is shown
   * at the anchor computed from its rectangle `r`.
   */
  function MouseOver(s: ToolbarState, chain: seq<Element>, inEditor: bool, r: Rect, sc: Scroll): ToolbarState {
    var b := FirstBlock(chain, IsToolbarBlock);
    if !s.listening || !inEditor || b.None? || b == s.hovered then s
    else
      var p := ToolbarAnchor(r, sc);
      Show(s.(hovered := b), p.x, p.y, b.value)
  }

  /**
   * `mouseout`: ignored when the pointer goes into the toolbar or the target
   * is outside the editor; otherwise, when the target's block is the hovered
   * one (including no block while nothing is hovered), a hide starts.
   */
  function MouseOut(s: ToolbarState, chain: seq<Element>, inEditor: bool, intoToolbar: bool): ToolbarState {
    if !s.listening || intoToolbar || !inEditor || FirstBlock(chain, IsToolbarBlock) != s.hovered then s
    else Hide(s.(hovered := None))
  }

  /** `mousemove`: the hovered block's anchor, `r` being that block's rectangle. */
  function MouseMove(s: ToolbarState, r: Rect, sc: Scroll): ToolbarState {
    if !s.listening || s.hovered.None? then s
    else var p := ToolbarAnchor(r, sc); UpdatePosition(s, p.x, p.y)
  }

  // ---------------------------------------------------------------------------
  // Properties of the machine

  /** Every step keeps the state consistent. */
  lemma StepsKeepValid(s: ToolbarState, x: real, y: real, b: Element, chain: seq<Element>,
                       inEditor: bool, intoToolbar: bool, r: Rect, sc: Scroll)
    requires Valid(s)
    ensures Valid(Show(s, x, y, b)) && Valid(Hide(s)) && Valid(HideNow(s))
    ensures Valid(UpdatePosition(s, x, y)) && Valid(ToolbarEnter(s)) && Valid(ScrollOrKey(s))
    ensures s.pendingShow.Some? ==> Valid(FireShow(s))
    ensures s.pendingHide ==> Valid(FireHide(s))
    ensures s.strayHides > 0 ==> Valid(FireStrayHide(s))
    ensures Valid(MouseOver(s, chain, inEditor, r, sc)) && Valid(MouseOut(s, chain, inEditor, intoToolbar))
    ensures Valid(MouseMove(s, r, sc))
  {
  }

  /** On the block already shown, a show moves the toolbar and does nothing else. */
  lemma ShowSameBlockOnlyMoves(s: ToolbarState, x: real, y: real, b: Element)
    requires Valid(s) && s.isToolbarVisible && s.lastHovered == Some(b)
    ensures Show(s, x, y, b) == s.(pendingHide := false, position := Position(x, y, true))
  {
  }

  /** Any other show, once its timer fires, draws that block at that point. */
  lemma ShowThenFire(s: ToolbarState, x: real, y: real, b: Element)
    requires Valid(s) && !(s.isToolbarVisible && s.lastHovered == Some(b))
    ensures Show(s, x, y, b).pendingShow == Some(ShowRequest(x, y, b))
    ensures var t := FireShow(Show(s, x, y, b));
      && t.currentBlock == Some(b) && t.lastHovered == Some(b) && t.isToolbarVisible
      && t.position == Position(x, y, true) && t.pendingShow.None? && !t.pendingHide
  {
  }

  /** A hide cancels the pending show; when its timer fires nothing is shown and the position stays. */
  lemma HideThenFire(s: ToolbarState)
    requires Valid(s)
    ensures Hide(s).pendingShow.None?
    ensures var t := FireHide(Hide(s));
      && !t.isToolbarVisible && t.currentBlock.None? && t.lastHovered.None?
      && !t.position.visible && t.position.x == s.position.x && t.position.y == s.position.y
  {
  }

  /** Hiding at once cancels both timers and clears the shown block. */
  lemma HideNowClears(s: ToolbarState)
    requires Valid(s)
    ensures var t := HideNow(s);
      && t.pendingShow.None? && !t.pendingHide && !t.isToolbarVisible
      && t.currentBlock.None? && t.lastHovered.None? && t.strayHides == s.strayHides
  {
  }

  /** Moving the pointer into the toolbar never hides it. */
  lemma LeavingIntoToolbarKeeps(s: ToolbarState, chain: seq<Element>, inEditor: bool)
    ensures MouseOut(s, chain, inEditor, true) == s
  {
  }

  /**
   * Two hides in a row leave the first timer stray: a show cancels only the
   * second, and the stray one still hides the toolbar when it fires.
   */
  lemma StrayHideOutlivesShow(s: ToolbarState, x: real, y: real, b: Element)
    requires Valid(s) && s.pendingHide
    ensures var t := Show(Hide(s), x, y, b);
      && !t.pendingHide && t.strayHides == s.strayHides + 1
      && !FireStrayHide(t).isToolbarVisible && FireStrayHide(t).currentBlock.None?
  {
  }

  /**
   * Showing a block resets the listener, which forgets the hovered block; a
   * pointer that then leaves that block straight out of it (to no block, or
   * to nothing inside the editor) starts no hide, and the toolbar stays.
   */
  lemma {:induction false} LeaveAfterShowKeepsToolbar(s: ToolbarState, chain: seq<Element>, inEditor: bool)
    requires Valid(s) && s.listening && !s.isToolbarVisible && s.pendingShow.Some?
    requires FirstBlock(chain, IsToolbarBlock) == Some(s.pendingShow.value.block)
    ensures var t := FireShow(s);
      && t.isToolbarVisible && t.hovered.None?
      && MouseOut(t, chain, inEditor, false) == t
  {
  }

  // ---------------------------------------------------------------------------
  // The hook

  class HoverToolbarHook {
    const listening: bool
    var position: Position
    var currentBlock: Option<Element>
    var isToolbarVisible: bool
    var pendingShow: Option<ShowRequest>
    var pendingHide: bool
    var strayHides: nat
    var lastHovered: Option<Element>
    var hovered: Option<Element>

    function State(): ToolbarState
      reads this
    {
      ToolbarState(listening, position, currentBlock, isToolbarVisible, pendingShow, pendingHide, strayHides, lastHovered, hovered)
    }

    constructor (listening: bool)
      ensures State() == Initial(listening)
    {
      this.listening := listening;
      position := Position(0.0, 0.0, false);
      currentBlock := None;
      isToolbarVisible := false;
      pendingShow := None;
      pendingHide := false;
      strayHides := 0;
      lastHovered := None;
      hovered := None;
    }

    /** Sets the drawn state; a change of visibility re-runs the listener effect. */
    method Render(block: Option<Element>, pos: Position)
      modifies this
      ensures State() == Present(old(State()), block, pos)
    {
      if listening && block.Some? != isToolbarVisible {
        pendingShow := None;
        pendingHide := false;
        hovered := None;
      }
      position := pos;
      isToolbarVisible := block.Some?;
      currentBlock := block;
      lastHovered := block;
    }

    method ShowToolbar(x: real, y: real, block: Element)
      modifies this
      ensures State() == Show(old(State()), x, y, block)
    {
      pendingHide := false;
      if isToolbarVisible && lastHovered == Some(block) {
        position := position.(x := x, y := y);
        return;
      }
      pendingShow := Some(ShowRequest(x, y, block));
    }

    method HideToolbar()
      modifies this
      ensures State() == Hide(old(State()))
    {
      pendingShow := None;
      if pendingHide {
        strayHides := strayHides + 1;
      }
      pendingHide := true;
    }

    method FireShowTimer()
      requires pendingShow.Some?
      modifies this
      ensures State() == FireShow(old(State()))
    {
      var q := pendingShow.value;
      pendingShow := None;
      Render(Some(q.block), Position(q.x, q.y, true));
    }

    method FireHideTimer()
      requires pendingHide
      modifies this
      ensures State() == FireHide(old(State()))
    {
      pendingHide := false;
      Render(None, position.(visible := false));
    }

    method FireStrayHideTimer()
      requires strayHides > 0
      modifies this
      ensures State() == FireStrayHide(old(State()))
    {
      strayHides := strayHides - 1;
      Render(None, position.(visible := false));
    }

    method HideImmediately()
      modifies this
      ensures State() == HideNow(old(State()))
    {
      pendingShow := None;
      pendingHide := false;
      Render(None, position.(visible := false));
    }

    method UpdateToolbarPosition(x: real, y: real)
      modifies this
      ensures State() == UpdatePosition(old(State()), x, y)
    {
      position := position.(x := x, y := y);
    }

    method ToolbarMouseEnter()
      modifies this
      ensures State() == ToolbarEnter(old(State()))
    {
      pendingHide := false;
    }

    method ToolbarMouseLeave()
      modifies this
      ensures State() == Hide(old(State()))
    {
      HideToolbar();
    }

    method HandleMouseOver(chain: seq<Element>, inEditor: bool, r: Rect, sc: Scroll)
      modifies this
      ensures State() == MouseOver(old(State()), chain, inEditor, r, sc)
    {
      if !listening || !inEditor {
        return;
      }
      var b := GetBlockElement(chain, IsToolbarBlock);
      if b.Some? && b != hovered {
        hovered := b;
        var p := ToolbarAnchor(r, sc);
        ShowToolbar(p.x, p.y, b.value);
      }
    }

    method HandleMouseOut(chain: seq<Element>, inEditor: bool, intoToolbar: bool)
      modifies this
      ensures State() == MouseOut(old(State()), chain, inEditor, intoToolbar)
    {
      if !listening || intoToolbar || !inEditor {
        return;
      }
      var b := GetBlockElement(chain, IsToolbarBlock);
      if b == hovered {
        hovered := None;
        HideToolbar();
      }
    }

    method HandleMouseMove(r: Rect, sc: Scroll)
      modifies this
      ensures State() == MouseMove(old(State()), r, sc)
    {
      if listening && hovered.Some? {
        var p := ToolbarAnchor(r, sc);
        UpdateToolbarPosition(p.x, p.y);
      }
    }

    /** The scroll and keydown listeners. */
    method HandleScrollOrKey()
      modifies this
      ensures State() == ScrollOrKey(old(State()))
    {
      if listening && isToolbarVisible {
        HideImmediately();
      }
    }
  }
}
