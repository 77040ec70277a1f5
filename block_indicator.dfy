/**
 * The block indicator: the short label shown for the hovered block's type,
 * where the indicator is drawn, and its two stages (badge, then toolbar on hover).
 */
module BlockIndicator {
  import opened Wrappers
  import opened Dom

  /** The block types the label knows; any other type string is `OtherType`. */
  datatype BlockType = Header | Paragraph | ListBlock | Quote | Code | Table | Image | OtherType

  function TypeOfName(name: string): BlockType {
    match name
    case "header" => Header
    case "paragraph" => Paragraph
    case "list" => ListBlock
    case "quote" => Quote
    case "code" => Code
    case "table" => Table
    case "image" => Image
    case _ => OtherType
  }

  /**
   * `getBlockDisplay(type).label`. For a header, `levelAttr` is the
   * `data-level` attribute found in the block, None when there is none; an
   * empty value is falsy and reads as level 1.
   */
  function BlockLabel(t: BlockType, levelAttr: Option<string>): string {
    match t
    case Header => "H" + (if levelAttr.None? || levelAttr.value == "" then "1" else levelAttr.value)
    case Paragraph => "P"
    case ListBlock => "•"
    case Quote => "\""
    case Code => "</>"
    case Table => "⊞"
    case Image => "⊡"
    case OtherType => "¶"
  }

  /** Reads a label back: the type it was produced for. */
  function TypeOfLabel(text: string): BlockType {
    if |text| >= 1 && text[0] == 'H' then Header
    else if text == "P" then Paragraph
    else if text == "•" then ListBlock
    else if text == "\"" then Quote
    else if text == "</>" then Code
    else if text == "⊞" then Table
    else if text == "⊡" then Image
    else OtherType
  }

  /** The label determines the type it was made for: different types never share a label. */
  lemma LabelDeterminesType(t: BlockType, levelAttr: Option<string>)
    ensures TypeOfLabel(BlockLabel(t, levelAttr)) == t
  {
    if t == Header {
      assert BlockLabel(t, levelAttr)[0] == 'H';
    }
  }

  /**
   * A header's label is `H` followed by its level attribute, or `H1` when the
   * attribute is missing or empty.
   */
  lemma HeaderLabel(levelAttr: Option<string>)
    ensures var l := BlockLabel(Header, levelAttr);
      && l[0] == 'H'
      && (levelAttr.Some? && levelAttr.value != "" ==> l[1..] == levelAttr.value)
      && (levelAttr.None? || levelAttr.value == "" ==> l == "H1")
  {
  }

  /** Type strings outside the seven known ones get the pilcrow. */
  lemma UnknownTypeLabel(name: string, levelAttr: Option<string>)
    requires name !in {"header", "paragraph", "list", "quote", "code", "table", "image"}
    ensures BlockLabel(TypeOfName(name), levelAttr) == "¶"
  {
  }

  /** The two stages: the type badge, or the expanded toolbar. */
  datatype Stage = Badge(caption: string) | Toolbar

  /** The indicator: nothing when not visible, else 50 px left of the anchor, at its height. */
  function IndicatorPlacement(p: Position): (r: Option<Point>)
    ensures r.Some? <==> p.visible
    ensures r.Some? ==> r.value.x + 50.0 == p.x && r.value.y == p.y
  {
    if p.visible then Some(Point(p.x - 50.0, p.y)) else None
  }

  /** The component's `isExpanded` state. */
  class Indicator {
    var isExpanded: bool

    constructor ()
      ensures !isExpanded
    {
      isExpanded := false;
    }

    /** What is drawn: the badge until the pointer enters, the toolbar while it is inside. */
    function Shown(t: BlockType, levelAttr: Option<string>): (s: Stage)
      reads this
      ensures s == Toolbar <==> isExpanded
      ensures s.Badge? ==> TypeOfLabel(s.caption) == t
    {
      LabelDeterminesType(t, levelAttr);
      if isExpanded then Toolbar else Badge(BlockLabel(t, levelAttr))
    }

    method MouseEnter()
      modifies this
      ensures isExpanded
    {
      isExpanded := true;
    }

    method MouseLeave()
      modifies this
      ensures !isExpanded
    {
      isExpanded := false;
    }
  }
}
