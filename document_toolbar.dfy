/**
 * The document toolbar: the plain-text export of the editor's blocks and the
 * toolbar's own flags (full screen, the comment dialog and its text).
 */
module DocumentToolbar {
  import opened Wrappers
  import opened JsString

  /**
   * The fields the export reads from a block's data; `None` is a missing
   * field. A header level of `Some(0)` is falsy like a missing one.
   */
  datatype BlockData = BlockData(
    level: Option<int>,
    text: Option<string>,
    items: Option<seq<string>>,
    style: Option<string>,
    code: Option<string>)

  datatype Block = Block(kind: string, data: BlockData)

  /** `x || ''` on an optional string: a missing or empty value reads as the empty string. */
  function TextOr(t: Option<string>): string { t.GetOr("") }

  /** `blockData.level || 1`: never zero, and either the given level or the default 1. */
  function HeaderLevel(level: Option<int>): (n: int)
    ensures n != 0
    ensures n == 1 || level == Some(n)
  {
    if level.None? || level.value == 0 then 1 else level.value
  }

  /** One list item: `"{i+1}. item"` in an ordered list, `"• item"` otherwise. */
  function ItemLine(item: string, index: nat, ordered: bool): string {
    if ordered then NatToString(index + 1) + ". " + item else "• " + item
  }

  /** The lines of the items from position `from` on. */
  function ItemLines(items: seq<string>, ordered: bool, from: nat): (lines: seq<string>)
    requires from <= |items|
    ensures |lines| == |items| - from
    ensures forall i :: 0 <= i < |lines| ==> lines[i] == ItemLine(items[from + i], from + i, ordered)
    decreases |items| - from
  {
    if from == |items| then [] else [ItemLine(items[from], from, ordered)] + ItemLines(items, ordered, from + 1)
  }

  /**
   * The text of one block, or None where `'#'.repeat` throws a range error
   * (a negative header level), which abandons the whole export.
   */
  function BlockText(b: Block): Option<string> {
    match b.kind
    case "header" =>
      var n := HeaderLevel(b.data.level);
      if n < 0 then None else Some(RepeatChar('#', n) + " " + TextOr(b.data.text))
    case "paragraph" => Some(TextOr(b.data.text))
    case "list" =>
      var ordered := b.data.style == Some("ordered");
      Some(Join(ItemLines(b.data.items.GetOr([]), ordered, 0), "\n"))
    case "quote" => Some("> " + TextOr(b.data.text))
    case "code" => Some("```\n" + TextOr(b.data.code) + "\n```")
    case _ => Some(TextOr(b.data.text))
  }

  /** The per-block texts, in block order, or None if one of them throws. */
  function BlockTexts(blocks: seq<Block>): (r: Option<seq<string>>)
    ensures r.Some? ==> |r.value| == |blocks|
    ensures r.Some? <==> forall i :: 0 <= i < |blocks| ==> BlockText(blocks[i]).Some?
    ensures r.Some? ==> forall i :: 0 <= i < |blocks| ==> r.value[i] == BlockText(blocks[i]).value
  {
    if blocks == [] then Some([])
    else
      var init := BlockTexts(blocks[..|blocks| - 1]);
      var last := BlockText(blocks[|blocks| - 1]);
      if init.None? || last.None? then None else Some(init.value + [last.value])
  }

  /** The exported document: the block texts joined by blank lines. */
  function ExportText(blocks: seq<Block>): Option<string> {
    var texts := BlockTexts(blocks);
    if texts.None? then None else Some(Join(texts.value, "\n\n"))
  }

  /** The number of `#` at the start of a line. */
  function LeadingHashes(s: string): nat {
    if s == "" || s[0] != '#' then 0 else 1 + LeadingHashes(s[1..])
  }

  lemma {:induction false} LeadingHashesOfRun(n: nat, rest: string)
    requires rest == "" || rest[0] != '#'
    ensures LeadingHashes(RepeatChar('#', n) + rest) == n
  {
    if n > 0 {
      assert (RepeatChar('#', n) + rest)[1..] == RepeatChar('#', n - 1) + rest;
      LeadingHashesOfRun(n - 1, rest);
    }
  }

  /**
   * A header of level `n >= 1` exports as `n` hashes, a space and its text, so
   * the level can be read back from the line; a missing or zero level gives one
   * hash; a negative level aborts the export.
   */
  lemma HeaderExport(level: Option<int>, text: Option<string>)
    ensures var out := BlockText(Block("header", BlockData(level, text, None, None, None)));
      && (level.Some? && level.value >= 1 ==>
            out == Some(RepeatChar('#', level.value) + " " + TextOr(text)) && LeadingHashes(out.value) == level.value)
      && (level.None? || level.value == 0 ==> out == Some("# " + TextOr(text)) && LeadingHashes(out.value) == 1)
      && (level.Some? && level.value < 0 ==> out.None?)
  {
    var n := HeaderLevel(level);
    if n >= 0 {
      LeadingHashesOfRun(n, " " + TextOr(text));
      assert RepeatChar('#', n) + " " + TextOr(text) == RepeatChar('#', n) + (" " + TextOr(text));
      if n == 1 {
        assert RepeatChar('#', 1) == "#";
        assert RepeatChar('#', 1) + " " + TextOr(text) == "# " + TextOr(text);
      }
    }
  }

  /**
   * A list exports one line per item, numbered from 1 when ordered and bulleted
   * otherwise; when no item holds a line break the lines are recovered by
   * splitting the text at line breaks.
   */
  lemma ListExport(items: seq<string>, style: Option<string>)
    requires |items| >= 1
    requires forall i :: 0 <= i < |items| ==> '\n' !in items[i]
    ensures var out := BlockText(Block("list", BlockData(None, None, Some(items), style, None)));
      var lines := Split(out.value, '\n');
      && |lines| == |items|
      && (style == Some("ordered") ==> forall i :: 0 <= i < |items| ==> lines[i] == NatToString(i + 1) + ". " + items[i])
      && (style != Some("ordered") ==> forall i :: 0 <= i < |items| ==> lines[i] == "• " + items[i])
  {
    var ordered := style == Some("ordered");
    var lines := ItemLines(items, ordered, 0);
    forall i | 0 <= i < |lines| ensures '\n' !in lines[i] {
      assert '\n' !in NatToString(i + 1);
    }
    SplitJoin(lines, '\n');
  }

  /** A quote exports as `> ` and its text; a code block between two fence lines. */
  lemma QuoteAndCodeExport(text: Option<string>, code: Option<string>)
    ensures var q := BlockText(Block("quote", BlockData(None, text, None, None, None))).value;
      q[..2] == "> " && q[2..] == TextOr(text)
    ensures var c := BlockText(Block("code", BlockData(None, None, None, None, code))).value;
      |c| == |TextOr(code)| + 8 && c[..4] == "```\n" && c[4..|c| - 4] == TextOr(code) && c[|c| - 4..] == "\n```"
  {
  }

  /** Paragraphs and block types the export does not know both give their text. */
  lemma OtherBlocksExportText(kind: string, data: BlockData)
    requires kind !in {"header", "list", "quote", "code"}
    ensures BlockText(Block(kind, data)) == Some(TextOr(data.text))
  {
  }

  /** Appending a block appends a blank line and its text; the export follows block order. */
  lemma ExportAppend(blocks: seq<Block>, b: Block)
    requires |blocks| >= 1 && ExportText(blocks).Some? && BlockText(b).Some?
    ensures ExportText(blocks + [b]) == Some(ExportText(blocks).value + "\n\n" + BlockText(b).value)
  {
    assert (blocks + [b])[..|blocks|] == blocks;
    JoinSnoc(BlockTexts(blocks).value, BlockText(b).value, "\n\n");
  }

  /** One header followed by one paragraph. */
  lemma ExportExample()
    ensures ExportText([Block("header", BlockData(Some(2), Some("Title"), None, None, None)),
                        Block("paragraph", BlockData(None, Some("Body"), None, None, None))])
            == Some("## Title\n\nBody")
  {
    var blocks := [Block("header", BlockData(Some(2), Some("Title"), None, None, None)),
                   Block("paragraph", BlockData(None, Some("Body"), None, None, None))];
    assert RepeatChar('#', 2) == "##";
    assert RepeatChar('#', 2) + " " + "Title" == "## Title";
    assert BlockText(blocks[0]) == Some("## Title");
    assert BlockText(blocks[1]) == Some("Body");
    var texts := BlockTexts(blocks);
    assert texts.Some?;
    assert texts.value == ["## Title", "Body"];
    assert ["## Title", "Body"][1..] == ["Body"];
    assert Join(["## Title", "Body"], "\n\n") == "## Title" + "\n\n" + "Body" == "## Title\n\nBody";
  }

  /** The toolbar's React state. */
  class Toolbar {
    var isFullscreen: bool
    var showCommentModal: bool
    var commentText: string

    constructor ()
      ensures !isFullscreen && !showCommentModal && commentText == ""
    {
      isFullscreen, showCommentModal, commentText := false, false, "";
    }

    /** `toggleFullscreen`: flip the flag and report the new value. */
    method ToggleFullscreen() returns (enabled: bool)
      modifies this
      ensures isFullscreen == !old(isFullscreen) && enabled == isFullscreen
      ensures showCommentModal == old(showCommentModal) && commentText == old(commentText)
    {
      enabled := !isFullscreen;
      isFullscreen := enabled;
    }

    /** The "add comment" menu item opens the dialog. */
    method OpenCommentModal()
      modifies this
      ensures showCommentModal && isFullscreen == old(isFullscreen) && commentText == old(commentText)
    {
      showCommentModal := true;
    }

    /** Typing in the dialog. */
    method SetCommentText(t: string)
      modifies this
      ensures commentText == t && showCommentModal == old(showCommentModal) && isFullscreen == old(isFullscreen)
    {
      commentText := t;
    }

    /** Cancel closes the dialog and keeps what was typed. */
    method CancelComment()
      modifies this
      ensures !showCommentModal && commentText == old(commentText) && isFullscreen == old(isFullscreen)
    {
      showCommentModal := false;
    }

    /**
     * `handleAddComment`: only a comment that is not blank is accepted; it is
     * reported as typed (untrimmed), the text is cleared and the dialog closes.
     */
    method HandleAddComment() returns (reported: Option<string>)
      modifies this
      ensures AllWhiteSpace(old(commentText)) ==> reported.None? && unchanged(this)
      ensures !AllWhiteSpace(old(commentText)) ==>
        reported == Some(old(commentText)) && commentText == "" && !showCommentModal && isFullscreen == old(isFullscreen)
    {
      TrimEmptyIff(commentText);
      if Trim(commentText) != "" {
        reported := Some(commentText);
        commentText := "";
        showCommentModal := false;
      } else {
        reported := None;
      }
    }
  }
}
