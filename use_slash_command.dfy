/**
 * The slash-command hook: detecting a `/` trigger before the caret in the
 * current block's text, the menu state it keeps, and the removal of the
 * trigger text when a command is chosen.
 */
module UseSlashCommand {
  import opened Wrappers
  import opened JsString
  import opened Dom

  /** Where the trigger slash is and what was typed after it. */
  datatype SlashInfo = SlashInfo(triggerPosition: int, searchTerm: string)

  /** A slash may open the menu at the start of the text or after a space or line break. */
  predicate ValidSlashStart(text: string, slash: int)
    requires 0 <= slash < |text|
  {
    slash == 0 || text[slash - 1] == ' ' || text[slash - 1] == '\n'
  }

  /** The result of a check built around the slash at `slash` and the caret `cursor`. */
  function TriggerAt(text: string, slash: int, cursor: int): Option<SlashInfo> {
    if slash == -1 || !(0 <= slash < |text|) then None
    else
      var before := if slash > 0 then text[slash - 1] else ' ';
      if !(before == ' ' || before == '\n' || slash == 0) then None
      else
        var term := Substring(text, slash + 1, cursor);
        if ' ' in term || '\n' in term then None
        else Some(SlashInfo(slash, term))
  }

  /**
   * `checkForSlashCommand` as the source writes it: the slash is searched with
   * `lastIndexOf('/', cursor)`, which also finds a slash sitting AT the caret.
   */
  function CheckForSlashCommandAsWritten(text: string, cursor: int): (r: Option<SlashInfo>)
    ensures r.Some? ==>
      var tp := r.value.triggerPosition;
      && 0 <= tp <= Clamp(cursor, 0, |text|) && tp < |text| && text[tp] == '/' && ValidSlashStart(text, tp)
      && r.value.searchTerm == Substring(text, tp + 1, cursor)
      && ' ' !in r.value.searchTerm && '\n' !in r.value.searchTerm
  {
    TriggerAt(text, LastIndexOf(text, '/', cursor), cursor)
  }

  /**
   * The written check and the intended one differ only when a slash sits at
   * the caret (a negative caret counting as the start of the text).
   */
  lemma AsWrittenAgreesUnlessSlashAtCaret(text: string, cursor: int)
    requires var c := Clamp(cursor, 0, |text|); !(c < |text| && text[c] == '/')
    ensures CheckForSlashCommandAsWritten(text, cursor) == CheckForSlashCommand(text, cursor)
  {
    var a := LastIndexOf(text, '/', cursor);
    if cursor <= 0 {
      assert a == -1;
    } else {
      var b := LastIndexOf(text, '/', cursor - 1);
      assert a == b;
    }
  }

  /**
   * `checkForSlashCommand` as intended: the slash is the last one strictly
   * before the caret, and the search term is the text between the two.
   */
  function CheckForSlashCommand(text: string, cursor: int): (r: Option<SlashInfo>)
    ensures r.Some? ==>
      var tp := r.value.triggerPosition;
      && 0 <= tp < cursor && tp < |text| && text[tp] == '/' && ValidSlashStart(text, tp)
      && r.value.searchTerm == text[tp + 1..Min(cursor, |text|)]
      && ' ' !in r.value.searchTerm && '\n' !in r.value.searchTerm
      && '/' !in r.value.searchTerm
  {
    if cursor <= 0 then None else TriggerAt(text, LastIndexOf(text, '/', cursor - 1), cursor)
  }

  /** No slash before the caret: no trigger. */
  lemma NoSlashNoTrigger(text: string, cursor: int)
    requires forall k :: 0 <= k < |text| && k < cursor ==> text[k] != '/'
    ensures CheckForSlashCommand(text, cursor) == None
  {
  }

  /** The last slash before the caret must start the text or follow a space or line break. */
  lemma GluedSlashNoTrigger(text: string, cursor: int, slash: int)
    requires 0 < slash < |text| && slash < cursor && text[slash] == '/'
    requires forall k :: slash < k < |text| && k < cursor ==> text[k] != '/'
    requires text[slash - 1] != ' ' && text[slash - 1] != '\n'
    ensures CheckForSlashCommand(text, cursor) == None
  {
    assert LastIndexOf(text, '/', cursor - 1) == slash;
  }

  /** A space or line break between the slash and the caret closes the trigger. */
  lemma BrokenTermNoTrigger(text: string, cursor: int, k: int)
    requires 0 <= k < |text| && k < cursor && (text[k] == ' ' || text[k] == '\n')
    requires forall j :: k < j < |text| && j < cursor ==> text[j] != '/'
    ensures CheckForSlashCommand(text, cursor) == None
  {
  }

  /** A slash typed at the start or after a space, followed by a word, is a trigger for that word. */
  lemma TypedSlashTriggers(before: string, word: string, after: string)
    requires before == "" || before[|before| - 1] == ' ' || before[|before| - 1] == '\n'
    requires ' ' !in word && '\n' !in word && '/' !in word
    ensures var text := before + "/" + word + after;
            CheckForSlashCommand(text, |before| + 1 + |word|) == Some(SlashInfo(|before|, word))
  {
    var text := before + "/" + word + after;
    var cursor := |before| + 1 + |word|;
    assert text[|before|] == '/';
    forall k | |before| < k < |text| && k <= cursor - 1 ensures text[k] != '/' {
      assert text[k] == word[k - |before| - 1];
    }
    assert LastIndexOf(text, '/', cursor - 1) == |before|;
    assert |before| > 0 ==> text[|before| - 1] == before[|before| - 1];
    assert text[|before| + 1..cursor] == word;
  }

  // ---------------------------------------------------------------------------
  // Removing the trigger text

  /** `text.substring(0, trigger) + text.substring(trigger + 1 + term.length)`. */
  function RemoveTrigger(text: string, info: SlashInfo): string {
    Substring(text, 0, info.triggerPosition)
      + SubstringFrom(text, info.triggerPosition + 1 + |info.searchTerm|)
  }

  /**
   * For a trigger the check found, the text is the prefix, the slash, the
   * search term and the rest; removal keeps exactly the prefix and the rest,
   * that is, it deletes the characters from the slash up to the caret.
   */
  lemma RemoveTriggerSplices(text: string, cursor: int)
    requires CheckForSlashCommand(text, cursor).Some?
    ensures var info := CheckForSlashCommand(text, cursor).value;
            var tp, c := info.triggerPosition, Min(cursor, |text|);
            && text == text[..tp] + "/" + info.searchTerm + text[c..]
            && RemoveTrigger(text, info) == text[..tp] + text[c..]
            && |RemoveTrigger(text, info)| == |text| - 1 - |info.searchTerm|
  {
    var info := CheckForSlashCommand(text, cursor).value;
    var tp, c := info.triggerPosition, Min(cursor, |text|);
    assert text == text[..tp] + [text[tp]] + text[tp + 1..c] + text[c..];
  }

  /** The as-written check opens the menu when the caret is just before a slash. */
  lemma AsWrittenCaretBeforeSlash()
    ensures CheckForSlashCommandAsWritten("/a", 0) == Some(SlashInfo(0, "/"))
    ensures CheckForSlashCommand("/a", 0) == None
  {
    assert LastIndexOf("/a", '/', 0) == 0;
    var term := Substring("/a", 1, 0);
    assert term == "/a"[0..1];
    assert term == "/" by { assert |term| == 1 && term[0] == '/'; }
    assert ' ' !in term && '\n' !in term;
  }

  /** ... and choosing a command then deletes the character after the slash too. */
  lemma AsWrittenRemovalEatsNextChar()
    ensures var info := CheckForSlashCommandAsWritten("x /ab", 2).value;
            info == SlashInfo(2, "/") && RemoveTrigger("x /ab", info) == "x b"
  {
    assert LastIndexOf("x /ab", '/', 2) == 2;
    assert Substring("x /ab", 3, 2) == "x /ab"[2..3];
    assert Substring("x /ab", 0, 2) == "x ";
    assert SubstringFrom("x /ab", 4) == "b";
  }

  // ---------------------------------------------------------------------------
  // Editing the block on selection

  /** The block the caret is in: its tool name and its editable text. */
  datatype EditableBlock = EditableBlock(name: string, text: string)

  datatype BlockEdit = DeleteBlock | SetText(text: string)

  /** What selection does to the block: delete a blank non-paragraph, otherwise rewrite its text. */
  function SelectEdit(block: EditableBlock, info: SlashInfo): BlockEdit {
    var newText := RemoveTrigger(block.text, info);
    if Trim(newText) == "" && block.name != "paragraph" then DeleteBlock else SetText(newText)
  }

  /** The block is deleted exactly when the text left is all white space and it is not a paragraph. */
  lemma SelectEditDeletesIff(block: EditableBlock, info: SlashInfo)
    ensures SelectEdit(block, info) == DeleteBlock <==>
            AllWhiteSpace(RemoveTrigger(block.text, info)) && block.name != "paragraph"
    ensures SelectEdit(block, info) != DeleteBlock ==>
            SelectEdit(block, info) == SetText(RemoveTrigger(block.text, info))
  {
    TrimEmptyIff(RemoveTrigger(block.text, info));
  }

  /** What a command selection did. */
  datatype SelectOutcome =
    | Ignored                               // no editor, or no trigger recorded
    | Applied(edit: Option<BlockEdit>)      // action and onCommand ran; the block edit, if a block was found

  /** The hook's `slashState` plus the `isHandlingSlashRef` flag. */
  class SlashCommandHook {
    var visible: bool
    var position: Point
    var searchTerm: string
    var triggerPosition: int
    /** `isHandlingSlashRef.current`: while set, text input is ignored. */
    var handling: bool
    /** 100 ms timers, each of which clears `handling` when it fires. */
    var pendingReleases: nat

    constructor ()
      ensures !visible && position == Point(0.0, 0.0) && searchTerm == "" && triggerPosition == -1
      ensures !handling && pendingReleases == 0
    {
      visible, position, searchTerm, triggerPosition := false, Point(0.0, 0.0), "", -1;
      handling, pendingReleases := false, 0;
    }

    /**
     * `handleTextInput`: ignored while a selection is being handled; a trigger
     * opens the menu at the caret (when the caret can be measured); no trigger
     * closes it and keeps the last position.
     */
    method HandleTextInput(text: string, cursor: int, caret: Option<Point>)
      modifies this
      ensures handling == old(handling) && pendingReleases == old(pendingReleases)
      ensures old(handling) ==> unchanged(this)
      ensures !old(handling) && CheckForSlashCommand(text, cursor).Some? ==>
        var info := CheckForSlashCommand(text, cursor).value;
        if caret.Some? then
          visible && position == caret.value && searchTerm == info.searchTerm && triggerPosition == info.triggerPosition
        else unchanged(this)
      ensures !old(handling) && CheckForSlashCommand(text, cursor).None? ==>
        !visible && searchTerm == "" && triggerPosition == -1 && position == old(position)
    {
      if handling {
        return;
      }
      var info := CheckForSlashCommand(text, cursor);
      if info.Some? {
        if caret.Some? {
          visible, position := true, caret.value;
          searchTerm, triggerPosition := info.value.searchTerm, info.value.triggerPosition;
        }
      } else {
        visible, searchTerm, triggerPosition := false, "", -1;
      }
    }

    /**
     * `handleCommandSelect`: a no-op without an editor or without a recorded
     * trigger; otherwise it sets the handling flag, edits the current block
     * (when one with editable text is found), runs the command and schedules
     * the flag's release.
     */
    method HandleCommandSelect(editorPresent: bool, block: Option<EditableBlock>) returns (outcome: SelectOutcome)
      modifies this
      ensures !editorPresent || old(triggerPosition) == -1 ==> outcome == Ignored && unchanged(this)
      ensures editorPresent && old(triggerPosition) != -1 ==>
        && handling && pendingReleases == old(pendingReleases) + 1
        && outcome == Applied(if block.Some? then Some(SelectEdit(block.value, SlashInfo(triggerPosition, searchTerm))) else None)
      ensures visible == old(visible) && position == old(position)
      ensures searchTerm == old(searchTerm) && triggerPosition == old(triggerPosition)
    {
      if !editorPresent || triggerPosition == -1 {
        return Ignored;
      }
      handling := true;
      var edit := None;
      if block.Some? {
        edit := Some(SelectEdit(block.value, SlashInfo(triggerPosition, searchTerm)));
      }
      pendingReleases := pendingReleases + 1;
      outcome := Applied(edit);
    }

    /** One of the 100 ms release timers fires. */
    method FireRelease()
      modifies this
      ensures old(pendingReleases) > 0 ==> !handling && pendingReleases == old(pendingReleases) - 1
      ensures old(pendingReleases) == 0 ==> handling == old(handling) && pendingReleases == 0
      ensures visible == old(visible) && position == old(position)
      ensures searchTerm == old(searchTerm) && triggerPosition == old(triggerPosition)
    {
      if pendingReleases > 0 {
        pendingReleases := pendingReleases - 1;
        handling := false;
      }
    }

    /** `closeSlashCommand`: hide, forget the trigger, keep the position. */
    method CloseSlashCommand()
      modifies this
      ensures !visible && searchTerm == "" && triggerPosition == -1
      ensures position == old(position) && handling == old(handling) && pendingReleases == old(pendingReleases)
    {
      visible, searchTerm, triggerPosition := false, "", -1;
    }
  }
}
