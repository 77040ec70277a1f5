/**
 * The document editor shell shared by `FeishuDocumentEditor` and
 * `DocumentEditor`: the editable title, the content snapshot, saving (by hand
 * and every 30 seconds), the "last saved" caption and the collaborator strip.
 * The two components carry the same state and save logic; they differ in how
 * the collaborator strip is drawn and when it is shown.
 */
module DocumentShell {
  import opened Wrappers
  import opened JsString
  import DocumentToolbar

  /** The editor's `OutputData`: the blocks it holds. */
  datatype Content = Content(blocks: seq<DocumentToolbar.Block>)

  /** The `document` prop: every field may be undefined. Times are milliseconds. */
  datatype DocumentProps = DocumentProps(
    documentId: Option<string>,
    title: Option<string>,
    content: Option<Content>,
    lastModified: Option<int>,
    owner: Option<string>,
    collaborators: Option<seq<string>>)

  /** What `onSave` receives. */
  datatype SaveRecord = SaveRecord(
    documentId: string,
    title: string,
    content: Content,
    lastModified: int,
    owner: string,
    collaborators: seq<string>)

  const UntitledTitle := "无标题文档"
  const NewDocumentId := "new"
  const CurrentUser := "current-user"

  /** `v || d` for an optional string: undefined and the empty string are falsy. */
  function StringOr(v: Option<string>, d: string): (r: string)
    ensures r == d || (v.Some? && r == v.value)
    ensures r == d <== v.None? || v.value == ""
    ensures v.Some? && v.value != "" ==> r == v.value
  {
    if v.None? || v.value == "" then d else v.value
  }

  /** `document?.<field>` for each field the shell reads. */
  function DocId(doc: Option<DocumentProps>): Option<string> {
    if doc.Some? then doc.value.documentId else None
  }

  function DocTitle(doc: Option<DocumentProps>): Option<string> {
    if doc.Some? then doc.value.title else None
  }

  function DocContent(doc: Option<DocumentProps>): Option<Content> {
    if doc.Some? then doc.value.content else None
  }

  function DocLastModified(doc: Option<DocumentProps>): Option<int> {
    if doc.Some? then doc.value.lastModified else None
  }

  function DocOwner(doc: Option<DocumentProps>): Option<string> {
    if doc.Some? then doc.value.owner else None
  }

  function DocCollaborators(doc: Option<DocumentProps>): Option<seq<string>> {
    if doc.Some? then doc.value.collaborators else None
  }

  // ---------------------------------------------------------------------------
  // Saving

  /**
   * `handleSave`: nothing without an `onSave` callback or without content;
   * otherwise the record handed to `onSave`, stamped `now`, with the id, owner
   * and collaborators defaulted when the document lacks them.
   */
  function SaveRequest(hasOnSave: bool, content: Option<Content>, title: string,
                       doc: Option<DocumentProps>, now: int): (r: Option<SaveRecord>)
    ensures r.Some? <==> hasOnSave && content.Some?
  {
    if !hasOnSave || content.None? then None
    else Some(SaveRecord(
      StringOr(DocId(doc), NewDocumentId),
      title,
      content.value,
      now,
      StringOr(DocOwner(doc), CurrentUser),
      DocCollaborators(doc).GetOr([])))
  }

  /**
   * The record carries the current title and content and the save time; the
   * id and owner come from the document unless missing or empty, when they
   * are "new" and "current-user"; missing collaborators become the empty list.
   */
  lemma SaveRecordFields(hasOnSave: bool, content: Option<Content>, title: string,
                         doc: Option<DocumentProps>, now: int)
    requires hasOnSave && content.Some?
    ensures var r := SaveRequest(hasOnSave, content, title, doc, now).value;
      && r.title == title && r.content == content.value && r.lastModified == now
      && (r.documentId == NewDocumentId <== DocId(doc).None? || DocId(doc).value == "")
      && (DocId(doc).Some? && DocId(doc).value != "" ==> r.documentId == DocId(doc).value)
      && (r.owner == CurrentUser <== DocOwner(doc).None? || DocOwner(doc).value == "")
      && (DocOwner(doc).Some? && DocOwner(doc).value != "" ==> r.owner == DocOwner(doc).value)
      && (DocCollaborators(doc).None? ==> r.collaborators == [])
      && (DocCollaborators(doc).Some? ==> r.collaborators == DocCollaborators(doc).value)
  {
  }

  /**
   * The 30-second auto-save tick calls `handleSave` when the editor is
   * writable, has an `onSave` callback, and has content or a title other
   * than the document's (an undefined document title differs from every title).
   */
  function AutoSaveDue(readOnly: bool, hasOnSave: bool, content: Option<Content>,
                       title: string, doc: Option<DocumentProps>): (due: bool)
    ensures due ==> !readOnly && hasOnSave
  {
    !readOnly && hasOnSave && (content.Some? || DocTitle(doc) != Some(title))
  }

  /**
   * A tick that is due only because the title changed saves nothing: the
   * save it triggers returns at once for want of content.
   */
  lemma TitleOnlyAutoSaveSavesNothing(readOnly: bool, hasOnSave: bool, title: string,
                                      doc: Option<DocumentProps>, now: int)
    requires AutoSaveDue(readOnly, hasOnSave, None, title, doc)
    ensures SaveRequest(hasOnSave, None, title, doc, now) == None
  {
  }

  /** With content present, every tick of a writable editor with `onSave` saves, changed or not. */
  lemma AutoSaveWithContent(hasOnSave: bool, content: Option<Content>, title: string,
                            doc: Option<DocumentProps>, now: int)
    requires hasOnSave && content.Some?
    ensures AutoSaveDue(false, hasOnSave, content, title, doc)
    ensures SaveRequest(hasOnSave, content, title, doc, now).Some?
  {
  }

  /** A read-only editor never auto-saves. */
  lemma ReadOnlyNeverAutoSaves(hasOnSave: bool, content: Option<Content>, title: string,
                               doc: Option<DocumentProps>)
    ensures !AutoSaveDue(true, hasOnSave, content, title, doc)
  {
  }

  // ---------------------------------------------------------------------------
  // The "last saved" caption

  /** The caption's cases; `OnDate` is `toLocaleDateString` of the save time. */
  datatype SaveLabel = NotSaved | JustSaved | MinutesAgo(minutes: int) | HoursAgo(hours: int) | OnDate(saved: int)

  const MinuteMs := 60000

  /**
   * `formatLastSaved(date)` at time `now`: whole minutes and hours are
   * rounded down (`Math.floor`, which is Dafny's `/` for a positive divisor),
   * so a save stamped in the future reads as just saved.
   */
  function FormatLastSaved(lastSaved: Option<int>, now: int): (r: SaveLabel)
    ensures r == NotSaved <==> lastSaved.None?
  {
    if lastSaved.None? then NotSaved
    else
      var minutes := (now - lastSaved.value) / MinuteMs;
      if minutes < 1 then JustSaved
      else if minutes < 60 then MinutesAgo(minutes)
      else
        var hours := minutes / 60;
        if hours < 24 then HoursAgo(hours)
        else OnDate(lastSaved.value)
  }

  /**
   * Each caption covers one range of elapsed time, and the number it shows
   * is the count of whole minutes or hours that have passed.
   */
  lemma {:induction false} FormatLastSavedBuckets(saved: int, now: int)
    ensures var r := FormatLastSaved(Some(saved), now);
      var diff := now - saved;
      && (r == JustSaved <==> diff < 60000)
      && (r.MinutesAgo? <==> 60000 <= diff < 3600000)
      && (r.MinutesAgo? ==> 1 <= r.minutes < 60 && r.minutes * 60000 <= diff < (r.minutes + 1) * 60000)
      && (r.HoursAgo? <==> 3600000 <= diff < 86400000)
      && (r.HoursAgo? ==> 1 <= r.hours < 24 && r.hours * 3600000 <= diff < (r.hours + 1) * 3600000)
      && (r == OnDate(saved) <==> 86400000 <= diff)
  {
    var diff := now - saved;
    var minutes := diff / 60000;
    assert minutes * 60000 <= diff < minutes * 60000 + 60000;
    var hours := minutes / 60;
    assert hours * 60 <= minutes < hours * 60 + 60;
    assert hours * 3600000 <= diff < hours * 3600000 + 3600000 by {
      assert hours * 3600000 == (hours * 60) * 60000;
      assert (hours * 60 + 60) * 60000 == hours * 3600000 + 3600000;
    }
  }

  /** The caption's text; the locale date is left to the host. */
  function LabelText(l: SaveLabel): Option<string> {
    match l
    case NotSaved => Some("未保存")
    case JustSaved => Some("刚刚保存")
    case MinutesAgo(m) => if m >= 0 then Some(NatToString(m) + "分钟前保存") else None
    case HoursAgo(h) => if h >= 0 then Some(NatToString(h) + "小时前保存") else None
    case OnDate(_) => None
  }

  /** The number at the head of a minutes or hours caption reads back as that count. */
  lemma CaptionReadsBack(saved: int, now: int)
    ensures var r := FormatLastSaved(Some(saved), now);
      && (r.MinutesAgo? ==> LabelText(r).Some? && ParseInt(LabelText(r).value) == Some(r.minutes))
      && (r.HoursAgo? ==> LabelText(r).Some? && ParseInt(LabelText(r).value) == Some(r.hours))
  {
    var r := FormatLastSaved(Some(saved), now);
    if r.MinutesAgo? {
      ParseIntNatToStringThen(r.minutes, "分钟前保存");
    }
    if r.HoursAgo? {
      ParseIntNatToStringThen(r.hours, "小时前保存");
    }
  }

  // ---------------------------------------------------------------------------
  // The collaborator strip

  /** An avatar shows the collaborator's first character or a generic user icon. */
  datatype Avatar = Initial(text: string) | UserIcon

  /**
   * Up to three avatars, each with the collaborator's name as its tooltip,
   * and a `+N` badge counting the collaborators left over.
   */
  datatype CollaboratorStrip = CollaboratorStrip(avatars: seq<Avatar>, names: seq<string>, more: Option<int>)

  /** `s.charAt(0)`: the empty string for an empty name. */
  function FirstChar(s: string): (r: string)
    ensures |r| <= 1 && |r| <= |s| && r == s[..|r|]
    ensures r == "" <==> s == ""
  {
    if s == "" then "" else [s[0]]
  }

  function AvatarFor(name: string, initials: bool): Avatar {
    if initials then Initial(FirstChar(name)) else UserIcon
  }

  /** `collaborators.slice(0, 3)` drawn as avatars, then `+(n - 3)` when there are more than three. */
  function Strip(collaborators: seq<string>, initials: bool): (r: CollaboratorStrip)
    ensures |r.avatars| == |r.names| == Min(3, |collaborators|)
    ensures r.names == collaborators[..|r.names|]
    ensures forall i :: 0 <= i < |r.avatars| ==> r.avatars[i] == AvatarFor(collaborators[i], initials)
    ensures r.more.Some? <==> |collaborators| > 3
    ensures |r.avatars| + r.more.GetOr(0) == |collaborators|
  {
    var shown := collaborators[..Min(3, |collaborators|)];
    CollaboratorStrip(
      seq(|shown|, i requires 0 <= i < |shown| => AvatarFor(shown[i], initials)),
      shown,
      if |collaborators| > 3 then Some(|collaborators| - 3) else None)
  }

  /** `FeishuDocumentEditor`: initials, and no strip at all for an empty list. */
  function FeishuCollaborators(collaborators: Option<seq<string>>): (r: Option<CollaboratorStrip>)
    ensures r.Some? <==> collaborators.Some? && |collaborators.value| > 0
    ensures r.Some? ==> r.value == Strip(collaborators.value, true)
  {
    if collaborators.Some? && |collaborators.value| > 0 then Some(Strip(collaborators.value, true)) else None
  }

  /**
   * `DocumentEditor`: user icons, inside the toolbar and only when
   * `showCollaborators`; a defined list is drawn even when empty.
   */
  function DocumentEditorCollaborators(showToolbar: bool, showCollaborators: bool,
                                       collaborators: Option<seq<string>>): (r: Option<CollaboratorStrip>)
    ensures r.Some? <==> showToolbar && showCollaborators && collaborators.Some?
    ensures r.Some? ==> r.value == Strip(collaborators.value, false)
  {
    if showToolbar && showCollaborators && collaborators.Some? then Some(Strip(collaborators.value, false)) else None
  }

  /**
   * The two components agree on which collaborators are drawn and on the
   * badge whenever both draw a strip; for an empty list only `DocumentEditor`
   * draws one, and it is empty.
   */
  lemma {:induction false} StripsAgree(collaborators: seq<string>)
    ensures var f := FeishuCollaborators(Some(collaborators));
      var d := DocumentEditorCollaborators(true, true, Some(collaborators));
      && d.Some?
      && (f.Some? ==> f.value.names == d.value.names && f.value.more == d.value.more)
      && (collaborators == [] ==> f.None? && d.value == CollaboratorStrip([], [], None))
  {
    var d := DocumentEditorCollaborators(true, true, Some(collaborators));
    if collaborators == [] {
      assert d.value.avatars == [];
    }
  }

  /** The Feishu avatars spell out each shown collaborator's first character. */
  lemma FeishuInitials(collaborators: seq<string>, i: nat)
    requires i < |collaborators| && i < 3
    ensures var f := FeishuCollaborators(Some(collaborators));
      f.Some? && f.value.avatars[i] == Initial(FirstChar(collaborators[i]))
      && (collaborators[i] != "" ==> f.value.avatars[i].text == [collaborators[i][0]])
  {
  }

  // ---------------------------------------------------------------------------
  // The title area

  /** Whether the title is being edited after a click on the title text: `!readOnly && setIsEditingTitle(true)`. */
  function AfterTitleClick(readOnly: bool, editing: bool): bool {
    editing || !readOnly
  }

  /** The pencil button is rendered while the editor is writable and the title shows as text. */
  predicate EditButtonShown(readOnly: bool, editing: bool) {
    !readOnly && !editing
  }

  /**
   * The pencil button is offered exactly when the title shows as text and a
   * click on that text would open the input: a read-only editor offers
   * neither, and the button is never offered while the input is open.
   */
  lemma EditButtonIffTitleOpens(readOnly: bool, editing: bool)
    ensures EditButtonShown(readOnly, editing) <==> !editing && AfterTitleClick(readOnly, editing)
  {
  }

  // ---------------------------------------------------------------------------
  // The component's state

  /** The state both editor components keep, with the props they read. */
  class EditorShell {
    const doc: Option<DocumentProps>
    const readOnly: bool
    const hasOnSave: bool
    var title: string
    var content: Option<Content>
    var isSaving: bool
    var lastSaved: Option<int>
    var isEditingTitle: bool

    /** The initial state: the document's title or "无标题文档", its content and time. */
    constructor (doc: Option<DocumentProps>, readOnly: bool, hasOnSave: bool)
      ensures this.doc == doc && this.readOnly == readOnly && this.hasOnSave == hasOnSave
      ensures title == StringOr(DocTitle(doc), UntitledTitle)
      ensures content == DocContent(doc) && lastSaved == DocLastModified(doc)
      ensures !isSaving && !isEditingTitle
    {
      this.doc := doc;
      this.readOnly := readOnly;
      this.hasOnSave := hasOnSave;
      title := StringOr(DocTitle(doc), UntitledTitle);
      content := DocContent(doc);
      lastSaved := DocLastModified(doc);
      isSaving := false;
      isEditingTitle := false;
    }

    /** `handleTitleChange`: the new title is kept (and reported to `onTitleChange`). */
    method TitleChange(newTitle: string)
      modifies this
      ensures title == newTitle
      ensures content == old(content) && isSaving == old(isSaving)
      ensures lastSaved == old(lastSaved) && isEditingTitle == old(isEditingTitle)
    {
      title := newTitle;
    }

    /** `handleContentChange`: the new content is kept (and reported to `onContentChange`). */
    method ContentChange(newContent: Content)
      modifies this
      ensures content == Some(newContent)
      ensures title == old(title) && isSaving == old(isSaving)
      ensures lastSaved == old(lastSaved) && isEditingTitle == old(isEditingTitle)
    {
      content := Some(newContent);
    }

    /** A click on the title starts editing it unless the editor is read-only. */
    method TitleClick()
      modifies this
      ensures isEditingTitle == AfterTitleClick(readOnly, old(isEditingTitle))
      ensures title == old(title) && content == old(content)
      ensures isSaving == old(isSaving) && lastSaved == old(lastSaved)
    {
      if !readOnly {
        isEditingTitle := true;
      }
    }

    /** Blur or Enter in the title input ends editing; a writable editor offers the pencil button again. */
    method EndTitleEdit()
      modifies this
      ensures !isEditingTitle && (EditButtonShown(readOnly, isEditingTitle) <==> !readOnly)
      ensures title == old(title) && content == old(content)
      ensures isSaving == old(isSaving) && lastSaved == old(lastSaved)
    {
      isEditingTitle := false;
    }

    /** The pencil button's click, offered only while the button is rendered: the input opens and the button goes. */
    method EditButtonClick()
      requires EditButtonShown(readOnly, isEditingTitle)
      modifies this
      ensures isEditingTitle && !EditButtonShown(readOnly, isEditingTitle)
      ensures title == old(title) && content == old(content)
      ensures isSaving == old(isSaving) && lastSaved == old(lastSaved)
    {
      isEditingTitle := true;
    }

    /**
     * The first half of `handleSave`, up to `await onSave(...)`: the record
     * handed to `onSave` (None when the save returns at once), and `isSaving`
     * raised when there is one.
     */
    method BeginSave(now: int) returns (request: Option<SaveRecord>)
      modifies this
      ensures request == SaveRequest(hasOnSave, old(content), old(title), doc, now)
      ensures isSaving == (old(isSaving) || request.Some?)
      ensures title == old(title) && content == old(content)
      ensures lastSaved == old(lastSaved) && isEditingTitle == old(isEditingTitle)
    {
      request := SaveRequest(hasOnSave, content, title, doc, now);
      if request.Some? {
        isSaving := true;
      }
    }

    /**
     * The second half, after `onSave` settles at time `now`: a success stamps
     * `lastSaved`, a failure leaves it; either way `isSaving` drops.
     */
    method FinishSave(succeeded: bool, now: int)
      modifies this
      ensures !isSaving
      ensures lastSaved == if succeeded then Some(now) else old(lastSaved)
      ensures title == old(title) && content == old(content) && isEditingTitle == old(isEditingTitle)
    {
      if succeeded {
        lastSaved := Some(now);
      }
      isSaving := false;
    }

    /** One tick of the 30-second interval: a save begins when one is due and possible. */
    method AutoSaveTick(now: int) returns (request: Option<SaveRecord>)
      modifies this
      ensures request.Some? <==> AutoSaveDue(readOnly, hasOnSave, old(content), old(title), doc) && old(content).Some?
      ensures request.Some? ==> request == SaveRequest(hasOnSave, old(content), old(title), doc, now)
      ensures isSaving == (old(isSaving) || request.Some?)
      ensures title == old(title) && content == old(content)
      ensures lastSaved == old(lastSaved) && isEditingTitle == old(isEditingTitle)
    {
      if AutoSaveDue(readOnly, hasOnSave, content, title, doc) {
        request := BeginSave(now);
      } else {
        request := None;
      }
    }

    /** The caption shown at time `now`. */
    function Caption(now: int): (r: SaveLabel)
      reads this
      ensures r == NotSaved <==> lastSaved.None?
    {
      FormatLastSaved(lastSaved, now)
    }
  }
}
