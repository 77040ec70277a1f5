# Editor components of aokiz-docx, modelled in Dafny

This project models the editing layer of the aokiz-docx front end: the React
components and hooks under `frontend/src/components/editor/` that sit around
an Editor.js editor. It covers:

- the document shell shared by `FeishuDocumentEditor` and `DocumentEditor`:
  - the editable title and the content snapshot;
  - the manual save and the 30-second auto-save;
  - the "last saved" caption;
  - the collaborator strip.
- the document toolbar: the plain-text export of the blocks, the full-screen
  flag and the comment dialog.
- the slash-command hook and menu:
  - detecting a `/` trigger before the caret and removing the trigger text
    when a command is chosen;
  - filtering, grouping and flattening the command list;
  - cyclic keyboard selection.
- the three hover machines, each a state machine of delayed shows and hides:
  - `useHoverToolbar`: the hover toolbar;
  - `useEditorJSToolbar`: the plus button and the inline selection toolbar;
  - `useBlockIndicator`: the block-type indicator.
- the components those hooks drive:
  - `HoverToolbar`: placement clamped into the viewport, tool groups, inline
    slices and the "more" menu;
  - `EditorJSToolbar`: block-insert keys, placement and the drag handle;
  - `BlockIndicator`: type labels, placement and the two stages.
- the hover-toolbar plugin manager (`HoverToolbarPluginManager`) and
  `createPlugin`.

Layout, one module per file:

| file | module | models |
|---|---|---|
| `wrappers.dfy` | `Wrappers` | `Option` |
| `js_string.dfy` | `JsString` | the JavaScript string built-ins the code calls |
| `dom.dfy` | `Dom` | what the hooks read from the page, and the upward `getBlockElement` walk |
| `document_shell.dfy` | `DocumentShell` | the two editor components |
| `document_toolbar.dfy` | `DocumentToolbar` | the document toolbar |
| `use_slash_command.dfy`, `slash_command.dfy` | `UseSlashCommand`, `SlashCommand` | the slash command |
| `use_hover_toolbar.dfy`, `hover_toolbar.dfy` | `UseHoverToolbar`, `HoverToolbar` | the hover toolbar |
| `hover_toolbar_plugins.dfy` | `HoverToolbarPlugins` | the plugin manager |
| `use_editorjs_toolbar.dfy`, `editorjs_toolbar.dfy` | `UseEditorJSToolbar`, `EditorJSToolbar` | the Editor.js toolbar |
| `use_block_indicator.dfy`, `block_indicator.dfy` | `UseBlockIndicator`, `BlockIndicator` | the block indicator |

How React state is modelled:

- Component and hook state (`useState`, `useRef`) becomes the fields of a
  class. Each handler becomes a method with a `modifies` clause.
- The hook classes are specified by pure step functions on a state
  datatype: `ensures State() == Step(old(State()))`. The lemmas about those
  step functions carry the properties.
- Each `setTimeout` is a pending slot. An explicit `Fire…` method runs it.
- A hide timer whose ref is overwritten without `clearTimeout` can no
  longer be cancelled, so it is counted as a stray timer.
- A listener effect that re-runs when `isToolbarVisible` changes clears the
  timers it tracks and starts its local hovered block afresh.
- DOM measurements (rectangles, scroll offsets, the ancestor chain of the
  event target, whether it lies inside the editor) are parameters.

Where the code and its documentation disagree, the model follows the code.
The two exceptions are the defects listed under "## Findings": each is
modelled as written, and the rest of the model uses the corrected definition.

## Model

| member | source | states |
|---|---|---|
| `Dom.GetBlockElement` | frontend/src/components/editor/useHoverToolbar.ts:121-137 | the walk up the ancestor chain returns the first element the block test accepts before `document.body`, or null when there is none; the result equals the recursive `FirstBlock` |
| `DocumentShell.StringOr` | frontend/src/components/editor/FeishuDocumentEditor.tsx:87-92 | `v \|\| d` on an optional string: the default exactly for a missing or empty value, else the value itself |
| `DocumentShell.SaveRequest` | frontend/src/components/editor/FeishuDocumentEditor.tsx:80-93 | `handleSave` hands a record to `onSave` exactly when there is an `onSave` callback and content |
| `DocumentShell.SaveRecordFields` | frontend/src/components/editor/FeishuDocumentEditor.tsx:86-93 | the saved record carries the current title, the content and the save time; the id and owner come from the document unless missing or empty (then "new" and "current-user"); missing collaborators become `[]` |
| `DocumentShell.AutoSaveDue` | frontend/src/components/editor/FeishuDocumentEditor.tsx:113-121 | an auto-save tick only fires for a writable editor with an `onSave` callback |
| `DocumentShell.TitleOnlyAutoSaveSavesNothing` | frontend/src/components/editor/DocumentEditor.tsx:104-109 | a tick that is due only because the title changed calls `handleSave`, which returns at once for want of content |
| `DocumentShell.AutoSaveWithContent` | frontend/src/components/editor/DocumentEditor.tsx:104-109 | with content, every tick of a writable editor with `onSave` is due and saves, changed or not |
| `DocumentShell.ReadOnlyNeverAutoSaves` | frontend/src/components/editor/FeishuDocumentEditor.tsx:115 | a read-only editor never auto-saves |
| `DocumentShell.FormatLastSaved` | frontend/src/components/editor/FeishuDocumentEditor.tsx:129-143 | the caption is "未保存" exactly when there is no save time |
| `DocumentShell.FormatLastSavedBuckets` | frontend/src/components/editor/DocumentEditor.tsx:121-135 | each caption covers one range of elapsed time (<1 min, <1 h, <24 h, later); the number shown is the count of whole minutes (1..59) or hours (1..23) elapsed |
| `DocumentShell.CaptionReadsBack` | frontend/src/components/editor/FeishuDocumentEditor.tsx:137-140 | `parseInt` of a minutes or hours caption gives back the count it was built from |
| `DocumentShell.FirstChar` | frontend/src/components/editor/FeishuDocumentEditor.tsx:227 | `charAt(0)`: a prefix of at most one character, empty exactly for the empty name |
| `DocumentShell.Strip` | frontend/src/components/editor/FeishuDocumentEditor.tsx:218-242 | at most three avatars, for the first three collaborators in order, with their names as tooltips; a `+N` badge exactly when there are more than three; avatars plus N count every collaborator |
| `DocumentShell.FeishuCollaborators` | frontend/src/components/editor/FeishuDocumentEditor.tsx:218 | the Feishu editor draws the strip, with initials, exactly for a defined, non-empty list |
| `DocumentShell.DocumentEditorCollaborators` | frontend/src/components/editor/DocumentEditor.tsx:187-201 | `DocumentEditor` draws the strip, with user icons, exactly when the toolbar and collaborators are shown and the list is defined |
| `DocumentShell.StripsAgree` | frontend/src/components/editor/DocumentEditor.tsx:187-201 | the two editors show the same names and badge whenever both draw; for an empty list only `DocumentEditor` draws, and draws nothing in it |
| `DocumentShell.FeishuInitials` | frontend/src/components/editor/FeishuDocumentEditor.tsx:220-228 | each of the first three Feishu avatars shows its collaborator's first character |
| `DocumentShell.EditorShell.constructor` | frontend/src/components/editor/FeishuDocumentEditor.tsx:50-54 | the initial state: the document's title or "无标题文档", its content and save time, not saving, not editing |
| `DocumentShell.EditorShell.TitleChange` | frontend/src/components/editor/FeishuDocumentEditor.tsx:60-65 | the new title is kept; nothing else changes |
| `DocumentShell.EditorShell.ContentChange` | frontend/src/components/editor/FeishuDocumentEditor.tsx:68-77 | the new content is kept; nothing else changes |
| `DocumentShell.EditorShell.TitleClick` | frontend/src/components/editor/FeishuDocumentEditor.tsx:188 | a click starts editing the title unless the editor is read-only |
| `DocumentShell.EditorShell.EndTitleEdit` | frontend/src/components/editor/FeishuDocumentEditor.tsx:178-179 | blur or Enter ends title editing |
| `DocumentShell.EditButtonIffTitleOpens` | frontend/src/components/editor/FeishuDocumentEditor.tsx:188-205 | the pencil button is shown exactly when the title is not being edited and a click on the title would open it for editing, that is, when the editor is writable |
| `DocumentShell.EditorShell.EditButtonClick` | frontend/src/components/editor/FeishuDocumentEditor.tsx:195-205 | clicking the shown pencil button starts title editing, which hides the button; title, content and save state are unchanged |
| `DocumentShell.EditorShell.BeginSave` | frontend/src/components/editor/FeishuDocumentEditor.tsx:80-95 | the record handed to `onSave` is `SaveRequest` of the current state; `isSaving` rises exactly when there is one |
| `DocumentShell.EditorShell.FinishSave` | frontend/src/components/editor/FeishuDocumentEditor.tsx:95-109 | a success stamps the save time, a failure keeps the old one; `isSaving` drops either way |
| `DocumentShell.EditorShell.AutoSaveTick` | frontend/src/components/editor/DocumentEditor.tsx:104-112 | a tick begins a save exactly when one is due and there is content, with the record `SaveRequest` gives |
| `DocumentShell.EditorShell.Caption` | frontend/src/components/editor/DocumentEditor.tsx:181 | the caption shown is "未保存" exactly when nothing was saved |
| `DocumentToolbar.ItemLines` | frontend/src/components/editor/DocumentToolbar.tsx:310-314 | one line per item, in order, numbered from 1 when ordered and bulleted otherwise |
| `DocumentToolbar.BlockTexts` | frontend/src/components/editor/DocumentToolbar.tsx:302-322 | one text per block in block order; the export fails exactly when some block's text throws |
| `DocumentToolbar.HeaderExport` | frontend/src/components/editor/DocumentToolbar.tsx:305-306 | a header of level n >= 1 exports as n hashes, a space and its text, so the level reads back from the line; a missing or zero level gives one hash; a negative level makes `repeat` throw |
| `DocumentToolbar.ListExport` | frontend/src/components/editor/DocumentToolbar.tsx:309-314 | when no item holds a line break, splitting a list's export at line breaks gives back one numbered or bulleted line per item |
| `DocumentToolbar.QuoteAndCodeExport` | frontend/src/components/editor/DocumentToolbar.tsx:315-318 | a quote is `> ` and its text; a code block is its code between two fence lines |
| `DocumentToolbar.OtherBlocksExportText` | frontend/src/components/editor/DocumentToolbar.tsx:319-320 | paragraphs and unknown block types export their text |
| `DocumentToolbar.ExportAppend` | frontend/src/components/editor/DocumentToolbar.tsx:322 | appending a block appends a blank line and its text: the export follows block order |
| `DocumentToolbar.ExportExample` | frontend/src/components/editor/DocumentToolbar.tsx:302-322 | a level-2 header and a paragraph export as `## Title`, a blank line and `Body` |
| `DocumentToolbar.Toolbar.constructor` | frontend/src/components/editor/DocumentToolbar.tsx:68-70 | not full screen, dialog closed, no comment text |
| `DocumentToolbar.Toolbar.ToggleFullscreen` | frontend/src/components/editor/DocumentToolbar.tsx:347-352 | the flag flips and the new value is reported |
| `DocumentToolbar.Toolbar.OpenCommentModal` | frontend/src/components/editor/DocumentToolbar.tsx:543 | the menu item opens the dialog |
| `DocumentToolbar.Toolbar.SetCommentText` | frontend/src/components/editor/DocumentToolbar.tsx:624 | typing sets the comment text |
| `DocumentToolbar.Toolbar.CancelComment` | frontend/src/components/editor/DocumentToolbar.tsx:613 | cancel closes the dialog and keeps the text |
| `DocumentToolbar.Toolbar.HandleAddComment` | frontend/src/components/editor/DocumentToolbar.tsx:355-364 | a blank comment changes nothing; any other is reported untrimmed, the text is cleared and the dialog closes |
| `UseSlashCommand.CheckForSlashCommand` | frontend/src/components/editor/useSlashCommand.ts:67-95 | a trigger names a `/` strictly before the caret, at the start of the text or after a space or line break; the search term is exactly the text between the slash and the caret and holds no space, line break or slash |
| `UseSlashCommand.CheckForSlashCommandAsWritten` | frontend/src/components/editor/useSlashCommand.ts:67-95 | the check as written: a trigger names a `/` at or before the clamped caret, at the start of the text or after a space or line break, and its term is `substring(slash + 1, caret)` (with JavaScript's swapped bounds) holding no space or line break |
| `UseSlashCommand.AsWrittenAgreesUnlessSlashAtCaret` | frontend/src/components/editor/useSlashCommand.ts:69 | the written check and the intended one give the same result for every text and caret, except when a slash sits at the caret |
| `UseSlashCommand.NoSlashNoTrigger` | frontend/src/components/editor/useSlashCommand.ts:71-73 | no slash before the caret means no trigger |
| `UseSlashCommand.GluedSlashNoTrigger` | frontend/src/components/editor/useSlashCommand.ts:76-81 | a last slash glued to a preceding character is no trigger |
| `UseSlashCommand.BrokenTermNoTrigger` | frontend/src/components/editor/useSlashCommand.ts:87-89 | a space or line break between the last slash and the caret closes the trigger |
| `UseSlashCommand.TypedSlashTriggers` | frontend/src/components/editor/useSlashCommand.ts:67-95 | a slash typed at the start or after a space or line break, followed by a word, triggers with that word as the term |
| `UseSlashCommand.RemoveTriggerSplices` | frontend/src/components/editor/useSlashCommand.ts:197-199 | for a found trigger, removal deletes exactly the characters from the slash up to the caret |
| `UseSlashCommand.AsWrittenCaretBeforeSlash` | frontend/src/components/editor/useSlashCommand.ts:69 | the check as written finds a trigger for `/a` with the caret at 0, before the slash, with the term `/`; the corrected check finds none |
| `UseSlashCommand.AsWrittenRemovalEatsNextChar` | frontend/src/components/editor/useSlashCommand.ts:84 | with the caret just before a slash, choosing a command turns `x /ab` into `x b`: the slash and the character after it go |
| `UseSlashCommand.SelectEditDeletesIff` | frontend/src/components/editor/useSlashCommand.ts:202-206 | the block is deleted exactly when the text left is blank and the block is not a paragraph; otherwise its text is rewritten |
| `UseSlashCommand.SlashCommandHook.constructor` | frontend/src/components/editor/useSlashCommand.ts:25-35 | the menu starts hidden with no trigger, and text input is not blocked |
| `UseSlashCommand.SlashCommandHook.HandleTextInput` | frontend/src/components/editor/useSlashCommand.ts:98-121 | ignored while a selection is being handled; a trigger opens the menu at the caret with its term; no trigger closes the menu and keeps the position |
| `UseSlashCommand.SlashCommandHook.HandleCommandSelect` | frontend/src/components/editor/useSlashCommand.ts:181-232 | a no-op without an editor or a recorded trigger; otherwise input is blocked, one release timer is scheduled, and the block edit is `SelectEdit` of the trigger |
| `UseSlashCommand.SlashCommandHook.FireRelease` | frontend/src/components/editor/useSlashCommand.ts:228-230 | a release timer unblocks text input |
| `UseSlashCommand.SlashCommandHook.CloseSlashCommand` | frontend/src/components/editor/useSlashCommand.ts:235-242 | the menu hides and forgets the trigger; the position is kept |
| `SlashCommand.FilterBlankIsIdentity` | frontend/src/components/editor/SlashCommand.tsx:332 | a blank search term keeps the whole list |
| `SlashCommand.FilterMatchingSubsequence` | frontend/src/components/editor/SlashCommand.tsx:335-339 | filtering keeps commands in their original order |
| `SlashCommand.FilterMatchingMembers` | frontend/src/components/editor/SlashCommand.tsx:335-339 | a command is kept exactly when its label, description or a keyword, lowercased, contains the term |
| `SlashCommand.FilterCommandsSpec` | frontend/src/components/editor/SlashCommand.tsx:331-340 | the filtered list is an order-preserving sub-list; for a non-blank term it holds exactly the commands matching the lowered, trimmed term |
| `SlashCommand.Groups.Push` | frontend/src/components/editor/SlashCommand.tsx:352 | a command is appended to its own category's group; the other groups stay |
| `SlashCommand.GroupCommands` | frontend/src/components/editor/SlashCommand.tsx:343-356 | each group holds exactly the commands of its category, in list order |
| `SlashCommand.InCategoryMembers` | frontend/src/components/editor/SlashCommand.tsx:351-353 | a command lands in the group of its own category and in no other |
| `SlashCommand.FlatIsPermutation` | frontend/src/components/editor/SlashCommand.tsx:359-361 | the flattened list is a reordering of the filtered commands: the same multiset |
| `SlashCommand.NextIndex` | frontend/src/components/editor/SlashCommand.tsx:369-374 | ArrowDown keeps the index inside a non-empty list |
| `SlashCommand.PrevIndex` | frontend/src/components/editor/SlashCommand.tsx:376-381 | ArrowUp keeps the index inside a non-empty list |
| `SlashCommand.NextPrevInverse` | frontend/src/components/editor/SlashCommand.tsx:369-381 | on an index in range, ArrowDown and ArrowUp undo each other |
| `SlashCommand.NextCycle` | frontend/src/components/editor/SlashCommand.tsx:371-373 | pressing ArrowDown as many times as there are entries comes back to the start |
| `SlashCommand.EmptyListArrowUp` | frontend/src/components/editor/SlashCommand.tsx:378-380 | on an empty list ArrowUp sets the index to -1 and ArrowDown to 0 |
| `SlashCommand.EnterSelectsMatchingCommand` | frontend/src/components/editor/SlashCommand.tsx:384-388 | Enter on an index inside the filtered, grouped list reports a command, runs that same command's action and then closes; the command is one of the filtered commands, and for a non-blank term it is a command of the menu that matches the trimmed, lowered term |
| `SlashCommand.SlashMenu.constructor` | frontend/src/components/editor/SlashCommand.tsx:64-65 | empty search term, index 0 |
| `SlashCommand.SlashMenu.SetSearchTerm` | frontend/src/components/editor/SlashCommand.tsx:457 | typing changes the term and does not reset the index |
| `SlashCommand.SlashMenu.KeyDown` | frontend/src/components/editor/SlashCommand.tsx:365-395 | nothing while hidden; over the grouped list of the commands the current term lets through, the arrows move the index cyclically; Enter gives the selection effects of the highlighted command only when the index names one; Escape closes |
| `UseHoverToolbar.ToolbarAnchor` | frontend/src/components/editor/useHoverToolbar.ts:140-149 | the anchor is centred horizontally on the block's page rectangle, at its top edge |
| `UseHoverToolbar.ShowSameBlockOnlyMoves` | frontend/src/components/editor/useHoverToolbar.ts:54-58 | a show on the block already shown cancels the hide and only moves the toolbar |
| `UseHoverToolbar.ShowThenFire` | frontend/src/components/editor/useHoverToolbar.ts:60-71 | any other show schedules that block; when the timer fires, the toolbar is drawn for it at that point |
| `UseHoverToolbar.HideThenFire` | frontend/src/components/editor/useHoverToolbar.ts:75-89 | a hide cancels the pending show; when it fires nothing is shown and the position stays |
| `UseHoverToolbar.HideNowClears` | frontend/src/components/editor/useHoverToolbar.ts:97-110 | hiding at once cancels both tracked timers and clears the shown block |
| `UseHoverToolbar.LeavingIntoToolbarKeeps` | frontend/src/components/editor/useHoverToolbar.ts:186-191 | moving the pointer into the toolbar never hides it |
| `UseHoverToolbar.StrayHideOutlivesShow` | frontend/src/components/editor/useHoverToolbar.ts:83-88 | two hides in a row leave the first timer uncancellable; it hides the toolbar even after a new show |
| `UseHoverToolbar.LeaveAfterShowKeepsToolbar` | frontend/src/components/editor/useHoverToolbar.ts:199-204 | once a show fires, the re-run listener forgets the hovered block, so leaving that block for no block starts no hide and the toolbar stays |
| `UseHoverToolbar.HoverToolbarHook.constructor` | frontend/src/components/editor/useHoverToolbar.ts:34-44 | the first render: hidden at (0, 0), no block, no timers |
| `UseHoverToolbar.HoverToolbarHook.Render` | frontend/src/components/editor/useHoverToolbar.ts:239-256 | setting the drawn state; a change of visibility re-runs the listener effect, whose cleanup clears both tracked timers |
| `UseHoverToolbar.HoverToolbarHook.ShowToolbar` | frontend/src/components/editor/useHoverToolbar.ts:47-72 | the new state is `Show` of the old |
| `UseHoverToolbar.HoverToolbarHook.HideToolbar` | frontend/src/components/editor/useHoverToolbar.ts:75-89 | the new state is `Hide` of the old |
| `UseHoverToolbar.HoverToolbarHook.FireShowTimer` | frontend/src/components/editor/useHoverToolbar.ts:66-71 | the pending show draws its block at its point |
| `UseHoverToolbar.HoverToolbarHook.FireHideTimer` | frontend/src/components/editor/useHoverToolbar.ts:83-88 | the tracked hide clears the toolbar |
| `UseHoverToolbar.HoverToolbarHook.FireStrayHideTimer` | frontend/src/components/editor/useHoverToolbar.ts:83-88 | a stray hide clears the toolbar too |
| `UseHoverToolbar.HoverToolbarHook.HideImmediately` | frontend/src/components/editor/useHoverToolbar.ts:97-110 | the new state is `HideNow` of the old |
| `UseHoverToolbar.HoverToolbarHook.UpdateToolbarPosition` | frontend/src/components/editor/useHoverToolbar.ts:92-94 | only the position's coordinates change |
| `UseHoverToolbar.HoverToolbarHook.ToolbarMouseEnter` | frontend/src/components/editor/useHoverToolbar.ts:260-266 | entering the toolbar cancels the pending hide |
| `UseHoverToolbar.HoverToolbarHook.ToolbarMouseLeave` | frontend/src/components/editor/useHoverToolbar.ts:268-271 | leaving the toolbar starts a hide |
| `UseHoverToolbar.HoverToolbarHook.HandleMouseOver` | frontend/src/components/editor/useHoverToolbar.ts:160-179 | inside the editor, a block other than the hovered one becomes hovered and is shown at its anchor |
| `UseHoverToolbar.HoverToolbarHook.HandleMouseOut` | frontend/src/components/editor/useHoverToolbar.ts:181-205 | leaving the hovered block (not into the toolbar, inside the editor) forgets it and starts a hide |
| `UseHoverToolbar.HoverToolbarHook.HandleMouseMove` | frontend/src/components/editor/useHoverToolbar.ts:207-212 | while a block is hovered the toolbar follows its anchor |
| `UseHoverToolbar.HoverToolbarHook.HandleScrollOrKey` | frontend/src/components/editor/useHoverToolbar.ts:222-235 | scroll and keydown hide at once while the toolbar is shown |
| `HoverToolbar.HiddenIffNotVisible` | frontend/src/components/editor/HoverToolbar.tsx:238-244 | the style is hidden exactly when the position is not visible |
| `HoverToolbar.StyleClampsIntoViewport` | frontend/src/components/editor/HoverToolbar.tsx:251-259 | a toolbar that fits the viewport lies within the 10 px margins; one that needs no clamping is centred on the anchor |
| `HoverToolbar.StyleEdges` | frontend/src/components/editor/HoverToolbar.tsx:255-259 | the left edge sits at the margin or the right edge within it; a toolbar too wide is aligned on the right margin |
| `HoverToolbar.StyleTop` | frontend/src/components/editor/HoverToolbar.tsx:252-264 | above the anchor with a 10 px gap when that leaves 10 px at the top, else 10 px below it |
| `HoverToolbar.InGroup` | frontend/src/components/editor/HoverToolbar.tsx:169-172 | the filter keeps only tools of that group |
| `HoverToolbar.GroupsPartition` | frontend/src/components/editor/HoverToolbar.tsx:165-173 | a tool lands in the group its `group` names and in no other; the block group starts with the three block actions |
| `HoverToolbar.GroupsStartWithDefaults` | frontend/src/components/editor/HoverToolbar.tsx:165-173 | the built-in tools fill the format and insert groups first, and plugins follow in order |
| `HoverToolbar.UngroupedPluginHidden` | frontend/src/components/editor/HoverToolbar.tsx:168-173 | a plugin without a group is filed under custom by the manager but shown in no toolbar group |
| `HoverToolbar.ToolItems` | frontend/src/components/editor/HoverToolbar.tsx:278-283 | one menu item per tool, in order |
| `HoverToolbar.AsWrittenOverflowUnreachable` | frontend/src/components/editor/HoverToolbar.tsx:276-292 | as written, the "more" button shows, yet checklist, quote, link and delete are neither inline nor in the menu |
| `HoverToolbar.Render` | frontend/src/components/editor/HoverToolbar.tsx:294-354 | the corrected toolbar: nothing when hidden; otherwise the inline rows are the first 4 format, 3 insert and 2 block tools of the grouped tools, in order; its "more" menu is the corrected one, holding every tool cut from the inline rows (see `HoverToolbar.EveryToolReachable`), not the custom-tools-only menu of HoverToolbar.tsx:276-292 |
| `HoverToolbar.RenderAsWritten` | frontend/src/components/editor/HoverToolbar.tsx:276-354 | the toolbar as written: nothing when hidden; the "more" button shows exactly when there are custom tools or the format or insert group overflows its inline slice, yet its menu lists only the custom tools, in order, then a divider and the settings entry |
| `HoverToolbar.EveryToolReachable` | frontend/src/components/editor/HoverToolbar.tsx:306-354 | with the overflow in the "more" menu, every grouped tool can be clicked |
| `HoverToolbar.ShowMoreAlways` | frontend/src/components/editor/HoverToolbar.tsx:354 | the six built-in format tools alone overflow the inline row, so the button always shows |
| `HoverToolbar.RenderExtendsAsWritten` | frontend/src/components/editor/HoverToolbar.tsx:276-354 | the corrected rendering keeps the inline rows and every custom tool the menu as written offers |
| `HoverToolbarPlugins.GroupKey` | frontend/src/components/editor/HoverToolbarPlugins.tsx:39 | a plugin's group, or custom when it has none |
| `HoverToolbarPlugins.SetKey` | frontend/src/components/editor/HoverToolbarPlugins.tsx:36 | `Map.set` keeps keys unique and adds exactly the new key |
| `HoverToolbarPlugins.RemoveKey` | frontend/src/components/editor/HoverToolbarPlugins.tsx:88 | `Map.delete` removes exactly that key and keeps the rest unique |
| `HoverToolbarPlugins.FindById` | frontend/src/components/editor/HoverToolbarPlugins.tsx:94 | `findIndex` gives the first index with the id, or -1 when there is none |
| `HoverToolbarPlugins.RemoveFirstSpec` | frontend/src/components/editor/HoverToolbarPlugins.tsx:94-97 | only the first plugin with the id leaves its group list; the list is unchanged when there is none |
| `HoverToolbarPlugins.RemoveFirstKeepsOthers` | frontend/src/components/editor/HoverToolbarPlugins.tsx:94-97 | removal by one id keeps every plugin with another id |
| `HoverToolbarPlugins.AfterRegister` | frontend/src/components/editor/HoverToolbarPlugins.tsx:35-44 | `register` keeps the registry consistent |
| `HoverToolbarPlugins.AfterUnregister` | frontend/src/components/editor/HoverToolbarPlugins.tsx:84-101 | `unregister` keeps the registry consistent |
| `HoverToolbarPlugins.Values` | frontend/src/components/editor/HoverToolbarPlugins.tsx:64 | `getAll` lists one plugin per id, in id order |
| `HoverToolbarPlugins.RegisterThenGet` | frontend/src/components/editor/HoverToolbarPlugins.tsx:35-36 | after `register(p)`, `get(p.id)` is p and every other id looks up as before |
| `HoverToolbarPlugins.RegisterGroups` | frontend/src/components/editor/HoverToolbarPlugins.tsx:39-43 | `register` appends to the plugin's group, creating it if needed, and leaves other groups alone |
| `HoverToolbarPlugins.RegisterOrder` | frontend/src/components/editor/HoverToolbarPlugins.tsx:36 | a new id is listed last by `getAll`; a re-registered id keeps its place |
| `HoverToolbarPlugins.RegisterAllSnoc` | frontend/src/components/editor/HoverToolbarPlugins.tsx:49-51 | registering a list and then one more plugin is registering the longer list |
| `HoverToolbarPlugins.RegisterAllValid` | frontend/src/components/editor/HoverToolbarPlugins.tsx:49-51 | `registerMany` keeps the registry consistent whatever the list |
| `HoverToolbarPlugins.UnregisterUnknown` | frontend/src/components/editor/HoverToolbarPlugins.tsx:85-86 | `unregister` of an unknown id returns false and changes nothing |
| `HoverToolbarPlugins.UnregisterKnown` | frontend/src/components/editor/HoverToolbarPlugins.tsx:84-101 | `unregister` of a known id returns true and forgets the id; its group loses one entry, the first with that id; every other group, group key and plugin stays |
| `HoverToolbarPlugins.ReRegisteredIdLeavesStaleEntry` | frontend/src/components/editor/HoverToolbarPlugins.tsx:35-43 | an id registered twice under different groups and then unregistered leaves the first registration in its old group |
| `HoverToolbarPlugins.ByGroupUnknown` | frontend/src/components/editor/HoverToolbarPlugins.tsx:70-72 | `getByGroup` on a group never created is empty |
| `HoverToolbarPlugins.CreatePluginOverrides` | frontend/src/components/editor/HoverToolbarPlugins.tsx:395-402 | each key the config has wins over the default; id and title always come from the config |
| `HoverToolbarPlugins.CreatePluginDefaults` | frontend/src/components/editor/HoverToolbarPlugins.tsx:395-402 | keys the config lacks take the defaults; a plugin without a group lands in the custom group |
| `HoverToolbarPlugins.PluginManager.constructor` | frontend/src/components/editor/HoverToolbarPlugins.tsx:28-30 | both maps start empty |
| `HoverToolbarPlugins.PluginManager.Register` | frontend/src/components/editor/HoverToolbarPlugins.tsx:35-44 | the new registry is `AfterRegister` of the old, and stays consistent |
| `HoverToolbarPlugins.PluginManager.RegisterMany` | frontend/src/components/editor/HoverToolbarPlugins.tsx:49-51 | the new registry is the old one with each plugin registered in order |
| `HoverToolbarPlugins.PluginManager.Get` | frontend/src/components/editor/HoverToolbarPlugins.tsx:56-58 | the plugin filed under the id, or undefined when there is none |
| `HoverToolbarPlugins.PluginManager.GetAll` | frontend/src/components/editor/HoverToolbarPlugins.tsx:63-65 | every plugin, in the order its id was first registered |
| `HoverToolbarPlugins.PluginManager.GetByGroup` | frontend/src/components/editor/HoverToolbarPlugins.tsx:70-72 | the group's list, or empty for a group never created |
| `HoverToolbarPlugins.PluginManager.GetGroups` | frontend/src/components/editor/HoverToolbarPlugins.tsx:77-79 | every group key once, in creation order |
| `HoverToolbarPlugins.PluginManager.Unregister` | frontend/src/components/editor/HoverToolbarPlugins.tsx:84-101 | the result and new registry are `AfterUnregister` of the old |
| `HoverToolbarPlugins.PluginManager.Clear` | frontend/src/components/editor/HoverToolbarPlugins.tsx:106-109 | both maps become empty |
| `UseEditorJSToolbar.PlusAnchor` | frontend/src/components/editor/useEditorJSToolbar.ts:131-140 | the plus button's anchor is the block's page left edge, halfway down |
| `UseEditorJSToolbar.InlineAnchor` | frontend/src/components/editor/useEditorJSToolbar.ts:143-159 | no anchor exactly for an empty range box; otherwise centred on the range at its top edge |
| `UseEditorJSToolbar.ListenersKeepValid` | frontend/src/components/editor/useEditorJSToolbar.ts:170-247 | the mouse and selection listeners keep the plus button drawn exactly for the current, last hovered block |
| `UseEditorJSToolbar.ShowSameBlockOnlyMoves` | frontend/src/components/editor/useEditorJSToolbar.ts:54-63 | on the last hovered block a show only moves the button, and drops a show pending for another block |
| `UseEditorJSToolbar.ShowPlusThenFire` | frontend/src/components/editor/useEditorJSToolbar.ts:65-69 | any other show, once its timer fires, draws the button for that block at that point |
| `UseEditorJSToolbar.HidePlusThenFire` | frontend/src/components/editor/useEditorJSToolbar.ts:73-84 | a hide cancels the pending show; when it fires the button and its block are gone |
| `UseEditorJSToolbar.UntrackedHideOutlivesShow` | frontend/src/components/editor/useEditorJSToolbar.ts:79-83 | the hide timer is never tracked: returning to a block before it fires still ends with the button hidden |
| `UseEditorJSToolbar.MouseMoveHidesIff` | frontend/src/components/editor/useEditorJSToolbar.ts:170-195 | a mouse move starts a hide exactly when a block was hovered and the pointer is outside the editor or over no block |
| `UseEditorJSToolbar.MouseMoveOntoNewBlock` | frontend/src/components/editor/useEditorJSToolbar.ts:183-190 | moving onto a new block inside the editor makes it hovered and schedules the button for it, or only moves it when it was the last shown |
| `UseEditorJSToolbar.SelectionHides` | frontend/src/components/editor/useEditorJSToolbar.ts:217-240 | no range, a blank selection or one outside the editor hides the inline toolbar and forgets the text |
| `UseEditorJSToolbar.SelectionShows` | frontend/src/components/editor/useEditorJSToolbar.ts:224-246 | a non-blank selection in the editor with a non-empty box shows the inline toolbar, once its timer fires, with the trimmed text above the range |
| `UseEditorJSToolbar.ScrollAndKeyDown` | frontend/src/components/editor/useEditorJSToolbar.ts:266-285 | scroll hides both toolbars; keydown hides only the inline toolbar and leaves the plus button alone |
| `UseEditorJSToolbar.EditorJSToolbarHook.constructor` | frontend/src/components/editor/useEditorJSToolbar.ts:34-51 | the first render: both hidden at (0, 0), no block, no text, no timers |
| `UseEditorJSToolbar.EditorJSToolbarHook.ShowPlusButton` | frontend/src/components/editor/useEditorJSToolbar.ts:54-70 | the new state is `ShowPlus` of the old |
| `UseEditorJSToolbar.EditorJSToolbarHook.HidePlusButton` | frontend/src/components/editor/useEditorJSToolbar.ts:73-84 | the new state is `HidePlus` of the old |
| `UseEditorJSToolbar.EditorJSToolbarHook.FirePlusShowTimer` | frontend/src/components/editor/useEditorJSToolbar.ts:65-69 | the pending show draws the button for its block |
| `UseEditorJSToolbar.EditorJSToolbarHook.FirePlusHideTimer` | frontend/src/components/editor/useEditorJSToolbar.ts:79-83 | a hide timer clears the button and its block |
| `UseEditorJSToolbar.EditorJSToolbarHook.ShowInlineToolbar` | frontend/src/components/editor/useEditorJSToolbar.ts:87-96 | the new state is `ShowInline` of the old |
| `UseEditorJSToolbar.EditorJSToolbarHook.FireInlineTimer` | frontend/src/components/editor/useEditorJSToolbar.ts:92-95 | the pending inline show draws the toolbar with its text |
| `UseEditorJSToolbar.EditorJSToolbarHook.HideInlineToolbar` | frontend/src/components/editor/useEditorJSToolbar.ts:99-107 | the new state is `HideInline` of the old |
| `UseEditorJSToolbar.EditorJSToolbarHook.HandleMouseMove` | frontend/src/components/editor/useEditorJSToolbar.ts:170-195 | the new state is `MouseMove` of the old |
| `UseEditorJSToolbar.EditorJSToolbarHook.HandleSelectionChange` | frontend/src/components/editor/useEditorJSToolbar.ts:217-247 | the new state is `SelectionChange` of the old |
| `UseEditorJSToolbar.EditorJSToolbarHook.HandleScroll` | frontend/src/components/editor/useEditorJSToolbar.ts:269-272 | the new state is `OnScroll` of the old |
| `UseEditorJSToolbar.EditorJSToolbarHook.HandleKeyDown` | frontend/src/components/editor/useEditorJSToolbar.ts:274-276 | the new state is `KeyDown` of the old |
| `EditorJSToolbar.InsertIffHandled` | frontend/src/components/editor/EditorJSToolbar.tsx:162-197 | a key produces an insert exactly when the part before its first dash names a handled type |
| `EditorJSToolbar.KeyPartsOfJoined` | frontend/src/components/editor/EditorJSToolbar.tsx:163 | a type and a dash-free subtype joined by a dash split back into the two |
| `EditorJSToolbar.KeyPartsOfPlain` | frontend/src/components/editor/EditorJSToolbar.tsx:163 | a key without a dash has no subtype |
| `EditorJSToolbar.HeaderKeyLevel` | frontend/src/components/editor/EditorJSToolbar.tsx:169-171 | `header-N` asks for a header of level N, for every N written in decimal |
| `EditorJSToolbar.HeaderWithoutLevel` | frontend/src/components/editor/EditorJSToolbar.tsx:169-171 | a bare `header` key asks for level NaN |
| `EditorJSToolbar.ListKeyStyle` | frontend/src/components/editor/EditorJSToolbar.tsx:172-177 | `list-S` asks for an ordered list exactly when S is `ordered` |
| `EditorJSToolbar.PlainKeyInserts` | frontend/src/components/editor/EditorJSToolbar.tsx:165-196 | a dash-free key naming a handled type produces an insert |
| `UseEditorJSToolbar.PlusButtonDrawnIffBlock` | frontend/src/components/editor/EditorJSToolbar.tsx:221-228 | in every reachable state the plus button is drawn exactly when the hook tracks a current block |
| `UseEditorJSToolbar.PlusButtonBesideBlock` | frontend/src/components/editor/useEditorJSToolbar.ts:131-140 | after the mouse moves onto a new block and the show timer fires, that block is current and the plus button's style `left`/`top` are 40 px left of the block's page-coordinate left edge and its page-coordinate vertical middle |
| `UseEditorJSToolbar.InlineToolbarAboveSelection` | frontend/src/components/editor/useEditorJSToolbar.ts:143-159 | after a non-blank, non-collapsed selection with a measurable rectangle and the inline timer, the inline toolbar's style `left`/`top` are the selection's page-coordinate horizontal centre and its page-coordinate top minus 50, with the trimmed text; hiding it removes it |
| `EditorJSToolbar.DragHandle.constructor` | frontend/src/components/editor/EditorJSToolbar.tsx:43 | not dragging |
| `EditorJSToolbar.DragHandle.MouseDown` | frontend/src/components/editor/EditorJSToolbar.tsx:236 | pressing starts dragging |
| `EditorJSToolbar.DragHandle.MouseUp` | frontend/src/components/editor/EditorJSToolbar.tsx:237 | releasing stops dragging |
| `UseBlockIndicator.FirstShown` | frontend/src/components/editor/useBlockIndicator.ts:103-137 | the first type in priority order the block shows evidence for, and only when none does, none |
| `UseBlockIndicator.GetBlockTypeIsFirstShown` | frontend/src/components/editor/useBlockIndicator.ts:103-137 | the if-chain names the first type in priority order the block shows evidence for, and a paragraph when it shows none |
| `UseBlockIndicator.GetBlockTypeKnown` | frontend/src/components/editor/useBlockIndicator.ts:103-137 | the answer is always one of the seven known types, so the indicator never shows its fallback label |
| `UseBlockIndicator.HeaderFirstParagraphLast` | frontend/src/components/editor/useBlockIndicator.ts:105-136 | header evidence wins over every other; a block with no evidence is a paragraph |
| `UseBlockIndicator.IndicatorAnchor` | frontend/src/components/editor/useBlockIndicator.ts:159-168 | the anchor is the block's page left edge, halfway down |
| `UseBlockIndicator.ShowSameBlockOnlyMoves` | frontend/src/components/editor/useBlockIndicator.ts:44-55 | on the last hovered block a show cancels the hide and only moves the indicator |
| `UseBlockIndicator.ShowThenFire` | frontend/src/components/editor/useBlockIndicator.ts:57-68 | any other show, once its timer fires, draws that block with that type at that point |
| `UseBlockIndicator.HideThenFire` | frontend/src/components/editor/useBlockIndicator.ts:72-85 | a hide, when it fires, clears the block and keeps the last type |
| `UseBlockIndicator.ScrollOrKeyClears` | frontend/src/components/editor/useBlockIndicator.ts:211-220 | scroll and keydown cancel both timers and hide at once, whatever was shown |
| `UseBlockIndicator.MouseMoveClassifies` | frontend/src/components/editor/useBlockIndicator.ts:192-200 | the type scheduled for a new block is the classifier's answer for it |
| `UseBlockIndicator.StrayHideOutlivesShow` | frontend/src/components/editor/useBlockIndicator.ts:80-84 | two hides in a row leave the first timer uncancellable; a later show cannot stop it |
| `UseBlockIndicator.BlockIndicatorHook.constructor` | frontend/src/components/editor/useBlockIndicator.ts:31-41 | the first render: hidden at (0, 0), no block, type "paragraph", no timers |
| `UseBlockIndicator.BlockIndicatorHook.ShowIndicator` | frontend/src/components/editor/useBlockIndicator.ts:44-69 | the new state is `Show` of the old |
| `UseBlockIndicator.BlockIndicatorHook.HideIndicator` | frontend/src/components/editor/useBlockIndicator.ts:72-85 | the new state is `Hide` of the old |
| `UseBlockIndicator.BlockIndicatorHook.FireShowTimer` | frontend/src/components/editor/useBlockIndicator.ts:63-68 | the pending show draws its block with its type |
| `UseBlockIndicator.BlockIndicatorHook.FireHideTimer` | frontend/src/components/editor/useBlockIndicator.ts:80-84 | the tracked hide clears the indicator |
| `UseBlockIndicator.BlockIndicatorHook.FireStrayHideTimer` | frontend/src/components/editor/useBlockIndicator.ts:80-84 | a stray hide clears the indicator too |
| `UseBlockIndicator.BlockIndicatorHook.HideImmediately` | frontend/src/components/editor/useBlockIndicator.ts:88-100 | the new state is `HideNow` of the old |
| `UseBlockIndicator.BlockIndicatorHook.HandleMouseMove` | frontend/src/components/editor/useBlockIndicator.ts:179-205 | the new state is `MouseMove` of the old |
| `UseBlockIndicator.BlockIndicatorHook.HandleScrollOrKey` | frontend/src/components/editor/useBlockIndicator.ts:211-220 | the new state is `ScrollOrKey` of the old |
| `BlockIndicator.LabelDeterminesType` | frontend/src/components/editor/BlockIndicator.tsx:48-68 | every type's label reads back to that type: no two types share a label |
| `BlockIndicator.HeaderLabel` | frontend/src/components/editor/BlockIndicator.tsx:50-52 | a header's label is `H` followed by its `data-level`, or `H1` when that is missing or empty |
| `BlockIndicator.UnknownTypeLabel` | frontend/src/components/editor/BlockIndicator.tsx:65-66 | any type outside the seven known ones gets `¶` |
| `UseBlockIndicator.IndicatorDrawnIffBlock` | frontend/src/components/editor/BlockIndicator.tsx:129-138 | in every reachable state the indicator is drawn exactly when the hook tracks a current block |
| `UseBlockIndicator.IndicatorBesideBlock` | frontend/src/components/editor/useBlockIndicator.ts:159-168 | after the mouse moves onto a new block and the show timer fires, the indicator's style `left`/`top` are 50 px left of the block's page-coordinate left edge and its page-coordinate vertical middle, with that block and its detected type |
| `BlockIndicator.Indicator.constructor` | frontend/src/components/editor/BlockIndicator.tsx:45 | the indicator starts collapsed |
| `BlockIndicator.Indicator.Shown` | frontend/src/components/editor/BlockIndicator.tsx:142-158 | the toolbar stage exactly while expanded; the badge's caption reads back to the block's type |
| `BlockIndicator.Indicator.MouseEnter` | frontend/src/components/editor/BlockIndicator.tsx:139 | entering expands the indicator |
| `BlockIndicator.Indicator.MouseLeave` | frontend/src/components/editor/BlockIndicator.tsx:140 | leaving collapses it |

## Left out

- Rendering (JSX, styles, icons, tooltips, `message` toasts, `console` output) is not modelled. The model keeps only the values the markup is built from.
- DOM queries and measurement are inputs. This covers `closest`, `getBoundingClientRect`, the scroll offsets, `window.innerWidth`, the measured toolbar size and `window.getSelection`. Element identity is an `id` field, and `querySelector` is a set of descendant tags and classes.
- Timers are explicit `Fire…` steps. The delays themselves (500, 200, 300, 150 and 100 ms, and the 30 s interval) and the order in which real timers would fire are not modelled.
- Editor.js calls are outside the model: `blocks.insert`, `blocks.delete`, `caret.setToBlock`, `save`, `getCurrentBlockIndex` and the tools' own actions. So are the `onInsertBlock`, `onFormatText`, `onAction` and `onCommand` callbacks. Where a handler's effect depends on one of them, its result is a value.
- `DocumentToolbar`: only the plain-text export and the toolbar's own state are modelled. Left out:
  - the format, insert, colour and file commands that call the editor;
  - the JSON save download;
  - `window.print`;
  - the Blob and URL download steps.
- `DocumentShell.FormatLastSaved`: the older-than-a-day case returns `OnDate(saved)` rather than `toLocaleDateString` text, which depends on the host locale. `new Date()` is the `now` parameter, in milliseconds.
- `DocumentShell.EditorShell.BeginSave`: the `async` save is split into `BeginSave` and `FinishSave`. Interleavings of two saves in flight, and the `showMessage` toasts, are not modelled.
- The share button, the collaboration panel, `editorRef` and the "more" menus of the two editor shells are left out: they only show messages or call the editor.
- `SlashCommand`: the mousedown-outside listener that calls `onClose`, the autofocus of the search box and `insertBlock` (an Editor.js call) are left out. The command actions are opaque callbacks.
- `UseSlashCommand`: `getCursorPosition` and the caret-rectangle lookup are left out. They read the DOM selection, so the caret offset and its page position are inputs. That offset is taken as an index into the block's text, as the code uses it, even though the browser gives it relative to the selection's node.
- `BlockIndicator`: the quick-action and "more" action menus are left out. They only forward to `onAction`.
- `HoverToolbar`: the tool actions (`insertBlock`, `copyBlock`, `deleteBlock`, plugin actions) and the size measurement effect are left out.
- The preset plugin collections in `HoverToolbarPlugins.tsx` (alert, content, decorative, advanced, template) and `registerAllPlugins` are left out. They are constant data built on `createPlugin`, which is modelled.
- `JsString.ToLower` lowers ASCII letters only. `Trim` strips the ECMAScript WhiteSpace and LineTerminator code points; characters outside the Basic Multilingual Plane are single code points here.
- Strings are sequences of code points, while JavaScript strings are sequences of UTF-16 code units. Caret offsets, `lastIndexOf`, `substring`, `triggerPosition` and lengths therefore count code points; text holding characters outside the Basic Multilingual Plane would be indexed differently by the browser.
- DocumentShell.FirstChar: `charAt(0)` of a name starting with a character outside the Basic Multilingual Plane gives a lone surrogate in JavaScript; the model gives the whole character.
- UseSlashCommand.SlashCommandHook.HandleTextInput: calls the corrected `CheckForSlashCommand`, not the as-written check of useSlashCommand.ts:101; the as-written behaviour is `CheckForSlashCommandAsWritten`, with the discrepancy shown under "## Findings".
- UseHoverToolbar.HoverToolbarHook.ToolbarMouseEnter: the model assumes the toolbar's mouseenter and mouseleave listeners are attached. In the code they go on the `.hover-toolbar` elements found when the listener effect runs (useHoverToolbar.ts:274-278); the toolbar renders nothing while hidden and its root carries no such class, so they may never fire; `ToolbarMouseLeave` shares this assumption.
- HoverToolbarPlugins.PluginManager.GetByGroup: returns the group's list as a value; that the code hands out its internal array, so a caller could mutate the registry through it, is not modelled.
- `JsString.ParseInt` covers sign, leading white space, a `0x` prefix and decimal digits, over unbounded integers. Precision loss for very long digit strings is not modelled.
- The plus button, the inline toolbar, the block indicator and the hover toolbar are styled `position: fixed` (the `ao-fixed` class), yet their `left`/`top` are page coordinates, the rectangle plus the scroll offsets. On a scrolled page each is therefore drawn off its block or selection by the scroll offset. The model states the style values the code computes; where the browser then paints them is not modelled.
- Coordinates are `real`, not IEEE doubles, so rounding in `x - width / 2` and similar sums is not modelled.
- React's render batching is not modelled. Each handler's state updates land together, as one step.

## Findings

| source | as written | input that shows it | evidently intended | confidence | as-written member | corrected member |
|---|---|---|---|---|---|---|
| frontend/src/components/editor/useSlashCommand.ts:69 | `lastIndexOf('/', cursorPosition)` also finds a slash at the caret, that is, after it. The term then becomes the one character `text[cursor]`, and removal deletes the slash plus the next character. | text `/a` with the caret at 0 opens the menu with term `/`; for `x /ab` with the caret at 2, choosing a command leaves `x b` | the last slash strictly before the caret (`cursorPosition - 1`) | not executed | `UseSlashCommand.AsWrittenCaretBeforeSlash` | `UseSlashCommand.CheckForSlashCommand` |
| frontend/src/components/editor/HoverToolbar.tsx:276-292 | the "more" button appears when the format or insert group overflows its inline slice, but the menu lists only the custom tools | no plugins: the button shows, but checklist, quote, link and delete can never be clicked | the menu holds every tool cut from the inline rows | not executed | `HoverToolbar.AsWrittenOverflowUnreachable` | `HoverToolbar.EveryToolReachable` |
