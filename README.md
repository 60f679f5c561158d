# Annotation bookkeeping of a pdf.js fork, in Dafny

This project models the annotation bookkeeping that this pdf.js fork adds on top of the editor layer, and proves properties of that model.

- **Annotation record store** (`src/display/editor/annotation_editor_manager.js`), in the modules `Records`, `OrderedMaps`, `VirtualIds` and `EditorManager`:
  - `EditorParamsConverter` flattens a highlight editor into a params record.
  - `AnnotationEditorManager` keeps those records in a `Map` in insertion order. It bulk-loads them at the start of a session, derives the next editor id from them, updates them from the add, edit and delete callbacks, and writes them back to storage.
  - `EditorDisplayController` picks which stored records the page layers should show.
  - Virtual ids are `"virtualId-"` followed by eight random hex groups.
- **Note editor** (`src/display/editor/note.js`), in the module `Note`:
  - edit-mode guards;
  - the confirm and cancel outcomes of the comment prompt;
  - `serialize` and `deserialize`.
- **Comment prompt** (`web/textarea_prompt.js`), in the module `Prompt`. It is the state machine of the comment text area:
  - value, `preValue` and selection;
  - confirm, cancel, Enter and Alt+Enter.
- **Annotation sidebar** (`web/pdf_annotation_viewer.js`), in the module `AnnotationViewer`. It keeps cards grouped by page and applies the init, add, edit and delete events.

The JavaScript built-ins that this code relies on are written out in `JsText`:

- truthiness;
- `parseInt` without a radix: white space, sign, `0x` and leading digits;
- `String.prototype.replace` with a string pattern, which replaces the first occurrence only;
- `startsWith` and `substring`, with clamping and swapping;
- `Number.prototype.toString(radix)`.

A JavaScript `Map` is modelled in `OrderedMaps` as a sequence of entries:

- `set` on a present key keeps the key's position;
- `delete` closes the gap;
- a key that is deleted and then set again goes to the end.

State that the source keeps outside its own objects is represented as follows:

- **Storage.** It is the field `persisted`, the last array written. The array read back at startup is a parameter.
- **Random draws.** Each draw is an input in `[0x10000, 0x1FFFF]`.
- **`AnnotationEditorPrefix` and `AnnotationEditorType.NOTE`.** Both are defined in `src/shared/util.js`, which is not part of this model, so they are constructor parameters.
- **The UI manager.** It is reduced to `getEditor`, modelled as a set of ids, and `setId`.
- **The `AnnotationEditor` superclass.** It is reduced to the fields a note reads and writes.

Behaviour of the code as written that the model keeps:

- **Notes in the record store.**
  - The store's callbacks dereference the converted record without a null check.
  - A note editor is not a highlight, so the edit callback that a confirmed note fires ends in a TypeError.
  - The model returns `Completion.TypeError` there and leaves the state unchanged.
- **The id counter.**
  - The next editor id is one more than the largest of -1 and the numbers that `parseInt` reads from the stored ids once the prefix is removed.
  - A virtual id reads as NaN, and so leaves the counter where it was, whenever the prefix contains a character that no virtual id has. The editor prefix's underscore is such a character.
- **Sidebar page keys.**
  - The sidebar creates pages under the numbers 1..n but looks them up by the record's 0-based `pageIndex`.
  - As a result, records on the first page are never listed, and every other record is listed under the page before its own.
- **Sidebar card ids.**
  - Sidebar cards never get an `id`, so edit and delete only ever match a record that has no id.
  - Such a record then matches the first card of its page.
- **Serializing notes.**
  - `NoteEditor.serialize` never writes back a note that came from an existing annotation unless the note is deleted or being copied.
  - When it writes a note that is neither deleted nor being copied, the `id` it writes is always falsy. A deleted note writes its `annotationElementId`, which may be truthy.

## Model

| member | source | states |
|---|---|---|
| Records.ConvertToParams | src/display/editor/annotation_editor_manager.js:35-43 | a record exists exactly for editors named `highlightEditor`; it carries the editor's id and is not hidden |
| Records.ConvertedHighlight | src/display/editor/annotation_editor_manager.js:45-65 | a converted highlight has the editor's page, id, geometry, centering flag and name, and the text, mode, creation method and boxes its getters give |
| Records.ConverterReadsOnlyCopiedFields | src/display/editor/annotation_editor_manager.js:45-65 | two editors that agree on the copied fields convert to the same record |
| Records.FromCommon | src/display/editor/annotation_editor_manager.js:54-65 | the record has the editor's page, id, position, size and name, and its centering flag, absent when the editor has no initial options |
| Records.FromHighlight | src/display/editor/annotation_editor_manager.js:45-52 | the common fields plus the highlight's text, mode and creation method, and boxes equal to the editor's, or none; never hidden |
| Records.CloneBoxes | src/display/editor/annotation_editor_manager.js:67-81 | missing boxes give the empty list; otherwise the copy equals the input box for box |
| Records.CopyBoxes | src/display/editor/annotation_editor_manager.js:71-80 | same length, and box i has input box i's x, y, width and height |
| JsText.ToRadixValue | src/display/editor/annotation_editor_manager.js:16 | reading back the digits that `toString(radix)` writes gives the number |
| JsText.ParseIntOfDecimal | src/display/editor/annotation_editor_manager.js:201 | `parseInt` of a decimal numeral followed by a non-digit (and not `x`) is that number |
| JsText.ParseIntNoDigits | src/display/editor/annotation_editor_manager.js:201-204 | a string starting with something other than white space, a sign or a digit parses to NaN |
| JsText.ReplaceFirstOfPrefixed | src/display/editor/annotation_editor_manager.js:201 | removing a pattern that starts the string leaves exactly the rest |
| JsText.ReplaceFirstAbsent | src/display/editor/annotation_editor_manager.js:201 | a pattern with a character the string lacks removes nothing |
| JsText.Substring | web/textarea_prompt.js:141-142 | for bounds inside the string, `substring` is the slice between them |
| VirtualIds.HexGroup | src/display/editor/annotation_editor_manager.js:14-17 | a draw gives four lower-case hex digits whose value is the draw minus 0x10000 |
| VirtualIds.HexGroupInjective | src/display/editor/annotation_editor_manager.js:14-17 | different draws give different groups |
| VirtualIds.Uuid | src/display/editor/annotation_editor_manager.js:19-30 | n draws give 4n lower-case hex digits |
| VirtualIds.UuidInjective | src/display/editor/annotation_editor_manager.js:19-30 | the UUID determines the draws |
| VirtualIds.GetVirtualId | src/display/editor/annotation_editor_manager.js:217-219 | a minted id is `virtualId-` plus 32 lower-case hex digits, and `isVirtualId` accepts it |
| VirtualIds.IsVirtualId | src/display/editor/annotation_editor_manager.js:213-215 | whether the id starts with `virtualId-`; every minted id does, by GetVirtualId's contract |
| VirtualIds.VirtualIdInjective | src/display/editor/annotation_editor_manager.js:217-219 | different draws give different virtual ids |
| OrderedMaps.Set | src/display/editor/annotation_editor_manager.js:224 | `get` of the key gives the new value, other keys are unchanged, a present key keeps its place, a new key is appended, keys stay distinct |
| OrderedMaps.Delete | src/display/editor/annotation_editor_manager.js:238 | the key is gone, other keys keep their values and their order, size drops by one exactly when the key was present |
| OrderedMaps.ReinsertedKeyGoesLast | src/display/editor/annotation_editor_manager.js:221-240 | a key deleted and set again comes after all the others |
| OrderedMaps.ValuesFollowKeys | src/display/editor/annotation_editor_manager.js:242-248 | iterating the values visits, in insertion order, what `get` gives for each key |
| EditorManager.IdNumber | src/display/editor/annotation_editor_manager.js:201 | `parseInt` of the id with the first occurrence of the prefix removed; StableIdsBelowNextId and VirtualIdsDoNotMoveCounter state what it reads |
| EditorManager.Loaded | src/display/editor/annotation_editor_manager.js:195-200 | the map after the load loop; it keeps keys distinct, LoadedLookup gives its contents and LoadedKeyOrder its order |
| EditorManager.NewIds | src/display/editor/annotation_editor_manager.js:195-200 | the truthy ids the load adds: none empty, none already held, none twice |
| EditorManager.LoadedKeyOrder | src/display/editor/annotation_editor_manager.js:195-200 | after the load the keys are the old keys in order, then each new truthy id at its first appearance; a repeated id does not move |
| EditorManager.MaxIdNumber | src/display/editor/annotation_editor_manager.js:194-208 | the loop's `maxId`, never below -1; MaxIdNumberBounds gives the rest |
| EditorManager.MaxIdNumberBounds | src/display/editor/annotation_editor_manager.js:194-208 | `maxId` is at least -1, at least every number read from a truthy id, and -1 or one of those numbers |
| EditorManager.StableIdsBelowNextId | src/display/editor/annotation_editor_manager.js:199-209 | an id that is the prefix plus the decimal n makes the next id larger than n |
| EditorManager.VirtualIdsDoNotMoveCounter | src/display/editor/annotation_editor_manager.js:201-204 | when the prefix has a character no virtual id contains, a virtual id reads as NaN and leaves `maxId` unchanged |
| EditorManager.LoadedLookup | src/display/editor/annotation_editor_manager.js:195-200 | after the load a key holds the last record carrying it as a truthy id, otherwise what it held before |
| EditorManager.LoadedKeepsOrder | src/display/editor/annotation_editor_manager.js:195-200 | the load never reorders the keys already present |
| EditorManager.ReloadRestoresStore | src/display/editor/annotation_editor_manager.js:242-248 | loading what the store wrote into an empty map rebuilds the same map in the same order, when every id is non-empty |
| EditorManager.PersistedStoreReloads | src/display/editor/annotation_editor_manager.js:189-200 | for a manager whose invariant holds, loading what it last wrote into an empty map rebuilds its map in order, when no key is empty |
| EditorManager.PassesFilter | src/display/editor/annotation_editor_manager.js:108-111 | a record passes when the layer index is missing or 0, or equals its page index, and it is not hidden |
| EditorManager.Shows | src/display/editor/annotation_editor_manager.js:103-133 | the ids a sweep hands to `doShow`, in order; ShowsMembers says which |
| EditorManager.ShowsMembers | src/display/editor/annotation_editor_manager.js:103-133 | an id reaches `doShow` iff an entry under it passes the page and `hidden` filter, the UI manager has no editor for it and the store has it |
| EditorManager.InitialSweepShowsVisibleRecords | src/display/editor/annotation_editor_manager.js:210 | the startup sweep shows exactly the stored, non-hidden records without an editor |
| EditorManager.NoteEditorsAreRejected | src/display/editor/annotation_editor_manager.js:228-233 | a note editor has no record, so its edit callback throws |
| EditorManager.EditorDisplayController.IsInUIManager | src/display/editor/annotation_editor_manager.js:94-96 | whether the UI manager has an editor under the id |
| EditorManager.EditorDisplayController.IsInParamMap | src/display/editor/annotation_editor_manager.js:98-101 | whether the store holds a record under the id |
| EditorManager.EditorDisplayController.RenderPreparedLayerAnnotations | src/display/editor/annotation_editor_manager.js:103-121 | the shown ids grow by exactly the sweep's selection, in map order |
| EditorManager.EditorDisplayController.Show | src/display/editor/annotation_editor_manager.js:123-133 | `doShow` is reached only for an id the UI manager lacks and the store has |
| EditorManager.EditorDisplayController.DoShow | src/display/editor/annotation_editor_manager.js:135 | the id is recorded as shown |
| EditorManager.AnnotationEditorManager.constructor | src/display/editor/annotation_editor_manager.js:150-159 | the store starts empty and nothing has been written |
| EditorManager.AnnotationEditorManager.OnAnnotationEditorUiManager | src/display/editor/annotation_editor_manager.js:176-187 | a fresh display controller is linked to this store and UI manager, and the stored array is loaded as by `initEditorParameters` |
| EditorManager.AnnotationEditorManager.InitEditorParameters | src/display/editor/annotation_editor_manager.js:189-211 | nothing happens for a missing or empty array; otherwise the map is the load of the array, `setId` gets `maxId + 1` and the sweep shows the loaded records |
| EditorManager.AnnotationEditorManager.OnEditorAddComplete | src/display/editor/annotation_editor_manager.js:221-226 | TypeError exactly for an unconvertible editor, with nothing changed; otherwise the id maps to the new record, others are unchanged, the key order is kept or extended, and the values are written |
| EditorManager.AnnotationEditorManager.OnEditorEditComplete | src/display/editor/annotation_editor_manager.js:228-233 | the same whole-record replacement as add; nothing is merged |
| EditorManager.AnnotationEditorManager.OnEditorDeleteComplete | src/display/editor/annotation_editor_manager.js:235-240 | TypeError exactly for an unconvertible editor; otherwise the id is gone, the others keep values and order, and the values are written |
| EditorManager.AnnotationEditorManager.UpdateStore | src/display/editor/annotation_editor_manager.js:242-248 | storage receives the map's values in insertion order |
| Note.NoteEditor.constructor | src/display/editor/note.js:90-94 | the name is `noteEditor`, the content is the given one or `""` when falsy, the note is draggable, and it is not deleted, removed, editing or in edit mode |
| Note.NoteEditor.GetMode | src/display/editor/note.js:101-103 | the mode is the note editor type |
| Note.NoteEditor.EnableEditMode | src/display/editor/note.js:132-140 | nothing changes in edit mode; otherwise the note enters edit mode and nothing else of it changes, the layer leaves editing state and its toolbar switches to notes; the note then takes keyboard events |
| Note.NoteEditor.DisableEditMode | src/display/editor/note.js:143-154 | nothing changes outside edit mode; otherwise edit mode and editing stop, nothing else of the note changes, and the layer returns to editing state with the `noteEditing` class and its toolbar kept |
| Note.NoteEditor.IsEmpty | src/display/editor/note.js:192-194 | a note is never empty |
| Note.NoteEditor.Remove | src/display/editor/note.js:197-204 | editing stops and the note is removed, nothing else of it changes, and the layer returns to editing state with the `noteEditing` class |
| Note.NoteEditor.Commit | src/display/editor/note.js:210-216 | nothing changes outside edit mode; otherwise the note and its layer change exactly as by DisableEditMode |
| Note.NoteEditor.ShouldGetKeyboardEvents | src/display/editor/note.js:246-248 | whether the note is in edit mode; EnableEditMode and DisableEditMode turn it on and off |
| Note.NoteEditor.EnterInEditMode | src/display/editor/note.js:251-254 | the note and its layer change exactly as by EnableEditMode, so the note ends taking keyboard events |
| Note.NoteEditor.UpdateContent | src/display/editor/note.js:288-297 | a confirm stores the value and reports once when the callback exists, leaving the layer alone; a cancel removes a note without content as Remove does; anything else changes neither note nor layer |
| Note.NoteEditor.Deserialize | src/display/editor/note.js:305-310 | a fresh note as the constructor builds it from the data, which keeps the data's id as `annotationElementId`, or `null` when it is falsy |
| Note.NoteEditor.Serialize | src/display/editor/note.js:313-346 | null exactly for a live, non-copied note with a truthy annotation id; a deleted note gives its page and id; a copy has no `id`; otherwise `id` is present, is the note's `annotationElementId`, and is falsy |
| Note.LoadedNoteNotSaved | src/display/editor/note.js:339-341 | a live note loaded from an annotation is not written on save, but is on copy |
| Prompt.AltEnterText | web/textarea_prompt.js:138-146 | for a selection inside the text, the selection is replaced by one line break, and the length is the old length minus the selection plus one |
| Prompt.TextareaPrompt.constructor | web/textarea_prompt.js:14-41 | undefined options take the defaults 1000, `限1000字`, `评论`, `取消` and no-op callbacks; the text area and `preValue` hold the given value |
| Prompt.TextareaPrompt.Destroy | web/textarea_prompt.js:93-111 | a second call throws a TypeError and changes nothing; otherwise the prompt stops listening and its container leaves the parent; the value, selection, `preValue` and callback log stay |
| Prompt.TextareaPrompt.OnFocus | web/textarea_prompt.js:113-116 | `onFocus` is called once when it exists; nothing else changes |
| Prompt.TextareaPrompt.OnBlur | web/textarea_prompt.js:118-126 | focus moving to a prompt button is taken back without `onBlur`; any other blur calls `onBlur` when it exists; nothing else changes |
| Prompt.TextareaPrompt.OnChange | web/textarea_prompt.js:128-131 | `onChange` gets the current value when it exists; nothing else changes |
| Prompt.TextareaPrompt.SetValue | web/textarea_prompt.js:144 | the value is set; a changed value puts the cursor after it, an equal one keeps the selection; nothing else changes |
| Prompt.TextareaPrompt.SetSelectionStart | web/textarea_prompt.js:145 | the start is clamped to the value and the end follows it; nothing else changes |
| Prompt.TextareaPrompt.SetSelectionEnd | web/textarea_prompt.js:146 | the end is clamped to the value and the start follows it; nothing else changes |
| Prompt.TextareaPrompt.OnKeyDown | web/textarea_prompt.js:133-154 | Alt+Enter splices a line break at the selection with the cursor after it, or throws without a text; Enter cancels iff the text equals `preValue` and confirms otherwise; other keys do nothing; the container and the selection's validity are kept |
| Prompt.TextareaPrompt.OnConfirm | web/textarea_prompt.js:156-170 | an empty value only refocuses; otherwise `preValue` takes the value, the text area is cleared with the cursor at 0 and `onConfirm` gets the old value; the rest of the log stays |
| Prompt.TextareaPrompt.OnCancel | web/textarea_prompt.js:172-182 | always: `preValue` takes the value, the text area is cleared and `onCancel` gets the old value, even when empty; the rest of the log stays |
| AnnotationViewer.NumberedPages | web/pdf_annotation_viewer.js:46-64 | numbers 1..numPages hold an empty hidden page, other entries are kept, nothing else is added |
| AnnotationViewer.FindCard | web/pdf_annotation_viewer.js:110 | the index of the first card whose id equals the given one, or -1 |
| AnnotationViewer.AddCard | web/pdf_annotation_viewer.js:92-101 | with no page under the record's page index nothing changes; otherwise that page alone gains one card at the end and becomes visible |
| AnnotationViewer.EditCard | web/pdf_annotation_viewer.js:103-114 | no page is added or removed and only the record's page can change; there, the first card whose id matches the record's is replaced by the record's card, and nothing else changes |
| AnnotationViewer.DeleteCard | web/pdf_annotation_viewer.js:116-129 | only the record's page changes, losing at most its first matching card while the rest keep their order |
| AnnotationViewer.AddCards | web/pdf_annotation_viewer.js:84-90 | `addEditor` over the records in order; no page is added or removed, and AddCardsPerPage gives each page's cards |
| AnnotationViewer.PDFAnnotationViewer.constructor | web/pdf_annotation_viewer.js:21 | the viewer starts with no pages |
| AnnotationViewer.PDFAnnotationViewer.OnDocumentNumPages | web/pdf_annotation_viewer.js:46-64 | the pages become `NumberedPages` of the old pages |
| AnnotationViewer.PDFAnnotationViewer.OnAnnotationEditorManagerDataChange | web/pdf_annotation_viewer.js:66-82 | `init`, `add`, `edit` and `delete` apply their handler; any other type changes nothing |
| AnnotationViewer.PDFAnnotationViewer.HandleInitData | web/pdf_annotation_viewer.js:84-90 | an array adds its records in order; anything else changes nothing |
| AnnotationViewer.PDFAnnotationViewer.AddEditor | web/pdf_annotation_viewer.js:92-101 | the pages become `AddCard` of the old pages |
| AnnotationViewer.PDFAnnotationViewer.EditEditor | web/pdf_annotation_viewer.js:103-114 | the pages become `EditCard` of the old pages |
| AnnotationViewer.PDFAnnotationViewer.DeleteEditor | web/pdf_annotation_viewer.js:116-129 | the pages become `DeleteCard` of the old pages |
| AnnotationViewer.FreshPagesAreNumbered | web/pdf_annotation_viewer.js:48-62 | starting from no pages, the keys are exactly 1..numPages, all empty and hidden |
| AnnotationViewer.FirstPageRecordsDropped | web/pdf_annotation_viewer.js:93-97 | a record with page index 0 finds no page and is not listed |
| AnnotationViewer.RecordsListedUnderPreviousPage | web/pdf_annotation_viewer.js:93-101 | a record on the last page is listed under the previous page's number |
| AnnotationViewer.IdentifiedRecordsNeverMatch | web/pdf_annotation_viewer.js:103-129 | edit and delete change nothing for a record that has an id |
| AnnotationViewer.AnonymousRecordsMatchFirstCard | web/pdf_annotation_viewer.js:103-129 | a record without an id retitles or removes the first card of its page |
| AnnotationViewer.AddCardsPerPage | web/pdf_annotation_viewer.js:84-101 | after init a page holds its old cards and then one card per record on its page index, in order |

## Left out

- Persistence is not modelled.
  - This covers `getInitAnnotation`, `setAnnotationData`, the storage key taken from the URL, and `JSON.parse`/`JSON.stringify`.
  - Storage is the `persisted` field, and the array read at startup is a parameter. The JSON round trip is assumed to be the identity.
- `Math.random` and the `| 0` truncation of `getRandomForUUID` are not modelled. Each draw is an input in `[0x10000, 0x1FFFF]`.
- JsText.ParseInt: a numeral longer than a double's precision is read exactly, where JavaScript rounds it.
- JsText.ParseInt, JsText.Substring, Prompt.AltEnterText and the prompt's selection offsets: strings are sequences of code points, where JavaScript counts UTF-16 units, so surrogate pairs are not modelled.
- Records.Record: `null` and an absent `id` are both `None`. In the sidebar this makes a record with `id: null` match a card, whose `id` is `undefined`; in JavaScript `undefined === null` is false, so such a record matches no card there.
- EditorManager.AnnotationEditorManager.InitEditorParameters: it requires a UI manager. Without one the source throws after loading, and the only caller sets the UI manager first.
- The source installs the three callbacks on the UI manager (`src/display/editor/annotation_editor_manager.js:182-185`). The model calls the callbacks directly instead.
- These members are not modelled, because each only manages event-bus subscriptions and an `AbortController`:
  - `AnnotationEditorManager.destroy` and its constructor's subscription;
  - `PDFAnnotationViewer.destroy` and its constructor's subscription.
- `console.log` calls are not modelled.
- `getDataMap` is not a separate member. It is the `dataMap` field.
- Note.NoteEditor.Commit: `super.commit()` is not modelled. It lives in the `AnnotationEditor` superclass, which is not part of this model and which writes the annotation storage.
- Note.NoteEditor.Deserialize: `super.deserialize` is modelled as the constructor applied to the data's id, page and content.
- Note.NoteEditor.constructor: the superclass derives `rotation` from the layer's viewport and `_structTreeParentId` from the params. That code is not part of this model, so both are constructor parameters, and Deserialize takes them too.
- The superclass's other effects are not modelled. This includes what `enableEditMode`, `disableEditMode` and `remove` do beyond switching edit mode or marking the note removed.
- Note.NoteEditor.UpdateContent: the call to `onEditorEditComplete` is counted, not carried out. When the callback is the record store's, it throws, as shown by EditorManager.NoteEditorsAreRejected.
- These note members are not modelled, because they are DOM and UI code:
  - `render`, `focusin`, `onceAdded`, `rebuild` and `click`;
  - the keyboard shortcut table;
  - `_translateEmpty`, `contentDiv` and `initialize`.
- Prompt.TextareaPrompt.constructor: `init` is not modelled beyond the value and selection it gives the text area and its one `input.focus()`. The DOM it builds is left out.
- Prompt.TextareaPrompt.constructor, Prompt.TextareaPrompt.OnBlur, Prompt.TextareaPrompt.OnConfirm: each `input.focus()` is counted in the log, but the focus event it may fire, and the `onFocus` call that would follow, are not logged.
- The text area's `maxlength` is set as a plain property, not the `maxLength` attribute. The browser enforces no limit, so the model has none.
- Prompt.TextareaPrompt.OnKeyDown: the key event's `value` is a parameter. A browser key event has no such property, and `None` models that case.
- Prompt.TextareaPrompt.OnKeyDown: `stopPropagation` is not modelled.
- `PDFAnnotationComment` is not modelled: its DOM, its `destroy` and the rendering of a title are left out.
  - A card is the record it was built from. `updateTitle` replaces that record.
- The `innerHTML` reset of the comment container is not modelled. The `#pages` map is not cleared, and the model keeps old entries, as the source does.
- A data-change event whose `data` is `null` or `undefined` is not modelled. It throws when its `pageIndex` is read.
- `web/pdf_annotation_comment.js`, `timestampToYMDHMS` and comment threads are not part of this model.
