/**
 * `NoteEditor` of src/display/editor/note.js: a note pinned to a page whose
 * text is typed in a comment prompt. The `AnnotationEditor` superclass
 * (editor.js) is not part of this model; the state of it that a note reads
 * or changes is kept as plain fields (`inEditMode` for `isInEditMode()`,
 * `deleted`, `removed` for what `super.remove()` does), and its
 * `enableEditMode`/`disableEditMode` are taken to switch `inEditMode`.
 */
module Note {
  import opened Wrappers
  import opened JsText

  const NoteEditorName := "noteEditor"

  /** What a note can change in its editor layer. */
  datatype LayerState = LayerState(editingState: Option<bool>, toolbarMode: Option<int>, noteEditingClass: bool)

  /** The editor layer a note sits in, reduced to the three things a note does to it. */
  class EditorLayer {
    /** The argument of the latest `setEditingState` call. */
    var editingState: Option<bool>
    /** The argument of the latest `updateToolbar` call. */
    var toolbarMode: Option<int>
    /** Whether the layer's div carries the `noteEditing` class. */
    var noteEditingClass: bool

    function State(): LayerState
      reads this
    {
      LayerState(editingState, toolbarMode, noteEditingClass)
    }

    constructor()
      ensures editingState == None && toolbarMode == None && !noteEditingClass
    {
      editingState := None;
      toolbarMode := None;
      noteEditingClass := false;
    }

    method SetEditingState(isEditing: bool)
      modifies this
      ensures State() == old(State()).(editingState := Some(isEditing))
    {
      editingState := Some(isEditing);
    }

    method UpdateToolbar(mode: int)
      modifies this
      ensures State() == old(State()).(toolbarMode := Some(mode))
    {
      toolbarMode := Some(mode);
    }

    /** `div.classList.add("noteEditing")`. */
    method AddNoteEditingClass()
      modifies this
      ensures State() == old(State()).(noteEditingClass := true)
    {
      noteEditingClass := true;
    }
  }

  /** The `params` a note is built from: its id, page and optional text. */
  datatype NoteParams = NoteParams(id: string, pageIndex: int, content: Option<string>)

  /** The `id` property of a serialized note: missing altogether, or present with a possibly empty value. */
  datatype IdField = NoIdField | IdField(value: Option<string>)

  /** What `serialize` returns when it returns an object. */
  datatype Serialized =
    | DeletedNote(pageIndex: int, id: Option<string>)
    | NoteData(annotationType: int, pageIndex: int, rotation: int, structTreeParentId: Option<string>, idProperty: IdField)

  /** The fields of a note that its methods change. */
  datatype NoteState = NoteState(
    content: Option<string>, draggable: bool, rotation: int, structTreeParentId: Option<string>,
    annotationElementId: Option<string>, deleted: bool, inEditMode: bool, isEditing: bool,
    removed: bool, editCompleteCalls: nat)

  class NoteEditor {
    const name: string
    const id: string
    const pageIndex: int
    /** `AnnotationEditorType.NOTE`, defined in src/shared/util.js, which is not part of this model. */
    const noteType: int
    /** Whether the UI manager defines `onEditorEditComplete`. */
    const hasEditCompleteCallback: bool
    const parent: EditorLayer?

    /** The note's text; `updateContent` may store an undefined value here. */
    var content: Option<string>
    var draggable: bool
    var rotation: int
    var structTreeParentId: Option<string>
    var annotationElementId: Option<string>
    var deleted: bool
    var inEditMode: bool
    var isEditing: bool
    var removed: bool
    /** How many times `onEditorEditComplete` was called with this note. */
    var editCompleteCalls: nat

    function State(): NoteState
      reads this
    {
      NoteState(content, draggable, rotation, structTreeParentId, annotationElementId,
                deleted, inEditMode, isEditing, removed, editCompleteCalls)
    }

    /**
     * The note takes the given text, or `""` when it is falsy, and is
     * draggable. `rotation` and `structTreeParentId` are what the superclass
     * constructor derives from the layer and the params.
     */
    constructor(params: NoteParams, noteType: int, hasEditCompleteCallback: bool, parent: EditorLayer?,
                rotation: int, structTreeParentId: Option<string>)
      ensures name == NoteEditorName && id == params.id && pageIndex == params.pageIndex
      ensures this.noteType == noteType && this.hasEditCompleteCallback == hasEditCompleteCallback
      ensures this.parent == parent
      ensures State() == NoteState(Some(if Truthy(params.content) then params.content.value else ""), true,
                                   rotation, structTreeParentId, None, false, false, false, false, 0)
    {
      name := NoteEditorName;
      id := params.id;
      pageIndex := params.pageIndex;
      this.noteType := noteType;
      this.hasEditCompleteCallback := hasEditCompleteCallback;
      this.parent := parent;
      content := if Truthy(params.content) then params.content else Some("");
      draggable := true;
      this.rotation := rotation;
      this.structTreeParentId := structTreeParentId;
      annotationElementId := None;
      deleted := false;
      inEditMode := false;
      isEditing := false;
      removed := false;
      editCompleteCalls := 0;
    }

    /**
     * `deserialize`: the superclass builds the note from `data` (modelled as
     * the constructor on the data's fields), then the note remembers the
     * id of the annotation it came from, or `null` when that id is falsy.
     */
    static method Deserialize(data: NoteParams, dataId: Option<string>, noteType: int,
                              hasEditCompleteCallback: bool, parent: EditorLayer?,
                              rotation: int, structTreeParentId: Option<string>)
      returns (editor: NoteEditor)
      ensures fresh(editor)
      ensures editor.name == NoteEditorName && editor.id == data.id && editor.pageIndex == data.pageIndex
      ensures editor.State() == NoteState(Some(if Truthy(data.content) then data.content.value else ""), true,
                                          rotation, structTreeParentId, if Truthy(dataId) then dataId else None,
                                          false, false, false, false, 0)
    {
      editor := new NoteEditor(data, noteType, hasEditCompleteCallback, parent, rotation, structTreeParentId);
      editor.annotationElementId := if Truthy(dataId) then dataId else None;
    }

    /** A note is never empty. */
    predicate IsEmpty()
      ensures !IsEmpty()
    {
      false
    }

    /** The mode is the note editor type. */
    function GetMode(): (mode: int)
      ensures mode == noteType
    {
      noteType
    }

    /** A note takes keyboard events exactly while it is in edit mode. */
    predicate ShouldGetKeyboardEvents()
      reads this
    {
      inEditMode
    }

    /**
     * The outcome of the prompt: a confirmed value becomes the content and is
     * reported to `onEditorEditComplete` once (when that callback exists); a
     * cancel on a note without content removes it; anything else is ignored.
     */
    method UpdateContent(inputType: Option<string>, value: Option<string>)
      modifies this, parent
      ensures inputType == Some("confirm") ==>
        State() == old(State()).(content := value,
                                 editCompleteCalls := old(editCompleteCalls) + if hasEditCompleteCallback then 1 else 0)
        && (parent != null ==> parent.State() == old(parent.State()))
      ensures inputType == Some("cancel") && !Truthy(old(content)) ==>
        State() == old(State()).(removed := true, isEditing := false)
        && (parent != null ==> parent.State() == old(parent.State()).(editingState := Some(true), noteEditingClass := true))
      ensures inputType != Some("confirm") && !(inputType == Some("cancel") && !Truthy(old(content))) ==>
        State() == old(State()) && (parent != null ==> parent.State() == old(parent.State()))
    {
      if inputType == Some("confirm") {
        content := value;
        if hasEditCompleteCallback {
          editCompleteCalls := editCompleteCalls + 1;
        }
      } else if inputType == Some("cancel") && !Truthy(content) {
        Remove();
      }
    }

    /** Editing stops, the layer goes back to editing state and gets the `noteEditing` class, and the note is removed. */
    method Remove()
      modifies this, parent
      ensures State() == old(State()).(removed := true, isEditing := false)
      ensures parent != null ==>
        parent.State() == old(parent.State()).(editingState := Some(true), noteEditingClass := true)
    {
      isEditing := false;
      if parent != null {
        parent.SetEditingState(true);
        parent.AddNoteEditingClass();
      }
      removed := true;
    }

    /** Entering edit mode switches the layer out of editing state and its toolbar to notes; a note already in edit mode is left alone. */
    method EnableEditMode()
      modifies this, parent
      ensures ShouldGetKeyboardEvents()
      ensures old(inEditMode) ==> State() == old(State()) && (parent != null ==> parent.State() == old(parent.State()))
      ensures !old(inEditMode) ==>
        State() == old(State()).(inEditMode := true)
        && (parent != null ==>
              parent.State() == old(parent.State()).(editingState := Some(false), toolbarMode := Some(noteType)))
    {
      if inEditMode {
        return;
      }
      if parent != null {
        parent.SetEditingState(false);
        parent.UpdateToolbar(noteType);
      }
      inEditMode := true;
    }

    /** Leaving edit mode puts the layer back in editing state and stops editing; a note not in edit mode is left alone. */
    method DisableEditMode()
      modifies this, parent
      ensures !ShouldGetKeyboardEvents()
      ensures !old(inEditMode) ==> State() == old(State()) && (parent != null ==> parent.State() == old(parent.State()))
      ensures old(inEditMode) ==>
        State() == old(State()).(inEditMode := false, isEditing := false)
        && (parent != null ==>
              parent.State() == old(parent.State()).(editingState := Some(true), noteEditingClass := true))
    {
      if !inEditMode {
        return;
      }
      if parent != null {
        parent.SetEditingState(true);
      }
      inEditMode := false;
      isEditing := false;
      if parent != null {
        parent.AddNoteEditingClass();
      }
    }

    /** Committing a note in edit mode leaves edit mode; outside edit mode nothing happens. */
    method Commit()
      modifies this, parent
      ensures !ShouldGetKeyboardEvents()
      ensures !old(inEditMode) ==> State() == old(State()) && (parent != null ==> parent.State() == old(parent.State()))
      ensures old(inEditMode) ==>
        State() == old(State()).(inEditMode := false, isEditing := false)
        && (parent != null ==>
              parent.State() == old(parent.State()).(editingState := Some(true), noteEditingClass := true))
    {
      if !inEditMode {
        return;
      }
      DisableEditMode();
    }

    /** Entering edit mode from outside: the same as `enableEditMode`. */
    method EnterInEditMode()
      modifies this, parent
      ensures ShouldGetKeyboardEvents()
      ensures old(inEditMode) ==> State() == old(State()) && (parent != null ==> parent.State() == old(parent.State()))
      ensures !old(inEditMode) ==>
        State() == old(State()).(inEditMode := true)
        && (parent != null ==>
              parent.State() == old(parent.State()).(editingState := Some(false), toolbarMode := Some(noteType)))
    {
      EnableEditMode();
    }

    /**
     * `serialize`: a deleted note is written as its page and the id of the
     * annotation it came from; a copy carries no `id` at all; otherwise a note
     * that came from an existing annotation (truthy `annotationElementId`) is
     * not written, and any other note carries its falsy id. A note is never
     * skipped for being empty.
     */
    function Serialize(isForCopying: bool): (r: Option<Serialized>)
      reads this
      ensures r.None? <==> !deleted && !isForCopying && Truthy(annotationElementId)
      ensures deleted ==> r == Some(DeletedNote(pageIndex, annotationElementId))
      ensures r.Some? && r.value.NoteData? ==>
        r.value.annotationType == GetMode() && r.value.pageIndex == pageIndex
        && r.value.rotation == rotation && r.value.structTreeParentId == structTreeParentId
      ensures r.Some? && r.value.NoteData? ==> (r.value.idProperty.NoIdField? <==> isForCopying)
      ensures r.Some? && r.value.NoteData? && !isForCopying ==> r.value.idProperty == IdField(annotationElementId)
      ensures r.Some? && r.value.NoteData? && r.value.idProperty.IdField? ==> !Truthy(r.value.idProperty.value)
    {
      if IsEmpty() then None
      else if deleted then Some(DeletedNote(pageIndex, annotationElementId))
      else
        var serialized := NoteData(noteType, pageIndex, rotation, structTreeParentId, NoIdField);
        if isForCopying then Some(serialized)
        else if Truthy(annotationElementId) then None
        else Some(serialized.(idProperty := IdField(annotationElementId)))
    }
  }

  /**
   * A note loaded from an existing annotation, so with a truthy id, is never
   * written back unless it was deleted or is being copied: the save path
   * drops it.
   */
  lemma LoadedNoteNotSaved(note: NoteEditor, dataId: Option<string>)
    requires Truthy(dataId) && note.annotationElementId == dataId && !note.deleted
    ensures note.Serialize(false) == None
    ensures note.Serialize(true).Some?
  {
  }
}
