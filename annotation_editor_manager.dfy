/**
 * The annotation record store of src/display/editor/annotation_editor_manager.js:
 * `AnnotationEditorManager` owns `#dataMap`, a `Map` from editor id to params
 * record kept in insertion order, bulk-loads it from storage, updates it from
 * the editor lifecycle callbacks and writes its values back to storage;
 * `EditorDisplayController` decides which stored records to hand to the page
 * layers. Storage is abstract: `persisted` is the last array handed to
 * `setAnnotationData`, and the loaded array is a parameter.
 */
module EditorManager {
  import opened Wrappers
  import opened JsText
  import opened OrderedMaps
  import opened Records
  import VirtualIds
  import Note

  type DataMap = seq<Entry<Record>>

  /** Every stored record carries the id it is stored under. */
  ghost predicate KeysMatchIds(m: DataMap) {
    forall k :: Get(m, k).Some? ==> Get(m, k).value.Id() == Some(k)
  }

  /** The number `initEditorParameters` reads from an id: `parseInt(id.replace(prefix, ""))`. */
  function IdNumber(id: string, prefix: string): Option<int> {
    ParseInt(ReplaceFirst(id, prefix))
  }

  /** The map after the load loop has run over `records`: each record with a truthy id is `set` under it. */
  function Loaded(m: DataMap, records: seq<Record>): (r: DataMap)
    ensures DistinctKeys(m) ==> DistinctKeys(r)
  {
    if records == [] then m
    else
      var last := records[|records| - 1];
      var before := Loaded(m, records[..|records| - 1]);
      if Truthy(last.Id()) then Set(before, last.Id().value, last) else before
  }

  /** The loop's `maxId` after `records`: -1, raised to every larger number read from a truthy id. */
  function MaxIdNumber(records: seq<Record>, prefix: string): (r: int)
    ensures r >= -1
  {
    if records == [] then -1
    else
      var last := records[|records| - 1];
      var before := MaxIdNumber(records[..|records| - 1], prefix);
      if Truthy(last.Id()) && IdNumber(last.Id().value, prefix).Some?
         && IdNumber(last.Id().value, prefix).value > before
      then IdNumber(last.Id().value, prefix).value
      else before
  }

  /** Whether a record counts towards the id counter with the number `n`. */
  predicate HasIdNumber(r: Record, prefix: string, n: int) {
    Truthy(r.Id()) && IdNumber(r.Id().value, prefix) == Some(n)
  }

  /** The last record of `records` whose (truthy) id is `k`. */
  function LastWithId(records: seq<Record>, k: string): Option<Record> {
    if records == [] then None
    else if k != "" && records[|records| - 1].Id() == Some(k) then Some(records[|records| - 1])
    else LastWithId(records[..|records| - 1], k)
  }

  /** The filter of `renderPreparedLayerAnnotations`: `(!layerIndex || pageIndex === layerIndex) && hidden !== true`. */
  predicate PassesFilter(r: Record, layerIndex: Option<int>) {
    (layerIndex.None? || layerIndex.value == 0 || r.PageIndex() == layerIndex.value)
    && r.hidden != Some(true)
  }

  /**
   * The ids that reach `doShow` when `entries` are swept in order: those that
   * pass the filter, that the UI manager does not hold (`held`) and that the
   * store still has (`live`).
   */
  function Shows(entries: DataMap, layerIndex: Option<int>, held: set<string>, live: DataMap): seq<string> {
    if entries == [] then []
    else
      var e := entries[|entries| - 1];
      Shows(entries[..|entries| - 1], layerIndex, held, live)
      + (if PassesFilter(e.value, layerIndex) && e.key !in held && Has(live, e.key) then [e.key] else [])
  }

  /** The positional form of `KeysMatchIds`: entry `i` holds a record whose id is its key. */
  predicate IdsAtKeys(m: DataMap) {
    forall i :: 0 <= i < |m| ==> m[i].value.Id() == Some(m[i].key)
  }

  lemma KeysMatchIdsAt(m: DataMap)
    requires DistinctKeys(m) && KeysMatchIds(m)
    ensures IdsAtKeys(m)
  {
    forall i | 0 <= i < |m| ensures m[i].value.Id() == Some(m[i].key) {
      assert KeyIndex(m, m[i].key) == i;
      assert Get(m, m[i].key) == Some(m[i].value);
    }
  }

  /**
   * The counter handed to `setId` is above every number read from a loaded id,
   * and it is 0 or one more than such a number.
   */
  lemma {:induction false} MaxIdNumberBounds(records: seq<Record>, prefix: string)
    ensures MaxIdNumber(records, prefix) >= -1
    ensures forall i, n :: 0 <= i < |records| && HasIdNumber(records[i], prefix, n) ==> n <= MaxIdNumber(records, prefix)
    ensures MaxIdNumber(records, prefix) == -1
      || exists i :: 0 <= i < |records| && HasIdNumber(records[i], prefix, MaxIdNumber(records, prefix))
  {
    if records != [] {
      var init := records[..|records| - 1];
      MaxIdNumberBounds(init, prefix);
      forall i, n | 0 <= i < |records| && HasIdNumber(records[i], prefix, n)
        ensures n <= MaxIdNumber(records, prefix)
      {
        if i < |records| - 1 {
          assert records[i] == init[i];
        }
      }
      var m := MaxIdNumber(records, prefix);
      if m != -1 && m != MaxIdNumber(init, prefix) {
        assert HasIdNumber(records[|records| - 1], prefix, m);
      } else if m != -1 {
        var i :| 0 <= i < |init| && HasIdNumber(init[i], prefix, m);
        assert records[i] == init[i];
      }
    }
  }

  /**
   * An id the editor layer minted from the counter, the prefix followed by
   * the decimal `n`, is read back as `n`: loading it makes the next id larger,
   * so the layer never mints an id that is already stored.
   */
  lemma StableIdsBelowNextId(records: seq<Record>, prefix: string, i: int, n: nat)
    requires 0 <= i < |records| && records[i].Id() == Some(prefix + ToRadix(n, 10))
    ensures n < MaxIdNumber(records, prefix) + 1
  {
    var digits := ToRadix(n, 10);
    ReplaceFirstOfPrefixed(prefix, digits);
    ParseIntOfDecimal(n, []);
    assert digits + [] == digits;
    assert HasIdNumber(records[i], prefix, n);
    MaxIdNumberBounds(records, prefix);
  }

  /**
   * A virtual id reads as NaN once the prefix holds a character that no
   * virtual id contains (the editor prefix has an underscore), so loading a
   * record under a virtual id leaves the counter where it was.
   */
  lemma VirtualIdsDoNotMoveCounter(records: seq<Record>, r: Record, draws: seq<int>, prefix: string, c: char)
    requires |draws| == 8 && VirtualIds.AllDraws(draws)
    requires r.Id() == Some(VirtualIds.GetVirtualId(draws))
    requires c in prefix && c !in VirtualIds.VirtualIdPrefix && !IsRadixDigit(c, 16)
    ensures IdNumber(VirtualIds.GetVirtualId(draws), prefix) == None
    ensures MaxIdNumber(records + [r], prefix) == MaxIdNumber(records, prefix)
  {
    var id := VirtualIds.GetVirtualId(draws);
    forall i | 0 <= i < |id| ensures id[i] != c {
      if i < |VirtualIds.VirtualIdPrefix| {
        assert id[i] == VirtualIds.VirtualIdPrefix[i];
      }
    }
    ReplaceFirstAbsent(id, prefix, c);
    assert id[0] == 'v';
    ParseIntNoDigits(id);
    assert (records + [r])[..|records|] == records;
  }

  /**
   * After the load, a key holds the last record that carried it as a truthy
   * id, and any other key keeps what it held before.
   */
  lemma {:induction false} LoadedLookup(m: DataMap, records: seq<Record>, k: string)
    ensures Get(Loaded(m, records), k) == if LastWithId(records, k).Some? then LastWithId(records, k) else Get(m, k)
  {
    if records != [] {
      LoadedLookup(m, records[..|records| - 1], k);
    }
  }

  /** The load never reorders: the keys held before come first, in their order. */
  lemma {:induction false} LoadedKeepsOrder(m: DataMap, records: seq<Record>)
    ensures |Loaded(m, records)| >= |m|
    ensures Keys(Loaded(m, records))[..|m|] == Keys(m)
  {
    if records != [] {
      var before := Loaded(m, records[..|records| - 1]);
      LoadedKeepsOrder(m, records[..|records| - 1]);
      var last := records[|records| - 1];
      if Truthy(last.Id()) {
        var r := Set(before, last.Id().value, last);
        assert Keys(r)[..|before|] == Keys(before);
        assert Keys(r)[..|m|] == Keys(before)[..|m|];
      }
    }
  }

  /** The truthy ids of `records` that `m` does not hold, each once, in the order of their first appearance. */
  function NewIds(m: DataMap, records: seq<Record>): (ids: seq<string>)
    ensures forall i :: 0 <= i < |ids| ==> ids[i] != "" && ids[i] !in Keys(m)
    ensures forall i, j :: 0 <= i < j < |ids| ==> ids[i] != ids[j]
  {
    if records == [] then []
    else
      var before := NewIds(m, records[..|records| - 1]);
      var last := records[|records| - 1];
      if Truthy(last.Id()) && last.Id().value !in Keys(m) && last.Id().value !in before
      then before + [last.Id().value]
      else before
  }

  /** `has` is membership in the key sequence. */
  lemma HasIsKeyMember(m: DataMap, k: string)
    ensures Has(m, k) <==> k in Keys(m)
  {
    var i := KeyIndex(m, k);
    if i >= 0 {
      assert Keys(m)[i] == k;
    }
    if k in Keys(m) {
      var j :| 0 <= j < |m| && Keys(m)[j] == k;
      assert m[j].key == k;
      assert i >= 0;
    }
  }

  /**
   * The keys after the load: the old keys in their order, then each new
   * truthy id at its first appearance; a later record with the same id
   * replaces the value but does not move the key.
   */
  lemma {:induction false} LoadedKeyOrder(m: DataMap, records: seq<Record>)
    ensures Keys(Loaded(m, records)) == Keys(m) + NewIds(m, records)
  {
    if records != [] {
      var init := records[..|records| - 1];
      var last := records[|records| - 1];
      LoadedKeyOrder(m, init);
      var before := Loaded(m, init);
      if Truthy(last.Id()) {
        var k := last.Id().value;
        HasIsKeyMember(before, k);
        assert k in Keys(before) <==> k in Keys(m) || k in NewIds(m, init);
      }
    }
  }

  /**
   * What the store writes is what the next load rebuilds: loading the values
   * of a map whose ids are all truthy into an empty map gives the same map,
   * in the same order.
   */
  lemma {:induction false} ReloadRestoresStore(m: DataMap)
    requires DistinctKeys(m) && IdsAtKeys(m)
    requires forall i :: 0 <= i < |m| ==> m[i].key != ""
    ensures Loaded([], Values(m)) == m
  {
    if m != [] {
      var n := |m| - 1;
      var init := m[..n];
      assert Values(m)[..n] == Values(init);
      ReloadRestoresStore(init);
      assert m[n].key !in Keys(init);
      assert !Has(init, m[n].key);
      assert init + [Entry(m[n].key, m[n].value)] == m;
    }
  }

  /**
   * The manager's invariant is enough for the round trip: once the store has
   * been written, loading what storage holds into an empty map rebuilds the
   * map, in order, provided no record was kept under the empty id.
   */
  lemma PersistedStoreReloads(manager: AnnotationEditorManager)
    requires manager.Valid() && manager.persisted == Some(Values(manager.dataMap))
    requires forall i :: 0 <= i < |manager.dataMap| ==> manager.dataMap[i].key != ""
    ensures Loaded([], manager.persisted.value) == manager.dataMap
  {
    KeysMatchIdsAt(manager.dataMap);
    ReloadRestoresStore(manager.dataMap);
  }

  /** An id reaches `doShow` in a sweep exactly when some entry under it passes the filter, the UI manager does not hold it and the store has it. */
  lemma {:induction false} ShowsMembers(entries: DataMap, layerIndex: Option<int>, held: set<string>, live: DataMap, id: string)
    ensures id in Shows(entries, layerIndex, held, live) <==>
      (exists i :: 0 <= i < |entries| && entries[i].key == id && PassesFilter(entries[i].value, layerIndex))
      && id !in held && Has(live, id)
  {
    if entries != [] {
      var init := entries[..|entries| - 1];
      ShowsMembers(init, layerIndex, held, live, id);
      if exists i :: 0 <= i < |entries| && entries[i].key == id && PassesFilter(entries[i].value, layerIndex) {
        var i :| 0 <= i < |entries| && entries[i].key == id && PassesFilter(entries[i].value, layerIndex);
        if i < |init| {
          assert init[i] == entries[i];
        }
      }
      if exists i :: 0 <= i < |init| && init[i].key == id && PassesFilter(init[i].value, layerIndex) {
        var i :| 0 <= i < |init| && init[i].key == id && PassesFilter(init[i].value, layerIndex);
        assert entries[i] == init[i];
      }
    }
  }

  /**
   * The sweep at the start of a session shows exactly the stored records that
   * are not hidden and that the UI manager has no editor for.
   */
  lemma InitialSweepShowsVisibleRecords(m: DataMap, held: set<string>, id: string)
    requires DistinctKeys(m)
    ensures id in Shows(m, None, held, m) <==>
      Get(m, id).Some? && Get(m, id).value.hidden != Some(true) && id !in held
  {
    ShowsMembers(m, None, held, m, id);
    if Get(m, id).Some? {
      var i := KeyIndex(m, id);
      assert m[i].key == id;
    }
    if exists i :: 0 <= i < |m| && m[i].key == id && PassesFilter(m[i].value, None) {
      var i :| 0 <= i < |m| && m[i].key == id && PassesFilter(m[i].value, None);
      assert KeyIndex(m, id) == i;
    }
  }

  /**
   * A note is not a highlight: the converter gives it no record, so the edit
   * callback that a confirmed note fires (note.js:291-292) ends in a TypeError.
   */
  lemma NoteEditorsAreRejected(e: Editor)
    requires e.name == Note.NoteEditorName
    ensures ConvertToParams(e).None?
  {
  }

  /**
   * The collaborator `uiManager`: only what the store uses of it, `getEditor`
   * (as the set of ids it finds an editor for) and `setId`.
   */
  class UIManager {
    var editorIds: set<string>
    /** The argument of the latest `setId` call. */
    var nextId: Option<int>

    constructor(editorIds: set<string>)
      ensures this.editorIds == editorIds && nextId == None
    {
      this.editorIds := editorIds;
      nextId := None;
    }

    method SetId(id: int)
      modifies this
      ensures nextId == Some(id) && editorIds == old(editorIds)
    {
      nextId := Some(id);
    }
  }

  class EditorDisplayController {
    const ui: UIManager
    const manager: AnnotationEditorManager
    /** The ids handed to `doShow`, in order; `doShow` itself has an empty body. */
    var shown: seq<string>

    constructor(ui: UIManager, manager: AnnotationEditorManager)
      ensures this.ui == ui && this.manager == manager && shown == []
    {
      this.ui := ui;
      this.manager := manager;
      shown := [];
    }

    predicate IsInUIManager(id: string)
      reads ui
    {
      id in ui.editorIds
    }

    predicate IsInParamMap(id: string)
      reads manager
    {
      Has(manager.dataMap, id)
    }

    /** Sweeps `params` in order and calls `show` on every record that passes the filter. */
    method RenderPreparedLayerAnnotations(params: DataMap, layerIndex: Option<int>)
      modifies this
      ensures shown == old(shown) + Shows(params, layerIndex, ui.editorIds, manager.dataMap)
    {
      var i := 0;
      while i < |params|
        invariant 0 <= i <= |params|
        invariant shown == old(shown) + Shows(params[..i], layerIndex, ui.editorIds, manager.dataMap)
      {
        var e := params[i];
        if PassesFilter(e.value, layerIndex) {
          Show(e.key);
        }
        assert params[..i + 1][..i] == params[..i];
        i := i + 1;
      }
      assert params[..i] == params;
    }

    /** Reaches `doShow` only for an id the UI manager does not hold and the store has. */
    method Show(id: string)
      modifies this
      ensures shown == old(shown) + (if !IsInUIManager(id) && IsInParamMap(id) then [id] else [])
    {
      if IsInUIManager(id) {
        return;
      }
      if !IsInParamMap(id) {
        return;
      }
      DoShow(id);
    }

    method DoShow(id: string)
      modifies this
      ensures shown == old(shown) + [id]
    {
      shown := shown + [id];
    }
  }

  class AnnotationEditorManager {
    /** `AnnotationEditorPrefix`, defined in src/shared/util.js, which is not part of this model. */
    const prefix: string
    var dataMap: DataMap
    /** The last array written to storage by `updateStore`. */
    var persisted: Option<seq<Record>>
    var ui: UIManager?
    var display: EditorDisplayController?

    ghost predicate Valid()
      reads this
    {
      DistinctKeys(dataMap) && KeysMatchIds(dataMap)
      && (ui == null <==> display == null)
      && (display != null ==> display.manager == this && display.ui == ui)
    }

    constructor(prefix: string)
      ensures Valid() && this.prefix == prefix
      ensures dataMap == [] && persisted == None && ui == null
    {
      this.prefix := prefix;
      dataMap := [];
      persisted := None;
      ui := null;
      display := null;
    }

    /**
     * A new editing session: builds the display controller, takes the UI
     * manager and bulk-loads what storage held (`stored`).
     */
    method OnAnnotationEditorUiManager(uiManager: UIManager, stored: Option<seq<Record>>)
      requires Valid()
      modifies this, uiManager
      ensures Valid() && ui == uiManager && display != null && fresh(display)
      ensures persisted == old(persisted)
      ensures uiManager.editorIds == old(uiManager.editorIds)
      ensures stored.None? || stored.value == [] ==>
        dataMap == old(dataMap) && uiManager.nextId == old(uiManager.nextId) && display.shown == []
      ensures stored.Some? && stored.value != [] ==>
        dataMap == Loaded(old(dataMap), stored.value)
        && uiManager.nextId == Some(MaxIdNumber(stored.value, prefix) + 1)
        && display.shown == Shows(dataMap, None, uiManager.editorIds, dataMap)
    {
      display := new EditorDisplayController(uiManager, this);
      ui := uiManager;
      InitEditorParameters(stored);
    }

    /**
     * Bulk load: records without a truthy id are skipped, the others are `set`
     * in order; then `setId` gets one more than the largest number read from
     * an id, and every loaded record is offered to the display controller.
     * Nothing happens for `null` or an empty array.
     */
    method InitEditorParameters(params: Option<seq<Record>>)
      requires Valid() && ui != null
      modifies this, ui, display
      ensures Valid() && ui == old(ui) && display == old(display) && persisted == old(persisted)
      ensures ui.editorIds == old(ui.editorIds)
      ensures params.None? || params.value == [] ==>
        dataMap == old(dataMap) && ui.nextId == old(ui.nextId) && display.shown == old(display.shown)
      ensures params.Some? && params.value != [] ==>
        dataMap == Loaded(old(dataMap), params.value)
        && ui.nextId == Some(MaxIdNumber(params.value, prefix) + 1)
        && display.shown == old(display.shown) + Shows(dataMap, None, ui.editorIds, dataMap)
    {
      if params.None? || |params.value| == 0 {
        return;
      }
      var records := params.value;
      var maxId := -1;
      var i := 0;
      while i < |records|
        modifies this
        invariant 0 <= i <= |records|
        invariant dataMap == Loaded(old(dataMap), records[..i])
        invariant maxId == MaxIdNumber(records[..i], prefix)
        invariant Valid()
        invariant ui == old(ui) && display == old(display) && persisted == old(persisted)
      {
        var param := records[i];
        assert records[..i + 1][..i] == records[..i];
        if !Truthy(param.Id()) {
          i := i + 1;
          continue;
        }
        var editorId := param.Id().value;
        dataMap := Set(dataMap, editorId, param);
        var number := ParseInt(ReplaceFirst(editorId, prefix));
        if number.None? {
          i := i + 1;
          continue;
        }
        if number.value > maxId {
          maxId := number.value;
        }
        i := i + 1;
      }
      assert records[..i] == records;
      ui.SetId(maxId + 1);
      display.RenderPreparedLayerAnnotations(dataMap, None);
    }

    /**
     * The add callback: the converted record replaces whatever the map held
     * under the editor's id, then the store is written. An editor the
     * converter does not recognise ends in a TypeError before anything changes.
     */
    method OnEditorAddComplete(editor: Editor) returns (outcome: Completion)
      requires Valid()
      modifies this
      ensures Valid() && ui == old(ui) && display == old(display)
      ensures outcome == TypeError <==> ConvertToParams(editor).None?
      ensures outcome == TypeError ==> dataMap == old(dataMap) && persisted == old(persisted)
      ensures outcome == Normal ==>
        Get(dataMap, editor.id) == ConvertToParams(editor)
        && (forall k :: k != editor.id ==> Get(dataMap, k) == Get(old(dataMap), k))
        && (Has(old(dataMap), editor.id) ==> Keys(dataMap) == Keys(old(dataMap)))
        && (!Has(old(dataMap), editor.id) ==> Keys(dataMap) == Keys(old(dataMap)) + [editor.id])
        && persisted == Some(Values(dataMap))
    {
      var params := ConvertToParams(editor);
      if params.None? {
        return TypeError;
      }
      dataMap := Set(dataMap, params.value.Id().value, params.value);
      UpdateStore();
      return Normal;
    }

    /** The edit callback: the same whole-record replacement as the add callback; nothing is merged. */
    method OnEditorEditComplete(editor: Editor) returns (outcome: Completion)
      requires Valid()
      modifies this
      ensures Valid() && ui == old(ui) && display == old(display)
      ensures outcome == TypeError <==> ConvertToParams(editor).None?
      ensures outcome == TypeError ==> dataMap == old(dataMap) && persisted == old(persisted)
      ensures outcome == Normal ==>
        Get(dataMap, editor.id) == ConvertToParams(editor)
        && (forall k :: k != editor.id ==> Get(dataMap, k) == Get(old(dataMap), k))
        && (Has(old(dataMap), editor.id) ==> Keys(dataMap) == Keys(old(dataMap)))
        && (!Has(old(dataMap), editor.id) ==> Keys(dataMap) == Keys(old(dataMap)) + [editor.id])
        && persisted == Some(Values(dataMap))
    {
      var params := ConvertToParams(editor);
      if params.None? {
        return TypeError;
      }
      dataMap := Set(dataMap, params.value.Id().value, params.value);
      UpdateStore();
      return Normal;
    }

    /** The delete callback: the editor's id leaves the map, the others keep their order, and the store is written. */
    method OnEditorDeleteComplete(editor: Editor) returns (outcome: Completion)
      requires Valid()
      modifies this
      ensures Valid() && ui == old(ui) && display == old(display)
      ensures outcome == TypeError <==> ConvertToParams(editor).None?
      ensures outcome == TypeError ==> dataMap == old(dataMap) && persisted == old(persisted)
      ensures outcome == Normal ==>
        Get(dataMap, editor.id) == None
        && (forall k :: k != editor.id ==> Get(dataMap, k) == Get(old(dataMap), k))
        && Keys(dataMap) == Without(Keys(old(dataMap)), editor.id)
        && persisted == Some(Values(dataMap))
    {
      var params := ConvertToParams(editor);
      if params.None? {
        return TypeError;
      }
      dataMap := Delete(dataMap, params.value.Id().value);
      UpdateStore();
      return Normal;
    }

    /** Writes the map's values, in insertion order, to storage. */
    method UpdateStore()
      requires Valid()
      modifies this
      ensures Valid() && dataMap == old(dataMap) && ui == old(ui) && display == old(display)
      ensures persisted == Some(Values(dataMap))
    {
      var data := [];
      var i := 0;
      while i < |dataMap|
        invariant 0 <= i <= |dataMap|
        invariant data == Values(dataMap[..i])
      {
        data := data + [dataMap[i].value];
        i := i + 1;
      }
      assert dataMap[..i] == dataMap;
      persisted := Some(data);
    }
  }
}
