/**
 * The global notes shared by every screen: a text and a drawing, loaded once
 * from `localStorage` when the provider mounts and written back after every
 * change.
 */
module NotesContext {
  import opened Wrappers
  import opened JsonStore

  /**
   * The notes. The drawing holds the stored paths as they were parsed: the
   * loader checks only that the stored drawing is an array, not what is in it.
   */
  datatype NotesData = NotesData(text: string, drawing: seq<JsonValue>)

  const StorageKey: string := "ovb-global-notes"

  /** The notes before anything was loaded or typed. */
  const Initial := NotesData("", [])

  /** How `JSON.stringify(notes)` writes the notes. */
  function Encode(n: NotesData): JsonValue {
    JObj(map["text" := JStr(n.text), "drawing" := JArr(n.drawing)])
  }

  /** A stroke `{ d }` of the drawing layer as it is stored. */
  function PathValue(d: string): JsonValue {
    JObj(map["d" := JStr(d)])
  }

  /**
   * The load effect: the notes after reading `item`, starting from `prev`.
   * Nothing stored, storage that cannot be read or parsed, and a stored
   * `null` (reading `.text` of it throws) all leave `prev` as it was.
   */
  function Load(item: StoredItem, prev: NotesData): (r: NotesData)
    ensures !item.Json? || item.value == JNull ==> r == prev
    ensures item.Json? && item.value.JObj? ==>
      r.text == (if "text" in item.value.fields && item.value.fields["text"].JStr?
                 then item.value.fields["text"].s else "")
    ensures item.Json? && item.value.JObj? ==>
      r.drawing == (if "drawing" in item.value.fields && item.value.fields["drawing"].JArr?
                    then item.value.fields["drawing"].items else [])
    ensures item.Json? && item.value != JNull && !item.value.JObj? ==> r == Initial
  {
    match item
    case Json(v) =>
      (match Field(v, "text")
       case Err(_) => prev
       case Ok(t) =>
         var d := Field(v, "drawing").value;
         NotesData(if t.Some? && t.value.JStr? then t.value.s else "",
                   if d.Some? && d.value.JArr? then d.value.items else []))
    case _ => prev
  }

  /** Whatever the provider writes, loading it restores the same text and drawing, whatever came before. */
  lemma LoadEncode(n: NotesData, prev: NotesData)
    ensures Load(Json(Encode(n)), prev) == n
  {
    var v := Encode(n);
    assert Field(v, "text") == Ok(Some(JStr(n.text)));
    assert Field(v, "drawing") == Ok(Some(JArr(n.drawing)));
  }

  /** A stored object whose fields have the wrong types loads as the empty notes. */
  lemma LoadWrongTypes(fields: map<string, JsonValue>, prev: NotesData)
    requires "text" in fields ==> !fields["text"].JStr?
    requires "drawing" in fields ==> !fields["drawing"].JArr?
    ensures Load(Json(JObj(fields)), prev) == Initial
  {
  }

  /** `updateText`: only the text changes. */
  function UpdateText(n: NotesData, text: string): (r: NotesData)
    ensures r.text == text && r.drawing == n.drawing
  {
    n.(text := text)
  }

  /** `updateDrawing`: only the drawing changes. */
  function UpdateDrawing(n: NotesData, drawing: seq<JsonValue>): (r: NotesData)
    ensures r.drawing == drawing && r.text == n.text
  {
    n.(drawing := drawing)
  }

  /** The two updates touch different fields, so their order does not matter. */
  lemma UpdatesCommute(n: NotesData, text: string, drawing: seq<JsonValue>)
    ensures UpdateText(UpdateDrawing(n, drawing), text) == UpdateDrawing(UpdateText(n, text), drawing)
    ensures UpdateText(UpdateDrawing(n, drawing), text) == NotesData(text, drawing)
  {
  }

  /** A drawing of strokes keeps its strokes through a save and a load. */
  lemma DrawingRoundTrip(text: string, strokes: seq<string>, prev: NotesData)
    ensures Load(Json(Encode(NotesData(text, seq(|strokes|, i requires 0 <= i < |strokes| => PathValue(strokes[i]))))), prev).drawing
         == seq(|strokes|, i requires 0 <= i < |strokes| => PathValue(strokes[i]))
  {
    LoadEncode(NotesData(text, seq(|strokes|, i requires 0 <= i < |strokes| => PathValue(strokes[i]))), prev);
  }

  /** The value of the context. */
  datatype NotesContextValue = NotesContextValue(notes: NotesData)

  /** `useNotes`: the provider's value, or the error thrown outside a provider. */
  function UseNotes(ctx: Option<NotesContextValue>): (r: Result<NotesContextValue>)
    ensures r.Err? <==> ctx.None?
    ensures ctx.Some? ==> r == Ok(ctx.value)
    ensures r.Err? ==> r.message == "useNotes must be used inside NotesProvider"
  {
    match ctx
    case None => Err("useNotes must be used inside NotesProvider")
    case Some(c) => Ok(c)
  }

  /** A mounted `NotesProvider` and the `localStorage` it reads and writes. */
  class NotesProvider {
    var notes: NotesData
    var storage: Storage

    /** The saved item holds the current notes. */
    predicate Persisted()
      reads this
    {
      Get(storage, StorageKey) == Json(Encode(notes))
    }

    /**
     * Mounting: the state starts as `Initial`; the load effect reads the item,
     * the save effect of the first render writes `Initial`, and when the load
     * changed the notes, the render that follows saves them again.
     */
    constructor (storage: Storage)
      ensures notes == Load(Get(storage, StorageKey), Initial)
      ensures this.storage == storage[StorageKey := Json(Encode(notes))]
      ensures Persisted()
    {
      notes := Initial;
      this.storage := storage;
      new;
      var item := Get(storage, StorageKey);
      var loaded := Load(item, Initial);
      this.storage := this.storage[StorageKey := Json(Encode(Initial))];
      if item.Json? && item.value != JNull {
        notes := loaded;
        this.storage := this.storage[StorageKey := Json(Encode(notes))];
      }
      LoadEncode(notes, Initial);
    }

    /** Saves the current notes under the storage key. */
    method Save()
      modifies this
      ensures notes == old(notes)
      ensures storage == old(storage)[StorageKey := Json(Encode(notes))]
      ensures Persisted()
    {
      storage := storage[StorageKey := Json(Encode(notes))];
    }

    /** `updateText` followed by the save effect. */
    method SetText(text: string)
      modifies this
      ensures notes == UpdateText(old(notes), text)
      ensures storage == old(storage)[StorageKey := Json(Encode(notes))]
      ensures Persisted()
    {
      notes := UpdateText(notes, text);
      Save();
    }

    /** `updateDrawing` followed by the save effect. */
    method SetDrawing(drawing: seq<JsonValue>)
      modifies this
      ensures notes == UpdateDrawing(old(notes), drawing)
      ensures storage == old(storage)[StorageKey := Json(Encode(notes))]
      ensures Persisted()
    {
      notes := UpdateDrawing(notes, drawing);
      Save();
    }

    /** What a provider mounted on this storage later would load. */
    method Reload() returns (loaded: NotesData)
      requires Persisted()
      ensures loaded == notes
    {
      loaded := Load(Get(storage, StorageKey), Initial);
      LoadEncode(notes, Initial);
    }
  }
}
