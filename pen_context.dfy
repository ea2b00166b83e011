/**
 * The pen settings of the drawing layer: a colour and a stroke width, read
 * once from `localStorage` when the provider mounts and written back after
 * every change. The stored values are taken over unchecked, so the state
 * holds JSON values.
 */
module PenContext {
  import opened Wrappers
  import opened JsonStore

  const StorageKey: string := "ovb-pen-settings"

  const DefaultColor: JsonValue := JStr("#002b5c")
  const DefaultWidth: JsonValue := JNum(4)

  /** How `JSON.stringify({ color, width })` writes the settings. */
  function Encode(color: JsonValue, width: JsonValue): JsonValue {
    JObj(map["color" := color, "width" := width])
  }

  /**
   * The stored value that replaces a setting when the provider loads: the
   * field of a stored object, and only when it is truthy. Anything else
   * (nothing stored, unreadable or unparseable storage, a stored `null`,
   * a missing, empty, zero or `false` field) keeps the setting as it was.
   */
  function Setting(item: StoredItem, name: string): (r: Option<JsonValue>)
    ensures r.Some? <==>
      item.Json? && item.value.JObj? && name in item.value.fields && Truthy(item.value.fields[name])
    ensures r.Some? ==> r.value == item.value.fields[name]
  {
    match item
    case Json(v) =>
      (match Field(v, name)
       case Ok(Some(x)) => if Truthy(x) then Some(x) else None
       case _ => None)
    case _ => None
  }

  /** Saved settings come back on the next load exactly when they are truthy; a falsy one falls back. */
  lemma SettingEncode(color: JsonValue, width: JsonValue)
    ensures Setting(Json(Encode(color, width)), "color") == (if Truthy(color) then Some(color) else None)
    ensures Setting(Json(Encode(color, width)), "width") == (if Truthy(width) then Some(width) else None)
  {
    var v := Encode(color, width);
    assert v.fields["color"] == color && v.fields["width"] == width;
  }

  /** A stored width of 0 and an empty stored colour are ignored. */
  lemma FalsyIgnored(fields: map<string, JsonValue>)
    requires "color" in fields && fields["color"] == JStr("")
    requires "width" in fields && fields["width"] == JNum(0)
    ensures Setting(Json(JObj(fields)), "color").None?
    ensures Setting(Json(JObj(fields)), "width").None?
  {
  }

  /** The value of the context. */
  datatype PenContextValue = PenContextValue(color: JsonValue, width: JsonValue)

  /** `usePen`: the provider's value, or the error thrown outside a provider. */
  function UsePen(ctx: Option<PenContextValue>): (r: Result<PenContextValue>)
    ensures r.Err? <==> ctx.None?
    ensures ctx.Some? ==> r == Ok(ctx.value)
    ensures r.Err? ==> r.message == "usePen must be used inside PenProvider"
  {
    match ctx
    case None => Err("usePen must be used inside PenProvider")
    case Some(c) => Ok(c)
  }

  /** A mounted `PenProvider` and the `localStorage` it reads and writes. */
  class PenProvider {
    var color: JsonValue
    var width: JsonValue
    var storage: Storage

    /** The saved item holds the current settings. */
    predicate Persisted()
      reads this
    {
      Get(storage, StorageKey) == Json(Encode(color, width))
    }

    /**
     * Mounting: the settings start at their defaults, the load effect
     * replaces each one by its truthy stored value, and the save effects
     * leave the resulting settings in storage.
     */
    constructor (storage: Storage)
      ensures color == Setting(Get(storage, StorageKey), "color").GetOr(DefaultColor)
      ensures width == Setting(Get(storage, StorageKey), "width").GetOr(DefaultWidth)
      ensures this.storage == storage[StorageKey := Json(Encode(color, width))]
      ensures Persisted()
    {
      color := DefaultColor;
      width := DefaultWidth;
      this.storage := storage;
      new;
      LoadStored();
      Save();
    }

    /** The load effect: each setting is replaced only by a truthy stored value. */
    method LoadStored()
      modifies this
      ensures color == Setting(old(Get(storage, StorageKey)), "color").GetOr(old(color))
      ensures width == Setting(old(Get(storage, StorageKey)), "width").GetOr(old(width))
      ensures storage == old(storage)
    {
      var item := Get(storage, StorageKey);
      if !item.Json? {
        return;
      }
      var parsed := item.value;
      var c := Field(parsed, "color");
      if c.Err? {
        return;
      }
      if c.value.Some? && Truthy(c.value.value) {
        color := c.value.value;
      }
      var w := Field(parsed, "width");
      if w.value.Some? && Truthy(w.value.value) {
        width := w.value.value;
      }
    }

    /** The save effect. */
    method Save()
      modifies this
      ensures color == old(color) && width == old(width)
      ensures storage == old(storage)[StorageKey := Json(Encode(color, width))]
      ensures Persisted()
    {
      storage := storage[StorageKey := Json(Encode(color, width))];
    }

    /** `setColor` followed by the save effect. */
    method SetColor(c: string)
      modifies this
      ensures color == JStr(c) && width == old(width)
      ensures storage == old(storage)[StorageKey := Json(Encode(color, width))]
    {
      color := JStr(c);
      Save();
    }

    /** `setWidth` followed by the save effect. */
    method SetWidth(w: int)
      modifies this
      ensures width == JNum(w) && color == old(color)
      ensures storage == old(storage)[StorageKey := Json(Encode(color, width))]
    {
      width := JNum(w);
      Save();
    }

    /** A provider mounted later on this storage starts with the same settings, as long as both are truthy. */
    method Reload() returns (loaded: PenContextValue)
      requires Persisted()
      requires Truthy(color) && Truthy(width)
      ensures loaded == PenContextValue(color, width)
    {
      var item := Get(storage, StorageKey);
      SettingEncode(color, width);
      loaded := PenContextValue(Setting(item, "color").GetOr(DefaultColor), Setting(item, "width").GetOr(DefaultWidth));
    }
  }
}
