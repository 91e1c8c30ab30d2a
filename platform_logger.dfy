/**
 * The platform's structured logger: a fixed context merged into every entry, and metadata
 * whose sensitive keys are masked first. `new Date().toISOString()` is the parameter `ts`;
 * the entry is returned as the object `JSON.stringify` writes to `console.log`.
 */
module PlatformLog {
  import opened Wrappers
  import opened Text
  import JsValue

  const RedactList := ["password", "token", "apiKey", "secret", "authorization"]
  const Masked := JsValue.Str("[REDACTED]")

  /** `REDACT_FIELDS.some(field => key.toLowerCase().includes(field))`. */
  predicate Sensitive(key: string) {
    ContainsAny(ToLower(key), RedactList)
  }

  /** A value `typeof` calls an object, other than `null`. */
  predicate IsObject(v: JsValue.Value) {
    v.Obj? || v.Arr?
  }

  /** `redact`: each entry of the object in turn, assigned into a fresh result. */
  function Redact(fields: seq<JsValue.Field>): (r: seq<JsValue.Field>)
    decreases fields, 1
  {
    JsValue.Spread([], Masks(fields))
  }

  /** The entries `redact` assigns, one per entry of its argument. */
  function Masks(fields: seq<JsValue.Field>): (r: seq<JsValue.Field>)
    ensures |r| == |fields|
    ensures forall i :: 0 <= i < |r| ==> r[i].key == fields[i].key
    decreases fields, 0
  {
    if fields == [] then []
    else [JsValue.Field(fields[0].key, MaskEntry(fields[0].key, fields[0].val))] + Masks(fields[1..])
  }

  /** The value `redact` stores under `key`. */
  function MaskEntry(key: string, v: JsValue.Value): (r: JsValue.Value)
    ensures Sensitive(key) ==> r == Masked
    ensures !Sensitive(key) && !IsObject(v) ==> r == v
    ensures !Sensitive(key) && v.Obj? ==> r == JsValue.Obj(Redact(v.fields))
    decreases v, 2
  {
    if Sensitive(key) then Masked
    else match v
      case Obj(fs) => JsValue.Obj(Redact(fs))
      case Arr(items) => JsValue.Obj(RedactArray(items))
      case _ => v
  }

  /** `redact` of an array, whose entries are its items under the keys "0", "1", and so on. */
  function RedactArray(items: seq<JsValue.Value>): seq<JsValue.Field>
    decreases items, 1
  {
    JsValue.Spread([], ItemMasks(items, 0))
  }

  function ItemMasks(items: seq<JsValue.Value>, from: nat): (r: seq<JsValue.Field>)
    requires from <= |items|
    ensures |r| == |items| - from
    ensures forall i :: 0 <= i < |r| ==> r[i].key == IntToString(from + i)
    decreases items, 0, |items| - from
  {
    if from == |items| then []
    else [JsValue.Field(IntToString(from), MaskEntry(IntToString(from), items[from]))] + ItemMasks(items, from + 1)
  }

  /** The `i`-th entry `redact` assigns: the key, and the mask of its value. */
  lemma {:induction false} MasksAt(fields: seq<JsValue.Field>, i: nat)
    requires i < |fields|
    ensures Masks(fields)[i] == JsValue.Field(fields[i].key, MaskEntry(fields[i].key, fields[i].val))
    decreases i
  {
    if i > 0 {
      assert Masks(fields)[i] == Masks(fields[1..])[i - 1];
      MasksAt(fields[1..], i - 1);
    }
  }

  lemma {:induction false} ItemMasksAt(items: seq<JsValue.Value>, from: nat, i: nat)
    requires from + i < |items|
    ensures ItemMasks(items, from)[i] == JsValue.Field(IntToString(from + i), MaskEntry(IntToString(from + i), items[from + i]))
    decreases i
  {
    if i > 0 {
      assert ItemMasks(items, from)[i] == ItemMasks(items, from + 1)[i - 1];
      ItemMasksAt(items, from + 1, i - 1);
    }
  }

  /**
   * The `redact` loop over `Object.entries(obj)`: each entry is assigned into `result` in
   * turn, a sensitive key as "[REDACTED]", a nested object through a recursive `redact`.
   */
  method RedactLoop(obj: seq<JsValue.Field>) returns (result: seq<JsValue.Field>)
    ensures result == Redact(obj)
    decreases obj, 1
  {
    result := [];
    for i := 0 to |obj|
      invariant result == JsValue.Spread([], Masks(obj)[..i])
    {
      var value := MaskLoop(obj[i].key, obj[i].val);
      MasksAt(obj, i);
      JsValue.SpreadPrefixStep([], Masks(obj), i);
      result := JsValue.SetField(result, obj[i].key, value);
    }
    assert Masks(obj)[..|obj|] == Masks(obj);
  }

  /** The body of the loop for one entry. */
  method MaskLoop(key: string, value: JsValue.Value) returns (r: JsValue.Value)
    ensures r == MaskEntry(key, value)
    decreases value, 2
  {
    if Sensitive(key) {
      return Masked;
    }
    match value
    case Obj(fs) =>
      var inner := RedactLoop(fs);
      r := JsValue.Obj(inner);
    case Arr(items) =>
      var inner := RedactItemsLoop(items);
      r := JsValue.Obj(inner);
    case _ =>
      r := value;
  }

  /** `redact` of an array: `Object.entries` gives its items under the keys "0", "1", and so on. */
  method RedactItemsLoop(items: seq<JsValue.Value>) returns (result: seq<JsValue.Field>)
    ensures result == RedactArray(items)
    decreases items, 1
  {
    result := [];
    for i := 0 to |items|
      invariant result == JsValue.Spread([], ItemMasks(items, 0)[..i])
    {
      var key := IntToString(i);
      var value := MaskLoop(key, items[i]);
      ItemStep(items, i, value);
      result := JsValue.SetField(result, key, value);
    }
    assert ItemMasks(items, 0)[..|items|] == ItemMasks(items, 0);
  }

  /** One more item assigned is one more item spread. */
  lemma ItemStep(items: seq<JsValue.Value>, i: nat, value: JsValue.Value)
    requires i < |items| && value == MaskEntry(IntToString(i), items[i])
    ensures JsValue.Spread([], ItemMasks(items, 0)[..i + 1])
         == JsValue.SetField(JsValue.Spread([], ItemMasks(items, 0)[..i]), IntToString(i), value)
  {
    ItemMasksAt(items, 0, i);
    JsValue.SpreadPrefixStep([], ItemMasks(items, 0), i);
  }

  datatype Level = InfoLevel | WarnLevel | ErrorLevel | DebugLevel

  function LevelName(l: Level): string {
    match l
    case InfoLevel => "info"
    case WarnLevel => "warn"
    case ErrorLevel => "error"
    case DebugLevel => "debug"
  }

  /** The fields every entry starts with. */
  function Base(ts: string, l: Level, message: string): seq<JsValue.Field> {
    [JsValue.Field("ts", JsValue.Str(ts)), JsValue.Field("level", JsValue.Str(LevelName(l))), JsValue.Field("message", JsValue.Str(message))]
  }

  /** `{ ts, level, message, ...this.context, ...this.redact(meta) }`. */
  function Entry(context: seq<JsValue.Field>, ts: string, l: Level, message: string, meta: seq<JsValue.Field>): seq<JsValue.Field> {
    JsValue.Spread(JsValue.Spread(Base(ts, l, message), context), Redact(meta))
  }

  /** `error(message, error, meta)`: `error.stack || error` is stored under `error`, after the rest of `meta`. */
  function ErrorMeta(error: JsValue.Value, meta: seq<JsValue.Field>): (r: seq<JsValue.Field>)
    ensures JsValue.Lookup(r, "error") == JsValue.Or(JsValue.Prop(error, "stack"), error)
  {
    JsValue.SetField(meta, "error", JsValue.Or(JsValue.Prop(error, "stack"), error))
  }

  /** `child(context)`: a logger whose context is the parent's with the child's keys on top. */
  function Child(parent: seq<JsValue.Field>, context: seq<JsValue.Field>): seq<JsValue.Field> {
    JsValue.Spread(parent, context)
  }

  /** `ToLower` never yields an upper-case letter, so the "apiKey" entry can match no key. */
  lemma ApiKeyNeverMatches(key: string)
    ensures !Contains(ToLower(key), "apiKey")
  {
    NoUpperNoApiKey(ToLower(key));
  }

  lemma {:induction false} NoUpperNoApiKey(s: string)
    requires forall i :: 0 <= i < |s| ==> !IsUpper(s[i])
    ensures !Contains(s, "apiKey")
    decreases |s|
  {
    if |s| >= 6 {
      assert s[..6][3] == s[3];
    }
    if |s| > 0 {
      NoUpperNoApiKey(s[1..]);
    }
  }

  /** A key is masked exactly when its lower-cased form contains "password", "token", "secret" or "authorization". */
  lemma SensitiveKeys(key: string)
    ensures Sensitive(key) <==> ContainsAny(ToLower(key), ["password", "token", "secret", "authorization"])
  {
    ApiKeyNeverMatches(key);
    var k := ToLower(key);
    if Sensitive(key) {
      var j :| 0 <= j < |RedactList| && Contains(k, RedactList[j]);
      assert j != 2;
      var j' := if j < 2 then j else j - 1;
      assert ["password", "token", "secret", "authorization"][j'] == RedactList[j];
    }
    if ContainsAny(k, ["password", "token", "secret", "authorization"]) {
      var j :| 0 <= j < 4 && Contains(k, ["password", "token", "secret", "authorization"][j]);
      var j' := if j < 2 then j else j + 1;
      assert RedactList[j'] == ["password", "token", "secret", "authorization"][j];
    }
  }

  /** Masking keeps the keys: the masked object has a key exactly when the original does. */
  lemma {:induction false} MasksKeys(fields: seq<JsValue.Field>, k: string)
    ensures JsValue.HasKey(Masks(fields), k) <==> JsValue.HasKey(fields, k)
  {
    var m := Masks(fields);
    if JsValue.HasKey(fields, k) {
      var i :| 0 <= i < |fields| && fields[i].key == k;
      assert m[i].key == k;
    }
    if JsValue.HasKey(m, k) {
      var i :| 0 <= i < |m| && m[i].key == k;
      assert fields[i].key == k;
    }
  }

  /** The masked value under a key is the mask of the value the last entry with that key carries. */
  lemma {:induction false} MasksLast(fields: seq<JsValue.Field>, k: string)
    requires JsValue.HasKey(fields, k)
    ensures JsValue.LastValue(Masks(fields), k) == MaskEntry(k, JsValue.LastValue(fields, k))
    decreases |fields|
  {
    var m := Masks(fields);
    assert m[1..] == Masks(fields[1..]);
    MasksKeys(fields[1..], k);
    if JsValue.HasKey(fields[1..], k) {
      MasksLast(fields[1..], k);
    }
  }

  /**
   * In an entry, a metadata key wins over a context key, which wins over `ts`, `level` and
   * `message`; metadata values are masked, context values are not.
   */
  lemma EntryPrecedence(context: seq<JsValue.Field>, ts: string, l: Level, message: string, meta: seq<JsValue.Field>, k: string)
    ensures var e := JsValue.Lookup(Entry(context, ts, l, message, meta), k);
      && (JsValue.HasKey(meta, k) ==> e == MaskEntry(k, JsValue.LastValue(meta, k)))
      && (!JsValue.HasKey(meta, k) && JsValue.HasKey(context, k) ==> e == JsValue.LastValue(context, k))
      && (!JsValue.HasKey(meta, k) && !JsValue.HasKey(context, k) ==> e == JsValue.Lookup(Base(ts, l, message), k))
  {
    var inner := JsValue.Spread(Base(ts, l, message), context);
    JsValue.SpreadLookup(inner, Redact(meta), k);
    RedactLookup(meta, k);
    JsValue.SpreadLookup(Base(ts, l, message), context, k);
  }

  /** The redacted object has the original's keys, each carrying the mask of its value. */
  lemma RedactLookup(meta: seq<JsValue.Field>, k: string)
    ensures JsValue.HasKey(Redact(meta), k) <==> JsValue.HasKey(meta, k)
    ensures JsValue.HasKey(meta, k) ==> JsValue.LastValue(Redact(meta), k) == MaskEntry(k, JsValue.LastValue(meta, k))
  {
    JsValue.SpreadLookup([], Masks(meta), k);
    JsValue.SpreadKeys([], Masks(meta), k);
    MasksKeys(meta, k);
    if JsValue.HasKey(meta, k) {
      MasksLast(meta, k);
      JsValue.DistinctLastIsLookup(Redact(meta), k);
    }
  }

  /** A sensitive metadata key always reads "[REDACTED]", however deep its value. */
  lemma SecretsMasked(context: seq<JsValue.Field>, ts: string, l: Level, message: string, meta: seq<JsValue.Field>, k: string)
    requires JsValue.HasKey(meta, k) && Sensitive(k)
    ensures JsValue.Lookup(Entry(context, ts, l, message, meta), k) == Masked
  {
    EntryPrecedence(context, ts, l, message, meta, k);
  }

  /** In a child logger the child's context keys win over the parent's. */
  lemma ChildOverrides(parent: seq<JsValue.Field>, context: seq<JsValue.Field>, k: string)
    ensures JsValue.Lookup(Child(parent, context), k) ==
      if JsValue.HasKey(context, k) then JsValue.LastValue(context, k) else JsValue.Lookup(parent, k)
  {
    JsValue.SpreadLookup(parent, context, k);
  }
}
