/**
 * The JavaScript values the core passes around untyped (`any`, `Record<string, any>`,
 * parsed JSON): objects keep their own-key order as a sequence of fields.
 */
module JsValue {
  import opened Wrappers
  import opened Text

  datatype Value =
    | Undefined
    | Null
    | Bool(b: bool)
    | Num(n: real)
    | NaN
    | Str(s: string)
    | Arr(items: seq<Value>)
    | Obj(fields: seq<Field>)

  datatype Field = Field(key: string, val: Value)

  /** JavaScript truthiness. */
  predicate Truthy(v: Value) {
    match v
    case Undefined => false
    case Null => false
    case Bool(b) => b
    case Num(n) => n != 0.0
    case NaN => false
    case Str(s) => s != ""
    case Arr(_) => true
    case Obj(_) => true
  }

  /** `a || b`. */
  function Or(a: Value, b: Value): (r: Value)
    ensures Truthy(a) ==> r == a
    ensures !Truthy(a) ==> r == b
  {
    if Truthy(a) then a else b
  }

  /** The value of the first field named `key`, `undefined` when there is none. */
  function Lookup(fields: seq<Field>, key: string): (r: Value)
    ensures r != Undefined ==> exists i :: 0 <= i < |fields| && fields[i].key == key && fields[i].val == r
    ensures (forall i :: 0 <= i < |fields| ==> fields[i].key != key) ==> r == Undefined
  {
    if fields == [] then Undefined
    else if fields[0].key == key then fields[0].val
    else Lookup(fields[1..], key)
  }

  /** The first field named `key` is the one `Lookup` reads. */
  lemma {:induction false} LookupAt(fields: seq<Field>, key: string, i: nat)
    requires i < |fields| && fields[i].key == key
    requires forall j :: 0 <= j < i ==> fields[j].key != key
    ensures Lookup(fields, key) == fields[i].val
  {
    if i > 0 {
      LookupAt(fields[1..], key, i - 1);
    }
  }

  predicate HasKey(fields: seq<Field>, key: string) {
    exists i :: 0 <= i < |fields| && fields[i].key == key
  }

  function Keys(fields: seq<Field>): (r: seq<string>)
    ensures |r| == |fields|
    ensures forall i :: 0 <= i < |r| ==> r[i] == fields[i].key
  {
    seq(|fields|, i requires 0 <= i < |fields| => fields[i].key)
  }

  predicate DistinctKeys(fields: seq<Field>) {
    forall i, j :: 0 <= i < j < |fields| ==> fields[i].key != fields[j].key
  }

  /** `v[key]` on a value that is not `null` or `undefined` (other primitives have none of the keys used here). */
  function Prop(v: Value, key: string): (r: Value)
    ensures !v.Obj? && !v.Arr? ==> r == Undefined
  {
    match v
    case Obj(fs) => Lookup(fs, key)
    case Arr(items) =>
      if IsCanonicalIndex(key) && ParseDigits(key) < |items| then items[ParseDigits(key)] else Undefined
    case _ => Undefined
  }

  /** `v[key]`, which throws a TypeError on `null` and `undefined`. */
  function Member(v: Value, key: string): (r: Result<Value>)
    ensures r.Err? <==> (v == Null || v == Undefined)
    ensures r.Ok? ==> r.value == Prop(v, key)
  {
    if v == Null then Err("Cannot read properties of null (reading '" + key + "')")
    else if v == Undefined then Err("Cannot read properties of undefined (reading '" + key + "')")
    else Ok(Prop(v, key))
  }

  /** `v?.key`: optional chaining yields `undefined` on `null` and `undefined`. */
  function OptProp(v: Value, key: string): (r: Value)
    ensures v == Null || v == Undefined ==> r == Undefined
  {
    Prop(v, key)
  }

  /** A canonical array index: digits with no leading zero (or "0") below 2^32 - 1. */
  predicate IsCanonicalIndex(k: string) {
    |k| >= 1 && (forall i :: 0 <= i < |k| ==> IsDigit(k[i]))
    && (k[0] != '0' || |k| == 1)
    && ParseDigits(k) < 0xFFFF_FFFF
  }

  /** `String(n)` for a number: integers exactly; other numbers as a fixed decimal of at most 15 fractional digits. */
  function NumberToString(n: real): (r: string)
    ensures |r| >= 1
  {
    if n == n.Floor as real then IntToString(n.Floor)
    else
      var m := if n < 0.0 then -n else n;
      (if n < 0.0 then "-" else "") + NatToString(m.Floor) + "." + FractionDigits(m - m.Floor as real, 15)
  }

  function FractionDigits(f: real, k: nat): string
    decreases k
  {
    if k == 0 || f <= 0.0 || f >= 1.0 then ""
    else
      var d := (f * 10.0).Floor;
      if 0 <= d < 10 then [DigitChar(d)] + FractionDigits(f * 10.0 - d as real, k - 1) else ""
  }

  /** `String(v)`. */
  function ToJsString(v: Value): string {
    match v
    case Undefined => "undefined"
    case Null => "null"
    case Bool(b) => if b then "true" else "false"
    case Num(n) => NumberToString(n)
    case NaN => "NaN"
    case Str(s) => s
    case Arr(items) => ArrayJoin(items)
    case Obj(_) => "[object Object]"
  }

  /** `items.join(',')`: `null` and `undefined` elements render as empty strings. */
  function ArrayJoin(items: seq<Value>): string
    decreases items, 0
  {
    if |items| == 0 then ""
    else
      var head := if items[0] == Null || items[0] == Undefined then "" else ToJsString(items[0]);
      if |items| == 1 then head else head + "," + ArrayJoin(items[1..])
  }

  lemma ToJsStringOfString(s: string)
    ensures ToJsString(Str(s)) == s
  {
  }

  /** `Number(v)`; strings are read as optionally signed decimal integers, arrays and objects give NaN. */
  function ToNumber(v: Value): (r: Value)
    ensures r.Num? || r.NaN?
    ensures v.Num? ==> r == v
  {
    match v
    case Undefined => NaN
    case Null => Num(0.0)
    case Bool(b) => Num(if b then 1.0 else 0.0)
    case Num(n) => v
    case NaN => NaN
    case Str(s) => StringToNumber(Trim(s))
    case Arr(_) => NaN
    case Obj(_) => NaN
  }

  function StringToNumber(t: string): (r: Value)
    ensures r.Num? || r.NaN?
  {
    if t == "" then Num(0.0)
    else if t[0] == '-' && |t| > 1 && AllDigits(t[1..]) then Num(-(ParseDigits(t[1..]) as real))
    else if t[0] == '+' && |t| > 1 && AllDigits(t[1..]) then Num(ParseDigits(t[1..]) as real)
    else if AllDigits(t) then Num(ParseDigits(t) as real)
    else NaN
  }

  predicate AllDigits(s: string) {
    forall i :: 0 <= i < |s| ==> IsDigit(s[i])
  }

  /** The position of the first field named `key`. */
  function FirstIndex(fields: seq<Field>, key: string): (i: nat)
    requires HasKey(fields, key)
    ensures i < |fields| && fields[i].key == key
    ensures forall j :: 0 <= j < i ==> fields[j].key != key
  {
    if fields[0].key == key then 0
    else
      assert HasKey(fields[1..], key) by {
        var i :| 0 <= i < |fields| && fields[i].key == key;
        assert fields[1..][i - 1] == fields[i];
      }
      1 + FirstIndex(fields[1..], key)
  }

  /** Sets `key` on an ordered object: an existing field keeps its place, a new one goes last. */
  function SetField(fields: seq<Field>, key: string, val: Value): (r: seq<Field>)
    ensures Lookup(r, key) == val
    ensures forall k :: k != key ==> Lookup(r, k) == Lookup(fields, k)
    ensures HasKey(fields, key) ==> |r| == |fields|
    ensures !HasKey(fields, key) ==> r == fields + [Field(key, val)]
  {
    var f := Field(key, val);
    if HasKey(fields, key) then
      var i := FirstIndex(fields, key);
      LookupAt(fields[i := f], key, i);
      forall k | k != key
        ensures Lookup(fields[i := f], k) == Lookup(fields, k)
      {
        LookupUpdateOther(fields, i, f, k);
      }
      fields[i := f]
    else
      LookupAt(fields + [f], key, |fields|);
      forall k | k != key
        ensures Lookup(fields + [f], k) == Lookup(fields, k)
      {
        LookupAppendOther(fields, f, k);
      }
      fields + [f]
  }

  /** Replacing a field not named `k` by another not named `k` leaves `k`'s value alone. */
  lemma {:induction false} LookupUpdateOther(fields: seq<Field>, i: nat, f: Field, k: string)
    requires i < |fields| && fields[i].key != k && f.key != k
    ensures Lookup(fields[i := f], k) == Lookup(fields, k)
  {
    if i > 0 && fields[0].key != k {
      assert fields[i := f][1..] == fields[1..][i - 1 := f];
      LookupUpdateOther(fields[1..], i - 1, f, k);
    }
  }

  lemma {:induction false} LookupAppendOther(fields: seq<Field>, f: Field, k: string)
    requires f.key != k
    ensures Lookup(fields + [f], k) == Lookup(fields, k)
  {
    if fields != [] && fields[0].key != k {
      assert (fields + [f])[1..] == fields[1..] + [f];
      LookupAppendOther(fields[1..], f, k);
    }
  }

  /** `{...target, ...source}`. */
  function Spread(target: seq<Field>, source: seq<Field>): (r: seq<Field>)
    decreases |source|
  {
    if source == [] then target
    else Spread(SetField(target, source[0].key, source[0].val), source[1..])
  }

  lemma {:induction false} SpreadLookup(target: seq<Field>, source: seq<Field>, k: string)
    ensures Lookup(Spread(target, source), k) ==
      if HasKey(source, k) then LastValue(source, k) else Lookup(target, k)
    decreases |source|
  {
    if source != [] {
      SpreadLookup(SetField(target, source[0].key, source[0].val), source[1..], k);
      HasKeyCons(source, k);
    }
  }

  /** Spreading one more field is assigning it after the others: the spread is a loop of assignments. */
  lemma {:induction false} SpreadSnoc(target: seq<Field>, source: seq<Field>, f: Field)
    ensures Spread(target, source + [f]) == SetField(Spread(target, source), f.key, f.val)
    decreases |source|
  {
    if source != [] {
      assert (source + [f])[0] == source[0];
      assert (source + [f])[1..] == source[1..] + [f];
      SpreadSnoc(SetField(target, source[0].key, source[0].val), source[1..], f);
    }
  }

  /** Spreading a prefix one field longer assigns that field last. */
  lemma SpreadPrefixStep(target: seq<Field>, source: seq<Field>, i: nat)
    requires i < |source|
    ensures Spread(target, source[..i + 1]) == SetField(Spread(target, source[..i]), source[i].key, source[i].val)
  {
    assert source[..i + 1] == source[..i] + [source[i]];
    SpreadSnoc(target, source[..i], source[i]);
  }

  /** A key is in a non-empty object exactly when it is the first field's or in the rest. */
  lemma HasKeyCons(fields: seq<Field>, k: string)
    requires fields != []
    ensures HasKey(fields, k) <==> fields[0].key == k || HasKey(fields[1..], k)
  {
    if HasKey(fields[1..], k) {
      var i :| 0 <= i < |fields[1..]| && fields[1..][i].key == k;
      assert fields[i + 1].key == k;
    }
    if HasKey(fields, k) && fields[0].key != k {
      var i :| 0 <= i < |fields| && fields[i].key == k;
      assert fields[1..][i - 1].key == k;
    }
  }

  /** The value the last field named `k` carries, the one a spread keeps. */
  function LastValue(fields: seq<Field>, k: string): Value
    decreases |fields|
  {
    if fields == [] then Undefined
    else if HasKey(fields[1..], k) then LastValue(fields[1..], k)
    else if fields[0].key == k then fields[0].val
    else Undefined
  }

  /** Setting a key adds that key and keeps every other. */
  lemma SetFieldKeys(fields: seq<Field>, key: string, val: Value, k: string)
    ensures HasKey(SetField(fields, key, val), k) <==> HasKey(fields, k) || k == key
  {
    var r := SetField(fields, key, val);
    if HasKey(fields, key) {
      var i := FirstIndex(fields, key);
      assert r == fields[i := Field(key, val)];
      assert forall j :: 0 <= j < |r| ==> r[j].key == fields[j].key;
      assert r[i].key == key;
    } else {
      assert r[|fields|].key == key;
      assert forall j :: 0 <= j < |fields| ==> r[j] == fields[j];
    }
  }

  /** Setting a key repeats none. */
  lemma SetFieldDistinct(fields: seq<Field>, key: string, val: Value)
    requires DistinctKeys(fields)
    ensures DistinctKeys(SetField(fields, key, val))
  {
    var r := SetField(fields, key, val);
    if HasKey(fields, key) {
      var i := FirstIndex(fields, key);
      assert r == fields[i := Field(key, val)];
      assert forall j :: 0 <= j < |r| ==> r[j].key == fields[j].key;
    } else {
      assert forall j :: 0 <= j < |fields| ==> r[j] == fields[j];
    }
  }

  /** A spread has the keys of both sides, and repeats none when its target repeats none. */
  lemma {:induction false} SpreadKeys(target: seq<Field>, source: seq<Field>, k: string)
    ensures HasKey(Spread(target, source), k) <==> HasKey(target, k) || HasKey(source, k)
    ensures DistinctKeys(target) ==> DistinctKeys(Spread(target, source))
    decreases |source|
  {
    if source != [] {
      var t := SetField(target, source[0].key, source[0].val);
      SetFieldKeys(target, source[0].key, source[0].val, k);
      if DistinctKeys(target) {
        SetFieldDistinct(target, source[0].key, source[0].val);
      }
      SpreadKeys(t, source[1..], k);
      HasKeyCons(source, k);
    }
  }

  /** In an object without repeated keys the last field named `k` is the first one. */
  lemma {:induction false} DistinctLastIsLookup(fields: seq<Field>, k: string)
    requires DistinctKeys(fields) && HasKey(fields, k)
    ensures LastValue(fields, k) == Lookup(fields, k)
    decreases |fields|
  {
    if fields[0].key == k {
      assert !HasKey(fields[1..], k) by {
        forall i | 0 <= i < |fields[1..]|
          ensures fields[1..][i].key != k
        {
          assert fields[1..][i] == fields[i + 1];
        }
      }
    } else {
      var i :| 0 <= i < |fields| && fields[i].key == k;
      assert fields[1..][i - 1].key == k;
      DistinctLastIsLookup(fields[1..], k);
    }
  }

  /** `Math.ceil(x / d)` for an integer `x` and a positive integer `d`. */
  function CeilDiv(x: int, d: int): (r: int)
    requires d > 0
    ensures d * (r - 1) < x <= d * r
  {
    -((-x) / d)
  }
}
