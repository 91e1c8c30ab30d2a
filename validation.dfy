/**
 * The request validators: each either returns (`None`) or throws (`Some(e)`). Option values
 * left out by the caller are `None`; a regular expression's `test` and the `URL` parser's
 * protocol are parameters.
 */
module Validation {
  import opened Wrappers
  import opened Text
  import JsValue
  import Errors

  function Fail(message: string, field: string): (r: Option<Errors.Thrown>)
    ensures r.Some? && r.value.App? && r.value.err.cls == Errors.ValidationClass && r.value.err.message == message
  {
    Some(Errors.App(Errors.ValidationError(message, Some(field))))
  }

  /** The bare rejection a validator throws, for stating which one it was. */
  predicate FailsWith(r: Option<Errors.Thrown>, message: string) {
    r.Some? && r.value.App? && r.value.err.cls == Errors.ValidationClass && r.value.err.message == message
  }

  predicate Blank(v: JsValue.Value) {
    v == JsValue.Undefined || v == JsValue.Null || v == JsValue.Str("")
  }

  /** `validateRequired`: only `undefined`, `null` and the empty string are missing; `0` and `false` pass. */
  function ValidateRequired(v: JsValue.Value, field: string): (r: Option<Errors.Thrown>)
    ensures r.Some? <==> Blank(v)
    ensures r.Some? ==> FailsWith(r, field + " is required")
  {
    if Blank(v) then Fail(field + " is required", field) else None
  }

  /** An option that must be a `RegExp`; anything else in its place is rejected. */
  datatype PatternArg = Regex(test: string -> bool) | NotRegex

  /** `validateString`: type, then `minLength`, then `maxLength` (both inclusive), then the pattern. */
  function ValidateString(v: JsValue.Value, field: string, minLength: Option<real>, maxLength: Option<real>, pattern: Option<PatternArg>): (r: Option<Errors.Thrown>)
    ensures !v.Str? ==> FailsWith(r, field + " must be a string")
    ensures v.Str? && minLength.Some? && (|v.s| as real) < minLength.value ==>
      FailsWith(r, field + " must be at least " + JsValue.NumberToString(minLength.value) + " characters")
    ensures r.None? <==>
      && v.Str?
      && (minLength.Some? ==> minLength.value <= |v.s| as real)
      && (maxLength.Some? ==> |v.s| as real <= maxLength.value)
      && (pattern.Some? ==> pattern.value.Regex? && pattern.value.test(v.s))
  {
    if !v.Str? then Fail(field + " must be a string", field)
    else if minLength.Some? && (|v.s| as real) < minLength.value then
      Fail(field + " must be at least " + JsValue.NumberToString(minLength.value) + " characters", field)
    else if maxLength.Some? && (|v.s| as real) > maxLength.value then
      Fail(field + " must be no more than " + JsValue.NumberToString(maxLength.value) + " characters", field)
    else if pattern.Some? then
      if !pattern.value.Regex? then Fail(field + " pattern must be a RegExp", field)
      else if !pattern.value.test(v.s) then Fail(field + " format is invalid", field)
      else None
    else None
  }

  /** `Number.isInteger`. */
  predicate IsInteger(n: real) {
    n == n.Floor as real
  }

  /** `validateNumber`: a number that is not `NaN`, then `integer`, then `min`, then `max`, all inclusive. */
  function ValidateNumber(v: JsValue.Value, field: string, min: Option<real>, max: Option<real>, integer: Option<bool>): (r: Option<Errors.Thrown>)
    ensures !v.Num? ==> FailsWith(r, field + " must be a number")
    ensures v.Num? && integer == Some(true) && !IsInteger(v.n) ==> FailsWith(r, field + " must be an integer")
    ensures r.None? <==>
      && v.Num?
      && (integer == Some(true) ==> IsInteger(v.n))
      && (min.Some? ==> min.value <= v.n)
      && (max.Some? ==> v.n <= max.value)
  {
    if !v.Num? then Fail(field + " must be a number", field)
    else if integer == Some(true) && !IsInteger(v.n) then Fail(field + " must be an integer", field)
    else if min.Some? && v.n < min.value then Fail(field + " must be at least " + JsValue.NumberToString(min.value), field)
    else if max.Some? && v.n > max.value then Fail(field + " must be no more than " + JsValue.NumberToString(max.value), field)
    else None
  }

  /** `validateEmail`: a string check with the email pattern, whose `test` is `emailTest`. */
  function ValidateEmail(v: JsValue.Value, field: string, emailTest: string -> bool): (r: Option<Errors.Thrown>)
    ensures r.None? <==> v.Str? && emailTest(v.s)
  {
    ValidateString(v, field, None, None, Some(Regex(emailTest)))
  }

  /**
   * `validateUrl`: a blank value passes; otherwise it must be a string that `new URL` accepts
   * (`protocolOf` gives its protocol, `None` when the constructor throws) with protocol
   * `http:` or `https:`.
   */
  function ValidateUrl(v: JsValue.Value, field: string, protocolOf: string -> Option<string>): (r: Option<Errors.Thrown>)
    ensures r.None? <==> Blank(v) || (v.Str? && protocolOf(v.s) in {Some("http:"), Some("https:")})
    ensures r.Some? ==> FailsWith(r, field + " must be a valid URL")
  {
    if Blank(v) then None
    else if !v.Str? then Fail(field + " must be a valid URL", field)
    else match protocolOf(v.s)
      case None => Fail(field + " must be a valid URL", field)
      case Some(p) => if p != "http:" && p != "https:" then Fail(field + " must be a valid URL", field) else None
  }

  /** `items.join(sep)`, with `null` and `undefined` as empty strings. */
  function JoinValues(items: seq<JsValue.Value>, sep: string): string {
    if items == [] then ""
    else
      var head := if items[0] == JsValue.Null || items[0] == JsValue.Undefined then "" else JsValue.ToJsString(items[0]);
      if |items| == 1 then head else head + sep + JoinValues(items[1..], sep)
  }

  /** `validateEnum`: throws exactly when the value is not one of the listed values. */
  function ValidateEnum(v: JsValue.Value, validValues: seq<JsValue.Value>, field: string): (r: Option<Errors.Thrown>)
    ensures r.None? <==> v in validValues
    ensures r.Some? ==> FailsWith(r, field + " must be one of: " + JoinValues(validValues, ", "))
  {
    if v !in validValues then Fail(field + " must be one of: " + JoinValues(validValues, ", "), field) else None
  }

  /** A length option is applied only when truthy, so `0` switches it off. */
  predicate Set(bound: Option<real>) {
    bound.Some? && bound.value != 0.0
  }

  /** How an error thrown by the item validator leaves `validateArray`. */
  function Rethrown(e: Errors.Thrown, field: string, index: nat): (r: Errors.Thrown)
    ensures e.App? && e.err.cls == Errors.ValidationClass ==>
      var at := field + "[" + IntToString(index) + "]";
      r == Errors.App(Errors.ValidationError(at + ": " + e.err.message, Some(at)))
    ensures !(e.App? && e.err.cls == Errors.ValidationClass) ==> r == e
  {
    if e.App? && e.err.cls == Errors.ValidationClass then
      var at := field + "[" + IntToString(index) + "]";
      Errors.App(Errors.ValidationError(at + ": " + e.err.message, Some(at)))
    else e
  }

  /** The `forEach` over the items from `index` on: the first item that throws ends it. */
  function CheckItems(items: seq<JsValue.Value>, index: nat, field: string, check: (JsValue.Value, nat) -> Option<Errors.Thrown>): (r: Option<Errors.Thrown>)
    requires index <= |items|
    ensures r.None? <==> forall i :: index <= i < |items| ==> check(items[i], i).None?
    decreases |items| - index
  {
    if index == |items| then None
    else match check(items[index], index)
      case Some(e) => Some(Rethrown(e, field, index))
      case None => CheckItems(items, index + 1, field, check)
  }

  /** `validateArray`: type, then the truthy length bounds, then each item in order. */
  function ValidateArray(v: JsValue.Value, field: string, minLength: Option<real>, maxLength: Option<real>,
                         itemValidator: Option<(JsValue.Value, nat) -> Option<Errors.Thrown>>): (r: Option<Errors.Thrown>)
    ensures !v.Arr? ==> FailsWith(r, field + " must be an array")
    ensures r.None? <==>
      && v.Arr?
      && (Set(minLength) ==> minLength.value <= |v.items| as real)
      && (Set(maxLength) ==> |v.items| as real <= maxLength.value)
      && (itemValidator.Some? ==> forall i :: 0 <= i < |v.items| ==> itemValidator.value(v.items[i], i).None?)
  {
    if !v.Arr? then Fail(field + " must be an array", field)
    else if Set(minLength) && (|v.items| as real) < minLength.value then
      Fail(field + " must have at least " + JsValue.NumberToString(minLength.value) + " items", field)
    else if Set(maxLength) && (|v.items| as real) > maxLength.value then
      Fail(field + " must have no more than " + JsValue.NumberToString(maxLength.value) + " items", field)
    else if itemValidator.Some? then CheckItems(v.items, 0, field, itemValidator.value)
    else None
  }

  /** The first failing item's validation error comes back prefixed with the field and its index. */
  lemma {:induction false} FirstFailingItem(items: seq<JsValue.Value>, field: string, check: (JsValue.Value, nat) -> Option<Errors.Thrown>, k: nat)
    requires k < |items|
    requires forall i :: 0 <= i < k ==> check(items[i], i).None?
    requires check(items[k], k).Some?
    ensures ValidateArray(JsValue.Arr(items), field, None, None, Some(check)) == Some(Rethrown(check(items[k], k).value, field, k))
  {
    ItemsFrom(items, 0, field, check, k);
  }

  lemma {:induction false} ItemsFrom(items: seq<JsValue.Value>, index: nat, field: string, check: (JsValue.Value, nat) -> Option<Errors.Thrown>, k: nat)
    requires index <= k < |items|
    requires forall i :: index <= i < k ==> check(items[i], i).None?
    requires check(items[k], k).Some?
    ensures CheckItems(items, index, field, check) == Some(Rethrown(check(items[k], k).value, field, k))
    decreases k - index
  {
    if index < k {
      ItemsFrom(items, index + 1, field, check, k);
    }
  }

  /** `0` for `minLength` or `maxLength` is the same as leaving it out. */
  lemma ZeroBoundIgnored(v: JsValue.Value, field: string, itemValidator: Option<(JsValue.Value, nat) -> Option<Errors.Thrown>>)
    ensures ValidateArray(v, field, Some(0.0), Some(0.0), itemValidator) == ValidateArray(v, field, None, None, itemValidator)
  {
  }

  /** A `minLength` of 0 is honoured by `validateString`, where the check is `!== undefined`. */
  lemma StringMinZeroHonoured(s: string, field: string)
    ensures ValidateString(JsValue.Str(s), field, Some(0.0), None, None).None?
  {
  }

  /** `sanitizeString`: whitespace runs become one space and the ends are trimmed; a non-string gives "". */
  function SanitizeString(v: JsValue.Value): (r: string)
    ensures Collapsed(r)
    ensures r == [] || (!IsSpace(r[0]) && !IsSpace(r[|r| - 1]))
  {
    if !v.Str? then ""
    else
      CollapseSpacesCollapsed(v.s);
      TrimCollapsed(CollapseSpaces(v.s));
      Trim(CollapseSpaces(v.s))
  }

  /** Sanitising twice changes nothing. */
  lemma SanitizeIdempotent(v: JsValue.Value)
    ensures SanitizeString(JsValue.Str(SanitizeString(v))) == SanitizeString(v)
  {
    var r := SanitizeString(v);
    CollapseCollapsedIsIdentity(r);
    TrimmedIsTrim(r);
  }

  /** A string with no whitespace at either end is its own trim. */
  lemma TrimmedIsTrim(s: string)
    requires s == [] || (!IsSpace(s[0]) && !IsSpace(s[|s| - 1]))
    ensures Trim(s) == s
  {
  }

  /** No two spaces in a row survive. */
  lemma SanitizedHasNoDoubleSpace(v: JsValue.Value, i: nat)
    requires i + 1 < |SanitizeString(v)|
    ensures !(SanitizeString(v)[i] == ' ' && SanitizeString(v)[i + 1] == ' ')
  {
    assert IsSpace(' ');
  }
}
