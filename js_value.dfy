/**
 * JavaScript values as they travel through the relay: the parsed JSON of a
 * wire message, the `params` object of a command, the payload of an editor
 * event.  Numbers are modelled as integers; functions, symbols and
 * prototypes are not values here.
 */
module JsValue {

  datatype Option<+T> = None | Some(value: T)

  datatype Value =
    | Undefined
    | Null
    | Bool(b: bool)
    | Num(n: int)
    | Str(s: string)
    | Arr(items: seq<Value>)
    | Obj(fields: map<string, Value>)

  /** JavaScript truthiness: `undefined`, `null`, `false`, `0` and `""` are falsy. */
  predicate Truthy(v: Value)
    ensures Truthy(v) <==> v !in {Undefined, Null, Bool(false), Num(0), Str("")}
  {
    match v
    case Undefined => false
    case Null => false
    case Bool(b) => b
    case Num(n) => n != 0
    case Str(s) => s != ""
    case Arr(_) => true
    case Obj(_) => true
  }

  /** `typeof v === 'number'` */
  predicate IsNumber(v: Value) {
    v.Num?
  }

  /**
   * The property read `v.key`.  Reading a property of `null` or `undefined`
   * is a TypeError (None); a missing own field, or any field of a primitive
   * or an array, reads as `undefined`.
   */
  function Prop(v: Value, key: string): (r: Option<Value>)
    ensures r.None? <==> v.Undefined? || v.Null?
    ensures r.Some? && !v.Obj? ==> r.value == Undefined
    ensures r.Some? && v.Obj? ==> r.value == (if key in v.fields then v.fields[key] else Undefined)
  {
    match v
    case Undefined => None
    case Null => None
    case Obj(m) => Some(if key in m then m[key] else Undefined)
    case _ => Some(Undefined)
  }

  /** `v.key` where the source has already ruled out `null` and `undefined` (or reads a record it built). */
  function Get(v: Value, key: string): (r: Value)
    ensures !v.Undefined? && !v.Null? ==> Prop(v, key) == Some(r)
    ensures v.Undefined? || v.Null? ==> r == Undefined
  {
    match v
    case Obj(m) => if key in m then m[key] else Undefined
    case _ => Undefined
  }

  /**
   * The object a JSON round trip of the record `m` yields: `JSON.stringify`
   * leaves out the fields whose value is `undefined`.
   */
  function Record(m: map<string, Value>): (r: Value)
    ensures r.Obj? && r.fields.Keys <= m.Keys
    ensures forall k :: k in m ==> Get(r, k) == m[k]
  {
    Obj(map k | k in m && m[k] != Undefined :: m[k])
  }

  function DigitChar(d: nat): char
    requires d < 10
  {
    "0123456789"[d]
  }

  /** The decimal text of a natural number, most significant digit first. */
  function NatText(n: nat): (r: string)
    ensures |r| >= 1
    ensures forall i :: 0 <= i < |r| ==> '0' <= r[i] <= '9'
    decreases n
  {
    if n < 10 then [DigitChar(n)] else NatText(n / 10) + [DigitChar(n % 10)]
  }

  /**
   * `String(v)` for the values a template literal may interpolate.  A
   * string is its own text; a number's text is non-empty and starts with a
   * minus sign exactly when it is negative.
   */
  function Display(v: Value): (r: string)
    ensures v.Str? ==> r == v.s
    ensures v.Num? ==> r != [] && (r[0] == '-' <==> v.n < 0)
    decreases v
  {
    match v
    case Undefined => "undefined"
    case Null => "null"
    case Bool(b) => if b then "true" else "false"
    case Num(n) => if n < 0 then "-" + NatText(-n) else NatText(n)
    case Str(s) => s
    // Array.prototype.join(","): null and undefined elements become ""
    case Arr(items) =>
      Join(seq(|items|, i requires 0 <= i < |items| =>
        if items[i].Undefined? || items[i].Null? then "" else Display(items[i])))
    case Obj(_) => "[object Object]"
  }

  function Join(parts: seq<string>): string {
    if parts == [] then "" else if |parts| == 1 then parts[0] else parts[0] + "," + Join(parts[1..])
  }

  /**
   * The white space and line terminators that `trim` and `parseInt` skip:
   * tab, vertical tab, form feed, the byte order mark, every space separator
   * (U+0020, U+00A0, U+1680, U+2000 to U+200A, U+202F, U+205F, U+3000) and
   * the four line terminators.  None of them is a digit, a letter or a
   * sign, so skipping them never eats the start of a number or a word.
   */
  predicate IsSpace(c: char)
    ensures IsSpace(c) ==> !('0' <= c <= '9' || 'a' <= c <= 'z' || 'A' <= c <= 'Z' || c == '-' || c == '+')
  {
    || c in {'\t', '\U{000B}', '\U{000C}', '\U{FEFF}'}
    || c in {' ', '\U{00A0}', '\U{1680}', '\U{202F}', '\U{205F}', '\U{3000}'}
    || '\U{2000}' <= c <= '\U{200A}'
    || c in {'\n', '\r', '\U{2028}', '\U{2029}'}
  }

  /** `trim`'s first half: the leading white space removed, and nothing else. */
  function TrimStart(s: string): (r: string)
    ensures |r| <= |s| && r == s[|s| - |r|..]
    ensures forall i :: 0 <= i < |s| - |r| ==> IsSpace(s[i])
    ensures r == [] || !IsSpace(r[0])
  {
    if s != [] && IsSpace(s[0]) then TrimStart(s[1..]) else s
  }

  /** `trim`'s second half: the trailing white space removed, and nothing else. */
  function TrimEnd(s: string): (r: string)
    ensures |r| <= |s| && r == s[..|r|]
    ensures forall i :: |r| <= i < |s| ==> IsSpace(s[i])
    ensures r == [] || !IsSpace(r[|r| - 1])
  {
    if s != [] && IsSpace(s[|s| - 1]) then TrimEnd(s[..|s| - 1]) else s
  }

  /** `String.prototype.trim`. */
  function Trim(s: string): (r: string)
    ensures r == [] || (!IsSpace(r[0]) && !IsSpace(r[|r| - 1]))
  {
    TrimEnd(TrimStart(s))
  }

  /** Trimming leaves nothing exactly when the text is all white space. */
  lemma {:induction false} TrimEmptyIffBlank(s: string)
    ensures Trim(s) == [] <==> forall i :: 0 <= i < |s| ==> IsSpace(s[i])
  {
    if s != [] && IsSpace(s[0]) {
      TrimEmptyIffBlank(s[1..]);
      assert forall i :: 0 <= i < |s| - 1 ==> s[1..][i] == s[i + 1];
    } else if s != [] {
      var t := TrimStart(s);
      assert t == s;
      assert TrimEnd(t) != [] by {
        TrimEndKeepsNonBlank(t, 0);
      }
    }
  }

  /** `TrimEnd` keeps every position before a non-space character. */
  lemma {:induction false} TrimEndKeepsNonBlank(s: string, k: nat)
    requires k < |s| && !IsSpace(s[k])
    ensures |TrimEnd(s)| > k
  {
    if IsSpace(s[|s| - 1]) {
      TrimEndKeepsNonBlank(s[..|s| - 1], k);
    }
  }
}
