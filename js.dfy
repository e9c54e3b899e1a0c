/** The pieces of JavaScript's own semantics that the live-slides core relies on:
    the values JSON.parse produces, truthiness, and String.prototype.trim. */
module Js {

  datatype Option<+T> = None | Some(value: T)

  /** A JavaScript value as JSON.parse can produce it, plus `undefined`,
      which is what reading an absent property yields. */
  datatype JsValue =
    | Undefined
    | Null
    | Bool(b: bool)
    | Number(n: real)
    | Str(s: string)
    | Array(elements: seq<JsValue>)
    | Object(properties: map<string, JsValue>)

  /** ToBoolean (section 7.1.2 of ECMA-262). JSON.parse never yields NaN, so a
      number is falsy exactly when it is zero. */
  predicate Truthy(v: JsValue) {
    match v
    case Undefined => false
    case Null => false
    case Bool(b) => b
    case Number(n) => n != 0.0
    case Str(s) => s != ""
    case Array(_) => true
    case Object(_) => true
  }

  /** Property read `o[k]` on a parsed object: an absent property reads as undefined. */
  function Get(o: map<string, JsValue>, k: string): JsValue {
    if k in o then o[k] else Undefined
  }

  /** The characters String.prototype.trim removes: WhiteSpace and LineTerminator
      (sections 12.2 and 12.3 of ECMA-262), the Zs category written out. */
  predicate IsWhitespace(c: char) {
    || c == '\t' || c == '\n' || c == '\U{000B}' || c == '\U{000C}' || c == '\r'
    || c == ' ' || c == '\U{00A0}' || c == '\U{1680}'
    || ('\U{2000}' <= c <= '\U{200A}')
    || c == '\U{2028}' || c == '\U{2029}' || c == '\U{202F}' || c == '\U{205F}'
    || c == '\U{3000}' || c == '\U{FEFF}'
  }

  /** Every character of `s` is whitespace (the empty string included). */
  ghost predicate Blank(s: string) {
    forall i | 0 <= i < |s| :: IsWhitespace(s[i])
  }

  /** `s` without its leading whitespace. */
  function TrimStart(s: string): string {
    if s != [] && IsWhitespace(s[0]) then TrimStart(s[1..]) else s
  }

  /** `s` without its trailing whitespace. */
  function TrimEnd(s: string): string {
    if s != [] && IsWhitespace(s[|s| - 1]) then TrimEnd(s[..|s| - 1]) else s
  }

  /** String.prototype.trim. */
  function Trim(s: string): string {
    TrimEnd(TrimStart(s))
  }

  /** TrimStart leaves a suffix of `s`: what it cuts is whitespace, and what it
      keeps does not start with whitespace. */
  lemma {:induction false} TrimStartCuts(s: string)
    ensures var t := TrimStart(s);
      && |t| <= |s| && t == s[|s| - |t|..]
      && (forall i | 0 <= i < |s| - |t| :: IsWhitespace(s[i]))
      && (t != [] ==> !IsWhitespace(t[0]))
  {
    if s != [] && IsWhitespace(s[0]) {
      var u := s[1..];
      TrimStartCuts(u);
      var t := TrimStart(u);
      assert u[|u| - |t|..] == s[|s| - |t|..];
      forall i | 0 <= i < |s| - |t| ensures IsWhitespace(s[i]) {
        if i > 0 {
          assert s[i] == u[i - 1];
        }
      }
    }
  }

  /** TrimEnd leaves a prefix of `s`: what it cuts is whitespace, and what it
      keeps does not end with whitespace. */
  lemma {:induction false} TrimEndCuts(s: string)
    ensures var r := TrimEnd(s);
      && |r| <= |s| && r == s[..|r|]
      && (forall i | |r| <= i < |s| :: IsWhitespace(s[i]))
      && (r != [] ==> !IsWhitespace(r[|r| - 1]))
  {
    if s != [] && IsWhitespace(s[|s| - 1]) {
      var u := s[..|s| - 1];
      TrimEndCuts(u);
      var r := TrimEnd(u);
      assert u[..|r|] == s[..|r|];
      forall i | |r| <= i < |s| ensures IsWhitespace(s[i]) {
        if i < |s| - 1 {
          assert s[i] == u[i];
        }
      }
    }
  }

  /** String.prototype.trim yields the infix of `s` left after cutting
      whitespace from both ends; that infix neither starts nor ends with
      whitespace, and it is empty exactly when `s` is blank. */
  lemma TrimCutsWhitespace(s: string)
    ensures var r := Trim(s);
      exists a, b | 0 <= a <= b <= |s| :: r == s[a..b] && Blank(s[..a]) && Blank(s[b..])
    ensures var r := Trim(s);
      r != [] ==> !IsWhitespace(r[0]) && !IsWhitespace(r[|r| - 1])
    ensures Trim(s) == [] <==> Blank(s)
  {
    var t := TrimStart(s);
    var r := TrimEnd(t);
    TrimStartCuts(s);
    TrimEndCuts(t);
    TrimmedInfix(s, t, r);
  }

  /** Where the trimmed text sits in `s`: after the leading whitespace, and
      followed only by whitespace. */
  lemma TrimmedInfix(s: string, t: string, r: string)
    requires |t| <= |s| && t == s[|s| - |t|..]
    requires forall i | 0 <= i < |s| - |t| :: IsWhitespace(s[i])
    requires |r| <= |t| && r == t[..|r|]
    requires forall i | |r| <= i < |t| :: IsWhitespace(t[i])
    ensures 0 <= |s| - |t| <= |s| - |t| + |r| <= |s|
    ensures r == s[|s| - |t|..|s| - |t| + |r|]
    ensures Blank(s[..|s| - |t|]) && Blank(s[|s| - |t| + |r|..])
  {
  }

  /** The ToString of a parsed JSON value throws a TypeError (section 7.1.17 of
      ECMA-262). An object reaches OrdinaryToPrimitive: an own `toString` key
      shadows Object.prototype.toString with a value that cannot be called, and
      the inherited valueOf returns the object itself, so the conversion throws;
      without that key it yields "[object Object]". An array is joined, which
      converts every element that is not null or undefined. */
  predicate ToStringThrows(v: JsValue) {
    match v
    case Object(properties) => "toString" in properties
    case Array(elements) => exists i | 0 <= i < |elements| :: ToStringThrows(elements[i])
    case _ => false
  }
}
