/**
 * The JavaScript vocabulary the dashboard code relies on: optional values,
 * scalar values with their truthiness and string conversion, and the string
 * operations `split`, `includes`, `trim` and the control-character regex
 * replacement. Numbers are integers in this model.
 */
module Js {

  datatype Option<+T> = None | Some(value: T) {
    /** Returns the value in Some, or `default` for None (the `??` operator). */
    function GetOr(default: T): T {
      match this
      case Some(v) => v
      case None => default
    }
  }

  /** A scalar JavaScript value: what a query field or a JSON field may hold. */
  datatype JsValue = Undefined | Null | Bool(b: bool) | Num(n: int) | Str(s: string)

  /** `value === undefined || value === null` */
  predicate Nullish(v: JsValue) {
    v.Undefined? || v.Null?
  }

  /** JavaScript's `Boolean(v)`: false, 0, '' , null and undefined are falsy. */
  predicate Truthy(v: JsValue) {
    match v
    case Undefined => false
    case Null => false
    case Bool(b) => b
    case Num(n) => n != 0
    case Str(s) => s != ""
  }

  /** Truthiness of a `string | null` value such as an access token. */
  predicate Present(s: Option<string>) {
    s.Some? && s.value != ""
  }

  predicate IsDigit(c: char) {
    '0' <= c <= '9'
  }

  /** Decimal representation of a natural number, without leading zeros. */
  function NatToString(n: nat): (r: string)
    ensures |r| >= 1
    ensures forall i | 0 <= i < |r| :: IsDigit(r[i])
    ensures n > 0 ==> r[0] != '0'
    decreases n
  {
    var d := ['0' + (n % 10) as char];
    if n < 10 then d else NatToString(n / 10) + d
  }

  /** JavaScript's `String(v)` on a scalar value. */
  function ToJsString(v: JsValue): string {
    match v
    case Undefined => "undefined"
    case Null => "null"
    case Bool(b) => if b then "true" else "false"
    case Num(n) => if n < 0 then "-" + NatToString(-n) else NatToString(n)
    case Str(s) => s
  }

  /** `s.includes(sub)` */
  predicate Contains(s: string, sub: string)
    decreases |s|
  {
    sub <= s || (|s| > 0 && Contains(s[1..], sub))
  }

  /** Position of the first occurrence of `c` in `s`. */
  function IndexOf(s: string, c: char): (i: nat)
    requires c in s
    ensures i < |s| && s[i] == c && c !in s[..i]
  {
    if s[0] == c then 0 else 1 + IndexOf(s[1..], c)
  }

  /** `s.split(sep)` for a one-character separator: never empty. */
  function Split(s: string, sep: char): (pieces: seq<string>)
    ensures |pieces| >= 1
    ensures forall k | 0 <= k < |pieces| :: sep !in pieces[k]
    ensures sep !in s ==> pieces == [s]
    ensures sep in s ==> |pieces| >= 2 && pieces[0] == s[..IndexOf(s, sep)]
    decreases |s|
  {
    if sep !in s then [s]
    else
      var i := IndexOf(s, sep);
      [s[..i]] + Split(s[i + 1..], sep)
  }

  /** `pieces.join(sep)` */
  function Join(pieces: seq<string>, sep: char): string
    requires |pieces| >= 1
  {
    if |pieces| == 1 then pieces[0] else pieces[0] + [sep] + Join(pieces[1..], sep)
  }

  /** Splitting and joining with the same separator gives the text back. */
  lemma {:induction false} SplitJoin(s: string, sep: char)
    ensures Join(Split(s, sep), sep) == s
    decreases |s|
  {
    if sep in s {
      var i := IndexOf(s, sep);
      var pieces := Split(s, sep);
      SplitJoin(s[i + 1..], sep);
      assert pieces[1..] == Split(s[i + 1..], sep);
      assert Join(pieces, sep) == s[..i] + [sep] + Join(pieces[1..], sep);
      assert s == s[..i] + [sep] + s[i + 1..];
    }
  }

  /** The string held in an Option, or the empty string. */
  function OrEmpty(s: Option<string>): string {
    if s.Some? then s.value else ""
  }

  /** The `i`-th piece of a split, when the split has one: array destructuring. */
  function PieceAt(pieces: seq<string>, i: nat): Option<string> {
    if i < |pieces| then Some(pieces[i]) else None
  }

  /**
   * The characters `String.prototype.trim` removes: the WhiteSpace and
   * LineTerminator productions of ECMAScript (tab, line tabulation, form
   * feed, no-break space, byte order mark, the space separators of Unicode
   * category Zs, line feed, carriage return, line and paragraph separators).
   */
  predicate IsTrimmable(c: char) {
    c == '\t' || c == '\n' || c == '\U{000B}' || c == '\U{000C}' || c == '\r' || c == ' '
    || c == '\U{00A0}' || c == '\U{1680}' || ('\U{2000}' <= c <= '\U{200A}')
    || c == '\U{2028}' || c == '\U{2029}' || c == '\U{202F}' || c == '\U{205F}'
    || c == '\U{3000}' || c == '\U{FEFF}'
  }

  /** Number of trimmable characters at the start of `s`. */
  function LeadingTrimmable(s: string): (n: nat)
    ensures n <= |s|
    ensures forall i | 0 <= i < n :: IsTrimmable(s[i])
    ensures n < |s| ==> !IsTrimmable(s[n])
  {
    if |s| == 0 || !IsTrimmable(s[0]) then 0 else 1 + LeadingTrimmable(s[1..])
  }

  /** Number of trimmable characters at the end of `s`. */
  function TrailingTrimmable(s: string): (n: nat)
    ensures n <= |s|
    ensures forall i | |s| - n <= i < |s| :: IsTrimmable(s[i])
    ensures n < |s| ==> !IsTrimmable(s[|s| - n - 1])
  {
    if |s| == 0 || !IsTrimmable(s[|s| - 1]) then 0 else 1 + TrailingTrimmable(s[..|s| - 1])
  }

  /** `s.trim()` */
  function Trim(s: string): string {
    var a := LeadingTrimmable(s);
    var rest := s[a..];
    rest[..|rest| - TrailingTrimmable(rest)]
  }

  /**
   * Trim removes exactly the trimmable characters at both ends: the result is
   * the slice of `s` between two all-trimmable margins, and it neither starts
   * nor ends with a trimmable character.
   */
  lemma TrimSpec(s: string)
    ensures var t := Trim(s);
      && (exists i, j | 0 <= i <= j <= |s| ::
            && t == s[i..j]
            && (forall k | 0 <= k < i :: IsTrimmable(s[k]))
            && (forall k | j <= k < |s| :: IsTrimmable(s[k])))
      && (t != [] ==> !IsTrimmable(t[0]) && !IsTrimmable(t[|t| - 1]))
  {
    var a := LeadingTrimmable(s);
    var rest := s[a..];
    var b := TrailingTrimmable(rest);
    var t := Trim(s);
    assert t == s[a..|s| - b];
    forall k | |s| - b <= k < |s| ensures IsTrimmable(s[k]) {
      assert s[k] == rest[k - a];
    }
    if t != [] {
      assert t[0] == rest[0];
    }
  }

  /** Every character of the trimmed text is a character of the original. */
  lemma TrimSubset(s: string, c: char)
    requires c in Trim(s)
    ensures c in s
  {
    var a := LeadingTrimmable(s);
    var rest := s[a..];
    var k :| 0 <= k < |Trim(s)| && Trim(s)[k] == c;
    assert rest[k] == c;
    assert s[a + k] == c;
  }

  /** Trimming twice is trimming once. */
  lemma TrimIdempotent(s: string)
    ensures Trim(Trim(s)) == Trim(s)
  {
    var t := Trim(s);
    TrimSpec(s);
    if t != [] {
      assert LeadingTrimmable(t) == 0;
      assert TrailingTrimmable(t) == 0;
      assert t[0..] == t;
    }
  }

  /** The characters of the regex `/[\u0000-\u001f\u007f]/`. */
  predicate IsControl(c: char) {
    c <= '\U{001F}' || c == '\U{007F}'
  }

  /** `s.replace(/[\u0000-\u001f\u007f]/g, ' ')` */
  function ReplaceControl(s: string): (r: string)
    ensures |r| == |s|
    ensures forall i | 0 <= i < |r| :: !IsControl(r[i])
    ensures forall i | 0 <= i < |s| :: r[i] == (if IsControl(s[i]) then ' ' else s[i])
  {
    if s == [] then [] else [if IsControl(s[0]) then ' ' else s[0]] + ReplaceControl(s[1..])
  }

  /** The sanitising step the project API applies to every text field. */
  function Sanitize(s: string): (r: string)
    ensures forall c | c in r :: !IsControl(c)
    ensures r == Trim(r)
  {
    var t := Trim(ReplaceControl(s));
    forall c | c in t ensures !IsControl(c) {
      TrimSubset(ReplaceControl(s), c);
    }
    TrimIdempotent(ReplaceControl(s));
    t
  }

  /** Text the sanitising step leaves alone: no control character, nothing to trim. */
  predicate IsClean(s: string) {
    (forall c | c in s :: !IsControl(c)) && Trim(s) == s
  }

  /**
   * Sanitising yields clean text, and leaves exactly the clean texts
   * unchanged; in particular sanitising twice is sanitising once.
   */
  lemma SanitizeFixedPoint(s: string)
    ensures IsClean(Sanitize(s))
    ensures Sanitize(s) == s <==> IsClean(s)
    ensures Sanitize(Sanitize(s)) == Sanitize(s)
  {
    if IsClean(s) {
      CleanUnchanged(s);
    }
    CleanUnchanged(Sanitize(s));
  }

  lemma CleanUnchanged(s: string)
    requires IsClean(s)
    ensures Sanitize(s) == s
  {
    var r := ReplaceControl(s);
    forall i | 0 <= i < |s| ensures r[i] == s[i] {
      assert s[i] in s;
    }
    assert r == s;
  }
}
