/** Values shared by every component of the monitor: nullable values, exceptions as
    the Kotlin code sees them, the platform helpers the model treats as uninterpreted,
    and the few string operations of the Kotlin standard library the core relies on. */
module Common {

  datatype Option<T> = None | Some(value: T) {
    /** Kotlin's `?:` operator. */
    function GetOr(default: T): T {
      match this
      case Some(v) => v
      case None => default
    }
  }

  /** A thrown exception: its class's simple name and its (nullable) message. */
  datatype Exc = Exc(simpleName: string, message: Option<string>)

  /** A nullable string inside a Kotlin string template: null prints as "null". */
  function Show(s: Option<string>): string {
    s.GetOr("null")
  }

  /** Foreign helpers of the Android/Java platform, passed in as values:
      - dateString: `java.util.Date.toString()` of a time in milliseconds;
      - formatDate: `SimpleDateFormat("yyyy-MM-dd HH:mm:ss").format`;
      - uriHost: `URI(s).host`, None when the constructor throws or the host is null;
      - idnToAscii: `IDN.toASCII`, None when it throws;
      - nullDeref: the NullPointerException a null `Date` argument raises. */
  datatype Platform = Platform(
    dateString: int -> string,
    formatDate: int -> string,
    uriHost: string -> Option<string>,
    idnToAscii: string -> Option<string>,
    nullDeref: Exc)

  /** Kotlin's `Char.isWhitespace()`: Java whitespace plus the Unicode space separators. */
  predicate IsWhitespace(c: char) {
    || ('\t' <= c <= '\r')
    || ('\U{1C}' <= c <= '\U{1F}')
    || c == ' ' || c == '\U{A0}' || c == '\U{1680}'
    || ('\U{2000}' <= c <= '\U{200A}')
    || c == '\U{2028}' || c == '\U{2029}' || c == '\U{202F}' || c == '\U{205F}' || c == '\U{3000}'
  }

  /** Drops the leading whitespace: what remains is a suffix that starts with a non-blank. */
  function TrimStart(s: string): (r: string)
    ensures |r| <= |s| && r == s[|s| - |r|..]
    ensures forall i :: 0 <= i < |s| - |r| ==> IsWhitespace(s[i])
    ensures r != [] ==> !IsWhitespace(r[0])
  {
    if s != [] && IsWhitespace(s[0]) then TrimStart(s[1..]) else s
  }

  /** Drops the trailing whitespace: what remains is a prefix that ends with a non-blank. */
  function TrimEnd(s: string): (r: string)
    ensures |r| <= |s| && r == s[..|r|]
    ensures forall i :: |r| <= i < |s| ==> IsWhitespace(s[i])
    ensures r != [] ==> !IsWhitespace(r[|r| - 1])
  {
    if s != [] && IsWhitespace(s[|s| - 1]) then TrimEnd(s[..|s| - 1]) else s
  }

  /** Kotlin's `String.trim()`. */
  function Trim(s: string): (r: string)
    ensures |r| <= |s|
    ensures r != [] ==> !IsWhitespace(r[0]) && !IsWhitespace(r[|r| - 1])
  {
    TrimEnd(TrimStart(s))
  }

  predicate AllWhitespace(s: string) {
    forall i :: 0 <= i < |s| ==> IsWhitespace(s[i])
  }

  lemma {:induction false} TrimStartPadding(p: string, s: string)
    requires AllWhitespace(p)
    ensures TrimStart(p + s) == TrimStart(s)
  {
    if p != [] {
      assert (p + s)[1..] == p[1..] + s;
      TrimStartPadding(p[1..], s);
    } else {
      assert p + s == s;
    }
  }

  lemma {:induction false} TrimEndPadding(s: string, q: string)
    requires AllWhitespace(q)
    ensures TrimEnd(s + q) == TrimEnd(s)
  {
    if q != [] {
      assert (s + q)[..|s + q| - 1] == s + q[..|q| - 1];
      TrimEndPadding(s, q[..|q| - 1]);
    } else {
      assert s + q == s;
    }
  }

  lemma TrimStartOfPadded(s: string, q: string)
    requires AllWhitespace(q)
    ensures TrimStart(s + q) == TrimStart(s) + q || (TrimStart(s) == [] && TrimStart(s + q) == [])
  {
    if s != [] && IsWhitespace(s[0]) {
      assert (s + q)[1..] == s[1..] + q;
      TrimStartOfPadded(s[1..], q);
    } else if s == [] {
      assert s + q == q;
      TrimStartPadding(q, []);
      assert q + [] == q;
    } else {
      assert (s + q)[0] == s[0];
    }
  }

  /** Whitespace around a value does not change what `trim()` makes of it. */
  lemma TrimIgnoresPadding(p: string, s: string, q: string)
    requires AllWhitespace(p) && AllWhitespace(q)
    ensures Trim(p + s + q) == Trim(s)
  {
    assert p + s + q == p + (s + q);
    TrimStartPadding(p, s + q);
    assert TrimStart(p + s + q) == TrimStart(s + q);
    var front := TrimStart(s);
    TrimStartOfPadded(s, q);
    if TrimStart(s + q) == front + q {
      TrimEndPadding(front, q);
      assert TrimEnd(front + q) == TrimEnd(front);
    } else {
      assert front == [] && TrimStart(s + q) == [];
    }
  }

  /** Trimming twice is trimming once. */
  lemma TrimIdempotent(s: string)
    ensures Trim(Trim(s)) == Trim(s)
  {
    var r := Trim(s);
    assert TrimStart(r) == r;
    assert TrimEnd(r) == r;
  }

  predicate StartsWith(s: string, prefix: string) {
    |prefix| <= |s| && s[..|prefix|] == prefix
  }

  predicate EndsWith(s: string, suffix: string) {
    |suffix| <= |s| && s[|s| - |suffix|..] == suffix
  }

  /** ASCII case folding, enough for the ASCII suffixes the monitor compares against. */
  function LowerAscii(c: char): char {
    if 'A' <= c <= 'Z' then (c as int + 32) as char else c
  }

  predicate EqualsIgnoreCase(a: string, b: string) {
    |a| == |b| && forall i :: 0 <= i < |a| ==> LowerAscii(a[i]) == LowerAscii(b[i])
  }

  /** `s.endsWith(suffix, ignoreCase = true)` for an ASCII suffix. */
  predicate EndsWithIgnoreCase(s: string, suffix: string) {
    |suffix| <= |s| && EqualsIgnoreCase(s[|s| - |suffix|..], suffix)
  }

  /** `s.contains(sub)`. */
  predicate Contains(s: string, sub: string)
    decreases |s|
  {
    StartsWith(s, sub) || (s != [] && Contains(s[1..], sub))
  }

  /** `joinToString(sep)`. */
  function Join(parts: seq<string>, sep: string): string {
    if |parts| == 0 then ""
    else if |parts| == 1 then parts[0]
    else parts[0] + sep + Join(parts[1..], sep)
  }

  function DigitChar(d: int): char
    requires 0 <= d < 10
  {
    ('0' as int + d) as char
  }

  /** Decimal text of a natural number, as Kotlin prints an `Int` or a `Long`. */
  function NatToString(n: nat): string
    decreases n
  {
    if n < 10 then [DigitChar(n)] else NatToString(n / 10) + [DigitChar(n % 10)]
  }

  function IntToString(i: int): string {
    if i < 0 then "-" + NatToString(-i) else NatToString(i)
  }

  function BoolToString(b: bool): string {
    if b then "true" else "false"
  }
}
