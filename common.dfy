/** Shared value types and the Java string operations the backend services rely on. */
module Common {

  /** A Java reference that may be null, or a JavaScript value that may be undefined. */
  datatype Option<+T> = None | Some(value: T)

  /** The outcome of a service call: a value, or the exception it throws. */
  datatype Result<+T, +E> = Ok(value: T) | Err(error: E)

  /** Entity identifiers (UUIDs). The all-zero UUID is `NilUuid`. */
  type Uuid = nat

  const NilUuid: Uuid := 0

  /** A wall-clock instant (LocalDateTime.now()), supplied by the caller. */
  type Timestamp = nat

  /** Java's Character.isWhitespace: ASCII separators and the Unicode space,
      line and paragraph separators except the non-breaking ones. */
  predicate IsJavaWhitespace(c: char)
  {
    || c == ' '
    || ('\t' <= c <= '\r')
    || ('\U{1C}' <= c <= '\U{1F}')
    || c == '\U{1680}'
    || ('\U{2000}' <= c <= '\U{2006}')
    || ('\U{2008}' <= c <= '\U{200A}')
    || c == '\U{2028}' || c == '\U{2029}' || c == '\U{205F}' || c == '\U{3000}'
  }

  /** Java's String.isBlank: empty, or whitespace only. */
  predicate IsBlank(s: string)
  {
    forall i :: 0 <= i < |s| ==> IsJavaWhitespace(s[i])
  }

  /** `s == null || s.isBlank()` */
  predicate IsNullOrBlank(s: Option<string>)
  {
    s.None? || IsBlank(s.value)
  }

  /** The characters Java's String.trim removes: every code point up to U+0020. */
  predicate IsTrimmable(c: char)
  {
    c <= ' '
  }

  /** Number of trimmable characters at the start of `s`. */
  function LeadingTrimmable(s: string): (n: nat)
    ensures n <= |s|
  {
    if s == [] || !IsTrimmable(s[0]) then 0 else 1 + LeadingTrimmable(s[1..])
  }

  /** The leading count covers exactly the run of trimmable characters at the start. */
  lemma {:induction false} LeadingTrimmableSpan(s: string)
    ensures var n := LeadingTrimmable(s);
      && (forall k :: 0 <= k < n ==> IsTrimmable(s[k]))
      && (n < |s| ==> !IsTrimmable(s[n]))
    decreases |s|
  {
    if s != [] && IsTrimmable(s[0]) {
      LeadingTrimmableSpan(s[1..]);
      assert forall k :: 1 <= k < |s| ==> s[k] == s[1..][k - 1];
    }
  }

  /** Number of trimmable characters at the end of `s`. */
  function TrailingTrimmable(s: string): (n: nat)
    ensures n <= |s|
  {
    if s == [] || !IsTrimmable(s[|s| - 1]) then 0 else 1 + TrailingTrimmable(s[..|s| - 1])
  }

  /** The trailing count covers exactly the run of trimmable characters at the end. */
  lemma {:induction false} TrailingTrimmableSpan(s: string)
    ensures var n := TrailingTrimmable(s);
      && (forall k :: |s| - n <= k < |s| ==> IsTrimmable(s[k]))
      && (n < |s| ==> !IsTrimmable(s[|s| - 1 - n]))
    decreases |s|
  {
    if s != [] && IsTrimmable(s[|s| - 1]) {
      TrailingTrimmableSpan(s[..|s| - 1]);
    }
  }

  /** Java's String.trim. */
  function Trim(s: string): string
  {
    var t := s[LeadingTrimmable(s)..];
    t[..|t| - TrailingTrimmable(t)]
  }

  /** Trimming shortens, gives the empty string exactly for an all-trimmable input,
      and otherwise leaves a string that starts and ends with a kept character. */
  lemma TrimProperties(s: string)
    ensures var r := Trim(s);
      && |r| <= |s|
      && (r == [] <==> forall k :: 0 <= k < |s| ==> IsTrimmable(s[k]))
      && (r != [] ==> !IsTrimmable(r[0]) && !IsTrimmable(r[|r| - 1]))
  {
    var i := LeadingTrimmable(s);
    var t := s[i..];
    var n := TrailingTrimmable(t);
    var r := t[..|t| - n];
    assert r == Trim(s);
    LeadingTrimmableSpan(s);
    TrailingTrimmableSpan(t);
    if i < |s| {
      assert t[0] == s[i];
      assert r[0] == s[i];
      assert r[|r| - 1] == t[|t| - 1 - n];
    }
  }

  /** Trimming twice is trimming once. */
  lemma TrimIdempotent(s: string)
    ensures Trim(Trim(s)) == Trim(s)
  {
    var r := Trim(s);
    TrimProperties(s);
    if r != [] {
      assert LeadingTrimmable(r) == 0;
      assert TrailingTrimmable(r) == 0;
    }
  }

  predicate StartsWith(s: string, prefix: string)
  {
    |prefix| <= |s| && s[..|prefix|] == prefix
  }

  predicate EndsWith(s: string, suffix: string)
  {
    |suffix| <= |s| && s[|s| - |suffix|..] == suffix
  }

  predicate IsAsciiUpper(c: char)
  {
    'A' <= c <= 'Z'
  }

  /** String.toLowerCase restricted to the ASCII letters. */
  function ToLowerAscii(s: string): (r: string)
    ensures |r| == |s|
  {
    if s == [] then []
    else [LowerAscii(s[0])] + ToLowerAscii(s[1..])
  }

  function LowerAscii(c: char): char
  {
    if IsAsciiUpper(c) then (c - 'A' + 'a') as char else c
  }

  /** Lower-casing works character by character. */
  lemma {:induction false} ToLowerAsciiChars(s: string)
    ensures forall k :: 0 <= k < |s| ==> ToLowerAscii(s)[k] == LowerAscii(s[k])
    decreases |s|
  {
    if s != [] {
      ToLowerAsciiChars(s[1..]);
      assert forall k :: 1 <= k < |s| ==> ToLowerAscii(s)[k] == ToLowerAscii(s[1..])[k - 1];
    }
  }

  /** Decimal rendering of a natural number, as JavaScript's String(n). */
  function NatToDecimal(n: nat): (r: string)
    ensures |r| >= 1
    ensures forall k :: 0 <= k < |r| ==> '0' <= r[k] <= '9'
  {
    var d := ['0' + (n % 10) as char];
    if n < 10 then d else NatToDecimal(n / 10) + d
  }
}
