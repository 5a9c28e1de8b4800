/**
 * The parts of java.lang.String the gateway relies on: trim, isBlank,
 * toUpperCase(Locale.ROOT) on ASCII letters, and the digit class [0-9].
 */
module JavaText {

  /** A character String.trim removes from either end: any code point at or below U+0020. */
  predicate IsTrimmable(c: char) {
    c <= ' '
  }

  predicate AllTrimmable(s: string) {
    forall i :: 0 <= i < |s| ==> IsTrimmable(s[i])
  }

  /** Neither end of s is a trimmable character (vacuously true of the empty string). */
  predicate HasSolidEnds(s: string) {
    s == [] || (!IsTrimmable(s[0]) && !IsTrimmable(s[|s| - 1]))
  }

  /** How many trimmable characters s starts with. */
  function LeadingTrimmable(s: string): (n: nat)
    ensures n <= |s|
    ensures n < |s| ==> !IsTrimmable(s[n])
  {
    if s != [] && IsTrimmable(s[0]) then 1 + LeadingTrimmable(s[1..]) else 0
  }

  /** Every character LeadingTrimmable counts is trimmable. */
  lemma {:induction false} LeadingAreTrimmable(s: string)
    ensures forall i :: 0 <= i < LeadingTrimmable(s) ==> IsTrimmable(s[i])
  {
    if s != [] && IsTrimmable(s[0]) {
      LeadingAreTrimmable(s[1..]);
      assert forall i :: 1 <= i < |s| ==> s[i] == s[1..][i - 1];
    }
  }

  /** How many trimmable characters s ends with. */
  function TrailingTrimmable(s: string): (n: nat)
    ensures n <= |s|
    ensures n < |s| ==> !IsTrimmable(s[|s| - 1 - n])
  {
    if s != [] && IsTrimmable(s[|s| - 1]) then 1 + TrailingTrimmable(s[..|s| - 1]) else 0
  }

  /** Every character TrailingTrimmable counts is trimmable. */
  lemma {:induction false} TrailingAreTrimmable(s: string)
    ensures forall i :: |s| - TrailingTrimmable(s) <= i < |s| ==> IsTrimmable(s[i])
  {
    if s != [] && IsTrimmable(s[|s| - 1]) {
      TrailingAreTrimmable(s[..|s| - 1]);
      assert forall i :: 0 <= i < |s| - 1 ==> s[i] == s[..|s| - 1][i];
    }
  }

  /** Drops the leading trimmable characters. */
  function TrimStart(s: string): string {
    s[LeadingTrimmable(s)..]
  }

  /** Drops the trailing trimmable characters. */
  function TrimEnd(s: string): string {
    s[..|s| - TrailingTrimmable(s)]
  }

  /** String.trim: the string without its leading and trailing trimmable characters. */
  function Trim(s: string): (r: string)
    ensures |r| <= |s|
    ensures HasSolidEnds(r)
  {
    TrimEnd(TrimStart(s))
  }

  /** The trimmed string is the stretch of s that starts after its leading trimmable characters. */
  lemma TrimIsInfix(s: string)
    ensures LeadingTrimmable(s) + |Trim(s)| <= |s|
    ensures forall i :: 0 <= i < |Trim(s)| ==> Trim(s)[i] == s[LeadingTrimmable(s) + i]
  {
  }

  /** Trimming leaves nothing exactly when every character is trimmable. */
  lemma TrimEmptyIffAllTrimmable(s: string)
    ensures Trim(s) == [] <==> AllTrimmable(s)
  {
    LeadingAreTrimmable(s);
    if LeadingTrimmable(s) < |s| {
      TrailingAreTrimmable(TrimStart(s));
      assert TrimStart(s)[0] == s[LeadingTrimmable(s)];
    }
  }

  lemma {:induction false} LeadingOfPadded(p: string, t: string)
    requires AllTrimmable(p)
    requires t == [] || !IsTrimmable(t[0])
    ensures LeadingTrimmable(p + t) == |p|
    decreases |p|
  {
    if p != [] {
      assert (p + t)[1..] == p[1..] + t;
      LeadingOfPadded(p[1..], t);
    } else {
      assert p + t == t;
    }
  }

  lemma {:induction false} TrailingOfPadded(t: string, q: string)
    requires AllTrimmable(q)
    requires t == [] || !IsTrimmable(t[|t| - 1])
    ensures TrailingTrimmable(t + q) == |q|
    decreases |q|
  {
    if q != [] {
      assert (t + q)[..|t + q| - 1] == t + q[..|q| - 1];
      TrailingOfPadded(t, q[..|q| - 1]);
    } else {
      assert t + q == t;
    }
  }

  /**
   * Trimming removes exactly the padding: a string with solid ends surrounded
   * by trimmable characters trims back to itself.
   */
  lemma TrimOfPadded(p: string, d: string, q: string)
    requires AllTrimmable(p) && AllTrimmable(q)
    requires HasSolidEnds(d)
    ensures Trim(p + d + q) == d
  {
    if d == [] {
      assert p + d + q == p + q;
      assert AllTrimmable(p + q);
      TrimEmptyIffAllTrimmable(p + q);
    } else {
      var s := p + d + q;
      assert s == p + (d + q);
      LeadingOfPadded(p, d + q);
      assert TrimStart(s) == d + q;
      TrailingOfPadded(d, q);
      assert TrimEnd(d + q) == d;
    }
  }

  /** String.trim is idempotent. */
  lemma TrimIdempotent(s: string)
    ensures Trim(Trim(s)) == Trim(s)
  {
    TrimOfSolid(Trim(s));
  }

  /** A string with solid ends trims to itself. */
  lemma TrimOfSolid(t: string)
    requires HasSolidEnds(t)
    ensures Trim(t) == t
  {
    assert LeadingTrimmable(t) == 0;
    assert TrimStart(t) == t;
    assert TrailingTrimmable(t) == 0;
  }

  /** Character.isWhitespace: the Unicode separators other than no-break spaces, plus the ASCII controls it names. */
  predicate IsJavaWhitespace(c: char) {
    || c == ' '
    || ('\t' <= c <= '\r')
    || ('\U{1C}' <= c <= '\U{1F}')
    || c == '\U{1680}'
    || ('\U{2000}' <= c <= '\U{2006}')
    || ('\U{2008}' <= c <= '\U{200A}')
    || c == '\U{2028}' || c == '\U{2029}' || c == '\U{205F}' || c == '\U{3000}'
  }

  /** String.isBlank: empty, or whitespace only, read one character at a time. */
  predicate IsBlank(s: string)
    ensures IsBlank(s) <==> forall i :: 0 <= i < |s| ==> IsJavaWhitespace(s[i])
  {
    assert forall i :: 1 <= i < |s| ==> s[i] == s[1..][i - 1];
    s == [] || (IsJavaWhitespace(s[0]) && IsBlank(s[1..]))
  }

  /** Trimming a blank string leaves a blank string. */
  lemma BlankTrimsToBlank(s: string)
    ensures IsBlank(s) ==> IsBlank(Trim(s))
  {
    if IsBlank(s) {
      TrimIsInfix(s);
    }
  }

  /** toUpperCase(Locale.ROOT) on one character, for the ASCII letters. */
  function UpperChar(c: char): char {
    if 'a' <= c <= 'z' then (c as int - 32) as char else c
  }

  function Upper(s: string): (r: string)
    ensures |r| == |s|
    ensures forall i :: 0 <= i < |s| ==> r[i] == UpperChar(s[i])
  {
    seq(|s|, i requires 0 <= i < |s| => UpperChar(s[i]))
  }

  /** Upper-casing twice changes nothing more. */
  lemma UpperIdempotent(s: string)
    ensures Upper(Upper(s)) == Upper(s)
  {
    assert forall i :: 0 <= i < |s| ==> UpperChar(UpperChar(s[i])) == UpperChar(s[i]);
  }

  /** Upper-casing neither creates nor removes whitespace or trimmable characters. */
  lemma UpperKeepsSpacing(c: char)
    ensures IsJavaWhitespace(UpperChar(c)) <==> IsJavaWhitespace(c)
    ensures IsTrimmable(UpperChar(c)) <==> IsTrimmable(c)
  {
  }

  predicate IsDigit(c: char) {
    '0' <= c <= '9'
  }

  /** The regular expression [0-9]* matches s. */
  predicate AllDigits(s: string) {
    forall i :: 0 <= i < |s| ==> IsDigit(s[i])
  }
}
