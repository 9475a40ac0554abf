/** String helpers that mirror the pandas `.str` operations the pipeline uses:
    `lower`, `upper`, `strip`, `replace(" ", "_")` and `split(c)[0]`.
    Case mapping covers ASCII letters only. */
module Strings {

  /** The characters Python's `str.isspace()` accepts, which `str.strip()`
      removes: the ASCII controls 9-13 and 28-31, the space, and the Unicode
      separators. */
  predicate IsSpace(c: char) {
    || '\t' <= c <= '\r'
    || '\U{1C}' <= c <= '\U{1F}'
    || c == ' ' || c == '\U{85}' || c == '\U{A0}' || c == '\U{1680}'
    || '\U{2000}' <= c <= '\U{200A}'
    || c == '\U{2028}' || c == '\U{2029}' || c == '\U{202F}' || c == '\U{205F}' || c == '\U{3000}'
  }

  predicate IsUpperLetter(c: char) { 'A' <= c <= 'Z' }

  predicate IsLowerLetter(c: char) { 'a' <= c <= 'z' }

  function LowerChar(c: char): (r: char)
    ensures !IsUpperLetter(r)
    ensures IsSpace(r) <==> IsSpace(c)
    ensures !IsUpperLetter(c) ==> r == c
    ensures r == ' ' <==> c == ' '
  {
    if IsUpperLetter(c) then (c as int + 32) as char else c
  }

  function UpperChar(c: char): (r: char)
    ensures !IsLowerLetter(r)
    ensures IsSpace(r) <==> IsSpace(c)
    ensures !IsLowerLetter(c) ==> r == c
  {
    if IsLowerLetter(c) then (c as int - 32) as char else c
  }

  function Lower(s: string): (r: string)
    ensures |r| == |s|
    ensures forall i :: 0 <= i < |s| ==> r[i] == LowerChar(s[i])
  {
    seq(|s|, i requires 0 <= i < |s| => LowerChar(s[i]))
  }

  function Upper(s: string): (r: string)
    ensures |r| == |s|
    ensures forall i :: 0 <= i < |s| ==> r[i] == UpperChar(s[i])
  {
    seq(|s|, i requires 0 <= i < |s| => UpperChar(s[i]))
  }

  /** `s.replace(a, b)` for single characters. */
  function ReplaceChar(s: string, a: char, b: char): (r: string)
    ensures |r| == |s|
    ensures forall i :: 0 <= i < |s| ==> r[i] == if s[i] == a then b else s[i]
  {
    seq(|s|, i requires 0 <= i < |s| => if s[i] == a then b else s[i])
  }

  /** Number of whitespace characters at the front of `s`. */
  function LeadingSpaces(s: string): (k: nat)
    ensures k <= |s|
    ensures forall i :: 0 <= i < k ==> IsSpace(s[i])
    ensures k < |s| ==> !IsSpace(s[k])
  {
    if |s| > 0 && IsSpace(s[0]) then 1 + LeadingSpaces(s[1..]) else 0
  }

  /** Number of whitespace characters at the back of `s`. */
  function TrailingSpaces(s: string): (k: nat)
    ensures k <= |s|
    ensures forall i :: |s| - k <= i < |s| ==> IsSpace(s[i])
    ensures k < |s| ==> !IsSpace(s[|s| - 1 - k])
  {
    if |s| > 0 && IsSpace(s[|s| - 1]) then 1 + TrailingSpaces(s[..|s| - 1]) else 0
  }

  /** Python's `str.strip()`: drop leading and trailing whitespace. */
  function Strip(s: string): (r: string)
    ensures LeadingSpaces(s) + |r| <= |s|
    ensures |r| > 0 ==> !IsSpace(r[0]) && !IsSpace(r[|r| - 1])
    ensures forall i :: 0 <= i < |r| ==> r[i] == s[LeadingSpaces(s) + i]
    ensures (forall i :: 0 <= i < |s| ==> IsSpace(s[i])) ==> r == []
    ensures forall i :: LeadingSpaces(s) + |r| <= i < |s| ==> IsSpace(s[i])
  {
    var t := s[LeadingSpaces(s)..];
    assert forall j :: 0 <= j < |t| ==> t[j] == s[LeadingSpaces(s) + j];
    t[..|t| - TrailingSpaces(t)]
  }

  /** Two strings of the same length with whitespace in the same places
      have the same number of leading whitespace characters. */
  lemma {:induction false} LeadingSame(t: string, u: string)
    requires |t| == |u|
    requires forall i :: 0 <= i < |t| ==> (IsSpace(t[i]) <==> IsSpace(u[i]))
    ensures LeadingSpaces(t) == LeadingSpaces(u)
  {
    if |t| > 0 && IsSpace(t[0]) {
      LeadingSame(t[1..], u[1..]);
    }
  }

  /** The same for trailing whitespace. */
  lemma {:induction false} TrailingSame(t: string, u: string)
    requires |t| == |u|
    requires forall i :: 0 <= i < |t| ==> (IsSpace(t[i]) <==> IsSpace(u[i]))
    ensures TrailingSpaces(t) == TrailingSpaces(u)
  {
    if |t| > 0 && IsSpace(t[|t| - 1]) {
      TrailingSame(t[..|t| - 1], u[..|u| - 1]);
    }
  }

  /** Stripping two such strings cuts the same positions from both. */
  lemma StripSame(t: string, u: string)
    requires |t| == |u|
    requires forall i :: 0 <= i < |t| ==> (IsSpace(t[i]) <==> IsSpace(u[i]))
    ensures |Strip(u)| == |Strip(t)|
    ensures forall i :: 0 <= i < |Strip(t)| ==> Strip(u)[i] == u[LeadingSpaces(t) + i]
  {
    LeadingSame(t, u);
    var k := LeadingSpaces(t);
    TrailingSame(t[k..], u[k..]);
  }

  /** The text before the first `c`, i.e. Python's `s.split(c)[0]`. */
  function Before(s: string, c: char): (r: string)
    ensures c !in r
    ensures r <= s
    ensures c in s ==> |r| < |s| && s[|r|] == c
    ensures c !in s ==> r == s
  {
    if s == [] then []
    else if s[0] == c then []
    else [s[0]] + Before(s[1..], c)
  }

  lemma {:induction false} StripFixed(s: string)
    requires |s| > 0 ==> !IsSpace(s[0]) && !IsSpace(s[|s| - 1])
    ensures Strip(s) == s
  {
    assert LeadingSpaces(s) == 0;
    assert s[0..] == s;
    assert TrailingSpaces(s) == 0;
  }

  lemma LowerFixed(s: string)
    requires forall i :: 0 <= i < |s| ==> !IsUpperLetter(s[i])
    ensures Lower(s) == s
  {
  }

  lemma UpperFixed(s: string)
    requires forall i :: 0 <= i < |s| ==> !IsLowerLetter(s[i])
    ensures Upper(s) == s
  {
  }

  lemma ReplaceFixed(s: string, a: char, b: char)
    requires a !in s
    ensures ReplaceChar(s, a, b) == s
  {
  }

  /** Lower-casing commutes with stripping. */
  lemma StripLower(s: string)
    ensures |Strip(Lower(s))| == |Strip(s)|
    ensures forall i :: 0 <= i < |Strip(s)| ==> Strip(Lower(s))[i] == LowerChar(Strip(s)[i])
  {
    StripSame(s, Lower(s));
  }

  /** Upper-casing commutes with stripping. */
  lemma StripUpper(s: string)
    ensures |Strip(Upper(s))| == |Strip(s)|
    ensures forall i :: 0 <= i < |Strip(s)| ==> Strip(Upper(s))[i] == UpperChar(Strip(s)[i])
  {
    StripSame(s, Upper(s));
  }

  /** Column-name normalisation of both transformers:
      `.str.lower().str.strip().str.replace(" ", "_")`. */
  function NormalizeColumnName(name: string): (r: string)
    ensures ' ' !in r
    ensures forall i :: 0 <= i < |r| ==> !IsUpperLetter(r[i])
    ensures |r| > 0 ==> !IsSpace(r[0]) && !IsSpace(r[|r| - 1])
    ensures |r| <= |name|
    ensures |r| == |Strip(name)|
    ensures forall i :: 0 <= i < |r| ==>
              r[i] == if Strip(name)[i] == ' ' then '_' else LowerChar(Strip(name)[i])
  {
    NormalizedShape(name);
    NormalizedChars(name);
    ReplaceChar(Strip(Lower(name)), ' ', '_')
  }

  /** The normal form has no spaces, no upper-case letters and no
      surrounding whitespace, and is no longer than the name. */
  lemma NormalizedShape(name: string)
    ensures var r := ReplaceChar(Strip(Lower(name)), ' ', '_');
            && ' ' !in r
            && (forall i :: 0 <= i < |r| ==> !IsUpperLetter(r[i]))
            && (|r| > 0 ==> !IsSpace(r[0]) && !IsSpace(r[|r| - 1]))
            && |r| <= |name|
  {
  }

  /** The normal form is the stripped name, lower-cased, with spaces
      turned into underscores. */
  lemma NormalizedChars(name: string)
    ensures var r := ReplaceChar(Strip(Lower(name)), ' ', '_');
            && |r| == |Strip(name)|
            && forall i :: 0 <= i < |r| ==>
                 r[i] == if Strip(name)[i] == ' ' then '_' else LowerChar(Strip(name)[i])
  {
    StripLower(name);
  }

  /** Normalising a name twice gives the same name as normalising it once,
      so the transformers accept their own output's column names unchanged. */
  lemma {:induction false} NormalizeIdempotent(name: string)
    ensures NormalizeColumnName(NormalizeColumnName(name)) == NormalizeColumnName(name)
  {
    var r := NormalizeColumnName(name);
    LowerFixed(r);
    StripFixed(r);
    ReplaceFixed(r, ' ', '_');
  }

  /** The cleaning applied to borough values: `.str.upper().str.strip()`. */
  function CleanUpper(s: string): (r: string)
    ensures forall i :: 0 <= i < |r| ==> !IsLowerLetter(r[i])
    ensures |r| > 0 ==> !IsSpace(r[0]) && !IsSpace(r[|r| - 1])
    ensures |r| == |Strip(s)|
    ensures forall i :: 0 <= i < |r| ==> r[i] == UpperChar(Strip(s)[i])
  {
    StripUpper(s);
    Strip(Upper(s))
  }

  /** Cleaning a borough value twice is the same as cleaning it once. */
  lemma {:induction false} CleanUpperIdempotent(s: string)
    ensures CleanUpper(CleanUpper(s)) == CleanUpper(s)
  {
    var r := CleanUpper(s);
    assert Upper(r) == r;
    StripFixed(r);
  }
}
