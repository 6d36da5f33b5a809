/** String helpers shared by every harvester: the `sanitize` blacklist, the parts of Python's
    `str` API the decoders use (`lower`, `strip`, `endswith`, `index`/`split`), decimal
    rendering and parsing of integers (`str(int)`, `int(str)`) and Python's ordering of strings. */
module Text {
  import opened Wrappers

  // ---------------------------------------------------------------------------------------
  // sanitize: re.sub(r"[<(>)\"\'=;-]", "", s)
  // ---------------------------------------------------------------------------------------

  /** The nine characters the context broker refuses in attribute values. */
  predicate Forbidden(c: char) {
    c == '<' || c == '(' || c == '>' || c == ')' || c == '"' || c == '\'' || c == '=' || c == ';' || c == '-'
  }

  predicate Clean(s: string) {
    forall i :: 0 <= i < |s| ==> !Forbidden(s[i])
  }

  /** Deletes every forbidden character and keeps the others in order. */
  function Sanitize(s: string): (r: string)
    ensures Clean(r)
    ensures |r| <= |s|
  {
    if s == [] then []
    else if Forbidden(s[0]) then Sanitize(s[1..])
    else [s[0]] + Sanitize(s[1..])
  }

  /** A string is left alone exactly when it holds no forbidden character. */
  lemma {:induction false} SanitizeFixesExactlyClean(s: string)
    ensures Sanitize(s) == s <==> Clean(s)
  {
    if s != [] {
      SanitizeFixesExactlyClean(s[1..]);
      if Forbidden(s[0]) {
        assert |Sanitize(s)| < |s|;
      } else {
        assert Clean(s) <==> Clean(s[1..]) by {
          if Clean(s[1..]) {
            forall i | 0 <= i < |s| ensures !Forbidden(s[i]) {
              if i > 0 { assert s[i] == s[1..][i - 1]; }
            }
          }
          if Clean(s) {
            forall i | 0 <= i < |s[1..]| ensures !Forbidden(s[1..][i]) {
              assert s[1..][i] == s[i + 1];
            }
          }
        }
      }
    }
  }

  /** Sanitizing works character by character: it distributes over concatenation. */
  lemma {:induction false} SanitizeConcat(a: string, b: string)
    ensures Sanitize(a + b) == Sanitize(a) + Sanitize(b)
  {
    if a != [] {
      assert (a + b)[0] == a[0];
      assert (a + b)[1..] == a[1..] + b;
      SanitizeConcat(a[1..], b);
    } else {
      assert a + b == b;
    }
  }

  /** A single character is dropped if and only if it is forbidden. */
  lemma SanitizeChar(c: char)
    ensures Sanitize([c]) == if Forbidden(c) then [] else [c]
  {
    assert [c][1..] == [];
  }

  /** Sanitizing twice is the same as sanitizing once. */
  lemma {:induction false} SanitizeIdempotent(s: string)
    ensures Sanitize(Sanitize(s)) == Sanitize(s)
  {
    SanitizeFixesExactlyClean(Sanitize(s));
  }

  // ---------------------------------------------------------------------------------------
  // str.lower, str.strip, str.endswith, str.find
  // ---------------------------------------------------------------------------------------

  /** Lower-casing of the Latin-1 letters (ASCII A-Z and U+00C0..U+00DE except U+00D7). */
  function LowerChar(c: char): char {
    if 'A' <= c <= 'Z' || ('\U{C0}' <= c <= '\U{DE}' && c != '\U{D7}') then (c as int + 32) as char
    else c
  }

  function Lower(s: string): (r: string)
    ensures |r| == |s|
    ensures forall i :: 0 <= i < |s| ==> r[i] == LowerChar(s[i])
  {
    seq(|s|, i requires 0 <= i < |s| => LowerChar(s[i]))
  }

  /** Lower-casing a piece of a lower-cased string changes nothing. */
  lemma LowerOfLoweredSlice(s: string, lo: nat, hi: nat)
    requires lo <= hi <= |s|
    ensures Lower(Lower(s)[lo..hi]) == Lower(s)[lo..hi]
  {
    var t := Lower(s)[lo..hi];
    forall j | 0 <= j < |t| ensures Lower(t)[j] == t[j] {
      assert t[j] == LowerChar(s[lo + j]);
    }
  }

  /** The characters `str.strip()` removes (ASCII and Latin-1 white space). */
  predicate IsSpace(c: char) {
    c == ' ' || '\t' <= c <= '\r' || '\U{1C}' <= c <= '\U{1F}' || c == '\U{85}' || c == '\U{A0}'
  }

  /** `lstrip()`: the longest white-space prefix removed. */
  function TrimStart(s: string): (r: string)
    ensures |r| <= |s| && r == s[|s| - |r|..]
    ensures forall i :: 0 <= i < |s| - |r| ==> IsSpace(s[i])
    ensures r == [] || !IsSpace(r[0])
  {
    if s != [] && IsSpace(s[0]) then TrimStart(s[1..]) else s
  }

  /** `rstrip()`: the longest white-space suffix removed. */
  function TrimEnd(s: string): (r: string)
    ensures |r| <= |s| && r == s[..|r|]
    ensures forall i :: |r| <= i < |s| ==> IsSpace(s[i])
    ensures r == [] || !IsSpace(r[|r| - 1])
  {
    if s != [] && IsSpace(s[|s| - 1]) then TrimEnd(s[..|s| - 1]) else s
  }

  function Strip(s: string): string {
    TrimEnd(TrimStart(s))
  }

  /** What `strip` returns is a contiguous piece of its argument. */
  lemma StripIsSlice(s: string) returns (lo: nat, hi: nat)
    ensures lo <= hi <= |s| && Strip(s) == s[lo..hi]
  {
    var t := TrimStart(s);
    lo := |s| - |t|;
    hi := lo + |TrimEnd(t)|;
    assert t == s[lo..];
  }

  /** Stripping the first i characters of a string gives a piece of those characters. */
  lemma StripPrefixIsSlice(s: string, i: nat) returns (lo: nat, hi: nat)
    requires i <= |s|
    ensures lo <= hi <= i && Strip(s[..i]) == s[lo..hi]
  {
    var piece := s[..i];
    lo, hi := StripIsSlice(piece);
    assert piece[lo..hi] == s[lo..hi];
  }

  predicate EndsWith(s: string, suffix: string) {
    |suffix| <= |s| && s[|s| - |suffix|..] == suffix
  }

  predicate OccursAt(s: string, pat: string, i: int) {
    0 <= i && i + |pat| <= |s| && s[i..i + |pat|] == pat
  }

  /** `s.find(pat, k)`: the first position at or after k where pat occurs, or -1. */
  function FindFrom(s: string, pat: string, k: nat): (r: int)
    requires k <= |s|
    ensures r == -1 || (k <= r && OccursAt(s, pat, r))
    ensures r == -1 ==> forall j :: k <= j ==> !OccursAt(s, pat, j)
    ensures r >= 0 ==> forall j :: k <= j < r ==> !OccursAt(s, pat, j)
    decreases |s| - k
  {
    if OccursAt(s, pat, k) then k
    else if k == |s| then -1
    else FindFrom(s, pat, k + 1)
  }

  /** `s.find(pat)`: the first occurrence, the value `s.index(pat)` returns when there is one. */
  function Find(s: string, pat: string): (r: int)
    ensures r == -1 || OccursAt(s, pat, r)
    ensures r == -1 ==> forall j :: !OccursAt(s, pat, j)
    ensures r >= 0 ==> forall j :: j < r ==> !OccursAt(s, pat, j)
  {
    FindFrom(s, pat, 0)
  }

  /** A suffix is an occurrence. */
  lemma SuffixOccurs(s: string, pat: string)
    ensures EndsWith(s, pat) ==> OccursAt(s, pat, |s| - |pat|)
  {
  }

  /** A suffix is an occurrence, so a string ending in pat contains it. */
  lemma EndsWithFinds(s: string, pat: string)
    requires EndsWith(s, pat)
    ensures 0 <= Find(s, pat) <= |s| - |pat|
  {
    assert OccursAt(s, pat, |s| - |pat|);
  }

  /** Nothing before the first occurrence of pat contains pat, whatever is trimmed from it. */
  lemma {:induction false} PieceBeforeFirstAvoids(s: string, pat: string, lo: nat, hi: nat)
    requires |pat| >= 1 && lo <= hi <= |s|
    requires Find(s, pat) == -1 ==> hi <= |s|
    requires Find(s, pat) >= 0 ==> hi <= Find(s, pat)
    ensures forall j :: !OccursAt(s[lo..hi], pat, j)
  {
    forall j ensures !OccursAt(s[lo..hi], pat, j) {
      if OccursAt(s[lo..hi], pat, j) {
        forall k | 0 <= k < |pat| ensures s[lo + j..lo + j + |pat|][k] == pat[k] {
          assert s[lo..hi][j..j + |pat|][k] == pat[k];
        }
        assert s[lo + j..lo + j + |pat|] == pat;
        assert OccursAt(s, pat, lo + j);
      }
    }
  }

  /** `s.replace(pat, rep)`: every occurrence, scanning from the left without overlaps. */
  function Replace(s: string, pat: string, rep: string): string
    requires |pat| >= 1
    decreases |s|
  {
    if |s| < |pat| then s
    else if s[..|pat|] == pat then rep + Replace(s[|pat|..], pat, rep)
    else [s[0]] + Replace(s[1..], pat, rep)
  }

  /** A string without the pattern is left as it is. */
  lemma {:induction false} ReplaceAbsent(s: string, pat: string, rep: string)
    requires |pat| >= 1 && forall j :: !OccursAt(s, pat, j)
    ensures Replace(s, pat, rep) == s
    decreases |s|
  {
    if |s| >= |pat| {
      assert !OccursAt(s, pat, 0);
      forall j ensures !OccursAt(s[1..], pat, j) {
        if OccursAt(s[1..], pat, j) {
          assert s[1..][j..j + |pat|] == s[j + 1..j + 1 + |pat|];
          assert OccursAt(s, pat, j + 1);
        }
      }
      ReplaceAbsent(s[1..], pat, rep);
    }
  }

  /** A string ending in the pattern, whose first character does not occur before it, has
      exactly that one occurrence replaced. */
  lemma {:induction false} ReplaceAtEnd(a: string, pat: string, rep: string)
    requires |pat| >= 1 && pat[0] !in a
    ensures Replace(a + pat, pat, rep) == a + rep
    decreases |a|
  {
    if a == [] {
      assert (a + pat)[..|pat|] == pat;
      assert (a + pat)[|pat|..] == [];
    } else {
      assert (a + pat)[..|pat|][0] == a[0];
      assert (a + pat)[1..] == a[1..] + pat;
      ReplaceAtEnd(a[1..], pat, rep);
      assert [a[0]] + (a[1..] + rep) == a + rep;
    }
  }

  // ---------------------------------------------------------------------------------------
  // str(int) and int(str)
  // ---------------------------------------------------------------------------------------

  predicate IsDigit(c: char) {
    '0' <= c <= '9'
  }

  function DigitChar(d: nat): (c: char)
    requires d < 10
    ensures IsDigit(c) && c as int - '0' as int == d
  {
    ('0' as int + d) as char
  }

  /** Decimal rendering of a natural number without leading zeros. */
  function NatToString(n: nat): (r: string)
    ensures |r| >= 1
    ensures forall i :: 0 <= i < |r| ==> IsDigit(r[i])
    decreases n
  {
    if n < 10 then [DigitChar(n)] else NatToString(n / 10) + [DigitChar(n % 10)]
  }

  /** `str(i)` for a Python int. */
  function IntToString(i: int): string {
    if i < 0 then "-" + NatToString(-i) else NatToString(i)
  }

  /** The value of a string of decimal digits, read most significant digit first. */
  function DigitsValue(s: string): nat
    requires forall i :: 0 <= i < |s| ==> IsDigit(s[i])
  {
    if s == [] then 0
    else
      assert IsDigit(s[|s| - 1]);
      DigitsValue(s[..|s| - 1]) * 10 + (s[|s| - 1] as int - '0' as int)
  }

  predicate AllDigits(s: string) {
    |s| >= 1 && forall i :: 0 <= i < |s| ==> IsDigit(s[i])
  }

  /** `int(s)` on a string: surrounding white space, an optional sign and at least one
      decimal digit; anything else raises ValueError (here None). */
  function ParseInt(s: string): Option<int> {
    ParseStripped(Strip(s))
  }

  /** `int` on text without surrounding white space. */
  function ParseStripped(t: string): Option<int> {
    if |t| >= 1 && (t[0] == '-' || t[0] == '+') then
      (if AllDigits(t[1..]) then
         var magnitude: int := DigitsValue(t[1..]);
         Some(if t[0] == '-' then -magnitude else magnitude)
       else None)
    else if AllDigits(t) then Some(DigitsValue(t))
    else None
  }

  /** An optional sign followed by at least one decimal digit: the text `int` accepts once
      stripped. */
  predicate IntLiteral(t: string) {
    AllDigits(t) || (|t| >= 1 && (t[0] == '-' || t[0] == '+') && AllDigits(t[1..]))
  }

  /** `int(s)` reads a number exactly when the stripped text is an integer literal. */
  lemma ParseIntDomain(s: string)
    ensures ParseInt(s).Some? <==> IntLiteral(Strip(s))
  {
    var t := Strip(s);
    if AllDigits(t) {
      assert IsDigit(t[0]);
    }
  }

  lemma {:induction false} NatToStringValue(n: nat)
    ensures DigitsValue(NatToString(n)) == n
    decreases n
  {
    if n >= 10 {
      var r := NatToString(n);
      assert r[..|r| - 1] == NatToString(n / 10);
      NatToStringValue(n / 10);
    }
  }

  /** `strip` leaves a string alone when neither end is white space. */
  lemma StripSolid(s: string)
    requires |s| >= 1 && !IsSpace(s[0]) && !IsSpace(s[|s| - 1])
    ensures Strip(s) == s
  {
  }

  /** Text starting with a letter is never an integer literal, stripped or not. */
  lemma LetterFirstNotInt(s: string)
    requires |s| >= 1 && 'a' <= s[0] <= 'z'
    ensures !IntLiteral(Strip(s))
  {
    assert !IsSpace(s[0]);
    assert TrimStart(s) == s;
    var t := TrimEnd(s);
    assert Strip(s) == t;
    if t != [] {
      assert t[0] == s[0];
      assert !IsDigit(t[0]) && t[0] != '-' && t[0] != '+';
      assert !AllDigits(t);
    }
  }

  /** A string `strip` leaves alone is read as it stands. */
  lemma ParseUnstripped(t: string)
    ensures Strip(t) == t ==> ParseInt(t) == ParseStripped(t)
  {
  }

  lemma StrippedDigits(t: string)
    requires AllDigits(t)
    ensures ParseStripped(t) == Some(DigitsValue(t) as int)
    ensures ParseStripped("-" + t) == Some(-(DigitsValue(t) as int))
  {
    assert IsDigit(t[0]);
    assert ("-" + t)[1..] == t;
  }

  /** `strip` leaves a run of digits, signed or not, alone. */
  lemma DigitsUnstripped(t: string)
    requires AllDigits(t)
    ensures Strip(t) == t && Strip("-" + t) == "-" + t
  {
    StripSolid(t);
    SignedUnstripped(t);
  }

  lemma SignedUnstripped(t: string)
    requires AllDigits(t)
    ensures Strip("-" + t) == "-" + t
  {
    var s := "-" + t;
    assert s[0] == '-';
    assert IsDigit(s[|s| - 1]) by { assert s[|s| - 1] == t[|t| - 1]; }
    StripSolid(s);
  }

  /** A run of digits reads as its value, and with a minus sign before it as its negation. */
  lemma ParseDigits(t: string)
    requires AllDigits(t)
    ensures ParseInt(t) == Some(DigitsValue(t) as int)
    ensures ParseInt("-" + t) == Some(-(DigitsValue(t) as int))
  {
    StrippedDigits(t);
    DigitsUnstripped(t);
    ParseUnstripped(t);
    ParseUnstripped("-" + t);
  }

  /** `int(str(i)) == i`: the decimal rendering of an int reads back as that int. */
  lemma {:induction false} IntToStringRoundTrip(i: int)
    ensures ParseInt(IntToString(i)) == Some(i)
  {
    var n: nat := if i < 0 then -i else i;
    NatToStringValue(n);
    ParseDigits(NatToString(n));
  }

  /** Different ints render differently, so a rendered code identifies its int. */
  lemma IntToStringInjective(a: int, b: int)
    requires IntToString(a) == IntToString(b)
    ensures a == b
  {
    IntToStringRoundTrip(a);
    IntToStringRoundTrip(b);
  }

  // ---------------------------------------------------------------------------------------
  // Python's ordering of str (code point by code point)
  // ---------------------------------------------------------------------------------------

  predicate LexLess(a: string, b: string)
    decreases |a|
  {
    if a == [] then b != []
    else b != [] && (if a[0] == b[0] then LexLess(a[1..], b[1..]) else a[0] < b[0])
  }

  lemma {:induction false} LexIrreflexive(a: string)
    ensures !LexLess(a, a)
    decreases |a|
  {
    if a != [] { LexIrreflexive(a[1..]); }
  }

  lemma {:induction false} LexTransitive(a: string, b: string, c: string)
    requires LexLess(a, b) && LexLess(b, c)
    ensures LexLess(a, c)
    decreases |a|
  {
    if a != [] && a[0] == b[0] && b[0] == c[0] {
      LexTransitive(a[1..], b[1..], c[1..]);
    }
  }

  lemma {:induction false} LexTotal(a: string, b: string)
    requires a != b
    ensures LexLess(a, b) || LexLess(b, a)
    decreases |a|
  {
    if a != [] && b != [] && a[0] == b[0] {
      assert a == [a[0]] + a[1..] && b == [b[0]] + b[1..];
      LexTotal(a[1..], b[1..]);
    }
  }
}
