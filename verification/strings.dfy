/** The few JavaScript string primitives the shopping assistant relies on:
    `toLowerCase`, `toUpperCase` of one character, `includes`, `trim`, and
    the decimal rendering of a number inside a template literal. */
module Strings {

  // ---------------------------------------------------------------------
  // Case mapping (ASCII letters)
  // ---------------------------------------------------------------------

  predicate IsUpper(c: char) { 'A' <= c <= 'Z' }

  predicate IsLowerLetter(c: char) { 'a' <= c <= 'z' }

  function LowerChar(c: char): (r: char)
    ensures !IsUpper(r)
    ensures !IsUpper(c) ==> r == c
    ensures IsUpper(c) ==> IsLowerLetter(r) && r as int - c as int == 32
  {
    if IsUpper(c) then (c as int + 32) as char else c
  }

  function UpperChar(c: char): (r: char)
    ensures !IsLowerLetter(r)
    ensures !IsLowerLetter(c) ==> r == c
    ensures IsLowerLetter(c) ==> IsUpper(r) && LowerChar(r) == c
  {
    if IsLowerLetter(c) then (c as int - 32) as char else c
  }

  /** No upper-case letter occurs in `s`. */
  predicate IsLowerCase(s: string) {
    forall c | c in s :: !IsUpper(c)
  }

  /** `s.toLowerCase()`: a lower-case string that equals `s` when case is ignored. */
  function Lower(s: string): (r: string)
    ensures |r| == |s|
    ensures IsLowerCase(r)
    ensures forall i :: 0 <= i < |s| ==> LowerChar(r[i]) == LowerChar(s[i])
  {
    seq(|s|, i requires 0 <= i < |s| => LowerChar(s[i]))
  }

  lemma LowerOfLowerCase(s: string)
    requires IsLowerCase(s)
    ensures Lower(s) == s
  {
    forall i | 0 <= i < |s|
      ensures Lower(s)[i] == s[i]
    {
      assert s[i] in s;
    }
  }

  lemma LowerIdempotent(s: string)
    ensures Lower(Lower(s)) == Lower(s)
  {
    LowerOfLowerCase(Lower(s));
  }

  /** A character that occurs in `s` in neither case does not occur in `Lower(s)`. */
  lemma NotInLower(s: string, c: char)
    requires c !in s && UpperChar(c) !in s
    ensures c !in Lower(s)
  {
    forall k | 0 <= k < |s|
      ensures Lower(s)[k] != c
    {
      assert s[k] in s;
    }
  }

  /** `s.charAt(0).toUpperCase() + s.slice(1)`. */
  function Capitalize(s: string): (r: string)
    ensures |r| == |s|
    ensures |s| > 0 ==> r[0] == UpperChar(s[0]) && r[1..] == s[1..]
  {
    if |s| == 0 then s else [UpperChar(s[0])] + s[1..]
  }

  // ---------------------------------------------------------------------
  // Substring test
  // ---------------------------------------------------------------------

  /** The characters of `sub` from index `j` on match `s` at offset `i`. */
  predicate MatchAt(s: string, sub: string, i: nat, j: nat)
    requires i + |sub| <= |s| && j <= |sub|
    decreases |sub| - j
  {
    j == |sub| || (s[i + j] == sub[j] && MatchAt(s, sub, i, j + 1))
  }

  /** `sub` occurs in `s` at some offset `i` or later. */
  predicate ContainsFrom(s: string, sub: string, i: nat)
    decreases |s| - i
  {
    i + |sub| <= |s| && (MatchAt(s, sub, i, 0) || ContainsFrom(s, sub, i + 1))
  }

  /** `s.includes(sub)`, searching left to right: the empty string is
      found in every string, and nothing longer than `s` is found in it. */
  predicate Contains(s: string, sub: string): (r: bool)
    ensures sub == [] ==> r
    ensures r ==> |sub| <= |s|
  {
    ContainsFrom(s, sub, 0)
  }

  /** Reference meaning of an occurrence: the slice of `s` at `i` is `sub`. */
  ghost predicate OccursAt(s: string, sub: string, i: int) {
    0 <= i && i + |sub| <= |s| && s[i..i + |sub|] == sub
  }

  lemma {:induction false} MatchAtMeaning(s: string, sub: string, i: nat, j: nat)
    requires i + |sub| <= |s| && j <= |sub|
    ensures MatchAt(s, sub, i, j) <==> s[i + j..i + |sub|] == sub[j..]
    decreases |sub| - j
  {
    if j < |sub| {
      MatchAtMeaning(s, sub, i, j + 1);
      var a, b := s[i + j..i + |sub|], sub[j..];
      assert a == [s[i + j]] + s[i + j + 1..i + |sub|];
      assert b == [sub[j]] + sub[j + 1..];
      if a == b {
        assert a[0] == b[0];
        assert a[1..] == b[1..];
      }
    }
  }

  lemma {:induction false} ContainsFromMeaning(s: string, sub: string, i: nat)
    ensures ContainsFrom(s, sub, i) <==> exists k :: i <= k && OccursAt(s, sub, k)
    decreases |s| - i
  {
    if i + |sub| <= |s| {
      MatchAtMeaning(s, sub, i, 0);
      ContainsFromMeaning(s, sub, i + 1);
      if MatchAt(s, sub, i, 0) {
        assert sub[0..] == sub;
        assert OccursAt(s, sub, i);
      }
      if exists k :: i <= k && OccursAt(s, sub, k) {
        var k :| i <= k && OccursAt(s, sub, k);
        if k == i {
          assert sub[0..] == sub;
        } else {
          assert i + 1 <= k;
        }
      }
    }
  }

  /** The search finds `sub` exactly when `sub` occurs somewhere in `s`. */
  lemma ContainsMeaning(s: string, sub: string)
    ensures Contains(s, sub) <==> exists k :: OccursAt(s, sub, k)
  {
    ContainsFromMeaning(s, sub, 0);
  }

  lemma ContainsWitness(s: string, sub: string, k: nat)
    requires OccursAt(s, sub, k)
    ensures Contains(s, sub)
  {
    ContainsMeaning(s, sub);
  }

  /** Lower-casing keeps every lower-case occurrence in place. */
  lemma OccursInLower(s: string, sub: string, k: nat)
    requires IsLowerCase(sub) && OccursAt(s, sub, k)
    ensures OccursAt(Lower(s), sub, k)
  {
    forall j | 0 <= j < |sub|
      ensures Lower(s)[k + j] == sub[j]
    {
      assert s[k + j] == s[k..k + |sub|][j];
      assert sub[j] in sub;
    }
    assert Lower(s)[k..k + |sub|] == sub;
  }

  /** Every character of an occurring string occurs in the host string;
      used to refute `includes` on concrete strings cheaply. */
  lemma ContainsChar(s: string, sub: string, c: char)
    requires Contains(s, sub) && c in sub
    ensures c in s
  {
    ContainsMeaning(s, sub);
    var k :| OccursAt(s, sub, k);
    var j :| 0 <= j < |sub| && sub[j] == c;
    assert s[k..k + |sub|][j] == c;
    assert s[k + j] == c;
  }

  lemma NotContainsByChar(s: string, sub: string, c: char)
    requires c in sub && c !in s
    ensures !Contains(s, sub)
  {
    if Contains(s, sub) {
      ContainsChar(s, sub, c);
    }
  }

  /** Some character of `sub` at index `j` or later never appears in `s`. */
  predicate MissingCharFrom(s: string, sub: string, j: nat)
    decreases |sub| - j
  {
    j < |sub| && (sub[j] !in s || MissingCharFrom(s, sub, j + 1))
  }

  /** A cheap, sufficient reason for `!s.includes(sub)`: `sub` is longer
      than `s`, or one of its characters never appears in `s`. */
  predicate CannotContain(s: string, sub: string) {
    |s| < |sub| || MissingCharFrom(s, sub, 0)
  }

  lemma {:induction false} MissingCharFromSound(s: string, sub: string, j: nat)
    requires MissingCharFrom(s, sub, j)
    ensures !Contains(s, sub)
    decreases |sub| - j
  {
    if sub[j] !in s {
      NotContainsByChar(s, sub, sub[j]);
    } else {
      MissingCharFromSound(s, sub, j + 1);
    }
  }

  lemma CannotContainSound(s: string, sub: string)
    requires CannotContain(s, sub)
    ensures !Contains(s, sub)
  {
    if |sub| <= |s| {
      MissingCharFromSound(s, sub, 0);
    }
  }

  /** Some character of `s` at index `k` or later, lower-cased, never
      appears in `sup`. */
  predicate LoweredMissingFrom(s: string, sup: string, k: nat)
    decreases |s| - k
  {
    k < |s| && (LowerChar(s[k]) !in sup || LoweredMissingFrom(s, sup, k + 1))
  }

  /** A cheap, sufficient reason for `!sup.includes(s.toLowerCase())`. */
  predicate CannotBeContainedLowered(s: string, sup: string) {
    |sup| < |s| || LoweredMissingFrom(s, sup, 0)
  }

  lemma {:induction false} LoweredMissingFromSound(s: string, sup: string, k: nat)
    requires LoweredMissingFrom(s, sup, k)
    ensures !Contains(sup, Lower(s))
    decreases |s| - k
  {
    if LowerChar(s[k]) !in sup {
      assert Lower(s)[k] == LowerChar(s[k]);
      NotContainsByChar(sup, Lower(s), Lower(s)[k]);
    } else {
      LoweredMissingFromSound(s, sup, k + 1);
    }
  }

  lemma CannotBeContainedLoweredSound(s: string, sup: string)
    requires CannotBeContainedLowered(s, sup)
    ensures !Contains(sup, Lower(s))
  {
    if |s| <= |sup| {
      LoweredMissingFromSound(s, sup, 0);
    } else {
      CannotContainSound(sup, Lower(s));
    }
  }

  // ---------------------------------------------------------------------
  // Whitespace trimming
  // ---------------------------------------------------------------------

  /** ECMAScript WhiteSpace and LineTerminator code points: the characters
      `String.prototype.trim` removes. */
  predicate IsSpace(c: char) {
    || '\t' <= c <= '\r'
    || c == ' '
    || c == '\U{A0}'
    || c == '\U{1680}'
    || '\U{2000}' <= c <= '\U{200A}'
    || c == '\U{2028}' || c == '\U{2029}'
    || c == '\U{202F}' || c == '\U{205F}'
    || c == '\U{3000}' || c == '\U{FEFF}'
  }

  predicate AllSpace(s: string) {
    forall c | c in s :: IsSpace(c)
  }

  /** Neither end of `s` is whitespace. */
  predicate IsTrimmed(s: string) {
    s == [] || (!IsSpace(s[0]) && !IsSpace(s[|s| - 1]))
  }

  function TrimStart(s: string): (r: string)
    ensures |r| <= |s| && r == s[|s| - |r|..]
    ensures AllSpace(s[..|s| - |r|])
    ensures r == [] || !IsSpace(r[0])
  {
    if |s| > 0 && IsSpace(s[0]) then
      var r := TrimStart(s[1..]);
      assert s[..|s| - |r|] == [s[0]] + s[1..][..|s| - 1 - |r|];
      r
    else
      s
  }

  function TrimEnd(s: string): (r: string)
    ensures |r| <= |s| && r == s[..|r|]
    ensures AllSpace(s[|r|..])
    ensures r == [] || !IsSpace(r[|r| - 1])
  {
    if |s| > 0 && IsSpace(s[|s| - 1]) then
      var r := TrimEnd(s[..|s| - 1]);
      assert s[|r|..] == s[..|s| - 1][|r|..] + [s[|s| - 1]];
      r
    else
      s
  }

  /** Number of whitespace characters at the start of `s`. */
  function LeadingSpaces(s: string): nat {
    |s| - |TrimStart(s)|
  }

  /** A prefix of a suffix of `s` is a slice of `s`. */
  lemma SliceOfSuffix(s: string, k: nat, r: string)
    requires k <= |s| && |r| <= |s| - k
    requires r == s[k..][..|r|]
    ensures r == s[k..k + |r|]
    ensures s[k + |r|..] == s[k..][|r|..]
  {
  }

  /** `s.trim()`: the middle part of `s` between a whitespace-only prefix
      and a whitespace-only suffix, with no whitespace at either end. */
  function Trim(s: string): (r: string)
    ensures IsTrimmed(r)
    ensures LeadingSpaces(s) + |r| <= |s|
    ensures r == s[LeadingSpaces(s)..LeadingSpaces(s) + |r|]
    ensures AllSpace(s[..LeadingSpaces(s)])
    ensures AllSpace(s[LeadingSpaces(s) + |r|..])
  {
    var t := TrimStart(s);
    var r := TrimEnd(t);
    assert r == [] || r[0] == t[0];
    SliceOfSuffix(s, |s| - |t|, r);
    r
  }

  lemma {:induction false} TrimStartPadded(a: string, b: string)
    requires AllSpace(a)
    requires b == [] || !IsSpace(b[0])
    ensures TrimStart(a + b) == b
    decreases |a|
  {
    if a != [] {
      assert a[0] in a;
      assert (a + b)[1..] == a[1..] + b;
      TrimStartPadded(a[1..], b);
    }
  }

  lemma {:induction false} TrimEndPadded(b: string, c: string)
    requires AllSpace(c)
    requires b == [] || !IsSpace(b[|b| - 1])
    ensures TrimEnd(b + c) == b
    decreases |c|
  {
    if c != [] {
      assert c[|c| - 1] in c;
      assert (b + c)[..|b + c| - 1] == b + c[..|c| - 1];
      TrimEndPadded(b, c[..|c| - 1]);
    }
  }

  /** Trimming removes exactly the surrounding whitespace: padding a trimmed
      string with whitespace on either side is undone by `Trim`. */
  lemma TrimPadded(a: string, b: string, c: string)
    requires AllSpace(a) && AllSpace(c) && IsTrimmed(b)
    ensures Trim(a + b + c) == b
  {
    if b == [] {
      assert a + b + c == a + c;
      TrimStartPadded(a + c, []);
      assert a + c + [] == a + c;
    } else {
      assert a + b + c == a + (b + c);
      TrimStartPadded(a, b + c);
      TrimEndPadded(b, c);
    }
  }

  lemma TrimIdempotent(s: string)
    ensures Trim(Trim(s)) == Trim(s)
  {
    var r := Trim(s);
    TrimPadded([], r, []);
    assert [] + r + [] == r;
  }

  /** A string trims to the empty string exactly when it is all whitespace. */
  lemma TrimEmptyIff(s: string)
    ensures Trim(s) == [] <==> AllSpace(s)
  {
    var k := LeadingSpaces(s);
    var r := Trim(s);
    if r == [] {
      assert s == s[..k] + s[k..];
    } else {
      assert r[0] in s[k..k + |r|];
    }
  }

  // ---------------------------------------------------------------------
  // Decimal rendering of a natural number
  // ---------------------------------------------------------------------

  predicate IsDigit(c: char) { '0' <= c <= '9' }

  function DigitValue(c: char): nat
    requires IsDigit(c)
  {
    c as int - '0' as int
  }

  /** Reference reading of a digit string as a number. */
  function DigitsValue(s: string): nat
    requires forall c | c in s :: IsDigit(c)
  {
    if s == [] then 0 else DigitsValue(s[..|s| - 1]) * 10 + DigitValue(s[|s| - 1])
  }

  /** `${n}` for a non-negative integer: canonical decimal digits. */
  function DecimalString(n: nat): (r: string)
    ensures |r| >= 1
    ensures forall c | c in r :: IsDigit(c)
    ensures DigitsValue(r) == n
    ensures |r| > 1 ==> r[0] != '0'
  {
    var d := ['0' + (n % 10) as char];
    if n < 10 then d
    else
      var p := DecimalString(n / 10);
      assert (p + d)[..|p + d| - 1] == p;
      p + d
  }
}
