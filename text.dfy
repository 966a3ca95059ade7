/**
 * String helpers used by the monitor: decimal rendering and parsing of
 * integers (Go's strconv.Itoa / strconv.Atoi), prefix and suffix tests,
 * strings.TrimSuffix, strings.Replace with an unlimited count, and Go's
 * byte-wise string ordering (`<` on strings).
 */
module Text {

  datatype Option<T> = None | Some(value: T)

  predicate IsDigit(c: char) { '0' <= c <= '9' }

  predicate AllDigits(s: string) { forall i :: 0 <= i < |s| ==> IsDigit(s[i]) }

  function DigitChar(d: int): (c: char)
    requires 0 <= d < 10
    ensures IsDigit(c) && c as int - '0' as int == d
  {
    (d + '0' as int) as char
  }

  /** Decimal digits of a natural number, most significant first, no leading zeros. */
  function NatToString(n: nat): (s: string)
    ensures |s| >= 1 && AllDigits(s)
    decreases n
  {
    if n < 10 then [DigitChar(n)] else NatToString(n / 10) + [DigitChar(n % 10)]
  }

  /** strconv.Itoa: a leading '-' for negative numbers, then the digits. */
  function IntToString(n: int): (s: string)
    ensures |s| >= 1
    ensures n >= 0 ==> AllDigits(s)
    ensures n < 0 ==> s[0] == '-' && |s| >= 2 && AllDigits(s[1..])
  {
    if n < 0 then "-" + NatToString(-n) else NatToString(n)
  }

  /** The value of a run of decimal digits. */
  function DigitsValue(s: string): nat
    requires AllDigits(s)
  {
    if s == [] then 0 else DigitsValue(s[..|s| - 1]) * 10 + (s[|s| - 1] as int - '0' as int)
  }

  /**
   * strconv.Atoi on the values it accepts: an optional sign followed by at
   * least one decimal digit. The 64-bit range check is not modelled.
   */
  function Atoi(s: string): (r: Option<int>)
    ensures r.Some? ==> |s| >= 1
  {
    if |s| >= 1 && (s[0] == '-' || s[0] == '+') then
      var digits := s[1..];
      if |digits| >= 1 && AllDigits(digits) then
        var v: int := DigitsValue(digits);
        Some(if s[0] == '-' then -v else v)
      else None
    else if |s| >= 1 && AllDigits(s) then Some(DigitsValue(s))
    else None
  }

  lemma {:induction false} NatToStringValue(n: nat)
    ensures DigitsValue(NatToString(n)) == n
    decreases n
  {
    if n >= 10 {
      var s := NatToString(n);
      assert s[..|s| - 1] == NatToString(n / 10);
      NatToStringValue(n / 10);
    }
  }

  /** Parsing what Itoa printed gives the number back. */
  lemma AtoiOfIntToString(n: int)
    ensures Atoi(IntToString(n)) == Some(n)
  {
    var s := IntToString(n);
    if n < 0 {
      var d := NatToString(-n);
      assert s == "-" + d && s[1..] == d;
      NatToStringValue(-n);
      var v: int := DigitsValue(d);
      assert Atoi(s) == Some(-v);
    } else {
      assert s == NatToString(n);
      assert IsDigit(s[0]);
      NatToStringValue(n);
      assert Atoi(s) == Some(DigitsValue(s));
    }
  }

  /** Itoa is injective, so two different numbers never print alike. */
  lemma IntToStringInjective(a: int, b: int)
    ensures IntToString(a) == IntToString(b) ==> a == b
  {
    AtoiOfIntToString(a);
    AtoiOfIntToString(b);
  }

  predicate HasPrefix(s: string, p: string) { |p| <= |s| && s[..|p|] == p }

  predicate HasSuffix(s: string, p: string) { |p| <= |s| && s[|s| - |p|..] == p }

  /** strings.TrimSuffix: drops one copy of the suffix when it is there. */
  function TrimSuffix(s: string, suffix: string): (r: string)
    ensures HasSuffix(s, suffix) ==> r + suffix == s
    ensures !HasSuffix(s, suffix) ==> r == s
  {
    if HasSuffix(s, suffix) then s[..|s| - |suffix|] else s
  }

  /** `w` occurs in `s` starting at index `i`. */
  predicate OccursAt(s: string, w: string, i: int)
  {
    0 <= i && i + |w| <= |s| && s[i..i + |w|] == w
  }

  predicate Contains(s: string, w: string)
  {
    exists i :: 0 <= i <= |s| && OccursAt(s, w, i)
  }

  /**
   * strings.Replace(s, pat, rep, -1) for a non-empty `pat`: every
   * non-overlapping occurrence, found left to right, is replaced.
   */
  function ReplaceAll(s: string, pat: string, rep: string): string
    requires |pat| > 0
    decreases |s|
  {
    if |s| < |pat| then s
    else if s[..|pat|] == pat then rep + ReplaceAll(s[|pat|..], pat, rep)
    else [s[0]] + ReplaceAll(s[1..], pat, rep)
  }

  /** Replacing a pattern that does not occur changes nothing. */
  lemma {:induction false} ReplaceAllAbsent(s: string, pat: string, rep: string)
    requires |pat| > 0
    requires !Contains(s, pat)
    ensures ReplaceAll(s, pat, rep) == s
    decreases |s|
  {
    if |s| >= |pat| {
      assert !OccursAt(s, pat, 0);
      forall i ensures !OccursAt(s[1..], pat, i) {
        if OccursAt(s[1..], pat, i) {
          assert s[i + 1..i + 1 + |pat|] == s[1..][i..i + |pat|];
          assert OccursAt(s, pat, i + 1);
        }
      }
      ReplaceAllAbsent(s[1..], pat, rep);
    }
  }

  /**
   * The replacement text and the pattern share their first character, that
   * character appears nowhere else in either, and they differ somewhere in
   * their common length. Both rewrites the probes use have this shape.
   */
  predicate SafeRewrite(pat: string, rep: string)
  {
    && |pat| > 0 && |rep| > 0 && rep[0] == pat[0]
    && (forall k :: 1 <= k < |pat| ==> pat[k] != pat[0])
    && (forall k :: 1 <= k < |rep| ==> rep[k] != pat[0])
    && (exists k :: 0 <= k < |pat| && k < |rep| && pat[k] != rep[k])
  }

  /** The first character of a rewritten text. */
  lemma RewriteHead(t: string, pat: string, rep: string)
    requires |pat| > 0 && |rep| > 0 && |t| >= |pat|
    ensures |ReplaceAll(t, pat, rep)| > 0
    ensures ReplaceAll(t, pat, rep)[0] == if t[..|pat|] == pat then rep[0] else t[0]
  {
  }

  /**
   * A prefix of the rewritten text that avoids the pattern's first character
   * was already a prefix of the original text.
   */
  lemma {:induction false} RewritePrefixPullback(t: string, pat: string, rep: string, w: string)
    requires SafeRewrite(pat, rep)
    requires forall k :: 0 <= k < |w| ==> w[k] != pat[0]
    requires HasPrefix(ReplaceAll(t, pat, rep), w)
    ensures HasPrefix(t, w)
    decreases |t|
  {
    if |t| >= |pat| && |w| > 0 {
      var r := ReplaceAll(t, pat, rep);
      RewriteHead(t, pat, rep);
      assert r[0] == w[0];
      assert t[..|pat|] != pat;
      var r' := ReplaceAll(t[1..], pat, rep);
      assert r == [t[0]] + r';
      assert HasPrefix(r', w[1..]) by {
        assert r'[..|w| - 1] == r[1..|w|];
      }
      RewritePrefixPullback(t[1..], pat, rep, w[1..]);
      assert t[..|w|] == [t[0]] + t[1..][..|w| - 1];
    }
  }

  /** A match of the pattern in `rep + rest` lies wholly inside `rest`. */
  lemma RewrittenHeadClean(rep: string, rest: string, pat: string, i: int)
    requires SafeRewrite(pat, rep)
    requires !Contains(rest, pat)
    ensures !OccursAt(rep + rest, pat, i)
  {
    var r := rep + rest;
    if i == 0 {
      var k :| 0 <= k < |pat| && k < |rep| && pat[k] != rep[k];
      if |pat| <= |r| {
        assert r[..|pat|][k] == rep[k];
      }
    } else if 0 < i < |rep| {
      if i + |pat| <= |r| {
        assert r[i..i + |pat|][0] == rep[i];
      }
    } else if i >= |rep| {
      if i + |pat| <= |r| {
        assert r[i..i + |pat|] == rest[i - |rep|..i - |rep| + |pat|];
        assert !OccursAt(rest, pat, i - |rep|);
      }
    }
  }

  /** A character kept from the input cannot start a new match. */
  lemma KeptHeadClean(s: string, pat: string, rep: string, i: int)
    requires SafeRewrite(pat, rep)
    requires |s| >= |pat| && s[..|pat|] != pat
    requires !Contains(ReplaceAll(s[1..], pat, rep), pat)
    ensures !OccursAt([s[0]] + ReplaceAll(s[1..], pat, rep), pat, i)
  {
    var rest := ReplaceAll(s[1..], pat, rep);
    var r := [s[0]] + rest;
    if i == 0 {
      if HasPrefix(rest, pat[1..]) {
        RewritePrefixPullback(s[1..], pat, rep, pat[1..]);
        assert s[..|pat|] == [s[0]] + s[1..][..|pat| - 1];
        assert s[0] != pat[0];
        assert r[..|pat|][0] == s[0];
      } else if |pat| <= |r| {
        assert rest[..|pat| - 1] == r[1..|pat|] == r[..|pat|][1..];
      }
    } else if i > 0 && i + |pat| <= |r| {
      assert r[i..i + |pat|] == rest[i - 1..i - 1 + |pat|];
      assert !OccursAt(rest, pat, i - 1);
    }
  }

  /** After a safe rewrite, the pattern no longer occurs anywhere. */
  lemma {:induction false} ReplaceAllRemoves(s: string, pat: string, rep: string)
    requires SafeRewrite(pat, rep)
    ensures !Contains(ReplaceAll(s, pat, rep), pat)
    decreases |s|
  {
    if |s| < |pat| {
      assert forall i :: !OccursAt(s, pat, i);
    } else if s[..|pat|] == pat {
      ReplaceAllRemoves(s[|pat|..], pat, rep);
      forall i ensures !OccursAt(rep + ReplaceAll(s[|pat|..], pat, rep), pat, i) {
        RewrittenHeadClean(rep, ReplaceAll(s[|pat|..], pat, rep), pat, i);
      }
    } else {
      ReplaceAllRemoves(s[1..], pat, rep);
      forall i ensures !OccursAt([s[0]] + ReplaceAll(s[1..], pat, rep), pat, i) {
        KeptHeadClean(s, pat, rep, i);
      }
    }
  }

  /** Go's `<` on strings: lexicographic on characters (code points). */
  predicate StrLess(a: string, b: string)
    decreases |a|
  {
    if |a| == 0 then |b| > 0
    else if |b| == 0 then false
    else if a[0] == b[0] then StrLess(a[1..], b[1..])
    else a[0] < b[0]
  }

  predicate StrLessEq(a: string, b: string) { StrLess(a, b) || a == b }

  lemma {:induction false} StrLessIrreflexive(a: string)
    ensures !StrLess(a, a)
    decreases |a|
  {
    if |a| > 0 { StrLessIrreflexive(a[1..]); }
  }

  lemma {:induction false} StrLessTransitive(a: string, b: string, c: string)
    requires StrLess(a, b) && StrLess(b, c)
    ensures StrLess(a, c)
    decreases |a|
  {
    if |a| > 0 && |c| > 0 && a[0] == b[0] && b[0] == c[0] {
      StrLessTransitive(a[1..], b[1..], c[1..]);
    }
  }

  lemma {:induction false} StrLessTrichotomy(a: string, b: string)
    ensures StrLess(a, b) || a == b || StrLess(b, a)
    decreases |a|
  {
    if |a| > 0 && |b| > 0 && a[0] == b[0] {
      StrLessTrichotomy(a[1..], b[1..]);
      if a[1..] == b[1..] {
        assert a == [a[0]] + a[1..] && b == [b[0]] + b[1..];
      }
    }
  }

  /** `<=` on strings is a total order. */
  lemma StrLessEqTotalOrder()
    ensures forall a, b :: StrLessEq(a, b) || StrLessEq(b, a)
    ensures forall a, b, c :: StrLessEq(a, b) && StrLessEq(b, c) ==> StrLessEq(a, c)
    ensures forall a, b :: StrLessEq(a, b) && StrLessEq(b, a) ==> a == b
  {
    forall a, b ensures StrLessEq(a, b) || StrLessEq(b, a) { StrLessTrichotomy(a, b); }
    forall a, b, c | StrLessEq(a, b) && StrLessEq(b, c) ensures StrLessEq(a, c) {
      if StrLess(a, b) && StrLess(b, c) { StrLessTransitive(a, b, c); }
    }
    forall a, b | StrLessEq(a, b) && StrLessEq(b, a) ensures a == b {
      if StrLess(a, b) && StrLess(b, a) {
        StrLessTransitive(a, b, a);
        StrLessIrreflexive(a);
      }
    }
  }
}
