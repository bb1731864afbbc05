/** String facts shared by the URI, markdown and reason-tree models. */
module Strings {

  predicate StartsWith(s: string, prefix: string) {
    |prefix| <= |s| && s[..|prefix|] == prefix
  }

  predicate EndsWith(s: string, c: char) {
    s != [] && s[|s| - 1] == c
  }

  /** How often `c` occurs. */
  function Count(s: string, c: char): nat {
    if s == [] then 0 else (if s[0] == c then 1 else 0) + Count(s[1..], c)
  }

  lemma {:induction false} CountConcat(a: string, b: string, c: char)
    ensures Count(a + b, c) == Count(a, c) + Count(b, c)
  {
    if a == [] {
      assert a + b == b;
    } else {
      assert (a + b)[1..] == a[1..] + b;
      CountConcat(a[1..], b, c);
    }
  }

  lemma {:induction false} CountZero(s: string, c: char)
    requires c !in s
    ensures Count(s, c) == 0
  {
    if s != [] {
      CountZero(s[1..], c);
    }
  }

  lemma CountPrefix(s: string, prefix: string, c: char)
    requires StartsWith(s, prefix)
    ensures Count(prefix, c) <= Count(s, c)
  {
    assert s == prefix + s[|prefix|..];
    CountConcat(prefix, s[|prefix|..], c);
  }

  /** A string has at most one decomposition at its last `c`. */
  lemma SplitAtLast(a: string, x: string, b: string, y: string, c: char)
    requires a + [c] + x == b + [c] + y
    requires c !in x && c !in y
    ensures a == b && x == y
  {
    var s := a + [c] + x;
    assert s[|a|] == c && s[|b|] == c;
    assert s[..|a|] == a && s[..|b|] == b;
    assert s[|a| + 1..] == x && s[|b| + 1..] == y;
  }

  /** A string has at most one decomposition at its first `c`. */
  lemma SplitAtFirst(x: string, a: string, y: string, b: string, c: char)
    requires x + [c] + a == y + [c] + b
    requires c !in x && c !in y
    ensures x == y && a == b
  {
    var s := x + [c] + a;
    assert s[|x|] == c && s[|y|] == c;
    assert s[..|x|] == x && s[..|y|] == y;
    assert s[|x| + 1..] == a && s[|y| + 1..] == b;
  }

  function Join(parts: seq<string>, sep: string): string {
    if parts == [] then ""
    else if |parts| == 1 then parts[0]
    else parts[0] + sep + Join(parts[1..], sep)
  }

  predicate OccursAt(s: string, t: string, i: nat) {
    i + |t| <= |s| && s[i..i + |t|] == t
  }

  ghost predicate Contains(s: string, t: string) {
    exists i: nat :: OccursAt(s, t, i)
  }

  lemma {:induction false} JoinContains(parts: seq<string>, sep: string, i: nat)
    requires i < |parts|
    ensures Contains(Join(parts, sep), parts[i])
  {
    var s := Join(parts, sep);
    var t := parts[i];
    if i == 0 {
      assert OccursAt(s, t, 0);
    } else {
      JoinContains(parts[1..], sep, i - 1);
      var rest := Join(parts[1..], sep);
      var j: nat :| OccursAt(rest, t, j);
      var front := parts[0] + sep;
      assert s == front + rest;
      assert OccursAt(s, t, |front| + j);
    }
  }

  /** Without its trailing slashes. */
  function TrimSlashes(s: string): (r: string)
    ensures |r| <= |s| && r == s[..|r|]
    ensures forall i :: |r| <= i < |s| ==> s[i] == '/'
    ensures r != "" ==> r[|r| - 1] != '/'
  {
    if EndsWith(s, '/') then TrimSlashes(s[..|s| - 1]) else s
  }

  // ---- Decimal numerals ----

  predicate IsDigit(c: char) {
    '0' <= c <= '9'
  }

  function Digit(d: nat): (c: char)
    requires d < 10
    ensures IsDigit(c) && c as int - '0' as int == d
  {
    ('0' as int + d) as char
  }

  function Decimal(n: nat): (s: string)
    ensures s != []
    ensures forall c :: c in s ==> IsDigit(c)
  {
    if n < 10 then [Digit(n)] else Decimal(n / 10) + [Digit(n % 10)]
  }

  function Value(s: string): nat
    requires forall c :: c in s ==> IsDigit(c)
  {
    if s == [] then 0
    else
      var c := s[|s| - 1];
      assert c in s && IsDigit(c);
      10 * Value(s[..|s| - 1]) + (c as int) - ('0' as int)
  }

  lemma {:induction false} ValueOfDecimal(n: nat)
    ensures Value(Decimal(n)) == n
  {
    var s := Decimal(n);
    if n >= 10 {
      ValueOfDecimal(n / 10);
      assert s[..|s| - 1] == Decimal(n / 10);
    } else {
      assert s[..|s| - 1] == [];
    }
  }

  lemma DecimalInjective(m: nat, n: nat)
    requires Decimal(m) == Decimal(n)
    ensures m == n
  {
    ValueOfDecimal(m);
    ValueOfDecimal(n);
  }

  // ---- Segments between separators ----

  /** The pieces of `s` between occurrences of `c`; never empty. */
  function Segments(s: string, c: char): (r: seq<string>)
    ensures |r| >= 1
  {
    if s == [] then [""]
    else
      var rest := Segments(s[1..], c);
      if s[0] == c then [""] + rest
      else [[s[0]] + rest[0]] + rest[1..]
  }

  lemma {:induction false} SegmentsConcat(a: string, b: string, c: char)
    ensures Segments(a + [c] + b, c) == Segments(a, c) + Segments(b, c)
  {
    var s := a + [c] + b;
    if a == [] {
      assert s[1..] == b;
    } else {
      assert s[1..] == a[1..] + [c] + b;
      SegmentsConcat(a[1..], b, c);
    }
  }

  lemma {:induction false} SegmentsInjective(a: string, b: string, c: char)
    requires Segments(a, c) == Segments(b, c)
    ensures a == b
  {
    if a == [] {
      SegmentsOfNonEmpty(b, c);
    } else if b == [] {
      SegmentsOfNonEmpty(a, c);
    } else {
      var ra, rb := Segments(a[1..], c), Segments(b[1..], c);
      SegmentsHaveNone(a, c);
      SegmentsHaveNone(b, c);
      if a[0] == c {
        assert b[0] == c;
        assert ra == Segments(a, c)[1..] && rb == Segments(b, c)[1..];
      } else {
        assert b[0] != c;
        var ha, hb := Segments(a, c)[0], Segments(b, c)[0];
        assert ha[1..] == ra[0] && hb[1..] == rb[0];
        assert ra == [ra[0]] + Segments(a, c)[1..] && rb == [rb[0]] + Segments(b, c)[1..];
        assert a[0] == ha[0] && b[0] == hb[0];
      }
      SegmentsInjective(a[1..], b[1..], c);
      assert a == [a[0]] + a[1..] && b == [b[0]] + b[1..];
    }
  }

  lemma SegmentsOfNonEmpty(s: string, c: char)
    ensures Segments(s, c) == [""] ==> s == []
  {
    if s != [] {
      assert s[0] == c || |Segments(s, c)[0]| > 0;
    }
  }

  lemma SegmentsHaveNone(s: string, c: char)
    ensures forall x :: x in Segments(s, c) ==> c !in x
  {
  }

  /** A strictly longer segment list continues after a separator. */
  lemma {:induction false} SegmentsPrefix(a: string, s: string, c: char)
    requires Segments(a, c) < Segments(s, c)
    ensures StartsWith(s, a + [c])
  {
    if a == [] {
      assert Segments(s, c)[0] == "";
      assert s[0] == c;
    } else {
      var ra, rs := Segments(a[1..], c), Segments(s[1..], c);
      var ha, hs := Segments(a, c), Segments(s, c);
      assert ha[0] == hs[0];
      if a[0] == c {
        assert s[0] == c;
        assert ra == ha[1..] && rs == hs[1..];
      } else {
        assert s[0] != c && s[0] == hs[0][0] == a[0];
        assert ra[0] == ha[0][1..] && rs[0] == hs[0][1..];
        assert ra == [ra[0]] + ha[1..] && rs == [rs[0]] + hs[1..];
      }
      assert ra < rs;
      SegmentsPrefix(a[1..], s[1..], c);
      assert a + [c] == [a[0]] + (a[1..] + [c]);
      assert s == [s[0]] + s[1..];
    }
  }
}
