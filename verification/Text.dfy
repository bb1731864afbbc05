/** Text measures of the document parser: what survives stripping, token estimates, paragraphs. */
module Text {
  import opened Strings

  // ---- Whitespace ----

  /** The characters that stripping removes. */
  predicate IsSpace(c: char) {
    var n := c as int;
    || 0x09 <= n <= 0x0d || 0x1c <= n <= 0x20 || n == 0x85 || n == 0xa0 || n == 0x1680
    || 0x2000 <= n <= 0x200a || n == 0x2028 || n == 0x2029 || n == 0x202f || n == 0x205f || n == 0x3000
  }

  /** Character by character: tab to carriage return, the four separators, space, next line,
      no-break space, and the spaces and separators of the general punctuation and CJK blocks. */
  lemma SpacesListed(c: char)
    ensures IsSpace(c) <==>
              c as int in {9, 10, 11, 12, 13, 28, 29, 30, 31, 32, 133, 160, 5760,
                           8192, 8193, 8194, 8195, 8196, 8197, 8198, 8199, 8200, 8201, 8202,
                           8232, 8233, 8239, 8287, 12288}
  {
  }

  /** The non-whitespace characters of the first `n`, in order. */
  function EssenceTo(s: string, n: nat): string
    requires n <= |s|
  {
    if n == 0 then "" else EssenceTo(s, n - 1) + if IsSpace(s[n - 1]) then "" else [s[n - 1]]
  }

  ghost predicate IsEssence(s: string, e: string) {
    forall n :: n == |s| ==> EssenceTo(s, n) == e
  }

  /** The non-whitespace characters, in order. Picked by its property, so that proofs about
      long texts go by the laws below and do not unfold it. */
  ghost function Essence(s: string): string {
    assert IsEssence(s, EssenceTo(s, |s|));
    var e :| IsEssence(s, e);
    e
  }

  lemma EssenceIs(s: string)
    ensures Essence(s) == EssenceTo(s, |s|)
  {
  }

  lemma EssenceEmpty()
    ensures Essence("") == "" && Essence(GAP) == ""
  {
    EssenceIs("");
    EssenceIs(GAP);
    assert EssenceTo(GAP, 2) == EssenceTo(GAP, 1) && EssenceTo(GAP, 1) == EssenceTo(GAP, 0);
  }

  lemma {:induction false} EssencePrefix(a: string, b: string, n: nat)
    requires n <= |a|
    ensures EssenceTo(a + b, n) == EssenceTo(a, n)
  {
    if n > 0 {
      EssencePrefix(a, b, n - 1);
    }
  }

  lemma {:induction false} EssenceBeyond(a: string, b: string, n: nat)
    requires n <= |b|
    ensures EssenceTo(a + b, |a| + n) == EssenceTo(a, |a|) + EssenceTo(b, n)
  {
    if n == 0 {
      EssencePrefix(a, b, |a|);
    } else {
      EssenceBeyond(a, b, n - 1);
    }
  }

  lemma EssenceConcat(a: string, b: string)
    ensures Essence(a + b) == Essence(a) + Essence(b)
  {
    EssenceIs(a);
    EssenceIs(b);
    EssenceIs(a + b);
    EssenceBeyond(a, b, |b|);
  }

  lemma EssenceSnoc(s: string, c: char)
    ensures Essence(s + [c]) == Essence(s) + if IsSpace(c) then "" else [c]
  {
    EssenceConcat(s, [c]);
    EssenceIs([c]);
    assert EssenceTo([c], 1) == EssenceTo([c], 0) + if IsSpace(c) then "" else [c];
  }

  lemma EssenceShows(s: string)
    requires s != "" && !IsSpace(s[0])
    ensures Essence(s) != ""
  {
    EssenceIs(s);
    EssenceKeeps(s, 0, |s|);
  }

  lemma {:induction false} EssenceKeeps(s: string, i: nat, n: nat)
    requires i < n <= |s| && !IsSpace(s[i])
    ensures s[i] in EssenceTo(s, n)
  {
    if i < n - 1 {
      EssenceKeeps(s, i, n - 1);
    }
  }

  lemma EssenceSlice(s: string, i: nat, j: nat, k: nat)
    requires i <= j <= k <= |s|
    ensures Essence(s[i..k]) == Essence(s[i..j]) + Essence(s[j..k])
  {
    assert s[i..k] == s[i..j] + s[j..k];
    EssenceConcat(s[i..j], s[j..k]);
  }

  lemma EssenceSuffix(s: string, i: nat)
    requires i <= |s|
    ensures Essence(s[i..|s|]) == Essence(s[i..])
  {
    assert s[i..|s|] == s[i..];
  }

  lemma EssenceThree(s: string, i: nat, j: nat)
    requires i <= j <= |s|
    ensures Essence(s) == Essence(s[..i]) + Essence(s[i..j]) + Essence(s[j..])
  {
    var front := s[..j];
    assert s == front + s[j..];
    EssenceConcat(front, s[j..]);
    assert front == s[..i] + s[i..j];
    EssenceConcat(s[..i], s[i..j]);
  }

  function StripLeft(s: string): string {
    if s != [] && IsSpace(s[0]) then StripLeft(s[1..]) else s
  }

  function StripRight(s: string): string {
    if s != [] && IsSpace(s[|s| - 1]) then StripRight(s[..|s| - 1]) else s
  }

  function Strip(s: string): string {
    StripRight(StripLeft(s))
  }

  lemma {:induction false} StripLeftSpelled(s: string) returns (i: nat)
    ensures i <= |s| && StripLeft(s) == s[i..] && forall k :: 0 <= k < i ==> IsSpace(s[k])
    ensures i < |s| ==> !IsSpace(s[i])
  {
    i := 0;
    if s != [] && IsSpace(s[0]) {
      i := StripLeftSpelled(s[1..]);
      assert s[1..][i..] == s[i + 1..];
      i := i + 1;
    }
  }

  lemma {:induction false} StripRightSpelled(s: string) returns (j: nat)
    ensures j <= |s| && StripRight(s) == s[..j] && forall k :: j <= k < |s| ==> IsSpace(s[k])
    ensures j > 0 ==> !IsSpace(s[j - 1])
  {
    j := |s|;
    if s != [] && IsSpace(s[|s| - 1]) {
      j := StripRightSpelled(s[..|s| - 1]);
      assert s[..|s| - 1][..j] == s[..j];
    }
  }

  /** Stripping takes away exactly the white space at both ends. */
  lemma StripSpelled(s: string) returns (i: nat, j: nat)
    ensures i <= j <= |s| && Strip(s) == s[i..j]
    ensures forall k :: 0 <= k < i || j <= k < |s| ==> IsSpace(s[k])
    ensures i < j ==> !IsSpace(s[i]) && !IsSpace(s[j - 1])
  {
    i := StripLeftSpelled(s);
    var n := StripRightSpelled(s[i..]);
    j := i + n;
    assert s[i..][..n] == s[i..j];
    assert forall k :: j <= k < |s| ==> s[k] == s[i..][k - i];
  }

  lemma {:induction false} EssenceStripLeft(s: string)
    ensures Essence(StripLeft(s)) == Essence(s)
    ensures |StripLeft(s)| <= |s| && Weight(StripLeft(s)) <= Weight(s)
  {
    if s != [] && IsSpace(s[0]) {
      EssenceStripLeft(s[1..]);
      assert s == [s[0]] + s[1..];
      EssenceConcat([s[0]], s[1..]);
      EssenceSnoc("", s[0]);
      assert "" + [s[0]] == [s[0]];
      EssenceEmpty();
    }
  }

  lemma {:induction false} EssenceStripRight(s: string)
    ensures Essence(StripRight(s)) == Essence(s)
    ensures |StripRight(s)| <= |s| && Weight(StripRight(s)) <= Weight(s)
  {
    if s != [] && IsSpace(s[|s| - 1]) {
      var front := s[..|s| - 1];
      assert s == front + [s[|s| - 1]];
      EssenceSnoc(front, s[|s| - 1]);
      WeightConcat(front, [s[|s| - 1]]);
      EssenceStripRight(front);
    }
  }

  /** Stripping loses only whitespace and never makes a text heavier. */
  lemma EssenceStrip(s: string)
    ensures Essence(Strip(s)) == Essence(s)
    ensures |Strip(s)| <= |s| && Weight(Strip(s)) <= Weight(s)
  {
    EssenceStripLeft(s);
    EssenceStripRight(StripLeft(s));
  }

  /** A text strips to nothing exactly if it is blank. */
  lemma {:induction false} StripEmptyIff(s: string)
    ensures Strip(s) == "" <==> Essence(s) == ""
  {
    EssenceStrip(s);
    StripTrimmed(s);
    var t := Strip(s);
    if t != "" {
      EssenceShows(t);
    } else {
      EssenceEmpty();
    }
  }

  lemma {:induction false} StripTrimmed(s: string)
    ensures Strip(s) != "" ==> !IsSpace(Strip(s)[0])
  {
    StripLeftTrimmed(s);
    StripRightKeepsFirst(StripLeft(s));
  }

  lemma {:induction false} StripLeftTrimmed(s: string)
    ensures StripLeft(s) != "" ==> !IsSpace(StripLeft(s)[0])
  {
    if s != [] && IsSpace(s[0]) {
      StripLeftTrimmed(s[1..]);
    }
  }

  lemma {:induction false} StripRightKeepsFirst(s: string)
    ensures StripRight(s) != "" ==> s != "" && StripRight(s)[0] == s[0]
  {
    if s != [] && IsSpace(s[|s| - 1]) {
      StripRightKeepsFirst(s[..|s| - 1]);
    }
  }

  // ---- Token estimates, in exact tenths ----

  function CharWeight(c: char): nat {
    if 0x4e00 <= c as int <= 0x9fff then 7 else 3
  }

  function Weight(s: string): nat {
    if s == [] then 0 else CharWeight(s[0]) + Weight(s[1..])
  }

  function Estimate(s: string): nat {
    Weight(s) / 10
  }

  /** Seven tenths for each CJK character, three for each other, rounded down at the end. */
  lemma EstimateSpelled(s: string)
    ensures var cjk := set i | 0 <= i < |s| && 0x4e00 <= s[i] as int <= 0x9fff;
            Estimate(s) == (7 * |cjk| + 3 * (|s| - |cjk|)) / 10
  {
    WeightSpelled(s);
  }

  lemma {:induction false} WeightSpelled(s: string)
    ensures var cjk := set i | 0 <= i < |s| && 0x4e00 <= s[i] as int <= 0x9fff;
            Weight(s) == 7 * |cjk| + 3 * (|s| - |cjk|)
  {
    var cjk := set i | 0 <= i < |s| && 0x4e00 <= s[i] as int <= 0x9fff;
    if s == [] {
      assert cjk == {};
    } else {
      var n := |s| - 1;
      var front := s[..n];
      WeightSpelled(front);
      WeightConcat(front, [s[n]]);
      assert s == front + [s[n]] && [s[n]][1..] == [];
      var before := set i | 0 <= i < |front| && 0x4e00 <= front[i] as int <= 0x9fff;
      assert cjk == before + if 0x4e00 <= s[n] as int <= 0x9fff then {n} else {};
    }
  }

  lemma {:induction false} WeightConcat(a: string, b: string)
    ensures Weight(a + b) == Weight(a) + Weight(b)
  {
    if a == [] {
      assert a + b == b;
    } else {
      assert (a + b)[1..] == a[1..] + b;
      WeightConcat(a[1..], b);
    }
  }

  function SumEstimates(parts: seq<string>): nat {
    if parts == [] then 0 else SumEstimates(parts[..|parts| - 1]) + Estimate(parts[|parts| - 1])
  }

  // ---- Pieces joined by blank lines ----

  const GAP := "\n\n"

  lemma {:induction false} JoinSnoc(parts: seq<string>, part: string, sep: string)
    ensures Join(parts + [part], sep) == if parts == [] then part else Join(parts, sep) + sep + part
  {
    if |parts| == 1 {
      assert (parts + [part])[1..] == [part];
    } else if parts != [] {
      assert (parts + [part])[1..] == parts[1..] + [part];
      JoinSnoc(parts[1..], part, sep);
    }
  }

  ghost function EssenceOf(parts: seq<string>): string {
    if parts == [] then "" else EssenceOf(parts[..|parts| - 1]) + Essence(parts[|parts| - 1])
  }

  lemma EssenceOfSnoc(parts: seq<string>, part: string)
    ensures EssenceOf(parts + [part]) == EssenceOf(parts) + Essence(part)
    ensures SumEstimates(parts + [part]) == SumEstimates(parts) + Estimate(part)
  {
    assert (parts + [part])[..|parts|] == parts;
  }

  lemma EssenceOfUpTo(parts: seq<string>, i: nat)
    requires i < |parts|
    ensures EssenceOf(parts[..i + 1]) == EssenceOf(parts[..i]) + Essence(parts[i])
    ensures SumEstimates(parts[..i + 1]) == SumEstimates(parts[..i]) + Estimate(parts[i])
  {
    assert parts[..i + 1] == parts[..i] + [parts[i]];
    EssenceOfSnoc(parts[..i], parts[i]);
  }

  /** Joining by blank lines adds whitespace only. */
  lemma {:induction false} EssenceOfJoin(parts: seq<string>)
    ensures Essence(Join(parts, GAP)) == EssenceOf(parts)
  {
    EssenceEmpty();
    if parts != [] {
      var front, last := parts[..|parts| - 1], parts[|parts| - 1];
      assert parts == front + [last];
      JoinSnoc(front, last, GAP);
      EssenceOfJoin(front);
      if front != [] {
        EssenceConcat(Join(front, GAP), GAP);
        EssenceConcat(Join(front, GAP) + GAP, last);
      }
    }
  }

  /** The price of rounding each piece down and of the blank lines between them. */
  lemma {:induction false} WeightOfJoin(parts: seq<string>)
    requires parts != []
    ensures Weight(Join(parts, GAP)) <= 10 * SumEstimates(parts) + 15 * |parts| - 6
  {
    var front, last := parts[..|parts| - 1], parts[|parts| - 1];
    assert parts == front + [last];
    JoinSnoc(front, last, GAP);
    if front != [] {
      WeightOfJoin(front);
      WeightConcat(Join(front, GAP), GAP);
      WeightConcat(Join(front, GAP) + GAP, last);
    }
  }

  /** The text between blank lines. */
  function Paragraphs(s: string): (r: seq<string>)
    ensures |r| >= 1
  {
    if s == [] then [""]
    else if StartsWith(s, GAP) then [""] + Paragraphs(s[2..])
    else
      var rest := Paragraphs(s[1..]);
      [[s[0]] + rest[0]] + rest[1..]
  }

  lemma JoinPrepend(c: char, parts: seq<string>, sep: string)
    requires parts != []
    ensures Join([[c] + parts[0]] + parts[1..], sep) == [c] + Join(parts, sep)
  {
    assert ([[c] + parts[0]] + parts[1..])[1..] == parts[1..];
  }

  lemma JoinAfterEmpty(parts: seq<string>, sep: string)
    requires parts != []
    ensures Join([""] + parts, sep) == sep + Join(parts, sep)
  {
    assert ([""] + parts)[1..] == parts;
  }

  /** Splitting at blank lines and joining again gives back the text. */
  lemma {:induction false} JoinParagraphs(s: string)
    ensures Join(Paragraphs(s), GAP) == s
  {
    if s == [] {
    } else if StartsWith(s, GAP) {
      JoinParagraphs(s[2..]);
      JoinAfterEmpty(Paragraphs(s[2..]), GAP);
      assert s == GAP + s[2..];
    } else {
      JoinParagraphs(s[1..]);
      JoinPrepend(s[0], Paragraphs(s[1..]), GAP);
      assert s == [s[0]] + s[1..];
    }
  }

  lemma ParagraphStart(s: string)
    ensures Paragraphs(s)[0] == "" ==> s == [] || StartsWith(s, GAP)
    ensures Paragraphs(s)[0] != "" ==> s != [] && Paragraphs(s)[0][0] == s[0]
    ensures |Paragraphs(s)| == 1 && Paragraphs(s)[0] == "" ==> s == []
  {
  }

  lemma GapFirst(s: string)
    ensures StartsWith(s, GAP) <==> |s| > 1 && s[0] == '\n' && s[1] == '\n'
  {
    if |s| > 1 {
      assert s[..2] == [s[0], s[1]];
    }
  }

  /** The cuts are leftmost: a blank line shows neither inside a paragraph nor where the next line
      feed follows it. */
  lemma {:induction false} ParagraphsLeftmost(s: string, i: nat, k: nat)
    requires i < |Paragraphs(s)|
    requires var p := if i < |Paragraphs(s)| - 1 then Paragraphs(s)[i] + "\n" else Paragraphs(s)[i];
             k + 1 < |p|
    ensures var p := if i < |Paragraphs(s)| - 1 then Paragraphs(s)[i] + "\n" else Paragraphs(s)[i];
            p[k] != '\n' || p[k + 1] != '\n'
  {
    if StartsWith(s, GAP) {
      ParagraphsLeftmost(s[2..], i - 1, k);
    } else if i > 0 {
      ParagraphsLeftmost(s[1..], i, k);
    } else if k > 0 {
      ParagraphsLeftmost(s[1..], 0, k - 1);
    } else {
      ParagraphStart(s[1..]);
      GapFirst(s);
    }
  }

  // ---- What a chunk may hold ----

  /** Pieces set apart by blank lines whose estimates stay within the maximum, or a hard cut. */
  ghost predicate Bounded(text: string, max: nat) {
    || |text| <= 3 * max
    || exists pieces :: Packs(pieces, text, max)
  }

  ghost predicate Packs(pieces: seq<string>, text: string, max: nat) {
    && pieces != []
    && (text == Join(pieces, GAP) || text == Strip(Join(pieces, GAP)))
    && SumEstimates(pieces) <= max
  }

  /** A packed text of k pieces is estimated below the maximum plus one and a half per piece. */
  lemma PackedEstimate(pieces: seq<string>, text: string, max: nat)
    requires Packs(pieces, text, max)
    ensures 10 * Estimate(text) <= 10 * max + 15 * |pieces| - 6
    ensures Essence(text) == EssenceOf(pieces)
  {
    WeightOfJoin(pieces);
    EssenceStrip(Join(pieces, GAP));
    EssenceOfJoin(pieces);
  }
}
