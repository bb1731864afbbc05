/** Document trees: parsed chunks become primary records under a root URI. */
module DocumentTree {
  import opened Strings
  import opened Text
  import opened MarkdownTree

  // ---- Normalising parser output ----

  /** Falsy parent indexes read as none, so a parent index of zero is lost. */
  function FromParsed(c: ParsedChunk): ParsedChunk {
    if c.parentIndex == 0 then c.(parentIndex := -1) else c
  }

  predicate Blank(c: ParsedChunk) {
    Strip(c.content) == ""
  }

  /** The positions of the chunks that are kept. */
  function Kept(chunks: seq<ParsedChunk>): (r: seq<nat>)
    ensures |r| <= |chunks|
    ensures forall j :: 0 <= j < |r| ==> j <= r[j] < |chunks| && !Blank(chunks[r[j]])
    ensures forall j, k :: 0 <= j < k < |r| ==> r[j] < r[k]
  {
    if chunks == [] then []
    else
      var n := |chunks| - 1;
      Kept(chunks[..n]) + if Blank(chunks[n]) then [] else [n]
  }

  /** Blank chunks are dropped, and nothing is renumbered. */
  function Normalized(chunks: seq<ParsedChunk>): (r: seq<ParsedChunk>)
    ensures |r| == |Kept(chunks)|
    ensures forall j :: 0 <= j < |r| ==> r[j] == FromParsed(chunks[Kept(chunks)[j]])
  {
    seq(|Kept(chunks)|, j requires 0 <= j < |Kept(chunks)| => FromParsed(chunks[Kept(chunks)[j]]))
  }

  /** `at` are the positions of all chunks with something but white space in them, in order,
      and `r` those chunks, a parent index of 0 turned into none. */
  ghost predicate PicksNonBlank(chunks: seq<ParsedChunk>, at: seq<nat>, r: seq<ParsedChunk>) {
    && |at| == |r|
    && (forall j, k :: 0 <= j < k < |at| ==> at[j] < at[k])
    && (forall i: nat :: i in at <==> i < |chunks| && Strip(chunks[i].content) != "")
    && (forall j :: 0 <= j < |r| ==> at[j] < |chunks| && Adopted(chunks[at[j]], r[j]))
  }

  predicate Adopted(parsed: ParsedChunk, c: ParsedChunk) {
    && c.content == parsed.content && c.title == parsed.title && c.level == parsed.level && c.path == parsed.path
    && c.parentIndex == if parsed.parentIndex == 0 then -1 else parsed.parentIndex
  }

  lemma NormalizedPicks(chunks: seq<ParsedChunk>)
    ensures PicksNonBlank(chunks, Kept(chunks), Normalized(chunks))
  {
    var kept, r := Kept(chunks), Normalized(chunks);
    assert forall j :: 0 <= j < |r| ==> Adopted(chunks[kept[j]], r[j]);
    forall i: nat ensures i in kept <==> i < |chunks| && Strip(chunks[i].content) != "" {
      KeptIff(chunks, i);
    }
  }

  lemma KeptIff(chunks: seq<ParsedChunk>, i: nat)
    ensures i in Kept(chunks) <==> i < |chunks| && Strip(chunks[i].content) != ""
  {
    if i < |chunks| && !Blank(chunks[i]) {
      KeptHas(chunks, i);
    }
  }

  method ParseNormalized(chunks: seq<ParsedChunk>) returns (r: seq<ParsedChunk>)
    ensures r == Normalized(chunks)
    ensures exists at :: PicksNonBlank(chunks, at, r)
  {
    r := [];
    for i := 0 to |chunks|
      invariant r == Normalized(chunks[..i])
    {
      assert chunks[..i + 1][..i] == chunks[..i];
      if Strip(chunks[i].content) != "" {
        r := r + [FromParsed(chunks[i])];
      }
    }
    assert chunks[..|chunks|] == chunks;
    NormalizedPicks(chunks);
  }

  /** No blank chunk up to and including position `q`. */
  predicate SolidThrough(chunks: seq<ParsedChunk>, q: nat) {
    q < |chunks| && forall i :: 0 <= i <= q ==> !Blank(chunks[i])
  }

  lemma {:induction false} NothingDropped(chunks: seq<ParsedChunk>)
    requires forall i :: 0 <= i < |chunks| ==> !Blank(chunks[i])
    ensures |Kept(chunks)| == |chunks| && forall i :: 0 <= i < |chunks| ==> Kept(chunks)[i] == i
  {
    if chunks != [] {
      NothingDropped(chunks[..|chunks| - 1]);
    }
  }

  lemma {:induction false} KeptGrows(chunks: seq<ParsedChunk>, m: nat)
    requires m <= |chunks|
    ensures Kept(chunks[..m]) <= Kept(chunks)
  {
    if m < |chunks| {
      var n := |chunks| - 1;
      KeptGrows(chunks[..n], m);
      assert chunks[..n][..m] == chunks[..m];
    } else {
      assert chunks[..m] == chunks;
    }
  }

  lemma {:induction false} KeptGap(chunks: seq<ParsedChunk>, i: nat, q: nat)
    requires i <= q < |Kept(chunks)|
    ensures Kept(chunks)[q] - Kept(chunks)[i] >= q - i
  {
    if i < q {
      KeptGap(chunks, i, q - 1);
    }
  }

  /** A position keeps its number exactly if nothing blank lies at or before it. */
  lemma KeptInPlaceIff(chunks: seq<ParsedChunk>, q: nat)
    ensures (q < |Kept(chunks)| && Kept(chunks)[q] == q) <==> SolidThrough(chunks, q)
  {
    if SolidThrough(chunks, q) {
      NothingDropped(chunks[..q + 1]);
      KeptGrows(chunks, q + 1);
    }
    if q < |Kept(chunks)| && Kept(chunks)[q] == q {
      forall i | 0 <= i <= q ensures !Blank(chunks[i]) {
        KeptGap(chunks, i, q);
        assert Kept(chunks)[i] == i;
      }
    }
  }

  /** The kept chunk at `j` still points at the chunk the parser meant. */
  predicate PointsRight(chunks: seq<ParsedChunk>, j: nat)
    requires j < |Kept(chunks)|
  {
    var q := chunks[Kept(chunks)[j]].parentIndex;
    q >= 1 ==> q < |Kept(chunks)| && Kept(chunks)[q] == q
  }

  /** No blank chunk lies at or before a position that a kept chunk names as its parent. */
  predicate LinksSolid(chunks: seq<ParsedChunk>) {
    forall i :: 0 <= i < |chunks| && !Blank(chunks[i]) && chunks[i].parentIndex >= 1
      ==> SolidThrough(chunks, chunks[i].parentIndex)
  }

  /** Dropping blank chunks keeps every parent link exactly under that condition. */
  lemma LinksSurviveIff(chunks: seq<ParsedChunk>)
    ensures (forall j :: 0 <= j < |Kept(chunks)| ==> PointsRight(chunks, j)) <==> LinksSolid(chunks)
  {
    var kept := Kept(chunks);
    forall j | 0 <= j < |kept|
      ensures PointsRight(chunks, j) <==>
                (chunks[kept[j]].parentIndex >= 1 ==> SolidThrough(chunks, chunks[kept[j]].parentIndex)) {
      if chunks[kept[j]].parentIndex >= 1 {
        KeptInPlaceIff(chunks, chunks[kept[j]].parentIndex);
      }
    }
    forall i | 0 <= i < |chunks| && !Blank(chunks[i])
      ensures exists j :: 0 <= j < |kept| && kept[j] == i {
      KeptHas(chunks, i);
    }
  }

  lemma {:induction false} KeptHas(chunks: seq<ParsedChunk>, i: nat)
    requires i < |chunks| && !Blank(chunks[i])
    ensures exists j :: 0 <= j < |Kept(chunks)| && Kept(chunks)[j] == i
  {
    var n := |chunks| - 1;
    if i < n {
      KeptHas(chunks[..n], i);
      var j :| 0 <= j < |Kept(chunks[..n])| && Kept(chunks[..n])[j] == i;
      assert Kept(chunks)[j] == i;
    } else {
      assert Kept(chunks)[|Kept(chunks)| - 1] == n;
    }
  }

  // ---- Child URIs ----

  /** A number in at least four digits. */
  function Padded(n: nat): string {
    var d := Decimal(n);
    seq(if |d| < 4 then 4 - |d| else 0, _ => '0') + d
  }

  lemma {:induction false} ValueOfPadding(z: nat, d: string)
    requires forall c :: c in d ==> IsDigit(c)
    ensures forall c :: c in seq(z, _ => '0') + d ==> IsDigit(c)
    ensures Value(seq(z, _ => '0') + d) == Value(d)
  {
    var s := seq(z, _ => '0') + d;
    if d != [] {
      ValueOfPadding(z, d[..|d| - 1]);
      assert s[..|s| - 1] == seq(z, _ => '0') + d[..|d| - 1];
    } else if z > 0 {
      ValueOfPadding(z - 1, d);
      assert s[..|s| - 1] == seq(z - 1, _ => '0') + d;
    }
  }

  lemma PaddedInjective(m: nat, n: nat)
    requires Padded(m) == Padded(n)
    ensures m == n
  {
    ValueOfPadding(if |Decimal(m)| < 4 then 4 - |Decimal(m)| else 0, Decimal(m));
    ValueOfPadding(if |Decimal(n)| < 4 then 4 - |Decimal(n)| else 0, Decimal(n));
    ValueOfDecimal(m);
    ValueOfDecimal(n);
  }

  lemma PaddedDigits(n: nat)
    ensures '-' !in Padded(n) && '/' !in Padded(n) && Padded(n) != ""
  {
    var d := Decimal(n);
    assert forall c :: c in d ==> IsDigit(c);
  }

  /** The stable URI of the chunk at an index; `base` is its slug. */
  function ChunkUri(root: string, index: nat, base: string): string {
    TrimSlashes(root) + "/" + Padded(index + 1) + "-" + base
  }

  function Base(slug: string, index: nat): string {
    if slug != "" then slug else "section-" + Decimal(index + 1)
  }

  lemma ChunkUriInjective(root: string, i: nat, b: string, j: nat, c: string)
    requires ChunkUri(root, i, b) == ChunkUri(root, j, c)
    ensures i == j
  {
    var front := TrimSlashes(root) + "/";
    var x, y := Padded(i + 1) + "-" + b, Padded(j + 1) + "-" + c;
    assert ChunkUri(root, i, b) == front + x && ChunkUri(root, j, c) == front + y;
    assert (front + x)[|front|..] == x && (front + y)[|front|..] == y;
    PaddedDigits(i + 1);
    PaddedDigits(j + 1);
    SplitAtFirst(Padded(i + 1), b, Padded(j + 1), c, '-');
    PaddedInjective(i + 1, j + 1);
  }

  lemma ChunkUriNotRoot(root: string, i: nat, b: string)
    ensures ChunkUri(root, i, b) != root
  {
    PaddedDigits(i + 1);
    var k := |TrimSlashes(root)| + 1;
    assert ChunkUri(root, i, b)[k] == Padded(i + 1)[0];
    assert Padded(i + 1)[0] in Padded(i + 1);
  }

  /** The stable URIs, one per chunk. */
  function StableUris(root: string, slugs: seq<string>): (r: seq<string>)
    ensures |r| == |slugs|
    ensures forall i :: 0 <= i < |r| ==> r[i] == ChunkUri(root, i, Base(slugs[i], i))
  {
    seq(|slugs|, i requires 0 <= i < |slugs| => ChunkUri(root, i, Base(slugs[i], i)))
  }

  lemma StableUrisDistinct(root: string, slugs: seq<string>)
    ensures forall i, j :: 0 <= i < j < |slugs| ==> StableUris(root, slugs)[i] != StableUris(root, slugs)[j]
    ensures forall i :: 0 <= i < |slugs| ==> StableUris(root, slugs)[i] != root
  {
    forall i, j | 0 <= i < j < |slugs|
      ensures StableUris(root, slugs)[i] != StableUris(root, slugs)[j] {
      if StableUris(root, slugs)[i] == StableUris(root, slugs)[j] {
        ChunkUriInjective(root, i, Base(slugs[i], i), j, Base(slugs[j], j));
      }
    }
    forall i | 0 <= i < |slugs| ensures StableUris(root, slugs)[i] != root {
      ChunkUriNotRoot(root, i, Base(slugs[i], i));
    }
  }

  ghost function AtLeastAsLong(used: set<string>, n: nat): set<string> {
    set u | u in used && |u| >= n
  }

  /** The candidate with a suffix put behind it `k` times. */
  function Candidate(first: string, used: set<string>, k: nat): string {
    if k == 0 then first else Candidate(first, used, k - 1) + "-" + Decimal(|used| + 1)
  }

  /** Suffix the candidate until nobody uses it. */
  method FreeCandidate(first: string, used: set<string>) returns (candidate: string)
    ensures candidate !in used
    ensures first !in used ==> candidate == first
    ensures exists k: nat :: candidate == Candidate(first, used, k)
                             && forall j: nat :: j < k ==> Candidate(first, used, j) in used
  {
    candidate := first;
    ghost var k: nat := 0;
    while candidate in used
      invariant candidate == first || first in used
      invariant candidate == Candidate(first, used, k)
      invariant forall j: nat :: j < k ==> Candidate(first, used, j) in used
      decreases |AtLeastAsLong(used, |candidate|)|
    {
      k := k + 1;
      var next := candidate + "-" + Decimal(|used| + 1);
      Shrinks(AtLeastAsLong(used, |next|), AtLeastAsLong(used, |candidate|), candidate);
      candidate := next;
    }
  }

  /** The first candidate is never taken, so the suffixes against collisions never show. */
  method ChunkUris(root: string, slugs: seq<string>) returns (uris: seq<string>)
    ensures uris == StableUris(root, slugs)
  {
    var used: set<string> := {};
    uris := [];
    for index := 0 to |slugs|
      invariant |uris| == index
      invariant forall i :: 0 <= i < index ==> uris[i] == ChunkUri(root, i, Base(slugs[i], i))
      invariant forall u :: u in used <==> u in uris
    {
      var base := Base(slugs[index], index);
      NotYetUsed(root, slugs, uris, index, base);
      var candidate := FreeCandidate(ChunkUri(root, index, base), used);
      used := used + {candidate};
      uris := uris + [candidate];
    }
  }

  lemma NotYetUsed(root: string, slugs: seq<string>, uris: seq<string>, index: nat, base: string)
    requires |uris| == index <= |slugs|
    requires forall i :: 0 <= i < index ==> uris[i] == ChunkUri(root, i, Base(slugs[i], i))
    ensures ChunkUri(root, index, base) !in uris
  {
    forall i | 0 <= i < index ensures uris[i] != ChunkUri(root, index, base) {
      if uris[i] == ChunkUri(root, index, base) {
        ChunkUriInjective(root, i, Base(slugs[i], i), index, base);
      }
    }
  }

  lemma Shrinks(a: set<string>, b: set<string>, x: string)
    requires a <= b && x in b && x !in a
    ensures |a| < |b|
  {
    assert a <= b - {x};
    SubsetSize(a, b - {x});
  }

  lemma {:induction false} SubsetSize(a: set<string>, b: set<string>)
    requires a <= b
    ensures |a| <= |b|
  {
    if a != {} {
      var x :| x in a;
      SubsetSize(a - {x}, b - {x});
    }
  }

  // ---- Writing the records ----

  datatype TreeRecord = TreeRecord(uri: string, parentUri: string, isLeaf: bool, chunk: ParsedChunk)

  /** Four digits or more that spell the number of the chunk, counted from 1, and its slug. */
  ghost predicate NumberedUri(uri: string, root: string, slug: string, i: nat) {
    exists digits :: NumberedWith(uri, root, slug, i, digits)
  }

  ghost predicate NumberedWith(uri: string, root: string, slug: string, i: nat, digits: string) {
    && (forall c :: c in digits ==> IsDigit(c)) && Value(digits) == i + 1
    && |digits| >= 4 && (|digits| > 4 ==> digits[0] != '0')
    && uri == TrimSlashes(root) + "/" + digits + "-" + (if slug == "" then "section-" + Decimal(i + 1) else slug)
  }

  lemma StableUriIsNumbered(root: string, slugs: seq<string>, i: nat)
    requires i < |slugs|
    ensures NumberedUri(StableUris(root, slugs)[i], root, slugs[i], i)
  {
    PaddedReads(i + 1);
    assert NumberedWith(StableUris(root, slugs)[i], root, slugs[i], i, Padded(i + 1));
  }

  lemma PaddedReads(n: nat)
    requires n > 0
    ensures forall c :: c in Padded(n) ==> IsDigit(c)
    ensures Value(Padded(n)) == n && |Padded(n)| >= 4 && (|Padded(n)| > 4 ==> Padded(n)[0] != '0')
  {
    var d := Decimal(n);
    ValueOfPadding(if |d| < 4 then 4 - |d| else 0, d);
    ValueOfDecimal(n);
    DecimalLeads(n);
  }

  /** No leading zero but for zero itself. */
  lemma {:induction false} DecimalLeads(n: nat)
    requires n > 0
    ensures Decimal(n) != "" && Decimal(n)[0] != '0'
  {
    if n >= 10 {
      DecimalLeads(n / 10);
    }
  }

  predicate IsTree(chunks: seq<ParsedChunk>) {
    || |chunks| > 1
    || (exists i :: 0 <= i < |chunks| && (chunks[i].parentIndex >= 0 || chunks[i].path != ""))
  }

  /** A parent index beyond the list is an index error in the writer. */
  predicate InRange(chunks: seq<ParsedChunk>, i: nat)
    requires i < |chunks|
  {
    chunks[i].parentIndex < |chunks|
  }

  function RecordFor(root: string, uris: seq<string>, chunks: seq<ParsedChunk>, i: nat): TreeRecord
    requires |uris| == |chunks| && i < |chunks| && InRange(chunks, i)
  {
    var p := chunks[i].parentIndex;
    TreeRecord(uris[i], if p >= 0 then uris[p] else root, !NamedParent(chunks, i), chunks[i])
  }

  predicate NamedParent(chunks: seq<ParsedChunk>, i: int) {
    exists j :: 0 <= j < |chunks| && chunks[j].parentIndex == i
  }

  /** Write the chunks in order; an index error stops the run after what was written. */
  method WriteChildren(root: string, slugs: seq<string>, chunks: seq<ParsedChunk>)
    returns (written: seq<TreeRecord>, failed: bool)
    requires |slugs| == |chunks|
    ensures !IsTree(chunks) ==> written == [] && !failed
    ensures IsTree(chunks) ==>
              && (failed <==> exists i :: 0 <= i < |chunks| && !InRange(chunks, i))
              && |written| <= |chunks|
              && (forall i :: 0 <= i < |written| ==>
                    InRange(chunks, i) && written[i] == RecordFor(root, StableUris(root, slugs), chunks, i))
              && (!failed ==> |written| == |chunks|)
              && (failed ==> |written| < |chunks| && !InRange(chunks, |written|))
    ensures written == [] && !failed <==>
              |chunks| == 0 || (|chunks| == 1 && chunks[0].parentIndex < 0 && chunks[0].path == "")
    ensures !failed && written != [] ==> |written| == |chunks|
    ensures failed <==> (exists i :: 0 <= i < |chunks| && chunks[i].parentIndex >= |chunks|)
    ensures forall i :: 0 <= i < |written| ==>
              && NumberedUri(written[i].uri, root, slugs[i], i)
              && written[i].chunk == chunks[i]
              && (chunks[i].parentIndex < 0 ==> written[i].parentUri == root)
              && (0 <= chunks[i].parentIndex < |chunks| ==>
                    NumberedUri(written[i].parentUri, root, slugs[chunks[i].parentIndex], chunks[i].parentIndex))
              && (written[i].isLeaf <==> forall j :: 0 <= j < |chunks| ==> chunks[j].parentIndex != i)
  {
    written, failed := [], false;
    if !IsTree(chunks) {
      assert forall i :: 0 <= i < |chunks| ==> chunks[i].parentIndex < 0;
      return;
    }
    var uris := ChunkUris(root, slugs);
    forall i: nat | i < |slugs| ensures NumberedUri(uris[i], root, slugs[i], i) {
      StableUriIsNumbered(root, slugs, i);
    }
    var parents := set c | c in chunks :: c.parentIndex;
    for i := 0 to |chunks|
      invariant |written| == i
      invariant forall j :: 0 <= j < i ==>
                  InRange(chunks, j) && written[j] == RecordFor(root, StableUris(root, slugs), chunks, j)
      invariant forall j :: 0 <= j < i ==> chunks[j].parentIndex < |chunks|
    {
      if !InRange(chunks, i) {
        assert chunks[i].parentIndex >= |chunks|;
        failed := true;
        return;
      }
      var record := ChunkRecord(root, uris, chunks, parents, i);
      written := written + [record];
    }
  }

  method ChunkRecord(root: string, uris: seq<string>, chunks: seq<ParsedChunk>, parents: set<int>, i: nat)
    returns (record: TreeRecord)
    requires |uris| == |chunks| && i < |chunks| && InRange(chunks, i)
    requires parents == set c | c in chunks :: c.parentIndex
    ensures record == RecordFor(root, uris, chunks, i)
  {
    var p := chunks[i].parentIndex;
    assert i in parents <==> NamedParent(chunks, i);
    record := TreeRecord(uris[i], if p >= 0 then uris[p] else root, i !in parents, chunks[i]);
  }

  // ---- What a completed write guarantees ----

  predicate Written(root: string, slugs: seq<string>, chunks: seq<ParsedChunk>, written: seq<TreeRecord>) {
    && |slugs| == |chunks| == |written|
    && forall i :: 0 <= i < |written| ==>
         InRange(chunks, i) && written[i] == RecordFor(root, StableUris(root, slugs), chunks, i)
  }

  /** A record is a leaf exactly if no written record names it as its parent. */
  lemma LeafIff(root: string, slugs: seq<string>, chunks: seq<ParsedChunk>, written: seq<TreeRecord>, i: nat)
    requires Written(root, slugs, chunks, written) && i < |written|
    ensures written[i].isLeaf <==> forall j :: 0 <= j < |written| ==> written[j].parentUri != written[i].uri
    ensures forall j :: 0 <= j < |written| && j != i ==> written[j].uri != written[i].uri
    ensures written[i].uri != root
  {
    StableUrisDistinct(root, slugs);
    if !written[i].isLeaf {
      var j :| 0 <= j < |chunks| && chunks[j].parentIndex == i;
      assert written[j].parentUri == written[i].uri;
    }
    forall j | 0 <= j < |written| && written[j].parentUri == written[i].uri
      ensures !written[i].isLeaf {
      assert written[j] == RecordFor(root, StableUris(root, slugs), chunks, j);
      assert chunks[j].parentIndex == i;
    }
  }

  /** Following parent URIs from a record leads to the root through earlier records only. */
  ghost predicate ReachesRoot(root: string, written: seq<TreeRecord>, i: nat)
    requires i < |written|
    decreases i
  {
    || written[i].parentUri == root
    || exists j :: 0 <= j < i && written[j].uri == written[i].parentUri && ReachesRoot(root, written, j)
  }

  /** Parser output whose links survive the filter is written as the same forest: each parent
      is written before its children, every chain ends at the root, and what the parser put
      below chunk 0 hangs from the root. */
  lemma {:induction false} ForestIsWritten(root: string, slugs: seq<string>, parsed: seq<ParsedChunk>,
                                           written: seq<TreeRecord>, j: nat)
    requires Forest(parsed) && LinksSolid(parsed)
    requires Written(root, slugs, Normalized(parsed), written) && j < |written|
    ensures |written| == |Kept(parsed)|
    ensures var p := parsed[Kept(parsed)[j]].parentIndex;
            if p >= 1 then p < j && Kept(parsed)[p] == p && written[j].parentUri == written[p].uri
            else written[j].parentUri == root
    ensures ReachesRoot(root, written, j)
  {
    var p := parsed[Kept(parsed)[j]].parentIndex;
    assert written[j] == RecordFor(root, StableUris(root, slugs), Normalized(parsed), j);
    if p >= 1 {
      LinksSurviveIff(parsed);
      assert PointsRight(parsed, j);
      assert p < j;
      ForestIsWritten(root, slugs, parsed, written, p);
      assert written[p].uri == written[j].parentUri;
    }
  }

  /** For such output the write cannot fail. */
  lemma ForestNeverFails(parsed: seq<ParsedChunk>, j: nat)
    requires Forest(parsed) && LinksSolid(parsed) && j < |Normalized(parsed)|
    ensures InRange(Normalized(parsed), j)
  {
    LinksSurviveIff(parsed);
    assert PointsRight(parsed, j);
  }

  /** With a blank directory in the list, a record can become its own parent: the tree below
      it is cut off from the root although the parser delivered a forest. */
  lemma BlankDirectoryCutsOff(root: string, slugs: seq<string>, written: seq<TreeRecord>)
    returns (parsed: seq<ParsedChunk>)
    requires |slugs| == 2
    ensures Forest(parsed) && |Normalized(parsed)| == 2
    ensures Written(root, slugs, Normalized(parsed), written) ==>
              written[1].parentUri == written[1].uri && !ReachesRoot(root, written, 1)
  {
    parsed := [ParsedChunk("a", "a", 1, -1, ""), ParsedChunk("", "", 1, -1, ""),
               ParsedChunk("b", "b", 2, 1, "")];
    BlankMiddle(parsed);
    if Written(root, slugs, Normalized(parsed), written) {
      OwnParent(root, slugs, Normalized(parsed), written);
    }
  }

  lemma OwnParent(root: string, slugs: seq<string>, chunks: seq<ParsedChunk>, written: seq<TreeRecord>)
    requires Written(root, slugs, chunks, written) && |written| == 2 && chunks[1].parentIndex == 1
    ensures written[1].parentUri == written[1].uri && !ReachesRoot(root, written, 1)
  {
    StableUrisDistinct(root, slugs);
  }

  lemma BlankMiddle(parsed: seq<ParsedChunk>)
    requires |parsed| == 3 && parsed[0].content == "a" && parsed[1].content == "" && parsed[2].content == "b"
    ensures Kept(parsed) == [0, 2]
  {
    assert Strip("a") == "a" && Strip("") == "" && Strip("b") == "b";
    var two := parsed[..2];
    assert two[..1] == [parsed[0]];
    assert [parsed[0]][..0] == [];
    assert Kept([parsed[0]]) == [0];
    assert Kept(two) == [0];
  }
}
