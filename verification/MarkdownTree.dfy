/** The flat chunk list as a forest, and the document text its leaves add up to. */
module MarkdownTree {
  import opened Strings
  import opened Text
  import opened MarkdownSections

  datatype ParsedChunk = ParsedChunk(
    content: string, title: string, level: nat, parentIndex: int, path: string)

  /** What a chunk contributes to the document text: a leaf its content; a directory nothing,
      its own text being repeated by its first child, unless it only shows its title, which
      then stands for its heading line. */
  ghost function Tile(c: ParsedChunk, directory: bool): string {
    if !directory then Essence(c.content)
    else if c.content == c.title then Essence(Hashes(c.level) + " " + c.title)
    else ""
  }

  ghost function Body(chunks: seq<ParsedChunk>, dirs: set<int>, lo: nat, hi: nat): string
    requires lo <= hi <= |chunks|
    decreases hi - lo
  {
    if lo == hi then "" else Body(chunks, dirs, lo, hi - 1) + Tile(chunks[hi - 1], (hi - 1) in dirs)
  }

  /** The chunks that some chunk names as its parent. */
  function Parents(chunks: seq<ParsedChunk>): set<int> {
    set c | c in chunks && c.parentIndex != -1 :: c.parentIndex
  }

  /** The text the chunk list stands for. */
  ghost function Document(chunks: seq<ParsedChunk>): string {
    Body(chunks, Parents(chunks), 0, |chunks|)
  }

  /** Every parent is none, or an earlier chunk exactly one level above. */
  predicate Forest(chunks: seq<ParsedChunk>) {
    forall i :: 0 <= i < |chunks| && chunks[i].parentIndex != -1 ==>
      0 <= chunks[i].parentIndex < i && chunks[i].level == chunks[chunks[i].parentIndex].level + 1
  }

  /** Every leaf holds a bounded amount of text. */
  ghost predicate LeavesBounded(chunks: seq<ParsedChunk>, max: nat) {
    forall i :: 0 <= i < |chunks| && i !in Parents(chunks) ==> Bounded(chunks[i].content, max)
  }

  // ---- How processing extends the list ----

  /** A title is the name of a section, alone or with a remark in parentheses. */
  predicate Titled(title: string, name: string) {
    title == name || name + " (" <= title
  }

  /** The path of a chunk is the path of its parent and the name its title starts with; chunks of
      a text without headings have none. */
  ghost predicate PathFits(chunks: seq<ParsedChunk>, i: nat)
    requires i < |chunks|
  {
    || (chunks[i].level == 0 && chunks[i].path == "")
    || exists name :: PathNamed(chunks, i, name)
  }

  ghost predicate PathNamed(chunks: seq<ParsedChunk>, i: nat, name: string)
    requires i < |chunks|
  {
    && Titled(chunks[i].title, name)
    && chunks[i].path == if 0 <= chunks[i].parentIndex < i && chunks[chunks[i].parentIndex].path != ""
                         then chunks[chunks[i].parentIndex].path + " > " + name else name
  }

  ghost predicate Placed(chunks: seq<ParsedChunk>, dirs: set<int>, lo: nat, p: int, i: nat)
    requires i < |chunks|
  {
    var c := chunks[i];
    && PathFits(chunks, i)
    && (|| (c.parentIndex == p && (0 <= p < |chunks| ==> c.level == chunks[p].level + 1))
        || (lo <= c.parentIndex < i && c.parentIndex in dirs && c.level == chunks[c.parentIndex].level + 1))
  }

  lemma PathFitsKept(c: seq<ParsedChunk>, c': seq<ParsedChunk>, i: nat)
    requires c <= c' && i < |c| && PathFits(c, i)
    ensures PathFits(c', i)
  {
    if name :| PathNamed(c, i, name) {
      assert PathNamed(c', i, name);
    }
  }

  ghost predicate Named(chunks: seq<ParsedChunk>, lo: nat, d: int) {
    exists j :: lo <= j < |chunks| && chunks[j].parentIndex == d
  }

  /** From (c0, d0) to (c1, d1): chunks were appended below parent `p`, they stand for `text`,
      exactly the new directories are named by new chunks, and the new leaves are bounded. */
  ghost predicate Grown(c0: seq<ParsedChunk>, d0: set<int>, c1: seq<ParsedChunk>, d1: set<int>,
                        p: int, text: string, max: nat, fits: bool) {
    && c0 <= c1
    && (forall i :: i in d1 && i < |c0| <==> i in d0)
    && (forall i :: i in d1 ==> i < |c1|)
    && (forall i :: |c0| <= i < |c1| ==> Placed(c1, d1, |c0|, p, i))
    && (forall i :: i in d1 && i >= |c0| ==> Named(c1, |c0|, i) && c1[i].level > 0)
    && (fits ==> forall i :: |c0| <= i < |c1| && i !in d1 ==> Bounded(c1[i].content, max))
    && Body(c1, d1, |c0|, |c1|) == text
  }

  lemma {:induction false} BodySame(c: seq<ParsedChunk>, d: set<int>, c': seq<ParsedChunk>, d': set<int>,
                                    lo: nat, hi: nat)
    requires lo <= hi <= |c| && hi <= |c'|
    requires forall i :: lo <= i < hi ==> c[i] == c'[i] && (i in d <==> i in d')
    ensures Body(c, d, lo, hi) == Body(c', d', lo, hi)
    decreases hi - lo
  {
    if lo < hi {
      BodySame(c, d, c', d', lo, hi - 1);
    }
  }

  lemma {:induction false} BodyConcat(c: seq<ParsedChunk>, d: set<int>, lo: nat, mid: nat, hi: nat)
    requires lo <= mid <= hi <= |c|
    ensures Body(c, d, lo, hi) == Body(c, d, lo, mid) + Body(c, d, mid, hi)
    decreases hi - mid
  {
    if mid < hi {
      BodyConcat(c, d, lo, mid, hi - 1);
    }
  }

  lemma NothingGrown(c: seq<ParsedChunk>, d: set<int>, p: int, max: nat, fits: bool)
    requires forall i :: i in d ==> i < |c|
    ensures Grown(c, d, c, d, p, "", max, fits)
  {
  }

  lemma GrownConcat(c0: seq<ParsedChunk>, d0: set<int>, c1: seq<ParsedChunk>, d1: set<int>,
                    c2: seq<ParsedChunk>, d2: set<int>, p: int, t1: string, t2: string, max: nat, fits: bool)
    requires p < |c0|
    requires Grown(c0, d0, c1, d1, p, t1, max, fits) && Grown(c1, d1, c2, d2, p, t2, max, fits)
    ensures Grown(c0, d0, c2, d2, p, t1 + t2, max, fits)
  {
    BodySame(c1, d1, c2, d2, |c0|, |c1|);
    BodyConcat(c2, d2, |c0|, |c1|, |c2|);
    forall i | |c0| <= i < |c2| ensures Placed(c2, d2, |c0|, p, i) {
      if i < |c1| {
        assert Placed(c1, d1, |c0|, p, i);
        PathFitsKept(c1, c2, i);
      } else {
        assert Placed(c2, d2, |c1|, p, i);
      }
    }
    forall i | i in d2 && i >= |c0| ensures Named(c2, |c0|, i) && c2[i].level > 0 {
      if i < |c1| {
        assert Named(c1, |c0|, i);
        var j :| |c0| <= j < |c1| && c1[j].parentIndex == i;
        assert c2[j] == c1[j];
      } else {
        var j :| |c1| <= j < |c2| && c2[j].parentIndex == i;
      }
    }
  }

  /** One more leaf. */
  lemma LeafGrown(c: seq<ParsedChunk>, d: set<int>, leaf: ParsedChunk, p: int, max: nat, fits: bool)
    requires forall i :: i in d ==> i < |c|
    requires leaf.parentIndex == p < |c| && (p >= 0 ==> leaf.level == c[p].level + 1)
    requires PathFits(c + [leaf], |c|)
    requires fits ==> Bounded(leaf.content, max)
    ensures Grown(c, d, c + [leaf], d, p, Essence(leaf.content), max, fits)
  {
    var c' := c + [leaf];
    assert Body(c', d, |c|, |c'|) == Body(c', d, |c|, |c|) + Tile(leaf, false);
  }

  /** A directory followed by the chunks below it. */
  lemma DirectoryGrown(c: seq<ParsedChunk>, d: set<int>, dir: ParsedChunk, c2: seq<ParsedChunk>, d2: set<int>,
                       p: int, text: string, max: nat, fits: bool)
    requires forall i :: i in d ==> i < |c|
    requires dir.parentIndex == p < |c| && (p >= 0 ==> dir.level == c[p].level + 1) && dir.level > 0
    requires PathFits(c + [dir], |c|)
    requires Grown(c + [dir], d + {|c|}, c2, d2, |c|, text, max, fits)
    requires Named(c2, |c| + 1, |c|)
    ensures Grown(c, d, c2, d2, p, Tile(dir, true) + text, max, fits)
  {
    var c1, d1 := c + [dir], d + {|c|};
    assert c2[|c|] == c1[|c|] == dir && |c| in d1 && |c| in d2;
    assert c <= c2;
    BodyConcat(c2, d2, |c|, |c| + 1, |c2|);
    assert Body(c2, d2, |c|, |c| + 1) == Body(c2, d2, |c|, |c|) + Tile(dir, true);
    forall i | |c| <= i < |c2| ensures Placed(c2, d2, |c|, p, i) {
      if i > |c| {
        assert Placed(c2, d2, |c1|, |c|, i);
      } else {
        PathFitsKept(c1, c2, |c|);
      }
    }
    forall i | i in d2 && i >= |c| ensures Named(c2, |c|, i) {
      if i > |c| {
        var j :| |c1| <= j < |c2| && c2[j].parentIndex == i;
      } else {
        var j :| |c| + 1 <= j < |c2| && c2[j].parentIndex == |c|;
      }
    }
  }

  /** Seen from the empty list, the directories are the chunks named as parents. */
  lemma WholeDocument(c: seq<ParsedChunk>, d: set<int>, text: string, max: nat, fits: bool)
    requires Grown([], {}, c, d, -1, text, max, fits)
    ensures Forest(c) && Document(c) == text
    ensures fits ==> LeavesBounded(c, max)
    ensures forall i :: i in Parents(c) ==> 0 <= i < |c| && c[i].level > 0
    ensures d == Parents(c)
    ensures forall i :: 0 <= i < |c| ==> PathFits(c, i)
  {
    forall i ensures (i in d && i >= 0) <==> i in Parents(c) {
      if i in d {
        var j :| 0 <= j < |c| && c[j].parentIndex == i;
        assert c[j] in c;
      }
      if i in Parents(c) {
        var x :| x in c && x.parentIndex == i;
        var j :| 0 <= j < |c| && c[j] == x;
        assert Placed(c, d, 0, -1, j);
      }
    }
    BodySame(c, d, c, Parents(c), 0, |c|);
    forall i | 0 <= i < |c| ensures PathFits(c, i) {
      assert Placed(c, d, 0, -1, i);
    }
    forall i | 0 <= i < |c| && c[i].parentIndex != -1
      ensures 0 <= c[i].parentIndex < i && c[i].level == c[c[i].parentIndex].level + 1 {
      assert Placed(c, d, 0, -1, i);
    }
  }

  // ---- The leaves alone ----

  /** The text of the chunks that are no directories, in order. */
  ghost function Leaves(chunks: seq<ParsedChunk>, dirs: set<int>, lo: nat, hi: nat): string
    requires lo <= hi <= |chunks|
    decreases hi - lo
  {
    if lo == hi then ""
    else Leaves(chunks, dirs, lo, hi - 1) + if (hi - 1) in dirs then "" else Essence(chunks[hi - 1].content)
  }

  ghost function LeafText(chunks: seq<ParsedChunk>): string {
    Leaves(chunks, Parents(chunks), 0, |chunks|)
  }

  /** A directory that shows its bare title, and so keeps its heading line from the leaves. */
  predicate Bare(chunks: seq<ParsedChunk>, dirs: set<int>, i: nat)
    requires i < |chunks|
  {
    i in dirs && chunks[i].content == chunks[i].title
  }

  lemma BareTile(c: ParsedChunk)
    requires c.level > 0
    ensures Tile(c, true) == "" <==> c.content != c.title
  {
    assert (Hashes(c.level) + " " + c.title)[0] == '#';
    EssenceShows(Hashes(c.level) + " " + c.title);
  }

  /** The leaves hold all the document text exactly as far as no directory is bare; a bare one
      makes them shorter. */
  lemma {:induction false} LeavesMiss(chunks: seq<ParsedChunk>, dirs: set<int>, lo: nat, hi: nat)
    requires lo <= hi <= |chunks|
    requires forall i :: i in dirs && 0 <= i < |chunks| ==> chunks[i].level > 0
    ensures |Leaves(chunks, dirs, lo, hi)| <= |Body(chunks, dirs, lo, hi)|
    ensures (forall i :: lo <= i < hi ==> !Bare(chunks, dirs, i)) ==>
              Leaves(chunks, dirs, lo, hi) == Body(chunks, dirs, lo, hi)
    ensures (exists i :: lo <= i < hi && Bare(chunks, dirs, i)) ==>
              |Leaves(chunks, dirs, lo, hi)| < |Body(chunks, dirs, lo, hi)|
    decreases hi - lo
  {
    if lo < hi {
      LeavesMiss(chunks, dirs, lo, hi - 1);
      assert Bare(chunks, dirs, hi - 1) ==> (hi - 1) in dirs;
      if (hi - 1) in dirs {
        BareTile(chunks[hi - 1]);
      }
    }
  }

  ghost predicate NoneBare(chunks: seq<ParsedChunk>) {
    forall i :: 0 <= i < |chunks| ==> !Bare(chunks, Parents(chunks), i)
  }

  /** In a forest whose directories have levels, the leaves alone hold the document text if and
      only if no directory shows its bare title. */
  lemma LeavesHoldIff(chunks: seq<ParsedChunk>)
    requires forall i :: i in Parents(chunks) ==> 0 <= i < |chunks| && chunks[i].level > 0
    ensures LeafText(chunks) == Document(chunks) <==> NoneBare(chunks)
  {
    LeavesMiss(chunks, Parents(chunks), 0, |chunks|);
  }
}
