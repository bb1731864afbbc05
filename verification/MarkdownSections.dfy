/** Headings, the sections they open, and why the sections of one level tile their range. */
module MarkdownSections {
  import opened Strings
  import opened Text

  datatype Heading = Heading(start: nat, end: nat, title: string, level: nat)

  const MAX_LEVEL := 6

  function Hashes(level: nat): string {
    seq(level, _ => '#')
  }

  function HeadingLine(h: Heading): string {
    Hashes(h.level) + " " + h.title
  }

  /** What heading detection delivers: lines in order, each reading as its marks and its title. */
  ghost predicate WellFormed(content: string, hs: seq<Heading>) {
    && (forall i :: 0 <= i < |hs| ==>
          && hs[i].start < hs[i].end <= |content|
          && 1 <= hs[i].level <= MAX_LEVEL
          && Essence(content[hs[i].start..hs[i].end]) == Essence(HeadingLine(hs[i])))
    && (forall i, j :: 0 <= i < j < |hs| ==> hs[i].end <= hs[j].start)
  }

  function StartAt(content: string, hs: seq<Heading>, j: nat): nat {
    if j < |hs| then hs[j].start else |content|
  }

  /** The first heading from `j` on that closes a section of the given level. */
  function ClosedBy(hs: seq<Heading>, j: nat, level: nat): (k: nat)
    requires j <= |hs|
    ensures j <= k <= |hs|
    ensures forall i :: j <= i < k ==> hs[i].level > level
    ensures k < |hs| ==> hs[k].level <= level
    decreases |hs| - j
  {
    if j == |hs| || hs[j].level <= level then j else ClosedBy(hs, j + 1, level)
  }

  /** The headings of exactly this level in `lo..hi`. */
  function AtLevel(hs: seq<Heading>, lo: nat, hi: nat, level: nat): (r: seq<nat>)
    requires lo <= hi <= |hs|
    ensures forall i :: 0 <= i < |r| ==> lo <= r[i] < hi && hs[r[i]].level == level
    decreases hi - lo
  {
    if lo == hi then []
    else if hs[lo].level == level then [lo] + AtLevel(hs, lo + 1, hi, level)
    else AtLevel(hs, lo + 1, hi, level)
  }

  datatype Section = Section(
    name: string, content: string, tokens: nat, hasChildren: bool,
    directContent: string, children: seq<nat>, level: nat, path: string)

  /** A section still to be read from its heading, or one made up of given text. */
  datatype Entry = Ready(section: Section) | AtHeading(idx: nat)

  function SectionEnd(hs: seq<Heading>, idx: nat): (k: nat)
    requires idx < |hs|
    ensures idx < k <= |hs|
  {
    ClosedBy(hs, idx + 1, hs[idx].level)
  }

  function Children(hs: seq<Heading>, idx: nat): seq<nat>
    requires idx < |hs|
  {
    AtLevel(hs, idx + 1, SectionEnd(hs, idx), hs[idx].level + 1)
  }

  /** Where the section's own text stops: at its first child, if it has any. */
  function DirectEnd(content: string, hs: seq<Heading>, idx: nat): nat
    requires idx < |hs|
  {
    var kids := Children(hs, idx);
    StartAt(content, hs, if |kids| == 0 then SectionEnd(hs, idx) else kids[0])
  }

  lemma PositionsInOrder(content: string, hs: seq<Heading>, i: nat, j: nat)
    requires WellFormed(content, hs) && i < j && i < |hs|
    ensures hs[i].end <= StartAt(content, hs, j) <= |content|
  {
  }

  function SectionText(content: string, hs: seq<Heading>, idx: nat): string
    requires WellFormed(content, hs) && idx < |hs|
  {
    PositionsInOrder(content, hs, idx, SectionEnd(hs, idx));
    content[hs[idx].start..StartAt(content, hs, SectionEnd(hs, idx))]
  }

  function InfoOf(content: string, hs: seq<Heading>, idx: nat): Section
    requires WellFormed(content, hs) && idx < |hs|
  {
    var h, kids := hs[idx], Children(hs, idx);
    PositionsInOrder(content, hs, idx, SectionEnd(hs, idx));
    PositionsInOrder(content, hs, idx, if |kids| == 0 then SectionEnd(hs, idx) else kids[0]);
    var full := HeadingLine(h) + GAP + Strip(content[h.end..StartAt(content, hs, SectionEnd(hs, idx))]);
    var own := Strip(content[h.end..DirectEnd(content, hs, idx)]);
    Section(h.title, full, Estimate(full), |kids| > 0,
            if |kids| > 0 && own != "" then HeadingLine(h) + GAP + own else "",
            kids, h.level, "")
  }

  lemma LineAndText(content: string, hs: seq<Heading>, idx: nat, end: nat)
    requires WellFormed(content, hs) && idx < |hs| && hs[idx].end <= end <= |content|
    ensures Essence(HeadingLine(hs[idx]) + GAP + Strip(content[hs[idx].end..end]))
            == Essence(content[hs[idx].start..end])
  {
    var h := hs[idx];
    var text := content[h.end..end];
    EssenceStrip(text);
    EssenceConcat(HeadingLine(h), GAP);
    EssenceConcat(HeadingLine(h) + GAP, Strip(text));
    EssenceEmpty();
    EssenceSlice(content, h.start, h.end, end);
  }

  /** A section's content is the text from its heading to the next of its level or above. */
  lemma InfoText(content: string, hs: seq<Heading>, idx: nat)
    requires WellFormed(content, hs) && idx < |hs|
    ensures Essence(InfoOf(content, hs, idx).content) == Essence(SectionText(content, hs, idx))
  {
    PositionsInOrder(content, hs, idx, SectionEnd(hs, idx));
    LineAndText(content, hs, idx, StartAt(content, hs, SectionEnd(hs, idx)));
  }

  // ---- Entries and their text ----

  predicate EntryFits(hs: seq<Heading>, e: Entry, level: nat) {
    match e
    case Ready(sec) => !sec.hasChildren && sec.tokens == Estimate(sec.content)
    case AtHeading(idx) => idx < |hs| && hs[idx].level == level
  }

  ghost function EntryText(content: string, hs: seq<Heading>, e: Entry): string
    requires WellFormed(content, hs)
  {
    match e
    case Ready(sec) => Essence(sec.content)
    case AtHeading(idx) => if idx < |hs| then Essence(SectionText(content, hs, idx)) else ""
  }

  ghost function EntriesText(content: string, hs: seq<Heading>, es: seq<Entry>): string
    requires WellFormed(content, hs)
  {
    if es == [] then ""
    else EntryText(content, hs, es[0]) + EntriesText(content, hs, es[1..])
  }

  function AtHeadings(idxs: seq<nat>): (r: seq<Entry>)
    ensures |r| == |idxs|
    ensures forall i :: 0 <= i < |r| ==> r[i] == AtHeading(idxs[i])
  {
    seq(|idxs|, i requires 0 <= i < |idxs| => AtHeading(idxs[i]))
  }

  lemma AtHeadingsCons(i: nat, rest: seq<nat>)
    ensures AtHeadings([i] + rest) == [AtHeading(i)] + AtHeadings(rest)
  {
  }

  lemma {:induction false} NoneAtLevel(hs: seq<Heading>, lo: nat, mid: nat, hi: nat, level: nat)
    requires lo <= mid <= hi <= |hs|
    requires forall i :: lo <= i < mid ==> hs[i].level != level
    ensures AtLevel(hs, lo, hi, level) == AtLevel(hs, mid, hi, level)
    decreases mid - lo
  {
    if lo < mid {
      NoneAtLevel(hs, lo + 1, mid, hi, level);
    }
  }

  lemma {:induction false} AtLevelSnoc(hs: seq<Heading>, lo: nat, hi: nat, level: nat)
    requires lo <= hi < |hs|
    ensures AtLevel(hs, lo, hi + 1, level)
            == AtLevel(hs, lo, hi, level) + if hs[hi].level == level then [hi] else []
    decreases hi - lo
  {
    if lo < hi {
      AtLevelSnoc(hs, lo + 1, hi, level);
    }
  }

  /** Where no heading is above the level, the sections of that level tile the range that
      starts at the first of them. */
  lemma {:induction false} SectionsTile(content: string, hs: seq<Heading>, lo: nat, hi: nat, level: nat)
    requires WellFormed(content, hs) && lo < hi <= |hs|
    requires hs[lo].level == level && forall i :: lo <= i < hi ==> hs[i].level >= level
    requires hi < |hs| ==> hs[hi].level <= level
    ensures hs[lo].start <= StartAt(content, hs, hi) <= |content|
    ensures EntriesText(content, hs, AtHeadings(AtLevel(hs, lo, hi, level)))
            == Essence(content[hs[lo].start..StartAt(content, hs, hi)])
    decreases hi - lo
  {
    PositionsInOrder(content, hs, lo, hi);
    var next := SectionEnd(hs, lo);
    assert next <= hi;
    var rest := AtLevel(hs, lo + 1, hi, level);
    NoneAtLevel(hs, lo + 1, next, hi, level);
    AtHeadingsCons(lo, rest);
    var all := AtHeadings([lo] + rest);
    assert all[0] == AtHeading(lo) && all[1..] == AtHeadings(rest);
    PositionsInOrder(content, hs, lo, next);
    if next < hi {
      SectionsTile(content, hs, next, hi, level);
      EssenceSlice(content, hs[lo].start, hs[next].start, StartAt(content, hs, hi));
    } else {
      assert rest == [];
    }
  }

  lemma {:induction false} FirstAtLevel(hs: seq<Heading>, lo: nat, hi: nat, level: nat)
    requires lo <= hi <= |hs| && AtLevel(hs, lo, hi, level) != []
    ensures forall i :: lo <= i < AtLevel(hs, lo, hi, level)[0] ==> hs[i].level != level
    decreases hi - lo
  {
    if hs[lo].level != level {
      FirstAtLevel(hs, lo + 1, hi, level);
    }
  }

  /** The sections of a level tile from the first of them on. */
  lemma LevelTiles(content: string, hs: seq<Heading>, lo: nat, hi: nat, level: nat, first: nat)
    requires WellFormed(content, hs) && lo <= hi <= |hs|
    requires |AtLevel(hs, lo, hi, level)| > 0 && first == AtLevel(hs, lo, hi, level)[0]
    requires forall i :: lo <= i < hi ==> hs[i].level >= level
    requires hi < |hs| ==> hs[hi].level <= level
    ensures hs[first].start <= StartAt(content, hs, hi) <= |content|
    ensures EntriesText(content, hs, AtHeadings(AtLevel(hs, lo, hi, level)))
            == Essence(content[hs[first].start..StartAt(content, hs, hi)])
  {
    FirstAtLevel(hs, lo, hi, level);
    NoneAtLevel(hs, lo, first, hi, level);
    SectionsTile(content, hs, first, hi, level);
  }

  /** A given text in front of headings. */
  function Leading(sec: Section, idxs: seq<nat>): seq<Entry> {
    (if sec.content != "" then [Ready(sec)] else []) + AtHeadings(idxs)
  }

  lemma LeadingText(content: string, hs: seq<Heading>, sec: Section, idxs: seq<nat>, level: nat)
    requires WellFormed(content, hs)
    requires !sec.hasChildren && sec.tokens == Estimate(sec.content)
    requires forall i :: 0 <= i < |idxs| ==> idxs[i] < |hs| && hs[idxs[i]].level == level
    ensures forall e :: e in Leading(sec, idxs) ==> EntryFits(hs, e, level)
    ensures EntriesText(content, hs, Leading(sec, idxs))
            == Essence(sec.content) + EntriesText(content, hs, AtHeadings(idxs))
  {
    var tail, all := AtHeadings(idxs), Leading(sec, idxs);
    forall e | e in all ensures EntryFits(hs, e, level) {
      if e in tail {
        var i :| 0 <= i < |tail| && tail[i] == e;
      }
    }
    LeadingEntriesText(content, hs, sec, tail);
  }

  lemma LeadingEntriesText(content: string, hs: seq<Heading>, sec: Section, tail: seq<Entry>)
    requires WellFormed(content, hs)
    ensures var all := (if sec.content != "" then [Ready(sec)] else []) + tail;
            EntriesText(content, hs, all) == Essence(sec.content) + EntriesText(content, hs, tail)
  {
    var all := (if sec.content != "" then [Ready(sec)] else []) + tail;
    if sec.content != "" {
      assert all[0] == Ready(sec) && all[1..] == tail;
    } else {
      assert all == tail;
      EssenceEmpty();
    }
  }

  // ---- A directory and its children ----

  /** The section of a directory's own text, one level down. */
  function OwnText(sec: Section): Section {
    Section(sec.name, sec.directContent, Estimate(sec.directContent), false, "", [], sec.level + 1, "")
  }

  function ChildEntries(sec: Section): seq<Entry> {
    Leading(OwnText(sec), sec.children)
  }

  lemma WithinSection(hs: seq<Heading>, idx: nat)
    requires idx < |hs|
    ensures forall i :: idx < i < SectionEnd(hs, idx) ==> hs[i].level >= hs[idx].level + 1
    ensures SectionEnd(hs, idx) < |hs| ==> hs[SectionEnd(hs, idx)].level <= hs[idx].level + 1
  {
  }

  /** The children of a section tile what follows its own text. */
  lemma ChildrenText(content: string, hs: seq<Heading>, idx: nat, first: nat)
    requires WellFormed(content, hs) && idx < |hs|
    requires |Children(hs, idx)| > 0 && first == Children(hs, idx)[0]
    ensures hs[idx].end <= hs[first].start <= StartAt(content, hs, SectionEnd(hs, idx)) <= |content|
    ensures EntriesText(content, hs, AtHeadings(Children(hs, idx)))
            == Essence(content[hs[first].start..StartAt(content, hs, SectionEnd(hs, idx))])
  {
    WithinSection(hs, idx);
    LevelTiles(content, hs, idx + 1, SectionEnd(hs, idx), hs[idx].level + 1, first);
  }

  lemma ChildrenFit(content: string, hs: seq<Heading>, idx: nat, sec: Section)
    requires WellFormed(content, hs) && idx < |hs| && sec == InfoOf(content, hs, idx) && sec.hasChildren
    ensures forall e :: e in ChildEntries(sec) ==> EntryFits(hs, e, hs[idx].level + 1)
    ensures EntriesText(content, hs, ChildEntries(sec))
            == Essence(sec.directContent) + EntriesText(content, hs, AtHeadings(Children(hs, idx)))
  {
    LeadingText(content, hs, OwnText(sec), sec.children, hs[idx].level + 1);
  }

  /** Splitting a section into its own text and its children loses nothing but, when there is
      no own text, its heading line, which then only the directory carries. */
  lemma ChildrenTile(content: string, hs: seq<Heading>, idx: nat, sec: Section)
    requires WellFormed(content, hs) && idx < |hs| && sec == InfoOf(content, hs, idx) && sec.hasChildren
    ensures sec.directContent != "" ==>
              Essence(sec.content) == EntriesText(content, hs, ChildEntries(sec))
    ensures sec.directContent == "" ==>
              Essence(sec.content)
              == Essence(HeadingLine(hs[idx])) + EntriesText(content, hs, ChildEntries(sec))
  {
    OwnAndChildren(content, hs, idx, sec);
    DirectText(content, hs, idx);
    ChildrenFit(content, hs, idx, sec);
    EssenceEmpty();
  }

  lemma OwnAndChildren(content: string, hs: seq<Heading>, idx: nat, sec: Section)
    requires WellFormed(content, hs) && idx < |hs| && sec == InfoOf(content, hs, idx) && sec.hasChildren
    ensures hs[idx].end <= DirectEnd(content, hs, idx) <= |content|
    ensures Essence(sec.content)
            == Essence(content[hs[idx].start..DirectEnd(content, hs, idx)])
               + EntriesText(content, hs, AtHeadings(Children(hs, idx)))
  {
    InfoText(content, hs, idx);
    ChildrenText(content, hs, idx, Children(hs, idx)[0]);
    SectionSplits(content, hs, idx, DirectEnd(content, hs, idx));
  }

  lemma SectionSplits(content: string, hs: seq<Heading>, idx: nat, split: nat)
    requires WellFormed(content, hs) && idx < |hs|
    requires hs[idx].end <= split <= StartAt(content, hs, SectionEnd(hs, idx)) <= |content|
    ensures Essence(SectionText(content, hs, idx))
            == Essence(content[hs[idx].start..split])
               + Essence(content[split..StartAt(content, hs, SectionEnd(hs, idx))])
  {
    EssenceSlice(content, hs[idx].start, split, StartAt(content, hs, SectionEnd(hs, idx)));
  }

  /** A section's own text, before its first child, reads as its heading line and that text. */
  lemma DirectText(content: string, hs: seq<Heading>, idx: nat)
    requires WellFormed(content, hs) && idx < |hs| && InfoOf(content, hs, idx).hasChildren
    ensures var sec := InfoOf(content, hs, idx);
            var end := DirectEnd(content, hs, idx);
            && hs[idx].end <= end <= |content|
            && Essence(content[hs[idx].start..end])
               == if sec.directContent == "" then Essence(HeadingLine(hs[idx])) else Essence(sec.directContent)
  {
    var h, end := hs[idx], DirectEnd(content, hs, idx);
    PositionsInOrder(content, hs, idx, Children(hs, idx)[0]);
    if Strip(content[h.end..end]) == "" {
      StripEmptyIff(content[h.end..end]);
      EssenceSlice(content, h.start, h.end, end);
    } else {
      LineAndText(content, hs, idx, end);
    }
  }

  // ---- The whole document ----

  function MinLevel(hs: seq<Heading>): (m: nat)
    requires hs != []
    ensures forall i :: 0 <= i < |hs| ==> m <= hs[i].level
    ensures exists i :: 0 <= i < |hs| && hs[i].level == m
  {
    if |hs| == 1 then hs[0].level
    else
      var rest := MinLevel(hs[1..]);
      assert exists i :: 0 <= i < |hs[1..]| && hs[1..][i].level == rest;
      assert forall i :: 0 < i < |hs| ==> hs[i] == hs[1..][i - 1];
      if hs[0].level < rest then hs[0].level else rest
  }

  lemma {:induction false} SomeAtLevel(hs: seq<Heading>, lo: nat, hi: nat, level: nat, j: nat)
    requires lo <= j < hi <= |hs| && hs[j].level == level
    ensures AtLevel(hs, lo, hi, level) != []
    decreases hi - lo
  {
    if hs[lo].level != level {
      SomeAtLevel(hs, lo + 1, hi, level, j);
    }
  }

  function TopHeadings(hs: seq<Heading>): (r: seq<nat>)
    requires hs != []
    ensures r != [] && forall i :: 0 <= i < |r| ==> r[i] < |hs|
  {
    var level := MinLevel(hs);
    assert AtLevel(hs, 0, |hs|, level) != [] by {
      var j :| 0 <= j < |hs| && hs[j].level == level;
      SomeAtLevel(hs, 0, |hs|, level, j);
    }
    AtLevel(hs, 0, |hs|, level)
  }

  function PreambleSection(text: string): Section {
    Section("preamble", text, Estimate(text), false, "", [], 0, "")
  }

  /** A blank preamble is left out. */
  function TopEntries(content: string, hs: seq<Heading>): seq<Entry>
    requires WellFormed(content, hs) && hs != []
  {
    Leading(PreambleSection(Strip(content[..hs[0].start])), TopHeadings(hs))
  }

  /** The text between the first heading and the first heading of smallest level. */
  function Skipped(content: string, hs: seq<Heading>): string
    requires WellFormed(content, hs) && hs != []
  {
    SkippedRange(content, hs);
    content[hs[0].start..hs[TopHeadings(hs)[0]].start]
  }

  lemma SkippedRange(content: string, hs: seq<Heading>)
    requires WellFormed(content, hs) && hs != []
    ensures hs[0].start <= hs[TopHeadings(hs)[0]].start <= |content|
  {
  }

  /** The top-level sections cover the preamble and everything from the first top heading on. */
  lemma TopTiles(content: string, hs: seq<Heading>)
    requires WellFormed(content, hs) && hs != []
    ensures forall e :: e in TopEntries(content, hs) ==> EntryFits(hs, e, MinLevel(hs))
    ensures EntriesText(content, hs, TopEntries(content, hs))
            == Essence(content[..hs[0].start]) + Essence(content[hs[TopHeadings(hs)[0]].start..])
  {
    var level, first := MinLevel(hs), TopHeadings(hs)[0];
    var pre := content[..hs[0].start];
    EssenceStrip(pre);
    LeadingText(content, hs, PreambleSection(Strip(pre)), TopHeadings(hs), level);
    TopHeadingsText(content, hs, level, first);
  }

  lemma TopHeadingsText(content: string, hs: seq<Heading>, level: nat, first: nat)
    requires WellFormed(content, hs) && hs != []
    requires level == MinLevel(hs) && first == TopHeadings(hs)[0]
    ensures hs[first].start <= |content|
    ensures EntriesText(content, hs, AtHeadings(TopHeadings(hs))) == Essence(content[hs[first].start..])
  {
    LevelTiles(content, hs, 0, |hs|, level, first);
    EssenceSuffix(content, hs[first].start);
  }

  /** So the only text dropped is the skipped text. */
  lemma SkippedSplit(content: string, hs: seq<Heading>)
    requires WellFormed(content, hs) && hs != []
    ensures Essence(content) == Essence(content[..hs[0].start]) + Essence(Skipped(content, hs))
                                + Essence(content[hs[TopHeadings(hs)[0]].start..])
  {
    SkippedRange(content, hs);
    EssenceThree(content, hs[0].start, hs[TopHeadings(hs)[0]].start);
  }

  /** Nothing is skipped exactly when the first heading has the smallest level. */
  lemma NothingSkippedIff(content: string, hs: seq<Heading>)
    requires WellFormed(content, hs) && hs != []
    ensures Essence(Skipped(content, hs)) == "" <==> hs[0].level == MinLevel(hs)
  {
    var first := TopHeadings(hs)[0];
    SkippedRange(content, hs);
    if hs[0].level == MinLevel(hs) {
      assert first == 0 && Skipped(content, hs) == "";
      EssenceEmpty();
    } else {
      assert hs[0].end <= hs[first].start;
      EssenceSlice(content, hs[0].start, hs[0].end, hs[first].start);
      EssenceShows(HeadingLine(hs[0]));
    }
  }
}
