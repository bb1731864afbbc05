/** The markdown parser: headings become a flat list of chunks with parent indexes. */
module Markdown {
  import opened Strings
  import opened Text
  import opened MarkdownSections
  import opened MarkdownTree

  const SMALL_DOC_THRESHOLD := 4000

  function Contents(secs: seq<Section>): (r: seq<string>)
    ensures |r| == |secs|
    ensures forall i :: 0 <= i < |r| ==> r[i] == secs[i].content
  {
    seq(|secs|, i requires 0 <= i < |secs| => secs[i].content)
  }

  lemma ContentsSnoc(secs: seq<Section>, sec: Section)
    ensures Contents(secs + [sec]) == Contents(secs) + [sec.content]
  {
  }

  function SumTokens(secs: seq<Section>): nat {
    if secs == [] then 0 else SumTokens(secs[..|secs| - 1]) + secs[|secs| - 1].tokens
  }

  lemma SumTokensSnoc(secs: seq<Section>, sec: Section)
    ensures SumTokens(secs + [sec]) == SumTokens(secs) + sec.tokens
  {
    assert (secs + [sec])[..|secs|] == secs;
  }

  lemma {:induction false} SumTokensIsSum(secs: seq<Section>)
    requires forall s :: s in secs ==> s.tokens == Estimate(s.content)
    ensures SumTokens(secs) == SumEstimates(Contents(secs))
  {
    if secs != [] {
      var front, last := secs[..|secs| - 1], secs[|secs| - 1];
      SumTokensIsSum(front);
      assert secs == front + [last];
      ContentsSnoc(front, last);
      EssenceOfSnoc(Contents(front), last.content);
    }
  }

  /** A section read for an entry, up to its path. */
  predicate Expands(content: string, hs: seq<Heading>, e: Entry, sec: Section)
    requires WellFormed(content, hs)
  {
    match e
    case Ready(s) => sec == s.(path := sec.path)
    case AtHeading(idx) => idx < |hs| && sec == InfoOf(content, hs, idx).(path := sec.path)
  }

  lemma {:induction false} ExpandedText(content: string, hs: seq<Heading>, es: seq<Entry>, secs: seq<Section>)
    requires WellFormed(content, hs) && |secs| == |es|
    requires forall i :: 0 <= i < |es| ==> Expands(content, hs, es[i], secs[i])
    ensures EssenceOf(Contents(secs)) == EntriesText(content, hs, es)
  {
    if es != [] {
      ExpandedText(content, hs, es[1..], secs[1..]);
      assert Contents(secs) == [secs[0].content] + Contents(secs[1..]);
      EssenceOfCons(secs[0].content, Contents(secs[1..]));
      if es[0].AtHeading? {
        InfoText(content, hs, es[0].idx);
      }
    }
  }

  lemma {:induction false} EssenceOfCons(x: string, rest: seq<string>)
    ensures EssenceOf([x] + rest) == Essence(x) + EssenceOf(rest)
  {
    if rest == [] {
      assert [x] + rest == [] + [x];
      EssenceOfSnoc([], x);
    } else {
      var front, last := rest[..|rest| - 1], rest[|rest| - 1];
      EssenceOfCons(x, front);
      assert rest == front + [last] && [x] + rest == ([x] + front) + [last];
      EssenceOfSnoc(front, last);
      EssenceOfSnoc([x] + front, last);
    }
  }

  /** The part being accumulated joins pieces whose estimates were counted. */
  ghost predicate Accumulates(pieces: seq<string>, current: string, tokens: nat) {
    if current == "" then tokens == 0
    else pieces != [] && current == Join(pieces, GAP) && SumEstimates(pieces) == tokens
  }

  lemma Accumulate(pieces: seq<string>, current: string, tokens: nat, para: string)
    requires Accumulates(pieces, current, tokens)
    ensures current != "" ==> Accumulates(pieces + [para], current + GAP + para, tokens + Estimate(para))
    ensures Accumulates([para], para, Estimate(para))
    ensures Essence(current + GAP + para) == Essence(current) + Essence(para)
  {
    JoinSnoc(pieces, para, GAP);
    EssenceOfSnoc(pieces, para);
    EssenceOfSnoc([], para);
    assert [] + [para] == [para];
    EssenceConcat(current, GAP);
    EssenceConcat(current + GAP, para);
    EssenceEmpty();
  }

  lemma ContentsUpTo(secs: seq<Section>, i: nat)
    requires i < |secs|
    ensures EssenceOf(Contents(secs[..i + 1])) == EssenceOf(Contents(secs[..i])) + Essence(secs[i].content)
  {
    assert secs[..i + 1] == secs[..i] + [secs[i]];
    ContentsSnoc(secs[..i], secs[i]);
    EssenceOfSnoc(Contents(secs[..i]), secs[i].content);
  }

  /** One more section waiting, behind others or alone. */
  lemma WaitingText(pending: seq<Section>, sec: Section)
    ensures "" + EssenceOf(Contents(pending + [sec])) == EssenceOf(Contents(pending)) + Essence(sec.content)
    ensures EssenceOf(Contents(pending)) + EssenceOf(Contents([] + [sec]))
            == EssenceOf(Contents(pending)) + Essence(sec.content)
  {
    ContentsSnoc(pending, sec);
    EssenceOfSnoc(Contents(pending), sec.content);
    ContentsSnoc([], sec);
    EssenceOfSnoc([], sec.content);
    assert Contents([]) == [];
  }

  lemma NothingWaits(text: string)
    ensures text + EssenceOf(Contents([])) == text
  {
  }

  lemma OnePieceFits(text: string, max: nat)
    requires Estimate(text) <= max
    ensures Bounded(text, max)
  {
    assert [] + [text] == [text];
    EssenceOfSnoc([], text);
    assert Packs([text], text, max);
  }

  lemma NamedKept(c: seq<ParsedChunk>, c': seq<ParsedChunk>, lo: nat, d: int)
    requires c <= c'
    ensures Named(c, lo, d) ==> Named(c', lo, d)
    ensures Named(c', |c|, d) && lo <= |c| ==> Named(c', lo, d)
  {
    if Named(c, lo, d) {
      var j :| lo <= j < |c| && c[j].parentIndex == d;
      assert c'[j] == c[j];
    }
  }

  lemma NamedFrom(c: seq<ParsedChunk>, lo: nat, mid: nat, d: int)
    requires lo <= mid && Named(c, mid, d)
    ensures Named(c, lo, d)
  {
  }

  lemma Regroup(text: string, more: string, pending: string, was: string, sec: string)
    requires more + pending == was + sec
    ensures (text + more) + pending == (text + was) + sec
  {
    assert (text + more) + pending == text + (more + pending);
    assert (text + was) + sec == text + (was + sec);
  }

  lemma SameEntries(sec: Section, info: Section)
    requires sec == info.(path := sec.path)
    ensures ChildEntries(sec) == ChildEntries(info)
  {
  }

  /** What is processed below a directory: headings one level down, after its own text. */
  lemma DirectoryEntries(content: string, hs: seq<Heading>, idx: nat, sec: Section)
    requires WellFormed(content, hs) && idx < |hs|
    requires sec == InfoOf(content, hs, idx).(path := sec.path) && sec.hasChildren
    ensures forall e :: e in ChildEntries(sec) ==>
              EntryFits(hs, e, sec.level + 1) && (e.Ready? ==> e.section.level == sec.level + 1)
    ensures ChildEntries(sec) != [] && sec.level + 1 <= MAX_LEVEL
  {
    var info := InfoOf(content, hs, idx);
    SameEntries(sec, info);
    ChildrenFit(content, hs, idx, info);
    ChildrenLevel(content, hs, idx, info);
    ReadyEntries(info);
  }

  lemma ReadyEntries(sec: Section)
    ensures forall e :: e in ChildEntries(sec) && e.Ready? ==> e.section.level == sec.level + 1
    ensures |AtHeadings(sec.children)| > 0 ==> ChildEntries(sec) != []
  {
  }

  /** A directory and its children stand for the section's whole text. */
  lemma DirectoryReads(content: string, hs: seq<Heading>, idx: nat, sec: Section, dir: ParsedChunk)
    requires WellFormed(content, hs) && idx < |hs|
    requires sec == InfoOf(content, hs, idx).(path := sec.path) && sec.hasChildren
    requires dir.title == sec.name && dir.level == sec.level
    requires dir.content == if sec.directContent != "" then sec.directContent else sec.name
    ensures Tile(dir, true) + EntriesText(content, hs, ChildEntries(sec)) == Essence(sec.content)
    ensures dir.content == dir.title <==> sec.directContent == ""
  {
    var info := InfoOf(content, hs, idx);
    SameEntries(sec, info);
    DirectLonger(content, hs, idx, info);
    DirectoryStands(content, hs, idx, info, dir);
  }

  lemma DirectoryStands(content: string, hs: seq<Heading>, idx: nat, info: Section, dir: ParsedChunk)
    requires WellFormed(content, hs) && idx < |hs| && info == InfoOf(content, hs, idx) && info.hasChildren
    requires dir.title == info.name && dir.level == info.level
    requires dir.content == if info.directContent != "" then info.directContent else info.name
    ensures Tile(dir, true) + EntriesText(content, hs, ChildEntries(info)) == Essence(info.content)
  {
    ChildrenTile(content, hs, idx, info);
    DirectLonger(content, hs, idx, info);
  }

  lemma ChildrenLevel(content: string, hs: seq<Heading>, idx: nat, info: Section)
    requires WellFormed(content, hs) && idx < |hs| && info == InfoOf(content, hs, idx) && info.hasChildren
    ensures |AtHeadings(info.children)| > 0 && info.level + 1 <= MAX_LEVEL
  {
    assert hs[info.children[0]].level == info.level + 1;
  }

  lemma DirectLonger(content: string, hs: seq<Heading>, idx: nat, info: Section)
    requires WellFormed(content, hs) && idx < |hs| && info == InfoOf(content, hs, idx)
    ensures info.directContent != "" ==> |info.directContent| > |info.name|
  {
  }

  ghost predicate FlatGrown(chunks: seq<ParsedChunk>, text: string) {
    Grown([], {}, chunks, {}, -1, text, 0, false)
  }

  lemma FlatStep(chunks: seq<ParsedChunk>, chunk: ParsedChunk, text: string)
    requires FlatGrown(chunks, text) && chunk.parentIndex == -1 && chunk.level == 0 && chunk.path == ""
    ensures FlatGrown(chunks + [chunk], text + Essence(chunk.content))
  {
    LeafGrown(chunks, {}, chunk, -1, 0, false);
    GrownConcat([], {}, chunks, {}, chunks + [chunk], {}, -1, text, Essence(chunk.content), 0, false);
  }

  /** One chunk without parent per part. */
  predicate Flat(chunks: seq<ParsedChunk>, parts: seq<string>) {
    && |chunks| == |parts|
    && forall j :: 0 <= j < |parts| ==>
         chunks[j].content == parts[j] && chunks[j].parentIndex == -1 && chunks[j].level == 0 && chunks[j].path == ""
  }

  lemma {:induction false} FlatIsGrown(chunks: seq<ParsedChunk>, parts: seq<string>)
    requires Flat(chunks, parts)
    ensures FlatGrown(chunks, EssenceOf(parts))
  {
    if parts == [] {
      NothingGrown([], {}, -1, 0, false);
    } else {
      var n := |parts| - 1;
      FlatIsGrown(chunks[..n], parts[..n]);
      FlatStep(chunks[..n], chunks[n], EssenceOf(parts[..n]));
      assert chunks == chunks[..n] + [chunks[n]];
    }
  }

  lemma FlatDocument(chunks: seq<ParsedChunk>, parts: seq<string>, max: nat)
    requires Flat(chunks, parts)
    ensures Forest(chunks) && Document(chunks) == EssenceOf(parts) && Parents(chunks) == {}
    ensures (forall p :: p in parts ==> Bounded(p, max)) ==> LeavesBounded(chunks, max)
    ensures forall i :: 0 <= i < |chunks| ==> PathFits(chunks, i)
  {
    FlatIsGrown(chunks, parts);
    WholeDocument(chunks, {}, EssenceOf(parts), 0, false);
  }

  lemma TopEntryOf(content: string, hs: seq<Heading>, k: nat)
    requires WellFormed(content, hs) && hs != [] && k in TopHeadings(hs)
    ensures AtHeading(k) in TopEntries(content, hs)
  {
    var tops := TopHeadings(hs);
    var i :| 0 <= i < |tops| && tops[i] == k;
    assert AtHeadings(tops)[i] == AtHeading(k);
  }

  lemma NextAtLevel(hs: seq<Heading>, i: nat, level: nat, lead: seq<Entry>)
    requires i < |hs|
    ensures lead + AtHeadings(AtLevel(hs, 0, i + 1, level))
            == lead + AtHeadings(AtLevel(hs, 0, i, level))
               + if hs[i].level == level then [AtHeading(i)] else []
  {
    AtLevelSnoc(hs, 0, i, level);
  }

  lemma AllTopEntries(content: string, hs: seq<Heading>)
    requires WellFormed(content, hs) && hs != []
    ensures forall k :: k in TopHeadings(hs) ==> AtHeading(k) in TopEntries(content, hs) && k < |hs|
  {
    forall k | k in TopHeadings(hs) ensures AtHeading(k) in TopEntries(content, hs) {
      TopEntryOf(content, hs, k);
    }
  }

  /** The document without the text that no chunk holds. */
  ghost function BodyText(content: string, hs: seq<Heading>): string
    requires WellFormed(content, hs)
  {
    if hs == [] then Essence(content)
    else
      SkippedRange(content, hs);
      Essence(content[..hs[0].start]) + Essence(content[hs[TopHeadings(hs)[0]].start..])
  }

  /** A directory shows its own text, or its bare title if it has none. */
  function DirectoryChunk(sec: Section, p: int): ParsedChunk {
    ParsedChunk(if sec.directContent != "" then sec.directContent else sec.name,
                sec.name, sec.level, p, sec.path)
  }

  /** Too large for one chunk, and with children of its own. */
  predicate SplitsAt(sec: Section, minSize: nat, maxSize: nat) {
    sec.tokens >= minSize && sec.tokens > maxSize && sec.hasChildren
  }

  function WholeChunk(sec: Section, p: int): ParsedChunk {
    ParsedChunk(sec.content, sec.name, sec.level, p, sec.path)
  }

  function PathUnder(base: string, name: string): string {
    if base != "" then base + " > " + name else name
  }

  function AtPath(sec: Section, base: string): Section {
    sec.(path := PathUnder(base, sec.name))
  }

  /** Large enough not to wait, and with children, which others are not joined to. */
  predicate Alone(sec: Section, minSize: nat) {
    sec.tokens >= minSize && sec.hasChildren
  }

  /** From position `lo` on, some chunk below `p` shows the section by itself: as a directory if it
      is too large, else whole. */
  ghost predicate Shown(sec: Section, max: nat, chunks: seq<ParsedChunk>, dirs: set<int>, lo: nat, p: int) {
    exists i :: lo <= i < |chunks| && ShownAt(sec, max, chunks, dirs, i, p)
  }

  predicate ShownAt(sec: Section, max: nat, chunks: seq<ParsedChunk>, dirs: set<int>, i: nat, p: int)
    requires i < |chunks|
  {
    if sec.tokens > max then i in dirs && chunks[i] == DirectoryChunk(sec, p)
    else i !in dirs && chunks[i] == WholeChunk(sec, p)
  }

  lemma ShownKept(sec: Section, max: nat, c: seq<ParsedChunk>, d: set<int>, c': seq<ParsedChunk>, d': set<int>,
                  lo: nat, mid: nat, p: int)
    requires c <= c' && lo <= mid && forall i :: i in d' && i < |c| <==> i in d
    ensures Shown(sec, max, c, d, mid, p) ==> Shown(sec, max, c', d', lo, p)
  {
    if Shown(sec, max, c, d, mid, p) {
      var i :| mid <= i < |c| && ShownAt(sec, max, c, d, i, p);
      assert ShownAt(sec, max, c', d', i, p);
    }
  }

  ghost predicate AllShown(secs: seq<Section>, base: string, min: nat, max: nat,
                           c: seq<ParsedChunk>, d: set<int>, lo: nat, p: int) {
    forall i :: 0 <= i < |secs| && Alone(secs[i], min) ==> Shown(AtPath(secs[i], base), max, c, d, lo, p)
  }

  lemma AllShownNext(secs: seq<Section>, k: nat, base: string, min: nat, max: nat, c: seq<ParsedChunk>, d: set<int>,
                     c': seq<ParsedChunk>, d': set<int>, lo: nat, p: int)
    requires k < |secs| && AllShown(secs[..k], base, min, max, c, d, lo, p)
    requires c <= c' && forall i :: i in d' && i < |c| <==> i in d
    requires Alone(secs[k], min) ==> Shown(AtPath(secs[k], base), max, c', d', lo, p)
    ensures AllShown(secs[..k + 1], base, min, max, c', d', lo, p)
  {
    forall i | 0 <= i < k && Alone(secs[i], min) ensures Shown(AtPath(secs[i], base), max, c', d', lo, p) {
      assert secs[..k][i] == secs[i];
      ShownKept(AtPath(secs[i], base), max, c, d, c', d', lo, lo, p);
    }
  }

  lemma AllShownKept(secs: seq<Section>, base: string, min: nat, max: nat, c: seq<ParsedChunk>, d: set<int>,
                     c': seq<ParsedChunk>, d': set<int>, lo: nat, p: int)
    requires AllShown(secs, base, min, max, c, d, lo, p)
    requires c <= c' && forall i :: i in d' && i < |c| <==> i in d
    ensures AllShown(secs, base, min, max, c', d', lo, p)
  {
    forall i | 0 <= i < |secs| && Alone(secs[i], min) ensures Shown(AtPath(secs[i], base), max, c', d', lo, p) {
      ShownKept(AtPath(secs[i], base), max, c, d, c', d', lo, lo, p);
    }
  }

  lemma EntriesShown(content: string, hs: seq<Heading>, es: seq<Entry>, secs: seq<Section>, base: string,
                     min: nat, max: nat, c: seq<ParsedChunk>, d: set<int>, lo: nat, p: int)
    requires WellFormed(content, hs) && |secs| == |es| && AllShown(secs, base, min, max, c, d, lo, p)
    requires forall i :: 0 <= i < |es| ==> Expands(content, hs, es[i], secs[i])
    ensures forall e :: e in es && e.AtHeading? && e.idx < |hs| && Alone(InfoOf(content, hs, e.idx), min) ==>
              Shown(AtPath(InfoOf(content, hs, e.idx), base), max, c, d, lo, p)
  {
    forall e | e in es && e.AtHeading? && e.idx < |hs| && Alone(InfoOf(content, hs, e.idx), min)
      ensures Shown(AtPath(InfoOf(content, hs, e.idx), base), max, c, d, lo, p) {
      var i :| 0 <= i < |es| && es[i] == e;
      assert Expands(content, hs, es[i], secs[i]);
      assert AtPath(secs[i], base) == AtPath(InfoOf(content, hs, e.idx), base);
    }
  }

  // ---- Which sections leave a bare directory ----

  /** Read off the document alone: the section is split up, and has no text of its own or a
      section below it that leaves a bare directory. */
  ghost predicate BareAt(content: string, hs: seq<Heading>, idx: nat, minSize: nat, maxSize: nat)
    requires WellFormed(content, hs) && idx < |hs|
    decreases MAX_LEVEL - hs[idx].level
  {
    && SplitsAt(InfoOf(content, hs, idx), minSize, maxSize)
    && (InfoOf(content, hs, idx).directContent == ""
        || exists k :: k in Children(hs, idx) && BareAt(content, hs, k, minSize, maxSize))
  }

  ghost predicate BareBelow(content: string, hs: seq<Heading>, ks: seq<nat>, minSize: nat, maxSize: nat)
    requires WellFormed(content, hs)
  {
    exists k :: k in ks && k < |hs| && BareAt(content, hs, k, minSize, maxSize)
  }

  ghost predicate BareEntry(content: string, hs: seq<Heading>, e: Entry, minSize: nat, maxSize: nat)
    requires WellFormed(content, hs)
  {
    e.AtHeading? && e.idx < |hs| && BareAt(content, hs, e.idx, minSize, maxSize)
  }

  ghost predicate BareEntries(content: string, hs: seq<Heading>, es: seq<Entry>, minSize: nat, maxSize: nat)
    requires WellFormed(content, hs)
  {
    exists e :: e in es && BareEntry(content, hs, e, minSize, maxSize)
  }

  lemma BareEntriesNext(content: string, hs: seq<Heading>, es: seq<Entry>, i: nat, minSize: nat, maxSize: nat)
    requires WellFormed(content, hs) && i < |es|
    ensures BareEntries(content, hs, es[..i + 1], minSize, maxSize) <==>
              BareEntries(content, hs, es[..i], minSize, maxSize)
              || BareEntry(content, hs, es[i], minSize, maxSize)
  {
    assert es[..i + 1] == es[..i] + [es[i]];
  }

  lemma BareLeading(content: string, hs: seq<Heading>, own: Section, ks: seq<nat>, minSize: nat, maxSize: nat)
    requires WellFormed(content, hs)
    ensures BareEntries(content, hs, Leading(own, ks), minSize, maxSize)
            <==> BareBelow(content, hs, ks, minSize, maxSize)
  {
    if k :| k in ks && k < |hs| && BareAt(content, hs, k, minSize, maxSize) {
      HeadingLeads(own, ks, k);
      assert BareEntry(content, hs, AtHeading(k), minSize, maxSize);
    }
    if e :| e in Leading(own, ks) && BareEntry(content, hs, e, minSize, maxSize) {
      HeadingLeads(own, ks, e.idx);
    }
  }

  lemma HeadingLeads(own: Section, ks: seq<nat>, k: nat)
    ensures AtHeading(k) in Leading(own, ks) <==> k in ks
  {
    if k in ks {
      var i :| 0 <= i < |ks| && ks[i] == k;
      assert AtHeadings(ks)[i] == AtHeading(k);
    }
  }

  ghost predicate BareSaved(content: string, hs: seq<Heading>, sec: Section, minSize: nat, maxSize: nat)
    requires WellFormed(content, hs)
  {
    && sec.tokens > maxSize && sec.hasChildren
    && (sec.directContent == "" || BareBelow(content, hs, sec.children, minSize, maxSize))
  }

  lemma BareEntryIs(content: string, hs: seq<Heading>, e: Entry, sec: Section, level: nat, minSize: nat, maxSize: nat)
    requires WellFormed(content, hs) && EntryFits(hs, e, level) && Expands(content, hs, e, sec)
    ensures BareEntry(content, hs, e, minSize, maxSize)
            <==> sec.tokens >= minSize && BareSaved(content, hs, sec, minSize, maxSize)
  {
  }

  /** Some directory from position `lo` on is bare. */
  ghost predicate BareIn(c: seq<ParsedChunk>, d: set<int>, lo: nat) {
    exists i :: lo <= i < |c| && Bare(c, d, i)
  }

  lemma BareConcat(c1: seq<ParsedChunk>, d1: set<int>, c2: seq<ParsedChunk>, d2: set<int>, lo: nat)
    requires lo <= |c1| && c1 <= c2 && forall i :: i in d2 && i < |c1| <==> i in d1
    ensures BareIn(c2, d2, lo) <==> BareIn(c1, d1, lo) || BareIn(c2, d2, |c1|)
  {
    assert forall i :: 0 <= i < |c1| ==> (Bare(c2, d2, i) <==> Bare(c1, d1, i));
  }

  lemma NoneBareFrom(c: seq<ParsedChunk>, d: set<int>, lo: nat)
    requires forall i :: i in d ==> i < lo
    ensures !BareIn(c, d, lo)
  {
  }

  lemma BareNow(c: seq<ParsedChunk>, d: set<int>, lo: nat)
    requires lo < |c|
    ensures BareIn(c, d, lo) <==> Bare(c, d, lo) || BareIn(c, d, lo + 1)
  {
  }

  lemma TopBare(content: string, hs: seq<Heading>, c: seq<ParsedChunk>, d: set<int>, minSize: nat, maxSize: nat)
    requires WellFormed(content, hs) && hs != [] && d == Parents(c)
    requires BareIn(c, d, 0) <==> BareEntries(content, hs, TopEntries(content, hs), minSize, maxSize)
    ensures NoneBare(c) <==> forall k :: k in TopHeadings(hs) ==> !BareAt(content, hs, k, minSize, maxSize)
  {
    BareLeading(content, hs, PreambleSection(Strip(content[..hs[0].start])), TopHeadings(hs), minSize, maxSize);
    assert BareBelow(content, hs, TopHeadings(hs), minSize, maxSize)
           <==> exists k :: k in TopHeadings(hs) && BareAt(content, hs, k, minSize, maxSize);
  }

  /** What waited became one chunk of its own, and the section follows by itself: as the very last
      chunk if it fits, as a directory if it does not fit and has children. */
  ghost predicate SavedApart(c0: seq<ParsedChunk>, d0: set<int>, c: seq<ParsedChunk>, d: set<int>,
                             pending: seq<Section>, sec: Section, p: int, max: nat) {
    && (pending != [] ==> |c| > |c0| + 1 && c[|c0|].content == Join(Contents(pending), GAP))
    && (sec.tokens <= max ==>
          && |c| == |c0| + (if pending == [] then 1 else 2) && d == d0
          && c[|c| - 1] == ParsedChunk(sec.content, sec.name, sec.level, p, sec.path))
    && (sec.hasChildren ==> Shown(sec, max, c, d, |c0|, p))
  }

  /** The section and what waited became one chunk. */
  ghost predicate Joined(c0: seq<ParsedChunk>, c: seq<ParsedChunk>, pending: seq<Section>, sec: Section) {
    |c| == |c0| + 1 && c[|c0|].content == Join(Contents(pending + [sec]), GAP)
  }

  lemma FlushThenSave(c0: seq<ParsedChunk>, d0: set<int>, c1: seq<ParsedChunk>, d1: set<int>,
                      c2: seq<ParsedChunk>, d2: set<int>, pending: seq<Section>, sec: Section, p: int, max: nat)
    requires d1 == d0 && (forall i :: i in d0 ==> i < |c0|) && c1 <= c2 && |c2| > |c1|
    requires if pending == [] then c1 == c0
             else |c1| == |c0| + 1 && c1[|c0|].content == Join(Contents(pending), GAP)
    requires sec.tokens <= max ==> d2 == d1 && c2 == c1 + [WholeChunk(sec, p)]
    requires sec.tokens > max && sec.hasChildren ==> |c1| in d2 && c2[|c1|] == DirectoryChunk(sec, p)
    ensures SavedApart(c0, d0, c2, d2, pending, sec, p, max)
  {
    if sec.hasChildren {
      assert ShownAt(sec, max, c2, d2, |c1|, p);
    }
  }

  function PartTitle(name: string, i: nat, n: nat): string {
    if n <= 1 then name else name + " (part " + Decimal(i + 1) + ")"
  }

  predicate TitledInParts(c: seq<ParsedChunk>, lo: nat, name: string, n: nat) {
    forall k :: lo <= k < |c| ==> c[k].title == PartTitle(name, k - lo, n)
  }

  lemma TitledNext(c: seq<ParsedChunk>, chunk: ParsedChunk, lo: nat, name: string, n: nat)
    requires TitledInParts(c, lo, name, n) && lo <= |c| && chunk.title == PartTitle(name, |c| - lo, n)
    ensures TitledInParts(c + [chunk], lo, name, n)
  {
  }

  lemma FlushedAndSaved(c0: seq<ParsedChunk>, d0: set<int>, c1: seq<ParsedChunk>, d1: set<int>,
                        c2: seq<ParsedChunk>, d2: set<int>, pending: seq<Section>, sec: Section, p: int,
                        max: nat, fits: bool, text: string)
    requires d1 == d0 && (forall i :: i in d0 ==> i < |c0|) && p < |c0| && Named(c2, |c1|, p)
    requires Grown(c0, d0, c1, d1, p, text, max, fits)
    requires Grown(c1, d1, c2, d2, p, Essence(sec.content), max, fits)
    requires if pending == [] then c1 == c0
             else |c1| == |c0| + 1 && c1[|c0|].content == Join(Contents(pending), GAP)
    requires sec.tokens <= max ==> d2 == d1 && c2 == c1 + [WholeChunk(sec, p)]
    requires sec.tokens > max && sec.hasChildren ==> |c1| in d2 && c2[|c1|] == DirectoryChunk(sec, p)
    ensures Grown(c0, d0, c2, d2, p, text + Essence(sec.content), max, fits)
    ensures Named(c2, |c0|, p) && SavedApart(c0, d0, c2, d2, pending, sec, p, max)
    ensures BareIn(c2, d2, |c0|) <==> BareIn(c2, d2, |c1|)
  {
    GrownConcat(c0, d0, c1, d1, c2, d2, p, text, Essence(sec.content), max, fits);
    NamedFrom(c2, |c0|, |c1|, p);
    FlushThenSave(c0, d0, c1, d1, c2, d2, pending, sec, p, max);
    NoneBareFrom(c1, d1, |c0|);
    BareConcat(c1, d1, c2, d2, |c0|);
  }

  /** From position `lo` on the chunks carry the name, numbered from 1 if there are several. */
  predicate InParts(c: seq<ParsedChunk>, lo: nat, name: string) {
    |c| > lo && TitledInParts(c, lo, name, |c| - lo)
  }

  lemma PathNames(chunks: seq<ParsedChunk>, c: ParsedChunk, name: string)
    requires Titled(c.title, name)
    requires c.path == PathUnder(if 0 <= c.parentIndex < |chunks| then chunks[c.parentIndex].path else "", name)
    ensures PathFits(chunks + [c], |chunks|)
  {
    assert PathNamed(chunks + [c], |chunks|, name);
  }

  class MarkdownParser {
    const maxSize: nat
    const minSize: nat
    var chunks: seq<ParsedChunk>
    ghost var directories: set<int>

    constructor (maxSize: nat, minSize: nat)
      ensures this.maxSize == maxSize && this.minSize == minSize && chunks == [] && directories == {}
    {
      this.maxSize := maxSize;
      this.minSize := minSize;
      chunks, directories := [], {};
    }

    // ---- Sections ----

    /** The heading that closes a section: the next of its level or above. */
    method FindEnd(hs: seq<Heading>, idx: nat) returns (next: nat)
      requires idx < |hs|
      ensures next == SectionEnd(hs, idx)
    {
      next := idx + 1;
      while next < |hs| && hs[next].level > hs[idx].level
        invariant idx < next <= |hs|
        invariant ClosedBy(hs, next, hs[idx].level) == SectionEnd(hs, idx)
      {
        next := next + 1;
      }
    }

    /** The headings one level down, and where the first of them starts. */
    method FindChildren(hs: seq<Heading>, idx: nat, next: nat, sectionEnd: nat)
      returns (kids: seq<nat>, directEnd: nat)
      requires idx < |hs| && next == SectionEnd(hs, idx)
      ensures kids == Children(hs, idx)
      ensures directEnd == if |kids| == 0 then sectionEnd else hs[kids[0]].start
    {
      kids, directEnd := [], sectionEnd;
      var level := hs[idx].level + 1;
      var j := idx + 1;
      while j < next
        invariant idx < j <= next
        invariant kids == AtLevel(hs, idx + 1, j, level)
        invariant directEnd == if |kids| == 0 then sectionEnd else hs[kids[0]].start
      {
        AtLevelSnoc(hs, idx + 1, j, level);
        if hs[j].level == level {
          if |kids| == 0 {
            directEnd := hs[j].start;
          }
          kids := kids + [j];
        }
        j := j + 1;
      }
    }

    /** Read one section: where it ends, what its children are, what text is its own. */
    method GetSectionInfo(content: string, hs: seq<Heading>, idx: nat) returns (sec: Section)
      requires WellFormed(content, hs) && idx < |hs|
      ensures sec == InfoOf(content, hs, idx)
    {
      var h := hs[idx];
      var next := FindEnd(hs, idx);
      var sectionEnd := if next < |hs| then hs[next].start else |content|;
      var kids, directEnd := FindChildren(hs, idx, next, sectionEnd);
      PositionsInOrder(content, hs, idx, next);
      var full := HeadingLine(h) + GAP + Strip(content[h.end..sectionEnd]);
      var direct := "";
      if |kids| > 0 {
        PositionsInOrder(content, hs, idx, kids[0]);
        var own := Strip(content[h.end..directEnd]);
        if own != "" {
          direct := HeadingLine(h) + GAP + own;
        }
      }
      sec := Section(h.title, full, Estimate(full), |kids| > 0, direct, kids, h.level, "");
    }

    ghost predicate Fits() {
      minSize <= maxSize
    }

    ghost predicate Valid()
      reads this
    {
      maxSize > 0 && forall i :: i in directories ==> i < |chunks|
    }

    /** The section knows its path. */
    ghost predicate Pathed(sec: Section, base: string) {
      sec.path == PathUnder(base, sec.name)
    }

    /** Parent, level and path under which chunks are being appended. */
    ghost predicate Under(p: int, level: nat, base: string)
      reads this
    {
      p < |chunks| && (if p >= 0 then level == chunks[p].level + 1 && base == chunks[p].path else base == "")
    }

    method Append(chunk: ParsedChunk)
      requires Valid() && chunk.parentIndex < |chunks|
      requires chunk.parentIndex >= 0 ==> chunk.level == chunks[chunk.parentIndex].level + 1
      requires PathFits(chunks + [chunk], |chunks|)
      requires Fits() ==> Bounded(chunk.content, maxSize)
      modifies this
      ensures Valid() && chunks == old(chunks) + [chunk] && directories == old(directories)
      ensures Grown(old(chunks), old(directories), chunks, directories,
                    chunk.parentIndex, Essence(chunk.content), maxSize, Fits())
    {
      LeafGrown(chunks, directories, chunk, chunk.parentIndex, maxSize, Fits());
      chunks := chunks + [chunk];
    }

    /** Neighbouring small sections become one chunk. */
    method SaveMerged(secs: seq<Section>, p: int, ghost level: nat, ghost base: string)
      requires Valid() && Under(p, level, base) && secs != []
      requires forall s :: s in secs ==>
                 s.tokens == Estimate(s.content) && Pathed(s, base) && (p >= 0 ==> s.level == level)
      requires Fits() ==> SumTokens(secs) <= maxSize
      modifies this
      ensures Valid() && |chunks| == |old(chunks)| + 1 && directories == old(directories)
      ensures !BareIn(chunks, directories, |old(chunks)|)
      ensures Grown(old(chunks), old(directories), chunks, directories,
                    p, EssenceOf(Contents(secs)), maxSize, Fits())
      ensures chunks[..|old(chunks)|] == old(chunks)
      ensures var c := chunks[|old(chunks)|];
              c.parentIndex == p && c.content == Join(Contents(secs), GAP)
              && c.level == secs[0].level && c.path == secs[0].path
              && c.title == (if |secs| == 1 then secs[0].name
                             else secs[0].name + " (+" + Decimal(|secs| - 1) + " more)")
    {
      var combined := Join(Contents(secs), GAP);
      EssenceOfJoin(Contents(secs));
      SumTokensIsSum(secs);
      assert Fits() ==> Packs(Contents(secs), combined, maxSize);
      var title := if |secs| == 1 then secs[0].name
                   else secs[0].name + " (+" + Decimal(|secs| - 1) + " more)";
      PathNames(chunks, ParsedChunk(combined, title, secs[0].level, p, secs[0].path), secs[0].name);
      NoneBareFrom(chunks + [ParsedChunk(combined, title, secs[0].level, p, secs[0].path)], directories, |chunks|);
      Append(ParsedChunk(combined, title, secs[0].level, p, secs[0].path));
    }

    // ---- Chunk processing ----

    /** A section read for its entry, at the level its parent asks for. */
    predicate Readable(content: string, hs: seq<Heading>, e: Entry, sec: Section, p: int, level: nat)
      requires WellFormed(content, hs)
    {
      EntryFits(hs, e, level) && Expands(content, hs, e, sec) && (p >= 0 ==> sec.level == level)
    }

    /** Small sections waiting to be merged; together they fit. */
    ghost predicate Pending(pending: seq<Section>, p: int, level: nat, base: string) {
      && (forall s :: s in pending ==>
            s.tokens == Estimate(s.content) && Pathed(s, base) && (p >= 0 ==> s.level == level))
      && (Fits() ==> SumTokens(pending) <= maxSize)
    }

    method ExpandSections(content: string, hs: seq<Heading>, entries: seq<Entry>, p: int, ghost level: nat)
      returns (expanded: seq<Section>)
      requires WellFormed(content, hs)
      requires forall e :: e in entries ==>
                 EntryFits(hs, e, level) && (e.Ready? && p >= 0 ==> e.section.level == level)
      ensures |expanded| == |entries|
      ensures forall i :: 0 <= i < |entries| ==> Readable(content, hs, entries[i], expanded[i], p, level)
    {
      expanded := [];
      for i := 0 to |entries|
        invariant |expanded| == i
        invariant forall j :: 0 <= j < i ==> Readable(content, hs, entries[j], expanded[j], p, level)
      {
        assert entries[i] in entries;
        match entries[i] {
          case Ready(sec) => expanded := expanded + [sec];
          case AtHeading(idx) =>
            var sec := GetSectionInfo(content, hs, idx);
            expanded := expanded + [sec];
        }
      }
    }

    /** Process sections with merge logic: all they hold is appended below parent `p`. */
    method ProcessSections(content: string, hs: seq<Heading>, entries: seq<Entry>, p: int,
                           parentLevel: nat, parentPath: string, ghost level: nat)
      requires WellFormed(content, hs) && Valid() && Under(p, level, parentPath)
      requires parentLevel < level <= MAX_LEVEL
      requires forall e :: e in entries ==>
                 EntryFits(hs, e, level) && (e.Ready? && p >= 0 ==> e.section.level == level)
      modifies this
      ensures Valid()
      ensures Grown(old(chunks), old(directories), chunks, directories, p,
                    EntriesText(content, hs, entries), maxSize, Fits())
      ensures entries != [] ==> Named(chunks, |old(chunks)|, p)
      ensures forall e :: e in entries && e.AtHeading? && e.idx < |hs| && Alone(InfoOf(content, hs, e.idx), minSize) ==>
                Shown(AtPath(InfoOf(content, hs, e.idx), parentPath), maxSize, chunks, directories, |old(chunks)|, p)
      ensures BareIn(chunks, directories, |old(chunks)|) <==> BareEntries(content, hs, entries, minSize, maxSize)
      decreases MAX_LEVEL - parentLevel, 8
    {
      var expanded := ExpandSections(content, hs, entries, p, level);
      ExpandedText(content, hs, entries, expanded);
      ghost var c0, d0 := chunks, directories;
      var pending;
      ghost var text;
      pending, text := MergeSections(content, hs, entries, expanded, p, parentLevel, parentPath, level);
      ghost var c1, d1 := chunks, directories;
      ghost var rest := FlushPending(pending, p, level, parentPath);
      GrownConcat(c0, d0, c1, d1, chunks, directories, p, text, rest, maxSize, Fits());
      NamedKept(c1, chunks, |c0|, p);
      NoneBareFrom(chunks, directories, |c1|);
      BareConcat(c1, d1, chunks, directories, |c0|);
      AllShownKept(expanded, parentPath, minSize, maxSize, c1, d1, chunks, directories, |c0|, p);
      EntriesShown(content, hs, entries, expanded, parentPath, minSize, maxSize, chunks, directories, |c0|, p);
    }

    /** The merge loop; what is still pending has not been saved. */
    method MergeSections(content: string, hs: seq<Heading>, ghost entries: seq<Entry>, expanded: seq<Section>,
                         p: int, parentLevel: nat, parentPath: string, ghost level: nat)
      returns (pending: seq<Section>, ghost text: string)
      requires WellFormed(content, hs) && Valid() && Under(p, level, parentPath)
      requires parentLevel < level <= MAX_LEVEL && |expanded| == |entries|
      requires forall i :: 0 <= i < |entries| ==> Readable(content, hs, entries[i], expanded[i], p, level)
      modifies this
      ensures Valid() && Under(p, level, parentPath) && Pending(pending, p, level, parentPath)
      ensures Grown(old(chunks), old(directories), chunks, directories, p, text, maxSize, Fits())
      ensures text + EssenceOf(Contents(pending)) == EssenceOf(Contents(expanded))
      ensures expanded != [] ==> pending != [] || Named(chunks, |old(chunks)|, p)
      ensures AllShown(expanded, parentPath, minSize, maxSize, chunks, directories, |old(chunks)|, p)
      ensures BareIn(chunks, directories, |old(chunks)|) <==> BareEntries(content, hs, entries, minSize, maxSize)
      decreases MAX_LEVEL - parentLevel, 7
    {
      ghost var c0, d0 := chunks, directories;
      NothingGrown(chunks, directories, p, maxSize, Fits());
      pending, text := [], "";
      for i := 0 to |expanded|
        invariant Valid() && Under(p, level, parentPath) && Pending(pending, p, level, parentPath)
        invariant MergedSoFar(c0, d0, p, text, pending, EssenceOf(Contents(expanded[..i])))
        invariant i > 0 ==> pending != [] || Named(chunks, |c0|, p)
        invariant AllShown(expanded[..i], parentPath, minSize, maxSize, chunks, directories, |c0|, p)
        invariant BareIn(chunks, directories, |c0|) <==> BareEntries(content, hs, entries[..i], minSize, maxSize)
      {
        ContentsUpTo(expanded, i);
        BareEntriesNext(content, hs, entries, i, minSize, maxSize);
        ghost var c1, d1 := chunks, directories;
        pending, text := MergeNext(content, hs, entries[i], expanded[i], pending, text, c0, d0,
                                   EssenceOf(Contents(expanded[..i])), p, parentLevel, parentPath, level);
        AllShownNext(expanded, i, parentPath, minSize, maxSize, c1, d1, chunks, directories, |c0|, p);
      }
      assert expanded[..|expanded|] == expanded && entries[..|entries|] == entries;
    }

    /** Text saved since (c0, d0) and text waiting make up the text processed. */
    ghost predicate MergedSoFar(c0: seq<ParsedChunk>, d0: set<int>, p: int, text: string,
                                pending: seq<Section>, processed: string)
      reads this
    {
      && Grown(c0, d0, chunks, directories, p, text, maxSize, Fits())
      && text + EssenceOf(Contents(pending)) == processed
    }

    /** The next section of the merge loop, under its path. */
    method MergeNext(content: string, hs: seq<Heading>, ghost e: Entry, expanded: Section, pending: seq<Section>,
                     ghost text: string, ghost c0: seq<ParsedChunk>, ghost d0: set<int>, ghost processed: string,
                     p: int, parentLevel: nat, parentPath: string, ghost level: nat)
      returns (pending': seq<Section>, ghost text': string)
      requires WellFormed(content, hs) && Valid() && Under(p, level, parentPath) && p < |c0|
      requires parentLevel < level <= MAX_LEVEL && Readable(content, hs, e, expanded, p, level)
      requires Pending(pending, p, level, parentPath) && MergedSoFar(c0, d0, p, text, pending, processed)
      modifies this
      ensures Valid() && Under(p, level, parentPath) && Pending(pending', p, level, parentPath)
      ensures MergedSoFar(c0, d0, p, text', pending', processed + Essence(expanded.content))
      ensures pending' != [] || Named(chunks, |c0|, p)
      ensures old(chunks) <= chunks
      ensures forall i :: i in directories && i < |old(chunks)| <==> i in old(directories)
      ensures Alone(expanded, minSize) ==>
                Shown(AtPath(expanded, parentPath), maxSize, chunks, directories, |c0|, p)
      ensures BareIn(chunks, directories, |c0|) <==>
                BareIn(old(chunks), old(directories), |c0|) || BareEntry(content, hs, e, minSize, maxSize)
      decreases MAX_LEVEL - parentLevel, 6
    {
      var path := if parentPath != "" then parentPath + " > " + expanded.name else expanded.name;
      var sec := expanded.(path := path);
      ghost var c1, d1, was := chunks, directories, EssenceOf(Contents(pending));
      ghost var more;
      pending', more := ProcessSection(content, hs, e, sec, pending, p, parentLevel, level, parentPath);
      GrownConcat(c0, d0, c1, d1, chunks, directories, p, text, more, maxSize, Fits());
      Regroup(text, more, EssenceOf(Contents(pending')), was, Essence(sec.content));
      text' := text + more;
      NamedKept(c1, chunks, |c0|, p);
      BareConcat(c1, d1, chunks, directories, |c0|);
      ShownKept(sec, maxSize, chunks, directories, chunks, directories, |c0|, |c1|, p);
    }

    /** One section: kept for merging, merged, or saved. */
    method ProcessSection(content: string, hs: seq<Heading>, ghost e: Entry, sec: Section,
                          pending: seq<Section>, p: int, parentLevel: nat, ghost level: nat, ghost base: string)
      returns (pending': seq<Section>, ghost text: string)
      requires WellFormed(content, hs) && Valid() && Under(p, level, base)
      requires parentLevel < level <= MAX_LEVEL
      requires Readable(content, hs, e, sec, p, level) && Pathed(sec, base) && Pending(pending, p, level, base)
      modifies this
      ensures Valid() && Pending(pending', p, level, base)
      ensures Grown(old(chunks), old(directories), chunks, directories, p, text, maxSize, Fits())
      ensures text + EssenceOf(Contents(pending')) == EssenceOf(Contents(pending)) + Essence(sec.content)
      ensures pending' != [] || Named(chunks, |old(chunks)|, p)
      ensures sec.tokens < minSize ==>
                var full := pending != [] && SumTokens(pending) + sec.tokens > maxSize;
                && pending' == (if full then [] else pending) + [sec]
                && |chunks| == |old(chunks)| + if full then 1 else 0
      ensures sec.tokens >= minSize ==> pending' == []
      ensures sec.tokens >= minSize ==>
                if !sec.hasChildren && pending != [] && SumTokens(pending) + sec.tokens <= maxSize
                then Joined(old(chunks), chunks, pending, sec)
                else SavedApart(old(chunks), old(directories), chunks, directories, pending, sec, p, maxSize)
      ensures BareIn(chunks, directories, |old(chunks)|) <==> BareEntry(content, hs, e, minSize, maxSize)
      decreases MAX_LEVEL - parentLevel, 5
    {
      BareEntryIs(content, hs, e, sec, level, minSize, maxSize);
      if sec.tokens < minSize {
        pending', text := TryAddToPending(pending, sec, p, level, base);
      } else {
        text := SaveOrJoin(content, hs, e, sec, pending, p, parentLevel, level, base);
        pending' := [];
      }
    }

    /** A section of at least the minimum size is joined to what waits, or saved after it. */
    method SaveOrJoin(content: string, hs: seq<Heading>, ghost e: Entry, sec: Section,
                      pending: seq<Section>, p: int, ghost parentLevel: nat, ghost level: nat, ghost base: string)
      returns (ghost text: string)
      requires WellFormed(content, hs) && Valid() && Under(p, level, base)
      requires parentLevel < level <= MAX_LEVEL
      requires Readable(content, hs, e, sec, p, level) && Pathed(sec, base) && Pending(pending, p, level, base)
      modifies this
      ensures Valid() && text == EssenceOf(Contents(pending)) + Essence(sec.content)
      ensures text + EssenceOf(Contents([])) == EssenceOf(Contents(pending)) + Essence(sec.content)
      ensures Grown(old(chunks), old(directories), chunks, directories, p, text, maxSize, Fits())
      ensures Named(chunks, |old(chunks)|, p)
      ensures if !sec.hasChildren && pending != [] && SumTokens(pending) + sec.tokens <= maxSize
              then Joined(old(chunks), chunks, pending, sec)
              else SavedApart(old(chunks), old(directories), chunks, directories, pending, sec, p, maxSize)
      ensures BareIn(chunks, directories, |old(chunks)|) <==> BareSaved(content, hs, sec, minSize, maxSize)
      decreases MAX_LEVEL - parentLevel, 4
    {
      if pending != [] && SumTokens(pending) + sec.tokens <= maxSize && !sec.hasChildren {
        NoneBareFrom(chunks, directories, |chunks|);
        text := MergeAndSave(pending, sec, p, level, base);
      } else {
        text := FlushAndSave(content, hs, e, sec, pending, p, parentLevel, level, base);
      }
      NothingWaits(text);
    }

    /** The section completes what is waiting, and both become one chunk. */
    method MergeAndSave(pending: seq<Section>, sec: Section, p: int, ghost level: nat, ghost base: string) returns (ghost text: string)
      requires Valid() && Under(p, level, base) && Pending(pending, p, level, base) && pending != []
      requires SumTokens(pending) + sec.tokens <= maxSize
      requires sec.tokens == Estimate(sec.content) && Pathed(sec, base) && (p >= 0 ==> sec.level == level)
      modifies this
      ensures Valid() && text == EssenceOf(Contents(pending)) + Essence(sec.content)
      ensures Grown(old(chunks), old(directories), chunks, directories, p, text, maxSize, Fits())
      ensures Named(chunks, |old(chunks)|, p) && Joined(old(chunks), chunks, pending, sec)
      ensures directories == old(directories)
    {
      SumTokensSnoc(pending, sec);
      ContentsSnoc(pending, sec);
      EssenceOfSnoc(Contents(pending), sec.content);
      SaveMerged(pending + [sec], p, level, base);
      text := EssenceOf(Contents(pending + [sec]));
    }

    /** What is waiting is saved first, then the section by itself. */
    method FlushAndSave(content: string, hs: seq<Heading>, ghost e: Entry, sec: Section,
                        pending: seq<Section>, p: int, ghost parentLevel: nat, ghost level: nat, ghost base: string)
      returns (ghost text: string)
      requires WellFormed(content, hs) && Valid() && Under(p, level, base)
      requires parentLevel < level <= MAX_LEVEL
      requires Readable(content, hs, e, sec, p, level) && Pathed(sec, base) && Pending(pending, p, level, base)
      modifies this
      ensures Valid() && text == EssenceOf(Contents(pending)) + Essence(sec.content)
      ensures Grown(old(chunks), old(directories), chunks, directories, p, text, maxSize, Fits())
      ensures Named(chunks, |old(chunks)|, p)
      ensures SavedApart(old(chunks), old(directories), chunks, directories, pending, sec, p, maxSize)
      ensures BareIn(chunks, directories, |old(chunks)|) <==> BareSaved(content, hs, sec, minSize, maxSize)
      decreases MAX_LEVEL - parentLevel, 3
    {
      ghost var c0, d0, waited := chunks, directories, EssenceOf(Contents(pending));
      text := waited + Essence(sec.content);
      ghost var flushed := FlushPending(pending, p, level, base);
      ghost var c1, d1 := chunks, directories;
      SaveSection(content, hs, e, sec, p, parentLevel, level, base);
      FlushedAndSaved(c0, d0, c1, d1, chunks, directories, pending, sec, p, maxSize, Fits(), waited);
    }

    /** A small section joins those waiting, which are saved first if it does not fit. */
    method TryAddToPending(pending: seq<Section>, sec: Section, p: int, ghost level: nat, ghost base: string)
      returns (pending': seq<Section>, ghost text: string)
      requires Valid() && Under(p, level, base) && Pending(pending, p, level, base)
      requires sec.tokens == Estimate(sec.content) < minSize && Pathed(sec, base) && (p >= 0 ==> sec.level == level)
      modifies this
      ensures Valid() && Pending(pending', p, level, base)
      ensures var full := pending != [] && SumTokens(pending) + sec.tokens > maxSize;
              && pending' == (if full then [] else pending) + [sec]
              && |chunks| == |old(chunks)| + if full then 1 else 0
      ensures directories == old(directories) && !BareIn(chunks, directories, |old(chunks)|)
      ensures Grown(old(chunks), old(directories), chunks, directories, p, text, maxSize, Fits())
      ensures text + EssenceOf(Contents(pending')) == EssenceOf(Contents(pending)) + Essence(sec.content)
    {
      pending', text := pending, "";
      WaitingText(pending, sec);
      if pending != [] && SumTokens(pending) + sec.tokens > maxSize {
        SaveMerged(pending, p, level, base);
        pending', text := [], EssenceOf(Contents(pending));
      } else {
        NothingGrown(chunks, directories, p, maxSize, Fits());
        NoneBareFrom(chunks, directories, |chunks|);
      }
      SumTokensSnoc(pending', sec);
      pending' := pending' + [sec];
    }

    method FlushPending(pending: seq<Section>, p: int, ghost level: nat, ghost base: string) returns (ghost text: string)
      requires Valid() && Under(p, level, base) && Pending(pending, p, level, base)
      modifies this
      ensures Valid() && text == EssenceOf(Contents(pending))
      ensures Grown(old(chunks), old(directories), chunks, directories, p, text, maxSize, Fits())
      ensures pending != [] ==>
                && Named(chunks, |old(chunks)|, p) && |chunks| == |old(chunks)| + 1
                && chunks[|old(chunks)|].content == Join(Contents(pending), GAP)
      ensures pending == [] ==> chunks == old(chunks)
      ensures directories == old(directories)
    {
      text := EssenceOf(Contents(pending));
      NothingGrown(chunks, directories, p, maxSize, Fits());
      if pending != [] {
        SaveMerged(pending, p, level, base);
      }
    }

    /** One section as chunks: whole if it fits, as a directory if it has children, else in parts. */
    method SaveSection(content: string, hs: seq<Heading>, ghost e: Entry, sec: Section, p: int,
                       ghost parentLevel: nat, ghost level: nat, ghost base: string)
      requires WellFormed(content, hs) && Valid() && Under(p, level, base)
      requires parentLevel < level <= MAX_LEVEL && Readable(content, hs, e, sec, p, level) && Pathed(sec, base)
      modifies this
      ensures Valid()
      ensures Grown(old(chunks), old(directories), chunks, directories,
                    p, Essence(sec.content), maxSize, Fits())
      ensures Named(chunks, |old(chunks)|, p)
      ensures sec.tokens <= maxSize ==>
                && directories == old(directories)
                && chunks == old(chunks) + [ParsedChunk(sec.content, sec.name, sec.level, p, sec.path)]
      ensures sec.tokens > maxSize && sec.hasChildren ==>
                && |old(chunks)| in directories && chunks[|old(chunks)|] == DirectoryChunk(sec, p)
                && (Bare(chunks, directories, |old(chunks)|) <==> sec.directContent == "")
      ensures sec.tokens > maxSize && !sec.hasChildren ==>
                directories == old(directories)
      ensures BareIn(chunks, directories, |old(chunks)|) <==> BareSaved(content, hs, sec, minSize, maxSize)
      decreases MAX_LEVEL - parentLevel, 2
    {
      if sec.tokens <= maxSize {
        SaveWhole(sec, p, base);
      } else if sec.hasChildren {
        SaveDirectory(content, hs, e.idx, sec, p, parentLevel, level, base);
      } else {
        SaveParts(sec, p, base);
      }
    }

    /** A section that fits, as one chunk. */
    method SaveWhole(sec: Section, p: int, ghost base: string)
      requires Valid() && Under(p, sec.level, base) && Pathed(sec, base)
      requires sec.tokens == Estimate(sec.content) <= maxSize
      modifies this
      ensures Valid() && directories == old(directories)
      ensures chunks == old(chunks) + [ParsedChunk(sec.content, sec.name, sec.level, p, sec.path)]
      ensures Grown(old(chunks), old(directories), chunks, directories, p, Essence(sec.content), maxSize, Fits())
      ensures Named(chunks, |old(chunks)|, p) && !BareIn(chunks, directories, |old(chunks)|)
    {
      OnePieceFits(sec.content, maxSize);
      PathNames(chunks, WholeChunk(sec, p), sec.name);
      NoneBareFrom(chunks + [WholeChunk(sec, p)], directories, |chunks|);
      Append(ParsedChunk(sec.content, sec.name, sec.level, p, sec.path));
    }

    /** A directory chunk, its own text as first child, then its child sections. */
    method SaveDirectory(content: string, hs: seq<Heading>, ghost idx: nat, sec: Section, p: int,
                         ghost parentLevel: nat, ghost level: nat, ghost base: string)
      requires WellFormed(content, hs) && Valid() && Under(p, level, base)
      requires parentLevel < level <= MAX_LEVEL && idx < |hs| && sec.hasChildren
      requires Readable(content, hs, AtHeading(idx), sec, p, level) && Pathed(sec, base)
      modifies this
      ensures Valid()
      ensures Grown(old(chunks), old(directories), chunks, directories,
                    p, Essence(sec.content), maxSize, Fits())
      ensures Named(chunks, |old(chunks)|, p)
      ensures |old(chunks)| in directories && chunks[|old(chunks)|] == DirectoryChunk(sec, p)
      ensures Bare(chunks, directories, |old(chunks)|) <==> sec.directContent == ""
      ensures BareIn(chunks, directories, |old(chunks)|) <==>
                sec.directContent == "" || BareBelow(content, hs, sec.children, minSize, maxSize)
      decreases MAX_LEVEL - parentLevel, 1
    {
      ghost var c0, d0 := chunks, directories;
      var dirIndex := |chunks|;
      var dir := DirectoryChunk(sec, p);
      PathNames(chunks, dir, sec.name);
      chunks, directories := chunks + [dir], directories + {dirIndex};
      SaveChildren(content, hs, idx, sec, dirIndex, parentLevel);
      DirectoryReads(content, hs, idx, sec, dir);
      DirectoryGrown(c0, d0, dir, chunks, directories, p,
                     EntriesText(content, hs, ChildEntries(sec)), maxSize, Fits());
      assert chunks[dirIndex] == dir;
      BareNow(chunks, directories, dirIndex);
    }

    /** What lies below a directory. */
    method SaveChildren(content: string, hs: seq<Heading>, ghost idx: nat, sec: Section, dirIndex: nat,
                        ghost parentLevel: nat)
      requires WellFormed(content, hs) && Valid() && idx < |hs| && sec.hasChildren
      requires sec == InfoOf(content, hs, idx).(path := sec.path)
      requires dirIndex < |chunks| && chunks[dirIndex].level == sec.level && chunks[dirIndex].path == sec.path
      requires parentLevel < sec.level <= MAX_LEVEL
      modifies this
      ensures Valid()
      ensures Grown(old(chunks), old(directories), chunks, directories, dirIndex,
                    EntriesText(content, hs, ChildEntries(sec)), maxSize, Fits())
      ensures Named(chunks, |old(chunks)|, dirIndex)
      ensures BareIn(chunks, directories, |old(chunks)|) <==>
                BareBelow(content, hs, sec.children, minSize, maxSize)
      decreases MAX_LEVEL - parentLevel, 0
    {
      BareLeading(content, hs, OwnText(sec), sec.children, minSize, maxSize);
      DirectoryEntries(content, hs, idx, sec);
      var children := MakeChildren(sec);
      ProcessSections(content, hs, children, dirIndex, sec.level, sec.path, sec.level + 1);
    }

    /** Its own text, if it has any, and its child headings. */
    method MakeChildren(sec: Section) returns (children: seq<Entry>)
      ensures children == ChildEntries(sec)
    {
      children := [];
      if sec.directContent != "" {
        children := [Ready(OwnText(sec))];
      }
      ghost var m := |children|;
      for i := 0 to |sec.children|
        invariant |children| == m + i
        invariant children[..m] == if sec.directContent != "" then [Ready(OwnText(sec))] else []
        invariant forall j :: 0 <= j < i ==> children[m + j] == AtHeading(sec.children[j])
      {
        children := children + [AtHeading(sec.children[i])];
      }
    }

    /** An oversized section without children, by paragraphs. */
    method SaveParts(sec: Section, p: int, ghost base: string)
      requires Valid() && Under(p, sec.level, base) && Pathed(sec, base)
      modifies this
      ensures Valid()
      ensures Grown(old(chunks), old(directories), chunks, directories,
                    p, Essence(sec.content), maxSize, Fits())
      ensures Named(chunks, |old(chunks)|, p) && directories == old(directories)
      ensures !BareIn(chunks, directories, |old(chunks)|)
      ensures InParts(chunks, |old(chunks)|, sec.name)
    {
      var parts := SmartSplit(sec.content, maxSize);
      ghost var c0, d0 := chunks, directories;
      NothingGrown(chunks, directories, p, maxSize, Fits());
      for i := 0 to |parts|
        invariant PartsSoFar(c0, d0, sec, p, base, parts, i)
        invariant TitledInParts(chunks, |c0|, sec.name, |parts|)
      {
        TitledNext(chunks, ParsedChunk(parts[i], PartTitle(sec.name, i, |parts|), sec.level, p, sec.path),
                   |c0|, sec.name, |parts|);
        SavePart(c0, d0, sec, p, base, parts, i);
      }
      assert parts[..|parts|] == parts;
      NoneBareFrom(chunks, directories, |c0|);
    }

    /** The first `i` parts are saved. */
    ghost predicate PartsSoFar(c0: seq<ParsedChunk>, d0: set<int>, sec: Section, p: int, base: string,
                               parts: seq<string>, i: nat)
      requires i <= |parts|
      reads this
    {
      && Valid() && Under(p, sec.level, base) && Pathed(sec, base) && p < |c0|
      && directories == d0 && |chunks| == |c0| + i
      && Grown(c0, d0, chunks, directories, p, EssenceOf(parts[..i]), maxSize, Fits())
      && (i > 0 ==> Named(chunks, |c0|, p))
    }

    method SavePart(ghost c0: seq<ParsedChunk>, ghost d0: set<int>, sec: Section, p: int, ghost base: string,
                    parts: seq<string>, i: nat)
      requires i < |parts| && PartsSoFar(c0, d0, sec, p, base, parts, i) && Bounded(parts[i], maxSize)
      modifies this
      ensures PartsSoFar(c0, d0, sec, p, base, parts, i + 1)
      ensures chunks == old(chunks) + [ParsedChunk(parts[i], PartTitle(sec.name, i, |parts|), sec.level, p, sec.path)]
    {
      var title := if |parts| > 1 then sec.name + " (part " + Decimal(i + 1) + ")" else sec.name;
      ghost var c1 := chunks;
      var chunk := ParsedChunk(parts[i], title, sec.level, p, sec.path);
      PathNames(chunks, chunk, sec.name);
      Append(chunk);
      GrownConcat(c0, d0, c1, d0, chunks, directories, p,
                  EssenceOf(parts[..i]), Essence(parts[i]), maxSize, Fits());
      EssenceOfUpTo(parts, i);
      assert chunks[|c1|].parentIndex == p;
    }

    // ---- The whole document ----

    /** Parsing keeps the body text: what the chunks stand for, read in order, is the document
        without the text skipped before the first heading of smallest level. The leaves alone
        hold all of it if and only if no section that is split up lacks text of its own, because
        such a section shows only its title and the leaves lack its heading. Parents form a
        forest. */
    method ParseContent(content: string, hs: seq<Heading>, docTitle: string)
      requires WellFormed(content, hs) && maxSize > 0
      modifies this
      ensures Forest(chunks) && chunks != []
      ensures Document(chunks) == BodyText(content, hs)
      ensures LeafText(chunks) == BodyText(content, hs) <==>
                hs == [] || forall k :: k in TopHeadings(hs) ==> !BareAt(content, hs, k, minSize, maxSize)
      ensures forall i :: 0 <= i < |chunks| ==> PathFits(chunks, i)
      ensures hs != [] ==> TopShown(content, hs)
      ensures minSize <= maxSize && hs != [] ==> LeavesBounded(chunks, maxSize)
      ensures hs == [] && Estimate(content) > 4000 ==> LeavesBounded(chunks, maxSize)
      ensures hs == [] ==> InParts(chunks, 0, docTitle)
      ensures hs == [] && Estimate(content) <= 4000 ==> chunks == [ParsedChunk(content, docTitle, 0, -1, "")]
    {
      chunks, directories := [], {};
      if hs == [] {
        ParseFlat(content, docTitle);
      } else {
        ParseSections(content, hs);
      }
      LeavesHoldIff(chunks);
      assert hs == [] ==> NoneBare(chunks);
    }

    /** Every top-level section with children and at least the minimum size is a chunk of its own:
        whole if it fits, else a directory. */
    ghost predicate TopShown(content: string, hs: seq<Heading>)
      requires WellFormed(content, hs) && hs != []
      reads this
    {
      forall k :: k in TopHeadings(hs) && InfoOf(content, hs, k).tokens >= minSize
                  && InfoOf(content, hs, k).hasChildren ==>
        exists i :: 0 <= i < |chunks| && TopShownAt(InfoOf(content, hs, k), i)
    }

    ghost predicate TopShownAt(info: Section, i: nat)
      requires i < |chunks|
      reads this
    {
      && chunks[i].title == info.name && chunks[i].path == info.name
      && chunks[i].level == info.level && chunks[i].parentIndex == -1
      && (i in Parents(chunks) <==> info.tokens > maxSize)
      && chunks[i].content == if info.tokens <= maxSize then info.content
                              else if info.directContent == "" then info.name else info.directContent
    }

    lemma TopIsShown(content: string, hs: seq<Heading>, k: nat)
      requires WellFormed(content, hs) && hs != [] && k < |hs|
      requires Shown(AtPath(InfoOf(content, hs, k), ""), maxSize, chunks, Parents(chunks), 0, -1)
      ensures exists i :: 0 <= i < |chunks| && TopShownAt(InfoOf(content, hs, k), i)
    {
      var info := AtPath(InfoOf(content, hs, k), "");
      var i :| 0 <= i < |chunks| && ShownAt(info, maxSize, chunks, Parents(chunks), i, -1);
      assert TopShownAt(InfoOf(content, hs, k), i);
    }

    lemma TopAllShown(content: string, hs: seq<Heading>)
      requires WellFormed(content, hs) && hs != []
      requires forall e :: e in TopEntries(content, hs) && e.AtHeading? && e.idx < |hs|
                           && Alone(InfoOf(content, hs, e.idx), minSize) ==>
                 Shown(AtPath(InfoOf(content, hs, e.idx), ""), maxSize, chunks, Parents(chunks), 0, -1)
      ensures TopShown(content, hs)
    {
      AllTopEntries(content, hs);
      forall k | k in TopHeadings(hs) && InfoOf(content, hs, k).tokens >= minSize && InfoOf(content, hs, k).hasChildren
        ensures exists i :: 0 <= i < |chunks| && TopShownAt(InfoOf(content, hs, k), i) {
        assert AtHeading(k) in TopEntries(content, hs) && Alone(InfoOf(content, hs, k), minSize);
        TopIsShown(content, hs, k);
      }
    }

    /** The text before the first heading, unless it is blank, and the headings of smallest level. */
    method BuildTopLevelSections(content: string, hs: seq<Heading>) returns (sections: seq<Entry>)
      requires WellFormed(content, hs) && hs != []
      ensures sections == TopEntries(content, hs)
    {
      var minLevel := MinLevel(hs);
      sections := [];
      var pre := "";
      assert content[..0] == "" && Strip("") == "";
      if hs[0].start > 0 {
        pre := Strip(content[..hs[0].start]);
      }
      if pre != "" {
        sections := [Ready(Section("preamble", pre, Estimate(pre), false, "", [], 0, ""))];
      }
      ghost var lead := sections;
      for i := 0 to |hs|
        invariant sections == lead + AtHeadings(AtLevel(hs, 0, i, minLevel))
      {
        NextAtLevel(hs, i, minLevel, lead);
        if hs[i].level == minLevel {
          sections := sections + [AtHeading(i)];
        }
      }
    }

    method ParseSections(content: string, hs: seq<Heading>)
      requires chunks == [] && directories == {} && maxSize > 0
      requires WellFormed(content, hs) && hs != []
      modifies this
      ensures Forest(chunks) && chunks != [] && Document(chunks) == BodyText(content, hs)
      ensures forall i :: i in Parents(chunks) ==> 0 <= i < |chunks| && chunks[i].level > 0
      ensures TopShown(content, hs) && forall i :: 0 <= i < |chunks| ==> PathFits(chunks, i)
      ensures NoneBare(chunks) <==>
                forall k :: k in TopHeadings(hs) ==> !BareAt(content, hs, k, minSize, maxSize)
      ensures minSize <= maxSize ==> LeavesBounded(chunks, maxSize)
    {
      TopTiles(content, hs);
      var entries := BuildTopLevelSections(content, hs);
      ProcessSections(content, hs, entries, -1, 0, "", MinLevel(hs));
      WholeDocument(chunks, directories, EntriesText(content, hs, entries), maxSize, Fits());
      TopBare(content, hs, chunks, directories, minSize, maxSize);
      TopAllShown(content, hs);
    }

    /** Without headings: one chunk if small, else one per part. */
    method ParseFlat(content: string, docTitle: string)
      requires chunks == [] && directories == {} && maxSize > 0
      modifies this
      ensures Forest(chunks) && chunks != [] && Document(chunks) == Essence(content) && Parents(chunks) == {}
      ensures forall i :: 0 <= i < |chunks| ==> PathFits(chunks, i)
      ensures Estimate(content) > 4000 ==> LeavesBounded(chunks, maxSize)
      ensures InParts(chunks, 0, docTitle)
      ensures Estimate(content) <= 4000 ==> chunks == [ParsedChunk(content, docTitle, 0, -1, "")]
    {
      var parts := [content];
      if Estimate(content) > SMALL_DOC_THRESHOLD {
        parts := SmartSplit(content, maxSize);
      } else {
        EssenceOfSnoc([], content);
        EssenceEmpty();
        assert [] + [content] == [content];
      }
      for i := 0 to |parts|
        invariant Flat(chunks, parts[..i])
        invariant |parts| == 1 && i == 1 ==> chunks == [ParsedChunk(parts[0], docTitle, 0, -1, "")]
        invariant TitledInParts(chunks, 0, docTitle, |parts|)
      {
        var title := if |parts| > 1 then docTitle + " (part " + Decimal(i + 1) + ")" else docTitle;
        chunks := chunks + [ParsedChunk(parts[i], title, 0, -1, "")];
      }
      assert parts[..|parts|] == parts;
      FlatDocument(chunks, parts, maxSize);
    }

    // ---- Paragraph splitting ----

    /** Slices of at most `step` characters. */
    method HardCut(para: string, step: nat) returns (parts: seq<string>)
      requires step > 0
      ensures EssenceOf(parts) == Essence(para)
      ensures para != "" ==> parts != []
      ensures forall p :: p in parts ==> |p| <= step
    {
      parts := [];
      var i := 0;
      EssenceEmpty();
      assert para[..0] == "";
      while i < |para|
        invariant 0 <= i <= |para|
        invariant i > 0 ==> parts != []
        invariant EssenceOf(parts) == Essence(para[..i])
        invariant forall p :: p in parts ==> |p| <= step
      {
        var j := if i + step < |para| then i + step else |para|;
        var slice := Strip(para[i..j]);
        EssenceStrip(para[i..j]);
        EssenceOfSnoc(parts, slice);
        EssenceSlice(para, 0, i, j);
        assert para[0..i] == para[..i] && para[0..j] == para[..j];
        parts := parts + [slice];
        i := j;
      }
      assert para[..|para|] == para;
    }

    /** Splitting by paragraphs keeps every non-blank character in order, and each part is the
        join of paragraphs whose estimates stay within the maximum, or a slice. */
    method SmartSplit(content: string, max: nat) returns (parts: seq<string>)
      requires max > 0
      ensures parts != []
      ensures EssenceOf(parts) == Essence(content)
      ensures forall p :: p in parts ==> Bounded(p, max)
    {
      var paragraphs := Paragraphs(content);
      JoinParagraphs(content);
      EssenceOfJoin(paragraphs);
      var current, tokens;
      ghost var pieces;
      parts, current, tokens, pieces := TakeParagraphs(paragraphs, max);
      StripEmptyIff(current);
      if Strip(current) != "" {
        EssenceEmpty();
        parts := Flush(parts, current, pieces, tokens, max);
      }
      if parts == [] {
        parts := WholeContent(content, paragraphs, max);
      }
    }

    /** Only blank content comes to this: no part was closed and nothing is left over. */
    method WholeContent(content: string, paragraphs: seq<string>, ghost max: nat) returns (parts: seq<string>)
      requires Packs(paragraphs, content, max)
      ensures parts == [content] && EssenceOf(parts) == Essence(content)
      ensures forall p :: p in parts ==> Bounded(p, max)
    {
      EssenceOfSnoc([], content);
      assert [] + [content] == [content];
      parts := [content];
    }

    method TakeParagraphs(paragraphs: seq<string>, max: nat)
      returns (parts: seq<string>, current: string, tokens: nat, ghost pieces: seq<string>)
      requires max > 0
      ensures EssenceOf(parts) + Essence(current) == EssenceOf(paragraphs)
      ensures tokens <= max && Accumulates(pieces, current, tokens)
      ensures parts == [] ==> SumEstimates(paragraphs) == tokens
      ensures forall p :: p in parts ==> Bounded(p, max)
    {
      EssenceEmpty();
      parts, current, tokens, pieces := [], "", 0, [];
      for i := 0 to |paragraphs|
        invariant EssenceOf(parts) + Essence(current) == EssenceOf(paragraphs[..i])
        invariant Accumulates(pieces, current, tokens)
        invariant tokens <= max
        invariant parts == [] ==> SumEstimates(paragraphs[..i]) == tokens
        invariant forall p :: p in parts ==> Bounded(p, max)
      {
        EssenceOfUpTo(paragraphs, i);
        parts, current, tokens, pieces := TakeParagraph(parts, current, tokens, pieces, paragraphs[i], max);
      }
      assert paragraphs[..|paragraphs|] == paragraphs;
    }

    /** One paragraph: cut if too large alone, else joined to the part being accumulated,
        unless that would exceed the maximum. */
    method TakeParagraph(parts: seq<string>, current: string, tokens: nat, ghost pieces: seq<string>,
                         para: string, max: nat)
      returns (parts': seq<string>, current': string, tokens': nat, ghost pieces': seq<string>)
      requires max > 0 && tokens <= max && Accumulates(pieces, current, tokens)
      requires forall p :: p in parts ==> Bounded(p, max)
      ensures EssenceOf(parts') + Essence(current') == EssenceOf(parts) + Essence(current) + Essence(para)
      ensures tokens' <= max && Accumulates(pieces', current', tokens')
      ensures parts' == [] ==> parts == [] && tokens' == tokens + Estimate(para)
      ensures forall p :: p in parts' ==> Bounded(p, max)
      ensures Estimate(para) > max ==> current' == ""
      ensures Estimate(para) <= max ==>
                if tokens + Estimate(para) > max && current != ""
                then parts' == parts + [Strip(current)] && current' == para
                else parts' == parts && current' == if current != "" then current + GAP + para else para
    {
      EssenceEmpty();
      parts', current', tokens', pieces' := parts, "", 0, pieces;
      var paraTokens := Estimate(para);
      Accumulate(pieces, current, tokens, para);
      if paraTokens > max {
        parts' := CutParagraph(parts, current, pieces, tokens, para, max);
      } else if tokens + paraTokens > max && current != "" {
        parts' := Flush(parts, current, pieces, tokens, max);
        current', tokens', pieces' := para, paraTokens, [para];
      } else {
        current', pieces' := if current != "" then current + GAP + para else para,
                             if current != "" then pieces + [para] else [para];
        tokens' := tokens + paraTokens;
      }
    }

    /** A paragraph too large alone: what is accumulated is closed, the paragraph cut. */
    method CutParagraph(parts: seq<string>, current: string, ghost pieces: seq<string>, ghost tokens: nat,
                        para: string, max: nat)
      returns (parts': seq<string>)
      requires max > 0 && tokens <= max && Accumulates(pieces, current, tokens)
      requires Estimate(para) > max && forall p :: p in parts ==> Bounded(p, max)
      ensures EssenceOf(parts') == EssenceOf(parts) + Essence(current) + Essence(para)
      ensures parts' != [] && forall p :: p in parts' ==> Bounded(p, max)
    {
      var closed := Flush(parts, current, pieces, tokens, max);
      var slices := HardCut(para, 3 * max);
      EssenceOfConcat(closed, slices);
      parts' := closed + slices;
    }

    /** Close the accumulated part, if there is one. */
    method Flush(parts: seq<string>, current: string, ghost pieces: seq<string>, ghost tokens: nat,
                 ghost max: nat)
      returns (r: seq<string>)
      requires Accumulates(pieces, current, tokens) && tokens <= max
      requires forall p :: p in parts ==> Bounded(p, max)
      ensures EssenceOf(r) == EssenceOf(parts) + Essence(current)
      ensures r == if current != "" then parts + [Strip(current)] else parts
      ensures forall p :: p in r ==> Bounded(p, max)
    {
      r := parts;
      EssenceEmpty();
      StripEmptyIff(current);
      if current != "" {
        r := parts + [Strip(current)];
        EssenceStrip(current);
        EssenceOfSnoc(parts, Strip(current));
        assert Packs(pieces, Strip(current), max);
      }
    }
  }

  lemma {:induction false} EssenceOfConcat(a: seq<string>, b: seq<string>)
    ensures EssenceOf(a + b) == EssenceOf(a) + EssenceOf(b)
  {
    if b == [] {
      assert a + b == a;
    } else {
      var front, last := b[..|b| - 1], b[|b| - 1];
      EssenceOfConcat(a, front);
      assert b == front + [last] && a + b == (a + front) + [last];
      EssenceOfSnoc(front, last);
      EssenceOfSnoc(a + front, last);
    }
  }
}
