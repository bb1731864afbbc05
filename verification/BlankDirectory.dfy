/** The parser does deliver blank directories: an oversized section whose heading has marks but
    no title, with a child and no text of its own. */
module BlankDirectory {
  import opened Text
  import opened MarkdownSections
  import opened MarkdownTree
  import opened DocumentTree
  import opened Markdown

  const HEADINGS := [Heading(0, 3, "", 1), Heading(4, 8, "b", 2)]

  /** An untitled heading, a heading below it, and `n` characters of text. */
  function Untitled(n: nat): string {
    "#  " + "\n" + "## b" + "\n" + seq(n, _ => 'x')
  }

  lemma UntitledParts(n: nat)
    ensures |Untitled(n)| == n + 9
    ensures Untitled(n)[0..3] == "#  " && Untitled(n)[3..4] == "\n" && Untitled(n)[4..8] == "## b"
    ensures Untitled(n)[8..] == "\n" + seq(n, _ => 'x')
  {
  }

  lemma MarksAndTitle()
    ensures Essence("#  ") == Essence(Hashes(1) + " " + "")
    ensures Essence("## b") == Essence(Hashes(2) + " " + "b")
  {
    EssenceSnoc("#", ' ');
    EssenceSnoc("# ", ' ');
    assert "#" + [' '] == "# " && "# " + [' '] == "#  ";
    assert Hashes(1) + " " + "" == "# " && Hashes(2) + " " + "b" == "## b";
  }

  lemma UntitledIsWellFormed(n: nat)
    ensures WellFormed(Untitled(n), HEADINGS)
  {
    UntitledParts(n);
    MarksAndTitle();
  }

  lemma {:induction false} WeightOfXs(n: nat)
    ensures Weight(seq(n, _ => 'x')) == 3 * n
  {
    if n > 0 {
      var xs := seq(n, _ => 'x');
      assert xs[1..] == seq(n - 1, _ => 'x');
      WeightOfXs(n - 1);
    }
  }

  lemma {:induction false} StripKeepsXs(s: string)
    requires s != "" && !IsSpace(s[0]) && !IsSpace(s[|s| - 1])
    ensures Strip(s) == s
  {
  }

  /** Its first section is a directory with neither title nor own text. */
  lemma UntitledSection(n: nat)
    requires n > 0
    ensures WellFormed(Untitled(n), HEADINGS)
    ensures var info := InfoOf(Untitled(n), HEADINGS, 0);
            info.name == "" && info.directContent == "" && info.hasChildren && 10 * info.tokens >= 3 * n - 9
  {
    UntitledIsWellFormed(n);
    UntitledParts(n);
    assert SectionEnd(HEADINGS, 0) == 2 && Children(HEADINGS, 0) == [1];
    var own := Untitled(n)[3..4];
    assert own == ['\n'] && own[1..] == "" && StripLeft(own) == StripLeft("") == "";
    var all := Untitled(n)[3..];
    UntitledText(n);
    var full := HeadingLine(HEADINGS[0]) + GAP + Strip(all);
    WeightConcat(HeadingLine(HEADINGS[0]) + GAP, Strip(all));
    assert Untitled(n)[3..|Untitled(n)|] == all;
    assert InfoOf(Untitled(n), HEADINGS, 0).content == full;
  }

  lemma UntitledText(n: nat)
    requires n > 0
    ensures Weight(Strip(Untitled(n)[3..])) >= 3 * n
  {
    var xs := seq(n, _ => 'x');
    var text := "## b" + "\n" + xs;
    assert Untitled(n)[3..] == ['\n'] + text;
    assert StripLeft(['\n'] + text) == StripLeft(text) == text;
    assert text[|text| - 1] == 'x';
    WeightConcat("## b" + "\n", xs);
    WeightOfXs(n);
  }

  /** So the parser, on a text that is long enough, lists a blank chunk that is a parent. */
  method ParsesBlankDirectory(maxSize: nat, minSize: nat) returns (parser: MarkdownParser, d: nat)
    requires maxSize > 0
    ensures d < |parser.chunks| && Blank(parser.chunks[d]) && d in Parents(parser.chunks)
  {
    var n := 4 * (maxSize + minSize) + 10;
    UntitledSection(n);
    parser := new MarkdownParser(maxSize, minSize);
    parser.ParseContent(Untitled(n), HEADINGS, "Document");
    assert MinLevel(HEADINGS) == 1 && TopHeadings(HEADINGS)[0] == 0;
    ghost var info := InfoOf(Untitled(n), HEADINGS, 0);
    assert 0 in TopHeadings(HEADINGS) && info.tokens >= minSize && info.tokens > maxSize && info.hasChildren;
    ghost var i :| 0 <= i < |parser.chunks| && parser.TopShownAt(info, i);
    assert i in Parents(parser.chunks) && parser.chunks[i].content == "";
    d :| 0 <= d < |parser.chunks| && d in Parents(parser.chunks)
         && parser.chunks[d].content == "" && Blank(parser.chunks[d]);
  }
}
