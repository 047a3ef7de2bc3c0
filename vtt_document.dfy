/**
 * Whole documents made of well-formed cue blocks, and what parseVtt makes of them
 * (utils/vtt.ts:27-77): one cue per block, in the order of the blocks, with the
 * block's times and its trimmed, joined text lines.
 */
module VttDocument {
  import opened Common
  import opened Text
  import opened Vtt
  import opened VttProperties

  /**
   * A cue block as a WebVTT file writes it: an optional identifier line, the timing
   * line "start --> end", and the text lines.
   */
  datatype Block = Block(id: Option<string>, start: string, end: string, text: seq<string>)

  /** A piece of text that stays on one line once the document is split. */
  predicate OneLine(s: string) {
    '\n' !in s && '\r' !in s
  }

  /**
   * A well-formed block: an identifier without an arrow, two timestamps, and text
   * lines none of which is blank.
   */
  predicate WellFormed(b: Block) {
    (b.id.Some? ==> OneLine(b.id.value) && !Contains(b.id.value, Arrow))
    && Timed(b)
    && forall k :: 0 <= k < |b.text| ==> OneLine(b.text[k]) && JsTrim(b.text[k]) != ""
  }

  /** Both times of the block are timestamps. */
  predicate Timed(b: Block) {
    MatchesTimestamp(b.start) && MatchesTimestamp(b.end)
  }

  predicate AllWellFormed(bs: seq<Block>) {
    forall k :: 0 <= k < |bs| ==> WellFormed(bs[k])
  }

  function TimingLine(b: Block): string {
    b.start + " --> " + b.end
  }

  /** The lines of one block. */
  function BlockLines(b: Block): seq<string> {
    (if b.id.Some? then [b.id.value] else []) + [TimingLine(b)] + b.text
  }

  /** The lines of the blocks, one blank line between two blocks. */
  function BlocksLines(bs: seq<Block>): seq<string>
    decreases |bs|
  {
    if bs == [] then []
    else if |bs| == 1 then BlockLines(bs[0])
    else BlockLines(bs[0]) + [""] + BlocksLines(bs[1..])
  }

  /** The lines of a document: the header, a blank line, then the blocks. */
  function DocLines(bs: seq<Block>): seq<string> {
    [Header, ""] + BlocksLines(bs)
  }

  /** A document: "WEBVTT\n\n", then the blocks separated by blank lines. */
  function Render(bs: seq<Block>): string {
    Join(DocLines(bs), '\n')
  }

  /** The cue a block stands for. */
  function BlockCue(b: Block): Cue
    requires Timed(b)
  {
    Cue(FieldsValue(b.start), FieldsValue(b.end), JsTrim(Join(b.text, '\n')))
  }

  function BlockCues(bs: seq<Block>): seq<Cue>
    requires forall k :: 0 <= k < |bs| ==> Timed(bs[k])
    decreases |bs|
  {
    if bs == [] then [] else [BlockCue(bs[0])] + BlockCues(bs[1..])
  }

  /**
   * parseVtt reads a document of well-formed blocks as exactly one cue per block, in
   * the order of the blocks: the k-th cue has the k-th block's times, and its text
   * lines joined with line feeds and trimmed.
   */
  lemma RenderedBlocksParse(bs: seq<Block>)
    requires AllWellFormed(bs)
    ensures var cs := ParseDocument(Render(bs));
            |cs| == |bs| && forall k :: 0 <= k < |bs| ==> cs[k] == BlockCue(bs[k])
  {
    DocumentLinesOfRender(bs);
    var vs := DocViews(bs);
    HeadedParse(vs, bs);
    BlockCuesAt(bs);
  }

  /** The views of a document's lines: the header, a blank line, then the blocks. */
  lemma DocViews(bs: seq<Block>) returns (vs: seq<LineView>)
    requires AllWellFormed(bs)
    ensures vs == Views(DocLines(bs)) && 2 <= |vs| && vs[0].header && vs[1].blank && BlocksAt(vs, 2, bs)
  {
    var lines := DocLines(bs);
    vs := Views(lines);
    ViewsAreViews(lines);
    ViewAt(vs, lines, 0);
    ViewAt(vs, lines, 1);
    HeaderView();
    BlankView();
    assert lines[2..] == BlocksLines(bs);
    LinesBlocksAt(vs, lines, 2, bs);
  }

  /** The header line and the blank line after it yield nothing; the blocks after them yield their cues. */
  lemma HeadedParse(vs: seq<LineView>, bs: seq<Block>)
    requires 2 <= |vs| && vs[0].header && vs[1].blank && BlocksAt(vs, 2, bs)
    requires forall k :: 0 <= k < |bs| ==> Timed(bs[k])
    ensures ParseFrom(vs, 0) == BlockCues(bs)
  {
    BlocksParse(vs, 2, bs);
    SkipLine(vs, 0);
    SkipLine(vs, 1);
  }

  /** The cues of blocks, one per block in order. */
  lemma {:induction false} BlockCuesAt(bs: seq<Block>)
    requires forall k :: 0 <= k < |bs| ==> Timed(bs[k])
    decreases |bs|
    ensures |BlockCues(bs)| == |bs| && forall k :: 0 <= k < |bs| ==> BlockCues(bs)[k] == BlockCue(bs[k])
  {
    if bs != [] {
      BlockCuesAt(bs[1..]);
    }
  }

  /**
   * The worked example of the format, written as its lines joined with line feeds:
   * two cues, starting at one second and at five seconds.
   */
  lemma TwoBlockExample()
    ensures ParseDocument(Join(["WEBVTT", "", "00:00:01.000 --> 00:00:03.500", "Hello world",
                                "", "00:00:05.000 --> 00:00:06.000", "Second line"], '\n'))
            == [Cue(1000, 3500, "Hello world"), Cue(5000, 6000, "Second line")]
  {
    var s1, e1, t1 := FirstFields();
    var s2, e2, t2 := SecondFields();
    TwoBlocks(s1, e1, t1, s2, e2, t2);
  }

  /** The times and text of the example's first block, and what they read as. */
  lemma FirstFields() returns (s: string, e: string, t: string)
    ensures s + " --> " + e == "00:00:01.000 --> 00:00:03.500" && t == "Hello world"
    ensures MatchesTimestamp(s) && MatchesTimestamp(e) && FieldsValue(s) == 1000 && FieldsValue(e) == 3500
    ensures OneLine(t) && JsTrim(t) == t != ""
  {
    s, e, t := "00:00:01.000", "00:00:03.500", "Hello world";
    FirstTimes();
    FirstText();
  }

  /** The times and text of the example's second block, and what they read as. */
  lemma SecondFields() returns (s: string, e: string, t: string)
    ensures s + " --> " + e == "00:00:05.000 --> 00:00:06.000" && t == "Second line"
    ensures MatchesTimestamp(s) && MatchesTimestamp(e) && FieldsValue(s) == 5000 && FieldsValue(e) == 6000
    ensures OneLine(t) && JsTrim(t) == t != ""
  {
    s, e, t := "00:00:05.000", "00:00:06.000", "Second line";
    SecondTimes();
    SecondText();
  }

  lemma FirstTimes()
    ensures MatchesTimestamp("00:00:01.000") && MatchesTimestamp("00:00:03.500")
    ensures FieldsValue("00:00:01.000") == 1000 && FieldsValue("00:00:03.500") == 3500
    ensures "00:00:01.000" + " --> " + "00:00:03.500" == "00:00:01.000 --> 00:00:03.500"
  {
  }

  lemma SecondTimes()
    ensures MatchesTimestamp("00:00:05.000") && MatchesTimestamp("00:00:06.000")
    ensures FieldsValue("00:00:05.000") == 5000 && FieldsValue("00:00:06.000") == 6000
    ensures "00:00:05.000" + " --> " + "00:00:06.000" == "00:00:05.000 --> 00:00:06.000"
  {
  }

  lemma FirstText()
    ensures OneLine("Hello world") && JsTrim("Hello world") == "Hello world"
  {
    var line := "Hello world";
    assert line[0] == 'H' && line[|line| - 1] == 'd';
    TrimUnchanged(line, JsWhitespace);
  }

  lemma SecondText()
    ensures OneLine("Second line") && JsTrim("Second line") == "Second line"
  {
    var line := "Second line";
    assert line[0] == 'S' && line[|line| - 1] == 'e';
    TrimUnchanged(line, JsWhitespace);
  }

  /** Two blocks without identifiers, one text line each, as in the worked example. */
  lemma TwoBlocks(s1: string, e1: string, t1: string, s2: string, e2: string, t2: string)
    requires MatchesTimestamp(s1) && MatchesTimestamp(e1) && MatchesTimestamp(s2) && MatchesTimestamp(e2)
    requires OneLine(t1) && JsTrim(t1) == t1 != "" && OneLine(t2) && JsTrim(t2) == t2 != ""
    ensures ParseDocument(Join([Header, "", s1 + " --> " + e1, t1, "", s2 + " --> " + e2, t2], '\n'))
            == [Cue(FieldsValue(s1), FieldsValue(e1), t1), Cue(FieldsValue(s2), FieldsValue(e2), t2)]
  {
    var b1, b2 := Block(None, s1, e1, [t1]), Block(None, s2, e2, [t2]);
    calc {
      ParseDocument(Join([Header, "", s1 + " --> " + e1, t1, "", s2 + " --> " + e2, t2], '\n'));
      { TwoBlockLines(b1, b2); }
      ParseDocument(Render([b1, b2]));
      { TwoBlocksParse(b1, b2); }
      [BlockCue(b1), BlockCue(b2)];
      { OneLineCue(b1); OneLineCue(b2); }
      [Cue(FieldsValue(s1), FieldsValue(e1), t1), Cue(FieldsValue(s2), FieldsValue(e2), t2)];
    }
  }

  /** Two well-formed blocks parse as their two cues. */
  lemma TwoBlocksParse(b1: Block, b2: Block)
    requires WellFormed(b1) && WellFormed(b2)
    ensures ParseDocument(Render([b1, b2])) == [BlockCue(b1), BlockCue(b2)]
  {
    var bs := [b1, b2];
    assert AllWellFormed(bs);
    RenderedBlocksParse(bs);
    var cs := ParseDocument(Render(bs));
    assert cs[0] == BlockCue(bs[0]) && cs[1] == BlockCue(bs[1]);
  }

  /** The cue of a block with one text line that trims to itself carries that line. */
  lemma OneLineCue(b: Block)
    requires Timed(b) && |b.text| == 1 && JsTrim(b.text[0]) == b.text[0]
    ensures BlockCue(b) == Cue(FieldsValue(b.start), FieldsValue(b.end), b.text[0])
  {
    assert Join(b.text, '\n') == b.text[0];
  }

  /** The lines of two blocks without identifiers, one text line each. */
  lemma TwoBlockLines(b1: Block, b2: Block)
    requires b1.id.None? && b2.id.None? && |b1.text| == 1 && |b2.text| == 1
    ensures DocLines([b1, b2]) == [Header, "", TimingLine(b1), b1.text[0], "", TimingLine(b2), b2.text[0]]
  {
    assert [b1, b2][1..] == [b2];
    assert BlockLines(b1) == [TimingLine(b1), b1.text[0]];
    assert BlockLines(b2) == [TimingLine(b2), b2.text[0]];
    assert BlocksLines([b2]) == BlockLines(b2);
    assert BlocksLines([b1, b2]) == BlockLines(b1) + [""] + BlocksLines([b2]);
  }

  // ---------------------------------------------------------------------------
  // From the text to its lines

  /** A rendered document splits back into its lines, none of which holds a carriage return. */
  lemma DocumentLinesOfRender(bs: seq<Block>)
    requires AllWellFormed(bs)
    ensures Render(bs) != "" && DocumentLines(Render(bs)) == DocLines(bs)
  {
    var ls := DocLines(bs);
    BlocksLinesOneLine(bs);
    assert forall k :: 0 <= k < |ls| ==> OneLine(ls[k]);
    JoinLength(ls);
    JoinFree(ls, '\r');
    assert "\r" == ['\r'];
    RemoveAllCharAbsent(Render(bs), '\r');
    SplitJoin(ls, '\n');
  }

  lemma {:induction false} JoinLength(ls: seq<string>)
    requires |ls| >= 1
    ensures |Join(ls, '\n')| >= |ls[0]|
  {
  }

  /** A character that is neither the separator nor in any piece is not in their join. */
  lemma {:induction false} JoinFree(ls: seq<string>, c: char)
    requires c != '\n' && forall k :: 0 <= k < |ls| ==> c !in ls[k]
    ensures c !in Join(ls, '\n')
    decreases |ls|
  {
    if |ls| > 1 {
      JoinFree(ls[1..], c);
    }
  }

  lemma {:induction false} BlocksLinesOneLine(bs: seq<Block>)
    requires AllWellFormed(bs)
    decreases |bs|
    ensures forall k :: 0 <= k < |BlocksLines(bs)| ==> OneLine(BlocksLines(bs)[k])
  {
    if bs != [] {
      BlockLinesOneLine(bs[0]);
      if |bs| > 1 {
        BlocksLinesOneLine(bs[1..]);
      }
    }
  }

  lemma BlockLinesOneLine(b: Block)
    requires WellFormed(b)
    ensures forall k :: 0 <= k < |BlockLines(b)| ==> OneLine(BlockLines(b)[k])
  {
    TimestampChars(b.start);
    TimestampChars(b.end);
    assert OneLine(TimingLine(b));
  }

  // ---------------------------------------------------------------------------
  // How each line reads

  lemma HeaderView()
    ensures ViewLine(Header).header && !ViewLine(Header).arrow
  {
    assert Header[0] == 'W' && Header[|Header| - 1] == 'T';
    TrimUnchanged(Header, JsWhitespace);
    assert '-' !in Header;
    NotContainsByFirstChar(Header, Arrow);
  }

  lemma BlankView()
    ensures ViewLine("").blank
  {
    TrimUnchanged("", JsWhitespace);
  }

  /** A timing line is neither blank nor the header, has an arrow, and reads as the block's times. */
  lemma TimingLineView(b: Block)
    requires MatchesTimestamp(b.start) && MatchesTimestamp(b.end)
    ensures var v := ViewLine(TimingLine(b));
            !v.blank && !v.header && v.arrow && v.timing == Some(Timing(FieldsValue(b.start), FieldsValue(b.end)))
  {
    var l := TimingLine(b);
    assert l[0] == b.start[0] && l[|l| - 1] == b.end[|b.end| - 1];
    TimestampChars(b.start);
    TimestampChars(b.end);
    TrimUnchanged(l, JsWhitespace);
    assert l[0] != Header[0];
    ParseTimingPlain(b.start, b.end);
  }

  /** An identifier has no arrow once trimmed either. */
  lemma IdentifierView(id: string)
    requires !Contains(id, Arrow)
    ensures !ViewLine(id).arrow
  {
    NotContainsSlice(id, Arrow, LeadLength(id, JsWhitespace), TrimEndIndex(id, JsWhitespace));
  }

  // ---------------------------------------------------------------------------
  // Where the blocks lie among the line views

  /** 1 for a block with an identifier line, 0 without. */
  function IdLines(b: Block): nat {
    if b.id.Some? then 1 else 0
  }

  lemma BlockLinesLength(b: Block)
    ensures |BlockLines(b)| == IdLines(b) + 1 + |b.text|
  {
  }

  /** The views from `c` on hold the lines `text`, none of them blank, followed by a blank line or the end. */
  predicate TextAt(vs: seq<LineView>, c: nat, text: seq<string>) {
    c + |text| <= |vs|
    && (forall k :: 0 <= k < |text| ==> vs[c + k].raw == text[k] && !vs[c + k].blank)
    && (c + |text| == |vs| || vs[c + |text|].blank)
  }

  /** The views from `p` on read as block `b`: its identifier without an arrow, its timing line with its times, then its text. */
  predicate BlockAt(vs: seq<LineView>, p: nat, b: Block) {
    Timed(b) && p + IdLines(b) < |vs|
    && (b.id.Some? ==> !vs[p].arrow)
    && var q := p + IdLines(b);
       !vs[q].blank && !vs[q].header && vs[q].arrow
       && vs[q].timing == Some(Timing(FieldsValue(b.start), FieldsValue(b.end)))
       && TextAt(vs, q + 1, b.text)
  }

  /** The views from `p` to the end read as the blocks `bs`, one blank line between two blocks. */
  predicate BlocksAt(vs: seq<LineView>, p: nat, bs: seq<Block>)
    decreases |bs|
  {
    if bs == [] then p == |vs|
    else
      var e := p + |BlockLines(bs[0])|;
      BlockAt(vs, p, bs[0]) && if |bs| == 1 then e == |vs| else e < |vs| && BlocksAt(vs, e + 1, bs[1..])
  }

  // ---------------------------------------------------------------------------
  // The parse, block by block

  /** Text lines at `c` make up the text run from `c`, and the cue text is theirs. */
  lemma {:induction false} TextRunAt(vs: seq<LineView>, c: nat, text: seq<string>)
    requires TextAt(vs, c, text)
    decreases |text|
    ensures TextRun(vs, c) == |text| && TextLines(vs, c, |text|) == text
  {
    if text != [] {
      assert vs[c + 0].raw == text[0];
      forall k | 0 <= k < |text| - 1 ensures vs[c + 1 + k].raw == text[1..][k] && !vs[c + 1 + k].blank {
        assert vs[c + (k + 1)].raw == text[k + 1] && !vs[c + (k + 1)].blank;
      }
      TextRunAt(vs, c + 1, text[1..]);
      assert text == [text[0]] + text[1..];
    }
  }

  /**
   * A well-formed block read at `p`, followed by a blank line or the end, yields its
   * cue, and parsing goes on after the blank line.
   */
  lemma BlockParse(vs: seq<LineView>, p: nat, b: Block, next: nat)
    requires BlockAt(vs, p, b) && next == p + |BlockLines(b)| + 1
    ensures ParseFrom(vs, p) == [Cue(FieldsValue(b.start), FieldsValue(b.end), JsTrim(Join(b.text, '\n')))] + ParseFrom(vs, next)
  {
    var q := p + IdLines(b);
    BlockLinesLength(b);
    TimedParse(vs, q, Timing(FieldsValue(b.start), FieldsValue(b.end)), b.text, next);
    if b.id.Some? {
      IdentifierStep(vs, p, q);
    }
  }

  /** A readable timing line at `q` followed by text lines yields the cue of those times and that text. */
  lemma TimedParse(vs: seq<LineView>, q: nat, tm: Timing, text: seq<string>, next: nat)
    requires q < |vs| && !vs[q].blank && !vs[q].header && vs[q].arrow && vs[q].timing == Some(tm)
    requires TextAt(vs, q + 1, text) && next == q + |text| + 2
    ensures ParseFrom(vs, q) == [Cue(tm.start, tm.end, JsTrim(Join(text, '\n')))] + ParseFrom(vs, next)
  {
    assert IdentifierLines(vs[q]) == 0;
    assert BlockTiming(vs, q, IdentifierLines(vs[q])) == Some(tm);
    TakeBlock(vs, q, tm, q + 1);
    TextRunAt(vs, q + 1, text);
  }

  /** A line without an arrow in front of a readable timing line is passed over, whether it is blank, the header or an identifier. */
  lemma IdentifierStep(vs: seq<LineView>, p: nat, q: nat)
    requires q == p + 1 && q < |vs| && !vs[p].arrow
    requires !vs[q].blank && !vs[q].header && vs[q].arrow && vs[q].timing.Some?
    ensures ParseFrom(vs, p) == ParseFrom(vs, q)
  {
    if vs[p].blank || vs[p].header {
      SkipLine(vs, p);
    } else {
      IdentifierIgnored(vs, p);
    }
  }

  /** Blocks read from `p` to the end yield their cues in order. */
  lemma {:induction false} BlocksParse(vs: seq<LineView>, p: nat, bs: seq<Block>)
    requires BlocksAt(vs, p, bs) && forall k :: 0 <= k < |bs| ==> Timed(bs[k])
    decreases |bs|
    ensures ParseFrom(vs, p) == BlockCues(bs)
  {
    if bs != [] {
      var n := NextBlock(vs, p, bs);
      if |bs| > 1 {
        BlocksParse(vs, n, bs[1..]);
      }
      BlockParse(vs, p, bs[0], n);
      BlockCuesCons(bs);
    }
  }

  /** The first block lies at `p`, and the others from `n` on, the line after the blank line that closes it. */
  lemma NextBlock(vs: seq<LineView>, p: nat, bs: seq<Block>) returns (n: nat)
    requires BlocksAt(vs, p, bs) && bs != []
    ensures BlockAt(vs, p, bs[0]) && n == p + |BlockLines(bs[0])| + 1
    ensures |bs| > 1 ==> BlocksAt(vs, n, bs[1..])
    ensures |bs| == 1 ==> n > |vs|
  {
    n := p + |BlockLines(bs[0])| + 1;
  }

  /** The cues of blocks: the first block's cue, then those of the others. */
  lemma BlockCuesCons(bs: seq<Block>)
    requires bs != [] && forall k :: 0 <= k < |bs| ==> Timed(bs[k])
    ensures BlockCue(bs[0]) == Cue(FieldsValue(bs[0].start), FieldsValue(bs[0].end), JsTrim(Join(bs[0].text, '\n')))
    ensures BlockCues(bs) == [BlockCue(bs[0])] + BlockCues(bs[1..])
    ensures |bs| == 1 ==> BlockCues(bs[1..]) == []
  {
  }

  // ---------------------------------------------------------------------------
  // From a block's lines to its views

  lemma ViewAt(vs: seq<LineView>, lines: seq<string>, k: nat)
    requires IsViews(vs, lines) && k < |lines|
    ensures vs[k] == ViewLine(lines[k])
  {
  }

  /** A slice that holds `xs + ys` holds `xs` then `ys`. */
  lemma SliceParts(lines: seq<string>, p: nat, xs: seq<string>, ys: seq<string>)
    requires p + |xs| + |ys| <= |lines| && lines[p..p + |xs| + |ys|] == xs + ys
    ensures lines[p..p + |xs|] == xs && lines[p + |xs|..p + |xs| + |ys|] == ys
  {
    assert lines[p..p + |xs|] == lines[p..p + |xs| + |ys|][..|xs|];
    assert lines[p + |xs|..p + |xs| + |ys|] == lines[p..p + |xs| + |ys|][|xs|..];
  }

  /** Non-blank lines at `c`, followed by a blank line or the end, are read as text lines. */
  lemma TextLinesAt(vs: seq<LineView>, lines: seq<string>, c: nat, text: seq<string>)
    requires IsViews(vs, lines) && c + |text| <= |lines| && lines[c..c + |text|] == text
    requires forall k :: 0 <= k < |text| ==> JsTrim(text[k]) != ""
    requires c + |text| == |lines| || lines[c + |text|] == ""
    ensures TextAt(vs, c, text)
  {
    forall k | 0 <= k < |text| ensures vs[c + k].raw == text[k] && !vs[c + k].blank {
      ViewAt(vs, lines, c + k);
      assert lines[c + k] == text[k];
    }
    if c + |text| < |lines| {
      ViewAt(vs, lines, c + |text|);
      BlankView();
    }
  }

  /** The lines of a well-formed block at `p`, followed by a blank line or the end, are read as that block. */
  lemma LinesBlockAt(vs: seq<LineView>, lines: seq<string>, p: nat, b: Block)
    requires IsViews(vs, lines) && WellFormed(b)
    requires p + |BlockLines(b)| <= |lines| && lines[p..p + |BlockLines(b)|] == BlockLines(b)
    requires p + |BlockLines(b)| == |lines| || lines[p + |BlockLines(b)|] == ""
    ensures BlockAt(vs, p, b)
  {
    var pre := if b.id.Some? then [b.id.value] else [];
    var q := p + |pre|;
    SliceParts(lines, p, pre + [TimingLine(b)], b.text);
    SliceParts(lines, p, pre, [TimingLine(b)]);
    assert lines[q] == lines[q..q + 1][0];
    TimingLineAt(vs, lines, q, b);
    TextLinesAt(vs, lines, q + 1, b.text);
    if b.id.Some? {
      assert lines[p] == lines[p..q][0];
      IdentifierAt(vs, lines, p, b.id.value);
    }
  }

  /** A block's timing line is read as a timing line with the block's times. */
  lemma TimingLineAt(vs: seq<LineView>, lines: seq<string>, q: nat, b: Block)
    requires IsViews(vs, lines) && q < |lines| && lines[q] == TimingLine(b) && Timed(b)
    ensures !vs[q].blank && !vs[q].header && vs[q].arrow
    ensures vs[q].timing == Some(Timing(FieldsValue(b.start), FieldsValue(b.end)))
  {
    ViewAt(vs, lines, q);
    TimingLineView(b);
  }

  /** An identifier line is read as a line without an arrow. */
  lemma IdentifierAt(vs: seq<LineView>, lines: seq<string>, p: nat, id: string)
    requires IsViews(vs, lines) && p < |lines| && lines[p] == id && !Contains(id, Arrow)
    ensures !vs[p].arrow
  {
    ViewAt(vs, lines, p);
    IdentifierView(id);
  }

  /** The lines of well-formed blocks, from `p` to the end, are read as those blocks. */
  lemma {:induction false} LinesBlocksAt(vs: seq<LineView>, lines: seq<string>, p: nat, bs: seq<Block>)
    requires IsViews(vs, lines) && AllWellFormed(bs)
    requires p <= |lines| && lines[p..] == BlocksLines(bs)
    decreases |bs|
    ensures BlocksAt(vs, p, bs)
  {
    if bs != [] {
      var b := bs[0];
      if |bs| == 1 {
        LastLines(lines, p, BlockLines(b));
        LinesBlockAt(vs, lines, p, b);
      } else {
        var rest := BlocksLines(bs[1..]);
        LinesThenBlank(lines, p, BlockLines(b), rest);
        LinesBlockAt(vs, lines, p, b);
        LinesBlocksAt(vs, lines, p + |BlockLines(b)| + 1, bs[1..]);
      }
    }
  }

  /** Lines that run from `p` to the end. */
  lemma LastLines(lines: seq<string>, p: nat, xs: seq<string>)
    requires p <= |lines| && lines[p..] == xs
    ensures p + |xs| == |lines| && lines[p..p + |xs|] == xs
  {
  }

  /** Lines from `p`, a blank line after them, then more lines to the end. */
  lemma LinesThenBlank(lines: seq<string>, p: nat, xs: seq<string>, rest: seq<string>)
    requires p <= |lines| && lines[p..] == xs + [""] + rest
    ensures p + |xs| < |lines| && lines[p..p + |xs|] == xs && lines[p + |xs|] == ""
    ensures lines[p + |xs| + 1..] == rest
  {
    assert lines[p..][..|xs|] == xs;
    assert lines[p..][|xs|] == "";
    assert lines[p..][|xs| + 1..] == rest;
  }
}
