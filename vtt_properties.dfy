/**
 * What parseVtt promises about the cues it returns, stated over the line views the
 * parser reads (utils/vtt.ts:27-77).
 */
module VttProperties {
  import opened Common
  import opened Text
  import opened Vtt

  /** Carriage returns never matter: they are all deleted before the text is split into lines. */
  lemma CarriageReturnsIgnored(s: string)
    ensures ParseDocument(RemoveAll(s, "\r")) == ParseDocument(s)
  {
    var r := RemoveAll(s, "\r");
    assert "\r" == ['\r'];
    RemoveAllChar(s, '\r');
    RemoveAllCharAbsent(r, '\r');
    if s != "" && r == "" {
      assert DocumentLines(s) == Split("", '\n') == [""];
      var vs := Views([""]);
      assert vs[0] == ViewLine("");
      TrimUnchanged("", JsWhitespace);
      SkipLine(vs, 0);
    }
  }

  /** What any line's view satisfies: a line with an arrow is neither blank nor the header, and only a line with an arrow has times. */
  predicate Coherent(v: LineView) {
    (v.arrow ==> !v.blank && !v.header) && (v.timing.Some? ==> v.arrow)
  }

  /** Every view of a document's lines is coherent. */
  lemma ViewsCoherent(lines: seq<string>, vs: seq<LineView>, k: nat)
    requires IsViews(vs, lines) && k < |vs|
    ensures Coherent(vs[k])
  {
    assert vs[k] == ViewLine(lines[k]);
  }

  /**
   * The index of the timing line of every cue the parse from `i` yields, in the order
   * the cues are yielded.
   */
  function TimingLines(vs: seq<LineView>, i: nat): seq<nat>
    decreases |vs| - i
  {
    if i >= |vs| then []
    else
      var st := StepAt(vs, i);
      (if st.cue.Some? then [i + IdentifierLines(vs[i])] else []) + TimingLines(vs, i + st.advance)
  }

  /** The cue a timing line at `j` yields: its times, and its text lines from `j + 1` up to the next blank line. */
  predicate CueOfLine(vs: seq<LineView>, j: nat, c: Cue) {
    j < |vs| && vs[j].timing == Some(Timing(c.start, c.end))
    && c.text == CueText(vs, j + 1, TextRun(vs, j + 1))
  }

  /** There is one timing line per cue. */
  lemma {:induction false} TimingLinesCount(vs: seq<LineView>, i: nat)
    ensures |TimingLines(vs, i)| == |ParseFrom(vs, i)|
    decreases |vs| - i
  {
    if i < |vs| {
      var next, j, e := StepPieces(vs, i);
      TimingLinesCount(vs, next);
    }
  }

  /** Numbers in `[lo, hi)`, strictly increasing. */
  predicate IncreasingWithin(ts: seq<nat>, lo: nat, hi: nat) {
    (forall k :: 0 <= k < |ts| ==> lo <= ts[k] < hi)
    && (forall k, l :: 0 <= k < l < |ts| ==> ts[k] < ts[l])
  }

  /** The timing lines of the cues lie at or after the cursor, strictly in increasing order. */
  lemma {:induction false} TimingLinesIncrease(vs: seq<LineView>, i: nat)
    ensures IncreasingWithin(TimingLines(vs, i), i, |vs|)
    decreases |vs| - i
  {
    if i < |vs| {
      var st := StepAt(vs, i);
      var next := i + st.advance;
      TimingLinesIncrease(vs, next);
      var ts := TimingLines(vs, next);
      if st.cue.Some? {
        var j := i + IdentifierLines(vs[i]);
        assert j < next && j < |vs|;
        PrependLess(j, ts, i, next, |vs|);
        assert TimingLines(vs, i) == [j] + ts;
      } else {
        assert TimingLines(vs, i) == ts;
        WidenWithin(ts, i, next, |vs|);
      }
    }
  }

  lemma WidenWithin(ts: seq<nat>, lo: nat, next: nat, hi: nat)
    requires lo <= next && IncreasingWithin(ts, next, hi)
    ensures IncreasingWithin(ts, lo, hi)
  {
  }

  /** Putting `j` in front of increasing numbers in `[next, hi)` gives increasing numbers in `[lo, hi)`. */
  lemma PrependLess(j: nat, ts: seq<nat>, lo: nat, next: nat, hi: nat)
    requires lo <= j < next && j < hi
    requires IncreasingWithin(ts, next, hi)
    ensures IncreasingWithin([j] + ts, lo, hi)
  {
    var ts' := [j] + ts;
    forall k, l | 0 <= k < l < |ts'| ensures ts'[k] < ts'[l] {
      assert ts'[l] == ts[l - 1];
      if k > 0 {
        assert ts'[k] == ts[k - 1];
      }
    }
  }

  /**
   * Cues come out in document order, one per readable timing line the cursor meets:
   * the k-th cue carries the times of the k-th of those lines and the text of the
   * lines after it. Nothing sorts the cues or drops overlapping ones.
   */
  lemma {:induction false} CuesInDocumentOrder(vs: seq<LineView>, i: nat)
    ensures var ts, cs := TimingLines(vs, i), ParseFrom(vs, i);
            |ts| == |cs| && forall k :: 0 <= k < |ts| ==> CueOfLine(vs, ts[k], cs[k])
    decreases |vs| - i
  {
    if i < |vs| {
      var next, j, e := StepPieces(vs, i);
      CuesInDocumentOrder(vs, next);
      PrependEmitted(vs, j, e, TimingLines(vs, next), ParseFrom(vs, next));
    }
  }

  /** Timing lines and cues in matching order: the k-th cue is the one the k-th line yields. */
  predicate Paired(vs: seq<LineView>, ts: seq<nat>, cs: seq<Cue>) {
    |ts| == |cs| && forall k :: 0 <= k < |ts| ==> CueOfLine(vs, ts[k], cs[k])
  }

  /** One step from `i`: the cursor moves to `next`, and the cue `e` it yields, if any, is the one its timing line `j` yields. */
  lemma StepPieces(vs: seq<LineView>, i: nat) returns (next: nat, j: nat, e: Option<Cue>)
    requires i < |vs|
    ensures i < next <= |vs| + 1
    ensures e.Some? ==> i + 2 <= next && CueOfLine(vs, j, e.value)
    ensures TimingLines(vs, i) == (if e.Some? then [j] else []) + TimingLines(vs, next)
    ensures ParseFrom(vs, i) == Emitted(e) + ParseFrom(vs, next)
  {
    var st := StepAt(vs, i);
    next, j, e := i + st.advance, i + IdentifierLines(vs[i]), st.cue;
    ParseFromStep(vs, i);
    TimingLinesStep(vs, i);
    StepAdvance(vs, i);
    StepCue(vs, i);
  }

  /** A step that yields a cue consumes at least two lines. */
  lemma StepAdvance(vs: seq<LineView>, i: nat)
    requires i < |vs|
    ensures StepAt(vs, i).cue.Some? ==> StepAt(vs, i).advance >= 2
  {
  }

  lemma TimingLinesStep(vs: seq<LineView>, i: nat)
    requires i < |vs|
    ensures TimingLines(vs, i) == (if StepAt(vs, i).cue.Some? then [i + IdentifierLines(vs[i])] else [])
                                  + TimingLines(vs, i + StepAt(vs, i).advance)
  {
  }

  /** A step that yields a cue yields the one its timing line yields. */
  lemma StepCue(vs: seq<LineView>, i: nat)
    requires i < |vs|
    ensures StepAt(vs, i).cue.Some? ==> CueOfLine(vs, i + IdentifierLines(vs[i]), StepAt(vs, i).cue.value)
  {
  }

  lemma PrependEmitted(vs: seq<LineView>, j: nat, e: Option<Cue>, ts: seq<nat>, cs: seq<Cue>)
    requires e.Some? ==> CueOfLine(vs, j, e.value)
    requires Paired(vs, ts, cs)
    ensures Paired(vs, (if e.Some? then [j] else []) + ts, Emitted(e) + cs)
  {
    if e.Some? {
      var ts', cs' := [j] + ts, [e.value] + cs;
      forall k | 0 <= k < |ts'| ensures CueOfLine(vs, ts'[k], cs'[k]) {
        if k > 0 {
          assert ts'[k] == ts[k - 1] && cs'[k] == cs[k - 1];
        }
      }
    }
  }

  /** Every cue needs a timing line and at least the line after it (or the end), so a parse yields at most half as many cues as lines, rounded up. */
  lemma {:induction false} CueCountBound(vs: seq<LineView>, i: nat)
    requires i <= |vs| + 1
    ensures 2 * |ParseFrom(vs, i)| <= |vs| + 1 - i
    decreases |vs| - i
  {
    if i < |vs| {
      var next, j, e := StepPieces(vs, i);
      CueCountBound(vs, next);
    }
  }

  /** A line that reads as a timing line, directly followed by a blank line or the end, yields a cue with empty text. */
  lemma EmptyCueText(vs: seq<LineView>, i: nat, tm: Timing)
    requires i < |vs| && Coherent(vs[i]) && vs[i].timing == Some(tm)
    requires i + 1 == |vs| || vs[i + 1].blank
    ensures ParseFrom(vs, i) == [Cue(tm.start, tm.end, "")] + ParseFrom(vs, i + 2)
  {
    assert BlockTiming(vs, i, IdentifierLines(vs[i])) == Some(tm);
    TakeBlock(vs, i, tm, i + 1);
    assert TextRun(vs, i + 1) == 0;
    assert TextLines(vs, i + 1, 0) == [];
    TrimUnchanged("", JsWhitespace);
    assert CueText(vs, i + 1, 0) == "";
  }

  /** An identifier line in front of a timing line changes nothing: the block parses as if the identifier were absent. */
  lemma IdentifierIgnored(vs: seq<LineView>, i: nat)
    requires i + 1 < |vs| && !vs[i].blank && !vs[i].header && !vs[i].arrow
    requires Coherent(vs[i + 1]) && vs[i + 1].timing.Some?
    ensures ParseFrom(vs, i) == ParseFrom(vs, i + 1)
  {
    var tm := vs[i + 1].timing.value;
    TakeStep(vs, i, tm, i + 2);
    TakeStep(vs, i + 1, tm, i + 2);
    SameStep(vs, i, i + 1);
  }

  /** Two cursor positions whose passes push the same cue and leave the cursor at the same line parse alike. */
  lemma SameStep(vs: seq<LineView>, i: nat, j: nat)
    requires i < |vs| && j < |vs|
    requires StepAt(vs, i).cue == StepAt(vs, j).cue
    requires i + StepAt(vs, i).advance == j + StepAt(vs, j).advance
    ensures ParseFrom(vs, i) == ParseFrom(vs, j)
  {
    ParseFromStep(vs, i);
    ParseFromStep(vs, j);
  }

  /** A non-blank line without an arrow followed by another line without one: both are passed over and scanning resumes after them. */
  lemma TwoLinesWithoutTimingSkipped(vs: seq<LineView>, i: nat)
    requires i + 1 < |vs| && !vs[i].blank && !vs[i].header && !vs[i].arrow
    requires Coherent(vs[i + 1]) && !vs[i + 1].arrow
    ensures ParseFrom(vs, i) == ParseFrom(vs, i + 2)
  {
    DropBlock(vs, i);
  }

  /**
   * A timing line whose times do not read is dropped alone: scanning resumes on the
   * very next line, so the text lines of the dropped block are scanned again and can
   * themselves start a cue.
   */
  lemma UnreadableTimingRescans(vs: seq<LineView>, i: nat)
    requires i < |vs| && Coherent(vs[i]) && vs[i].arrow && vs[i].timing.None?
    ensures ParseFrom(vs, i) == ParseFrom(vs, i + 1)
  {
    DropBlock(vs, i);
  }

  /** The lines of a dropped block are not skipped: a readable timing line right after an unreadable one yields its cue. */
  lemma MalformedBlockTextRescanned(vs: seq<LineView>, i: nat, tm: Timing)
    requires i + 1 < |vs| && Coherent(vs[i]) && vs[i].arrow && vs[i].timing.None?
    requires Coherent(vs[i + 1]) && vs[i + 1].timing == Some(tm)
    ensures ParseFrom(vs, i) == [Cue(tm.start, tm.end, CueText(vs, i + 2, TextRun(vs, i + 2)))] + ParseFrom(vs, i + 3 + TextRun(vs, i + 2))
  {
    calc {
      ParseFrom(vs, i);
      { UnreadableTimingRescans(vs, i); }
      ParseFrom(vs, i + 1);
      { assert BlockTiming(vs, i + 1, IdentifierLines(vs[i + 1])) == Some(tm);
        TakeBlock(vs, i + 1, tm, i + 2); }
      [Cue(tm.start, tm.end, CueText(vs, i + 2, TextRun(vs, i + 2)))] + ParseFrom(vs, i + 3 + TextRun(vs, i + 2));
    }
  }
}
