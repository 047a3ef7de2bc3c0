/**
 * The WebVTT text engine of utils/vtt.ts: removal of code-fence noise around a
 * generated document, the `[HH:]MM:SS.mmm` timestamp reader, and the one-pass
 * cue parser. Cue times are whole milliseconds; the source keeps seconds in a
 * JavaScript number, and `millis / 1000` is exact once the unit is the millisecond.
 */
module Vtt {
  import opened Common
  import opened Text

  /** One cue of a parsed document, `start` and `end` in milliseconds. */
  datatype Cue = Cue(start: nat, end: nat, text: string)

  // ---------------------------------------------------------------------------
  // cleanVttText

  const VttOpener: string := "```vtt\n"
  const PlainOpener: string := "```\n"
  const Closer: string := "\n```"

  /** `s` without the prefix `p`, when `s` starts with it (a `replace` of a `^`-anchored pattern). */
  function DropPrefix(s: string, p: string): string {
    if StartsWith(s, p) then s[|p|..] else s
  }

  /** `s` without the suffix `p`, when `s` ends with it (a `replace` of a `$`-anchored pattern). */
  function DropSuffix(s: string, p: string): string {
    if EndsWith(s, p) then s[..|s| - |p|] else s
  }

  /** How many characters the three fence removals take off the front of `text`. */
  function FenceOffset(text: string): nat {
    var a := if StartsWith(text, VttOpener) then |VttOpener| else 0;
    a + (if StartsWith(text[a..], PlainOpener) then |PlainOpener| else 0)
  }

  /**
   * cleanVttText: at most one leading "```vtt\n", then at most one leading "```\n",
   * then at most one trailing "\n```" are removed, and the rest is trimmed.
   * The result is a contiguous piece of the input with nothing to trim at either end.
   */
  function CleanVttText(text: string): (r: string)
    ensures r == [] || (!IsJsSpace(r[0]) && !IsJsSpace(r[|r| - 1]))
    ensures exists j :: FenceOffset(text) <= j <= |text| && r == JsTrim(text[FenceOffset(text)..j])
  {
    var afterVtt := DropPrefix(text, VttOpener);
    var afterPlain := DropPrefix(afterVtt, PlainOpener);
    var body := DropSuffix(afterPlain, Closer);
    assert afterPlain == text[FenceOffset(text)..];
    assert body == text[FenceOffset(text)..FenceOffset(text) + |body|];
    TrimBounds(body, JsWhitespace);
    JsTrim(body)
  }

  /** A string starting with `p` starts with every prefix `q` of `p`. */
  lemma StartsWithPrefix(s: string, p: string, q: string)
    requires |q| <= |p| && p[..|q|] == q
    ensures StartsWith(s, p) ==> StartsWith(s, q)
  {
    if StartsWith(s, p) {
      assert s[..|q|] == s[..|p|][..|q|];
    }
  }

  /** A string ending with `p` ends with every suffix `q` of `p`. */
  lemma EndsWithSuffix(s: string, p: string, q: string)
    requires |q| <= |p| && p[|p| - |q|..] == q
    ensures EndsWith(s, p) ==> EndsWith(s, q)
  {
    if EndsWith(s, p) {
      assert s[|s| - |q|..] == s[|s| - |p|..][|p| - |q|..];
    }
  }

  /** Without a fence at either end, cleaning is plain trimming: interior fences are never touched. */
  lemma CleanVttTextInteriorUntouched(text: string)
    requires !StartsWith(text, "```") && !EndsWith(text, "```")
    ensures CleanVttText(text) == JsTrim(text)
  {
    StartsWithPrefix(text, VttOpener, "```");
    StartsWithPrefix(text, PlainOpener, "```");
    EndsWithSuffix(text, Closer, "```");
  }

  /** Only one opener of each kind is removed: a second "```vtt\n" survives. */
  lemma CleanVttTextRemovesOneOpener()
    ensures CleanVttText("```vtt\n```vtt\nX") == "```vtt\nX"
  {
    var s, rest := "```vtt\n```vtt\nX", "```vtt\nX";
    assert s[..7] == VttOpener;
    assert s[7..] == rest;
    assert rest[3] == 'v' && PlainOpener[3] == '\n';
    assert rest[..4] != PlainOpener;
    assert rest[4] == 't' && Closer[0] == '\n';
    assert rest[4..] != Closer;
    TrimUnchanged(rest, JsWhitespace);
  }

  /** Cleaning is not idempotent: the fence is only looked for before trimming. */
  lemma CleanVttTextNotIdempotent()
    ensures CleanVttText(" ```vtt\nX") == "```vtt\nX"
    ensures CleanVttText(CleanVttText(" ```vtt\nX")) == "X"
  {
    var s, t := " ```vtt\nX", "```vtt\nX";
    assert s[0] == ' ' && s[5] == 't';
    assert s[..7] != VttOpener && s[..4] != PlainOpener && s[5..] != Closer;
    LeadFromExact(s, JsWhitespace, 0, 1);
    EndFromExact(s, JsWhitespace, 1, |s|, |s|);
    assert s[1..] == t;
    assert JsTrim(s) == t;
    assert t[..7] == VttOpener && t[7..] == "X";
    assert !StartsWith("X", PlainOpener) && !EndsWith("X", Closer);
    TrimUnchanged("X", JsWhitespace);
  }

  /** The closing fence at the end is removed, and nothing else. */
  lemma DropCloser(body: string)
    ensures DropSuffix(body + Closer, Closer) == body
  {
    var t := body + Closer;
    assert t[|t| - |Closer|..] == Closer;
    assert t[..|t| - |Closer|] == body;
  }

  /** A document between "```vtt\n" and "\n```" loses both fences and is trimmed, unless a plain opener follows the first. */
  lemma CleanVttTextStripsFences(body: string)
    requires !StartsWith(body, PlainOpener)
    ensures CleanVttText(VttOpener + body + Closer) == JsTrim(body)
  {
    var t := body + Closer;
    var s := VttOpener + body + Closer;
    assert s[..|VttOpener|] == VttOpener && s[|VttOpener|..] == t;
    DropCloser(body);
    if StartsWith(t, PlainOpener) {
      PlainOpenerAcrossCloser(body);
      assert t[|PlainOpener|..] == "```";
      TrimUnchanged(body, JsWhitespace);
    }
  }

  /** Whether `x + y` starts with a `p` no longer than `x` is decided by `x` alone. */
  lemma StartsWithLonger(x: string, y: string, p: string)
    ensures |p| <= |x| ==> (StartsWith(x + y, p) <==> StartsWith(x, p))
  {
    if |p| <= |x| {
      assert (x + y)[..|p|] == x[..|p|];
    }
  }

  /** Only "```" completes a plain opener with the closing fence's newline. */
  lemma PlainOpenerAcrossCloser(body: string)
    requires !StartsWith(body, PlainOpener) && StartsWith(body + Closer, PlainOpener)
    ensures body == "```"
  {
    var t := body + Closer;
    StartsWithLonger(body, Closer, PlainOpener);
    assert |body| < |PlainOpener|;
    assert t[|body|] == '\n';
    assert PlainOpener[|body|] == t[|body|];
    assert |body| == 3;
    assert body == t[..3];
  }

  /** A document between "```\n" and "\n```" loses both fences and is trimmed. */
  lemma CleanVttTextStripsPlainFences(body: string)
    ensures CleanVttText(PlainOpener + body + Closer) == JsTrim(body)
  {
    var t := body + Closer;
    var s := PlainOpener + body + Closer;
    assert s[..|PlainOpener|] == PlainOpener && s[|PlainOpener|..] == t;
    assert s[3] != VttOpener[3];
    assert DropPrefix(s, VttOpener) == s;
    DropCloser(body);
  }

  /** With both openers in that order, both go, as does the closing fence. */
  lemma CleanVttTextStripsBothFences(body: string)
    ensures CleanVttText(VttOpener + PlainOpener + body + Closer) == JsTrim(body)
  {
    var t := body + Closer;
    var plain := PlainOpener + t;
    var s := VttOpener + PlainOpener + body + Closer;
    assert s[..|VttOpener|] == VttOpener && s[|VttOpener|..] == plain;
    assert plain[..|PlainOpener|] == PlainOpener && plain[|PlainOpener|..] == t;
    DropCloser(body);
  }

  // ---------------------------------------------------------------------------
  // parseTimestamp

  predicate DigitAt(u: string, k: nat) { k < |u| && IsDigit(u[k]) }

  /** `MM:SS.mmm` from index `k` to the end of `u`. */
  predicate MinutesFormAt(u: string, k: nat) {
    |u| == k + 9 && DigitAt(u, k) && DigitAt(u, k + 1) && u[k + 2] == ':'
    && DigitAt(u, k + 3) && DigitAt(u, k + 4) && u[k + 5] == '.'
    && DigitAt(u, k + 6) && DigitAt(u, k + 7) && DigitAt(u, k + 8)
  }

  /** The regular expression `^(\d{2}:)?\d{2}:\d{2}\.\d{3}$` of utils/vtt.ts:14. */
  predicate MatchesTimestamp(u: string) {
    MinutesFormAt(u, 0) || (MinutesFormAt(u, 3) && DigitAt(u, 0) && DigitAt(u, 1) && u[2] == ':')
  }

  /** The number written by the two digits of `u` at `k`. */
  function Two(u: string, k: nat): nat
    requires DigitAt(u, k) && DigitAt(u, k + 1)
  {
    DigitValue(u[k]) * 10 + DigitValue(u[k + 1])
  }

  /** The number written by the three digits of `u` at `k`. */
  function Three(u: string, k: nat): nat
    requires DigitAt(u, k) && DigitAt(u, k + 1) && DigitAt(u, k + 2)
  {
    Two(u, k) * 10 + DigitValue(u[k + 2])
  }

  /** The milliseconds a matching token denotes, read by position: hours default to 0, nothing is range-checked. */
  function FieldsValue(u: string): nat
    requires MatchesTimestamp(u)
  {
    var m := |u| - 9;
    (if m == 3 then Two(u, 0) else 0) * 3600000 + Two(u, m) * 60000 + Two(u, m + 3) * 1000 + Three(u, m + 6)
  }

  /** The largest value a matching token can denote, "99:99:99.999". */
  const MaxTimestamp: nat := 99 * 3600000 + 99 * 60000 + 99 * 1000 + 999

  /**
   * parseTimestamp: `None` (the source's `null`) unless the trimmed token matches the
   * pattern; otherwise the time it denotes, in milliseconds. Two hour digits at most,
   * and no field is range-checked.
   */
  function ParseTimestamp(timestamp: string): (r: Option<nat>)
    ensures r.Some? <==> MatchesTimestamp(JsTrim(timestamp))
    ensures r.Some? ==> r.value <= MaxTimestamp
  {
    var u := JsTrim(timestamp);
    if MatchesTimestamp(u) then Some(FieldsValue(u)) else None
  }

  /** JavaScript's `Number(s)` on a string that is, once trimmed, a run of decimal digits; `None` for anything else, which this model does not read. */
  function JsNumber(s: string): Option<nat> {
    var t := JsTrim(s);
    if AllDigits(t) then Some(DigitsValue(t)) else None
  }

  /**
   * How utils/vtt.ts:17-24 reads the value once the pattern matched: the UNTRIMMED
   * token is split at ':', its last piece at '.', and every piece goes through `Number()`.
   * `None` where a piece is missing or not a digit run.
   */
  function SplitReading(timestamp: string): Option<nat> {
    ReadParts(Split(timestamp, ':'))
  }

  /** The pieces of the token at ':' read as hours (when there are three), minutes, and seconds with milliseconds. */
  function ReadParts(parts: seq<string>): Option<nat> {
    if |parts| < 2 then None
    else
      var hours := if |parts| == 3 then JsNumber(parts[0]) else Some(0);
      ReadClock(hours, JsNumber(parts[|parts| - 2]), Split(parts[|parts| - 1], '.'))
  }

  /** The seconds and milliseconds pieces read, and the four numbers combined. */
  function ReadClock(hours: Option<nat>, minutes: Option<nat>, secondsAndMillis: seq<string>): Option<nat> {
    if |secondsAndMillis| < 2 then None
    else
      var seconds := JsNumber(secondsAndMillis[0]);
      var millis := JsNumber(secondsAndMillis[1]);
      if seconds.None? || minutes.None? || hours.None? || millis.None? then None
      else Some(hours.value * 3600000 + minutes.value * 60000 + seconds.value * 1000 + millis.value)
  }

  /** The whitespace the trimming ignored is also ignored by `Number()`: splitting the untrimmed token reads the same time. */
  lemma {:induction false} ParseTimestampBySplit(timestamp: string)
    requires MatchesTimestamp(JsTrim(timestamp))
    ensures ParseTimestamp(timestamp) == SplitReading(timestamp)
  {
    var u := JsTrim(timestamp);
    var lo := LeadLength(timestamp, JsWhitespace);
    SurroundingSpace(timestamp);
    ReadAround(timestamp[..lo], u, timestamp[lo + |u|..]);
  }

  /** A matching token with whitespace on either side reads, split at ':' and '.', as the time its fields denote. */
  lemma {:induction false} ReadAround(lead: string, u: string, trail: string)
    requires Spaces(lead) && Spaces(trail) && MatchesTimestamp(u)
    ensures SplitReading(lead + u + trail) == Some(FieldsValue(u))
  {
    if |u| == 9 {
      ReadAroundMinutes(lead, u, trail);
    } else {
      ReadAroundHours(lead, u, trail);
    }
  }

  lemma {:induction false} ReadAroundMinutes(lead: string, u: string, trail: string)
    requires Spaces(lead) && Spaces(trail) && MinutesFormAt(u, 0)
    ensures SplitReading(lead + u + trail) == Some(FieldsValue(u))
  {
    ClockFields(u, 0);
    MinutesShape(lead, u, trail);
    ReadMinutesForm(lead, u[0..2], u[3..5], u[6..], trail);
  }

  lemma {:induction false} ReadAroundHours(lead: string, u: string, trail: string)
    requires Spaces(lead) && Spaces(trail) && MinutesFormAt(u, 3) && DigitAt(u, 0) && DigitAt(u, 1) && u[2] == ':'
    ensures SplitReading(lead + u + trail) == Some(FieldsValue(u))
  {
    ClockFields(u, 3);
    DigitsValueTwo(u, 0);
    HoursShape(lead, u, trail);
    ReadHoursForm(lead, u[0..2], u[3..5], u[6..8], u[9..], trail);
  }

  /** The digit groups of `MM:SS.mmm` at `m` and the numbers they write. */
  lemma {:induction false} ClockFields(u: string, m: nat)
    requires MinutesFormAt(u, m)
    ensures DigitRun(u[m..m + 2], 2) && DigitsValue(u[m..m + 2]) == Two(u, m)
    ensures DigitRun(u[m + 3..m + 5], 2) && DigitsValue(u[m + 3..m + 5]) == Two(u, m + 3)
    ensures DigitRun(u[m + 6..], 3) && DigitsValue(u[m + 6..]) == Three(u, m + 6)
  {
    DigitsValueTwo(u, m);
    DigitsValueTwo(u, m + 3);
    DigitsValueThree(u, m + 6);
    assert u[m + 6..] == u[m + 6..m + 9];
  }

  /** `MM:SS.mmm` with whitespace around it, regrouped at its separators. */
  lemma {:induction false} MinutesShape(lead: string, u: string, trail: string)
    requires |u| == 9 && u[2] == ':' && u[5] == '.'
    ensures lead + u + trail == (lead + u[0..2]) + [':'] + (u[3..5] + ['.'] + (u[6..] + trail))
  {
    assert u == u[0..2] + [':'] + u[3..5] + ['.'] + u[6..];
  }

  /** `HH:MM:SS.mmm` with whitespace around it, regrouped at its separators. */
  lemma {:induction false} HoursShape(lead: string, u: string, trail: string)
    requires |u| == 12 && u[2] == ':' && u[5] == ':' && u[8] == '.'
    ensures lead + u + trail == (lead + u[0..2]) + [':'] + (u[3..5] + [':'] + (u[6..8] + ['.'] + (u[9..] + trail)))
  {
    assert u == u[0..2] + [':'] + u[3..5] + [':'] + u[6..8] + ['.'] + u[9..];
  }

  /** A run of whitespace. */
  predicate Spaces(x: string) {
    forall k :: 0 <= k < |x| ==> IsJsSpace(x[k])
  }

  /** A run of exactly `n` decimal digits. */
  predicate DigitRun(x: string, n: nat) {
    |x| == n && AllDigits(x)
  }

  /** The piece after the last ':' splits at '.' into seconds and milliseconds, each read by `Number()`. */
  lemma {:induction false} SecondsAndMillis(ss: string, ms: string, trail: string)
    requires DigitRun(ss, 2) && DigitRun(ms, 3) && Spaces(trail)
    ensures var last := ss + ['.'] + (ms + trail);
            ':' !in last
            && Split(last, '.') == [ss, ms + trail]
            && JsNumber(ss) == Some(DigitsValue(ss))
            && JsNumber(ms + trail) == Some(DigitsValue(ms))
  {
    DigitsFree(ss);
    DigitsFree(ms);
    SpacesFree(trail);
    SplitOnce(ss, ms + trail, '.');
    JsNumberAround([], ss, []);
    assert [] + ss + [] == ss;
    JsNumberAround([], ms, trail);
    assert [] + ms + trail == ms + trail;
  }

  /** Two digits with whitespace before them, read by `Number()`. */
  lemma {:induction false} LeadingNumber(lead: string, x: string)
    requires Spaces(lead) && DigitRun(x, 2)
    ensures ':' !in lead + x && JsNumber(lead + x) == Some(DigitsValue(x))
  {
    DigitsFree(x);
    SpacesFree(lead);
    JsNumberAround(lead, x, []);
    assert lead + x + [] == lead + x;
  }

  /** A token with one ':' reads its two sides as minutes and seconds with milliseconds; the hours default to 0. */
  lemma {:induction false} ReadTwoParts(a: string, last: string, minutes: nat, seconds: nat, millis: nat)
    requires ':' !in a && ':' !in last && JsNumber(a) == Some(minutes)
    requires |Split(last, '.')| == 2
    requires JsNumber(Split(last, '.')[0]) == Some(seconds) && JsNumber(Split(last, '.')[1]) == Some(millis)
    ensures SplitReading(a + [':'] + last) == Some(minutes * 60000 + seconds * 1000 + millis)
  {
    SplitOnce(a, last, ':');
  }

  /** A token with two ':' reads its three pieces as hours, minutes, and seconds with milliseconds. */
  lemma {:induction false} ReadThreeParts(a: string, b: string, last: string, hours: nat, minutes: nat, seconds: nat, millis: nat)
    requires ':' !in a && ':' !in b && ':' !in last
    requires JsNumber(a) == Some(hours) && JsNumber(b) == Some(minutes)
    requires |Split(last, '.')| == 2
    requires JsNumber(Split(last, '.')[0]) == Some(seconds) && JsNumber(Split(last, '.')[1]) == Some(millis)
    ensures SplitReading(a + [':'] + (b + [':'] + last)) == Some(hours * 3600000 + minutes * 60000 + seconds * 1000 + millis)
  {
    SplitAfterPiece(a, b + [':'] + last, ':');
    SplitOnce(b, last, ':');
  }

  /** Two digits read by `Number()`. */
  lemma {:induction false} BareNumber(x: string)
    requires DigitRun(x, 2)
    ensures ':' !in x && JsNumber(x) == Some(DigitsValue(x))
  {
    DigitsFree(x);
    TrimUnchanged(x, JsWhitespace);
  }

  /** Reading `MM:SS.mmm` with whitespace around it. */
  lemma {:induction false} ReadMinutesForm(lead: string, mm: string, ss: string, ms: string, trail: string)
    requires Spaces(lead) && Spaces(trail)
    requires DigitRun(mm, 2) && DigitRun(ss, 2) && DigitRun(ms, 3)
    ensures SplitReading((lead + mm) + [':'] + (ss + ['.'] + (ms + trail)))
            == Some(DigitsValue(mm) * 60000 + DigitsValue(ss) * 1000 + DigitsValue(ms))
  {
    SecondsAndMillis(ss, ms, trail);
    ReadMinutes(lead, mm, ss + ['.'] + (ms + trail), DigitsValue(ss), DigitsValue(ms));
  }

  /** Minutes in front of a seconds piece that is already read. */
  lemma {:induction false} ReadMinutes(lead: string, mm: string, last: string, seconds: nat, millis: nat)
    requires Spaces(lead) && DigitRun(mm, 2)
    requires ':' !in last && |Split(last, '.')| == 2
    requires JsNumber(Split(last, '.')[0]) == Some(seconds) && JsNumber(Split(last, '.')[1]) == Some(millis)
    ensures SplitReading((lead + mm) + [':'] + last) == Some(DigitsValue(mm) * 60000 + seconds * 1000 + millis)
  {
    LeadingNumber(lead, mm);
    ReadTwoParts(lead + mm, last, DigitsValue(mm), seconds, millis);
  }

  /** Reading `HH:MM:SS.mmm` with whitespace around it. */
  lemma {:induction false} ReadHoursForm(lead: string, hh: string, mm: string, ss: string, ms: string, trail: string)
    requires Spaces(lead) && Spaces(trail)
    requires DigitRun(hh, 2) && DigitRun(mm, 2) && DigitRun(ss, 2) && DigitRun(ms, 3)
    ensures SplitReading((lead + hh) + [':'] + (mm + [':'] + (ss + ['.'] + (ms + trail))))
            == Some(DigitsValue(hh) * 3600000 + DigitsValue(mm) * 60000 + DigitsValue(ss) * 1000 + DigitsValue(ms))
  {
    SecondsAndMillis(ss, ms, trail);
    ReadHoursMinutes(lead, hh, mm, ss + ['.'] + (ms + trail), DigitsValue(ss), DigitsValue(ms));
  }

  /** Hours and minutes in front of a seconds piece that is already read. */
  lemma {:induction false} ReadHoursMinutes(lead: string, hh: string, mm: string, last: string, seconds: nat, millis: nat)
    requires Spaces(lead) && DigitRun(hh, 2) && DigitRun(mm, 2)
    requires ':' !in last && |Split(last, '.')| == 2
    requires JsNumber(Split(last, '.')[0]) == Some(seconds) && JsNumber(Split(last, '.')[1]) == Some(millis)
    ensures SplitReading((lead + hh) + [':'] + (mm + [':'] + last))
            == Some(DigitsValue(hh) * 3600000 + DigitsValue(mm) * 60000 + seconds * 1000 + millis)
  {
    LeadingNumber(lead, hh);
    BareNumber(mm);
    ReadThreeParts(lead + hh, mm, last, DigitsValue(hh), DigitsValue(mm), seconds, millis);
  }

  /** A string is its trimmed part with the whitespace trimming dropped on either side. */
  lemma {:induction false} SurroundingSpace(s: string)
    ensures var lo := LeadLength(s, JsWhitespace);
            var u := JsTrim(s);
            lo + |u| <= |s|
            && s == s[..lo] + u + s[lo + |u|..]
            && Spaces(s[..lo]) && Spaces(s[lo + |u|..])
  {
    var lo, u := LeadLength(s, JsWhitespace), JsTrim(s);
    TrimBounds(s, JsWhitespace);
    var hi := lo + |u|;
    assert u == s[lo..hi];
    assert s == s[..lo] + s[lo..hi] + s[hi..];
    forall k | 0 <= k < |s[hi..]| ensures IsJsSpace(s[hi..][k]) {
      assert s[hi..][k] == s[hi + k];
    }
  }

  lemma DigitsValueTwo(u: string, k: nat)
    requires DigitAt(u, k) && DigitAt(u, k + 1)
    ensures AllDigits(u[k..k + 2]) && DigitsValue(u[k..k + 2]) == Two(u, k)
  {
    var x := u[k..k + 2];
    assert x[..1][..0] == [];
    assert x[..1] == [u[k]];
    assert DigitsValue(x[..1]) == DigitValue(u[k]);
    assert x[|x| - 1] == u[k + 1];
  }

  lemma DigitsValueThree(u: string, k: nat)
    requires DigitAt(u, k) && DigitAt(u, k + 1) && DigitAt(u, k + 2)
    ensures AllDigits(u[k..k + 3]) && DigitsValue(u[k..k + 3]) == Three(u, k)
  {
    var x := u[k..k + 3];
    DigitsValueTwo(u, k);
    assert x[..2] == u[k..k + 2];
  }

  /** A digit run has no colon, dot or whitespace in it. */
  lemma DigitsFree(x: string)
    requires AllDigits(x)
    ensures ':' !in x && '.' !in x && forall k :: 0 <= k < |x| ==> !IsJsSpace(x[k])
  {
  }

  /** A whitespace run has no colon or dot in it. */
  lemma SpacesFree(x: string)
    requires forall k :: 0 <= k < |x| ==> IsJsSpace(x[k])
    ensures ':' !in x && '.' !in x
  {
  }

  /** Whitespace around a piece with no whitespace at its ends is exactly what trimming removes. */
  lemma TrimAround(lead: string, x: string, trail: string)
    requires forall k :: 0 <= k < |lead| ==> IsJsSpace(lead[k])
    requires forall k :: 0 <= k < |trail| ==> IsJsSpace(trail[k])
    requires x != [] && !IsJsSpace(x[0]) && !IsJsSpace(x[|x| - 1])
    ensures JsTrim(lead + x + trail) == x
  {
    var s := lead + x + trail;
    var m := |lead| + |x|;
    assert forall j :: 0 <= j < |lead| ==> s[j] == lead[j];
    assert forall j :: m <= j < |s| ==> s[j] == trail[j - m];
    LeadFromExact(s, JsWhitespace, 0, |lead|);
    EndFromExact(s, JsWhitespace, |lead|, m, |s|);
    assert s[|lead|..m] == x;
  }

  /** `Number()` of a digit run with whitespace around it. */
  lemma JsNumberAround(lead: string, x: string, trail: string)
    requires forall k :: 0 <= k < |lead| ==> IsJsSpace(lead[k])
    requires forall k :: 0 <= k < |trail| ==> IsJsSpace(trail[k])
    requires x != [] && AllDigits(x)
    ensures JsNumber(lead + x + trail) == Some(DigitsValue(x))
  {
    DigitsFree(x);
    TrimAround(lead, x, trail);
  }

  /** Minutes and seconds are not range-checked: "00:99:99.999" is 99 minutes and 99.999 seconds. */
  lemma ParseTimestampNoRangeCheck()
    ensures ParseTimestamp("00:99:99.999") == Some(99 * 60000 + 99 * 1000 + 999)
  {
    var s := "00:99:99.999";
    assert s[0] == '0' && s[|s| - 1] == '9';
    TrimUnchanged(s, JsWhitespace);
    assert MinutesFormAt(s, 3) && DigitAt(s, 0) && DigitAt(s, 1) && s[2] == ':';
  }

  /** The hour group is optional, and only two hour digits are accepted. */
  lemma ParseTimestampHourGroup()
    ensures ParseTimestamp("01:02.003") == Some(1 * 60000 + 2 * 1000 + 3)
    ensures ParseTimestamp("100:00:00.000") == None
  {
    var s, t := "01:02.003", "100:00:00.000";
    assert s[0] == '0' && s[|s| - 1] == '3';
    TrimUnchanged(s, JsWhitespace);
    assert MinutesFormAt(s, 0);
    assert t[0] == '1' && t[|t| - 1] == '0';
    TrimUnchanged(t, JsWhitespace);
    assert |t| == 13;
  }

  // ---------------------------------------------------------------------------
  // parseVtt

  const Arrow: string := "-->"
  const Header: string := "WEBVTT"

  /** Elements 0 and 1 of `s.split('-->')`: the text before the first arrow, and the text between it and the next arrow or the end. */
  datatype Sides = Sides(before: string, after: string)

  function ArrowSides(s: string): (r: Sides)
    requires Contains(s, Arrow)
  {
    var k := IndexOf(s, Arrow).value;
    Sides(s[..k], UpToArrow(s[k + |Arrow|..]))
  }

  /** The text of `rest` before its first arrow, or all of it when it has none. */
  function UpToArrow(rest: string): string {
    var e := IndexOf(rest, Arrow);
    if e.Some? then rest[..e.value] else rest
  }

  /** `part.trim().split(' ')[0]`: the timestamp of one side of a timing line, cue settings dropped. */
  function TimingToken(part: string): string {
    Split(JsTrim(part), ' ')[0]
  }

  /** The two times of a timing line, in milliseconds. */
  datatype Timing = Timing(start: nat, end: nat)

  /** The start and end times of a timing line, or `None` when it has no arrow or a side is not a timestamp. */
  function ParseTiming(timeLine: string): (r: Option<Timing>)
    ensures r.Some? ==> Contains(timeLine, Arrow)
  {
    if !Contains(timeLine, Arrow) then None
    else
      var sides := ArrowSides(timeLine);
      var start := ParseTimestamp(TimingToken(sides.before));
      var end := ParseTimestamp(TimingToken(sides.after));
      if start.None? || end.None? then None else Some(Timing(start.value, end.value))
  }

  /**
   * A line reads as a timing exactly when it has an arrow and the trimmed tokens of both
   * sides are timestamps; the times are then the ones those tokens denote.
   */
  lemma ParseTimingReadsTokens(timeLine: string)
    ensures ParseTiming(timeLine).Some? <==>
              (Contains(timeLine, Arrow)
               && MatchesTimestamp(JsTrim(TimingToken(ArrowSides(timeLine).before)))
               && MatchesTimestamp(JsTrim(TimingToken(ArrowSides(timeLine).after))))
    ensures ParseTiming(timeLine).Some? ==>
              ParseTiming(timeLine).value == Timing(FieldsValue(JsTrim(TimingToken(ArrowSides(timeLine).before))),
                                                    FieldsValue(JsTrim(TimingToken(ArrowSides(timeLine).after))))
  {
  }

  /** A timestamp is written with digits, ':' and '.': no whitespace and no '-'. */
  lemma TimestampChars(u: string)
    requires MatchesTimestamp(u)
    ensures forall k :: 0 <= k < |u| ==> !IsJsSpace(u[k]) && u[k] != '-'
  {
  }

  /** Whitespace, a timestamp, then nothing or a space and anything: the side's token is the timestamp. */
  lemma {:induction false} TimingTokenPadded(p: string, u: string, x: string)
    requires Spaces(p) && MatchesTimestamp(u) && (x == [] || x[0] == ' ')
    ensures TimingToken(p + u + x) == u
  {
    var s := p + u + x;
    TimestampChars(u);
    assert s[|p|] == u[0];
    forall j | 0 <= j < |p| ensures IsSpace(JsWhitespace, s[j]) {
      assert s[j] == p[j];
    }
    LeadFromExact(s, JsWhitespace, 0, |p|);
    var e := TrimEndIndex(s, JsWhitespace);
    EndFromRun(s, JsWhitespace, |p|, |s|);
    assert s[|p| + |u| - 1] == u[|u| - 1];
    assert !IsSpace(JsWhitespace, s[|p| + |u| - 1]);
    assert |p| + |u| <= e;
    var t := JsTrim(s);
    assert t == s[|p|..e];
    assert ' ' !in u;
    if e == |p| + |u| {
      assert t == u;
      SplitPiece(u, ' ');
    } else {
      assert t == u + [' '] + s[|p| + |u| + 1..e];
      SplitAfterPiece(u, s[|p| + |u| + 1..e], ' ');
    }
  }

  /** After a timestamp and a space, the first arrow of a line is the one that follows them. */
  lemma {:induction false} SidesAfterTimestamp(a: string, rest: string)
    requires MatchesTimestamp(a)
    ensures Contains(a + " " + Arrow + rest, Arrow)
    ensures ArrowSides(a + " " + Arrow + rest) == Sides(a + " ", UpToArrow(rest))
  {
    var line := a + " " + Arrow + rest;
    TimestampChars(a);
    var k := |a| + 1;
    forall j | 0 <= j < k ensures !OccursAt(line, Arrow, j) {
      assert line[j] != '-';
      assert line[j..j + |Arrow|][0] == line[j];
    }
    assert line[k..k + |Arrow|] == Arrow;
    IndexOfExact(line, Arrow, k);
    assert line[..k] == a + " ";
    assert line[k + |Arrow|..] == rest;
  }

  /** The side after the arrow, a space, a timestamp, a space and cue settings, has the timestamp for its token. */
  lemma {:induction false} EndTokenBeforeSettings(b: string, settings: string)
    requires MatchesTimestamp(b)
    ensures TimingToken(UpToArrow(" " + b + " " + settings)) == b
  {
    var rest := " " + b + " " + settings;
    TimestampChars(b);
    assert rest[|b| + 1] == ' ';
    var e := IndexOf(rest, Arrow);
    var x: string;
    if e.Some? {
      assert rest[e.value..e.value + |Arrow|][0] == rest[e.value];
      forall j | 0 <= j < |b| + 2 ensures rest[j] != '-' {
      }
      assert |b| + 2 <= e.value;
      x := rest[|b| + 1..e.value];
      assert x[0] == ' ';
      assert rest[..e.value] == " " + b + x;
    } else {
      x := rest[|b| + 1..];
      assert x[0] == ' ';
      assert rest == " " + b + x;
    }
    TimingTokenPadded(" ", b, x);
  }

  /**
   * A timing line reads as its two timestamps: each side of the first arrow is trimmed
   * and cut at its first space, so the spaces around the arrow and whatever cue settings
   * follow the end time, another arrow included, are ignored.
   */
  lemma {:induction false} ParseTimingSettingsIgnored(a: string, b: string, settings: string)
    requires MatchesTimestamp(a) && MatchesTimestamp(b)
    ensures ParseTiming(a + " --> " + b + " " + settings) == Some(Timing(FieldsValue(a), FieldsValue(b)))
  {
    var rest := " " + b + " " + settings;
    assert a + " --> " + b + " " + settings == a + " " + Arrow + rest;
    EndTokenBeforeSettings(b, settings);
    ParseTimingAfterStart(a, rest, b);
  }

  /** A timing line without cue settings, "a --> b", reads as the times of its two timestamps. */
  lemma {:induction false} ParseTimingPlain(a: string, b: string)
    requires MatchesTimestamp(a) && MatchesTimestamp(b)
    ensures ParseTiming(a + " --> " + b) == Some(Timing(FieldsValue(a), FieldsValue(b)))
  {
    var rest := " " + b;
    assert a + " --> " + b == a + " " + Arrow + rest;
    TimestampChars(b);
    assert '-' !in rest;
    NotContainsByFirstChar(rest, Arrow);
    assert " " + b + [] == rest;
    TimingTokenPadded(" ", b, []);
    ParseTimingAfterStart(a, rest, b);
  }

  /** A line that starts with a timestamp and a space before its first arrow reads as that time and the end side's token. */
  lemma ParseTimingAfterStart(a: string, rest: string, b: string)
    requires MatchesTimestamp(a) && MatchesTimestamp(b) && TimingToken(UpToArrow(rest)) == b
    ensures ParseTiming(a + " " + Arrow + rest) == Some(Timing(FieldsValue(a), FieldsValue(b)))
  {
    SidesAfterTimestamp(a, rest);
    assert "" + a + " " == a + " ";
    TimingTokenPadded("", a, " ");
    ParseTimingOfTokens(a + " " + Arrow + rest, a, b);
  }

  /** A line whose two side tokens are timestamps reads as the times they denote. */
  lemma ParseTimingOfTokens(line: string, a: string, b: string)
    requires MatchesTimestamp(a) && MatchesTimestamp(b) && Contains(line, Arrow)
    requires TimingToken(ArrowSides(line).before) == a && TimingToken(ArrowSides(line).after) == b
    ensures ParseTiming(line) == Some(Timing(FieldsValue(a), FieldsValue(b)))
  {
    TimestampChars(a);
    TimestampChars(b);
    TrimUnchanged(a, JsWhitespace);
    TrimUnchanged(b, JsWhitespace);
  }

  /**
   * What the loop reads off one line: the line as it stands, whether it trims to ""
   * or to "WEBVTT", whether the trimmed line has an arrow, and its times when it is
   * read as a timing line.
   */
  datatype LineView = LineView(raw: string, blank: bool, header: bool, arrow: bool, timing: Option<Timing>)

  function ViewLine(line: string): (v: LineView)
    ensures v.raw == line
    ensures v.arrow ==> !v.blank && !v.header
    ensures v.timing.Some? ==> v.arrow
  {
    var u := JsTrim(line);
    BlankAndHeaderArrowless(u);
    LineView(line, u == "", u == Header, Contains(u, Arrow), ParseTiming(u))
  }

  /** Neither the empty line nor the header has an arrow. */
  lemma BlankAndHeaderArrowless(u: string)
    ensures u == "" || u == Header ==> !Contains(u, Arrow)
  {
    if u == "" || u == Header {
      assert '-' !in u;
      NotContainsByFirstChar(u, Arrow);
    }
  }

  /** Every line of a document, read. */
  function Views(lines: seq<string>): (vs: seq<LineView>)
    ensures |vs| == |lines|
  {
    seq(|lines|, k requires 0 <= k < |lines| => ViewLine(lines[k]))
  }

  /** The lines themselves, back from their views. */
  function Raws(vs: seq<LineView>): (ls: seq<string>)
    ensures |ls| == |vs|
  {
    seq(|vs|, k requires 0 <= k < |vs| => vs[k].raw)
  }

  /**
   * `vs` holds one view per line, each read off its own line. The per-line fact is
   * drawn on only where a proof names `ViewLine(lines[k])`.
   */
  predicate IsViews(vs: seq<LineView>, lines: seq<string>) {
    |vs| == |lines| && Raws(vs) == lines
    && forall k {:trigger ViewLine(lines[k])} :: 0 <= k < |lines| ==> vs[k] == ViewLine(lines[k])
  }

  lemma ViewsAreViews(lines: seq<string>)
    ensures IsViews(Views(lines), lines)
  {
  }

  /** The text of a cue read off views is that of the lines themselves. */
  lemma CueTextOfLines(lines: seq<string>, vs: seq<LineView>, b: nat, n: nat, textLines: seq<string>)
    requires IsViews(vs, lines) && b + n <= |lines| && textLines == lines[b..b + n]
    ensures CueText(vs, b, n) == JsTrim(Join(textLines, '\n'))
  {
    TextLinesOfRaws(vs, b, n);
  }

  /** The raw lines `b` to `b + n` of the views. */
  function TextLines(vs: seq<LineView>, b: nat, n: nat): (ls: seq<string>)
    requires b + n <= |vs|
    decreases n
  {
    if n == 0 then [] else [vs[b].raw] + TextLines(vs, b + 1, n - 1)
  }

  lemma {:induction false} TextLinesOfRaws(vs: seq<LineView>, b: nat, n: nat)
    requires b + n <= |vs|
    decreases n
    ensures TextLines(vs, b, n) == Raws(vs)[b..b + n]
  {
    if n > 0 {
      TextLinesOfRaws(vs, b + 1, n - 1);
    }
  }

  /** What one pass of the parser's loop does: how many lines the cursor advances, and the cue pushed, if any. */
  datatype StepResult = StepResult(advance: nat, cue: Option<Cue>)

  /** 0 when the line is itself the timing line, 1 when it is taken for a cue identifier. */
  function IdentifierLines(v: LineView): nat {
    if v.arrow then 0 else 1
  }

  /** The times of the block at `i`, read off line `i + t`; past the last line the source reads "", which has none. */
  function BlockTiming(vs: seq<LineView>, i: nat, t: nat): Option<Timing> {
    if i + t < |vs| then vs[i + t].timing else None
  }

  /** The number of lines from `b` on before the first line that trims to empty (or the end). */
  function TextRun(vs: seq<LineView>, b: nat): (n: nat)
    requires b <= |vs|
    ensures b + n <= |vs|
    decreases |vs| - b
  {
    if b == |vs| || vs[b].blank then 0 else 1 + TextRun(vs, b + 1)
  }

  /** The text of a cue: its `n` text lines from `b` joined with line feeds, then trimmed. */
  function CueText(vs: seq<LineView>, b: nat, n: nat): string
    requires b + n <= |vs|
  {
    JsTrim(Join(TextLines(vs, b, n), '\n'))
  }

  /**
   * One pass of the loop body of parseVtt with the cursor at `i`. The advance is at
   * least one line, which is why the parse terminates; the cursor can end one past
   * the last line, as `i` does in the source.
   */
  function StepAt(vs: seq<LineView>, i: nat): (r: StepResult)
    requires i < |vs|
    ensures 1 <= r.advance && i + r.advance <= |vs| + 1
  {
    if vs[i].blank || vs[i].header then StepResult(1, None)
    else
      var t := IdentifierLines(vs[i]);
      var timing := BlockTiming(vs, i, t);
      if timing.None? then StepResult(t + 1, None)
      else
        var b := i + t + 1;
        var n := TextRun(vs, b);
        StepResult(t + n + 2, Some(Cue(timing.value.start, timing.value.end, CueText(vs, b, n))))
  }

  function Emitted(c: Option<Cue>): seq<Cue> {
    if c.Some? then [c.value] else []
  }

  /** The cues found from cursor position `i` on, in the order the cursor meets them. */
  function ParseFrom(vs: seq<LineView>, i: nat): seq<Cue>
    decreases |vs| - i
  {
    if i >= |vs| then []
    else
      var st := StepAt(vs, i);
      Emitted(st.cue) + ParseFrom(vs, i + st.advance)
  }

  /** The lines parseVtt scans: every carriage return deleted, then split at line feeds. */
  function DocumentLines(text: string): seq<string> {
    Split(RemoveAll(text, "\r"), '\n')
  }

  /** What parseVtt returns for a document. */
  function ParseDocument(text: string): seq<Cue> {
    if text == "" then [] else ParseFrom(Views(DocumentLines(text)), 0)
  }

  lemma AppendAssoc(a: seq<Cue>, b: seq<Cue>, c: seq<Cue>)
    ensures a + b + c == a + (b + c)
  {
  }

  /** One pass of the loop: the cue the step at `i` yields, then the cues from where it leaves the cursor. */
  lemma ParseFromStep(vs: seq<LineView>, i: nat)
    requires i < |vs|
    ensures ParseFrom(vs, i) == Emitted(StepAt(vs, i).cue) + ParseFrom(vs, i + StepAt(vs, i).advance)
  {
  }

  /** A blank line or the header line is passed over. */
  lemma SkipLine(vs: seq<LineView>, i: nat)
    requires i < |vs| && (vs[i].blank || vs[i].header)
    ensures StepAt(vs, i) == StepResult(1, None)
    ensures ParseFrom(vs, i) == ParseFrom(vs, i + 1)
  {
    ParseFromStep(vs, i);
  }

  /** A block whose timing line has no arrow or an unreadable side yields nothing, and only its first `t + 1` lines are consumed. */
  lemma DropBlock(vs: seq<LineView>, i: nat)
    requires i < |vs| && !vs[i].blank && !vs[i].header
    requires BlockTiming(vs, i, IdentifierLines(vs[i])).None?
    ensures StepAt(vs, i) == StepResult(IdentifierLines(vs[i]) + 1, None)
    ensures ParseFrom(vs, i) == ParseFrom(vs, i + IdentifierLines(vs[i]) + 1)
  {
    ParseFromStep(vs, i);
  }

  /** A block with a readable timing line yields its cue, and the cursor moves past the blank line that ends its text, which starts at `b`. */
  lemma TakeStep(vs: seq<LineView>, i: nat, tm: Timing, b: nat)
    requires i < |vs| && !vs[i].blank && !vs[i].header
    requires BlockTiming(vs, i, IdentifierLines(vs[i])) == Some(tm)
    requires b == i + IdentifierLines(vs[i]) + 1
    ensures StepAt(vs, i) == StepResult(b + TextRun(vs, b) + 1 - i, Some(Cue(tm.start, tm.end, CueText(vs, b, TextRun(vs, b)))))
  {
  }

  /** The same block seen from the whole parse: its cue comes first, then the cues after the blank line that ends it. */
  lemma TakeBlock(vs: seq<LineView>, i: nat, tm: Timing, b: nat)
    requires i < |vs| && !vs[i].blank && !vs[i].header
    requires BlockTiming(vs, i, IdentifierLines(vs[i])) == Some(tm)
    requires b == i + IdentifierLines(vs[i]) + 1
    ensures ParseFrom(vs, i) == [Cue(tm.start, tm.end, CueText(vs, b, TextRun(vs, b)))] + ParseFrom(vs, b + TextRun(vs, b) + 1)
  {
    TakeStep(vs, i, tm, b);
    ParseFromStep(vs, i);
    assert i + StepAt(vs, i).advance == b + TextRun(vs, b) + 1;
  }

  /** The inner loop of parseVtt: the text lines of a cue, from `b` up to the first line that trims to empty. */
  method CollectText(lines: seq<string>, ghost vs: seq<LineView>, b: nat) returns (textLines: seq<string>, e: nat)
    requires IsViews(vs, lines) && b <= |lines|
    ensures e == b + TextRun(vs, b) && textLines == lines[b..b + TextRun(vs, b)]
  {
    e := b;
    textLines := [];
    while e < |lines| && JsTrim(lines[e]) != ""
      invariant b <= e <= |lines|
      invariant textLines == lines[b..e]
      invariant TextRun(vs, b) == (e - b) + TextRun(vs, e)
      decreases |lines| - e
    {
      assert vs[e] == ViewLine(lines[e]);
      textLines := textLines + [lines[e]];
      e := e + 1;
    }
    if e < |lines| {
      assert vs[e] == ViewLine(lines[e]);
    }
  }

  /** One pass of the loop body of parseVtt, from the cursor at `i` to the cursor after it, with the cue it pushes. */
  method Pass(lines: seq<string>, ghost vs: seq<LineView>, i: nat) returns (next: nat, cue: Option<Cue>)
    requires IsViews(vs, lines) && i < |lines|
    ensures i < next && StepAt(vs, i) == StepResult(next - i, cue)
  {
    var line := JsTrim(lines[i]);
    assert vs[i] == ViewLine(lines[i]);
    if line == "" || line == Header {
      SkipLine(vs, i);
      return i + 1, None;
    }
    next := i;
    var timeLine := line;
    if !Contains(line, Arrow) {
      next := next + 1;
      timeLine := if next < |lines| then JsTrim(lines[next]) else "";
      if next < |lines| {
        assert vs[next] == ViewLine(lines[next]);
      }
    }
    ghost var t := next - i;
    assert t == IdentifierLines(vs[i]);
    if !Contains(timeLine, Arrow) {
      DropBlock(vs, i);
      return next + 1, None;
    }
    var timing := ParseTiming(timeLine);
    if timing.None? {
      DropBlock(vs, i);
      return next + 1, None;
    }
    assert timing == BlockTiming(vs, i, t);
    next, cue := TakeCue(lines, vs, i, next, timing.value);
  }

  /** The rest of one pass once a block's times are read: its text lines are gathered, joined and trimmed. */
  method TakeCue(lines: seq<string>, ghost vs: seq<LineView>, i: nat, timeIndex: nat, tm: Timing) returns (next: nat, cue: Option<Cue>)
    requires IsViews(vs, lines) && i < |lines| && !vs[i].blank && !vs[i].header
    requires timeIndex == i + IdentifierLines(vs[i])
    requires BlockTiming(vs, i, IdentifierLines(vs[i])) == Some(tm)
    ensures i < next && StepAt(vs, i) == StepResult(next - i, cue)
  {
    ghost var b := timeIndex + 1;
    TakeStep(vs, i, tm, b);
    var textLines;
    textLines, next := CollectText(lines, vs, timeIndex + 1);
    CueTextOfLines(lines, vs, b, TextRun(vs, b), textLines);
    cue := Some(Cue(tm.start, tm.end, JsTrim(Join(textLines, '\n'))));
    next := next + 1;
  }

  /** The loop of parseVtt over the lines of a document. */
  method ParseLines(lines: seq<string>, ghost vs: seq<LineView>) returns (cues: seq<Cue>)
    requires IsViews(vs, lines)
    ensures cues == ParseFrom(vs, 0)
  {
    cues := [];
    var i: nat := 0;
    while i < |lines|
      invariant i <= |lines| + 1
      invariant cues + ParseFrom(vs, i) == ParseFrom(vs, 0)
      decreases |lines| + 1 - i
    {
      var next, cue := Pass(lines, vs, i);
      ParseFromStep(vs, i);
      assert i + StepAt(vs, i).advance == next;
      AppendAssoc(cues, Emitted(cue), ParseFrom(vs, next));
      cues := cues + Emitted(cue);
      i := next;
    }
  }

  /** parseVtt: no cue for an empty text; otherwise the lines without carriage returns, scanned by the loop. */
  method ParseVtt(text: string) returns (cues: seq<Cue>)
    ensures cues == ParseDocument(text)
  {
    if text == "" {
      return [];
    }
    var lines := DocumentLines(text);
    ViewsAreViews(lines);
    cues := ParseLines(lines, Views(lines));
  }
}
