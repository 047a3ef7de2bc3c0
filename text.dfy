/**
 * The string operations of the JavaScript and Python standard libraries that the
 * source relies on: trimming, prefix and suffix tests, substring search, removal of
 * every occurrence of a pattern, splitting and joining on one character, and the
 * decimal rendering of a non-negative integer.
 */
module Text {
  import opened Common

  /** The characters `String.prototype.trim` removes in JavaScript: WhiteSpace and LineTerminator of ECMA-262. */
  predicate IsJsSpace(c: char) {
    c == '\t' || c == '\n' || c == '\U{0B}' || c == '\U{0C}' || c == '\r' || c == ' '
    || c == '\U{A0}' || c == '\U{1680}' || ('\U{2000}' <= c <= '\U{200A}')
    || c == '\U{2028}' || c == '\U{2029}' || c == '\U{202F}' || c == '\U{205F}'
    || c == '\U{3000}' || c == '\U{FEFF}'
  }

  /** The characters Python's `str.strip()` removes (those for which `str.isspace()` holds). */
  predicate IsPySpace(c: char) {
    ('\t' <= c <= '\r') || ('\U{1C}' <= c <= '\U{1F}') || c == ' ' || c == '\U{85}'
    || c == '\U{A0}' || c == '\U{1680}' || ('\U{2000}' <= c <= '\U{200A}')
    || c == '\U{2028}' || c == '\U{2029}' || c == '\U{202F}' || c == '\U{205F}'
    || c == '\U{3000}'
  }

  /** Which language's notion of whitespace a trim uses. */
  datatype Whitespace = JsWhitespace | PyWhitespace

  predicate IsSpace(w: Whitespace, c: char) {
    if w == JsWhitespace then IsJsSpace(c) else IsPySpace(c)
  }

  /** The line terminators that a regular-expression `.` does not match in JavaScript. */
  predicate IsLineTerminator(c: char) {
    c == '\n' || c == '\r' || c == '\U{2028}' || c == '\U{2029}'
  }

  /** The number of characters of kind `w` in the run that starts at index `k` of `s`. */
  function LeadFrom(s: string, w: Whitespace, k: nat): (n: nat)
    requires k <= |s|
    ensures k + n <= |s|
    decreases |s| - k
  {
    if k < |s| && IsSpace(w, s[k]) then 1 + LeadFrom(s, w, k + 1) else 0
  }

  /** The number of leading characters a trim drops. */
  function LeadLength(s: string, w: Whitespace): (n: nat)
    ensures n <= |s|
  {
    LeadFrom(s, w, 0)
  }

  /** The end of `s[a..e]` once the trailing characters of kind `w` are dropped, never below `a`. */
  function EndFrom(s: string, w: Whitespace, a: nat, e: nat): (r: nat)
    requires a <= e <= |s|
    ensures a <= r <= e
    decreases e - a
  {
    if a < e && IsSpace(w, s[e - 1]) then EndFrom(s, w, a, e - 1) else e
  }

  /** The index just past the last character a trim keeps. */
  function TrimEndIndex(s: string, w: Whitespace): (e: nat)
    ensures LeadLength(s, w) <= e <= |s|
  {
    EndFrom(s, w, LeadLength(s, w), |s|)
  }

  /** Drops leading and trailing characters that are whitespace of kind `w`. */
  function Trim(s: string, w: Whitespace): (r: string)
    ensures |r| <= |s|
  {
    s[LeadLength(s, w)..TrimEndIndex(s, w)]
  }

  /** Every character in the run `LeadFrom` counts is of kind `w`, and the one after it is not. */
  lemma {:induction false} LeadFromRun(s: string, w: Whitespace, k: nat)
    requires k <= |s|
    decreases |s| - k
    ensures forall j :: k <= j < k + LeadFrom(s, w, k) ==> IsSpace(w, s[j])
    ensures k + LeadFrom(s, w, k) < |s| ==> !IsSpace(w, s[k + LeadFrom(s, w, k)])
  {
    if k < |s| && IsSpace(w, s[k]) {
      LeadFromRun(s, w, k + 1);
    }
  }

  /** Every character `EndFrom` drops is of kind `w`, and the last one it keeps is not. */
  lemma {:induction false} EndFromRun(s: string, w: Whitespace, a: nat, e: nat)
    requires a <= e <= |s|
    decreases e - a
    ensures forall j :: EndFrom(s, w, a, e) <= j < e ==> IsSpace(w, s[j])
    ensures a < EndFrom(s, w, a, e) ==> !IsSpace(w, s[EndFrom(s, w, a, e) - 1])
  {
    if a < e && IsSpace(w, s[e - 1]) {
      EndFromRun(s, w, a, e - 1);
    }
  }

  /** A run of `n` characters of kind `w` from `k`, followed by the end or another character, is what `LeadFrom` counts. */
  lemma {:induction false} LeadFromExact(s: string, w: Whitespace, k: nat, n: nat)
    requires k + n <= |s|
    requires forall j :: k <= j < k + n ==> IsSpace(w, s[j])
    requires k + n == |s| || !IsSpace(w, s[k + n])
    decreases n
    ensures LeadFrom(s, w, k) == n
  {
    if n > 0 {
      LeadFromExact(s, w, k + 1, n - 1);
    }
  }

  /** Trailing characters of kind `w` from `e'` to `e`, after one that is not, are what `EndFrom` drops. */
  lemma {:induction false} EndFromExact(s: string, w: Whitespace, a: nat, m: nat, e: nat)
    requires a < m <= e <= |s|
    requires forall j :: m <= j < e ==> IsSpace(w, s[j])
    requires !IsSpace(w, s[m - 1])
    decreases e - m
    ensures EndFrom(s, w, a, e) == m
  {
    if m < e {
      EndFromExact(s, w, a, m, e - 1);
    }
  }

  /** Trimming leaves nothing at either end to trim, and everything it drops is whitespace of kind `w`. */
  lemma TrimBounds(s: string, w: Whitespace)
    ensures Trim(s, w) == [] || (!IsSpace(w, Trim(s, w)[0]) && !IsSpace(w, Trim(s, w)[|Trim(s, w)| - 1]))
    ensures forall k :: 0 <= k < LeadLength(s, w) ==> IsSpace(w, s[k])
    ensures forall k :: TrimEndIndex(s, w) <= k < |s| ==> IsSpace(w, s[k])
  {
    LeadFromRun(s, w, 0);
    EndFromRun(s, w, LeadLength(s, w), |s|);
  }

  /** Trimming leaves nothing exactly when every character is whitespace of kind `w`. */
  lemma TrimEmptyIff(s: string, w: Whitespace)
    ensures Trim(s, w) == [] <==> forall k :: 0 <= k < |s| ==> IsSpace(w, s[k])
  {
    TrimBounds(s, w);
    LeadFromRun(s, w, 0);
    if forall k :: 0 <= k < |s| ==> IsSpace(w, s[k]) {
      LeadFromExact(s, w, 0, |s|);
    }
  }

  /** JavaScript's `s.trim()`. */
  function JsTrim(s: string): string { Trim(s, JsWhitespace) }

  /** Python's `s.strip()`. */
  function PyStrip(s: string): string { Trim(s, PyWhitespace) }

  /** A string with nothing to trim at either end is left as it is. */
  lemma TrimUnchanged(s: string, w: Whitespace)
    requires s == [] || (!IsSpace(w, s[0]) && !IsSpace(w, s[|s| - 1]))
    ensures Trim(s, w) == s
  {
    if s != [] {
      assert LeadLength(s, w) == 0;
      assert TrimEndIndex(s, w) == |s|;
    }
  }

  /** Trimming a piece of `s` that is known to be a whole trimmed result gives it back. */
  lemma TrimIdempotent(s: string, w: Whitespace)
    ensures Trim(Trim(s, w), w) == Trim(s, w)
  {
    TrimBounds(s, w);
    TrimUnchanged(Trim(s, w), w);
  }

  predicate StartsWith(s: string, p: string) { |p| <= |s| && s[..|p|] == p }

  predicate EndsWith(s: string, p: string) { |p| <= |s| && s[|s| - |p|..] == p }

  /** `p` occurs in `s` starting at index `k`. */
  predicate OccursAt(s: string, p: string, k: int) {
    0 <= k && k + |p| <= |s| && s[k..k + |p|] == p
  }

  /** The first index at or after `k` where `p` occurs in `s`. */
  function IndexOfFrom(s: string, p: string, k: nat): (r: Option<nat>)
    decreases |s| - k
    ensures r.Some? ==> k <= r.value && OccursAt(s, p, r.value)
    ensures r.None? ==> forall j :: k <= j ==> !OccursAt(s, p, j)
  {
    if k + |p| > |s| then None
    else if s[k..k + |p|] == p then Some(k)
    else IndexOfFrom(s, p, k + 1)
  }

  /** The index `IndexOfFrom` finds is the first occurrence at or after `k`. */
  lemma {:induction false} IndexOfFromFirst(s: string, p: string, k: nat)
    decreases |s| - k
    ensures IndexOfFrom(s, p, k).Some? ==> forall j :: k <= j < IndexOfFrom(s, p, k).value ==> !OccursAt(s, p, j)
  {
    if k + |p| <= |s| && s[k..k + |p|] != p {
      IndexOfFromFirst(s, p, k + 1);
    }
  }

  /** JavaScript's `indexOf` and Python's `find`, with `None` for -1. */
  function IndexOf(s: string, p: string): (r: Option<nat>)
    ensures r.Some? ==> OccursAt(s, p, r.value)
    ensures r.None? ==> forall j :: !OccursAt(s, p, j)
  {
    IndexOfFrom(s, p, 0)
  }

  /** `IndexOf` finds the first occurrence. */
  lemma IndexOfFirst(s: string, p: string)
    ensures IndexOf(s, p).Some? ==> forall j :: 0 <= j < IndexOf(s, p).value ==> !OccursAt(s, p, j)
  {
    IndexOfFromFirst(s, p, 0);
  }

  /** Where `p` occurs at `k` and nowhere before it, `IndexOf` finds `k`. */
  lemma IndexOfExact(s: string, p: string, k: nat)
    requires OccursAt(s, p, k)
    requires forall j :: 0 <= j < k ==> !OccursAt(s, p, j)
    ensures IndexOf(s, p) == Some(k)
  {
    IndexOfFirst(s, p);
  }

  /** JavaScript's `includes` and Python's `in` on strings. */
  predicate Contains(s: string, p: string) { IndexOf(s, p).Some? }

  /** An occurrence of `p` in `s` is still one once text is put on either side of `s`. */
  lemma ContainsInContext(before: string, s: string, after: string, p: string)
    requires Contains(s, p)
    ensures Contains(before + s + after, p)
  {
    var t := before + s + after;
    var k := IndexOf(s, p).value;
    assert t[|before| + k..|before| + k + |p|] == s[k..k + |p|];
    assert OccursAt(t, p, |before| + k);
  }

  /** A piece `s[i..j]` of a string in which `p` never occurs has no occurrence of `p` either. */
  lemma NotContainsSlice(s: string, p: string, i: nat, j: nat)
    requires i <= j <= |s| && !Contains(s, p)
    ensures !Contains(s[i..j], p)
  {
    forall k | 0 <= k && k + |p| <= j - i ensures !OccursAt(s[i..j], p, k) {
      var piece := s[i..j];
      assert |piece| == j - i;
      var here, there := piece[k..k + |p|], s[i + k..i + k + |p|];
      assert forall m :: 0 <= m < |p| ==> here[m] == there[m];
      assert here == there;
      assert !OccursAt(s, p, i + k);
    }
  }

  /** If the first character of `p` does not occur in `s`, neither does `p`. */
  lemma NotContainsByFirstChar(s: string, p: string)
    requires p != [] && p[0] !in s
    ensures !Contains(s, p)
  {
    forall k | 0 <= k && k + |p| <= |s| ensures !OccursAt(s, p, k) {
      assert s[k..k + |p|][0] == s[k];
      assert s[k] in s;
    }
  }

  /** Python's `s.replace(p, "")`: every occurrence of `p`, found left to right without overlap, is removed. */
  function RemoveAll(s: string, p: string): string
    requires p != []
  {
    if |s| < |p| then s
    else if s[..|p|] == p then RemoveAll(s[|p|..], p)
    else [s[0]] + RemoveAll(s[1..], p)
  }

  /** A string in which `p` does not occur is unchanged by removing `p`. */
  lemma {:induction false} RemoveAllAbsent(s: string, p: string)
    requires p != [] && !Contains(s, p)
    ensures RemoveAll(s, p) == s
    decreases |s|
  {
    if |s| >= |p| {
      assert !OccursAt(s, p, 0);
      NotContainsSlice(s, p, 1, |s|);
      assert s[1..|s|] == s[1..];
      RemoveAllAbsent(s[1..], p);
      assert s == [s[0]] + s[1..];
    }
  }

  /** Removing every occurrence of a character leaves none of it. */
  lemma RemoveAllChar(s: string, c: char)
    ensures c !in RemoveAll(s, [c])
  {
    if |s| >= 1 {
      RemoveAllChar(s[1..], c);
    }
  }

  /** A string free of `p` is unchanged by removing `p`. */
  lemma {:induction false} RemoveAllCharAbsent(s: string, c: char)
    requires c !in s
    ensures RemoveAll(s, [c]) == s
  {
    if |s| >= 1 {
      RemoveAllCharAbsent(s[1..], c);
      assert s == [s[0]] + s[1..];
    }
  }

  /** The first index at or after `k` where `c` stands in `s`, or `|s|` when there is none. */
  function NextIndex(s: string, c: char, k: nat): (r: nat)
    requires k <= |s|
    ensures k <= r <= |s|
    decreases |s| - k
  {
    if k == |s| || s[k] == c then k else NextIndex(s, c, k + 1)
  }

  /** `NextIndex` stops at the first `c`, or at the end when `c` does not occur. */
  lemma {:induction false} NextIndexFirst(s: string, c: char, k: nat)
    requires k <= |s|
    decreases |s| - k
    ensures forall j :: k <= j < NextIndex(s, c, k) ==> s[j] != c
    ensures NextIndex(s, c, k) < |s| ==> s[NextIndex(s, c, k)] == c
  {
    if k < |s| && s[k] != c {
      NextIndexFirst(s, c, k + 1);
    }
  }

  /** Where no `c` stands from `k` to `m`, and `m` is the end or holds `c`, `NextIndex` finds `m`. */
  lemma {:induction false} NextIndexExact(s: string, c: char, k: nat, m: nat)
    requires k <= m <= |s|
    requires forall j :: k <= j < m ==> s[j] != c
    requires m == |s| || s[m] == c
    decreases m - k
    ensures NextIndex(s, c, k) == m
  {
    if k < m {
      NextIndexExact(s, c, k + 1, m);
    }
  }

  /** JavaScript's and Python's `s.split(c)` on a one-character separator. */
  function Split(s: string, c: char): (r: seq<string>)
    ensures |r| >= 1
    decreases |s|
  {
    var k := NextIndex(s, c, 0);
    if k == |s| then [s] else [s[..k]] + Split(s[k + 1..], c)
  }

  /** No piece of a split holds the separator. */
  lemma {:induction false} SplitPiecesFree(s: string, c: char)
    decreases |s|
    ensures forall k :: 0 <= k < |Split(s, c)| ==> c !in Split(s, c)[k]
  {
    var k := NextIndex(s, c, 0);
    NextIndexFirst(s, c, 0);
    if k < |s| {
      SplitPiecesFree(s[k + 1..], c);
      assert c !in s[..k];
    }
  }

  /** A piece without the separator splits to itself. */
  lemma SplitPiece(a: string, c: char)
    requires c !in a
    ensures Split(a, c) == [a]
  {
    NextIndexExact(a, c, 0, |a|);
  }

  /** Splitting at a separator that follows a separator-free piece yields that piece first. */
  lemma SplitAfterPiece(a: string, b: string, c: char)
    requires c !in a
    ensures Split(a + [c] + b, c) == [a] + Split(b, c)
  {
    var s := a + [c] + b;
    NextIndexExact(s, c, 0, |a|);
    assert s[..|a|] == a;
    assert s[|a| + 1..] == b;
  }

  /** A string with one separator splits into the two pieces around it. */
  lemma SplitOnce(a: string, d: string, c: char)
    requires c !in a && c !in d
    ensures Split(a + [c] + d, c) == [a, d]
  {
    SplitAfterPiece(a, d, c);
    SplitPiece(d, c);
  }

  /** JavaScript's `ls.join(c)` and Python's `c.join(ls)`. */
  function Join(ls: seq<string>, c: char): string
  {
    if ls == [] then [] else if |ls| == 1 then ls[0] else ls[0] + [c] + Join(ls[1..], c)
  }

  /** Joining the pieces of a split gives back the string. */
  lemma {:induction false} JoinSplit(s: string, c: char)
    decreases |s|
    ensures Join(Split(s, c), c) == s
  {
    var k := NextIndex(s, c, 0);
    if k < |s| {
      NextIndexFirst(s, c, 0);
      var rest := s[k + 1..];
      JoinSplit(rest, c);
      assert Split(s, c) == [s[..k]] + Split(rest, c);
      assert s == s[..k] + [c] + rest;
    }
  }

  /** Splitting a join of separator-free pieces gives the pieces back. */
  lemma {:induction false} SplitJoin(ls: seq<string>, c: char)
    requires |ls| >= 1
    requires forall k :: 0 <= k < |ls| ==> c !in ls[k]
    ensures Split(Join(ls, c), c) == ls
  {
    if |ls| == 1 {
      SplitPiece(ls[0], c);
    } else {
      SplitJoin(ls[1..], c);
      SplitAfterPiece(ls[0], Join(ls[1..], c), c);
      assert ls == [ls[0]] + ls[1..];
    }
  }

  predicate IsDigit(c: char) { '0' <= c <= '9' }

  predicate AllDigits(s: string) { forall k :: 0 <= k < |s| ==> IsDigit(s[k]) }

  function DigitChar(d: nat): (c: char)
    requires d < 10
    ensures IsDigit(c)
  {
    ('0' as int + d) as char
  }

  function DigitValue(c: char): (d: nat)
    requires IsDigit(c)
    ensures d < 10 && DigitChar(d) == c
  {
    c as int - '0' as int
  }

  /** The value of a string of decimal digits, most significant first. */
  function DigitsValue(s: string): nat
    requires AllDigits(s)
  {
    if s == [] then 0 else DigitsValue(s[..|s| - 1]) * 10 + DigitValue(s[|s| - 1])
  }

  /** The decimal rendering of `n` (JavaScript's template-literal `${n}`, Python's `str(n)`) for a non-negative integer. */
  function NatToString(n: nat): (r: string)
    ensures |r| >= 1 && AllDigits(r)
  {
    if n < 10 then [DigitChar(n)] else NatToString(n / 10) + [DigitChar(n % 10)]
  }

  /** Reading the decimal rendering gives the number back. */
  lemma {:induction false} NatToStringValue(n: nat)
    ensures DigitsValue(NatToString(n)) == n
  {
    if n >= 10 {
      NatToStringValue(n / 10);
      var s := NatToString(n);
      assert s[..|s| - 1] == NatToString(n / 10);
    }
  }

  /** Distinct numbers have distinct decimal renderings. */
  lemma NatToStringInjective(a: nat, b: nat)
    requires NatToString(a) == NatToString(b)
    ensures a == b
  {
    NatToStringValue(a);
    NatToStringValue(b);
  }
}
