/**
 * The YouTube link form of components/UrlInput.tsx: the pattern a link must match and
 * the two state rules, submitting and editing.
 */
module UrlInput {
  import opened Common
  import opened Text

  /*
   * The pattern `^(https?:\/\/)?(www\.)?(youtube\.com|youtu\.?be)\/.+$`, read as the
   * set of strings it describes: optional groups and alternatives become choices from
   * these lists.
   */
  const Schemes: seq<string> := ["", "http://", "https://"]
  const Wwws: seq<string> := ["", "www."]
  const Hosts: seq<string> := ["youtube.com", "youtu.be", "youtube"]

  /** `.+$` without the `s` flag: one character or more, none of them a line terminator, up to the end. */
  predicate LineRest(t: string) {
    |t| >= 1 && forall k :: 0 <= k < |t| ==> !IsLineTerminator(t[k])
  }

  /** `\/.+$` */
  predicate PathPart(t: string) {
    |t| >= 1 && t[0] == '/' && LineRest(t[1..])
  }

  /** `(youtube\.com|youtu\.?be)\/.+$` */
  predicate HostPart(t: string) {
    exists c :: c in Hosts && StartsWith(t, c) && PathPart(t[|c|..])
  }

  /** `(www\.)?(youtube\.com|youtu\.?be)\/.+$` */
  predicate WwwPart(t: string) {
    exists b :: b in Wwws && StartsWith(t, b) && HostPart(t[|b|..])
  }

  /** The whole anchored pattern: some choice of scheme, `www.` and host, then the path. */
  predicate MatchesPattern(s: string) {
    exists a :: a in Schemes && StartsWith(s, a) && WwwPart(s[|a|..])
  }

  /*
   * How a matcher reads the pattern left to right. Each optional group is taken when it
   * is present; the lemmas below show that skipping a present group never lets the rest
   * match, so this reading accepts exactly the strings the pattern describes.
   */

  function SchemeLength(s: string): (n: nat)
    ensures n <= |s|
  {
    if StartsWith(s, "https://") then 8 else if StartsWith(s, "http://") then 7 else 0
  }

  function WwwLength(t: string): (n: nat)
    ensures n <= |t|
  {
    if StartsWith(t, "www.") then 4 else 0
  }

  function HostLength(t: string): (n: Option<nat>)
    ensures n.Some? ==> n.value <= |t|
  {
    if StartsWith(t, "youtube.com") then Some(11)
    else if StartsWith(t, "youtu.be") then Some(8)
    else if StartsWith(t, "youtube") then Some(7)
    else None
  }

  /** `validateUrl`: the pattern's test on the untrimmed input. */
  predicate ValidateUrl(input: string) {
    var t := input[SchemeLength(input)..];
    var u := t[WwwLength(t)..];
    HostLength(u).Some? && PathPart(u[HostLength(u).value..])
  }

  /** A string that differs from `p` at an index both have does not start with `p`. */
  lemma DiffersAt(s: string, p: string, k: nat)
    requires k < |p| && k < |s| && s[k] != p[k]
    ensures !StartsWith(s, p)
  {
    assert |p| <= |s| ==> s[..|p|][k] == s[k];
  }

  /** A host alternative starts with 'y', so text matching it starts with neither `www.` nor a scheme. */
  lemma HostPartStart(t: string)
    requires HostPart(t)
    ensures |t| > 0 && t[0] == 'y'
  {
    var c :| c in Hosts && StartsWith(t, c) && PathPart(t[|c|..]);
    assert t[..|c|][0] == c[0] == 'y';
  }

  lemma HostPartNoWww(t: string)
    requires HostPart(t)
    ensures WwwLength(t) == 0
  {
    HostPartStart(t);
    DiffersAt(t, "www.", 0);
  }

  /** What follows the scheme starts with 'w' or 'y', never with a scheme. */
  lemma WwwPartNoScheme(t: string)
    requires WwwPart(t)
    ensures SchemeLength(t) == 0
  {
    var b :| b in Wwws && StartsWith(t, b) && HostPart(t[|b|..]);
    HostPartStart(t[|b|..]);
    if b != "" {
      assert t[..|b|][0] == b[0];
    }
    DiffersAt(t, "https://", 0);
    DiffersAt(t, "http://", 0);
  }

  /** Which host a matching string takes: `youtube.com` shadows nothing, `youtu.be` and `youtube` cannot be read as the longer one. */
  lemma HostChosen(t: string, c: string)
    requires c in Hosts && StartsWith(t, c) && PathPart(t[|c|..])
    ensures HostLength(t) == Some(|c|)
  {
    if c == "youtu.be" {
      assert t[..8][5] == '.';
      DiffersAt(t, "youtube.com", 5);
    } else if c == "youtube" {
      assert t[7..][0] == '/';
      DiffersAt(t, "youtube.com", 7);
      assert t[..7][5] == 'b';
      DiffersAt(t, "youtu.be", 5);
    }
  }

  lemma HostStage(t: string)
    ensures HostPart(t) <==> HostLength(t).Some? && PathPart(t[HostLength(t).value..])
  {
    var n := HostLength(t);
    if HostPart(t) {
      var c :| c in Hosts && StartsWith(t, c) && PathPart(t[|c|..]);
      HostChosen(t, c);
    }
    if n.Some? && PathPart(t[n.value..]) {
      var c := if n == Some(11) then "youtube.com" else if n == Some(8) then "youtu.be" else "youtube";
      assert c in Hosts && StartsWith(t, c);
    }
  }

  lemma WwwStage(t: string)
    ensures WwwPart(t) <==> HostPart(t[WwwLength(t)..])
  {
    if WwwPart(t) {
      var b :| b in Wwws && StartsWith(t, b) && HostPart(t[|b|..]);
      if b == "" {
        HostPartNoWww(t);
      }
    }
    if HostPart(t[WwwLength(t)..]) {
      var b := if WwwLength(t) == 4 then "www." else "";
      assert b in Wwws && StartsWith(t, b);
    }
  }

  /** After `http://`, the text cannot also start with `https://`. */
  lemma HttpNotHttps(s: string)
    requires StartsWith(s, "http://")
    ensures SchemeLength(s) == 7
  {
    assert s[..7][4] == ':';
    DiffersAt(s, "https://", 4);
  }

  lemma SchemeStage(s: string)
    ensures MatchesPattern(s) <==> WwwPart(s[SchemeLength(s)..])
  {
    if MatchesPattern(s) {
      var a :| a in Schemes && StartsWith(s, a) && WwwPart(s[|a|..]);
      SchemeChosen(s, a);
    }
    if WwwPart(s[SchemeLength(s)..]) {
      var a := if SchemeLength(s) == 8 then "https://" else if SchemeLength(s) == 7 then "http://" else "";
      assert a in Schemes && StartsWith(s, a);
    }
  }

  lemma SchemeChosen(s: string, a: string)
    requires a in Schemes && StartsWith(s, a) && WwwPart(s[|a|..])
    ensures SchemeLength(s) == |a|
  {
    if a == "" {
      WwwPartNoScheme(s);
    } else if a == "http://" {
      HttpNotHttps(s);
    }
  }

  /** `validateUrl` accepts exactly the strings the pattern describes. */
  lemma ValidateUrlMatchesPattern(input: string)
    ensures ValidateUrl(input) <==> MatchesPattern(input)
  {
    SchemeStage(input);
    var t := input[SchemeLength(input)..];
    WwwStage(t);
    HostStage(t[WwwLength(t)..]);
  }

  /** Matching is case-sensitive. */
  lemma CapitalizedHostRejected()
    ensures !ValidateUrl("YouTube.com/x")
  {
    var s := "YouTube.com/x";
    assert s[0] == 'Y';
    DiffersAt(s, "https://", 0);
    DiffersAt(s, "http://", 0);
    DiffersAt(s, "www.", 0);
    DiffersAt(s, "youtube.com", 0);
    DiffersAt(s, "youtu.be", 0);
    DiffersAt(s, "youtube", 0);
  }

  /** The dot of `youtu.be` is optional, so the bare word `youtube` is a host. */
  lemma BareHostAccepted()
    ensures ValidateUrl("youtube/x")
  {
    var s := "youtube/x";
    assert s[0] == 'y' && s[5] == 'b' && s[7] == '/';
    DiffersAt(s, "https://", 0);
    DiffersAt(s, "http://", 0);
    DiffersAt(s, "www.", 0);
    DiffersAt(s, "youtube.com", 7);
    DiffersAt(s, "youtu.be", 5);
    assert s[..7] == "youtube" && s[7..] == "/x";
    assert !IsLineTerminator('x');
  }

  /** The path after the slash may not be empty. */
  lemma EmptyPathRejected()
    ensures !ValidateUrl("youtube.com/")
  {
    var s := "youtube.com/";
    assert s[0] == 'y';
    DiffersAt(s, "https://", 0);
    DiffersAt(s, "http://", 0);
    DiffersAt(s, "www.", 0);
    assert s[..11] == "youtube.com" && s[11..] == "/";
  }

  const InvalidUrlMessage: string := "Please enter a valid YouTube URL"

  /** The form's state: the text in the field and the message under it. */
  class UrlForm {
    var url: string
    var error: Option<string>

    /** The only message the form ever shows is the invalid-link one. */
    predicate Valid()
      reads this
    {
      error == None || error == Some(InvalidUrlMessage)
    }

    constructor()
      ensures Valid() && url == "" && error == None
    {
      url := "";
      error := None;
    }

    /** Editing the field stores the new text and clears any message. */
    method OnChange(value: string)
      requires Valid()
      modifies this
      ensures Valid() && url == value && error == None
    {
      url := value;
      if error.Some? && error.value != "" {
        error := None;
      }
    }

    /**
     * Submitting: blank text does nothing, text the pattern refuses sets the message,
     * and accepted text clears it and is handed on, untrimmed, as `submitted`.
     */
    method HandleSubmit() returns (submitted: Option<string>)
      requires Valid()
      modifies this
      ensures Valid() && url == old(url)
      ensures JsTrim(url) == "" ==> submitted == None && error == old(error)
      ensures JsTrim(url) != "" && !ValidateUrl(url) ==> submitted == None && error == Some(InvalidUrlMessage)
      ensures JsTrim(url) != "" && ValidateUrl(url) ==> submitted == Some(url) && error == None
    {
      if JsTrim(url) == "" {
        return None;
      }
      if !ValidateUrl(url) {
        error := Some(InvalidUrlMessage);
        return None;
      }
      error := None;
      submitted := Some(url);
    }
  }
}
