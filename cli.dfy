/**
 * The command-line tool of main.py: the name of the downloaded audio, the file name and
 * the text `save_vtt` writes, and the guards of `main` and `cleanup`. Downloading,
 * uploading and transcribing are outcomes given to the model.
 */
module Cli {
  import opened Common
  import opened Text

  /* ---- The downloaded audio ---- */

  /** `output_template`: the name yt-dlp is told to write, without its extension. */
  function AudioTemplate(timestamp: nat): string {
    "temp_audio_" + NatToString(timestamp)
  }

  /** `final_filename`: the path `download_audio` returns, the template with `.mp3` appended. */
  function AudioPath(timestamp: nat): (r: string)
    ensures StartsWith(r, "temp_audio_") && EndsWith(r, ".mp3") && |r| == 15 + |NatToString(timestamp)|
    ensures r[11..|r| - 4] == NatToString(timestamp)
  {
    var r := AudioTemplate(timestamp) + ".mp3";
    assert r[..11] == "temp_audio_";
    assert r[|r| - 4..] == ".mp3";
    r
  }

  /** Downloads made at different seconds use different paths. */
  lemma AudioPathInjective(a: nat, b: nat)
    requires AudioPath(a) == AudioPath(b)
    ensures a == b
  {
    NatToStringInjective(a, b);
  }

  /** `info.get('title', f'video_{timestamp}')`: the title yt-dlp reports, or a name built from the timestamp. */
  function VideoTitle(reported: Option<string>, timestamp: nat): (r: string)
    ensures reported.Some? ==> r == reported.value
    ensures reported.None? ==> StartsWith(r, "video_") && r[6..] == NatToString(timestamp)
  {
    match reported
    case Some(title) => title
    case None =>
      var r := "video_" + NatToString(timestamp);
      assert r[..6] == "video_";
      r
  }

  /* ---- The output file name ---- */

  /** The characters a title keeps besides the alphanumeric ones. */
  predicate IsTitlePunctuation(c: char) {
    c == ' ' || c == '-' || c == '_'
  }

  /** A title character survives when `isalnum` (Python's `str.isalnum`, a parameter here) holds for it or it is title punctuation. */
  predicate Kept(c: char, isalnum: char -> bool) {
    isalnum(c) || IsTitlePunctuation(c)
  }

  /** The generator joined in `save_vtt`: the kept characters of `title`, in order. */
  function KeptChars(title: string, isalnum: char -> bool): (r: string)
    ensures |r| <= |title|
    ensures forall k :: 0 <= k < |r| ==> Kept(r[k], isalnum)
  {
    if title == [] then []
    else (if Kept(title[0], isalnum) then [title[0]] else []) + KeptChars(title[1..], isalnum)
  }

  /** Filtering a concatenation filters each part. */
  lemma {:induction false} KeptCharsConcat(a: string, b: string, isalnum: char -> bool)
    ensures KeptChars(a + b, isalnum) == KeptChars(a, isalnum) + KeptChars(b, isalnum)
  {
    if a != [] {
      assert (a + b)[1..] == a[1..] + b;
      KeptCharsConcat(a[1..], b, isalnum);
    } else {
      assert a + b == b;
    }
  }

  /** A title made only of kept characters is not changed by the filter. */
  lemma {:induction false} KeptCharsAllKept(title: string, isalnum: char -> bool)
    requires forall k :: 0 <= k < |title| ==> Kept(title[k], isalnum)
    ensures KeptChars(title, isalnum) == title
  {
    if title != [] {
      assert Kept(title[0], isalnum);
      KeptCharsAllKept(title[1..], isalnum);
      assert title == [title[0]] + title[1..];
    }
  }

  /** `safe_title`: the kept characters, stripped. */
  function SafeTitle(title: string, isalnum: char -> bool): (r: string)
    ensures forall k :: 0 <= k < |r| ==> Kept(r[k], isalnum)
    ensures r == [] || (!IsPySpace(r[0]) && !IsPySpace(r[|r| - 1]))
  {
    var kept := KeptChars(title, isalnum);
    TrimBounds(kept, PyWhitespace);
    var r := PyStrip(kept);
    assert forall k :: 0 <= k < |r| ==> r[k] == kept[LeadLength(kept, PyWhitespace) + k];
    r
  }

  /** Sanitising a sanitised title changes nothing. */
  lemma SafeTitleIdempotent(title: string, isalnum: char -> bool)
    ensures SafeTitle(SafeTitle(title, isalnum), isalnum) == SafeTitle(title, isalnum)
  {
    var s := SafeTitle(title, isalnum);
    KeptCharsAllKept(s, isalnum);
    TrimUnchanged(s, PyWhitespace);
  }

  /** `output_filename`: the sanitised title with `.vtt` appended. */
  function OutputFilename(title: string, isalnum: char -> bool): (r: string)
    ensures EndsWith(r, ".vtt") && r[..|r| - 4] == SafeTitle(title, isalnum)
  {
    var r := SafeTitle(title, isalnum) + ".vtt";
    assert r[|r| - 4..] == ".vtt";
    r
  }

  /** ASCII letters and digits, standing in for `isalnum` in the example below. */
  predicate AsciiAlnum(c: char) {
    ('a' <= c <= 'z') || ('A' <= c <= 'Z') || ('0' <= c <= '9')
  }

  /** Punctuation goes, and the spaces left at the ends are stripped. */
  lemma OutputFilenameExample()
    ensures OutputFilename(" a:b ", AsciiAlnum) == "ab.vtt"
  {
    var kept := " ab ";
    assert KeptChars(" a:b ", AsciiAlnum) == kept;
    LeadFromExact(kept, PyWhitespace, 0, 1);
    EndFromExact(kept, PyWhitespace, 1, 3, 4);
    assert PyStrip(kept) == kept[1..3] == "ab";
  }

  /* ---- The saved text ---- */

  /** The fence opener the model may wrap its answer in, and the bare fence. */
  const VttFence: string := "```vtt"
  const Fence: string := "```"

  /** The header a WebVTT file starts with. */
  const Header: string := "WEBVTT"

  /** Three backticks start at index `k`. */
  predicate FenceAt(s: string, k: int) {
    0 <= k && k + 2 < |s| && s[k] == '`' && s[k + 1] == '`' && s[k + 2] == '`'
  }

  ghost predicate FenceFree(s: string) {
    forall k :: !FenceAt(s, k)
  }

  lemma FenceFreeSlice(s: string, i: nat, j: nat)
    requires i <= j <= |s| && FenceFree(s)
    ensures FenceFree(s[i..j])
  {
    forall k ensures !FenceAt(s[i..j], k) {
      assert !FenceAt(s, i + k);
    }
  }

  /** A fence-free string contains neither the fence nor the fence opener. */
  lemma FenceFreeContainsNoFence(s: string)
    requires FenceFree(s)
    ensures !Contains(s, Fence) && !Contains(s, VttFence)
  {
    forall j | 0 <= j ensures !OccursAt(s, Fence, j) && !OccursAt(s, VttFence, j) {
      assert !FenceAt(s, j);
      if j + 3 <= |s| {
        assert s[j..j + 3][0] == s[j] && s[j..j + 3][1] == s[j + 1] && s[j..j + 3][2] == s[j + 2];
      }
      if j + 6 <= |s| {
        assert s[j..j + 6][0] == s[j] && s[j..j + 6][1] == s[j + 1] && s[j..j + 6][2] == s[j + 2];
      }
    }
  }

  /** Removing fences from text that starts with something other than a backtick keeps that character first. */
  lemma RemoveFenceFirst(s: string)
    requires s != [] && s[0] != '`'
    ensures RemoveAll(s, Fence) != [] && RemoveAll(s, Fence)[0] == s[0]
  {
    if |s| >= 3 {
      assert s[..3][0] == s[0];
    }
  }

  /**
   * After a backtick that does not begin a fence, what the removal makes of the rest does
   * not start with two backticks: removal never joins backticks into a new fence.
   */
  lemma RemoveFenceAfterTick(s: string)
    requires s != [] && s[0] == '`' && !StartsWith(s, Fence)
    ensures var t := RemoveAll(s[1..], Fence); !(|t| >= 2 && t[0] == '`' && t[1] == '`')
  {
    var t := s[1..];
    if |t| >= 1 && t[0] != '`' {
      RemoveFenceFirst(t);
    } else if |t| >= 3 {
      assert s[..3] != Fence;
      assert s[..3][0] == '`' && s[..3][1] == '`';
      assert s[2] != '`';
      assert t[..3][1] == s[2];
      RemoveFenceFirst(t[1..]);
    }
  }

  /** Removing every fence, left to right, leaves none. */
  lemma {:induction false} RemoveFenceFree(s: string)
    ensures FenceFree(RemoveAll(s, Fence))
    decreases |s|
  {
    if |s| >= 3 {
      if s[..3] == Fence {
        RemoveFenceFree(s[3..]);
      } else {
        var rest := RemoveAll(s[1..], Fence);
        RemoveFenceFree(s[1..]);
        if s[0] == '`' {
          RemoveFenceAfterTick(s);
        }
        var r := [s[0]] + rest;
        forall k ensures !FenceAt(r, k) {
          if k >= 1 {
            assert !FenceAt(rest, k - 1);
          }
        }
      }
    }
  }

  /** `clean_content`: every fence opener removed, then every fence, then the text stripped; no fence is left. */
  function CleanContent(content: string): (r: string)
    ensures !Contains(r, Fence)
  {
    var unfenced := RemoveAll(RemoveAll(content, VttFence), Fence);
    RemoveFenceFree(RemoveAll(content, VttFence));
    FenceFreeSlice(unfenced, LeadLength(unfenced, PyWhitespace), TrimEndIndex(unfenced, PyWhitespace));
    FenceFreeContainsNoFence(PyStrip(unfenced));
    PyStrip(unfenced)
  }

  /** Text that is already clean is not changed by cleaning it again. */
  lemma CleanContentIdempotent(content: string)
    ensures CleanContent(CleanContent(content)) == CleanContent(content)
  {
    var c := CleanContent(content);
    var unfenced := RemoveAll(RemoveAll(content, VttFence), Fence);
    RemoveFenceFree(RemoveAll(content, VttFence));
    FenceFreeSlice(unfenced, LeadLength(unfenced, PyWhitespace), TrimEndIndex(unfenced, PyWhitespace));
    FenceFreeContainsNoFence(c);
    RemoveAllAbsent(c, VttFence);
    RemoveAllAbsent(c, Fence);
    TrimIdempotent(unfenced, PyWhitespace);
  }

  /**
   * The fallback of `save_vtt`: text that does not start with the header is cut to begin
   * at the header's first occurrence, when there is one.
   */
  function AnchorHeader(clean: string): (r: string)
    ensures Contains(clean, Header) ==> StartsWith(r, Header)
    ensures !Contains(clean, Header) ==> r == clean
    ensures StartsWith(clean, Header) ==> r == clean
  {
    if StartsWith(clean, Header) then clean
    else
      match IndexOf(clean, Header)
      case Some(i) =>
        assert clean[i..][..6] == clean[i..i + 6];
        clean[i..]
      case None => clean
  }

  /** The test for a leading header is a shortcut: the text always ends up starting at the first occurrence of the header. */
  lemma AnchorAtFirstHeader(clean: string)
    ensures AnchorHeader(clean) == match IndexOf(clean, Header) case Some(i) => clean[i..] case None => clean
  {
    if StartsWith(clean, Header) {
      assert clean[0..6] == clean[..6];
      assert IndexOf(clean, Header) == Some(0);
    }
  }

  /** Anchoring keeps a suffix of the text, so it brings no fence back. */
  lemma AnchorKeepsNoFence(clean: string)
    requires !Contains(clean, Fence)
    ensures !Contains(AnchorHeader(clean), Fence)
  {
    AnchorAtFirstHeader(clean);
    if IndexOf(clean, Header).Some? {
      var i := IndexOf(clean, Header).value;
      NotContainsSlice(clean, Fence, i, |clean|);
      assert clean[i..|clean|] == clean[i..];
    }
  }

  /** What `save_vtt` writes, and where. */
  datatype SavedVtt = SavedVtt(filename: string, text: string)

  /** `save_vtt`: the file name from the title and the cleaned, anchored text. */
  function SaveVtt(content: string, title: string, isalnum: char -> bool): (r: SavedVtt)
    ensures EndsWith(r.filename, ".vtt")
    ensures !Contains(r.text, Fence)
    ensures Contains(CleanContent(content), Header) ==> StartsWith(r.text, Header)
    ensures !Contains(CleanContent(content), Header) ==> r.text == CleanContent(content)
  {
    var clean := CleanContent(content);
    AnchorKeepsNoFence(clean);
    SavedVtt(OutputFilename(title, isalnum), AnchorHeader(clean))
  }

  /* ---- main ---- */

  /**
   * The link `main` goes on with: the argument when it is non-empty, taken as it is;
   * otherwise the typed line, stripped. `None` is the exit before any download.
   */
  function ResolveUrl(argument: Option<string>, typed: string): (r: Option<string>)
    ensures r.Some? ==> r.value != ""
    ensures argument.Some? && argument.value != "" ==> r == argument
    ensures (argument.None? || argument.value == "") ==> (r.None? <==> PyStrip(typed) == "")
    ensures (argument.None? || argument.value == "") && r.Some? ==> r.value == PyStrip(typed)
  {
    if argument.Some? && argument.value != "" then argument
    else
      var url := PyStrip(typed);
      if url == "" then None else Some(url)
  }

  /** A typed link is stripped, so stripping it again changes nothing; an argument of spaces is used as it is. */
  lemma ResolveUrlStripping(typed: string)
    ensures ResolveUrl(None, typed).Some? ==> PyStrip(ResolveUrl(None, typed).value) == ResolveUrl(None, typed).value
    ensures ResolveUrl(Some(" "), typed) == Some(" ")
  {
    TrimIdempotent(typed, PyWhitespace);
  }

  /** How `download_audio` ended: at which second, with which reported title, or by exiting. */
  datatype Download = Downloaded(timestamp: nat, reportedTitle: Option<string>) | DownloadFailed

  /** The working directory's file names. */
  class WorkDir {
    var files: set<string>

    constructor(files: set<string>)
      ensures this.files == files
    {
      this.files := files;
    }

    /** The local half of `cleanup`: the file is removed when it exists. */
    method Cleanup(filePath: string)
      modifies this
      ensures files == old(files) - {filePath}
    {
      if filePath in files {
        files := files - {filePath};
      }
    }

    /** The `finally` of `main`: cleanup runs only when an audio path was set and is non-empty. */
    method Finish(audioPath: Option<string>)
      modifies this
      ensures audioPath.Some? && audioPath.value != "" ==> files == old(files) - {audioPath.value}
      ensures audioPath.None? || audioPath.value == "" ==> files == old(files)
    {
      if audioPath.Some? && audioPath.value != "" {
        Cleanup(audioPath.value);
      }
    }

    /**
     * `main` after the API key check: resolve the link, download, then upload, wait and
     * transcribe (`transcript`, `None` when one of those steps exits), save, and clean up.
     * Every exit after the download still runs the `finally`, so the audio never stays.
     */
    method Run(argument: Option<string>, typed: string, download: Download,
                transcript: Option<string>, isalnum: char -> bool)
      returns (url: Option<string>, saved: Option<SavedVtt>)
      modifies this
      ensures url == ResolveUrl(argument, typed)
      ensures url.None? || download.DownloadFailed? ==> saved == None && files == old(files)
      ensures url.Some? && download.Downloaded? && transcript.None? ==>
                saved == None && files == old(files) - {AudioPath(download.timestamp)}
      ensures url.Some? && download.Downloaded? && transcript.Some? ==>
                saved == Some(SaveVtt(transcript.value, VideoTitle(download.reportedTitle, download.timestamp), isalnum))
                && files == (old(files) + {saved.value.filename}) - {AudioPath(download.timestamp)}
                && saved.value.filename in files && AudioPath(download.timestamp) !in files
    {
      url := ResolveUrl(argument, typed);
      saved := None;
      if url.None? {
        return;
      }
      var audioPath: Option<string> := None;
      match download {
        case DownloadFailed =>
        case Downloaded(timestamp, reported) =>
          var path := AudioPath(timestamp);
          audioPath := Some(path);
          saved := Steps(path, VideoTitle(reported, timestamp), transcript, isalnum);
          if saved.Some? {
            OutputNotAudio(saved.value.filename, timestamp);
          }
      }
      Finish(audioPath);
    }

    /**
     * The body of the `try` once the download returned: the audio file is in place, and a
     * transcript, when every later step delivered one, is saved.
     */
    method Steps(audioPath: string, title: string, transcript: Option<string>, isalnum: char -> bool)
      returns (saved: Option<SavedVtt>)
      modifies this
      ensures transcript.None? ==> saved == None && files == old(files) + {audioPath}
      ensures transcript.Some? ==>
                saved == Some(SaveVtt(transcript.value, title, isalnum))
                && files == old(files) + {audioPath, saved.value.filename}
    {
      files := files + {audioPath};
      saved := None;
      if transcript.Some? {
        var written := SaveVtt(transcript.value, title, isalnum);
        files := files + {written.filename};
        saved := Some(written);
      }
    }
  }

  /** The saved subtitles and the audio never share a name: `.vtt` and `.mp3` differ. */
  lemma OutputNotAudio(filename: string, timestamp: nat)
    requires EndsWith(filename, ".vtt")
    ensures filename != AudioPath(timestamp)
  {
    var p := AudioPath(timestamp);
    assert p[|p| - 4..][1] == 'm';
    assert filename[|filename| - 4..][1] == 'v';
  }
}
