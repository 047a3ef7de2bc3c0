/**
 * The result screen of components/ResultViewer.tsx: the name a download gets and when
 * the video preview and the YouTube notice appear.
 */
module ResultViewer {
  import opened Common
  import opened Text
  import opened Base64
  import opened Types

  /** The index of the last '.' of `s`. */
  function LastDot(s: string): (r: Option<nat>)
    ensures r.Some? ==> r.value < |s| && s[r.value] == '.' && forall j :: r.value < j < |s| ==> s[j] != '.'
    ensures r.None? ==> '.' !in s
  {
    if s == [] then None
    else if s[|s| - 1] == '.' then Some(|s| - 1)
    else
      var r := LastDot(s[..|s| - 1]);
      assert r.None? ==> forall j :: 0 <= j < |s| ==> s[j] != '.' by {
        if r.None? {
          forall j | 0 <= j < |s| ensures s[j] != '.' {
            if j < |s| - 1 {
              assert s[j] == s[..|s| - 1][j];
            }
          }
        }
      }
      r
  }

  /**
   * The pattern `\.[^/.]+$` matches at `k`: a dot, then one character or more up to the
   * end, none of them a '/' or a '.'.
   */
  predicate ExtensionAt(s: string, k: int) {
    0 <= k && k + 1 < |s| && s[k] == '.' && forall j :: k < j < |s| ==> s[j] != '/' && s[j] != '.'
  }

  /** `fileName.replace(/\.[^/.]+$/, "")`: the final extension removed, when there is one. */
  function StripExtension(s: string): (r: string)
    ensures forall k :: ExtensionAt(s, k) ==> r == s[..k]
    ensures (forall k :: !ExtensionAt(s, k)) ==> r == s
  {
    match LastDot(s)
    case Some(k) => if ExtensionAt(s, k) then s[..k] else s
    case None => s
  }

  /** The pattern can match at one place at most, since after the match there is no further dot. */
  lemma ExtensionAtUnique(s: string, k: int, m: int)
    requires ExtensionAt(s, k) && ExtensionAt(s, m)
    ensures k == m
  {
    assert s[k] == '.' && s[m] == '.';
  }

  /** A name built from a stem, a dot and an extension free of '/' and '.' loses exactly the dot and the extension. */
  lemma StripExtensionOf(stem: string, ext: string)
    requires ext != [] && '/' !in ext && '.' !in ext
    ensures StripExtension(stem + ['.'] + ext) == stem
  {
    var s := stem + ['.'] + ext;
    forall j | |stem| < j < |s| ensures s[j] != '/' && s[j] != '.' {
      assert s[j] == ext[j - |stem| - 1];
    }
    assert ExtensionAt(s, |stem|);
    assert s[..|stem|] == stem;
  }

  /** The name of the downloaded subtitle file. */
  function DownloadName(fileName: string): (r: string)
    ensures EndsWith(r, ".vtt")
  {
    StripExtension(fileName) + ".vtt"
  }

  /** Only the final extension goes; a name without one, or ending in a bare dot, keeps everything. */
  lemma DownloadNameExamples()
    ensures DownloadName("a.b.mp4") == "a.b.vtt"
    ensures DownloadName("x") == "x.vtt"
    ensures DownloadName("x.") == "x..vtt"
  {
    StripExtensionOf("a.b", "mp4");
    assert "a.b" + ['.'] + "mp4" == "a.b.mp4";
    assert '.' !in "x";
    var d := "x.";
    assert LastDot(d) == Some(1);
  }

  /** The file data shows as a video exactly when it is present and its type is a video type. */
  predicate IsVideo(fileData: Option<FileData>) {
    fileData.Some? && StartsWith(fileData.value.mimeType, "video/")
  }

  /** JavaScript truthiness of an optional string prop: present and non-empty. */
  predicate Truthy(s: Option<string>) {
    s.Some? && s.value != ""
  }

  /** The object URLs the screen holds for the preview. */
  class Preview {
    var videoUrl: Option<string>
    var trackUrl: Option<string>

    constructor()
      ensures videoUrl == None && trackUrl == None
    {
      videoUrl := None;
      trackUrl := None;
    }

    /**
     * The effect on `fileData`: a video gets an object URL for a blob of its decoded
     * bytes; anything else has none. `atob` and `createObjectUrl` are the browser's.
     */
    method FileDataEffect(fileData: Option<FileData>, atob: string -> string, createObjectUrl: Blob -> string)
      modifies this
      ensures trackUrl == old(trackUrl)
      ensures !IsVideo(fileData) ==> videoUrl == None
      ensures IsVideo(fileData) ==>
                videoUrl == Some(createObjectUrl(Blob(fileData.value.mimeType, Latin1Bytes(atob(fileData.value.base64)))))
    {
      if !IsVideo(fileData) {
        videoUrl := None;
        return;
      }
      var blob := Base64ToBlob(fileData.value.base64, fileData.value.mimeType, atob);
      videoUrl := Some(createObjectUrl(blob));
    }

    /** The effect on `content`: empty text has no track; other text gets an object URL for a `text/vtt` blob of it. */
    method ContentEffect(content: string, createTextUrl: string -> string)
      modifies this
      ensures videoUrl == old(videoUrl)
      ensures content == "" ==> trackUrl == None
      ensures content != "" ==> trackUrl == Some(createTextUrl(content))
    {
      if content == "" {
        trackUrl := None;
        return;
      }
      trackUrl := Some(createTextUrl(content));
    }

    /** The player needs both URLs. */
    predicate ShowPlayer()
      reads this
    {
      Truthy(videoUrl) && Truthy(trackUrl)
    }

    /** The YouTube notice needs no video URL and a non-empty YouTube link. */
    predicate ShowYoutubeNotice(youtubeUrl: Option<string>)
      reads this
    {
      !Truthy(videoUrl) && Truthy(youtubeUrl)
    }

    /**
     * Both effects, then the two conditions of the screen. Object URLs are never empty,
     * which the caller states about `createObjectUrl` and `createTextUrl`.
     */
    method Render(fileData: Option<FileData>, content: string, youtubeUrl: Option<string>,
                  atob: string -> string, createObjectUrl: Blob -> string, createTextUrl: string -> string)
      returns (player: bool, notice: bool)
      requires forall b :: createObjectUrl(b) != ""
      requires forall t :: createTextUrl(t) != ""
      modifies this
      ensures player <==> IsVideo(fileData) && content != ""
      ensures notice <==> !IsVideo(fileData) && Truthy(youtubeUrl)
      ensures !(player && notice)
    {
      FileDataEffect(fileData, atob, createObjectUrl);
      ContentEffect(content, createTextUrl);
      player := ShowPlayer();
      notice := ShowYoutubeNotice(youtubeUrl);
    }
  }
}
