/**
 * The `/api/process-youtube` handler of server.js: the link guard, the extraction run,
 * locating its output in the temporary directory, cleaning up and the reply.
 */
module YoutubeServer {
  import opened Common
  import opened Text
  import opened Types

  /** `KEEP_TEMP_FILES`: set exactly when the variable is `"true"` or `"1"`. */
  function KeepTempFiles(env: Option<string>): (keep: bool)
    ensures keep <==> env == Some("true") || env == Some("1")
  {
    env.Some? && (env.value == "true" || env.value == "1")
  }

  /** The name prefix of one request's output: `audio_<timestamp>.`, dot included. */
  function Prefix(timestamp: nat): string {
    "audio_" + NatToString(timestamp) + "."
  }

  /** The name the extraction is asked to produce: `audio_<timestamp>.mp3`. */
  function ExpectedName(timestamp: nat): (n: string)
    ensures StartsWith(n, Prefix(timestamp)) && EndsWith(n, ".mp3")
  {
    var n := Prefix(timestamp) + "mp3";
    assert n[..|Prefix(timestamp)|] == Prefix(timestamp);
    assert n[|n| - 4..] == ".mp3";
    n
  }

  /** A name with the prefix of `timestamp` shows that timestamp's digits from index 6 up to its first dot after them. */
  lemma PrefixDigits(name: string, timestamp: nat)
    requires StartsWith(name, Prefix(timestamp))
    ensures var d := NatToString(timestamp);
            6 + |d| < |name| && NextIndex(name, '.', 6) == 6 + |d| && name[6..6 + |d|] == d
  {
    var d, p := NatToString(timestamp), Prefix(timestamp);
    assert |p| == |d| + 7;
    forall k | 0 <= k < |p| ensures name[k] == p[k] {
      assert name[..|p|][k] == name[k];
    }
    forall j | 6 <= j < 6 + |d| ensures name[j] != '.' {
      assert name[j] == p[j] == d[j - 6];
    }
    assert name[6 + |d|] == p[6 + |d|] == '.';
    NextIndexExact(name, '.', 6, 6 + |d|);
    assert name[6..6 + |d|] == d;
  }

  /** A name that shares both prefixes belongs to a single timestamp: no request can pick up another's output. */
  lemma SharedPrefixSameTimestamp(t1: nat, t2: nat, name: string)
    requires StartsWith(name, Prefix(t1)) && StartsWith(name, Prefix(t2))
    ensures t1 == t2
  {
    PrefixDigits(name, t1);
    PrefixDigits(name, t2);
    NatToStringInjective(t1, t2);
  }

  /** For distinct timestamps, no name carries both prefixes. */
  lemma PrefixesDisjoint(t1: nat, t2: nat, name: string)
    requires t1 != t2
    ensures !(StartsWith(name, Prefix(t1)) && StartsWith(name, Prefix(t2)))
  {
    if StartsWith(name, Prefix(t1)) && StartsWith(name, Prefix(t2)) {
      SharedPrefixSameTimestamp(t1, t2, name);
    }
  }

  /** `readdirSync(...).filter(name => name.startsWith(prefix))`, in listing order. */
  function Candidates(listing: seq<string>, prefix: string): (c: seq<string>)
  {
    if listing == [] then []
    else (if StartsWith(listing[0], prefix) then [listing[0]] else []) + Candidates(listing[1..], prefix)
  }

  /** `candidates.find(name => name.endsWith('.mp3'))`. */
  function FindMp3(candidates: seq<string>): (r: Option<string>)
  {
    if candidates == [] then None
    else if EndsWith(candidates[0], ".mp3") then Some(candidates[0])
    else FindMp3(candidates[1..])
  }

  /** A listed name that carries the prefix, and one that is also an `.mp3`. */
  predicate IsCandidate(name: string, prefix: string) { StartsWith(name, prefix) }

  predicate IsMp3Candidate(name: string, prefix: string) { StartsWith(name, prefix) && EndsWith(name, ".mp3") }

  /** The index of the first `.mp3` candidate in the listing. */
  function FirstMp3Index(listing: seq<string>, prefix: string): (r: Option<nat>)
    ensures r.Some? ==> r.value < |listing|
  {
    if listing == [] then None
    else if IsMp3Candidate(listing[0], prefix) then Some(0)
    else
      var r := FirstMp3Index(listing[1..], prefix);
      if r.Some? then Some(r.value + 1) else None
  }

  lemma {:induction false} FirstMp3IndexFirst(listing: seq<string>, prefix: string)
    ensures var r := FirstMp3Index(listing, prefix);
            (r.Some? ==> IsMp3Candidate(listing[r.value], prefix) && forall j :: 0 <= j < r.value ==> !IsMp3Candidate(listing[j], prefix))
            && (r.None? ==> forall j :: 0 <= j < |listing| ==> !IsMp3Candidate(listing[j], prefix))
  {
    if listing != [] && !IsMp3Candidate(listing[0], prefix) {
      FirstMp3IndexFirst(listing[1..], prefix);
      assert forall j :: 0 < j < |listing| ==> listing[j] == listing[1..][j - 1];
    }
  }

  /** The index of the first candidate in the listing. */
  function FirstCandidateIndex(listing: seq<string>, prefix: string): (r: Option<nat>)
    ensures r.Some? ==> r.value < |listing|
  {
    if listing == [] then None
    else if IsCandidate(listing[0], prefix) then Some(0)
    else
      var r := FirstCandidateIndex(listing[1..], prefix);
      if r.Some? then Some(r.value + 1) else None
  }

  lemma {:induction false} FirstCandidateIndexFirst(listing: seq<string>, prefix: string)
    ensures var r := FirstCandidateIndex(listing, prefix);
            (r.Some? ==> IsCandidate(listing[r.value], prefix) && forall j :: 0 <= j < r.value ==> !IsCandidate(listing[j], prefix))
            && (r.None? ==> forall j :: 0 <= j < |listing| ==> !IsCandidate(listing[j], prefix))
  {
    if listing != [] && !IsCandidate(listing[0], prefix) {
      FirstCandidateIndexFirst(listing[1..], prefix);
      assert forall j :: 0 < j < |listing| ==> listing[j] == listing[1..][j - 1];
    }
  }

  /** The name at an optional index. */
  function At(listing: seq<string>, i: Option<nat>): Option<string>
    requires i.Some? ==> i.value < |listing|
  {
    if i.Some? then Some(listing[i.value]) else None
  }

  /** Filtering then finding picks the first `.mp3` candidate of the listing. */
  lemma {:induction false} FindMp3OfCandidates(listing: seq<string>, prefix: string)
    ensures FindMp3(Candidates(listing, prefix)) == At(listing, FirstMp3Index(listing, prefix))
  {
    if listing != [] {
      var rest := listing[1..];
      FindMp3OfCandidates(rest, prefix);
      var c := Candidates(rest, prefix);
      var r := FirstMp3Index(rest, prefix);
      if r.Some? {
        assert listing[r.value + 1] == rest[r.value];
      }
      if StartsWith(listing[0], prefix) {
        assert Candidates(listing, prefix) == [listing[0]] + c;
        assert ([listing[0]] + c)[0] == listing[0] && ([listing[0]] + c)[1..] == c;
      } else {
        assert Candidates(listing, prefix) == c;
      }
    }
  }

  /** The fallback `candidates[0]` is the first candidate of the listing. */
  lemma {:induction false} FirstOfCandidates(listing: seq<string>, prefix: string)
    ensures var c := Candidates(listing, prefix);
            (c == [] <==> FirstCandidateIndex(listing, prefix).None?)
            && (c != [] ==> Some(c[0]) == At(listing, FirstCandidateIndex(listing, prefix)))
  {
    if listing != [] {
      FirstOfCandidates(listing[1..], prefix);
    }
  }

  /**
   * Where the handler looks for the output: the expected `.mp3` when it exists, else
   * the first `.mp3` candidate, else the first candidate; `None` throws.
   */
  function LocateOutput(present: set<string>, listing: seq<string>, timestamp: nat): (r: Option<string>)
    ensures r.Some? ==> (r.value == ExpectedName(timestamp) && r.value in present)
                        || (r.value in listing && IsCandidate(r.value, Prefix(timestamp)))
    ensures r.None? <==> ExpectedName(timestamp) !in present
                         && forall j :: 0 <= j < |listing| ==> !IsCandidate(listing[j], Prefix(timestamp))
  {
    FindMp3OfCandidates(listing, Prefix(timestamp));
    FirstOfCandidates(listing, Prefix(timestamp));
    FirstMp3IndexFirst(listing, Prefix(timestamp));
    FirstCandidateIndexFirst(listing, Prefix(timestamp));
    if ExpectedName(timestamp) in present then Some(ExpectedName(timestamp))
    else
      var candidates := Candidates(listing, Prefix(timestamp));
      var mp3 := FindMp3(candidates);
      if mp3.Some? then mp3
      else if candidates != [] then Some(candidates[0])
      else None
  }

  /** The choice, stated over the listing: the expected file, else the first `.mp3` candidate, else the first candidate. */
  lemma LocateOutputChoice(present: set<string>, listing: seq<string>, timestamp: nat)
    ensures var p := Prefix(timestamp);
            var mp3, any := FirstMp3Index(listing, p), FirstCandidateIndex(listing, p);
            LocateOutput(present, listing, timestamp)
            == if ExpectedName(timestamp) in present then Some(ExpectedName(timestamp))
               else if mp3.Some? then At(listing, mp3)
               else At(listing, any)
  {
    FindMp3OfCandidates(listing, Prefix(timestamp));
    FirstOfCandidates(listing, Prefix(timestamp));
  }

  /** A `.mp3` candidate is preferred to an earlier candidate of another type. */
  lemma Mp3Preferred(present: set<string>, other: string, mp3: string, timestamp: nat)
    requires ExpectedName(timestamp) !in present
    requires IsCandidate(other, Prefix(timestamp)) && !EndsWith(other, ".mp3") && IsMp3Candidate(mp3, Prefix(timestamp))
    ensures LocateOutput(present, [other, mp3], timestamp) == Some(mp3)
  {
    LocateOutputChoice(present, [other, mp3], timestamp);
    assert [other, mp3][1..] == [mp3];
  }

  /** The directory the extraction writes into: its files, and the order `readdirSync` lists them in. */
  class TempDir {
    var files: map<string, seq<byte>>
    var listing: seq<string>

    /** The directory as the extraction run left it: its files, and a listing of exactly their names. */
    constructor(files: map<string, seq<byte>>, listing: seq<string>)
      requires (forall n :: n in listing ==> n in files) && (forall n :: n in files ==> n in listing)
      ensures Valid() && this.files == files && this.listing == listing
    {
      this.files := files;
      this.listing := listing;
    }

    /** The listing names exactly the files there are. */
    predicate Valid()
      reads this
    {
      (forall n :: n in listing ==> n in files) && (forall n :: n in files ==> n in listing)
    }

    predicate Exists(name: string)
      reads this
    {
      name in files
    }

    /** `unlinkSync`: the file goes, and with it its entry in the listing. */
    method Unlink(name: string)
      requires Valid() && name in files
      modifies this
      ensures Valid()
      ensures files == old(files) - {name}
      ensures listing == Without(old(listing), name)
    {
      WithoutNames(listing, name);
      files := files - {name};
      listing := Without(listing, name);
    }
  }

  /** The listing with `name` taken out. */
  function Without(listing: seq<string>, name: string): seq<string> {
    if listing == [] then []
    else (if listing[0] == name then [] else [listing[0]]) + Without(listing[1..], name)
  }

  lemma {:induction false} WithoutNames(listing: seq<string>, name: string)
    ensures forall n :: n in Without(listing, name) <==> n in listing && n != name
  {
    if listing != [] {
      WithoutNames(listing[1..], name);
      assert listing == [listing[0]] + listing[1..];
    }
  }

  /** What the extraction run hands to its callback: the error's message, if it failed, and its two outputs. */
  datatype ExecResult = ExecResult(error: Option<string>, stdout: string, stderr: string)

  /** The JSON bodies the handler sends. */
  datatype Body =
    | ErrorBody(error: string)
    | DetailedErrorBody(error: string, details: string)
    | SuccessBody(data: FileData)

  /** How a request ends: a reply with its status code, or an exception that escapes the callback before any reply. */
  datatype Outcome = Replied(status: nat, body: Body) | Escaped(exception: string)

  const UrlRequired: string := "URL is required"
  const DownloadFailed: string := "Download failed"
  const ProcessingFailed: string := "Failed to process audio file"
  const NoOutputDetails: string := "No output file was produced."
  /** What the `catch` meets on its cleanup line when the flag is unset: `filePath` was declared with `let` inside the `try`. */
  const FilePathUndefined: string := "ReferenceError: filePath is not defined"

  /** The message of the error thrown when no output can be found. */
  function MissingOutputMessage(stderr: string): (m: string)
    ensures JsTrim(stderr) != "" ==> m == "Output file was not created. Details: " + JsTrim(stderr)
    ensures JsTrim(stderr) == "" ==> m == "Output file was not created. Details: " + NoOutputDetails
  {
    var details := if JsTrim(stderr) != "" then JsTrim(stderr) else NoOutputDetails;
    "Output file was not created. Details: " + details
  }

  /** The record of a successful reply: always named `youtube_<timestamp>.mp3` and typed `audio/mp3`, whatever file was chosen. */
  function DownloadedFile(timestamp: nat, bytes: seq<byte>, encode: seq<byte> -> string): FileData {
    FileData("youtube_" + NatToString(timestamp) + ".mp3", "audio/mp3", |bytes|, encode(bytes))
  }

  /**
   * The handler, after the extraction run has left `dir` as it is. `url` is the request's
   * `url` field, `timestamp` the request's `Date.now()`, `keep` the `KEEP_TEMP_FILES`
   * flag, `run` what the extraction reported and `encode` the base64 encoder.
   * `thrown` is the message of the error the `try` block threw, if any.
   */
  method ProcessYoutube(dir: TempDir, url: Option<string>, timestamp: nat, keep: bool, run: ExecResult,
                        encode: seq<byte> -> string)
    returns (outcome: Outcome, thrown: Option<string>)
    requires dir.Valid()
    modifies dir
    ensures dir.Valid()
    ensures url.None? || url == Some("") ==>
              outcome == Replied(400, ErrorBody(UrlRequired)) && thrown == None
              && dir.files == old(dir.files) && dir.listing == old(dir.listing)
    ensures url.Some? && url != Some("") && run.error.Some? ==>
              outcome == Replied(500, DetailedErrorBody(DownloadFailed, if run.stderr != "" then run.stderr else run.error.value))
              && thrown == None && dir.files == old(dir.files) && dir.listing == old(dir.listing)
    ensures url.Some? && url != Some("") && run.error.None? ==>
              var located := LocateOutput(old(dir.files).Keys, old(dir.listing), timestamp);
              if located.Some? then
                var name := located.value;
                name in old(dir.files) && thrown == None
                && outcome == Replied(200, SuccessBody(DownloadedFile(timestamp, old(dir.files)[name], encode)))
                && dir.files == (if keep then old(dir.files) else old(dir.files) - {name})
                && dir.listing == if keep then old(dir.listing) else Without(old(dir.listing), name)
              else
                thrown == Some(MissingOutputMessage(run.stderr))
                && dir.files == old(dir.files) && dir.listing == old(dir.listing)
                && outcome == if keep then Replied(500, ErrorBody(ProcessingFailed)) else Escaped(FilePathUndefined)
  {
    if url.None? || url == Some("") {
      return Replied(400, ErrorBody(UrlRequired)), None;
    }
    if run.error.Some? {
      var details := if run.stderr != "" then run.stderr else run.error.value;
      return Replied(500, DetailedErrorBody(DownloadFailed, details)), None;
    }
    var expectedFilePath := ExpectedName(timestamp);
    var filePath: Option<string> := Some(expectedFilePath);
    if !dir.Exists(expectedFilePath) {
      var candidates := Candidates(dir.listing, Prefix(timestamp));
      var mp3Candidate := FindMp3(candidates);
      filePath := if mp3Candidate.Some? then mp3Candidate else if candidates != [] then Some(candidates[0]) else None;
    }
    assert filePath == LocateOutput(dir.files.Keys, dir.listing, timestamp);
    if filePath.None? || !dir.Exists(filePath.value) {
      thrown := Some(MissingOutputMessage(run.stderr));
      // The catch block: with the flag unset its cleanup line names the try block's `filePath`.
      if keep {
        outcome := Replied(500, ErrorBody(ProcessingFailed));
      } else {
        outcome := Escaped(FilePathUndefined);
      }
      return;
    }
    var name := filePath.value;
    var fileBuffer := dir.files[name];
    var base64 := encode(fileBuffer);
    var size := |fileBuffer|;
    if !keep {
      dir.Unlink(name);
    }
    outcome := Replied(200, SuccessBody(FileData("youtube_" + NatToString(timestamp) + ".mp3", "audio/mp3", size, base64)));
    thrown := None;
  }
}
