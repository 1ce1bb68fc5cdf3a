/** The yt-dlp probes of youtube_utils.py: one metadata run of yt-dlp,
    classified into a video duration (or -1) and into "the video exists". */
module YouTube {
  import opened Common
  import opened Proc

  /** `YTDLP_CMD`: yt-dlp run as `user1` with the cookies of its Chrome profile. */
  const YtDlpCmd: seq<string> :=
    ["/usr/bin/sudo", "-u", "user1", "/home/user1/.local/bin/yt-dlp", "--cookies-from-browser", "chrome"]

  /** The command both probes run: `YTDLP_CMD + ["--skip-download", "--print-json", url]`. */
  function ProbeCommand(url: string): (cmd: seq<string>)
    ensures |cmd| == |YtDlpCmd| + 3
    ensures cmd[..|YtDlpCmd|] == YtDlpCmd
    ensures cmd[|YtDlpCmd|..] == ["--skip-download", "--print-json", url]
  {
    YtDlpCmd + ["--skip-download", "--print-json", url]
  }

  /** The JSON object yt-dlp prints, as far as the probes read it: a key
      mapped to an integer, or to `null`. */
  type Record = map<string, Option<int>>

  /** One probe: the run of `ProbeCommand(url)`, and what `json.loads` made
      of its standard output (`None` when it raised). */
  datatype Probe = Probe(run: Run, parsed: Option<Record>)

  /** What a probe function did: the command it ran, and what it returned. */
  datatype Probed<T> = Probed(command: seq<string>, value: T)

  /** The probe got as far as a parsed record: the run exited with 0 (with
      `check=True` any other status raises) and its output parsed. */
  predicate Parsed(p: Probe)
  {
    Succeeded(p.run) && p.parsed.Some?
  }

  /** `get_video_duration(url)`: runs the probe command for `url`; the
      `duration` field when it is present and not `null`; -1 when it is
      missing or `null`, and -1 on any failure. */
  function GetVideoDuration(url: string, p: Probe): (r: Probed<int>)
    ensures r.command == ProbeCommand(url) && r.command[|r.command| - 1] == url
    ensures !Parsed(p) ==> r.value == -1
    ensures Parsed(p) && "duration" !in p.parsed.value ==> r.value == -1
    ensures Parsed(p) && "duration" in p.parsed.value && p.parsed.value["duration"].None? ==> r.value == -1
    ensures Parsed(p) && "duration" in p.parsed.value && p.parsed.value["duration"].Some? ==>
      r.value == p.parsed.value["duration"].value
  {
    var command := ProbeCommand(url);
    if !Parsed(p) then Probed(command, -1)
    else
      // `info.get("duration")` is `None` both for a missing key and for `null`
      var duration := if "duration" in p.parsed.value then p.parsed.value["duration"] else None;
      Probed(command, if duration.None? then -1 else duration.value)
  }

  /** `validate_youtube_exists(url)`: runs the probe command for `url`; true
      exactly when the parsed record has the key `duration`, whatever its
      value; false on any failure. */
  function ValidateYoutubeExists(url: string, p: Probe): (r: Probed<bool>)
    ensures r.command == ProbeCommand(url) && r.command[|r.command| - 1] == url
    ensures r.value <==> Parsed(p) && "duration" in p.parsed.value
  {
    Probed(ProbeCommand(url), Parsed(p) && "duration" in p.parsed.value)
  }

  /** Both functions run the same command for a URL, so one observed run
      serves for both. */
  lemma ProbesShareCommand(url: string, p: Probe)
    ensures GetVideoDuration(url, p).command == ValidateYoutubeExists(url, p).command
    ensures GetVideoDuration(url, p).command[..|YtDlpCmd|] == YtDlpCmd
  {
  }

  /** A duration other than -1 comes from a record that validates. */
  lemma KnownDurationExists(url: string, p: Probe)
    requires GetVideoDuration(url, p).value != -1
    ensures ValidateYoutubeExists(url, p).value
    ensures p.parsed.value["duration"] == Some(GetVideoDuration(url, p).value)
  {
  }

  /** A video that does not validate has duration -1. */
  lemma MissingVideoHasNoDuration(url: string, p: Probe)
    requires !ValidateYoutubeExists(url, p).value
    ensures GetVideoDuration(url, p).value == -1
  {
  }

  /** A record with `"duration": null` validates as existing but its duration
      is -1, so -1 alone does not tell a missing video from an unknown length. */
  lemma NullDurationExists(url: string, run: Run, info: Record)
    requires Succeeded(run) && "duration" in info && info["duration"] == None
    ensures ValidateYoutubeExists(url, Probe(run, Some(info))).value
    ensures GetVideoDuration(url, Probe(run, Some(info))).value == -1
  {
  }

  /** A run that did not exit with 0 yields -1 and "does not exist",
      whatever its output would have parsed to. */
  lemma FailedProbe(url: string, run: Run, parsed: Option<Record>)
    requires !Succeeded(run)
    ensures GetVideoDuration(url, Probe(run, parsed)).value == -1
    ensures !ValidateYoutubeExists(url, Probe(run, parsed)).value
  {
  }
}
