/** The request handlers of the streaming server (app3.py): downloading
    into a fresh temp directory, separating it into two stems, answering
    with two stream URLs, and resolving a stream URL back to a file inside
    the workspace. */
module Server {
  import opened Common
  import opened Paths
  import opened Proc
  import opened Workspace

  /** The yt-dlp binary the server runs as `user1`. */
  const YtDlpBinary: string := "/home/user1/.local/bin/yt-dlp"

  /** An exception raised inside `process_audio`'s `try` block. */
  datatype Raised = Http(http: HttpError) | Other(text: string)

  /** `str(e)` of such an exception. */
  function ExceptionText(e: Raised): string
  {
    match e
    case Http(h) => HttpErrorText(h)
    case Other(t) => t
  }

  // ---------------------------------------------------------------------
  // download_audio_temp
  // ---------------------------------------------------------------------

  /** The file name the server asks yt-dlp to write. */
  const DownloadName: string := "input.mp3"

  /** `download_audio_temp`'s yt-dlp command for `url` into `tempDir`. */
  function DownloadTempCommand(url: string, tempDir: string): seq<string>
  {
    ["sudo", "-u", "user1", YtDlpBinary, "--cookies-from-browser", "chrome",
     "-x", "--audio-format", "mp3", "-o", Join(tempDir, DownloadName), url]
  }

  /** `download_audio_temp(url, temp_dir)`: on exit status 0 it returns the
      path it passed to `-o`; a non-zero status becomes a 500 whose detail
      carries yt-dlp's standard error. No timeout is set, so the run exits. */
  function DownloadAudioTemp(url: string, tempDir: string, run: Run): (r: Result<string, HttpError>)
    requires run.Exited?
    ensures r.Ok? <==> Succeeded(run)
    ensures r.Err? ==> r.error == HttpError(500, "Audio download failed: " + run.stderr)
  {
    match CheckedRun(DownloadTempCommand(url, tempDir), run, 0)
    case Ok(_) => Ok(Join(tempDir, DownloadName))
    case Err(e) => Err(HttpError(500, "Audio download failed: " + e.stderr))
  }

  /** The path `download_audio_temp` returns is the one its command passes to
      yt-dlp's `-o`, and the URL is the command's last argument. */
  lemma DownloadTempReturnsOutput(url: string, tempDir: string, run: Run)
    requires Succeeded(run)
    ensures var cmd := DownloadTempCommand(url, tempDir);
      && DownloadAudioTemp(url, tempDir, run) == Ok(Join(tempDir, DownloadName))
      && ValueAfter(cmd, "-o") == Some(Join(tempDir, DownloadName))
      && cmd[|cmd| - 1] == url
  {
    ValueAfterAt(DownloadTempCommand(url, tempDir), "-o", 9);
  }

  // ---------------------------------------------------------------------
  // spleeter_separate
  // ---------------------------------------------------------------------

  /** What the separator did when asked to split a file into a directory:
      it raised, or it returned, leaving the file system as given. */
  datatype Separation = SeparationRaised(message: string) | SeparationWrote(files: map<string, seq<byte>>)

  /** Where Spleeter writes the stem `stem` of `audioPath` under `tempDir`:
      `temp_dir/<file name without extension>/<stem>`. */
  function StemPath(audioPath: string, tempDir: string, stem: string): string
  {
    Join3(tempDir, Stem(Basename(audioPath)), stem)
  }

  /** `spleeter_separate(audio_path, temp_dir)`: after the separator has run,
      returns the vocals and accompaniment paths if both files exist, and
      raises a 500 otherwise; an exception from the separator propagates. */
  function SpleeterSeparate(audioPath: string, tempDir: string, sep: Separation): (r: Result<(string, string), Raised>)
    ensures sep.SeparationRaised? ==> r == Err(Other(sep.message))
    ensures sep.SeparationWrote? ==>
      var vocals := StemPath(audioPath, tempDir, "vocals.wav");
      var accompaniment := StemPath(audioPath, tempDir, "accompaniment.wav");
      && (r.Ok? <==> vocals in sep.files && accompaniment in sep.files)
      && (r.Ok? ==> r.value == (vocals, accompaniment))
      && (r.Err? ==> r.error == Http(HttpError(500, "Separated files not found.")))
  {
    match sep
    case SeparationRaised(m) => Err(Other(m))
    case SeparationWrote(files) =>
      var baseName := Stem(Basename(audioPath));
      var vocalPath := Join3(tempDir, baseName, "vocals.wav");
      var accompanimentPath := Join3(tempDir, baseName, "accompaniment.wav");
      if !(vocalPath in files && accompanimentPath in files) then
        Err(Http(HttpError(500, "Separated files not found.")))
      else
        Ok((vocalPath, accompanimentPath))
  }

  // ---------------------------------------------------------------------
  // process_audio
  // ---------------------------------------------------------------------

  /** The JSON body `process_audio` answers with. */
  datatype StreamUrls = StreamUrls(vocal: string, accompaniment: string)

  /** What one `process_audio` request did: its answer, and the directories
      it removed with `shutil.rmtree` before answering. */
  datatype ProcessOutcome = ProcessOutcome(response: Result<StreamUrls, HttpError>, removed: seq<string>)

  /** The stream URL of one track of a workspace. */
  function StreamUrl(trackType: string, tempDir: string, baseName: string): string
  {
    "/stream/" + trackType + "/" + Basename(tempDir) + "/" + baseName
  }

  /** `process_audio(youtube)` in the fresh directory `tempDir`: downloads,
      separates, and answers with the two stream URLs; any exception removes
      `tempDir` at once and becomes a 500 carrying the exception's text. */
  function ProcessAudio(url: string, tempDir: string, download: Run, sep: Separation): (r: ProcessOutcome)
    requires download.Exited?
    ensures r.response.Err? <==> r.removed == [tempDir]
    ensures r.response.Ok? <==> r.removed == []
    ensures r.response.Err? ==> r.response.error.status == 500
  {
    match DownloadAudioTemp(url, tempDir, download)
    case Err(e) => Failed(tempDir, Http(e))
    case Ok(inputAudio) =>
      match SpleeterSeparate(inputAudio, tempDir, sep)
      case Err(e) => Failed(tempDir, e)
      case Ok(_) =>
        var baseName := Stem(Basename(inputAudio));
        ProcessOutcome(Ok(StreamUrls(StreamUrl("vocal", tempDir, baseName),
                                     StreamUrl("accompaniment", tempDir, baseName))), [])
  }

  /** The `except` branch of `process_audio`. */
  function Failed(tempDir: string, e: Raised): ProcessOutcome
  {
    ProcessOutcome(Err(HttpError(500, ExceptionText(e))), [tempDir])
  }

  // ---------------------------------------------------------------------
  // stream_audio
  // ---------------------------------------------------------------------

  /** `filename_map`: the file each track type names. */
  function TrackFile(trackType: string): Option<string>
  {
    if trackType == "vocal" then Some("vocals.wav")
    else if trackType == "accompaniment" then Some("accompaniment.wav")
    else None
  }

  /** The route `/stream/{track_type}/{temp_id}/{base_name}`: a path matches
      when it has exactly those segments, each parameter non-empty. */
  function MatchStreamRoute(path: string): (r: Option<(string, string, string)>)
    ensures r.Some? ==> path == Unsplit(["", "stream", r.value.0, r.value.1, r.value.2])
  {
    var s := Segments(path);
    if |s| == 5 && s[0] == "" && s[1] == "stream" && s[2] != "" && s[3] != "" && s[4] != "" then
      UnsplitSegments(path);
      assert s == ["", "stream", s[2], s[3], s[4]];
      Some((s[2], s[3], s[4]))
    else
      None
  }

  /** Joining a path's segments back with `/` gives the path. */
  lemma {:induction false} UnsplitSegments(s: string)
    ensures Unsplit(Segments(s)) == s
    decreases |s|
  {
    if !NoSep(s) {
      var i := Find(s, Sep);
      UnsplitSegments(s[i + 1..]);
      assert s == s[..i] + [Sep] + s[i + 1..];
    }
  }

  /** What `stream_audio` streams: a file, and the directory whose cleanup
      the stream triggers at its end. */
  datatype StreamTarget = StreamTarget(filePath: string, cleanupDir: string)

  /** `stream_audio(track_type, temp_id, base_name)` with the system temp
      directory `tmpRoot`: an unknown track type is a 400 before any lookup;
      a missing file is a 404; otherwise the file
      `tmpRoot/temp_id/base_name/<track file>` is streamed and
      `tmpRoot/temp_id` is cleaned up afterwards. */
  function StreamAudio(tmpRoot: string, files: map<string, seq<byte>>, trackType: string, tempId: string, baseName: string)
    : (r: Result<StreamTarget, HttpError>)
    ensures TrackFile(trackType).None? ==> r == Err(HttpError(400, "Invalid track type"))
    ensures TrackFile(trackType).Some? ==>
      var filePath := Join3(Join(tmpRoot, tempId), baseName, TrackFile(trackType).value);
      && (r.Err? <==> filePath !in files)
      && (r.Err? ==> r.error == HttpError(404, "File not found."))
      && (r.Ok? ==> r.value == StreamTarget(filePath, Join(tmpRoot, tempId)))
  {
    match TrackFile(trackType)
    case None => Err(HttpError(400, "Invalid track type"))
    case Some(fileName) =>
      var tempBase := Join(tmpRoot, tempId);
      var filePath := Join3(tempBase, baseName, fileName);
      if filePath !in files then Err(HttpError(404, "File not found."))
      else Ok(StreamTarget(filePath, tempBase))
  }

  /** A `GET` on the stream route: resolve with `stream_audio`, then, if
      that succeeded, run the streaming generator. Errors raised while
      resolving never trigger a cleanup; a started stream triggers exactly
      one, of the workspace directory. */
  method HandleStream(tmpRoot: string, files: map<string, seq<byte>>, trackType: string, tempId: string, baseName: string,
                      abortAfter: Option<nat>)
    returns (r: Result<StreamRun, HttpError>)
    ensures StreamAudio(tmpRoot, files, trackType, tempId, baseName).Err? <==> r.Err?
    ensures r.Err? ==> r.error.status == 400 || r.error.status == 404
    ensures r.Ok? ==> r.value.cleanups == [Join(tmpRoot, tempId)]
    ensures r.Ok? && r.value.end == Exhausted ==>
      Concat(r.value.chunks) == files[StreamAudio(tmpRoot, files, trackType, tempId, baseName).value.filePath]
  {
    var target := StreamAudio(tmpRoot, files, trackType, tempId, baseName);
    if target.Err? {
      return Err(target.error);
    }
    var run := StreamFileAndCleanup(files, target.value.filePath, target.value.cleanupDir, abortAfter);
    r := Ok(run);
  }

  // ---------------------------------------------------------------------
  // The URLs process_audio answers with resolve to the separated files
  // ---------------------------------------------------------------------

  /** The downloaded file's stem is `input`, wherever the workspace is. */
  lemma InputStem(tempDir: string)
    ensures Stem(Basename(Join(tempDir, DownloadName))) == "input"
  {
    BasenameOfJoin(tempDir, DownloadName);
    StemOfInputMp3();
  }

  /** On success, `process_audio` answers with the URLs of the `input`
      stems of the workspace, and the separation wrote both stem files. */
  lemma ProcessSuccess(url: string, tempDir: string, download: Run, sep: Separation)
    requires download.Exited?
    requires ProcessAudio(url, tempDir, download, sep).response.Ok?
    ensures Succeeded(download) && sep.SeparationWrote?
    ensures SpleeterSeparate(Join(tempDir, DownloadName), tempDir, sep)
         == Ok((Join3(tempDir, "input", "vocals.wav"), Join3(tempDir, "input", "accompaniment.wav")))
    ensures ProcessAudio(url, tempDir, download, sep).response.value
         == StreamUrls(StreamUrl("vocal", tempDir, "input"), StreamUrl("accompaniment", tempDir, "input"))
  {
    var inputAudio := Join(tempDir, DownloadName);
    InputStem(tempDir);
    var dl := DownloadAudioTemp(url, tempDir, download);
    assert dl.Ok?;
    assert dl.value == inputAudio;
    var sp := SpleeterSeparate(inputAudio, tempDir, sep);
    assert sp.Ok?;
  }

  /** When the temp directory lies directly under the system temp directory
      (as `tempfile.mkdtemp()` creates it), each URL that `process_audio`
      answers with matches the stream route, and `stream_audio` resolves it
      to exactly the file `spleeter_separate` returned for that track, with
      the temp directory as the cleanup target. */
  lemma ProcessUrlsResolve(tmpRoot: string, name: string, url: string, download: Run, sep: Separation)
    requires name != "" && NoSep(name) && download.Exited?
    requires ProcessAudio(url, Join(tmpRoot, name), download, sep).response.Ok?
    ensures sep.SeparationWrote?
    ensures MatchStreamRoute(ProcessAudio(url, Join(tmpRoot, name), download, sep).response.value.vocal)
         == Some(("vocal", name, "input"))
    ensures MatchStreamRoute(ProcessAudio(url, Join(tmpRoot, name), download, sep).response.value.accompaniment)
         == Some(("accompaniment", name, "input"))
    ensures StreamAudio(tmpRoot, sep.files, "vocal", name, "input")
         == Ok(StreamTarget(SpleeterSeparate(Join(Join(tmpRoot, name), DownloadName), Join(tmpRoot, name), sep).value.0, Join(tmpRoot, name)))
    ensures StreamAudio(tmpRoot, sep.files, "accompaniment", name, "input")
         == Ok(StreamTarget(SpleeterSeparate(Join(Join(tmpRoot, name), DownloadName), Join(tmpRoot, name), sep).value.1, Join(tmpRoot, name)))
  {
    var tempDir := Join(tmpRoot, name);
    ProcessSuccess(url, tempDir, download, sep);
    TrackTypesNoSep();
    StreamUrlMatches("vocal", tmpRoot, name);
    StreamUrlMatches("accompaniment", tmpRoot, name);
  }

  /** The track types hold no separator, so each is one URL segment. */
  lemma TrackTypesNoSep()
    ensures NoSep("vocal") && NoSep("accompaniment")
  {
  }

  /** The URL of a track of the workspace `tmpRoot/name` matches the stream
      route with that track type, `name` and the base name `input`. */
  lemma StreamUrlMatches(trackType: string, tmpRoot: string, name: string)
    requires trackType != "" && NoSep(trackType) && name != "" && NoSep(name)
    ensures MatchStreamRoute(StreamUrl(trackType, Join(tmpRoot, name), "input")) == Some((trackType, name, "input"))
  {
    BasenameOfJoin(tmpRoot, name);
    UrlSegments(trackType, name, "input");
  }

  /** A stream URL splits into its route segments. */
  lemma UrlSegments(trackType: string, tempId: string, baseName: string)
    requires NoSep(trackType) && NoSep(tempId) && NoSep(baseName)
    requires trackType != "" && tempId != "" && baseName != ""
    ensures MatchStreamRoute("/stream/" + trackType + "/" + tempId + "/" + baseName) == Some((trackType, tempId, baseName))
  {
    var parts := ["", "stream", trackType, tempId, baseName];
    assert Unsplit(parts[3..]) == tempId + "/" + baseName by {
      assert parts[3..][1..] == [baseName];
    }
    assert Unsplit(parts[2..]) == trackType + "/" + tempId + "/" + baseName by {
      assert parts[2..][1..] == parts[3..];
    }
    assert Unsplit(parts[1..]) == "stream/" + trackType + "/" + tempId + "/" + baseName by {
      assert parts[1..][1..] == parts[2..];
    }
    assert Unsplit(parts) == "/stream/" + trackType + "/" + tempId + "/" + baseName;
    SegmentsUnsplit(parts);
  }

  /** `process_audio` fails exactly when the download or the separation
      fails, and every failure removes the temp directory at once. */
  lemma ProcessFailsIff(url: string, tempDir: string, download: Run, sep: Separation)
    requires download.Exited?
    ensures
      var out := ProcessAudio(url, tempDir, download, sep);
      && (out.response.Err? <==>
            !Succeeded(download) || SpleeterSeparate(Join(tempDir, DownloadName), tempDir, sep).Err?)
      && (out.response.Err? ==> out.removed == [tempDir])
  {
  }

  /** A failed download answers 500 with the text of the `HTTPException`
      that `download_audio_temp` raised: `"500: Audio download failed: "`
      and yt-dlp's standard error. */
  lemma DownloadFailureDetail(url: string, tempDir: string, download: Run, sep: Separation)
    requires download.Exited? && !Succeeded(download)
    ensures ProcessAudio(url, tempDir, download, sep).response
         == Err(HttpError(500, "500: " + ("Audio download failed: " + download.stderr)))
  {
    var dl := DownloadAudioTemp(url, tempDir, download);
    var detail := "Audio download failed: " + download.stderr;
    assert dl.error == HttpError(500, detail);
    assert ProcessAudio(url, tempDir, download, sep) == Failed(tempDir, Http(dl.error));
    HttpErrorText500(detail);
  }

  /** A failed separation answers 500 with the text of what
      `spleeter_separate` raised. */
  lemma SeparationFailureDetail(url: string, tempDir: string, download: Run, sep: Separation)
    requires Succeeded(download)
    requires SpleeterSeparate(Join(tempDir, DownloadName), tempDir, sep).Err?
    ensures ProcessAudio(url, tempDir, download, sep).response
         == Err(HttpError(500, ExceptionText(SpleeterSeparate(Join(tempDir, DownloadName), tempDir, sep).error)))
  {
    assert DownloadAudioTemp(url, tempDir, download) == Ok(Join(tempDir, DownloadName));
  }
}
