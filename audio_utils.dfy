/** The download and separation helpers of audio_utils.py: downloading a
    video's audio into a directory and picking the MP3 it left there, and
    the paths Spleeter writes the two stems to. */
module AudioUtils {
  import opened Common
  import opened Paths
  import opened Proc
  import YouTube
  import Server

  /** The file name template yt-dlp fills in with the real extension. */
  const TemplateName: string := "input.%(ext)s"

  /** A directory path that `os.path.join` extends with a separator. */
  predicate PlainDir(dir: string)
  {
    dir != [] && dir[|dir| - 1] != Sep
  }

  /** The download's output template: `temp_dir` joined with `input.%(ext)s`,
      a file directly inside `temp_dir`. */
  function OutputTemplate(tempDir: string): (t: string)
    ensures Basename(t) == TemplateName
    ensures StartsWith(t, tempDir)
    ensures PlainDir(tempDir) ==> t == tempDir + "/" + TemplateName
  {
    assert NoSep(TemplateName) by {
      assert forall i :: 0 <= i < |TemplateName| ==> TemplateName[i] != Sep;
    }
    BasenameOfJoin(tempDir, TemplateName);
    Join(tempDir, TemplateName)
  }

  /** `download_audio`'s yt-dlp command: extract the audio as MP3 into the
      output template, the URL last. */
  function DownloadCommand(url: string, tempDir: string): seq<string>
  {
    ["/usr/bin/sudo", "-u", "user1", "/home/user1/.local/bin/yt-dlp", "--cookies-from-browser", "chrome",
     "-x", "--audio-format", "mp3", "-o", OutputTemplate(tempDir), url]
  }

  /** The command starts with the same sudo/yt-dlp prefix the probes use,
      asks for MP3 audio, writes to the output template and ends with the URL. */
  lemma DownloadCommandShape(url: string, tempDir: string)
    ensures var cmd := DownloadCommand(url, tempDir);
      && |cmd| == 12
      && cmd[..6] == YouTube.YtDlpCmd
      && cmd[6..9] == ["-x", "--audio-format", "mp3"]
      && ValueAfter(cmd, "-o") == Some(OutputTemplate(tempDir))
      && cmd[11] == url
  {
    ValueAfterAt(DownloadCommand(url, tempDir), "-o", 9);
  }

  /** The text of the `FileNotFoundError` raised when no MP3 was found. */
  const NoMp3Message: string := "❌ [download_audio] MP3 파일을 찾을 수 없습니다."

  /** What `download_audio` raises: the run's own exception, re-raised
      unchanged, or `FileNotFoundError`. */
  datatype DownloadError = Reraised(error: ProcError) | FileNotFound(message: string)

  /** The listing entry is an MP3 file name. */
  predicate IsMp3(name: string)
  {
    EndsWith(name, ".mp3")
  }

  /** `download_audio(url, temp_dir)`, given the outcome of the yt-dlp run
      (30-second timeout) and the listing of `temp_dir` afterwards: a
      timeout or a non-zero exit is re-raised as it is; otherwise the result
      is `temp_dir` joined with the first MP3 in listing order, and
      `FileNotFoundError` when there is none. */
  method DownloadAudio(url: string, tempDir: string, run: Run, listing: seq<string>)
    returns (r: Result<string, DownloadError>)
    ensures !Succeeded(run) ==> r == Err(Reraised(CheckedRun(DownloadCommand(url, tempDir), run, 30).error))
    ensures Succeeded(run) ==> (r.Ok? <==> exists i :: 0 <= i < |listing| && IsMp3(listing[i]))
    ensures r.Ok? ==> exists i :: 0 <= i < |listing| && IsMp3(listing[i]) && r.value == Join(tempDir, listing[i])
                                  && forall j :: 0 <= j < i ==> !IsMp3(listing[j])
    ensures Succeeded(run) && r.Err? ==> r.error == FileNotFound(NoMp3Message)
  {
    var command := DownloadCommand(url, tempDir);
    var outcome := CheckedRun(command, run, 30);
    if outcome.Err? {
      return Err(Reraised(outcome.error));
    }
    var k := 0;
    while k < |listing|
      invariant 0 <= k <= |listing|
      invariant forall j :: 0 <= j < k ==> !IsMp3(listing[j])
    {
      if IsMp3(listing[k]) {
        return Ok(Join(tempDir, listing[k]));
      }
      k := k + 1;
    }
    return Err(FileNotFound(NoMp3Message));
  }

  /** `separate_audio(audio_path, temp_dir)`: after Spleeter has run, the
      vocals and accompaniment paths under `temp_dir/<audio file stem>`,
      whether or not the files exist. */
  function SeparateAudio(audioPath: string, tempDir: string): (r: (string, string))
    ensures Basename(r.0) == "vocals.wav" && Basename(r.1) == "accompaniment.wav"
    ensures StartsWith(r.0, tempDir) && StartsWith(r.1, tempDir)
    ensures PlainDir(tempDir) ==> StartsWith(r.0, tempDir + "/") && StartsWith(r.1, tempDir + "/")
  {
    var baseName := Stem(Basename(audioPath));
    var outputDir := Join(tempDir, baseName);
    StemDirUnder(audioPath, tempDir);
    StemPathsUnder(outputDir, tempDir);
    var r := (Join(outputDir, "vocals.wav"), Join(outputDir, "accompaniment.wav"));
    if PlainDir(tempDir) then
      StemPathsUnder(outputDir, tempDir + "/");
      r
    else r
  }

  /** The stem's directory `temp_dir/<audio file stem>` begins with
      `temp_dir`, and lies inside it when `temp_dir` has no trailing separator. */
  lemma StemDirUnder(audioPath: string, tempDir: string)
    ensures StartsWith(Join(tempDir, Stem(Basename(audioPath))), tempDir)
    ensures PlainDir(tempDir) ==> StartsWith(Join(tempDir, Stem(Basename(audioPath))), tempDir + "/")
  {
    var baseName := Stem(Basename(audioPath));
    StemNoSep(Basename(audioPath));
    if |baseName| > 0 {
      assert baseName[0] != Sep;
    }
    if PlainDir(tempDir) {
      assert !StartsWith(baseName, "/") by {
        if |baseName| > 0 { assert baseName[..1] == [baseName[0]]; }
      }
      JoinInside(tempDir, baseName);
    }
  }

  /** The two stem files are named `vocals.wav` and `accompaniment.wav` and
      lie under any directory that starts `outputDir`. */
  lemma StemPathsUnder(outputDir: string, tempDir: string)
    requires StartsWith(outputDir, tempDir)
    ensures Basename(Join(outputDir, "vocals.wav")) == "vocals.wav"
    ensures Basename(Join(outputDir, "accompaniment.wav")) == "accompaniment.wav"
    ensures StartsWith(Join(outputDir, "vocals.wav"), tempDir)
    ensures StartsWith(Join(outputDir, "accompaniment.wav"), tempDir)
  {
    assert NoSep("vocals.wav") && NoSep("accompaniment.wav");
    BasenameOfJoin(outputDir, "vocals.wav");
    BasenameOfJoin(outputDir, "accompaniment.wav");
    var v := Join(outputDir, "vocals.wav");
    var a := Join(outputDir, "accompaniment.wav");
    assert v[..|tempDir|] == outputDir[..|tempDir|];
    assert a[..|tempDir|] == outputDir[..|tempDir|];
  }

  /** `separate_audio` names the same two files the server's
      `spleeter_separate` looks for and returns. */
  lemma SeparateAudioAgreesWithServer(audioPath: string, tempDir: string, files: map<string, seq<byte>>)
    ensures SeparateAudio(audioPath, tempDir)
         == (Server.StemPath(audioPath, tempDir, "vocals.wav"), Server.StemPath(audioPath, tempDir, "accompaniment.wav"))
    ensures var sep := Server.SpleeterSeparate(audioPath, tempDir, Server.SeparationWrote(files));
      sep.Ok? ==> sep.value == SeparateAudio(audioPath, tempDir)
  {
  }

  /** For the MP3 `download_audio` picks, `name.mp3` in `temp_dir`, the stems
      are `temp_dir/name/vocals.wav` and `temp_dir/name/accompaniment.wav`. */
  lemma SeparateDownloaded(tempDir: string, name: string)
    requires name != [] && NoSep(name) && !AllDots(name)
    ensures IsMp3(name + ".mp3")
    ensures SeparateAudio(Join(tempDir, name + ".mp3"), tempDir)
         == (Join3(tempDir, name, "vocals.wav"), Join3(tempDir, name, "accompaniment.wav"))
  {
    Mp3Name(name);
    BasenameOfJoin(tempDir, name + ".mp3");
  }

  /** `name.mp3` is an MP3 file name without separators whose stem is `name`. */
  lemma Mp3Name(name: string)
    requires name != [] && NoSep(name) && !AllDots(name)
    ensures IsMp3(name + ".mp3") && NoSep(name + ".mp3")
    ensures Stem(name + ".mp3") == name
  {
    var file := name + ".mp3";
    assert file == name + "." + "mp3";
    assert NoSep(file) by {
      forall i | 0 <= i < |file| ensures file[i] != Sep {
        if i < |name| { assert file[i] == name[i]; }
      }
    }
    assert file[|file| - 4..] == ".mp3";
    assert forall i :: 0 <= i < |"mp3"| ==> "mp3"[i] != '.';
    SplitextOfName(name, "mp3");
  }
}
