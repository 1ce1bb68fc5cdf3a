# Karaoke separation and voice-conversion back end, modelled in Dafny

The system downloads the audio of a YouTube video with yt-dlp and splits it
into a vocal stem and an accompaniment stem with Spleeter. It serves both stems
over HTTP as streams and removes each request's temporary directory once a
stream has been served. Two Streamlit pages sit beside the server:

- one trains an RVC voice model by running the preprocess, extraction, train
  and index scripts in order;
- one converts an uploaded vocal with a trained model and mixes the result
  with the matching accompaniment using ffmpeg.

This project models the logic of those programs and proves what they promise.
The modules are:

- `Common`: Option and Result, Python's `str()` of an integer, and the text of
  an `HTTPException`.
- `Paths`: `os.path.join`, `basename`, `splitext` and `str.replace`, plus the
  splitting of a URL path into segments.
- `Proc`: how a `subprocess.run` ended, what `check=True` and a timeout make of
  that, and the text of a `CalledProcessError`. It also provides the option
  lists the scripts receive and a reading of an argument vector (`ValueAfter`,
  `Lookup`) that states what a script finds in them.
- `Workspace`: the state the server keeps between requests.
  - `CleanupRegistry` is a class for `deleted_dirs` and `safe_cleanup`.
  - `SeparatorHolder` is a class for the `get_or_create_separator` singleton.
  - The 1 MiB read loop of the stream generator is a method with its
    invariants, proved against the function `Chunks`.
- `Server`: the handlers of app3.py. It covers the download into the temporary
  directory, the separation and the paths it must produce, and the
  `process_audio` response or failure. It also covers `stream_audio`'s answer
  of 400, 404 or a file. The round trip is proved: the two URLs that
  `process_audio` returns match the stream route and resolve to exactly the
  files the separation produced.
- `YouTube`: the metadata probe of youtube_utils.py, with the duration (or -1)
  and the "video exists" check.
- `AudioUtils`: the download of audio_utils.py, with its template, its command,
  its 30-second timeout and its first-`.mp3` loop. It also covers the stem
  paths of `separate_audio`.
- `Training`: the four stage runners of trainstream.py, with their exact
  commands and status lines. It covers the conversion of "True" to the flags
  1 and 0, and the selection of the pretrained models with its `ValueError`
  and `KeyError`. It also covers the button handler, whose stages run in order
  and show their status lines.
- `Inference`: streaminfer.py's inference command and its result rule, the
  ffmpeg mix and its result rule, and the naming of the outputs and of the
  accompaniment. It also states that the mix runs only when conversion
  returned a path.

The real I/O is taken as parameters, each value standing for what the
operation observed:

- the outcome of each external command (`Run`: exit code and standard error,
  or a timeout);
- the directory listing;
- the files on disk (a map from path to bytes);
- what Spleeter wrote;
- the parsed yt-dlp JSON;
- the pretrained-model table;
- the configuration (`Env`: logs directory, half precision, device).

## Model

| member | source | states |
|---|---|---|
| Common.IntToString | trainstream.py:104-106 | `str()` of an integer is non-empty. For `n >= 0` it is all decimal digits and they denote `n`; for `n < 0` it is `-` followed by `str(-n)` |
| Common.StatusTexts | app3.py:139 | the statuses 400, 404 and 500 print as "400", "404" and "500" |
| Common.HttpErrorText500 | app3.py:139 | `str()` of a 500 `HTTPException` is "500: " followed by its detail |
| Paths.Join | app3.py:47 | `os.path.join(a, b)` ends with `b`, and starts with `a` unless `b` is absolute |
| Paths.JoinAll | trainstream.py:18 | joining several parts ends with the last part |
| Paths.Basename | app3.py:81 | `basename` has no separator and is a suffix of the path |
| Paths.Splitext | app3.py:81 | `splitext` splits the path into root and extension, which concatenate back to the path. The extension is empty, or starts with a dot and has no separator; a leading-dot name has no extension |
| Paths.Segments | app3.py:141 | splitting a URL path on `/` gives at least one segment, none containing `/` |
| Paths.BasenameOfJoin | app3.py:132 | the base name of `join(d, n)` is `n` for a non-empty `n` without separators |
| Paths.BasenameOfName | audio_utils.py:46 | a name without separators is its own base name |
| Paths.SplitextOfName | app3.py:128 | `splitext(x + "." + e)` is `(x, "." + e)` when `e` has no dot and `x` is not all dots |
| Paths.StemNonEmpty | app3.py:128 | the root of a non-empty path is non-empty |
| Paths.StemNoSep | audio_utils.py:46-47 | the root of a name without separators has no separators |
| Paths.StemOfInputMp3 | app3.py:128 | the root of `input.mp3` is `input` |
| Paths.ReplaceAbsent | streaminfer.py:116 | `replace` leaves a string that does not contain the pattern unchanged |
| Paths.ReplaceTrailing | streaminfer.py:116 | `(x + pat).replace(pat, "")` is `x` whenever `x` does not contain `pat` and `pat` does not repeat its first character (as `_vocals` does not) |
| Paths.SegmentsUnsplit | app3.py:141 | splitting the `/`-join of separator-free segments gives the segments back |
| Proc.CheckedRun | audio_utils.py:22-30 | `subprocess.run(check=True, timeout=n)` succeeds iff the command exited with 0. A non-zero exit raises `CalledProcessError` with that code and command; a timeout raises `TimeoutExpired` with the command and `n` |
| Proc.ValueAfter | app3.py:54 | the argument following the first occurrence of a flag, none when the flag is absent. The yt-dlp download commands pass `-o` once; the train command is read with `Lookup` over distinct flags; in the ffmpeg mix, which repeats `-i`, the first occurrence is meant, as the first input |
| Proc.ValueAfterAt | app3.py:54 | the value after a flag's first occurrence at `i` is argument `i + 1` |
| Proc.Flatten | trainstream.py:124-154 | writing options out as `-flag value` puts flag `k` at `2k` and its value at `2k + 1` |
| Proc.PairsFlatten | trainstream.py:124-154 | reading a written-out option list back as pairs gives the options back |
| Proc.LookupAt | trainstream.py:126-153 | looking a flag up finds the value of its first occurrence |
| Proc.Keys | trainstream.py:126-153 | the flags of an option list, position by position |
| Workspace.Removals | app3.py:93-101 | the directories a sequence of `safe_cleanup` calls removes: each one once, and exactly those called and not already marked deleted |
| Workspace.RemovedAtMostOnce | app3.py:93-101 | every directory is removed once if it was called for and not already marked; otherwise it is never removed |
| Workspace.FirstCallRemoves | app3.py:95-101 | the first call for an unmarked directory removes it |
| Workspace.LaterCallSkips | app3.py:95-96 | a call for a directory already marked removes nothing |
| Workspace.CleanupRegistry.constructor | app3.py:90 | `deleted_dirs` starts empty, and nothing has been called or removed |
| Workspace.CleanupRegistry.SafeCleanup | app3.py:93-101 | the call is recorded and its directory is marked deleted. On the first call for it the tree is removed from the files; otherwise nothing else changes |
| Workspace.RemoveTree | app3.py:101 | `rmtree(dir)` keeps exactly the files not under `dir`, with their contents unchanged |
| Workspace.Separator.constructor | app3.py:68 | a separator carries the configuration it was built with |
| Workspace.SeparatorHolder.constructor | app3.py:22 | there is no instance at module load |
| Workspace.SeparatorHolder.GetOrCreate | app3.py:67-75 | the first call builds one `spleeter:2stems` separator; every later call returns that same instance without building another |
| Workspace.Chunks | app3.py:107 | successive 1 MiB reads cut the file into non-empty chunks of at most 1 MiB, all full but the last, which concatenate to the file |
| Workspace.Read | app3.py:107 | `f.read(n)` at a position returns the next at most `n` bytes, and is empty exactly at the end of the file |
| Workspace.Taken | app3.py:107-108 | a client that stops after `k` chunks takes fewer than all exactly when `k` is below the total |
| Workspace.StreamFileAndCleanup | app3.py:103-111 | the generator yields the file's first chunks in order and ends with all of them (the whole file) or when the client stops. When the file cannot be opened it yields nothing. It triggers the cleanup of its directory exactly once in every case |
| Workspace.ReadChunks | app3.py:106-108 | the read loop yields the first `Taken` chunks, and ends by exhausting the file exactly when it yielded all of them |
| Workspace.ReadAdvances | app3.py:107-108 | one more read keeps the yielded chunks a prefix of the file's chunking |
| Workspace.ReadExit | app3.py:107-108 | where the read loop stops, it has yielded the chunks the client took |
| Workspace.YieldedPrefix | app3.py:107-108 | chunks yielded ahead of the rest are the first chunks, hold a prefix of the file, and are the whole file once nothing is left |
| Workspace.ChunksStep | app3.py:107 | one read takes the first chunk of the rest of the file |
| Workspace.ChunkCount | app3.py:107 | a file of `n` bytes streams as `ceil(n / 1 MiB)` chunks |
| Server.DownloadAudioTemp | app3.py:45-64 | the download succeeds iff yt-dlp exited with 0; a failure is a 500 whose detail is "Audio download failed: " and yt-dlp's standard error |
| Server.DownloadTempReturnsOutput | app3.py:47-60 | the path returned is the one passed to yt-dlp's `-o`, and the URL is the last argument |
| Server.SpleeterSeparate | app3.py:77-88 | the result is the two stem paths `temp_dir/<root>/vocals.wav` and `accompaniment.wav` iff both files exist. Otherwise it is a 500 "Separated files not found."; an exception from Spleeter passes through |
| Server.ProcessAudio | app3.py:113-139 | every failure removes the temp directory and answers 500; success removes nothing |
| Server.MatchStreamRoute | app3.py:141 | a path matches `/stream/{track_type}/{temp_id}/{base_name}` only when it is those three parameters joined |
| Server.UnsplitSegments | app3.py:141 | joining a path's segments with `/` gives the path back |
| Server.StreamAudio | app3.py:141-168 | an unknown track type is a 400 "Invalid track type". A missing `tmp/temp_id/base_name/<file>` is a 404 "File not found."; otherwise the answer streams that file and cleans up `tmp/temp_id` |
| Server.HandleStream | app3.py:141-168 | the stream request fails exactly when the resolution does, with 400 or 404. On success the stream cleans up the workspace once and, when read to the end, delivers the whole file |
| Server.InputStem | app3.py:128 | the base name of the downloaded file is `input` |
| Server.ProcessSuccess | app3.py:119-134 | a successful request downloaded and separated into `temp_dir/input/vocals.wav` and `accompaniment.wav`, and answers with the two stream URLs for `input` |
| Server.ProcessUrlsResolve | app3.py:131-161 | the URLs `process_audio` returns match the stream route with `(track, temp id, "input")`. Each resolves through `stream_audio` to exactly the file `spleeter_separate` returned, with the temp directory as cleanup target |
| Server.StreamUrlMatches | app3.py:132-133 | a stream URL built for a temp directory matches the route with that directory's name |
| Server.UrlSegments | app3.py:141 | `/stream/t/i/b` with non-empty separator-free parts matches as `(t, i, b)` |
| Server.ProcessFailsIff | app3.py:119-139 | `process_audio` fails iff the download or the separation fails, and a failure removes the temp directory |
| Server.DownloadFailureDetail | app3.py:135-139 | a failed download answers 500 with "500: Audio download failed: " and yt-dlp's standard error |
| Server.SeparationFailureDetail | app3.py:135-139 | a failed separation answers 500 with the text of what the separation raised |
| YouTube.ProbeCommand | youtube_utils.py:11 | the probe is `YTDLP_CMD` followed by `--skip-download --print-json url` |
| YouTube.GetVideoDuration | youtube_utils.py:10-24 | the command run is `ProbeCommand(url)`, ending with `url`. The duration is the `duration` field when it is present and not null. It is -1 when the field is missing or null, and -1 when the run failed or its output did not parse |
| YouTube.ValidateYoutubeExists | youtube_utils.py:26-34 | the command run is `ProbeCommand(url)`, ending with `url`. The video exists iff the probe succeeded, its output parsed, and the key `duration` is present, whatever its value |
| YouTube.ProbesShareCommand | youtube_utils.py:11-27 | both functions run the same command for a URL, beginning with `YTDLP_CMD` |
| YouTube.KnownDurationExists | youtube_utils.py:16-31 | a duration other than -1 means the video exists and the record carries that duration |
| YouTube.MissingVideoHasNoDuration | youtube_utils.py:16-31 | a video that does not exist has duration -1 |
| YouTube.NullDurationExists | youtube_utils.py:16-31 | a null duration exists yet reads as -1 |
| YouTube.FailedProbe | youtube_utils.py:12-34 | a probe that did not exit with 0 gives -1 and "does not exist" |
| AudioUtils.OutputTemplate | audio_utils.py:7 | the template's base name is `input.%(ext)s` and it begins with `temp_dir`; for a `temp_dir` without a trailing separator it is exactly `temp_dir/input.%(ext)s` |
| AudioUtils.DownloadCommandShape | audio_utils.py:10-17 | the command is `YTDLP_CMD`, then `-x --audio-format mp3`, with the template after `-o` and the URL last |
| AudioUtils.DownloadAudio | audio_utils.py:5-38 | a timeout or non-zero exit is re-raised unchanged. Otherwise the result is `temp_dir` joined with the first `.mp3` in listing order, and `FileNotFoundError` with its message iff there is none |
| AudioUtils.SeparateAudio | audio_utils.py:41-53 | the two paths are named `vocals.wav` and `accompaniment.wav` and begin with `temp_dir`; for a `temp_dir` without a trailing separator they begin with `temp_dir/`, so they lie inside it |
| AudioUtils.StemDirUnder | audio_utils.py:46-47 | `temp_dir/<root>` begins with `temp_dir`, and with `temp_dir/` when `temp_dir` has no trailing separator |
| AudioUtils.StemPathsUnder | audio_utils.py:49-50 | the stem files are named `vocals.wav` and `accompaniment.wav` and keep any prefix of their directory |
| AudioUtils.SeparateAudioAgreesWithServer | audio_utils.py:46-53 | `separate_audio` names the same two files that the server's separation checks and returns |
| AudioUtils.SeparateDownloaded | audio_utils.py:32-53 | for the downloaded `name.mp3` the stems are `temp_dir/name/vocals.wav` and `accompaniment.wav` |
| AudioUtils.Mp3Name | audio_utils.py:33 | `name.mp3` passes the `.mp3` test and has root `name` |
| Training.FailureLine | trainstream.py:38 | a status line built on an "Error" head is an error status |
| Training.SuccessLine | trainstream.py:36 | a status line whose first character is not `E`, such as "Model ..." or "Index file for ...", is not an error status |
| Training.RunPreprocess | trainstream.py:16-38 | creates the model directory, then runs the preprocess command. The status is the success line iff the run exited with 0, and otherwise the "Error in preprocessing model" line with the `CalledProcessError` text |
| Training.RunExtract | trainstream.py:41-85 | runs the f0 command, then the feature command only if the f0 command succeeded, then writes the config and file list only if both succeeded. The status is the success line iff both succeeded, else the error line of the failing command |
| Training.Flag | trainstream.py:104-106 | a flag is 1 iff its text is "True", and 0 otherwise |
| Training.SelectPretrained | trainstream.py:108-118 | not pretrained gives `("", "")`. Non-custom looks up `table[f0][version][rate]` with the rate as the Python value passed (an `int` key and a `str` key differ), with a `KeyError` for the missing key. Custom needs both paths, else `ValueError` with its message |
| Training.TrainCommandPairs | trainstream.py:120-155 | the train command after the script reads back as exactly its option pairs |
| Training.TrainFlagsInOrder | trainstream.py:126-153 | the thirteen flags appear in their fixed order |
| Training.TrainFlagsFound | trainstream.py:131-153 | in that flag order, `-pg`, `-pd`, `-e` and `-f0` are found at their own positions |
| Training.TrainOptionsFound | trainstream.py:131-153 | the trainer reads the selected pretrained pair, the model directory and the 1/0 pitch flag |
| Training.RunTrain | trainstream.py:88-161 | a failed selection raises before anything runs. Otherwise the train command runs, and the status is the success line iff it exited with 0, else the error line |
| Training.RunIndex | trainstream.py:164-177 | runs the index command; the status is the success line iff it exited with 0, else the error line |
| Training.StagesShareModelDir | trainstream.py:25-169 | all four stages work on the same `logs/<model>` directory |
| Training.StartTraining | trainstream.py:201-233 | the page shows four status lines. When the pretrained selection raised it shows three, the last an error box with "An error occurred during the process: " and the exception's text |
| Training.UiTrainSelection | trainstream.py:190-219 | the page trains with pitch flag 1, keeps every checkpoint (0), saves the weights (1), and looks the pretrained pair up under `v2` and the string key `"48000"`. It raises a `KeyError` when the table has no `v2`, or no string key `"48000"` under it |
| Training.IntKeyedTableStops | trainstream.py:190-232 | against a table whose `v2` rates are all `int` keys, a press shows the preprocess and extraction lines, then the box `An error occurred during the process: '48000'`; train and index never run |
| Training.PlanPrefixExecuted | trainstream.py:78-82 | the commands among a prefix of the extraction plan are the first one, or the first two |
| Training.ExtractExecuted | trainstream.py:78-82 | extraction runs the f0 command, and the feature command only after f0 succeeded |
| Training.StagesRunInOrder | trainstream.py:201-229 | the commands run in order: preprocess, f0, feature (only if f0 succeeded), train, index |
| Training.StatusLinesShown | trainstream.py:205-227 | the page writes the four stages' status lines in stage order |
| Inference.InferCommandReorders | streaminfer.py:8-30 | the command is `python infer.py` followed by the 16 parameters, each at the position the command passes it in |
| Inference.InferCommandPermutes | streaminfer.py:12-30 | the command passes every parameter exactly once |
| Inference.RunInfer | streaminfer.py:31-46 | returns the output path iff the run exited with 0 and the output file exists |
| Inference.MixAudio | streaminfer.py:48-67 | returns the output path iff ffmpeg exited with 0 |
| Inference.MixCommandShape | streaminfer.py:53-59 | ffmpeg reads the vocal as the first input, the accompaniment as the second, and writes the output last |
| Inference.OutputPaths | streaminfer.py:98-101 | the outputs are `opt_infer/<name>_converted_vocal.wav` and `opt_infer/<name>_mix_audio.wav`, and they differ |
| Inference.VocalOutputBasename | streaminfer.py:100 | the converted vocal's file name is `<name>_converted_vocal.wav` |
| Inference.AccompanimentOfVocals | streaminfer.py:116-118 | for `x_vocals.ext`, with `x` free of separators and of `_vocals` (underscores allowed, as in `my_song`), the accompaniment base is `x` and the file is `opt_spleeter/x_accompaniment.wav` |
| Inference.AccompanimentOfPlainName | streaminfer.py:116 | a name without `_vocals` keeps its root as the accompaniment's base |
| Inference.Convert | streaminfer.py:96-127 | the inference always runs. The mix runs iff conversion returned a path, reading the vocal output and the matching accompaniment into the final path; the mix is played iff both succeeded |
| Inference.VocalOutputNonEmpty | streaminfer.py:100-114 | the vocal output path is never empty, so a returned path counts as true |
| Inference.FinalOutputNonEmpty | streaminfer.py:101-122 | the final output path is never empty |
| Inference.InferOutputArgument | streaminfer.py:20 | the inference script receives the output path at argument 8 |
| Inference.MixReadsConvertedVocal | streaminfer.py:107-120 | the mix's first input is the path the inference wrote |

## Left out

- Path separators: streaminfer.py and trainstream.py run on Windows, where `os.path.join` uses `\`. Every join here is modelled with `/`, as on the server. The Windows constants are kept as literal strings.
- Concurrency: the asyncio and threading locks, the worker threads and the 60-second sleep before `rmtree` are not modelled. Cleanups take effect in call order.
- Sources of values: `tempfile.mkdtemp`, `tempfile.gettempdir()`, `os.listdir` order, file existence and Spleeter's and yt-dlp's effects on disk all come in as parameters.
- Server.ProcessAudio: does not go through `Workspace.SeparatorHolder`. The outcome of Spleeter is a parameter, and the singleton is modelled on its own.
- Workspace.RemoveTree, Server.StreamAudio: paths are compared as written. `.` and `..` components are not resolved, so a `temp_id` of `..` makes `rmtree` remove the parent of the temporary root, while the model removes only the keys spelled `/tmp/../...`.
- Server.MatchStreamRoute: FastAPI's percent-decoding of path parameters is not modelled.
- The global exception handler of app3.py (lines 25-32) is not modelled. It turns exceptions other than `HTTPException` into a 500, and the modelled handlers only raise `HTTPException`.
- Proc.ErrorText: the text of a `CalledProcessError` for a negative (signal) exit status is not modelled. `ListRepr` does not escape quotes or backslashes inside arguments.
- Training: only `CalledProcessError` is modelled as a stage failure. Exceptions raised by `generate_config` or `generate_filelist`, or by a missing interpreter, are not. The config and file-list writers are effects whose contents are not modelled.
- Training: `config.is_half` and `config.device` are the `Env` parameter, and `pretrained_selector` is the table parameter.
- Training.StartTraining: the timing lines (`time.time()`) are not modelled.
- Floating point: `per`, `index_rate`, `protect` and the other numeric page settings are modelled as the strings `str()` makes of them.
- YouTube: the probes set no timeout, so a hung yt-dlp blocks them indefinitely; the model takes the run's outcome as given and always returns.
- YouTube: the JSON record holds integers and nulls. Float durations and non-object JSON are not modelled.
- Inference.Convert: the Streamlit progress texts and `st.error` messages of `run_infer_script` are not modelled; only its return value is. As written, a failed conversion shows the upload prompt.
- Inference.MixAudio: only `CalledProcessError` is handled, as in the source. A missing ffmpeg binary (`FileNotFoundError`) is not modelled.
- Not part of this model: celery_task.py, celery_worker.py, app.py, storage_utils.py and mytts.py.
