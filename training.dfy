/** The voice-model training page (trainstream.py): the four stage runners
    that build an RVC script command, run it and report a status line, and
    the button handler that runs them in order. Every argument is modelled
    as the string `str()` makes of it, which is what reaches the command. */
module Training {
  import opened Common
  import opened Paths
  import opened Proc

  /** The module-level settings the runners read: `logs_path` (the `logs`
      directory next to the script) and the two fields of RVC's `Config`
      they use. */
  datatype Env = Env(logsPath: string, isHalf: bool, device: string)

  /** A side effect of a runner, in the order it happens. */
  datatype Effect =
    | MakeDirs(path: string)
    | Execute(cmd: seq<string>)
    | GenerateConfig(version: string, samplingRate: string, modelPath: string)
    | GenerateFilelist(f0method: string, modelPath: string, version: string, samplingRate: string)

  /** What one runner did, and the status line it returned. */
  datatype StageRun = StageRun(effects: seq<Effect>, status: string)

  /** The experiment directory every stage works in: `logs/<model_name>`. */
  function ModelDir(env: Env, modelName: string): string
  {
    Join(env.logsPath, modelName)
  }

  /** The text of a failed run's `CalledProcessError`. */
  function FailureText(cmd: seq<string>, run: Run): string
    requires run.Exited?
  {
    ErrorText(CalledProcessError(run.code, cmd, run.stderr))
  }

  /** A status line reporting success starts with `Model` or `Index`; one
      reporting a failure starts with `Error`, so the two never coincide. */
  predicate IsErrorStatus(status: string)
  {
    StartsWith(status, "Error")
  }

  /** A line that starts with a word still starts with it once extended. */
  lemma PrefixKept(a: string, b: string, word: string)
    requires StartsWith(a, word)
    ensures StartsWith(a + b, word)
  {
    assert (a + b)[..|word|] == a[..|word|];
  }

  /** A failure line `head + name + sep + text` is an error status when
      `head` spells `Error` first. */
  lemma FailureLine(head: string, name: string, sep: string, text: string)
    requires StartsWith(head, "Error")
    ensures IsErrorStatus(head + name + sep + text)
  {
    PrefixKept(head, name, "Error");
    PrefixKept(head + name, sep, "Error");
    PrefixKept(head + name + sep, text, "Error");
  }

  /** A success line `head + name + tail` is not an error status when `head`
      does not start with an `E`. */
  lemma SuccessLine(head: string, name: string, tail: string)
    requires |head| > 0 && head[0] != 'E'
    ensures !IsErrorStatus(head + name + tail)
  {
    assert (head + name + tail)[0] == head[0];
  }

  /** Every failure line begins with the word `Error`. */
  const ErrorWord: string := "Error"

  /** A head made of the word `Error` and more starts with `Error`. */
  lemma ErrorHead(rest: string)
    ensures StartsWith(ErrorWord + rest, "Error")
  {
    assert (ErrorWord + rest)[..5] == ErrorWord;
  }

  // ---------------------------------------------------------------------
  // Preprocess
  // ---------------------------------------------------------------------

  /** `per`: 3.0 with half precision, 3.7 otherwise. */
  function Per(env: Env): string
  {
    if env.isHalf then "3.0" else "3.7"
  }

  /** The preprocessing command: the script, then the experiment directory,
      the dataset path, the sampling rate and `per`. */
  function PreprocessCommand(env: Env, modelName: string, datasetPath: string, samplingRate: string): seq<string>
  {
    ["python", JoinAll(["rvc", "train", "preprocess", "preprocess.py"]),
     ModelDir(env, modelName), datasetPath, samplingRate, Per(env)]
  }

  /** `run_preprocess_script`: ensures the experiment directory exists, runs
      the command, and reports success or the `CalledProcessError` text. */
  function RunPreprocess(env: Env, modelName: string, datasetPath: string, samplingRate: string, run: Run): (r: StageRun)
    requires run.Exited?
    ensures r.effects == [MakeDirs(ModelDir(env, modelName)), Execute(PreprocessCommand(env, modelName, datasetPath, samplingRate))]
    ensures Succeeded(run) <==> !IsErrorStatus(r.status)
    ensures Succeeded(run) ==> r.status == "Model " + modelName + " preprocessed successfully."
    ensures !Succeeded(run) ==> r.status == ErrorWord + " in preprocessing model " + modelName + ": "
                                            + FailureText(PreprocessCommand(env, modelName, datasetPath, samplingRate), run)
  {
    var cmd := PreprocessCommand(env, modelName, datasetPath, samplingRate);
    if Succeeded(run) then
      SuccessLine("Model ", modelName, " preprocessed successfully.");
      StageRun([MakeDirs(ModelDir(env, modelName)), Execute(cmd)], "Model " + modelName + " preprocessed successfully.")
    else
      ErrorHead(" in preprocessing model ");
      FailureLine(ErrorWord + " in preprocessing model ", modelName, ": ", FailureText(cmd, run));
      StageRun([MakeDirs(ModelDir(env, modelName)), Execute(cmd)],
               ErrorWord + " in preprocessing model " + modelName + ": " + FailureText(cmd, run))
  }

  // ---------------------------------------------------------------------
  // Extract
  // ---------------------------------------------------------------------

  /** `command_1`: pitch (f0) extraction over the experiment directory. */
  function ExtractF0Command(env: Env, modelName: string, f0method: string, hopLength: string): seq<string>
  {
    ["python", JoinAll(["rvc", "train", "extract", "extract_f0_print.py"]),
     ModelDir(env, modelName), f0method, hopLength]
  }

  /** `command_2`: feature extraction on the configured device, one process,
      for the model version, with pitch guidance on. */
  function ExtractFeatureCommand(env: Env, modelName: string, version: string): seq<string>
  {
    ["python", JoinAll(["rvc", "train", "extract", "extract_feature_print.py"]),
     env.device, "1", "0", "0", ModelDir(env, modelName), version, "True"]
  }

  /** Everything `run_extract_script` does when both runs succeed, in order. */
  function ExtractPlan(env: Env, modelName: string, version: string, f0method: string, hopLength: string,
                       samplingRate: string): seq<Effect>
  {
    var modelPath := ModelDir(env, modelName);
    [Execute(ExtractF0Command(env, modelName, f0method, hopLength)),
     Execute(ExtractFeatureCommand(env, modelName, version)),
     GenerateConfig(version, samplingRate, modelPath),
     GenerateFilelist(f0method, modelPath, version, samplingRate)]
  }

  /** `run_extract_script`: the f0 run, then the feature run, then the config
      and file list; the first failing run stops it with its error text. */
  function RunExtract(env: Env, modelName: string, version: string, f0method: string, hopLength: string,
                      samplingRate: string, f0Run: Run, featureRun: Run): (r: StageRun)
    requires f0Run.Exited? && featureRun.Exited?
    ensures r.effects <= ExtractPlan(env, modelName, version, f0method, hopLength, samplingRate)
    ensures |r.effects| == (if !Succeeded(f0Run) then 1 else if !Succeeded(featureRun) then 2 else 4)
    ensures !IsErrorStatus(r.status) <==> Succeeded(f0Run) && Succeeded(featureRun)
    ensures !IsErrorStatus(r.status) ==> r.status == "Model " + modelName + " extracted successfully."
    ensures !Succeeded(f0Run) ==>
      r.status == ErrorWord + " in extracting features for model " + modelName + ": "
                  + FailureText(ExtractF0Command(env, modelName, f0method, hopLength), f0Run)
    ensures Succeeded(f0Run) && !Succeeded(featureRun) ==>
      r.status == ErrorWord + " in extracting features for model " + modelName + ": "
                  + FailureText(ExtractFeatureCommand(env, modelName, version), featureRun)
  {
    var plan := ExtractPlan(env, modelName, version, f0method, hopLength, samplingRate);
    var head := ErrorWord + " in extracting features for model ";
    ErrorHead(" in extracting features for model ");
    if !Succeeded(f0Run) then
      var text := FailureText(ExtractF0Command(env, modelName, f0method, hopLength), f0Run);
      FailureLine(head, modelName, ": ", text);
      StageRun(plan[..1], head + modelName + ": " + text)
    else if !Succeeded(featureRun) then
      var text := FailureText(ExtractFeatureCommand(env, modelName, version), featureRun);
      FailureLine(head, modelName, ": ", text);
      StageRun(plan[..2], head + modelName + ": " + text)
    else
      SuccessLine("Model ", modelName, " extracted successfully.");
      StageRun(plan, "Model " + modelName + " extracted successfully.")
  }

  // ---------------------------------------------------------------------
  // Train
  // ---------------------------------------------------------------------

  /** The arguments of `run_train_script`, each as its `str()`. */
  datatype TrainArgs = TrainArgs(
    modelName: string, version: string, saveEveryEpoch: string, saveOnlyLatest: string,
    saveEveryWeights: string, totalEpoch: string, samplingRate: PyKey, batchSize: string, gpu: string,
    pitchGuidance: string, pretrained: string, customPretrained: string,
    gPretrainedPath: Option<string>, dPretrainedPath: Option<string>)

  /** A Python value used as a dictionary key: an `int` or a `str`. The two
      never compare equal, so `48000` and `"48000"` are different keys. */
  datatype PyKey = IntKey(n: int) | StrKey(s: string)

  /** `str()` of a key: the digits of an `int`, a `str` as it is. */
  function KeyStr(k: PyKey): string
  {
    match k
    case IntKey(n) => IntToString(n)
    case StrKey(s) => s
  }

  /** `repr()` of a key: the digits of an `int`, a `str` in single quotes. */
  function KeyRepr(k: PyKey): string
  {
    match k
    case IntKey(n) => IntToString(n)
    case StrKey(s) => "'" + s + "'"
  }

  /** The exceptions `run_train_script` lets escape: its own `ValueError`,
      and a `KeyError` from the pretrained table. */
  datatype TrainError = ValueError(message: string) | KeyError(key: PyKey)

  /** `str(e)` of those exceptions (a `KeyError` shows the key's `repr`). */
  function TrainErrorText(e: TrainError): string
  {
    match e
    case ValueError(m) => m
    case KeyError(k) => KeyRepr(k)
  }

  /** A boolean option as the train script takes it: 1 exactly when the
      argument's string form is `True`, 0 otherwise. */
  function Flag(s: string): (b: int)
    ensures b == 1 <==> s == "True"
    ensures b == 0 <==> s != "True"
  {
    if s == "True" then 1 else 0
  }

  /** `pretrained_selector(f0)`: version, then sampling rate, to the pair of
      G and D pretrained paths. The table itself is RVC's, and an input here;
      its rate keys are Python values, looked up with the rate exactly as the
      caller passed it (no `str()` is applied). */
  type PretrainedTable = int -> map<string, map<PyKey, (string, string)>>

  const MissingPretrained: string := "Please provide the path to the pretrained G and D models."

  /** The pretrained G and D paths `run_train_script` passes: none unless
      `pretrained` is `True`; RVC's table entry for the version and sampling
      rate when `custom_pretrained` is `False` (a missing entry raises
      `KeyError`); otherwise the two given paths, and `ValueError` when
      either is missing. */
  function SelectPretrained(args: TrainArgs, table: PretrainedTable): (r: Result<(string, string), TrainError>)
    ensures args.pretrained != "True" ==> r == Ok(("", ""))
    ensures args.pretrained == "True" && args.customPretrained == "False" ==>
      var t := table(Flag(args.pitchGuidance));
      && (r.Ok? <==> args.version in t && args.samplingRate in t[args.version])
      && (r.Ok? ==> r.value == t[args.version][args.samplingRate])
      && (args.version !in t ==> r == Err(KeyError(StrKey(args.version))))
      && (args.version in t && args.samplingRate !in t[args.version] ==> r == Err(KeyError(args.samplingRate)))
    ensures args.pretrained == "True" && args.customPretrained != "False" ==>
      && (r.Err? <==> args.gPretrainedPath.None? || args.dPretrainedPath.None?)
      && (r.Err? ==> r.error == ValueError(MissingPretrained))
      && (r.Ok? ==> r.value == (args.gPretrainedPath.value, args.dPretrainedPath.value))
  {
    if args.pretrained != "True" then Ok(("", ""))
    else if args.customPretrained == "False" then
      var t := table(Flag(args.pitchGuidance));
      if args.version !in t then Err(KeyError(StrKey(args.version)))
      else if args.samplingRate !in t[args.version] then Err(KeyError(args.samplingRate))
      else Ok(t[args.version][args.samplingRate])
    else if args.gPretrainedPath.None? || args.dPretrainedPath.None? then Err(ValueError(MissingPretrained))
    else Ok((args.gPretrainedPath.value, args.dPretrainedPath.value))
  }

  /** The train command's options, as `-flag value` pairs in order. */
  function TrainOptions(env: Env, args: TrainArgs, pg: string, pd: string): seq<(string, string)>
  {
    [("-se", args.saveEveryEpoch), ("-te", args.totalEpoch), ("-pg", pg), ("-pd", pd),
     ("-sr", KeyStr(args.samplingRate)), ("-bs", args.batchSize), ("-g", args.gpu),
     ("-e", ModelDir(env, args.modelName)), ("-v", args.version),
     ("-l", IntToString(Flag(args.saveOnlyLatest))), ("-c", "0"),
     ("-sw", IntToString(Flag(args.saveEveryWeights))), ("-f0", IntToString(Flag(args.pitchGuidance)))]
  }

  /** The train command: the script, then the options written out. */
  function TrainCommand(env: Env, args: TrainArgs, pg: string, pd: string): seq<string>
  {
    ["python", JoinAll(["rvc", "train", "train.py"])] + Flatten(TrainOptions(env, args, pg, pd))
  }

  /** Read back as pairs, the train command's arguments after the script
      are exactly its options. */
  lemma TrainCommandPairs(env: Env, args: TrainArgs, pg: string, pd: string)
    ensures Pairs(TrainCommand(env, args, pg, pd)[2..]) == Some(TrainOptions(env, args, pg, pd))
  {
    var opts := TrainOptions(env, args, pg, pd);
    assert TrainCommand(env, args, pg, pd)[2..] == Flatten(opts);
    PairsFlatten(opts);
  }

  /** The thirteen flags of the train command, in their fixed order. */
  const TrainFlags: seq<string> := ["-se", "-te", "-pg", "-pd", "-sr", "-bs", "-g", "-e", "-v", "-l", "-c", "-sw", "-f0"]

  /** The train options carry the thirteen flags in their fixed order. */
  lemma TrainFlagsInOrder(env: Env, args: TrainArgs, pg: string, pd: string)
    ensures Keys(TrainOptions(env, args, pg, pd)) == TrainFlags
  {
    var opts := TrainOptions(env, args, pg, pd);
    assert |opts| == |TrainFlags| && forall i :: 0 <= i < |opts| ==> opts[i].0 == TrainFlags[i];
    KeysAre(opts, TrainFlags);
  }

  /** In any option list carrying the train flags in order, the pretrained
      paths, the experiment directory and the pitch flag are found at their
      own positions. */
  lemma TrainFlagsFound(opts: seq<(string, string)>)
    requires Keys(opts) == TrainFlags
    ensures Lookup(opts, "-pg") == Some(opts[2].1)
    ensures Lookup(opts, "-pd") == Some(opts[3].1)
    ensures Lookup(opts, "-e") == Some(opts[7].1)
    ensures Lookup(opts, "-f0") == Some(opts[12].1)
  {
    assert Lookup(opts, "-pg") == Some(opts[2].1) by { LookupFirst(opts, TrainFlags, 2, 1); }
    assert Lookup(opts, "-pd") == Some(opts[3].1) by { LookupFirst(opts, TrainFlags, 3, 2); }
    assert Lookup(opts, "-e") == Some(opts[7].1) by { LookupFirst(opts, TrainFlags, 7, 1); }
    assert Lookup(opts, "-f0") == Some(opts[12].1) by { LookupFirst(opts, TrainFlags, 12, 1); }
  }

  /** The trainer finds the pretrained pair under `-pg` and `-pd`, the
      experiment directory under `-e` and the pitch-guidance flag, 1 or 0,
      under `-f0`. */
  lemma TrainOptionsFound(env: Env, args: TrainArgs, pg: string, pd: string)
    ensures var opts := TrainOptions(env, args, pg, pd);
      && Lookup(opts, "-pg") == Some(pg)
      && Lookup(opts, "-pd") == Some(pd)
      && Lookup(opts, "-e") == Some(ModelDir(env, args.modelName))
      && Lookup(opts, "-f0") == Some(IntToString(Flag(args.pitchGuidance)))
  {
    TrainFlagsInOrder(env, args, pg, pd);
    TrainFlagsFound(TrainOptions(env, args, pg, pd));
  }

  /** `run_train_script`: selects the pretrained paths (raising before any
      command is built when that fails), runs the train command, and reports
      success or the `CalledProcessError` text. */
  function RunTrain(env: Env, args: TrainArgs, table: PretrainedTable, run: Run): (r: Result<StageRun, TrainError>)
    requires run.Exited?
    ensures r.Err? <==> SelectPretrained(args, table).Err?
    ensures r.Err? ==> r.error == SelectPretrained(args, table).error
    ensures r.Ok? ==>
      var (pg, pd) := SelectPretrained(args, table).value;
      && r.value.effects == [Execute(TrainCommand(env, args, pg, pd))]
      && (Succeeded(run) <==> !IsErrorStatus(r.value.status))
      && (Succeeded(run) ==> r.value.status == "Model " + args.modelName + " trained successfully.")
      && (!Succeeded(run) ==> r.value.status == ErrorWord + " in training model " + args.modelName + ": "
                                                + FailureText(TrainCommand(env, args, pg, pd), run))
  {
    match SelectPretrained(args, table)
    case Err(e) => Err(e)
    case Ok((pg, pd)) =>
      var cmd := TrainCommand(env, args, pg, pd);
      if Succeeded(run) then
        SuccessLine("Model ", args.modelName, " trained successfully.");
        Ok(StageRun([Execute(cmd)], "Model " + args.modelName + " trained successfully."))
      else
        ErrorHead(" in training model ");
        FailureLine(ErrorWord + " in training model ", args.modelName, ": ", FailureText(cmd, run));
        Ok(StageRun([Execute(cmd)], ErrorWord + " in training model " + args.modelName + ": " + FailureText(cmd, run)))
  }

  // ---------------------------------------------------------------------
  // Index
  // ---------------------------------------------------------------------

  /** The index command: the script, the experiment directory, the version. */
  function IndexCommand(env: Env, modelName: string, version: string): seq<string>
  {
    ["python", JoinAll(["rvc", "train", "process", "extract_index.py"]), ModelDir(env, modelName), version]
  }

  /** `run_index_script`: runs the index command and reports success or the
      `CalledProcessError` text. */
  function RunIndex(env: Env, modelName: string, version: string, run: Run): (r: StageRun)
    requires run.Exited?
    ensures r.effects == [Execute(IndexCommand(env, modelName, version))]
    ensures Succeeded(run) <==> !IsErrorStatus(r.status)
    ensures Succeeded(run) ==> r.status == "Index file for " + modelName + " generated successfully."
    ensures !Succeeded(run) ==> r.status == ErrorWord + " in generating index file for model " + modelName + ": "
                                            + FailureText(IndexCommand(env, modelName, version), run)
  {
    var cmd := IndexCommand(env, modelName, version);
    if Succeeded(run) then
      SuccessLine("Index file for ", modelName, " generated successfully.");
      StageRun([Execute(cmd)], "Index file for " + modelName + " generated successfully.")
    else
      ErrorHead(" in generating index file for model ");
      FailureLine(ErrorWord + " in generating index file for model ", modelName, ": ", FailureText(cmd, run));
      StageRun([Execute(cmd)], ErrorWord + " in generating index file for model " + modelName + ": " + FailureText(cmd, run))
  }

  /** Every stage works in the same experiment directory: it is the argument
      after the script of the preprocess, f0, and index commands, the
      directory argument of the feature command, and the train command's `-e`
      option (read as pairs: a value may itself look like a flag). */
  lemma StagesShareModelDir(env: Env, args: TrainArgs, datasetPath: string, f0method: string, hopLength: string,
                            pg: string, pd: string)
    ensures var dir := ModelDir(env, args.modelName);
      && PreprocessCommand(env, args.modelName, datasetPath, KeyStr(args.samplingRate))[2] == dir
      && ExtractF0Command(env, args.modelName, f0method, hopLength)[2] == dir
      && ExtractFeatureCommand(env, args.modelName, args.version)[6] == dir
      && Lookup(TrainOptions(env, args, pg, pd), "-e") == Some(dir)
      && IndexCommand(env, args.modelName, args.version)[2] == dir
  {
    TrainOptionsFound(env, args, pg, pd);
  }

  // ---------------------------------------------------------------------
  // The "Start Training" button
  // ---------------------------------------------------------------------

  /** What the page shows: a `st.write` line or a `st.error` box. */
  datatype UiLine = Write(text: string) | ShowError(text: string)

  /** The outcome of the four runs the button starts (two for extraction). */
  datatype StageRuns = StageRuns(preprocess: Run, f0: Run, feature: Run, train: Run, index: Run)

  predicate AllExited(runs: StageRuns)
  {
    runs.preprocess.Exited? && runs.f0.Exited? && runs.feature.Exited? && runs.train.Exited? && runs.index.Exited?
  }

  /** What one press of the button did and showed. */
  datatype Session = Session(effects: seq<Effect>, shown: seq<UiLine>)

  /** The page's fixed settings. */
  const DatasetPath: string := "C:\\Users\\user\\Desktop\\AI-X3_project_final_AI\\static\\recordings"
  const SamplingRate: string := "48000"
  const Version: string := "v2"
  const F0Method: string := "rmvpe"
  const HopLength: string := "128"

  /** The train call's arguments: save every 10 epochs, keep every
      checkpoint, save the weights, 500 epochs, batch 8 on GPU 0, with pitch
      guidance and RVC's own pretrained models. */
  function UiTrainArgs(modelName: string): TrainArgs
  {
    TrainArgs(modelName, Version, "10", "False", "True", "500", StrKey(SamplingRate), "8", "0",
              "True", "True", "False", None, None)
  }

  /** The button handler: preprocess, extract, train and index, writing
      each status line in turn; a stage that reports an error does not stop
      the next, and only an exception (from the pretrained selection) ends
      the sequence, with an error box. The timing lines are not modelled. */
  function StartTraining(env: Env, modelName: string, table: PretrainedTable, runs: StageRuns): (s: Session)
    requires AllExited(runs)
    ensures |s.shown| == (if RunTrain(env, UiTrainArgs(modelName), table, runs.train).Ok? then 4 else 3)
    ensures RunTrain(env, UiTrainArgs(modelName), table, runs.train).Err? ==>
      s.shown[2] == ShowError("An error occurred during the process: "
                              + TrainErrorText(RunTrain(env, UiTrainArgs(modelName), table, runs.train).error))
  {
    var pre := RunPreprocess(env, modelName, DatasetPath, SamplingRate, runs.preprocess);
    var ext := RunExtract(env, modelName, Version, F0Method, HopLength, SamplingRate, runs.f0, runs.feature);
    var head := Session(pre.effects + ext.effects, [Write(pre.status), Write(ext.status)]);
    match RunTrain(env, UiTrainArgs(modelName), table, runs.train)
    case Err(e) =>
      Session(head.effects, head.shown + [ShowError("An error occurred during the process: " + TrainErrorText(e))])
    case Ok(train) =>
      var idx := RunIndex(env, modelName, Version, runs.index);
      Session(head.effects + train.effects + idx.effects,
              head.shown + [Write(train.status), Write(idx.status)])
  }

  /** The commands among a list of effects, in order. */
  function Executed(effects: seq<Effect>): (cmds: seq<seq<string>>)
    ensures |cmds| <= |effects|
  {
    if effects == [] then []
    else (if effects[0].Execute? then [effects[0].cmd] else []) + Executed(effects[1..])
  }

  lemma {:induction false} ExecutedAppend(a: seq<Effect>, b: seq<Effect>)
    ensures Executed(a + b) == Executed(a) + Executed(b)
  {
    if a != [] {
      var head := if a[0].Execute? then [a[0].cmd] else [];
      assert (a + b)[0] == a[0];
      assert (a + b)[1..] == a[1..] + b;
      assert Executed(a + b) == head + Executed(a[1..] + b);
      ExecutedAppend(a[1..], b);
      assert Executed(a) == head + Executed(a[1..]);
    } else {
      assert a + b == b;
    }
  }

  /** With the page's settings the train command runs with pitch guidance,
      keeps every checkpoint, saves the weights, and takes RVC's pretrained
      pair for `v2` under the string key `"48000"`; when the table has no
      such entry the selection raises `KeyError` for the missing key. */
  lemma UiTrainSelection(modelName: string, table: PretrainedTable)
    ensures var args := UiTrainArgs(modelName);
      && Flag(args.pitchGuidance) == 1 && Flag(args.saveOnlyLatest) == 0 && Flag(args.saveEveryWeights) == 1
      && args.samplingRate == StrKey("48000")
      && (var t := table(1);
          && (Version in t && StrKey(SamplingRate) in t[Version] ==>
                SelectPretrained(args, table) == Ok(t[Version][StrKey(SamplingRate)]))
          && (Version in t && StrKey(SamplingRate) !in t[Version] ==>
                SelectPretrained(args, table) == Err(KeyError(StrKey(SamplingRate)))))
      && (Version !in table(1) ==> SelectPretrained(args, table) == Err(KeyError(StrKey(Version))))
  {
  }

  /** The page passes the rate as the string `"48000"`. Against a table
      whose `v2` rates are keyed by `int`, as RVC's selector is, every press
      of the button stops after the extraction line with the box
      `An error occurred during the process: '48000'`, and the train and
      index scripts never run. */
  lemma IntKeyedTableStops(env: Env, modelName: string, table: PretrainedTable, runs: StageRuns)
    requires AllExited(runs)
    requires Version in table(1) && forall k :: k in table(1)[Version] ==> k.IntKey?
    ensures var s := StartTraining(env, modelName, table, runs);
      && |s.shown| == 3
      && s.shown[2] == ShowError("An error occurred during the process: " + "'48000'")
      && s.effects == RunPreprocess(env, modelName, DatasetPath, SamplingRate, runs.preprocess).effects
                      + RunExtract(env, modelName, Version, F0Method, HopLength, SamplingRate, runs.f0, runs.feature).effects
  {
    var train := RunTrain(env, UiTrainArgs(modelName), table, runs.train);
    assert train == Err(KeyError(StrKey(SamplingRate))) by {
      assert StrKey(SamplingRate) !in table(1)[Version];
    }
    assert TrainErrorText(train.error) == "'48000'" by {
      assert KeyRepr(StrKey(SamplingRate)) == "'" + SamplingRate + "'";
    }
  }

  /** The command of a single effect, if it is one. */
  lemma ExecutedOne(e: Effect)
    ensures Executed([e]) == if e.Execute? then [e.cmd] else []
  {
    assert [e][1..] == [];
  }

  /** The commands of a prefix of an extraction-shaped plan: two commands
      followed by two effects that run none. */
  lemma {:induction false} PlanPrefixExecuted(plan: seq<Effect>, n: nat)
    requires |plan| == 4 && plan[0].Execute? && plan[1].Execute? && !plan[2].Execute? && !plan[3].Execute?
    requires n == 1 || n == 2 || n == 4
    ensures Executed(plan[..n]) == [plan[0].cmd] + (if n >= 2 then [plan[1].cmd] else [])
  {
    ExecutedOne(plan[0]);
    ExecutedOne(plan[1]);
    ExecutedOne(plan[2]);
    ExecutedOne(plan[3]);
    assert plan[..1] == [plan[0]];
    if n >= 2 {
      assert plan[..2] == [plan[0]] + [plan[1]];
      ExecutedAppend([plan[0]], [plan[1]]);
    }
    if n == 4 {
      assert plan[..4] == plan[..2] + [plan[2]] + [plan[3]];
      ExecutedAppend(plan[..2], [plan[2]]);
      ExecutedAppend(plan[..2] + [plan[2]], [plan[3]]);
    }
  }

  /** Extraction runs the f0 command, then the feature command only when
      the f0 run succeeded; generating the config runs no command. */
  lemma ExtractExecuted(env: Env, modelName: string, version: string, f0method: string, hopLength: string,
                        samplingRate: string, f0Run: Run, featureRun: Run)
    requires f0Run.Exited? && featureRun.Exited?
    ensures Executed(RunExtract(env, modelName, version, f0method, hopLength, samplingRate, f0Run, featureRun).effects)
         == [ExtractF0Command(env, modelName, f0method, hopLength)]
            + (if Succeeded(f0Run) then [ExtractFeatureCommand(env, modelName, version)] else [])
  {
    var plan := ExtractPlan(env, modelName, version, f0method, hopLength, samplingRate);
    var effects := RunExtract(env, modelName, version, f0method, hopLength, samplingRate, f0Run, featureRun).effects;
    assert effects == plan[..|effects|];
    PlanPrefixExecuted(plan, |effects|);
  }

  /** The commands of a button press: the preprocess command (after the
      directory is made), the extraction's, then the train and index ones. */
  lemma {:induction false} SessionExecuted(pre: seq<Effect>, ext: seq<Effect>, train: seq<Effect>, idx: seq<Effect>)
    requires |pre| == 2 && !pre[0].Execute? && pre[1].Execute?
    requires |train| == 1 && train[0].Execute? && |idx| == 1 && idx[0].Execute?
    ensures Executed(pre + ext + train + idx) == [pre[1].cmd] + Executed(ext) + [train[0].cmd, idx[0].cmd]
  {
    assert Executed(pre) == [pre[1].cmd] by {
      assert pre == [pre[0]] + [pre[1]];
      ExecutedAppend([pre[0]], [pre[1]]);
      ExecutedOne(pre[0]);
      ExecutedOne(pre[1]);
    }
    assert Executed(train) == [train[0].cmd] by {
      assert train == [train[0]];
      ExecutedOne(train[0]);
    }
    assert Executed(idx) == [idx[0].cmd] by {
      assert idx == [idx[0]];
      ExecutedOne(idx[0]);
    }
    assert Executed(pre + ext + train + idx) == Executed(pre) + Executed(ext) + Executed(train) + Executed(idx) by {
      ExecutedAppend(pre + ext + train, idx);
      ExecutedAppend(pre + ext, train);
      ExecutedAppend(pre, ext);
    }
  }

  /** The button runs the commands in stage order: preprocess, f0
      extraction, feature extraction only when f0 extraction succeeded,
      train, then index, whatever status lines the stages returned. */
  lemma StagesRunInOrder(env: Env, modelName: string, table: PretrainedTable, runs: StageRuns)
    requires AllExited(runs)
    requires SelectPretrained(UiTrainArgs(modelName), table).Ok?
    ensures var args := UiTrainArgs(modelName);
      var pretrained := SelectPretrained(args, table).value;
      Executed(StartTraining(env, modelName, table, runs).effects)
        == [PreprocessCommand(env, modelName, DatasetPath, SamplingRate)]
           + ([ExtractF0Command(env, modelName, F0Method, HopLength)]
              + (if Succeeded(runs.f0) then [ExtractFeatureCommand(env, modelName, Version)] else []))
           + [TrainCommand(env, args, pretrained.0, pretrained.1), IndexCommand(env, modelName, Version)]
  {
    var args := UiTrainArgs(modelName);
    var pre := RunPreprocess(env, modelName, DatasetPath, SamplingRate, runs.preprocess);
    var ext := RunExtract(env, modelName, Version, F0Method, HopLength, SamplingRate, runs.f0, runs.feature);
    var train := RunTrain(env, args, table, runs.train).value;
    var idx := RunIndex(env, modelName, Version, runs.index);
    var pretrained := SelectPretrained(args, table).value;
    var preCmd := PreprocessCommand(env, modelName, DatasetPath, SamplingRate);
    var extCmds := [ExtractF0Command(env, modelName, F0Method, HopLength)]
                   + (if Succeeded(runs.f0) then [ExtractFeatureCommand(env, modelName, Version)] else []);
    var trainCmd := TrainCommand(env, args, pretrained.0, pretrained.1);
    var idxCmd := IndexCommand(env, modelName, Version);
    assert StartTraining(env, modelName, table, runs).effects == pre.effects + ext.effects + train.effects + idx.effects;
    assert Executed(pre.effects + ext.effects + train.effects + idx.effects)
        == [preCmd] + Executed(ext.effects) + [trainCmd, idxCmd] by {
      SessionExecuted(pre.effects, ext.effects, train.effects, idx.effects);
      assert pre.effects[1].cmd == preCmd;
      assert train.effects[0].cmd == trainCmd;
      assert idx.effects[0].cmd == idxCmd;
    }
    assert Executed(ext.effects) == extCmds by {
      ExtractExecuted(env, modelName, Version, F0Method, HopLength, SamplingRate, runs.f0, runs.feature);
    }
  }

  /** The four status lines are shown whatever the runs' outcomes, as long as
      the pretrained selection does not raise: an error line does not stop
      the stages after it. */
  lemma StatusLinesShown(env: Env, modelName: string, table: PretrainedTable, runs: StageRuns)
    requires AllExited(runs)
    requires SelectPretrained(UiTrainArgs(modelName), table).Ok?
    ensures StartTraining(env, modelName, table, runs).shown ==
      [Write(RunPreprocess(env, modelName, DatasetPath, SamplingRate, runs.preprocess).status),
       Write(RunExtract(env, modelName, Version, F0Method, HopLength, SamplingRate, runs.f0, runs.feature).status),
       Write(RunTrain(env, UiTrainArgs(modelName), table, runs.train).value.status),
       Write(RunIndex(env, modelName, Version, runs.index).status)]
  {
  }
}
