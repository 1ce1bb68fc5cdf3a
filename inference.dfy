/** The voice-conversion page (streaminfer.py): the RVC inference command
    and its result rule, the ffmpeg mix and its result rule, and the button
    handler that names the outputs, converts, and mixes only a successful
    conversion with the matching Spleeter accompaniment. Every argument is
    modelled as the string `str()` makes of it. */
module Inference {
  import opened Common
  import opened Paths
  import opened Proc

  /** The arguments of `run_infer_script`, in the order of its signature. */
  datatype InferParams = InferParams(
    f0upKey: string, filterRadius: string, indexRate: string, rmsMixRate: string, protect: string,
    hopLength: string, f0method: string, inputPath: string, outputPath: string, pthPath: string,
    indexPath: string, splitAudio: string, f0autotune: string, cleanAudio: string, cleanStrength: string,
    exportFormat: string)

  const InferScript: string := "C:\\Users\\user\\Desktop\\AI-X3_project_final_AI\\rvc\\infer\\infer.py"

  /** The parameters in signature order. */
  function SignatureOrder(p: InferParams): (args: seq<string>)
    ensures |args| == 16
  {
    [p.f0upKey, p.filterRadius, p.indexRate, p.rmsMixRate, p.protect, p.hopLength, p.f0method, p.inputPath,
     p.outputPath, p.pthPath, p.indexPath, p.splitAudio, p.f0autotune, p.cleanAudio, p.cleanStrength,
     p.exportFormat]
  }

  /** The inference command: the script, then the parameters in the order
      the command passes them, which is not the signature's: the hop length
      and the paths move ahead of the mix rate and `protect`. */
  function InferCommand(p: InferParams): seq<string>
  {
    ["python", InferScript,
     p.f0upKey, p.filterRadius, p.indexRate, p.hopLength, p.f0method, p.inputPath, p.outputPath,
     p.pthPath, p.indexPath, p.splitAudio, p.f0autotune, p.rmsMixRate, p.protect, p.cleanAudio,
     p.cleanStrength, p.exportFormat]
  }

  /** For each position of the command after the script, the signature
      position of the parameter it carries. */
  const CommandOrder: seq<nat> := [0, 1, 2, 5, 6, 7, 8, 9, 10, 11, 12, 3, 4, 13, 14, 15]

  /** The command passes every parameter exactly once, at the position
      `CommandOrder` gives, and nothing else. */
  lemma InferCommandReorders(p: InferParams)
    ensures var cmd := InferCommand(p);
      && |cmd| == 18 && cmd[..2] == ["python", InferScript]
      && (forall k :: 0 <= k < 16 ==> CommandOrder[k] < 16 && cmd[2 + k] == SignatureOrder(p)[CommandOrder[k]])
  {
    var cmd := InferCommand(p);
    var sig := SignatureOrder(p);
    assert cmd[2..] == [sig[0], sig[1], sig[2], sig[5], sig[6], sig[7], sig[8], sig[9], sig[10], sig[11], sig[12],
                        sig[3], sig[4], sig[13], sig[14], sig[15]];
  }

  /** The command passes every parameter exactly once: its arguments after
      the script are a permutation of the signature's. */
  lemma InferCommandPermutes(p: InferParams)
    ensures multiset(InferCommand(p)[2..]) == multiset(SignatureOrder(p))
  {
    var head := [p.f0upKey, p.filterRadius, p.indexRate];
    var moved := [p.rmsMixRate, p.protect];
    var middle := [p.hopLength, p.f0method, p.inputPath, p.outputPath, p.pthPath, p.indexPath, p.splitAudio,
                   p.f0autotune];
    var tail := [p.cleanAudio, p.cleanStrength, p.exportFormat];
    assert SignatureOrder(p) == head + moved + middle + tail;
    assert InferCommand(p)[2..] == head + middle + moved + tail;
    SwapBlocks(head, moved, middle, tail);
  }

  /** Exchanging two adjacent blocks of a sequence keeps its elements. */
  lemma SwapBlocks<T>(head: seq<T>, a: seq<T>, b: seq<T>, tail: seq<T>)
    ensures multiset(head + a + b + tail) == multiset(head + b + a + tail)
  {
    calc {
      multiset(head + a + b + tail);
      multiset(head) + multiset(a) + multiset(b) + multiset(tail);
      multiset(head) + multiset(b) + multiset(a) + multiset(tail);
      multiset(head + b + a + tail);
    }
  }

  /** `run_infer_script`: runs the command (no timeout) and returns the
      output path exactly when the run exited with 0 and the output file
      exists afterwards; otherwise `None`. */
  function RunInfer(p: InferParams, run: Run, existing: set<string>): (r: Option<string>)
    requires run.Exited?
    ensures r.Some? <==> run.code == 0 && p.outputPath in existing
    ensures r.Some? ==> r.value == p.outputPath
  {
    if run.code == 0 && p.outputPath in existing then Some(p.outputPath) else None
  }

  /** ffmpeg's mix of the vocal and the accompaniment into the output, over
      the longer of the two. */
  function MixCommand(vocalPath: string, accompanimentPath: string, outputPath: string): seq<string>
  {
    ["ffmpeg", "-i", vocalPath, "-i", accompanimentPath, "-filter_complex", "amix=inputs=2:duration=longest",
     outputPath]
  }

  /** `mix_audio`: runs the mix (`check=True`, no timeout) and returns the
      output path on exit status 0, `None` on `CalledProcessError`. */
  function MixAudio(vocalPath: string, accompanimentPath: string, outputPath: string, run: Run): (r: Option<string>)
    requires run.Exited?
    ensures r.Some? <==> Succeeded(run)
    ensures r.Some? ==> r.value == outputPath
  {
    match CheckedRun(MixCommand(vocalPath, accompanimentPath, outputPath), run, 0)
    case Ok(_) => Some(outputPath)
    case Err(_) => None
  }

  /** The mix reads its two inputs in order, vocal first, and writes the
      output path last. */
  lemma MixCommandShape(vocalPath: string, accompanimentPath: string, outputPath: string)
    ensures var cmd := MixCommand(vocalPath, accompanimentPath, outputPath);
      && ValueAfter(cmd, "-i") == Some(vocalPath)
      && ValueAfter(cmd[3..], "-i") == Some(accompanimentPath)
      && cmd[|cmd| - 1] == outputPath
  {
    var cmd := MixCommand(vocalPath, accompanimentPath, outputPath);
    ValueAfterAt(cmd, "-i", 1);
    ValueAfterAt(cmd[3..], "-i", 0);
    assert cmd[1] == "-i" && cmd[3] == "-i";
  }

  // ---------------------------------------------------------------------
  // Output naming
  // ---------------------------------------------------------------------

  const OutputDir: string := "opt_infer"
  const SpleeterDir: string := "C:\\Users\\user\\Desktop\\AI-X3_project_final_AI\\static\\opt_spleeter"

  /** Where the converted vocal goes: `opt_infer/<uploaded name>_converted_vocal.wav`
      (the uploaded name keeps its extension). */
  function VocalOutputPath(name: string): string
  {
    Join(OutputDir, name + "_converted_vocal.wav")
  }

  /** Where the final mix goes: `opt_infer/<uploaded name>_mix_audio.wav`. */
  function FinalOutputPath(name: string): string
  {
    Join(OutputDir, name + "_mix_audio.wav")
  }

  /** For an uploaded file name, both outputs sit in `opt_infer` under the
      name with their own suffix, so the conversion never overwrites the mix. */
  lemma OutputPaths(name: string)
    requires NoSep(name)
    ensures VocalOutputPath(name) == "opt_infer/" + name + "_converted_vocal.wav"
    ensures FinalOutputPath(name) == "opt_infer/" + name + "_mix_audio.wav"
    ensures VocalOutputPath(name) != FinalOutputPath(name)
  {
    var v := name + "_converted_vocal.wav";
    var f := name + "_mix_audio.wav";
    assert v[0] != Sep && f[0] != Sep by {
      if |name| > 0 {
        assert v[0] == name[0] && f[0] == name[0];
      }
    }
    assert "opt_infer/" == OutputDir + [Sep];
    assert |VocalOutputPath(name)| != |FinalOutputPath(name)|;
  }

  /** The converted vocal of a plain file name is that name with the
      `_converted_vocal.wav` suffix. */
  lemma VocalOutputBasename(name: string)
    requires NoSep(name)
    ensures Basename(VocalOutputPath(name)) == name + "_converted_vocal.wav"
  {
    var v := name + "_converted_vocal.wav";
    assert NoSep(v) by {
      forall i | 0 <= i < |v| ensures v[i] != Sep {
        if i < |name| { assert v[i] == name[i]; }
      }
    }
    BasenameOfJoin(OutputDir, v);
  }

  /** The accompaniment's base name: the uploaded name's stem with every
      `_vocals` removed. */
  function AccompanimentBase(name: string): string
  {
    ReplaceAll(Stem(Basename(name)), "_vocals", "")
  }

  /** Where the matching accompaniment is looked for: `<base>_accompaniment.wav`
      in Spleeter's output directory. */
  function AccompanimentPath(name: string): string
  {
    Join(SpleeterDir, AccompanimentBase(name) + "_accompaniment.wav")
  }

  /** An upload named `x_vocals.<ext>`, for an `x` without separators and
      without `_vocals` of its own, is paired with `x_accompaniment.wav`. */
  lemma AccompanimentOfVocals(x: string, ext: string)
    requires NoSep(x) && !Occurs(x, "_vocals")
    requires NoSep(ext) && forall i :: 0 <= i < |ext| ==> ext[i] != '.'
    ensures AccompanimentBase(x + "_vocals." + ext) == x
    ensures AccompanimentPath(x + "_vocals." + ext) == Join(SpleeterDir, x + "_accompaniment.wav")
  {
    var stem := x + "_vocals";
    var name := x + "_vocals." + ext;
    assert name == stem + "." + ext;
    assert NoSep(stem) && !AllDots(stem) by {
      assert stem[|x|] == '_';
      forall i | 0 <= i < |stem| ensures stem[i] != Sep {
        if i < |x| { assert stem[i] == x[i]; }
      }
    }
    assert NoSep(name) by {
      forall i | 0 <= i < |name| ensures name[i] != Sep {
        if i < |stem| { assert name[i] == stem[i]; }
        else if i > |stem| { assert name[i] == ext[i - |stem| - 1]; }
      }
    }
    BasenameOfName(name);
    SplitextOfName(stem, ext);
    VocalsTagUnbordered();
    ReplaceTrailing(x, "_vocals");
  }

  /** `_vocals` does not repeat its first character. */
  lemma VocalsTagUnbordered()
    ensures forall j :: 0 < j < |"_vocals"| ==> "_vocals"[j] != "_vocals"[0]
  {
  }

  /** An upload whose stem has no `_vocals` is paired with `<stem>_accompaniment.wav`. */
  lemma AccompanimentOfPlainName(name: string)
    requires !Occurs(Stem(Basename(name)), "_vocals")
    ensures AccompanimentBase(name) == Stem(Basename(name))
  {
    ReplaceAbsent(Stem(Basename(name)), "_vocals", "");
  }

  // ---------------------------------------------------------------------
  // The convert button
  // ---------------------------------------------------------------------

  /** The user's choices on the page: the uploaded file's name, the model
      weights and index files, and the two sliders. */
  datatype Choice = Choice(uploadName: string, pthFile: string, indexFile: string, indexRate: string, f0upKey: string)

  const PthDir: string := "C:\\Users\\user\\Desktop\\AI-X3_project_final_AI\\weights\\pth"
  const IndexDir: string := "C:\\Users\\user\\Desktop\\AI-X3_project_final_AI\\weights\\index"

  /** The inference call the button makes: the page's fixed settings, the
      sliders, the temporary copy of the upload as input, and the vocal
      output path. */
  function ConvertParams(c: Choice, tempAudioPath: string): InferParams
  {
    InferParams(c.f0upKey, "3", c.indexRate, "1.0", "0.33", "128", "rmvpe", tempAudioPath,
                VocalOutputPath(c.uploadName), Join(PthDir, c.pthFile), Join(IndexDir, c.indexFile),
                "False", "False", "False", "0.7", "WAV")
  }

  /** What the page ends up showing. */
  datatype Shown = PlayAudio(path: string) | ErrorBox(text: string) | Note(text: string)

  /** What one press of the button ran and showed. */
  datatype Conversion = Conversion(commands: seq<seq<string>>, shown: Shown)

  const MixFailedMessage: string := "최종 합성 파일 생성 실패"
  const UploadPrompt: string := "보컬 입력 파일을 업로드해주세요."

  /** Python's truth value of an optional path. */
  predicate Truthy(o: Option<string>)
  {
    o.Some? && o.value != ""
  }

  /** The button handler: converts, and only when conversion returned a
      path, mixes it with the matching accompaniment into the final path;
      plays the mix, or reports which step failed. */
  function Convert(c: Choice, tempAudioPath: string, inferRun: Run, existing: set<string>, mixRun: Run)
    : (r: Conversion)
    requires inferRun.Exited? && mixRun.Exited?
    ensures |r.commands| == (if RunInfer(ConvertParams(c, tempAudioPath), inferRun, existing).Some? then 2 else 1)
    ensures r.commands[0] == InferCommand(ConvertParams(c, tempAudioPath))
    ensures |r.commands| == 2 ==>
      r.commands[1] == MixCommand(VocalOutputPath(c.uploadName), AccompanimentPath(c.uploadName),
                                  FinalOutputPath(c.uploadName))
    ensures r.shown.PlayAudio? <==>
      RunInfer(ConvertParams(c, tempAudioPath), inferRun, existing).Some? && Succeeded(mixRun)
    ensures r.shown.PlayAudio? ==> r.shown.path == FinalOutputPath(c.uploadName)
  {
    var p := ConvertParams(c, tempAudioPath);
    var converted := RunInfer(p, inferRun, existing);
    VocalOutputNonEmpty(c.uploadName);
    if Truthy(converted) then
      var accompaniment := AccompanimentPath(c.uploadName);
      var final := FinalOutputPath(c.uploadName);
      var mixed := MixAudio(converted.value, accompaniment, final, mixRun);
      FinalOutputNonEmpty(c.uploadName);
      Conversion([InferCommand(p), MixCommand(converted.value, accompaniment, final)],
                 if Truthy(mixed) then PlayAudio(mixed.value) else ErrorBox(MixFailedMessage))
    else
      Conversion([InferCommand(p)], Note(UploadPrompt))
  }

  /** The vocal output path is never empty, so a returned path is truthy. */
  lemma VocalOutputNonEmpty(name: string)
    ensures VocalOutputPath(name) != ""
  {
    assert EndsWith(VocalOutputPath(name), name + "_converted_vocal.wav");
  }

  /** The final output path is never empty either. */
  lemma FinalOutputNonEmpty(name: string)
    ensures FinalOutputPath(name) != ""
  {
    assert EndsWith(FinalOutputPath(name), name + "_mix_audio.wav");
  }

  /** The inference command passes the output path as its ninth argument. */
  lemma InferOutputArgument(p: InferParams)
    ensures InferCommand(p)[8] == p.outputPath
  {
  }

  /** The mix reads exactly the file the conversion wrote. */
  lemma MixReadsConvertedVocal(c: Choice, tempAudioPath: string, inferRun: Run, existing: set<string>, mixRun: Run)
    requires inferRun.Exited? && mixRun.Exited?
    requires RunInfer(ConvertParams(c, tempAudioPath), inferRun, existing).Some?
    ensures var p := ConvertParams(c, tempAudioPath);
      && ValueAfter(Convert(c, tempAudioPath, inferRun, existing, mixRun).commands[1], "-i") == Some(p.outputPath)
      && InferCommand(p)[8] == p.outputPath
  {
    var p := ConvertParams(c, tempAudioPath);
    var vocal := VocalOutputPath(c.uploadName);
    assert p.outputPath == vocal;
    MixCommandShape(vocal, AccompanimentPath(c.uploadName), FinalOutputPath(c.uploadName));
    InferOutputArgument(p);
  }
}
