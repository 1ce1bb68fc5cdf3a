/** Child processes as the code sees them through `subprocess.run`: the
    observed outcome of one run, the exceptions `check=True` and `timeout=`
    turn it into, their `str()` texts, and how an argument vector is read
    back (by position or as `-flag value` pairs). */
module Proc {
  import opened Common

  /** What one `subprocess.run` observed: the child exited with a status
      (and, where captured, its output), or the timeout elapsed first. */
  datatype Run = Exited(code: int, stdout: string, stderr: string) | TimedOut

  /** The exceptions `subprocess.run` raises: `CalledProcessError` when
      `check=True` meets a non-zero status, `TimeoutExpired` after `timeout`. */
  datatype ProcError =
    | CalledProcessError(returncode: int, cmd: seq<string>, stderr: string)
    | TimeoutExpired(timeoutCmd: seq<string>, seconds: int)

  /** The run completed with status 0. */
  predicate Succeeded(run: Run)
  {
    run.Exited? && run.code == 0
  }

  /** `subprocess.run(cmd, check=True[, timeout=seconds])`: status 0 returns
      the captured output; any other status raises `CalledProcessError`; an
      elapsed timeout raises `TimeoutExpired`. */
  function CheckedRun(cmd: seq<string>, run: Run, seconds: int): (r: Result<string, ProcError>)
    ensures r.Ok? <==> Succeeded(run)
    ensures r.Err? && run.Exited? ==> r.error.CalledProcessError? && r.error.returncode == run.code && r.error.cmd == cmd
    ensures run.TimedOut? ==> r == Err(TimeoutExpired(cmd, seconds))
  {
    match run
    case TimedOut => Err(TimeoutExpired(cmd, seconds))
    case Exited(code, out, err) =>
      if code == 0 then Ok(out) else Err(CalledProcessError(code, cmd, err))
  }

  /** Python's `repr` of a list of strings: `['a', 'b']` (quote characters
      inside the strings are not escaped in this model). */
  function ListRepr(xs: seq<string>): string
  {
    "[" + Items(xs) + "]"
  }

  function Items(xs: seq<string>): string
  {
    if xs == [] then ""
    else if |xs| == 1 then "'" + xs[0] + "'"
    else "'" + xs[0] + "', " + Items(xs[1..])
  }

  /** `str(e)` of the two exceptions, as Python's subprocess module words it. */
  function ErrorText(e: ProcError): string
  {
    match e
    case CalledProcessError(code, cmd, _) =>
      "Command '" + ListRepr(cmd) + "' returned non-zero exit status " + IntToString(code) + "."
    case TimeoutExpired(cmd, seconds) =>
      "Command '" + ListRepr(cmd) + "' timed out after " + IntToString(seconds) + " seconds"
  }

  /** The argument that follows the first occurrence of `flag` in `args`.
      The yt-dlp download commands pass `-o` once, so it is the only one;
      the train command is read as pairs with `Lookup` over its distinct
      flags; and in the ffmpeg mix, where `-i` appears twice, the first
      occurrence is meant: it names the first input. */
  function ValueAfter(args: seq<string>, flag: string): (r: Option<string>)
    ensures r.Some? ==> exists i :: 0 <= i < |args| - 1 && args[i] == flag && args[i + 1] == r.value
    ensures r.None? ==> forall i :: 0 <= i < |args| - 1 ==> args[i] != flag
  {
    if |args| < 2 then None
    else if args[0] == flag then Some(args[1])
    else
      var r := ValueAfter(args[1..], flag);
      assert r.Some? ==> exists i :: 0 <= i < |args| - 1 && args[i] == flag && args[i + 1] == r.value by {
        if r.Some? {
          var i :| 0 <= i < |args[1..]| - 1 && args[1..][i] == flag && args[1..][i + 1] == r.value;
          assert args[i + 1] == flag && args[i + 2] == r.value;
        }
      }
      r
  }

  /** `ValueAfter` finds the value after the first occurrence of the flag. */
  lemma {:induction false} ValueAfterAt(args: seq<string>, flag: string, i: nat)
    requires i + 1 < |args| && args[i] == flag
    requires forall j :: 0 <= j < i ==> args[j] != flag
    ensures ValueAfter(args, flag) == Some(args[i + 1])
  {
    if i > 0 {
      ValueAfterAt(args[1..], flag, i - 1);
    }
  }

  /** `-flag value` pairs written out one after the other, as the training
      command lists them. */
  function Flatten(opts: seq<(string, string)>): (r: seq<string>)
    ensures |r| == 2 * |opts|
    ensures forall k :: 0 <= k < |opts| ==> r[2 * k] == opts[k].0 && r[2 * k + 1] == opts[k].1
  {
    if opts == [] then []
    else
      var rest := Flatten(opts[1..]);
      assert forall k :: 1 <= k < |opts| ==> rest[2 * (k - 1)] == opts[k].0 && rest[2 * (k - 1) + 1] == opts[k].1;
      [opts[0].0, opts[0].1] + rest
  }

  /** Reading an argument vector back as `-flag value` pairs; an odd count
      has a flag without a value. */
  function Pairs(args: seq<string>): Option<seq<(string, string)>>
  {
    if args == [] then Some([])
    else if |args| == 1 then None
    else
      match Pairs(args[2..])
      case None => None
      case Some(rest) => Some([(args[0], args[1])] + rest)
  }

  /** The value given for `flag` in a pair list (the first such pair). */
  function Lookup(opts: seq<(string, string)>, flag: string): Option<string>
  {
    if opts == [] then None
    else if opts[0].0 == flag then Some(opts[0].1)
    else Lookup(opts[1..], flag)
  }

  /** `Lookup` finds the value of the first pair carrying the flag. */
  lemma {:induction false} LookupAt(opts: seq<(string, string)>, flag: string, i: nat)
    requires i < |opts| && opts[i].0 == flag
    requires forall j :: 0 <= j < i ==> opts[j].0 != flag
    ensures Lookup(opts, flag) == Some(opts[i].1)
  {
    if i > 0 {
      LookupAt(opts[1..], flag, i - 1);
    }
  }

  /** A flag is found at its position among the keys when every earlier
      key differs from it in character `c`. */
  lemma LookupFirst(opts: seq<(string, string)>, ks: seq<string>, i: nat, c: nat)
    requires Keys(opts) == ks
    requires i < |ks| && c < |ks[i]|
    requires forall j :: 0 <= j < i ==> c < |ks[j]| && ks[j][c] != ks[i][c]
    ensures Lookup(opts, ks[i]) == Some(opts[i].1)
  {
    forall j | 0 <= j < i ensures opts[j].0 != ks[i] {
      assert opts[j].0[c] != ks[i][c];
    }
    LookupAt(opts, ks[i], i);
  }

  /** The flags of a pair list, in order. */
  function Keys(opts: seq<(string, string)>): (ks: seq<string>)
    ensures |ks| == |opts|
    ensures forall i :: 0 <= i < |opts| ==> ks[i] == opts[i].0
  {
    if opts == [] then [] else [opts[0].0] + Keys(opts[1..])
  }

  /** A pair list whose flags are `flags`, position by position, has those keys. */
  lemma KeysAre(opts: seq<(string, string)>, flags: seq<string>)
    requires |opts| == |flags|
    requires forall i :: 0 <= i < |opts| ==> opts[i].0 == flags[i]
    ensures Keys(opts) == flags
  {
  }

  /** Reading a flattened option list back as pairs gives the list itself. */
  lemma {:induction false} PairsFlatten(opts: seq<(string, string)>)
    ensures Pairs(Flatten(opts)) == Some(opts)
  {
    if opts != [] {
      var f := Flatten(opts);
      assert f[2..] == Flatten(opts[1..]);
      PairsFlatten(opts[1..]);
      assert [(f[0], f[1])] + opts[1..] == opts;
    }
  }
}
