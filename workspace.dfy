/** The stateful part of the streaming server (app3.py): the guarded set of
    temp directories already handed to deletion, the lazily created
    separator singleton, and the generator that streams a file in 1 MiB
    chunks and then triggers cleanup of its workspace exactly once. */
module Workspace {
  import opened Common
  import opened Paths

  // ---------------------------------------------------------------------
  // safe_cleanup and deleted_dirs
  // ---------------------------------------------------------------------

  /** No element occurs twice in `s`. */
  predicate NoDuplicates<T(==)>(s: seq<T>)
  {
    forall i, j :: 0 <= i < j < |s| ==> s[i] != s[j]
  }

  /** The directories that a series of `safe_cleanup` calls removes, in
      order, when `marked` was the content of `deleted_dirs` before the
      first call: a call removes its directory unless that directory was
      already marked or was named by an earlier call. */
  function Removals(marked: set<string>, calls: seq<string>): (r: seq<string>)
    ensures NoDuplicates(r)
    ensures forall d :: d in r <==> d in calls && d !in marked
  {
    if calls == [] then []
    else
      var prev := calls[..|calls| - 1];
      var d := calls[|calls| - 1];
      assert calls == prev + [d];
      Removals(marked, prev) + (if d in marked || d in prev then [] else [d])
  }

  /** Each directory is removed exactly once if some call named it and it
      was not already marked, and never otherwise. */
  lemma {:induction false} RemovedAtMostOnce(marked: set<string>, calls: seq<string>, d: string)
    ensures multiset(Removals(marked, calls))[d] == if d in calls && d !in marked then 1 else 0
  {
    if calls != [] {
      var prev := calls[..|calls| - 1];
      var last := calls[|calls| - 1];
      assert calls == prev + [last];
      RemovedAtMostOnce(marked, prev, d);
    }
  }

  /** The first call for a directory that is not yet marked removes it. */
  lemma FirstCallRemoves(marked: set<string>, before: seq<string>, d: string)
    requires d !in marked && d !in before
    ensures Removals(marked, before + [d]) == Removals(marked, before) + [d]
  {
    var calls := before + [d];
    assert calls[..|calls| - 1] == before;
  }

  /** A call for a directory that is already marked, or that an earlier
      call named, removes nothing. */
  lemma LaterCallSkips(marked: set<string>, before: seq<string>, d: string)
    requires d in marked || d in before
    ensures Removals(marked, before + [d]) == Removals(marked, before)
  {
    var calls := before + [d];
    assert calls[..|calls| - 1] == before;
  }

  /** `deleted_dirs` with its lock-guarded check-and-mark, and the file
      system that `shutil.rmtree` removes directories from. */
  class CleanupRegistry {
    /** The directories handed to deletion so far (`deleted_dirs`). */
    var deletedDirs: set<string>
    /** The files present on disk, by path. */
    var files: map<string, seq<byte>>
    /** Every `safe_cleanup` call so far, in order. */
    ghost var calls: seq<string>
    /** Every directory `shutil.rmtree` was called on, in order. */
    ghost var removed: seq<string>

    ghost predicate Valid()
      reads this
    {
      && (forall d :: d in deletedDirs <==> d in calls)
      && removed == Removals({}, calls)
    }

    constructor (files: map<string, seq<byte>>)
      ensures Valid()
      ensures deletedDirs == {} && calls == [] && removed == [] && this.files == files
    {
      deletedDirs := {};
      this.files := files;
      calls := [];
      removed := [];
    }

    /** `safe_cleanup(cleanup_dir)`: a directory already in `deleted_dirs`
        is left alone; otherwise it is marked, then its tree is removed. */
    method SafeCleanup(dir: string)
      requires Valid()
      modifies this
      ensures Valid()
      ensures calls == old(calls) + [dir]
      ensures deletedDirs == old(deletedDirs) + {dir}
      ensures dir in old(deletedDirs) ==> removed == old(removed) && files == old(files)
      ensures dir !in old(deletedDirs) ==> removed == old(removed) + [dir] && files == RemoveTree(old(files), dir)
    {
      ghost var c := calls + [dir];
      assert c[..|c| - 1] == calls;
      if dir in deletedDirs {
        assert deletedDirs + {dir} == deletedDirs;
        calls := c;
        return;
      }
      deletedDirs := deletedDirs + {dir};
      calls := c;
      files := RemoveTree(files, dir);
      removed := removed + [dir];
    }
  }

  /** `path` lies inside directory `dir`. */
  predicate Under(path: string, dir: string)
  {
    StartsWith(path, dir + "/")
  }

  /** `shutil.rmtree(dir, ignore_errors=True)` on a file map: every file
      inside `dir` is gone and every other file is kept. */
  function RemoveTree(files: map<string, seq<byte>>, dir: string): (r: map<string, seq<byte>>)
    ensures forall p :: p in r <==> p in files && !Under(p, dir)
    ensures forall p :: p in r ==> r[p] == files[p]
  {
    map p | p in files && !Under(p, dir) :: files[p]
  }

  // ---------------------------------------------------------------------
  // get_or_create_separator and separator_instance
  // ---------------------------------------------------------------------

  /** A Spleeter separator, created from its configuration name. */
  class Separator {
    const config: string

    constructor (config: string)
      ensures this.config == config
    {
      this.config := config;
    }
  }

  /** The module-level `separator_instance`, created on first use. */
  class SeparatorHolder {
    var instance: Separator?
    /** How many separators `create_separator` has built. */
    ghost var created: nat

    ghost predicate Valid()
      reads this
    {
      (instance == null <==> created == 0) && created <= 1
    }

    constructor ()
      ensures Valid() && instance == null && created == 0
    {
      instance := null;
      created := 0;
    }

    /** `get_or_create_separator()`: builds `Separator('spleeter:2stems')`
        only while no instance exists, and returns the one instance after. */
    method GetOrCreate() returns (s: Separator)
      requires Valid()
      modifies this
      ensures Valid()
      ensures instance == s
      ensures old(instance) != null ==> s == old(instance) && created == old(created)
      ensures old(instance) == null ==> fresh(s) && s.config == "spleeter:2stems" && created == 1
    {
      if instance == null {
        instance := new Separator("spleeter:2stems");
        created := created + 1;
      }
      s := instance;
    }
  }

  // ---------------------------------------------------------------------
  // async_stream_file_and_cleanup
  // ---------------------------------------------------------------------

  /** The read size of the stream: `1024 * 1024` bytes. */
  const ChunkSize: nat := 1024 * 1024

  /** The concatenation of a list of chunks. */
  function Concat(chunks: seq<seq<byte>>): seq<byte>
  {
    if chunks == [] then [] else chunks[0] + Concat(chunks[1..])
  }

  /** A file's content cut into the chunks that successive `f.read(1 MiB)`
      calls return: they concatenate to the content, none is empty, none
      exceeds the chunk size, and all but the last are full. */
  function Chunks(data: seq<byte>): (r: seq<seq<byte>>)
    ensures Concat(r) == data
    ensures forall i :: 0 <= i < |r| ==> 0 < |r[i]| <= ChunkSize
    ensures forall i :: 0 <= i < |r| - 1 ==> |r[i]| == ChunkSize
    ensures r == [] <==> data == []
    decreases |data|
  {
    if data == [] then []
    else if |data| <= ChunkSize then [data]
    else [data[..ChunkSize]] + Chunks(data[ChunkSize..])
  }

  /** `f.read(n)` with the file position at `pos`: up to `n` bytes, empty at
      the end of the file. */
  function Read(data: seq<byte>, pos: nat, n: nat): (r: seq<byte>)
    requires pos <= |data|
    ensures |r| <= n && pos + |r| <= |data| && r == data[pos..pos + |r|]
    ensures r == [] <==> pos == |data| || n == 0
  {
    if pos + n <= |data| then data[pos..pos + n] else data[pos..]
  }

  /** How a stream ended: the file was read to its end, the client went
      away first, or the file could not be opened. */
  datatype StreamEnd = Exhausted | Aborted | OpenFailed

  /** What one streaming response did: the chunks it yielded, how it ended,
      and the cleanups it triggered (each a `safe_cleanup` thread). */
  datatype StreamRun = StreamRun(chunks: seq<seq<byte>>, end: StreamEnd, cleanups: seq<string>)

  /** How many chunks a client takes of a stream of `total` chunks when it
      disconnects after `abortAfter` chunks, or never. */
  function Taken(total: nat, abortAfter: Option<nat>): (k: nat)
    ensures k <= total
    ensures k < total <==> abortAfter.Some? && abortAfter.value < total
  {
    if abortAfter.Some? && abortAfter.value < total then abortAfter.value else total
  }

  /** `async_stream_file_and_cleanup(file_path, cleanup_dir)`: reads the file
      in 1 MiB chunks until a read comes back empty, yielding each, and in
      its `finally` triggers the cleanup of `cleanup_dir` exactly once,
      whether the file was read to the end, the client disconnected, or the
      open failed. */
  method StreamFileAndCleanup(files: map<string, seq<byte>>, filePath: string, cleanupDir: string, abortAfter: Option<nat>)
    returns (r: StreamRun)
    ensures r.cleanups == [cleanupDir]
    ensures filePath !in files ==> r.end == OpenFailed && r.chunks == []
    ensures filePath in files ==>
      var all := Chunks(files[filePath]);
      var k := Taken(|all|, abortAfter);
      && r.chunks == all[..k]
      && (r.end == Exhausted <==> k == |all|)
      && (r.end == Aborted <==> k < |all|)
    ensures r.end == Exhausted ==> filePath in files && Concat(r.chunks) == files[filePath]
    ensures filePath in files ==> Concat(r.chunks) <= files[filePath]
    ensures forall i :: 0 <= i < |r.chunks| ==> 0 < |r.chunks[i]| <= ChunkSize
  {
    if filePath !in files {
      return StreamRun([], OpenFailed, [cleanupDir]);
    }
    var chunks, end := ReadChunks(files[filePath], abortAfter);
    YieldedPrefix(files[filePath], chunks, Chunks(files[filePath])[|chunks|..]);
    r := StreamRun(chunks, end, [cleanupDir]);
  }

  /** The read loop of the stream: `f.read(1 MiB)` until it comes back
      empty, or until the client stops after `abortAfter` chunks. */
  method ReadChunks(data: seq<byte>, abortAfter: Option<nat>) returns (chunks: seq<seq<byte>>, end: StreamEnd)
    ensures chunks == Chunks(data)[..Taken(|Chunks(data)|, abortAfter)]
    ensures end == Exhausted <==> |chunks| == |Chunks(data)|
    ensures end == Aborted <==> |chunks| < |Chunks(data)|
  {
    chunks := [];
    var pos: nat := 0;
    while true
      invariant pos <= |data|
      invariant chunks + Chunks(data[pos..]) == Chunks(data)
      invariant abortAfter.Some? ==> |chunks| <= abortAfter.value
      decreases |data| - pos
    {
      var chunk := Read(data, pos, ChunkSize);
      if chunk == [] {
        end := Exhausted;
        break;
      }
      if abortAfter.Some? && |chunks| == abortAfter.value {
        end := Aborted;
        break;
      }
      ReadAdvances(data, pos, chunks);
      chunks := chunks + [chunk];
      pos := pos + |chunk|;
    }
    ReadExit(data, pos, chunks, abortAfter, end);
  }

  /** One more read keeps the yielded chunks ahead of the chunking of what
      is left. */
  lemma ReadAdvances(data: seq<byte>, pos: nat, done: seq<seq<byte>>)
    requires pos < |data|
    requires done + Chunks(data[pos..]) == Chunks(data)
    ensures var chunk := Read(data, pos, ChunkSize);
      (done + [chunk]) + Chunks(data[pos + |chunk|..]) == Chunks(data)
  {
    var chunk := Read(data, pos, ChunkSize);
    var rest := Chunks(data[pos + |chunk|..]);
    ChunksStep(data, pos);
    assert (done + [chunk]) + rest == done + ([chunk] + rest);
  }

  /** Where the read loop stops: at the end of the file every chunk has
      been yielded; when the client stops first, the first `abortAfter`. */
  lemma ReadExit(data: seq<byte>, pos: nat, done: seq<seq<byte>>, abortAfter: Option<nat>, end: StreamEnd)
    requires pos <= |data|
    requires done + Chunks(data[pos..]) == Chunks(data)
    requires abortAfter.Some? ==> |done| <= abortAfter.value
    requires end != OpenFailed && (end == Exhausted <==> pos == |data|)
    requires end == Aborted ==> abortAfter.Some? && |done| == abortAfter.value
    ensures done == Chunks(data)[..Taken(|Chunks(data)|, abortAfter)]
    ensures end == Exhausted <==> |done| == |Chunks(data)|
    ensures end == Aborted <==> |done| < |Chunks(data)|
  {
    var rest := Chunks(data[pos..]);
    ChunksPrefix(done, rest);
    assert rest == [] <==> pos == |data|;
  }

  /** Chunks yielded ahead of the rest of the chunking are its first ones:
      they hold a prefix of the data, each within the chunk size. */
  lemma YieldedPrefix(data: seq<byte>, done: seq<seq<byte>>, rest: seq<seq<byte>>)
    requires done + rest == Chunks(data)
    ensures done == Chunks(data)[..|done|]
    ensures Concat(done) <= data
    ensures rest == [] ==> Concat(done) == data
    ensures forall i :: 0 <= i < |done| ==> 0 < |done[i]| <= ChunkSize
  {
    ChunksPrefix(done, rest);
    ConcatAppend(done, rest);
    forall i | 0 <= i < |done| ensures 0 < |done[i]| <= ChunkSize {
      assert done[i] == Chunks(data)[i];
    }
  }

  /** Reading one chunk at `pos` takes the first element of the chunking of
      the rest of the file. */
  lemma ChunksStep(data: seq<byte>, pos: nat)
    requires pos < |data|
    ensures Chunks(data[pos..]) == [Read(data, pos, ChunkSize)] + Chunks(data[pos + |Read(data, pos, ChunkSize)|..])
  {
    var rest := data[pos..];
    if |rest| > ChunkSize {
      assert Read(data, pos, ChunkSize) == rest[..ChunkSize];
      assert rest[ChunkSize..] == data[pos + ChunkSize..];
    } else {
      assert Read(data, pos, ChunkSize) == rest;
      assert data[pos + |rest|..] == [];
    }
  }

  /** What has been yielded is a prefix of the whole chunking. */
  lemma ChunksPrefix(done: seq<seq<byte>>, rest: seq<seq<byte>>)
    ensures (done + rest)[..|done|] == done
  {
  }

  /** Concatenation distributes over appending chunk lists. */
  lemma {:induction false} ConcatAppend(a: seq<seq<byte>>, b: seq<seq<byte>>)
    ensures Concat(a + b) == Concat(a) + Concat(b)
  {
    if a == [] {
      assert a + b == b;
    } else {
      assert (a + b)[0] == a[0];
      assert (a + b)[1..] == a[1..] + b;
      ConcatAppend(a[1..], b);
    }
  }

  /** The number of chunks is the file size divided by 1 MiB, rounded up. */
  lemma {:induction false} ChunkCount(data: seq<byte>)
    ensures |Chunks(data)| == (|data| + ChunkSize - 1) / ChunkSize
    decreases |data|
  {
    if |data| > ChunkSize {
      ChunkCount(data[ChunkSize..]);
    }
  }
}
