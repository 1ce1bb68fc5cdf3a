/** The POSIX path and string helpers the code calls: `os.path.join`,
    `os.path.basename`, `os.path.splitext`, `str.endswith`, `str.replace`,
    and the splitting of a URL path into its `/`-separated segments. */
module Paths {

  const Sep: char := '/'

  /** `s` holds no path separator. */
  predicate NoSep(s: string)
  {
    forall i :: 0 <= i < |s| ==> s[i] != Sep
  }

  /** `suffix` ends `s` (Python's `s.endswith(suffix)`). */
  predicate EndsWith(s: string, suffix: string)
  {
    |suffix| <= |s| && s[|s| - |suffix|..] == suffix
  }

  /** `prefix` starts `s` (Python's `s.startswith(prefix)`). */
  predicate StartsWith(s: string, prefix: string)
  {
    |prefix| <= |s| && s[..|prefix|] == prefix
  }

  /** `os.path.join(a, b)`: an absolute `b` replaces `a`; otherwise a
      separator is inserted unless `a` is empty or already ends with one. */
  function Join(a: string, b: string): (r: string)
    ensures EndsWith(r, b)
    ensures !StartsWith(b, "/") ==> StartsWith(r, a)
  {
    if |b| > 0 && b[0] == Sep then b
    else if a == [] || a[|a| - 1] == Sep then a + b
    else a + [Sep] + b
  }

  /** Joining a relative part onto a directory without a trailing separator
      gives a path inside that directory: it begins with `a + "/"`. */
  lemma JoinInside(a: string, b: string)
    requires a != [] && a[|a| - 1] != Sep && !StartsWith(b, "/")
    ensures StartsWith(Join(a, b), a + "/")
  {
    assert |b| > 0 ==> b[0] != Sep by {
      if |b| > 0 { assert b[..1] == [b[0]]; }
    }
    assert (a + [Sep] + b)[..|a| + 1] == a + [Sep];
  }

  /** `os.path.join(a, b, c)`, which joins left to right. */
  function Join3(a: string, b: string, c: string): string
  {
    Join(Join(a, b), c)
  }

  /** `os.path.join(*parts)`, which joins left to right. */
  function JoinAll(parts: seq<string>): (r: string)
    requires |parts| > 0
    ensures EndsWith(r, parts[|parts| - 1])
  {
    if |parts| == 1 then parts[0] else Join(JoinAll(parts[..|parts| - 1]), parts[|parts| - 1])
  }

  /** Python's `s.rfind(c)`: the last index holding `c`, or -1. */
  function RFind(s: string, c: char): (i: int)
    ensures -1 <= i < |s|
    ensures i >= 0 ==> s[i] == c
    ensures forall j :: i < j < |s| ==> s[j] != c
  {
    if s == [] then -1
    else if s[|s| - 1] == c then |s| - 1
    else RFind(s[..|s| - 1], c)
  }

  /** Python's `s.find(c)`: the first index holding `c`, or -1. */
  function Find(s: string, c: char): (i: int)
    ensures -1 <= i < |s|
    ensures i >= 0 ==> s[i] == c
    ensures forall j :: 0 <= j < |s| && (i < 0 || j < i) ==> s[j] != c
  {
    if s == [] then -1
    else if s[0] == c then 0
    else var k := Find(s[1..], c); if k < 0 then -1 else k + 1
  }

  /** `os.path.basename(p)`: what follows the last separator. */
  function Basename(p: string): (r: string)
    ensures NoSep(r) && EndsWith(p, r)
  {
    p[RFind(p, Sep) + 1..]
  }

  /** Every character of `s` is a dot. */
  predicate AllDots(s: string)
  {
    forall i :: 0 <= i < |s| ==> s[i] == '.'
  }

  /** `os.path.splitext(p)`: the extension starts at the last dot of the last
      path component, unless only dots precede that dot in the component
      (so `.bashrc` has no extension). */
  function Splitext(p: string): (r: (string, string))
    ensures r.0 + r.1 == p
    ensures r.1 == [] || (r.1[0] == '.' && NoSep(r.1) && !AllDots(r.0[RFind(r.0, Sep) + 1..]))
  {
    var sepIndex := RFind(p, Sep);
    var dotIndex := RFind(p, '.');
    if dotIndex > sepIndex && !AllDots(p[sepIndex + 1..dotIndex]) then
      (p[..dotIndex], p[dotIndex..])
    else
      (p, [])
  }

  /** `os.path.splitext(p)[0]`. */
  function Stem(p: string): string
  {
    Splitext(p).0
  }

  /** Python's `s.replace(pat, rep)`: occurrences are found left to right and
      do not overlap. */
  function ReplaceAll(s: string, pat: string, rep: string): string
    requires |pat| > 0
    decreases |s|
  {
    if |s| < |pat| then s
    else if s[..|pat|] == pat then rep + ReplaceAll(s[|pat|..], pat, rep)
    else [s[0]] + ReplaceAll(s[1..], pat, rep)
  }

  /** `pat` occurs in `s` starting at index `i`. */
  predicate OccursAt(s: string, pat: string, i: int)
  {
    0 <= i <= |s| - |pat| && s[i..i + |pat|] == pat
  }

  /** `pat` occurs somewhere in `s` (Python's `pat in s`). */
  predicate Occurs(s: string, pat: string)
  {
    exists i :: 0 <= i <= |s| && OccursAt(s, pat, i)
  }

  /** The `/`-separated segments of a URL path (Python's `s.split("/")`). */
  function Segments(s: string): (r: seq<string>)
    ensures |r| > 0
    ensures forall i :: 0 <= i < |r| ==> NoSep(r[i])
    decreases |s|
  {
    if NoSep(s) then [s]
    else
      var i := Find(s, Sep);
      [s[..i]] + Segments(s[i + 1..])
  }

  /** `"/".join(parts)`. */
  function Unsplit(parts: seq<string>): string
    requires |parts| > 0
  {
    if |parts| == 1 then parts[0] else parts[0] + [Sep] + Unsplit(parts[1..])
  }

  // ---------------------------------------------------------------------
  // Properties of the helpers
  // ---------------------------------------------------------------------

  /** The basename of a path joined with a separator-free name is that name:
      `os.path.basename(os.path.join(d, n)) == n`. */
  lemma BasenameOfJoin(d: string, n: string)
    requires n != [] && NoSep(n)
    ensures Basename(Join(d, n)) == n
  {
    assert n[0] != Sep;
    if d == [] {
      assert Join(d, n) == n;
      NoSepRFind(n);
    } else {
      var p := Join(d, n);
      var k := if d[|d| - 1] == Sep then |d| - 1 else |d|;
      assert p == d[..k] + [Sep] + n by {
        if d[|d| - 1] == Sep {
          assert d == d[..k] + [Sep];
        }
      }
      forall j | k < j < |p| ensures p[j] != Sep {
        assert p[j] == n[j - k - 1];
      }
      RFindLast(p, Sep, k);
      assert p[k + 1..] == n;
    }
  }

  /** A separator-free name is its own basename. */
  lemma BasenameOfName(n: string)
    requires NoSep(n)
    ensures Basename(n) == n
  {
    assert RFind(n, Sep) == -1;
  }

  /** The extension `os.path.splitext` finds in `x + "." + e`, for a
      separator-free `x` that is not all dots and an extension word `e`
      holding neither a dot nor a separator, is `"." + e`. */
  lemma SplitextOfName(x: string, e: string)
    requires NoSep(x) && !AllDots(x)
    requires NoSep(e) && forall i :: 0 <= i < |e| ==> e[i] != '.'
    ensures Splitext(x + "." + e) == (x, "." + e)
  {
    var p := x + "." + e;
    DotThenWord(x, e);
    assert RFind(p, Sep) == -1 by {
      assert NoSep(p) by {
        forall j | 0 <= j < |p| ensures p[j] != Sep {
          if j < |x| { assert p[j] == x[j]; }
          else if j > |x| { assert p[j] == e[j - |x| - 1]; }
        }
      }
      NoSepRFind(p);
    }
    assert p[..|x|] == x;
    assert p[0..|x|] == x;
    assert p[|x|..] == "." + e;
  }

  /** The last dot of `x + "." + e` is the one before `e` when `e` has no dot. */
  lemma DotThenWord(x: string, e: string)
    requires forall i :: 0 <= i < |e| ==> e[i] != '.'
    ensures RFind(x + "." + e, '.') == |x|
  {
    var p := x + "." + e;
    forall j | |x| < j < |p| ensures p[j] != '.' {
      assert p[j] == e[j - |x| - 1];
    }
    RFindLast(p, '.', |x|);
  }

  /** A string without separators has no last separator. */
  lemma NoSepRFind(s: string)
    requires NoSep(s)
    ensures RFind(s, Sep) == -1
  {
  }

  /** `RFind` returns the index of the last occurrence when one is known. */
  lemma RFindLast(s: string, c: char, k: nat)
    requires k < |s| && s[k] == c
    requires forall j :: k < j < |s| ==> s[j] != c
    ensures RFind(s, c) == k
  {
  }

  /** A non-empty path has a non-empty stem (leading dots stay in the stem). */
  lemma StemNonEmpty(p: string)
    requires p != []
    ensures Stem(p) != []
  {
    var sepIndex := RFind(p, Sep);
    var dotIndex := RFind(p, '.');
    if dotIndex > sepIndex && !AllDots(p[sepIndex + 1..dotIndex]) {
      assert sepIndex + 1 < dotIndex;
    }
  }

  /** The stem of a separator-free name is separator-free. */
  lemma StemNoSep(n: string)
    requires NoSep(n)
    ensures NoSep(Stem(n))
  {
    var r := Splitext(n);
    assert n == r.0 + r.1;
    forall i | 0 <= i < |r.0| ensures r.0[i] != Sep {
      assert r.0[i] == n[i];
    }
  }

  /** `"input.mp3"` splits into the stem `"input"` and the extension `".mp3"`. */
  lemma StemOfInputMp3()
    ensures Stem("input.mp3") == "input"
  {
    assert "input.mp3" == "input" + "." + "mp3";
    assert "input"[0] != '.';
    SplitextOfName("input", "mp3");
  }

  /** Dropping the first character keeps a pattern absent. */
  lemma AbsentInTail(s: string, pat: string)
    requires |s| > 0 && !Occurs(s, pat)
    ensures !Occurs(s[1..], pat)
  {
    forall i | 0 <= i <= |s[1..]| && OccursAt(s[1..], pat, i) ensures false {
      assert s[1..][i..i + |pat|] == s[i + 1..i + 1 + |pat|];
      assert OccursAt(s, pat, i + 1);
    }
  }

  /** `str.replace` leaves a string without occurrences of the pattern unchanged. */
  lemma {:induction false} ReplaceAbsent(s: string, pat: string, rep: string)
    requires |pat| > 0 && !Occurs(s, pat)
    ensures ReplaceAll(s, pat, rep) == s
    decreases |s|
  {
    if |s| >= |pat| {
      assert !OccursAt(s, pat, 0);
      assert s[0..|pat|] == s[..|pat|];
      AbsentInTail(s, pat);
      ReplaceAbsent(s[1..], pat, rep);
    }
  }

  /** Removing a pattern appended to a string `x` that does not contain it
      gives back `x`: `(x + pat).replace(pat, "") == x`. The pattern's first
      character must not recur in it, so that no occurrence can start inside
      `x` and run into the appended copy (`_vocals` is such a pattern). */
  lemma {:induction false} ReplaceTrailing(x: string, pat: string)
    requires |pat| > 0 && !Occurs(x, pat)
    requires forall j :: 0 < j < |pat| ==> pat[j] != pat[0]
    ensures ReplaceAll(x + pat, pat, "") == x
    decreases |x|
  {
    var s := x + pat;
    if x == [] {
      assert s == pat && s[|pat|..] == [];
    } else {
      assert s[..|pat|] != pat by {
        if |x| >= |pat| {
          assert !OccursAt(x, pat, 0);
          assert s[..|pat|] == x[0..|pat|];
        } else {
          assert s[..|pat|][|x|] == pat[0];
          assert pat[|x|] != pat[0];
        }
      }
      assert s[1..] == x[1..] + pat;
      AbsentInTail(x, pat);
      ReplaceTrailing(x[1..], pat);
    }
  }

  /** Splitting a `/`-joined list of separator-free segments gives the list
      back: `"/".join(parts).split("/") == parts`. */
  lemma {:induction false} SegmentsUnsplit(parts: seq<string>)
    requires |parts| > 0
    requires forall i :: 0 <= i < |parts| ==> NoSep(parts[i])
    ensures Segments(Unsplit(parts)) == parts
  {
    if |parts| > 1 {
      var s := Unsplit(parts);
      var h := parts[0];
      var rest := Unsplit(parts[1..]);
      assert s == h + [Sep] + rest;
      assert s[|h|] == Sep;
      assert s[..|h|] == h;
      assert !NoSep(s);
      var i := Find(s, Sep);
      forall j | 0 <= j < |h| ensures s[j] != Sep {
        assert s[j] == h[j];
      }
      assert s[i + 1..] == rest;
      SegmentsUnsplit(parts[1..]);
    }
  }
}
