/**
 * A string model of the posix `path` functions the plugin calls
 * (`parse`, `join`, `dirname`, `basename`, `isAbsolute`). Separators are
 * '/', and `join` does not normalise `.`, `..` or repeated separators.
 */
module Paths {
  import opened Common

  /** The index of the last occurrence of `c` in `s`, if any. */
  function LastIndexOf(s: string, c: char): (r: Option<nat>)
    ensures r.Some? ==> r.value < |s| && s[r.value] == c
    ensures r.Some? ==> forall j :: r.value < j < |s| ==> s[j] != c
    ensures r.None? ==> c !in s
  {
    if |s| == 0 then None
    else if s[|s| - 1] == c then Some(|s| - 1)
    else
      var r := LastIndexOf(s[..|s| - 1], c);
      assert forall j :: 0 <= j < |s| - 1 ==> s[..|s| - 1][j] == s[j];
      r
  }

  /** The result of `path.parse`: directory, base name, name and extension. */
  datatype Parsed = Parsed(dir: string, base: string, name: string, ext: string)

  /** `path.parse(p).dir`: everything before the last separator ("/" for the root). */
  function Dir(p: string): string
  {
    match LastIndexOf(p, '/')
    case None => ""
    case Some(k) => if k == 0 then "/" else p[..k]
  }

  /** `path.basename(p)`: everything after the last separator. */
  function Base(p: string): string
  {
    match LastIndexOf(p, '/')
    case None => p
    case Some(k) => p[k + 1..]
  }

  /**
   * The extension of a base name: from its last '.', unless that dot is the
   * first character or the base name is "..".
   */
  function ExtOf(base: string): (ext: string)
    ensures ext == "" || (ext[0] == '.' && EndsWith(base, ext) && |ext| < |base|)
    ensures ext != "" ==> '.' !in ext[1..]
  {
    match LastIndexOf(base, '.')
    case None => ""
    case Some(d) =>
      if d == 0 || base == ".." then ""
      else
        assert forall j :: 0 <= j < |base| - d - 1 ==> base[d..][1..][j] == base[d + 1 + j];
        base[d..]
  }

  function Parse(p: string): (r: Parsed)
    ensures r.base == r.name + r.ext
  {
    var base := Base(p);
    var ext := ExtOf(base);
    Parsed(Dir(p), base, base[..|base| - |ext|], ext)
  }

  /** `path.format` of a parsed path. */
  function Format(q: Parsed): string
  {
    if q.dir == "" then q.base
    else if q.dir == "/" then "/" + q.base
    else q.dir + "/" + q.base
  }

  /** `path.format` undoes `path.parse` (for paths that do not start with "//"). */
  lemma ParseRoundTrip(p: string)
    requires !StartsWith(p, "//")
    ensures Format(Parse(p)) == p
  {
    match LastIndexOf(p, '/')
    case None =>
    case Some(k) =>
      if k == 0 {
        assert p == "/" + p[1..];
      } else {
        assert p[..k] != "/" by {
          assert k == 1 ==> p[..2] == [p[0], '/'];
        }
        assert p == p[..k] + "/" + p[k + 1..];
      }
  }

  /** `path.dirname`: "." when there is no separator. */
  function Dirname(p: string): (r: string)
    ensures r != ""
  {
    if Dir(p) == "" then "." else Dir(p)
  }

  predicate IsAbsolute(p: string)
  {
    |p| > 0 && p[0] == '/'
  }

  /** `path.join` of two segments, without normalisation. */
  function Join(a: string, b: string): (r: string)
    ensures a == "" || a == "." ==> r == b
    ensures a != "" && a != "." && b == "" ==> r == a
  {
    if a == "" || a == "." then b
    else if b == "" then a
    else if EndsWith(a, "/") then a + b
    else a + "/" + b
  }

  /** Joining a base name onto the directory it came from gives back the path. */
  lemma JoinDirBase(p: string)
    requires !Occurs(p, "//")
    requires Dir(p) != "" && Dir(p) != "." && Base(p) != ""
    ensures Join(Dir(p), Base(p)) == p
  {
    var k := LastIndexOf(p, '/').value;
    if k == 0 {
      assert p == "/" + p[1..];
    } else {
      assert p[k - 1] != '/' by {
        if p[k - 1] == '/' { assert OccursAt(p, "//", k - 1); }
      }
      assert !EndsWith(p[..k], "/");
      assert p == p[..k] + "/" + p[k + 1..];
    }
  }

  /** The last occurrence is the one with none after it. */
  lemma LastIndexOfIs(s: string, c: char, k: nat)
    requires k < |s| && s[k] == c
    requires forall j :: k < j < |s| ==> s[j] != c
    ensures LastIndexOf(s, c) == Some(k)
  {
  }

  /** A base name holds no separator. */
  lemma BaseHasNoSeparator(p: string)
    ensures '/' !in Base(p)
    ensures '/' !in Parse(p).name
  {
    var b := Base(p);
    match LastIndexOf(p, '/')
    case None =>
    case Some(k) =>
      assert forall j :: 0 <= j < |b| ==> b[j] == p[k + 1 + j];
    var n := Parse(p).name;
    assert forall j :: 0 <= j < |n| ==> n[j] == b[j];
  }

  /** `path.basename` of a base name is the base name itself. */
  lemma BaseIdempotent(p: string)
    ensures Base(Base(p)) == Base(p)
  {
    BaseHasNoSeparator(p);
  }

  /** Appending characters other than `c` leaves the last `c` where it was. */
  lemma {:induction false} LastIndexOfAppend(a: string, b: string, c: char)
    requires c !in b
    ensures LastIndexOf(a + b, c) == LastIndexOf(a, c)
    decreases |b|
  {
    if |b| == 0 {
      assert a + b == a;
    } else {
      var ab := a + b;
      assert ab[..|ab| - 1] == a + b[..|b| - 1];
      LastIndexOfAppend(a, b[..|b| - 1], c);
    }
  }

  /** Joining a separator-free name onto a directory: the name is the base, and the directory stays. */
  lemma JoinName(dir: string, name: string)
    requires name != "" && '/' !in name
    ensures Base(Join(dir, name)) == name
    ensures dir != "" && dir != "." && !EndsWith(dir, "/") ==> Dir(Join(dir, name)) == dir
  {
    if dir == "" || dir == "." {
      LastIndexOfAppend("", name, '/');
      assert "" + name == name;
    } else if EndsWith(dir, "/") {
      JoinAfterSeparator(dir, name);
    } else {
      JoinWithSeparator(dir, name);
    }
  }

  lemma JoinAfterSeparator(dir: string, name: string)
    requires '/' !in name && EndsWith(dir, "/")
    ensures Base(dir + name) == name
  {
    LastIndexOfAppend(dir, name, '/');
    assert LastIndexOf(dir, '/') == Some(|dir| - 1);
    assert (dir + name)[|dir|..] == name;
  }

  lemma JoinWithSeparator(dir: string, name: string)
    requires '/' !in name && dir != ""
    ensures Base(dir + "/" + name) == name
    ensures Dir(dir + "/" + name) == dir
  {
    var d := dir + "/";
    LastIndexOfAppend(d, name, '/');
    assert LastIndexOf(d, '/') == Some(|dir|);
    assert dir + "/" + name == d + name;
    assert (d + name)[|dir| + 1..] == name;
    assert (d + name)[..|dir|] == dir;
  }
}
