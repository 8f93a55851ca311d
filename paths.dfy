/**
 * Path strings as the layer builder manipulates them: pathlib's `/` operator and
 * `.name`, `os.path.join`, and Python's slicing of `str`.
 * Paths are plain strings; pathlib's normalisation (collapsing `//`, dropping `.`
 * components and trailing slashes) is not modelled beyond what is stated here.
 */
module Paths {

  type Path = string

  predicate IsAbsolute(p: string) {
    |p| > 0 && p[0] == '/'
  }

  predicate EndsWithSlash(p: string) {
    |p| > 0 && p[|p| - 1] == '/'
  }

  predicate IsPrefix(prefix: string, s: string) {
    |prefix| <= |s| && s[..|prefix|] == prefix
  }

  /** `p` is `dir` or lies below it. */
  predicate Under(p: Path, dir: Path) {
    p == dir || IsPrefix(if EndsWithSlash(dir) then dir else dir + "/", p)
  }

  /** A path as `Path.resolve()` leaves it: absolute, and without a trailing slash unless it is the root. */
  predicate IsResolved(p: Path) {
    IsAbsolute(p) && (EndsWithSlash(p) ==> p == "/")
  }

  /** A single path component naming an entry: not empty, without a separator, and neither `.` nor `..`. */
  predicate IsComponent(s: string) {
    s != "" && '/' !in s && s != "." && s != ".."
  }

  /** pathlib's `parent / segment`: an absolute segment replaces the parent. */
  function PathJoin(parent: Path, segment: string): Path {
    if IsAbsolute(segment) then segment
    else if EndsWithSlash(parent) then parent + segment
    else parent + "/" + segment
  }

  /** `os.path.join(a, b)` for two components, as posixpath defines it. */
  function PosixJoin(a: string, b: string): string {
    if IsAbsolute(b) then b
    else if a == "" || EndsWithSlash(a) then a + b
    else a + "/" + b
  }

  /** pathlib's `.name`: the text after the last separator. */
  function BaseName(p: Path): (r: string)
    ensures '/' !in r
    ensures |r| <= |p| && p[|p| - |r|..] == r
  {
    if p == "" || p[|p| - 1] == '/' then ""
    else BaseName(p[..|p| - 1]) + [p[|p| - 1]]
  }

  /** pathlib's `.parent` for a path whose last component is not empty. */
  function Parent(p: Path): Path {
    var n := |p| - |BaseName(p)|;
    if n == 0 then "." else if n == 1 then p[..1] else p[..n - 1]
  }

  /** A Python slice bound resolved against a length: negative bounds count from the end, then clamp. */
  function SliceBound(i: int, n: nat): (r: nat)
    ensures r <= n
  {
    if i < 0 then (if i + n < 0 then 0 else i + n)
    else if i > n then n
    else i
  }

  /** Python's `s[start:stop]` on a `str`. */
  function Slice(s: string, start: int, stop: int): (r: string)
    ensures |r| <= |s|
  {
    var a, b := SliceBound(start, |s|), SliceBound(stop, |s|);
    if a < b then s[a..b] else ""
  }

  /** Python's `s[n:]` for a non-negative `n`. */
  function Drop(s: string, n: nat): (r: string)
    ensures r == Slice(s, n, |s|)
  {
    if n <= |s| then s[n..] else ""
  }

  /** `.name` of a joined path is the segment joined, when the segment is one component. */
  lemma {:induction false} BaseNameOfJoin(parent: Path, segment: string)
    requires IsComponent(segment)
    ensures BaseName(PathJoin(parent, segment)) == segment
  {
    var p := PathJoin(parent, segment);
    assert p == (if EndsWithSlash(parent) then parent else parent + "/") + segment;
    BaseNameAfterSlash(if EndsWithSlash(parent) then parent else parent + "/", segment);
  }

  lemma {:induction false} BaseNameAfterSlash(head: string, tail: string)
    requires EndsWithSlash(head) && '/' !in tail
    ensures BaseName(head + tail) == tail
    decreases |tail|
  {
    if tail == [] {
      assert head + tail == head && head[|head| - 1] == '/';
    } else {
      var init, last := tail[..|tail| - 1], tail[|tail| - 1];
      assert last != '/' by { assert tail[|tail| - 1] in tail; }
      assert '/' !in init by {
        assert forall k :: 0 <= k < |init| ==> init[k] == tail[k];
      }
      BaseNameAfterSlash(head, init);
      var p := head + tail;
      assert p[..|p| - 1] == head + init && p[|p| - 1] == last;
      assert BaseName(p) == BaseName(head + init) + [last];
      assert tail == init + [last];
    }
  }

  /** Joining different relative segments onto one parent gives different paths. */
  lemma PathJoinInjective(parent: Path, a: string, b: string)
    requires !IsAbsolute(a) && !IsAbsolute(b) && a != b
    ensures PathJoin(parent, a) != PathJoin(parent, b)
  {
    var head := if EndsWithSlash(parent) then parent else parent + "/";
    assert PathJoin(parent, a) == head + a && PathJoin(parent, b) == head + b;
    assert (head + a)[|head|..] == a && (head + b)[|head|..] == b;
  }

  /** `.parent` of a resolved directory joined with one component is that directory. */
  lemma ParentOfJoin(dir: Path, segment: string)
    requires IsResolved(dir) && IsComponent(segment)
    ensures Parent(PathJoin(dir, segment)) == dir
  {
    BaseNameOfJoin(dir, segment);
    var p := PathJoin(dir, segment);
    if dir == "/" {
      assert p == "/" + segment;
    } else {
      assert p == dir + "/" + segment;
      assert p[..|dir|] == dir;
    }
  }

  /** Joining `dir/file` to a resolved directory is joining `dir`, then `file`; the middle path is resolved too. */
  lemma JoinNested(parent: Path, dir: string, file: string)
    requires IsResolved(parent) && IsComponent(dir) && IsComponent(file)
    ensures IsResolved(PathJoin(parent, dir))
    ensures PathJoin(parent, dir + "/" + file) == PathJoin(PathJoin(parent, dir), file)
  {
    assert dir[0] != '/' by { assert dir[0] in dir; }
    assert file[0] != '/' by { assert file[0] in file; }
    assert dir[|dir| - 1] != '/' by { assert dir[|dir| - 1] in dir; }
    var head := if EndsWithSlash(parent) then parent else parent + "/";
    var sub := head + dir;
    assert PathJoin(parent, dir) == sub;
    assert sub[|sub| - 1] == dir[|dir| - 1];
    assert sub[0] == parent[0];
    assert (dir + "/" + file)[0] == dir[0];
    assert PathJoin(parent, dir + "/" + file) == head + (dir + "/" + file);
    assert head + (dir + "/" + file) == sub + "/" + file;
  }

  /** `.parent` of `parent / "dir/file"` is `parent / dir`. */
  lemma ParentOfNested(parent: Path, dir: string, file: string)
    requires IsResolved(parent) && IsComponent(dir) && IsComponent(file)
    ensures Parent(PathJoin(parent, dir + "/" + file)) == PathJoin(parent, dir)
  {
    JoinNested(parent, dir, file);
    ParentOfJoin(PathJoin(parent, dir), file);
  }

  /** A resolved directory joined with one component is resolved, and longer. */
  lemma ChildIsResolved(dir: Path, segment: string)
    requires IsResolved(dir) && IsComponent(segment)
    ensures IsResolved(PathJoin(dir, segment)) && |PathJoin(dir, segment)| > |dir|
  {
    assert segment[0] != '/' by { assert segment[0] in segment; }
    assert segment[|segment| - 1] != '/' by { assert segment[|segment| - 1] in segment; }
    var p := PathJoin(dir, segment);
    assert p[0] == dir[0] && p[|p| - 1] == segment[|segment| - 1];
  }
}
