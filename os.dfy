/**
 * The filesystem as the layer builder sees it: a map from path strings to nodes,
 * held by a FileSystem object whose methods change it the way `open(..., 'a')`,
 * `file.write` and `Path.mkdir` do.
 */
module Os {
  import opened Wrappers
  import opened Paths

  datatype Node = File(text: string) | Dir

  /** The `OSError` subclasses the modelled operations raise, with the path they name. */
  datatype OsError =
    | FileNotFound(path: Path)
    | IsADirectory(path: Path)
    | NotADirectory(path: Path)

  predicate IsFile(nodes: map<Path, Node>, p: Path) {
    p in nodes && nodes[p].File?
  }

  predicate IsDir(nodes: map<Path, Node>, p: Path) {
    p in nodes && nodes[p].Dir?
  }

  /** What a file holds; a path that is not a file holds nothing yet. */
  function Contents(nodes: map<Path, Node>, p: Path): string {
    if IsFile(nodes, p) then nodes[p].text else ""
  }

  /**
   * Whether looking up `d` as a directory meets a file first: going up from `d`,
   * a file is found before a directory. A directory in the map is taken to be
   * reachable, as it is in a real filesystem.
   */
  predicate BlockedByFile(nodes: map<Path, Node>, d: Path)
    decreases |d|
  {
    if IsFile(nodes, d) then true
    else if IsDir(nodes, d) || |Parent(d)| >= |d| then false
    else BlockedByFile(nodes, Parent(d))
  }

  /**
   * The error that opening `p` for writing raises, if any: `IsADirectoryError` on a
   * directory, `NotADirectoryError` when a file stands where a directory above `p`
   * should be, `FileNotFoundError` when a directory above `p` is missing.
   */
  function OpenForWriteError(nodes: map<Path, Node>, p: Path): (r: Option<OsError>)
    ensures r.None? <==> !IsDir(nodes, p) && IsDir(nodes, Parent(p))
    ensures r.Some? ==> r.value.path == p
  {
    if IsDir(nodes, p) then Some(IsADirectory(p))
    else if IsDir(nodes, Parent(p)) then None
    else if BlockedByFile(nodes, Parent(p)) then Some(NotADirectory(p))
    else Some(FileNotFound(p))
  }

  /** A path whose parent is missing and whose grandparent is a file gives `NotADirectoryError`, not `FileNotFoundError`. */
  lemma {:induction false} OpenBelowFile(nodes: map<Path, Node>, file: Path, dir: string, name: string)
    requires IsResolved(file) && IsFile(nodes, file)
    requires IsComponent(dir) && IsComponent(name)
    requires PathJoin(file, dir) !in nodes && !IsDir(nodes, PathJoin(PathJoin(file, dir), name))
    ensures OpenForWriteError(nodes, PathJoin(PathJoin(file, dir), name))
         == Some(NotADirectory(PathJoin(PathJoin(file, dir), name)))
  {
    var sub := PathJoin(file, dir);
    var p := PathJoin(sub, name);
    ChildIsResolved(file, dir);
    ParentOfJoin(file, dir);
    ParentOfJoin(sub, name);
    assert BlockedByFile(nodes, sub);
  }

  class FileSystem {
    var nodes: map<Path, Node>

    constructor (nodes: map<Path, Node>)
      ensures this.nodes == nodes
    {
      this.nodes := nodes;
    }

    /** `open(p, 'a')`: creates an empty file when none exists and keeps an existing one as it is. */
    method OpenAppend(p: Path) returns (err: Option<OsError>)
      modifies this
      ensures err == OpenForWriteError(old(nodes), p)
      ensures err.Some? ==> nodes == old(nodes)
      ensures err.None? ==> nodes == old(nodes)[p := File(Contents(old(nodes), p))]
      ensures err.None? ==> IsFile(nodes, p)
    {
      err := OpenForWriteError(nodes, p);
      if err.None? {
        nodes := nodes[p := File(Contents(nodes, p))];
      }
    }

    /** `write` on a file opened for appending: the text goes after what is there. */
    method Append(p: Path, text: string)
      requires IsFile(nodes, p)
      modifies this
      ensures nodes == old(nodes)[p := File(old(nodes)[p].text + text)]
    {
      nodes := nodes[p := File(nodes[p].text + text)];
    }

    /** `Path.mkdir(exist_ok=True)` on a path that is not a file: a directory is there afterwards. */
    method MakeDir(p: Path)
      requires !IsFile(nodes, p)
      modifies this
      ensures nodes == old(nodes)[p := Dir]
    {
      nodes := nodes[p := Dir];
    }
  }
}
