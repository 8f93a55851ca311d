/**
 * Building a layer with bash: create a virtualenv, write `requirements.txt`,
 * install it with pip, ask the interpreter where site-packages is, zip that
 * directory, and name the copy in the dist directory.
 *
 * External processes are not run: what each one prints is an input (`Reply`),
 * and a `Runner` records the commands issued. The walk of site-packages is a
 * given sequence of `os.walk` steps.
 */
module Bash {
  import opened Wrappers
  import opened Paths
  import opened Text
  import opened Os
  import Config

  /** What an external process did: its decoded standard output and error, and its exit code. */
  datatype Reply = Reply(stdout: string, stderr: string, returncode: int)

  /** `ProcOutput`, the record `_run` returns. */
  datatype ProcOutput = ProcOutput(stdout: string, stderr: string)

  /** A command handed to `Popen`: an argument vector, or a one-element list holding a bash command line. */
  datatype Invocation = Invocation(cmd: seq<string>, shell: bool)

  /** Issues commands and records them in order. */
  class Runner {
    var log: seq<Invocation>

    constructor ()
      ensures log == []
    {
      log := [];
    }

    /**
     * `_run`: the command is issued, and the record holds the decoded standard
     * output in both fields; standard error and the exit code are never in the
     * result, and a failing command returns like a successful one.
     */
    method Run(cmd: seq<string>, shell: bool, reply: Reply) returns (output: ProcOutput)
      modifies this
      ensures log == old(log) + [Invocation(cmd, shell)]
      ensures output.stdout == reply.stdout && output.stderr == reply.stdout
    {
      output := ProcOutput(reply.stdout, reply.stdout);
      log := log + [Invocation(cmd, shell)];
    }
  }

  // ---------------------------------------------------------------------------
  // _venv

  function VenvCall(path: Path): Invocation {
    Invocation(["python", "-m", "venv", path], false)
  }

  /**
   * `_venv`: issues `python -m venv <path>` without a shell and hands the path back.
   * The tool leaves a directory at the path; what it puts inside is not modelled.
   */
  method Venv(runner: Runner, fs: FileSystem, path: Path, reply: Reply) returns (r: Path)
    requires !IsFile(fs.nodes, path)
    modifies runner, fs
    ensures r == path
    ensures runner.log == old(runner.log) + [Invocation(["python", "-m", "venv", path], false)]
    ensures fs.nodes == old(fs.nodes)[path := Dir]
  {
    var cmd := ["python", "-m", "venv", path];
    var _ := runner.Run(cmd, false, reply);
    fs.MakeDir(path);
    r := path;
  }

  // ---------------------------------------------------------------------------
  // _requirements

  /** The text `_requirements` writes: each package followed by a newline, in order. */
  function Manifest(packages: seq<string>): string {
    if packages == [] then ""
    else Manifest(packages[..|packages| - 1]) + packages[|packages| - 1] + "\n"
  }

  /**
   * `_requirements`: opens the resolved path in append mode and writes one line
   * per package. What the file held before stays in front; the resolved path is
   * returned. Opening fails on a directory or a missing parent, and then nothing changes.
   */
  method Requirements(fs: FileSystem, resolve: Path -> Path, path: Path, packages: seq<string>)
    returns (r: Result<Path, OsError>)
    modifies fs
    ensures OpenForWriteError(old(fs.nodes), resolve(path)).Some? ==>
      r == Err(OpenForWriteError(old(fs.nodes), resolve(path)).value) && fs.nodes == old(fs.nodes)
    ensures OpenForWriteError(old(fs.nodes), resolve(path)).None? ==>
      && r == Ok(resolve(path))
      && fs.nodes == old(fs.nodes)[resolve(path) := File(Contents(old(fs.nodes), resolve(path)) + Manifest(packages))]
  {
    var p := resolve(path);
    var err := fs.OpenAppend(p);
    if err.Some? {
      return Err(err.value);
    }
    ghost var before := Contents(old(fs.nodes), p);
    assert packages[..0] == [] && before + Manifest([]) == before;
    var i := 0;
    while i < |packages|
      invariant 0 <= i <= |packages|
      invariant fs.nodes == old(fs.nodes)[p := File(before + Manifest(packages[..i]))]
    {
      fs.Append(p, packages[i] + "\n");
      ManifestPrefix(before, packages, i);
      i := i + 1;
    }
    assert packages[..|packages|] == packages;
    r := Ok(p);
  }

  /** One more package written after a manifest prefix gives the next prefix. */
  lemma ManifestPrefix(before: string, packages: seq<string>, i: nat)
    requires i < |packages|
    ensures before + Manifest(packages[..i]) + (packages[i] + "\n") == before + Manifest(packages[..i + 1])
  {
    assert packages[..i + 1][..i] == packages[..i];
    assert Manifest(packages[..i + 1]) == Manifest(packages[..i]) + packages[i] + "\n";
  }

  lemma ManifestEndsWithNewline(packages: seq<string>)
    ensures var m := Manifest(packages); m == [] || m[|m| - 1] == '\n'
  {
  }

  /** The manifest read back as lines is the package list: one line per package, in order, nothing dropped or merged. */
  lemma {:induction false} ManifestLines(packages: seq<string>)
    requires forall i :: 0 <= i < |packages| ==> '\n' !in packages[i]
    ensures Lines(Manifest(packages)) == packages
  {
    if packages != [] {
      var init, last := packages[..|packages| - 1], packages[|packages| - 1];
      assert forall i :: 0 <= i < |init| ==> init[i] == packages[i];
      ManifestLines(init);
      ManifestEndsWithNewline(init);
      ConcatAssoc(Manifest(init), last, "\n");
      LinesAfterWholeLines(Manifest(init), last);
      assert packages == init + [last];
    }
  }

  /** One more line after text made of whole lines adds exactly that line. */
  lemma LinesAfterWholeLines(text: string, line: string)
    requires text == [] || text[|text| - 1] == '\n'
    requires '\n' !in line
    ensures Lines(text + (line + "\n")) == Lines(text) + [line]
  {
    LinesOfConcat(text, line + "\n");
    LinesOfSingleLine(line);
  }

  lemma LinesOfSingleLine(line: string)
    requires '\n' !in line
    ensures Lines(line + "\n") == [line]
  {
    LinesOfLine(line, "");
    assert line + "\n" + "" == line + "\n";
  }

  /** Writing two lists one after the other writes the manifest of their concatenation. */
  lemma {:induction false} ManifestConcat(a: seq<string>, b: seq<string>)
    ensures Manifest(a + b) == Manifest(a) + Manifest(b)
  {
    if b == [] {
      assert a + b == a;
    } else {
      var init, last := b[..|b| - 1], b[|b| - 1];
      assert (a + b)[..|a + b| - 1] == a + init;
      ManifestConcat(a, init);
    }
  }

  /**
   * Appending to a file that already holds whole lines: the file's lines become
   * the old lines followed by the packages, so a reused path unions old entries with new ones.
   */
  lemma AppendedLines(existing: string, packages: seq<string>)
    requires existing == [] || existing[|existing| - 1] == '\n'
    requires forall i :: 0 <= i < |packages| ==> '\n' !in packages[i]
    ensures Lines(existing + Manifest(packages)) == Lines(existing) + packages
  {
    LinesOfConcat(existing, Manifest(packages));
    ManifestLines(packages);
  }

  // ---------------------------------------------------------------------------
  // _install

  function Activate(venv: Path): string {
    "source " + venv + "/bin/activate"
  }

  const UpgradePip: string := "pip3 install --upgrade pip"

  function PipInstall(requirements: Path): string {
    "pip3 install -r " + requirements
  }

  /** The steps `_install` chains: activate, optionally upgrade pip, install the requirements. */
  function InstallSteps(venv: Path, requirements: Path, upgradePip: bool): seq<string> {
    [Activate(venv)] + (if upgradePip then [UpgradePip] else []) + [PipInstall(requirements)]
  }

  function InstallCall(venv: Path, requirements: Path, upgradePip: bool): Invocation {
    Invocation([JoinWith(" && ", InstallSteps(venv, requirements, upgradePip))], true)
  }

  /** `_install`: one bash invocation whose single command line chains the steps with ` && `. */
  method Install(runner: Runner, venv: Path, requirements: Path, upgradePip: bool, reply: Reply)
    modifies runner
    ensures runner.log == old(runner.log) + [InstallCall(venv, requirements, upgradePip)]
  {
    var cmds := [Activate(venv)];
    if upgradePip {
      cmds := cmds + [UpgradePip];
    }
    cmds := cmds + [PipInstall(requirements)];
    var cmd := [JoinWith(" && ", cmds)];
    var _ := runner.Run(cmd, true, reply);
  }

  /** The exact command line `_install` hands to bash, with and without the pip upgrade. */
  lemma InstallCommandLine(venv: Path, requirements: Path, upgradePip: bool)
    ensures InstallCall(venv, requirements, upgradePip).shell
    ensures InstallCall(venv, requirements, upgradePip).cmd ==
      if upgradePip then
        ["source " + venv + "/bin/activate" + " && " + "pip3 install --upgrade pip" + " && " + "pip3 install -r " + requirements]
      else
        ["source " + venv + "/bin/activate" + " && " + "pip3 install -r " + requirements]
  {
    var steps := InstallSteps(venv, requirements, upgradePip);
    if upgradePip {
      assert steps == [Activate(venv), UpgradePip, PipInstall(requirements)];
      assert steps[1..][1..] == [PipInstall(requirements)];
      assert JoinWith(" && ", steps[1..]) == UpgradePip + " && " + PipInstall(requirements);
      assert JoinWith(" && ", steps) == Activate(venv) + " && " + (UpgradePip + " && " + PipInstall(requirements));
      ConcatAssoc(Activate(venv) + " && ", UpgradePip + " && ", PipInstall(requirements));
      ConcatAssoc(Activate(venv) + " && " + UpgradePip + " && ", "pip3 install -r ", requirements);
      ConcatAssoc(Activate(venv) + " && ", UpgradePip, " && ");
    } else {
      assert steps == [Activate(venv), PipInstall(requirements)];
      assert steps[1..] == [PipInstall(requirements)];
      assert JoinWith(" && ", steps) == Activate(venv) + " && " + PipInstall(requirements);
      ConcatAssoc(Activate(venv) + " && ", "pip3 install -r ", requirements);
    }
  }

  /** Two steps without the upgrade, three with it, and the upgrade only ever in the middle. */
  lemma InstallStepsShape(venv: Path, requirements: Path, upgradePip: bool)
    ensures var steps := InstallSteps(venv, requirements, upgradePip);
      && |steps| == (if upgradePip then 3 else 2)
      && steps[0] == Activate(venv)
      && steps[|steps| - 1] == PipInstall(requirements)
      && (UpgradePip in steps <==> upgradePip)
      && (upgradePip ==> steps[1] == UpgradePip)
  {
    var steps := InstallSteps(venv, requirements, upgradePip);
    assert Activate(venv)[0] == 's' && UpgradePip[0] == 'p';
    assert PipInstall(requirements)[14] == 'r' && UpgradePip[14] == '-';
    if !upgradePip {
      assert steps == [Activate(venv), PipInstall(requirements)];
    }
  }

  // ---------------------------------------------------------------------------
  // _site_packages

  const QuerySitePackages: string := "python -c \"import site; print(site.getsitepackages())\""

  function QueryCall(venv: Path): Invocation {
    Invocation([JoinWith(" && ", [Activate(venv), QuerySitePackages])], true)
  }

  /** `Path(s)`: the empty string names the current directory. */
  function PathOf(s: string): Path {
    if s == "" then "." else s
  }

  /** The path `_site_packages` makes of the interpreter's output: `Path(stdout[2:-3])`. */
  function SitePackagesPath(stdout: string): Path {
    PathOf(Slice(stdout, 2, -3))
  }

  /** `_site_packages`: runs the query in the activated venv and cuts the path out of what it printed. */
  method SitePackages(runner: Runner, venv: Path, reply: Reply) returns (p: Path)
    modifies runner
    ensures runner.log == old(runner.log) + [QueryCall(venv)]
    ensures p == SitePackagesPath(reply.stdout)
  {
    var cmds := [Activate(venv), QuerySitePackages];
    var output := runner.Run([JoinWith(" && ", cmds)], true, reply);
    p := PathOf(Slice(output.stdout, 2, -3));
  }

  /** A one-element list printed by Python, `['<path>']` and a newline, gives back the path. */
  lemma SitePackagesOfListing(path: string)
    requires path != ""
    ensures SitePackagesPath("['" + path + "']\n") == path
  {
    var s := "['" + path + "']\n";
    assert s[2..|s| - 3] == path;
  }

  /** The cut drops the first two and the last three characters, whatever they are. */
  lemma SitePackagesCut(stdout: string)
    ensures |stdout| > 5 ==> SitePackagesPath(stdout) == stdout[2..|stdout| - 3]
    ensures |stdout| <= 5 ==> SitePackagesPath(stdout) == "."
  {
  }

  /** With two directories listed, the result is not a path of either: the quotes and separator stay inside. */
  lemma SitePackagesOfTwo(a: string, b: string)
    ensures SitePackagesPath("['" + a + "', '" + b + "']\n") == a + "', '" + b
  {
    var s := "['" + a + "', '" + b + "']\n";
    assert s[2..|s| - 3] == a + "', '" + b;
  }

  // ---------------------------------------------------------------------------
  // _archive

  /** One step of `os.walk`: a directory and the names of the files in it. */
  datatype WalkStep = WalkStep(root: Path, files: seq<string>)

  /** A `zip.write` call: the file read, and the arcname passed for it. */
  datatype ZipEntry = ZipEntry(source: Path, arcname: string)

  /** An open `ZipFile` in write mode: it starts empty and gains one entry per `write`. */
  class ZipArchive {
    const path: Path
    var entries: seq<ZipEntry>

    constructor (path: Path)
      ensures this.path == path && entries == []
    {
      this.path := path;
      entries := [];
    }

    method Write(source: Path, arcname: string)
      modifies this
      ensures entries == old(entries) + [ZipEntry(source, arcname)]
    {
      entries := entries + [ZipEntry(source, arcname)];
    }
  }

  /** The arcname passed to `zip.write` for a walked file: its path with as many characters dropped as the site-packages path has. */
  function ArcName(sitePackages: Path, path: Path): string {
    Drop(path, |sitePackages|)
  }

  function StepPaths(step: WalkStep): (r: seq<Path>)
    ensures |r| == |step.files|
  {
    seq(|step.files|, k requires 0 <= k < |step.files| => PosixJoin(step.root, step.files[k]))
  }

  /** Every file path the walk produces, step by step. */
  function WalkedPaths(walk: seq<WalkStep>): seq<Path> {
    if walk == [] then [] else WalkedPaths(walk[..|walk| - 1]) + StepPaths(walk[|walk| - 1])
  }

  function EntriesFor(sitePackages: Path, paths: seq<Path>): (r: seq<ZipEntry>)
    ensures |r| == |paths|
  {
    seq(|paths|, k requires 0 <= k < |paths| => ZipEntry(paths[k], ArcName(sitePackages, paths[k])))
  }

  /** The entries `_archive` writes for a walk, in walk order. */
  function ArchiveEntries(sitePackages: Path, walk: seq<WalkStep>): seq<ZipEntry> {
    EntriesFor(sitePackages, WalkedPaths(walk))
  }

  /** `_archive`: one `write` per walked file, named by `ArcName`; the archive path is handed back. */
  method Archive(sitePackages: Path, archive: Path, walk: seq<WalkStep>) returns (r: Path, zip: ZipArchive)
    ensures fresh(zip) && zip.path == archive && r == archive
    ensures zip.entries == ArchiveEntries(sitePackages, walk)
  {
    zip := new ZipArchive(archive);
    var i := 0;
    while i < |walk|
      invariant 0 <= i <= |walk|
      invariant fresh(zip) && zip.path == archive
      invariant zip.entries == ArchiveEntries(sitePackages, walk[..i])
    {
      WriteStep(zip, sitePackages, walk[i]);
      assert walk[..i + 1][..i] == walk[..i];
      EntriesForConcat(sitePackages, WalkedPaths(walk[..i]), StepPaths(walk[i]));
      i := i + 1;
    }
    assert walk[..|walk|] == walk;
    r := archive;
  }

  /** The inner loop of `_archive`: the files of one walk step, written in order. */
  method WriteStep(zip: ZipArchive, sitePackages: Path, step: WalkStep)
    modifies zip
    ensures zip.entries == old(zip.entries) + EntriesFor(sitePackages, StepPaths(step))
  {
    var prefixLen := |sitePackages|;
    var paths := StepPaths(step);
    var j := 0;
    while j < |step.files|
      invariant 0 <= j <= |step.files|
      invariant zip.entries == old(zip.entries) + EntriesFor(sitePackages, paths[..j])
    {
      var path := PosixJoin(step.root, step.files[j]);
      var arcname := Drop(path, prefixLen);
      assert paths[..j + 1] == paths[..j] + [path];
      EntriesForSnoc(sitePackages, paths[..j], path);
      zip.Write(path, arcname);
      j := j + 1;
    }
    assert paths[..j] == paths;
  }

  lemma EntriesForSnoc(sitePackages: Path, paths: seq<Path>, path: Path)
    ensures EntriesFor(sitePackages, paths + [path])
         == EntriesFor(sitePackages, paths) + [ZipEntry(path, ArcName(sitePackages, path))]
  {
  }

  lemma EntriesForConcat(sitePackages: Path, a: seq<Path>, b: seq<Path>)
    ensures EntriesFor(sitePackages, a + b) == EntriesFor(sitePackages, a) + EntriesFor(sitePackages, b)
  {
  }

  /** The number of files the walk lists. */
  function FileCount(walk: seq<WalkStep>): nat {
    if walk == [] then 0 else |walk[0].files| + FileCount(walk[1..])
  }

  lemma {:induction false} FileCountSnoc(walk: seq<WalkStep>, step: WalkStep)
    ensures FileCount(walk + [step]) == FileCount(walk) + |step.files|
  {
    if walk != [] {
      assert (walk + [step])[1..] == walk[1..] + [step];
      FileCountSnoc(walk[1..], step);
    } else {
      assert [step][1..] == [];
    }
  }

  /** The archive has exactly as many entries as the walk lists files. */
  lemma {:induction false} ArchiveEntryCount(sitePackages: Path, walk: seq<WalkStep>)
    ensures |ArchiveEntries(sitePackages, walk)| == FileCount(walk)
  {
    if walk != [] {
      var init, last := walk[..|walk| - 1], walk[|walk| - 1];
      ArchiveEntryCount(sitePackages, init);
      FileCountSnoc(init, last);
      assert init + [last] == walk;
    }
  }

  /** Every file of every walk step is in the archive, read from its joined path and passed to `zip.write` with its arcname. */
  lemma {:induction false} EveryWalkedFileArchived(sitePackages: Path, walk: seq<WalkStep>, i: nat, j: nat)
    requires i < |walk| && j < |walk[i].files|
    ensures var path := PosixJoin(walk[i].root, walk[i].files[j]);
      ZipEntry(path, ArcName(sitePackages, path)) in ArchiveEntries(sitePackages, walk)
  {
    var path := PosixJoin(walk[i].root, walk[i].files[j]);
    var init, last := walk[..|walk| - 1], walk[|walk| - 1];
    if i == |walk| - 1 {
      var k := |WalkedPaths(init)| + j;
      assert WalkedPaths(walk)[k] == StepPaths(last)[j] == path;
      assert ArchiveEntries(sitePackages, walk)[k] == ZipEntry(path, ArcName(sitePackages, path));
    } else {
      EveryWalkedFileArchived(sitePackages, init, i, j);
      var e := ZipEntry(path, ArcName(sitePackages, path));
      var k :| 0 <= k < |ArchiveEntries(sitePackages, init)| && ArchiveEntries(sitePackages, init)[k] == e;
      assert WalkedPaths(walk)[k] == WalkedPaths(init)[k];
      assert ArchiveEntries(sitePackages, walk)[k] == e;
    }
  }

  /** Every entry of the archive comes from a file of some walk step. */
  lemma {:induction false} EveryEntryWalked(sitePackages: Path, walk: seq<WalkStep>, k: nat)
    requires k < |ArchiveEntries(sitePackages, walk)|
    ensures exists i, j :: (0 <= i < |walk| && 0 <= j < |walk[i].files|
      && ArchiveEntries(sitePackages, walk)[k].source == PosixJoin(walk[i].root, walk[i].files[j]))
  {
    var init, last := walk[..|walk| - 1], walk[|walk| - 1];
    var source := ArchiveEntries(sitePackages, walk)[k].source;
    if k < |WalkedPaths(init)| {
      assert source == WalkedPaths(init)[k];
      EveryEntryWalked(sitePackages, init, k);
      var i, j :| 0 <= i < |init| && 0 <= j < |init[i].files|
        && ArchiveEntries(sitePackages, init)[k].source == PosixJoin(init[i].root, init[i].files[j]);
      assert init[i] == walk[i];
    } else {
      var j := k - |WalkedPaths(init)|;
      assert source == StepPaths(last)[j];
      assert walk[|walk| - 1].files[j] == last.files[j];
    }
  }

  /** Putting the site-packages path back in front of an arcname gives the file's path: nothing else is added. */
  lemma ArcNameRestoresPath(sitePackages: Path, path: Path)
    requires IsPrefix(sitePackages, path)
    ensures sitePackages + ArcName(sitePackages, path) == path
  {
    assert path == path[..|sitePackages|] + path[|sitePackages|..];
  }

  /** A file directly below site-packages gets the arcname `/` and its relative path, with no root prefix. */
  lemma ArcNameOfChild(sitePackages: Path, relative: string)
    ensures ArcName(sitePackages, sitePackages + "/" + relative) == "/" + relative
  {
    var p := sitePackages + "/" + relative;
    assert p[|sitePackages|..] == "/" + relative;
  }

  /**
   * The member name `zipfile` stores for an arcname: leading separators are
   * stripped, so the member sits at the root of the archive.
   */
  function StoredName(arcname: string): (r: string)
    ensures r == "" || r[0] != '/'
    ensures |r| <= |arcname| && arcname[|arcname| - |r|..] == r
    ensures (arcname == "" || arcname[0] != '/') ==> r == arcname
    ensures forall k :: 0 <= k < |arcname| - |r| ==> arcname[k] == '/'
  {
    if arcname != "" && arcname[0] == '/' then StoredName(arcname[1..]) else arcname
  }

  /** A file `sp/rel` is passed as `/rel` and stored as `rel`: no root prefix, no leading separator. */
  lemma StoredNameOfChild(sitePackages: Path, relative: string)
    requires relative != "" && relative[0] != '/'
    ensures StoredName(ArcName(sitePackages, sitePackages + "/" + relative)) == relative
  {
    ArcNameOfChild(sitePackages, relative);
    assert ("/" + relative)[1..] == relative;
  }

  /** Distinct files below site-packages get distinct arcnames. */
  lemma ArcNamesDistinct(sitePackages: Path, p: Path, q: Path)
    requires IsPrefix(sitePackages, p) && IsPrefix(sitePackages, q) && p != q
    ensures ArcName(sitePackages, p) != ArcName(sitePackages, q)
  {
    ArcNameRestoresPath(sitePackages, p);
    ArcNameRestoresPath(sitePackages, q);
  }

  /** The shape `os.walk(site_packages)` gives: every root is site-packages or below it, and file names are components. */
  predicate WalkOf(sitePackages: Path, walk: seq<WalkStep>) {
    forall i :: 0 <= i < |walk| ==>
      && Under(walk[i].root, sitePackages)
      && !EndsWithSlash(walk[i].root)
      && forall j :: 0 <= j < |walk[i].files| ==> IsComponent(walk[i].files[j])
  }

  /**
   * For a walk of site-packages, every arcname starts with `/` and is the rest of
   * the file's path after the site-packages path.
   */
  lemma ArchivedBelowSitePackages(sitePackages: Path, walk: seq<WalkStep>, k: nat)
    requires IsResolved(sitePackages) && sitePackages != "/"
    requires WalkOf(sitePackages, walk)
    requires k < |ArchiveEntries(sitePackages, walk)|
    ensures var e := ArchiveEntries(sitePackages, walk)[k];
      && sitePackages + e.arcname == e.source
      && |e.arcname| > 0 && e.arcname[0] == '/'
  {
    EveryEntryWalked(sitePackages, walk, k);
    var i, j :| 0 <= i < |walk| && 0 <= j < |walk[i].files|
      && ArchiveEntries(sitePackages, walk)[k].source == PosixJoin(walk[i].root, walk[i].files[j]);
    ArcNameOfWalkedFile(sitePackages, walk[i].root, walk[i].files[j]);
  }

  lemma ArcNameOfWalkedFile(sitePackages: Path, root: Path, file: string)
    requires IsResolved(sitePackages) && sitePackages != "/"
    requires Under(root, sitePackages) && !EndsWithSlash(root) && IsComponent(file)
    ensures var path := PosixJoin(root, file);
      && sitePackages + ArcName(sitePackages, path) == path
      && |ArcName(sitePackages, path)| > 0 && ArcName(sitePackages, path)[0] == '/'
  {
    var sp := sitePackages;
    assert file[0] != '/' by { assert file[0] in file; }
    var path := root + "/" + file;
    assert PosixJoin(root, file) == path;
    assert path[..|sp| + 1] == sp + "/" by {
      if root == sp {
        assert path[..|sp| + 1] == sp + "/";
      } else {
        assert root[..|sp| + 1] == sp + "/";
        assert path[..|root|] == root;
      }
    }
    assert path[..|sp|] == sp;
    ArcNameRestoresPath(sp, path);
    assert path[|sp|] == '/';
  }

  // ---------------------------------------------------------------------------
  // make

  /** A value `str()` renders as it is: a string, or a scalar with its text. */
  predicate Printable(v: Config.Value) {
    v.Str? || v.Scalar?
  }

  function Display(v: Config.Value): string
    requires Printable(v)
  {
    if v.Str? then v.s else v.text
  }

  predicate PrintableLayer(layer: Config.LayerConfig) {
    Printable(layer.name) && Printable(layer.version)
    && forall i :: 0 <= i < |layer.packages| ==> Printable(layer.packages[i])
  }

  /** The lines `f"{package}\n"` writes for the layer's packages. */
  function PackageTexts(layer: Config.LayerConfig): (r: seq<string>)
    requires PrintableLayer(layer)
    ensures |r| == |layer.packages|
  {
    seq(|layer.packages|, i requires 0 <= i < |layer.packages| && PrintableLayer(layer) => Display(layer.packages[i]))
  }

  /** `f"{layer.name}-{layer.version}.zip"`. */
  function ArchiveName(layer: Config.LayerConfig): (r: string)
    requires PrintableLayer(layer)
    ensures |r| > |Display(layer.name)| + 4
    ensures r[..|Display(layer.name)|] == Display(layer.name) && r[|Display(layer.name)|] == '-'
    ensures r[|Display(layer.name)| + 1..|r| - 4] == Display(layer.version)
    ensures r[|r| - 4..] == ".zip"
  {
    Display(layer.name) + "-" + Display(layer.version) + ".zip"
  }

  /** What the outside world answers during one build: the fresh scratch directory, each tool's output, the walk. */
  datatype World = World(scratch: Path, venv: Reply, install: Reply, query: Reply, walk: seq<WalkStep>)

  /** A finished build: the dist path returned, the archive written in scratch, and its entries. */
  datatype Build = Build(distPath: Path, archive: Path, entries: seq<ZipEntry>)

  function VenvPath(scratch: Path): Path { PathJoin(scratch, "venv") }

  function RequirementsPath(scratch: Path): Path { PathJoin(scratch, "requirements.txt") }

  /** The scratch directory `tempfile` hands out: resolved, and nothing of it exists yet. */
  predicate FreshScratch(nodes: map<Path, Node>, dist: Path, scratch: Path) {
    && IsResolved(scratch)
    && !Under(dist, scratch)
    && forall p :: p in nodes ==> !Under(p, scratch)
  }

  /** The files after the precondition passed: the dist dir, the scratch dir, and the venv and manifest in it. */
  function NodesAfterSetup(nodes: map<Path, Node>, dist: Path, scratch: Path, layer: Config.LayerConfig): map<Path, Node>
    requires PrintableLayer(layer)
  {
    nodes[dist := Dir][scratch := Dir][VenvPath(scratch) := Dir][RequirementsPath(scratch) := File(Manifest(PackageTexts(layer)))]
  }

  /** The commands a build issues, in order; pip is always upgraded first. */
  function BuildCalls(scratch: Path): seq<Invocation> {
    [VenvCall(VenvPath(scratch)),
     InstallCall(VenvPath(scratch), RequirementsPath(scratch), true),
     QueryCall(VenvPath(scratch))]
  }

  /** How a build ends once the setup is done: opening the archive, then the copy target, may fail. */
  function BuildOutcome(nodes: map<Path, Node>, dist: Path, layer: Config.LayerConfig, world: World): Result<Build, OsError>
    requires PrintableLayer(layer)
  {
    var archive := PathJoin(world.scratch, ArchiveName(layer));
    var distPath := PathJoin(dist, BaseName(archive));
    if OpenForWriteError(nodes, archive).Some? then Err(OpenForWriteError(nodes, archive).value)
    else if OpenForWriteError(nodes, distPath).Some? then Err(OpenForWriteError(nodes, distPath).value)
    else Ok(Build(distPath, archive, ArchiveEntries(SitePackagesPath(world.query.stdout), world.walk)))
  }

  /**
   * `make`: a dist path that resolves to an existing file is refused before
   * anything is created or run; otherwise the dist dir is made, and the venv,
   * manifest, install, site-packages query and archive follow in a fresh scratch
   * directory, and the path of the archive's copy in the dist dir is returned.
   */
  method Make(fs: FileSystem, runner: Runner, resolve: Path -> Path, distDir: Path,
              layer: Config.LayerConfig, world: World) returns (r: Result<Build, OsError>)
    requires PrintableLayer(layer)
    requires FreshScratch(fs.nodes, resolve(distDir), world.scratch)
    requires resolve(RequirementsPath(world.scratch)) == RequirementsPath(world.scratch)
    modifies fs, runner
    ensures IsFile(old(fs.nodes), resolve(distDir)) ==>
      && r == Err(IsADirectory(resolve(distDir)))
      && fs.nodes == old(fs.nodes)
      && runner.log == old(runner.log)
    ensures !IsFile(old(fs.nodes), resolve(distDir)) ==>
      && fs.nodes == NodesAfterSetup(old(fs.nodes), resolve(distDir), world.scratch, layer)
      && runner.log == old(runner.log) + BuildCalls(world.scratch)
      && r == BuildOutcome(fs.nodes, resolve(distDir), layer, world)
  {
    var dist := resolve(distDir);
    if IsFile(fs.nodes, dist) {
      return Err(IsADirectory(dist));
    }
    var venv, req := Setup(fs, runner, resolve, dist, layer, world);
    assert fs.nodes == NodesAfterSetup(old(fs.nodes), dist, world.scratch, layer);
    Install(runner, venv, req, true, world.install);
    var sitePackages := SitePackages(runner, venv, world.query);
    assert runner.log == old(runner.log) + BuildCalls(world.scratch);
    r := Package(fs.nodes, dist, layer, world, sitePackages);
  }

  /**
   * The last steps of `make`: the archive is opened in scratch and filled from
   * site-packages, then the copy target in the dist dir is opened.
   */
  method Package(nodes: map<Path, Node>, dist: Path, layer: Config.LayerConfig, world: World, sitePackages: Path)
    returns (r: Result<Build, OsError>)
    requires PrintableLayer(layer)
    requires sitePackages == SitePackagesPath(world.query.stdout)
    ensures r == BuildOutcome(nodes, dist, layer, world)
  {
    var archivePath := PathJoin(world.scratch, ArchiveName(layer));
    if OpenForWriteError(nodes, archivePath).Some? {
      return Err(OpenForWriteError(nodes, archivePath).value);
    }
    var archive, zip := Archive(sitePackages, archivePath, world.walk);

    var distPath := PathJoin(dist, BaseName(archive));
    if OpenForWriteError(nodes, distPath).Some? {
      return Err(OpenForWriteError(nodes, distPath).value);
    }
    r := Ok(Build(distPath, archive, zip.entries));
  }

  /**
   * The first steps of `make` once the dist path is known not to be a file: the dist
   * and scratch directories are made, the venv is created and the manifest written.
   */
  method Setup(fs: FileSystem, runner: Runner, resolve: Path -> Path, dist: Path,
               layer: Config.LayerConfig, world: World) returns (venv: Path, req: Path)
    requires PrintableLayer(layer)
    requires FreshScratch(fs.nodes, dist, world.scratch) && !IsFile(fs.nodes, dist)
    requires resolve(RequirementsPath(world.scratch)) == RequirementsPath(world.scratch)
    modifies fs, runner
    ensures fs.nodes == NodesAfterSetup(old(fs.nodes), dist, world.scratch, layer)
    ensures runner.log == old(runner.log) + [VenvCall(VenvPath(world.scratch))]
    ensures venv == VenvPath(world.scratch) && req == RequirementsPath(world.scratch)
  {
    var scratch := world.scratch;
    var reqPath := RequirementsPath(scratch);
    ManifestTargetIsFresh(fs.nodes, dist, scratch);
    ScratchChildIsFresh(fs.nodes, dist, scratch, "venv");

    fs.MakeDir(dist);
    fs.MakeDir(scratch);

    venv := Venv(runner, fs, VenvPath(scratch), world.venv);
    var requirements := Requirements(fs, resolve, reqPath, PackageTexts(layer));
    req := requirements.value;
    assert "" + Manifest(PackageTexts(layer)) == Manifest(PackageTexts(layer));
  }

  /** Once the dist, scratch and venv directories exist, the manifest can be opened and is empty. */
  lemma ManifestTargetIsFresh(nodes: map<Path, Node>, dist: Path, scratch: Path)
    requires FreshScratch(nodes, dist, scratch)
    ensures var prepared := nodes[dist := Dir][scratch := Dir][VenvPath(scratch) := Dir];
      && OpenForWriteError(prepared, RequirementsPath(scratch)).None?
      && Contents(prepared, RequirementsPath(scratch)) == ""
  {
    ScratchChildIsFresh(nodes, dist, scratch, "requirements.txt");
    ScratchChildIsFresh(nodes, dist, scratch, "venv");
    ParentOfJoin(scratch, "requirements.txt");
    PathJoinInjective(scratch, "requirements.txt", "venv");
  }

  lemma ScratchChildIsFresh(nodes: map<Path, Node>, dist: Path, scratch: Path, name: string)
    requires FreshScratch(nodes, dist, scratch) && name != "" && !IsAbsolute(name)
    ensures PathJoin(scratch, name) !in nodes && PathJoin(scratch, name) != dist
    ensures PathJoin(scratch, name) != scratch && scratch !in nodes && scratch != dist
  {
    var child := PathJoin(scratch, name);
    assert Under(child, scratch) by {
      assert child[..|PathJoin(scratch, "")|] == PathJoin(scratch, "");
    }
    assert Under(scratch, scratch);
  }

  /** Layer names and versions without a separator make the archive name a single path component. */
  lemma ArchiveNameIsComponent(layer: Config.LayerConfig)
    requires PrintableLayer(layer)
    requires '/' !in Display(layer.name) && '/' !in Display(layer.version)
    ensures IsComponent(ArchiveName(layer))
  {
    var n, v := Display(layer.name), Display(layer.version);
    assert ArchiveName(layer) == n + "-" + v + ".zip";
    forall k | 0 <= k < |ArchiveName(layer)| ensures ArchiveName(layer)[k] != '/' {
      if k < |n| { assert ArchiveName(layer)[k] == n[k]; }
      else if k == |n| { }
      else if k < |n| + 1 + |v| { assert ArchiveName(layer)[k] == v[k - |n| - 1]; }
    }
  }

  /** After setup the dist, scratch and venv directories exist, and no other directory was added. */
  lemma SetupDirectories(nodes: map<Path, Node>, dist: Path, scratch: Path, layer: Config.LayerConfig, p: Path)
    requires PrintableLayer(layer)
    requires FreshScratch(nodes, dist, scratch)
    ensures var after := NodesAfterSetup(nodes, dist, scratch, layer);
      && IsDir(after, dist) && IsDir(after, scratch) && IsDir(after, VenvPath(scratch))
      && (IsDir(after, p) <==> p == dist || p == scratch || p == VenvPath(scratch) || IsDir(nodes, p))
  {
    ScratchChildIsFresh(nodes, dist, scratch, "requirements.txt");
    PathJoinInjective(scratch, "requirements.txt", "venv");
  }

  /**
   * With a plain archive name the build succeeds unless the dist dir already holds
   * a directory of that name: the archive is `scratch/{name}-{version}.zip` and the
   * returned path is the dist dir joined with that same name.
   */
  lemma MakeNaming(nodes: map<Path, Node>, dist: Path, layer: Config.LayerConfig, world: World)
    requires PrintableLayer(layer)
    requires FreshScratch(nodes, dist, world.scratch)
    requires IsResolved(dist)
    requires IsComponent(ArchiveName(layer))
    requires !IsDir(nodes, PathJoin(dist, ArchiveName(layer))) && PathJoin(dist, ArchiveName(layer)) != world.scratch
    ensures var after := NodesAfterSetup(nodes, dist, world.scratch, layer);
      BuildOutcome(after, dist, layer, world)
        == Ok(Build(PathJoin(dist, ArchiveName(layer)), PathJoin(world.scratch, ArchiveName(layer)),
                    ArchiveEntries(SitePackagesPath(world.query.stdout), world.walk)))
  {
    var name, scratch := ArchiveName(layer), world.scratch;
    BaseNameOfJoin(scratch, name);
    ArchiveOpens(nodes, dist, layer, scratch);
    CopyOpens(nodes, dist, layer, scratch);
  }

  /** After setup, the archive `scratch/{name}-{version}.zip` can be opened for writing. */
  lemma ArchiveOpens(nodes: map<Path, Node>, dist: Path, layer: Config.LayerConfig, scratch: Path)
    requires PrintableLayer(layer)
    requires FreshScratch(nodes, dist, scratch)
    requires IsComponent(ArchiveName(layer))
    ensures OpenForWriteError(NodesAfterSetup(nodes, dist, scratch, layer), PathJoin(scratch, ArchiveName(layer))).None?
  {
    var name := ArchiveName(layer);
    var archive := PathJoin(scratch, name);
    ParentOfJoin(scratch, name);
    assert !IsAbsolute(name) by { assert name[0] in name; }
    ScratchChildIsFresh(nodes, dist, scratch, name);
    assert name != "venv" by { assert |name| >= 5; }
    PathJoinInjective(scratch, name, "venv");
    SetupDirectories(nodes, dist, scratch, layer, archive);
  }

  /** After setup, the copy target `dist/{name}-{version}.zip` can be opened for writing unless a directory is there. */
  lemma CopyOpens(nodes: map<Path, Node>, dist: Path, layer: Config.LayerConfig, scratch: Path)
    requires PrintableLayer(layer)
    requires FreshScratch(nodes, dist, scratch)
    requires IsResolved(dist) && IsComponent(ArchiveName(layer))
    requires !IsDir(nodes, PathJoin(dist, ArchiveName(layer))) && PathJoin(dist, ArchiveName(layer)) != scratch
    ensures OpenForWriteError(NodesAfterSetup(nodes, dist, scratch, layer), PathJoin(dist, ArchiveName(layer))).None?
  {
    var name := ArchiveName(layer);
    var distPath := PathJoin(dist, name);
    ParentOfJoin(dist, name);
    SetupDirectories(nodes, dist, scratch, layer, distPath);
    assert distPath != dist by { assert |distPath| > |dist|; }
    assert distPath != VenvPath(scratch) by {
      ParentOfJoin(scratch, "venv");
      assert dist != scratch;
    }
  }

  /**
   * A name with a separator puts the archive in a sub-directory of scratch. Unless that
   * is the venv (or the manifest, a file), it does not exist, and the build fails.
   */
  lemma MakeFailsOnNestedName(nodes: map<Path, Node>, dist: Path, layer: Config.LayerConfig, world: World,
                              dir: string, file: string)
    requires PrintableLayer(layer)
    requires FreshScratch(nodes, dist, world.scratch)
    requires IsComponent(dir) && IsComponent(file) && dir != "requirements.txt" && dir != "venv"
    requires ArchiveName(layer) == dir + "/" + file
    ensures var after := NodesAfterSetup(nodes, dist, world.scratch, layer);
      BuildOutcome(after, dist, layer, world) == Err(FileNotFound(PathJoin(world.scratch, ArchiveName(layer))))
  {
    var scratch, name := world.scratch, ArchiveName(layer);
    var archive := PathJoin(scratch, name);
    var sub := NestedArchiveMissing(nodes, dist, layer, scratch, dir, file);
    var after := NodesAfterSetup(nodes, dist, scratch, layer);
    assert !IsDir(after, archive) && !IsDir(after, Parent(archive)) && !BlockedByFile(after, Parent(archive));
  }

  /** The archive `scratch/dir/file` and its parent `scratch/dir` are both missing after setup. */
  lemma NestedArchiveMissing(nodes: map<Path, Node>, dist: Path, layer: Config.LayerConfig, scratch: Path,
                             dir: string, file: string) returns (sub: Path)
    requires PrintableLayer(layer)
    requires FreshScratch(nodes, dist, scratch)
    requires IsComponent(dir) && IsComponent(file) && dir != "requirements.txt" && dir != "venv"
    requires ArchiveName(layer) == dir + "/" + file
    ensures var after := NodesAfterSetup(nodes, dist, scratch, layer);
      && sub == Parent(PathJoin(scratch, ArchiveName(layer)))
      && sub !in after && PathJoin(scratch, ArchiveName(layer)) !in after
      && !BlockedByFile(after, sub)
  {
    var name := ArchiveName(layer);
    sub := PathJoin(scratch, dir);
    ParentOfNested(scratch, dir, file);
    assert dir[0] != '/' by { assert dir[0] in dir; }
    assert name[0] == dir[0];
    assert name != "requirements.txt" by { assert name[|dir|] == '/'; }
    assert name != "venv" by { assert name[|dir|] == '/'; }
    ChildMissingAfterSetup(nodes, dist, layer, scratch, dir);
    ChildMissingAfterSetup(nodes, dist, layer, scratch, name);
    NothingAboveBlocks(nodes, dist, layer, scratch, dir);
  }

  /** Looking up a missing child of scratch as a directory reaches scratch, a directory: no file is in the way. */
  lemma NothingAboveBlocks(nodes: map<Path, Node>, dist: Path, layer: Config.LayerConfig, scratch: Path, dir: string)
    requires PrintableLayer(layer)
    requires FreshScratch(nodes, dist, scratch)
    requires IsComponent(dir) && dir != "requirements.txt" && dir != "venv"
    ensures !BlockedByFile(NodesAfterSetup(nodes, dist, scratch, layer), PathJoin(scratch, dir))
  {
    var sub := PathJoin(scratch, dir);
    assert dir[0] != '/' by { assert dir[0] in dir; }
    ChildMissingAfterSetup(nodes, dist, layer, scratch, dir);
    ParentOfJoin(scratch, dir);
    ChildIsResolved(scratch, dir);
    SetupDirectories(nodes, dist, scratch, layer, scratch);
  }

  /** A child of scratch other than the venv and the manifest does not exist after setup. */
  lemma ChildMissingAfterSetup(nodes: map<Path, Node>, dist: Path, layer: Config.LayerConfig, scratch: Path,
                               name: string)
    requires PrintableLayer(layer)
    requires FreshScratch(nodes, dist, scratch)
    requires name != "" && !IsAbsolute(name) && name != "requirements.txt" && name != "venv"
    ensures PathJoin(scratch, name) !in NodesAfterSetup(nodes, dist, scratch, layer)
  {
    ScratchChildIsFresh(nodes, dist, scratch, name);
    PathJoinInjective(scratch, name, "requirements.txt");
    PathJoinInjective(scratch, name, "venv");
  }

  /** A name `venv/file` puts the archive inside the venv directory, which exists: opening it succeeds. */
  lemma ArchiveInsideVenvOpens(nodes: map<Path, Node>, dist: Path, layer: Config.LayerConfig, scratch: Path,
                               file: string)
    requires PrintableLayer(layer)
    requires FreshScratch(nodes, dist, scratch)
    requires IsComponent(file) && ArchiveName(layer) == "venv/" + file
    ensures OpenForWriteError(NodesAfterSetup(nodes, dist, scratch, layer), PathJoin(scratch, ArchiveName(layer))).None?
  {
    var name := ArchiveName(layer);
    var archive := PathJoin(scratch, name);
    assert name == "venv" + "/" + file;
    ParentOfNested(scratch, "venv", file);
    ScratchChildIsFresh(nodes, dist, scratch, name);
    assert name != "venv" && name != "requirements.txt" by { assert name[4] == '/'; }
    PathJoinInjective(scratch, name, "venv");
    SetupDirectories(nodes, dist, scratch, layer, archive);
  }
}
