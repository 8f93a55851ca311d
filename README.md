# lambda-layer build core, modelled in Dafny

This project models the deterministic core of `lambda-layer`, a tool that builds AWS Lambda layers. The tool:

- creates a virtualenv in a scratch directory;
- appends the layer's packages to `requirements.txt`;
- runs pip in the activated venv, with one bash command line;
- asks the interpreter where site-packages is and cuts that path out of its printed output;
- zips every file below site-packages;
- names the result `{name}-{version}.zip` in the dist directory.

It also models how layer configurations are loaded from an already-parsed TOML document, and how the tool's environment variables are looked up.

Modules, one per source file or shared concern:

- `Wrappers` (`wrappers.dfy`): `Option` and `Result`.
- `Paths` (`paths.dfy`): pathlib's `/`, `.name` and `.parent`, `os.path.join`, and Python's `str` slicing, written out on strings.
- `Text` (`text.dfy`): `str.join`, and reading a text file back as its lines.
- `Os` (`os.dfy`): the filesystem. It is a map from path strings to `File(text)` or `Dir`, held by a `FileSystem` object. Its methods change the map the way `open(..., 'a')`, `write` and `mkdir` do.
- `Config` (`config.dfy`):
  - `LayerConfig.load` as `Load`.
  - `LayerConfig.loadf` as `LoadF`. `loadf` is a generator, so `LoadF` returns a `Stream`: the records yielded before the first exception, and that exception if one is raised.
- `Env` (`env.dfy`): `get` as `Get`, over an environment map and a table of registered defaults.
- `Bash` (`bash.dfy`): `_run`, `_venv`, `_requirements`, `_install`, `_site_packages`, `_archive` and `make`.
  - External processes are not run. A `Runner` object records each command issued. What a process printed is an input (`Reply`).
  - The walk of site-packages is a given sequence of `os.walk` steps.
  - `_requirements` and `_archive` are methods with loops. They are proved against `Manifest` and `ArchiveEntries`, and the lemmas state what those promise.

Where the code departs from the intended design, the model follows the code:

- `_archive` adds no `python/` root prefix. The arcname passed to `zip.write` is the file path with `len(str(site_packages))` characters cut off (`bash.py:142-148`). A file `sp/six.py` is passed as `/six.py`. `zipfile` strips the leading separator, so the member is stored as `six.py` at the root of the archive, not under `python/`.
- `_run` never fails on a non-zero exit code. It returns normally, so a failed pip install does not stop the build (`bash.py:58-69`).
- `_run` fills the `stderr` field of its result with the decoded standard output (`bash.py:53-56`). Nothing in the core reads that field.
- `_site_packages` slices fixed offsets (`stdout[2:-3]`) and does not check the output's shape. Output of five characters or fewer gives `Path("")`, which is `.`. Two listed directories give one string with the quotes and separator still inside.

## Model

| member | source | states |
|---|---|---|
| `Bash.Runner.Run` | lambda_layer/package/bash.py:27-69 | the command is issued once, as given; the record holds standard output in both `stdout` and `stderr`, whatever standard error and the exit code were |
| `Bash.Venv` | lambda_layer/package/bash.py:72-84 | issues exactly `["python", "-m", "venv", path]` without a shell, leaves a directory at `path` and nothing else changed, and returns `path` unchanged |
| `Os.OpenForWriteError` | lambda_layer/package/bash.py:93 | opening a path for writing fails exactly when the path is a directory or its parent is not a directory, and the error names the path |
| `Os.OpenBelowFile` | lambda_layer/package/bash.py:93 | a path whose parent is missing and whose grandparent is a file gives `NotADirectoryError` rather than `FileNotFoundError` |
| `Os.FileSystem.OpenAppend` | lambda_layer/package/bash.py:93 | append mode creates an empty file when none exists, keeps an existing file as it is, and changes nothing on failure |
| `Os.FileSystem.Append` | lambda_layer/package/bash.py:95 | a write in append mode puts the text after the file's current contents and touches no other path |
| `Bash.Requirements` | lambda_layer/package/bash.py:87-97 | on success returns the resolved path, keeps the file's earlier text in front and appends `package + "\n"` per package in input order; on an open error nothing changes |
| `Bash.ManifestLines` | lambda_layer/package/bash.py:93-95 | the appended text read back as lines is exactly the package list: one line per package, in order, duplicates kept |
| `Bash.ManifestConcat` | lambda_layer/package/bash.py:93-95 | writing two lists one after the other gives the manifest of their concatenation |
| `Bash.AppendedLines` | lambda_layer/package/bash.py:92-97 | appending to a file of whole lines yields its old lines followed by the packages, so reusing a path unions old and new entries |
| `Bash.Install` | lambda_layer/package/bash.py:100-119 | issues one bash invocation whose single command line is the steps joined with ` && ` |
| `Bash.InstallCommandLine` | lambda_layer/package/bash.py:108-117 | the command line is `source {venv}/bin/activate && pip3 install --upgrade pip && pip3 install -r {requirements}`, or the same without the middle step when the upgrade is off |
| `Bash.InstallStepsShape` | lambda_layer/package/bash.py:103-115 | two steps without the upgrade and three with it; activation first, install last, and the upgrade present exactly when requested, in the middle |
| `Bash.SitePackages` | lambda_layer/package/bash.py:122-133 | issues the activate-and-query command line through bash and returns `Path(stdout[2:-3])` of the interpreter's output |
| `Bash.SitePackagesOfListing` | lambda_layer/package/bash.py:132 | for output `['p']` and a newline, with `p` non-empty, the result is `p` |
| `Bash.SitePackagesCut` | lambda_layer/package/bash.py:132 | longer output loses exactly its first two and last three characters; output of five characters or fewer gives `.` |
| `Bash.SitePackagesOfTwo` | lambda_layer/package/bash.py:132 | when two directories are printed, the result is both paths with the `', '` separator between them, not either path |
| `Bash.ZipArchive.Write` | lambda_layer/package/bash.py:149 | each write adds one entry with its source path and arcname, after the earlier ones |
| `Bash.Archive` | lambda_layer/package/bash.py:136-151 | the zip holds exactly `ArchiveEntries` of the walk, one entry per walked file in walk order, and the archive path is returned |
| `Bash.WriteStep` | lambda_layer/package/bash.py:146-149 | the files of one walk step are written in order, each read from `os.path.join(root, file)` and passed to `zip.write` with its arcname, after the entries already there |
| `Bash.ArchiveEntryCount` | lambda_layer/package/bash.py:145-149 | the number of entries equals the number of files the walk lists |
| `Bash.EveryWalkedFileArchived` | lambda_layer/package/bash.py:145-149 | every file of every walk step is in the archive, read from `os.path.join(root, file)` and passed to `zip.write` with its arcname |
| `Bash.EveryEntryWalked` | lambda_layer/package/bash.py:145-149 | every entry of the archive comes from a file of some walk step |
| `Bash.ArcNameRestoresPath` | lambda_layer/package/bash.py:142-148 | the site-packages path followed by the arcname is the file's path, so no prefix is added |
| `Bash.ArcNameOfChild` | lambda_layer/package/bash.py:148 | a file `sp + "/" + rel` is passed to `zip.write` with the arcname `"/" + rel` |
| `Bash.StoredName` | lambda_layer/package/bash.py:149 | the member name stored for an arcname is the arcname with exactly its leading separators removed: what is dropped is all `/`, what remains is a suffix that does not start with `/`, and an arcname without a leading separator is kept whole |
| `Bash.StoredNameOfChild` | lambda_layer/package/bash.py:142-149 | a file `sp + "/" + rel` is stored as `rel`, at the root of the archive |
| `Bash.ArcNamesDistinct` | lambda_layer/package/bash.py:142-149 | distinct files below site-packages get distinct arcnames |
| `Bash.ArchivedBelowSitePackages` | lambda_layer/package/bash.py:142-149 | for a walk of site-packages, every arcname starts with `/` and completes the site-packages path to the source path |
| `Os.FileSystem.MakeDir` | lambda_layer/package/bash.py:169 | after `mkdir(exist_ok=True)` on a path that is not a file, a directory is at that path and nothing else changed |
| `Bash.Make` | lambda_layer/package/bash.py:154-211 | a dist path that resolves to a file gives `IsADirectoryError` with no file created and no command issued; otherwise the dist and scratch dirs, the venv directory and the manifest are created, venv, install (with the pip upgrade) and query are issued in that order, and the outcome is `BuildOutcome` |
| `Bash.Package` | lambda_layer/package/bash.py:190-205 | the archive in scratch is opened and filled from site-packages, then the copy target in the dist dir is opened; the first open that fails ends the build with its error, otherwise both paths and the entries are returned |
| `Bash.Setup` | lambda_layer/package/bash.py:169-183 | in a fresh scratch directory, the dist, scratch and venv directories exist afterwards, the manifest in scratch holds exactly the layer's packages, and only the venv creation is issued |
| `Bash.ArchiveNameIsComponent` | lambda_layer/package/bash.py:193 | when neither name nor version holds `/`, `{name}-{version}.zip` is a single path component |
| `Bash.MakeNaming` | lambda_layer/package/bash.py:190-211 | with a plain archive name the build succeeds, the archive is `scratch/{name}-{version}.zip`, and the returned path is the dist dir joined with that same name |
| `Bash.MakeFailsOnNestedName` | lambda_layer/package/bash.py:190-194 | a name `dir/file` puts the archive in a scratch sub-directory; unless `dir` is `venv` or `requirements.txt`, that directory does not exist and the build fails with `FileNotFoundError` |
| `Bash.ArchiveInsideVenvOpens` | lambda_layer/package/bash.py:174-194 | a name `venv/file` puts the archive inside the venv directory the venv step made, and the archive opens |
| `Bash.ArchiveName` | lambda_layer/package/bash.py:193 | the archive name is the layer's name, a `-`, the version, and ends in `.zip` |
| `Paths.BaseNameOfJoin` | lambda_layer/package/bash.py:199 | `.name` of `parent / segment` is `segment` when the segment is one component |
| `Config.Load` | lambda_layer/config.py:22-27 | a loaded record comes from a table whose keys are all fields, and its `name` and `version` are the table's values for those keys |
| `Config.Iterate` | lambda_layer/config.py:26 | `tuple()` fails exactly on scalars; an array gives its items unchanged |
| `Config.LoadSucceedsIff` | lambda_layer/config.py:16-27 | a table loads exactly when all its keys are fields, `name` and `version` are present, and `packages`, if given, is iterable |
| `Config.LoadCopiesFields` | lambda_layer/config.py:24-26 | `name` and `version` are copied verbatim; `packages` is the given array in order with duplicates, or empty when absent |
| `Config.LoadDump` | lambda_layer/config.py:23-27 | a record written as a table loads back as the same record |
| `Config.LoadWithoutPackages` | lambda_layer/config.py:26 | a table with only `name` and `version` loads with an empty `packages` |
| `Config.LoadRejectsUnknownKey` | lambda_layer/config.py:24-27 | a key outside the three fields makes loading fail with an unexpected-keyword error |
| `Config.LoadReportsMissing` | lambda_layer/config.py:16-27 | a table without `name` or `version` fails, naming exactly the missing ones |
| `Config.LoadEach` | lambda_layer/config.py:48-49 | the generator yields `load(item)` for each item in order; it stops at the first item that fails, raising that item's error, and ends without error exactly when all items loaded |
| `Config.LoadFChecksPathFirst` | lambda_layer/config.py:34-41 | a missing path raises `FileNotFoundError` and a directory raises `IsADirectoryError`, before anything is parsed: the parser's answer makes no difference |
| `Config.LoadF` | lambda_layer/config.py:29-49 | records are yielded only when the resolved path is a file whose text parses |
| `Config.LoadFYieldsEachLayer` | lambda_layer/config.py:44-49 | a document with a `layers` array gives exactly the `LoadEach` stream of its elements: one record per element in order, each equal to `load(element)`; it ends cleanly exactly when all load, having yielded them all, and otherwise with the error of the first element that fails |
| `Config.LoadFWithoutLayers` | lambda_layer/config.py:48 | a document without `layers` yields nothing and fails, because `None` is iterated |
| `Env.Get` | lambda_layer/env.py:35-41 | a value is returned exactly when the name is set in the environment or the variable is registered |
| `Env.EnvironmentWins` | lambda_layer/env.py:36-37 | a name set in the environment yields that value, even the empty string, whatever the defaults say |
| `Env.DefaultWhenUnset` | lambda_layer/env.py:38-40 | an unset name yields the registered default |
| `Env.NoneWhenUnknown` | lambda_layer/env.py:35-41 | the result is `None` exactly when the name is unset and no default is registered |
| `Env.GetReadsOnlyItsEntries` | lambda_layer/env.py:35-41 | the result depends only on the variable's own entry in the environment and in the defaults table |

## Left out

- Process execution and console output in `_run`: `Popen`, `communicate`, UTF-8 decoding, the `silent` flag, and `click.echo`/`click.style` colouring. These are foreign I/O. A process's decoded output is an input.
- Effects of the external tools: `python -m venv` leaves an empty directory at the venv path, and nothing is put inside it. pip does not install anything. The site-packages walk is a given sequence of `os.walk` steps, so walk order and what is in the directory are inputs.
- Archive bytes and the copy: DEFLATE compression and the bytes `zip.write` reads are not modelled. The zip is an object holding (source path, arcname) entries. Neither the archive nor its `shutil.copyfile` copy is recorded in the file map. `Make` checks that both can be opened for writing and returns the two paths and the entries.
- `Bash.StoredName`: zipfile's `os.path.normpath` of the arcname is not modelled. Collapsing `.`, `..` and repeated separators inside the name is not modelled. Only the stripping of leading separators is.
- `tempfile.TemporaryDirectory`: its random name and its cleanup are not modelled. The scratch path is an input, required to be resolved and to have nothing at or below it. The scratch directory is not removed at the end.
- Path resolution: `expanduser().resolve()` is a function-typed parameter. `Make` assumes the manifest path in scratch resolves to itself. Resolving the scratch path is not modelled.
- Path normalisation: pathlib's collapsing of `//` and `.` components and stripping of trailing slashes is not modelled beyond `Path("") == Path(".")`. The operating system's resolution of `..` when a file is opened is not modelled either.
- `Bash.Make`: an archive name with a `.` or `..` component (a layer name such as `./x` or `../x`) does not get the program's outcome. pathlib drops the `.` and the operating system resolves the `..`, so the program may open the archive where `BuildOutcome` reports `FileNotFoundError`. `Paths.IsComponent` excludes `.` and `..`, so the lemmas about nested names do not cover these names.
- `Bash.StoredName`: an arcname made only of separators (such as `/`) makes zipfile raise `IndexError` while stripping. The model returns the empty name instead. Walked file names are never empty, so `Archive` never passes such an arcname.
- `mkdir(parents=True)`: creating missing parent directories, and failures when a parent is a file, are not modelled.
- Other I/O errors: read and permission errors are not modelled. No I/O error is modelled besides a directory in the way, a file above the path, or a missing directory above it.
- `Os.OpenForWriteError`: a directory in the file map is taken to be reachable. When the parent of the path is a directory, no file or gap above it is looked for. The file map does not enforce that the ancestors of every entry are directories.
- The blocking prompt `input("any key yo")` in `make` is not modelled.
- TOML parsing: `toml.loads` and `read_text` are foreign. The parser is a function-typed parameter of `LoadF`. Scalars carry the text `str()` gives for them.
- Generator timing: `loadf`'s path checks run on the first `next()`, not at the call. `LoadF` models the generator run to completion: the records yielded, then the exception.
- `Bash.Make`: requires the layer's name, version and packages to be strings or scalars. `str()` of a TOML array or table (Python's `repr` of a list or dict) is not modelled.
- The module-level `Vars`/`_VARS` table in `env.py` is not modelled. It cannot be built, because its member is only annotated. `Get` takes the environment and the defaults table as parameters.
- `lambda_layer/package.py` is an older draft shadowed by the `lambda_layer/package/` package. `main.py`, `__init__.py`, `common.py` and `version.py` only delegate or declare. None of them is part of this model.
