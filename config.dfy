/**
 * Layer configuration: the record one `[[layers]]` table becomes, and the
 * loading of every layer of a configuration file.
 *
 * TOML parsing is foreign: the parsed document arrives as a `Value` tree, and
 * the parser itself is a function-typed parameter of `LoadF`.
 */
module Config {
  import opened Wrappers
  import opened Paths
  import Os

  /**
   * A parsed TOML value. `Scalar` stands for integers, floats, booleans and
   * dates, carrying the text `str()` gives for them; tables keep their keys in
   * document order, as the parser's dicts do.
   */
  datatype Value =
    | Str(s: string)
    | Scalar(text: string)
    | Arr(items: seq<Value>)
    | Table(fields: seq<Field>)

  datatype Field = Field(key: string, value: Value)

  /** `LayerConfig`: the three fields, holding whatever values the table gave them. */
  datatype LayerConfig = LayerConfig(name: Value, version: Value, packages: seq<Value>)

  /** The exceptions loading raises. */
  datatype LoadError =
    | Os(error: Os.OsError)       // the configuration path is missing or is a directory
    | TomlDecode                  // the foreign parser rejected the text
    | NotAMapping                 // `**data` on a value that is not a table
    | NotIterable                 // `tuple(...)` or `for` over a scalar or over `None`
    | UnexpectedKeyword(key: string)
    | MissingArguments(names: seq<string>)

  /** What the generator `loadf` produces: the records it yields, then the exception that ends it, if any. */
  datatype Stream = Stream(yielded: seq<LayerConfig>, failure: Option<LoadError>)

  const FieldNames: set<string> := {"name", "version", "packages"}

  /** `data.get(key)`: the value of the first field with that key. */
  function Lookup(fields: seq<Field>, key: string): (r: Option<Value>)
    ensures r.Some? <==> exists i :: 0 <= i < |fields| && fields[i].key == key
  {
    if fields == [] then None
    else if fields[0].key == key then Some(fields[0].value)
    else
      var r := Lookup(fields[1..], key);
      assert forall i :: 0 < i < |fields| ==> fields[i] == fields[1..][i - 1];
      r
  }

  /** `tuple(v)`: the items of an array, the one-character strings of a string, the keys of a table. */
  function Iterate(v: Value): (r: Result<seq<Value>, LoadError>)
    ensures r.Err? <==> v.Scalar?
    ensures v.Arr? ==> r == Ok(v.items)
  {
    match v
    case Arr(items) => Ok(items)
    case Str(s) => Ok(seq(|s|, i requires 0 <= i < |s| => Str([s[i]])))
    case Table(fields) => Ok(seq(|fields|, i requires 0 <= i < |fields| => Str(fields[i].key)))
    case Scalar(_) => Err(NotIterable)
  }

  /** The first key, in table order, that is not a field of `LayerConfig`. */
  function FirstUnexpected(fields: seq<Field>): (r: Option<string>)
    ensures r.None? <==> forall i :: 0 <= i < |fields| ==> fields[i].key in FieldNames
    ensures r.Some? ==> r.value !in FieldNames
  {
    if fields == [] then None
    else if fields[0].key !in FieldNames then Some(fields[0].key)
    else
      var r := FirstUnexpected(fields[1..]);
      assert forall i :: 0 < i < |fields| ==> fields[i] == fields[1..][i - 1];
      r
  }

  /** The required fields without a default that the table lacks, in declaration order. */
  function Missing(fields: seq<Field>): seq<string> {
    (if Lookup(fields, "name").None? then ["name"] else [])
    + (if Lookup(fields, "version").None? then ["version"] else [])
  }

  /**
   * `LayerConfig.load(data)`: `LayerConfig(**{**data, 'packages': tuple(data.get('packages', []))})`.
   * The `tuple` call is evaluated first; the constructor then rejects an unknown
   * keyword before it reports missing ones.
   */
  function Load(data: Value): (r: Result<LayerConfig, LoadError>)
    ensures r.Ok? ==> data.Table? && FirstUnexpected(data.fields).None?
    ensures r.Ok? ==> Lookup(data.fields, "name") == Some(r.value.name)
    ensures r.Ok? ==> Lookup(data.fields, "version") == Some(r.value.version)
  {
    if !data.Table? then Err(NotAMapping)
    else
      var fields := data.fields;
      var given := match Lookup(fields, "packages") case Some(v) => v case None => Arr([]);
      match Iterate(given)
      case Err(e) => Err(e)
      case Ok(packages) =>
        match FirstUnexpected(fields)
        case Some(k) => Err(UnexpectedKeyword(k))
        case None =>
          if Missing(fields) != [] then Err(MissingArguments(Missing(fields)))
          else Ok(LayerConfig(Lookup(fields, "name").value, Lookup(fields, "version").value, packages))
  }

  /** The table that a layer record is written as. */
  function Dump(c: LayerConfig): Value {
    Table([Field("name", c.name), Field("version", c.version), Field("packages", Arr(c.packages))])
  }

  /** A table loads exactly when its keys are fields, `name` and `version` are there, and `packages`, if given, is iterable. */
  lemma LoadSucceedsIff(fields: seq<Field>)
    ensures Load(Table(fields)).Ok? <==>
      && (forall i :: 0 <= i < |fields| ==> fields[i].key in FieldNames)
      && (exists i :: 0 <= i < |fields| && fields[i].key == "name")
      && (exists i :: 0 <= i < |fields| && fields[i].key == "version")
      && (Lookup(fields, "packages").None? || !Lookup(fields, "packages").value.Scalar?)
  {
  }

  /** A loaded record copies `name` and `version` and keeps the listed packages in order, duplicates included. */
  lemma LoadCopiesFields(fields: seq<Field>)
    requires Load(Table(fields)).Ok?
    ensures Some(Load(Table(fields)).value.name) == Lookup(fields, "name")
    ensures Some(Load(Table(fields)).value.version) == Lookup(fields, "version")
    ensures Lookup(fields, "packages").None? ==> Load(Table(fields)).value.packages == []
    ensures forall items :: Lookup(fields, "packages") == Some(Arr(items)) ==> Load(Table(fields)).value.packages == items
  {
  }

  /** Writing a record as a table and loading it gives the record back. */
  lemma LoadDump(c: LayerConfig)
    ensures Load(Dump(c)) == Ok(c)
  {
    var fields := Dump(c).fields;
    assert fields[1..][1..][0].key == "packages";
    assert Lookup(fields[1..][1..], "packages") == Some(Arr(c.packages));
    assert Lookup(fields[1..], "packages") == Some(Arr(c.packages));
    assert Lookup(fields, "packages") == Some(Arr(c.packages));
    assert Lookup(fields, "version") == Some(c.version);
    assert FirstUnexpected(fields).None?;
  }

  /** Without a `packages` key the record has no packages. */
  lemma LoadWithoutPackages(name: Value, version: Value)
    ensures Load(Table([Field("name", name), Field("version", version)])) == Ok(LayerConfig(name, version, []))
  {
    var fields := [Field("name", name), Field("version", version)];
    assert fields[1..][1..] == [];
    assert Lookup(fields, "packages").None?;
    assert Lookup(fields, "version") == Some(version);
    assert FirstUnexpected(fields).None?;
  }

  /** A key outside the three fields is rejected, whatever else the table holds. */
  lemma LoadRejectsUnknownKey(fields: seq<Field>, i: nat)
    requires i < |fields| && fields[i].key !in FieldNames
    requires Lookup(fields, "packages").None? || !Lookup(fields, "packages").value.Scalar?
    ensures Load(Table(fields)).Err? && Load(Table(fields)).error.UnexpectedKeyword?
  {
  }

  /** A table without `name` or `version` (and no unknown key) reports exactly the missing ones. */
  lemma LoadReportsMissing(fields: seq<Field>)
    requires forall i :: 0 <= i < |fields| ==> fields[i].key in FieldNames
    requires Lookup(fields, "packages").None? || !Lookup(fields, "packages").value.Scalar?
    requires Lookup(fields, "name").None? || Lookup(fields, "version").None?
    ensures Load(Table(fields)) == Err(MissingArguments(Missing(fields)))
    ensures "name" in Missing(fields) <==> Lookup(fields, "name").None?
    ensures "version" in Missing(fields) <==> Lookup(fields, "version").None?
  {
    MissingNames(fields);
    var given := match Lookup(fields, "packages") case Some(v) => v case None => Arr([]);
    assert Iterate(given).Ok?;
    assert FirstUnexpected(fields).None?;
  }

  /** `Missing` names `name` exactly when it is absent, and `version` likewise. */
  lemma MissingNames(fields: seq<Field>)
    ensures Missing(fields) == [] <==> Lookup(fields, "name").Some? && Lookup(fields, "version").Some?
    ensures "name" in Missing(fields) <==> Lookup(fields, "name").None?
    ensures "version" in Missing(fields) <==> Lookup(fields, "version").None?
  {
    var m := Missing(fields);
    if Lookup(fields, "name").None? {
      assert m[0] == "name";
    }
    if Lookup(fields, "version").None? {
      assert m[|m| - 1] == "version";
    }
  }

  /** The generator's loop: one `load` per item, stopping at the first item that raises. */
  function LoadEach(items: seq<Value>): (r: Stream)
    ensures |r.yielded| <= |items|
    ensures forall i :: 0 <= i < |r.yielded| ==> Load(items[i]) == Ok(r.yielded[i])
    ensures r.failure.None? <==> |r.yielded| == |items|
    ensures r.failure.Some? ==> Load(items[|r.yielded|]) == Err(r.failure.value)
  {
    if items == [] then Stream([], None)
    else match Load(items[0])
      case Err(e) => Stream([], Some(e))
      case Ok(c) =>
        var rest := LoadEach(items[1..]);
        assert forall i :: 1 <= i <= |rest.yielded| ==> items[i] == items[1..][i - 1];
        Stream([c] + rest.yielded, rest.failure)
  }

  /**
   * `LayerConfig.loadf(path)` run to its end: the resolved path must exist and
   * not be a directory, the file's text is parsed, and every element of the
   * document's `layers` is loaded in order.
   */
  function LoadF(nodes: map<Path, Os.Node>, resolve: Path -> Path, path: Path,
                 parse: string -> Option<seq<Field>>): (r: Stream)
    ensures r.yielded != [] ==> Os.IsFile(nodes, resolve(path)) && parse(nodes[resolve(path)].text).Some?
  {
    var p := resolve(path);
    if p !in nodes then Stream([], Some(Os(Os.FileNotFound(p))))
    else if nodes[p].Dir? then Stream([], Some(Os(Os.IsADirectory(p))))
    else match parse(nodes[p].text)
      case None => Stream([], Some(TomlDecode))
      case Some(doc) =>
        match Lookup(doc, "layers")
        case None => Stream([], Some(NotIterable))
        case Some(layers) =>
          match Iterate(layers)
          case Err(e) => Stream([], Some(e))
          case Ok(items) => LoadEach(items)
  }

  /** The path checks come before any read: when they fail, what the file would parse to does not matter. */
  lemma LoadFChecksPathFirst(nodes: map<Path, Os.Node>, resolve: Path -> Path, path: Path,
                             parse1: string -> Option<seq<Field>>, parse2: string -> Option<seq<Field>>)
    requires !Os.IsFile(nodes, resolve(path))
    ensures LoadF(nodes, resolve, path, parse1) == LoadF(nodes, resolve, path, parse2)
    ensures LoadF(nodes, resolve, path, parse1).yielded == []
    ensures resolve(path) !in nodes ==> LoadF(nodes, resolve, path, parse1).failure == Some(Os(Os.FileNotFound(resolve(path))))
    ensures resolve(path) in nodes ==> LoadF(nodes, resolve, path, parse1).failure == Some(Os(Os.IsADirectory(resolve(path))))
  {
  }

  /** A document with a `layers` array yields one record per element, in order, until an element fails to load. */
  lemma LoadFYieldsEachLayer(nodes: map<Path, Os.Node>, resolve: Path -> Path, path: Path,
                             parse: string -> Option<seq<Field>>, doc: seq<Field>, items: seq<Value>)
    requires Os.IsFile(nodes, resolve(path))
    requires parse(nodes[resolve(path)].text) == Some(doc)
    requires Lookup(doc, "layers") == Some(Arr(items))
    ensures LoadF(nodes, resolve, path, parse) == LoadEach(items)
    ensures var r := LoadF(nodes, resolve, path, parse);
      && |r.yielded| <= |items|
      && (forall i :: 0 <= i < |r.yielded| ==> Load(items[i]) == Ok(r.yielded[i]))
      && (r.failure.None? <==> forall i :: 0 <= i < |items| ==> Load(items[i]).Ok?)
      && (r.failure.None? ==> |r.yielded| == |items|)
      && (r.failure.Some? ==> Load(items[|r.yielded|]) == Err(r.failure.value))
  {
    var r := LoadF(nodes, resolve, path, parse);
    assert r == LoadEach(items);
    if r.failure.Some? {
      assert Load(items[|r.yielded|]).Err?;
    }
  }

  /** A document without `layers` fails on the first iteration, having yielded nothing. */
  lemma LoadFWithoutLayers(nodes: map<Path, Os.Node>, resolve: Path -> Path, path: Path,
                           parse: string -> Option<seq<Field>>, doc: seq<Field>)
    requires Os.IsFile(nodes, resolve(path))
    requires parse(nodes[resolve(path)].text) == Some(doc)
    requires Lookup(doc, "layers").None?
    ensures LoadF(nodes, resolve, path, parse) == Stream([], Some(NotIterable))
  {
  }
}
