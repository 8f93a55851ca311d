/**
 * Lookup of the tool's environment variables: the process environment wins,
 * then the registered default, else nothing.
 */
module Env {
  import opened Wrappers

  /** A member of the `Vars` enumeration, known by its name. */
  datatype Var = Var(name: string)

  /** A registered variable: its default value and its help text. */
  datatype VarDef = VarDef(default: string, help: string)

  /**
   * `get(var)` over the process environment `environ` and the table of
   * registered variables `defs`. A registered `VarDef` is a non-empty tuple,
   * hence always truthy, so its default is returned even when it is empty.
   */
  function Get(v: Var, environ: map<string, string>, defs: map<Var, VarDef>): (r: Option<string>)
    ensures r.Some? <==> v.name in environ || v in defs
  {
    if v.name in environ then Some(environ[v.name])
    else if v in defs then Some(defs[v].default)
    else None
  }

  /** A variable set in the environment yields its value, even an empty one, whatever the defaults say. */
  lemma EnvironmentWins(v: Var, environ: map<string, string>, defs: map<Var, VarDef>, value: string)
    ensures Get(v, environ[v.name := value], defs) == Some(value)
  {
  }

  /** A variable absent from the environment yields its registered default. */
  lemma DefaultWhenUnset(v: Var, environ: map<string, string>, defs: map<Var, VarDef>, d: VarDef)
    requires v.name !in environ
    ensures Get(v, environ, defs[v := d]) == Some(d.default)
  {
  }

  /** A variable neither set nor registered yields nothing. */
  lemma NoneWhenUnknown(v: Var, environ: map<string, string>, defs: map<Var, VarDef>)
    ensures Get(v, environ, defs) == None <==> v.name !in environ && v !in defs
  {
  }

  /** The answer depends only on the variable's own entry in each table. */
  lemma GetReadsOnlyItsEntries(v: Var, e1: map<string, string>, e2: map<string, string>,
                               d1: map<Var, VarDef>, d2: map<Var, VarDef>)
    requires (v.name in e1 <==> v.name in e2) && (v.name in e1 ==> e1[v.name] == e2[v.name])
    requires (v in d1 <==> v in d2) && (v in d1 ==> d1[v].default == d2[v].default)
    ensures Get(v, e1, d1) == Get(v, e2, d2)
  {
  }
}
