/**
  * `analysis/env_loader.py`: the process environment, `load_env_vars`,
  * which merges a `.env` file into it and returns a snapshot, and
  * `get_env_var`, a lookup with an optional default.
  */
module EnvLoader {
  import opened Text
  import opened Js

  /** Index of the last `c` in `s`, or None. */
  function LastIndexOf(s: string, c: char): (r: Option<nat>)
    ensures r.None? <==> c !in s
    ensures r.Some? ==> r.value < |s| && s[r.value] == c && c !in s[r.value + 1..]
  {
    if |s| == 0 then None
    else if s[|s| - 1] == c then
      assert s[|s|..] == [];
      Some(|s| - 1)
    else
      var r := LastIndexOf(s[..|s| - 1], c);
      assert s == s[..|s| - 1] + [s[|s| - 1]];
      if r.Some? then
        assert s[r.value + 1..] == s[..|s| - 1][r.value + 1..] + [s[|s| - 1]];
        r
      else r
  }

  /** `Path(p).parent` for a path without a trailing slash. */
  function Parent(p: string): (r: string)
    ensures '/' !in p ==> r == "."
  {
    match LastIndexOf(p, '/')
    case None => "."
    case Some(0) => "/"
    case Some(i) => p[..i]
  }

  /** `Path(dir) / name`. */
  function JoinPath(dir: string, name: string): string
  {
    if dir == "." then name
    else if dir == "/" then "/" + name
    else dir + "/" + name
  }

  /** The file `load_env_vars` reads: `env_file` when truthy, else `.env.local` beside the module's directory. */
  function EnvPath(envFile: Option<string>, moduleFile: string): (p: string)
    ensures envFile.Some? && envFile.value != "" ==> p == envFile.value
    ensures envFile.None? || envFile.value == "" ==> p == JoinPath(Parent(Parent(moduleFile)), ".env.local")
  {
    if envFile.Some? && envFile.value != "" then envFile.value
    else JoinPath(Parent(Parent(moduleFile)), ".env.local")
  }

  /** A module at `<root>/<dir>/<file>` reads `<root>/.env.local` by default. */
  lemma {:induction false} DefaultEnvPath(root: string, dir: string, file: string)
    requires |root| > 1 && root[0] == '/' && '/' !in dir && '/' !in file
    ensures EnvPath(None, root + "/" + dir + "/" + file) == root + "/.env.local"
  {
    var p := root + "/" + dir + "/" + file;
    var q := root + "/" + dir;
    assert p == q + "/" + file;
    LastSlashBefore(q, file);
    assert Parent(p) == q;
    LastSlashBefore(root, dir);
    assert Parent(q) == root;
  }

  /** The slash before a slash-free last component is the last one. */
  lemma LastSlashBefore(d: string, last: string)
    requires |d| > 1 && '/' !in last
    ensures LastIndexOf(d + "/" + last, '/') == Some(|d|)
    ensures Parent(d + "/" + last) == d
  {
    var s := d + "/" + last;
    assert s[|d|] == '/';
    assert s[|d| + 1..] == last;
    assert s[..|d|] == d;
  }

  /**
    * The environment after `load_dotenv(path)`: variables already set keep
    * their values (python-dotenv does not override by default), the file's
    * other entries are added, and a missing file adds nothing.
    */
  function Loaded(vars: map<string, string>, path: string, files: map<string, map<string, string>>): (r: map<string, string>)
    ensures forall k :: k in vars ==> k in r && r[k] == vars[k]
    ensures path !in files ==> r == vars
    ensures path in files ==> r.Keys == vars.Keys + files[path].Keys
    ensures path in files ==> forall k :: k in files[path] && k !in vars ==> r[k] == files[path][k]
  {
    if path in files then files[path] + vars else vars
  }

  /** `get_env_var`'s answer once the environment is loaded. */
  function Lookup(vars: map<string, string>, name: string, default: Option<string>): (r: Result<string>)
    ensures name in vars ==> r == Ok(vars[name])
    ensures name !in vars && default.Some? ==> r == Ok(default.value)
    ensures name !in vars && default.None? ==> r.Throw?
  {
    if name in vars then Ok(vars[name])
    else if default.Some? then Ok(default.value)
    else Throw("Environment variable '" + name + "' is not set and no default value was provided")
  }

  /** A set variable wins over any default, even when its value is empty. */
  lemma SetVariableIgnoresDefault(vars: map<string, string>, name: string, d1: Option<string>, d2: Option<string>)
    requires name in vars
    ensures Lookup(vars, name, d1) == Lookup(vars, name, d2) == Ok(vars[name])
  {
  }

  /** An unset variable with no default fails with a message naming it. */
  lemma {:induction false} MissingVariableNamed(vars: map<string, string>, name: string)
    requires name !in vars
    ensures Lookup(vars, name, None).Throw?
    ensures Contains(Lookup(vars, name, None).message, name)
  {
    var msg := Lookup(vars, name, None).message;
    var tail := "' is not set and no default value was provided";
    assert msg == "Environment variable '" + name + tail;
    ContainsMiddle("Environment variable '", name, tail);
  }

  /** The Python process's environment. */
  class ProcessEnv {
    var vars: map<string, string>

    constructor (vars: map<string, string>)
      ensures this.vars == vars
    {
      this.vars := vars;
    }

    /**
      * `load_env_vars(env_file)`: merges the chosen file into the
      * environment and returns a copy of all of it, not only the file's
      * entries. `moduleFile` is `__file__`; `files` maps paths to the
      * entries `dotenv` would parse from them.
      */
    method LoadEnvVars(envFile: Option<string>, moduleFile: string, files: map<string, map<string, string>>)
      returns (snapshot: map<string, string>)
      modifies this
      ensures vars == Loaded(old(vars), EnvPath(envFile, moduleFile), files)
      ensures snapshot == vars
    {
      vars := Loaded(vars, EnvPath(envFile, moduleFile), files);
      snapshot := vars;
    }

    /** `get_env_var(name, default)`: always loads the default file first, then looks the name up. */
    method GetEnvVar(name: string, default: Option<string>, moduleFile: string, files: map<string, map<string, string>>)
      returns (r: Result<string>)
      modifies this
      ensures vars == Loaded(old(vars), EnvPath(None, moduleFile), files)
      ensures r == Lookup(vars, name, default)
    {
      var _ := LoadEnvVars(None, moduleFile, files);
      r := Lookup(vars, name, default);
    }
  }

  /** Loading never loses or changes a variable that was already set, so a set name is still found. */
  lemma LoadingKeepsSetVariables(vars: map<string, string>, path: string, files: map<string, map<string, string>>, name: string, default: Option<string>)
    requires name in vars
    ensures Lookup(Loaded(vars, path, files), name, default) == Ok(vars[name])
  {
  }
}
