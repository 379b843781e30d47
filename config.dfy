/**
 * The persisted configuration behind a viper store. Only the
 * slow-response threshold is stored; the operating-system facts, the
 * directory creation and the file write are parameters.
 */
module Config {
  import opened Wrappers
  import AppPath

  /** The configuration record. HideLogomark is never stored, so it is read back as false. */
  datatype Config = Config(slowResponseThreshold: int, hideLogomark: bool)

  const DefaultThreshold: int := 500

  /** What the environment answers: GOOS, the home directory (None when its lookup fails) and APPDATA. */
  datatype Env = Env(goos: string, home: Option<string>, appData: string)

  /**
   * The viper state for the one key "slow_response_threshold": the value
   * set explicitly, the value read from the file, the default, and the
   * file's content (None: no readable config file; Some(None): a file
   * without the key).
   */
  datatype Viper = Viper(override: Option<int>, readValue: Option<int>, default: Option<int>, file: Option<Option<int>>)

  /** viper's lookup order for a key: explicit value, then file value, then default. */
  function Effective(v: Viper): (r: Option<int>)
    ensures v.override.Some? ==> r == v.override
    ensures r.None? <==> v.override.None? && v.readValue.None? && v.default.None?
  {
    if v.override.Some? then v.override else if v.readValue.Some? then v.readValue else v.default
  }

  /** viper.GetInt: the effective value, 0 when there is none. */
  function GetInt(v: Viper): int {
    Effective(v).GetOr(0)
  }

  /** config.GetConfigPath repeats the app-path rules, so it is AppPath's. */
  function GetConfigPath(env: Env): AppPath.PathOutcome {
    AppPath.GetConfigPath(env.goos, env.home, env.appData)
  }

  /** How a load ends: a configuration, or a panic (path lookup, directory creation or write failure). */
  datatype LoadOutcome = Loaded(config: Config) | Panicked

  /** How UpdateConfig ends: success, an error returned to the caller, or a panic in the path lookup. */
  datatype UpdateOutcome = Updated | Failed(reason: string) | UpdatePanicked

  /** WriteConfigAs: the file receives every setting's effective value. */
  function Written(v: Viper): (r: Viper)
    ensures r.file == Some(Effective(v))
    ensures Effective(r) == Effective(v)
  {
    v.(file := Some(Effective(v)))
  }

  /** InitConfig: the default 500 is registered and written; a failed mkdir or write panics. */
  function InitSpec(v: Viper, env: Env, mkdirOk: bool, writeOk: bool): (r: (LoadOutcome, Viper))
    ensures r.0.Loaded? <==> GetConfigPath(env).ConfigPath? && mkdirOk && writeOk
    ensures r.0.Loaded? ==> r.0.config == Config(DefaultThreshold, false)
    ensures r.0.Loaded? ==> r.1.default == Some(DefaultThreshold) && r.1.file == Some(Effective(r.1))
  {
    if GetConfigPath(env).Panic? || !mkdirOk then (Panicked, v)
    else
      var v1 := v.(default := Some(DefaultThreshold));
      if !writeOk then (Panicked, v1) else (Loaded(Config(DefaultThreshold, false)), Written(v1))
  }

  /** GetConfig: the stored threshold when the file reads, otherwise InitConfig. */
  function GetSpec(v: Viper, env: Env, mkdirOk: bool, writeOk: bool): (r: (LoadOutcome, Viper))
    ensures GetConfigPath(env).ConfigPath? && v.file.None? ==> r == InitSpec(v, env, mkdirOk, writeOk)
    ensures GetConfigPath(env).ConfigPath? && v.file.Some? ==>
      r.0 == Loaded(Config(GetInt(r.1), false)) && r.1 == v.(readValue := v.file.value)
  {
    if GetConfigPath(env).Panic? then (Panicked, v)
    else if v.file.None? then InitSpec(v, env, mkdirOk, writeOk)
    else
      var v1 := v.(readValue := v.file.value);
      (Loaded(Config(GetInt(v1), false)), v1)
  }

  /** UpdateConfig: the threshold is set first; directory and write errors are returned, not raised. */
  function UpdateSpec(v: Viper, c: Config, env: Env, mkdirOk: bool, writeOk: bool): (r: (UpdateOutcome, Viper))
    ensures r.1.override == Some(c.slowResponseThreshold)
    ensures r.0 == Updated <==> GetConfigPath(env).ConfigPath? && mkdirOk && writeOk
    ensures r.0 == Updated ==> r.1.file == Some(Some(c.slowResponseThreshold))
    ensures GetConfigPath(env).ConfigPath? && !(mkdirOk && writeOk) ==> r.0.Failed? && r.1.file == v.file
  {
    var v1 := v.(override := Some(c.slowResponseThreshold));
    if GetConfigPath(env).Panic? then (UpdatePanicked, v1)
    else if !mkdirOk then (Failed("mkdir"), v1)
    else if !writeOk then (Failed("write"), v1)
    else (Updated, Written(v1))
  }

  /** After a successful update, loading gives back the threshold that was stored. */
  lemma UpdateThenGet(v: Viper, c: Config, env: Env, mkdirOk: bool, writeOk: bool, mkdirOk2: bool, writeOk2: bool)
    requires UpdateSpec(v, c, env, mkdirOk, writeOk).0 == Updated
    ensures var v1 := UpdateSpec(v, c, env, mkdirOk, writeOk).1;
      GetSpec(v1, env, mkdirOk2, writeOk2).0 == Loaded(Config(c.slowResponseThreshold, false))
  {
  }

  /** A stored threshold survives a restart: a fresh store that reads the written file sees it. */
  lemma UpdatePersists(v: Viper, c: Config, env: Env, mkdirOk: bool, writeOk: bool, mkdirOk2: bool, writeOk2: bool)
    requires UpdateSpec(v, c, env, mkdirOk, writeOk).0 == Updated
    ensures var file := UpdateSpec(v, c, env, mkdirOk, writeOk).1.file;
      GetSpec(Viper(None, None, None, file), env, mkdirOk2, writeOk2).0 == Loaded(Config(c.slowResponseThreshold, false))
  {
  }

  /** With no config file, loading yields the default 500 unless creating it fails. */
  lemma FirstLoadIsDefault(env: Env, mkdirOk: bool, writeOk: bool)
    requires GetConfigPath(env).ConfigPath? && mkdirOk && writeOk
    ensures GetSpec(Viper(None, None, None, None), env, mkdirOk, writeOk).0 == Loaded(Config(500, false))
    ensures GetSpec(Viper(None, None, None, None), env, mkdirOk, writeOk).1.file == Some(Some(500))
  {
  }

  /** The process-wide viper store and the config file it writes. */
  class Store {
    var state: Viper

    /** A fresh process: nothing set, nothing read, no default; `file` is what is on disk. */
    constructor (file: Option<Option<int>>)
      ensures state == Viper(None, None, None, file)
    {
      state := Viper(None, None, None, file);
    }

    /** InitConfig */
    method InitConfig(env: Env, mkdirOk: bool, writeOk: bool) returns (r: LoadOutcome)
      modifies this
      ensures (r, state) == InitSpec(old(state), env, mkdirOk, writeOk)
    {
      var path := GetConfigPath(env);
      if path.Panic? || !mkdirOk {
        return Panicked;
      }
      state := state.(default := Some(DefaultThreshold));
      if !writeOk {
        return Panicked;
      }
      state := state.(file := Some(Effective(state)));
      r := Loaded(Config(DefaultThreshold, false));
    }

    /** GetConfig */
    method GetConfig(env: Env, mkdirOk: bool, writeOk: bool) returns (r: LoadOutcome)
      modifies this
      ensures (r, state) == GetSpec(old(state), env, mkdirOk, writeOk)
    {
      var path := GetConfigPath(env);
      if path.Panic? {
        return Panicked;
      }
      if state.file.None? {
        r := InitConfig(env, mkdirOk, writeOk);
        return;
      }
      state := state.(readValue := state.file.value);
      r := Loaded(Config(Effective(state).GetOr(0), false));
    }

    /** UpdateConfig */
    method UpdateConfig(c: Config, env: Env, mkdirOk: bool, writeOk: bool) returns (r: UpdateOutcome)
      modifies this
      ensures (r, state) == UpdateSpec(old(state), c, env, mkdirOk, writeOk)
    {
      state := state.(override := Some(c.slowResponseThreshold));
      var path := GetConfigPath(env);
      if path.Panic? {
        return UpdatePanicked;
      }
      if !mkdirOk {
        return Failed("mkdir");
      }
      if !writeOk {
        return Failed("write");
      }
      state := state.(file := Some(Effective(state)));
      r := Updated;
    }
  }
}
