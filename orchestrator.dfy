/**
 `execute`: normalise the explicit configuration path, resolve the configuration,
 force plain output, run the formatter and turn its summary into a status code.
 */
module Orchestrator {
  import opened Wrappers
  import opened Paths
  import opened FileSystem
  import opened PathSearch
  import opened ConfigResolver

  /** The formatter's error summary, as its four queries answer. */
  datatype Summary = Summary(operational: bool, parsing: bool, formatting: bool, noErrors: bool)

  /** `has_no_errors` holds exactly when none of the three error kinds was reported. */
  predicate Consistent(s: Summary) {
    s.noErrors == !(s.operational || s.parsing || s.formatting)
  }

  /** Why `execute` panics instead of returning a status code. */
  datatype Panic = CurrentDirUnavailable(cwdError: ErrorKind) | ConfigResolutionFailed(resolveError: ErrorKind)

  /**
   The status codes, first match wins: operational errors are 1, then parsing
   errors 2, then formatting errors 3, and a clean run 0.
   */
  function StatusCode(s: Summary): (code: int)
    ensures code in {0, 1, 2, 3}
    ensures code == 1 <==> s.operational
    ensures code == 2 <==> !s.operational && s.parsing
    ensures code == 3 <==> !s.operational && !s.parsing && s.formatting
    ensures code == 0 <==> !s.operational && !s.parsing && !s.formatting
  {
    if s.operational then 1 else if s.parsing then 2 else if s.formatting then 3 else 0
  }

  /** Parsing errors outrank formatting errors, whatever else is reported. */
  lemma ParsingOutranksFormatting(s: Summary)
    requires s.parsing && s.formatting
    ensures StatusCode(s) == (if s.operational then 1 else 2)
  {
  }

  /** `process_summary`: the if/else chain that assigns `status_code`. */
  method ProcessSummary(errorSummary: Summary) returns (statusCode: int)
    requires Consistent(errorSummary)
    ensures statusCode == StatusCode(errorSummary)
    ensures statusCode == 0 <==> errorSummary.noErrors
  {
    if errorSummary.operational {
      statusCode := 1;
    } else if errorSummary.parsing {
      statusCode := 2;
    } else if errorSummary.formatting {
      statusCode := 3;
    } else {
      assert errorSummary.noErrors;
      statusCode := 0;
    }
  }

  /**
   The `map`/`and_then` on the optional configuration path: a path naming a
   regular file is replaced by its parent directory (none if it has no parent);
   any other path is kept.
   */
  function NormalizeConfigPath(env: Env, cfgPath: Option<PathBuf>): (r: Option<PathBuf>)
    ensures cfgPath.None? ==> r.None?
    ensures cfgPath.Some? && !IsFile(env, cfgPath.value) ==> r == cfgPath
    ensures cfgPath.Some? && IsFile(env, cfgPath.value) ==>
              (r.None? <==> cfgPath.value.comps == [])
              && (r.Some? ==> IsAncestor(r.value, cfgPath.value) && |r.value.comps| + 1 == |cfgPath.value.comps|)
  {
    match cfgPath
    case None => None
    case Some(dir) => if IsFile(env, dir) then Parent(dir) else Some(dir)
  }

  /**
   The configuration `execute` hands to the formatter: the one resolved from the
   normalised explicit path with the current directory as fallback, with
   `writeMode` forced to `Plain`; or the panic that stops `execute` before that.
   */
  function FinalConfig(env: Env, cfgPath: Option<PathBuf>, fromToml: string -> Config): (r: Result<Config, Panic>)
    ensures env.cwd.Err? ==> r == Err(CurrentDirUnavailable(env.cwd.error))
    ensures env.cwd.Ok? && MatchCliPathOrFile(env, NormalizeConfigPath(env, cfgPath), env.cwd.value, fromToml).Ok? ==> r.Ok?
    ensures r.Ok? ==> r.value.writeMode == Plain
    ensures r.Ok? ==> (env.cwd.Ok? &&
              var resolved := MatchCliPathOrFile(env, NormalizeConfigPath(env, cfgPath), env.cwd.value, fromToml);
              resolved.Ok? && r.value.options == resolved.value.0.options)
    ensures env.cwd.Ok? && MatchCliPathOrFile(env, NormalizeConfigPath(env, cfgPath), env.cwd.value, fromToml).Err? ==>
              r == Err(ConfigResolutionFailed(MatchCliPathOrFile(env, NormalizeConfigPath(env, cfgPath), env.cwd.value, fromToml).error))
  {
    match env.cwd
    case Err(k) => Err(CurrentDirUnavailable(k))
    case Ok(cwd) =>
      match MatchCliPathOrFile(env, NormalizeConfigPath(env, cfgPath), cwd, fromToml)
      case Err(k) => Err(ConfigResolutionFailed(k))
      case Ok((config, _)) => Ok(config.(writeMode := Plain))
  }

  /**
   With no `rustfmt.toml` above either search root, the formatter gets the
   default configuration in plain output mode.
   */
  lemma NoConfigFileMeansDefaults(env: Env, cfgPath: Option<PathBuf>, fromToml: string -> Config)
    requires env.cwd.Ok? && Lookup(env, env.cwd.value) == Ok(None)
    requires NormalizeConfigPath(env, cfgPath).Some? ==> Lookup(env, NormalizeConfigPath(env, cfgPath).value) == Ok(None)
    ensures FinalConfig(env, cfgPath, fromToml) == Ok(DefaultConfig.(writeMode := Plain))
  {
    ExplicitRootHasPriority(env, NormalizeConfigPath(env, cfgPath), env.cwd.value, fromToml);
  }

  /**
   `execute`: `run` is the external formatter, taking the buffer and the final
   configuration to an error summary. A panic is reported as an `Err`.
   */
  method Execute(env: Env, buffer: string, cfgPath: Option<PathBuf>, fromToml: string -> Config,
                 run: (string, Config) -> Summary) returns (r: Result<int, Panic>)
    requires forall b, c :: Consistent(run(b, c))
    ensures r.Err? <==> FinalConfig(env, cfgPath, fromToml).Err?
    ensures r.Err? ==> r.error == FinalConfig(env, cfgPath, fromToml).error
    ensures r.Ok? ==> r.value == StatusCode(run(buffer, FinalConfig(env, cfgPath, fromToml).value))
  {
    var configPath := NormalizeConfigPath(env, cfgPath);
    if env.cwd.Err? {
      r := Err(CurrentDirUnavailable(env.cwd.error));
      return;
    }
    var resolved := MatchCliPathOrFile(env, configPath, env.cwd.value, fromToml);
    if resolved.Err? {
      r := Err(ConfigResolutionFailed(resolved.error));
      return;
    }
    var config := resolved.value.0;
    config := config.(writeMode := Plain);
    var status := ProcessSummary(run(buffer, config));
    r := Ok(status);
  }
}
