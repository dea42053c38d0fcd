/**
 Configuration resolution: find the nearest `rustfmt.toml`, read it and parse it,
 or fall back to the default configuration; and the two-tier choice between an
 explicit search root and the input location.
 */
module ConfigResolver {
  import opened Wrappers
  import opened Paths
  import opened FileSystem
  import opened PathSearch

  /** The output modes of the formatter's `WriteMode`. */
  datatype WriteMode = Replace | Overwrite | Display | Diff | Coverage | Plain | Checkstyle

  /**
   The formatter's configuration. Only `writeMode` is touched by this code; every
   other option is carried, unread, in `options`.
   */
  datatype Config = Config(writeMode: WriteMode, options: map<string, string>)

  /** `Config::default()`. */
  const DefaultConfig: Config := Config(Replace, map[])

  /** A configuration and the file it came from, if any. */
  type Resolved = (Config, Option<PathBuf>)

  /**
   `resolve_config`: "not found" gives the default configuration and no path; a
   found file is read and parsed by `fromToml` (`Config::from_toml`); lookup,
   open and read errors propagate.
   */
  function ResolveConfig(env: Env, dir: PathBuf, fromToml: string -> Config): (r: Result<Resolved, ErrorKind>)
    ensures r == Ok((DefaultConfig, None)) <==> Lookup(env, dir) == Ok(None)
    ensures r.Ok? && r.value.1.None? ==> r.value.0 == DefaultConfig
    ensures Lookup(env, dir).Err? ==> r == Err(Lookup(env, dir).error)
    ensures r.Ok? && r.value.1.Some? ==>
              Lookup(env, dir) == Ok(r.value.1) && ReadToString(env, r.value.1.value).Ok?
              && r.value.0 == fromToml(ReadToString(env, r.value.1.value).value)
    ensures Lookup(env, dir).Ok? && Lookup(env, dir).value.Some? && ReadToString(env, Lookup(env, dir).value.value).Err? ==>
              r == Err(ReadToString(env, Lookup(env, dir).value.value).error)
  {
    match Lookup(env, dir)
    case Err(k) => Err(k)
    case Ok(None) => Ok((DefaultConfig, None))
    case Ok(Some(path)) =>
      match ReadToString(env, path)
      case Err(k) => Err(k)
      case Ok(toml) => Ok((fromToml(toml), Some(path)))
  }

  /**
   A configuration file that resolution reports is the nearest `rustfmt.toml`
   that is a regular file above the canonical search root, and once lookup has
   found it, resolution can fail only by that file's own open or read error.
   */
  lemma ResolvedFromNearestFile(env: Env, dir: PathBuf, fromToml: string -> Config, q: PathBuf)
    requires Lookup(env, dir) == Ok(Some(q))
    ensures SearchRoot(env, dir).Ok?
    ensures exists i: nat :: NearestDecisive(env, SearchRoot(env, dir).value, i)
                             && q == ConfigPath(Ancestor(SearchRoot(env, dir).value, i))
    ensures var e := env.entries[Absolutize(env, q).value];
            e.File? &&
            ResolveConfig(env, dir, fromToml) == match e.data
                                                 case Readable(t) => Ok((fromToml(t), Some(q)))
                                                 case OpenFails(k) => Err(k)
                                                 case ReadFails(k) => Err(k)
  {
    var root := SearchRoot(env, dir).value;
    NearestMatchWins(env, root, q);
    ReadOfRegularFile(env, q);
  }

  /**
   `match_cli_path_or_file`: an explicit root that yields a configuration file
   wins outright; an explicit root that yields nothing falls back to the input
   location; an error from the explicit root propagates without the fallback.
   */
  function MatchCliPathOrFile(env: Env, configPath: Option<PathBuf>, inputFile: PathBuf, fromToml: string -> Config): (r: Result<Resolved, ErrorKind>)
    ensures configPath.None? ==> r == ResolveConfig(env, inputFile, fromToml)
    ensures configPath.Some? && ResolveConfig(env, configPath.value, fromToml).Err? ==>
              r == ResolveConfig(env, configPath.value, fromToml)
    ensures configPath.Some? && ResolveConfig(env, configPath.value, fromToml).Ok?
            && ResolveConfig(env, configPath.value, fromToml).value.1.Some? ==>
              r == ResolveConfig(env, configPath.value, fromToml)
    ensures configPath.Some? && ResolveConfig(env, configPath.value, fromToml).Ok?
            && ResolveConfig(env, configPath.value, fromToml).value.1.None? ==>
              r == ResolveConfig(env, inputFile, fromToml)
  {
    if configPath.Some? then
      match ResolveConfig(env, configPath.value, fromToml)
      case Err(k) => Err(k)
      case Ok((toml, path)) =>
        if path.Some? then Ok((toml, path)) else ResolveConfig(env, inputFile, fromToml)
    else
      ResolveConfig(env, inputFile, fromToml)
  }

  /**
   The two tiers as seen from the result: a configuration file found below the
   explicit root is the one used; the defaults are used only when neither the
   explicit root nor the input location has one, and a configuration path it
   reports comes from one of the two searches.
   */
  lemma ExplicitRootHasPriority(env: Env, configPath: Option<PathBuf>, inputFile: PathBuf, fromToml: string -> Config)
    ensures configPath.Some? && Lookup(env, configPath.value).Ok? && Lookup(env, configPath.value).value.Some? ==>
              MatchCliPathOrFile(env, configPath, inputFile, fromToml) == ResolveConfig(env, configPath.value, fromToml)
    ensures MatchCliPathOrFile(env, configPath, inputFile, fromToml) == Ok((DefaultConfig, None)) <==>
              (configPath.Some? ==> Lookup(env, configPath.value) == Ok(None)) && Lookup(env, inputFile) == Ok(None)
    ensures var r := MatchCliPathOrFile(env, configPath, inputFile, fromToml);
            r.Ok? && r.value.1.Some? ==>
              (configPath.Some? && Lookup(env, configPath.value) == Ok(r.value.1)) || Lookup(env, inputFile) == Ok(r.value.1)
  {
  }
}
