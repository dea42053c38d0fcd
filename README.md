# rust-anaconda formatter bridge: configuration discovery and status mapping

This project models the core of `src/lib.rs` of rust-anaconda, a library that
exposes rustfmt to a foreign host through a C interface. Before formatting a
buffer it looks for a `rustfmt.toml`. It starts at the explicit configuration
path if one was given, and otherwise at the current directory. From there it
climbs the directory ancestry, parses the nearest regular file of that name,
forces plain output mode, runs the formatter and maps the formatter's error
summary to a status code. Strings handed back to the foreign caller stay
allocated until the caller releases them.

The modules follow the components of that file:

- `Wrappers`: `Option` and `Result`.
- `Paths`: `PathBuf` as a root flag plus a sequence of components. It covers
  `push`, `join`, `parent`/`pop` and the ancestor chain.
- `FileSystem`: the environment as one explicit value (`Env`). It holds the
  entries keyed by path, the canonical form of each path and the current
  directory. On top of it sit `fs::metadata`, `Path::is_file`,
  `fs::canonicalize` and `File::open` + `read_to_string`.
- `PathSearch`: `lookup_project_file`. The method `LookupProjectFile` has the
  same loop as the source and is proved equal to the recursive specification
  `Search` (its result) and `Probes` (the paths it probes).
- `ConfigResolver`: `resolve_config` and `match_cli_path_or_file`.
- `Orchestrator`: `execute` and `process_summary`.
- `FfiBridge`: the allocation table behind `to_c_str`, `get_version` and
  `free_c_char_mem`.

The formatter (`rustfmt::run`) and the TOML parser (`Config::from_toml`) are
external. They are parameters: `run: (string, Config) -> Summary` and
`fromToml: string -> Config`. The current directory is the `cwd` field of `Env`,
so no operation reads ambient state. The explicit configuration path arrives
already split into components.

The "nearest ancestor" in the search properties is counted from the canonical
search root. That root is the start directory, joined below `cwd` when it is
relative and then canonicalised once (`SearchRoot`).

Three behaviours of `execute` are easy to misread:

- `execute` forces only `write_mode`. It sets no skip-children or verbosity
  option.
- A configuration resolution error makes `execute` panic (`expect`); it does not
  fall back to defaults. The model returns `Err(ConfigResolutionFailed(..))`.
- A failing `env::current_dir()` in `execute` is an `unwrap` panic as well
  (`Err(CurrentDirUnavailable(..))`).

## Model

| member | source | states |
|---|---|---|
| `Paths.Parent` | src/lib.rs:83 | `pop` fails exactly when no component is left; otherwise pushing back the popped name rebuilds the path |
| `Paths.Join` | src/lib.rs:59 | a relative path is placed below the base (the base is an ancestor and the suffix is the relative path); an absolute one replaces it |
| `Paths.Push` | src/lib.rs:67 | the pushed path lies one level below the original, which is its ancestor, and its last component is the pushed name |
| `Paths.ConfigPath` | src/lib.rs:67 | `current.join("rustfmt.toml")` lies one level below `current`, which is its ancestor, and is named `rustfmt.toml` |
| `Paths.PushThenParent` | src/lib.rs:94 | the parent of a path with a name pushed onto it is the original path |
| `FileSystem.Absolutize` | src/lib.rs:58-62 | an absolute start is kept; a relative one lies below the current directory, and the error of `current_dir` propagates |
| `FileSystem.MetadataOfEntry` | src/lib.rs:68 | metadata succeeds exactly for an existing file or directory entry; a missing entry gives NotFound; otherwise the entry's error or the `current_dir` error comes back |
| `FileSystem.IsFile` | src/lib.rs:93 | `is_file` holds exactly when the path resolves to an existing file entry; a directory, a missing path and every error read as false |
| `FileSystem.Canonicalize` | src/lib.rs:64 | success only for a path that has a canonical entry; a path with no entry fails with NotFound; in a well-formed environment a canonical path is absolute |
| `FileSystem.ReadToString` | src/lib.rs:51-53 | a successful read returns the text of the file entry at that path |
| `FileSystem.ReadOfRegularFile` | src/lib.rs:51-53 | for a path whose metadata says "regular file", reading fails only with that file's own open or read error |
| `PathSearch.ProbeClassification` | src/lib.rs:68-80 | one level matches exactly on a regular file; a directory named `rustfmt.toml` or a missing entry is passed over; every other metadata error aborts with that error |
| `PathSearch.SearchStopsAtNearest` | src/lib.rs:66-86 | the search returns the verdict of the nearest ancestor that is not passed over, and probes exactly the ancestors up to it, nearest first |
| `PathSearch.SearchNotFound` | src/lib.rs:82-85 | the search returns `Ok(None)` exactly when every ancestor up to the root is passed over, and then it has probed each of them once |
| `PathSearch.SearchDecisive` | src/lib.rs:66-86 | any result other than `Ok(None)` comes from some nearest decisive ancestor |
| `PathSearch.NearestMatchWins` | src/lib.rs:66-71 | a found path is a regular file `d/rustfmt.toml` for the nearest ancestor `d` holding one; no ancestor above `d` was probed |
| `PathSearch.ProbeErrorAborts` | src/lib.rs:72-77 | a non-NotFound probe error at the nearest ancestor not passed over is the result; nothing above it is probed |
| `PathSearch.DirectoriesNamedLikeConfigAreSkipped` | src/lib.rs:69-79 | when every ancestor's `rustfmt.toml` is a directory or missing, the search ends with `Ok(None)`, not an error |
| `PathSearch.ProbesClimbChain` | src/lib.rs:82-85 | the search makes between 1 and depth + 1 probes, and they are the ancestor chain in order |
| `PathSearch.SearchRoot` | src/lib.rs:58-64 | an absolute start is canonicalised as it is; a relative one is first joined below the current directory; a `current_dir` error propagates |
| `PathSearch.LookupProbesAreAbsolute` | src/lib.rs:57-67 | in a well-formed environment every path the search probes is absolute |
| `PathSearch.LookupProjectFile` | src/lib.rs:57-87 | the loop returns what the search specification returns from the canonical root, and probes exactly the paths it probes |
| `ConfigResolver.ResolveConfig` | src/lib.rs:45-55 | gives `(default, None)` exactly when lookup finds nothing; a found path comes with the parse of its contents; lookup, open and read errors propagate |
| `ConfigResolver.ResolvedFromNearestFile` | src/lib.rs:46-54 | a resolved file is the nearest regular `rustfmt.toml` above the canonical root, and resolution then fails only by that file's open or read error |
| `ConfigResolver.MatchCliPathOrFile` | src/lib.rs:32-43 | the explicit result wins when it has a path; otherwise the result is exactly resolution at the input location; with no explicit path that is all it does; an explicit error propagates without the fallback |
| `ConfigResolver.ExplicitRootHasPriority` | src/lib.rs:36-42 | a file found below the explicit root is the one used; defaults come exactly when neither search finds a file; any reported path comes from one of the two searches |
| `Orchestrator.StatusCode` | src/lib.rs:110-121 | the code is in {0,1,2,3}; 1 iff operational errors, 2 iff parsing errors without operational ones, 3 iff only formatting errors, 0 iff none |
| `Orchestrator.ParsingOutranksFormatting` | src/lib.rs:112-117 | parsing and formatting errors together give 2 (or 1 with operational errors) |
| `Orchestrator.ProcessSummary` | src/lib.rs:110-127 | the if/else chain gives the prioritised code, which is 0 exactly when the summary reports no errors |
| `Orchestrator.NormalizeConfigPath` | src/lib.rs:90-97 | a path naming a regular file becomes its parent (none when there is no parent); any other path is kept; no path stays none |
| `Orchestrator.FinalConfig` | src/lib.rs:99-104 | the configuration handed to the formatter always has `writeMode == Plain` and otherwise is the resolved one; it exists whenever `current_dir` and resolution both succeed; a `current_dir` or resolution error is a panic instead |
| `Orchestrator.NoConfigFileMeansDefaults` | src/lib.rs:99-104 | with no `rustfmt.toml` above either search root, the formatter gets the default configuration in plain mode |
| `Orchestrator.Execute` | src/lib.rs:89-108 | the status is the prioritised code of the summary the formatter gives for the final configuration; a panic happens exactly when the final configuration cannot be built |
| `FfiBridge.CStrLenWithNul` | src/lib.rs:176-177 | the scanned length ends at the first NUL, the NUL included |
| `FfiBridge.ScanMeasuresWholeBlock` | src/lib.rs:176-178 | for a block in `CString` shape the scanned length is the whole allocation, terminator included |
| `FfiBridge.TerminatedIsCStringBlock` | src/lib.rs:151 | a NUL-free string plus its terminator is in `CString` shape |
| `FfiBridge.ForeignHeap.ToCStr` | src/lib.rs:150-155 | a NUL-free string gets a fresh block `s + [NUL]` and nothing else changes; an interior NUL is refused at its first position and allocates nothing |
| `FfiBridge.ForeignHeap.GetVersion` | src/lib.rs:161-163 | hands out the recorded version, or "unknown", as a fresh NUL-terminated block |
| `FfiBridge.ForeignHeap.FreeCCharMem` | src/lib.rs:170-179 | releasing null leaves the table unchanged; releasing a live block removes exactly that block |

## Left out

- Real filesystem calls are replaced by the `Env` value: `fs::metadata`, `fs::canonicalize`, `File::open`, `read_to_string` and `env::current_dir`. Symbolic links appear only through the `canonical` map. The map gives each path's canonical form or the error canonicalisation reports; a path missing from it fails with NotFound, as `fs::canonicalize` does for a missing path.
- `FileSystem.Metadata`: for a relative path when the current directory is unavailable, it reports the current-directory error rather than the operating system's own. In a `WellFormed` environment (current and canonical directories absolute) every path the search probes is absolute (`LookupProbesAreAbsolute`), so only the `is_file` check in `execute` can reach this case, and it reads every error as "not a file". An environment that is not well-formed is not excluded by any precondition.
- `Config::from_toml`, `rustfmt::run` and the internals of `Summary` are external. They are parameters, and `Summary` is a record of four booleans. The `assert!(has_no_errors())` at line 119 is taken as the `Consistent` requirement on summaries.
- The options inside `Config` other than `write_mode` are opaque. `DefaultConfig` uses `Replace`, the external crate's default write mode; no property depends on that choice.
- `File::open` and `read_to_string` are merged into one `ReadToString`. The `FileData` of an entry says which of the two fails.
- `format` and `c_str_to_safe_string` (lines 135-140, 189-193) are not modelled. They need lossy UTF-8 decoding of raw foreign memory and `PathBuf::from` on a string. The explicit path is given to `Execute` already split into components.
- `FfiBridge.ForeignHeap.FreeCCharMem`: raw memory, `mem::forget` and `Vec::from_raw_parts` are absent. Their effect is the allocation table. Addresses only grow and are never reused. Releasing a pointer twice, or a pointer not produced here, is undefined in the source and excluded by a precondition.
- `get_version` takes the compile-time `option_env!("CARGO_PKG_VERSION")` as a parameter.
- Flushing standard output (line 124) has no counterpart. Neither has the conversion of the status code to `c_int`.
- Strings are sequences of characters, not UTF-8 bytes: lengths, NUL scans and NUL positions in `FfiBridge` count characters.
- Concurrency is not modelled; every call is sequential and deterministic.
