/**
 The part of the operating system that the configuration search sees: what a path
 names, how a path is canonicalised, and the process's current directory. All of
 it is an explicit value, so that every operation on it is deterministic.
 */
module FileSystem {
  import opened Wrappers
  import opened Paths

  /** The `std::io::ErrorKind`s the model tells apart. */
  datatype ErrorKind = NotFound | PermissionDenied | InvalidData | Other

  /** What opening and reading a regular file does. */
  datatype FileData = Readable(text: string) | OpenFails(openError: ErrorKind) | ReadFails(readError: ErrorKind)

  /** What a path names; a path that is not a key of `entries` does not exist. */
  datatype Entry = File(data: FileData) | Dir | ProbeError(kind: ErrorKind)

  /** The file type part of `fs::Metadata`. */
  datatype FileType = RegularFile | Directory

  /**
   `entries` is keyed by absolute paths; `canonical` gives what `fs::canonicalize`
   returns for an absolute path, its canonical form or an error (a path that is
   not a key does not exist); `cwd` is what `env::current_dir` returns.
   */
  datatype Env = Env(entries: map<PathBuf, Entry>, canonical: map<PathBuf, Result<PathBuf, ErrorKind>>, cwd: Result<PathBuf, ErrorKind>)

  /** The operating system only ever reports absolute current and canonical directories. */
  ghost predicate WellFormed(env: Env) {
    && (env.cwd.Ok? ==> env.cwd.value.absolute)
    && forall p :: p in env.canonical && env.canonical[p].Ok? ==> env.canonical[p].value.absolute
  }

  /** A relative path is taken relative to the current directory, as the operating system does. */
  function Absolutize(env: Env, p: PathBuf): (r: Result<PathBuf, ErrorKind>)
    ensures p.absolute ==> r == Ok(p)
    ensures !p.absolute ==> (r.Ok? <==> env.cwd.Ok?)
    ensures !p.absolute && r.Ok? ==> IsAncestor(env.cwd.value, r.value) && r.value.comps[|env.cwd.value.comps|..] == p.comps
    ensures !p.absolute && r.Err? ==> r.error == env.cwd.error
  {
    if p.absolute then Ok(p)
    else match env.cwd
      case Ok(c) => Ok(Join(c, p))
      case Err(k) => Err(k)
  }

  /** `fs::metadata`: the file type of an existing entry, `NotFound` for a missing one. */
  function Metadata(env: Env, p: PathBuf): Result<FileType, ErrorKind> {
    match Absolutize(env, p)
    case Err(k) => Err(k)
    case Ok(a) =>
      if a !in env.entries then Err(NotFound)
      else match env.entries[a]
        case File(_) => Ok(RegularFile)
        case Dir => Ok(Directory)
        case ProbeError(k) => Err(k)
  }

  /**
   What `fs::metadata` reports: a file type exactly for an existing file or
   directory entry, `NotFound` for a path with no entry, and the entry's own error
   or the current-directory error otherwise.
   */
  lemma MetadataOfEntry(env: Env, p: PathBuf)
    ensures var a := Absolutize(env, p);
            Metadata(env, p).Ok? <==> a.Ok? && a.value in env.entries && !env.entries[a.value].ProbeError?
    ensures var a := Absolutize(env, p);
            Metadata(env, p) == Ok(Directory) <==> a.Ok? && a.value in env.entries && env.entries[a.value] == Dir
    ensures var a := Absolutize(env, p);
            a.Ok? && a.value !in env.entries ==> Metadata(env, p) == Err(NotFound)
    ensures var a := Absolutize(env, p);
            a.Ok? && a.value in env.entries && env.entries[a.value].ProbeError? ==>
              Metadata(env, p) == Err(env.entries[a.value].kind)
    ensures Absolutize(env, p).Err? ==> Metadata(env, p) == Err(Absolutize(env, p).error)
  {
  }

  /**
   `Path::is_file`: true only when the metadata can be read and says "regular
   file"; a directory, a missing path and every metadata error read as false.
   */
  predicate IsFile(env: Env, p: PathBuf)
    ensures IsFile(env, p) <==> Absolutize(env, p).Ok? && Absolutize(env, p).value in env.entries
                                && env.entries[Absolutize(env, p).value].File?
  {
    Metadata(env, p) == Ok(RegularFile)
  }

  /**
   `fs::canonicalize` of a path that is already absolute: a path that does not
   exist fails with NotFound, and any other failure is the one the system reports.
   */
  function Canonicalize(env: Env, p: PathBuf): (r: Result<PathBuf, ErrorKind>)
    ensures r.Ok? ==> p in env.canonical
    ensures p !in env.canonical ==> r == Err(NotFound)
    ensures WellFormed(env) && r.Ok? ==> r.value.absolute
  {
    if p in env.canonical then env.canonical[p] else Err(NotFound)
  }

  /**
   `File::open` followed by `read_to_string`. Reading a directory fails; so does a
   path whose metadata cannot be read.
   */
  function ReadToString(env: Env, p: PathBuf): (r: Result<string, ErrorKind>)
    ensures r.Ok? ==> Absolutize(env, p).Ok? && Absolutize(env, p).value in env.entries
                      && env.entries[Absolutize(env, p).value] == File(Readable(r.value))
  {
    match Absolutize(env, p)
    case Err(k) => Err(k)
    case Ok(a) =>
      if a !in env.entries then Err(NotFound)
      else match env.entries[a]
        case File(Readable(t)) => Ok(t)
        case File(OpenFails(k)) => Err(k)
        case File(ReadFails(k)) => Err(k)
        case Dir => Err(Other)
        case ProbeError(k) => Err(k)
  }

  /**
   Once the metadata of a path says "regular file", reading it fails only by the
   file's own open or read error.
   */
  lemma ReadOfRegularFile(env: Env, p: PathBuf)
    requires IsFile(env, p)
    ensures var e := env.entries[Absolutize(env, p).value];
            e.File? &&
            ReadToString(env, p) == match e.data
                                    case Readable(t) => Ok(t)
                                    case OpenFails(k) => Err(k)
                                    case ReadFails(k) => Err(k)
  {
  }
}
