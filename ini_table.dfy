/**
 * The local credentials store as the scripts see it through Python's
 * configparser.RawConfigParser(allow_no_value=True): a table of sections,
 * each mapping option names to an optional value, read from and written
 * back to a file on the local disk.
 */
module IniTable {
  import opened Wrappers

  /** Option name to value; `None` is an option written without a value. */
  type Section = map<string, Option<string>>

  /** Section name to section. */
  type Table = map<string, Section>

  /** The two errors `get` and `set` raise (NoSectionError, NoOptionError). */
  datatype ConfigError = NoSectionError(section: string) | NoOptionError(section: string, option: string)

  /** What a path on the local disk holds. */
  datatype FileContent =
    | Ini(table: Table)   // a file the parser reads as this table
    | Malformed           // a file the parser refuses (a parsing error is raised)
    | Unreadable          // a file that cannot be opened for reading

  type FileSystem = map<string, FileContent>

  /** How the environment answers `open(path, 'w+')` followed by `config.write`. */
  datatype WriteEnv =
    | WriteSucceeds
    | OpenFails                          // nothing is truncated
    | FailsAfterTruncate(left: FileContent)  // the file was truncated, then the write broke off

  /** The value `get(section, option)` returns, or the error it raises. */
  function Lookup(t: Table, section: string, option: string): Result<Option<string>, ConfigError>
  {
    if section !in t then Failure(NoSectionError(section))
    else if option !in t[section] then Failure(NoOptionError(section, option))
    else Success(t[section][option])
  }

  /** The table after `set(section, option, value)` on an existing section. */
  function Assigned(t: Table, section: string, option: string, value: Option<string>): Table
    requires section in t
  {
    t[section := t[section][option := value]]
  }

  /** `set` followed by `get`: the option just set reads back, every other one reads as before. */
  lemma LookupAfterAssigned(t: Table, section: string, option: string, value: Option<string>, s: string, o: string)
    requires section in t
    ensures Lookup(Assigned(t, section, option, value), s, o)
         == if s == section && o == option then Success(value) else Lookup(t, s, o)
  {
  }

  /**
   * The table a file contributes when `read` opens it: `read` skips a
   * missing or unreadable file silently, so both contribute no section.
   */
  function Loaded(files: FileSystem, path: string): Table
  {
    if path in files && files[path].Ini? then files[path].table else map[]
  }

  /** `read` raises only on a file it can open but not parse. */
  predicate Parses(files: FileSystem, path: string)
  {
    !(path in files && files[path].Malformed?)
  }

  /** Reading `incoming` into a parser that holds `t`: sections are merged, later options win. */
  function Merged(t: Table, incoming: Table): (r: Table)
    ensures r.Keys == t.Keys + incoming.Keys
    ensures forall s :: s in incoming && s !in t ==> r[s] == incoming[s]
    ensures forall s :: s in t && s !in incoming ==> r[s] == t[s]
    ensures forall s :: s in t && s in incoming ==> r[s] == t[s] + incoming[s]
  {
    map s | s in t.Keys + incoming.Keys ::
      (if s in t then t[s] else map[]) + (if s in incoming then incoming[s] else map[])
  }

  /** What the disk holds after a write of `t` to `path`, as `env` lets it go. */
  function AfterWrite(files: FileSystem, path: string, t: Table, env: WriteEnv): FileSystem
  {
    match env
    case WriteSucceeds => files[path := Ini(t)]
    case OpenFails => files
    case FailsAfterTruncate(left) => files[path := left]
  }

  /** The local disk: the one piece of state that outlives an invocation. */
  class Disk {
    var files: FileSystem
    /** The paths opened for writing, in order; a truncating open counts even if the write then fails. */
    ghost var writeLog: seq<string>

    constructor (initial: FileSystem)
      ensures files == initial && writeLog == []
    {
      files := initial;
      writeLog := [];
    }

    /** `with open(path, 'w+') as f: config.write(f)`; `ok` is false when either step raised. */
    method Persist(path: string, t: Table, env: WriteEnv) returns (ok: bool)
      modifies this
      ensures ok == env.WriteSucceeds?
      ensures files == AfterWrite(old(files), path, t, env)
      ensures writeLog == old(writeLog) + (if env.OpenFails? then [] else [path])
    {
      match env {
        case WriteSucceeds =>
          files := files[path := Ini(t)];
          writeLog := writeLog + [path];
          ok := true;
        case OpenFails =>
          ok := false;
        case FailsAfterTruncate(left) =>
          files := files[path := left];
          writeLog := writeLog + [path];
          ok := false;
      }
    }
  }

  /** A RawConfigParser object: the sections it holds in memory. */
  class ConfigParser {
    var sections: Table

    constructor ()
      ensures sections == map[]
    {
      sections := map[];
    }

    /** `read(path)`: `ok` is false when parsing raised; a missing or unreadable file adds nothing. */
    method Read(disk: Disk, path: string) returns (ok: bool)
      modifies this
      ensures ok == Parses(disk.files, path)
      ensures ok ==> sections == Merged(old(sections), Loaded(disk.files, path))
    {
      ok := Parses(disk.files, path);
      if ok {
        sections := Merged(sections, Loaded(disk.files, path));
      }
    }

    /** `get(section, option)`, without the DEFAULT-section fallback. */
    method Get(section: string, option: string) returns (r: Result<Option<string>, ConfigError>)
      ensures r.Success? <==> section in sections && option in sections[section]
      ensures r.Success? ==> r.value == sections[section][option]
      ensures r.Failure? ==> r.error == (if section in sections then NoOptionError(section, option)
                                         else NoSectionError(section))
    {
      if section !in sections {
        r := Failure(NoSectionError(section));
      } else if option !in sections[section] {
        r := Failure(NoOptionError(section, option));
      } else {
        r := Success(sections[section][option]);
      }
    }

    /** `set(section, option, value)`: raises NoSectionError when the section is absent. */
    method Set(section: string, option: string, value: Option<string>) returns (err: Option<ConfigError>)
      modifies this
      ensures err == (if section in old(sections) then None else Some(NoSectionError(section)))
      ensures sections == if section in old(sections) then Assigned(old(sections), section, option, value)
                          else old(sections)
    {
      if section in sections {
        sections := Assigned(sections, section, option, value);
        err := None;
      } else {
        err := Some(NoSectionError(section));
      }
    }
  }
}
