/**
 * The desktop application object (wails/app.go): home-directory
 * expansion of the paths it is given, the slot holding a file opened
 * before the front end is ready, and delegation to an engine that serves
 * from "/". The home directory lookup, path joining, the parser and the
 * database are parameters; the "open-file" events emitted to the front
 * end are recorded in a ghost log.
 */
module WailsApp {
  import opened Values
  import opened Text
  import Banquet
  import AgGrid
  import Engine

  /**
   * expandHome: "~" is the home directory and "~/rest" is rest joined to
   * it; anything else, and everything when the home directory cannot be
   * found, is unchanged.
   */
  function ExpandHome(path: string, home: Result<string>, join: (string, string) -> string): (r: string)
    ensures home.Err? ==> r == path
    ensures path == "~" && home.Ok? ==> r == home.value
    ensures HasPrefix(path, "~/") && home.Ok? ==> r == join(home.value, path[2..])
  {
    if HasPrefix(path, "~/") || path == "~" then
      match home
      case Ok(h) => if path == "~" then h else join(h, path[2..])
      case Err(_) => path
    else path
  }

  /**
   * Only the current user's home is expanded: a path that does not start
   * with "~", or that names another user ("~name", "~name/..."), comes
   * back as it was.
   */
  lemma ExpandHomeOthers(path: string, home: Result<string>, join: (string, string) -> string)
    ensures !HasPrefix(path, "~") ==> ExpandHome(path, home, join) == path
    ensures |path| >= 2 && path[0] == '~' && path[1] != '/' ==> ExpandHome(path, home, join) == path
  {
    if HasPrefix(path, "~/") {
      assert path[..1] == "~";
    }
  }

  class App {
    const engine: Engine.Engine
    var pendingFile: string
    /** The front end has started (the context is set). */
    var started: bool
    /** The paths sent to the front end in "open-file" events, in order. */
    ghost var emitted: seq<string>

    ghost predicate Valid()
      reads this, engine
    {
      engine.Valid() && engine.serveFolder == "/"
    }

    /** NewApp: an engine serving from "/", nothing pending, not started. */
    constructor ()
      ensures Valid()
      ensures fresh(engine) && engine.conns == map[]
      ensures pendingFile == "" && !started && emitted == []
    {
      engine := new Engine.Engine("/");
      pendingFile := "";
      started := false;
      emitted := [];
    }

    /** Startup: the front end is there; a file opened before now is announced to it. */
    method Startup()
      modifies this
      ensures started && pendingFile == old(pendingFile)
      ensures emitted == old(emitted) + (if old(pendingFile) != "" then [old(pendingFile)] else [])
    {
      started := true;
      if pendingFile != "" {
        emitted := emitted + [pendingFile];
      }
    }

    /** OpenFile: the path is kept for the front end, and announced at once when it has started. */
    method OpenFile(filePath: string)
      modifies this
      ensures pendingFile == filePath && started == old(started)
      ensures emitted == old(emitted) + (if started then [filePath] else [])
    {
      pendingFile := filePath;
      if started {
        emitted := emitted + [filePath];
      }
    }

    /** GetPendingFile: hands out the kept path once and clears it, so a second call gets "". */
    method GetPendingFile() returns (p: string)
      modifies this
      ensures p == old(pendingFile) && pendingFile == ""
      ensures started == old(started) && emitted == old(emitted)
    {
      p := pendingFile;
      pendingFile := "";
    }

    /** ListFiles: the engine's listing of the expanded directory. */
    method ListFiles(dir: string, home: Result<string>, readDir: string -> Result<seq<Engine.DirEntry>>,
                     join: (string, string) -> string)
      returns (r: Result<seq<Engine.FileEntry>>)
      requires Valid()
      ensures var d := ExpandHome(dir, home, join);
        && (Contains(d, "..") ==> r == Err("invalid path"))
        && (!Contains(d, "..") ==>
              r == match readDir(join("/", d))
                   case Err(e) => Err("failed to read directory: " + e)
                   case Ok(entries) => Ok(Engine.Listed(entries)))
    {
      var d := ExpandHome(dir, home, join);
      r := engine.ListFiles(d, readDir, join);
    }

    /** ListTables: the engine's table list for the expanded database path. */
    method ListTables(db: string, home: Result<string>, join: (string, string) -> string,
                      open: string -> Result<Engine.Handle>,
                      database: Engine.Handle -> Result<seq<Option<Engine.TableInfo>>>)
      returns (r: Result<seq<Engine.TableInfo>>)
      requires Valid()
      modifies engine
      ensures Valid()
      ensures var d := ExpandHome(db, home, join);
        && (Contains(d, "..") ==> r == Err("invalid path") && engine.conns == old(engine.conns))
        && (!Contains(d, "..") ==>
              var h := Engine.Lookup(old(engine.conns), join("/", d), open);
              && engine.conns == Engine.Cached(old(engine.conns), join("/", d), h)
              && (h.Err? ==> r == Err("error opening DB: " + h.msg))
              && (h.Ok? && database(h.value).Err? ==> r == Err("database error: " + database(h.value).msg))
              && (h.Ok? && database(h.value).Ok? ==> r == Ok(Scanned(database(h.value).value))))
    {
      var d := ExpandHome(db, home, join);
      r := engine.ListTables(d, join, open, database);
    }

    /** Query: the engine's answer for the options with the descriptor path expanded. */
    method Query(opts: Engine.QueryOptions, home: Result<string>, parse: string -> Result<Banquet.Banquet>,
                 decoded: AgGrid.Decoded, join: (string, string) -> string, open: string -> Result<Engine.Handle>,
                 database: Engine.Handle -> Engine.Database)
      returns (r: Result<Engine.QueryResult>)
      requires Valid()
      modifies engine
      ensures Valid()
      ensures var o := opts.(banquetPath := ExpandHome(opts.banquetPath, home, join));
        var res := Engine.Resolve(o, parse(o.banquetPath), decoded);
        && (res.Err? ==> r == Err(res.msg) && engine.conns == old(engine.conns))
        && (res.Ok? ==>
              var h := Engine.Lookup(old(engine.conns), join("/", res.value.1), open);
              && engine.conns == Engine.Cached(old(engine.conns), join("/", res.value.1), h)
              && (h.Err? ==> r == Err("error opening DB: " + h.msg))
              && (h.Ok? ==> r == Engine.Execute(res.value.0, o.skipTotalCount, database(h.value))))
    {
      var o := opts.(banquetPath := ExpandHome(opts.banquetPath, home, join));
      r := engine.Query(o, parse(o.banquetPath), decoded, join, open, database);
    }
  }
}
