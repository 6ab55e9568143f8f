/**
 * The query engine (sqliter/engine.go): the rules that turn request
 * options into a descriptor, the connection cache, directory and table
 * listings, the one-shot query and the streaming chunker.
 *
 * The database, the directory reader, filepath.Join, ParseNested and the
 * filter-model JSON decoder are outside the model: their answers arrive
 * as parameters (values or functions), and the model states what the
 * engine does with each possible answer.
 */
module Engine {
  import opened Values
  import opened Text
  import opened Banquet
  import SqlUtil
  import AgGrid

  /** The caller's query options. */
  datatype QueryOptions = QueryOptions(
    banquetPath: string,
    filterWhere: string,
    filterModelJSON: string,
    sortCol: string,
    sortDir: string,
    offset: int,
    limit: int,
    forceZeroLimit: bool,
    allowOverride: bool,
    skipTotalCount: bool)

  // ---------------------------------------------------------------------
  // Descriptor rewriting
  // ---------------------------------------------------------------------

  /**
   * Limit/offset override: only with AllowOverride; a positive limit sets
   * both, a forced zero limit sets "0" and the offset, anything else keeps
   * the descriptor's own values.
   */
  function ApplyLimits(b: Banquet, opts: QueryOptions): (r: Banquet)
    ensures r.(limit := b.limit, offset := b.offset) == b
    ensures opts.allowOverride && opts.limit > 0 ==>
      r.limit == IntToString(opts.limit) && r.offset == IntToString(opts.offset)
    ensures opts.allowOverride && opts.limit <= 0 && opts.forceZeroLimit ==>
      r.limit == "0" && r.offset == IntToString(opts.offset)
    ensures !opts.allowOverride || (opts.limit <= 0 && !opts.forceZeroLimit) ==> r == b
  {
    if opts.allowOverride && opts.limit > 0 then
      b.(limit := IntToString(opts.limit), offset := IntToString(opts.offset))
    else if opts.allowOverride && opts.forceZeroLimit then
      b.(limit := "0", offset := IntToString(opts.offset))
    else b
  }

  /** An applied override reads back as the caller's numbers. */
  lemma LimitRoundTrip(b: Banquet, opts: QueryOptions)
    requires opts.allowOverride && (opts.limit > 0 || opts.forceZeroLimit)
    ensures ParseInt(ApplyLimits(b, opts).offset) == Some(opts.offset)
    ensures ParseInt(ApplyLimits(b, opts).limit) == Some(if opts.limit > 0 then opts.limit else 0)
  {
    ParseIntToString(opts.offset);
    if opts.limit > 0 {
      ParseIntToString(opts.limit);
    } else {
      assert ApplyLimits(b, opts).limit == "0";
      assert AllDigits("0");
    }
  }

  /** Sorting: a non-empty column replaces OrderBy; a direction only comes with it. */
  function ApplySort(b: Banquet, opts: QueryOptions): (r: Banquet)
    ensures r.(orderBy := b.orderBy, sortDirection := b.sortDirection) == b
    ensures r.orderBy == if opts.sortCol != "" then opts.sortCol else b.orderBy
    ensures r.sortDirection == if opts.sortCol != "" && opts.sortDir != "" then opts.sortDir else b.sortDirection
  {
    if opts.sortCol == "" then b
    else if opts.sortDir == "" then b.(orderBy := opts.sortCol)
    else b.(orderBy := opts.sortCol, sortDirection := opts.sortDir)
  }

  /** Applying the same sort options twice changes nothing more. */
  lemma ApplySortIdempotent(b: Banquet, opts: QueryOptions)
    ensures ApplySort(ApplySort(b, opts), opts) == ApplySort(b, opts)
  {
  }

  /** The "(a) AND (c)" combination, where an empty side leaves the other unchanged. */
  function Conjoin(a: string, c: string): (r: string)
    ensures r == "" <==> a == "" && c == ""
    ensures c == "" ==> r == a
    ensures a == "" ==> r == c
    ensures a != "" && c != "" ==> r == "(" + a + ") AND (" + c + ")"
  {
    if c == "" then a
    else if a == "" then c
    else "(" + a + ") AND (" + c + ")"
  }

  /**
   * The filter merge: the grid filter model is translated first (an error
   * aborts), combined with the ad-hoc filter, and the result is combined
   * with the descriptor's own Where.
   */
  function MergeFilters(b: Banquet, opts: QueryOptions, decoded: AgGrid.Decoded): (r: Result<Banquet>)
    ensures r.Err? <==> AgGrid.BuildWhereClause(opts.filterModelJSON, decoded).Err?
    ensures r.Err? ==> r.msg == "error building filter: " + AgGrid.BuildWhereClause(opts.filterModelJSON, decoded).msg
    ensures r.Ok? ==> r.value == b.(where := Conjoin(b.where, Conjoin(opts.filterWhere, AgGrid.BuildWhereClause(opts.filterModelJSON, decoded).value)))
  {
    match AgGrid.BuildWhereClause(opts.filterModelJSON, decoded)
    case Err(e) => Err("error building filter: " + e)
    case Ok(fm) => Ok(b.(where := Conjoin(b.where, Conjoin(opts.filterWhere, fm))))
  }

  /** With all three predicates present the final Where nests them in this order. */
  lemma MergeOrder(b: Banquet, opts: QueryOptions, decoded: AgGrid.Decoded, fm: string)
    requires AgGrid.BuildWhereClause(opts.filterModelJSON, decoded) == Ok(fm)
    requires b.where != "" && opts.filterWhere != "" && fm != ""
    ensures MergeFilters(b, opts, decoded).value.where ==
      "(" + b.where + ") AND (" + ("(" + opts.filterWhere + ") AND (" + fm + ")") + ")"
  {
    assert Conjoin(opts.filterWhere, fm) == "(" + opts.filterWhere + ") AND (" + fm + ")";
  }

  /** Without a filter model, the descriptor's Where is only combined with the ad-hoc filter. */
  lemma MergeWithoutModel(b: Banquet, opts: QueryOptions, decoded: AgGrid.Decoded)
    requires opts.filterModelJSON == ""
    ensures MergeFilters(b, opts, decoded) == Ok(b.(where := Conjoin(b.where, opts.filterWhere)))
  {
    AgGrid.EmptyInput(decoded);
  }

  /** The path check: one leading "/" is trimmed and any ".." is refused. */
  function CheckPath(dataSetPath: string): (r: Result<string>)
    ensures r.Err? <==> Contains(TrimPrefix(dataSetPath, "/"), "..")
    ensures r.Err? ==> r.msg == "invalid path"
    ensures r.Ok? ==> !Contains(r.value, "..")
    ensures r.Ok? ==> r.value == dataSetPath || "/" + r.value == dataSetPath
  {
    var p := TrimPrefix(dataSetPath, "/");
    if Contains(p, "..") then Err("invalid path") else Ok(p)
  }

  /** A path with ".." after its first character is always refused. */
  lemma TraversalRefused(a: string, c: string)
    ensures CheckPath(a + ".." + c).Err?
  {
    var s := a + ".." + c;
    var p := TrimPrefix(s, "/");
    if |a| == 0 {
      assert s[0] == '.';
      assert p == s;
      assert OccursAt(p, "..", 0);
    } else if HasPrefix(s, "/") {
      assert p == a[1..] + ".." + c;
      assert OccursAt(p, "..", |a| - 1);
    } else {
      assert OccursAt(p, "..", |a|);
    }
  }

  /**
   * The descriptor preparation shared by Query and QueryStream: parse,
   * overrides, sort, filter merge. Parse and filter errors are wrapped.
   */
  function Prepare(opts: QueryOptions, parsed: Result<Banquet>, decoded: AgGrid.Decoded): Result<Banquet>
  {
    match parsed
    case Err(e) => Err("error parsing URL: " + e)
    case Ok(b) => MergeFilters(ApplySort(ApplyLimits(b, opts), opts), opts, decoded)
  }

  /**
   * Table inference: only for an empty Table. One listed table is chosen;
   * none, several, or a failed listing are errors.
   */
  function InferTable(b: Banquet, listing: Result<seq<Option<string>>>): (r: Result<Banquet>)
    ensures b.table != "" ==> r == Ok(b)
    ensures b.table == "" && listing.Err? ==> r == Err("failed to list tables: " + listing.msg)
    ensures b.table == "" && listing.Ok? ==>
      var names := Scanned(listing.value);
      && (|names| == 1 ==> r == Ok(b.(table := names[0])))
      && (|names| == 0 ==> r == Err("no tables found in database"))
      && (|names| >= 2 ==> r == Err("table name required. Available tables: " + Join(names, ", ")))
  {
    if b.table != "" then Ok(b)
    else
      match listing
      case Err(e) => Err("failed to list tables: " + e)
      case Ok(rows) =>
        var names := Scanned(rows);
        if |names| == 1 then Ok(b.(table := names[0]))
        else if |names| == 0 then Err("no tables found in database")
        else Err("table name required. Available tables: " + Join(names, ", "))
  }

  /** The error for several tables names every one of them. */
  lemma {:induction false} AmbiguousListsAll(b: Banquet, rows: seq<Option<string>>, k: nat)
    requires b.table == "" && |Scanned(rows)| >= 2 && k < |Scanned(rows)|
    ensures InferTable(b, Ok(rows)).Err?
    ensures Contains(InferTable(b, Ok(rows)).msg, Scanned(rows)[k])
  {
    var names := Scanned(rows);
    var prefix := "table name required. Available tables: ";
    JoinContains(names, ", ", k);
    var j :| OccursAt(Join(names, ", "), names[k], j);
    assert OccursAt(prefix + Join(names, ", "), names[k], |prefix| + j) by {
      assert (prefix + Join(names, ", "))[|prefix| + j..|prefix| + j + |names[k]|]
        == Join(names, ", ")[j..j + |names[k]|];
    }
  }

  /** Each part of a join occurs in it. */
  lemma {:induction false} JoinContains(parts: seq<string>, sep: string, k: nat)
    requires k < |parts|
    ensures exists j :: OccursAt(Join(parts, sep), parts[k], j)
  {
    if k == 0 {
      if |parts| == 1 {
        assert OccursAt(Join(parts, sep), parts[0], 0);
      } else {
        assert OccursAt(Join(parts, sep), parts[0], 0);
      }
    } else {
      JoinContains(parts[1..], sep, k - 1);
      var j :| OccursAt(Join(parts[1..], sep), parts[1..][k - 1], j);
      var off := |parts[0] + sep|;
      assert Join(parts, sep) == parts[0] + sep + Join(parts[1..], sep);
      assert Join(parts, sep)[off + j..off + j + |parts[k]|] == Join(parts[1..], sep)[j..j + |parts[k]|];
      assert OccursAt(Join(parts, sep), parts[k], off + j);
    }
  }

  /** The count statement for a table and a Where. */
  function CountQuery(table: string, where: string): (r: string)
    ensures HasPrefix(r, "SELECT COUNT(*) FROM " + SqlUtil.QuoteIdentifier(table))
  {
    "SELECT COUNT(*) FROM " + SqlUtil.QuoteIdentifier(table) + (if where != "" then " WHERE " + where else "")
  }

  /** The count statement is the composer's text for COUNT(*) and the Where clause alone. */
  lemma CountQueryClauses(table: string, where: string)
    ensures CountQuery(table, where) == SqlUtil.SqlText(
      [SqlUtil.SelectClause("COUNT(*)"), SqlUtil.FromClause(SqlUtil.QuoteIdentifier(table))]
      + (if where != "" then [SqlUtil.WhereClause(where)] else []))
  {
    var q := SqlUtil.QuoteIdentifier(table);
    CountHead(q);
    if where != "" {
      CountWhere(q, where);
    } else {
      assert [SqlUtil.SelectClause("COUNT(*)"), SqlUtil.FromClause(q)] + [] == [SqlUtil.SelectClause("COUNT(*)"), SqlUtil.FromClause(q)];
    }
  }

  /** Without a filter, the count statement is the SELECT and FROM clauses for any quoted table name `q`. */
  lemma CountHead(q: string)
    ensures "SELECT COUNT(*) FROM " + q == SqlUtil.SqlText([SqlUtil.SelectClause("COUNT(*)"), SqlUtil.FromClause(q)])
  {
    SqlUtil.SqlTextPair(SqlUtil.SelectClause("COUNT(*)"), SqlUtil.FromClause(q));
    assert "SELECT " + "COUNT(*)" + " " + ("FROM " + q) == "SELECT COUNT(*) FROM " + q;
  }

  /** A filter adds its WHERE clause after the head. */
  lemma CountWhere(q: string, where: string)
    requires "SELECT COUNT(*) FROM " + q == SqlUtil.SqlText([SqlUtil.SelectClause("COUNT(*)"), SqlUtil.FromClause(q)])
    ensures "SELECT COUNT(*) FROM " + q + " WHERE " + where ==
      SqlUtil.SqlText([SqlUtil.SelectClause("COUNT(*)"), SqlUtil.FromClause(q)] + [SqlUtil.WhereClause(where)])
  {
    var head := [SqlUtil.SelectClause("COUNT(*)"), SqlUtil.FromClause(q)];
    SqlUtil.SqlTextSnoc(head, SqlUtil.WhereClause(where));
    var text := "SELECT COUNT(*) FROM " + q;
    assert text + " " + ("WHERE " + where) == text + " WHERE " + where;
  }

  /** The total: -1 when skipped or when the count fails, otherwise the database's answer. */
  function TotalCount(skip: bool, count: Option<int>): (r: int)
    ensures skip ==> r == -1
    ensures !skip && count.Some? ==> r == count.value
    ensures !skip && count.None? ==> r == -1
    ensures r != -1 ==> !skip && count == Some(r)
  {
    if skip then -1 else if count.Some? then count.value else -1
  }

  /** Connection string handed to sql.Open for a database file. */
  function Dsn(dbPath: string): (r: string)
    ensures HasPrefix(r, dbPath)
  {
    dbPath + "?_pragma=journal_mode(WAL)&_pragma=busy_timeout(10000)&_pragma=cache_size(10000)"
  }

  // ---------------------------------------------------------------------
  // Database answers
  // ---------------------------------------------------------------------

  /** An opens database handle (its identity only). */
  datatype Handle = Handle(id: nat)

  /** The result rows of a statement: the column names and each row's scan outcome. */
  datatype Rows = Rows(columns: Result<seq<string>>, scans: seq<Option<seq<Cell>>>)

  /**
   * What a database answers: the table/view listing, the value scanned for
   * a count statement, and the rows of a statement.
   */
  datatype Database = Database(
    listing: Result<seq<Option<string>>>,
    count: string -> Option<int>,
    run: string -> Result<Rows>)

  /** The engine's answer to Query. */
  datatype QueryResult = QueryResult(columns: seq<string>, values: seq<seq<Cell>>, totalCount: int, sql: string)

  /** A streamed chunk; data chunks carry no columns, count or statement. */
  datatype Chunk = Chunk(columns: seq<string>, values: seq<seq<Cell>>, totalCount: int, sql: string)

  /** A listed directory entry. */
  datatype DirEntry = DirEntry(name: string, isDir: bool)
  datatype FileEntry = FileEntry(name: string, kind: string)
  datatype TableInfo = TableInfo(name: string, kind: string)

  /** Rows that scanned, with []byte cells turned into strings, in order. */
  function ScannedRows(scans: seq<Option<seq<Cell>>>): seq<seq<Cell>>
  {
    if scans == [] then []
    else ScannedRows(scans[..|scans| - 1]) + (var x := scans[|scans| - 1]; if x.Some? then [NormalizeRow(x.value)] else [])
  }

  /** ScannedRows is the normalised form of exactly the rows that scanned. */
  lemma {:induction false} ScannedRowsSpec(scans: seq<Option<seq<Cell>>>)
    ensures |ScannedRows(scans)| == |Scanned(scans)|
    ensures forall k :: 0 <= k < |ScannedRows(scans)| ==> ScannedRows(scans)[k] == NormalizeRow(Scanned(scans)[k])
  {
    if scans != [] {
      ScannedRowsSpec(scans[..|scans| - 1]);
    }
  }

  lemma ScannedRowsSnoc(scans: seq<Option<seq<Cell>>>, x: Option<seq<Cell>>)
    ensures ScannedRows(scans + [x]) == ScannedRows(scans) + (if x.Some? then [NormalizeRow(x.value)] else [])
  {
    assert (scans + [x])[..|scans|] == scans;
  }

  predicate IsDatabaseName(name: string)
  {
    HasSuffix(name, ".db") || HasSuffix(name, ".sqlite") || HasSuffix(name, ".csv.db") || HasSuffix(name, ".xlsx.db")
  }

  /** How ListFiles classifies one directory entry. */
  function Classify(e: DirEntry): (r: Option<FileEntry>)
    ensures r.Some? <==> !HasPrefix(e.name, ".") && (e.isDir || IsDatabaseName(e.name))
    ensures r.Some? ==> r.value.name == e.name && r.value.kind == (if e.isDir then "directory" else "database")
  {
    if HasPrefix(e.name, ".") then None
    else if e.isDir then Some(FileEntry(e.name, "directory"))
    else if IsDatabaseName(e.name) then Some(FileEntry(e.name, "database"))
    else None
  }

  /** The entries ListFiles reports, in directory order. */
  function Listed(entries: seq<DirEntry>): seq<FileEntry>
  {
    if entries == [] then []
    else Listed(entries[..|entries| - 1]) + (var c := Classify(entries[|entries| - 1]); if c.Some? then [c.value] else [])
  }

  /** No hidden entry is reported, and every reported entry is a directory or a database file. */
  lemma {:induction false} ListedSpec(entries: seq<DirEntry>)
    ensures forall k :: 0 <= k < |Listed(entries)| ==>
      !HasPrefix(Listed(entries)[k].name, ".") &&
      (Listed(entries)[k].kind == "directory" || (Listed(entries)[k].kind == "database" && IsDatabaseName(Listed(entries)[k].name)))
    ensures forall i :: 0 <= i < |entries| && Classify(entries[i]).Some? ==> Classify(entries[i]).value in Listed(entries)
  {
    if entries != [] {
      var init := entries[..|entries| - 1];
      ListedSpec(init);
      assert forall i :: 0 <= i < |init| ==> init[i] == entries[i];
    }
  }

  /** The data chunks of a stream, concatenated. */
  function Flatten(chunks: seq<Chunk>): seq<seq<Cell>>
  {
    if chunks == [] then [] else Flatten(chunks[..|chunks| - 1]) + chunks[|chunks| - 1].values
  }

  predicate DataChunk(c: Chunk)
  {
    c.columns == [] && c.totalCount == 0 && c.sql == "" && 1 <= |c.values| <= BatchSize
  }

  const BatchSize := 1000

  /**
   * The preparation shared by Query and QueryStream, up to the path check:
   * the final descriptor and the checked data-set path.
   */
  function Resolve(opts: QueryOptions, parsed: Result<Banquet>, decoded: AgGrid.Decoded): Result<(Banquet, string)>
  {
    match Prepare(opts, parsed, decoded)
    case Err(e) => Err(e)
    case Ok(b) =>
      match CheckPath(b.dataSetPath)
      case Err(e) => Err(e)
      case Ok(p) => Ok((b, p))
  }

  /**
   * Resolution fails on a parse error, a filter-model error or a ".."
   * path, each with its own message; otherwise it yields the rewritten
   * descriptor and its data-set path without one leading "/".
   */
  lemma ResolveSpec(opts: QueryOptions, parsed: Result<Banquet>, decoded: AgGrid.Decoded)
    ensures parsed.Err? ==> Resolve(opts, parsed, decoded) == Err("error parsing URL: " + parsed.msg)
    ensures parsed.Ok? && AgGrid.BuildWhereClause(opts.filterModelJSON, decoded).Err? ==>
      Resolve(opts, parsed, decoded) == Err("error building filter: " + AgGrid.BuildWhereClause(opts.filterModelJSON, decoded).msg)
    ensures parsed.Ok? && AgGrid.BuildWhereClause(opts.filterModelJSON, decoded).Ok? ==>
      var fm := AgGrid.BuildWhereClause(opts.filterModelJSON, decoded).value;
      var b := ApplySort(ApplyLimits(parsed.value, opts), opts).(where := Conjoin(parsed.value.where, Conjoin(opts.filterWhere, fm)));
      && (Contains(TrimPrefix(b.dataSetPath, "/"), "..") ==> Resolve(opts, parsed, decoded) == Err("invalid path"))
      && (!Contains(TrimPrefix(b.dataSetPath, "/"), "..") ==> Resolve(opts, parsed, decoded) == Ok((b, TrimPrefix(b.dataSetPath, "/"))))
    ensures Resolve(opts, parsed, decoded).Ok? ==> !Contains(Resolve(opts, parsed, decoded).value.1, "..")
  {
  }

  /** A filter model that does not translate aborts the request with a wrapped error. */
  lemma FilterErrorAborts(opts: QueryOptions, b: Banquet, decoded: AgGrid.Decoded)
    requires AgGrid.BuildWhereClause(opts.filterModelJSON, decoded).Err?
    ensures Resolve(opts, Ok(b), decoded) == Err("error building filter: " + AgGrid.BuildWhereClause(opts.filterModelJSON, decoded).msg)
  {
    ResolveSpec(opts, Ok(b), decoded);
  }

  /** The handle a lookup yields: the cached one, or what opening the connection string answers. */
  function Lookup(conns: map<string, Handle>, dbPath: string, open: string -> Result<Handle>): (r: Result<Handle>)
    ensures dbPath in conns ==> r == Ok(conns[dbPath])
    ensures dbPath !in conns ==> r == open(Dsn(dbPath))
  {
    if dbPath in conns then Ok(conns[dbPath]) else open(Dsn(dbPath))
  }

  /** The cache after a lookup: a new handle is stored, a failed open changes nothing. */
  function Cached(conns: map<string, Handle>, dbPath: string, h: Result<Handle>): (r: map<string, Handle>)
    ensures h.Err? ==> r == conns
    ensures h.Ok? ==> dbPath in r && r[dbPath] == h.value && forall p :: p in conns && p != dbPath ==> p in r && r[p] == conns[p]
    ensures r.Keys <= conns.Keys + {dbPath}
  {
    if h.Ok? then conns[dbPath := h.value] else conns
  }

  /** A second lookup of the same path after a successful one finds the same handle and opens nothing. */
  lemma LookupCached(conns: map<string, Handle>, dbPath: string, open: string -> Result<Handle>, open2: string -> Result<Handle>)
    requires Lookup(conns, dbPath, open).Ok?
    ensures Lookup(Cached(conns, dbPath, Lookup(conns, dbPath, open)), dbPath, open2) == Lookup(conns, dbPath, open)
    ensures Cached(Cached(conns, dbPath, Lookup(conns, dbPath, open)), dbPath, Lookup(conns, dbPath, open)) == Cached(conns, dbPath, Lookup(conns, dbPath, open))
  {
  }

  /**
   * What happens once a database is at hand: table inference, the
   * composed statement, the optional count and the main statement's rows.
   */
  function Execute(b: Banquet, skip: bool, db: Database): (r: Result<QueryResult>)
    ensures InferTable(b, db.listing).Err? ==> r == Err(InferTable(b, db.listing).msg)
    ensures r.Ok? ==>
      var fb := InferTable(b, db.listing).value;
      && InferTable(b, db.listing).Ok?
      && fb == b.(table := fb.table)
      && r.value.sql == SqlUtil.ConstructSQL(fb)
      && r.value.totalCount == TotalCount(skip, db.count(CountQuery(fb.table, b.where)))
      && db.run(r.value.sql).Ok?
      && db.run(r.value.sql).value.columns == Ok(r.value.columns)
      && r.value.values == ScannedRows(db.run(r.value.sql).value.scans)
    ensures InferTable(b, db.listing).Ok? ==>
      var sql := SqlUtil.ConstructSQL(InferTable(b, db.listing).value);
      && (r.Ok? <==> db.run(sql).Ok? && db.run(sql).value.columns.Ok?)
      && (db.run(sql).Err? ==> r == Err("query error: " + db.run(sql).msg))
      && (db.run(sql).Ok? && db.run(sql).value.columns.Err? ==>
            r == Err("error getting columns: " + db.run(sql).value.columns.msg))
  {
    match InferTable(b, db.listing)
    case Err(e) => Err(e)
    case Ok(fb) =>
      var sql := SqlUtil.ConstructSQL(fb);
      var total := TotalCount(skip, db.count(CountQuery(fb.table, fb.where)));
      match db.run(sql)
      case Err(e) => Err("query error: " + e)
      case Ok(rows) =>
        match rows.columns
        case Err(e) => Err("error getting columns: " + e)
        case Ok(cols) => Ok(QueryResult(cols, ScannedRows(rows.scans), total, sql))
  }

  /** A stream that carries a query result: metadata first, then its rows in non-empty batches. */
  predicate Streams(chunks: seq<Chunk>, res: QueryResult)
  {
    && |chunks| >= 1
    && chunks[0] == Chunk(res.columns, [], res.totalCount, res.sql)
    && (forall j :: 1 <= j < |chunks| ==> DataChunk(chunks[j]))
    && Flatten(chunks[1..]) == res.values
  }

  lemma FlattenSnoc(cs: seq<Chunk>, c: Chunk)
    ensures Flatten(cs + [c]) == Flatten(cs) + c.values
  {
    assert (cs + [c])[..|cs|] == cs;
  }

  /** Full batches only: the row count is the batch count times the batch size. */
  lemma {:induction false} FlattenFull(cs: seq<Chunk>)
    requires forall j :: 0 <= j < |cs| ==> |cs[j].values| == BatchSize
    ensures |Flatten(cs)| == |cs| * BatchSize
  {
    if cs != [] {
      FlattenFull(cs[..|cs| - 1]);
    }
  }

  /** Rounding up: m full batches and a partial one of b rows make m or m + 1 batches. */
  lemma BatchCount(n: nat, m: nat, b: nat)
    requires n == m * BatchSize + b && b < BatchSize
    ensures (n + BatchSize - 1) / BatchSize == m + (if b > 0 then 1 else 0)
  {
  }

  /**
   * The streaming loop: rows that scan are buffered; the buffer is sent
   * when it holds BatchSize rows or when `late` says the time since the
   * last send has passed. Returns the batches sent and what is left.
   */
  method Batch(scans: seq<Option<seq<Cell>>>, late: nat -> bool)
    returns (data: seq<Chunk>, buffer: seq<seq<Cell>>)
    ensures forall j :: 0 <= j < |data| ==> DataChunk(data[j])
    ensures |buffer| < BatchSize
    ensures Flatten(data) + buffer == ScannedRows(scans)
    ensures (forall j :: 0 <= j < |scans| ==> !late(j)) ==> forall k :: 0 <= k < |data| ==> |data[k].values| == BatchSize
  {
    data := [];
    buffer := [];
    ghost var onTime := true;
    var i := 0;
    while i < |scans|
      invariant 0 <= i <= |scans|
      invariant forall j :: 0 <= j < |data| ==> DataChunk(data[j])
      invariant |buffer| < BatchSize
      invariant Flatten(data) + buffer == ScannedRows(scans[..i])
      invariant onTime ==> forall k :: 0 <= k < |data| ==> |data[k].values| == BatchSize
      invariant !onTime ==> exists j :: 0 <= j < i && late(j)
    {
      onTime := onTime && !late(i);
      ScannedRowsSnoc(scans[..i], scans[i]);
      assert scans[..i + 1] == scans[..i] + [scans[i]];
      if scans[i].Some? {
        data, buffer := Push(data, buffer, NormalizeRow(scans[i].value), late(i));
      }
      i := i + 1;
    }
    assert scans[..i] == scans;
    if !onTime {
      var j :| 0 <= j < i && late(j);
    }
  }

  /**
   * One buffered row: the buffer, with the row appended, is sent when it
   * is full or when `flush` (the time check) says so.
   */
  method Push(data: seq<Chunk>, buffer: seq<seq<Cell>>, row: seq<Cell>, flush: bool)
    returns (data': seq<Chunk>, buffer': seq<seq<Cell>>)
    requires forall j :: 0 <= j < |data| ==> DataChunk(data[j])
    requires |buffer| < BatchSize
    ensures forall j :: 0 <= j < |data'| ==> DataChunk(data'[j])
    ensures |buffer'| < BatchSize
    ensures Flatten(data') + buffer' == Flatten(data) + buffer + [row]
    ensures !flush && (forall k :: 0 <= k < |data| ==> |data[k].values| == BatchSize) ==>
      forall k :: 0 <= k < |data'| ==> |data'[k].values| == BatchSize
  {
    if |buffer| + 1 >= BatchSize || flush {
      FlattenSnoc(data, Chunk([], buffer + [row], 0, ""));
      data' := data + [Chunk([], buffer + [row], 0, "")];
      buffer' := [];
    } else {
      data' := data;
      buffer' := buffer + [row];
    }
  }

  /**
   * The stream for a statement's rows: the metadata chunk, the batches,
   * and a final chunk with whatever is left in the buffer.
   */
  method StreamChunks(columns: seq<string>, totalCount: int, sql: string,
                      scans: seq<Option<seq<Cell>>>, late: nat -> bool)
    returns (chunks: seq<Chunk>)
    ensures Streams(chunks, QueryResult(columns, ScannedRows(scans), totalCount, sql))
    ensures (forall i :: 0 <= i < |scans| ==> !late(i)) ==>
      |chunks| - 1 == (|ScannedRows(scans)| + BatchSize - 1) / BatchSize
  {
    var data, buffer := Batch(scans, late);
    var full := data;
    if |buffer| > 0 {
      FlattenSnoc(data, Chunk([], buffer, 0, ""));
      data := data + [Chunk([], buffer, 0, "")];
    }
    chunks := [Chunk(columns, [], totalCount, sql)] + data;
    assert chunks[1..] == data;
    if forall j :: 0 <= j < |scans| ==> !late(j) {
      FlattenFull(full);
      BatchCount(|ScannedRows(scans)|, |full|, |buffer|);
    }
  }

  /**
   * The steps after the connection, up to the main statement: table
   * inference, composition, the optional count and the statement's
   * columns and row scans. It agrees with Execute.
   */
  method Run(b: Banquet, skip: bool, db: Database)
    returns (r: Result<(seq<string>, int, string, seq<Option<seq<Cell>>>)>)
    ensures r.Err? <==> Execute(b, skip, db).Err?
    ensures r.Err? ==> r.msg == Execute(b, skip, db).msg
    ensures r.Ok? ==> Execute(b, skip, db).value == QueryResult(r.value.0, ScannedRows(r.value.3), r.value.1, r.value.2)
  {
    var inferred := InferTable(b, db.listing);
    if inferred.Err? {
      return Err(inferred.msg);
    }
    var fb := inferred.value;
    var sql := SqlUtil.ConstructSQL(fb);
    var total := TotalCount(skip, db.count(CountQuery(fb.table, fb.where)));
    var rows := db.run(sql);
    if rows.Err? {
      return Err("query error: " + rows.msg);
    }
    if rows.value.columns.Err? {
      return Err("error getting columns: " + rows.value.columns.msg);
    }
    return Ok((rows.value.columns.value, total, sql, rows.value.scans));
  }

  // ---------------------------------------------------------------------
  // The engine object
  // ---------------------------------------------------------------------

  /**
   * The engine with its connection cache. The ghost counters record how
   * many handles were opens and closes; Valid says none is leaked.
   */
  class Engine {
    const serveFolder: string
    var conns: map<string, Handle>
    ghost var opens: nat
    ghost var closes: nat

    ghost predicate Valid()
      reads this
    {
      opens == closes + |conns|
    }

    constructor (serveFolder: string)
      ensures Valid()
      ensures this.serveFolder == serveFolder && conns == map[] && opens == 0 && closes == 0
    {
      this.serveFolder := serveFolder;
      conns := map[];
      opens := 0;
      closes := 0;
    }

    /** Closes and forgets every cached handle. */
    method CloseAll()
      requires Valid()
      modifies this
      ensures Valid()
      ensures conns == map[]
      ensures opens == old(opens) && closes == old(closes) + |old(conns)|
    {
      while conns != map[]
        invariant Valid()
        invariant opens == old(opens)
        invariant closes + |conns| == old(closes) + |old(conns)|
        decreases |conns|
      {
        var path :| path in conns;
        assert conns.Keys == (conns - {path}).Keys + {path};
        conns := conns - {path};
        closes := closes + 1;
      }
    }

    /**
     * The cached handle for a path, or a newly opens one that is then
     * cached. `open` is what sql.Open answers for a connection string.
     */
    method GetConnection(dbPath: string, open: string -> Result<Handle>) returns (r: Result<Handle>)
      requires Valid()
      modifies this
      ensures Valid()
      ensures r == Lookup(old(conns), dbPath, open)
      ensures conns == Cached(old(conns), dbPath, r)
      ensures opens == old(opens) + (if dbPath !in old(conns) && r.Ok? then 1 else 0)
      ensures closes == old(closes)
    {
      if dbPath in conns {
        return Ok(conns[dbPath]);
      }
      r := open(Dsn(dbPath));
      if r.Ok? {
        conns := conns[dbPath := r.value];
        opens := opens + 1;
      }
    }

    /** ListFiles: the ".." check, the directory read, then classification of each entry. */
    method ListFiles(dirRelPath: string, readDir: string -> Result<seq<DirEntry>>, join: (string, string) -> string)
      returns (r: Result<seq<FileEntry>>)
      ensures Contains(dirRelPath, "..") ==> r == Err("invalid path")
      ensures !Contains(dirRelPath, "..") ==>
        r == match readDir(join(serveFolder, dirRelPath))
             case Err(e) => Err("failed to read directory: " + e)
             case Ok(entries) => Ok(Listed(entries))
    {
      if Contains(dirRelPath, "..") {
        return Err("invalid path");
      }
      var listing := readDir(join(serveFolder, dirRelPath));
      if listing.Err? {
        return Err("failed to read directory: " + listing.msg);
      }
      var entries := listing.value;
      var files: seq<FileEntry> := [];
      var i := 0;
      while i < |entries|
        invariant 0 <= i <= |entries|
        invariant files == Listed(entries[..i])
      {
        var c := Classify(entries[i]);
        if c.Some? {
          files := files + [c.value];
        }
        assert entries[..i + 1][..i] == entries[..i];
        i := i + 1;
      }
      assert entries[..i] == entries;
      return Ok(files);
    }

    /** ListTables: the ".." check, the connection, then every table/view that scans. */
    method ListTables(dbRelPath: string, join: (string, string) -> string, open: string -> Result<Handle>,
                      database: Handle -> Result<seq<Option<TableInfo>>>)
      returns (r: Result<seq<TableInfo>>)
      requires Valid()
      modifies this
      ensures Valid()
      ensures Contains(dbRelPath, "..") ==> r == Err("invalid path") && conns == old(conns)
      ensures !Contains(dbRelPath, "..") ==>
        var h := Lookup(old(conns), join(serveFolder, dbRelPath), open);
        && conns == Cached(old(conns), join(serveFolder, dbRelPath), h)
        && (h.Err? ==> r == Err("error opening DB: " + h.msg))
        && (h.Ok? && database(h.value).Err? ==> r == Err("database error: " + database(h.value).msg))
        && (h.Ok? && database(h.value).Ok? ==> r == Ok(Scanned(database(h.value).value)))
    {
      if Contains(dbRelPath, "..") {
        return Err("invalid path");
      }
      var h := GetConnection(join(serveFolder, dbRelPath), open);
      if h.Err? {
        return Err("error opening DB: " + h.msg);
      }
      r := TablesOf(h.value, database);
    }

    /** The answer of ListTables once connected: the database's error, or the tables that scanned. */
    static method TablesOf(h: Handle, database: Handle -> Result<seq<Option<TableInfo>>>) returns (r: Result<seq<TableInfo>>)
      ensures database(h).Err? ==> r == Err("database error: " + database(h).msg)
      ensures database(h).Ok? ==> r == Ok(Scanned(database(h).value))
    {
      match database(h)
      case Err(e) => r := Err("database error: " + e);
      case Ok(rows) => r := Ok(Scanned(rows));
    }

    /** The query rows that scanned, normalised, in order. */
    method CollectRows(scans: seq<Option<seq<Cell>>>) returns (values: seq<seq<Cell>>)
      ensures values == ScannedRows(scans)
    {
      values := [];
      var i := 0;
      while i < |scans|
        invariant 0 <= i <= |scans|
        invariant values == ScannedRows(scans[..i])
      {
        ScannedRowsSnoc(scans[..i], scans[i]);
        assert scans[..i + 1] == scans[..i] + [scans[i]];
        if scans[i].Some? {
          values := values + [NormalizeRow(scans[i].value)];
        }
        i := i + 1;
      }
      assert scans[..i] == scans;
    }

    /** Resolve the request and obtain the connection for its database file. */
    method Connect(opts: QueryOptions, parsed: Result<Banquet>, decoded: AgGrid.Decoded,
                   join: (string, string) -> string, open: string -> Result<Handle>)
      returns (r: Result<(Banquet, Handle)>)
      requires Valid()
      modifies this
      ensures Valid()
      ensures Resolve(opts, parsed, decoded).Err? ==> r == Err(Resolve(opts, parsed, decoded).msg) && conns == old(conns)
      ensures Resolve(opts, parsed, decoded).Ok? ==>
        var dbPath := join(serveFolder, Resolve(opts, parsed, decoded).value.1);
        var h := Lookup(old(conns), dbPath, open);
        && conns == Cached(old(conns), dbPath, h)
        && (h.Err? ==> r == Err("error opening DB: " + h.msg))
        && (h.Ok? ==> r == Ok((Resolve(opts, parsed, decoded).value.0, h.value)))
    {
      var res := Resolve(opts, parsed, decoded);
      if res.Err? {
        return Err(res.msg);
      }
      var h := GetConnection(join(serveFolder, res.value.1), open);
      if h.Err? {
        return Err("error opening DB: " + h.msg);
      }
      return Ok((res.value.0, h.value));
    }

    /** Query: prepare, connect, then run the statement and collect every row. */
    method Query(opts: QueryOptions, parsed: Result<Banquet>, decoded: AgGrid.Decoded,
                 join: (string, string) -> string, open: string -> Result<Handle>, database: Handle -> Database)
      returns (r: Result<QueryResult>)
      requires Valid()
      modifies this
      ensures Valid()
      ensures Resolve(opts, parsed, decoded).Err? ==> r == Err(Resolve(opts, parsed, decoded).msg) && conns == old(conns)
      ensures Resolve(opts, parsed, decoded).Ok? ==>
        var dbPath := join(serveFolder, Resolve(opts, parsed, decoded).value.1);
        var h := Lookup(old(conns), dbPath, open);
        && conns == Cached(old(conns), dbPath, h)
        && (h.Err? ==> r == Err("error opening DB: " + h.msg))
        && (h.Ok? ==> r == Execute(Resolve(opts, parsed, decoded).value.0, opts.skipTotalCount, database(h.value)))
    {
      var c := Connect(opts, parsed, decoded, join, open);
      if c.Err? {
        return Err(c.msg);
      }
      var plan := Run(c.value.0, opts.skipTotalCount, database(c.value.1));
      if plan.Err? {
        return Err(plan.msg);
      }
      var (columns, total, sql, scans) := plan.value;
      var values := CollectRows(scans);
      return Ok(QueryResult(columns, values, total, sql));
    }

    /**
     * QueryStream: the same preparation and statement as Query; on success
     * the chunks sent carry exactly Query's result.
     */
    method QueryStream(opts: QueryOptions, parsed: Result<Banquet>, decoded: AgGrid.Decoded,
                       join: (string, string) -> string, open: string -> Result<Handle>, database: Handle -> Database,
                       late: nat -> bool)
      returns (err: Option<string>, chunks: seq<Chunk>)
      requires Valid()
      modifies this
      ensures Valid()
      ensures Resolve(opts, parsed, decoded).Err? ==> err == Some(Resolve(opts, parsed, decoded).msg) && chunks == [] && conns == old(conns)
      ensures Resolve(opts, parsed, decoded).Ok? ==>
        var dbPath := join(serveFolder, Resolve(opts, parsed, decoded).value.1);
        var h := Lookup(old(conns), dbPath, open);
        && conns == Cached(old(conns), dbPath, h)
        && (h.Err? ==> err == Some("error opening DB: " + h.msg) && chunks == [])
        && (h.Ok? ==>
              var x := Execute(Resolve(opts, parsed, decoded).value.0, opts.skipTotalCount, database(h.value));
              && (x.Err? ==> err == Some(x.msg) && chunks == [])
              && (x.Ok? ==> err == None && Streams(chunks, x.value)))
    {
      var c := Connect(opts, parsed, decoded, join, open);
      if c.Err? {
        return Some(c.msg), [];
      }
      var plan := Run(c.value.0, opts.skipTotalCount, database(c.value.1));
      if plan.Err? {
        return Some(plan.msg), [];
      }
      var (columns, total, sql, scans) := plan.value;
      chunks := StreamChunks(columns, total, sql, scans, late);
      err := None;
    }
  }
}
