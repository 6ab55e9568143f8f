/**
 * The standalone development servers: go-server/main.go and its older
 * copy sqliter/go_server.go. Both carry the same size formatting, the
 * same rows-window rule, the same path split and the same table
 * inference; they differ in how the count statement names the table.
 * The HTTP handlers themselves are not modelled, only these rules.
 */
module GoServer {
  import opened Values
  import opened Text
  import opened Banquet
  import SqlUtil
  import Server

  // ---------------------------------------------------------------------
  // The composer of go-server/main.go
  // ---------------------------------------------------------------------

  /** The quoted form of each selected column, one at a time. */
  method QuoteColumns(cols: seq<string>) returns (quoted: seq<string>)
    ensures quoted == SqlUtil.QuoteAll(cols)
  {
    quoted := [];
    var i := 0;
    while i < |cols|
      invariant 0 <= i <= |cols|
      invariant |quoted| == i
      invariant forall j :: 0 <= j < i ==> quoted[j] == SqlUtil.QuoteIdentifier(cols[j])
    {
      quoted := quoted + [SqlUtil.QuoteIdentifier(cols[i])];
      i := i + 1;
    }
  }

  /** The rendered text of each clause. */
  function Renders(cs: seq<SqlUtil.Clause>): (r: seq<string>)
    ensures |r| == |cs|
    ensures forall i :: 0 <= i < |cs| ==> r[i] == SqlUtil.Render(cs[i])
  {
    seq(|cs|, i requires 0 <= i < |cs| => SqlUtil.Render(cs[i]))
  }

  /** Rendering a clause list and joining by spaces is the statement text. */
  lemma RendersText(cs: seq<SqlUtil.Clause>)
    ensures Join(Renders(cs), " ") == SqlUtil.SqlText(cs)
  {
    assert Renders(cs) == seq(|cs|, i requires 0 <= i < |cs| => SqlUtil.Render(cs[i]));
  }

  /**
   * buildSQLQuery: the parts list grows clause by clause, in the same
   * order and under the same conditions as the composer of
   * sqliter/sql_util.go, so the statement is the same for every
   * descriptor.
   */
  method BuildSQLQuery(b: Banquet) returns (q: string)
    ensures q == SqlUtil.ConstructSQL(b)
  {
    var selectClause := "*";
    if |b.select| > 0 && b.select[0] != "*" {
      var quoted := QuoteColumns(b.select);
      selectClause := Join(quoted, ", ");
    }
    var table := b.table;
    if table == "" {
      table := "tb0";
    }
    var from := SqlUtil.QuoteIdentifier(table);
    var parts := Head(selectClause, from);
    parts := AddWhere(parts, b);
    parts := AddGroupBy(parts, b);
    parts := AddHaving(parts, b);
    parts := AddOrderBy(parts, b);
    parts := AddLimit(parts, b);
    parts := AddOffset(parts, b);
    PartsRender(selectClause, from, b);
    q := Join(parts, " ");
    RendersText(SqlUtil.Clauses(selectClause, from, b, SqlUtil.QuoteIdentifier));
  }

  /** The optional clause of rank r, rendered, when the descriptor has it. */
  ghost function Optional(b: Banquet, r: nat): seq<string>
    requires 2 <= r <= 7
  {
    if SqlUtil.Present(r, b) then [SqlUtil.Render(SqlUtil.Candidate(r, b, SqlUtil.QuoteIdentifier))] else []
  }

  method AddWhere(parts: seq<string>, b: Banquet) returns (parts': seq<string>)
    ensures parts' == parts + Optional(b, 2)
  {
    parts' := parts;
    if b.where != "" {
      parts' := parts' + ["WHERE " + b.where];
    }
  }

  method AddGroupBy(parts: seq<string>, b: Banquet) returns (parts': seq<string>)
    ensures parts' == parts + Optional(b, 3)
  {
    parts' := parts;
    if b.groupBy != "" {
      parts' := parts' + ["GROUP BY " + SqlUtil.QuoteIdentifier(b.groupBy)];
    }
  }

  method AddHaving(parts: seq<string>, b: Banquet) returns (parts': seq<string>)
    ensures parts' == parts + Optional(b, 4)
  {
    parts' := parts;
    if b.having != "" {
      parts' := parts' + ["HAVING " + b.having];
    }
  }

  method AddOrderBy(parts: seq<string>, b: Banquet) returns (parts': seq<string>)
    ensures parts' == parts + Optional(b, 5)
  {
    parts' := parts;
    if b.orderBy != "" {
      var orderBy := SqlUtil.QuoteIdentifier(b.orderBy);
      ghost var col := orderBy;
      if b.sortDirection != "" {
        orderBy := orderBy + " " + b.sortDirection;
      }
      assert "ORDER BY " + orderBy == SqlUtil.Render(SqlUtil.OrderByClause(col, b.sortDirection));
      parts' := parts' + ["ORDER BY " + orderBy];
    }
  }

  method AddLimit(parts: seq<string>, b: Banquet) returns (parts': seq<string>)
    ensures parts' == parts + Optional(b, 6)
  {
    parts' := parts;
    if b.limit != "" {
      parts' := parts' + ["LIMIT " + b.limit];
    }
  }

  method AddOffset(parts: seq<string>, b: Banquet) returns (parts': seq<string>)
    ensures parts' == parts + Optional(b, 7)
  {
    parts' := parts;
    if b.offset != "" {
      parts' := parts' + ["OFFSET " + b.offset];
    }
  }

  /** The SELECT and FROM parts. */
  function Head(selectClause: string, from: string): seq<string>
  {
    ["SELECT " + selectClause, "FROM " + from]
  }

  /** The clauses before rank r + 1 render as those before rank r and then the clause of rank r, when present. */
  lemma PrefixStep(selectList: string, from: string, b: Banquet, r: nat)
    requires 2 <= r <= 7
    ensures Renders(SqlUtil.Prefix(selectList, from, b, SqlUtil.QuoteIdentifier, r + 1))
         == Renders(SqlUtil.Prefix(selectList, from, b, SqlUtil.QuoteIdentifier, r)) + Optional(b, r)
  {
    var cs := SqlUtil.Prefix(selectList, from, b, SqlUtil.QuoteIdentifier, r);
    var c := SqlUtil.Candidate(r, b, SqlUtil.QuoteIdentifier);
    assert Renders(cs + [c]) == Renders(cs) + [SqlUtil.Render(c)];
  }

  /** The parts list of buildSQLQuery, in the order it is built, renders the clause list of the composer. */
  lemma PartsRender(selectList: string, from: string, b: Banquet)
    ensures Head(selectList, from) + Optional(b, 2) + Optional(b, 3) + Optional(b, 4) + Optional(b, 5) + Optional(b, 6) + Optional(b, 7)
         == Renders(SqlUtil.Clauses(selectList, from, b, SqlUtil.QuoteIdentifier))
  {
    assert Head(selectList, from) == Renders(SqlUtil.Prefix(selectList, from, b, SqlUtil.QuoteIdentifier, 2));
    PrefixStep(selectList, from, b, 2);
    PrefixStep(selectList, from, b, 3);
    PrefixStep(selectList, from, b, 4);
    PrefixStep(selectList, from, b, 5);
    PrefixStep(selectList, from, b, 6);
    PrefixStep(selectList, from, b, 7);
  }

  // ---------------------------------------------------------------------
  // humanizeBytes / humanizeBytesOld
  // ---------------------------------------------------------------------

  function Pow1024(k: nat): (r: nat)
    ensures r >= 1
  {
    if k == 0 then 1 else 1024 * Pow1024(k - 1)
  }

  /** Euclidean division is unique: a quotient and remainder that rebuild n are n / d and n % d. */
  lemma DivUnique(n: int, d: int, q: int, r: int)
    requires d > 0 && 0 <= r < d && n == q * d + r
    ensures n / d == q && n % d == r
  {
    var q', r' := n / d, n % d;
    assert q' * d + r' == n;
    var e := q - q';
    assert e * d == r' - r;
    if e >= 1 {
      MulMono(d, 1, e);
    } else if e <= -1 {
      MulMono(d, 1, -e);
    }
  }

  /** Dividing twice is dividing by the product, for non-negative numerators. */
  lemma DivDiv(b: nat, d: nat, k: nat)
    requires d > 0 && k > 0
    ensures (b / d) / k == b / (d * k)
  {
    var q, r := b / (d * k), b % (d * k);
    var r1, r0 := r / d, r % d;
    assert r1 < k;
    assert b == (q * k + r1) * d + r0 by {
      assert b == q * (d * k) + r;
      assert r == r1 * d + r0;
    }
    DivUnique(b, d, q * k + r1, r0);
    DivUnique(q * k + r1, k, q, r1);
  }

  /** The quotient brackets the numerator. */
  lemma DivBounds(b: nat, d: nat)
    requires d > 0
    ensures d * (b / d) <= b < d * (b / d + 1)
  {
  }

  /** A larger factor gives a larger product. */
  lemma MulMono(d: int, m: int, n: int)
    requires d >= 0
    requires m <= n
    ensures d * m <= d * n
  {
  }

  /** The size text: "<n> B" below one kibibyte, otherwise b/div rendered with one decimal and the unit letter. */
  datatype Size = Plain(text: string) | Scaled(bytes: int, div: nat, exp: nat)

  /** The unit letter of a scaled size. */
  function Unit(exp: nat): char
    requires exp <= 5
  {
    "KMGTPE"[exp]
  }

  /**
   * humanizeBytes: the unit is the power of 1024 that leaves between 1 and
   * 1023 units; for any int64 it is at most the sixth (exbibytes), so the
   * unit letter is always in range.
   */
  method HumanizeBytes(b: int) returns (r: Size)
    requires Server.MinInt64 <= b <= Server.MaxInt64
    ensures b < 1024 ==> r == Plain(IntToString(b) + " B")
    ensures b >= 1024 ==> r.Scaled? && r.bytes == b && r.exp <= 5 && r.div == Pow1024(r.exp + 1)
    ensures b >= 1024 ==> r.div <= b < r.div * 1024 && 1 <= b / r.div < 1024
  {
    if b < 1024 {
      return Plain(IntToString(b) + " B");
    }
    var div: nat := 1024;
    var exp: nat := 0;
    var n := b / 1024;
    assert Pow1024(7) == 0x40_0000_0000_0000_0000;
    DivBounds(b, 1024);
    while n >= 1024
      invariant div == Pow1024(exp + 1) && n == b / div && div <= b && exp <= 5
      decreases n
    {
      DivBounds(b, div);
      MulMono(div, 1024, n);
      DivDiv(b, div, 1024);
      div := div * 1024;
      exp := exp + 1;
      n := n / 1024;
    }
    DivBounds(b, div);
    MulMono(div, n + 1, 1024);
    return Scaled(b, div, exp);
  }

  // ---------------------------------------------------------------------
  // handleRows / handleRowsOld
  // ---------------------------------------------------------------------

  /**
   * The rows window: limit end - start (int64), floored at 0, and 100 when
   * that is 0 and end is 0 (absent); the offset is start.
   */
  function RowsWindow(startText: string, endText: string): (r: (int, int))
    ensures r.1 == Server.Atoi(startText)
    ensures r.0 >= 0
  {
    var start := Server.Atoi(startText);
    var end := Server.Atoi(endText);
    var limit := Server.Wrap64(end - start);
    var floored := if limit < 0 then 0 else limit;
    (if floored == 0 && end == 0 then 100 else floored, start)
  }

  /**
   * The limit is the window length when that is positive; an empty or
   * reversed window gives 0, or the default 100 when end is 0.
   */
  lemma RowsWindowSpec(startText: string, endText: string)
    ensures var start := Server.Atoi(startText);
      var end := Server.Atoi(endText);
      var len := Server.Wrap64(end - start);
      && (len > 0 ==> RowsWindow(startText, endText).0 == len)
      && (len <= 0 && end == 0 ==> RowsWindow(startText, endText).0 == 100)
      && (len <= 0 && end != 0 ==> RowsWindow(startText, endText).0 == 0)
  {
  }

  /** Without start and end the first 100 rows are asked for. */
  lemma RowsDefaultWindow()
    ensures RowsWindow("", "") == (100, 0)
  {
    assert ParseInt("").None? by { assert !AllDigits(""); }
  }

  /** The rows statement; table and sort column are put between quotes without escaping. */
  function RowsSQL(table: string, sortCol: string, sortDir: string, limit: int, offset: int): string
  {
    "SELECT * FROM \"" + table + "\""
    + (if sortCol != "" then " ORDER BY \"" + sortCol + "\" " + sortDir else "")
    + " LIMIT " + IntToString(limit) + " OFFSET " + IntToString(offset)
  }

  /** The LIMIT and OFFSET numerals of the rows statement read back as the window. */
  lemma RowsSQLNumbers(table: string, sortCol: string, sortDir: string, startText: string, endText: string)
    ensures var w := RowsWindow(startText, endText);
      var head := "SELECT * FROM \"" + table + "\"" + (if sortCol != "" then " ORDER BY \"" + sortCol + "\" " + sortDir else "");
      && RowsSQL(table, sortCol, sortDir, w.0, w.1) == head + " LIMIT " + IntToString(w.0) + " OFFSET " + IntToString(w.1)
      && ParseInt(IntToString(w.0)) == Some(w.0) && w.0 >= 0
      && ParseInt(IntToString(w.1)) == Some(Server.Atoi(startText))
  {
    var w := RowsWindow(startText, endText);
    ParseIntToString(w.0);
    ParseIntToString(w.1);
  }

  /** The database and table named by a rows path "/db/table[/...]", or None when it has fewer than two segments. */
  function RowsTarget(path: string): (r: Option<(string, string)>)
  {
    var parts := Split(TrimPrefix(path, "/"), '/');
    if |parts| < 2 then None else Some((parts[0], parts[1]))
  }

  /**
   * A rows path is accepted exactly when, after its leading "/", it still
   * holds a "/"; then the two names are the text up to it and the whole
   * segment after it (ending at the next "/" or at the end), and neither
   * contains "/".
   */
  lemma RowsTargetSpec(path: string)
    ensures RowsTarget(path).Some? <==> '/' in TrimPrefix(path, "/")
    ensures RowsTarget(path).Some? ==>
      var (db, table) := RowsTarget(path).value;
      && '/' !in db && '/' !in table
      && HasPrefix(TrimPrefix(path, "/"), db + "/" + table)
      && var n := |db| + 1 + |table|;
        n == |TrimPrefix(path, "/")| || TrimPrefix(path, "/")[n] == '/'
  {
    var s := TrimPrefix(path, "/");
    var parts := Split(s, '/');
    CountPositive(s, '/');
    if |parts| >= 2 {
      JoinSplit(s, '/');
      assert Join(parts, "/") == parts[0] + "/" + Join(parts[1..], "/");
      var rest := parts[1..];
      var n := |parts[0]| + 1 + |parts[1]|;
      if |rest| == 1 {
        assert Join(rest, "/") == rest[0];
        assert |s| == n;
      } else {
        assert Join(rest, "/") == rest[0] + "/" + Join(rest[1..], "/");
        assert s == parts[0] + "/" + parts[1] + "/" + Join(rest[1..], "/");
        assert s[n] == '/';
      }
      assert s[..|parts[0] + "/" + parts[1]|] == parts[0] + "/" + parts[1];
    }
  }

  // ---------------------------------------------------------------------
  // handleBanquet / handleBanquetOld
  // ---------------------------------------------------------------------

  /** The descriptor text after the "/banquet/" route prefix. */
  function BanquetText(requestURI: string): (r: string)
    ensures HasPrefix(requestURI, "/banquet/") ==> "/banquet/" + r == requestURI
    ensures !HasPrefix(requestURI, "/banquet/") ==> r == requestURI
  {
    TrimPrefix(requestURI, "/banquet/")
  }

  /**
   * Table inference of the standalone servers: a directory forces "tb0";
   * an empty table takes "tb0" when it is listed, else the single listed
   * table, else "sqlite_master"; with no tables, or a failed listing, it
   * stays empty.
   */
  function InferBanquetTable(table: string, isDir: bool, listing: Result<seq<Option<string>>>): (r: string)
  {
    if isDir then "tb0"
    else if table != "" then table
    else if listing.Err? then ""
    else
      var names := Scanned(listing.value);
      if |names| == 0 then ""
      else if "tb0" in names then "tb0"
      else if |names| == 1 then names[0]
      else "sqlite_master"
  }

  /** What inference picks, case by case, and that it never invents a table other than "tb0" or "sqlite_master". */
  lemma InferBanquetTableSpec(table: string, isDir: bool, listing: Result<seq<Option<string>>>)
    ensures isDir ==> InferBanquetTable(table, isDir, listing) == "tb0"
    ensures !isDir && table != "" ==> InferBanquetTable(table, isDir, listing) == table
    ensures !isDir && table == "" && listing.Ok? ==>
      var names := Scanned(listing.value);
      var r := InferBanquetTable(table, isDir, listing);
      && (|names| == 0 ==> r == "")
      && ("tb0" in names ==> r == "tb0")
      && (|names| > 0 ==> r in names || r == "sqlite_master")
      && (|names| == 1 ==> r == names[0])
      && (|names| >= 2 && "tb0" !in names ==> r == "sqlite_master")
    ensures !isDir && table == "" && listing.Err? ==> InferBanquetTable(table, isDir, listing) == ""
  {
    if !isDir && table == "" && listing.Ok? {
      var names := Scanned(listing.value);
      if |names| == 1 {
        assert "tb0" in names ==> names[0] == "tb0";
      }
    }
  }

  /** The count statement of go-server/main.go: the table between quotes, unescaped. */
  function CountStatement(table: string): string
  {
    "SELECT COUNT(*) FROM \"" + table + "\""
  }

  /** The count statement of sqliter/go_server.go: the table through QuoteIdentifier. */
  function CountStatementOld(table: string): (r: string)
    ensures HasPrefix(r, "SELECT COUNT(*) FROM ")
    ensures table != "" && table != "*" ==> SqlUtil.Unquote(r[|"SELECT COUNT(*) FROM "|..]) == table
  {
    var r := "SELECT COUNT(*) FROM " + SqlUtil.QuoteIdentifier(table);
    assert r[|"SELECT COUNT(*) FROM "|..] == SqlUtil.QuoteIdentifier(table);
    SqlUtil.UnquoteQuote(table);
    r
  }

  /** For an ordinary name both count statements are the same text. */
  lemma CountStatementsAgree(table: string)
    requires table != "" && table != "*" && '"' !in table
    ensures CountStatement(table) == CountStatementOld(table)
  {
    CountAbsentDouble(table);
  }

  /** A name without quotes is not changed by doubling quotes. */
  lemma {:induction false} CountAbsentDouble(s: string)
    requires '"' !in s
    ensures Double(s, '"') == s
  {
    if s != [] {
      CountAbsentDouble(s[1..]);
    }
  }

  /**
   * The total of the banquet handlers: counted only when there is no
   * Where; otherwise, or when the count fails, 0.
   */
  function BanquetTotal(b: Banquet, countStatement: string -> string, count: string -> Option<int>): (r: int)
    ensures b.where != "" ==> r == 0
    ensures b.where == "" && count(countStatement(b.table)).Some? ==> r == count(countStatement(b.table)).value
    ensures b.where == "" && count(countStatement(b.table)).None? ==> r == 0
  {
    if b.where != "" then 0
    else match count(countStatement(b.table))
      case None => 0
      case Some(n) => n
  }

  /** The database file: the target itself, or its "index.sqlite" when the target is a directory. */
  function BanquetDatabase(localFilePath: string, isDir: bool, join: (string, string) -> string): (r: string)
    ensures !isDir ==> r == localFilePath
    ensures isDir ==> r == join(localFilePath, "index.sqlite")
  {
    if isDir then join(localFilePath, "index.sqlite") else localFilePath
  }
}
