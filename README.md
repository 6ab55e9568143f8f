# sqliter, modelled in Dafny

sqliter is a viewer for SQLite databases. A request names a database file, a
table and a query descriptor (the "banquet" resource path). The engine turns
that request into SQL text and returns the rows, either in one answer or
streamed in batches. This project models the decision logic behind that
pipeline and proves properties of it:

- **Grid filter translator** (`AgGrid`, sqliter/ag_grid.go): turns an AG Grid
  filter model (text, number and composite filters) into one SQL condition.
  It includes the number guard that keeps non-numeric text out of the
  statement.
- **SQL composers**:
  - `SqlUtil` (sqliter/sql_util.go): the quoted SELECT composer and the
    identifier quoter.
  - `CommonSql` (common/sql.go): the legacy unquoted composer and the
    parameterised INSERT, UPDATE and DELETE builders.
  - `PkgCommonSql` (pkg/common/sql.go): the copy of the legacy composer.
  - `GoServer.BuildSQLQuery` (go-server/main.go): the copy of the quoted
    composer.
- **Engine** (`Engine`, sqliter/engine.go). It covers:
  - the connection cache, as a class with a map field and ghost counters of
    opened and closed handles;
  - the limit, sort and filter overrides, and the ".." path check;
  - table inference and the count statement;
  - directory listing;
  - the one-shot query, and the streaming loop that sends rows in batches
    of 1000.
- **HTTP front** (`Server`, sqliter/server.go): routing, the translation of
  a rows request into engine options, and the injection of the
  configuration script into the index page.
- **Standalone servers** (`GoServer`, go-server/main.go and
  sqliter/go_server.go): size formatting, the rows window, the rows path,
  table inference and the count statement.
- **Launcher** (`Cli`, cmd/sqliter/main.go): telling a URL from a local
  path, splitting a URL at its database extension, and deriving the served
  file name and the browser address.
- **Desktop application** (`WailsApp`, wails/app.go): home-directory
  expansion and the pending-file slot.
- **Canvas renderer** (`Canvas`, sqliter/canvas_table.go): loaded rows,
  column widths, the scroll position and the window of rows drawn.

Shared modules:

- `Values` holds the cell values, `Option` and `Result`.
- `Text` holds the string functions of Go's `strings` and `strconv` that the
  code relies on.
- `Banquet` holds the descriptor record.

Code outside the model reaches it only as parameters, and each contract
says what happens for every possible answer. That code is:

- the descriptor parser and the JSON decoder;
- the database driver;
- the file system, `filepath.Join` and the home-directory lookup;
- text measurement and the clock.

Go maps (the filter model, the INSERT/UPDATE data, the WHERE conditions)
are modelled as sequences of pairs in an arbitrary order, which stands for
one iteration order Go may pick. Which column's error the filter loop reports
and the order of the joined conditions follow that order; the other facts
stated about them hold for every order.

## Model

| member | source | states |
|---|---|---|
| AgGrid.ValidatedNumberChars | sqliter/ag_grid.go:131-147 | A number value that passes validation (a float, an int, or a string in the modelled decimal syntax) renders as a literal made only of digits, signs, '.', 'e'/'E' and the letters of Inf/NaN |
| AgGrid.FloatStringChars | sqliter/ag_grid.go:140-143 | Every string the modelled decimal syntax accepts is made of numeral characters only, so no quote, space or parenthesis can pass |
| AgGrid.NonNumeralRefused | sqliter/ag_grid.go:139-142 | A string holding any character outside the numeral set is not in the modelled decimal syntax and is refused as a number |
| AgGrid.InjectionRefused | sqliter/ag_grid.go:99-102 | The number filter "1 OR 1=1" is an error for every column, never a condition |
| AgGrid.BuildConditionOk | sqliter/ag_grid.go:54-129 | Translating a filter fails exactly when it is not well formed: a text or number leaf with an unsupported type, a number value or filterTo that does not validate, or a composite missing a child (either child, recursively) |
| AgGrid.BuildConditionEmpty | sqliter/ag_grid.go:128 | A successful translation is empty exactly when the filter is a leaf whose filterType is neither text nor number |
| AgGrid.TextLiteralRoundTrip | sqliter/ag_grid.go:78-94 | For every text filter type, the condition is the quoted column, the mapped operator and a single-quoted literal with the type's wildcards; the literal's body with doubled quotes collapsed is exactly the value |
| AgGrid.NumberConditionShape | sqliter/ag_grid.go:98-125 | An accepted number leaf is the quoted column, the mapped comparison and a numeral-only literal; inRange compares the column twice (">= lo AND <= hi"), with both bounds validated |
| AgGrid.CompositeJoin | sqliter/ag_grid.go:56-73 | A composite joins its two children's conditions inside parentheses with OR when the operator is "or" in any letter case ("OR", "or", "Or"), and with AND for every other operator, including "and" and an unknown "xor" |
| AgGrid.CompositeExamples | sqliter/ag_grid_test.go:42-50 | The Complex AND and Complex OR filters on any column ("status" in the examples) give (("status" LIKE '%active%' AND "status" != 'inactive_temp')) and (("status" = 'A' OR "status" = 'B')): one pair of parentheses from the composite, one from the loop; a lower-case "or" also joins with OR |
| AgGrid.TextLeafCondition | sqliter/ag_grid.go:74-94 | A text leaf whose value holds no single quote renders as the quoted column, a space, the type's operator and the value quoted with the type's wildcards |
| AgGrid.CollectOk | sqliter/ag_grid.go:36-46 | The per-column loop succeeds exactly when every column's filter is well formed; the first error aborts |
| AgGrid.CollectCount | sqliter/ag_grid.go:36-46 | On success, one condition is kept per column whose filter does not translate to "" |
| AgGrid.CollectParenthesised | sqliter/ag_grid.go:42-44 | Every kept condition is the column's non-empty condition wrapped in parentheses |
| AgGrid.EmptyInput | sqliter/ag_grid.go:27-29 | An empty filter-model string gives "" without decoding |
| AgGrid.CollectFirstError | sqliter/ag_grid.go:36-41 | The loop returns the error of the first column whose filter is not well formed |
| AgGrid.BuildWhereClauseSpec | sqliter/ag_grid.go:26-52 | For non-empty input: a decoding error is returned unchanged; otherwise the result is the first ill-formed column's error, and succeeds exactly when every column is well formed; a success is the kept conditions, one parenthesised condition per contributing column, joined by " AND ", and is "" exactly when no column contributes |
| SqlUtil.QuoteIdentifier | sqliter/sql_util.go:71-76 | "" and "*" are returned unchanged; anything else comes back enclosed in double quotes |
| SqlUtil.UnquoteQuote | sqliter/sql_util.go:75 | Stripping the outer quotes and collapsing doubled quotes gives the identifier back, for every identifier |
| SqlUtil.QuoteInjective | sqliter/sql_util.go:71-76 | Two different identifiers never quote to the same text |
| SqlUtil.QuoteAll | sqliter/sql_util.go:18-21 | Each selected column is quoted, in order, one output per input |
| SqlUtil.SelectListStar | sqliter/sql_util.go:16-23 | The SELECT list is "*" exactly when Select is empty or its first entry is "*"; only the first entry is looked at |
| SqlUtil.FromTable | sqliter/sql_util.go:27-30 | FROM names the descriptor's table, or "tb0" when that is empty, and is never empty |
| SqlUtil.Clauses | sqliter/sql_util.go:33-65 | The clause list starts with SELECT and FROM and keeps SQL's fixed order; every optional clause in it is the one its field asks for, and every clause whose field is set is in it |
| SqlUtil.PrefixOrdered | sqliter/sql_util.go:33-65 | The clauses appended so far keep SQL's fixed order, with each kind at most once |
| SqlUtil.PrefixMembers | sqliter/sql_util.go:33-65 | Every clause appended so far is the present clause of a rank already passed |
| SqlUtil.PrefixComplete | sqliter/sql_util.go:33-65 | Every clause whose field is set and whose rank has been passed has been appended |
| SqlUtil.ClausePresence | sqliter/sql_util.go:33-65 | Each of WHERE, GROUP BY, HAVING, ORDER BY, LIMIT and OFFSET is in the statement exactly when its field is non-empty; GROUP BY and ORDER BY carry their columns through the identifier renderer (QuoteIdentifier for this composer), ORDER BY together with the direction field |
| SqlUtil.PrefixText | sqliter/sql_util.go:33-67 | Each append step extends the statement text by one space and the clause, and only when the clause is present |
| SqlUtil.PrefixHead | sqliter/sql_util.go:24-31 | The statement starts "SELECT <list> FROM <table>" |
| SqlUtil.SqlTextSnoc | sqliter/sql_util.go:67 | Joining the parts by single spaces: one more part adds one space and its text |
| SqlUtil.ConstructSQLExample | sqliter/sql_util.go:12-68 | A descriptor selecting a and b from t with WHERE x>1 composes to the clauses SELECT, FROM and WHERE, and to the text SELECT "a", "b" FROM "t" WHERE x>1 |
| CommonSql.KeptSpec | common/sql.go:15-23 | Exactly the Select entries that are "*" or differ from the table name survive, and no more entries than were selected |
| CommonSql.LegacySelectListFallback | common/sql.go:14-31 | When every entry names the table, the list falls back to "*"; the list is never empty |
| CommonSql.LegacyVerbatim | common/sql.go:33-60 | The legacy clauses carry the table, GROUP BY and ORDER BY columns unquoted, exactly as given |
| CommonSql.SelectColumns | common/sql.go:14-31 | The SELECT-list loop yields the surviving entries joined by ", ", or "*" when none survives |
| CommonSql.AppendTail | common/sql.go:35-60 | An append step whose field is set adds its keyword, its field and, after ORDER BY, the direction when that is set |
| CommonSql.AppendRendered | common/sql.go:35-60 | Each `q +=` step adds exactly the next clause of SQL's fixed order, after a space, and only when its field is non-empty |
| CommonSql.RenderStep | common/sql.go:35-60 | An optional clause is present exactly when its field is non-empty, and its text is the keyword and field, with the direction after ORDER BY |
| CommonSql.BuiltText | common/sql.go:33-60 | After each append step, the statement is the text of the clauses built so far in fixed order |
| CommonSql.AppendFilters | common/sql.go:35-45 | The WHERE, GROUP BY and HAVING steps extend the statement through rank HAVING |
| CommonSql.AppendWindow | common/sql.go:47-60 | The ORDER BY, LIMIT and OFFSET steps complete the statement |
| CommonSql.ConstructSQL | common/sql.go:13-63 | The unquoted composer's output is the legacy statement: the kept columns, the raw table and the present clauses in fixed order |
| CommonSql.LegacyText | common/sql.go:13-63 | The legacy statement is the full clause list, rendered with identifiers left as given |
| CommonSql.ConstructInsert | common/sql.go:67-80 | One column, one "?" and one argument per data entry, column i paired with argument i; with no "?" in the table or column names, the placeholder count equals the argument count |
| CommonSql.ConstructUpdate | common/sql.go:84-105 | SET clauses joined by ", " and WHERE clauses by " AND "; the arguments are the SET values in order, then the non-nil WHERE values; a nil value renders "k IS NULL" and binds nothing; the placeholder count equals the argument count |
| CommonSql.ConstructDelete | common/sql.go:109-124 | WHERE clauses joined by " AND ", nil values rendered "k IS NULL"; the arguments are the non-nil values and match the placeholders one to one |
| CommonSql.AppendWhere | common/sql.go:93-101 | The WHERE loop yields one condition per entry and appends the non-nil values to the arguments |
| CommonSql.BoundValuesSpec | common/sql.go:94-101 | Every bound value comes from a non-nil WHERE entry, and every non-nil value is bound |
| CommonSql.BoundValuesCount | common/sql.go:94-101 | Bound values and nil entries together account for every WHERE entry |
| CommonSql.SetMarks | common/sql.go:88-91 | The SET list holds one "?" per assignment |
| CommonSql.WhereMarks | common/sql.go:94-101 | The WHERE list holds one "?" per non-nil value |
| CommonSql.PlaceholderMarks | common/sql.go:72-78 | The VALUES list holds one "?" per column |
| CommonSql.KeyMarks | common/sql.go:72-78 | Column names free of "?" add no placeholder |
| CommonSql.Placeholders | common/sql.go:72-76 | One "?" per column |
| CommonSql.SetClauses | common/sql.go:88-91 | One "k = ?" per data entry, in data order |
| CommonSql.WhereClauses | common/sql.go:93-101 | One condition per WHERE entry, in order |
| PkgCommonSql.ConstructSQL | pkg/common/sql.go:13-63 | The copy's output equals that of common/sql.go's ConstructSQL for every descriptor |
| Engine.ApplyLimits | sqliter/engine.go:180-188 | Only Limit and Offset change. With AllowOverride, a positive limit sets both; a forced zero limit sets "0" and the offset. Otherwise, or without AllowOverride, the descriptor is untouched |
| Engine.LimitRoundTrip | sqliter/engine.go:180-188 | An applied override reads back as the caller's offset and limit (0 for a forced zero) |
| Engine.ApplySort | sqliter/engine.go:190-195 | Only OrderBy and SortDirection change: a non-empty sort column replaces OrderBy, and a direction replaces SortDirection only together with it |
| Engine.ApplySortIdempotent | sqliter/engine.go:190-195 | Applying the same sort options twice changes nothing more |
| Engine.Conjoin | sqliter/engine.go:197-217 | Combining two conditions gives "" only when both are empty, the other side when one is empty, and "(a) AND (c)" otherwise |
| Engine.MergeFilters | sqliter/engine.go:197-217 | A filter-model error aborts with "error building filter: ..."; otherwise the descriptor's Where is combined with the ad-hoc filter combined with the grid filter, and nothing else changes |
| Engine.MergeOrder | sqliter/engine.go:197-217 | With all three present, the final Where is "(where) AND ((adhoc) AND (grid))" |
| Engine.MergeWithoutModel | sqliter/engine.go:197-217 | Without a filter model only the ad-hoc filter is combined with the descriptor's Where |
| Engine.CheckPath | sqliter/engine.go:219-222 | One leading "/" is trimmed; the path is refused with "invalid path" exactly when the rest contains ".." |
| Engine.TraversalRefused | sqliter/engine.go:219-222 | Any path with ".." in it is refused |
| Engine.ResolveSpec | sqliter/engine.go:172-222 | Preparation fails on a parse error, on a filter-model error, or on a ".." path, each with its own message; otherwise it gives the rewritten descriptor and a ".."-free data-set path |
| Engine.FilterErrorAborts | sqliter/engine.go:197-201 | A filter model that does not translate aborts the request before any connection |
| Engine.InferTable | sqliter/engine.go:238-260 | Inference runs only for an empty table: the single listed table is chosen; no tables, several tables and a failed listing are errors with their own messages |
| Engine.AmbiguousListsAll | sqliter/engine.go:257-258 | With several tables the error names every one of them |
| Engine.CountQuery | sqliter/engine.go:268-271 | The count statement starts "SELECT COUNT(*) FROM " and the quoted table |
| Engine.CountQueryClauses | sqliter/engine.go:268-271 | The count statement is the composer's SELECT COUNT(*) and FROM clauses, plus the WHERE clause exactly when Where is non-empty |
| Engine.TotalCount | sqliter/engine.go:265-276 | The total is -1 when skipped; otherwise it is exactly what the count answered, and a failed count yields -1 |
| Engine.Dsn | sqliter/engine.go:59 | The connection string starts with the database path |
| Engine.Lookup | sqliter/engine.go:44-63 | A cached path yields its cached handle without opening; an uncached path yields what opening its connection string answers |
| Engine.Cached | sqliter/engine.go:60-73 | A failed open leaves the cache unchanged; a new handle is stored under its path, and every other entry is kept |
| Engine.LookupCached | sqliter/engine.go:44-74 | After a successful lookup, a second lookup of the same path finds the same handle and changes nothing |
| Engine.Engine.constructor | sqliter/engine.go:26-31 | A new engine serves from its folder with an empty cache |
| Engine.Engine.CloseAll | sqliter/engine.go:34-41 | Every cached handle is closed and the cache is left empty |
| Engine.Engine.GetConnection | sqliter/engine.go:44-74 | The handle is Lookup's; the cache becomes Cached's; one handle is opened exactly when the path was not cached and the open succeeded; the ghost counters show no handle leaked |
| Engine.Classify | sqliter/engine.go:95-108 | An entry is listed exactly when it is not hidden and is a directory or a database file, with its name and kind |
| Engine.ListedSpec | sqliter/engine.go:93-110 | The listing holds only visible directories and database files, and holds every entry that qualifies |
| Engine.Engine.ListFiles | sqliter/engine.go:82-111 | A ".." path gives "invalid path"; a failed read is wrapped; otherwise the classified entries, in directory order |
| Engine.Engine.ListTables | sqliter/engine.go:118-146 | A ".." path gives "invalid path" with the cache unchanged; otherwise the connection is looked up and cached, and the answer is the open error, the database error, or the tables that scanned |
| Engine.Engine.TablesOf | sqliter/engine.go:131-145 | Once connected: the database error wrapped, or the tables that scanned, in order |
| Engine.ScannedRowsSpec | sqliter/engine.go:305-320 | The rows returned are exactly the rows that scanned, in order, each with []byte cells turned into strings |
| Engine.Engine.CollectRows | sqliter/engine.go:305-320 | The scan loop returns the normalised rows that scanned |
| Engine.Execute | sqliter/engine.go:238-325 | Once connected: an inference error is returned; after inference the call succeeds exactly when the statement runs and its columns are read; a failed run gives "query error: " and the cause, a failed column read "error getting columns: " and the cause; a result carries the composed statement, the total and the scanned rows |
| Engine.Run | sqliter/engine.go:238-290 | The steps after connecting agree with Execute, in both the error and the success case |
| Engine.Engine.Connect | sqliter/engine.go:168-229 | Resolution errors return before any connection, with the cache unchanged; otherwise the connection for the data-set path is looked up and cached |
| Engine.Engine.Query | sqliter/engine.go:168-325 | The answer is the resolution error, the open error, or Execute's result for the prepared descriptor; the cache changes only by that lookup |
| Engine.Batch | sqliter/engine.go:458-495 | The loop sends non-empty batches of at most 1000 rows; the batches sent and the rows left in the buffer are exactly the scanned rows, in order; without a time flush every batch is full |
| Engine.Push | sqliter/engine.go:484-494 | One buffered row: the buffer is sent when full or when the flush fires, and no row is lost or reordered |
| Engine.StreamChunks | sqliter/engine.go:449-502 | The first chunk carries the columns, total and statement with no rows; every later chunk is a non-empty batch of at most 1000 rows; together they hold exactly the scanned rows; without a time flush there are ceil(N/1000) batches |
| Engine.FlattenFull | sqliter/engine.go:484-494 | Full batches only: the rows sent are the batch count times 1000 |
| Engine.BatchCount | sqliter/engine.go:484-502 | m full batches and a partial one of b rows make ceil(N/1000) batches |
| Engine.Engine.QueryStream | sqliter/engine.go:336-506 | Resolution and statement are the same as in Query; on success the chunks sent carry exactly Query's result; a resolution error sends nothing and leaves the cache unchanged |
| Server.Get | sqliter/server.go:207 | A query parameter's value, or "" when absent |
| Server.Atoi | sqliter/server.go:238-239 | An in-range integer reads as itself; a malformed one reads as 0; the result is an int64 |
| Server.Wrap64 | sqliter/server.go:240 | Subtraction wraps around as int64 arithmetic does, and is exact in range |
| Server.RequestPath | sqliter/server.go:207-218 | The path parameter, else "/db/table" when both are given; with neither, there is no path |
| Server.QueryRequestRejects | sqliter/server.go:207-264 | A rows request is answered 400 exactly when no path can be formed or the filter model does not translate |
| Server.QueryRequestOptions | sqliter/server.go:220-264 | An accepted request has AllowOverride set, its filter in FilterWhere, and the window, sort and count options read from the parameters |
| Server.BaseOptionsSpec | sqliter/server.go:220-253 | SkipTotalCount is set exactly when the parameter reads "true" in any case; sortDir is forwarded only with a non-empty sortCol |
| Server.Window | sqliter/server.go:237-246 | Only when both start and end are given: limit end - start, offset start, and ForceZeroLimit exactly when the limit is 0 |
| Server.WindowOverride | sqliter/server.go:237-246 | Through the engine's override, a window whose end lies before its start (without int64 overflow) leaves the descriptor's Limit and Offset unchanged, and an empty one forces LIMIT 0 at the start offset |
| Server.OverrideByWindow | sqliter/engine.go:180-188 | With the override allowed, a negative length changes nothing and a zero length sets the limit to "0" |
| Server.WindowWraps | sqliter/server.go:238-241 | With start at the int64 maximum and end at the minimum, the subtraction wraps to 1, so one row is asked for |
| Server.SkipCountCaseInsensitive | sqliter/server.go:232 | "TRUE" and "True" skip the count; "yes" does not |
| Server.Route | sqliter/server.go:38-61 | A path goes to the API exactly when it starts with "/sqliter/"; otherwise it names a UI asset, with "" and "/" mapped to index.html |
| Server.RouteRows | sqliter/server.go:124-135 | Every path under "/sqliter/rows" reaches the rows API |
| Server.RootIsIndex | sqliter/server.go:58-61 | The root and the empty path serve the index page |
| Server.ServeAsset | sqliter/server.go:62-89 | An existing asset is served itself; a missing one falls back to the index page, and to 404 when that is missing too |
| Server.InjectConfig | sqliter/server.go:105-110 | Without "<head>" the script is prepended; with one, it is inserted right after the first "<head>", and nothing else changes |
| Server.InjectRoundTrip | sqliter/server.go:105-110 | Cutting the script back out of the page gives the original page |
| Server.InjectFirstHeadOnly | sqliter/server.go:107 | Only the first "<head>" gets the script: the page before it is untouched |
| GoServer.BuildSQLQuery | go-server/main.go:446-502 | buildSQLQuery gives the same statement as the composer of sqliter/sql_util.go for every descriptor |
| GoServer.QuoteColumns | go-server/main.go:451-457 | Each selected column is quoted by quoteIdentifier, which follows the same rule as QuoteIdentifier |
| GoServer.PartsRender | go-server/main.go:458-501 | The parts list, built in order, renders the composer's clause list |
| GoServer.AddOrderBy | go-server/main.go:482-489 | ORDER BY is appended with the quoted column, followed by the direction when set, only when OrderBy is non-empty |
| GoServer.HumanizeBytes | go-server/main.go:146-157 | Below 1024 the plain "<n> B" text; otherwise div = 1024^(exp+1) with 1 <= b/div < 1024 and exp <= 5, so the unit letter is in range |
| GoServer.RowsWindow | go-server/main.go:222-230 | The offset is start and the limit is never negative |
| GoServer.RowsWindowSpec | sqliter/go_server.go:224-242 | The limit is end - start when positive; an empty or reversed window gives 0, or 100 when end is 0 |
| GoServer.RowsDefaultWindow | go-server/main.go:228-230 | Without start and end the first 100 rows are asked for |
| GoServer.RowsSQLNumbers | go-server/main.go:232-240 | The LIMIT and OFFSET numerals of the rows statement read back as the window |
| GoServer.RowsTargetSpec | go-server/main.go:204-210 | A rows path is accepted exactly when, after its leading "/", it still holds a "/"; the two names are the first two whole segments: neither contains "/", they start the path joined by "/", and the table name ends at the next "/" or at the end of the path |
| GoServer.BanquetText | go-server/main.go:308-313 | The "/banquet/" prefix is removed when present, else the text is kept |
| GoServer.InferBanquetTableSpec | go-server/main.go:334-382 | A directory forces "tb0"; a set table is kept; an empty one takes "tb0" when listed, else the single table, else "sqlite_master"; with no tables or a failed listing it stays empty |
| GoServer.BanquetDatabase | go-server/main.go:333-338 | The database file is the target, or its "index.sqlite" when the target is a directory |
| GoServer.BanquetTotal | go-server/main.go:429-432 | The total is counted only when Where is empty, and is then the count's answer; with a Where, or when the count fails, it stays 0 |
| GoServer.CountStatementOld | sqliter/go_server.go:420-424 | The old server's count statement names the table through QuoteIdentifier, which reads back as the table |
| GoServer.CountStatementsAgree | sqliter/go_server.go:420-424 | For a name without quotes, the two servers' count statements are the same text |
| Cli.DownloadTarget | cmd/sqliter/main.go:42-64 | The extension loop gives exactly the cut of Cut: extensions in list order, the first case-insensitive occurrence only, the first that closes a segment wins |
| Cli.SegmentEnd | cmd/sqliter/main.go:47-54 | One probe finds an end exactly when the extension's first occurrence closes a segment, and that end is the split point |
| Cli.CutSpec | cmd/sqliter/main.go:58-64 | The download URL and the suffix always make up the argument; the suffix is empty or starts with '/' or '?'; a cut URL ends with the deciding extension, ignoring case; with no qualifying extension nothing is cut |
| Cli.FirstSpec | cmd/sqliter/main.go:46-56 | The extension chosen is the first that qualifies, and none is chosen only when none qualifies |
| Cli.FileNameSpec | cmd/sqliter/main.go:66-72 | The file name is never empty and holds no '/'; it is "downloaded.db" when the URL is empty or ends in '/', otherwise the URL's last segment |
| Cli.LastSegmentSpec | cmd/sqliter/main.go:66-69 | The last segment holds no '/' and ends the URL, after a '/' or as the whole URL |
| Cli.Target | cmd/sqliter/main.go:28-104 | A URL is served from the temporary directory under its file name plus the suffix; a local directory is served itself with no file name; a local file from its directory under its base name |
| Cli.BrowserURLSpec | cmd/sqliter/main.go:124-127 | The address gets "/" + fileName exactly when fileName is non-empty, and the port reads back from it |
| WailsApp.ExpandHome | wails/app.go:68-79 | "~" is the home directory, "~/rest" is rest joined to it, and nothing is changed when the home directory cannot be found |
| WailsApp.ExpandHomeOthers | wails/app.go:68-79 | Paths not starting with "~", and "~user" forms, come back unchanged |
| WailsApp.App.constructor | wails/app.go:23-30 | A new app has an engine serving from "/", nothing pending, and has not started |
| WailsApp.App.Startup | wails/app.go:34-40 | The app starts, and a file opened before then is announced to the front end |
| WailsApp.App.OpenFile | wails/app.go:101-108 | The path is kept, and announced at once when the front end has started |
| WailsApp.App.GetPendingFile | wails/app.go:111-115 | The kept path is handed out once and cleared, so an immediate second call gets "" |
| WailsApp.App.ListFiles | wails/app.go:81-85 | The engine's listing of the home-expanded directory |
| WailsApp.App.ListTables | wails/app.go:87-90 | The engine's table list for the home-expanded database path |
| WailsApp.App.Query | wails/app.go:92-98 | The engine's answer with the descriptor path home-expanded |
| Canvas.Renderer.constructor | sqliter/canvas_table.go:40-49 | A new renderer has no rows or columns, rows 24 and header 32 pixels high, and is scrolled to the origin |
| Canvas.Renderer.LoadQueryResults | sqliter/canvas_table.go:53-104 | A query error loads nothing, and a column error leaves no columns. Otherwise it loads the columns and the text of every row that scanned; each width is the widest of the header and the cells plus 20 pixels of padding |
| Canvas.Renderer.HeaderWidths | sqliter/canvas_table.go:67-70 | Each column starts at its header's width plus 20 |
| Canvas.Renderer.LoadRows | sqliter/canvas_table.go:80-101 | Rows that fail to scan are skipped, the others are kept as text, and each width ends as the widest header or cell |
| Canvas.Renderer.AddRow | sqliter/canvas_table.go:85-98 | One row's cells become text ("NULL" for nil), and each column's width is raised to fit its cell |
| Canvas.LoadedRowsSpec | sqliter/canvas_table.go:80-101 | The kept rows are exactly the rows that scanned, in order, each turned into text |
| Canvas.WidestSpec | sqliter/canvas_table.go:93-97 | A column is at least as wide as its header and every cell plus padding, and equals one of them |
| Canvas.RowText | sqliter/canvas_table.go:86-92 | One text per cell: "NULL" for nil, otherwise the "%v" rendering |
| Canvas.Renderer.GetRowCount | sqliter/canvas_table.go:268-270 | The row count is the number of loaded rows |
| Canvas.Renderer.SetCanvasSize | sqliter/canvas_table.go:231-234 | Only the canvas size changes |
| Canvas.Renderer.ScrollTo | sqliter/canvas_table.go:237-265 | scrollY takes the corrected clamp (see Findings): it stays in [0, max(bound, 0)], where the bound is the rows beyond the view. scrollX keeps the code's order, raised to 0 and then lowered to the width beyond the view, so it is negative when the columns are narrower than the view. Nothing else changes |
| Canvas.ClampSpec | sqliter/canvas_table.go:237-265 | The corrected clamp stays in [0, max(hi, 0)] and keeps every in-range position; it agrees with the code's clamp whenever the bound is not negative |
| Canvas.ClampAsWritten | sqliter/canvas_table.go:240-247 | The code's clamp: the result is at most the bound, unless it is the position itself |
| Canvas.ClampAsWrittenNegative | sqliter/canvas_table.go:240-247 | When the content is shorter than the view, the code's clamp yields the negative bound |
| Canvas.ScrollXRightAligned | sqliter/canvas_table.go:250-264 | One 100-pixel column in a 1000-pixel canvas: scrolling to the left edge leaves scrollX at -880, so the header starts at x = 890 |
| Canvas.ScrollToAsWrittenCounterexample | sqliter/canvas_table.go:150-161 | With one row in a 600-pixel canvas, scrolling as written leaves scrollY at -544, and drawRows starts at row -22 |
| Canvas.Renderer.DrawRows | sqliter/canvas_table.go:150-191 | The rows visited run from scrollY / rowHeight up to the rows that fit plus two, stopping at the last row; every index drawn is a row of the table |
| Canvas.GoDiv | sqliter/canvas_table.go:155 | Go's integer division truncates toward zero for negative numerators |

## Left out

- I/O is not modelled: HTTP request and response writing, CORS, JSON encoding, listeners and the embedded file system. The handler bodies appear only through the decision rules listed above.
- The `sync.Mutex` of the engine is left out, and the connection cache is modelled sequentially.
- The clock is a parameter: the time-based flush of QueryStream is a boolean per row, and durations and logging are left out.
- The descriptor parser (`banquet.ParseNested`) is a parameter: its result, or its error, is an input. `sqlite.Compose` and `sqlite.QuoteIdentifier` are modelled by the composer and quoter of sqliter/sql_util.go.
- The JSON decoder of the filter model is a parameter: `AgGrid.Decoded` is its outcome, either an error or the columns with their decoded filters.
- The database, `filepath.Join`, `os.ReadDir`, `os.Stat`, `os.UserHomeDir`, text measurement and the browser launch are parameters or left out. `downloadFile` and `openBrowser` are not part of this model.
- AgGrid.ValidateNumber: the "%f" rendering of a float is an opaque numeral string, and only its character set is stated. The hexadecimal and underscore forms that ParseFloat also accepts are left out. Float64 range is not modelled either: ParseFloat refuses a decimal beyond float64 range, such as "1e400" or "-2e308", with a range error, so the code answers "invalid number value: 1e400", while the model accepts it and calls such a filter well formed.
- AgGrid.IsFloatString: the modelled syntax is decimal only (optional sign, digits with an optional point, an optional exponent, Inf/Infinity/NaN). ParseFloat's hexadecimal forms such as "0x1p3" use 'x' and 'p', which are outside the numeral set, so the character-set rows speak of the modelled syntax and not of everything ParseFloat accepts.
- GoServer.HumanizeBytes: the "%.1f" text of a scaled size is left out; the unit selection and its bounds are modelled.
- Text.Lower and Text.Upper map ASCII letters only. Unicode case mapping, which can change byte lengths in the launcher's split, is left out.
- The handleRows statement puts the table and sort column between double quotes without escaping, and the handleBanquet count statement of go-server/main.go does the same with the table. Both are modelled as written (GoServer.RowsSQL, GoServer.CountStatement).
- PkgCommonSql.ConstructSQL runs the same append steps as common/sql.go, and the model reuses CommonSql's step methods for it instead of repeating them.
- Go map iteration order is unspecified, so maps are sequences in an arbitrary order and only order-independent facts are stated about them.
- Canvas drawing is left out: Render, drawHeader, the drawing calls of drawRows, drawScrollbar, the JavaScript bindings and horizontal clipping. Only the rows visited are modelled.
- The handleLogs, handleFS and handleTables handlers of the standalone servers are not part of this model, apart from the size formatting that handleFS uses.
- Engine.Engine.ListFiles and WailsApp.App.ListFiles state the listing for the joined path; the serve-folder join itself is a parameter.

## Findings

| source | as written | input that shows it | evidently intended | confidence | as-written member | corrected member |
|---|---|---|---|---|---|---|
| sqliter/canvas_table.go:237-248 | scrollY is raised to 0 first and then lowered to maxScrollY, which is negative when the rows are shorter than the view | one row, canvas height 600: maxScrollY = 24 - 600 + 32 = -544, so ScrollTo(0, 0) sets scrollY to -544; drawRows then starts at -544 / 24 = -22 (Go truncates) and reads rows[-22] | scrollY stays in [0, max(maxScrollY, 0)] | not executed | Canvas.ScrollToAsWrittenCounterexample | Canvas.ClampSpec |
