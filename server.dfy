/**
 * The HTTP front of the engine (sqliter/server.go): how a rows request's
 * query parameters become QueryOptions, where a path is routed, and how
 * the configuration script is spliced into the index page. Writing the
 * response, CORS headers and file serving are outside the model.
 */
module Server {
  import opened Values
  import opened Text
  import opened Banquet
  import AgGrid
  import Engine

  const MinInt64: int := -0x8000_0000_0000_0000
  const MaxInt64: int := 0x7fff_ffff_ffff_ffff

  /** url.Values.Get: the parameter's value, or "" when it is absent. */
  function Get(params: map<string, string>, key: string): (r: string)
    ensures key !in params ==> r == ""
    ensures key in params ==> r == params[key]
  {
    if key in params then params[key] else ""
  }

  /**
   * strconv.Atoi with its error ignored: 0 for malformed text, the value
   * clamped to the int64 range for out-of-range text.
   */
  function Atoi(s: string): (r: int)
    ensures MinInt64 <= r <= MaxInt64
    ensures ParseInt(s).None? ==> r == 0
    ensures ParseInt(s).Some? && MinInt64 <= ParseInt(s).value <= MaxInt64 ==> r == ParseInt(s).value
  {
    match ParseInt(s)
    case None => 0
    case Some(v) => if v < MinInt64 then MinInt64 else if v > MaxInt64 then MaxInt64 else v
  }

  /** Two's-complement int64 arithmetic: the result wrapped into range. */
  function Wrap64(x: int): (r: int)
    ensures MinInt64 <= r <= MaxInt64
    ensures (r - x) % 0x1_0000_0000_0000_0000 == 0
    ensures MinInt64 <= x <= MaxInt64 ==> r == x
  {
    (x - MinInt64) % 0x1_0000_0000_0000_0000 + MinInt64
  }

  /** The outcome of reading a rows request: a 400 answer, or the options passed to the engine. */
  datatype Request = Rejected(status: int, body: string) | Accepted(opts: Engine.QueryOptions)

  /** The descriptor path: `path`, or "/db/table" when both of those are given. */
  function RequestPath(params: map<string, string>): (r: Option<string>)
    ensures Get(params, "path") != "" ==> r == Some(Get(params, "path"))
    ensures Get(params, "path") == "" && Get(params, "db") != "" && Get(params, "table") != "" ==>
      r == Some("/" + Get(params, "db") + "/" + Get(params, "table"))
    ensures r.None? <==> Get(params, "path") == "" && (Get(params, "db") == "" || Get(params, "table") == "")
    ensures r.Some? ==> r.value != ""
  {
    var path := Get(params, "path");
    if path != "" then Some(path)
    else
      var db := Get(params, "db");
      var table := Get(params, "table");
      if db != "" && table != "" then Some("/" + db + "/" + table) else None
  }

  /** The window start/end: limit end - start (int64 arithmetic) and offset start, only when both are given. */
  function Window(opts: Engine.QueryOptions, start: string, end: string): (r: Engine.QueryOptions)
    ensures start == "" || end == "" ==> r == opts
    ensures start != "" && end != "" ==>
      && r.offset == Atoi(start)
      && r.limit == Wrap64(Atoi(end) - Atoi(start))
      && r.forceZeroLimit == (opts.forceZeroLimit || r.limit == 0)
      && r.(limit := opts.limit, offset := opts.offset, forceZeroLimit := opts.forceZeroLimit) == opts
  {
    if start != "" && end != "" then
      var s := Atoi(start);
      var limit := Wrap64(Atoi(end) - s);
      opts.(limit := limit, offset := s, forceZeroLimit := opts.forceZeroLimit || limit == 0)
    else opts
  }

  /** apiQueryTable's translation of the query parameters into engine options. */
  function QueryRequest(params: map<string, string>, decoded: AgGrid.Decoded): Request
  {
    match RequestPath(params)
    case None => Rejected(400, "{\"error\": \"path or db+table parameters required\"}")
    case Some(path) =>
      var sorted := BaseOptions(path, params);
      var filterModel := Get(params, "filterModel");
      if filterModel == "" then Accepted(sorted)
      else
        match AgGrid.BuildWhereClause(filterModel, decoded)
        case Err(e) => Rejected(400, "{\"error\": \"Error parsing filter: " + e + "\"}")
        case Ok(fw) => Accepted(sorted.(filterWhere := fw))
  }

  /** A rows request is refused with 400 exactly when no path can be formed or the filter model does not translate. */
  lemma QueryRequestRejects(params: map<string, string>, decoded: AgGrid.Decoded)
    ensures QueryRequest(params, decoded).Rejected? <==>
      RequestPath(params).None? ||
      (Get(params, "filterModel") != "" && AgGrid.BuildWhereClause(Get(params, "filterModel"), decoded).Err?)
    ensures QueryRequest(params, decoded).Rejected? ==> QueryRequest(params, decoded).status == 400
  {
  }

  /** The options sent without the filter: path, window, sort and the count switch. */
  function BaseOptions(path: string, params: map<string, string>): Engine.QueryOptions
  {
    var base := Engine.QueryOptions(path, "", "", "", "", 0, 0, false, true, Lower(Get(params, "skipTotalCount")) == "true");
    var windowed := Window(base, Get(params, "start"), Get(params, "end"));
    var sortCol := Get(params, "sortCol");
    if sortCol != "" then windowed.(sortCol := sortCol, sortDir := Get(params, "sortDir")) else windowed
  }

  /**
   * An accepted rows request gives options with override always allowed,
   * the translated filter as the ad-hoc filter, the window, the sort
   * column with its direction, and the count skipped exactly for a
   * case-insensitive "true".
   */
  lemma QueryRequestOptions(params: map<string, string>, decoded: AgGrid.Decoded)
    requires QueryRequest(params, decoded).Accepted?
    ensures
      var o := QueryRequest(params, decoded).opts;
      var start := Get(params, "start");
      var end := Get(params, "end");
      && o.banquetPath == RequestPath(params).value
      && o.allowOverride
      && o.filterModelJSON == ""
      && o.filterWhere == (if Get(params, "filterModel") == "" then ""
                           else AgGrid.BuildWhereClause(Get(params, "filterModel"), decoded).value)
      && (o.skipTotalCount <==> Lower(Get(params, "skipTotalCount")) == "true")
      && o.sortCol == Get(params, "sortCol")
      && o.sortDir == (if Get(params, "sortCol") != "" then Get(params, "sortDir") else "")
      && (start != "" && end != "" ==> o.offset == Atoi(start) && o.limit == Wrap64(Atoi(end) - Atoi(start)))
      && (start == "" || end == "" ==> o.offset == 0 && o.limit == 0)
      && (o.forceZeroLimit <==> start != "" && end != "" && o.limit == 0)
  {
    var path := RequestPath(params).value;
    var o := QueryRequest(params, decoded).opts;
    var fm := Get(params, "filterModel");
    BaseOptionsSpec(path, params);
    assert o == BaseOptions(path, params).(filterWhere := if fm == "" then "" else AgGrid.BuildWhereClause(fm, decoded).value);
  }

  lemma BaseOptionsSpec(path: string, params: map<string, string>)
    ensures
      var o := BaseOptions(path, params);
      var start := Get(params, "start");
      var end := Get(params, "end");
      && o.banquetPath == path && o.allowOverride && o.filterModelJSON == "" && o.filterWhere == ""
      && (o.skipTotalCount <==> Lower(Get(params, "skipTotalCount")) == "true")
      && o.sortCol == Get(params, "sortCol")
      && o.sortDir == (if Get(params, "sortCol") != "" then Get(params, "sortDir") else "")
      && (start != "" && end != "" ==> o.offset == Atoi(start) && o.limit == Wrap64(Atoi(end) - Atoi(start)))
      && (start == "" || end == "" ==> o.offset == 0 && o.limit == 0)
      && (o.forceZeroLimit <==> start != "" && end != "" && o.limit == 0)
  {
  }

  /**
   * Combined with the engine's override rules: a window whose end lies
   * before its start (without int64 overflow) leaves the descriptor's
   * Limit and Offset unchanged, and an empty window (start == end) asks
   * for zero rows at that offset.
   */
  lemma WindowOverride(params: map<string, string>, decoded: AgGrid.Decoded, b: Banquet)
    requires QueryRequest(params, decoded).Accepted?
    requires Get(params, "start") != "" && Get(params, "end") != ""
    requires MinInt64 <= Atoi(Get(params, "end")) - Atoi(Get(params, "start"))
    ensures var o := QueryRequest(params, decoded).opts;
      Atoi(Get(params, "end")) < Atoi(Get(params, "start")) ==> Engine.ApplyLimits(b, o) == b
    ensures var o := QueryRequest(params, decoded).opts;
      Atoi(Get(params, "end")) == Atoi(Get(params, "start")) ==>
        Engine.ApplyLimits(b, o).limit == "0" && Engine.ApplyLimits(b, o).offset == IntToString(Atoi(Get(params, "start")))
  {
    var o := QueryRequest(params, decoded).opts;
    QueryRequestOptions(params, decoded);
    var d := Atoi(Get(params, "end")) - Atoi(Get(params, "start"));
    if d <= 0 {
      assert Wrap64(d) == d;
      OverrideByWindow(b, o, d);
    }
  }

  /** With the override allowed, a window length that is negative changes nothing, and a zero one forces limit 0. */
  lemma OverrideByWindow(b: Banquet, o: Engine.QueryOptions, d: int)
    requires o.allowOverride && o.limit == d && (o.forceZeroLimit <==> d == 0)
    ensures d < 0 ==> Engine.ApplyLimits(b, o) == b
    ensures d == 0 ==> Engine.ApplyLimits(b, o).limit == "0" && Engine.ApplyLimits(b, o).offset == IntToString(o.offset)
  {
  }

  /**
   * The subtraction wraps: with start at the int64 maximum and end at the
   * minimum, end - start becomes 1, so a window ending long before it
   * starts still overrides the limit, with one row.
   */
  lemma WindowWraps(params: map<string, string>, decoded: AgGrid.Decoded, b: Banquet)
    requires QueryRequest(params, decoded).Accepted?
    requires Get(params, "start") != "" && Get(params, "end") != ""
    requires Atoi(Get(params, "start")) == MaxInt64 && Atoi(Get(params, "end")) == MinInt64
    ensures QueryRequest(params, decoded).opts.limit == 1
    ensures Engine.ApplyLimits(b, QueryRequest(params, decoded).opts).limit == "1"
  {
    var o := QueryRequest(params, decoded).opts;
    QueryRequestOptions(params, decoded);
    ExtremeWindow();
    OverrideOneRow(b, o);
  }

  /** int64 subtraction of the maximum from the minimum wraps around to 1. */
  lemma ExtremeWindow()
    ensures Wrap64(MinInt64 - MaxInt64) == 1
  {
  }

  /** An allowed override of one row sets the limit text to "1". */
  lemma OverrideOneRow(b: Banquet, o: Engine.QueryOptions)
    requires o.allowOverride && o.limit == 1
    ensures Engine.ApplyLimits(b, o).limit == "1"
  {
    assert IntToString(1) == "1";
  }

  /** The case-insensitive test: "TRUE" and "True" skip the count as "true" does. */
  lemma SkipCountCaseInsensitive()
    ensures Lower("TRUE") == "true" && Lower("True") == "true"
    ensures Lower("yes") != "true"
  {
    assert Lower("TRUE")[0] == 't';
    assert |Lower("yes")| == 3;
  }

  /** Where a request path goes. */
  datatype Target = ListFilesApi | ListTablesApi | RowsApi | LogsApi | ApiNotFound | Asset(name: string)

  /** ServeHTTP/handleAPI routing: API prefixes in a fixed order, otherwise a UI asset. */
  function Route(path: string): (r: Target)
    ensures !r.Asset? <==> HasPrefix(path, "/sqliter/")
    ensures r.Asset? ==> r.name != "" && (r.name == "index.html" || "/" + r.name == path || r.name == path)
  {
    if HasPrefix(path, "/sqliter/") then
      if HasPrefix(path, "/sqliter/fs") then ListFilesApi
      else if HasPrefix(path, "/sqliter/tables") then ListTablesApi
      else if HasPrefix(path, "/sqliter/rows") then RowsApi
      else if HasPrefix(path, "/sqliter/logs") then LogsApi
      else ApiNotFound
    else
      var p := TrimPrefix(path, "/");
      Asset(if p == "" then "index.html" else p)
  }

  /** The rows API is reached by every path under "/sqliter/rows". */
  lemma RouteRows(rest: string)
    ensures Route("/sqliter/rows" + rest) == RowsApi
  {
    var path := "/sqliter/rows" + rest;
    assert path[..9] == "/sqliter/";
    assert path[..13] == "/sqliter/rows";
    assert path[..11] != "/sqliter/fs" by { assert path[9] == 'r'; }
    assert |path| < 15 || path[..15] != "/sqliter/tables" by { assert path[9] == 'r'; }
  }

  /** Both the root and the empty path serve the index page. */
  lemma RootIsIndex()
    ensures Route("/") == Asset("index.html")
    ensures Route("") == Asset("index.html")
  {
    assert !HasPrefix("/", "/sqliter/");
  }

  /** How a UI asset is answered. */
  datatype Served = Index | File(name: string) | UiNotFound

  /**
   * An existing asset is served as is, except the index page, which gets
   * the configuration injected; a missing asset falls back to the index
   * page (client-side routing), or to 404 when there is none.
   */
  function ServeAsset(name: string, present: string -> bool): (r: Served)
    ensures r.File? ==> r.name == name && name != "index.html" && present(name)
    ensures r == UiNotFound <==> !present(name) && !present("index.html")
    ensures r == Index <==> (name == "index.html" && present(name)) || (!present(name) && present("index.html"))
  {
    if present(name) then
      if name == "index.html" then Index else File(name)
    else if present("index.html") then Index
    else UiNotFound
  }

  /** The script that publishes the base path to the page; `quotedBase` is its Go-quoted form. */
  function Injection(quotedBase: string): string
  {
    "<script>window.SQLITER_CONFIG = { basePath: " + quotedBase + " };</script>"
  }

  /**
   * serveIndexWithConfig's splice: the script goes right after the first
   * "<head>", or in front of the whole page when there is none.
   */
  function InjectConfig(html: string, script: string): (r: string)
    ensures |r| == |html| + |script|
    ensures !Contains(html, "<head>") ==> r == script + html
    ensures Contains(html, "<head>") ==>
      var at := IndexOf(html, "<head>") + 6;
      && r[..at] == html[..at]
      && r[at..at + |script|] == script
      && r[at + |script|..] == html[at..]
  {
    if Contains(html, "<head>") then
      var at := IndexOf(html, "<head>") + 6;
      html[..at] + script + html[at..]
    else script + html
  }

  /** Cutting the script back out of the page gives the original page. */
  lemma InjectRoundTrip(html: string, script: string)
    ensures var at := if Contains(html, "<head>") then IndexOf(html, "<head>") + 6 else 0;
      var r := InjectConfig(html, script);
      r[..at] + r[at + |script|..] == html
  {
    var at := if Contains(html, "<head>") then IndexOf(html, "<head>") + 6 else 0;
    var r := InjectConfig(html, script);
    if Contains(html, "<head>") {
      assert html[..at] + html[at..] == html;
    } else {
      assert r[at + |script|..] == html;
    }
  }

  /** Only the first "<head>" gets the script: the page before it is untouched. */
  lemma InjectFirstHeadOnly(html: string, script: string)
    requires Contains(html, "<head>")
    ensures var i := IndexOf(html, "<head>");
      var r := InjectConfig(html, script);
      OccursAt(r, "<head>", i) && forall j :: 0 <= j < i ==> !OccursAt(r, "<head>", j)
  {
    var i := IndexOf(html, "<head>");
    var r := InjectConfig(html, script);
    forall j | 0 <= j < i
      ensures !OccursAt(r, "<head>", j)
    {
      if OccursAt(r, "<head>", j) {
        assert r[j..j + 6] == html[j..j + 6];
        assert OccursAt(html, "<head>", j);
      }
    }
    assert r[i..i + 6] == html[i..i + 6];
  }
}
