/**
 * The legacy builders of common/sql.go: an unquoted SELECT composer and
 * the parameterised INSERT, UPDATE and DELETE builders.
 *
 * The statement text of ConstructSQL is specified through the clause list
 * of SqlUtil, with identifiers rendered verbatim. The map arguments of the
 * CRUD builders are sequences of (column, value) pairs in Go's (unspecified)
 * iteration order; `None` stands for a nil value.
 */
module CommonSql {
  import opened Values
  import opened Text
  import opened Banquet
  import SqlUtil

  // ---- SELECT ----

  /** Keeps a Select entry: "*" always, any other entry only when it is not the table's name. */
  predicate KeepColumn(s: string, table: string)
  {
    s == "*" || s != table
  }

  /** The Select entries that survive, in order. */
  function Kept(sel: seq<string>, table: string): seq<string>
  {
    if sel == [] then []
    else Kept(sel[..|sel| - 1], table) + if KeepColumn(sel[|sel| - 1], table) then [sel[|sel| - 1]] else []
  }

  /** Exactly the entries to keep survive, and no more entries than were selected. */
  lemma {:induction false} KeptSpec(sel: seq<string>, table: string)
    ensures |Kept(sel, table)| <= |sel|
    ensures forall x :: x in Kept(sel, table) <==> x in sel && KeepColumn(x, table)
    decreases |sel|
  {
    if sel != [] {
      var init := sel[..|sel| - 1];
      KeptSpec(init, table);
      assert sel == init + [sel[|sel| - 1]];
    }
  }

  /** The SELECT list: the surviving entries joined by ", ", or "*" when that is empty. */
  function LegacySelectList(sel: seq<string>, table: string): string
  {
    var j := Join(Kept(sel, table), ", ");
    if j == "" then "*" else j
  }

  /** An entry naming the table is dropped; with nothing left the list falls back to "*". */
  lemma LegacySelectListFallback(sel: seq<string>, table: string)
    ensures (forall x :: x in sel ==> x == table && x != "*") ==> LegacySelectList(sel, table) == "*"
    ensures LegacySelectList(sel, table) != ""
  {
    var k := Kept(sel, table);
    KeptSpec(sel, table);
    if k != [] {
      assert k[0] in k;
    }
  }

  /** Identifiers are rendered as given. */
  function Verbatim(s: string): string
  {
    s
  }

  /** The clauses of the legacy statement: table, GROUP BY and ORDER BY columns are not quoted. */
  function LegacyClauses(b: Banquet): seq<SqlUtil.Clause>
  {
    SqlUtil.Clauses(LegacySelectList(b.select, b.table), b.table, b, Verbatim)
  }

  /** The legacy statement text. */
  function LegacySQL(b: Banquet): string
  {
    SqlUtil.SqlText(LegacyClauses(b))
  }

  /**
   * Nothing is quoted: the FROM clause names the table as given, GROUP BY
   * and ORDER BY carry the descriptor's columns as given, and each optional
   * clause is present exactly when its field is non-empty.
   */
  lemma LegacyVerbatim(b: Banquet)
    ensures var cs := LegacyClauses(b);
      && cs[1] == SqlUtil.FromClause(b.table)
      && (SqlUtil.WhereClause(b.where) in cs <==> b.where != "")
      && (SqlUtil.GroupByClause(b.groupBy) in cs <==> b.groupBy != "")
      && (SqlUtil.HavingClause(b.having) in cs <==> b.having != "")
      && (SqlUtil.OrderByClause(b.orderBy, b.sortDirection) in cs <==> b.orderBy != "")
      && (SqlUtil.LimitClause(b.limit) in cs <==> b.limit != "")
      && (SqlUtil.OffsetClause(b.offset) in cs <==> b.offset != "")
  {
    SqlUtil.ClausePresence(LegacySelectList(b.select, b.table), b.table, b, Verbatim);
  }

  /** The text each optional clause of rank `r` appends, ORDER BY without its direction. */
  function Keyword(r: nat): string
  {
    match r
    case 2 => " WHERE "
    case 3 => " GROUP BY "
    case 4 => " HAVING "
    case 5 => " ORDER BY "
    case 6 => " LIMIT "
    case _ => " OFFSET "
  }

  /** The descriptor field the optional clause of rank `r` carries. */
  function Field(r: nat, b: Banquet): string
  {
    match r
    case 2 => b.where
    case 3 => b.groupBy
    case 4 => b.having
    case 5 => b.orderBy
    case 6 => b.limit
    case _ => b.offset
  }

  /** The rendered optional clause of rank `r`, with its separating space, and when it is present. */
  lemma RenderStep(r: nat, b: Banquet)
    requires 2 <= r <= 7
    ensures SqlUtil.Present(r, b) <==> Field(r, b) != ""
    ensures " " + SqlUtil.Render(SqlUtil.Candidate(r, b, Verbatim)) == Tail(r, b)
  {
    if r == 5 {
      OrderByStep(b);
    } else {
      KeywordStep(r, b);
    }
  }

  /** ORDER BY renders its column and then its direction when one is set. */
  lemma OrderByStep(b: Banquet)
    ensures " " + SqlUtil.Render(SqlUtil.Candidate(5, b, Verbatim)) == Tail(5, b)
  {
    assert SqlUtil.Candidate(5, b, Verbatim) == SqlUtil.OrderByClause(b.orderBy, b.sortDirection);
    if b.sortDirection != "" {
      assert " " + ("ORDER BY " + b.orderBy + (" " + b.sortDirection)) == " ORDER BY " + b.orderBy + " " + b.sortDirection;
    } else {
      assert " " + ("ORDER BY " + b.orderBy + "") == " ORDER BY " + b.orderBy;
    }
  }

  /** Every other optional clause renders as its keyword and its field. */
  lemma KeywordStep(r: nat, b: Banquet)
    requires 2 <= r <= 7 && r != 5
    ensures " " + SqlUtil.Render(SqlUtil.Candidate(r, b, Verbatim)) == Tail(r, b)
  {
    var c := SqlUtil.Candidate(r, b, Verbatim);
    if r == 2 {
      assert c == SqlUtil.WhereClause(b.where);
      assert " " + ("WHERE " + b.where) == " WHERE " + b.where;
    } else if r == 3 {
      assert c == SqlUtil.GroupByClause(b.groupBy);
      assert " " + ("GROUP BY " + b.groupBy) == " GROUP BY " + b.groupBy;
    } else if r == 4 {
      assert c == SqlUtil.HavingClause(b.having);
      assert " " + ("HAVING " + b.having) == " HAVING " + b.having;
    } else if r == 6 {
      assert c == SqlUtil.LimitClause(b.limit);
      assert " " + ("LIMIT " + b.limit) == " LIMIT " + b.limit;
    } else {
      assert c == SqlUtil.OffsetClause(b.offset);
      assert " " + ("OFFSET " + b.offset) == " OFFSET " + b.offset;
    }
  }

  /** The text one `q +=` step of the composer adds when its field is set: keyword and field, then the direction after ORDER BY when that is set too. */
  function Tail(r: nat, b: Banquet): string
    requires 2 <= r <= 7
  {
    if r == 5 && b.sortDirection != "" then Keyword(r) + Field(r, b) + " " + b.sortDirection
    else Keyword(r) + Field(r, b)
  }

  /** One `q +=` step of the composer: the clause's keyword and field when the field is non-empty, ORDER BY followed by the direction when that is set too. */
  function AppendClause(q: string, r: nat, b: Banquet): string
    requires 2 <= r <= 7
  {
    if Field(r, b) == "" then q
    else if r == 5 && b.sortDirection != "" then q + Keyword(r) + Field(r, b) + " " + b.sortDirection
    else q + Keyword(r) + Field(r, b)
  }

  /** A step whose field is set adds exactly its tail. */
  lemma AppendTail(q: string, r: nat, b: Banquet)
    requires 2 <= r <= 7 && Field(r, b) != ""
    ensures AppendClause(q, r, b) == q + Tail(r, b)
  {
    var k := Keyword(r);
    var f := Field(r, b);
    if r == 5 && b.sortDirection != "" {
      assert q + k + f + " " + b.sortDirection == q + (k + f + " " + b.sortDirection);
    } else {
      assert q + k + f == q + (k + f);
    }
  }

  /** The text after the SELECT/FROM head and the append steps for ranks below `r`. */
  function Built(selectList: string, b: Banquet, r: nat): string
    requires 2 <= r <= 8
    decreases r
  {
    if r == 2 then "SELECT " + selectList + " FROM " + b.table
    else AppendClause(Built(selectList, b, r - 1), r - 1, b)
  }

  /** One append step adds the next optional clause, rendered, after a space. */
  lemma AppendRendered(q: string, r: nat, b: Banquet)
    requires 2 <= r <= 7
    ensures AppendClause(q, r, b) ==
      if SqlUtil.Present(r, b) then q + " " + SqlUtil.Render(SqlUtil.Candidate(r, b, Verbatim)) else q
  {
    RenderStep(r, b);
    if Field(r, b) != "" {
      AppendTail(q, r, b);
      var rendered := SqlUtil.Render(SqlUtil.Candidate(r, b, Verbatim));
      assert q + (" " + rendered) == q + " " + rendered;
    }
  }

  /** The appended text is the text of the clause list built so far. */
  lemma {:induction false} BuiltText(selectList: string, b: Banquet, r: nat)
    requires 2 <= r <= 8
    ensures Built(selectList, b, r) == SqlUtil.SqlText(SqlUtil.Prefix(selectList, b.table, b, Verbatim, r))
    decreases r
  {
    if r == 2 {
      SqlUtil.PrefixHead(selectList, b.table, b, Verbatim);
    } else {
      BuiltText(selectList, b, r - 1);
      SqlUtil.PrefixText(selectList, b.table, b, Verbatim, r - 1);
      AppendRendered(Built(selectList, b, r - 1), r - 1, b);
    }
  }

  /** The legacy statement is the full prefix of its clauses. */
  lemma LegacyText(b: Banquet)
    ensures LegacySQL(b) == SqlUtil.SqlText(SqlUtil.Prefix(LegacySelectList(b.select, b.table), b.table, b, Verbatim, 8))
  {
  }

  /** The SELECT list of common/sql.go: entries naming the table are dropped, "*" is kept, and an empty result falls back to "*". */
  method SelectColumns(sel: seq<string>, table: string) returns (selectClause: string)
    ensures selectClause == LegacySelectList(sel, table)
  {
    selectClause := "*";
    if |sel| > 0 {
      var cols: seq<string> := [];
      var i := 0;
      while i < |sel|
        invariant 0 <= i <= |sel|
        invariant cols == Kept(sel[..i], table)
      {
        var s := sel[i];
        assert sel[..i + 1] == sel[..i] + [s];
        if s == "*" {
          cols := cols + ["*"];
        } else if s != table {
          cols := cols + [s];
        }
        i := i + 1;
      }
      assert sel[..i] == sel;
      if |cols| > 0 {
        selectClause := Join(cols, ", ");
      }
    }
    if selectClause == "" {
      selectClause := "*";
    }
  }

  /** The WHERE, GROUP BY and HAVING appends of the composer. */
  method AppendFilters(q: string, ghost selectList: string, b: Banquet) returns (q': string)
    requires q == Built(selectList, b, 2)
    ensures q' == Built(selectList, b, 5)
  {
    q' := q;
    if b.where != "" {
      q' := q' + " WHERE " + b.where;
    }
    assert q' == Built(selectList, b, 3);

    if b.groupBy != "" {
      q' := q' + " GROUP BY " + b.groupBy;
    }
    assert q' == Built(selectList, b, 4);

    if b.having != "" {
      q' := q' + " HAVING " + b.having;
    }
  }

  /** The ORDER BY (with its direction), LIMIT and OFFSET appends of the composer. */
  method AppendWindow(q: string, ghost selectList: string, b: Banquet) returns (q': string)
    requires q == Built(selectList, b, 5)
    ensures q' == Built(selectList, b, 8)
  {
    q' := q;
    if b.orderBy != "" {
      q' := q' + " ORDER BY " + b.orderBy;
      if b.sortDirection != "" {
        q' := q' + " " + b.sortDirection;
      }
    }
    assert q' == Built(selectList, b, 6);

    if b.limit != "" {
      q' := q' + " LIMIT " + b.limit;
    }
    assert q' == Built(selectList, b, 7);

    if b.offset != "" {
      q' := q' + " OFFSET " + b.offset;
    }
  }

  /** ConstructSQL (common/sql.go): the unquoted SELECT statement, built by appending clause after clause. */
  method ConstructSQL(b: Banquet) returns (q: string)
    ensures q == LegacySQL(b)
  {
    var selectClause := SelectColumns(b.select, b.table);

    q := "SELECT " + selectClause + " FROM " + b.table;
    assert q == Built(selectClause, b, 2);

    q := AppendFilters(q, selectClause, b);
    q := AppendWindow(q, selectClause, b);
    BuiltText(selectClause, b, 8);
    LegacyText(b);
  }

  // ---- INSERT / UPDATE / DELETE ----

  function Keys<V>(pairs: seq<(string, V)>): (r: seq<string>)
    ensures |r| == |pairs| && forall i :: 0 <= i < |pairs| ==> r[i] == pairs[i].0
  {
    seq(|pairs|, i requires 0 <= i < |pairs| => pairs[i].0)
  }

  function ValuesOf<V>(pairs: seq<(string, V)>): (r: seq<V>)
    ensures |r| == |pairs| && forall i :: 0 <= i < |pairs| ==> r[i] == pairs[i].1
  {
    seq(|pairs|, i requires 0 <= i < |pairs| => pairs[i].1)
  }

  /** One "?" per column. */
  function Placeholders(n: nat): (r: seq<string>)
    ensures |r| == n && forall i :: 0 <= i < n ==> r[i] == "?"
  {
    seq(n, i => "?")
  }

  /** The SET assignments of an UPDATE, in data order. */
  function SetClauses<V>(data: seq<(string, V)>): (r: seq<string>)
    ensures |r| == |data| && forall i :: 0 <= i < |data| ==> r[i] == data[i].0 + " = ?"
  {
    seq(|data|, i requires 0 <= i < |data| => data[i].0 + " = ?")
  }

  /** A WHERE condition: a nil value renders "k IS NULL", any other value is bound to a placeholder. */
  function WhereCondition<V>(p: (string, Option<V>)): string
  {
    if p.1.None? then p.0 + " IS NULL" else p.0 + " = ?"
  }

  function WhereClauses<V>(where: seq<(string, Option<V>)>): (r: seq<string>)
    ensures |r| == |where| && forall i :: 0 <= i < |where| ==> r[i] == WhereCondition(where[i])
  {
    seq(|where|, i requires 0 <= i < |where| => WhereCondition(where[i]))
  }

  /** The values bound by a WHERE list: the non-nil ones, in order. */
  function BoundValues<V>(where: seq<(string, Option<V>)>): seq<V>
  {
    if where == [] then []
    else BoundValues(where[..|where| - 1]) + if where[|where| - 1].1.Some? then [where[|where| - 1].1.value] else []
  }

  /** Exactly the non-nil WHERE values are bound. */
  lemma {:induction false} BoundValuesSpec<V>(where: seq<(string, Option<V>)>)
    ensures forall v :: v in BoundValues(where) ==> exists i :: 0 <= i < |where| && where[i].1 == Some(v)
    ensures forall i :: 0 <= i < |where| && where[i].1.Some? ==> where[i].1.value in BoundValues(where)
    decreases |where|
  {
    if where != [] {
      var init := where[..|where| - 1];
      BoundValuesSpec(init);
      assert forall i :: 0 <= i < |init| ==> init[i] == where[i];
    }
  }

  /** Number of nil values in a WHERE list. */
  function NilCount<V>(where: seq<(string, Option<V>)>): nat
  {
    if where == [] then 0 else (if where[0].1.None? then 1 else 0) + NilCount(where[1..])
  }

  /** No column name contains a "?". */
  predicate MarkFree<V>(pairs: seq<(string, V)>)
  {
    forall i :: 0 <= i < |pairs| ==> Count(pairs[i].0, '?') == 0
  }

  lemma BoundValuesCount<V>(where: seq<(string, Option<V>)>)
    ensures |BoundValues(where)| + NilCount(where) == |where|
  {
    if where != [] {
      var init := where[..|where| - 1];
      BoundValuesCount(init);
      NilCountSnoc(init, where[|where| - 1]);
      assert where == init + [where[|where| - 1]];
    }
  }

  lemma {:induction false} NilCountSnoc<V>(where: seq<(string, Option<V>)>, p: (string, Option<V>))
    ensures NilCount(where + [p]) == NilCount(where) + if p.1.None? then 1 else 0
    decreases |where|
  {
    if where == [] {
      assert ([] + [p])[1..] == [];
    } else {
      assert (where + [p])[1..] == where[1..] + [p];
      NilCountSnoc(where[1..], p);
    }
  }

  /** A "k = ?" condition holds one placeholder, "k IS NULL" none (for a mark-free k). */
  lemma ConditionMarks(k: string)
    requires Count(k, '?') == 0
    ensures Count(k + " = ?", '?') == 1 && Count(k + " IS NULL", '?') == 0
  {
    CountAround(k, " = ", "?", '?');
    assert Count("?", '?') == 1 by { assert "?"[1..] == []; }
    assert k + " = " + "?" == k + " = ?";
    CountAround(k, " IS NULL", "", '?');
    assert k + " IS NULL" + "" == k + " IS NULL";
  }

  /** The SET list holds one "?" per assignment. */
  lemma {:induction false} SetMarks<V>(data: seq<(string, V)>)
    requires MarkFree(data)
    ensures CountAll(SetClauses(data), '?') == |data|
    decreases |data|
  {
    if data != [] {
      ConditionMarks(data[0].0);
      assert SetClauses(data)[1..] == SetClauses(data[1..]);
      SetMarks(data[1..]);
    }
  }

  /** The WHERE list holds one "?" per non-nil value. */
  lemma {:induction false} WhereMarks<V>(where: seq<(string, Option<V>)>)
    requires MarkFree(where)
    ensures CountAll(WhereClauses(where), '?') == |where| - NilCount(where)
    decreases |where|
  {
    if where != [] {
      ConditionMarks(where[0].0);
      assert WhereClauses(where)[1..] == WhereClauses(where[1..]);
      WhereMarks(where[1..]);
    }
  }

  /** The VALUES list holds one "?" per column. */
  lemma {:induction false} PlaceholderMarks(n: nat)
    ensures CountAll(Placeholders(n), '?') == n
    decreases n
  {
    if n > 0 {
      assert Placeholders(n)[1..] == Placeholders(n - 1);
      PlaceholderMarks(n - 1);
    }
  }

  /** The column names hold no "?". */
  lemma {:induction false} KeyMarks<V>(pairs: seq<(string, V)>)
    requires MarkFree(pairs)
    ensures CountAll(Keys(pairs), '?') == 0
    decreases |pairs|
  {
    if pairs != [] {
      assert Keys(pairs)[1..] == Keys(pairs[1..]);
      KeyMarks(pairs[1..]);
    }
  }

  lemma InsertMarks(t: string, c: string, p: string)
    ensures Count("INSERT INTO " + t + " (" + c + ") VALUES (" + p + ")", '?') == Count(t, '?') + Count(c, '?') + Count(p, '?')
  {
    CountAround("", "INSERT INTO ", t, '?');
    CountAround("INSERT INTO " + t, " (", c, '?');
    CountAround("INSERT INTO " + t + " (" + c, ") VALUES (", p, '?');
    CountAround("INSERT INTO " + t + " (" + c + ") VALUES (" + p, ")", "", '?');
    assert "" + "INSERT INTO " + t == "INSERT INTO " + t;
    assert "INSERT INTO " + t + " (" + c + ") VALUES (" + p + ")" + "" == "INSERT INTO " + t + " (" + c + ") VALUES (" + p + ")";
  }

  lemma UpdateMarks(t: string, set_: string, cond: string)
    ensures Count("UPDATE " + t + " SET " + set_ + " WHERE " + cond, '?') == Count(t, '?') + Count(set_, '?') + Count(cond, '?')
  {
    CountAround("", "UPDATE ", t, '?');
    CountAround("UPDATE " + t, " SET ", set_, '?');
    CountAround("UPDATE " + t + " SET " + set_, " WHERE ", cond, '?');
    assert "" + "UPDATE " + t == "UPDATE " + t;
  }

  lemma DeleteMarks(t: string, cond: string)
    ensures Count("DELETE FROM " + t + " WHERE " + cond, '?') == Count(t, '?') + Count(cond, '?')
  {
    CountAround("", "DELETE FROM ", t, '?');
    CountAround("DELETE FROM " + t, " WHERE ", cond, '?');
    assert "" + "DELETE FROM " + t == "DELETE FROM " + t;
  }

  /** ConstructInsert: one column, one "?" and one argument per data entry, column i paired with argument i. */
  method ConstructInsert<V>(table: string, data: seq<(string, V)>) returns (query: string, vals: seq<V>)
    ensures query == "INSERT INTO " + table + " (" + Join(Keys(data), ", ") + ") VALUES (" + Join(Placeholders(|data|), ", ") + ")"
    ensures |vals| == |data| && forall i :: 0 <= i < |data| ==> vals[i] == data[i].1
    ensures Count(table, '?') == 0 && MarkFree(data) ==> Count(query, '?') == |vals|
  {
    var cols: seq<string> := [];
    vals := [];
    var placeholders: seq<string> := [];
    var i := 0;
    while i < |data|
      invariant 0 <= i <= |data|
      invariant cols == Keys(data[..i]) && vals == ValuesOf(data[..i]) && placeholders == Placeholders(i)
    {
      cols := cols + [data[i].0];
      vals := vals + [data[i].1];
      placeholders := placeholders + ["?"];
      i := i + 1;
    }
    assert data[..i] == data;
    query := "INSERT INTO " + table + " (" + Join(cols, ", ") + ") VALUES (" + Join(placeholders, ", ") + ")";
    if Count(table, '?') == 0 && MarkFree(data) {
      KeyMarks(data);
      PlaceholderMarks(|data|);
      CountJoin(cols, ", ", '?');
      CountJoin(placeholders, ", ", '?');
      InsertMarks(table, Join(cols, ", "), Join(placeholders, ", "));
    }
  }

  lemma WhereSnoc<V>(where: seq<(string, Option<V>)>, i: nat)
    requires i < |where|
    ensures WhereClauses(where[..i + 1]) == WhereClauses(where[..i]) + [WhereCondition(where[i])]
    ensures BoundValues(where[..i + 1]) == BoundValues(where[..i]) + if where[i].1.Some? then [where[i].1.value] else []
  {
    assert where[..i + 1][..i] == where[..i];
  }

  /** Builds the WHERE conditions and bound values of UPDATE and DELETE, appending to `vals`. */
  method AppendWhere<V>(where: seq<(string, Option<V>)>, vals0: seq<V>) returns (clauses: seq<string>, vals: seq<V>)
    ensures clauses == WhereClauses(where)
    ensures vals == vals0 + BoundValues(where)
  {
    clauses := [];
    vals := vals0;
    var i := 0;
    while i < |where|
      invariant 0 <= i <= |where|
      invariant clauses == WhereClauses(where[..i]) && vals == vals0 + BoundValues(where[..i])
    {
      var k := where[i].0;
      var v := where[i].1;
      WhereSnoc(where, i);
      if v.None? {
        clauses := clauses + [k + " IS NULL"];
      } else {
        clauses := clauses + [k + " = ?"];
        assert vals + [v.value] == vals0 + (BoundValues(where[..i]) + [v.value]);
        vals := vals + [v.value];
      }
      i := i + 1;
    }
    assert where[..i] == where;
  }

  /**
   * ConstructUpdate: the arguments are the SET values in SET order followed
   * by the non-nil WHERE values; a nil WHERE value renders "k IS NULL" and
   * binds nothing, so the placeholders match the arguments one to one.
   */
  method ConstructUpdate<V>(table: string, data: seq<(string, V)>, where: seq<(string, Option<V>)>)
    returns (query: string, vals: seq<V>)
    ensures query == "UPDATE " + table + " SET " + Join(SetClauses(data), ", ") + " WHERE " + Join(WhereClauses(where), " AND ")
    ensures vals == ValuesOf(data) + BoundValues(where)
    ensures |vals| == |data| + |where| - NilCount(where)
    ensures Count(table, '?') == 0 && MarkFree(data) && MarkFree(where) ==> Count(query, '?') == |vals|
  {
    var setClauses: seq<string> := [];
    vals := [];
    var i := 0;
    while i < |data|
      invariant 0 <= i <= |data|
      invariant setClauses == SetClauses(data[..i]) && vals == ValuesOf(data[..i])
    {
      setClauses := setClauses + [data[i].0 + " = ?"];
      vals := vals + [data[i].1];
      i := i + 1;
    }
    assert data[..i] == data;
    var whereClauses;
    whereClauses, vals := AppendWhere(where, vals);
    var set_ := Join(setClauses, ", ");
    var cond := Join(whereClauses, " AND ");
    query := "UPDATE " + table + " SET " + set_ + " WHERE " + cond;
    BoundValuesCount(where);
    if Count(table, '?') == 0 && MarkFree(data) && MarkFree(where) {
      SetMarks(data);
      WhereMarks(where);
      CountJoin(setClauses, ", ", '?');
      CountJoin(whereClauses, " AND ", '?');
      UpdateMarks(table, set_, cond);
    }
  }

  /** ConstructDelete: nil WHERE values render "k IS NULL"; the placeholders match the arguments one to one. */
  method ConstructDelete<V>(table: string, where: seq<(string, Option<V>)>) returns (query: string, vals: seq<V>)
    ensures query == "DELETE FROM " + table + " WHERE " + Join(WhereClauses(where), " AND ")
    ensures vals == BoundValues(where)
    ensures |vals| == |where| - NilCount(where)
    ensures Count(table, '?') == 0 && MarkFree(where) ==> Count(query, '?') == |vals|
  {
    var whereClauses;
    whereClauses, vals := AppendWhere(where, []);
    var cond := Join(whereClauses, " AND ");
    query := "DELETE FROM " + table + " WHERE " + cond;
    BoundValuesCount(where);
    if Count(table, '?') == 0 && MarkFree(where) {
      WhereMarks(where);
      CountJoin(whereClauses, " AND ", '?');
      DeleteMarks(table, cond);
    }
  }
}
