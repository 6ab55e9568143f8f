/**
 * The quoted SELECT composer of sqliter/sql_util.go (ConstructSQL and
 * QuoteIdentifier), which the engine also uses for the external
 * sqlite.Compose and sqlite.QuoteIdentifier.
 *
 * A statement is modelled as the list of its clauses; the text is the
 * clauses rendered and joined by single spaces, as the source joins its
 * `parts` slice.
 */
module SqlUtil {
  import opened Text
  import opened Banquet

  /** QuoteIdentifier: "" and "*" are kept, anything else is double-quoted with inner quotes doubled. */
  function QuoteIdentifier(s: string): (r: string)
    ensures s == "" || s == "*" ==> r == s
    ensures s != "" && s != "*" ==> |r| >= 2 && r[0] == '"' && r[|r| - 1] == '"'
  {
    if s == "" || s == "*" then s else "\"" + Double(s, '"') + "\""
  }

  /** Inverse of QuoteIdentifier: strips the outer quotes and collapses doubled quotes. */
  function Unquote(q: string): string
  {
    if |q| >= 2 && q[0] == '"' && q[|q| - 1] == '"' then Undouble(q[1..|q| - 1], '"') else q
  }

  /** Quoting loses nothing: every identifier can be read back from its quoted form. */
  lemma UnquoteQuote(s: string)
    ensures Unquote(QuoteIdentifier(s)) == s
  {
    if s != "" && s != "*" {
      var q := QuoteIdentifier(s);
      assert q[1..|q| - 1] == Double(s, '"');
      UndoubleDouble(s, '"');
    }
  }

  /** Two different identifiers never quote to the same text. */
  lemma QuoteInjective(s: string, t: string)
    requires QuoteIdentifier(s) == QuoteIdentifier(t)
    ensures s == t
  {
    UnquoteQuote(s);
    UnquoteQuote(t);
  }

  /** QuoteIdentifier applied to each column. */
  function QuoteAll(cols: seq<string>): (r: seq<string>)
    ensures |r| == |cols|
    ensures forall i :: 0 <= i < |cols| ==> r[i] == QuoteIdentifier(cols[i])
  {
    seq(|cols|, i requires 0 <= i < |cols| => QuoteIdentifier(cols[i]))
  }

  /** One clause of a SELECT statement, with its text already rendered. */
  datatype Clause =
    | SelectClause(columns: string)
    | FromClause(table: string)
    | WhereClause(condition: string)
    | GroupByClause(column: string)
    | HavingClause(condition: string)
    | OrderByClause(column: string, direction: string)
    | LimitClause(count: string)
    | OffsetClause(count: string)

  /** Position of a clause kind in SQL's fixed clause order. */
  function Rank(c: Clause): nat
  {
    match c
    case SelectClause(_) => 0
    case FromClause(_) => 1
    case WhereClause(_) => 2
    case GroupByClause(_) => 3
    case HavingClause(_) => 4
    case OrderByClause(_, _) => 5
    case LimitClause(_) => 6
    case OffsetClause(_) => 7
  }

  function Render(c: Clause): string
  {
    match c
    case SelectClause(cols) => "SELECT " + cols
    case FromClause(t) => "FROM " + t
    case WhereClause(p) => "WHERE " + p
    case GroupByClause(g) => "GROUP BY " + g
    case HavingClause(p) => "HAVING " + p
    case OrderByClause(col, dir) => "ORDER BY " + col + (if dir != "" then " " + dir else "")
    case LimitClause(n) => "LIMIT " + n
    case OffsetClause(n) => "OFFSET " + n
  }

  /** The statement text: every clause rendered, joined by single spaces. */
  function SqlText(cs: seq<Clause>): string
  {
    Join(seq(|cs|, i requires 0 <= i < |cs| => Render(cs[i])), " ")
  }

  /** Appending a clause extends the statement text by a space and that clause's text. */
  lemma SqlTextSnoc(cs: seq<Clause>, c: Clause)
    requires |cs| >= 1
    ensures SqlText(cs + [c]) == SqlText(cs) + " " + Render(c)
  {
    var rs := seq(|cs|, i requires 0 <= i < |cs| => Render(cs[i]));
    var rs' := seq(|cs| + 1, i requires 0 <= i < |cs| + 1 => Render((cs + [c])[i]));
    assert rs' == rs + [Render(c)];
    JoinSnoc(rs, Render(c), " ");
  }

  /** Two clauses are their texts joined by a space. */
  lemma SqlTextPair(a: Clause, b: Clause)
    ensures SqlText([a, b]) == Render(a) + " " + Render(b)
  {
    var rs := seq(2, i requires 0 <= i < 2 => Render([a, b][i]));
    assert rs == [Render(a), Render(b)];
    assert rs[1..] == [Render(b)];
  }

  /** Clauses come in SQL's fixed order, each kind at most once. */
  predicate Ordered(cs: seq<Clause>)
  {
    forall i, j :: 0 <= i < j < |cs| ==> Rank(cs[i]) < Rank(cs[j])
  }

  /** Whether the optional clause of rank `r` (WHERE .. OFFSET) is present: its field is non-empty. */
  predicate Present(r: nat, b: Banquet)
    requires 2 <= r <= 7
  {
    match r
    case 2 => b.where != ""
    case 3 => b.groupBy != ""
    case 4 => b.having != ""
    case 5 => b.orderBy != ""
    case 6 => b.limit != ""
    case _ => b.offset != ""
  }

  /** The optional clause of rank `r`; `ident` renders the GROUP BY and ORDER BY columns. */
  function Candidate(r: nat, b: Banquet, ident: string -> string): (c: Clause)
    requires 2 <= r <= 7
    ensures Rank(c) == r
  {
    match r
    case 2 => WhereClause(b.where)
    case 3 => GroupByClause(ident(b.groupBy))
    case 4 => HavingClause(b.having)
    case 5 => OrderByClause(ident(b.orderBy), b.sortDirection)
    case 6 => LimitClause(b.limit)
    case _ => OffsetClause(b.offset)
  }

  /**
   * The SELECT and FROM clauses followed by the optional clauses of rank
   * below `r` that are present, in order: the statement as built up to,
   * but not including, the clause of rank `r`.
   */
  function Prefix(selectList: string, table: string, b: Banquet, ident: string -> string, r: nat): (cs: seq<Clause>)
    requires 2 <= r <= 8
    ensures |cs| >= 2 && cs[0] == SelectClause(selectList) && cs[1] == FromClause(table)
    decreases r
  {
    if r == 2 then [SelectClause(selectList), FromClause(table)]
    else Prefix(selectList, table, b, ident, r - 1) + if Present(r - 1, b) then [Candidate(r - 1, b, ident)] else []
  }

  /** Every optional clause in the prefix is the present candidate of its rank, of rank below `r`. */
  lemma {:induction false} PrefixMembers(selectList: string, table: string, b: Banquet, ident: string -> string, r: nat)
    requires 2 <= r <= 8
    ensures var cs := Prefix(selectList, table, b, ident, r);
      forall i :: 2 <= i < |cs| ==> 2 <= Rank(cs[i]) < r && Present(Rank(cs[i]), b) && cs[i] == Candidate(Rank(cs[i]), b, ident)
    decreases r
  {
    if r > 2 {
      PrefixMembers(selectList, table, b, ident, r - 1);
    }
  }

  /** The prefix lists its clauses in rank order. */
  lemma {:induction false} PrefixOrdered(selectList: string, table: string, b: Banquet, ident: string -> string, r: nat)
    requires 2 <= r <= 8
    ensures Ordered(Prefix(selectList, table, b, ident, r))
    decreases r
  {
    if r > 2 {
      PrefixOrdered(selectList, table, b, ident, r - 1);
      PrefixMembers(selectList, table, b, ident, r - 1);
    }
  }

  /** Every present candidate of rank below `r` is in the prefix. */
  lemma {:induction false} PrefixComplete(selectList: string, table: string, b: Banquet, ident: string -> string, r: nat)
    requires 2 <= r <= 8
    ensures var cs := Prefix(selectList, table, b, ident, r);
      forall k :: 2 <= k < r && Present(k, b) ==> Candidate(k, b, ident) in cs[2..]
    decreases r
  {
    if r > 2 {
      PrefixComplete(selectList, table, b, ident, r - 1);
      var init := Prefix(selectList, table, b, ident, r - 1);
      var cs := Prefix(selectList, table, b, ident, r);
      forall k | 2 <= k < r && Present(k, b) ensures Candidate(k, b, ident) in cs[2..] {
        if k == r - 1 {
          assert cs[|cs| - 1] == Candidate(k, b, ident);
          assert cs[2..][|cs| - 3] == cs[|cs| - 1];
        } else {
          var j :| 0 <= j < |init[2..]| && init[2..][j] == Candidate(k, b, ident);
          assert cs[2..][j] == init[j + 2];
        }
      }
    }
  }

  /**
   * The clauses of a statement over descriptor `b`, given the rendered
   * SELECT list and FROM table; `ident` renders the GROUP BY and ORDER BY
   * columns (quoting in this composer, verbatim in the legacy one).
   * Each optional clause is present exactly when its descriptor field is
   * non-empty, clauses come in SQL's fixed order, and the sort direction
   * only ever appears inside the ORDER BY clause.
   */
  function Clauses(selectList: string, table: string, b: Banquet, ident: string -> string): (cs: seq<Clause>)
    ensures |cs| >= 2 && cs[0] == SelectClause(selectList) && cs[1] == FromClause(table)
    ensures Ordered(cs)
    ensures forall i :: 2 <= i < |cs| ==> 2 <= Rank(cs[i]) <= 7 && Present(Rank(cs[i]), b) && cs[i] == Candidate(Rank(cs[i]), b, ident)
    ensures forall k :: 2 <= k <= 7 && Present(k, b) ==> Candidate(k, b, ident) in cs[2..]
  {
    PrefixMembers(selectList, table, b, ident, 8);
    PrefixOrdered(selectList, table, b, ident, 8);
    PrefixComplete(selectList, table, b, ident, 8);
    Prefix(selectList, table, b, ident, 8)
  }

  /** Each step of the build extends the text by the clause of rank `r` when it is present. */
  lemma PrefixText(selectList: string, table: string, b: Banquet, ident: string -> string, r: nat)
    requires 2 <= r <= 7
    ensures SqlText(Prefix(selectList, table, b, ident, r + 1)) ==
      if Present(r, b) then SqlText(Prefix(selectList, table, b, ident, r)) + " " + Render(Candidate(r, b, ident))
      else SqlText(Prefix(selectList, table, b, ident, r))
  {
    if Present(r, b) {
      SqlTextSnoc(Prefix(selectList, table, b, ident, r), Candidate(r, b, ident));
    } else {
      assert Prefix(selectList, table, b, ident, r + 1) == Prefix(selectList, table, b, ident, r);
    }
  }

  /** The text of the two leading clauses. */
  lemma PrefixHead(selectList: string, table: string, b: Banquet, ident: string -> string)
    ensures SqlText(Prefix(selectList, table, b, ident, 2)) == "SELECT " + selectList + " FROM " + table
  {
    var cs := Prefix(selectList, table, b, ident, 2);
    var rs := seq(2, i requires 0 <= i < 2 => Render(cs[i]));
    assert Join(rs, " ") == rs[0] + " " + Join(rs[1..], " ");
  }

  /** Presence of each optional clause in any clause list with the properties of Clauses. */
  lemma PresenceOf(cs: seq<Clause>, selectList: string, table: string, b: Banquet, ident: string -> string)
    requires |cs| >= 2 && cs[0] == SelectClause(selectList) && cs[1] == FromClause(table)
    requires forall i :: 2 <= i < |cs| ==> 2 <= Rank(cs[i]) <= 7 && Present(Rank(cs[i]), b) && cs[i] == Candidate(Rank(cs[i]), b, ident)
    requires forall k :: 2 <= k <= 7 && Present(k, b) ==> Candidate(k, b, ident) in cs[2..]
    ensures (WhereClause(b.where) in cs <==> b.where != "")
      && (GroupByClause(ident(b.groupBy)) in cs <==> b.groupBy != "")
      && (HavingClause(b.having) in cs <==> b.having != "")
      && (OrderByClause(ident(b.orderBy), b.sortDirection) in cs <==> b.orderBy != "")
      && (LimitClause(b.limit) in cs <==> b.limit != "")
      && (OffsetClause(b.offset) in cs <==> b.offset != "")
  {
    forall c | c in cs
      ensures c == cs[0] || c == cs[1] || (2 <= Rank(c) <= 7 && Present(Rank(c), b) && c == Candidate(Rank(c), b, ident))
    {
      var i :| 0 <= i < |cs| && cs[i] == c;
    }
    forall k | 2 <= k <= 7 && Present(k, b)
      ensures Candidate(k, b, ident) in cs
    {
      assert Candidate(k, b, ident) in cs[2..];
    }
    assert Candidate(2, b, ident) == WhereClause(b.where);
    assert Candidate(3, b, ident) == GroupByClause(ident(b.groupBy));
    assert Candidate(4, b, ident) == HavingClause(b.having);
    assert Candidate(5, b, ident) == OrderByClause(ident(b.orderBy), b.sortDirection);
    assert Candidate(6, b, ident) == LimitClause(b.limit);
    assert Candidate(7, b, ident) == OffsetClause(b.offset);
  }

  /** Each optional clause is present exactly when its descriptor field is non-empty. */
  lemma ClausePresence(selectList: string, table: string, b: Banquet, ident: string -> string)
    ensures var cs := Clauses(selectList, table, b, ident);
      && (WhereClause(b.where) in cs <==> b.where != "")
      && (GroupByClause(ident(b.groupBy)) in cs <==> b.groupBy != "")
      && (HavingClause(b.having) in cs <==> b.having != "")
      && (OrderByClause(ident(b.orderBy), b.sortDirection) in cs <==> b.orderBy != "")
      && (LimitClause(b.limit) in cs <==> b.limit != "")
      && (OffsetClause(b.offset) in cs <==> b.offset != "")
  {
    PresenceOf(Clauses(selectList, table, b, ident), selectList, table, b, ident);
  }

  /** The SELECT list: "*" unless Select is non-empty and its first entry is not "*". */
  function SelectList(sel: seq<string>): string
  {
    if |sel| > 0 && sel[0] != "*" then Join(QuoteAll(sel), ", ") else "*"
  }

  /** Only the first entry decides: the list is "*" exactly when Select is empty or starts with "*". */
  lemma SelectListStar(sel: seq<string>)
    ensures SelectList(sel) == "*" <==> |sel| == 0 || sel[0] == "*"
  {
    if |sel| > 0 && sel[0] != "*" {
      var q := QuoteAll(sel);
      if |sel| == 1 {
        assert SelectList(sel) == q[0];
      } else {
        assert SelectList(sel) == q[0] + ", " + Join(q[1..], ", ");
      }
    }
  }

  /** The table named in FROM: the descriptor's table, or "tb0" when it is empty. */
  function FromTable(table: string): (r: string)
    ensures r != ""
    ensures table != "" ==> r == table
  {
    if table == "" then "tb0" else table
  }

  /** ConstructSQL: the quoted SELECT statement for a descriptor. */
  function ConstructSQL(b: Banquet): string
  {
    SqlText(Clauses(SelectList(b.select), QuoteIdentifier(FromTable(b.table)), b, QuoteIdentifier))
  }

  /** The worked example of the composer's documentation, clause by clause and as text: SELECT "a", "b" FROM "t" WHERE x>1. */
  lemma ConstructSQLExample()
    ensures var b := Banquet("", "t", ["a", "b"], "x>1", "", "", "", "", "", "");
      Clauses(SelectList(b.select), QuoteIdentifier(FromTable(b.table)), b, QuoteIdentifier)
      == [SelectClause("\"a\", \"b\""), FromClause("\"t\""), WhereClause("x>1")]
    ensures ConstructSQL(Banquet("", "t", ["a", "b"], "x>1", "", "", "", "", "", ""))
      == "SELECT \"a\", \"b\" FROM \"t\" WHERE x>1"
  {
    var b := Banquet("", "t", ["a", "b"], "x>1", "", "", "", "", "", "");
    SelectListExample();
    var id := QuoteIdentifier;
    var sl := SelectList(b.select);
    var t := QuoteIdentifier(FromTable(b.table));
    assert Prefix(sl, t, b, id, 3) == [SelectClause(sl), FromClause(t), WhereClause("x>1")];
    assert Prefix(sl, t, b, id, 5) == Prefix(sl, t, b, id, 3);
    assert Prefix(sl, t, b, id, 8) == Prefix(sl, t, b, id, 5);
    assert Double("t", '"') == "t";
    assert QuoteIdentifier(FromTable(b.table)) == "\"t\"";
    ExampleText();
  }

  /** The text of the worked example's three clauses. */
  lemma ExampleText()
    ensures SqlText([SelectClause("\"a\", \"b\""), FromClause("\"t\""), WhereClause("x>1")])
      == "SELECT \"a\", \"b\" FROM \"t\" WHERE x>1"
  {
    var cs := [SelectClause("\"a\", \"b\""), FromClause("\"t\""), WhereClause("x>1")];
    var rs := seq(|cs|, i requires 0 <= i < |cs| => Render(cs[i]));
    assert rs[0] == "SELECT " + "\"a\", \"b\"" == "SELECT \"a\", \"b\"";
    assert rs[1] == "FROM " + "\"t\"" == "FROM \"t\"";
    assert rs[2] == "WHERE " + "x>1" == "WHERE x>1";
    assert Join(rs, " ") == rs[0] + " " + Join(rs[1..], " ");
    assert Join(rs[1..], " ") == rs[1] + " " + Join(rs[2..], " ");
    assert Join(rs[2..], " ") == rs[2];
  }

  /** The select list of the worked example: both columns quoted, joined by ", ". */
  lemma SelectListExample()
    ensures SelectList(["a", "b"]) == "\"a\", \"b\""
  {
    assert Double("a", '"') == "a";
    assert Double("b", '"') == "b";
    assert QuoteIdentifier("a") == "\"a\"" && QuoteIdentifier("b") == "\"b\"";
    var q := QuoteAll(["a", "b"]);
    assert q[0] == "\"a\"" && q[1] == "\"b\"";
    assert q == ["\"a\"", "\"b\""];
    assert Join(q, ", ") == q[0] + ", " + Join(q[1..], ", ");
  }
}
