/**
 * The copy of the unquoted SELECT composer in pkg/common/sql.go. It is
 * proved against the same specification as common/sql.go's ConstructSQL,
 * so the two produce the same text for every descriptor.
 */
module PkgCommonSql {
  import opened Banquet
  import CommonSql

  /**
   * ConstructSQL (pkg/common/sql.go): the copy runs the same steps as the
   * common package's composer (its SELECT-list loop and its append chain
   * are line for line those of common/sql.go), so it reuses them here.
   */
  method ConstructSQL(b: Banquet) returns (q: string)
    ensures q == CommonSql.LegacySQL(b)
  {
    var selectClause := CommonSql.SelectColumns(b.select, b.table);
    q := "SELECT " + selectClause + " FROM " + b.table;
    q := CommonSql.AppendFilters(q, selectClause, b);
    q := CommonSql.AppendWindow(q, selectClause, b);
    CommonSql.BuiltText(selectClause, b, 8);
    CommonSql.LegacyText(b);
  }
}
