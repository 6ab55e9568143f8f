/** Value types shared by every part of the model. */
module Values {

  datatype Option<T> = None | Some(value: T)

  /** A Go `(T, error)` pair: either a value or an error message. */
  datatype Result<T> = Ok(value: T) | Err(msg: string)

  /**
   * A cell value as database/sql scans it into an `interface{}`:
   * NULL, a byte slice, or an already typed value (rendered by "%v" as `shown`).
   */
  datatype Cell = Null | Bytes(bytes: string) | Text(text: string) | Typed(shown: string)

  /** The engine's per-cell conversion: a []byte value becomes a string, everything else is kept. */
  function NormalizeCell(c: Cell): (r: Cell)
    ensures !r.Bytes?
    ensures !c.Bytes? ==> r == c
  {
    if c.Bytes? then Text(c.bytes) else c
  }

  /** Applies NormalizeCell to every cell of a row. */
  function NormalizeRow(row: seq<Cell>): (r: seq<Cell>)
    ensures |r| == |row|
    ensures forall i :: 0 <= i < |row| ==> r[i] == NormalizeCell(row[i])
  {
    seq(|row|, i requires 0 <= i < |row| => NormalizeCell(row[i]))
  }

  /** The values of the rows that scanned (database/sql Scan succeeded), in order. */
  function Scanned<T>(rows: seq<Option<T>>): (r: seq<T>)
    ensures |r| <= |rows|
  {
    if rows == [] then []
    else Scanned(rows[..|rows| - 1]) + (if rows[|rows| - 1].Some? then [rows[|rows| - 1].value] else [])
  }

  /** Every scanned value comes from a row that scanned, and no such row is lost. */
  lemma {:induction false} ScannedSpec<T>(rows: seq<Option<T>>)
    ensures forall k :: 0 <= k < |Scanned(rows)| ==> Some(Scanned(rows)[k]) in rows
    ensures forall i :: 0 <= i < |rows| && rows[i].Some? ==> rows[i].value in Scanned(rows)
    ensures (forall i :: 0 <= i < |rows| ==> rows[i].Some?) ==> |Scanned(rows)| == |rows|
  {
    if rows != [] {
      var init := rows[..|rows| - 1];
      ScannedSpec(init);
      assert forall i :: 0 <= i < |init| ==> init[i] == rows[i];
      assert forall x :: x in init ==> x in rows;
    }
  }
}
