/** parseData: the table is read row by row, and within a row cell by
    cell; cell `c` of every row is appended to column `c`, so the result is
    column-major. Header cells give their markup, data cells its leading
    integer (or NaN). */
module TableParse {
  import opened JsValues
  import opened JsParseInt

  /** A table cell, by tag, with its inner markup. */
  datatype Cell = Header(html: string) | Data(html: string)

  type Row = seq<Cell>
  type Table = seq<Row>

  /** The value a cell contributes to its column. */
  function CellValue(cell: Cell): Value {
    match cell
    case Header(html) => Str(html)
    case Data(html) =>
      match ParseLeadingInt(html)
      case Some(n) => Int(n)
      case None => NaN
  }

  /** A data cell that starts with an integer, possibly after white space,
      contributes that integer whatever follows it. */
  lemma DataCellValue(ws: string, n: int, rest: string)
    requires AllWhitespace(ws)
    requires rest == [] || !IsDigit(rest[0])
    ensures CellValue(Data(ws + DecimalString(n) + rest)) == Int(n)
  {
    var sign, d := DecimalParts(n);
    DataCellDigits(ws, sign, d, rest);
    assert ws + sign + d + rest == ws + DecimalString(n) + rest;
  }

  /** Any spelling of an integer counts, leading zeros and a plus sign
      included ("007px" gives 7, "+3" gives 3). */
  lemma DataCellDigits(ws: string, sign: string, d: string, rest: string)
    requires AllWhitespace(ws) && (sign == "" || sign == "+" || sign == "-")
    requires d != [] && AllDigits(d) && (rest == [] || !IsDigit(rest[0]))
    ensures CellValue(Data(ws + sign + d + rest)) == Int(SignedValue(sign, d))
  {
    ParseDigitRun(ws, sign, d, rest);
  }

  /** A data cell with no leading integer contributes NaN; so does an
      empty one or one of white space only. */
  lemma DataCellNaN(html: string)
    ensures CellValue(Data(html)) == NaN <==> ParseLeadingInt(html) == None
    ensures AllWhitespace(html) ==> CellValue(Data(html)) == NaN
  {
    if AllWhitespace(html) {
      ParseBlank(html);
    }
  }

  lemma DataCellExamples()
    ensures CellValue(Data("42px")) == Int(42)
    ensures CellValue(Data("foo")) == NaN
    ensures CellValue(Header("Label")) == Str("Label")
  {
    ParseExamplePixels();
    ParseExampleWord();
  }

  /** Leading zeros are read past, and an empty cell is NaN. */
  lemma DataCellSpellingExamples()
    ensures CellValue(Data("007px")) == Int(7)
    ensures CellValue(Data("")) == NaN
  {
    assert DigitsValue("007") == 7 by {
      assert "007"[..2] == "00" && "00"[..1] == "0";
    }
    DataCellDigits("", "", "007", "px");
    assert "" + "" + "007" + "px" == "007px";
    DataCellNaN("");
  }

  /** The largest number of cells in any row (0 for no rows). */
  function MaxWidth(rows: Table): nat {
    if rows == [] then 0
    else
      var w' := MaxWidth(rows[..|rows| - 1]);
      var last := |rows[|rows| - 1]|;
      if last > w' then last else w'
  }

  /** MaxWidth is the width of the widest row: no row is wider, and some
      row has exactly that width. */
  lemma {:induction false} MaxWidthSpec(rows: Table)
    ensures forall r :: 0 <= r < |rows| ==> |rows[r]| <= MaxWidth(rows)
    ensures rows == [] ==> MaxWidth(rows) == 0
    ensures rows != [] ==> exists r :: 0 <= r < |rows| && |rows[r]| == MaxWidth(rows)
  {
    if rows != [] {
      var prefix := rows[..|rows| - 1];
      MaxWidthSpec(prefix);
      assert forall r :: 0 <= r < |rows| - 1 ==> rows[r] == prefix[r];
      if |rows[|rows| - 1]| <= MaxWidth(prefix) && prefix != [] {
        var r :| 0 <= r < |prefix| && |prefix[r]| == MaxWidth(prefix);
        assert |rows[r]| == MaxWidth(rows);
      }
    }
  }

  /** Column `c`: the value of cell `c` of every row that has at least
      c+1 cells, in row order. */
  function Column(rows: Table, c: nat): (col: seq<Value>)
    ensures |col| <= |rows|
  {
    if rows == [] then []
    else
      var last := rows[|rows| - 1];
      Column(rows[..|rows| - 1], c) + (if c < |last| then [CellValue(last[c])] else [])
  }

  /** The columns parseData builds. */
  function TableColumns(rows: Table): seq<seq<Value>> {
    seq(MaxWidth(rows), c requires 0 <= c => Column(rows, c))
  }

  /** No row is wide enough to reach a column past the widest row. */
  lemma {:induction false} ColumnBeyondWidth(rows: Table, c: nat)
    requires c >= MaxWidth(rows)
    ensures Column(rows, c) == []
  {
    if rows != [] {
      ColumnBeyondWidth(rows[..|rows| - 1], c);
    }
  }

  /** The column of a prefix of the rows is a prefix of the column. */
  lemma {:induction false} ColumnOfPrefix(rows: Table, m: nat, c: nat)
    requires m <= |rows|
    ensures Column(rows[..m], c) <= Column(rows, c)
    decreases |rows|
  {
    if m < |rows| {
      assert rows[..m] == rows[..|rows| - 1][..m];
      ColumnOfPrefix(rows[..|rows| - 1], m, c);
    } else {
      assert rows[..m] == rows;
    }
  }

  /** Nothing is lost: cell `c` of row `r` is in column `c`, right after
      the entries of the rows before it. */
  lemma ColumnEntry(rows: Table, r: nat, c: nat)
    requires r < |rows| && c < |rows[r]|
    ensures |Column(rows[..r], c)| < |Column(rows, c)|
    ensures Column(rows, c)[|Column(rows[..r], c)|] == CellValue(rows[r][c])
  {
    var upTo := rows[..r + 1];
    assert upTo[..r] == rows[..r];
    assert Column(upTo, c) == Column(rows[..r], c) + [CellValue(rows[r][c])];
    ColumnOfPrefix(rows, r + 1, c);
  }

  /** The `data` setting parseData stores: `{columns: columns}`. */
  function DataObject(columns: seq<seq<Value>>): Value {
    Obj(map["columns" := List(seq(|columns|, i requires 0 <= i < |columns| => List(columns[i])))])
  }

  /** A table with no rows gives `{columns: []}`. */
  lemma EmptyTableData()
    ensures TableColumns([]) == []
    ensures DataObject(TableColumns([])) == Obj(map["columns" := List([])])
  {
    var none: seq<seq<Value>> := [];
    assert seq(|none|, i requires 0 <= i < |none| => List(none[i])) == [];
  }

  /** The two nested loops of parseData. Column `c` is created when the
      first row with a cell `c` is reached, and every cell is appended to
      the column of its index. */
  method ParseColumns(rows: Table) returns (columns: seq<seq<Value>>)
    ensures |columns| == MaxWidth(rows)
    ensures forall c :: 0 <= c < |columns| ==> columns[c] == Column(rows, c)
    ensures columns == TableColumns(rows)
  {
    columns := [];
    var r := 0;
    while r < |rows|
      invariant 0 <= r <= |rows|
      invariant |columns| == MaxWidth(rows[..r])
      invariant forall c :: 0 <= c < |columns| ==> columns[c] == Column(rows[..r], c)
    {
      var row := rows[r];
      var done := rows[..r];
      var c := 0;
      while c < |row|
        invariant 0 <= c <= |row|
        invariant |columns| == if MaxWidth(done) < c then c else MaxWidth(done)
        invariant forall k :: 0 <= k < |columns| ==>
          columns[k] == Column(done, k) + (if k < c then [CellValue(row[k])] else [])
      {
        if c == |columns| {
          ColumnBeyondWidth(done, c);
          columns := columns + [[]];
        }
        columns := columns[c := columns[c] + [CellValue(row[c])]];
        c := c + 1;
      }
      assert rows[..r + 1][..r] == done;
      r := r + 1;
    }
    assert rows[..r] == rows;
  }
}
