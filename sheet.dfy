/** The worksheet that `get_artists_from_excel` scans, and what that scan
    keeps: the stripped text of every string cell of column B, rows 2 to 76,
    that is not blank. */
module Sheet {
  import PyText

  /** The value of one cell: a string, or anything else openpyxl can hold
      (a number, a date, a boolean). The workbook is loaded without
      `data_only`, so a formula cell holds its formula text and is `Text`. */
  datatype Cell = Text(s: string) | NonText

  /** Column B of the active worksheet: row number to cell value; a row
      missing from the map is an empty cell (`None`). */
  type Column = map<int, Cell>

  /** What `openpyxl.load_workbook` gives: `Unreadable` when it raises (the
      file is missing or is not a workbook), after which the scan returns
      nothing; otherwise the loaded column. */
  datatype Workbook = Unreadable | Loaded(columnB: Column)

  /** First and last row scanned; row 1 holds the header. */
  const FirstRow: int := 2
  const LastRow: int := 76

  /** `cell_value and isinstance(cell_value, str)` and a non-empty strip. */
  predicate IsArtistCell(col: Column, row: int)
  {
    row in col && col[row].Text? && PyText.Strip(col[row].s) != ""
  }

  function ArtistAt(col: Column, row: int): string
    requires IsArtistCell(col, row)
  {
    PyText.Strip(col[row].s)
  }

  /** The rows in `lo..hi-1` whose cells hold an artist, in increasing order. */
  function ArtistRows(col: Column, lo: int, hi: int): seq<int>
    decreases hi - lo
  {
    if hi <= lo then []
    else ArtistRows(col, lo, hi - 1) + (if IsArtistCell(col, hi - 1) then [hi - 1] else [])
  }

  /** The artists of rows `lo..hi-1`, appended row by row. */
  function ArtistsIn(col: Column, lo: int, hi: int): seq<string>
    decreases hi - lo
  {
    if hi <= lo then []
    else ArtistsIn(col, lo, hi - 1) + (if IsArtistCell(col, hi - 1) then [ArtistAt(col, hi - 1)] else [])
  }

  /** The kept rows lie in the range, hold artists, increase, include every
      artist row of the range, and so number at most the range size. */
  lemma {:induction false} ArtistRowsSpec(col: Column, lo: int, hi: int)
    ensures var rows := ArtistRows(col, lo, hi);
      (forall k :: 0 <= k < |rows| ==> lo <= rows[k] < hi && IsArtistCell(col, rows[k])) &&
      (forall k, m :: 0 <= k < m < |rows| ==> rows[k] < rows[m]) &&
      (forall r :: lo <= r < hi && IsArtistCell(col, r) ==> r in rows) &&
      |rows| <= (if hi < lo then 0 else hi - lo)
    decreases hi - lo
  {
    if hi > lo {
      ArtistRowsSpec(col, lo, hi - 1);
    }
  }

  /** Name `k` is the stripped text of kept row `k`. */
  lemma {:induction false} ArtistsInSpec(col: Column, lo: int, hi: int)
    ensures var names, rows := ArtistsIn(col, lo, hi), ArtistRows(col, lo, hi);
      |names| == |rows| &&
      forall k :: 0 <= k < |rows| ==> IsArtistCell(col, rows[k]) && names[k] == ArtistAt(col, rows[k])
    decreases hi - lo
  {
    ArtistRowsSpec(col, lo, hi);
    if hi > lo {
      ArtistsInSpec(col, lo, hi - 1);
    }
  }

  /** What `get_artists_from_excel` returns. */
  function Artists(book: Workbook): (names: seq<string>)
    ensures book.Unreadable? ==> names == []
    ensures |names| <= LastRow - FirstRow + 1
    ensures forall k :: 0 <= k < |names| ==> names[k] != ""
  {
    match book
    case Unreadable => []
    case Loaded(col) =>
      ArtistRowsSpec(col, FirstRow, LastRow + 1);
      ArtistsInSpec(col, FirstRow, LastRow + 1);
      ArtistsIn(col, FirstRow, LastRow + 1)
  }

  /** Every name the scan returns comes from one row of B2:B76, names follow
      row order, every row with a non-blank string shows up, and so there are
      at most 75 names. */
  lemma ArtistsByRow(col: Column)
    ensures var names, rows := Artists(Loaded(col)), ArtistRows(col, FirstRow, LastRow + 1);
      |names| == |rows| <= 75 &&
      (forall k :: 0 <= k < |rows| ==> FirstRow <= rows[k] <= LastRow && IsArtistCell(col, rows[k]) && names[k] == ArtistAt(col, rows[k])) &&
      (forall k, m :: 0 <= k < m < |rows| ==> rows[k] < rows[m]) &&
      (forall r :: FirstRow <= r <= LastRow && IsArtistCell(col, r) <==> r in rows)
  {
    ArtistRowsSpec(col, FirstRow, LastRow + 1);
    ArtistsInSpec(col, FirstRow, LastRow + 1);
  }

  /** Each name is already stripped and non-empty, and no name has leading or
      trailing whitespace. */
  lemma ArtistsStripped(book: Workbook)
    ensures forall a :: a in Artists(book) ==>
      a != "" && PyText.Strip(a) == a && !PyText.IsSpace(a[0]) && !PyText.IsSpace(a[|a| - 1])
  {
    if book.Loaded? {
      var col := book.columnB;
      var names, rows := Artists(book), ArtistRows(col, FirstRow, LastRow + 1);
      ArtistRowsSpec(col, FirstRow, LastRow + 1);
      ArtistsInSpec(col, FirstRow, LastRow + 1);
      forall a | a in names
        ensures a != "" && PyText.Strip(a) == a && !PyText.IsSpace(a[0]) && !PyText.IsSpace(a[|a| - 1])
      {
        var k :| 0 <= k < |names| && names[k] == a;
        PyText.StripIdempotent(col[rows[k]].s);
        PyText.StripSpec(col[rows[k]].s);
      }
    }
  }

  /** Cells that are empty, whitespace only or not strings contribute nothing:
      the scan depends only on the artist cells and their stripped text. */
  lemma OnlyArtistCellsMatter(c1: Column, c2: Column, lo: int, hi: int)
    requires forall r :: lo <= r < hi ==>
      (IsArtistCell(c1, r) <==> IsArtistCell(c2, r)) &&
      (IsArtistCell(c1, r) ==> ArtistAt(c1, r) == ArtistAt(c2, r))
    ensures ArtistsIn(c1, lo, hi) == ArtistsIn(c2, lo, hi)
    decreases hi - lo
  {
    if hi > lo {
      OnlyArtistCellsMatter(c1, c2, lo, hi - 1);
    }
  }
}
