/** Pages of a query's rows, as each database dialect is asked for them. */
module Paging {
  import opened Numbers

  datatype Dialect = Mysql | Hsqldb | Postgresql | Oracle

  const DEFAULT_CURRENT_PAGE := 1

  /** LIMIT with an offset: size rows from the offset on, as far as there are any. */
  function Limited<T>(rows: seq<T>, offset: nat, size: nat): seq<T> {
    if offset >= |rows| then [] else rows[offset..Least(offset + size, |rows|)]
  }

  /** rownum <= end, and of these row_id > start, counting from one. */
  function Numbered<T>(rows: seq<T>, start: nat, end: int): seq<T> {
    if Least(end, |rows|) <= start then [] else rows[start..Least(end, |rows|)]
  }

  class Page {
    var pageNum: int
    var pageSize: int
    var total: int
    var pages: int
    var startRow: int
    var endRow: int

    /** Start and end row are those of the page number. */
    ghost predicate Bounded()
      reads this
    {
      startRow == (if pageNum > 0 then (pageNum - 1) * pageSize else 0) && endRow == pageNum * pageSize
    }

    constructor (pageNum: int, pageSize: int, total: int)
      ensures this.pageNum == pageNum && this.pageSize == pageSize && this.total == total && Bounded()
    {
      this.pageNum, this.pageSize, this.total, pages := pageNum, pageSize, total, 0;
      startRow := if pageNum > 0 then (pageNum - 1) * pageSize else 0;
      endRow := pageNum * pageSize;
    }

    /** A later page number leaves the rows behind: they stay those of the page the object was made for. */
    method SetPageNum(pageNum: int)
      modifies this`pageNum
      ensures this.pageNum == if pageNum == 0 then DEFAULT_CURRENT_PAGE else pageNum
      ensures old(Bounded()) && pageSize > 0 ==> (Bounded() <==> this.pageNum == old(this.pageNum))
    {
      this.pageNum := if pageNum == 0 then DEFAULT_CURRENT_PAGE else pageNum;
      if pageSize > 0 {
        SameProduct(this.pageNum, old(this.pageNum), pageSize);
      }
    }

    /** The fewest pages that hold all rows: the last is not empty, and nothing is left over. */
    method SetTotal(total: nat)
      requires pageSize >= 1
      modifies this`total, this`pages
      ensures this.total == total && 0 <= pages
      ensures (pages - 1) * pageSize < total <= pages * pageSize || (total == 0 && pages == 0)
    {
      this.total := total;
      pages := total / pageSize + if total % pageSize == 0 then 0 else 1;
      PagesHold(total, pageSize);
    }

    /** The rows the page's SQL selects: rows in a row from startRow on and, if the page's bounds are a
        page size apart, as many as are left of one page, whatever the dialect. Oracle stops at endRow,
        wherever that is. */
    method PageRows<T>(dialect: Dialect, rows: seq<T>) returns (selected: seq<T>)
      requires startRow >= 0 && pageSize >= 0
      ensures forall i :: 0 <= i < |selected| ==> startRow + i < |rows| && selected[i] == rows[startRow + i]
      ensures dialect != Oracle || endRow == startRow + pageSize ==>
        |selected| == if startRow >= |rows| then 0 else Least(pageSize, |rows| - startRow)
      ensures dialect == Oracle ==>
        |selected| == if startRow >= Least(endRow, |rows|) then 0 else Least(endRow, |rows|) - startRow
      ensures Bounded() ==> selected == PageOf(dialect, rows, pageNum, pageSize)
    {
      match dialect
      case Mysql => selected := Limited(rows, startRow, pageSize);
      case Hsqldb => selected := Limited(rows, startRow, pageSize);
      case Postgresql => selected := Limited(rows, startRow, pageSize);
      case Oracle => selected := Numbered(rows, startRow, endRow);
    }
  }

  function Selected<T>(dialect: Dialect, rows: seq<T>, startRow: nat, endRow: int, pageSize: nat): seq<T> {
    if dialect.Oracle? then Numbered(rows, startRow, endRow) else Limited(rows, startRow, pageSize)
  }

  lemma SameProduct(a: int, b: int, size: int)
    requires size > 0
    ensures a * size == b * size <==> a == b
  {
    assert (a - b) * size == a * size - b * size;
  }

  lemma PagesHold(total: nat, size: nat)
    requires size >= 1
    ensures var pages := total / size + if total % size == 0 then 0 else 1;
      ((pages - 1) * size < total <= pages * size || (total == 0 && pages == 0)) && pages >= 0
  {
    var q, r := total / size, total % size;
    assert total == q * size + r;
    assert (q - 1) * size == q * size - size && (q + 1) * size == q * size + size;
  }

  /** What a page of a number and size selects. */
  function PageOf<T>(dialect: Dialect, rows: seq<T>, pageNum: int, size: nat): seq<T> {
    if pageNum > 0 then
      NonNegative(pageNum - 1, size);
      Selected(dialect, rows, (pageNum - 1) * size, pageNum * size, size)
    else Selected(dialect, rows, 0, pageNum * size, size)
  }

  lemma NonNegative(a: nat, b: nat)
    ensures a * b >= 0
  {}

  /** All dialects select the same rows exactly when the page number is positive, or there is
      nothing to select from. */
  lemma DialectsAgreeExactlyWhen<T>(rows: seq<T>, pageNum: int, size: nat)
    requires size >= 1
    ensures PageOf(Oracle, rows, pageNum, size) == PageOf(Mysql, rows, pageNum, size) <==> pageNum >= 1 || rows == []
    ensures PageOf(Hsqldb, rows, pageNum, size) == PageOf(Mysql, rows, pageNum, size)
    ensures PageOf(Postgresql, rows, pageNum, size) == PageOf(Mysql, rows, pageNum, size)
  {
    if pageNum >= 1 {
      NonNegative(pageNum - 1, size);
      assert pageNum * size == (pageNum - 1) * size + size;
    } else {
      NonNegative(-pageNum, size);
      assert pageNum * size == -((-pageNum) * size);
      assert PageOf(Oracle, rows, pageNum, size) == [];
      if rows != [] {
        assert |PageOf(Mysql, rows, pageNum, size)| == Least(size, |rows|);
      }
    }
  }

  /** Pages 1 to n, one after the other. */
  function FirstPages<T>(dialect: Dialect, rows: seq<T>, n: nat, size: nat): seq<T> {
    if n == 0 then [] else FirstPages(dialect, rows, n - 1, size) + PageOf(dialect, rows, n, size)
  }

  lemma {:induction false} FirstPagesArePrefix<T>(dialect: Dialect, rows: seq<T>, n: nat, size: nat)
    requires size >= 1
    ensures n * size >= 0 && FirstPages(dialect, rows, n, size) == rows[..Least(n * size, |rows|)]
  {
    if n > 0 {
      FirstPagesArePrefix(dialect, rows, n - 1, size);
      DialectsAgreeExactlyWhen(rows, n, size);
      assert n * size == (n - 1) * size + size;
      var page := PageOf(Mysql, rows, n, size);
      assert page == Limited(rows, (n - 1) * size, size);
    }
  }

  /** With as many pages as setTotal computes, the pages make up all the rows, and none is empty. */
  lemma PagesMakeWhole<T>(dialect: Dialect, rows: seq<T>, pages: nat, size: nat, n: nat)
    requires size >= 1 && ((pages - 1) * size < |rows| <= pages * size || (rows == [] && pages == 0))
    ensures FirstPages(dialect, rows, pages, size) == rows
    ensures 1 <= n <= pages ==> PageOf(dialect, rows, n, size) != []
  {
    FirstPagesArePrefix(dialect, rows, pages, size);
    if 1 <= n <= pages {
      DialectsAgreeExactlyWhen(rows, n, size);
      NonNegative(n - 1, size);
      assert (pages - 1) * size == (n - 1) * size + (pages - n) * size;
      NonNegative(pages - n, size);
      assert PageOf(Mysql, rows, n, size) == Limited(rows, (n - 1) * size, size);
    }
  }
}
