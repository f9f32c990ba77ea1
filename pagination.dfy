/** The LIMIT/OFFSET arithmetic of the paginated read. Pages are numbered
    from 1; nothing bounds `page` or `pageSize`. */
module Pagination {

  /** Rows per page: the page size itself. */
  function Limit(page: int, pageSize: int): int
  {
    pageSize
  }

  /** Rows skipped before the page: all rows of the pages before it. */
  function Offset(page: int, pageSize: int): int
  {
    (page - 1) * pageSize
  }

  /** Row position `j` (0-based, in the backend's order) falls in the window
      of the page: at or after its offset and before its offset plus limit. */
  predicate OnPage(j: int, page: int, pageSize: int)
  {
    Offset(page, pageSize) <= j < Offset(page, pageSize) + Limit(page, pageSize)
  }

  /** The first page starts at the first row, and each page starts where the
      one before it ends. */
  lemma PagesAbut(page: int, pageSize: int)
    ensures Offset(1, pageSize) == 0
    ensures Offset(page + 1, pageSize) == Offset(page, pageSize) + Limit(page, pageSize)
  {
  }

  /** For a positive page size, a page's window ends no later than any later
      page's window starts: pages never overlap. */
  lemma {:induction false} PagesDisjoint(p: int, q: int, pageSize: int)
    requires pageSize > 0 && p < q
    ensures Offset(p, pageSize) + Limit(p, pageSize) <= Offset(q, pageSize)
    decreases q - p
  {
    PagesAbut(p, pageSize);
    if p + 1 < q {
      PagesDisjoint(p + 1, q, pageSize);
      PagesAbut(p + 1, pageSize);
    }
  }

  /** For a positive page size, every row position from 0 on lies on exactly
      one page with a positive number: page `j / pageSize + 1`. */
  lemma PageOfRow(j: int, pageSize: int)
    requires pageSize > 0 && j >= 0
    ensures j / pageSize + 1 >= 1
    ensures OnPage(j, j / pageSize + 1, pageSize)
    ensures forall p :: OnPage(j, p, pageSize) ==> p == j / pageSize + 1
  {
    var p := j / pageSize + 1;
    assert Offset(p, pageSize) == (j / pageSize) * pageSize;
    forall q | OnPage(j, q, pageSize)
      ensures q == p
    {
      if q < p {
        PagesDisjoint(q, p, pageSize);
      } else if q > p {
        PagesDisjoint(p, q, pageSize);
      }
    }
  }

  /** Without a bound on `page`, a page number below 1 with a positive page
      size asks for a negative offset. */
  lemma NegativeOffsetBelowFirstPage(page: int, pageSize: int)
    requires page < 1 && pageSize > 0
    ensures Offset(page, pageSize) < 0
  {
    assert (page - 1) * pageSize <= -pageSize;
  }
}
