/** The page arithmetic every paginated query reports: `page = skip // limit
  * + 1`, `total_pages = (total + limit - 1) // limit`, and for the
  * cross-conversation query `has_more` and `next_skip`. All operands are
  * non-negative, so Python's floor division and Dafny's agree. */
module Pagination {
  import opened Wrappers

  function Page(skip: nat, limit: nat): (p: nat)
    requires limit > 0
    ensures p >= 1
    ensures (p - 1) * limit <= skip < p * limit
  {
    skip / limit + 1
  }

  function TotalPages(total: nat, limit: nat): (n: nat)
    requires limit > 0
    ensures n * limit >= total
    ensures n == 0 || (n - 1) * limit < total
  {
    (total + limit - 1) / limit
  }

  /** Multiplying by a positive factor keeps a strict order. */
  lemma MulStrict(a: int, b: int, l: int)
    requires l > 0 && a < b
    ensures a * l < b * l
  {
    assert b * l - a * l == (b - a) * l;
  }

  /** Comparing multiples of a positive factor compares the multipliers. */
  lemma MulCancel(a: int, b: int, l: int)
    requires l > 0 && a * l <= b * l
    ensures a <= b
  {
    if b < a {
      MulStrict(b, a, l);
    }
  }

  /** A strict comparison of multiples of a positive factor is a strict
    * comparison of the multipliers. */
  lemma MulCancelStrict(a: int, b: int, l: int)
    requires l > 0 && a * l < b * l
    ensures a < b
  {
    if b < a {
      MulStrict(b, a, l);
    }
  }

  /** `total_pages` is the ceiling of total / limit: the one page count that
    * holds every item without an empty last page; it is 0 exactly when there
    * is nothing. */
  lemma TotalPagesIsCeiling(total: nat, limit: nat, n: nat)
    requires limit > 0
    requires n * limit >= total && (n == 0 || (n - 1) * limit < total)
    ensures TotalPages(total, limit) == n
    ensures TotalPages(total, limit) == 0 <==> total == 0
  {
    var t := TotalPages(total, limit);
    if t > 0 {
      MulCancel(t - 1, n, limit);
    }
    if n > 0 {
      MulCancel(n - 1, t, limit);
    }
  }

  /** `has_more`: the window `skip .. skip + limit` stops short of the total. */
  predicate HasMore(skip: nat, limit: nat, total: nat) {
    skip + limit < total
  }

  /** `next_skip`: where the next window starts, when there is one. */
  function NextSkip(skip: nat, limit: nat, total: nat): (r: Option<nat>)
    ensures r.Some? <==> HasMore(skip, limit, total)
    ensures r.Some? ==> r.value == skip + limit && r.value < total
  {
    if skip + limit < total then Some(skip + limit) else None
  }

  /** Following `next_skip` from 0 visits the page numbers 1, 2, 3, ... and
    * stays within the reported number of pages. */
  lemma NextSkipPages(k: nat, limit: nat, total: nat)
    requires limit > 0
    requires NextSkip(k * limit, limit, total).Some?
    ensures Page(k * limit, limit) == k + 1
    ensures Page(NextSkip(k * limit, limit, total).value, limit) == k + 2
    ensures k + 2 <= TotalPages(total, limit)
  {
    var l := limit;
    var p := Page(k * l, l);
    MulCancel(p - 1, k, l);
    MulCancelStrict(k, p, l);
    var s := k * l + l;
    assert s == (k + 1) * l;
    var q := Page(s, l);
    MulCancel(q - 1, k + 1, l);
    MulCancelStrict(k + 1, q, l);
    var n := TotalPages(total, l);
    MulCancelStrict(k + 1, n, l);
  }

  /** 45 messages at 20 a page from skip 40: page 3 of 3, nothing more. */
  lemma Example45()
    ensures Page(40, 20) == 3 && TotalPages(45, 20) == 3
    ensures !HasMore(40, 20, 45) && NextSkip(40, 20, 45) == None
    ensures HasMore(20, 20, 45) && NextSkip(20, 20, 45) == Some(40)
  {
  }
}
