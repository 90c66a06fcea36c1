/**
 * The pagination arithmetic of the task list (src/routes/tasks.js, the
 * `page`, `limit`, `skip` and `pages` computations).
 */
module Pagination {
  import opened Values

  const DefaultPage: nat := 1
  const DefaultLimit: nat := 10

  /**
   * `parseInt(x, 10) || default`: `None` stands for a parameter that is
   * missing or does not parse (NaN); a parsed 0 is falsy as well.
   */
  function OrDefault(parsed: Option<nat>, default: nat): (n: nat)
    requires default >= 1
    ensures n >= 1
    ensures parsed.Some? && parsed.value != 0 ==> n == parsed.value
    ensures parsed.None? || parsed.value == 0 ==> n == default
  {
    match parsed
    case Some(v) => if v != 0 then v else default
    case None => default
  }

  /** The page number the handler uses. */
  function PageNumber(parsed: Option<nat>): (page: nat)
    ensures page >= 1
    ensures parsed.None? || parsed.value == 0 ==> page == 1
    ensures parsed.Some? && parsed.value != 0 ==> page == parsed.value
  {
    OrDefault(parsed, DefaultPage)
  }

  /** The page size the handler uses. */
  function PageSize(parsed: Option<nat>): (limit: nat)
    ensures limit >= 1
    ensures parsed.None? || parsed.value == 0 ==> limit == 10
    ensures parsed.Some? && parsed.value != 0 ==> limit == parsed.value
  {
    OrDefault(parsed, DefaultLimit)
  }

  /** How many matching records come before the first one of `page`; page `page + 1` starts where `page` ends. */
  function Skip(page: nat, limit: nat): (skip: nat)
    requires page >= 1
    ensures page == 1 ==> skip == 0
    ensures skip + limit == page * limit
  {
    (page - 1) * limit
  }

  /** `Math.ceil(total / limit)` for a positive limit. */
  function PageCount(total: nat, limit: nat): (pages: nat)
    requires limit >= 1
    ensures total <= pages * limit
    ensures pages > 0 ==> (pages - 1) * limit < total
    ensures pages == 0 <==> total == 0
  {
    var pages := (total + limit - 1) / limit;
    CeilBounds(total, limit, pages);
    pages
  }

  /** Division bounds behind PageCount, kept apart so that they are proved once. */
  lemma CeilBounds(total: nat, limit: nat, pages: nat)
    requires limit >= 1
    requires pages == (total + limit - 1) / limit
    ensures total <= pages * limit
    ensures pages > 0 ==> (pages - 1) * limit < total
  {
  }

  /** The records `.skip(skip).limit(limit)` keeps of an already ordered sequence. */
  function Window<T>(s: seq<T>, skip: nat, limit: nat): (w: seq<T>)
    ensures |w| <= limit
    ensures skip >= |s| ==> w == []
    ensures skip < |s| ==> |w| == if skip + limit <= |s| then limit else |s| - skip
    ensures forall i :: 0 <= i < |w| ==> skip + i < |s| && w[i] == s[skip + i]
  {
    if skip >= |s| then []
    else if skip + limit <= |s| then s[skip..skip + limit]
    else s[skip..]
  }

  /**
   * Every record of an ordered result lies on exactly the page its index
   * names, and that page is one of the pages 1..PageCount the reply
   * announces.
   */
  lemma {:induction false} EveryRecordOnItsPage<T>(s: seq<T>, limit: nat, k: nat)
    requires limit >= 1
    requires k < |s|
    ensures 1 <= k / limit + 1 <= PageCount(|s|, limit)
    ensures Skip(k / limit + 1, limit) <= k < Skip(k / limit + 1, limit) + limit
    ensures Window(s, Skip(k / limit + 1, limit), limit)[k % limit] == s[k]
  {
    var p := k / limit;
    var pages := PageCount(|s|, limit);
    assert k == p * limit + k % limit;
    assert Skip(p + 1, limit) == p * limit;
    if pages < p + 1 {
      // pages * limit <= p * limit <= k < |s| contradicts |s| <= pages * limit
      MulMonotone(pages, p, limit);
      assert false;
    }
  }

  lemma MulMonotone(a: nat, b: nat, c: nat)
    requires a <= b
    ensures a * c <= b * c
  {
  }

  /** A page past the last one is empty, whatever the total. */
  lemma {:induction false} PagePastDataIsEmpty<T>(s: seq<T>, page: nat, limit: nat)
    requires limit >= 1
    requires page > PageCount(|s|, limit)
    ensures Window(s, Skip(page, limit), limit) == []
  {
    // |s| <= pages * limit <= (page - 1) * limit, the first record page `page` would hold
    MulMonotone(PageCount(|s|, limit), page - 1, limit);
  }
}
