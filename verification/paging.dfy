/**
 * Offset pagination as the user and company listings do it: `skip` rows
 * are passed over, at most `take` are returned, and the reply carries
 * `page = floor(skip / take) + 1` and `totalPages = ceil(total / take)`.
 * A zero `take` makes both quotients non-finite numbers; they are `None`.
 */
module Paging {
  import opened Base

  const DefaultSkip: nat := 0
  const DefaultTake: nat := 10

  /** The optional `skip`/`take` of a listing request; absent means the default. */
  datatype PageParams = PageParams(skip: Option<nat>, take: Option<nat>)

  function SkipOf(p: PageParams): (n: nat)
    ensures p.skip.Some? ==> n == p.skip.value
    ensures p.skip.None? ==> n == DefaultSkip
  {
    p.skip.GetOr(DefaultSkip)
  }

  function TakeOf(p: PageParams): (n: nat)
    ensures p.take.Some? ==> n == p.take.value
    ensures p.take.None? ==> n == DefaultTake
  {
    p.take.GetOr(DefaultTake)
  }

  /** The `meta` block of a listing reply. */
  datatype Meta = Meta(total: nat, page: Option<nat>, limit: nat, totalPages: Option<nat>)

  /**
   * The page is the one-based index of the block of `take` rows that holds
   * row `skip`; the page count is the least number of such blocks covering
   * `total` rows.
   */
  function PageMeta(total: nat, skip: nat, take: nat): (m: Meta)
    ensures m.total == total && m.limit == take
    ensures m.page.None? <==> take == 0
    ensures m.totalPages.None? <==> take == 0
    ensures m.page.Some? ==> 1 <= m.page.value && (m.page.value - 1) * take <= skip < m.page.value * take
    ensures m.totalPages.Some? ==>
      && total <= m.totalPages.value * take
      && (m.totalPages.value == 0 || (m.totalPages.value - 1) * take < total)
  {
    if take == 0 then Meta(total, None, take, None)
    else
      var page := skip / take + 1;
      var pages := (total + take - 1) / take;
      assert (page - 1) * take <= skip < page * take by {
        DivisionBounds(skip, take);
      }
      assert total <= pages * take && (pages == 0 || (pages - 1) * take < total) by {
        DivisionBounds(total + take - 1, take);
      }
      Meta(total, Some(page), take, Some(pages))
  }

  lemma DivisionBounds(a: nat, b: nat)
    requires b > 0
    ensures (a / b) * b <= a < (a / b + 1) * b
  {
  }

  /** The rows a request with `skip` and `take` returns. */
  function PageOf<T>(s: seq<T>, skip: nat, take: nat): (r: seq<T>)
    ensures |r| == if skip >= |s| then 0 else if take < |s| - skip then take else |s| - skip
    ensures forall i :: 0 <= i < |r| ==> r[i] == s[skip + i]
  {
    Take(Drop(s, skip), take)
  }

  /**
   * Every row lies on the page its block index names, that page is within
   * the page count, and it sits there at its offset within the block.
   */
  lemma ItemOnItsPage<T>(s: seq<T>, take: nat, i: nat)
    requires take > 0 && i < |s|
    ensures i % take < |PageOf(s, (i / take) * take, take)|
    ensures PageOf(s, (i / take) * take, take)[i % take] == s[i]
    ensures PageMeta(|s|, (i / take) * take, take).page == Some(i / take + 1)
    ensures i / take + 1 <= PageMeta(|s|, (i / take) * take, take).totalPages.value
  {
    var q := i / take;
    var skip := q * take;
    DivisionBounds(i, take);
    assert skip + i % take == i;
    QuotientUnique(skip, take, q);
    assert q * take + take <= |s| + take - 1;
    QuotientAtLeast(|s| + take - 1, take, q + 1);
  }

  /** A block count that fits below `a` is at most the quotient. */
  lemma QuotientAtLeast(a: nat, b: nat, q: nat)
    requires b > 0 && q * b <= a
    ensures q <= a / b
  {
    DivisionBounds(a, b);
    if a / b < q {
      MultiplyMonotone(a / b + 1, q, b);
    }
  }

  /** The quotient is the only `q` whose block `[q * b, (q + 1) * b)` holds `a`. */
  lemma QuotientUnique(a: nat, b: nat, q: nat)
    requires b > 0 && q * b <= a < q * b + b
    ensures a / b == q
  {
    DivisionBounds(a, b);
    var d := a / b;
    if d < q {
      MultiplyMonotone(d + 1, q, b);
    } else if d > q {
      MultiplyMonotone(q + 1, d, b);
    }
  }

  lemma MultiplyMonotone(a: nat, b: nat, c: nat)
    requires a <= b
    ensures a * c <= b * c
  {
  }

  /** A non-empty listing's last page, by the page count, is not empty. */
  lemma LastPageNotEmpty<T>(s: seq<T>, take: nat)
    requires take > 0 && s != []
    ensures PageMeta(|s|, 0, take).totalPages.value >= 1
    ensures |PageOf(s, (PageMeta(|s|, 0, take).totalPages.value - 1) * take, take)| > 0
  {
  }
}
