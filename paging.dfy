/**
 * The page walk both commit collectors share (pkg/provider/github/provider.go
 * and pkg/provider/gitlab/provider.go): pages 1, 2, … of 100 commits are
 * requested until a request fails or a page comes back short; the short
 * page still counts. A fetch is a function from page number to the page.
 */
module Paging {
  import opened Wrappers

  /** Commits requested per page. */
  const PageSize: int := 100

  /** A page after which no further page is requested. */
  predicate Terminal<T>(r: Result<seq<T>>)
  {
    r.Err? || |r.value| < PageSize
  }

  /**
   * `last` is a page number at which the walk certainly stops: a commit
   * history is finite, so some page comes back short.
   */
  predicate Ends<T>(fetch: int -> Result<seq<T>>, last: int)
  {
    last >= 1 && Terminal(fetch(last))
  }

  /**
   * The pages requested from `page` on: consecutive numbers, none but the
   * last terminal, the last one terminal.
   */
  function Requested<T>(fetch: int -> Result<seq<T>>, page: int, last: int): (pages: seq<int>)
    requires 1 <= page <= last && Terminal(fetch(last))
    ensures 1 <= |pages| <= last - page + 1
    ensures forall i :: 0 <= i < |pages| ==> pages[i] == page + i
    ensures Terminal(fetch(page + |pages| - 1))
    ensures forall p :: page <= p < page + |pages| - 1 ==> !Terminal(fetch(p))
    decreases last - page
  {
    if Terminal(fetch(page)) then [page] else [page] + Requested(fetch, page + 1, last)
  }

  /**
   * One more page requested: if it is terminal, the pages asked so far are
   * all there are; otherwise the request for the next page follows.
   */
  lemma RequestedStep<T>(fetch: int -> Result<seq<T>>, page: int, last: int, asked: seq<int>)
    requires 1 <= page <= last && Terminal(fetch(last))
    requires Requested(fetch, 1, last) == asked + Requested(fetch, page, last)
    ensures Terminal(fetch(page)) ==> Requested(fetch, 1, last) == asked + [page]
    ensures !Terminal(fetch(page)) ==>
      page < last && Requested(fetch, 1, last) == (asked + [page]) + Requested(fetch, page + 1, last)
  {
    if !Terminal(fetch(page)) {
      assert asked + ([page] + Requested(fetch, page + 1, last)) == (asked + [page]) + Requested(fetch, page + 1, last);
    }
  }

  /** The commits of the pages requested from `page` on, or the first error. */
  function Walk<T>(fetch: int -> Result<seq<T>>, page: int, last: int): (r: Result<seq<T>>)
    requires 1 <= page <= last && Terminal(fetch(last))
    decreases last - page
  {
    var here := fetch(page);
    if here.Err? then Err(here.error)
    else if |here.value| < PageSize then Ok(here.value)
    else
      var rest := Walk(fetch, page + 1, last);
      if rest.Err? then rest else Ok(here.value + rest.value)
  }

  /** Commits gathered so far in front of what the rest of the walk yields. */
  function Prepend<T>(before: seq<T>, r: Result<seq<T>>): Result<seq<T>>
  {
    if r.Err? then r else Ok(before + r.value)
  }

  /** One more page read: the walk from `page` starts with that page's commits. */
  lemma WalkStep<T>(fetch: int -> Result<seq<T>>, page: int, last: int, before: seq<T>)
    requires 1 <= page <= last && Terminal(fetch(last)) && fetch(page).Ok?
    ensures |fetch(page).value| < PageSize ==>
      Prepend(before, Walk(fetch, page, last)) == Ok(before + fetch(page).value)
    ensures |fetch(page).value| >= PageSize ==>
      page < last && Prepend(before, Walk(fetch, page, last)) == Prepend(before + fetch(page).value, Walk(fetch, page + 1, last))
  {
    var here := fetch(page).value;
    if |here| >= PageSize {
      var rest := Walk(fetch, page + 1, last);
      if rest.Ok? {
        assert before + (here + rest.value) == before + here + rest.value;
      }
    }
  }

  /** The walk fails exactly when its last requested page fails, with that error. */
  lemma {:induction false} WalkFailsAtLastPage<T>(fetch: int -> Result<seq<T>>, page: int, last: int)
    requires 1 <= page <= last && Terminal(fetch(last))
    ensures var pages := Requested(fetch, page, last);
      var final := fetch(pages[|pages| - 1]);
      Walk(fetch, page, last).Err? <==> final.Err?
    ensures var pages := Requested(fetch, page, last);
      var final := fetch(pages[|pages| - 1]);
      final.Err? ==> Walk(fetch, page, last) == Err(final.error)
    decreases last - page
  {
    if !Terminal(fetch(page)) {
      WalkFailsAtLastPage(fetch, page + 1, last);
    }
  }

  /** Which bound is used does not matter: the walk stops at the first terminal page. */
  lemma {:induction false} WalkIgnoresBound<T>(fetch: int -> Result<seq<T>>, page: int, last: int, last': int)
    requires 1 <= page <= last && Terminal(fetch(last))
    requires page <= last' && Terminal(fetch(last'))
    ensures Walk(fetch, page, last) == Walk(fetch, page, last')
    ensures Requested(fetch, page, last) == Requested(fetch, page, last')
    decreases last - page
  {
    if !Terminal(fetch(page)) {
      WalkIgnoresBound(fetch, page + 1, last, last');
    }
  }
}
