/**
 * The single-item paginator of paginator/pag.py: every page holds exactly
 * one element of the sequence, pages are numbered from 1.
 */
module Pagination {
  import opened Wrappers

  /** The three ways construction fails, in the order they are checked. */
  datatype PageError =
    | EmptyArray    // ValueError
    | PageBelowOne  // ValueError
    | PageMissing   // IndexError

  function Message(e: PageError): string
  {
    match e
    case EmptyArray => "Array cannot be empty"
    case PageBelowOne => "Page must be greater than 0"
    case PageMissing => "This page doesn't exist"
  }

  /**
   * A constructed paginator: the sequence, the current page and the number of
   * pages, all fixed at construction. `has_next` and `has_previous` return a
   * page number or `False`; `False` is `None` here. The page numbers they
   * return are at least 1, so Python's truth test on them agrees with `Some?`.
   */
  datatype Paginator<T> = Paginator(items: seq<T>, page: int, pages: int)
  {
    predicate Valid()
    {
      |items| > 0 && pages == |items| && 1 <= page <= pages
    }

    /** The element shown on the current page. */
    function GetItem(): (x: T)
      requires Valid()
      ensures x == items[page - 1]
      ensures x in items
    {
      items[page - 1]
    }

    /** The next page number, or `None` on the last page. */
    function HasNext(): (r: Option<int>)
      requires Valid()
      ensures r.None? <==> page == pages
      ensures r.Some? ==> r.value == page + 1 && 2 <= r.value <= pages
    {
      if page < pages then Some(page + 1) else None
    }

    /** The previous page number, or `None` on the first page. */
    function HasPrevious(): (r: Option<int>)
      requires Valid()
      ensures r.None? <==> page == 1
      ensures r.Some? ==> r.value == page - 1 && 1 <= r.value < pages
    {
      if page > 1 then Some(page - 1) else None
    }
  }

  /**
   * `Paginator(array, page)`: rejects an empty sequence first, then a page
   * below 1, then a page past the end.
   */
  function NewPaginator<T>(items: seq<T>, page: int): (r: Result<Paginator<T>, PageError>)
    ensures |items| == 0 ==> r == Failure(EmptyArray)
    ensures |items| > 0 && page < 1 ==> r == Failure(PageBelowOne)
    ensures |items| > 0 && page > |items| ==> r == Failure(PageMissing)
    ensures r.Success? <==> 1 <= page <= |items|
    ensures r.Success? ==> r.value.Valid() && r.value.items == items && r.value.page == page
    ensures r.Success? ==> r.value.pages == |items|
  {
    if |items| == 0 then Failure(EmptyArray)
    else if page < 1 then Failure(PageBelowOne)
    else if |items| < page then Failure(PageMissing)
    else Success(Paginator(items, page, |items|))
  }

  /**
   * Following `has_next` and then `has_previous` comes back to the same page,
   * and the page reached shows the element after the current one.
   */
  lemma NextThenPrevious<T>(p: Paginator<T>)
    requires p.Valid() && p.HasNext().Some?
    ensures NewPaginator(p.items, p.HasNext().value).Success?
    ensures var q := NewPaginator(p.items, p.HasNext().value).value;
      q.HasPrevious() == Some(p.page) && q.GetItem() == p.items[p.page]
  {
  }

  /** A one-element sequence has neither a next nor a previous page. */
  lemma SingleItemHasNeither<T>(x: T)
    ensures NewPaginator([x], 1).Success?
    ensures NewPaginator([x], 1).value.HasNext().None?
    ensures NewPaginator([x], 1).value.HasPrevious().None?
  {
  }

  /**
   * Starting on page 1 and taking `has_next` k times reaches page k + 1 and
   * shows element k: the pages enumerate the sequence in order.
   */
  function Walk<T>(p: Paginator<T>, k: nat): (q: Paginator<T>)
    requires p.Valid() && p.page + k <= p.pages
    ensures q.Valid() && q.items == p.items && q.page == p.page + k
    decreases k
  {
    if k == 0 then p
    else
      var n := p.HasNext().value;
      Walk(NewPaginator(p.items, n).value, k - 1)
  }

  lemma {:induction false} WalkEnumerates<T>(items: seq<T>, k: nat)
    requires k < |items|
    ensures NewPaginator(items, 1).Success?
    ensures Walk(NewPaginator(items, 1).value, k).GetItem() == items[k]
  {
  }
}
