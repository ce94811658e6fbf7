/** The paging view model: current page, page size, total pages and item count,
    the guards of the paging commands and the page each command asks for.
    The page-changed callback is modelled by recording every page it is asked for;
    whether the load progress is busy is an input of the guards. */
module Pager {
  import opened Framework

  const DefaultPageSize: int := 100

  /** A negative item count is treated as zero. */
  function ClampCount(totalCount: int): (n: nat)
    ensures totalCount >= 0 ==> n == totalCount
    ensures totalCount < 0 ==> n == 0
  {
    if totalCount < 0 then 0 else totalCount
  }

  /** The number of pages UpdateStat derives from an item count:
      `((count - 1) / pageSize) + 1` with C#'s truncating division. */
  function PageCount(totalCount: int, pageSize: int): int
    requires pageSize != 0
  {
    TruncDiv(ClampCount(totalCount) - 1, pageSize) + 1
  }

  /** For a positive page size and at least one item, the page count is the least
      number of pages of that size that holds every item. */
  lemma PageCountHoldsItems(totalCount: int, pageSize: int)
    requires pageSize > 0 && totalCount >= 1
    ensures var p := PageCount(totalCount, pageSize);
      p >= 1 && (p - 1) * pageSize < totalCount <= p * pageSize
  {
    var q := TruncDiv(totalCount - 1, pageSize);
    assert 0 <= totalCount - 1 - q * pageSize < pageSize;
    assert q >= 0;
    assert (q + 1) * pageSize == q * pageSize + pageSize;
  }

  /** With no items the page count depends on the page size, because C# truncates
      -1 / pageSize toward zero: one page for pageSize > 1 but none for pageSize == 1. */
  lemma EmptyPageCount(totalCount: int, pageSize: int)
    requires totalCount <= 0 && pageSize >= 1
    ensures PageCount(totalCount, pageSize) == if pageSize == 1 then 0 else 1
  {
  }

  /** For item counts and page sizes that fit a C# int, the page count fits one too. */
  lemma PageCountFitsInt(totalCount: Int32, pageSize: Int32)
    requires pageSize != 0
    ensures IntMin <= PageCount(totalCount, pageSize) <= IntMax
  {
    var a := ClampCount(totalCount) - 1;
    assert Abs(TruncDiv(a, pageSize)) <= Abs(a);
  }

  /** The page the CurrentPage getter shows: never more than the page count. */
  function ShownPage(currentPage: int, totalPages: int): (p: int)
    ensures p <= totalPages
    ensures p == currentPage || p == totalPages
    ensures currentPage <= totalPages ==> p == currentPage
  {
    if currentPage > totalPages then totalPages else currentPage
  }

  /** The guard of the first-page and previous-page commands. */
  predicate CanGoPrev(busy: bool, currentPage: int, totalPages: int)
  {
    !busy && ShownPage(currentPage, totalPages) > 1 && totalPages > 1
  }

  /** The guard of the next-page and last-page commands. */
  predicate CanGoNext(busy: bool, currentPage: int, totalPages: int)
  {
    !busy && ShownPage(currentPage, totalPages) < totalPages
  }

  /** The paging commands. */
  datatype Command = FirstPage | PrevPage | NextPage | LastPage | Reload

  /** Whether a command is enabled. */
  predicate Enabled(c: Command, busy: bool, currentPage: int, totalPages: int)
  {
    match c
    case FirstPage | PrevPage => CanGoPrev(busy, currentPage, totalPages)
    case NextPage | LastPage => CanGoNext(busy, currentPage, totalPages)
    case Reload => !busy
  }

  /** The page a command asks the callback for. */
  function Target(c: Command, currentPage: int, totalPages: int): int
  {
    var shown := ShownPage(currentPage, totalPages);
    match c
    case FirstPage => 1
    case PrevPage => shown - 1
    case NextPage => shown + 1
    case LastPage => totalPages
    case Reload => shown
  }

  /** Every enabled navigation command asks for a page no greater than the page count
      and different from the page shown; First and Prev ask for a page of at least 1,
      and so do Next and Last unless UpdateStat stored a negative current page. */
  lemma EnabledNavigationStaysInRange(c: Command, busy: bool, currentPage: int, totalPages: int)
    requires c != Reload && Enabled(c, busy, currentPage, totalPages)
    ensures Target(c, currentPage, totalPages) <= totalPages
    ensures Target(c, currentPage, totalPages) != ShownPage(currentPage, totalPages)
    ensures c == FirstPage || c == PrevPage ==> Target(c, currentPage, totalPages) >= 1
    ensures currentPage >= 0 ==> Target(c, currentPage, totalPages) >= 1
  {
  }

  /** The guards read exactly as the source states them, in both directions. */
  lemma GuardsCharacterised(busy: bool, currentPage: int, totalPages: int)
    ensures CanGoPrev(busy, currentPage, totalPages)
        <==> !busy && currentPage > 1 && totalPages > 1
    ensures CanGoNext(busy, currentPage, totalPages)
        <==> !busy && currentPage < totalPages
  {
  }

  /** While the load progress is busy, no command is enabled. */
  lemma BusyDisablesAll(c: Command, currentPage: int, totalPages: int)
    ensures !Enabled(c, true, currentPage, totalPages)
  {
  }

  /** HasMoreThanOnePage as written: a positive page count. */
  predicate MoreThanOnePage(totalPages: int)
  {
    totalPages > 0
  }

  /** Despite its name, HasMoreThanOnePage holds for a single page and fails only
      when there are no pages at all. */
  lemma MoreThanOnePageMeansAnyPage(totalPages: int)
    ensures MoreThanOnePage(totalPages) <==> totalPages >= 1
    ensures MoreThanOnePage(1)
  {
  }

  /** The page size the PageSize setter leaves, as written: it assigns only when the
      OLD size is positive and never looks at the new value. */
  function PageSizeAfterSet(oldSize: int, value: int): int
  {
    if oldSize > 0 then value else oldSize
  }

  /** Once a non-positive size has been set, no later set changes it, and a zero size
      makes every UpdateStat divide by zero. */
  lemma NonPositivePageSizeSticks(value: int, later: seq<int>)
    requires value <= 0
    ensures SizeAfterSets(PageSizeAfterSet(DefaultPageSize, value), later) == value
  {
    if later != [] {
      NonPositivePageSizeSticks(value, later[1..]);
    }
  }

  /** The size after a sequence of PageSize assignments. */
  function SizeAfterSets(size: int, values: seq<int>): int
    decreases values
  {
    if values == [] then size else SizeAfterSets(PageSizeAfterSet(size, values[0]), values[1..])
  }

  /** The setter the guard evidently meant: assign only a positive new value. */
  function ValidatedPageSizeAfterSet(oldSize: int, value: int): (r: int)
    ensures r == value || r == oldSize
    ensures value > 0 ==> r == value
  {
    if value > 0 then value else oldSize
  }

  /** With the validated setter a positive page size stays positive whatever is
      assigned, so UpdateStat can never divide by zero. */
  lemma {:induction false} ValidatedPageSizeStaysPositive(size: int, values: seq<int>)
    requires size > 0
    ensures ValidatedSizeAfterSets(size, values) > 0
    decreases values
  {
    if values != [] {
      ValidatedPageSizeStaysPositive(ValidatedPageSizeAfterSet(size, values[0]), values[1..]);
    }
  }

  function ValidatedSizeAfterSets(size: int, values: seq<int>): int
    decreases values
  {
    if values == [] then size
    else ValidatedSizeAfterSets(ValidatedPageSizeAfterSet(size, values[0]), values[1..])
  }

  class PagerViewModel {
    var currentPage: Int32     // _currentPage
    var totalPages: Int32      // _totalPages
    var pageSize: Int32        // _pageSize
    var totalItemCount: Int32  // _totalItemCount
    var hasCallback: bool      // whether PageChangedCallback is set
    var requested: seq<int>    // the pages the callback has been asked for, in order

    /** PagerViewModel(pageChangedCallback, pageSize); the parameterless and
        callback-only constructors pass a page size of 100. */
    constructor (hasCallback: bool, pageSize: Int32)
      ensures this.hasCallback == hasCallback
      ensures currentPage == 1 && totalPages == 1 && totalItemCount == 0
      ensures this.pageSize == (if pageSize > 0 then pageSize else DefaultPageSize)
      ensures requested == []
    {
      this.hasCallback := hasCallback;
      currentPage := 1;
      totalPages := 1;
      this.pageSize := if pageSize > 0 then pageSize else DefaultPageSize;
      totalItemCount := 0;
      requested := [];
    }

    /** Setting PageChangedCallback: a null callback clears it. */
    method SetPageChangedCallback(isSet: bool)
      modifies this`hasCallback
      ensures hasCallback == isSet
    {
      hasCallback := isSet;
    }

    /** What the callback records for one TryGoToPage call. */
    function Asked(page: int): seq<int>
      reads this
    {
      if hasCallback then [page] else []
    }

    method TryGoToPage(page: int)
      modifies this`requested
      ensures requested == old(requested) + Asked(page)
    {
      if hasCallback {
        requested := requested + [page];
      }
    }

    /** UpdateStat(currentPage, totalCount): stores the page and the derived page count;
        with a zero page size the division throws before anything is stored. */
    method UpdateStat(newCurrentPage: Int32, totalCount: Int32) returns (o: Outcome<Exception>)
      modifies this`currentPage, this`totalPages, this`totalItemCount
      ensures o == (if old(pageSize) == 0 then Fail(DivideByZero) else Pass)
      ensures o.Fail? ==> unchanged(this)
      ensures o.Pass? ==>
        && pageSize == old(pageSize) && requested == old(requested)
        && currentPage == newCurrentPage
        && totalPages == PageCount(totalCount, pageSize)
        && totalItemCount == ClampCount(totalCount)
    {
      if pageSize == 0 {
        return Fail(DivideByZero);
      }
      var count := if totalCount < 0 then 0 else totalCount;
      PageCountFitsInt(totalCount, pageSize);
      var newTotalPages := TruncDiv(count - 1, pageSize) + 1;
      currentPage := newCurrentPage;
      totalPages := newTotalPages;
      totalItemCount := count;
      o := Pass;
    }

    /** The CurrentPage getter. */
    function CurrentPage(): (p: int)
      reads this
      ensures p == ShownPage(currentPage, totalPages)
    {
      if currentPage > totalPages then totalPages else currentPage
    }

    /** The CurrentPage setter: a positive value is only passed to the callback;
        the stored page changes when the consumer calls UpdateStat. */
    method SetCurrentPage(value: Int32)
      modifies this`requested
      ensures requested == old(requested) + (if value > 0 then Asked(value) else [])
    {
      if value > 0 {
        TryGoToPage(value);
      }
    }

    /** The PageSize setter as written. */
    method SetPageSize(value: Int32)
      modifies this`pageSize, this`requested
      ensures pageSize == PageSizeAfterSet(old(pageSize), value)
      ensures requested == old(requested) + (if old(pageSize) > 0 then Asked(CurrentPage()) else [])
    {
      if pageSize > 0 {
        pageSize := value;
        TryGoToPage(CurrentPage());
      }
    }

    /** The PageSize setter with the guard on the new value. */
    method SetPageSizeValidated(value: Int32)
      modifies this`pageSize, this`requested
      ensures pageSize == ValidatedPageSizeAfterSet(old(pageSize), value)
      ensures requested == old(requested) + (if value > 0 then Asked(CurrentPage()) else [])
    {
      if value > 0 {
        pageSize := value;
        TryGoToPage(CurrentPage());
      }
    }

    predicate HasMoreThanOnePage()
      reads this
    {
      MoreThanOnePage(totalPages)
    }

    predicate CanGoPrevPage(busy: bool)
      reads this
    {
      CanGoPrev(busy, currentPage, totalPages)
    }

    predicate CanGoNextPage(busy: bool)
      reads this
    {
      CanGoNext(busy, currentPage, totalPages)
    }

    /** Runs a command the way the UI does: only when its guard allows it. */
    method Execute(c: Command, busy: bool) returns (executed: bool)
      modifies this`requested
      ensures executed == Enabled(c, busy, currentPage, totalPages)
      ensures requested == old(requested)
        + (if executed then Asked(Target(c, currentPage, totalPages)) else [])
    {
      executed := Enabled(c, busy, currentPage, totalPages);
      if executed {
        match c
        case FirstPage => TryGoToPage(1);
        case PrevPage => TryGoToPage(CurrentPage() - 1);
        case NextPage => TryGoToPage(CurrentPage() + 1);
        case LastPage => TryGoToPage(totalPages);
        case Reload => TryGoToPage(CurrentPage());
      }
    }
  }
}
