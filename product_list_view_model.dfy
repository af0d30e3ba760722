/** The list controller: it owns the accumulated product list, the published view state,
    the pagination state and the refreshing flag, and updates them as pages load.

    A load runs as one coroutine that suspends once, at the store call. It is split here
    into its two halves: `BeginLoad` (everything before the call, ending with the call being
    issued) and `CompleteLoad` (everything after, given the result the store returned). The
    store is abstract: its result is the input of the second half. */
module ProductList {
  import opened Models
  import NetworkResults
  import opened UiStates

  /** The message shown for a page-0 Exception. */
  const NetworkErrorMessage: string := "Network error occurred"

  /** The list after a successful load of `page`: page 0 replaces the list, any other page
      is appended after what was there. */
  function UpdatedProducts(current: seq<Product>, page: Int32, newProducts: seq<Product>): (r: seq<Product>)
    ensures page == 0 ==> r == newProducts
    ensures page != 0 ==> |r| == |current| + |newProducts| &&
                          r[..|current|] == current && r[|current|..] == newProducts
  {
    (if page == 0 then [] else current) + newProducts
  }

  /** The pagination state rebuilt from a page response: that page is current, there is a
      next page exactly when the response names one, and nothing is loading. */
  function PaginationFrom(response: ProductsResponse): (r: PaginationState)
    ensures r.currentPage == response.currentPage && r.totalPages == response.totalPages
    ensures r.hasNextPage <==> response.nextPage.Some?
    ensures !r.isLoadingNextPage
  {
    PaginationState(
      currentPage := response.currentPage,
      hasNextPage := response.nextPage.Some?,
      isLoadingNextPage := false,
      totalPages := response.totalPages)
  }

  class ProductListViewModel {
    var products: seq<Product>
    /** The value held by the view-state LiveData: none until the first load begins. */
    var uiState: Option<UiState<seq<Product>>>
    var paginationState: PaginationState
    var isRefreshing: bool

    /** Every value published on the view state, in order: what an observer sees. */
    ghost var uiStateLog: seq<UiState<seq<Product>>>
    /** Every page requested from the store, in order. */
    ghost var requests: seq<Int32>
    /** The pages requested whose load has not completed yet. */
    ghost var pending: multiset<Int32>

    /** The published view state is the last value logged, and a Success always shows the
        current list. */
    ghost predicate Valid()
      reads this
    {
      && (uiStateLog == [] ==> uiState == None)
      && (uiStateLog != [] ==> uiState == Some(uiStateLog[|uiStateLog| - 1]))
      && (uiState.Some? && uiState.value.Success? ==> uiState.value.data == products)
    }

    /** What the first half of a load of `page` does: page 0 publishes Loading, any other
        page raises isLoadingNextPage; then `page` is requested from the store. */
    twostate predicate Began(page: Int32)
      reads this
    {
      && products == old(products)
      && isRefreshing == old(isRefreshing)
      && requests == old(requests) + [page]
      && pending == old(pending) + multiset{page}
      && (page == 0 ==>
            && uiState == Some(Loading)
            && uiStateLog == old(uiStateLog) + [Loading]
            && paginationState == old(paginationState))
      && (page != 0 ==>
            && uiState == old(uiState)
            && uiStateLog == old(uiStateLog)
            && paginationState == WithLoadingNextPage(old(paginationState), true))
    }

    /** Construction starts the load of page 0. */
    constructor ()
      ensures Valid()
      ensures products == [] && uiState == Some(Loading) && !isRefreshing
      ensures paginationState == PaginationState()
      ensures uiStateLog == [Loading] && requests == [0] && pending == multiset{0}
    {
      products := [];
      uiState := None;
      paginationState := PaginationState();
      isRefreshing := false;
      uiStateLog := [];
      requests := [];
      pending := multiset{};
      new;
      BeginLoad(0);
    }

    method Publish(s: UiState<seq<Product>>)
      modifies this
      ensures uiState == Some(s) && uiStateLog == old(uiStateLog) + [s]
      ensures products == old(products) && paginationState == old(paginationState)
      ensures isRefreshing == old(isRefreshing)
      ensures requests == old(requests) && pending == old(pending)
    {
      uiState := Some(s);
      uiStateLog := uiStateLog + [s];
    }

    /** `loadProducts(page)` up to and including the store call. */
    method BeginLoad(page: Int32)
      requires Valid()
      modifies this
      ensures Valid()
      ensures Began(page)
    {
      if page == 0 {
        Publish(Loading);
      } else {
        paginationState := WithLoadingNextPage(paginationState, true);
      }
      requests := requests + [page];
      pending := pending + multiset{page};
    }

    /** `loadProducts(page)` after the store call returned `result`. */
    method CompleteLoad(page: Int32, result: NetworkResults.NetworkResult<ProductsResponse>)
      requires Valid()
      requires page in pending
      modifies this
      ensures Valid()
      ensures !isRefreshing
      ensures requests == old(requests) && pending == old(pending) - multiset{page}
      ensures result.Success? ==>
                && products == UpdatedProducts(old(products), page, result.data.products)
                && uiState == Some(Success(products))
                && uiStateLog == old(uiStateLog) + [Success(products)]
                && paginationState == PaginationFrom(result.data)
      ensures !result.Success? ==> products == old(products)
      ensures !result.Success? && page == 0 ==> paginationState == old(paginationState)
      ensures result.Error? && page == 0 ==>
                uiState == Some(Error(result.message)) &&
                uiStateLog == old(uiStateLog) + [Error(result.message)]
      ensures result.Exception? && page == 0 ==>
                uiState == Some(Error(NetworkErrorMessage)) &&
                uiStateLog == old(uiStateLog) + [Error(NetworkErrorMessage)]
      ensures !result.Success? && page != 0 ==>
                && uiState == old(uiState)
                && uiStateLog == old(uiStateLog)
                && paginationState == WithLoadingNextPage(old(paginationState), false)
    {
      match result {
        case Success(response) =>
          var updated := UpdatedProducts(products, page, response.products);
          products := updated;
          Publish(Success(updated));
          paginationState := PaginationFrom(response);
        case Error(message, _) =>
          if page == 0 {
            Publish(Error(message));
          } else {
            paginationState := WithLoadingNextPage(paginationState, false);
          }
        case Exception(_) =>
          if page == 0 {
            Publish(Error(NetworkErrorMessage));
          } else {
            paginationState := WithLoadingNextPage(paginationState, false);
          }
      }
      isRefreshing := false;
      pending := pending - multiset{page};
    }

    /** `loadNextPage()`: begins a load of the page after the current one, unless there is
        no next page or a next-page load is already in flight. */
    method LoadNextPage() returns (issued: Option<Int32>)
      requires Valid()
      modifies this
      ensures Valid()
      ensures issued.Some? <==> old(paginationState.hasNextPage && !paginationState.isLoadingNextPage)
      ensures issued.Some? ==> issued.value == Int32Inc(old(paginationState.currentPage)) && Began(issued.value)
      ensures issued.None? ==> unchanged(this)
    {
      var currentState := paginationState;
      if currentState.hasNextPage && !currentState.isLoadingNextPage {
        var next := Int32Inc(currentState.currentPage);
        BeginLoad(next);
        issued := Some(next);
      } else {
        issued := None;
      }
    }

    /** `retry()`: begins a load of page 0. */
    method Retry()
      requires Valid()
      modifies this
      ensures Valid()
      ensures Began(0)
    {
      BeginLoad(0);
    }

    /** `refresh()`: raises the refreshing flag, resets pagination to its defaults and begins
        a load of page 0. */
    method Refresh()
      requires Valid()
      modifies this
      ensures Valid()
      ensures isRefreshing
      ensures paginationState == PaginationState()
      ensures products == old(products)
      ensures uiState == Some(Loading) && uiStateLog == old(uiStateLog) + [Loading]
      ensures requests == old(requests) + [0] && pending == old(pending) + multiset{0}
    {
      isRefreshing := true;
      paginationState := PaginationState();
      BeginLoad(0);
    }
  }

  /** A controller built over a store whose page 0 succeeds: observers see Loading and then
      Success with exactly that page's products, and pagination follows the response. */
  method InitialLoadSucceeds(response: ProductsResponse) returns (vm: ProductListViewModel)
    ensures fresh(vm) && vm.Valid()
    ensures vm.uiStateLog == [Loading, Success(response.products)]
    ensures vm.products == response.products
    ensures vm.paginationState == PaginationFrom(response)
    ensures vm.requests == [0] && vm.pending == multiset{} && !vm.isRefreshing
  {
    vm := new ProductListViewModel();
    vm.CompleteLoad(0, NetworkResults.Success(response));
  }

  /** A controller built over a store whose page 0 fails with an Error: observers see
      Loading and then that message; the list stays empty and pagination at its defaults. */
  method InitialLoadFails(message: string) returns (vm: ProductListViewModel)
    ensures fresh(vm) && vm.Valid()
    ensures vm.uiStateLog == [Loading, Error(message)]
    ensures vm.products == [] && vm.paginationState == PaginationState()
  {
    vm := new ProductListViewModel();
    vm.CompleteLoad(0, NetworkResults.Error(message));
  }

  /** Retrying twice against a store that always returns the same page 0 requests page 0
      twice and leaves exactly that page's products: nothing is duplicated. */
  method RetryTwice(vm: ProductListViewModel, response: ProductsResponse)
    requires vm.Valid()
    modifies vm
    ensures vm.Valid()
    ensures vm.requests == old(vm.requests) + [0, 0]
    ensures vm.products == response.products
    ensures vm.uiState == Some(Success(response.products))
  {
    vm.Retry();
    vm.CompleteLoad(0, NetworkResults.Success(response));
    vm.Retry();
    vm.CompleteLoad(0, NetworkResults.Success(response));
  }

  /** Two next-page requests in a row, before the first load completes, issue at most one
      store call: the second is a no-op. This rests on the next page not being page 0, which
      holds unless the current page is -1. */
  method RapidNextPage(vm: ProductListViewModel) returns (first: Option<Int32>, second: Option<Int32>)
    requires vm.Valid()
    requires vm.paginationState.currentPage != -1
    modifies vm
    ensures vm.Valid()
    ensures second == None
    ensures first.Some? ==> vm.requests == old(vm.requests) + [first.value]
    ensures first.None? ==> vm.requests == old(vm.requests)
  {
    first := vm.LoadNextPage();
    second := vm.LoadNextPage();
  }

  /** A next-page load that fails is silent: the list, the published view state and the
      pagination state end as they were before it began. */
  method NextPageFailureIsSilent(vm: ProductListViewModel, result: NetworkResults.NetworkResult<ProductsResponse>)
      returns (issued: Option<Int32>)
    requires vm.Valid()
    requires vm.paginationState.currentPage != -1
    requires !result.Success?
    modifies vm
    ensures vm.Valid()
    ensures vm.products == old(vm.products) && vm.uiState == old(vm.uiState)
    ensures vm.uiStateLog == old(vm.uiStateLog)
    ensures vm.paginationState == old(vm.paginationState)
  {
    issued := vm.LoadNextPage();
    if issued.Some? {
      vm.CompleteLoad(issued.value, result);
    }
  }

  /** A refresh clears the refreshing flag once its page-0 load completes, whatever the
      outcome; a failed refresh leaves pagination at its defaults. */
  method RefreshThenComplete(vm: ProductListViewModel, result: NetworkResults.NetworkResult<ProductsResponse>)
    requires vm.Valid()
    modifies vm
    ensures vm.Valid()
    ensures !vm.isRefreshing
    ensures result.Success? ==> vm.products == result.data.products &&
                                vm.paginationState == PaginationFrom(result.data)
    ensures !result.Success? ==> vm.products == old(vm.products) &&
                                 vm.paginationState == PaginationState()
  {
    vm.Refresh();
    vm.CompleteLoad(0, result);
  }

  /** With current page -1 the next page is page 0, which takes the page-0 path: it
      publishes Loading and leaves isLoadingNextPage down, so a second next-page call
      requests page 0 again. */
  method NextPageFromMinusOne(vm: ProductListViewModel) returns (first: Option<Int32>, second: Option<Int32>)
    requires vm.Valid()
    requires vm.paginationState.currentPage == -1
    requires vm.paginationState.hasNextPage && !vm.paginationState.isLoadingNextPage
    modifies vm
    ensures vm.Valid()
    ensures first == Some(0) && second == Some(0)
    ensures vm.requests == old(vm.requests) + [0, 0]
  {
    first := vm.LoadNextPage();
    second := vm.LoadNextPage();
  }

  /** A refresh while a next-page load is in flight resets isLoadingNextPage, so the guard
      opens again: from page 0, a next-page call, a refresh and another next-page call
      request page 1 twice. */
  method RefreshReopensNextPage(vm: ProductListViewModel) returns (first: Option<Int32>, second: Option<Int32>)
    requires vm.Valid()
    requires vm.paginationState.currentPage == 0
    requires vm.paginationState.hasNextPage && !vm.paginationState.isLoadingNextPage
    modifies vm
    ensures vm.Valid()
    ensures first == Some(1) && second == Some(1)
    ensures vm.requests == old(vm.requests) + [1, 0, 1]
    ensures vm.pending == old(vm.pending) + multiset{1, 0, 1}
  {
    first := vm.LoadNextPage();
    vm.Refresh();
    second := vm.LoadNextPage();
  }
}
