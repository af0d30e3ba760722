# powerplay2 data and state layer in Dafny

This project models the data and state layer of the powerplay2 Android app, which lists
products fetched from a paginated REST endpoint. The UI toolkit is removed. What remains:

- **Result type** (`NetworkResults`): `NetworkResult` is Success(data), Error(message, code)
  or Exception(cause). An Error's code defaults to absent. The helpers `onSuccess`, `onError`
  and `onException` pass the receiver through. Each helper's callback is modelled as the
  payload it would receive (`Invocation`), and `Chain` runs a fluent chain of helpers.
- **Error classifier** (`NetworkErrorHandler`): `handleApiError` maps a status code through
  a fixed table of messages and keeps the code. `handleException` checks the cause's class in
  order: unknown host, socket timeout, any other IOException, anything else. The JDK class
  hierarchy is modelled by `IsInstance`.
- **Product store** (`Repository`): the class `ProductRepositoryImpl` owns the
  `productCache` map. `GetProducts` receives the remote call's outcome (`ApiOutcome`) as an
  input. On a 2xx response with a body it writes every product into the cache in a loop. Its
  contract ties the new cache to `StoreAll`, a function of the old cache and the page, and
  lemmas about `StoreAll` give the key set, last write wins, and untouched entries.
  `GetProductById` reads the cache only.
- **State types** (`UiStates`): `UiState` (Loading / Success / Error) and `PaginationState`
  with Kotlin's default values (`PaginationState()`).
- **List controller** (`ProductList`): the class `ProductListViewModel` has the four fields
  `products`, `uiState`, `paginationState` and `isRefreshing`. A load runs as a coroutine that
  suspends once, at the store call, so `loadProducts(page)` is split into `BeginLoad` (up to the
  call) and `CompleteLoad` (given the store's result). The store itself is abstract: its result
  is the input of `CompleteLoad`. The class also keeps three ghost fields:
  - `uiStateLog`: every value published to observers, in order;
  - `requests`: every page requested from the store, in order;
  - `pending`: the requests not yet completed.
  `Valid()` says two things: the published state is the last one logged, and a published
  Success always shows the current list.
- **Placeholder images** (`Text`, `ImageUrls`, `Adapter`, `ProductDetail`): the list item and
  the detail screen each pick an image URL. The first keyword, in declared order, found in
  the ASCII-lower-cased title decides the URL. With no keyword, the URL is a fixed prefix
  followed by the id. `Adapter` also holds the list differ's identity and equality rules.

Kotlin `Int` is the subset type `Int32`. The only arithmetic on it, `currentPage + 1` in
`loadNextPage`, wraps explicitly (`Int32Inc`). `price: Double` is an opaque bit pattern and is
never reasoned about.

The model follows the code as written:
- Every successful load publishes `Success(updated list)`, page > 0 included.
- The duplicate next-page guard works only because a next-page load raises
  `isLoadingNextPage`. If the current page were -1, the next page would be page 0. That page
  takes the page-0 path, which publishes Loading and leaves the flag down. So
  `ProductList.RapidNextPage` requires `currentPage != -1`, and
  `ProductList.NextPageFromMinusOne` shows page 0 requested twice when it is -1.
- Nothing in the code requires `totalPages >= 1` or `currentPage >= 0`, and the model does
  not either.

## Model

| member | source | states |
|---|---|---|
| `NetworkResults.ErrorWithoutCode` | app/src/main/java/com/example/powerplay/data/network/NetworkResult.kt:5 | An Error built from a message alone has that message and no code. |
| `NetworkResults.OnSuccess` | app/src/main/java/com/example/powerplay/data/network/NetworkResult.kt:9-12 | Returns the receiver; the callback fires exactly on Success, with its data. |
| `NetworkResults.OnError` | app/src/main/java/com/example/powerplay/data/network/NetworkResult.kt:14-17 | Returns the receiver; the callback fires exactly on Error, with its message and code. |
| `NetworkResults.OnException` | app/src/main/java/com/example/powerplay/data/network/NetworkResult.kt:19-22 | Returns the receiver; the callback fires exactly on Exception, with its cause. |
| `NetworkResults.ChainReturnsReceiver` | app/src/main/java/com/example/powerplay/data/network/NetworkResult.kt:9-22 | Any chain of the three helpers returns the value it started from. |
| `NetworkResults.ChainInvocations` | app/src/main/java/com/example/powerplay/data/network/NetworkResult.kt:9-22 | Along a chain, the number of callbacks fired equals the number of helpers matching the variant, and each receives the result's own payload. |
| `NetworkErrorHandler.HandleApiError` | app/src/main/java/com/example/powerplay/data/network/NetworkErrorHandler.kt:10-21 | Always an Error (never Success or Exception) whose code is the response status. |
| `NetworkErrorHandler.HandleApiErrorMatchesTable` | app/src/main/java/com/example/powerplay/data/network/NetworkErrorHandler.kt:11-20 | The message is the table entry for the eight listed statuses (400 Bad request … 503 Service unavailable), and "Unknown error occurred" for exactly the other statuses. |
| `NetworkErrorHandler.HandleException` | app/src/main/java/com/example/powerplay/data/network/NetworkErrorHandler.kt:24-31 | Never Success. Unknown host gives "No internet connection", socket timeout "Request timeout", other IO "Network error occurred", all without a code. It is an Exception exactly when the cause is not an IOException, and then wraps that same cause. |
| `NetworkErrorHandler.SocketTimeoutBeforeIOException` | app/src/main/java/com/example/powerplay/data/network/NetworkErrorHandler.kt:26-28 | A socket timeout is an IOException, yet yields Error("Request timeout") with no code because its test comes first. |
| `Repository.IsSuccessful` | app/src/main/java/com/example/powerplay/data/repository/ProductRepositoryImpl.kt:20 | A status is successful exactly when it lies in 200 to 299 (status / 100 is 2). |
| `Repository.StoreAll` | app/src/main/java/com/example/powerplay/data/repository/ProductRepositoryImpl.kt:23-25 | Caching a page keeps every old key and adds the id of every product on the page. |
| `Repository.StoreAllKeys` | app/src/main/java/com/example/powerplay/data/repository/ProductRepositoryImpl.kt:23-25 | After a page is cached, the key set is the old keys plus every id on the page. |
| `Repository.StoreAllLastWins` | app/src/main/java/com/example/powerplay/data/repository/ProductRepositoryImpl.kt:23-25 | Each id maps to the last product on the page with that id. |
| `Repository.StoreAllKeepsOthers` | app/src/main/java/com/example/powerplay/data/repository/ProductRepositoryImpl.kt:23-25 | An id not on the page keeps its old entry, or stays absent. |
| `Repository.ProductRepositoryImpl.constructor` | app/src/main/java/com/example/powerplay/data/repository/ProductRepositoryImpl.kt:14 | The cache starts empty. |
| `Repository.ProductRepositoryImpl.GetProducts` | app/src/main/java/com/example/powerplay/data/repository/ProductRepositoryImpl.kt:16-34 | 2xx with a body: Success of exactly that body, and the cache is `StoreAll(old cache, page)`. 2xx without a body: Error("Empty response body") with no code. Non-2xx: `HandleApiError(status)`. Thrown: `HandleException(cause)`. The last three leave the cache unchanged. Keys only grow. |
| `Repository.ProductRepositoryImpl.GetProductById` | app/src/main/java/com/example/powerplay/data/repository/ProductRepositoryImpl.kt:36-49 | A cache hit gives Success of the cached product. A miss gives Error("Product not found") with no code. The cache is not modified. |
| `Repository.FetchThenLookup` | app/src/test/java/com/example/powerplay/data/repository/ProductRepositoryImplTest.kt:85-108 | After a successful page, each product that no later product on the page shadows is found by id with that exact product. |
| `Repository.NotFoundStatus` | app/src/test/java/com/example/powerplay/data/repository/ProductRepositoryImplTest.kt:56-69 | A 404 gives Error("Not found", 404) for any page and leaves the cache as it was. |
| `UiStates.DefaultPaginationState` | app/src/main/java/com/example/powerplay/ui/state/UiState.kt:9-14 | The defaults are currentPage 0, hasNextPage true, isLoadingNextPage false, totalPages 0. |
| `UiStates.WithLoadingNextPage` | app/src/main/java/com/example/powerplay/ui/state/UiState.kt:9-14 | `copy(isLoadingNextPage = b)` sets that flag and keeps the other three fields. |
| `UiStates.UiStatePayloads` | app/src/main/java/com/example/powerplay/ui/state/UiState.kt:3-7 | Success holds exactly its data and Error exactly its message, each excluding the other two variants. |
| `Models.Int32Inc` | app/src/main/java/com/example/powerplay/ui/productlist/ProductListViewModel.kt:82 | `currentPage + 1` is congruent to the mathematical successor modulo 2^32, and is the successor below the largest Int. |
| `ProductList.UpdatedProducts` | app/src/main/java/com/example/powerplay/ui/productlist/ProductListViewModel.kt:44-46 | Page 0 replaces the list with the new products. Any other page appends them after the old list, which keeps its order. |
| `ProductList.PaginationFrom` | app/src/main/java/com/example/powerplay/ui/productlist/ProductListViewModel.kt:51-56 | Pagination after a success is rebuilt from the response: its currentPage and totalPages, hasNextPage exactly when nextPage is present, and nothing loading. |
| `ProductList.ProductListViewModel.constructor` | app/src/main/java/com/example/powerplay/ui/productlist/ProductListViewModel.kt:18-32 | Empty list, default pagination, not refreshing. The page-0 load has begun: Loading is published and page 0 is requested. |
| `ProductList.ProductListViewModel.BeginLoad` | app/src/main/java/com/example/powerplay/ui/productlist/ProductListViewModel.kt:34-42 | Page 0 publishes Loading and leaves pagination alone. Any other page sets only isLoadingNextPage. Then the page is requested; the list is unchanged. |
| `ProductList.ProductListViewModel.CompleteLoad` | app/src/main/java/com/example/powerplay/ui/productlist/ProductListViewModel.kt:42-76 | Success: the list becomes `UpdatedProducts`, Success(list) is published, pagination is `PaginationFrom(response)`. Page-0 Error publishes Error(message); page-0 Exception publishes Error("Network error occurred"); list and pagination untouched. A page > 0 failure only clears isLoadingNextPage. Always clears isRefreshing. Keeps `Valid()`. |
| `ProductList.ProductListViewModel.LoadNextPage` | app/src/main/java/com/example/powerplay/ui/productlist/ProductListViewModel.kt:79-84 | A load begins exactly when hasNextPage holds and isLoadingNextPage does not, and it is of page currentPage + 1. Otherwise nothing changes. |
| `ProductList.ProductListViewModel.Retry` | app/src/main/java/com/example/powerplay/ui/productlist/ProductListViewModel.kt:86-88 | Begins a page-0 load. |
| `ProductList.ProductListViewModel.Refresh` | app/src/main/java/com/example/powerplay/ui/productlist/ProductListViewModel.kt:90-94 | Refreshing is raised, pagination is reset to its defaults, Loading is published and page 0 is requested. |
| `ProductList.InitialLoadSucceeds` | app/src/test/java/com/example/powerplay/ui/productlist/ProductListViewModelTest.kt:54-82 | With a successful page 0, observers see Loading then Success(page products). The list equals the page and pagination follows the response. |
| `ProductList.InitialLoadFails` | app/src/test/java/com/example/powerplay/ui/productlist/ProductListViewModelTest.kt:84-99 | With a failing page 0, observers see Loading then Error(message). The list stays empty. |
| `ProductList.RetryTwice` | app/src/test/java/com/example/powerplay/ui/productlist/ProductListViewModelTest.kt:101-126 | Two retries against the same page 0 request page 0 twice. The list is exactly that page, with nothing duplicated. |
| `ProductList.RapidNextPage` | app/src/main/java/com/example/powerplay/ui/productlist/ProductListViewModel.kt:79-84 | Two next-page calls before the first load completes issue at most one store request; the second is a no-op. |
| `ProductList.NextPageFromMinusOne` | app/src/main/java/com/example/powerplay/ui/productlist/ProductListViewModel.kt:36-42 | From current page -1 with a next page, two next-page calls both request page 0, because page 0 never raises isLoadingNextPage. |
| `ProductList.RefreshReopensNextPage` | app/src/main/java/com/example/powerplay/ui/productlist/ProductListViewModel.kt:79-94 | From page 0, a next-page call, a refresh and another next-page call request pages 1, 0 and 1: the refresh resets the guard while page 1 is still pending. |
| `ProductList.NextPageFailureIsSilent` | app/src/main/java/com/example/powerplay/ui/productlist/ProductListViewModel.kt:36-72 | A failed next-page load leaves the list, the published state and the pagination state as they were before it began. |
| `ProductList.RefreshThenComplete` | app/src/main/java/com/example/powerplay/ui/productlist/ProductListViewModel.kt:90-94 | After a refresh completes, refreshing is false whatever the outcome. A failed refresh leaves pagination at its defaults. |
| `Text.LowerChar` | app/src/main/java/com/example/powerplay/ui/adapter/ProductAdapter.kt:73 | An ASCII capital becomes the letter 32 code points above it, any other character is kept, and the result is never an ASCII capital. |
| `Text.Lowercase` | app/src/main/java/com/example/powerplay/ui/adapter/ProductAdapter.kt:73 | Lower-casing keeps the length and lower-cases each ASCII letter. |
| `Text.LowercaseIgnoresCase` | app/src/main/java/com/example/powerplay/ui/adapter/ProductAdapter.kt:73 | Lower-casing an upper-cased or already lower-cased text gives the same result as lower-casing the original. |
| `Text.ContainsIff` | app/src/main/java/com/example/powerplay/ui/adapter/ProductAdapter.kt:73 | `contains` holds exactly when the keyword occurs at some position of the text. |
| `Text.Contains` | app/src/main/java/com/example/powerplay/ui/adapter/ProductAdapter.kt:73 | A text can contain only a keyword no longer than itself. |
| `Text.IntToString` | app/src/main/java/com/example/powerplay/ui/adapter/ProductAdapter.kt:76 | The rendering is never empty and starts with '-' exactly for a negative id. |
| `Text.IntToStringRoundTrip` | app/src/main/java/com/example/powerplay/ui/adapter/ProductAdapter.kt:76 | The id's decimal rendering reads back to the id. |
| `ImageUrls.FindKey` | app/src/main/java/com/example/powerplay/ui/adapter/ProductAdapter.kt:72-74 | `find` returns a key exactly when some key occurs in the text, and the key it returns is the first one, in declared order, that occurs. |
| `ImageUrls.Get` | app/src/main/java/com/example/powerplay/ui/adapter/ProductAdapter.kt:76 | The map lookup is absent exactly for an absent key or a key no entry has; otherwise it is the URL of the last entry with that key, as a `mapOf` literal that repeats a key keeps its last value. |
| `ImageUrls.GetDistinct` | app/src/main/java/com/example/powerplay/ui/adapter/ProductAdapter.kt:76 | With no keyword repeated, looking up any entry's key gives that entry's URL. |
| `ImageUrls.FindFirst` | app/src/main/java/com/example/powerplay/ui/adapter/ProductAdapter.kt:72-74 | `find` returns the key of the first matching entry. |
| `ImageUrls.FindThenGet` | app/src/main/java/com/example/powerplay/ui/adapter/ProductAdapter.kt:72-76 | Once some keyword matches, looking up the found key always finds a URL: the one the map holds for the first matching keyword, which is that entry's own URL when no keyword is repeated. |
| `ImageUrls.WorkingImageUrl` | app/src/main/java/com/example/powerplay/ui/adapter/ProductAdapter.kt:60-77 | The URL the map holds for the first matching keyword (that entry's own URL when no keyword is repeated), or the fallback prefix followed by the id when no keyword matches. |
| `Adapter.GetWorkingImageUrl` | app/src/main/java/com/example/powerplay/ui/adapter/ProductAdapter.kt:60-77 | The list item's URL: the first keyword found in the lower-cased title picks its 300/300 image; with no keyword, "…300/300?random=" followed by the id. |
| `Adapter.KeysDistinct` | app/src/main/java/com/example/powerplay/ui/adapter/ProductAdapter.kt:62-69 | The list item's map declares no keyword twice. |
| `Adapter.ImageMapLayout` | app/src/main/java/com/example/powerplay/ui/adapter/ProductAdapter.kt:62-69 | The keywords are smartphone, earbuds, laptop, watch, mouse, charger, in that order; keyword i maps to image i + 1. |
| `Adapter.LaptopExample` | app/src/main/java/com/example/powerplay/ui/adapter/ProductAdapter.kt:65 | The title "laptop" gives "https://picsum.photos/300/300?random=3". |
| `Adapter.IgnoresTitleCase` | app/src/main/java/com/example/powerplay/ui/adapter/ProductAdapter.kt:73 | Upper-casing the title does not change the URL. |
| `Adapter.ImageFieldNotConsulted` | app/src/main/java/com/example/powerplay/ui/adapter/ProductAdapter.kt:60-77 | Products with the same title and id get the same URL, whatever their image, price or other fields. |
| `Adapter.FallbackIdentifiesProduct` | app/src/main/java/com/example/powerplay/ui/adapter/ProductAdapter.kt:76 | Two products whose titles match no keyword get different fallback URLs when their ids differ. |
| `Adapter.AreItemsTheSame` | app/src/main/java/com/example/powerplay/ui/adapter/ProductAdapter.kt:81-83 | Equal products are the same item, and the same item means equal ids. |
| `Adapter.AreContentsTheSame` | app/src/main/java/com/example/powerplay/ui/adapter/ProductAdapter.kt:85-87 | Same contents means equal title, price and image. |
| `Adapter.ContentsSameImpliesItemsSame` | app/src/main/java/com/example/powerplay/ui/adapter/ProductAdapter.kt:80-88 | `areContentsTheSame` (all fields equal) implies `areItemsTheSame` (equal ids). |
| `ProductDetail.ProductIdExtra` | app/src/main/java/com/example/powerplay/ui/productdetail/ProductDetailActivity.kt:42 | A missing id extra reads as -1; a present one as its value. |
| `ProductDetail.TitleExtra` | app/src/main/java/com/example/powerplay/ui/productdetail/ProductDetailActivity.kt:43 | A missing title extra reads as the empty string. |
| `ProductDetail.GetWorkingImageUrl` | app/src/main/java/com/example/powerplay/ui/productdetail/ProductDetailActivity.kt:66-83 | The detail URL: the first keyword found in the lower-cased title picks its 400/400 image; otherwise "…400/400?random=" followed by productId. |
| `ProductDetail.WatchExample` | app/src/main/java/com/example/powerplay/ui/productdetail/ProductDetailActivity.kt:72 | The title "watch" gives "https://picsum.photos/400/400?random=4". |
| `ProductDetail.MissingExtras` | app/src/main/java/com/example/powerplay/ui/productdetail/ProductDetailActivity.kt:42-56 | With neither the id nor the title extra present, the URL is "https://picsum.photos/400/400?random=-1". |
| `ProductDetail.KeysDistinct` | app/src/main/java/com/example/powerplay/ui/productdetail/ProductDetailActivity.kt:68-75 | The detail screen's map declares no keyword twice. |
| `ProductDetail.SameKeywordsAsAdapter` | app/src/main/java/com/example/powerplay/ui/productdetail/ProductDetailActivity.kt:68-75 | Same six keywords in the same order as the list item; each URL differs only in the size prefix. |
| `ProductDetail.SameChoiceAsAdapter` | app/src/main/java/com/example/powerplay/ui/productdetail/ProductDetailActivity.kt:66-83 | For every product, the detail URL and the list-item URL agree after their size prefixes. |

## Left out

- Callbacks given to `onSuccess`, `onError` and `onException` are assumed to return normally. A
  throw or a non-local return from the inlined lambda would cut a chain short, which
  `NetworkResults.ChainReturnsReceiver` and `NetworkResults.ChainInvocations` do not cover.
- Coroutines and LiveData. `viewModelScope.launch`, dispatchers and observer replay are not
  modelled. The fields are plain class fields, and each load is a begin step and a complete
  step that callers order themselves. The model therefore does not show races between
  overlapping page-0 loads. A refresh that resets `isLoadingNextPage` while a next-page load is
  in flight is shown only as a call order (`ProductList.RefreshReopensNextPage`), not as a race.
- The remote call (ProductApiService.kt and Retrofit/OkHttp). Its outcome is an input of
  `GetProducts`:
  - `page` is passed along but has no influence in the model;
  - the query defaults (limit 10, category "electronics") are not modelled;
  - Retrofit's 2xx rule for `isSuccessful` is taken as given.
- NetworkErrorHandler.HandleApiError: takes `response.code()` rather than the response
  object, the only part of the response it reads.
- Throwables that are not `Exception`s (JVM `Error`s) escape the repository's `catch`; the
  model's causes are all `Exception`s.
- The `ProductRepository` interface is not a trait (traits are not used here). The only
  implementation the controller sees is its result, passed to `CompleteLoad`.
- The try/catch around `getProductById` cannot trigger. The model is a plain lookup.
- `price: Double` and its `%.2f` formatting. Price is an opaque bit pattern.
- Unicode case folding. `lowercase()` is modelled on ASCII letters only.
- Kotlin's identity equality on `UiState.Loading`. Loading is a nullary constructor here.
- Not modelled, all UI glue or unparsed data:
  - ProductListFragment.kt, including its near-bottom scroll trigger;
  - ViewModelFactory.kt;
  - ErrorResponse.kt, which is never parsed;
  - Glide, `Log.d`, toolbar set-up, `bind` and `onSupportNavigateUp`.
- The build script and the instrumented Espresso test.
