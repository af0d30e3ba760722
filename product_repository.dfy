/** The product store: it turns the remote call's outcome into a NetworkResult and keeps
    every product it has seen in an in-memory cache keyed by id. */
module Repository {
  import opened Models
  import opened NetworkResults
  import opened NetworkErrorHandler

  /** What `apiService.getProducts(page)` produced: an HTTP response with a status and a
      possibly absent body, or a thrown `Exception`. */
  datatype ApiOutcome =
    | Response(status: Int32, body: Option<ProductsResponse>)
    | Thrown(cause: Throwable)

  /** Retrofit's `Response.isSuccessful`: a status in the 2xx class. */
  predicate IsSuccessful(status: int)
    ensures IsSuccessful(status) <==> status / 100 == 2
  {
    200 <= status < 300
  }

  /** The ids of a page's products. */
  function Ids(ps: seq<Product>): set<Int32>
  {
    set p | p in ps :: p.id
  }

  /** The cache after writing `ps` into it one by one, in page order. */
  function StoreAll(cache: map<Int32, Product>, ps: seq<Product>): (r: map<Int32, Product>)
    ensures cache.Keys <= r.Keys
    ensures forall p :: p in ps ==> p.id in r
    decreases |ps|
  {
    if ps == [] then cache
    else
      var last := ps[|ps| - 1];
      StoreAll(cache, ps[..|ps| - 1])[last.id := last]
  }

  /** Afterwards the cache holds the old ids and every id of the page, and nothing else. */
  lemma {:induction false} StoreAllKeys(cache: map<Int32, Product>, ps: seq<Product>)
    ensures StoreAll(cache, ps).Keys == cache.Keys + Ids(ps)
    decreases |ps|
  {
    if ps != [] {
      StoreAllKeys(cache, ps[..|ps| - 1]);
      assert ps == ps[..|ps| - 1] + [ps[|ps| - 1]];
      assert Ids(ps) == Ids(ps[..|ps| - 1]) + {ps[|ps| - 1].id};
    }
  }

  /** The last product of the page with a given id is the one cached under it. */
  lemma {:induction false} StoreAllLastWins(cache: map<Int32, Product>, ps: seq<Product>, k: nat)
    requires k < |ps|
    requires forall j :: k < j < |ps| ==> ps[j].id != ps[k].id
    ensures ps[k].id in StoreAll(cache, ps) && StoreAll(cache, ps)[ps[k].id] == ps[k]
    decreases |ps|
  {
    if k < |ps| - 1 {
      StoreAllLastWins(cache, ps[..|ps| - 1], k);
    }
  }

  /** An id not on the page keeps its old entry, or stays absent. */
  lemma {:induction false} StoreAllKeepsOthers(cache: map<Int32, Product>, ps: seq<Product>, id: Int32)
    requires id !in Ids(ps)
    ensures id in StoreAll(cache, ps) <==> id in cache
    ensures id in cache ==> StoreAll(cache, ps)[id] == cache[id]
    decreases |ps|
  {
    if ps != [] {
      assert ps[|ps| - 1] in ps;
      assert Ids(ps[..|ps| - 1]) <= Ids(ps) by {
        forall p | p in ps[..|ps| - 1] ensures p in ps { }
      }
      StoreAllKeepsOthers(cache, ps[..|ps| - 1], id);
    }
  }

  class ProductRepositoryImpl {
    /** The in-memory cache, id to the last product seen with that id. */
    var productCache: map<Int32, Product>

    constructor ()
      ensures productCache == map[]
    {
      productCache := map[];
    }

    /** `getProducts(page)`, given what the remote call for that page produced. */
    method GetProducts(page: Int32, outcome: ApiOutcome) returns (r: NetworkResult<ProductsResponse>)
      modifies this
      ensures outcome.Response? && IsSuccessful(outcome.status) && outcome.body.Some? ==>
                r == Success(outcome.body.value) &&
                productCache == StoreAll(old(productCache), outcome.body.value.products)
      ensures outcome.Response? && IsSuccessful(outcome.status) && outcome.body.None? ==>
                r == Error("Empty response body") && productCache == old(productCache)
      ensures outcome.Response? && !IsSuccessful(outcome.status) ==>
                r == HandleApiError(outcome.status) && productCache == old(productCache)
      ensures outcome.Thrown? ==>
                r == HandleException(outcome.cause) && productCache == old(productCache)
      ensures old(productCache).Keys <= productCache.Keys
    {
      match outcome
      case Thrown(cause) =>
        r := HandleException(cause);
      case Response(status, body) =>
        if IsSuccessful(status) {
          match body
          case Some(productsResponse) =>
            var products := productsResponse.products;
            var i := 0;
            while i < |products|
              invariant 0 <= i <= |products|
              invariant productCache == StoreAll(old(productCache), products[..i])
            {
              assert products[..i + 1][..i] == products[..i];
              productCache := productCache[products[i].id := products[i]];
              i := i + 1;
            }
            assert products[..i] == products;
            StoreAllKeys(old(productCache), products);
            r := Success(productsResponse);
          case None =>
            r := Error("Empty response body");
        } else {
          r := HandleApiError(status);
        }
    }

    /** `getProductById(id)`: a lookup in the cache only, never a remote call. */
    method GetProductById(id: Int32) returns (r: NetworkResult<Product>)
      ensures id in productCache ==> r == Success(productCache[id])
      ensures id !in productCache ==> r == Error("Product not found") && r.code == None
    {
      if id in productCache {
        r := Success(productCache[id]);
      } else {
        r := Error("Product not found");
      }
    }
  }

  /** A product fetched on a successful page is served from the cache afterwards, whatever
      the cache held before, as long as no later product on the page shares its id. */
  method FetchThenLookup(repo: ProductRepositoryImpl, page: Int32, status: Int32,
                         response: ProductsResponse, k: nat)
      returns (fetched: NetworkResult<ProductsResponse>, found: NetworkResult<Product>)
    requires IsSuccessful(status)
    requires k < |response.products|
    requires forall j :: k < j < |response.products| ==> response.products[j].id != response.products[k].id
    modifies repo
    ensures fetched == Success(response)
    ensures found == Success(response.products[k])
  {
    fetched := repo.GetProducts(page, Response(status, Some(response)));
    StoreAllLastWins(old(repo.productCache), response.products, k);
    found := repo.GetProductById(response.products[k].id);
  }

  /** A 404 from the remote call yields Error("Not found", 404) for any page. */
  method NotFoundStatus(repo: ProductRepositoryImpl, page: Int32)
      returns (r: NetworkResult<ProductsResponse>)
    modifies repo
    ensures r == Error("Not found", Some(404))
    ensures repo.productCache == old(repo.productCache)
  {
    r := repo.GetProducts(page, Response(404, None));
  }
}
