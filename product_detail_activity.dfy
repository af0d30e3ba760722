/** The detail screen's placeholder-image choice, from the id and title passed to it. */
module ProductDetail {
  import opened Models
  import opened Text
  import opened ImageUrls
  import Adapter

  const FallbackPrefix: string := "https://picsum.photos/400/400?random="

  const ProductImageMap: ImageMap := [
    ("smartphone", "https://picsum.photos/400/400?random=1"),
    ("earbuds", "https://picsum.photos/400/400?random=2"),
    ("laptop", "https://picsum.photos/400/400?random=3"),
    ("watch", "https://picsum.photos/400/400?random=4"),
    ("mouse", "https://picsum.photos/400/400?random=5"),
    ("charger", "https://picsum.photos/400/400?random=6")
  ]

  /** `intent.getIntExtra(EXTRA_PRODUCT_ID, -1)`. */
  function ProductIdExtra(extra: Option<Int32>): (id: Int32)
    ensures extra.None? ==> id == -1
    ensures extra.Some? ==> id == extra.value
  {
    match extra
    case Some(v) => v
    case None => -1
  }

  /** `intent.getStringExtra(EXTRA_PRODUCT_TITLE) ?: ""`. */
  function TitleExtra(extra: Option<string>): (title: string)
    ensures extra.None? ==> title == ""
    ensures extra.Some? ==> title == extra.value
  {
    match extra
    case Some(t) => t
    case None => ""
  }

  /** No keyword is declared twice, so each keyword's lookup gives its own entry's URL. */
  lemma KeysDistinct()
    ensures DistinctKeys(ProductImageMap)
  {
  }

  /** `getWorkingImageUrl(title, productId)`: the URL of the first keyword, in declared order,
      found in the lower-cased title; otherwise the fallback followed by the id. */
  function GetWorkingImageUrl(title: string, productId: Int32): (r: string)
    ensures forall i :: FirstMatch(ProductImageMap, Lowercase(title), i) ==> r == ProductImageMap[i].1
    ensures NoMatch(ProductImageMap, Lowercase(title)) ==> r == FallbackPrefix + IntToString(productId)
  {
    KeysDistinct();
    WorkingImageUrl(ProductImageMap, FallbackPrefix, title, productId)
  }

  /** A title reading "watch" gets image 4. */
  lemma WatchExample(productId: Int32)
    ensures GetWorkingImageUrl("watch", productId) == "https://picsum.photos/400/400?random=4"
  {
    LowercaseOfLower("watch");
    assert !Contains("watch", "smartphone");
    assert !Contains("watch", "earbuds");
    assert !Contains("watch", "laptop");
    assert StartsWith("watch", "watch");
    assert FirstMatch(ProductImageMap, "watch", 3);
  }

  /** With neither extra present, the title is empty and the id -1, so the fallback ends in
      "random=-1". */
  lemma MissingExtras()
    ensures GetWorkingImageUrl(TitleExtra(None), ProductIdExtra(None)) ==
            "https://picsum.photos/400/400?random=-1"
  {
  }

  /** The detail screen declares the same keywords in the same order as the list item; only
      the size segment of each URL differs. */
  lemma SameKeywordsAsAdapter()
    ensures |ProductImageMap| == |Adapter.ProductImageMap| == 6
    ensures forall i :: 0 <= i < 6 ==> ProductImageMap[i].0 == Adapter.ProductImageMap[i].0
    ensures forall i :: 0 <= i < 6 ==> ProductImageMap[i].1 == FallbackPrefix + IntToString(i + 1)
    ensures forall i :: 0 <= i < 6 ==> Adapter.ProductImageMap[i].1 == Adapter.FallbackPrefix + IntToString(i + 1)
  {
  }

  /** For every product, the detail screen picks the same image number, or the same id, as
      the list item: the two URLs differ only in their size prefix. */
  lemma SameChoiceAsAdapter(product: Product)
    ensures |GetWorkingImageUrl(product.title, product.id)| >= |FallbackPrefix|
    ensures |Adapter.GetWorkingImageUrl(product)| >= |Adapter.FallbackPrefix|
    ensures GetWorkingImageUrl(product.title, product.id)[|FallbackPrefix|..] ==
            Adapter.GetWorkingImageUrl(product)[|Adapter.FallbackPrefix|..]
  {
    SameKeywordsAsAdapter();
    var text := Lowercase(product.title);
    if NoMatch(ProductImageMap, text) {
      assert NoMatch(Adapter.ProductImageMap, text);
    } else {
      FirstMatchExists(ProductImageMap, text);
      var i :| FirstMatch(ProductImageMap, text, i);
      assert FirstMatch(Adapter.ProductImageMap, text, i);
    }
  }
}
