/** The list item's placeholder-image choice and the list differ's identity rules. */
module Adapter {
  import opened Models
  import opened Text
  import opened ImageUrls

  const FallbackPrefix: string := "https://picsum.photos/300/300?random="

  const ProductImageMap: ImageMap := [
    ("smartphone", "https://picsum.photos/300/300?random=1"),
    ("earbuds", "https://picsum.photos/300/300?random=2"),
    ("laptop", "https://picsum.photos/300/300?random=3"),
    ("watch", "https://picsum.photos/300/300?random=4"),
    ("mouse", "https://picsum.photos/300/300?random=5"),
    ("charger", "https://picsum.photos/300/300?random=6")
  ]

  /** No keyword is declared twice, so each keyword's lookup gives its own entry's URL. */
  lemma KeysDistinct()
    ensures DistinctKeys(ProductImageMap)
  {
  }

  /** `getWorkingImageUrl(product)`: the URL of the first keyword, in declared order, found in
      the lower-cased title; otherwise the fallback followed by the product id. Only the
      title and the id are consulted. */
  function GetWorkingImageUrl(product: Product): (r: string)
    ensures forall i :: FirstMatch(ProductImageMap, Lowercase(product.title), i) ==>
              r == ProductImageMap[i].1
    ensures NoMatch(ProductImageMap, Lowercase(product.title)) ==>
              r == FallbackPrefix + IntToString(product.id)
  {
    KeysDistinct();
    WorkingImageUrl(ProductImageMap, FallbackPrefix, product.title, product.id)
  }

  /** The map's keys are the six keywords in declared order, and keyword `i` maps to image
      `i + 1`. */
  lemma ImageMapLayout()
    ensures |ProductImageMap| == 6
    ensures forall i :: 0 <= i < 6 ==>
              ProductImageMap[i].0 == ["smartphone", "earbuds", "laptop", "watch", "mouse", "charger"][i]
    ensures forall i :: 0 <= i < 6 ==> ProductImageMap[i].1 == FallbackPrefix + IntToString(i + 1)
  {
  }

  /** A title reading "laptop" gets image 3. */
  lemma LaptopExample(product: Product)
    requires product.title == "laptop"
    ensures GetWorkingImageUrl(product) == "https://picsum.photos/300/300?random=3"
  {
    LowercaseOfLower(product.title);
    assert !Contains("laptop", "smartphone");
    assert !Contains("laptop", "earbuds");
    assert StartsWith("laptop", "laptop");
    assert FirstMatch(ProductImageMap, "laptop", 2);
  }

  /** Matching ignores the case the title is written in. */
  lemma IgnoresTitleCase(product: Product)
    ensures GetWorkingImageUrl(product.(title := Uppercase(product.title))) == GetWorkingImageUrl(product)
  {
    LowercaseIgnoresCase(product.title);
  }

  /** The image is chosen from the title and the id alone: price, description, category and
      the product's own `image` URL play no part. */
  lemma ImageFieldNotConsulted(p: Product, q: Product)
    requires p.title == q.title && p.id == q.id
    ensures GetWorkingImageUrl(p) == GetWorkingImageUrl(q)
  {
  }

  /** Two products whose titles match no keyword get distinct fallback URLs when their ids
      differ. */
  lemma FallbackIdentifiesProduct(p: Product, q: Product)
    requires NoMatch(ProductImageMap, Lowercase(p.title))
    requires NoMatch(ProductImageMap, Lowercase(q.title))
    requires p.id != q.id
    ensures GetWorkingImageUrl(p) != GetWorkingImageUrl(q)
  {
    IntToStringRoundTrip(p.id);
    IntToStringRoundTrip(q.id);
    assert GetWorkingImageUrl(p)[|FallbackPrefix|..] == IntToString(p.id);
    assert GetWorkingImageUrl(q)[|FallbackPrefix|..] == IntToString(q.id);
  }

  /** `areItemsTheSame`: the same product, by id, however its other fields changed. */
  predicate AreItemsTheSame(oldItem: Product, newItem: Product)
    ensures oldItem == newItem ==> AreItemsTheSame(oldItem, newItem)
    ensures AreItemsTheSame(oldItem, newItem) ==> oldItem.id == newItem.id
  {
    oldItem.id == newItem.id
  }

  /** `areContentsTheSame`: every field equal, so title, price and image agree as well. */
  predicate AreContentsTheSame(oldItem: Product, newItem: Product)
    ensures AreContentsTheSame(oldItem, newItem) ==>
              oldItem.title == newItem.title && oldItem.price == newItem.price &&
              oldItem.image == newItem.image
  {
    oldItem == newItem
  }

  /** Equal contents imply the same item, so the differ never reports a changed item as
      unchanged nor an unchanged one as a different item. */
  lemma ContentsSameImpliesItemsSame(oldItem: Product, newItem: Product)
    requires AreContentsTheSame(oldItem, newItem)
    ensures AreItemsTheSame(oldItem, newItem)
  {
  }
}
