/** The records the store and the screens pass around: a product and one page of the
    remote listing, with Kotlin's 32-bit `Int` and nullable types made explicit. */
module Models {

  /** Kotlin's nullable `T?`. */
  datatype Option<T> = None | Some(value: T)

  const Int32Min: int := -0x8000_0000
  const Int32Max: int := 0x7fff_ffff

  /** Kotlin's `Int`. */
  type Int32 = x: int | -0x8000_0000 <= x <= 0x7fff_ffff

  /** `x + 1` on Kotlin's `Int`, which wraps from the largest value to the smallest. */
  function Int32Inc(x: Int32): (r: Int32)
    ensures (r - x - 1) % 0x1_0000_0000 == 0
    ensures x < Int32Max ==> r == x + 1
  {
    if x == Int32Max then Int32Min else x + 1
  }

  /** A `Double`, kept as its IEEE-754 bit pattern; no arithmetic is done on it. */
  datatype Double = Double(bits: bv64)

  /** One product of the listing; `image` is a nullable URL. */
  datatype Product = Product(
    id: Int32,
    title: string,
    description: string,
    category: string,
    price: Double,
    image: Option<string>)

  /** One page of the listing; `nextPage` is absent on the last page. */
  datatype ProductsResponse = ProductsResponse(
    products: seq<Product>,
    nextPage: Option<Int32>,
    totalPages: Int32,
    currentPage: Int32,
    total: Int32)
}
