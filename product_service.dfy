/**
 * The product facade: display helpers over a product record (`productUtils`)
 * and the list wrappers of `ProductService`, which forward paging to the
 * products query and default a missing list to the empty one.
 */
module ProductService {
  import opened Wrappers

  datatype Category = Category(id: string, name: string)

  /** A product as the products query returns it; `price` and `stock` are whole numbers here. */
  datatype Product = Product(
    id: string, name: string, description: string, price: int,
    image: Option<string>, stock: Option<int>,
    categoryId: Option<string>, category: Option<Category>,
    createdAt: Option<string>, updatedAt: Option<string>)

  /** The image shown when a product has none. */
  const PlaceholderImage: string := "/placeholder-product.jpg"

  /** `image || "/placeholder-product.jpg"`: the product's image when non-empty, the placeholder otherwise. */
  function GetImageUrl(image: Option<string>): (url: string)
    ensures url != ""
    ensures image.Some? && image.value != "" ==> url == image.value
    ensures image.None? || image.value == "" ==> url == PlaceholderImage
  {
    if image.Some? && image.value != "" then image.value else PlaceholderImage
  }

  /** Feeding a resolved URL back in changes nothing. */
  lemma GetImageUrlIdempotent(image: Option<string>)
    ensures GetImageUrl(Some(GetImageUrl(image))) == GetImageUrl(image)
  {
  }

  /** `product.stock || 0`: an absent stock counts as zero. */
  function StockOf(p: Product): (n: int)
    ensures p.stock.None? ==> n == 0
    ensures p.stock.Some? ==> n == p.stock.value
  {
    p.stock.GetOr(0)
  }

  /** `isInStock`: some stock is left. */
  function IsInStock(p: Product): (b: bool)
    ensures b <==> p.stock.Some? && p.stock.value > 0
  {
    StockOf(p) > 0
  }

  /** The three stock levels, lowest first. */
  datatype StockLevel = OutOfStock | RunningLow | Available {

    /** The label shown to the user. */
    function Label(): string {
      match this
      case Available => "Còn hàng"
      case RunningLow => "Sắp hết hàng"
      case OutOfStock => "Hết hàng"
    }

    /** Position in the order OutOfStock < RunningLow < Available. */
    function Rank(): nat {
      match this
      case OutOfStock => 0
      case RunningLow => 1
      case Available => 2
    }
  }

  /** The level of a stock count: above 10 available, 1 to 10 running low, otherwise out. */
  function LevelOf(stock: int): (l: StockLevel)
    ensures l == Available <==> stock > 10
    ensures l == RunningLow <==> 0 < stock <= 10
    ensures l == OutOfStock <==> stock <= 0
  {
    if stock > 10 then Available
    else if stock > 0 then RunningLow
    else OutOfStock
  }

  /** `getStockStatus`: the label of the product's stock level. */
  function GetStockStatus(p: Product): (status: string)
    ensures status == LevelOf(StockOf(p)).Label()
  {
    var stock := StockOf(p);
    if stock > 10 then "Còn hàng"
    else if stock > 0 then "Sắp hết hàng"
    else "Hết hàng"
  }

  /** The labels are pairwise distinct, so a label names one level. */
  lemma LabelInjective(a: StockLevel, b: StockLevel)
    requires a.Label() == b.Label()
    ensures a == b
  {
  }

  /** The status reads "Hết hàng" exactly when `isInStock` says no. */
  lemma StockStatusAgreesWithIsInStock(p: Product)
    ensures GetStockStatus(p) == OutOfStock.Label() <==> !IsInStock(p)
  {
  }

  /** More stock never gives a lower level. */
  lemma StockLevelMonotone(s1: int, s2: int)
    requires s1 <= s2
    ensures LevelOf(s1).Rank() <= LevelOf(s2).Rank()
  {
  }

  /** The variables the products query is actually sent: paging only. */
  datatype ProductsQuery = ProductsQuery(limit: Option<int>, offset: Option<int>)

  /** What the products query hook yields: the list when it has one, and the request state. */
  datatype QueryState = QueryState(products: Option<seq<Product>>, loading: bool, error: Option<string>)

  /** What the list wrappers hand to the page: always a list, plus the request state. */
  datatype ProductList = ProductList(products: seq<Product>, loading: bool, error: Option<string>)

  /** `products || []` with the request state passed through. */
  function OrEmpty(q: QueryState): (r: ProductList)
    ensures q.products.Some? ==> r.products == q.products.value
    ensures q.products.None? ==> r.products == []
    ensures r.loading == q.loading && r.error == q.error
  {
    ProductList(q.products.GetOr([]), q.loading, q.error)
  }

  /**
   * `useProducts(limit, offset, search, categoryId)`: asks the query with
   * limit and offset only; search and category are accepted and dropped.
   */
  function UseProducts(query: ProductsQuery -> QueryState, limit: Option<int>, offset: Option<int>,
                       search: Option<string>, categoryId: Option<string>): (r: ProductList)
    ensures var q := query(ProductsQuery(limit, offset));
      && (q.products.Some? ==> r.products == q.products.value)
      && (q.products.None? ==> r.products == [])
      && r.loading == q.loading && r.error == q.error
  {
    OrEmpty(query(ProductsQuery(limit, offset)))
  }

  /** `useSearchProducts(searchTerm, limit, offset)`: the search term never reaches the query. */
  function UseSearchProducts(query: ProductsQuery -> QueryState, searchTerm: string,
                             limit: Option<int>, offset: Option<int>): (r: ProductList)
    ensures r == UseProducts(query, limit, offset, None, None)
  {
    OrEmpty(query(ProductsQuery(limit, offset)))
  }

  /** `useProductsByCategory(categoryId, limit, offset)`: the category never reaches the query. */
  function UseProductsByCategory(query: ProductsQuery -> QueryState, categoryId: string,
                                 limit: Option<int>, offset: Option<int>): (r: ProductList)
    ensures r == UseProducts(query, limit, offset, None, None)
  {
    OrEmpty(query(ProductsQuery(limit, offset)))
  }

  /**
   * The filters are ignored: whatever search term or category `useProducts`
   * is given, it returns the same list for the same paging.
   */
  lemma FiltersIgnored(query: ProductsQuery -> QueryState, limit: Option<int>, offset: Option<int>,
                       search: Option<string>, categoryId: Option<string>)
    ensures UseProducts(query, limit, offset, search, categoryId) == UseProducts(query, limit, offset, None, None)
  {
  }
}
