/** The `products` entity: its two enumerations with their stored string
    values, and one row of the table. */
module ProductEntity {
  import opened Common

  datatype ProductStatus = Active | Inactive | OutOfStock

  datatype ProductCategory =
    Electronics | Clothing | Food | Books | Home | Sports | Beauty | Toys | Other

  /** The string stored for a status (the enum's value). */
  function StatusName(s: ProductStatus): string {
    match s
    case Active => "active"
    case Inactive => "inactive"
    case OutOfStock => "out_of_stock"
  }

  /** The status whose stored string is `s`, if any (what `IsEnum(ProductStatus)` accepts). */
  function ParseStatus(s: string): (r: Option<ProductStatus>)
    ensures r.Some? ==> StatusName(r.value) == s
    ensures r.None? <==> forall st :: StatusName(st) != s
  {
    if s == "active" then Some(Active)
    else if s == "inactive" then Some(Inactive)
    else if s == "out_of_stock" then Some(OutOfStock)
    else None
  }

  /** The string stored for a category (the enum's value). */
  function CategoryName(c: ProductCategory): string {
    match c
    case Electronics => "electronics"
    case Clothing => "clothing"
    case Food => "food"
    case Books => "books"
    case Home => "home"
    case Sports => "sports"
    case Beauty => "beauty"
    case Toys => "toys"
    case Other => "other"
  }

  /** The category whose stored string is `s`, if any (what `IsEnum(ProductCategory)` accepts). */
  function ParseCategory(s: string): (r: Option<ProductCategory>)
    ensures r.Some? ==> CategoryName(r.value) == s
    ensures r.None? <==> forall c :: CategoryName(c) != s
  {
    if s == "electronics" then Some(Electronics)
    else if s == "clothing" then Some(Clothing)
    else if s == "food" then Some(Food)
    else if s == "books" then Some(Books)
    else if s == "home" then Some(Home)
    else if s == "sports" then Some(Sports)
    else if s == "beauty" then Some(Beauty)
    else if s == "toys" then Some(Toys)
    else if s == "other" then Some(Other)
    else None
  }

  /** The column default of `status`. */
  const DefaultStatus: ProductStatus := Active

  /** One row of `products`. Money is in cents (`decimal(10,2)`), `rating`
      in hundredths (`decimal(3,2)`), `createdAt` a timestamp. */
  datatype Product = Product(
    id: int,
    name: string,
    description: string,
    price: int,
    stock: int,
    category: ProductCategory,
    status: ProductStatus,
    images: Option<seq<string>>,
    mainImage: Option<string>,
    sellerId: int,
    views: int,
    rating: int,
    reviewsCount: int,
    createdAt: int)
}
