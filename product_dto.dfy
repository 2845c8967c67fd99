/** The request bodies of the catalog routes and the class-validator
    constraints the global `ValidationPipe` enforces on them. A property that
    is absent, or not of the decorated type, is `None`; money is in cents. */
module ProductDto {
  import opened Common
  import opened ProductEntity

  const MinNameLength := 3
  const MaxNameLength := 100
  const MinDescriptionLength := 10
  const MaxDescriptionLength := 2000
  /** `@Min(0.01)` on a price, in cents. */
  const MinPriceCents := 1

  datatype CreateProductDto = CreateProductDto(
    name: Option<string>,
    description: Option<string>,
    price: Option<int>,
    stock: Option<int>,
    category: Option<string>,
    status: Option<string>,
    images: Option<seq<string>>,
    mainImage: Option<string>)

  datatype UpdateProductDto = UpdateProductDto(
    name: Option<string>,
    description: Option<string>,
    price: Option<int>,
    stock: Option<int>,
    category: Option<string>,
    status: Option<string>,
    images: Option<seq<string>>,
    mainImage: Option<string>)

  datatype ProductFilterDto = ProductFilterDto(
    category: Option<string>,
    status: Option<string>,
    minPrice: Option<int>,
    maxPrice: Option<int>,
    search: Option<string>,
    sellerId: Option<int>)

  /** `@MinLength(3) @MaxLength(100)` */
  predicate ValidName(s: string) {
    MinNameLength <= |s| <= MaxNameLength
  }

  /** `@MinLength(10) @MaxLength(2000)` */
  predicate ValidDescription(s: string) {
    MinDescriptionLength <= |s| <= MaxDescriptionLength
  }

  /** `@IsNumber() @Min(0.01)` */
  predicate ValidPrice(cents: int) {
    cents >= MinPriceCents
  }

  /** `@IsNumber() @Min(0)` */
  predicate ValidStock(n: int) {
    n >= 0
  }

  /** `@IsEnum(ProductCategory)` */
  predicate ValidCategory(s: string) {
    ParseCategory(s).Some?
  }

  /** `@IsEnum(ProductStatus)` */
  predicate ValidStatus(s: string) {
    ParseStatus(s).Some?
  }

  /** A present optional property must satisfy `ok`; an absent one is skipped (`@IsOptional()`). */
  predicate IfPresent<T>(o: Option<T>, ok: T -> bool) {
    o.None? || ok(o.value)
  }

  /** Every create constraint: name, description, price, stock and category
      required and in range, status optional but a known value. */
  predicate ValidCreate(d: CreateProductDto) {
    && d.name.Some? && ValidName(d.name.value)
    && d.description.Some? && ValidDescription(d.description.value)
    && d.price.Some? && ValidPrice(d.price.value)
    && d.stock.Some? && ValidStock(d.stock.value)
    && d.category.Some? && ValidCategory(d.category.value)
    && IfPresent(d.status, ValidStatus)
  }

  /** Every update constraint: each property optional, and bounded as on
      creation when present. */
  predicate ValidUpdate(d: UpdateProductDto) {
    && IfPresent(d.name, ValidName)
    && IfPresent(d.description, ValidDescription)
    && IfPresent(d.price, ValidPrice)
    && IfPresent(d.stock, ValidStock)
    && IfPresent(d.category, ValidCategory)
    && IfPresent(d.status, ValidStatus)
  }

  /** Every filter constraint: known enum values, non-negative price bounds;
      search and seller are unconstrained and the bounds need not be ordered. */
  predicate ValidFilter(f: ProductFilterDto) {
    && IfPresent(f.category, ValidCategory)
    && IfPresent(f.status, ValidStatus)
    && IfPresent(f.minPrice, (m: int) => m >= 0)
    && IfPresent(f.maxPrice, (m: int) => m >= 0)
  }

  /** A create body read as an update body. */
  function AsUpdate(d: CreateProductDto): UpdateProductDto {
    UpdateProductDto(d.name, d.description, d.price, d.stock, d.category, d.status, d.images, d.mainImage)
  }

  /** Update bounds are the create bounds made optional: every valid create
      body is a valid update body, and an update body carrying every required
      create property is valid exactly when it is valid as a create body. */
  lemma UpdateBoundsMatchCreate(d: CreateProductDto)
    ensures ValidCreate(d) ==> ValidUpdate(AsUpdate(d))
    ensures d.name.Some? && d.description.Some? && d.price.Some? && d.stock.Some? && d.category.Some?
            ==> (ValidUpdate(AsUpdate(d)) <==> ValidCreate(d))
  {
  }

  /** The empty update body is valid. */
  lemma EmptyUpdateIsValid()
    ensures ValidUpdate(UpdateProductDto(None, None, None, None, None, None, None, None))
  {
  }
}
