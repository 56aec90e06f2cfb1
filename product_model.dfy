/**
 * The product schema (server/models/Product.js): the field constraints a
 * product document must satisfy to be saved, the defaults filled in on
 * creation, and the two computed getters `effectivePrice` and `hasDiscount`.
 * Prices are integer cents.
 */
module ProductModel {
  import opened Common
  import Text

  datatype Category = Mobiles | Laptops | Accessories

  function CategoryName(c: Category): string {
    match c
    case Mobiles => "Mobiles"
    case Laptops => "Laptops"
    case Accessories => "Accessories"
  }

  /** The schema's `enum` check on the category string. */
  function ParseCategory(s: string): (r: Option<Category>)
    ensures r.Some? <==> s == "Mobiles" || s == "Laptops" || s == "Accessories"
    ensures r.Some? ==> CategoryName(r.value) == s
  {
    if s == "Mobiles" then Some(Mobiles)
    else if s == "Laptops" then Some(Laptops)
    else if s == "Accessories" then Some(Accessories)
    else None
  }

  /** A saved product. `discountedPrice == None` is the schema's `null` ("no discount"). */
  datatype Product = Product(
    id: ProductId,
    title: string,
    description: string,
    price: int,
    discountedPrice: Option<int>,
    image: string,
    category: Category,
    inStock: bool,
    createdAt: int)

  /** What every saved product satisfies. Nothing ties `discountedPrice` to `price`. */
  predicate SatisfiesSchema(p: Product) {
    && p.title != "" && Text.Trim(p.title) == p.title
    && p.description != ""
    && p.price >= 0
    && (p.discountedPrice.Some? ==> p.discountedPrice.value >= 0)
    && p.image != ""
  }

  /** The fields of a document handed to `new Product(...)`; `None` is an absent field. */
  datatype ProductFields = ProductFields(
    title: Option<string>,
    description: Option<string>,
    price: Option<int>,
    discountedPrice: Option<int>,
    image: Option<string>,
    category: Option<string>,
    inStock: Option<bool>,
    createdAt: Option<int>)

  datatype Field = Title | Description | Price | DiscountedPrice | Image | CategoryField

  /** One failed validator; a path reports only its first failure, `required` first. */
  datatype FieldError = Required(field: Field) | BelowMinimum(field: Field) | NotInEnum(field: Field)

  /** `required: true` on a string path: absent and empty both fail. */
  function RequiredString(v: Option<string>, f: Field): seq<FieldError> {
    if v.None? || v.value == "" then [Required(f)] else []
  }

  /** The `title` setter trims before validation. */
  function TrimmedTitle(fields: ProductFields): Option<string> {
    if fields.title.Some? then Some(Text.Trim(fields.title.value)) else None
  }

  /** The validation errors of a new document, in schema field order. */
  function ValidationErrors(fields: ProductFields): seq<FieldError> {
    RequiredString(TrimmedTitle(fields), Title)
    + RequiredString(fields.description, Description)
    + (if fields.price.None? then [Required(Price)]
       else if fields.price.value < 0 then [BelowMinimum(Price)] else [])
    + (if fields.discountedPrice.Some? && fields.discountedPrice.value < 0 then [BelowMinimum(DiscountedPrice)] else [])
    + RequiredString(fields.image, Image)
    + (if fields.category.None? || fields.category.value == "" then [Required(CategoryField)]
       else if ParseCategory(fields.category.value).None? then [NotInEnum(CategoryField)] else [])
  }

  /**
   * `new Product(fields).save()`: either every constraint holds and the stored
   * product carries the given fields with the defaults filled in
   * (`discountedPrice` null, `inStock` true, `createdAt` the current time
   * `now`), or the validation errors are reported.
   */
  function CreateProduct(id: ProductId, fields: ProductFields, now: int): Result<Product, seq<FieldError>> {
    var errors := ValidationErrors(fields);
    if errors != [] then Err(errors)
    else
      Ok(Product(
        id,
        TrimmedTitle(fields).value,
        fields.description.value,
        fields.price.value,
        fields.discountedPrice,
        fields.image.value,
        ParseCategory(fields.category.value).value,
        fields.inStock.GetOr(true),
        fields.createdAt.GetOr(now)))
  }

  /** The constraints of the schema, stated field by field on the raw document. */
  predicate Acceptable(fields: ProductFields) {
    && fields.title.Some? && Text.Trim(fields.title.value) != ""
    && fields.description.Some? && fields.description.value != ""
    && fields.price.Some? && fields.price.value >= 0
    && (fields.discountedPrice.Some? ==> fields.discountedPrice.value >= 0)
    && fields.image.Some? && fields.image.value != ""
    && fields.category.Some? && fields.category.value in {"Mobiles", "Laptops", "Accessories"}
  }

  /** No validation error is reported exactly when the document is acceptable. */
  lemma ValidationErrorsSpec(fields: ProductFields)
    ensures ValidationErrors(fields) == [] <==> Acceptable(fields)
  {
    var cat := if fields.category.None? || fields.category.value == "" then [Required(CategoryField)]
       else if ParseCategory(fields.category.value).None? then [NotInEnum(CategoryField)] else [];
    assert cat == [] <==> fields.category.Some? && fields.category.value in {"Mobiles", "Laptops", "Accessories"};
  }

  /** Creation succeeds exactly for acceptable documents; otherwise the validation errors are reported. */
  lemma CreateProductOk(id: ProductId, fields: ProductFields, now: int)
    ensures CreateProduct(id, fields, now).Ok? <==> Acceptable(fields)
    ensures CreateProduct(id, fields, now).Err? ==>
      CreateProduct(id, fields, now).error == ValidationErrors(fields) != []
  {
    ValidationErrorsSpec(fields);
  }

  /**
   * What an acceptable document stores: the schema holds, the title is the
   * given one trimmed, the other given fields are kept, and the defaults fill
   * in what was not given.
   */
  lemma CreateProductStores(id: ProductId, fields: ProductFields, now: int)
    requires Acceptable(fields)
    ensures CreateProduct(id, fields, now).Ok?
    ensures var p := CreateProduct(id, fields, now).value;
      && SatisfiesSchema(p)
      && p.id == id
      && p.title == Text.Trim(fields.title.value)
      && p.description == fields.description.value
      && p.price == fields.price.value
      && p.discountedPrice == fields.discountedPrice
      && p.image == fields.image.value
      && CategoryName(p.category) == fields.category.value
      && p.inStock == (fields.inStock != Some(false))
      && p.createdAt == (if fields.createdAt.Some? then fields.createdAt.value else now)
  {
    ValidationErrorsSpec(fields);
    var category := ParseCategory(fields.category.value);
    var p := Product(id, Text.Trim(fields.title.value), fields.description.value, fields.price.value,
      fields.discountedPrice, fields.image.value, category.value, fields.inStock.GetOr(true), fields.createdAt.GetOr(now));
    assert CreateProduct(id, fields, now) == Ok(p);
    Text.TrimIdempotent(fields.title.value);
  }

  /** The schema does not forbid a "discounted" price above the regular price. */
  lemma SchemaAllowsDiscountAbovePrice()
    ensures var fields := ProductFields(Some("Phone"), Some("d"), Some(100), Some(150), Some("i"), Some("Mobiles"), None, None);
      && CreateProduct("p", fields, 0).Ok?
      && CreateProduct("p", fields, 0).value.discountedPrice.value > CreateProduct("p", fields, 0).value.price
  {
    var fields := ProductFields(Some("Phone"), Some("d"), Some(100), Some(150), Some("i"), Some("Mobiles"), None, None);
    assert Text.TrimStart("Phone") == "Phone";
    assert Text.TrimEnd("Phone") == "Phone";
    assert Acceptable(fields);
    CreateProductStores("p", fields, 0);
  }

  // ---- computed getters ---------------------------------------------------

  /** The `effectivePrice` getter: `discountedPrice || price`, so both null and 0 fall back to `price`. */
  function EffectivePrice(p: Product): (r: int)
    ensures r == p.price || Some(r) == p.discountedPrice
  {
    if p.discountedPrice.Some? && p.discountedPrice.value != 0 then p.discountedPrice.value else p.price
  }

  /** The `hasDiscount` getter: a non-null discounted price strictly below the price. */
  predicate HasDiscount(p: Product) {
    p.discountedPrice.Some? && p.discountedPrice.value < p.price
  }

  /** The effective price is always one of the two stored prices; 0 never counts as a discounted price. */
  lemma EffectivePriceChoice(p: Product)
    ensures EffectivePrice(p) == p.price || Some(EffectivePrice(p)) == p.discountedPrice
    ensures p.discountedPrice == None || p.discountedPrice == Some(0) ==> EffectivePrice(p) == p.price
    ensures p.discountedPrice.Some? && p.discountedPrice.value != 0 ==> EffectivePrice(p) == p.discountedPrice.value
  {
  }

  /** A real discount (positive and below the price) is what the customer pays. */
  lemma DiscountLowersPrice(p: Product)
    requires HasDiscount(p) && p.discountedPrice.value > 0
    ensures EffectivePrice(p) == p.discountedPrice.value < p.price
  {
  }

  /** The effective price exceeds the price exactly when a discounted price above it is stored. */
  lemma EffectivePriceAbovePriceIff(p: Product)
    requires p.price >= 0
    ensures EffectivePrice(p) > p.price <==> p.discountedPrice.Some? && p.discountedPrice.value > p.price
  {
  }

  /** A discounted price of 0 on a priced product: `hasDiscount` holds, yet nothing is taken off. */
  lemma ZeroDiscountedPriceIsNoReduction(p: Product)
    requires p.discountedPrice == Some(0) && p.price > 0
    ensures HasDiscount(p) && EffectivePrice(p) == p.price
  {
  }
}
