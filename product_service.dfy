/**
 * The product service: the row-to-record mapper, the insert row, the conditional
 * update payload and the error propagation of each call.
 */
module ProductService {
  import opened Wrappers
  import opened Types
  import opened Store

  const Table := "products"

  /**
   * An object sent to `products`: one optional JSON value per column the service writes,
   * None where the object has no such key. The fields are spelled as the store's columns.
   */
  datatype ProductColumns = ProductColumns(
    name: Option<Value>, description: Option<Value>, short_description: Option<Value>,
    price: Option<Value>, discounted_price: Option<Value>, currency: Option<Value>,
    vat_rate: Option<Value>, stock: Option<Value>, sku: Option<Value>, barcode: Option<Value>,
    category_id: Option<Value>, images: Option<Value>, is_featured: Option<Value>,
    is_active: Option<Value>, meta_title: Option<Value>, meta_description: Option<Value>,
    slug: Option<Value>, scent_notes: Option<Value>, fragrance_family: Option<Value>,
    concentration: Option<Value>, gender: Option<Value>, volume: Option<Value>,
    batch_code: Option<Value>, production_date: Option<Value>, expiration_date: Option<Value>)

  /** The empty object `{}`. */
  const NoColumns := ProductColumns(
    None, None, None, None, None, None, None, None, None, None, None, None, None,
    None, None, None, None, None, None, None, None, None, None, None, None)

  /**
   * A `products` row with its joined category name. Columns the mapper copies as they are
   * have the record's field type; `categories` is the joined name, None without a join.
   */
  datatype ProductRow = ProductRow(
    id: string, name: string, description: string, short_description: string,
    price: int, discounted_price: Option<int>, currency: string, vat_rate: int, stock: int,
    sku: string, barcode: Option<string>, category_id: string, categories: Option<string>,
    images: Option<seq<string>>, is_featured: bool, is_active: bool,
    meta_title: Option<string>, meta_description: Option<string>, slug: string,
    scent_notes: Option<ScentNotes>, fragrance_family: Option<FragranceFamily>,
    concentration: Option<Concentration>, gender: Option<Gender>, volume: Option<int>,
    batch_code: Option<string>, production_date: Option<string>, expiration_date: Option<string>,
    created_at: string, updated_at: string)

  /** `mapProduct`: renames columns to fields; the category name defaults to '' and images to []. */
  function MapProduct(p: ProductRow): (r: Product)
    ensures r.categoryName == OrElse(p.categories, "")
    ensures r.images == p.images.GetOr([])
    ensures r.id == p.id && r.shortDescription == p.short_description && r.discountedPrice == p.discounted_price
    ensures r.vatRate == p.vat_rate && r.categoryId == p.category_id && r.isFeatured == p.is_featured
    ensures r.isActive == p.is_active && r.createdAt == p.created_at && r.updatedAt == p.updated_at
    ensures r.name == p.name && r.description == p.description && r.price == p.price
    ensures r.currency == p.currency && r.stock == p.stock && r.sku == p.sku && r.barcode == p.barcode
    ensures r.metaTitle == p.meta_title && r.metaDescription == p.meta_description && r.slug == p.slug
    ensures r.scentNotes == p.scent_notes && r.fragranceFamily == p.fragrance_family
    ensures r.concentration == p.concentration && r.gender == p.gender && r.volume == p.volume
    ensures r.batchCode == p.batch_code && r.productionDate == p.production_date
    ensures r.expirationDate == p.expiration_date
  {
    Product(
      p.id, p.name, p.description, p.short_description, p.price, p.discounted_price,
      p.currency, p.vat_rate, p.stock, p.sku, p.barcode, p.category_id,
      OrElse(p.categories, ""), p.images.GetOr([]), p.is_featured, p.is_active,
      p.meta_title, p.meta_description, p.slug, p.scent_notes, p.fragrance_family,
      p.concentration, p.gender, p.volume, p.batch_code, p.production_date, p.expiration_date,
      p.created_at, p.updated_at)
  }

  function FamilyValue(f: Option<FragranceFamily>): Value {
    if f.Some? then JStr(f.value.Code()) else JNull
  }

  function ConcentrationValue(c: Option<Concentration>): Value {
    if c.Some? then JStr(c.value.Code()) else JNull
  }

  function GenderValue(g: Option<Gender>): Value {
    if g.Some? then JStr(g.value.Code()) else JNull
  }

  function NotesValue(n: Option<ScentNotes>): Value {
    if n.Some? then JNotes(n.value) else JNull
  }

  function ImagesValue(i: Option<seq<string>>): Value {
    if i.Some? then JList(i.value) else JNull
  }

  /** A defined field as the JSON written for it; undefined stays undefined. */
  function Defined<T>(o: Option<T>, f: Option<T> -> Value): Option<Value> {
    if o.Some? then Some(f(o)) else None
  }

  /**
   * The store kept what was inserted: every written column holds the written value,
   * and every column left out of the object holds null.
   */
  predicate Stores(c: ProductColumns, p: ProductRow) {
    && c.name.GetOr(JNull) == JStr(p.name)
    && c.description.GetOr(JNull) == JStr(p.description)
    && c.short_description.GetOr(JNull) == JStr(p.short_description)
    && c.price.GetOr(JNull) == JInt(p.price)
    && c.discounted_price.GetOr(JNull) == NullableInt(p.discounted_price)
    && c.currency.GetOr(JNull) == JStr(p.currency)
    && c.vat_rate.GetOr(JNull) == JInt(p.vat_rate)
    && c.stock.GetOr(JNull) == JInt(p.stock)
    && c.sku.GetOr(JNull) == JStr(p.sku)
    && c.barcode.GetOr(JNull) == NullableStr(p.barcode)
    && c.category_id.GetOr(JNull) == JStr(p.category_id)
    && c.images.GetOr(JNull) == ImagesValue(p.images)
    && c.is_featured.GetOr(JNull) == JBool(p.is_featured)
    && c.is_active.GetOr(JNull) == JBool(p.is_active)
    && c.meta_title.GetOr(JNull) == NullableStr(p.meta_title)
    && c.meta_description.GetOr(JNull) == NullableStr(p.meta_description)
    && c.slug.GetOr(JNull) == JStr(p.slug)
    && c.scent_notes.GetOr(JNull) == NotesValue(p.scent_notes)
    && c.fragrance_family.GetOr(JNull) == FamilyValue(p.fragrance_family)
    && c.concentration.GetOr(JNull) == ConcentrationValue(p.concentration)
    && c.gender.GetOr(JNull) == GenderValue(p.gender)
    && c.volume.GetOr(JNull) == NullableInt(p.volume)
    && c.batch_code.GetOr(JNull) == NullableStr(p.batch_code)
    && c.production_date.GetOr(JNull) == NullableStr(p.production_date)
    && c.expiration_date.GetOr(JNull) == NullableStr(p.expiration_date)
  }

  /**
   * The row `create` inserts. An undefined field is left out of the object; the two dates
   * are always written, as null when undefined or empty.
   */
  function CreateRow(d: ProductPartial): (row: ProductColumns)
    ensures row.production_date.Some? && row.expiration_date.Some?
    ensures row.production_date.value == JNull <==> d.productionDate.None? || d.productionDate.value == ""
    ensures row.expiration_date.value == JNull <==> d.expirationDate.None? || d.expirationDate.value == ""
    ensures row.name.Some? <==> d.name.Some?
    ensures row.description.Some? <==> d.description.Some?
    ensures row.short_description.Some? <==> d.shortDescription.Some?
    ensures row.price.Some? <==> d.price.Some?
    ensures row.discounted_price.Some? <==> d.discountedPrice.Some?
    ensures row.currency.Some? <==> d.currency.Some?
    ensures row.vat_rate.Some? <==> d.vatRate.Some?
    ensures row.stock.Some? <==> d.stock.Some?
    ensures row.sku.Some? <==> d.sku.Some?
    ensures row.barcode.Some? <==> d.barcode.Some?
    ensures row.category_id.Some? <==> d.categoryId.Some?
    ensures row.images.Some? <==> d.images.Some?
    ensures row.is_featured.Some? <==> d.isFeatured.Some?
    ensures row.is_active.Some? <==> d.isActive.Some?
    ensures row.meta_title.Some? <==> d.metaTitle.Some?
    ensures row.meta_description.Some? <==> d.metaDescription.Some?
    ensures row.slug.Some? <==> d.slug.Some?
    ensures row.scent_notes.Some? <==> d.scentNotes.Some?
    ensures row.fragrance_family.Some? <==> d.fragranceFamily.Some?
    ensures row.concentration.Some? <==> d.concentration.Some?
    ensures row.gender.Some? <==> d.gender.Some?
    ensures row.volume.Some? <==> d.volume.Some?
    ensures row.batch_code.Some? <==> d.batchCode.Some?
  {
    ProductColumns(
      OptStr(d.name), OptStr(d.description), OptStr(d.shortDescription), OptInt(d.price),
      OptInt(d.discountedPrice), OptStr(d.currency), OptInt(d.vatRate), OptInt(d.stock),
      OptStr(d.sku), OptStr(d.barcode), OptStr(d.categoryId), Defined(d.images, ImagesValue),
      OptBool(d.isFeatured), OptBool(d.isActive), OptStr(d.metaTitle), OptStr(d.metaDescription),
      OptStr(d.slug), Defined(d.scentNotes, NotesValue), Defined(d.fragranceFamily, FamilyValue),
      Defined(d.concentration, ConcentrationValue), Defined(d.gender, GenderValue),
      OptInt(d.volume), OptStr(d.batchCode),
      Some(EmptyAsNull(d.productionDate.GetOr(""))), Some(EmptyAsNull(d.expirationDate.GetOr(""))))
  }

  /** Each defined field of the partial is written as its JSON value, and a non-empty date as its text. */
  lemma CreateRowWrites(d: ProductPartial)
    ensures d.name.Some? ==> CreateRow(d).name.value == JStr(d.name.value)
    ensures d.description.Some? ==> CreateRow(d).description.value == JStr(d.description.value)
    ensures d.shortDescription.Some? ==> CreateRow(d).short_description.value == JStr(d.shortDescription.value)
    ensures d.price.Some? ==> CreateRow(d).price.value == JInt(d.price.value)
    ensures d.discountedPrice.Some? ==> CreateRow(d).discounted_price.value == JInt(d.discountedPrice.value)
    ensures d.currency.Some? ==> CreateRow(d).currency.value == JStr(d.currency.value)
    ensures d.vatRate.Some? ==> CreateRow(d).vat_rate.value == JInt(d.vatRate.value)
    ensures d.stock.Some? ==> CreateRow(d).stock.value == JInt(d.stock.value)
    ensures d.sku.Some? ==> CreateRow(d).sku.value == JStr(d.sku.value)
    ensures d.barcode.Some? ==> CreateRow(d).barcode.value == JStr(d.barcode.value)
    ensures d.categoryId.Some? ==> CreateRow(d).category_id.value == JStr(d.categoryId.value)
    ensures d.isFeatured.Some? ==> CreateRow(d).is_featured.value == JBool(d.isFeatured.value)
    ensures d.isActive.Some? ==> CreateRow(d).is_active.value == JBool(d.isActive.value)
    ensures d.metaTitle.Some? ==> CreateRow(d).meta_title.value == JStr(d.metaTitle.value)
    ensures d.metaDescription.Some? ==> CreateRow(d).meta_description.value == JStr(d.metaDescription.value)
    ensures d.slug.Some? ==> CreateRow(d).slug.value == JStr(d.slug.value)
    ensures d.volume.Some? ==> CreateRow(d).volume.value == JInt(d.volume.value)
    ensures d.batchCode.Some? ==> CreateRow(d).batch_code.value == JStr(d.batchCode.value)
    ensures d.images.Some? ==> CreateRow(d).images.value == JList(d.images.value)
    ensures d.scentNotes.Some? ==> CreateRow(d).scent_notes.value == JNotes(d.scentNotes.value)
    ensures d.fragranceFamily.Some? ==> CreateRow(d).fragrance_family.value == JStr(d.fragranceFamily.value.Code())
    ensures d.concentration.Some? ==> CreateRow(d).concentration.value == JStr(d.concentration.value.Code())
    ensures d.gender.Some? ==> CreateRow(d).gender.value == JStr(d.gender.value.Code())
    ensures d.productionDate.Some? && d.productionDate.value != "" ==> CreateRow(d).production_date.value == JStr(d.productionDate.value)
    ensures d.expirationDate.Some? && d.expirationDate.value != "" ==> CreateRow(d).expiration_date.value == JStr(d.expirationDate.value)
  {
  }

  /** Every field of a product as a defined partial, as the form holds a loaded product. */
  function AsPartial(p: Product): ProductPartial {
    ProductPartial(
      Some(p.name), Some(p.description), Some(p.shortDescription), Some(p.price), p.discountedPrice,
      Some(p.currency), Some(p.vatRate), Some(p.stock), Some(p.sku), p.barcode, Some(p.categoryId),
      Some(p.images), Some(p.isFeatured), Some(p.isActive), p.metaTitle, p.metaDescription,
      Some(p.slug), p.scentNotes, p.fragranceFamily, p.concentration, p.gender, p.volume,
      p.batchCode, p.productionDate, p.expirationDate)
  }

  lemma FamilyCodeInjective(a: FragranceFamily, b: FragranceFamily)
    ensures a.Code() == b.Code() ==> a == b
  {
  }

  lemma ConcentrationCodeInjective(a: Concentration, b: Concentration)
    ensures a.Code() == b.Code() ==> a == b
  {
  }

  lemma GenderCodeInjective(a: Gender, b: Gender)
    ensures a.Code() == b.Code() ==> a == b
  {
  }

  /** The value read back from a nullable string column. */
  lemma ReadBackNullable(stored: Option<string>, written: Option<string>)
    requires NullableStr(stored) == (if written.Some? then JStr(written.value) else JNull)
    ensures stored == written
  {
  }

  /**
   * Creating a product and reading the inserted row back gives the same product in every
   * field create writes: only the id, the timestamps and the category name come from the
   * store, and an empty date comes back undefined.
   */
  lemma CreateReadBack(prod: Product, stored: ProductRow)
    requires Stores(CreateRow(AsPartial(prod)), stored)
    ensures MapProduct(stored) == prod.(id := stored.id, categoryName := OrElse(stored.categories, ""),
      productionDate := NonEmpty(prod.productionDate), expirationDate := NonEmpty(prod.expirationDate),
      createdAt := stored.created_at, updatedAt := stored.updated_at)
  {
    ReadBackText(prod, stored);
    ReadBackNumbers(prod, stored);
    ReadBackContent(prod, stored);
    ReadBackCodes(prod, stored);
  }

  /** The text columns of a created row read back as written. */
  lemma ReadBackText(prod: Product, stored: ProductRow)
    requires Stores(CreateRow(AsPartial(prod)), stored)
    ensures stored.name == prod.name && stored.description == prod.description
    ensures stored.short_description == prod.shortDescription && stored.currency == prod.currency
    ensures stored.sku == prod.sku && stored.category_id == prod.categoryId && stored.slug == prod.slug
    ensures stored.barcode == prod.barcode && stored.meta_title == prod.metaTitle
    ensures stored.meta_description == prod.metaDescription && stored.batch_code == prod.batchCode
  {
    var row := CreateRow(AsPartial(prod));
    assert row.name == Some(JStr(prod.name));
    ReadBackNullable(stored.barcode, prod.barcode);
    ReadBackNullable(stored.meta_title, prod.metaTitle);
    ReadBackNullable(stored.meta_description, prod.metaDescription);
    ReadBackNullable(stored.batch_code, prod.batchCode);
  }

  /** The numeric columns of a created row read back as written. */
  lemma ReadBackNumbers(prod: Product, stored: ProductRow)
    requires Stores(CreateRow(AsPartial(prod)), stored)
    ensures stored.price == prod.price && stored.vat_rate == prod.vatRate && stored.stock == prod.stock
    ensures stored.discounted_price == prod.discountedPrice && stored.volume == prod.volume
  {
    var row := CreateRow(AsPartial(prod));
    assert row.price == Some(JInt(prod.price)) && row.vat_rate == Some(JInt(prod.vatRate));
    assert row.stock == Some(JInt(prod.stock));
    assert row.discounted_price.GetOr(JNull) == NullableInt(prod.discountedPrice);
    assert row.volume.GetOr(JNull) == NullableInt(prod.volume);
  }

  /** The image, note and flag columns of a created row read back as written. */
  lemma ReadBackContent(prod: Product, stored: ProductRow)
    requires Stores(CreateRow(AsPartial(prod)), stored)
    ensures stored.images == Some(prod.images) && stored.scent_notes == prod.scentNotes
    ensures stored.is_featured == prod.isFeatured && stored.is_active == prod.isActive
  {
    var row := CreateRow(AsPartial(prod));
    assert row.images == Some(ImagesValue(Some(prod.images)));
    assert row.scent_notes == Defined(prod.scentNotes, NotesValue);
  }

  /** The enumerated and date columns of a created row read back as written, an empty date as undefined. */
  lemma ReadBackCodes(prod: Product, stored: ProductRow)
    requires Stores(CreateRow(AsPartial(prod)), stored)
    ensures stored.fragrance_family == prod.fragranceFamily && stored.concentration == prod.concentration
    ensures stored.gender == prod.gender
    ensures stored.production_date == NonEmpty(prod.productionDate)
    ensures stored.expiration_date == NonEmpty(prod.expirationDate)
  {
    ReadBackNullable(stored.production_date, NonEmpty(prod.productionDate));
    ReadBackNullable(stored.expiration_date, NonEmpty(prod.expirationDate));
    if prod.fragranceFamily.Some? { FamilyCodeInjective(stored.fragrance_family.value, prod.fragranceFamily.value); }
    if prod.concentration.Some? { ConcentrationCodeInjective(stored.concentration.value, prod.concentration.value); }
    if prod.gender.Some? { GenderCodeInjective(stored.gender.value, prod.gender.value); }
  }

  /** The columns `update` writes from the basic fields (the first five conditional writes). */
  method WriteBasics(p: ProductPartial, u: ProductColumns) returns (w: ProductColumns)
    ensures w == u.(name := w.name, description := w.description,
      short_description := w.short_description, price := w.price, discounted_price := w.discounted_price)
    ensures w.name == (if p.name.Some? then OptStr(p.name) else u.name)
    ensures w.description == (if p.description.Some? then OptStr(p.description) else u.description)
    ensures w.short_description == (if p.shortDescription.Some? then OptStr(p.shortDescription) else u.short_description)
    ensures w.price == (if p.price.Some? then OptInt(p.price) else u.price)
    ensures w.discounted_price == (if p.discountedPrice.Some? then OptInt(p.discountedPrice) else u.discounted_price)
  {
    w := u;
    if p.name.Some? { w := w.(name := Some(JStr(p.name.value))); }
    if p.description.Some? { w := w.(description := Some(JStr(p.description.value))); }
    if p.shortDescription.Some? { w := w.(short_description := Some(JStr(p.shortDescription.value))); }
    if p.price.Some? { w := w.(price := Some(JInt(p.price.value))); }
    if p.discountedPrice.Some? { w := w.(discounted_price := Some(JInt(p.discountedPrice.value))); }
  }

  /** The next five conditional writes: stock, the two flags, the category and the images. */
  method WriteStockAndFlags(p: ProductPartial, u: ProductColumns) returns (w: ProductColumns)
    ensures w == u.(stock := w.stock, is_active := w.is_active, is_featured := w.is_featured,
      category_id := w.category_id, images := w.images)
    ensures w.stock == (if p.stock.Some? then OptInt(p.stock) else u.stock)
    ensures w.is_active == (if p.isActive.Some? then OptBool(p.isActive) else u.is_active)
    ensures w.is_featured == (if p.isFeatured.Some? then OptBool(p.isFeatured) else u.is_featured)
    ensures w.category_id == (if p.categoryId.Some? then OptStr(p.categoryId) else u.category_id)
    ensures w.images == (if p.images.Some? then Defined(p.images, ImagesValue) else u.images)
  {
    w := u;
    if p.stock.Some? { w := w.(stock := Some(JInt(p.stock.value))); }
    if p.isActive.Some? { w := w.(is_active := Some(JBool(p.isActive.value))); }
    if p.isFeatured.Some? { w := w.(is_featured := Some(JBool(p.isFeatured.value))); }
    if p.categoryId.Some? { w := w.(category_id := Some(JStr(p.categoryId.value))); }
    if p.images.Some? { w := w.(images := Some(JList(p.images.value))); }
  }

  /** The perfume writes: notes, family, concentration and gender. */
  method WritePerfume(p: ProductPartial, u: ProductColumns) returns (w: ProductColumns)
    ensures w == u.(scent_notes := w.scent_notes, fragrance_family := w.fragrance_family,
      concentration := w.concentration, gender := w.gender)
    ensures w.scent_notes == (if p.scentNotes.Some? then Defined(p.scentNotes, NotesValue) else u.scent_notes)
    ensures w.fragrance_family == (if p.fragranceFamily.Some? then Defined(p.fragranceFamily, FamilyValue) else u.fragrance_family)
    ensures w.concentration == (if p.concentration.Some? then Defined(p.concentration, ConcentrationValue) else u.concentration)
    ensures w.gender == (if p.gender.Some? then Defined(p.gender, GenderValue) else u.gender)
  {
    w := u;
    if p.scentNotes.Some? { w := w.(scent_notes := Some(JNotes(p.scentNotes.value))); }
    if p.fragranceFamily.Some? { w := w.(fragrance_family := Some(FamilyValue(p.fragranceFamily))); }
    if p.concentration.Some? { w := w.(concentration := Some(ConcentrationValue(p.concentration))); }
    if p.gender.Some? { w := w.(gender := Some(GenderValue(p.gender))); }
  }

  /** The batch writes: volume, batch code and the two dates, an empty date as null. */
  method WriteBatch(p: ProductPartial, u: ProductColumns) returns (w: ProductColumns)
    ensures w == u.(volume := w.volume, batch_code := w.batch_code,
      production_date := w.production_date, expiration_date := w.expiration_date)
    ensures w.volume == (if p.volume.Some? then OptInt(p.volume) else u.volume)
    ensures w.batch_code == (if p.batchCode.Some? then OptStr(p.batchCode) else u.batch_code)
    ensures w.production_date == (if p.productionDate.Some? then Some(EmptyAsNull(p.productionDate.value)) else u.production_date)
    ensures w.expiration_date == (if p.expirationDate.Some? then Some(EmptyAsNull(p.expirationDate.value)) else u.expiration_date)
  {
    w := u;
    if p.volume.Some? { w := w.(volume := Some(JInt(p.volume.value))); }
    if p.batchCode.Some? { w := w.(batch_code := Some(JStr(p.batchCode.value))); }
    if p.productionDate.Some? { w := w.(production_date := Some(EmptyAsNull(p.productionDate.value))); }
    if p.expirationDate.Some? { w := w.(expiration_date := Some(EmptyAsNull(p.expirationDate.value))); }
  }

  /**
   * The change object of `update`, built one defined field at a time: it has a column
   * exactly when that field is defined. Currency, VAT rate, SKU, barcode, the SEO fields
   * and the slug are never written, even when given.
   */
  method UpdateChanges(p: ProductPartial) returns (u: ProductColumns)
    ensures u.currency.None? && u.vat_rate.None? && u.sku.None? && u.barcode.None?
    ensures u.meta_title.None? && u.meta_description.None? && u.slug.None?
    ensures u.name == OptStr(p.name) && u.description == OptStr(p.description)
    ensures u.short_description == OptStr(p.shortDescription)
    ensures u.price == OptInt(p.price) && u.discounted_price == OptInt(p.discountedPrice)
    ensures u.stock == OptInt(p.stock)
    ensures u.is_active == OptBool(p.isActive) && u.is_featured == OptBool(p.isFeatured)
    ensures u.category_id == OptStr(p.categoryId) && u.images == Defined(p.images, ImagesValue)
    ensures u.scent_notes == Defined(p.scentNotes, NotesValue)
    ensures u.fragrance_family == Defined(p.fragranceFamily, FamilyValue)
    ensures u.concentration == Defined(p.concentration, ConcentrationValue)
    ensures u.gender == Defined(p.gender, GenderValue)
    ensures u.volume == OptInt(p.volume) && u.batch_code == OptStr(p.batchCode)
    ensures u.production_date == (if p.productionDate.Some? then Some(EmptyAsNull(p.productionDate.value)) else None)
    ensures u.expiration_date == (if p.expirationDate.Some? then Some(EmptyAsNull(p.expirationDate.value)) else None)
  {
    u := NoColumns;
    u := WriteBasics(p, u);
    u := WriteStockAndFlags(p, u);
    u := WritePerfume(p, u);
    u := WriteBatch(p, u);
  }

  /** `getAll`: an error is rethrown; otherwise every row is mapped, in the order the store returned them. */
  function GetAll(reply: Reply<seq<ProductRow>>): (r: Outcome<seq<Product>>)
    ensures r.Err? <==> reply.error.Some?
    ensures r.Ok? ==>
      |r.value| == |reply.data.GetOr([])|
      && forall i :: 0 <= i < |r.value| ==> r.value[i] == MapProduct(reply.data.GetOr([])[i])
  {
    MapAllOrThrow(reply, MapProduct)
  }

  /** `getById`: an error is rethrown, and no row reads as undefined. */
  function GetById(reply: Outcome<Option<ProductRow>>): (r: Outcome<Option<Product>>)
    ensures r.Err? <==> reply.Err?
    ensures r.Ok? ==> (r.value.None? <==> reply.value.None?)
    ensures r.Ok? && r.value.Some? ==> r.value.value == MapProduct(reply.value.value)
  {
    match reply
    case Err(fault) => Err(fault)
    case Ok(row) => Ok(if row.Some? then Some(MapProduct(row.value)) else None)
  }

  /** `create`: inserts `CreateRow(d)` and maps the returned row, rethrowing an error. */
  function Create(d: ProductPartial, reply: Outcome<ProductRow>): (r: (Command<ProductColumns>, Outcome<Product>))
    ensures r.0 == Insert(Table, CreateRow(d))
    ensures r.1.Err? <==> reply.Err?
    ensures r.1.Ok? ==> r.1.value == MapProduct(reply.value)
  {
    (Insert(Table, CreateRow(d)), MapOneOrThrow(reply, MapProduct))
  }

  /** `update`: sends the change object for `id` and maps the returned row, rethrowing an error. */
  method Update(id: string, p: ProductPartial, reply: Outcome<ProductRow>)
    returns (sent: Command<ProductColumns>, r: Outcome<Product>)
    ensures sent.UpdateWhereId? && sent.table == Table && sent.id == id
    ensures sent.changes.currency.None? && sent.changes.vat_rate.None? && sent.changes.sku.None? && sent.changes.barcode.None?
    ensures sent.changes.meta_title.None? && sent.changes.meta_description.None? && sent.changes.slug.None?
    ensures sent.changes.name == OptStr(p.name) && sent.changes.description == OptStr(p.description)
    ensures sent.changes.short_description == OptStr(p.shortDescription)
    ensures sent.changes.price == OptInt(p.price) && sent.changes.discounted_price == OptInt(p.discountedPrice)
    ensures sent.changes.stock == OptInt(p.stock)
    ensures sent.changes.is_active == OptBool(p.isActive) && sent.changes.is_featured == OptBool(p.isFeatured)
    ensures sent.changes.category_id == OptStr(p.categoryId) && sent.changes.images == Defined(p.images, ImagesValue)
    ensures sent.changes.scent_notes == Defined(p.scentNotes, NotesValue)
    ensures sent.changes.fragrance_family == Defined(p.fragranceFamily, FamilyValue)
    ensures sent.changes.concentration == Defined(p.concentration, ConcentrationValue)
    ensures sent.changes.gender == Defined(p.gender, GenderValue)
    ensures sent.changes.volume == OptInt(p.volume) && sent.changes.batch_code == OptStr(p.batchCode)
    ensures sent.changes.production_date == (if p.productionDate.Some? then Some(EmptyAsNull(p.productionDate.value)) else None)
    ensures sent.changes.expiration_date == (if p.expirationDate.Some? then Some(EmptyAsNull(p.expirationDate.value)) else None)
    ensures r.Err? <==> reply.Err?
    ensures r.Ok? ==> r.value == MapProduct(reply.value)
  {
    var changes := UpdateChanges(p);
    sent := UpdateWhereId(Table, id, changes);
    r := MapOneOrThrow(reply, MapProduct);
  }

  /** `delete`: only the remote error matters, and it is rethrown. */
  function Delete(id: string, error: Option<Fault>): (r: (Command<ProductColumns>, Outcome<()>))
    ensures r.0 == DeleteWhereId(Table, id)
    ensures r.1.Err? <==> error.Some?
  {
    (DeleteWhereId(Table, id), ThrowIfError(error))
  }
}
