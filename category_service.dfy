/** The category service: mapper, insert row, conditional update payload and error propagation. */
module CategoryService {
  import opened Wrappers
  import opened Types
  import opened Store

  const Table := "categories"

  /** A `categories` row; `description` may be null. */
  datatype CategoryRow = CategoryRow(
    id: string, name: string, description: Option<string>, order: int, is_active: bool, slug: string)

  /**
   * An object sent to `categories`, one optional JSON value per column (None: no such key).
   * The SEO columns are listed so that what is never written can be stated.
   */
  datatype CategoryColumns = CategoryColumns(
    name: Option<Value>, description: Option<Value>, order: Option<Value>, is_active: Option<Value>,
    slug: Option<Value>, meta_title: Option<Value>, meta_description: Option<Value>)

  /**
   * `mapCategory`: renames `is_active`; the product count is always 0, and the SEO fields,
   * the image and the parent are never read.
   */
  function MapCategory(c: CategoryRow): (r: Category)
    ensures r.productCount == 0
    ensures r.metaTitle.None? && r.metaDescription.None? && r.image.None? && r.parentId.None?
    ensures r.id == c.id && r.isActive == c.is_active && r.order == c.order && r.description == c.description
    ensures r.name == c.name && r.slug == c.slug
  {
    Category(c.id, c.name, c.description, None, None, c.order, c.is_active, None, None, c.slug, 0)
  }

  /** The row `create` inserts: exactly name, description, order, is_active and slug. */
  function CreateRow(c: CategoryPartial): (row: CategoryColumns)
    ensures row.meta_title.None? && row.meta_description.None?
    ensures row.is_active == OptBool(c.isActive) && row.order == OptInt(c.order)
    ensures row.name == OptStr(c.name) && row.description == OptStr(c.description) && row.slug == OptStr(c.slug)
  {
    CategoryColumns(OptStr(c.name), OptStr(c.description), OptInt(c.order), OptBool(c.isActive),
      OptStr(c.slug), None, None)
  }

  /** The store kept what was inserted; an omitted column holds null. */
  predicate Stores(c: CategoryColumns, row: CategoryRow) {
    && c.name.GetOr(JNull) == JStr(row.name)
    && c.description.GetOr(JNull) == NullableStr(row.description)
    && c.order.GetOr(JNull) == JInt(row.order)
    && c.is_active.GetOr(JNull) == JBool(row.is_active)
    && c.slug.GetOr(JNull) == JStr(row.slug)
  }

  /**
   * A created category reads back with the name, description, order, status and slug it was
   * created with, but without its SEO fields and with a product count of 0.
   */
  lemma CreateReadBack(c: CategoryPartial, stored: CategoryRow)
    requires c.name.Some? && c.description.Some? && c.order.Some? && c.isActive.Some? && c.slug.Some?
    requires Stores(CreateRow(c), stored)
    ensures var r := MapCategory(stored);
      r.name == c.name.value && r.description == c.description && r.order == c.order.value
      && r.isActive == c.isActive.value && r.slug == c.slug.value
      && r.metaTitle.None? && r.metaDescription.None? && r.productCount == 0
  {
    assert NullableStr(stored.description) == JStr(c.description.value);
  }

  /** The change object of `update`: a column exactly for each defined field among the five it knows. */
  method UpdateChanges(c: CategoryPartial) returns (u: CategoryColumns)
    ensures u.name == OptStr(c.name) && u.description == OptStr(c.description)
    ensures u.order == OptInt(c.order) && u.is_active == OptBool(c.isActive) && u.slug == OptStr(c.slug)
    ensures u.meta_title.None? && u.meta_description.None?
  {
    u := CategoryColumns(None, None, None, None, None, None, None);
    if c.name.Some? { u := u.(name := Some(JStr(c.name.value))); }
    if c.description.Some? { u := u.(description := Some(JStr(c.description.value))); }
    if c.order.Some? { u := u.(order := Some(JInt(c.order.value))); }
    if c.isActive.Some? { u := u.(is_active := Some(JBool(c.isActive.value))); }
    if c.slug.Some? { u := u.(slug := Some(JStr(c.slug.value))); }
  }

  /** `getAll`: an error is rethrown; otherwise every row is mapped in order. */
  function GetAll(reply: Reply<seq<CategoryRow>>): (r: Outcome<seq<Category>>)
    ensures r.Err? <==> reply.error.Some?
    ensures r.Ok? ==> |r.value| == |reply.data.GetOr([])|
    ensures r.Ok? ==> forall i :: 0 <= i < |r.value| ==> r.value[i] == MapCategory(reply.data.GetOr([])[i])
    ensures r.Ok? ==> forall i :: 0 <= i < |r.value| ==> r.value[i].productCount == 0
  {
    MapAllOrThrow(reply, MapCategory)
  }

  /** `update`: sends the change object for `id`; an error is rethrown. */
  method Update(id: string, c: CategoryPartial, reply: Outcome<CategoryRow>)
    returns (sent: Command<CategoryColumns>, r: Outcome<Category>)
    ensures sent.UpdateWhereId? && sent.table == Table && sent.id == id
    ensures sent.changes.name == OptStr(c.name) && sent.changes.description == OptStr(c.description)
    ensures sent.changes.order == OptInt(c.order) && sent.changes.is_active == OptBool(c.isActive)
    ensures sent.changes.slug == OptStr(c.slug)
    ensures sent.changes.meta_title.None? && sent.changes.meta_description.None?
    ensures r.Err? <==> reply.Err?
    ensures r.Ok? ==> r.value == MapCategory(reply.value)
  {
    var changes := UpdateChanges(c);
    sent := UpdateWhereId(Table, id, changes);
    r := MapOneOrThrow(reply, MapCategory);
  }

  /** `create`: inserts `CreateRow(c)`; an error is rethrown. */
  function Create(c: CategoryPartial, reply: Outcome<CategoryRow>): (r: (Command<CategoryColumns>, Outcome<Category>))
    ensures r.0 == Insert(Table, CreateRow(c))
    ensures r.1.Err? <==> reply.Err?
    ensures r.1.Ok? ==> r.1.value == MapCategory(reply.value)
  {
    (Insert(Table, CreateRow(c)), MapOneOrThrow(reply, MapCategory))
  }

  /** `delete`: an error is rethrown. */
  function Delete(id: string, error: Option<Fault>): (r: (Command<CategoryColumns>, Outcome<()>))
    ensures r.0 == DeleteWhereId(Table, id)
    ensures r.1.Err? <==> error.Some?
  {
    (DeleteWhereId(Table, id), ThrowIfError(error))
  }
}
