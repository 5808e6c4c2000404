/** The banner and showcase service: list reads that swallow errors, and partial writes. */
module BannerService {
  import opened Wrappers
  import opened Types
  import opened Store

  const BannerTable := "banners"
  const ShowcaseTable := "showcases"

  /** A `banners` row. */
  datatype BannerRow = BannerRow(
    id: string, title: string, subtitle: Option<string>, image: string, link: Option<string>,
    order: int, is_active: bool, created_at: string)

  /** A `showcases` row; `product_ids` may be null. */
  datatype ShowcaseRow = ShowcaseRow(
    id: string, kind: ShowcaseKind, title: string, content: Option<string>,
    product_ids: Option<seq<string>>, is_active: bool, order: int)

  /** An object sent to `banners`; a None column is a key left out. */
  datatype BannerColumns = BannerColumns(
    title: Option<Value>, subtitle: Option<Value>, image: Option<Value>, link: Option<Value>,
    order: Option<Value>, is_active: Option<Value>)

  /** An object sent to `showcases`. */
  datatype ShowcaseColumns = ShowcaseColumns(
    title: Option<Value>, content: Option<Value>, product_ids: Option<Value>,
    is_active: Option<Value>, order: Option<Value>)

  /** The fields of `Partial<Banner>` that the writes read. */
  datatype BannerChanges = BannerChanges(
    title: Option<string>, subtitle: Option<string>, image: Option<string>, link: Option<string>,
    order: Option<int>, isActive: Option<bool>)

  /** The fields of `Partial<Showcase>` that `updateShowcase` reads. */
  datatype ShowcaseChanges = ShowcaseChanges(
    title: Option<string>, content: Option<string>, productIds: Option<seq<string>>,
    isActive: Option<bool>, order: Option<int>)

  function MapBanner(b: BannerRow): (r: Banner)
    ensures r.isActive == b.is_active && r.createdAt == b.created_at && r.subtitle == b.subtitle
    ensures r.title == b.title && r.image == b.image && r.link == b.link && r.order == b.order
    ensures r.id == b.id
  {
    Banner(b.id, b.title, b.subtitle, b.image, b.link, b.order, b.is_active, b.created_at)
  }

  /** `mapShowcase`: missing product ids read as none. */
  function MapShowcase(s: ShowcaseRow): (r: Showcase)
    ensures r.productIds == Some(s.product_ids.GetOr([]))
    ensures r.kind == s.kind && r.isActive == s.is_active && r.order == s.order && r.content == s.content
    ensures r.id == s.id && r.title == s.title
  {
    Showcase(s.id, s.kind, s.title, s.content, Some(s.product_ids.GetOr([])), s.is_active, s.order)
  }

  /** The object both banner writes send: a key exactly for each defined field. */
  function BannerPayload(b: BannerChanges): BannerColumns {
    BannerColumns(OptStr(b.title), OptStr(b.subtitle), OptStr(b.image), OptStr(b.link),
      OptInt(b.order), OptBool(b.isActive))
  }

  /** The object `updateShowcase` sends. */
  function ShowcasePayload(s: ShowcaseChanges): ShowcaseColumns {
    ShowcaseColumns(OptStr(s.title), OptStr(s.content),
      if s.productIds.Some? then Some(JList(s.productIds.value)) else None,
      OptBool(s.isActive), OptInt(s.order))
  }

  /** Every column the object carries holds that value in the stored row. */
  predicate BannerHolds(c: BannerColumns, row: BannerRow) {
    && (c.title.Some? ==> c.title.value == JStr(row.title))
    && (c.subtitle.Some? ==> c.subtitle.value == NullableStr(row.subtitle))
    && (c.image.Some? ==> c.image.value == JStr(row.image))
    && (c.link.Some? ==> c.link.value == NullableStr(row.link))
    && (c.order.Some? ==> c.order.value == JInt(row.order))
    && (c.is_active.Some? ==> c.is_active.value == JBool(row.is_active))
  }

  predicate ShowcaseHolds(c: ShowcaseColumns, row: ShowcaseRow) {
    && (c.title.Some? ==> c.title.value == JStr(row.title))
    && (c.content.Some? ==> c.content.value == NullableStr(row.content))
    && (c.product_ids.Some? ==> row.product_ids.Some? && c.product_ids.value == JList(row.product_ids.value))
    && (c.is_active.Some? ==> c.is_active.value == JBool(row.is_active))
    && (c.order.Some? ==> c.order.value == JInt(row.order))
  }

  /** A banner written with some fields reads back with each of those fields as given. */
  lemma BannerReadBack(b: BannerChanges, stored: BannerRow)
    requires BannerHolds(BannerPayload(b), stored)
    ensures var r := MapBanner(stored);
      && (b.title.Some? ==> r.title == b.title.value)
      && (b.subtitle.Some? ==> r.subtitle == b.subtitle)
      && (b.image.Some? ==> r.image == b.image.value)
      && (b.link.Some? ==> r.link == b.link)
      && (b.order.Some? ==> r.order == b.order.value)
      && (b.isActive.Some? ==> r.isActive == b.isActive.value)
  {
    if b.subtitle.Some? {
      assert NullableStr(stored.subtitle) == JStr(b.subtitle.value);
    }
    if b.link.Some? {
      assert NullableStr(stored.link) == JStr(b.link.value);
    }
  }

  /** A showcase written with some fields reads back with each of those fields as given. */
  lemma ShowcaseReadBack(s: ShowcaseChanges, stored: ShowcaseRow)
    requires ShowcaseHolds(ShowcasePayload(s), stored)
    ensures var r := MapShowcase(stored);
      && (s.title.Some? ==> r.title == s.title.value)
      && (s.content.Some? ==> r.content == s.content)
      && (s.productIds.Some? ==> r.productIds == s.productIds)
      && (s.isActive.Some? ==> r.isActive == s.isActive.value)
      && (s.order.Some? ==> r.order == s.order.value)
  {
    if s.content.Some? {
      assert NullableStr(stored.content) == JStr(s.content.value);
    }
  }

  /** `getBanners`: never fails; an error or missing data gives no banners. */
  function GetBanners(reply: Reply<seq<BannerRow>>): (r: seq<Banner>)
    ensures reply.error.Some? || reply.data.None? ==> r == []
    ensures reply.error.None? && reply.data.Some? ==>
      |r| == |reply.data.value| && forall i :: 0 <= i < |r| ==> r[i] == MapBanner(reply.data.value[i])
  {
    MapAllOrEmpty(reply, MapBanner)
  }

  /** `createBanner`: inserts the defined fields and maps the returned row; an error is rethrown. */
  function CreateBanner(b: BannerChanges, reply: Outcome<BannerRow>): (r: (Command<BannerColumns>, Outcome<Banner>))
    ensures r.0.Insert? && r.0.table == BannerTable && r.0.row == BannerPayload(b)
    ensures r.1.Err? <==> reply.Err?
    ensures r.1.Ok? ==> r.1.value == MapBanner(reply.value)
  {
    (Insert(BannerTable, BannerPayload(b)), MapOneOrThrow(reply, MapBanner))
  }

  /** `updateBanner`: writes the defined fields of the banner `id` and maps the returned row. */
  function UpdateBanner(id: string, b: BannerChanges, reply: Outcome<BannerRow>): (r: (Command<BannerColumns>, Outcome<Banner>))
    ensures r.0 == UpdateWhereId(BannerTable, id, BannerPayload(b))
    ensures r.1.Err? <==> reply.Err?
    ensures r.1.Ok? ==> r.1.value == MapBanner(reply.value)
  {
    (UpdateWhereId(BannerTable, id, BannerPayload(b)), MapOneOrThrow(reply, MapBanner))
  }

  /** `deleteBanner`: an error is rethrown. */
  function DeleteBanner(id: string, error: Option<Fault>): (r: (Command<BannerColumns>, Outcome<()>))
    ensures r.0 == DeleteWhereId(BannerTable, id)
    ensures r.1.Err? <==> error.Some?
  {
    (DeleteWhereId(BannerTable, id), ThrowIfError(error))
  }

  /** `getShowcases`: never fails; an error or missing data gives no showcases. */
  function GetShowcases(reply: Reply<seq<ShowcaseRow>>): (r: seq<Showcase>)
    ensures reply.error.Some? || reply.data.None? ==> r == []
    ensures reply.error.None? && reply.data.Some? ==>
      |r| == |reply.data.value| && forall i :: 0 <= i < |r| ==> r[i] == MapShowcase(reply.data.value[i])
  {
    MapAllOrEmpty(reply, MapShowcase)
  }

  /** `updateShowcase`: writes the defined fields (never the kind) and maps the returned row. */
  function UpdateShowcase(id: string, s: ShowcaseChanges, reply: Outcome<ShowcaseRow>): (r: (Command<ShowcaseColumns>, Outcome<Showcase>))
    ensures r.0 == UpdateWhereId(ShowcaseTable, id, ShowcasePayload(s))
    ensures r.1.Err? <==> reply.Err?
    ensures r.1.Ok? ==> r.1.value == MapShowcase(reply.value)
  {
    (UpdateWhereId(ShowcaseTable, id, ShowcasePayload(s)), MapOneOrThrow(reply, MapShowcase))
  }
}
