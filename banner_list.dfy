/**
 * The banner and showcase page. It works on local lists seeded from the initial data: edits,
 * additions, status toggles and deletes change the lists directly, with no remote call.
 */
module BannerList {
  import opened Wrappers
  import opened Types
  import opened Seqs

  const PlaceholderImage := "/banners/placeholder.jpg"

  /** The two tabs of the page. */
  datatype Tab = BannersTab | ShowcaseTab

  /** The banner modal's fields. */
  datatype BannerForm = BannerForm(title: string, subtitle: string, link: string, isActive: bool)

  const BlankForm := BannerForm("", "", "", true)

  /** The text inputs of the banner modal. */
  datatype BannerText = TitleInput | SubtitleInput | LinkInput

  /** `openEditModal`: an undefined subtitle or link is shown as ''. */
  function EditForm(b: Banner): (f: BannerForm)
    ensures f.title == b.title && f.isActive == b.isActive
    ensures f.subtitle == (if b.subtitle.Some? then b.subtitle.value else "")
    ensures f.link == (if b.link.Some? then b.link.value else "")
  {
    BannerForm(b.title, b.subtitle.GetOr(""), b.link.GetOr(""), b.isActive)
  }

  /** `{ ...b, ...formData }`: the four form fields overwrite the banner's. */
  function Merged(b: Banner, f: BannerForm): Banner {
    b.(title := f.title, subtitle := Some(f.subtitle), link := Some(f.link), isActive := f.isActive)
  }

  /** The banner `handleSave` appends: the form, the placeholder image and the next order. */
  function NewBanner(id: string, f: BannerForm, order: int, createdAt: string): Banner {
    Banner(id, f.title, Some(f.subtitle), PlaceholderImage, Some(f.link), order, f.isActive, createdAt)
  }

  predicate HasId(b: Banner, id: string) { b.id == id }

  predicate ShowcaseHasId(s: Showcase, id: string) { s.id == id }

  function Flipped(b: Banner): Banner { b.(isActive := !b.isActive) }

  function ShowcaseFlipped(s: Showcase): Showcase { s.(isActive := !s.isActive) }

  /** The list after saving an edit of the banner with that id. */
  function WithMerged(banners: seq<Banner>, id: string, f: BannerForm): seq<Banner> {
    MapWhere(banners, (b: Banner) => HasId(b, id), (b: Banner) => Merged(b, f))
  }

  /** `toggleBannerStatus` */
  function WithToggled(banners: seq<Banner>, id: string): seq<Banner> {
    MapWhere(banners, (b: Banner) => HasId(b, id), Flipped)
  }

  /** `deleteBanner` */
  function WithoutId(banners: seq<Banner>, id: string): seq<Banner> {
    Filter(banners, (b: Banner) => !HasId(b, id))
  }

  /** `toggleShowcaseStatus` */
  function WithShowcaseToggled(showcases: seq<Showcase>, id: string): seq<Showcase> {
    MapWhere(showcases, (s: Showcase) => ShowcaseHasId(s, id), ShowcaseFlipped)
  }

  /**
   * Saving an edit overwrites the title, subtitle, link and status of the banners with that id;
   * their id, image, order and creation time stay, and the other banners are untouched.
   */
  lemma WithMergedAt(banners: seq<Banner>, id: string, f: BannerForm, i: int)
    requires 0 <= i < |banners|
    ensures |WithMerged(banners, id, f)| == |banners|
    ensures var b := WithMerged(banners, id, f)[i];
      banners[i].id == id ==>
        && b.title == f.title && b.subtitle == Some(f.subtitle) && b.link == Some(f.link)
        && b.isActive == f.isActive && b.id == id && b.image == banners[i].image
        && b.order == banners[i].order && b.createdAt == banners[i].createdAt
    ensures banners[i].id != id ==> WithMerged(banners, id, f)[i] == banners[i]
  {
    MapWhereAt(banners, (b: Banner) => HasId(b, id), (b: Banner) => Merged(b, f), i);
  }

  /** Saving the edit form of a banner unchanged gives the banner back, an undefined subtitle or link as ''. */
  lemma MergeEditForm(b: Banner)
    ensures Merged(b, EditForm(b)) == b.(subtitle := Some(b.subtitle.GetOr("")), link := Some(b.link.GetOr("")))
    ensures b.subtitle.Some? && b.link.Some? ==> Merged(b, EditForm(b)) == b
  {
  }

  /** A toggle flips the status of the banners with that id and changes nothing else. */
  lemma WithToggledAt(banners: seq<Banner>, id: string, i: int)
    requires 0 <= i < |banners|
    ensures |WithToggled(banners, id)| == |banners|
    ensures banners[i].id == id ==> WithToggled(banners, id)[i] == banners[i].(isActive := !banners[i].isActive)
    ensures banners[i].id != id ==> WithToggled(banners, id)[i] == banners[i]
  {
    MapWhereAt(banners, (b: Banner) => HasId(b, id), Flipped, i);
  }

  /** Toggling the same banner twice restores the list. */
  lemma ToggleTwice(banners: seq<Banner>, id: string)
    ensures WithToggled(WithToggled(banners, id), id) == banners
  {
    var once := WithToggled(banners, id);
    forall i | 0 <= i < |banners| ensures WithToggled(once, id)[i] == banners[i] {
      WithToggledAt(banners, id, i);
      WithToggledAt(once, id, i);
    }
  }

  /** A delete removes every banner with that id and keeps every occurrence of the others. */
  lemma WithoutIdExact(banners: seq<Banner>, id: string, b: Banner)
    ensures multiset(WithoutId(banners, id))[b] == if b.id == id then 0 else multiset(banners)[b]
  {
    FilterMultiset(banners, (x: Banner) => !HasId(x, id), b);
  }

  /** Deleting an id no banner carries leaves the list as it is. */
  lemma WithoutAbsentId(banners: seq<Banner>, id: string)
    requires forall i :: 0 <= i < |banners| ==> banners[i].id != id
    ensures WithoutId(banners, id) == banners
  {
    FilterAll(banners, (x: Banner) => !HasId(x, id));
  }

  /** A showcase toggle flips the status of the showcases with that id and changes nothing else. */
  lemma WithShowcaseToggledAt(showcases: seq<Showcase>, id: string, i: int)
    requires 0 <= i < |showcases|
    ensures |WithShowcaseToggled(showcases, id)| == |showcases|
    ensures showcases[i].id == id ==>
      WithShowcaseToggled(showcases, id)[i] == showcases[i].(isActive := !showcases[i].isActive)
    ensures showcases[i].id != id ==> WithShowcaseToggled(showcases, id)[i] == showcases[i]
  {
    MapWhereAt(showcases, (s: Showcase) => ShowcaseHasId(s, id), ShowcaseFlipped, i);
  }

  predicate ProductHasId(p: Product, id: string) { p.id == id }

  /** `products.find(p => p.id === productId)` */
  function Lookup(products: seq<Product>, id: string): Option<Product> {
    Find(products, (p: Product) => ProductHasId(p, id))
  }

  predicate Known(products: seq<Product>, id: string) {
    Lookup(products, id).Some?
  }

  /** The name of the product an id resolves to, '' for an unknown id. */
  function NameOf(products: seq<Product>, id: string): string {
    var found := Lookup(products, id);
    if found.Some? then found.value.name else ""
  }

  /** The product tags of a showcase: the name of each id that resolves, in order; unknown ids are skipped. */
  function ShownProducts(ids: seq<string>, products: seq<Product>): seq<string> {
    if ids == [] then []
    else
      var found := Lookup(products, ids[0]);
      (if found.Some? then [found.value.name] else []) + ShownProducts(ids[1..], products)
  }

  /**
   * The tags are exactly the names of the ids that resolve, in the order of the ids: dropping the
   * unknown ids first and naming the rest gives the same list.
   */
  lemma {:induction false} ShownProductsExact(ids: seq<string>, products: seq<Product>)
    ensures ShownProducts(ids, products)
      == MapAll(Filter(ids, (id: string) => Known(products, id)), (id: string) => NameOf(products, id))
  {
    var known := (id: string) => Known(products, id);
    var name := (id: string) => NameOf(products, id);
    if ids != [] {
      ShownProductsExact(ids[1..], products);
      assert ids == [ids[0]] + ids[1..];
      FilterConcat([ids[0]], ids[1..], known);
      if Known(products, ids[0]) {
        assert Filter([ids[0]], known) == [ids[0]];
        MapAllCons(ids[0], Filter(ids[1..], known), name);
      } else {
        assert Filter([ids[0]], known) == [];
      }
    }
  }

  /** With every id resolving, there is one tag per id; with none resolving, there are no tags. */
  lemma ShownProductsBounds(ids: seq<string>, products: seq<Product>)
    ensures |ShownProducts(ids, products)| <= |ids|
    ensures (forall k :: 0 <= k < |ids| ==> Known(products, ids[k])) ==> |ShownProducts(ids, products)| == |ids|
    ensures (forall k :: 0 <= k < |ids| ==> !Known(products, ids[k])) ==> ShownProducts(ids, products) == []
  {
    ShownProductsExact(ids, products);
    var known := (id: string) => Known(products, id);
    if forall k :: 0 <= k < |ids| ==> Known(products, ids[k]) {
      FilterAll(ids, known);
    }
    if forall k :: 0 <= k < |ids| ==> !Known(products, ids[k]) {
      if Filter(ids, known) != [] {
        var x := Filter(ids, known)[0];
        assert x in Filter(ids, known);
      }
    }
  }

  class BannerPage {
    var banners: seq<Banner>
    var showcases: seq<Showcase>
    var activeTab: Tab
    var showModal: bool
    var editing: Option<Banner>
    var form: BannerForm

    /** The page opens on the banners tab with the initial lists. */
    constructor (initialBanners: seq<Banner>, initialShowcases: seq<Showcase>)
      ensures banners == initialBanners && showcases == initialShowcases
      ensures activeTab == BannersTab && !showModal && editing.None? && form == BlankForm
    {
      banners := initialBanners;
      showcases := initialShowcases;
      activeTab := BannersTab;
      showModal := false;
      editing := None;
      form := BlankForm;
    }

    /** Typing into a text input of the modal: that field of the form becomes the input's value. */
    method EditText(input: BannerText, value: string)
      modifies this`form
      ensures input == TitleInput ==> form == old(form).(title := value)
      ensures input == SubtitleInput ==> form == old(form).(subtitle := value)
      ensures input == LinkInput ==> form == old(form).(link := value)
    {
      match input
      case TitleInput => form := form.(title := value);
      case SubtitleInput => form := form.(subtitle := value);
      case LinkInput => form := form.(link := value);
    }

    /** The active switch of the modal flips the form's flag. */
    method ToggleFormActive()
      modifies this`form
      ensures form == old(form).(isActive := !old(form).isActive)
    {
      form := form.(isActive := !form.isActive);
    }

    /** The overlay, the × and the Cancel button close the modal without saving. */
    method CloseModal()
      modifies this`showModal
      ensures !showModal
    {
      showModal := false;
    }

    /** `openAddModal` */
    method OpenAddModal()
      modifies this`editing, this`form, this`showModal
      ensures editing.None? && form == BlankForm && showModal
    {
      editing := None;
      form := BlankForm;
      showModal := true;
    }

    /** `openEditModal` */
    method OpenEditModal(b: Banner)
      modifies this`editing, this`form, this`showModal
      ensures editing == Some(b) && form == EditForm(b) && showModal
    {
      editing := Some(b);
      form := EditForm(b);
      showModal := true;
    }

    /**
     * `handleSave`: an edit merges the form into the banners with the edited id; otherwise one
     * new banner is appended with order = the previous length + 1. The modal closes either way.
     * `id` and `now` stand for the clock-derived id and creation time.
     */
    method HandleSave(id: string, now: string)
      modifies this`banners, this`showModal
      ensures editing.Some? ==> banners == WithMerged(old(banners), editing.value.id, form)
      ensures editing.None? ==> banners == old(banners) + [NewBanner(id, form, |old(banners)| + 1, now)]
      ensures !showModal
    {
      if editing.Some? {
        banners := WithMerged(banners, editing.value.id, form);
      } else {
        banners := banners + [NewBanner(id, form, |banners| + 1, now)];
      }
      showModal := false;
    }

    /** `toggleBannerStatus` */
    method ToggleBannerStatus(id: string)
      modifies this`banners
      ensures banners == WithToggled(old(banners), id)
    {
      banners := WithToggled(banners, id);
    }

    /** `deleteBanner` */
    method DeleteBanner(id: string)
      modifies this`banners
      ensures banners == WithoutId(old(banners), id)
    {
      banners := WithoutId(banners, id);
    }

    /** `toggleShowcaseStatus` */
    method ToggleShowcaseStatus(id: string)
      modifies this`showcases
      ensures showcases == WithShowcaseToggled(old(showcases), id)
    {
      showcases := WithShowcaseToggled(showcases, id);
    }

    method SetActiveTab(t: Tab)
      modifies this`activeTab
      ensures activeTab == t
    {
      activeTab := t;
    }
  }

  /** Adding a banner appends exactly one banner, with the next order and the placeholder image. */
  lemma AddAppendsOne(banners: seq<Banner>, id: string, f: BannerForm, now: string)
    ensures var after := banners + [NewBanner(id, f, |banners| + 1, now)];
      && |after| == |banners| + 1 && after[..|banners|] == banners
      && after[|banners|].order == |banners| + 1 && after[|banners|].image == PlaceholderImage
      && after[|banners|].title == f.title && after[|banners|].isActive == f.isActive
  {
  }
}
