/** The product form page: the new-product draft, flag toggles, scent-note inputs, the slug button and submit. */
module ProductForm {
  import opened Wrappers
  import opened Types
  import opened Text
  import opened Seqs
  import Slug
  import ProductService

  const ListPath := "/products"

  /** The remote writes the page issues. */
  datatype Request = CreateProduct(product: ProductPartial) | UpdateProduct(id: string, changes: ProductPartial)

  /** The two switches wired to `handleToggle`. */
  datatype Flag = ActiveFlag | FeaturedFlag

  /** The three scent-note inputs. */
  datatype Tier = Top | Middle | Base

  /** The draft a new product starts from. */
  const Draft := ProductPartial(
    Some(""), Some(""), Some(""), Some(0), None, Some("TRY"), Some(20), Some(0), Some(""), Some(""),
    Some(""), Some([]), Some(false), Some(true), Some(""), Some(""), Some(""),
    Some(ScentNotes(Some([]), Some([]), Some([]))), None, None, Some(Unisex), None,
    Some(""), Some(""), Some(""))

  /** The draft's defaults: zero price and stock, 20% VAT in lira, active, not featured, unisex, no notes. */
  lemma DraftDefaults()
    ensures Draft.price == Some(0) && Draft.stock == Some(0) && Draft.vatRate == Some(20)
    ensures Draft.currency == Some("TRY") && Draft.isActive == Some(true) && Draft.isFeatured == Some(false)
    ensures Draft.gender == Some(Unisex) && Draft.discountedPrice.None?
    ensures Draft.scentNotes == Some(ScentNotes(Some([]), Some([]), Some([])))
  {
  }

  /** `!prev[field]`: an undefined flag counts as false, so it turns on. */
  function Toggled(f: ProductPartial, flag: Flag): (g: ProductPartial)
    ensures flag == ActiveFlag ==> g == f.(isActive := Some(f.isActive != Some(true)))
    ensures flag == FeaturedFlag ==> g == f.(isFeatured := Some(f.isFeatured != Some(true)))
  {
    match flag
    case ActiveFlag => f.(isActive := Some(!(f.isActive == Some(true))))
    case FeaturedFlag => f.(isFeatured := Some(!(f.isFeatured == Some(true))))
  }

  predicate FlagDefined(f: ProductPartial, flag: Flag) {
    match flag
    case ActiveFlag => f.isActive.Some?
    case FeaturedFlag => f.isFeatured.Some?
  }

  /** Toggling a defined flag twice restores the form. */
  lemma ToggleTwice(f: ProductPartial, flag: Flag)
    requires FlagDefined(f, flag)
    ensures Toggled(Toggled(f, flag), flag) == f
  {
    var once := Toggled(f, flag);
    match flag {
      case ActiveFlag =>
        assert once.isActive == Some(!f.isActive.value);
      case FeaturedFlag =>
        assert once.isFeatured == Some(!f.isFeatured.value);
    }
  }

  /**
   * The inputs wired to `handleChange` whose value is stored as typed: the text boxes, the
   * date inputs and the currency and category selects.
   */
  datatype TextField =
    | NameField | ShortDescriptionField | DescriptionField | CurrencyField | SkuField | BarcodeField
    | CategoryField | BatchCodeField | ProductionDateField | ExpirationDateField
    | MetaTitleField | MetaDescriptionField | SlugField

  /** The `type="number"` inputs wired to `handleChange`. */
  datatype NumberField = PriceField | DiscountedPriceField | StockField | VolumeField

  function TextOf(f: ProductPartial, t: TextField): Option<string> {
    match t
    case NameField => f.name
    case ShortDescriptionField => f.shortDescription
    case DescriptionField => f.description
    case CurrencyField => f.currency
    case SkuField => f.sku
    case BarcodeField => f.barcode
    case CategoryField => f.categoryId
    case BatchCodeField => f.batchCode
    case ProductionDateField => f.productionDate
    case ExpirationDateField => f.expirationDate
    case MetaTitleField => f.metaTitle
    case MetaDescriptionField => f.metaDescription
    case SlugField => f.slug
  }

  function NumberOf(f: ProductPartial, n: NumberField): Option<int> {
    match n
    case PriceField => f.price
    case DiscountedPriceField => f.discountedPrice
    case StockField => f.stock
    case VolumeField => f.volume
  }

  /** The fields no text or number input writes. */
  predicate SameUnwritten(f: ProductPartial, g: ProductPartial) {
    && g.vatRate == f.vatRate && g.images == f.images && g.isFeatured == f.isFeatured
    && g.isActive == f.isActive && g.scentNotes == f.scentNotes && g.fragranceFamily == f.fragranceFamily
    && g.concentration == f.concentration && g.gender == f.gender
  }

  /** `handleChange` on a text input: its field takes the typed value and every other field is kept. */
  function WithText(f: ProductPartial, t: TextField, value: string): (g: ProductPartial)
    ensures TextOf(g, t) == Some(value)
    ensures forall u: TextField :: u != t ==> TextOf(g, u) == TextOf(f, u)
    ensures forall n: NumberField :: NumberOf(g, n) == NumberOf(f, n)
    ensures SameUnwritten(f, g)
  {
    match t
    case NameField => f.(name := Some(value))
    case ShortDescriptionField => f.(shortDescription := Some(value))
    case DescriptionField => f.(description := Some(value))
    case CurrencyField => f.(currency := Some(value))
    case SkuField => f.(sku := Some(value))
    case BarcodeField => f.(barcode := Some(value))
    case CategoryField => f.(categoryId := Some(value))
    case BatchCodeField => f.(batchCode := Some(value))
    case ProductionDateField => f.(productionDate := Some(value))
    case ExpirationDateField => f.(expirationDate := Some(value))
    case MetaTitleField => f.(metaTitle := Some(value))
    case MetaDescriptionField => f.(metaDescription := Some(value))
    case SlugField => f.(slug := Some(value))
  }

  /**
   * `handleChange` on a number input: `parsed` is what `parseFloat` reads from the text, None
   * when it reads nothing. The field is always defined afterwards: unreadable or cleared text
   * gives 0, so a cleared discounted price becomes 0 rather than undefined.
   */
  function WithNumber(f: ProductPartial, n: NumberField, parsed: Option<int>): (g: ProductPartial)
    ensures NumberOf(g, n) == Some(parsed.GetOr(0))
    ensures forall m: NumberField :: m != n ==> NumberOf(g, m) == NumberOf(f, m)
    ensures forall t: TextField :: TextOf(g, t) == TextOf(f, t)
    ensures SameUnwritten(f, g)
  {
    var v := Some(parsed.GetOr(0));
    match n
    case PriceField => f.(price := v)
    case DiscountedPriceField => f.(discountedPrice := v)
    case StockField => f.(stock := v)
    case VolumeField => f.(volume := v)
  }

  /** What a note input turns its text into: the comma-separated pieces, each trimmed. */
  function ParseNotes(text: string): (notes: seq<string>)
    ensures |notes| == Occurrences(text, ',') + 1
  {
    SplitCount(text, ',');
    MapAll(Split(text, ','), Trim)
  }

  /** What a note input shows: the tier's notes joined with ", ", or '' without any. */
  function ShowNotes(tier: Option<seq<string>>): string {
    if tier.Some? then Join(tier.value, ", ") else ""
  }

  /** A note the input can show and read back: trimmed and free of commas. */
  predicate CleanNote(n: string) {
    Trimmed(n) && ',' !in n
  }

  lemma SpacesHaveNoComma(w: string)
    requires AllSpaces(w)
    ensures ',' !in w
  {
  }

  /** The display of two or more notes: the first, a comma, then a space and the display of the rest. */
  lemma JoinCons(w: string, notes: seq<string>)
    requires |notes| >= 2
    ensures w + Join(notes, ", ") == (w + notes[0]) + [','] + (" " + Join(notes[1..], ", "))
  {
    JoinUnfold(notes);
    Regroup(w, notes[0], Join(notes[1..], ", "));
  }

  lemma JoinUnfold(notes: seq<string>)
    requires |notes| >= 2
    ensures Join(notes, ", ") == notes[0] + ", " + Join(notes[1..], ", ")
  {
  }

  /** Splitting the separator: what precedes it, the comma, then the space and what follows. */
  lemma Regroup(w: string, a: string, j: string)
    ensures w + (a + ", " + j) == (w + a) + [','] + (" " + j)
  {
    assert ", " == [','] + " ";
  }

  /** A single clean note after leading white space reads back as itself. */
  lemma ParseShownSingle(w: string, note: string)
    requires AllSpaces(w) && CleanNote(note)
    ensures MapAll(Split(w + note, ','), Trim) == [note]
  {
    SpacesHaveNoComma(w);
    assert ',' !in w + note;
    SplitWithoutSeparator(w + note, ',');
    TrimSkipsLeadingSpaces(w, note);
    TrimmedIsFixpoint(note);
    MapAllCons(w + note, [], Trim);
    assert [w + note] + [] == [w + note];
  }

  /** Reading back the display after some leading white space returns the notes. */
  lemma {:induction false} ParseShownAfterSpaces(w: string, notes: seq<string>)
    requires AllSpaces(w) && |notes| >= 1
    requires forall k :: 0 <= k < |notes| ==> CleanNote(notes[k])
    ensures MapAll(Split(w + Join(notes, ", "), ','), Trim) == notes
    decreases |notes|
  {
    if |notes| == 1 {
      ParseShownSingle(w, notes[0]);
    } else {
      var first, rest := notes[0], notes[1..];
      var j := Join(rest, ", ");
      var tail := Split(" " + j, ',');
      assert CleanNote(first);
      forall k | 0 <= k < |rest| ensures CleanNote(rest[k]) {
        assert rest[k] == notes[k + 1];
      }
      calc {
        MapAll(Split(w + Join(notes, ", "), ','), Trim);
        == { JoinCons(w, notes); SplitShown(w, first, j); }
        MapAll([w + first] + tail, Trim);
        == { TrimShownHead(w, first, tail); }
        [first] + MapAll(tail, Trim);
        == { assert AllSpaces(" "); ParseShownAfterSpaces(" ", rest); }
        [first] + rest;
      }
      assert [first] + rest == notes;
    }
  }

  /** The display splits at the comma after the first note. */
  lemma SplitShown(w: string, first: string, j: string)
    requires AllSpaces(w) && CleanNote(first)
    ensures Split((w + first) + [','] + (" " + j), ',') == [w + first] + Split(" " + j, ',')
  {
    SpacesHaveNoComma(w);
    assert ',' !in w + first;
    SplitAtFirst(w + first, ',', " " + j);
  }

  /** Trimming the first piece gives back the first note. */
  lemma TrimShownHead(w: string, first: string, tail: seq<string>)
    requires AllSpaces(w) && CleanNote(first)
    ensures MapAll([w + first] + tail, Trim) == [first] + MapAll(tail, Trim)
  {
    MapAllCons(w + first, tail, Trim);
    TrimSkipsLeadingSpaces(w, first);
    TrimmedIsFixpoint(first);
  }

  /** The round trip's one exception: an empty tier is shown as "" and reads back as one empty note. */
  lemma ShowThenParseEmpty()
    ensures ParseNotes(ShowNotes(Some([]))) == [""]
  {
  }

  /**
   * The note inputs round-trip: for a non-empty list of trimmed, comma-free notes, reading
   * back what the input shows gives the same notes.
   */
  lemma ShowThenParse(notes: seq<string>)
    requires |notes| >= 1
    requires forall k :: 0 <= k < |notes| ==> CleanNote(notes[k])
    ensures ParseNotes(ShowNotes(Some(notes))) == notes
  {
    var shown := Join(notes, ", ");
    assert ShowNotes(Some(notes)) == shown;
    assert AllSpaces("");
    ParseShownAfterSpaces("", notes);
    assert "" + shown == shown;
    assert ParseNotes(shown) == MapAll(Split(shown, ','), Trim);
  }

  /** A note input sets its tier and keeps the other two (all undefined when there were no notes). */
  function WithTier(f: ProductPartial, tier: Tier, notes: seq<string>): (g: ProductPartial)
    ensures g.scentNotes.Some?
    ensures var before := f.scentNotes.GetOr(ScentNotes(None, None, None));
      && g.scentNotes.value.top == (if tier == Top then Some(notes) else before.top)
      && g.scentNotes.value.middle == (if tier == Middle then Some(notes) else before.middle)
      && g.scentNotes.value.base == (if tier == Base then Some(notes) else before.base)
    ensures g == f.(scentNotes := g.scentNotes)
  {
    var before := f.scentNotes.GetOr(ScentNotes(None, None, None));
    var after := match tier
      case Top => before.(top := Some(notes))
      case Middle => before.(middle := Some(notes))
      case Base => before.(base := Some(notes));
    f.(scentNotes := Some(after))
  }

  /** The form with its slug generated from its name, '' standing in for no name. */
  function WithSlug(f: ProductPartial): ProductPartial {
    f.(slug := Some(Slug.GenerateSlug(f.name.GetOr(""))))
  }

  /** The generated slug is well formed, and only the slug changes. */
  lemma WithSlugSpec(f: ProductPartial)
    ensures WithSlug(f).slug.Some? && Slug.WellFormed(WithSlug(f).slug.value)
    ensures WithSlug(f).slug.value == Slug.GenerateSlug(f.name.GetOr(""))
    ensures WithSlug(f).name == f.name && WithSlug(f) == f.(slug := WithSlug(f).slug)
  {
    Slug.SlugWellFormed(f.name.GetOr(""));
  }

  class ProductFormPage {
    /** The route's `id`, None on the new-product route. */
    const routeId: Option<string>
    var categories: seq<Category>
    var isLoading: bool
    var isSubmitting: bool
    var form: ProductPartial
    var sent: seq<Request>
    var navigatedTo: Option<string>

    /** `isEdit`: the route carries a non-empty id. */
    predicate IsEdit()
      reads this
    {
      routeId.Some? && routeId.value != ""
    }

    constructor (routeId: Option<string>)
      ensures this.routeId == routeId && categories == [] && form == Draft
      ensures isLoading == IsEdit() && !isSubmitting && sent == [] && navigatedTo.None?
    {
      this.routeId := routeId;
      categories := [];
      isLoading := routeId.Some? && routeId.value != "";
      isSubmitting := false;
      form := Draft;
      sent := [];
      navigatedTo := None;
    }

    /** The category load: a failure keeps the empty list. */
    method LoadCategories(result: Outcome<seq<Category>>)
      modifies this`categories
      ensures categories == (if result.Ok? then result.value else old(categories))
      ensures form == old(form) && sent == old(sent) && isLoading == old(isLoading) && navigatedTo == old(navigatedTo)
    {
      if result.Ok? {
        categories := result.value;
      }
    }

    /**
     * The product load on the edit route: a found product becomes the form, a missing one
     * leaves the draft, and a failure goes back to the list; loading ends on every path.
     */
    method LoadProduct(result: Outcome<Option<Product>>)
      requires IsEdit()
      modifies this`form, this`navigatedTo, this`isLoading
      ensures result.Ok? && result.value.Some? ==> form == ProductService.AsPartial(result.value.value)
      ensures !(result.Ok? && result.value.Some?) ==> form == old(form)
      ensures navigatedTo == (if result.Err? then Some(ListPath) else old(navigatedTo))
      ensures !isLoading && sent == old(sent) && categories == old(categories)
    {
      match result {
        case Ok(found) =>
          if found.Some? {
            form := ProductService.AsPartial(found.value);
          }
        case Err(_) =>
          navigatedTo := Some(ListPath);
      }
      isLoading := false;
    }

    /** `handleToggle` */
    method HandleToggle(flag: Flag)
      modifies this`form
      ensures form == Toggled(old(form), flag)
      ensures sent == old(sent) && navigatedTo == old(navigatedTo) && isSubmitting == old(isSubmitting)
    {
      form := Toggled(form, flag);
    }

    /** `handleChange` on a text input. */
    method HandleTextChange(t: TextField, value: string)
      modifies this`form
      ensures form == WithText(old(form), t, value)
    {
      form := WithText(form, t, value);
    }

    /** `handleChange` on a number input, `parsed` standing for what `parseFloat` reads. */
    method HandleNumberChange(n: NumberField, parsed: Option<int>)
      modifies this`form
      ensures form == WithNumber(old(form), n, parsed)
    {
      form := WithNumber(form, n, parsed);
    }

    /** Typing `text` into the note input of `tier`. */
    method EditNotes(tier: Tier, text: string)
      modifies this`form
      ensures form == WithTier(old(form), tier, ParseNotes(text))
      ensures sent == old(sent) && navigatedTo == old(navigatedTo) && isSubmitting == old(isSubmitting)
    {
      var notes := ParseNotes(text);
      form := WithTier(form, tier, notes);
    }

    /** `generateSlug` */
    method GenerateSlug()
      modifies this`form
      ensures form == WithSlug(old(form))
    {
      var slug := Slug.GenerateSlug(form.name.GetOr(""));
      form := form.(slug := Some(slug));
    }

    /**
     * `handleSubmit`: the edit route sends an update of the whole form, the new route a create;
     * the page goes back to the list only on success, and submitting is over on every path.
     */
    method HandleSubmit(outcome: Outcome<()>)
      modifies this`isSubmitting, this`sent, this`navigatedTo
      ensures IsEdit() ==> sent == old(sent) + [UpdateProduct(routeId.value, old(form))]
      ensures !IsEdit() ==> sent == old(sent) + [CreateProduct(old(form))]
      ensures navigatedTo == (if outcome.Ok? then Some(ListPath) else old(navigatedTo))
      ensures !isSubmitting && form == old(form)
    {
      isSubmitting := true;
      if routeId.Some? && routeId.value != "" {
        sent := sent + [UpdateProduct(routeId.value, form)];
      } else {
        sent := sent + [CreateProduct(form)];
      }
      if outcome.Ok? {
        navigatedTo := Some(ListPath);
      }
      isSubmitting := false;
    }
  }
}
