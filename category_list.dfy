/** The category page: a paged table of categories with the add/edit form, status toggle and delete. */
module CategoryList {
  import opened Wrappers
  import opened Types
  import opened Seqs
  import opened UseTable
  import Slug

  /** The remote calls the page issues. */
  datatype Request =
    | UpdateCategory(id: string, changes: CategoryPartial)
    | CreateCategory(category: CategoryPartial)
    | DeleteCategory(id: string)

  /** The modal's form. */
  datatype CategoryForm = CategoryForm(
    name: string, description: string, slug: string, metaTitle: string, metaDescription: string,
    isActive: bool)

  /** The text inputs of the category modal. */
  datatype CategoryText = NameInput | DescriptionInput | SlugInput | MetaTitleInput | MetaDescriptionInput

  /** The form `openAddModal` starts from. */
  const BlankForm := CategoryForm("", "", "", "", "", true)

  /** `openEditModal`'s form: a missing description or SEO text becomes ''. */
  function EditForm(c: Category): (f: CategoryForm)
    ensures f.name == c.name && f.slug == c.slug && f.isActive == c.isActive
    ensures f.description == c.description.GetOr("") && f.metaTitle == c.metaTitle.GetOr("")
    ensures f.metaDescription == c.metaDescription.GetOr("")
  {
    CategoryForm(c.name, c.description.GetOr(""), c.slug, c.metaTitle.GetOr(""),
      c.metaDescription.GetOr(""), c.isActive)
  }

  /** `{ ...formData }`, with the order of a new category when one is given. */
  function FormChanges(f: CategoryForm, order: Option<int>): (c: CategoryPartial)
    ensures c.name == Some(f.name) && c.description == Some(f.description) && c.slug == Some(f.slug)
    ensures c.metaTitle == Some(f.metaTitle) && c.metaDescription == Some(f.metaDescription)
    ensures c.isActive == Some(f.isActive) && c.order == order
  {
    CategoryPartial(Some(f.name), Some(f.description), order, Some(f.isActive), Some(f.slug),
      Some(f.metaTitle), Some(f.metaDescription))
  }

  /** The form with its slug generated from its name; nothing else changes. */
  function WithSlug(f: CategoryForm): (g: CategoryForm)
    ensures g.slug == Slug.GenerateSlug(f.name) && Slug.WellFormed(g.slug)
    ensures g.name == f.name && g.description == f.description && g.isActive == f.isActive
    ensures g.metaTitle == f.metaTitle && g.metaDescription == f.metaDescription
  {
    Slug.SlugWellFormed(f.name);
    f.(slug := Slug.GenerateSlug(f.name))
  }

  predicate HasId(c: Category, id: string) { c.id == id }

  /**
   * The list after a successful edit: the category with the id is the returned one. The source
   * merges with `updateItem`, i.e. `{...item, ...updated}`. That merge is the returned category
   * only because the list's rows and the returned one all come from `mapCategory`, so they carry
   * the same keys and leave out the same ones (image, parent and the SEO texts); the spread then
   * overwrites every key the row has.
   */
  function Replaced(data: seq<Category>, id: string, updated: Category): seq<Category> {
    MapWhere(data, (c: Category) => HasId(c, id), (c: Category) => updated)
  }

  function WithActive(data: seq<Category>, id: string, active: bool): seq<Category> {
    MapWhere(data, (c: Category) => HasId(c, id), (c: Category) => c.(isActive := active))
  }

  function WithoutId(data: seq<Category>, id: string): seq<Category> {
    Filter(data, (c: Category) => !HasId(c, id))
  }

  /** A status toggle changes only the active flag, and only of the rows with that id. */
  lemma WithActiveAt(data: seq<Category>, id: string, active: bool, i: int)
    requires 0 <= i < |data|
    ensures |WithActive(data, id, active)| == |data|
    ensures data[i].id == id ==> WithActive(data, id, active)[i] == data[i].(isActive := active)
    ensures data[i].id != id ==> WithActive(data, id, active)[i] == data[i]
  {
    MapWhereAt(data, (c: Category) => HasId(c, id), (c: Category) => c.(isActive := active), i);
  }

  /** An edit puts the returned category in place of the rows with its id and leaves the rest. */
  lemma ReplacedAt(data: seq<Category>, id: string, updated: Category, i: int)
    requires 0 <= i < |data|
    ensures |Replaced(data, id, updated)| == |data|
    ensures data[i].id == id ==> Replaced(data, id, updated)[i] == updated
    ensures data[i].id != id ==> Replaced(data, id, updated)[i] == data[i]
  {
    MapWhereAt(data, (c: Category) => HasId(c, id), (c: Category) => updated, i);
  }

  /** A delete removes every row with that id and keeps every occurrence of the others. */
  lemma WithoutIdExact(data: seq<Category>, id: string, c: Category)
    ensures multiset(WithoutId(data, id))[c] == if c.id == id then 0 else multiset(data)[c]
  {
    FilterMultiset(data, (x: Category) => !HasId(x, id), c);
  }

  class CategoryPage {
    const table: Table<Category>
    var showModal: bool
    var editing: Option<Category>
    var showDeleteModal: bool
    var selected: Option<Category>
    var isSaving: bool
    var form: CategoryForm
    var sent: seq<Request>

    ghost predicate Valid()
      reads this, table
    {
      table.Valid() && table.hasFetch && table.itemsPerPage == DefaultItemsPerPage && table.searchKey.None?
    }

    constructor ()
      ensures Valid() && fresh(table) && table.data == [] && table.loading
      ensures !showModal && editing.None? && !showDeleteModal && selected.None? && !isSaving
      ensures form == BlankForm && sent == []
    {
      table := new Table([], true, DefaultItemsPerPage, None);
      showModal := false;
      editing := None;
      showDeleteModal := false;
      selected := None;
      isSaving := false;
      form := BlankForm;
      sent := [];
    }

    method OpenAddModal()
      requires Valid()
      modifies this`editing, this`form, this`showModal
      ensures Valid()
      ensures editing.None? && form == BlankForm && showModal
      ensures sent == old(sent) && selected == old(selected) && showDeleteModal == old(showDeleteModal)
    {
      editing := None;
      form := BlankForm;
      showModal := true;
    }

    method OpenEditModal(c: Category)
      requires Valid()
      modifies this`editing, this`form, this`showModal
      ensures Valid()
      ensures editing == Some(c) && form == EditForm(c) && showModal
      ensures sent == old(sent) && selected == old(selected) && showDeleteModal == old(showDeleteModal)
    {
      editing := Some(c);
      form := EditForm(c);
      showModal := true;
    }

    /** Typing into a text input of the modal: that field of the form becomes the input's value. */
    method EditText(input: CategoryText, value: string)
      requires Valid()
      modifies this`form
      ensures Valid()
      ensures input == NameInput ==> form == old(form).(name := value)
      ensures input == DescriptionInput ==> form == old(form).(description := value)
      ensures input == SlugInput ==> form == old(form).(slug := value)
      ensures input == MetaTitleInput ==> form == old(form).(metaTitle := value)
      ensures input == MetaDescriptionInput ==> form == old(form).(metaDescription := value)
    {
      match input
      case NameInput => form := form.(name := value);
      case DescriptionInput => form := form.(description := value);
      case SlugInput => form := form.(slug := value);
      case MetaTitleInput => form := form.(metaTitle := value);
      case MetaDescriptionInput => form := form.(metaDescription := value);
    }

    /** The overlay, the × and the Cancel button close the modal without saving; the form is kept. */
    method CloseModal()
      requires Valid()
      modifies this`showModal
      ensures Valid()
      ensures !showModal
    {
      showModal := false;
    }

    /**
     * The overlay, the × and the Cancel button of the confirmation close it without deleting;
     * the selected category stays selected.
     */
    method CancelDelete()
      requires Valid()
      modifies this`showDeleteModal
      ensures Valid()
      ensures !showDeleteModal && selected == old(selected)
    {
      showDeleteModal := false;
    }

    /** The active switch of the modal flips the form's flag. */
    method ToggleFormActive()
      requires Valid()
      modifies this`form
      ensures Valid()
      ensures form == old(form).(isActive := !old(form).isActive)
    {
      form := form.(isActive := !form.isActive);
    }

    /** `generateSlug`: the slug field becomes the slug of the name field. */
    method GenerateSlug()
      requires Valid()
      modifies this`form
      ensures Valid()
      ensures form == WithSlug(old(form))
    {
      form := WithSlug(form);
    }

    /**
     * `handleSave`. Editing sends the whole form for that id and puts the returned category in
     * its place (see `Replaced` for why the merge is a replacement); adding sends the form with order = the visible page's length + 1 (at most 11)
     * and appends the created category to the data. The modal closes only on success, and
     * saving is over on every path.
     */
    method HandleSave(outcome: Outcome<Category>)
      requires Valid()
      modifies this`isSaving, this`sent, this`showModal, table
      ensures Valid()
      ensures old(editing).Some? ==>
        sent == old(sent) + [UpdateCategory(old(editing).value.id, FormChanges(old(form), None))]
        && table.data == (if outcome.Ok? then Replaced(old(table.data), old(editing).value.id, outcome.value) else old(table.data))
      ensures old(editing).None? ==>
        sent == old(sent) + [CreateCategory(FormChanges(old(form), Some(|old(table.CurrentItems())| + 1)))]
        && table.data == (if outcome.Ok? then old(table.data) + [outcome.value] else old(table.data))
      ensures old(editing).None? ==> |old(table.CurrentItems())| + 1 <= DefaultItemsPerPage + 1
      ensures showModal == (old(showModal) && outcome.Err?)
      ensures !isSaving && editing == old(editing) && form == old(form)
      ensures selected == old(selected) && showDeleteModal == old(showDeleteModal)
      ensures table.currentPage == old(table.currentPage) && table.searchQuery == old(table.searchQuery)
      ensures table.loading == old(table.loading) && table.error == old(table.error)
    {
      isSaving := true;
      if editing.Some? {
        var id := editing.value.id;
        sent := sent + [UpdateCategory(id, FormChanges(form, None))];
        if outcome.Ok? {
          table.UpdateItem((c: Category) => HasId(c, id), (c: Category) => outcome.value);
        }
      } else {
        var order := |table.CurrentItems()| + 1;
        sent := sent + [CreateCategory(FormChanges(form, Some(order)))];
        if outcome.Ok? {
          table.SetData(table.data + [outcome.value]);
        }
      }
      if outcome.Ok? {
        showModal := false;
      }
      isSaving := false;
    }

    /** `toggleStatus`: sends the negated flag and, once that succeeded, flips it locally. */
    method ToggleStatus(c: Category, outcome: Outcome<Category>)
      requires Valid()
      modifies this`sent, table
      ensures Valid()
      ensures sent == old(sent) + [UpdateCategory(c.id, CategoryPartial(None, None, None, Some(!c.isActive), None, None, None))]
      ensures table.data == (if outcome.Ok? then WithActive(old(table.data), c.id, !c.isActive) else old(table.data))
      ensures showModal == old(showModal) && editing == old(editing) && selected == old(selected)
      ensures form == old(form) && isSaving == old(isSaving) && showDeleteModal == old(showDeleteModal)
      ensures table.currentPage == old(table.currentPage) && table.searchQuery == old(table.searchQuery)
      ensures table.loading == old(table.loading) && table.error == old(table.error)
    {
      var active := !c.isActive;
      sent := sent + [UpdateCategory(c.id, CategoryPartial(None, None, None, Some(active), None, None, None))];
      if outcome.Ok? {
        table.UpdateItem((x: Category) => HasId(x, c.id), (x: Category) => x.(isActive := active));
      }
    }

    method HandleDeleteClick(c: Category)
      requires Valid()
      modifies this`selected, this`showDeleteModal
      ensures Valid()
      ensures selected == Some(c) && showDeleteModal && sent == old(sent)
    {
      selected := Some(c);
      showDeleteModal := true;
    }

    /** `confirmDelete`: the category leaves the list, and the confirmation closes, only after the delete succeeded. */
    method ConfirmDelete(outcome: Outcome<()>)
      requires Valid()
      modifies this`sent, this`showDeleteModal, this`selected, table
      ensures Valid()
      ensures old(selected).None? ==>
        sent == old(sent) && table.data == old(table.data) && showDeleteModal == old(showDeleteModal) && selected.None?
      ensures old(selected).Some? ==> sent == old(sent) + [DeleteCategory(old(selected).value.id)]
      ensures old(selected).Some? && outcome.Ok? ==>
        table.data == WithoutId(old(table.data), old(selected).value.id) && !showDeleteModal && selected.None?
      ensures outcome.Err? ==> table.data == old(table.data) && showDeleteModal == old(showDeleteModal) && selected == old(selected)
      ensures form == old(form) && showModal == old(showModal) && editing == old(editing) && isSaving == old(isSaving)
      ensures table.currentPage == old(table.currentPage) && table.searchQuery == old(table.searchQuery)
      ensures table.loading == old(table.loading) && table.error == old(table.error)
    {
      if selected.Some? {
        var id := selected.value.id;
        sent := sent + [DeleteCategory(id)];
        if outcome.Ok? {
          table.DeleteItem((c: Category) => HasId(c, id));
          DeleteKeeps(old(table.data), (c: Category) => HasId(c, id), (c: Category) => !HasId(c, id));
          showDeleteModal := false;
          selected := None;
        }
      }
    }
  }
}
