/** The product list page: a searchable table of products with status toggles and a confirmed delete. */
module ProductList {
  import opened Wrappers
  import opened Types
  import opened Seqs
  import opened UseTable

  /** The remote calls the page issues. */
  datatype Request = UpdateProduct(id: string, changes: ProductPartial) | DeleteProduct(id: string)

  /** `getStockStatus`: the first matching band wins, so a negative stock is critical. */
  function StockStatus(stock: int): (b: Badge)
    ensures stock == 0 ==> b == Badge("Stok Yok", "badge-danger")
    ensures stock != 0 && stock <= 5 ==> b == Badge("Kritik", "badge-danger")
    ensures 5 < stock <= 10 ==> b == Badge("Düşük", "badge-warning")
    ensures stock > 10 ==> b == Badge("Normal", "badge-success")
  {
    if stock == 0 then Badge("Stok Yok", "badge-danger")
    else if stock <= 5 then Badge("Kritik", "badge-danger")
    else if stock <= 10 then Badge("Düşük", "badge-warning")
    else Badge("Normal", "badge-success")
  }

  /** The danger style marks exactly the stocks of at most 5, and the success style those over 10. */
  lemma StockStyleBands(stock: int)
    ensures StockStatus(stock).style == "badge-danger" <==> stock <= 5
    ensures StockStatus(stock).style == "badge-success" <==> stock > 10
  {
  }

  /** The table searches on the product name. */
  function NameKey(p: Product): Option<string> {
    Some(p.name)
  }

  predicate HasId(p: Product, id: string) { p.id == id }

  /** The list after merging a returned product into the row with its id. */
  function Replaced(data: seq<Product>, id: string, updated: Product): seq<Product> {
    MapWhere(data, (p: Product) => HasId(p, id), (p: Product) => updated)
  }

  /** The list after a delete of the product `id`. */
  function WithoutId(data: seq<Product>, id: string): seq<Product> {
    Filter(data, (p: Product) => !HasId(p, id))
  }

  /** Merging a returned product changes only the rows with that id, each to the returned product. */
  lemma ReplacedAt(data: seq<Product>, id: string, updated: Product, i: int)
    requires 0 <= i < |data|
    ensures |Replaced(data, id, updated)| == |data|
    ensures data[i].id == id ==> Replaced(data, id, updated)[i] == updated
    ensures data[i].id != id ==> Replaced(data, id, updated)[i] == data[i]
  {
    MapWhereAt(data, (p: Product) => HasId(p, id), (p: Product) => updated, i);
  }

  class ProductListPage {
    const table: Table<Product>
    var showDeleteModal: bool
    var selected: Option<Product>
    var sent: seq<Request>

    ghost predicate Valid()
      reads this, table
    {
      table.Valid() && table.hasFetch && table.itemsPerPage == DefaultItemsPerPage
    }

    constructor ()
      ensures Valid() && fresh(table)
      ensures table.data == [] && table.loading && table.searchKey == Some(NameKey)
      ensures !showDeleteModal && selected.None? && sent == []
    {
      table := new Table([], true, DefaultItemsPerPage, Some(NameKey));
      showDeleteModal := false;
      selected := None;
      sent := [];
    }

    /**
     * `toggleProductStatus`: sends only the negated active flag, and merges the returned product
     * into its row once the update resolved; a failure changes nothing on the page.
     */
    method ToggleProductStatus(product: Product, outcome: Outcome<Product>)
      requires Valid()
      modifies this`sent, table
      ensures Valid()
      ensures sent == old(sent) + [UpdateProduct(product.id, NoProductFields.(isActive := Some(!product.isActive)))]
      ensures table.data == (if outcome.Ok? then Replaced(old(table.data), product.id, outcome.value) else old(table.data))
      ensures table.currentPage == old(table.currentPage) && table.searchQuery == old(table.searchQuery)
      ensures table.loading == old(table.loading) && table.error == old(table.error)
      ensures showDeleteModal == old(showDeleteModal) && selected == old(selected)
    {
      sent := sent + [UpdateProduct(product.id, NoProductFields.(isActive := Some(!product.isActive)))];
      if outcome.Ok? {
        table.UpdateItem((p: Product) => HasId(p, product.id), (p: Product) => outcome.value);
      }
    }

    /** `toggleFeatured`: as the status toggle, for the featured flag. */
    method ToggleFeatured(product: Product, outcome: Outcome<Product>)
      requires Valid()
      modifies this`sent, table
      ensures Valid()
      ensures sent == old(sent) + [UpdateProduct(product.id, NoProductFields.(isFeatured := Some(!product.isFeatured)))]
      ensures table.data == (if outcome.Ok? then Replaced(old(table.data), product.id, outcome.value) else old(table.data))
      ensures table.currentPage == old(table.currentPage) && table.searchQuery == old(table.searchQuery)
      ensures table.loading == old(table.loading) && table.error == old(table.error)
      ensures showDeleteModal == old(showDeleteModal) && selected == old(selected)
    {
      sent := sent + [UpdateProduct(product.id, NoProductFields.(isFeatured := Some(!product.isFeatured)))];
      if outcome.Ok? {
        table.UpdateItem((p: Product) => HasId(p, product.id), (p: Product) => outcome.value);
      }
    }

    /**
     * The overlay, the × and the Cancel button of the confirmation close it without deleting;
     * the selected product stays selected.
     */
    method CancelDelete()
      requires Valid()
      modifies this`showDeleteModal
      ensures Valid()
      ensures !showDeleteModal && selected == old(selected)
    {
      showDeleteModal := false;
    }

    /** `handleDeleteClick`: remembers the product and opens the confirmation. */
    method HandleDeleteClick(product: Product)
      requires Valid()
      modifies this`selected, this`showDeleteModal
      ensures Valid()
      ensures selected == Some(product) && showDeleteModal && sent == old(sent)
    {
      selected := Some(product);
      showDeleteModal := true;
    }

    /**
     * `confirmDelete`: with a selected product the delete is sent, and only once it succeeded is
     * the product removed locally and the confirmation closed; on failure all stays as it was.
     */
    method ConfirmDelete(outcome: Outcome<()>)
      requires Valid()
      modifies this`sent, this`showDeleteModal, this`selected, table
      ensures Valid()
      ensures old(selected).None? ==>
        sent == old(sent) && table.data == old(table.data) && showDeleteModal == old(showDeleteModal) && selected.None?
      ensures old(selected).Some? ==> sent == old(sent) + [DeleteProduct(old(selected).value.id)]
      ensures old(selected).Some? && outcome.Ok? ==>
        table.data == WithoutId(old(table.data), old(selected).value.id)
        && !showDeleteModal && selected.None?
      ensures outcome.Err? ==> table.data == old(table.data) && showDeleteModal == old(showDeleteModal) && selected == old(selected)
      ensures table.currentPage == old(table.currentPage) && table.searchQuery == old(table.searchQuery)
      ensures table.loading == old(table.loading) && table.error == old(table.error)
    {
      if selected.Some? {
        var id := selected.value.id;
        sent := sent + [DeleteProduct(id)];
        if outcome.Ok? {
          table.DeleteItem((p: Product) => HasId(p, id));
          DeleteKeeps(old(table.data), (p: Product) => HasId(p, id), (p: Product) => !HasId(p, id));
          showDeleteModal := false;
          selected := None;
        }
      }
    }
  }
}
