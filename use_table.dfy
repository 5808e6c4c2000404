/**
 * The generic table controller: an owned item list, a search query over one
 * string-valued key, a page cursor, and load/error state. The visible page is the
 * searched list cut to one page; deletion and update act on the whole list.
 */
module UseTable {
  import opened Wrappers
  import opened Text
  import opened Seqs

  const LoadFailedMessage := "Veriler yüklenirken hata oluştu"
  const DefaultItemsPerPage := 10

  /**
   * Whether `item` passes the search. `key` reads the searched field: Some for a
   * string value, None for a value of another type, which never matches.
   */
  predicate SearchMatches<T>(item: T, query: string, key: T -> Option<string>) {
    match key(item)
    case Some(v) => IncludesIgnoringCase(v, query)
    case None => false
  }

  /** `filteredData` */
  function Filtered<T>(data: seq<T>, query: string, key: Option<T -> Option<string>>): seq<T> {
    if query == "" || key.None? then data
    else Filter(data, (item: T) => SearchMatches(item, query, key.value))
  }

  /** An empty query, or no search key, shows the whole list. */
  lemma FilteredWithoutSearch<T>(data: seq<T>, query: string, key: Option<T -> Option<string>>)
    requires query == "" || key.None?
    ensures Filtered(data, query, key) == data
  {
  }

  /**
   * Otherwise the search keeps each item as often as the list holds it when its key is a
   * string containing the query case-insensitively, and drops it when not
   * (together with `Seqs.FilterConcat`, this fixes the result and its order).
   */
  lemma FilteredKeepsMatches<T>(data: seq<T>, query: string, key: T -> Option<string>, x: T)
    requires query != ""
    ensures multiset(Filtered(data, query, Some(key)))[x]
      == if SearchMatches(x, query, key) then multiset(data)[x] else 0
  {
    FilterMultiset(data, (item: T) => SearchMatches(item, query, key), x);
  }

  /** A value that is not a string never passes a non-empty search. */
  lemma NonStringNeverMatches<T>(data: seq<T>, query: string, key: T -> Option<string>, x: T)
    requires query != "" && key(x).None?
    ensures x !in Filtered(data, query, Some(key))
  {
  }

  /** `Math.ceil(n / perPage)` */
  function PageCount(n: nat, perPage: nat): (pages: nat)
    requires perPage >= 1
    ensures pages * perPage >= n
    ensures pages == 0 || (pages - 1) * perPage < n
  {
    (n + perPage - 1) / perPage
  }

  /** `filtered.slice((page - 1) * perPage, (page - 1) * perPage + perPage)` */
  function PageSlice<T>(filtered: seq<T>, page: int, perPage: nat): (r: seq<T>)
    requires page >= 1 && perPage >= 1
    ensures |r| <= perPage
    ensures (page - 1) * perPage >= |filtered| ==> r == []
    ensures forall j :: 0 <= j < |r| ==>
      (page - 1) * perPage + j < |filtered| && r[j] == filtered[(page - 1) * perPage + j]
    ensures (page - 1) * perPage < |filtered| ==>
      r == filtered[(page - 1) * perPage..if page * perPage <= |filtered| then page * perPage else |filtered|]
  {
    var start := (page - 1) * perPage;
    if start >= |filtered| then []
    else if start + perPage <= |filtered| then filtered[start..start + perPage]
    else filtered[start..]
  }

  /** A page within the page count is full except possibly the last one, and never empty. */
  lemma PageSliceWithinCount<T>(filtered: seq<T>, page: int, perPage: nat)
    requires perPage >= 1 && 1 <= page <= PageCount(|filtered|, perPage)
    ensures PageSlice(filtered, page, perPage) != []
    ensures page < PageCount(|filtered|, perPage) ==> |PageSlice(filtered, page, perPage)| == perPage
  {
    PageBounds(|filtered|, page, perPage);
    var start := (page - 1) * perPage;
    var r := PageSlice(filtered, page, perPage);
    if start + perPage <= |filtered| {
      assert r == filtered[start..start + perPage];
    } else {
      assert r == filtered[start..];
    }
  }

  /** Where a page within the page count starts and ends, relative to the number of rows. */
  lemma PageBounds(n: nat, page: int, perPage: nat)
    requires perPage >= 1 && 1 <= page <= PageCount(n, perPage)
    ensures (page - 1) * perPage < n
    ensures page < PageCount(n, perPage) ==> (page - 1) * perPage + perPage <= n
  {
    var pages := PageCount(n, perPage);
    MulMonotone(page - 1, pages - 1, perPage);
    if page < pages {
      MulMonotone(page, pages - 1, perPage);
      assert (page - 1) * perPage + perPage == page * perPage;
    }
  }

  lemma MulMonotone(a: int, b: int, c: nat)
    requires a <= b
    ensures a * c <= b * c
  {
  }

  /** `Math.max(1, Math.min(page, totalPages))` */
  function ClampPage(page: int, totalPages: nat): (r: int)
    ensures r >= 1
    ensures totalPages >= 1 ==> r <= totalPages
    ensures totalPages == 0 ==> r == 1
    ensures 1 <= page <= totalPages ==> r == page
    ensures page > totalPages >= 1 ==> r == totalPages
    ensures page < 1 ==> r == 1
  {
    if page < totalPages then (if page < 1 then 1 else page)
    else if totalPages < 1 then 1 else totalPages
  }

  class Table<T> {
    const hasFetch: bool
    const itemsPerPage: nat
    const searchKey: Option<T -> Option<string>>
    var data: seq<T>
    var loading: bool
    var currentPage: int
    var searchQuery: string
    var error: Option<string>

    ghost predicate Valid()
      reads this
    {
      itemsPerPage >= 1 && currentPage >= 1
    }

    /** `filteredData` */
    function FilteredItems(): seq<T>
      reads this
    {
      Filtered(data, searchQuery, searchKey)
    }

    /** `totalPages` */
    function TotalPages(): nat
      reads this
      requires Valid()
    {
      PageCount(|FilteredItems()|, itemsPerPage)
    }

    /** `totalItems`: the searched, unpaged count. */
    function TotalItems(): nat
      reads this
    {
      |FilteredItems()|
    }

    /** `currentItems`, the page handed out as `data`. */
    function CurrentItems(): seq<T>
      reads this
      requires Valid()
    {
      PageSlice(FilteredItems(), currentPage, itemsPerPage)
    }

    /** The initial state; `hasFetch` says whether a `fetchData` function was given. */
    constructor (initialData: seq<T>, hasFetch: bool, itemsPerPage: nat, searchKey: Option<T -> Option<string>>)
      requires itemsPerPage >= 1
      ensures Valid()
      ensures this.hasFetch == hasFetch && this.itemsPerPage == itemsPerPage && this.searchKey == searchKey
      ensures data == initialData && loading == hasFetch
      ensures currentPage == 1 && searchQuery == "" && error == None
    {
      this.hasFetch := hasFetch;
      this.itemsPerPage := itemsPerPage;
      this.searchKey := searchKey;
      data := initialData;
      loading := hasFetch;
      currentPage := 1;
      searchQuery := "";
      error := None;
    }

    /** The part of `loadData` before the fetch settles. */
    method StartLoad()
      requires Valid() && hasFetch
      modifies this
      ensures Valid()
      ensures loading && error == None
      ensures data == old(data) && currentPage == old(currentPage) && searchQuery == old(searchQuery)
    {
      loading := true;
      error := None;
    }

    /** The part of `loadData` after the fetch settled with `outcome`. */
    method FinishLoad(outcome: Outcome<seq<T>>)
      requires Valid() && hasFetch
      modifies this
      ensures Valid()
      ensures !loading
      ensures outcome.Ok? ==> data == outcome.value && error == old(error)
      ensures outcome.Err? ==> data == old(data) && error == Some(MessageOr(outcome.fault, LoadFailedMessage))
      ensures currentPage == old(currentPage) && searchQuery == old(searchQuery)
    {
      match outcome {
        case Ok(result) =>
          data := result;
        case Err(fault) =>
          error := Some(MessageOr(fault, LoadFailedMessage));
      }
      loading := false;
    }

    /** `loadData`, with the fetch settling as `outcome`; without `fetchData` nothing happens. */
    method LoadData(outcome: Outcome<seq<T>>)
      requires Valid()
      modifies this
      ensures Valid()
      ensures !hasFetch ==> data == old(data) && loading == old(loading) && error == old(error)
      ensures hasFetch ==> !loading
      ensures hasFetch && outcome.Ok? ==> data == outcome.value && error == None
      ensures hasFetch && outcome.Err? ==>
        data == old(data) && error == Some(MessageOr(outcome.fault, LoadFailedMessage))
      ensures currentPage == old(currentPage) && searchQuery == old(searchQuery)
    {
      if hasFetch {
        StartLoad();
        FinishLoad(outcome);
      }
    }

    /** `setSearchQuery`: the page cursor is left where it was. */
    method SetSearchQuery(q: string)
      requires Valid()
      modifies this
      ensures Valid()
      ensures searchQuery == q
      ensures data == old(data) && currentPage == old(currentPage) && loading == old(loading) && error == old(error)
    {
      searchQuery := q;
    }

    /** `setData` */
    method SetData(newData: seq<T>)
      requires Valid()
      modifies this
      ensures Valid()
      ensures data == newData
      ensures currentPage == old(currentPage) && searchQuery == old(searchQuery)
      ensures loading == old(loading) && error == old(error)
    {
      data := newData;
    }

    /** `goToPage` */
    method GoToPage(page: int)
      requires Valid()
      modifies this
      ensures Valid()
      ensures currentPage == ClampPage(page, old(TotalPages()))
      ensures data == old(data) && searchQuery == old(searchQuery)
      ensures loading == old(loading) && error == old(error)
    {
      currentPage := ClampPage(page, TotalPages());
    }

    /** `deleteItem`: drops every item matching `pred` from the whole list. */
    method DeleteItem(pred: T -> bool)
      requires Valid()
      modifies this
      ensures Valid()
      ensures data == Filter(old(data), (item: T) => !pred(item))
      ensures currentPage == old(currentPage) && searchQuery == old(searchQuery)
      ensures loading == old(loading) && error == old(error)
    {
      data := Filter(data, (item: T) => !pred(item));
    }

    /** `updateItem`: every item matching `pred` is replaced by `merge` of it. */
    method UpdateItem(pred: T -> bool, merge: T -> T)
      requires Valid()
      modifies this
      ensures Valid()
      ensures data == MapWhere(old(data), pred, merge)
      ensures currentPage == old(currentPage) && searchQuery == old(searchQuery)
      ensures loading == old(loading) && error == old(error)
    {
      data := MapWhere(data, pred, merge);
    }
  }

  /** No deleted item remains, and the survivors are exactly the non-matching items. */
  lemma DeleteRemovesExactlyMatches<T>(data: seq<T>, pred: T -> bool, x: T)
    ensures multiset(Filter(data, (item: T) => !pred(item)))[x] == if pred(x) then 0 else multiset(data)[x]
  {
    FilterMultiset(data, (item: T) => !pred(item), x);
  }

  /** Deleting by `pred` keeps what any test equivalent to "not `pred`" keeps. */
  lemma DeleteKeeps<T>(data: seq<T>, pred: T -> bool, keep: T -> bool)
    requires forall x :: keep(x) == !pred(x)
    ensures Filter(data, (item: T) => !pred(item)) == Filter(data, keep)
  {
    FilterExtensional(data, (item: T) => !pred(item), keep);
  }

  /** When nothing matches, deletion leaves the list as it was. */
  lemma DeleteNothingMatches<T>(data: seq<T>, pred: T -> bool)
    requires forall i :: 0 <= i < |data| ==> !pred(data[i])
    ensures Filter(data, (item: T) => !pred(item)) == data
  {
    FilterAll(data, (item: T) => !pred(item));
  }

  /** Updating twice with a field-overwriting merge gives what updating once gives. */
  lemma UpdateIdempotent<T>(data: seq<T>, pred: T -> bool, merge: T -> T)
    requires forall x :: merge(merge(x)) == merge(x)
    ensures MapWhere(MapWhere(data, pred, merge), pred, merge) == MapWhere(data, pred, merge)
  {
    MapWhereIdempotent(data, pred, merge);
  }

  /**
   * Clearing the query after any search shows the unsearched list again, paged from
   * the same cursor.
   */
  lemma ClearedSearchRestoresPaging<T>(data: seq<T>, key: Option<T -> Option<string>>, page: int, perPage: nat)
    requires page >= 1 && perPage >= 1
    ensures PageSlice(Filtered(data, "", key), page, perPage) == PageSlice(data, page, perPage)
  {
  }

  /** Twenty-five items at ten per page make three pages, and asking for page five lands on three. */
  lemma ScenarioClampToLastPage()
    ensures PageCount(25, 10) == 3 && ClampPage(5, PageCount(25, 10)) == 3
  {
  }
}
