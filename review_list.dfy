/** The review moderation page: search and status filtering, moderation actions, and the two writes. */
module ReviewList {
  import opened Wrappers
  import opened Types
  import opened Text
  import opened Seqs

  const DeleteQuestion := "Bu yorumu silmek istediğinize emin misiniz?"

  /** The status select: 'all' or one status. */
  datatype StatusFilter = AllStatuses | Only(status: ReviewStatus)

  /** The remote calls the page issues. */
  datatype Request = SetStatus(id: string, status: ReviewStatus) | Remove(id: string)

  /** Which moderation buttons a review card offers. */
  datatype Actions = Actions(approve: bool, reject: bool, markSpam: bool, delete: bool)

  /** The search passes when the product name, customer name or comment contains the query. */
  predicate MatchesSearch(r: Review, query: string) {
    IncludesIgnoringCase(r.productName, query) || IncludesIgnoringCase(r.customerName, query)
    || IncludesIgnoringCase(r.comment, query)
  }

  predicate MatchesStatus(r: Review, f: StatusFilter) {
    f.AllStatuses? || r.status == f.status
  }

  predicate Passes(r: Review, query: string, f: StatusFilter) {
    MatchesSearch(r, query) && MatchesStatus(r, f)
  }

  /** `filteredReviews` */
  function FilteredReviews(reviews: seq<Review>, query: string, f: StatusFilter): seq<Review> {
    Filter(reviews, (r: Review) => Passes(r, query, f))
  }

  /**
   * The filtered list keeps every occurrence of a review that passes both the search and the
   * status filter, and nothing else; with an empty query and 'all' it is the whole list.
   */
  lemma FilteredReviewsExact(reviews: seq<Review>, query: string, f: StatusFilter, r: Review)
    ensures multiset(FilteredReviews(reviews, query, f))[r] ==
      if MatchesSearch(r, query) && MatchesStatus(r, f) then multiset(reviews)[r] else 0
    ensures query == "" && f.AllStatuses? ==> FilteredReviews(reviews, query, f) == reviews
  {
    FilterMultiset(reviews, (r: Review) => Passes(r, query, f), r);
    if query == "" && f.AllStatuses? {
      forall i | 0 <= i < |reviews| ensures Passes(reviews[i], query, f) {
        IncludesEmpty(reviews[i].productName);
      }
      FilterAll(reviews, (r: Review) => Passes(r, query, f));
    }
  }

  /** The buttons on a card: approve and reject only while pending, spam unless spam, delete always. */
  function ActionsFor(status: ReviewStatus): (a: Actions)
    ensures a.approve <==> status == ReviewPending
    ensures a.reject <==> status == ReviewPending
    ensures a.markSpam <==> status != Spam
    ensures a.delete
  {
    Actions(status == ReviewPending, status == ReviewPending, status != Spam, true)
  }

  /** `getStatusBadge`: one fixed label and style per status. */
  function StatusBadge(status: ReviewStatus): Badge {
    match status
    case ReviewPending => Badge("Bekliyor", "badge-warning")
    case Approved => Badge("Onaylı", "badge-success")
    case Rejected => Badge("Reddedildi", "badge-danger")
    case Spam => Badge("Spam", "badge-secondary")
  }

  /** The four statuses carry four different labels. */
  lemma StatusBadgeInjective(a: ReviewStatus, b: ReviewStatus)
    ensures StatusBadge(a).text == StatusBadge(b).text ==> a == b
  {
  }

  predicate IsPending(r: Review) { r.status == ReviewPending }
  predicate IsSpam(r: Review) { r.status == Spam }

  predicate HasId(r: Review, id: string) { r.id == id }

  /** The two header badges. */
  datatype Counters = Counters(pending: nat, spam: nat)

  /**
   * The header badges, taken over the whole list: the number of pending reviews and the
   * number of spam reviews, which together never exceed the number of reviews.
   */
  function HeaderCounts(reviews: seq<Review>): (c: Counters)
    ensures c.pending == Count(reviews, IsPending) && c.spam == Count(reviews, IsSpam)
    ensures c.pending + c.spam <= |reviews|
  {
    CountDisjoint(reviews, IsPending, IsSpam, (r: Review) => IsPending(r) || IsSpam(r));
    Counters(Count(reviews, IsPending), Count(reviews, IsSpam))
  }

  /**
   * The badges do not follow the search or the status filter: whatever is shown, the shown
   * pending and spam reviews are never more than the badges say, and with no search and
   * 'all' the shown list has exactly the counted ones.
   */
  lemma HeaderCountsCoverVisible(reviews: seq<Review>, query: string, f: StatusFilter)
    ensures Count(FilteredReviews(reviews, query, f), IsPending) <= HeaderCounts(reviews).pending
    ensures Count(FilteredReviews(reviews, query, f), IsSpam) <= HeaderCounts(reviews).spam
    ensures query == "" && f.AllStatuses? ==>
      HeaderCounts(FilteredReviews(reviews, query, f)) == HeaderCounts(reviews)
  {
    CountFilterAtMost(reviews, (r: Review) => Passes(r, query, f), IsPending);
    CountFilterAtMost(reviews, (r: Review) => Passes(r, query, f), IsSpam);
    if query == "" && f.AllStatuses? {
      FilteredReviewsExact(reviews, query, f, Review("", "", "", "", "", 0, "", ReviewPending, ""));
    }
  }

  /** The list after a successful status write: the reviews with that id get the new status. */
  function WithStatus(reviews: seq<Review>, id: string, s: ReviewStatus): seq<Review> {
    MapWhere(reviews, (r: Review) => HasId(r, id), (r: Review) => r.(status := s))
  }

  /** The list after a successful delete. */
  function WithoutId(reviews: seq<Review>, id: string): seq<Review> {
    Filter(reviews, (r: Review) => !HasId(r, id))
  }

  /**
   * A status write changes the status of the reviews with that id and nothing else: the
   * length, the order, the other fields and the other reviews stay as they were.
   */
  lemma WithStatusAt(reviews: seq<Review>, id: string, s: ReviewStatus, i: int)
    requires 0 <= i < |reviews|
    ensures |WithStatus(reviews, id, s)| == |reviews|
    ensures reviews[i].id == id ==> WithStatus(reviews, id, s)[i] == reviews[i].(status := s)
    ensures reviews[i].id != id ==> WithStatus(reviews, id, s)[i] == reviews[i]
  {
    MapWhereAt(reviews, (r: Review) => HasId(r, id), (r: Review) => r.(status := s), i);
  }

  /** A delete removes every review with that id and keeps every occurrence of the others. */
  lemma WithoutIdExact(reviews: seq<Review>, id: string, r: Review)
    ensures multiset(WithoutId(reviews, id))[r] == if r.id == id then 0 else multiset(reviews)[r]
  {
    FilterMultiset(reviews, (x: Review) => !HasId(x, id), r);
  }

  class ReviewPage {
    var reviews: seq<Review>
    var isLoading: bool
    var searchQuery: string
    var statusFilter: StatusFilter
    var sent: seq<Request>

    constructor ()
      ensures reviews == [] && isLoading && searchQuery == "" && statusFilter == AllStatuses && sent == []
    {
      reviews := [];
      isLoading := true;
      searchQuery := "";
      statusFilter := AllStatuses;
      sent := [];
    }

    /** What the page shows: reviews of the list that pass both the search and the status filter. */
    function Visible(): (v: seq<Review>)
      reads this
      ensures |v| <= |reviews|
      ensures forall r :: r in v ==> r in reviews && MatchesSearch(r, searchQuery) && MatchesStatus(r, statusFilter)
    {
      FilteredReviews(reviews, searchQuery, statusFilter)
    }

    /** The header badges, over the whole list rather than the shown one. */
    function Counts(): Counters
      reads this
    {
      HeaderCounts(reviews)
    }

    /** The initial fetch: the list is replaced on success, and loading ends either way. */
    method Load(result: Outcome<seq<Review>>)
      modifies this
      ensures reviews == (if result.Ok? then result.value else old(reviews))
      ensures !isLoading
      ensures searchQuery == old(searchQuery) && statusFilter == old(statusFilter) && sent == old(sent)
    {
      if result.Ok? {
        reviews := result.value;
      }
      isLoading := false;
    }

    /** `updateStatus`: the status write is sent, and the list changes only once it succeeded. */
    method UpdateStatus(id: string, s: ReviewStatus, outcome: Outcome<()>)
      modifies this
      ensures sent == old(sent) + [SetStatus(id, s)]
      ensures reviews == (if outcome.Ok? then WithStatus(old(reviews), id, s) else old(reviews))
      ensures isLoading == old(isLoading) && searchQuery == old(searchQuery) && statusFilter == old(statusFilter)
    {
      sent := sent + [SetStatus(id, s)];
      if outcome.Ok? {
        reviews := WithStatus(reviews, id, s);
      }
    }

    /**
     * `deleteReview`: unless the question is confirmed nothing is sent and nothing changes;
     * otherwise the delete is sent and the review leaves the list only once it succeeded.
     */
    method DeleteReview(id: string, confirmed: bool, outcome: Outcome<()>)
      modifies this
      ensures sent == (if confirmed then old(sent) + [Remove(id)] else old(sent))
      ensures reviews == (if confirmed && outcome.Ok? then WithoutId(old(reviews), id) else old(reviews))
      ensures isLoading == old(isLoading) && searchQuery == old(searchQuery) && statusFilter == old(statusFilter)
    {
      if !confirmed {
        return;
      }
      sent := sent + [Remove(id)];
      if outcome.Ok? {
        reviews := WithoutId(reviews, id);
      }
    }

    method SetSearchQuery(q: string)
      modifies this
      ensures searchQuery == q
      ensures reviews == old(reviews) && statusFilter == old(statusFilter) && sent == old(sent) && isLoading == old(isLoading)
      ensures Counts() == old(Counts())
    {
      searchQuery := q;
    }

    method SetStatusFilter(f: StatusFilter)
      modifies this
      ensures statusFilter == f
      ensures reviews == old(reviews) && searchQuery == old(searchQuery) && sent == old(sent) && isLoading == old(isLoading)
      ensures Counts() == old(Counts())
    {
      statusFilter := f;
    }
  }
}
