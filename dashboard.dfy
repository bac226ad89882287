/**
 * The dashboard screen (src/screens/DashboardScreen.tsx): loading the user's
 * itineraries with the offline fallback, and the search / status / sort
 * pipeline that derives the visible list.
 */
module Dashboard {
  import opened Wrappers
  import opened Text
  import opened Lists
  import opened Itineraries
  import opened UseToast
  import Offline

  const CachedNotice: string := "Sem conexão. Mostrando roteiros salvos."
  const LoadFailure: string := "Erro ao carregar roteiros"

  /** The body of `itineraryService.getAll()`: a bare array, a paginated envelope, or anything else. */
  datatype ListResponse = BareList(items: seq<Itinerary>) | Envelope(itineraries: seq<Itinerary>) | OtherShape

  /** The request either answers or throws, with the HTTP status when there is one. */
  datatype FetchOutcome = Fetched(body: ListResponse) | FetchFailed(status: Option<int>)

  datatype SortOrder = Recent | Oldest | ByStartDate

  /** The list of itineraries carried by a response; [] for an unknown shape. */
  function Normalize(response: ListResponse): seq<Itinerary> {
    match response
    case BareList(items) => items
    case Envelope(items) => items
    case OtherShape => []
  }

  /** Whether the lower-cased query occurs in the lower-cased title, city or country. */
  predicate MatchesQuery(item: Itinerary, query: string) {
    var q := Lower(query);
    Contains(Lower(item.title), q)
    || (CityOf(item).Some? && Contains(Lower(CityOf(item).value), q))
    || (CountryOf(item).Some? && Contains(Lower(CountryOf(item).value), q))
  }

  /** An empty query and a null or empty status filter are inactive. */
  predicate Selected(item: Itinerary, query: string, status: Option<string>) {
    (query == "" || MatchesQuery(item, query))
    && (status.None? || status.value == "" || item.status == status.value)
  }

  function SelectedBy(query: string, status: Option<string>): Itinerary -> bool {
    (x: Itinerary) => Selected(x, query, status)
  }

  function QueryFilter(query: string): Itinerary -> bool {
    (x: Itinerary) => MatchesQuery(x, query)
  }

  function StatusFilter(status: string): Itinerary -> bool {
    (x: Itinerary) => x.status == status
  }

  /** The two filter stages of `applyFilters`, each skipped when its criterion is falsy. */
  function Visible(items: seq<Itinerary>, query: string, status: Option<string>): seq<Itinerary> {
    var afterQuery := if query != "" then Filter(items, QueryFilter(query)) else items;
    if status.Some? && status.value != "" then Filter(afterQuery, StatusFilter(status.value)) else afterQuery
  }

  /** The comparator of each order as one ascending key: newest first, oldest first, earliest trip first. */
  function SortKey(order: SortOrder, item: Itinerary): int {
    match order
    case Recent => -item.createdAtMs
    case Oldest => item.createdAtMs
    case ByStartDate => item.startDateMs
  }

  predicate SortedBy(order: SortOrder, xs: seq<Itinerary>) {
    forall i, j :: 0 <= i < j < |xs| ==> SortKey(order, xs[i]) <= SortKey(order, xs[j])
  }

  function HasKey(order: SortOrder, k: int): Itinerary -> bool {
    (x: Itinerary) => SortKey(order, x) == k
  }

  /** Places `x` before the first element whose key is not smaller. */
  function Insert(order: SortOrder, x: Itinerary, s: seq<Itinerary>): (r: seq<Itinerary>)
    ensures multiset(r) == multiset(s) + multiset{x}
    ensures |r| == |s| + 1
    ensures r[0] == x || (s != [] && r[0] == s[0])
  {
    if s == [] || SortKey(order, x) <= SortKey(order, s[0]) then [x] + s
    else
      assert s == [s[0]] + s[1..];
      [s[0]] + Insert(order, x, s[1..])
  }

  lemma {:induction false} InsertSorted(order: SortOrder, x: Itinerary, s: seq<Itinerary>)
    requires SortedBy(order, s)
    ensures SortedBy(order, Insert(order, x, s))
  {
    if s != [] && SortKey(order, x) > SortKey(order, s[0]) {
      var h, t := s[0], s[1..];
      var rest := Insert(order, x, t);
      assert Insert(order, x, s) == [h] + rest;
      assert SortedBy(order, t) by {
        forall i, j | 0 <= i < j < |t|
          ensures SortKey(order, t[i]) <= SortKey(order, t[j])
        {
          assert t[i] == s[i + 1] && t[j] == s[j + 1];
        }
      }
      InsertSorted(order, x, t);
      assert SortKey(order, h) <= SortKey(order, rest[0]) by {
        if rest[0] != x {
          assert rest[0] == s[1];
        }
      }
      SortedCons(order, h, rest);
    }
  }

  /** A key no larger than the head of a sorted list can go in front of it. */
  lemma SortedCons(order: SortOrder, h: Itinerary, rest: seq<Itinerary>)
    requires SortedBy(order, rest)
    requires rest != [] ==> SortKey(order, h) <= SortKey(order, rest[0])
    ensures SortedBy(order, [h] + rest)
  {
    var r := [h] + rest;
    forall i, j | 0 <= i < j < |r|
      ensures SortKey(order, r[i]) <= SortKey(order, r[j])
    {
      assert r[j] == rest[j - 1];
      if i > 0 {
        assert r[i] == rest[i - 1];
      }
    }
  }

  /** `Array.prototype.sort` with the order's comparator, which is stable: insertion of each element into the sorted rest. */
  function Sort(order: SortOrder, xs: seq<Itinerary>): seq<Itinerary> {
    if xs == [] then [] else Insert(order, xs[0], Sort(order, xs[1..]))
  }

  /** The sort returns a permutation of its input, ordered by the key. */
  lemma {:induction false} SortSpec(order: SortOrder, xs: seq<Itinerary>)
    ensures multiset(Sort(order, xs)) == multiset(xs)
    ensures SortedBy(order, Sort(order, xs))
  {
    if xs != [] {
      var h, t := xs[0], xs[1..];
      assert xs == [h] + t;
      SortSpec(order, t);
      InsertSorted(order, h, Sort(order, t));
    }
  }

  /** What `applyFilters` computes from the screen state. */
  function Filtered(items: seq<Itinerary>, query: string, status: Option<string>, order: SortOrder): seq<Itinerary> {
    Sort(order, Visible(items, query, status))
  }

  lemma {:induction false} InsertStable(order: SortOrder, x: Itinerary, s: seq<Itinerary>, k: int)
    ensures Filter(Insert(order, x, s), HasKey(order, k))
         == (if SortKey(order, x) == k then [x] else []) + Filter(s, HasKey(order, k))
  {
    var p := HasKey(order, k);
    if s == [] || SortKey(order, x) <= SortKey(order, s[0]) {
      FilterCons(x, s, p);
    } else {
      var h, t := s[0], s[1..];
      var rest := Insert(order, x, t);
      assert Insert(order, x, s) == [h] + rest;
      assert s == [h] + t;
      InsertStable(order, x, t, k);
      FilterCons(h, rest, p);
      FilterCons(h, t, p);
      var hs: seq<Itinerary> := if p(h) then [h] else [];
      var xs: seq<Itinerary> := if p(x) then [x] else [];
      assert hs == [] || xs == [];
      SwapAroundEmpty(hs, xs, Filter(t, p));
    }
  }

  /** Two lists one of which is empty can be put before a third in either order. */
  lemma SwapAroundEmpty<T>(a: seq<T>, b: seq<T>, c: seq<T>)
    requires a == [] || b == []
    ensures a + (b + c) == b + (a + c)
  {
    if a == [] {
      assert a + (b + c) == b + c;
      assert a + c == c;
    } else {
      assert b + c == c;
      assert b + (a + c) == a + c;
    }
  }

  /** Sorting never reorders two itineraries with the same key. */
  lemma {:induction false} SortStable(order: SortOrder, xs: seq<Itinerary>, k: int)
    ensures Filter(Sort(order, xs), HasKey(order, k)) == Filter(xs, HasKey(order, k))
  {
    if xs != [] {
      var h, t := xs[0], xs[1..];
      assert xs == [h] + t;
      FilterCons(h, t, HasKey(order, k));
      var sortedTail := Sort(order, t);
      assert Sort(order, xs) == Insert(order, h, sortedTail);
      SortStable(order, t, k);
      InsertStable(order, h, sortedTail, k);
    }
  }

  /** The two stages select exactly the itineraries meeting both active criteria, in their order. */
  lemma VisibleIsSelection(items: seq<Itinerary>, query: string, status: Option<string>)
    ensures Visible(items, query, status) == Filter(items, SelectedBy(query, status))
  {
    var afterQuery := if query != "" then Filter(items, QueryFilter(query)) else items;
    var q := if query != "" then QueryFilter(query) else (x: Itinerary) => true;
    if query != "" {
      assert afterQuery == Filter(items, q);
    } else {
      FilterKeepsAll(items, q);
    }
    if status.Some? && status.value != "" {
      FilterTwice(items, q, StatusFilter(status.value), SelectedBy(query, status));
    } else {
      FilterTwice(items, q, (x: Itinerary) => true, SelectedBy(query, status));
      FilterKeepsAll(Filter(items, q), (x: Itinerary) => true);
    }
  }

  /**
   * The visible list is a permutation of the itineraries meeting the active
   * criteria, ordered by the chosen key, with ties kept in loaded order.
   */
  lemma FilteredSpec(items: seq<Itinerary>, query: string, status: Option<string>, order: SortOrder)
    ensures multiset(Filtered(items, query, status, order)) == multiset(Filter(items, SelectedBy(query, status)))
    ensures SortedBy(order, Filtered(items, query, status, order))
    ensures forall k :: Filter(Filtered(items, query, status, order), HasKey(order, k))
                     == Filter(Filter(items, SelectedBy(query, status)), HasKey(order, k))
  {
    VisibleIsSelection(items, query, status);
    SortSpec(order, Visible(items, query, status));
    forall k ensures Filter(Filtered(items, query, status, order), HasKey(order, k))
                  == Filter(Filter(items, SelectedBy(query, status)), HasKey(order, k)) {
      SortStable(order, Visible(items, query, status), k);
    }
  }

  /** An itinerary is visible exactly when it was loaded and meets both active criteria. */
  lemma FilteredMembership(items: seq<Itinerary>, query: string, status: Option<string>, order: SortOrder, x: Itinerary)
    ensures x in Filtered(items, query, status, order) <==> x in items && Selected(x, query, status)
  {
    FilteredSpec(items, query, status, order);
    FilterCount(items, SelectedBy(query, status), x);
    assert x in Filtered(items, query, status, order) <==> x in multiset(Filtered(items, query, status, order));
  }

  /** With no criteria active the whole list is shown, only reordered. */
  lemma NoCriteriaShowsAll(items: seq<Itinerary>, order: SortOrder)
    ensures multiset(Filtered(items, "", None, order)) == multiset(items)
  {
    FilteredSpec(items, "", None, order);
    FilterKeepsAll(items, SelectedBy("", None));
  }

  class DashboardScreen {
    const offline: Offline.OfflineService
    const toast: ToastHook
    var itineraries: seq<Itinerary>
    var filtered: seq<Itinerary>
    var loading: bool
    var refreshing: bool
    var hasError: bool
    var searchQuery: string
    var statusFilter: Option<string>
    var sortBy: SortOrder

    /** The visible list is the one `applyFilters` derives from the current state. */
    predicate FiltersApplied()
      reads this
    {
      filtered == Filtered(itineraries, searchQuery, statusFilter, sortBy)
    }

    constructor (offline: Offline.OfflineService, toast: ToastHook)
      ensures this.offline == offline && this.toast == toast
      ensures itineraries == [] && filtered == [] && loading && !refreshing && !hasError
      ensures searchQuery == "" && statusFilter == None && sortBy == Recent
      ensures FiltersApplied()
    {
      this.offline := offline;
      this.toast := toast;
      itineraries := [];
      filtered := [];
      loading := true;
      refreshing := false;
      hasError := false;
      searchQuery := "";
      statusFilter := None;
      sortBy := Recent;
    }

    /** `applyFilters`, which the screen re-runs whenever its inputs change. */
    method ApplyFilters()
      modifies this`filtered
      ensures FiltersApplied()
    {
      var result := itineraries;
      if searchQuery != "" {
        result := Filter(result, QueryFilter(searchQuery));
      }
      if statusFilter.Some? && statusFilter.value != "" {
        result := Filter(result, StatusFilter(statusFilter.value));
      }
      filtered := Sort(sortBy, result);
    }

    method SetSearchQuery(query: string)
      modifies this`searchQuery, this`filtered
      ensures searchQuery == query && FiltersApplied()
    {
      searchQuery := query;
      ApplyFilters();
    }

    method SetStatusFilter(status: Option<string>)
      modifies this`statusFilter, this`filtered
      ensures statusFilter == status && FiltersApplied()
    {
      statusFilter := status;
      ApplyFilters();
    }

    method SetSortBy(order: SortOrder)
      modifies this`sortBy, this`filtered
      ensures sortBy == order && FiltersApplied()
    {
      sortBy := order;
      ApplyFilters();
    }

    /**
     * `loadItineraries`. Online and answered: the normalised list is shown
     * and written to the cache. Offline: the cache is shown. On a 401 the
     * cache is shown only when non-empty, with no error. On any other failure
     * a non-empty cache is shown with a notice; an empty one sets the error
     * state. Loading and refreshing always end false. `requested` tells
     * whether the request was made.
     */
    method LoadItineraries(now: int, platform: Offline.Platform, probe: Offline.ProbeOutcome, fetch: FetchOutcome)
      returns (requested: bool)
      modifies this`itineraries, this`filtered, this`loading, this`refreshing, this`hasError, offline, toast
      ensures Offline.Checked(old(offline.isOnline), old(offline.lastCheck), now, platform, probe, offline.isOnline, offline.lastCheck)
      ensures requested == offline.isOnline
      ensures !loading && !refreshing && FiltersApplied()
      ensures searchQuery == old(searchQuery) && statusFilter == old(statusFilter) && sortBy == old(sortBy)
      ensures requested && fetch.Fetched? ==>
        itineraries == Normalize(fetch.body) && !hasError && toast.toast == old(toast.toast)
        && offline.storage == old(offline.storage)[Offline.ItinerariesKey := Offline.ItineraryList(itineraries)]
      ensures !(requested && fetch.Fetched?) ==> offline.storage == old(offline.storage)
      ensures !requested ==> itineraries == old(offline.Snapshot()) && !hasError && toast.toast == old(toast.toast)
      ensures requested && fetch == FetchFailed(Some(401)) ==>
        itineraries == (if old(offline.Snapshot()) != [] then old(offline.Snapshot()) else old(itineraries))
        && !hasError && toast.toast == old(toast.toast)
      ensures requested && fetch.FetchFailed? && fetch.status != Some(401) && old(offline.Snapshot()) != [] ==>
        itineraries == old(offline.Snapshot()) && !hasError && toast.toast == ToastState(true, CachedNotice, ErrorToast)
      ensures requested && fetch.FetchFailed? && fetch.status != Some(401) && old(offline.Snapshot()) == [] ==>
        itineraries == old(itineraries) && hasError && toast.toast == ToastState(true, LoadFailure, ErrorToast)
    {
      requested := LoadList(now, platform, probe, fetch);
      loading := false;
      refreshing := false;
      ApplyFilters();
    }

    /**
     * The `try`/`catch` part of `loadItineraries`, before its `finally`:
     * the connection check, the request, the cache write and the fallback.
     */
    method LoadList(now: int, platform: Offline.Platform, probe: Offline.ProbeOutcome, fetch: FetchOutcome)
      returns (requested: bool)
      modifies this`itineraries, this`hasError, offline, toast
      ensures Offline.Checked(old(offline.isOnline), old(offline.lastCheck), now, platform, probe, offline.isOnline, offline.lastCheck)
      ensures requested == offline.isOnline
      ensures requested && fetch.Fetched? ==>
        itineraries == Normalize(fetch.body) && !hasError && toast.toast == old(toast.toast)
        && offline.storage == old(offline.storage)[Offline.ItinerariesKey := Offline.ItineraryList(itineraries)]
      ensures !(requested && fetch.Fetched?) ==> offline.storage == old(offline.storage)
      ensures !requested ==> itineraries == old(offline.Snapshot()) && !hasError && toast.toast == old(toast.toast)
      ensures requested && fetch == FetchFailed(Some(401)) ==>
        itineraries == (if old(offline.Snapshot()) != [] then old(offline.Snapshot()) else old(itineraries))
        && !hasError && toast.toast == old(toast.toast)
      ensures requested && fetch.FetchFailed? && fetch.status != Some(401) && old(offline.Snapshot()) != [] ==>
        itineraries == old(offline.Snapshot()) && !hasError && toast.toast == ToastState(true, CachedNotice, ErrorToast)
      ensures requested && fetch.FetchFailed? && fetch.status != Some(401) && old(offline.Snapshot()) == [] ==>
        itineraries == old(itineraries) && hasError && toast.toast == ToastState(true, LoadFailure, ErrorToast)
    {
      hasError := false;
      var probed;
      requested, probed := offline.CheckConnection(now, platform, probe);
      if requested {
        match fetch {
          case Fetched(body) =>
            var data := Normalize(body);
            itineraries := data;
            offline.SaveItinerariesOffline(Offline.ArrayValue(data));
          case FetchFailed(status) =>
            var cached := offline.GetOfflineItineraries();
            FallBackToCache(status, cached);
        }
      } else {
        var cached := offline.GetOfflineItineraries();
        itineraries := cached;
      }
    }

    /**
     * The catch branch of `loadItineraries`: after a 401 a non-empty cache
     * is shown silently; after any other failure a non-empty cache is shown
     * with a notice and an empty one sets the error state.
     */
    method FallBackToCache(status: Option<int>, cached: seq<Itinerary>)
      modifies this`itineraries, this`hasError, toast
      ensures status == Some(401) ==>
        itineraries == (if cached != [] then cached else old(itineraries))
        && hasError == old(hasError) && toast.toast == old(toast.toast)
      ensures status != Some(401) && cached != [] ==>
        itineraries == cached && hasError == old(hasError) && toast.toast == ToastState(true, CachedNotice, ErrorToast)
      ensures status != Some(401) && cached == [] ==>
        itineraries == old(itineraries) && hasError && toast.toast == ToastState(true, LoadFailure, ErrorToast)
    {
      if status == Some(401) {
        if |cached| > 0 {
          itineraries := cached;
        }
      } else if |cached| > 0 {
        itineraries := cached;
        toast.Error(CachedNotice);
      } else {
        hasError := true;
        toast.Error(LoadFailure);
      }
    }

    /** Pull to refresh: the refresh flag is raised, then the load runs, with every outcome of `loadItineraries`, and lowers it. */
    method OnRefresh(now: int, platform: Offline.Platform, probe: Offline.ProbeOutcome, fetch: FetchOutcome)
      returns (requested: bool)
      modifies this`itineraries, this`filtered, this`loading, this`refreshing, this`hasError, offline, toast
      ensures Offline.Checked(old(offline.isOnline), old(offline.lastCheck), now, platform, probe, offline.isOnline, offline.lastCheck)
      ensures requested == offline.isOnline
      ensures !loading && !refreshing && FiltersApplied()
      ensures searchQuery == old(searchQuery) && statusFilter == old(statusFilter) && sortBy == old(sortBy)
      ensures requested && fetch.Fetched? ==>
        itineraries == Normalize(fetch.body) && !hasError && toast.toast == old(toast.toast)
        && offline.storage == old(offline.storage)[Offline.ItinerariesKey := Offline.ItineraryList(itineraries)]
      ensures !(requested && fetch.Fetched?) ==> offline.storage == old(offline.storage)
      ensures !requested ==> itineraries == old(offline.Snapshot()) && !hasError && toast.toast == old(toast.toast)
      ensures requested && fetch == FetchFailed(Some(401)) ==>
        itineraries == (if old(offline.Snapshot()) != [] then old(offline.Snapshot()) else old(itineraries))
        && !hasError && toast.toast == old(toast.toast)
      ensures requested && fetch.FetchFailed? && fetch.status != Some(401) && old(offline.Snapshot()) != [] ==>
        itineraries == old(offline.Snapshot()) && !hasError && toast.toast == ToastState(true, CachedNotice, ErrorToast)
      ensures requested && fetch.FetchFailed? && fetch.status != Some(401) && old(offline.Snapshot()) == [] ==>
        itineraries == old(itineraries) && hasError && toast.toast == ToastState(true, LoadFailure, ErrorToast)
    {
      refreshing := true;
      requested := LoadItineraries(now, platform, probe, fetch);
    }
  }
}
