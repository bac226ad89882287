/**
 * The explore screen (src/screens/ExploreScreen.tsx): three tabs of
 * public itineraries (discover, featured, saved), page-by-page loading,
 * and the local updates after a like or an unsave. Each server call is
 * given as its outcome; a failed call carries its HTTP status, if any.
 */
module Explore {
  import opened Wrappers
  import opened Lists
  import opened Itineraries
  import opened UseToast

  const DiscoverFailure: string := "Erro ao carregar roteiros"
  const FeaturedFailure: string := "Erro ao carregar destaques"
  const SavedFailure: string := "Erro ao carregar salvos"
  const LikeFailure: string := "Erro ao curtir roteiro"
  const SaveFailure: string := "Erro ao salvar roteiro"

  /** The placeholder the client uses for the signed-in user in `likes`. */
  const Me: string := "user"

  datatype Tab = Discover | Featured | Saved

  datatype Pagination = Pagination(page: int, hasNext: bool)

  /** A page request's outcome: the page's items and the server's pagination, or a failure. */
  datatype PageOutcome = PageLoaded(items: seq<Itinerary>, pagination: Pagination) | PageFailed(status: Option<int>)

  datatype FeaturedOutcome = FeaturedLoaded(items: seq<Itinerary>) | FeaturedFailed(status: Option<int>)

  /** A page after the first is appended to what is shown; the first page replaces it. */
  function MergePage(prev: seq<Itinerary>, page: int, items: seq<Itinerary>): (r: seq<Itinerary>)
    ensures page == 1 ==> r == items
    ensures page != 1 ==> |r| == |prev| + |items| && r[..|prev|] == prev && r[|prev|..] == items
  {
    if page == 1 then items else prev + items
  }

  /** The pages concatenated in order. */
  function Concat(pages: seq<seq<Itinerary>>): seq<Itinerary> {
    if pages == [] then [] else Concat(pages[..|pages| - 1]) + pages[|pages| - 1]
  }

  /**
   * Loading page 1 and then pages 2, 3, ... in turn shows every item of
   * every page, in page order, whatever was shown before.
   */
  lemma {:induction false} PagesAccumulate(before: seq<Itinerary>, pages: seq<seq<Itinerary>>)
    requires |pages| >= 1
    ensures Shown(before, pages) == Concat(pages)
  {
    if |pages| > 1 {
      PagesAccumulate(before, pages[..|pages| - 1]);
      assert pages[..|pages| - 1][..|pages| - 2] == pages[..|pages| - 2];
    }
  }

  /** What the list holds after pages numbered 1 to |pages| were loaded one after the other over `before`. */
  function Shown(before: seq<Itinerary>, pages: seq<seq<Itinerary>>): seq<Itinerary> {
    if pages == [] then before
    else MergePage(Shown(before, pages[..|pages| - 1]), |pages|, pages[|pages| - 1])
  }

  /** The error toast of a failed load: none for a 401, which the session handles. */
  predicate Toasts(status: Option<int>) {
    status != Some(401)
  }

  /** One item after a like: `'user'` added when absent (to an empty list when there is none), every `'user'` removed when present. */
  function Liked(item: Itinerary): (r: Itinerary)
    ensures r.id == item.id && r.likes.Some?
    ensures Me in r.likes.value <==> Me !in item.likes.GetOr([])
    ensures r == item.(likes := Some(Toggle(item.likes.GetOr([]), Me)))
  {
    var likes := item.likes.GetOr([]);
    if Me in likes then item.(likes := Some(RemoveAll(likes, Me)))
    else item.(likes := Some(likes + [Me]))
  }

  /** `updateItineraries`: the item with the id gets the like toggled, every other item is kept, in place. */
  function UpdateLikes(items: seq<Itinerary>, id: string): (r: seq<Itinerary>)
    ensures |r| == |items|
    ensures forall i :: 0 <= i < |items| ==> r[i].id == items[i].id
    ensures forall i :: 0 <= i < |items| && items[i].id != id ==> r[i] == items[i]
    ensures forall i :: 0 <= i < |items| && items[i].id == id ==> r[i] == Liked(items[i])
  {
    seq(|items|, i requires 0 <= i < |items| => if items[i].id == id then Liked(items[i]) else items[i])
  }

  /** Liking twice leaves every item's likes as they were, once it has a list. */
  lemma LikeTwiceRestores(items: seq<Itinerary>, id: string)
    requires forall i :: 0 <= i < |items| ==> items[i].likes.Some? && Me !in items[i].likes.value
    ensures UpdateLikes(UpdateLikes(items, id), id) == items
  {
    var once := UpdateLikes(items, id);
    var twice := UpdateLikes(once, id);
    forall i | 0 <= i < |items| ensures twice[i] == items[i] {
      if items[i].id == id {
        ToggleTwiceRestores(items[i].likes.value, Me);
      }
    }
  }

  /** The filter that drops the item with the id. */
  function KeepOthers(id: string): Itinerary -> bool {
    (x: Itinerary) => x.id != id
  }

  /** `prev.filter(i => i._id !== id)`: no item with the id is left, every other one is kept as often as it was, in order. */
  function WithoutId(items: seq<Itinerary>, id: string): (r: seq<Itinerary>)
    ensures forall i :: 0 <= i < |r| ==> r[i].id != id
    ensures forall x: Itinerary :: x.id != id ==> multiset(r)[x] == multiset(items)[x]
    ensures (forall i :: 0 <= i < |items| ==> items[i].id != id) ==> r == items
  {
    KeepsOthers(items, id);
    Filter(items, KeepOthers(id))
  }

  lemma KeepsOthers(items: seq<Itinerary>, id: string)
    ensures forall x: Itinerary :: x.id != id ==> multiset(Filter(items, KeepOthers(id)))[x] == multiset(items)[x]
    ensures (forall i :: 0 <= i < |items| ==> items[i].id != id) ==> Filter(items, KeepOthers(id)) == items
  {
    forall x: Itinerary | x.id != id ensures multiset(Filter(items, KeepOthers(id)))[x] == multiset(items)[x] {
      FilterCount(items, KeepOthers(id), x);
    }
    if forall i :: 0 <= i < |items| ==> items[i].id != id {
      FilterKeepsAll(items, KeepOthers(id));
    }
  }

  class ExploreScreen {
    const toast: ToastHook
    var activeTab: Tab
    var loading: bool
    var refreshing: bool
    var loadingMore: bool
    var itineraries: seq<Itinerary>
    var pagination: Pagination
    var featured: seq<Itinerary>
    var saved: seq<Itinerary>
    var savedPagination: Pagination

    constructor (toast: ToastHook)
      ensures this.toast == toast && activeTab == Discover && loading && !refreshing && !loadingMore
      ensures itineraries == [] && featured == [] && saved == []
      ensures pagination == Pagination(1, false) && savedPagination == Pagination(1, false)
    {
      this.toast := toast;
      activeTab := Discover;
      loading, refreshing, loadingMore := true, false, false;
      itineraries, featured, saved := [], [], [];
      pagination, savedPagination := Pagination(1, false), Pagination(1, false);
    }

    /** `getCurrentData`: the list of the active tab. */
    function CurrentData(): seq<Itinerary>
      reads this
    {
      match activeTab
      case Discover => itineraries
      case Featured => featured
      case Saved => saved
    }

    /**
     * `loadDiscoverItineraries(page)`: on success the page is merged and the
     * pagination replaced; on failure the list is kept, the toast shown
     * unless the status is 401, and the failure passed on (`thrown`).
     */
    method LoadDiscover(page: int, outcome: PageOutcome) returns (thrown: bool)
      modifies this`itineraries, this`pagination, this`loadingMore, toast
      ensures !loadingMore && thrown == outcome.PageFailed?
      ensures outcome.PageLoaded? ==>
        itineraries == MergePage(old(itineraries), page, outcome.items) && pagination == outcome.pagination
        && toast.toast == old(toast.toast)
      ensures outcome.PageFailed? ==> itineraries == old(itineraries) && pagination == old(pagination)
      ensures outcome.PageFailed? && Toasts(outcome.status) ==> toast.toast == ToastState(true, DiscoverFailure, ErrorToast)
      ensures outcome.PageFailed? && !Toasts(outcome.status) ==> toast.toast == old(toast.toast)
    {
      thrown := false;
      match outcome {
        case PageLoaded(items, p) =>
          itineraries := if page == 1 then items else itineraries + items;
          pagination := p;
        case PageFailed(status) =>
          if status != Some(401) {
            toast.Error(DiscoverFailure);
          }
          thrown := true;
      }
      loadingMore := false;
    }

    /** `loadFeaturedItineraries`: the list is replaced on success; a failure shows its toast unless it is a 401. */
    method LoadFeatured(outcome: FeaturedOutcome)
      modifies this`featured, toast
      ensures outcome.FeaturedLoaded? ==> featured == outcome.items && toast.toast == old(toast.toast)
      ensures outcome.FeaturedFailed? ==> featured == old(featured)
      ensures outcome.FeaturedFailed? && Toasts(outcome.status) ==> toast.toast == ToastState(true, FeaturedFailure, ErrorToast)
      ensures outcome.FeaturedFailed? && !Toasts(outcome.status) ==> toast.toast == old(toast.toast)
    {
      match outcome {
        case FeaturedLoaded(items) =>
          featured := items;
        case FeaturedFailed(status) =>
          if status != Some(401) {
            toast.Error(FeaturedFailure);
          }
      }
    }

    /** `loadSavedItineraries(page)`: as for discover, but a failure is not passed on. */
    method LoadSaved(page: int, outcome: PageOutcome)
      modifies this`saved, this`savedPagination, this`loadingMore, toast
      ensures !loadingMore
      ensures outcome.PageLoaded? ==>
        saved == MergePage(old(saved), page, outcome.items) && savedPagination == outcome.pagination
        && toast.toast == old(toast.toast)
      ensures outcome.PageFailed? ==> saved == old(saved) && savedPagination == old(savedPagination)
      ensures outcome.PageFailed? && Toasts(outcome.status) ==> toast.toast == ToastState(true, SavedFailure, ErrorToast)
      ensures outcome.PageFailed? && !Toasts(outcome.status) ==> toast.toast == old(toast.toast)
    {
      match outcome {
        case PageLoaded(items, p) =>
          saved := if page == 1 then items else saved + items;
          savedPagination := p;
        case PageFailed(status) =>
          if status != Some(401) {
            toast.Error(SavedFailure);
          }
      }
      loadingMore := false;
    }

    /**
     * `loadData`: page 1 of the active tab (the featured list for the
     * featured tab), then loading and refreshing end. Only the tab's own
     * outcome is used and only that tab's list and pagination change. A
     * discover failure is toasted twice, by the load and again here, with
     * the same message.
     */
    method LoadData(page: PageOutcome, featuredOutcome: FeaturedOutcome)
      modifies this`itineraries, this`pagination, this`featured, this`saved, this`savedPagination
      modifies this`loadingMore, this`loading, this`refreshing, toast
      ensures !loading && !refreshing
      ensures activeTab == Discover ==>
        (if page.PageLoaded? then itineraries == page.items && pagination == page.pagination
         else itineraries == old(itineraries) && pagination == old(pagination))
        && !loadingMore && featured == old(featured) && saved == old(saved) && savedPagination == old(savedPagination)
      ensures activeTab == Featured ==>
        featured == (if featuredOutcome.FeaturedLoaded? then featuredOutcome.items else old(featured))
        && loadingMore == old(loadingMore) && itineraries == old(itineraries) && pagination == old(pagination)
        && saved == old(saved) && savedPagination == old(savedPagination)
      ensures activeTab == Saved ==>
        (if page.PageLoaded? then saved == page.items && savedPagination == page.pagination
         else saved == old(saved) && savedPagination == old(savedPagination))
        && !loadingMore && itineraries == old(itineraries) && pagination == old(pagination) && featured == old(featured)
      ensures activeTab == Discover ==>
        toast.toast == (if page.PageFailed? && Toasts(page.status) then ToastState(true, DiscoverFailure, ErrorToast) else old(toast.toast))
      ensures activeTab == Featured ==>
        toast.toast == (if featuredOutcome.FeaturedFailed? && Toasts(featuredOutcome.status) then ToastState(true, FeaturedFailure, ErrorToast) else old(toast.toast))
      ensures activeTab == Saved ==>
        toast.toast == (if page.PageFailed? && Toasts(page.status) then ToastState(true, SavedFailure, ErrorToast) else old(toast.toast))
    {
      if activeTab == Discover {
        var thrown := LoadDiscover(1, page);
        if thrown && page.status != Some(401) {
          toast.Error(DiscoverFailure);
        }
      } else if activeTab == Featured {
        LoadFeatured(featuredOutcome);
      } else {
        LoadSaved(1, page);
      }
      loading := false;
      refreshing := false;
    }

    /** `handleRefresh`: the pull-to-refresh reloads page 1 of the active tab, with the outcome `loadData` gives. */
    method HandleRefresh(page: PageOutcome, featuredOutcome: FeaturedOutcome)
      modifies this`itineraries, this`pagination, this`featured, this`saved, this`savedPagination
      modifies this`loadingMore, this`loading, this`refreshing, toast
      ensures !loading && !refreshing
      ensures activeTab == Discover ==>
        (if page.PageLoaded? then itineraries == page.items && pagination == page.pagination
         else itineraries == old(itineraries) && pagination == old(pagination))
        && !loadingMore && featured == old(featured) && saved == old(saved) && savedPagination == old(savedPagination)
      ensures activeTab == Featured ==>
        featured == (if featuredOutcome.FeaturedLoaded? then featuredOutcome.items else old(featured))
        && loadingMore == old(loadingMore) && itineraries == old(itineraries) && pagination == old(pagination)
        && saved == old(saved) && savedPagination == old(savedPagination)
      ensures activeTab == Saved ==>
        (if page.PageLoaded? then saved == page.items && savedPagination == page.pagination
         else saved == old(saved) && savedPagination == old(savedPagination))
        && !loadingMore && itineraries == old(itineraries) && pagination == old(pagination) && featured == old(featured)
      ensures activeTab == Discover ==>
        toast.toast == (if page.PageFailed? && Toasts(page.status) then ToastState(true, DiscoverFailure, ErrorToast) else old(toast.toast))
      ensures activeTab == Featured ==>
        toast.toast == (if featuredOutcome.FeaturedFailed? && Toasts(featuredOutcome.status) then ToastState(true, FeaturedFailure, ErrorToast) else old(toast.toast))
      ensures activeTab == Saved ==>
        toast.toast == (if page.PageFailed? && Toasts(page.status) then ToastState(true, SavedFailure, ErrorToast) else old(toast.toast))
    {
      refreshing := true;
      LoadData(page, featuredOutcome);
    }

    /**
     * `handleSearch`: page 1 of discover whatever the tab; its failure is
     * swallowed after the load's own toast, and loading ends.
     */
    method HandleSearch(page: PageOutcome)
      modifies this`itineraries, this`pagination, this`loadingMore, this`loading, toast
      ensures !loading && !loadingMore
      ensures page.PageLoaded? ==> itineraries == page.items && pagination == page.pagination && toast.toast == old(toast.toast)
      ensures page.PageFailed? ==> itineraries == old(itineraries) && pagination == old(pagination)
      ensures page.PageFailed? && Toasts(page.status) ==> toast.toast == ToastState(true, DiscoverFailure, ErrorToast)
      ensures page.PageFailed? && !Toasts(page.status) ==> toast.toast == old(toast.toast)
    {
      loading := true;
      var _ := LoadDiscover(1, page);
      loading := false;
    }

    /**
     * `handleLoadMore`: nothing while a page is loading; otherwise the next
     * page of the discover or saved tab when the server said there is one.
     * The featured tab never loads more. `request` is the page asked for.
     */
    method HandleLoadMore() returns (request: Option<int>)
      modifies this`loadingMore
      ensures old(loadingMore) ==> request == None && loadingMore
      ensures !old(loadingMore) && activeTab == Discover ==>
        if pagination.hasNext then request == Some(pagination.page + 1) && loadingMore else request == None && !loadingMore
      ensures !old(loadingMore) && activeTab == Saved ==>
        if savedPagination.hasNext then request == Some(savedPagination.page + 1) && loadingMore else request == None && !loadingMore
      ensures activeTab == Featured ==> request == None && loadingMore == old(loadingMore)
    {
      request := None;
      if loadingMore {
        return;
      }
      if activeTab == Discover && pagination.hasNext {
        loadingMore := true;
        request := Some(pagination.page + 1);
      } else if activeTab == Saved && savedPagination.hasNext {
        loadingMore := true;
        request := Some(savedPagination.page + 1);
      }
    }

    /**
     * `handleToggleLike(id)`: after the call succeeds, the like is toggled
     * locally in the discover or featured list, whichever tab is active;
     * the saved list is never touched. A failure shows its toast.
     */
    method HandleToggleLike(id: string, succeeded: bool)
      modifies this`itineraries, this`featured, toast
      ensures succeeded && activeTab == Discover ==> itineraries == UpdateLikes(old(itineraries), id) && featured == old(featured)
      ensures succeeded && activeTab == Featured ==> featured == UpdateLikes(old(featured), id) && itineraries == old(itineraries)
      ensures !succeeded || activeTab == Saved ==> itineraries == old(itineraries) && featured == old(featured)
      ensures !succeeded ==> toast.toast == ToastState(true, LikeFailure, ErrorToast)
      ensures succeeded ==> toast.toast == old(toast.toast)
    {
      if !succeeded {
        toast.Error(LikeFailure);
        return;
      }
      if activeTab == Discover {
        itineraries := UpdateLikes(itineraries, id);
      } else if activeTab == Featured {
        featured := UpdateLikes(featured, id);
      }
    }

    /**
     * `handleToggleSave(id)`: the saved list loses the item only when the
     * server answers that it is no longer saved and the saved tab is active.
     * `result` is the answer's `saved` flag, `None` when the call failed.
     */
    method HandleToggleSave(id: string, result: Option<bool>)
      modifies this`saved, toast
      ensures result == Some(false) && activeTab == Saved ==> saved == WithoutId(old(saved), id)
      ensures !(result == Some(false) && activeTab == Saved) ==> saved == old(saved)
      ensures result.None? ==> toast.toast == ToastState(true, SaveFailure, ErrorToast)
      ensures result.Some? ==> toast.toast == old(toast.toast)
    {
      match result {
        case None =>
          toast.Error(SaveFailure);
        case Some(isSaved) =>
          if !isSaved && activeTab == Saved {
            saved := WithoutId(saved, id);
          }
      }
    }
  }
}
