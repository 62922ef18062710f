/** The state of the event screen (components/Events.tsx) as an object whose
    fields are the component's `useState` cells, plus `stored`, the value kept
    in browser storage under the key `escale_favorites`. The collaborators the component
    calls (date parsing, JSON decoding and encoding) are fixed at construction. */
module EventsComponent {
  import opened Wrappers
  import opened Types
  import opened Lists
  import opened EventsLogic
  import Gemini

  /** Sent by a search when the search box is empty. */
  const DefaultSearchQuery: string := "best student parties and events in Paris this week"
  /** Sent by the fetch that runs when the screen mounts. */
  const InitialQuery: string :=
    "top upcoming international student gatherings, club nights, and parties in Paris this weekend"

  class Events {
    var query: string
    var loading: bool
    var events: seq<EventItem>
    var sources: seq<GroundingSource>
    var favorites: seq<EventItem>
    var showFavoritesOnly: bool
    var hideOutdated: bool
    /** Browser storage under `escale_favorites`; `None` when nothing is stored. */
    var stored: Option<string>

    const parseDate: string -> Option<int>
    const decodeFavorites: string -> Option<seq<EventItem>>
    const encodeFavorites: seq<EventItem> -> string
    const decodeReply: string -> Option<Gemini.ReplyJson>

    /** The save effect has caught up: storage holds the encoded favourites. */
    ghost predicate Valid()
      reads this
    {
      stored == Some(encodeFavorites(favorites))
    }

    /** Mounting the screen: the initial state, then the load effect (which
        restores favourites from `storedAtMount` into the empty list), then the
        save effect, which writes the favourites back. */
    constructor (storedAtMount: Option<string>,
                 parseDate: string -> Option<int>,
                 decodeFavorites: string -> Option<seq<EventItem>>,
                 encodeFavorites: seq<EventItem> -> string,
                 decodeReply: string -> Option<Gemini.ReplyJson>)
      ensures Valid()
      ensures query == "" && !loading && events == [] && sources == []
      ensures !showFavoritesOnly && hideOutdated
      ensures favorites == RestoredFavorites(storedAtMount, decodeFavorites, [])
      ensures this.parseDate == parseDate && this.decodeFavorites == decodeFavorites
      ensures this.encodeFavorites == encodeFavorites && this.decodeReply == decodeReply
    {
      this.parseDate := parseDate;
      this.decodeFavorites := decodeFavorites;
      this.encodeFavorites := encodeFavorites;
      this.decodeReply := decodeReply;
      query := "";
      loading := false;
      events := [];
      sources := [];
      showFavoritesOnly := false;
      hideOutdated := true;
      var restored := RestoredFavorites(storedAtMount, decodeFavorites, []);
      favorites := restored;
      stored := Some(encodeFavorites(restored));
    }

    /** The list the screen renders at time `now`. */
    function Displayed(now: int): (r: seq<EventItem>)
      reads this
      ensures IsSubsequence(r, if showFavoritesOnly then favorites else events)
      ensures !hideOutdated ==> r == if showFavoritesOnly then favorites else events
      ensures hideOutdated ==>
        (forall x | x in r :: !IsPast(x.isoDate, now, parseDate)) &&
        (forall x | x in (if showFavoritesOnly then favorites else events) ::
          multiset(r)[x] ==
            if IsPast(x.isoDate, now, parseDate) then 0
            else multiset(if showFavoritesOnly then favorites else events)[x])
    {
      DisplayedEvents(favorites, events, showFavoritesOnly, hideOutdated, now, parseDate)
    }

    /** `toggleFavorite(event)` followed by the save effect. */
    method ToggleFavorite(event: EventItem)
      requires Valid()
      modifies this
      ensures Valid()
      ensures favorites == Toggled(old(favorites), event)
      ensures UniqueIds(old(favorites)) ==> UniqueIds(favorites)
      ensures query == old(query) && loading == old(loading)
      ensures events == old(events) && sources == old(sources)
      ensures showFavoritesOnly == old(showFavoritesOnly) && hideOutdated == old(hideOutdated)
    {
      if IsFavorited(favorites, event.id) {
        favorites := WithoutId(favorites, event.id);
      } else {
        favorites := favorites + [event];
      }
      if UniqueIds(old(favorites)) {
        ToggleKeepsIdsUnique(old(favorites), event);
      }
      stored := Some(encodeFavorites(favorites));
    }

    /** Typing in the search box. */
    method SetQuery(text: string)
      modifies this`query
      ensures query == text
    {
      query := text;
    }

    /** The favourites-only button flips the mode. */
    method ToggleShowFavoritesOnly()
      modifies this`showFavoritesOnly
      ensures showFavoritesOnly == !old(showFavoritesOnly)
    {
      showFavoritesOnly := !showFavoritesOnly;
    }

    /** The "Browse all events" button leaves favourites-only mode. */
    method ShowAllEvents()
      modifies this`showFavoritesOnly
      ensures !showFavoritesOnly
    {
      showFavoritesOnly := false;
    }

    /** The "Upcoming Only" / "Show All" button flips the filter. */
    method ToggleHideOutdated()
      modifies this`hideOutdated
      ensures hideOutdated == !old(hideOutdated)
    {
      hideOutdated := !hideOutdated;
    }

    /** The synchronous start of `handleSearch`, up to the awaited discovery
        call: favourites-only mode off, loading on; returns the query sent. */
    method BeginSearch() returns (sent: string)
      modifies this`showFavoritesOnly, this`loading
      ensures sent == if query == "" then DefaultSearchQuery else query
      ensures sent != ""
      ensures !showFavoritesOnly && loading
    {
      if showFavoritesOnly {
        showFavoritesOnly := false;
      }
      loading := true;
      sent := if query == "" then DefaultSearchQuery else query;
    }

    /** The synchronous start of `fetchInitial`: loading on; returns the query sent. */
    method BeginFetchInitial() returns (sent: string)
      modifies this`loading
      ensures sent == InitialQuery && loading
    {
      loading := true;
      sent := InitialQuery;
    }

    /** What `handleSearch` and `fetchInitial` do once the discovery call
        settles: on success (`Some`) the events and citations are replaced
        wholesale, on a rejection (`None`) they are kept; loading ends either way. */
    method CompleteDiscovery(outcome: Option<Gemini.Discovery>)
      modifies this`events, this`sources, this`loading
      ensures !loading
      ensures outcome.Some? ==> events == outcome.value.events && sources == outcome.value.sources
      ensures outcome.None? ==> events == old(events) && sources == old(sources)
    {
      if outcome.Some? {
        events := outcome.value.events;
        sources := outcome.value.sources;
      }
      loading := false;
    }

    /** A whole `handleSearch` whose discovery call is not overlapped by another. */
    method HandleSearch(backend: string -> Option<Gemini.Response>, nowIso: string) returns (sent: string)
      requires Valid()
      modifies this
      ensures Valid()
      ensures sent == if old(query) == "" then DefaultSearchQuery else old(query)
      ensures !showFavoritesOnly && !loading
      ensures var outcome := Gemini.DiscoverEvents(nowIso, sent, backend, decodeReply);
        (outcome.Some? ==> events == outcome.value.events && sources == outcome.value.sources) &&
        (outcome.None? ==> events == old(events) && sources == old(sources))
      ensures query == old(query) && hideOutdated == old(hideOutdated)
      ensures favorites == old(favorites) && stored == old(stored)
    {
      sent := BeginSearch();
      var outcome := Gemini.DiscoverEvents(nowIso, sent, backend, decodeReply);
      CompleteDiscovery(outcome);
    }

    /** A whole `fetchInitial` whose discovery call is not overlapped by another. */
    method FetchInitial(backend: string -> Option<Gemini.Response>, nowIso: string)
      requires Valid()
      modifies this
      ensures Valid()
      ensures !loading
      ensures var outcome := Gemini.DiscoverEvents(nowIso, InitialQuery, backend, decodeReply);
        (outcome.Some? ==> events == outcome.value.events && sources == outcome.value.sources) &&
        (outcome.None? ==> events == old(events) && sources == old(sources))
      ensures query == old(query) && showFavoritesOnly == old(showFavoritesOnly)
      ensures hideOutdated == old(hideOutdated)
      ensures favorites == old(favorites) && stored == old(stored)
    {
      var sent := BeginFetchInitial();
      var outcome := Gemini.DiscoverEvents(nowIso, sent, backend, decodeReply);
      CompleteDiscovery(outcome);
    }
  }

  /** Two searches whose replies arrive in the opposite order. Nothing in the
      component tells a stale reply from a fresh one: the first reply to
      arrive ends loading while the other call is still pending, and the
      reply that arrives last is what the screen keeps. */
  method OverlappingSearches(screen: Events, earlier: Gemini.Discovery, later: Gemini.Discovery)
    returns (loadingWhileEarlierPending: bool)
    modifies screen
    ensures !loadingWhileEarlierPending
    ensures screen.events == earlier.events && screen.sources == earlier.sources
    ensures !screen.loading && !screen.showFavoritesOnly
  {
    var _ := screen.BeginSearch();
    var _ := screen.BeginSearch();
    screen.CompleteDiscovery(Some(later));
    loadingWhileEarlierPending := screen.loading;
    screen.CompleteDiscovery(Some(earlier));
  }
}
