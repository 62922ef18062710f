/** The pure helpers of the event screen (components/Events.tsx): favourites
    membership and toggling, restoring favourites from storage, the time
    classifiers, the displayed list and the share text. Dates are parsed by a
    parameter `parseDate`, whose `None` stands for JavaScript's NaN; `now` is
    milliseconds since the epoch. */
module EventsLogic {
  import opened Wrappers
  import opened Types
  import opened Lists

  const HourMs: int := 60 * 60 * 1000
  /** Events that started less than this long ago still count as current. */
  const GraceMs: int := 6 * HourMs
  /** Events starting within this long are "Coming Soon". */
  const SoonMs: int := 24 * HourMs

  // ---------------------------------------------------------------------------
  // Favourites

  /** No two entries share an id. */
  predicate UniqueIds(s: seq<EventItem>) {
    forall i, j | 0 <= i < j < |s| :: s[i].id != s[j].id
  }

  function HasId(id: string): EventItem -> bool {
    (e: EventItem) => e.id == id
  }

  function NotId(id: string): EventItem -> bool {
    (e: EventItem) => e.id != id
  }

  /** `favorites.some(fav => fav.id === id)` */
  function IsFavorited(favorites: seq<EventItem>, id: string): (r: bool)
    ensures r <==> exists i | 0 <= i < |favorites| :: favorites[i].id == id
  {
    Any(favorites, HasId(id))
  }

  /** `prev.filter(fav => fav.id !== id)` */
  function WithoutId(favorites: seq<EventItem>, id: string): (r: seq<EventItem>)
    ensures forall x | x in r :: x in favorites && x.id != id
    ensures forall x | x in favorites && x.id != id :: x in r
    ensures forall x | x in favorites ::
      multiset(r)[x] == if x.id != id then multiset(favorites)[x] else 0
    ensures IsSubsequence(r, favorites)
    ensures !IsFavorited(r, id)
  {
    FilterIsSubsequence(favorites, NotId(id));
    FilterCounts(favorites, NotId(id));
    Filter(favorites, NotId(id))
  }

  /** The favourites after `toggleFavorite(event)`. */
  function Toggled(favorites: seq<EventItem>, event: EventItem): (r: seq<EventItem>)
    ensures IsFavorited(favorites, event.id) ==>
      IsSubsequence(r, favorites) &&
      (forall x | x in favorites && x.id != event.id :: x in r) &&
      (forall x | x in r :: x in favorites && x.id != event.id) &&
      (forall x | x in favorites ::
        multiset(r)[x] == if x.id != event.id then multiset(favorites)[x] else 0)
    ensures !IsFavorited(favorites, event.id) ==> r == favorites + [event]
    ensures IsFavorited(r, event.id) <==> !IsFavorited(favorites, event.id)
  {
    if IsFavorited(favorites, event.id) then WithoutId(favorites, event.id)
    else
      assert (favorites + [event])[|favorites|].id == event.id;
      favorites + [event]
  }

  /** A list with unique ids keeps them unique in every sublist. */
  lemma {:induction false} SubsequenceKeepsUniqueIds(a: seq<EventItem>, b: seq<EventItem>)
    requires IsSubsequence(a, b) && UniqueIds(b)
    ensures UniqueIds(a)
    decreases |b|
  {
    if a != [] {
      assert UniqueIds(b[1..]) by {
        forall i, j | 0 <= i < j < |b[1..]| ensures b[1..][i].id != b[1..][j].id {
          assert b[1..][i] == b[i + 1] && b[1..][j] == b[j + 1];
        }
      }
      if a[0] == b[0] && IsSubsequence(a[1..], b[1..]) {
        SubsequenceKeepsUniqueIds(a[1..], b[1..]);
        SubsequenceMembers(a[1..], b[1..]);
        forall i, j | 0 <= i < j < |a| ensures a[i].id != a[j].id {
          assert a[j] == a[1..][j - 1];
          if i == 0 {
            assert a[j] in b[1..];
            var k :| 0 <= k < |b[1..]| && b[1..][k] == a[j];
            assert b[k + 1] == a[j];
          } else {
            assert a[i] == a[1..][i - 1];
          }
        }
      } else {
        SubsequenceKeepsUniqueIds(a, b[1..]);
      }
    }
  }

  /** Toggling never creates two favourites with the same id. */
  lemma ToggleKeepsIdsUnique(favorites: seq<EventItem>, event: EventItem)
    requires UniqueIds(favorites)
    ensures UniqueIds(Toggled(favorites, event))
  {
    if IsFavorited(favorites, event.id) {
      SubsequenceKeepsUniqueIds(Toggled(favorites, event), favorites);
    }
  }

  /** Favouriting an event and toggling it again gives back the original list. */
  lemma ToggleTwiceRestores(favorites: seq<EventItem>, event: EventItem)
    requires !IsFavorited(favorites, event.id)
    ensures Toggled(Toggled(favorites, event), event) == favorites
  {
    var added := favorites + [event];
    FilterConcat(favorites, [event], NotId(event.id));
    FilterUnchanged(favorites, NotId(event.id));
    assert Filter([event], NotId(event.id)) == [];
  }

  /** The favourites after the load effect: an absent, empty or undecodable
      stored value leaves `current` as it is, otherwise the decoded list
      replaces it. */
  function RestoredFavorites(stored: Option<string>, decode: string -> Option<seq<EventItem>>,
                             current: seq<EventItem>): (r: seq<EventItem>)
    ensures stored.None? || stored == Some("") ==> r == current
    ensures stored.Some? && stored.value != "" && decode(stored.value).None? ==> r == current
    ensures stored.Some? && stored.value != "" && decode(stored.value).Some? ==>
      r == decode(stored.value).value
  {
    match stored
    case None => current
    case Some(text) =>
      if text == "" then current
      else decode(text).GetOr(current)
  }

  /** Saving a list and loading it back gives the list again, provided the
      encoder writes a non-empty text that the decoder reads back. */
  lemma RestoreAfterSave(favorites: seq<EventItem>, encode: seq<EventItem> -> string,
                         decode: string -> Option<seq<EventItem>>)
    requires encode(favorites) != ""
    requires decode(encode(favorites)) == Some(favorites)
    ensures RestoredFavorites(Some(encode(favorites)), decode, []) == favorites
  {
  }

  // ---------------------------------------------------------------------------
  // Time

  /** `isPast`: the event started more than the grace period before `now`.
      NaN compares false, so an unparseable date is never past. */
  function IsPast(isoDate: string, now: int, parseDate: string -> Option<int>): (r: bool)
    ensures r <==> parseDate(isoDate).Some? && parseDate(isoDate).value < now - GraceMs
  {
    match parseDate(isoDate)
    case None => false
    case Some(instant) => instant < now - GraceMs
  }

  datatype Status = HappeningNow | ComingSoon | Passed

  /** `getEventStatus`; `None` is the source's `null`. */
  function EventStatus(isoDate: string, now: int, parseDate: string -> Option<int>): (r: Option<Status>)
    ensures r == Some(HappeningNow) <==>
      parseDate(isoDate).Some? && -GraceMs < parseDate(isoDate).value - now < 0
    ensures r == Some(ComingSoon) <==>
      parseDate(isoDate).Some? && 0 < parseDate(isoDate).value - now < SoonMs
    ensures r == Some(Passed) <==>
      parseDate(isoDate).Some? && parseDate(isoDate).value - now <= -GraceMs
    ensures r.None? <==>
      parseDate(isoDate).None? || parseDate(isoDate).value == now ||
      parseDate(isoDate).value - now >= SoonMs
  {
    match parseDate(isoDate)
    case None => None
    case Some(instant) =>
      var diff := instant - now;
      if diff < 0 && diff > -GraceMs then Some(HappeningNow)
      else if diff > 0 && diff < SoonMs then Some(ComingSoon)
      else if diff < 0 then Some(Passed)
      else None
  }

  /** The two classifiers agree except at the grace boundary itself, where an
      event is "Passed" without being past. */
  lemma PastAndStatus(isoDate: string, now: int, parseDate: string -> Option<int>)
    ensures IsPast(isoDate, now, parseDate) ==> EventStatus(isoDate, now, parseDate) == Some(Passed)
    ensures EventStatus(isoDate, now, parseDate) == Some(Passed) && !IsPast(isoDate, now, parseDate) <==>
      parseDate(isoDate) == Some(now - GraceMs)
    ensures EventStatus(isoDate, now, parseDate) != Some(Passed) ==> !IsPast(isoDate, now, parseDate)
  {
  }

  // ---------------------------------------------------------------------------
  // The displayed list

  function Upcoming(now: int, parseDate: string -> Option<int>): EventItem -> bool {
    (e: EventItem) => !IsPast(e.isoDate, now, parseDate)
  }

  /** `baseEvents` then `displayedEvents`. */
  function DisplayedEvents(favorites: seq<EventItem>, events: seq<EventItem>, showFavoritesOnly: bool,
                           hideOutdated: bool, now: int, parseDate: string -> Option<int>): (r: seq<EventItem>)
    ensures IsSubsequence(r, if showFavoritesOnly then favorites else events)
    ensures !hideOutdated ==> r == if showFavoritesOnly then favorites else events
    ensures hideOutdated ==>
      (forall x | x in r :: !IsPast(x.isoDate, now, parseDate)) &&
      (forall x | x in (if showFavoritesOnly then favorites else events) && !IsPast(x.isoDate, now, parseDate) :: x in r) &&
      (forall x | x in (if showFavoritesOnly then favorites else events) ::
        multiset(r)[x] ==
          if IsPast(x.isoDate, now, parseDate) then 0
          else multiset(if showFavoritesOnly then favorites else events)[x])
  {
    var base := if showFavoritesOnly then favorites else events;
    if hideOutdated then
      FilterIsSubsequence(base, Upcoming(now, parseDate));
      FilterCounts(base, Upcoming(now, parseDate));
      Filter(base, Upcoming(now, parseDate))
    else
      SubsequenceOfItself(base);
      base
  }

  /** With past events hidden, the displayed list of a concatenation is the
      concatenation of the displayed lists: order is preserved. */
  lemma DisplayedConcat(a: seq<EventItem>, b: seq<EventItem>, now: int, parseDate: string -> Option<int>)
    ensures DisplayedEvents([], a + b, false, true, now, parseDate) ==
            DisplayedEvents([], a, false, true, now, parseDate) + DisplayedEvents([], b, false, true, now, parseDate)
  {
    FilterConcat(a, b, Upcoming(now, parseDate));
  }

  /** Hiding past events changes nothing exactly when no base event is past. */
  lemma DisplayedUnfiltered(favorites: seq<EventItem>, events: seq<EventItem>, showFavoritesOnly: bool,
                            now: int, parseDate: string -> Option<int>)
    ensures var base := if showFavoritesOnly then favorites else events;
      DisplayedEvents(favorites, events, showFavoritesOnly, true, now, parseDate) == base <==>
      forall i | 0 <= i < |base| :: !IsPast(base[i].isoDate, now, parseDate)
  {
    FilterUnchanged(if showFavoritesOnly then favorites else events, Upcoming(now, parseDate));
  }

  /** A displayed event labelled "Passed" sits exactly at the grace boundary. */
  lemma DisplayedPassedAtBoundary(favorites: seq<EventItem>, events: seq<EventItem>, showFavoritesOnly: bool,
                                  now: int, parseDate: string -> Option<int>, e: EventItem)
    requires e in DisplayedEvents(favorites, events, showFavoritesOnly, true, now, parseDate)
    requires EventStatus(e.isoDate, now, parseDate) == Some(Passed)
    ensures parseDate(e.isoDate) == Some(now - GraceMs)
  {
    PastAndStatus(e.isoDate, now, parseDate);
  }

  // ---------------------------------------------------------------------------
  // Sharing

  const ShareLead: string := "Check out this student event in Paris: "
  const ShareClosing: string := "\n\nJoin via L'Escale Paris!"

  /** The text of the share payload: lead-in, title, date and location, closing line. */
  function ShareText(event: EventItem): (r: string)
    ensures |r| >= |ShareLead| + |event.title| + |ShareClosing|
    ensures r[..|ShareLead|] == ShareLead
    ensures r[|ShareLead|..|ShareLead| + |event.title|] == event.title
    ensures r[|r| - |ShareClosing|..] == ShareClosing
    ensures r[|ShareLead| + |event.title|..|r| - |ShareClosing|] ==
      "\n\U{1F4C5} " + event.date + "\n\U{1F4CD} " + event.location
  {
    ShareLead + event.title + "\n\U{1F4C5} " + event.date + "\n\U{1F4CD} " + event.location + ShareClosing
  }

  /** The clipboard fallback: the share text, a newline, then the page URL. */
  function ClipboardText(event: EventItem, url: string): (r: string)
    ensures |r| == |ShareText(event)| + 1 + |url|
    ensures r[..|ShareText(event)|] == ShareText(event)
    ensures r[|r| - |url|..] == url
    ensures r[|ShareText(event)|] == '\n'
  {
    ShareText(event) + "\n" + url
  }
}
