# Event discovery core of a Paris student-life app, in Dafny

This project models the small event-list core of a student-life app for Paris.
The rest of the app is user interface. The core has two parts:

- **The event screen** (`components/Events.tsx`). It holds the discovered
  events and their citations. It keeps favourites in browser storage. It runs
  searches against the discovery service, and it derives the list it shows
  from three things: the favourites-only mode, the "upcoming only" switch and
  the current time.
- **The discovery service** (`services/gemini.ts`). It builds the prompt for a
  generative-AI backend, with today's date as an anchor. It decodes the
  backend's reply, using defaults and an empty result on failure. It maps
  grounding chunks to citations (`GroundingSource`).

Modules:

- `Wrappers`: `Option`. `None` stands for JavaScript's `undefined`/`null`.
- `Types`: `EventItem` and `GroundingSource` (types.ts:2-16).
- `Lists`: the JavaScript array operations the code relies on.
  - `Filter` is `filter` and `Any` is `some`.
  - `IsSubsequence` is the sublist relation, with its lemmas.
- `Gemini`: the pure post-processing in `services/gemini.ts`.
- `EventsLogic`: the pure helpers of the screen.
  - Favourites membership and toggling, and restoring favourites from storage.
  - `isPast` and `getEventStatus`, and the displayed list.
  - The share text.
- `EventsComponent`: class `Events`. Its fields are the component's `useState`
  cells. It also has `stored`, the storage value under `escale_favorites`.
  - Its methods are the component's state changes. Each is specified by the
    functions of `EventsLogic` and `Gemini`.
  - The invariant `Valid()` says that storage holds the encoded favourites, so
    the save effect has caught up.

Collaborators the code calls but does not define are parameters:

- Date parsing: `parseDate: string -> Option<int>`, in milliseconds. `None` is
  NaN, and every comparison with it is false.
- The current time: `now` in milliseconds, and `nowIso` as `toISOString` writes it.
- `JSON.parse`: a decoder that returns `Option`. `None` means it threw.
- `JSON.stringify`: an encoder.
- The network call: `backend: string -> Option<Response>`. `None` means the
  promise was rejected.

The constants are the source's own:

- The grace window is 6 h = 21,600,000 ms.
- The "soon" window is 24 h = 86,400,000 ms.
- The default queries, prompt texts, placeholder titles and the `#` uri are
  copied exactly.

## Behaviour to note

- The reply is decoded once, strictly. Nothing recovers JSON from surrounding
  prose, so a reply that fails to decode gives the empty result.
- The backend call in `discoverEvents` sits outside its `try`, so a backend
  failure rejects the promise instead of giving an empty result. `handleSearch`
  then keeps the previous events and sources (`DiscoverEvents`,
  `CompleteDiscovery`).
- Nothing guards against stale responses. If two searches overlap, the reply
  that arrives last is kept. The first reply to arrive already turns loading
  off (`OverlappingSearches`).
- The displayed list is filtered only by the favourites-only mode and the
  "upcoming only" switch. It is not sorted.
- A citation is kept for every chunk that has a `web` (or `maps`) entry, even
  one without a uri. A missing uri becomes `#`.
- Favourites are a list. Ids are unique after toggling only if they were unique
  before (`ToggleKeepsIdsUnique`). Nothing checks the list loaded from storage,
  so it may hold repeated records. Every filter keeps each copy of a record it
  keeps.

## Model

| member | source | states |
|---|---|---|
| Gemini.DateAnchor | services/gemini.ts:27 | the anchor is a prefix of the timestamp, contains no `T`, and is followed by a `T` unless it is the whole string |
| Gemini.DateAnchorOfTimestamp | services/gemini.ts:27 | for `d + "T" + rest` where `d` has no `T`, the anchor is exactly `d` |
| Gemini.FullDateAnchor | services/gemini.ts:27 | for a timestamp made of an RFC 3339 full-date (section 5.6), then `T`, the anchor is that full-date |
| Gemini.DiscoveryPrompt | services/gemini.ts:31-32 | the prompt is the fixed lead, the anchor, the fixed middle, the query and the fixed tail; the anchor and the query can be read back at fixed positions |
| Gemini.DiscoveryPromptInjective | services/gemini.ts:31-32 | on the same day, two prompts are equal exactly when their queries are equal |
| Gemini.ExplorePrompt | services/gemini.ts:81 | the places prompt embeds the query between its fixed lead and tail |
| Gemini.ToSource | services/gemini.ts:65-67 | the title is the chunk's title unless it is absent or empty, in which case it is the kind's placeholder; the uri is the chunk's uri unless it is absent or empty, in which case it is `#`; neither is ever empty |
| Gemini.SourcesOf | services/gemini.ts:63-68 | there is one citation per chunk that has an entry of the kind, in chunk order, so never more citations than chunks; each citation is that entry mapped by `ToSource` |
| Gemini.SourcesOfConcat | services/gemini.ts:64-65 | citations of concatenated chunk lists are the concatenated citations, so order is preserved |
| Gemini.SourcesOfSingle | services/gemini.ts:64-67 | one chunk yields one citation if it has an entry of the kind, and none otherwise |
| Gemini.SourcesOfAllKept | services/gemini.ts:64-68 | when every chunk has an entry of the kind, there are exactly as many citations as chunks |
| Gemini.Chunks | services/gemini.ts:63 | no chunks when there is no candidate list, when the list is empty, or when the first candidate has no metadata; otherwise the first candidate's chunk list |
| Gemini.SourcesFromResponse | services/gemini.ts:63-68 | a missing candidate list, first candidate, metadata or chunk list gives no citations; otherwise the citations are those of the chunks |
| Gemini.ReplyText | services/gemini.ts:62 | absent or empty reply text is replaced by `{"events": []}`; any other text is decoded as is |
| Gemini.ProcessDiscoveryReply | services/gemini.ts:61-74 | if decoding fails, or decodes to null, the result is exactly no events and no citations; otherwise the events are the decoded `events`, or none if absent, and the citations are the web citations; every citation has a non-empty title and uri |
| Gemini.MissingTextGivesNoEvents | services/gemini.ts:62 | if the decoder reads the fallback text correctly, a reply with absent or empty text yields no events and keeps its web citations |
| Gemini.DiscoverEvents | services/gemini.ts:25-75 | a rejected backend call propagates as `None`, because it is outside the `try`; otherwise the result is the processed reply to the prompt built from the date anchor and the query |
| Gemini.ProcessPlacesReply | services/gemini.ts:92-100 | the text is the reply text, or `""` if absent; the citations are the maps citations |
| Gemini.ExplorePlaces | services/gemini.ts:77-101 | `None` exactly when the backend call rejects; otherwise the processed places reply to the places prompt |
| EventsLogic.IsFavorited | components/Events.tsx:82 | true exactly when some favourite has the id |
| EventsLogic.WithoutId | components/Events.tsx:87 | the result keeps exactly the favourites whose id differs, every copy of each, as a sublist in original order, and no entry with the id remains |
| Lists.FilterCounts | components/Events.tsx:87 | `filter` keeps every copy of each element it keeps and no copy of an element it drops |
| EventsLogic.Toggled | components/Events.tsx:84-91 | if the id is favourited, the result is the sublist without that id and keeps every copy of every other entry; otherwise the event is appended at the end and earlier entries are unchanged; in both cases membership of the id flips |
| EventsLogic.SubsequenceKeepsUniqueIds | components/Events.tsx:87 | a sublist of a list with unique ids has unique ids |
| EventsLogic.ToggleKeepsIdsUnique | components/Events.tsx:84-91 | toggling preserves the invariant that no two favourites share an id |
| EventsLogic.ToggleTwiceRestores | components/Events.tsx:84-91 | toggling an unfavourited event twice gives back the original list exactly |
| EventsLogic.RestoredFavorites | components/Events.tsx:33-43 | an absent or empty stored value, or one that fails to decode, leaves the favourites as they were; otherwise they become the decoded list |
| EventsLogic.RestoreAfterSave | components/Events.tsx:33-48 | if the encoder writes non-empty text that the decoder reads back, loading what was saved restores the favourites exactly |
| EventsLogic.IsPast | components/Events.tsx:120-125 | past exactly when the date parses and is strictly earlier than now minus 6 h; an unparseable date is never past |
| EventsLogic.EventStatus | components/Events.tsx:127-136 | "Happening Now" exactly when -6h < diff < 0; "Coming Soon" exactly when 0 < diff < 24h; "Passed" exactly when diff <= -6h; null exactly when the date does not parse, diff = 0 or diff >= 24h |
| EventsLogic.PastAndStatus | components/Events.tsx:120-136 | every past event is "Passed"; the two classifiers disagree only when the event is exactly 6 h old, which is "Passed" but not past |
| EventsLogic.DisplayedEvents | components/Events.tsx:138-141 | the result is always a sublist of the base list, which is favourites in favourites-only mode and events otherwise; without the filter it is the base list; with it, it holds exactly the base entries that are not past, each as many times as in the base list |
| EventsLogic.DisplayedConcat | components/Events.tsx:139-141 | with past events hidden, the display of a concatenation is the concatenation of the displays, so order is preserved |
| EventsLogic.DisplayedUnfiltered | components/Events.tsx:139-141 | hiding past events leaves the base list unchanged exactly when none of its entries is past |
| EventsLogic.DisplayedPassedAtBoundary | components/Events.tsx:127-141 | a shown event labelled "Passed", with past events hidden, is exactly 6 h old |
| EventsLogic.ShareText | components/Events.tsx:95-99 | the share text is the fixed lead-in, the title, a calendar line with the date, a pin line with the location, and the fixed closing line, each read back at its position |
| EventsLogic.ClipboardText | components/Events.tsx:107-109 | the clipboard text is the share text, a newline, then the url |
| EventsComponent.Events.constructor | components/Events.tsx:22-48 | the initial state is empty, with the "upcoming only" switch on; favourites are restored from storage; storage then holds the encoded favourites |
| EventsComponent.Events.Displayed | components/Events.tsx:138-141 | the rendered list is a sublist of the base list the mode selects; with the switch off it is that list; with it on it keeps exactly the entries that are not past, every copy of each |
| EventsComponent.Events.ToggleFavorite | components/Events.tsx:84-91 | favourites become `Toggled(old favourites, event)` and storage is rewritten; ids stay unique if they were; nothing else changes |
| EventsComponent.Events.SetQuery | components/Events.tsx:182 | the query becomes the typed text |
| EventsComponent.Events.ToggleShowFavoritesOnly | components/Events.tsx:152 | flips favourites-only mode |
| EventsComponent.Events.ShowAllEvents | components/Events.tsx:270 | leaves favourites-only mode |
| EventsComponent.Events.ToggleHideOutdated | components/Events.tsx:164 | flips the "upcoming only" switch |
| EventsComponent.Events.BeginSearch | components/Events.tsx:50-55 | favourites-only mode turns off and loading turns on; the query sent is the typed query, or the fixed default when it is empty |
| EventsComponent.Events.BeginFetchInitial | components/Events.tsx:65-68 | loading turns on; the fixed initial query is sent |
| EventsComponent.Events.CompleteDiscovery | components/Events.tsx:56-62 | on success, events and citations are replaced wholesale; on failure both are kept; loading ends either way |
| EventsComponent.Events.HandleSearch | components/Events.tsx:50-63 | favourites-only mode ends off and loading ends off; the default query replaces an empty one; events and citations follow the discovery outcome; favourites, storage, query and the filter switch are unchanged |
| EventsComponent.Events.FetchInitial | components/Events.tsx:65-76 | the fixed initial query is sent; events and citations follow the discovery outcome; loading ends off; the rest of the state is unchanged |
| EventsComponent.OverlappingSearches | components/Events.tsx:50-63 | when two searches overlap and their replies arrive in the opposite order, the earlier search's reply is kept, because it arrives last; loading is already off while that reply is still pending |

## Left out

- Rendering: all JSX, styling, icons, the detail modal and `selectedEvent`.
  They are presentation.
- Sharing: the `navigator.share` and clipboard calls, `copiedId` and its
  2-second `setTimeout` reset. These are calls to the operating system and to
  a timer. Only the text of the payload is modelled (`ShareText`,
  `ClipboardText`).
- JSON encoding and decoding and browser storage are parameters, so no JSON
  round trip is proved.
  - `RestoreAfterSave` assumes such a round trip.
  - A stored value that decodes to something other than a list of events
    (for example `null`) is not modelled. The component would store it as is,
    and rendering would then fail.
- The save effect also runs once on mount with the empty initial list, before
  the restored list is rendered. The model keeps only its final write, of the
  restored favourites.
- Date parsing (`new Date(isoDate)`) and the clock (`new Date()`) are
  parameters. In the source, `isPast` and `getEventStatus` each read the
  clock, so each call sees a slightly different now. The model uses one `now`
  per render.
- Instants are unbounded integers. JavaScript uses doubles, which are exact
  for every valid date (at most 8.64e15 ms from the epoch), so nothing is lost.
- The network client, the API key, the model names, the response schema, the
  search tools and `getGeminiChatResponse` are opaque network I/O. The
  `location` argument of `explorePlaces` goes only to the backend, so the
  model leaves it out.
- Async interleaving is modelled only through the split between
  `BeginSearch`/`BeginFetchInitial` and `CompleteDiscovery`. The mount-time
  ordering of `fetchInitial` and the effects is not modelled.
- A decoded reply whose `events` value is present but is not a list of
  complete events (an object, a string, or items without `isoDate`) is not
  modelled: `ReplyJson` holds either no `events` or a list of `EventItem`s.
  `discoverEvents` would pass such a value on unchanged, and the screen's
  filter would then fail or compare NaN dates. The response schema the
  request sends (services/gemini.ts:35-57) asks the backend for exactly this
  list shape.
- The rendering limit of three citations (`sources.slice(0, 3)`) is
  presentation.
- `components/Home.tsx` and `components/Layout.tsx` are not part of this
  model. They hold static markup and navigation only.
