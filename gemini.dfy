/** Post-processing of the AI backend's replies (services/gemini.ts): the date
    anchor and prompt of a discovery request, decoding of the reply with its
    fallbacks, and the mapping of grounding chunks to citations. The network
    call itself is a parameter `backend`, whose `None` is a rejected promise. */
module Gemini {
  import opened Wrappers
  import opened Types
  import opened Lists

  /** The `web` or `maps` entry of a grounding chunk; either field may be missing. */
  datatype GroundingRef = GroundingRef(title: Option<string>, uri: Option<string>)
  datatype GroundingChunk = GroundingChunk(web: Option<GroundingRef>, maps: Option<GroundingRef>)
  datatype GroundingMetadata = GroundingMetadata(groundingChunks: Option<seq<GroundingChunk>>)
  datatype Candidate = Candidate(groundingMetadata: Option<GroundingMetadata>)

  /** What `generateContent` resolves to: the answer text and the candidates. */
  datatype Response = Response(text: Option<string>, candidates: Option<seq<Candidate>>)

  /** What `JSON.parse` yields for a discovery reply: `null`, or a value whose
      `events` property is either missing (or falsy) or a list of events. */
  datatype ReplyJson = JsonNull | JsonValue(events: Option<seq<EventItem>>)

  /** The result of `discoverEvents`. */
  datatype Discovery = Discovery(events: seq<EventItem>, sources: seq<GroundingSource>)

  /** The result of `explorePlaces`. */
  datatype Places = Places(text: string, sources: seq<GroundingSource>)

  /** Which kind of grounding chunk a feature cites. */
  datatype ChunkKind = Web | Maps

  /** The text decoded when the reply has no text. */
  const EmptyEventsReply: string := "{\"events\": []}"
  const DefaultUri: string := "#"

  const DiscoveryLead: string := "Today is "
  const DiscoveryMiddle: string :=
    ". Find real-time upcoming events, parties, or gatherings in Paris for international students matching: "
  const DiscoveryTail: string :=
    ". \n    Crucially, verify if they are still upcoming or if they have already passed. Return a list of specific events with details."

  const ExploreLead: string := "Recommend the best student-friendly places in Paris for: "
  const ExploreTail: string := ". Include bars, cafes, or study spots."

  function DefaultTitle(kind: ChunkKind): string {
    match kind
    case Web => "View Source"
    case Maps => "View on Maps"
  }

  // ---------------------------------------------------------------------------
  // The date anchor: `isoString.split('T')[0]`

  /** The part of `iso` before its first `T` (all of `iso` when it has none). */
  function DateAnchor(iso: string): (r: string)
    ensures r <= iso
    ensures 'T' !in r
    ensures |r| < |iso| ==> iso[|r|] == 'T'
  {
    if iso == [] || iso[0] == 'T' then []
    else [iso[0]] + DateAnchor(iso[1..])
  }

  /** The anchor of `d + "T" + rest` is `d` whenever `d` holds no `T`. */
  lemma {:induction false} DateAnchorOfTimestamp(d: string, rest: string)
    requires 'T' !in d
    ensures DateAnchor(d + "T" + rest) == d
  {
    if d != [] {
      assert (d + "T" + rest)[1..] == d[1..] + "T" + rest;
      DateAnchorOfTimestamp(d[1..], rest);
    }
  }

  predicate IsDigit(c: char) { '0' <= c <= '9' }

  /** A `full-date` of section 5.6 of RFC 3339: `YYYY-MM-DD`. */
  predicate IsFullDate(d: string) {
    && |d| == 10
    && IsDigit(d[0]) && IsDigit(d[1]) && IsDigit(d[2]) && IsDigit(d[3])
    && d[4] == '-' && IsDigit(d[5]) && IsDigit(d[6])
    && d[7] == '-' && IsDigit(d[8]) && IsDigit(d[9])
  }

  /** For a timestamp as `toISOString` writes it (a full-date, then `T`), the
      anchor is exactly that full-date. */
  lemma FullDateAnchor(iso: string)
    requires |iso| > 10 && IsFullDate(iso[..10]) && iso[10] == 'T'
    ensures DateAnchor(iso) == iso[..10]
    ensures IsFullDate(DateAnchor(iso))
  {
    assert iso == iso[..10] + "T" + iso[11..];
    DateAnchorOfTimestamp(iso[..10], iso[11..]);
  }

  // ---------------------------------------------------------------------------
  // Prompts

  /** The discovery prompt; the anchor and the query can be read back from it. */
  function DiscoveryPrompt(today: string, query: string): (r: string)
    ensures |r| == |DiscoveryLead| + |today| + |DiscoveryMiddle| + |query| + |DiscoveryTail|
    ensures r[..|DiscoveryLead|] == DiscoveryLead
    ensures r[|DiscoveryLead|..|DiscoveryLead| + |today|] == today
    ensures r[|DiscoveryLead| + |today| + |DiscoveryMiddle|..|r| - |DiscoveryTail|] == query
    ensures r[|r| - |DiscoveryTail|..] == DiscoveryTail
  {
    DiscoveryLead + today + DiscoveryMiddle + query + DiscoveryTail
  }

  /** Two discovery requests on the same day differ exactly when their queries do. */
  lemma DiscoveryPromptInjective(today: string, q1: string, q2: string)
    ensures DiscoveryPrompt(today, q1) == DiscoveryPrompt(today, q2) <==> q1 == q2
  {
    if DiscoveryPrompt(today, q1) == DiscoveryPrompt(today, q2) {
      var p := DiscoveryPrompt(today, q1);
      assert |q1| == |q2|;
      assert q1 == p[|DiscoveryLead| + |today| + |DiscoveryMiddle|..|p| - |DiscoveryTail|] == q2;
    }
  }

  /** The places prompt; the query can be read back from it. */
  function ExplorePrompt(query: string): (r: string)
    ensures |r| == |ExploreLead| + |query| + |ExploreTail|
    ensures r[..|ExploreLead|] == ExploreLead
    ensures r[|ExploreLead|..|r| - |ExploreTail|] == query
  {
    ExploreLead + query + ExploreTail
  }

  // ---------------------------------------------------------------------------
  // Grounding sources

  /** `response.candidates?.[0]?.groundingMetadata?.groundingChunks` */
  function Chunks(resp: Response): (r: Option<seq<GroundingChunk>>)
    ensures resp.candidates.None? ==> r.None?
    ensures resp.candidates == Some([]) ==> r.None?
    ensures (resp.candidates.Some? && resp.candidates.value != [] &&
             resp.candidates.value[0].groundingMetadata.None?) ==> r.None?
    ensures (resp.candidates.Some? && resp.candidates.value != [] &&
             resp.candidates.value[0].groundingMetadata.Some?) ==>
      r == resp.candidates.value[0].groundingMetadata.value.groundingChunks
  {
    match resp.candidates
    case None => None
    case Some(cs) =>
      if cs == [] then None
      else match cs[0].groundingMetadata
        case None => None
        case Some(md) => md.groundingChunks
  }

  function RefOf(chunk: GroundingChunk, kind: ChunkKind): Option<GroundingRef> {
    match kind
    case Web => chunk.web
    case Maps => chunk.maps
  }

  function HasRef(kind: ChunkKind): GroundingChunk -> bool {
    chunk => RefOf(chunk, kind).Some?
  }

  /** One citation: `title || default`, `uri || "#"`. */
  function ToSource(ref: GroundingRef, kind: ChunkKind): (r: GroundingSource)
    ensures ref.title.Some? && ref.title.value != "" ==> r.title == ref.title.value
    ensures ref.title.None? || ref.title.value == "" ==> r.title == DefaultTitle(kind)
    ensures ref.uri.Some? && ref.uri.value != "" ==> r.uri == ref.uri.value
    ensures ref.uri.None? || ref.uri.value == "" ==> r.uri == DefaultUri
    ensures r.title != "" && r.uri != ""
  {
    GroundingSource(
      if ref.title.Some? && ref.title.value != "" then ref.title.value else DefaultTitle(kind),
      if ref.uri.Some? && ref.uri.value != "" then ref.uri.value else DefaultUri)
  }

  /** `chunks.filter(c => c.kind).map(c => ToSource(c.kind))`. */
  function SourcesOf(chunks: seq<GroundingChunk>, kind: ChunkKind): (r: seq<GroundingSource>)
    ensures |r| == |Filter(chunks, HasRef(kind))| <= |chunks|
    ensures forall i | 0 <= i < |r| ::
      var ref := RefOf(Filter(chunks, HasRef(kind))[i], kind);
      ref.Some? && r[i] == ToSource(ref.value, kind)
    ensures forall s | s in r :: s.title != "" && s.uri != ""
  {
    var kept := Filter(chunks, HasRef(kind));
    seq(|kept|, i requires 0 <= i < |kept| => ToSource(RefOf(kept[i], kind).value, kind))
  }

  /** Citations keep the order of their chunks. */
  lemma SourcesOfConcat(a: seq<GroundingChunk>, b: seq<GroundingChunk>, kind: ChunkKind)
    ensures SourcesOf(a + b, kind) == SourcesOf(a, kind) + SourcesOf(b, kind)
  {
    FilterConcat(a, b, HasRef(kind));
  }

  /** A single chunk yields one citation when it has an entry of the kind, none otherwise. */
  lemma SourcesOfSingle(c: GroundingChunk, kind: ChunkKind)
    ensures SourcesOf([c], kind) ==
      if RefOf(c, kind).Some? then [ToSource(RefOf(c, kind).value, kind)] else []
  {
    assert Filter([c], HasRef(kind)) == if HasRef(kind)(c) then [c] else [];
  }

  /** When every chunk has an entry of the kind, there is one citation per chunk. */
  lemma SourcesOfAllKept(chunks: seq<GroundingChunk>, kind: ChunkKind)
    requires forall i | 0 <= i < |chunks| :: RefOf(chunks[i], kind).Some?
    ensures |SourcesOf(chunks, kind)| == |chunks|
  {
    FilterUnchanged(chunks, HasRef(kind));
  }

  /** The citations of a response; a missing link of the optional chain gives none. */
  function SourcesFromResponse(resp: Response, kind: ChunkKind): (r: seq<GroundingSource>)
    ensures Chunks(resp).None? ==> r == []
    ensures Chunks(resp).Some? ==> r == SourcesOf(Chunks(resp).value, kind)
  {
    match Chunks(resp)
    case None => []
    case Some(chunks) => SourcesOf(chunks, kind)
  }

  // ---------------------------------------------------------------------------
  // Discovery

  /** `response.text || '{"events": []}'` */
  function ReplyText(resp: Response): (r: string)
    ensures resp.text.None? || resp.text == Some("") ==> r == EmptyEventsReply
    ensures resp.text.Some? && resp.text.value != "" ==> r == resp.text.value
  {
    if resp.text.Some? && resp.text.value != "" then resp.text.value else EmptyEventsReply
  }

  /** The body of the `try` block of `discoverEvents`: decode the reply, default
      `events`, cite the web chunks; any failure gives the empty result. */
  function ProcessDiscoveryReply(resp: Response, decode: string -> Option<ReplyJson>): (r: Discovery)
    ensures decode(ReplyText(resp)).None? ==> r == Discovery([], [])
    ensures decode(ReplyText(resp)) == Some(JsonNull) ==> r == Discovery([], [])
    ensures decode(ReplyText(resp)).Some? && decode(ReplyText(resp)).value.JsonValue? ==>
      r.events == decode(ReplyText(resp)).value.events.GetOr([]) && r.sources == SourcesFromResponse(resp, Web)
    ensures forall s | s in r.sources :: s.title != "" && s.uri != ""
  {
    match decode(ReplyText(resp))
    case None => Discovery([], [])            // JSON.parse threw
    case Some(JsonNull) => Discovery([], [])  // `data.events` on null threw
    case Some(JsonValue(events)) => Discovery(events.GetOr([]), SourcesFromResponse(resp, Web))
  }

  /** The decoder reads the fallback text as an object with an empty `events` list. */
  predicate DecodesFallback(decode: string -> Option<ReplyJson>) {
    decode(EmptyEventsReply) == Some(JsonValue(Some([])))
  }

  /** A reply without text yields no events (its citations are still kept). */
  lemma MissingTextGivesNoEvents(resp: Response, decode: string -> Option<ReplyJson>)
    requires DecodesFallback(decode)
    requires resp.text.None? || resp.text == Some("")
    ensures ProcessDiscoveryReply(resp, decode).events == []
    ensures ProcessDiscoveryReply(resp, decode).sources == SourcesFromResponse(resp, Web)
  {
  }

  /** `discoverEvents(query)` as seen by its caller: `None` when the backend call
      rejects (it sits outside the `try`), otherwise the processed reply. */
  function DiscoverEvents(nowIso: string, query: string, backend: string -> Option<Response>,
                          decode: string -> Option<ReplyJson>): (r: Option<Discovery>)
    ensures backend(DiscoveryPrompt(DateAnchor(nowIso), query)).None? ==> r.None?
    ensures backend(DiscoveryPrompt(DateAnchor(nowIso), query)).Some? ==>
      r == Some(ProcessDiscoveryReply(backend(DiscoveryPrompt(DateAnchor(nowIso), query)).value, decode))
  {
    match backend(DiscoveryPrompt(DateAnchor(nowIso), query))
    case None => None
    case Some(resp) => Some(ProcessDiscoveryReply(resp, decode))
  }

  // ---------------------------------------------------------------------------
  // Places

  /** The post-processing of `explorePlaces`: `text || ""` and the maps citations. */
  function ProcessPlacesReply(resp: Response): (r: Places)
    ensures resp.text.None? ==> r.text == ""
    ensures resp.text.Some? ==> r.text == resp.text.value
    ensures r.sources == SourcesFromResponse(resp, Maps)
  {
    Places(resp.text.GetOr(""), SourcesFromResponse(resp, Maps))
  }

  /** `explorePlaces(query)`: `None` when the backend call rejects (there is no `try`). */
  function ExplorePlaces(query: string, backend: string -> Option<Response>): (r: Option<Places>)
    ensures backend(ExplorePrompt(query)).None? <==> r.None?
    ensures r.Some? ==> r.value == ProcessPlacesReply(backend(ExplorePrompt(query)).value)
  {
    match backend(ExplorePrompt(query))
    case None => None
    case Some(resp) => Some(ProcessPlacesReply(resp))
  }
}
