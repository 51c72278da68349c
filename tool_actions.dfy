/**
 * The asynchronous actions a pending card starts, and what they report. `handleSearchNotes` and
 * `handleYouTubeTranscript` call into the vault or the transcript service, hand what they got to
 * the chat through callbacks, and report exactly one result through `handleAddResult`, tagged
 * with the invocation's `toolCallId`. The chat's side of those callbacks is a `ChatHost` object
 * that records every call in order; the search card's React state is a `SearchHandlerState`.
 * The outcomes of the foreign calls are inputs.
 */
module ToolActions {
  import opened NoteSearch
  import opened ToolDispatch

  /** The payload of a reported result, before `JSON.stringify`: a success value or `{error}`. */
  datatype Payload =
    | SearchMatches(results: seq<SearchResult>)
    | TranscriptFetched(transcript: string, title: string, videoId: string)
    | ActionFailed(error: string)

  /** What `addToolResult` receives. */
  datatype ToolResult = ToolResult(toolCallId: string, result: Payload)

  /** One call from the card into the chat. */
  datatype HostEvent =
    | ResultAdded(report: ToolResult)
    | SearchResultsDelivered(results: seq<SearchResult>)
    | TranscriptDelivered(transcript: string, title: string, videoId: string)

  /** What reading the vault's markdown files gives: the notes in order, or the first error. */
  datatype VaultOutcome = VaultRead(notes: seq<Note>) | VaultFailed(message: string)

  /** What one call to the transcript service gives. */
  datatype FetchOutcome = Fetched(text: string) | FetchFailed(message: string)

  /** The outcomes of every foreign call an action may make. */
  datatype World = World(vault: VaultOutcome, transcript: FetchOutcome, videoTitle: FetchOutcome)

  /** The results reported among `events`, in order. */
  function Reports(events: seq<HostEvent>): (reports: seq<ToolResult>)
    ensures |reports| <= |events|
  {
    if events == [] then []
    else (if events[0].ResultAdded? then [events[0].report] else []) + Reports(events[1..])
  }

  lemma {:induction false} ReportsAppend(a: seq<HostEvent>, b: seq<HostEvent>)
    ensures Reports(a + b) == Reports(a) + Reports(b)
    decreases |a|
  {
    if a != [] {
      assert (a + b)[1..] == a[1..] + b;
      ReportsAppend(a[1..], b);
    } else {
      assert a + b == b;
    }
  }

  // ---------------------------------------------------------------------------------------------
  // The calls each action makes

  /**
   * `handleSearchNotes`: on success the results go to `onSearchResults`, then are reported. The
   * report under the card's id comes last and is the only one; it is an error exactly when the
   * vault could not be read, and the matches are delivered first exactly when it could.
   */
  function SearchEvents(toolCallId: string, query: string, vault: VaultOutcome): (r: seq<HostEvent>)
    ensures r != [] && r[|r| - 1].ResultAdded? && r[|r| - 1].report.toolCallId == toolCallId
    ensures forall k :: 0 <= k < |r| - 1 ==> !r[k].ResultAdded?
    ensures r[|r| - 1].report.result.ActionFailed? <==> vault.VaultFailed?
    ensures vault.VaultRead? ==> |r| == 2 && r[0] == SearchResultsDelivered(SearchNotes(vault.notes, query))
    ensures vault.VaultFailed? ==> |r| == 1
  {
    match vault
    case VaultRead(notes) =>
      var found := SearchNotes(notes, query);
      [SearchResultsDelivered(found), ResultAdded(ToolResult(toolCallId, SearchMatches(found)))]
    case VaultFailed(message) =>
      [ResultAdded(ToolResult(toolCallId, ActionFailed(message)))]
  }

  /**
   * `handleYouTubeTranscript`: the title is fetched only after the transcript; on success both go
   * to `onYoutubeTranscript`, then are reported; the first failure is reported as `{error}`.
   */
  function TranscriptEvents(toolCallId: string, videoId: string, transcript: FetchOutcome, videoTitle: FetchOutcome)
    : (r: seq<HostEvent>)
    ensures r != [] && r[|r| - 1].ResultAdded? && r[|r| - 1].report.toolCallId == toolCallId
    ensures forall k :: 0 <= k < |r| - 1 ==> !r[k].ResultAdded?
    ensures r[|r| - 1].report.result.ActionFailed? <==> transcript.FetchFailed? || videoTitle.FetchFailed?
    ensures |r| == 2 <==> transcript.Fetched? && videoTitle.Fetched?
    ensures |r| == 2 ==> r[0] == TranscriptDelivered(transcript.text, videoTitle.text, videoId)
    ensures |r| <= 2
  {
    match transcript
    case FetchFailed(message) => [ResultAdded(ToolResult(toolCallId, ActionFailed(message)))]
    case Fetched(text) =>
      match videoTitle
      case FetchFailed(message) => [ResultAdded(ToolResult(toolCallId, ActionFailed(message)))]
      case Fetched(title) =>
        [TranscriptDelivered(text, title, videoId), ResultAdded(ToolResult(toolCallId, TranscriptFetched(text, title, videoId)))]
  }

  /**
   * The calls the action started by rendering `inv` makes: some exactly for a pending search or
   * transcript card, ending in the one report under the invocation's id.
   */
  function ActionEvents(inv: ToolInvocation, world: World): (r: seq<HostEvent>)
    ensures r != [] <==> inv.Pending() && (inv.call.GetSearchQuery? || inv.call.GetYoutubeVideoId?)
    ensures r != [] ==> r[|r| - 1].ResultAdded? && r[|r| - 1].report.toolCallId == inv.toolCallId
    ensures forall k :: 0 <= k < |r| - 1 ==> !r[k].ResultAdded?
  {
    if inv.Settled() then []
    else
      match inv.call
      case GetSearchQuery(query) => SearchEvents(inv.toolCallId, query, world.vault)
      case GetYoutubeVideoId(videoId) => TranscriptEvents(inv.toolCallId, videoId, world.transcript, world.videoTitle)
      case _ => []
  }

  /**
   * A search reports exactly one result, tagged with its own call id: the matching notes when the
   * vault could be read, `{error}` with the vault's message otherwise.
   */
  lemma SearchReportsOnce(toolCallId: string, query: string, vault: VaultOutcome)
    ensures Reports(SearchEvents(toolCallId, query, vault)) == [ToolResult(toolCallId,
      match vault
      case VaultRead(notes) => SearchMatches(SearchNotes(notes, query))
      case VaultFailed(message) => ActionFailed(message))]
  {
    var events := SearchEvents(toolCallId, query, vault);
    if |events| == 2 {
      assert events[1..][1..] == [];
    }
  }

  /**
   * A transcript fetch reports exactly one result, tagged with its own call id: the transcript
   * and title when both calls succeed, otherwise `{error}` with the message of the first failure.
   */
  lemma TranscriptReportsOnce(toolCallId: string, videoId: string, transcript: FetchOutcome, videoTitle: FetchOutcome)
    ensures var reports := Reports(TranscriptEvents(toolCallId, videoId, transcript, videoTitle));
      && |reports| == 1 && reports[0].toolCallId == toolCallId
      && (reports[0].result.ActionFailed? <==> transcript.FetchFailed? || videoTitle.FetchFailed?)
      && (transcript.FetchFailed? ==> reports[0].result == ActionFailed(transcript.message))
      && (transcript.Fetched? && videoTitle.FetchFailed? ==> reports[0].result == ActionFailed(videoTitle.message))
      && (transcript.Fetched? && videoTitle.Fetched? ==>
            reports[0].result == TranscriptFetched(transcript.text, videoTitle.text, videoId))
  {
    var events := TranscriptEvents(toolCallId, videoId, transcript, videoTitle);
    if |events| == 2 {
      assert events[1..][1..] == [];
    }
  }

  /**
   * Rendering reports at most once: exactly one result, tagged with the invocation's own id, when
   * the render started an action, and nothing otherwise (in particular for every settled card).
   */
  lemma RenderReportsOnceIfStarted(inv: ToolInvocation, held: seq<SearchResult>, world: World)
    ensures var reports := Reports(ActionEvents(inv, world));
      && |reports| == (if StartsAction(RenderContent(inv, held)) then 1 else 0)
      && (forall r :: r in reports ==> r.toolCallId == inv.toolCallId)
  {
    ActionStartsOnlyWhenPending(inv, held);
    if inv.Pending() {
      match inv.call
      case GetSearchQuery(query) => SearchReportsOnce(inv.toolCallId, query, world.vault);
      case GetYoutubeVideoId(videoId) =>
        TranscriptReportsOnce(inv.toolCallId, videoId, world.transcript, world.videoTitle);
      case _ =>
    }
  }

  // ---------------------------------------------------------------------------------------------
  // The objects the actions update

  /** The chat's side of the card's callbacks: every call, in the order it was made. */
  class ChatHost {
    var events: seq<HostEvent>

    constructor ()
      ensures events == []
    {
      events := [];
    }

    /** `addToolResult` */
    method AddToolResult(report: ToolResult)
      modifies this
      ensures events == old(events) + [ResultAdded(report)]
    {
      events := events + [ResultAdded(report)];
    }

    /** `onSearchResults` */
    method OnSearchResults(results: seq<SearchResult>)
      modifies this
      ensures events == old(events) + [SearchResultsDelivered(results)]
    {
      events := events + [SearchResultsDelivered(results)];
    }

    /** `onYoutubeTranscript` */
    method OnYoutubeTranscript(transcript: string, title: string, videoId: string)
      modifies this
      ensures events == old(events) + [TranscriptDelivered(transcript, title, videoId)]
    {
      events := events + [TranscriptDelivered(transcript, title, videoId)];
    }
  }

  /** The `results` state of a `SearchHandler` card, which starts out empty. */
  class SearchHandlerState {
    var results: seq<SearchResult>

    constructor ()
      ensures results == []
    {
      results := [];
    }

    /** `setResults` */
    method SetResults(found: seq<SearchResult>)
      modifies this
      ensures results == found
    {
      results := found;
    }
  }

  /** `handleAddResult`: report `result` under the card's own call id. */
  method HandleAddResult(host: ChatHost, toolCallId: string, result: Payload)
    modifies host
    ensures host.events == old(host.events) + [ResultAdded(ToolResult(toolCallId, result))]
  {
    host.AddToolResult(ToolResult(toolCallId, result));
  }

  /**
   * `handleSearchNotes`: search the vault, keep the matches in the card's state, hand them to
   * the chat and report them; a failure is reported as `{error}` and leaves the state alone. The
   * value returned is the one reported.
   */
  method HandleSearchNotes(host: ChatHost, state: SearchHandlerState, toolCallId: string, query: string, vault: VaultOutcome)
    returns (outcome: Payload)
    modifies host, state
    ensures host.events == old(host.events) + SearchEvents(toolCallId, query, vault)
    ensures Reports(host.events) == Reports(old(host.events)) + [ToolResult(toolCallId, outcome)]
    ensures outcome.ActionFailed? <==> vault.VaultFailed?
    ensures vault.VaultRead? ==> outcome == SearchMatches(SearchNotes(vault.notes, query)) && state.results == outcome.results
    ensures vault.VaultFailed? ==> outcome == ActionFailed(vault.message) && state.results == old(state.results)
  {
    match vault {
      case VaultRead(notes) =>
        var found := SearchNotes(notes, query);
        state.SetResults(found);
        host.OnSearchResults(found);
        HandleAddResult(host, toolCallId, SearchMatches(found));
        outcome := SearchMatches(found);
      case VaultFailed(message) =>
        HandleAddResult(host, toolCallId, ActionFailed(message));
        outcome := ActionFailed(message);
    }
    ReportsAppend(old(host.events), SearchEvents(toolCallId, query, vault));
    SearchReportsOnce(toolCallId, query, vault);
  }

  /**
   * `handleYouTubeTranscript`: fetch the transcript, then the title, hand both to the chat and
   * report them; the first failure is reported as `{error}`. The value returned is the one
   * reported.
   */
  method HandleYouTubeTranscript(host: ChatHost, toolCallId: string, videoId: string, transcript: FetchOutcome, videoTitle: FetchOutcome)
    returns (outcome: Payload)
    modifies host
    ensures host.events == old(host.events) + TranscriptEvents(toolCallId, videoId, transcript, videoTitle)
    ensures Reports(host.events) == Reports(old(host.events)) + [ToolResult(toolCallId, outcome)]
  {
    match transcript {
      case FetchFailed(message) =>
        HandleAddResult(host, toolCallId, ActionFailed(message));
        outcome := ActionFailed(message);
      case Fetched(text) =>
        match videoTitle {
          case FetchFailed(message) =>
            HandleAddResult(host, toolCallId, ActionFailed(message));
            outcome := ActionFailed(message);
          case Fetched(title) =>
            host.OnYoutubeTranscript(text, title, videoId);
            HandleAddResult(host, toolCallId, TranscriptFetched(text, title, videoId));
            outcome := TranscriptFetched(text, title, videoId);
        }
    }
    ReportsAppend(old(host.events), TranscriptEvents(toolCallId, videoId, transcript, videoTitle));
    TranscriptReportsOnce(toolCallId, videoId, transcript, videoTitle);
  }

  /**
   * One render of the `ToolInvocationHandler` card: the card is computed from the invocation and
   * the search state as it stands, and a pending search or transcript card then runs its action.
   * A settled card, and every other tool, calls nothing and changes nothing.
   */
  method RenderToolInvocation(host: ChatHost, state: SearchHandlerState, inv: ToolInvocation, world: World)
    returns (card: Card)
    modifies host, state
    ensures card == Render(inv, old(state.results))
    ensures host.events == old(host.events) + ActionEvents(inv, world)
    ensures |Reports(host.events)| == |Reports(old(host.events))| + (if StartsAction(card.body) then 1 else 0)
    ensures inv.Settled() ==> host.events == old(host.events) && state.results == old(state.results)
    ensures inv.Pending() && inv.call.GetSearchQuery? && world.vault.VaultRead? ==>
      state.results == SearchNotes(world.vault.notes, inv.call.query)
    ensures !(inv.Pending() && inv.call.GetSearchQuery? && world.vault.VaultRead?) ==>
      state.results == old(state.results)
  {
    card := Render(inv, state.results);
    ActionStartsOnlyWhenPending(inv, state.results);
    RenderReportsOnceIfStarted(inv, state.results, world);
    if inv.Pending() {
      match inv.call {
        case GetSearchQuery(query) =>
          var _ := HandleSearchNotes(host, state, inv.toolCallId, query, world.vault);
        case GetYoutubeVideoId(videoId) =>
          var _ := HandleYouTubeTranscript(host, inv.toolCallId, videoId, world.transcript, world.videoTitle);
        case _ =>
      }
    }
    ReportsAppend(old(host.events), ActionEvents(inv, world));
  }
}
