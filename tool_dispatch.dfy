/**
 * The tool-invocation card of the AI chat: a tool call requested by the model is shown with a
 * title (`getToolTitle`) and a body (`renderContent`) chosen by the tool's name. An invocation
 * without a result is pending, one with a result is settled. The body is described here as a view
 * descriptor: the text blocks it shows, whether it shows the Confirm/Cancel buttons, and whether
 * rendering it starts the tool's asynchronous action (the note search and the transcript fetch).
 */
module ToolDispatch {
  import opened Wrappers
  import opened JsValue
  import opened NoteSearch

  /** A tool call, one variant per known tool name with the arguments that tool's card reads. */
  datatype ToolCall =
    | GetNotesForDateRange
    | GetSearchQuery(query: string)
    | AskForConfirmation(message: string)
    | GetYoutubeVideoId(videoId: string)
    | ModifyCurrentNote
    | GetLastModifiedFiles
    | QueryScreenpipe
    | AnalyzeProductivity(days: int)
    | SummarizeMeeting
    | TrackProjectTime(projectKeyword: string, days: int)
    | OtherTool(toolName: string)

  /** The invocation record; `result` is None while the invocation is pending. */
  datatype ToolInvocation = ToolInvocation(toolCallId: string, call: ToolCall, result: Option<Value>)
  {
    predicate Pending() { result.None? }
    predicate Settled() { result.Some? }
  }

  /** What a card body shows. `RenderFailure` stands for an exception thrown while rendering. */
  datatype View =
    | NoContent
    | Content(blocks: seq<string>, confirmButtons: bool, actionStarted: bool)
    | RenderFailure

  /** The whole card: the title heading and the body. */
  datatype Card = Card(title: string, body: View)

  const KnownToolNames: seq<string> := [
    "getNotesForDateRange", "getSearchQuery", "askForConfirmation", "getYoutubeVideoId",
    "modifyCurrentNote", "getLastModifiedFiles", "queryScreenpipe", "analyzeProductivity",
    "summarizeMeeting", "trackProjectTime"
  ]

  const FallbackTitle: string := "Tool Invocation"

  /** The `toolName` the invocation carries. */
  function ToolName(call: ToolCall): (name: string)
    ensures !call.OtherTool? ==> name in KnownToolNames
  {
    match call
    case GetNotesForDateRange => "getNotesForDateRange"
    case GetSearchQuery(_) => "getSearchQuery"
    case AskForConfirmation(_) => "askForConfirmation"
    case GetYoutubeVideoId(_) => "getYoutubeVideoId"
    case ModifyCurrentNote => "modifyCurrentNote"
    case GetLastModifiedFiles => "getLastModifiedFiles"
    case QueryScreenpipe => "queryScreenpipe"
    case AnalyzeProductivity(_) => "analyzeProductivity"
    case SummarizeMeeting => "summarizeMeeting"
    case TrackProjectTime(_, _) => "trackProjectTime"
    case OtherTool(name) => name
  }

  /** An `OtherTool` variant stands only for names outside the known set. */
  predicate WellFormed(call: ToolCall)
  {
    call.OtherTool? ==> call.toolName !in KnownToolNames
  }

  /** A well-formed call is determined by its name up to its arguments: names tell tools apart. */
  lemma ToolNameIdentifiesTool(c1: ToolCall, c2: ToolCall)
    requires WellFormed(c1) && WellFormed(c2)
    requires ToolName(c1) == ToolName(c2)
    ensures c1.OtherTool? <==> c2.OtherTool?
    ensures !c1.OtherTool? ==> (c1.GetSearchQuery? <==> c2.GetSearchQuery?) && (c1.GetYoutubeVideoId? <==> c2.GetYoutubeVideoId?)
    ensures !c1.OtherTool? ==> (c1.AnalyzeProductivity? <==> c2.AnalyzeProductivity?) && (c1.TrackProjectTime? <==> c2.TrackProjectTime?)
    ensures !c1.OtherTool? ==> (c1.AskForConfirmation? <==> c2.AskForConfirmation?)
    ensures (c1.GetNotesForDateRange? <==> c2.GetNotesForDateRange?) && (c1.ModifyCurrentNote? <==> c2.ModifyCurrentNote?)
    ensures (c1.GetLastModifiedFiles? <==> c2.GetLastModifiedFiles?) && (c1.QueryScreenpipe? <==> c2.QueryScreenpipe?)
    ensures (c1.SummarizeMeeting? <==> c2.SummarizeMeeting?)
  {
  }

  // ---------------------------------------------------------------------------------------------
  // getToolTitle

  /** `getToolTitle`: a fixed title per known tool name, the fallback title for any other name. */
  function ToolTitle(toolName: string): (title: string)
    ensures title == FallbackTitle <==> toolName !in KnownToolNames
    ensures title != ""
  {
    match toolName
    case "getNotesForDateRange" => "Fetching Notes"
    case "getSearchQuery" => "Searching Notes"
    case "askForConfirmation" => "Confirmation Required"
    case "getYoutubeVideoId" => "YouTube Transcript"
    case "modifyCurrentNote" => "Note Modification"
    case "getLastModifiedFiles" => "Recent File Activity"
    case "queryScreenpipe" => "Querying Screenpipe Data"
    case "analyzeProductivity" => "Analyzing Productivity"
    case "summarizeMeeting" => "Summarizing Meeting"
    case "trackProjectTime" => "Tracking Project Time"
    case _ => FallbackTitle
  }

  /** The known tool a title other than the fallback stands for. */
  function TitledTool(title: string): Option<string>
  {
    match title
    case "Fetching Notes" => Some("getNotesForDateRange")
    case "Searching Notes" => Some("getSearchQuery")
    case "Confirmation Required" => Some("askForConfirmation")
    case "YouTube Transcript" => Some("getYoutubeVideoId")
    case "Note Modification" => Some("modifyCurrentNote")
    case "Recent File Activity" => Some("getLastModifiedFiles")
    case "Querying Screenpipe Data" => Some("queryScreenpipe")
    case "Analyzing Productivity" => Some("analyzeProductivity")
    case "Summarizing Meeting" => Some("summarizeMeeting")
    case "Tracking Project Time" => Some("trackProjectTime")
    case _ => None
  }

  /**
   * Every known tool has its own title, from which the tool can be read back; the fallback
   * title stands for no tool. So no two known tools share a title.
   */
  lemma ToolTitleRoundTrip(toolName: string)
    ensures toolName in KnownToolNames ==> TitledTool(ToolTitle(toolName)) == Some(toolName)
    ensures toolName !in KnownToolNames ==> TitledTool(ToolTitle(toolName)) == None
  {
  }

  // ---------------------------------------------------------------------------------------------
  // renderContent

  /** An in-progress line: the text followed by an ellipsis. */
  function InProgress(text: string): string
  {
    text + "..."
  }

  /** A body made of one line of text. */
  function Message(text: string, started: bool): View
  {
    Content([text], false, started)
  }

  /**
   * `SearchHandler`: `held` is the result list the component holds in its own state. The card is
   * one line; it starts the search exactly while pending, and a settled card holding results shows
   * their number, which reads back as the count held.
   */
  function SearchView(result: Option<Value>, held: seq<SearchResult>): (v: View)
    ensures v.Content? && |v.blocks| == 1 && !v.confirmButtons
    ensures v.actionStarted <==> result.None?
    ensures result.None? ==> EndsWithEllipsis(v.blocks[0])
    ensures result.Some? && |held| > 0 ==>
      |v.blocks[0]| > 21 && StringToNumber(v.blocks[0][6..|v.blocks[0]| - 15]) == Some(|held|)
    ensures result.Some? && |held| == 0 ==> v.blocks[0] == "No files matching that criteria were found"
  {
    if result.None? then
      EllipsisAfter("Searching through your notes");
      Message(InProgress("Searching through your notes"), true)
    else if |held| > 0 then
      var numeral := IntToDecimal(|held|);
      var line := "Found " + numeral + " matching notes";
      assert line[6..|line| - 15] == numeral;
      StringToNumberOfNumeral(|held|);
      Message(line, false)
    else Message("No files matching that criteria were found", false)
  }

  /** The `error` property of a settled result; reading it from `null` throws (None). */
  function ErrorProperty(v: Value): Option<Option<Value>>
  {
    match v
    case JNull => None
    case JObj(fields) => Some(if "error" in fields then Some(fields["error"]) else None)
    case _ => Some(None)
  }

  /**
   * `YouTubeHandler`: one line, which starts the fetch exactly while pending. A settled card fails
   * to render exactly on a `null` result, whose `error` property cannot be read.
   */
  function YouTubeView(result: Option<Value>): (v: View)
    ensures v.RenderFailure? <==> result == Some(JNull)
    ensures v.Content? ==> |v.blocks| == 1 && !v.confirmButtons
    ensures v.Content? ==> (v.actionStarted <==> result.None?)
    ensures result.None? ==> v.Content? && EndsWithEllipsis(v.blocks[0])
  {
    match result
    case None =>
      EllipsisAfter("Fetching the video transcript");
      Message(InProgress("Fetching the video transcript"), true)
    case Some(settled) =>
      match ErrorProperty(settled)
      case None => RenderFailure
      case Some(error) =>
        if error.Some? && Truthy(error.value) then
          Message("Oops! Couldn't fetch the transcript: " + TemplateText(error.value), false)
        else Message("YouTube transcript successfully retrieved", false)
  }

  /**
   * The `getLastModifiedFiles` card: `count` is the settled result. It is one line that starts no
   * action, and it fails to render exactly when the count is or contains an object.
   */
  function LastModifiedView(result: Option<Value>): (v: View)
    ensures v.RenderFailure? <==> result.Some? && HasObject(result.value)
    ensures !v.NoContent?
    ensures v.Content? ==> |v.blocks| == 1 && !v.confirmButtons && !v.actionStarted
    ensures result.None? ==> v.Content? && EndsWithEllipsis(v.blocks[0])
  {
    match result
    case None =>
      EllipsisAfter("Checking your recent file activity");
      Message(InProgress("Checking your recent file activity"), false)
    case Some(count) =>
      ChildTextFailsOnlyOnObjects(count);
      if Truthy(count) then (
        match ChildText(count)
        case None => RenderFailure
        case Some(shown) =>
          Message("You've modified " + shown + " file" + (if GreaterThanOne(count) then "s" else "") + " recently", false))
      else Message("Hmm, I couldn't determine your recent file activity", false)
  }

  /**
   * `renderContent`: the body of the card, chosen by the tool's name. Only an unknown tool has no
   * body; only a settled invocation can fail to render; the buttons show exactly on a pending
   * confirmation; and a shown body has at least one line.
   */
  function RenderContent(inv: ToolInvocation, held: seq<SearchResult>): (v: View)
    ensures v.NoContent? <==> inv.call.OtherTool?
    ensures v.RenderFailure? ==>
      inv.Settled() && (inv.call.GetYoutubeVideoId? || inv.call.AskForConfirmation? || inv.call.GetLastModifiedFiles?)
    ensures v.Content? ==> |v.blocks| >= 1
    ensures (v.Content? && v.confirmButtons) <==> inv.call.AskForConfirmation? && inv.Pending()
  {
    match inv.call
    case GetSearchQuery(_) => SearchView(inv.result, held)
    case GetYoutubeVideoId(_) => YouTubeView(inv.result)
    case GetNotesForDateRange =>
      Message(if inv.result.Some?
              then "All notes modified within the following time period were added to the AI context: " + TemplateText(inv.result.value)
              else InProgress("Retrieving your notes for the specified time period"), false)
    case AskForConfirmation(message) =>
      if inv.result.None? then Content([message], true, false)
      else (
        match ChildText(inv.result.value)
        case None => RenderFailure
        case Some(shown) => Content([message, shown], false, false))
    case ModifyCurrentNote =>
      Message(if inv.result.Some? then "Changes applied: " + TemplateText(inv.result.value)
              else InProgress("Applying changes to your note"), false)
    case GetLastModifiedFiles => LastModifiedView(inv.result)
    case QueryScreenpipe =>
      Message(if inv.result.Some? then "Screenpipe data successfully queried and added to context"
              else InProgress("Querying Screenpipe data"), false)
    case AnalyzeProductivity(days) =>
      Message(if inv.result.Some? then "Productivity analysis completed for the last " + IntToDecimal(days) + " days"
              else InProgress("Analyzing productivity for the last " + IntToDecimal(days) + " days"), false)
    case SummarizeMeeting =>
      Message(if inv.result.Some? then "Meeting summary generated" else InProgress("Summarizing meeting audio"), false)
    case TrackProjectTime(keyword, days) =>
      Message(if inv.result.Some?
              then "Project time tracked for \"" + keyword + "\" over the last " + IntToDecimal(days) + " days"
              else InProgress("Tracking time for project \"" + keyword + "\" over the last " + IntToDecimal(days) + " days"), false)
    case OtherTool(_) => NoContent
  }

  /** The `ToolInvocationHandler` card. */
  function Render(inv: ToolInvocation, held: seq<SearchResult>): (card: Card)
    ensures card.title == ToolTitle(ToolName(inv.call))
    ensures card.body.NoContent? <==> inv.call.OtherTool?
    ensures WellFormed(inv.call) ==> (card.title == FallbackTitle <==> inv.call.OtherTool?)
  {
    Card(ToolTitle(ToolName(inv.call)), RenderContent(inv, held))
  }

  // ---------------------------------------------------------------------------------------------
  // Properties of the dispatch

  predicate StartsAction(v: View)
  {
    v.Content? && v.actionStarted
  }

  /**
   * Rendering starts an action exactly for a pending search or transcript invocation; a settled
   * invocation starts nothing.
   */
  lemma ActionStartsOnlyWhenPending(inv: ToolInvocation, held: seq<SearchResult>)
    ensures StartsAction(RenderContent(inv, held)) <==>
      inv.Pending() && (inv.call.GetSearchQuery? || inv.call.GetYoutubeVideoId?)
  {
  }

  /** The six tools whose card only tells pending from settled. */
  predicate IsTwoPhaseTool(call: ToolCall)
  {
    || call.GetNotesForDateRange? || call.ModifyCurrentNote? || call.QueryScreenpipe?
    || call.AnalyzeProductivity? || call.SummarizeMeeting? || call.TrackProjectTime?
  }

  predicate EndsWithEllipsis(s: string)
  {
    |s| >= 3 && s[|s| - 3..] == "..."
  }

  /** For the two-phase tools the body is a single line, never buttons and never an action. */
  lemma TwoPhaseToolsShowOneLine(call: ToolCall, id: string, result: Option<Value>, held: seq<SearchResult>)
    requires IsTwoPhaseTool(call)
    ensures var view := RenderContent(ToolInvocation(id, call, result), held);
      && view.Content? && |view.blocks| == 1 && !view.confirmButtons && !view.actionStarted
  {
  }

  /** While a two-phase tool is pending, its line is in-progress text ending in "...". */
  lemma TwoPhasePendingLine(call: ToolCall, id: string, held: seq<SearchResult>)
    requires IsTwoPhaseTool(call)
    ensures RenderContent(ToolInvocation(id, call, None), held).Content?
    ensures |RenderContent(ToolInvocation(id, call, None), held).blocks| == 1
    ensures EndsWithEllipsis(RenderContent(ToolInvocation(id, call, None), held).blocks[0])
  {
    match call
    case GetNotesForDateRange =>
      EllipsisAfter("Retrieving your notes for the specified time period");
    case ModifyCurrentNote =>
      EllipsisAfter("Applying changes to your note");
    case QueryScreenpipe =>
      EllipsisAfter("Querying Screenpipe data");
    case SummarizeMeeting =>
      EllipsisAfter("Summarizing meeting audio");
    case AnalyzeProductivity(days) =>
      EllipsisAfter("Analyzing productivity for the last " + IntToDecimal(days) + " days");
    case TrackProjectTime(keyword, days) =>
      EllipsisAfter("Tracking time for project \"" + keyword + "\" over the last " + IntToDecimal(days) + " days");
  }

  lemma EllipsisAfter(s: string)
    ensures EndsWithEllipsis(InProgress(s))
  {
    assert (s + "...")[|s|..] == "...";
  }

  /** A two-phase tool's completion line differs from its in-progress line. */
  lemma TwoPhaseToolsSettledDiffers(call: ToolCall, id: string, v: Value, held: seq<SearchResult>)
    requires IsTwoPhaseTool(call)
    ensures RenderContent(ToolInvocation(id, call, None), held) != RenderContent(ToolInvocation(id, call, Some(v)), held)
  {
    var pending := RenderContent(ToolInvocation(id, call, None), held);
    var settled := RenderContent(ToolInvocation(id, call, Some(v)), held);
    match call
    case GetNotesForDateRange =>
      assert |settled.blocks[0]| >= 82 > |pending.blocks[0]|;
    case ModifyCurrentNote =>
      var line := "Changes applied: " + TemplateText(v);
      assert settled == Message(line, false) && line[0] == 'C';
      assert pending == Message(InProgress("Applying changes to your note"), false);
      assert InProgress("Applying changes to your note")[0] == 'A';
    case QueryScreenpipe =>
    case SummarizeMeeting =>
    case AnalyzeProductivity(days) =>
      assert |settled.blocks[0]| == |pending.blocks[0]| + 6;
    case TrackProjectTime(_, _) =>
      assert |settled.blocks[0]| + 4 == |pending.blocks[0]|;
  }

  /**
   * The settled line of queryScreenpipe, analyzeProductivity, summarizeMeeting and
   * trackProjectTime does not depend on the result; that of modifyCurrentNote and
   * getNotesForDateRange quotes the result's text after a fixed prefix.
   */
  lemma SettledLineOfTwoPhaseTools(call: ToolCall, id: string, v1: Value, v2: Value, held: seq<SearchResult>)
    requires IsTwoPhaseTool(call)
    ensures !call.ModifyCurrentNote? && !call.GetNotesForDateRange? ==>
      RenderContent(ToolInvocation(id, call, Some(v1)), held) == RenderContent(ToolInvocation(id, call, Some(v2)), held)
    ensures call.ModifyCurrentNote? ==>
      RenderContent(ToolInvocation(id, call, Some(v1)), held).blocks == ["Changes applied: " + TemplateText(v1)]
    ensures call.GetNotesForDateRange? ==>
      RenderContent(ToolInvocation(id, call, Some(v1)), held).blocks
      == ["All notes modified within the following time period were added to the AI context: " + TemplateText(v1)]
  {
  }

  /**
   * The settled getLastModifiedFiles card: a falsy count cannot be reported; a truthy count is
   * shown with "file" made plural exactly when the count exceeds one. For a number, the count is
   * its decimal numeral.
   */
  lemma LastModifiedFilesSettled(id: string, count: Value, held: seq<SearchResult>)
    ensures var view := RenderContent(ToolInvocation(id, GetLastModifiedFiles, Some(count)), held);
      && (!Truthy(count) ==> view == Message("Hmm, I couldn't determine your recent file activity", false))
      && (Truthy(count) && !HasObject(count) ==>
            && ChildText(count).Some?
            && view == Message("You've modified " + ChildText(count).value + " file"
                               + (if GreaterThanOne(count) then "s" else "") + " recently", false))
      && (Truthy(count) && HasObject(count) ==> view == RenderFailure)
  {
    ChildTextFailsOnlyOnObjects(count);
  }

  lemma LastModifiedFilesNumber(id: string, n: int, held: seq<SearchResult>)
    requires n != 0
    ensures RenderContent(ToolInvocation(id, GetLastModifiedFiles, Some(JNum(n))), held)
      == Message("You've modified " + IntToDecimal(n) + " file" + (if n > 1 then "s" else "") + " recently", false)
  {
    GreaterThanOneOfNumber(n);
  }

  /**
   * The settled transcript card shows the error line exactly when the result carries a truthy
   * `error` property, and the success line for every other result except `null`, on which reading
   * the property throws.
   */
  predicate HasTruthyError(v: Value)
  {
    v.JObj? && "error" in v.fields && Truthy(v.fields["error"])
  }

  lemma YouTubeSettled(id: string, videoId: string, v: Value, held: seq<SearchResult>)
    ensures var view := RenderContent(ToolInvocation(id, GetYoutubeVideoId(videoId), Some(v)), held);
      && (v.JNull? <==> view == RenderFailure)
      && (HasTruthyError(v) ==>
            view == Message("Oops! Couldn't fetch the transcript: " + TemplateText(v.fields["error"]), false))
      && (!v.JNull? && !HasTruthyError(v) ==> view == Message("YouTube transcript successfully retrieved", false))
  {
  }

  /**
   * The settled search card counts the results the component holds: "Found N matching notes" when
   * it holds some, the no-match line otherwise.
   */
  lemma SearchSettled(id: string, query: string, v: Value, held: seq<SearchResult>)
    ensures var view := RenderContent(ToolInvocation(id, GetSearchQuery(query), Some(v)), held);
      && (|held| > 0 <==> view == Message("Found " + IntToDecimal(|held|) + " matching notes", false))
      && (|held| == 0 <==> view == Message("No files matching that criteria were found", false))
  {
    if |held| > 0 {
      var view := RenderContent(ToolInvocation(id, GetSearchQuery(query), Some(v)), held);
      assert view.blocks[0][0] == 'F';
    }
  }

  /**
   * The confirmation card shows the question, and the buttons exactly while it is pending; a
   * settled result holding an object cannot be shown, and the whole card fails to render.
   */
  lemma ConfirmationCard(id: string, message: string, result: Option<Value>, held: seq<SearchResult>)
    ensures var view := RenderContent(ToolInvocation(id, AskForConfirmation(message), result), held);
      && (result.None? ==> view == Content([message], true, false))
      && (result.Some? && !HasObject(result.value) ==>
            view.Content? && !view.confirmButtons && |view.blocks| == 2 && view.blocks[0] == message)
      && (result.Some? && result.value.JStr? ==> view == Content([message, result.value.s], false, false))
      && (result.Some? && HasObject(result.value) ==> view == RenderFailure)
  {
    if result.Some? {
      ChildTextFailsOnlyOnObjects(result.value);
    }
  }
}
