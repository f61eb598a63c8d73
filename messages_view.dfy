/**
 * The message list of the stock chat: each part of a message is turned into
 * one fragment, or into nothing, by its type and, for tool parts, its state.
 */
module MessagesView {
  import opened Wrappers
  import opened UiTypes
  import Conversation

  /** The four tools this view knows. */
  datatype Tool = CompanyProfile | EarningsHistorical | GradesConsensus | HistoricalPrices

  /** The tool a part type names, when it is one of the four. */
  function ToolOf(kind: string): (t: Option<Tool>)
    ensures t == Some(CompanyProfile) <==> kind == "tool-companyProfile"
    ensures t == Some(EarningsHistorical) <==> kind == "tool-earningsHistorical"
    ensures t == Some(GradesConsensus) <==> kind == "tool-gradesConsensus"
    ensures t == Some(HistoricalPrices) <==> kind == "tool-historicalPrices"
  {
    if kind == "tool-companyProfile" then Some(CompanyProfile)
    else if kind == "tool-earningsHistorical" then Some(EarningsHistorical)
    else if kind == "tool-gradesConsensus" then Some(GradesConsensus)
    else if kind == "tool-historicalPrices" then Some(HistoricalPrices)
    else None
  }

  /** The status string passed while a tool's input streams in or waits for the call. */
  function LoadingStatus(t: Tool): (s: string)
    ensures |s| > 11 && s[..8] == "Getting " && s[|s| - 3..] == "..."
  {
    match t
    case CompanyProfile => "Getting company profile..."
    case EarningsHistorical => "Getting historical earnings..."
    case GradesConsensus => "Getting grades consensus..."
    case HistoricalPrices => "Getting historical prices..."
  }

  /** The text in front of a tool's error; the company profile tool reuses the weather wording. */
  function ErrorLead(t: Tool): (lead: string)
    ensures |lead| > 16 && lead[..14] == "Error getting " && lead[|lead| - 2..] == ": "
  {
    match t
    case CompanyProfile => "Error getting weather: "
    case EarningsHistorical => "Error getting earnings historical: "
    case GradesConsensus => "Error getting grades consensus: "
    case HistoricalPrices => "Error getting historical prices: "
  }

  /** What one part renders as. The output of a tool is passed on as it came. */
  datatype Fragment =
    | TextFragment(text: Option<string>)
    | StatusLine(status: string)
    | JsonDump(value: Json)
    | EarningsChartOf(data: Json)
    | RatingChartOf(data: Json)
    | PricesChartOf(data: Json)
    | ErrorLine(message: string)

  predicate IsInputState(state: string) {
    state == "input-streaming" || state == "input-available"
  }

  /** The inner `switch (part.state)` of one tool. */
  function RenderToolPart(t: Tool, p: Part): (r: Option<Fragment>)
    ensures r.Some? <==> IsInputState(p.state) || p.state == "output-available" || p.state == "output-error"
  {
    if IsInputState(p.state) then Some(StatusLine(LoadingStatus(t)))
    else if p.state == "output-available" then
      Some(match t
        case CompanyProfile => JsonDump(p.output)
        case EarningsHistorical => EarningsChartOf(p.output)
        case GradesConsensus => RatingChartOf(p.output)
        case HistoricalPrices => PricesChartOf(p.output))
    else if p.state == "output-error" then Some(ErrorLine(ErrorLead(t) + p.errorText))
    else None
  }

  /** The outer `switch (part.type)`. */
  function RenderPart(p: Part): (r: Option<Fragment>)
    ensures p.kind == "text" ==> r == Some(TextFragment(p.text))
    ensures p.kind != "text" && ToolOf(p.kind).None? ==> r.None?
  {
    if p.kind == "text" then Some(TextFragment(p.text))
    else match ToolOf(p.kind)
      case None => None
      case Some(t) => RenderToolPart(t, p)
  }

  /** Both input states of a tool part render the same loading status. */
  lemma InputStatesShowLoading(p: Part)
    requires ToolOf(p.kind).Some? && IsInputState(p.state)
    ensures RenderPart(p) == Some(StatusLine(LoadingStatus(ToolOf(p.kind).value)))
  {
  }

  /**
   * What a status line shows on screen: every tool in both input states
   * shows "Thinking...", never the tool's own status string.
   */
  lemma ToolLoadingShowsThinking(p: Part)
    requires ToolOf(p.kind).Some? && IsInputState(p.state)
    ensures RenderPart(p).Some? && RenderPart(p).value.StatusLine?
    ensures Conversation.StatusText(RenderPart(p).value.status) == "Thinking..."
    ensures RenderPart(p).value.status != "Thinking..."
  {
    var s := LoadingStatus(ToolOf(p.kind).value);
    assert s[0] == s[..8][0] == 'G';
  }

  /** An error renders the tool's lead followed by the error text unchanged. */
  lemma ErrorShowsErrorText(p: Part)
    requires ToolOf(p.kind).Some? && p.state == "output-error"
    ensures var lead := ErrorLead(ToolOf(p.kind).value);
      RenderPart(p).Some? && RenderPart(p).value.ErrorLine?
      && RenderPart(p).value.message[..|lead|] == lead
      && RenderPart(p).value.message[|lead|..] == p.errorText
  {
  }

  /** A finished call passes its output to the view of its own tool. */
  lemma OutputGoesToItsView(p: Part)
    requires p.state == "output-available"
    ensures p.kind == "tool-companyProfile" ==> RenderPart(p) == Some(JsonDump(p.output))
    ensures p.kind == "tool-earningsHistorical" ==> RenderPart(p) == Some(EarningsChartOf(p.output))
    ensures p.kind == "tool-gradesConsensus" ==> RenderPart(p) == Some(RatingChartOf(p.output))
    ensures p.kind == "tool-historicalPrices" ==> RenderPart(p) == Some(PricesChartOf(p.output))
  {
  }

  /** Only text parts and the four tools in one of their four states render anything. */
  lemma RendersSomethingIff(p: Part)
    ensures RenderPart(p).Some? <==>
      p.kind == "text"
      || (ToolOf(p.kind).Some?
          && (IsInputState(p.state) || p.state == "output-available" || p.state == "output-error"))
  {
  }

  /** The element of one message: its id, its role, and one entry per part. */
  datatype MessageElement = MessageElement(id: string, role: Role, fragments: seq<Option<Fragment>>)

  function RenderParts(parts: seq<Part>): (r: seq<Option<Fragment>>)
    ensures |r| == |parts|
    ensures forall i :: 0 <= i < |parts| ==> r[i] == RenderPart(parts[i])
  {
    if parts == [] then [] else [RenderPart(parts[0])] + RenderParts(parts[1..])
  }

  function RenderMessage(m: Message): (e: MessageElement)
    ensures e.id == m.id && e.role == m.role
    ensures e.fragments == RenderParts(m.parts)
  {
    MessageElement(m.id, m.role, RenderParts(m.parts))
  }

  /** `Messages`: one element per message, in order. */
  function RenderMessages(ms: seq<Message>): (r: seq<MessageElement>)
    ensures |r| == |ms|
    ensures forall i :: 0 <= i < |ms| ==> r[i] == RenderMessage(ms[i])
  {
    if ms == [] then [] else [RenderMessage(ms[0])] + RenderMessages(ms[1..])
  }
}
