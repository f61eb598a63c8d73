/**
 * The weather assistant page: its per-part dispatch, including the
 * `switch` fall-through from the weather case into the what-to-wear case,
 * the input form and the send button.
 */
module ChatPage {
  import opened Wrappers
  import opened JsStrings
  import opened UiTypes

  /** One suggestion card: `item.title` and `item.description`, `None` when undefined. */
  datatype Suggestion = Suggestion(title: Option<Json>, description: Option<Json>)

  /** What one part renders as; `RenderError` is a render that throws a `TypeError`. */
  datatype PageFragment =
    | PlainText(content: Option<string>)
    | StatusNote(text: string)
    | WeatherCard(location: Option<Json>, temperature: Option<Json>)
    | Suggestions(items: seq<Suggestion>)
    | ErrorNote(text: string)
    | RenderError

  const WeatherLoading := "Getting weather information..."
  const WearLoading := "Generating equipment suggestions..."
  const WeatherErrorLead := "Error getting weather: "
  const WearErrorLead := "Error generating suggestions: "

  predicate IsInputState(state: string) {
    state == "input-streaming" || state == "input-available"
  }

  predicate IsKnownState(state: string) {
    IsInputState(state) || state == "output-available" || state == "output-error"
  }

  /** One suggestion of the list; a `null` item throws on `item.title`. */
  function SuggestionOf(item: Json): Option<Suggestion> {
    if item.JNull? then None else Some(Suggestion(Field(item, "title"), Field(item, "description")))
  }

  /** `wearData.suggestions.map(...)`: only an array of non-null items can be mapped. */
  function SuggestionsOf(items: seq<Json>): (r: Option<seq<Suggestion>>)
    ensures r.Some? <==> forall i :: 0 <= i < |items| ==> !items[i].JNull?
    ensures r.Some? ==> |r.value| == |items| && forall i :: 0 <= i < |items| ==>
      r.value[i] == Suggestion(Field(items[i], "title"), Field(items[i], "description"))
  {
    if items == [] then Some([])
    else
      var rest := SuggestionsOf(items[1..]);
      assert forall i :: 1 <= i < |items| ==> items[i] == items[1..][i - 1];
      if items[0].JNull? || rest.None? then None
      else
        assert forall i :: 1 <= i < |items| ==> ([SuggestionOf(items[0]).value] + rest.value)[i] == rest.value[i - 1];
        Some([SuggestionOf(items[0]).value] + rest.value)
  }

  /** `case "tool-weather"`: `None` means no inner case matched and control falls through. */
  function WeatherCase(p: Part): (r: Option<PageFragment>)
    ensures r.Some? <==> IsKnownState(p.state)
  {
    if IsInputState(p.state) then Some(StatusNote(WeatherLoading))
    else if p.state == "output-available" then
      if p.output.JNull? then Some(RenderError)
      else Some(WeatherCard(Field(p.output, "location"), Field(p.output, "temperature")))
    else if p.state == "output-error" then Some(ErrorNote(WeatherErrorLead + p.errorText))
    else None
  }

  /**
   * `case "tool-whatToWear"`: `None` again falls through, into `default`.
   * Reading `suggestions` of a `null` output, or mapping a value that is not
   * an array, throws.
   */
  function WhatToWearCase(p: Part): (r: Option<PageFragment>)
    ensures r.Some? <==> IsKnownState(p.state)
  {
    if IsInputState(p.state) then Some(StatusNote(WearLoading))
    else if p.state == "output-available" then
      var suggestions := Field(p.output, "suggestions");
      if suggestions.Some? && suggestions.value.JArr? && SuggestionsOf(suggestions.value.items).Some? then
        Some(Suggestions(SuggestionsOf(suggestions.value.items).value))
      else Some(RenderError)
    else if p.state == "output-error" then Some(ErrorNote(WearErrorLead + p.errorText))
    else None
  }

  /** The `switch (part.type)` of the page, with its fall-through written out. */
  function RenderPagePart(p: Part): (r: Option<PageFragment>)
    ensures r.Some? <==>
      (p.kind == "text" || ((p.kind == "tool-weather" || p.kind == "tool-whatToWear") && IsKnownState(p.state)))
  {
    if p.kind == "text" then Some(PlainText(p.text))
    else if p.kind == "tool-weather" then
      match WeatherCase(p)
      case Some(f) => Some(f)
      case None =>
        match WhatToWearCase(p)
        case Some(f) => Some(f)
        case None => None
    else if p.kind == "tool-whatToWear" then WhatToWearCase(p)
    else None
  }

  /** A weather part in a state the weather case does not know falls through both cases and renders nothing. */
  lemma WeatherFallThrough(p: Part)
    requires p.kind == "tool-weather"
    ensures RenderPagePart(p).Some? <==> IsKnownState(p.state)
    ensures IsKnownState(p.state) ==> RenderPagePart(p) == WeatherCase(p)
  {
  }

  /** Unknown part types render nothing; text renders its text. */
  lemma PagePartKinds(p: Part)
    ensures p.kind == "text" ==> RenderPagePart(p) == Some(PlainText(p.text))
    ensures p.kind != "text" && p.kind != "tool-weather" && p.kind != "tool-whatToWear" ==> RenderPagePart(p).None?
  {
  }

  /** Both tools show a loading line for both input states and their error text after a fixed lead. */
  lemma PageToolStates(p: Part)
    requires p.kind == "tool-weather" || p.kind == "tool-whatToWear"
    ensures IsInputState(p.state) ==>
      RenderPagePart(p) == Some(StatusNote(if p.kind == "tool-weather" then WeatherLoading else WearLoading))
    ensures p.state == "output-error" ==>
      RenderPagePart(p) == Some(ErrorNote((if p.kind == "tool-weather" then WeatherErrorLead else WearErrorLead) + p.errorText))
  {
  }

  /** A suggestion list renders one card per suggestion, in order. */
  lemma SuggestionCards(p: Part, items: seq<Json>)
    requires p.kind == "tool-whatToWear" && p.state == "output-available"
    requires p.output.JObj? && Field(p.output, "suggestions") == Some(JArr(items))
    requires forall i :: 0 <= i < |items| ==> !items[i].JNull?
    ensures RenderPagePart(p).Some? && RenderPagePart(p).value.Suggestions?
    ensures var cards := RenderPagePart(p).value.items;
      |cards| == |items| && forall i :: 0 <= i < |items| ==> cards[i].title == Field(items[i], "title")
  {
  }

  /** The avatar fallback text: "Me" for the user, "AI" for every other role. */
  function AvatarText(role: Role): string {
    if role == User then "Me" else "AI"
  }

  /** `messages.length === 0`: the condition of the intro text. */
  predicate ShowsIntro(messages: seq<Message>) {
    |messages| == 0
  }

  /** `disabled={status === "streaming"}` of the send button. */
  predicate SendDisabled(status: ChatStatus) {
    status == Streaming
  }

  /** One message of the page: its key, the avatar's fallback text and what each part renders as. */
  datatype PageRow = PageRow(id: string, avatar: string, parts: seq<Option<PageFragment>>)

  /** What the page shows above the form: the intro text or not, then one row per message. */
  datatype PageBody = PageBody(intro: bool, rows: seq<PageRow>)

  function RenderRow(m: Message): PageRow {
    PageRow(m.id, AvatarText(m.role), seq(|m.parts|, i requires 0 <= i < |m.parts| => RenderPagePart(m.parts[i])))
  }

  /** The body of `Home`: the intro condition and `messages.map(...)`. */
  function RenderPage(messages: seq<Message>): PageBody {
    PageBody(ShowsIntro(messages), seq(|messages|, i requires 0 <= i < |messages| => RenderRow(messages[i])))
  }

  /**
   * The intro shows exactly when no message row does; each message gets a
   * row with its id and one rendering per part, and its avatar reads "Me"
   * for the user and "AI" for the assistant and for system messages alike.
   */
  lemma PageLayout(messages: seq<Message>)
    ensures var body := RenderPage(messages);
      (body.intro <==> body.rows == []) && |body.rows| == |messages|
      && forall i :: 0 <= i < |messages| ==>
        body.rows[i].id == messages[i].id && |body.rows[i].parts| == |messages[i].parts|
        && (forall j :: 0 <= j < |messages[i].parts| ==> body.rows[i].parts[j] == RenderPagePart(messages[i].parts[j]))
        && (body.rows[i].avatar == "Me" <==> messages[i].role == User)
        && (body.rows[i].avatar == "AI" <==> messages[i].role != User)
  {
  }

  /** The page's input box and the texts it has sent with `sendMessage`. */
  class ChatForm {
    var input: string
    var sent: seq<string>

    constructor()
      ensures input == "" && sent == []
    {
      input := "";
      sent := [];
    }

    /** `onChange`. */
    method Change(value: string)
      modifies this
      ensures input == value && sent == old(sent)
    {
      input := value;
    }

    /** `onSubmit`: sends the untrimmed input and clears it when it has non-whitespace content. */
    method Submit()
      modifies this
      ensures !AllWhitespace(old(input)) ==> sent == old(sent) + [old(input)] && input == ""
      ensures AllWhitespace(old(input)) ==> sent == old(sent) && input == old(input)
    {
      TrimEmptyIff(input);
      if Trim(input) != "" {
        sent := sent + [input];
        input := "";
      }
    }

    /**
     * Pressing Send: the form is submitted unless the button is disabled,
     * which is only while streaming. While a request is submitted and not
     * yet streaming, a second message can be sent.
     */
    method PressSend(status: ChatStatus)
      modifies this
      ensures status == Streaming ==> sent == old(sent) && input == old(input)
      ensures status != Streaming && !AllWhitespace(old(input)) ==> sent == old(sent) + [old(input)] && input == ""
      ensures status != Streaming && AllWhitespace(old(input)) ==> sent == old(sent) && input == old(input)
    {
      if !SendDisabled(status) {
        Submit();
      }
    }
  }
}
