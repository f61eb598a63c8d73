# Stock chat UI rules, modelled in Dafny

This project models the self-contained rules in the front end of the tool-calling stock chat template:

- **Timeline:**
  - the one-line label each conversation message gets in the timeline;
  - the cursor the timeline's up and down buttons move;
  - the bars of the conversation timeline.
- **Charts:**
  - the derivations behind the earnings chart: classifying each quarter, then filter, sort and map;
  - the derivations behind the historical price chart: reversal, monthly ticks and line colour.
- **API client:** URL construction and error formatting in the Financial Modeling Prep client.
- **Dispatch:** from a message part to what it renders, both in the stock chat view and in the weather demo page.
- **Small state machines:**
  - the dot-loader animation;
  - the cycling placeholder text;
  - the prompt-box submit guard;
  - `pluralize`.

Each core file becomes one module:

| module | file |
|---|---|
| `MessageScroll` | components/hooks/use-message-scroll.ts |
| `EarningsChart` | components/charts/earnings-historical-chart.tsx |
| `PricesChart` | components/charts/historical-prices-chart.tsx |
| `FmpClient` | lib/fmp-client.ts |
| `MessagesView` | components/messages.tsx |
| `ChatPage` | app/page.tsx |
| `DotLoader` | components/ui/dot-loader.tsx |
| `PromptInput` | components/prompt-input.tsx |
| `Conversation` | components/conversation.tsx |
| `UseLoop` | components/hooks/use-loop.ts |
| `Utils` | lib/utils.ts |

Four shared modules support them:

- `Wrappers` holds `Option` and `Result`.
- `JsStrings` writes out the JavaScript string operations the code calls:
  - `trim`, `startsWith`, `endsWith`, `indexOf`, `replace` with a string pattern;
  - ASCII `toUpperCase`;
  - `String(n)` for integers;
  - string `<`.
- `JsArrays` holds `findIndex`.
- `UiTypes` holds the chat library's message, part and status shapes.

The model takes the form of the source.

**Pure expressions become functions.** The `filter`/`sort`/`map` chains, the `switch` statements and the ternaries are functions with named results. Lemmas state what the source promises about them.

**State becomes classes.** Four pieces of state are classes whose methods change fields:

- the scroll cursor's current id: `MessageScroll.MessageCursor`;
- the prompt text: `PromptInput.PromptBox` and `ChatPage.ChatForm`;
- the dot loader's refs: `DotLoader.Loader`;
- the loop key: `UseLoop.Loop`.

Each such method's `ensures` ties the new state to a specification function about which lemmas are proved.

**Loops stay loops.** The two loops of `monthlyTicks` are a method with loop invariants, proved to equal the specification `MonthTicks`. So are the parameter `forEach` of `buildUrl` and the `forEach` of `applyFrameToDots` over an `array<bool>`.

The model reproduces some details of the source exactly as written:

- The company-profile tool's error line reads "Error getting weather: ". This is copied from the weather demo.
- The key handler of the prompt box ignores the chat status, so Enter submits while a response streams.
- The page's send button is disabled only while streaming.
- `ConversationStatus` always says "Thinking...".
- A `tool-weather` part in an unknown state falls through into the `tool-whatToWear` case and then into `default`.

## Model

| member | source | states |
|---|---|---|
| `JsArrays.FindIndex` | components/hooks/use-message-scroll.ts:18 | `findIndex` (and `find`, through the index it returns): -1 or an index whose element satisfies the test, and no earlier element satisfies it |
| `JsStrings.TrimEmptyIff` | components/prompt-input.tsx:32 | `trim()` is empty exactly when every character is JavaScript white space, which is what the truthiness guards test |
| `JsStrings.TrimIdempotent` | components/hooks/use-message-scroll.ts:10 | trimming twice is trimming once |
| `JsStrings.TrimStart` | components/hooks/use-message-scroll.ts:10 | the dropped prefix is all white space and what is kept does not start with white space |
| `JsStrings.TrimEnd` | components/hooks/use-message-scroll.ts:10 | the dropped suffix is all white space and what is kept does not end with white space |
| `JsStrings.Trim` | components/hooks/use-message-scroll.ts:10 | the trimmed string neither starts nor ends with white space and is no longer than its input |
| `JsStrings.IndexOfFrom` | components/hooks/use-message-scroll.ts:21 | `indexOf`: -1 or the first position at or after `from` where the pattern occurs |
| `JsStrings.ReplaceLeadingPrefix` | components/hooks/use-message-scroll.ts:21 | `replace("tool-", "")` on a type starting with `tool-` strips exactly that prefix |
| `JsStrings.ToUpperAscii` | components/hooks/use-message-scroll.ts:51 | the upper-cased symbol has the same length; each lower-case ASCII letter becomes its capital, 32 code points lower, and every other character stays as it is |
| `JsStrings.NatToString` | lib/fmp-client.ts:56 | `String(n)` of a natural number: digits only, never empty, no leading zero |
| `JsStrings.NatToStringRoundTrip` | lib/fmp-client.ts:56 | the decimal rendering of a status code reads back as the same number |
| `JsStrings.NatToStringInjective` | lib/fmp-client.ts:56 | two different numbers never render alike |
| `JsStrings.LessIrreflexive` | components/charts/earnings-historical-chart.tsx:132-137 | string `<` is irreflexive |
| `JsStrings.LessTransitive` | components/charts/earnings-historical-chart.tsx:132-137 | string `<` is transitive |
| `JsStrings.LessTotal` | components/charts/earnings-historical-chart.tsx:132-137 | of two different strings one is smaller, so the date comparator is a total order |
| `JsStrings.LessAsymmetric` | components/charts/earnings-historical-chart.tsx:132-137 | string `<` is asymmetric |
| `JsStrings.LessOrEqualTransitive` | components/charts/earnings-historical-chart.tsx:132-137 | not-greater is transitive, which the sortedness proof needs |
| `UiTypes.NonSystem` | components/hooks/use-message-scroll.ts:70-71 | the filter keeps exactly the non-system messages and drops nothing else |
| `UiTypes.NonSystemAppend` | components/conversation.tsx:140-141 | filtering keeps the order: a concatenation filters to the concatenation of the filtered halves |
| `UiTypes.NonSystemIdentity` | components/conversation.tsx:140-141 | a list without system messages is unchanged by the filter |
| `MessageScroll.SkipNewlines` | components/hooks/use-message-scroll.ts:10 | the result is the input with its whole leading run of newlines cut off: a suffix, everything before it a newline, and not itself starting with one |
| `MessageScroll.CollapseNewlines` | components/hooks/use-message-scroll.ts:10 | `replace(/\n+/g, " ")` leaves no newline and does not change a newline-free text |
| `MessageScroll.CollapseNewlinesRun` | components/hooks/use-message-scroll.ts:10 | a run of one or more newlines in front of a non-newline becomes exactly one space |
| `MessageScroll.CollapseNewlinesAppend` | components/hooks/use-message-scroll.ts:10 | newline-free text is copied unchanged, whatever follows it; with `CollapseNewlinesRun` this fixes the result for every input |
| `MessageScroll.CollapseNewlinesKeepsText` | components/hooks/use-message-scroll.ts:10 | with spaces and newlines removed, input and output are equal: every other character is kept, in order |
| `MessageScroll.OneLiner` | components/hooks/use-message-scroll.ts:10 | the collapsed, trimmed text has no newline |
| `MessageScroll.OneLinerJoinsLines` | components/hooks/use-message-scroll.ts:10 | two lines without edge white space, separated by any number of newlines, become the two lines joined by one space |
| `MessageScroll.TruncateText` | components/hooks/use-message-scroll.ts:9-13 | no newline; the one-line text when it fits; otherwise its first `maxLength` characters followed by `...`, at most `maxLength + 3` long |
| `MessageScroll.GetToolCallInfo` | components/hooks/use-message-scroll.ts:15-25 | null exactly when no part type starts with `tool-`; otherwise the first such part, with the prefix stripped and its input's symbol |
| `MessageScroll.GetTextContent` | components/hooks/use-message-scroll.ts:27-30 | the text of the first text part, or `""` when there is no text part |
| `MessageScroll.SpaceBeforeCapitals` | components/hooks/use-message-scroll.ts:34 | the spaced name ends with the name's last character |
| `MessageScroll.SpaceBeforeCapitalsLength` | components/hooks/use-message-scroll.ts:34 | the spaced name is longer by exactly the number of capitals; with `SpaceBeforeCapitalsPrefixes` and `SpaceBeforeCapitalsAddsSpaces` this fixes the result for a name without spaces |
| `MessageScroll.SpaceBeforeCapitalsPrefixes` | components/hooks/use-message-scroll.ts:34 | every capital of the spaced name has a space right before it |
| `MessageScroll.SpaceBeforeCapitalsAddsSpaces` | components/hooks/use-message-scroll.ts:34 | with the spaces removed, the spaced name is the name with its spaces removed: nothing but spaces is added |
| `MessageScroll.UnspacedAppend` | components/hooks/use-message-scroll.ts:34 | removing spaces distributes over concatenation |
| `MessageScroll.CapitalizeFirst` | components/hooks/use-message-scroll.ts:35 | `replace(/^./, toUpperCase)` upper-cases the first character and keeps the rest; a first character that is a line terminator, which `.` does not match, leaves the string unchanged |
| `MessageScroll.FormatToolName` | components/hooks/use-message-scroll.ts:32-36 | the formatted name neither starts nor ends with white space; a name of ASCII letters and digits becomes its first character upper-cased followed by the rest with a space before each capital (`companyProfile` gives `Company Profile`), the space a leading capital gets being trimmed |
| `MessageScroll.AlphanumericIsNotWhitespace` | components/hooks/use-message-scroll.ts:36 | ASCII letters and digits are not removed by `trim` |
| `JsStrings.TrimKeeps` | components/hooks/use-message-scroll.ts:36 | a string without white space at either end is its own trim |
| `JsStrings.TrimLeadingSpace` | components/hooks/use-message-scroll.ts:36 | one leading space in front of such a string is all the trim removes |
| `MessageScroll.MessageLabel` | components/hooks/use-message-scroll.ts:38-59 | a system message is labelled "Message"; a user label has no newline and at most 63 characters |
| `MessageScroll.ToolLabel` | components/hooks/use-message-scroll.ts:49-51 | the label starts with the formatted name; without a symbol, or with an empty one, it is just that name; otherwise the name, ` (`, exactly the upper-cased symbol, and `)` |
| `MessageScroll.AssistantToolPrecedence` | components/hooks/use-message-scroll.ts:46-52 | an assistant message with a tool part is labelled by its first tool part, whatever text it holds |
| `MessageScroll.LabelFallbacks` | components/hooks/use-message-scroll.ts:41-56 | "User message" for a user message whose text content is empty, "Assistant message" for an assistant message with no tool part and empty text content |
| `MessageScroll.TextLabel` | components/hooks/use-message-scroll.ts:41-44 | a text label is the truncated first text, with no newline and at most 63 characters |
| `MessageScroll.Entries` | components/hooks/use-message-scroll.ts:72-76 | `.map(...)` gives one entry per message |
| `MessageScroll.EntriesIndex` | components/hooks/use-message-scroll.ts:72-76 | the mapped list has one entry per message, the k-th built from the k-th message |
| `MessageScroll.TimelineOfMessages` | components/hooks/use-message-scroll.ts:68-78 | one entry per non-system message, in order, with that message's id, role and label |
| `MessageScroll.TimelineWithoutSystem` | components/hooks/use-message-scroll.ts:68-78 | without system messages the timeline keeps every message's position and id |
| `MessageScroll.IndexOfCurrent` | components/hooks/use-message-scroll.ts:81-85 | -1 for a null or empty id; for any other id, -1 iff no entry has it, and otherwise the first index holding it |
| `MessageScroll.IndexOfEntry` | components/hooks/use-message-scroll.ts:81-85 | with unique ids, the index of the id at position k is k |
| `MessageScroll.SelectLast` | components/hooks/use-message-scroll.ts:81-95 | with unique ids, once the last entry is current its index is the last one: scrolling down is impossible, and scrolling up is possible iff there are two entries or more |
| `MessageScroll.MessageCursor.CurrentIndex` | components/hooks/use-message-scroll.ts:81-85 | -1 or a position holding the current id; for a non-empty id, -1 iff no entry has it |
| `MessageScroll.MessageCursor.CanScrollUp` | components/hooks/use-message-scroll.ts:181 | possible only when the current id is in a timeline of two entries or more and is not the first entry's |
| `MessageScroll.MessageCursor.CanScrollDown` | components/hooks/use-message-scroll.ts:182 | possible only when the current id is set and the timeline has two entries or more |
| `MessageScroll.MessageCursor.constructor` | components/hooks/use-message-scroll.ts:65-95 | the first render builds the timeline from the messages, and its effect makes the last entry current, or leaves none current when the timeline is empty |
| `MessageScroll.MessageCursor.Rerender` | components/hooks/use-message-scroll.ts:88-95 | the timeline is rebuilt from the new messages; when its length changed and it is not empty, the last entry becomes current, otherwise the current id is kept |
| `MessageScroll.MessageCursor.ScrollToMessage` | components/hooks/use-message-scroll.ts:149-155 | the given id becomes current |
| `MessageScroll.MessageCursor.ScrollUp` | components/hooks/use-message-scroll.ts:157-164 | nothing changes unless `canScrollUp`; otherwise the previous entry becomes current and the index drops by one |
| `MessageScroll.MessageCursor.ScrollDown` | components/hooks/use-message-scroll.ts:166-173 | nothing changes unless `canScrollDown`; otherwise the next entry becomes current and the index rises by one |
| `EarningsChart.GetExpectation` | components/charts/earnings-historical-chart.tsx:35-41 | null iff either value is null or zero; beat iff actual reaches the estimate; missed iff it falls short |
| `EarningsChart.PercentageDiff` | components/charts/earnings-historical-chart.tsx:44-50 | null exactly when the expectation is null; otherwise the value times the estimate equals (actual − estimate) × 100 |
| `EarningsChart.PercentageDiffSign` | components/charts/earnings-historical-chart.tsx:39-50 | the sign of the difference agrees with the classification for a positive estimate and is reversed for a negative one |
| `EarningsChart.KeepReported` | components/charts/earnings-historical-chart.tsx:131 | keeps exactly the records with some non-null EPS value, each as often as in the input |
| `EarningsChart.InsertByDate` | components/charts/earnings-historical-chart.tsx:132-137 | one insertion adds exactly the inserted record |
| `EarningsChart.SortedCons` | components/charts/earnings-historical-chart.tsx:132-137 | a sorted list stays sorted with a first element that precedes all of it |
| `EarningsChart.FirstPrecedesSorted` | components/charts/earnings-historical-chart.tsx:132-137 | the head of a sorted list precedes every other element |
| `EarningsChart.InsertSorted` | components/charts/earnings-historical-chart.tsx:132-137 | insertion keeps a list sorted by date |
| `EarningsChart.SortByDate` | components/charts/earnings-historical-chart.tsx:132-137 | the sort by date string is ascending and a permutation of its input |
| `EarningsChart.WithDateSwap` | components/charts/earnings-historical-chart.tsx:132-137 | records of different dates do not affect each other's relative order |
| `EarningsChart.InsertKeepsOrderOfEqualDates` | components/charts/earnings-historical-chart.tsx:132-137 | insertion places a record after none of its equal-dated predecessors |
| `EarningsChart.SortIsStable` | components/charts/earnings-historical-chart.tsx:132-137 | records with equal dates keep their input order, as the stable `Array.prototype.sort` does |
| `EarningsChart.ToRow` | components/charts/earnings-historical-chart.tsx:138-146 | a row copies symbol, date and both EPS values, and its expectation is the classification of its own values |
| `EarningsChart.EarningsData` | components/charts/earnings-historical-chart.tsx:127-148 | one row per filtered and sorted record, in that order |
| `EarningsChart.ChartRecords` | components/charts/earnings-historical-chart.tsx:128-137 | sorted by date; nothing for missing earnings; otherwise each record with some EPS value as often as in the input, and no other record |
| `EarningsChart.EarningsDataSpec` | components/charts/earnings-historical-chart.tsx:127-148 | the rows are sorted by date and come from exactly the records with some EPS value, with their multiplicities |
| `EarningsChart.NoRowsIff` | components/charts/earnings-historical-chart.tsx:128-131 | there are no rows iff the earnings are missing or no record has an EPS value |
| `EarningsChart.TickLabel` | components/charts/earnings-historical-chart.tsx:227-231 | "Beat", "Missed" or "-" according to the row's expectation, each iff |
| `EarningsChart.TickFill` | components/charts/earnings-historical-chart.tsx:217-223 | jade, ruby or gray according to the row's expectation, each iff |
| `EarningsChart.TickLabelsFollowRows` | components/charts/earnings-historical-chart.tsx:198-232 | the tick under row i names the classification of that row's own record |
| `EarningsChart.ActualDot` | components/charts/earnings-historical-chart.tsx:267-283 | no dot without coordinates or without an actual value; beat colours only for a beat, missed colours for everything else |
| `EarningsChart.EarningsChartView` | components/charts/earnings-historical-chart.tsx:150-152 | the placeholder iff there are no rows; otherwise the chart draws exactly the rows |
| `PricesChart.ReversedIndex` | components/charts/historical-prices-chart.tsx:58 | `toReversed` keeps the length and puts element i at position length−1−i |
| `PricesChart.ChartData` | components/charts/historical-prices-chart.tsx:56-65 | empty for a missing series; otherwise the same length, reversed, with date and price copied |
| `PricesChart.MonthKey` | components/charts/historical-prices-chart.tsx:75 | `slice(0, 7)`: the first seven characters, or the whole date when shorter |
| `PricesChart.DatesOf` | components/charts/historical-prices-chart.tsx:74-79 | the dates of the chart points in order |
| `PricesChart.Months` | components/charts/historical-prices-chart.tsx:72-80 | never more months than dates |
| `PricesChart.DatesInMonth` | components/charts/historical-prices-chart.tsx:76-79 | a month's array holds only dates of the series in that month |
| `PricesChart.MonthsHaveDates` | components/charts/historical-prices-chart.tsx:76-79 | every month key has at least one date |
| `PricesChart.NoDatesOutsideMonths` | components/charts/historical-prices-chart.tsx:76-79 | a key that is not a month of the series has no dates |
| `PricesChart.ExtendMonths` | components/charts/historical-prices-chart.tsx:74-80 | reading one more date adds its month at the end if new and appends the date to its month's array |
| `PricesChart.MonthTicks` | components/charts/historical-prices-chart.tsx:83-89 | one tick per month |
| `PricesChart.GroupsAppendSeen` | components/charts/historical-prices-chart.tsx:79 | a date of a month already in the map goes to the end of that month's array, and the keys stay as they are |
| `PricesChart.GroupsAppendNew` | components/charts/historical-prices-chart.tsx:76-79 | a date of a new month adds that month's key at the end, with an array holding just that date |
| `PricesChart.GroupsAppend` | components/charts/historical-prices-chart.tsx:75-79 | reading one more date keeps the map's keys and arrays equal to the months and month dates of what has been read |
| `PricesChart.GroupsStep` | components/charts/historical-prices-chart.tsx:74-80 | one step of the grouping loop keeps the map's keys and arrays in step with the dates read |
| `PricesChart.GroupByMonth` | components/charts/historical-prices-chart.tsx:72-80 | the grouping loop ends with the months as keys, in order of first appearance, each holding that month's dates in series order |
| `PricesChart.MiddleDates` | components/charts/historical-prices-chart.tsx:83-89 | one tick per key, in key order: the middle element of that key's array |
| `PricesChart.TicksFromGroups` | components/charts/historical-prices-chart.tsx:83-89 | reading the map in key order gives the middle date of each month |
| `PricesChart.MonthlyTicks` | components/charts/historical-prices-chart.tsx:68-90 | the two loops compute exactly the specified ticks |
| `PricesChart.TickCount` | components/charts/historical-prices-chart.tsx:69-89 | never more ticks than points, and no ticks for no points |
| `PricesChart.TicksInTheirMonth` | components/charts/historical-prices-chart.tsx:85-86 | tick i is element ⌊n/2⌋ of its month's dates, a date of the series, in that month |
| `PricesChart.MonthsAreTheDistinctKeys` | components/charts/historical-prices-chart.tsx:72-80 | the tick months are pairwise distinct and are exactly the month keys of the series |
| `PricesChart.FirstIndexStable` | components/charts/historical-prices-chart.tsx:74-80 | appending a date does not move the first position of a month already present |
| `PricesChart.MonthsInFirstAppearanceOrder` | components/charts/historical-prices-chart.tsx:72-87 | the months come in the order of their first appearance in the series, as `Map` iteration gives them |
| `PricesChart.PriceLineColor` | components/charts/historical-prices-chart.tsx:92-95 | ruby iff the first price is at least the last, a missing end counting as 0 |
| `PricesChart.LineColorOfSeries` | components/charts/historical-prices-chart.tsx:56-95 | for a non-empty series the line is jade iff the newest price exceeds the oldest |
| `PricesChart.PreviousClose` | components/charts/historical-prices-chart.tsx:54 | 0 without an intraday quote, its previous close otherwise |
| `PricesChart.PricesChartView` | components/charts/historical-prices-chart.tsx:146-150 | the placeholder iff the quote is missing or the series is missing or empty; otherwise the chart of the reversed series |
| `FmpClient.ResolveApiKey` | lib/fmp-client.ts:12-22 | a usable key iff the argument is a non-empty key, or there is no argument and the environment's key is non-empty; the argument wins; otherwise the fixed message |
| `FmpClient.ParamString` | lib/fmp-client.ts:33 | `String(value)`: a string unchanged; a number as decimal digits that read back as it, after a `-` when it is negative |
| `FmpClient.Without` | lib/fmp-client.ts:33 | drops every pair with that name and changes nothing when there is none |
| `FmpClient.WithoutKeepsOthers` | lib/fmp-client.ts:33 | dropping one name leaves every other name's pairs |
| `FmpClient.SetParam` | lib/fmp-client.ts:33-38 | `searchParams.set`: afterwards the name occurs once with the new value, other pairs are unchanged, and a new name is appended |
| `FmpClient.SetParamKeepsOthers` | lib/fmp-client.ts:33-38 | setting one name leaves the value and count of every other name |
| `FmpClient.ApplyParams` | lib/fmp-client.ts:30-36 | after the `forEach` no name occurs more than once in the query |
| `FmpClient.ApplyParamsSpec` | lib/fmp-client.ts:30-36 | undefined entries are dropped and each defined name occurs once, with its last entry's value |
| `FmpClient.LookupCountZero` | lib/fmp-client.ts:30-36 | a name without a value does not occur |
| `FmpClient.NormalizedBase` | lib/fmp-client.ts:26 | the base ends with `/`, which is added only when missing |
| `FmpClient.NormalizedPath` | lib/fmp-client.ts:27 | exactly one leading `/` is removed when present |
| `FmpClient.ErrorMessage` | lib/fmp-client.ts:56 | the message starts with `FMP API error (` and ends with the response body |
| `FmpClient.ErrorMessageRoundTrip` | lib/fmp-client.ts:56 | status and body can be read back out of `FMP API error (<status>): <body>` |
| `FmpClient.ErrorMessageInjective` | lib/fmp-client.ts:56 | different status or body gives a different message |
| `FmpClient.EffectiveTimeout` | lib/fmp-client.ts:51 | 20000 ms only when no timeout is given; a given one, 0 included, is kept |
| `FmpClient.Outcome` | lib/fmp-client.ts:54-61 | success iff the response is OK, with its body; otherwise the error message carrying status and body text |
| `FmpClient.Client.constructor` | lib/fmp-client.ts:11-17 | the client holds the key, the fixed base URL and the JSON content-type header |
| `FmpClient.Client.Create` | lib/fmp-client.ts:11-23 | construction fails with the missing-key message exactly when no usable key is found; otherwise the client holds the resolved key |
| `FmpClient.Client.BuildUrl` | lib/fmp-client.ts:25-41 | for a client with a key, the query holds that non-empty key under `apikey`; the location joins the normalised base and path; the query is the defined params set in order, then `apikey` set to the client's key |
| `FmpClient.Client.Fetch` | lib/fmp-client.ts:43-62 | the request carries the built URL, with the client's non-empty key, the client's headers and the timeout with its default; the outcome follows the response status |
| `FmpClient.ApiKeyAlwaysWins` | lib/fmp-client.ts:38 | whatever the params hold, `apikey` occurs once, with the client's key |
| `FmpClient.OtherParamsInQuery` | lib/fmp-client.ts:30-38 | every other name occurs at most once, with its last defined value |
| `FmpClient.DefaultLocation` | lib/fmp-client.ts:13-28 | with the default base, base and path are joined by exactly one slash when the path has at most one |
| `MessagesView.ToolOf` | components/messages.tsx:23-91 | each of the four tool part types is recognised, each iff |
| `MessagesView.LoadingStatus` | components/messages.tsx:27-95 | each tool's loading status starts with `Getting ` and ends with `...` |
| `MessagesView.ErrorLead` | components/messages.tsx:41-106 | each tool's error lead starts with `Error getting ` and ends with `: ` |
| `MessagesView.RenderToolPart` | components/messages.tsx:24-46 | a tool part renders something iff its state is one of the four known ones |
| `MessagesView.RenderPart` | components/messages.tsx:20-113 | a text part renders its text unchanged; an unknown type renders nothing |
| `MessagesView.InputStatesShowLoading` | components/messages.tsx:25-95 | both input states of a tool render the same loading status |
| `MessagesView.ToolLoadingShowsThinking` | components/messages.tsx:24-27 | a tool part in an input state renders a status line whose `Getting ...` status is not shown: the line reads "Thinking..." |
| `MessagesView.ErrorShowsErrorText` | components/messages.tsx:38-107 | an error renders the tool's fixed lead followed by the error text verbatim, "Error getting weather: " for the company profile |
| `MessagesView.OutputGoesToItsView` | components/messages.tsx:28-101 | a finished call passes its output to its own view: JSON dump, earnings chart, rating chart, price chart |
| `MessagesView.RendersSomethingIff` | components/messages.tsx:20-113 | something renders iff the part is text or one of the four tools in one of its four states |
| `MessagesView.RenderParts` | components/messages.tsx:19 | one rendering per part, in part order |
| `MessagesView.RenderMessage` | components/messages.tsx:17-19 | the element carries the message's id and role and its parts' renderings |
| `MessagesView.RenderMessages` | components/messages.tsx:15-16 | one element per message, in order |
| `ChatPage.SuggestionsOf` | app/page.tsx:134-149 | the list maps iff no item is null; then one card per item, in order, with its title and description |
| `ChatPage.RenderPagePart` | app/page.tsx:63-163 | something renders iff the part is text, or a weather or what-to-wear part in one of the four known states |
| `ChatPage.WeatherCase` | app/page.tsx:66-106 | the weather case returns iff the state is one of the four known ones |
| `ChatPage.WhatToWearCase` | app/page.tsx:108-160 | the what-to-wear case returns iff the state is one of the four known ones |
| `ChatPage.WeatherFallThrough` | app/page.tsx:66-163 | a weather part renders iff its state is known, and then as the weather case; otherwise it falls through both cases to nothing |
| `ChatPage.PagePartKinds` | app/page.tsx:63-163 | a text part renders its text; any other type but the two tools renders nothing |
| `ChatPage.PageToolStates` | app/page.tsx:68-159 | both tools show their loading line in both input states and their fixed lead with the error text on error |
| `ChatPage.SuggestionCards` | app/page.tsx:120-153 | a what-to-wear output renders one card per suggestion, in order |
| `ChatPage.PageLayout` | app/page.tsx:37-59 | the intro shows iff there are no message rows; one row per message, with its id and, part by part, the rendering `RenderPagePart` gives; the avatar reads "Me" iff the message is the user's and "AI" otherwise |
| `ChatPage.ChatForm.constructor` | app/page.tsx:30 | the input starts empty and nothing has been sent |
| `ChatPage.ChatForm.Change` | app/page.tsx:191 | the input becomes the typed value and nothing is sent |
| `ChatPage.ChatForm.Submit` | app/page.tsx:176-182 | input with non-whitespace content is sent untrimmed and cleared; whitespace-only input changes nothing |
| `ChatPage.ChatForm.PressSend` | app/page.tsx:175-200 | while streaming the disabled button changes nothing; otherwise, submitted included, it sends non-whitespace input and clears it |
| `DotLoader.FramesAreBlocks` | components/ui/dot-loader.tsx:6-23 | 12 frames, each the 2×2 block its comment names (row × 5 + col), inside the 25-dot grid |
| `DotLoader.Applied` | components/ui/dot-loader.tsx:44-54 | the same number of dots |
| `DotLoader.AppliedFrame` | components/ui/dot-loader.tsx:44-54 | a frame activates exactly its four distinct in-grid dots and deactivates all others |
| `DotLoader.ApplyFrameToDots` | components/ui/dot-loader.tsx:44-54 | the dots array ends as the frame's pattern, or unchanged when the frame index has no frame |
| `DotLoader.Step` | components/ui/dot-loader.tsx:68-78 | the index advances modulo 12; the repeat count rises exactly on the last frame; a cleared interval does not tick |
| `DotLoader.Run` | components/ui/dot-loader.tsx:68-78 | every reachable state keeps the index in range |
| `DotLoader.DefaultNeverStops` | components/ui/dot-loader.tsx:34-71 | with repeat count −1, after n ticks the index is n mod 12, the repeats are n div 12, and it never stops or completes |
| `DotLoader.RunBeforeStop` | components/ui/dot-loader.tsx:68-78 | before the stopping tick the loader cycles through the frames and counts rounds |
| `DotLoader.StopsAfterRounds` | components/ui/dot-loader.tsx:70-75 | with repeat count k ≠ −1 the interval is cleared iff 12·max(k, 1) ticks have passed, and `onComplete` runs exactly once then |
| `DotLoader.Loader.constructor` | components/ui/dot-loader.tsx:39-64 | both refs start at 0 and the interval runs |
| `DotLoader.Loader.Tick` | components/ui/dot-loader.tsx:68-78 | one interval callback moves the refs as `Step` says and applies the current frame to the dots |
| `PromptInput.PromptBox.constructor` | components/prompt-input.tsx:28 | the prompt starts empty |
| `PromptInput.PromptBox.Change` | components/prompt-input.tsx:91 | the prompt becomes the typed value and nothing is submitted |
| `PromptInput.PromptBox.SubmitIfContent` | components/prompt-input.tsx:32-35 | non-whitespace content is submitted untrimmed and cleared; otherwise nothing changes |
| `PromptInput.PromptBox.HandleSubmit` | components/prompt-input.tsx:30-36 | the form submit submits exactly non-whitespace prompts, clearing them |
| `PromptInput.PromptBox.HandleKeyDown` | components/prompt-input.tsx:38-46 | Enter without Shift submits a non-whitespace prompt whatever the status; any other key changes nothing |
| `PromptInput.PromptBox.PressAction` | components/prompt-input.tsx:95-103 | while submitted or streaming the button calls `onStop` once and submits nothing; otherwise it submits like the form |
| `PromptInput.PlaceholderHidden` | components/prompt-input.tsx:86 | the placeholder is hidden iff the prompt is not empty |
| `PromptInput.WhitespaceHidesPlaceholderWithoutSubmitting` | components/prompt-input.tsx:32-86 | a whitespace-only prompt hides the placeholder but cannot be submitted |
| `Conversation.WidthFor` | components/conversation.tsx:154-157 | `w-3` iff assistant, `w-2` iff user |
| `Conversation.Timeline` | components/conversation.tsx:128-157 | no timeline iff fewer than 4 messages; otherwise as many bars as non-system messages |
| `Conversation.TimelineBars` | components/conversation.tsx:128-157 | no timeline iff fewer than 4 messages; otherwise one bar per non-system message, in order, keyed by id, with its role's width |
| `Conversation.NoBarsForSystemOnly` | components/conversation.tsx:140-141 | system messages get no bars |
| `Conversation.SystemMessagesCountForThreshold` | components/conversation.tsx:128-141 | four system messages pass the threshold yet give an empty timeline |
| `Conversation.StatusTextIsConstant` | components/conversation.tsx:104-114 | whatever status string is passed, the status line says "Thinking...", so no two statuses can be told apart |
| `Conversation.StatusLoaderNeverStops` | components/conversation.tsx:108 | the status line's loader, with the default repeat count, never stops |
| `UseLoop.CurrentItem` | components/hooks/use-loop.ts:10-12 | no item iff the array is empty; otherwise an element of the array |
| `UseLoop.CurrentItemPeriodic` | components/hooks/use-loop.ts:11 | the shown item repeats with the array's length as period |
| `UseLoop.FirstRound` | components/hooks/use-loop.ts:4-11 | during the first round key k shows item k, starting with the first |
| `UseLoop.Loop.constructor` | components/hooks/use-loop.ts:3-4 | the key starts at 0 and the delay defaults to 3000 ms |
| `UseLoop.Loop.IncrementKey` | components/hooks/use-loop.ts:6-8 | each tick raises the key by exactly one |
| `UseLoop.Loop.Shown` | components/hooks/use-loop.ts:10-12 | no item iff the array is empty; otherwise one of the array's items |
| `Utils.Pluralize` | lib/utils.ts:44-62 | the count text or nothing, a space, then the singular iff `Number(count) === 1` and the plural otherwise |
| `Utils.StringToNumber` | lib/utils.ts:49 | `Number` of a string that is empty or all white space is 0 |
| `Utils.NumberOf` | lib/utils.ts:49 | a number count converts to exactly its own value; a blank string count is 0 |
| `Utils.CountLeftOutLeavesSpace` | lib/utils.ts:54-61 | without the count the result is a space followed by the chosen word |
| `Utils.NumberCountSingularIff` | lib/utils.ts:49-57 | a number count is singular iff it is 1 |
| `Utils.StringToNumberOfDigits` | lib/utils.ts:49 | `Number` of a decimal digit string is its decimal value |
| `Utils.DigitStringSingularIff` | lib/utils.ts:49-57 | a digit string is singular iff its value is 1, leading zeros included |
| `Utils.NegativeDigits` | lib/utils.ts:49 | `Number` of a `-` followed by decimal digits is minus their value |
| `Utils.CountTextReadsBack` | lib/utils.ts:49-58 | the text a number count is shown as converts back to the same number, negative counts included |
| `Utils.OneIsSingular` | lib/utils.ts:49-57 | the number 1 and the string "1" both select the singular |
| `Utils.EmptyCountIsPlural` | lib/utils.ts:49-61 | the empty string converts to 0 and takes the plural |

## Left out

- Strings are sequences of code points. JavaScript's `length` and `slice` count UTF-16 code units, so `truncateText` on text outside the Basic Multilingual Plane can cut in a different place. String `<` is compared on characters, not on UTF-16 units.
- JsStrings.ToUpperAscii: only ASCII letters are upper-cased, and every other character is kept. `toUpperCase` also maps non-ASCII letters, and some of them to more than one character.
- Utils.Pluralize: a number count is modelled as an integer. `Number` of a string is modelled exactly on rationals, so float rounding is not captured. For example, a string of many nines that rounds to 1 is not captured. `${count}` of a number is written in decimal without the exponent form of large values.
- FmpClient.ParamString: parameter numbers are integers, so `String` of fractional or exponent-form numbers is not modelled.
- FmpClient.Client.BuildUrl: `new URL` is modelled as a textual join of the normalised base and path plus a list of name/value pairs. Dot segments, percent-encoding and serialisation of the query are not modelled. The params object's entries are taken in the order they are given, which is JavaScript's enumeration order. Three cases where `new URL` differs from the join are therefore not captured: a path starting with `//` after the one slash is removed, which replaces the host and drops `/stable`; an absolute URL given as the path, which replaces the base; and a `?` or `#` in the path, which starts the query or fragment and so seeds `searchParams`.
- FmpClient.Client.Fetch: the network call, the abort timer and `response.json()` are left out. The response is a parameter, and success yields its body text, not the parsed JSON.
- The Y-axis tick computation of the price chart is left out, because it is floating-point `log10`, rounding and padding.
- All date and number formatting is left out:
  - the quarter label and chart date labels;
  - the tooltips of both charts;
  - the currency and percentage formatters.

  These use date-fns and `Intl`.
- EarningsChart.GetExpectation: EPS values are exact reals, not IEEE doubles; only comparison and the zero test matter.
- EarningsChart.SortByDate: this is the stable sort, which is what `Array.prototype.sort` is required to be. The comparator's return value `-1 | 1` is modelled by the order it induces. Its `0` case for equal dates is modelled by stability.
- EarningsChart.EarningsChartView: the props are modelled as the component reads them. The earnings tool returns a bare array, and how that output is wired to the `earnings` prop is not part of this model.
- The scroll handlers of the message-scroll hook (components/hooks/use-message-scroll.ts:98-147), `scrollIntoView`, and the stick-to-bottom context are DOM side effects and are left out. `isAtBottom` is a parameter.
- MessageScroll.SelectLast: its index facts are stated only for timelines with unique, non-empty ids, which the chat library hands out.
- `setInterval` scheduling, `clearInterval` and effect re-runs are left out. One interval callback is `DotLoader.Loader.Tick` and one `setKey` is `UseLoop.Loop.IncrementKey`. The dot loader's interval effect may also re-run when its dependencies change; that is not modelled.
- Both scroll-to-bottom buttons (components/conversation.tsx:82 and components/prompt-input.tsx:63) show on `!isAtBottom`, which the stick-to-bottom context computes from the DOM. That context is left out, and so are the two buttons.
- DotLoader.ApplyFrameToDots: `dataset.active = "true" | "false"` is modelled as a boolean per dot.
- The JSON rendering (`JSON.stringify`), the analyst rating chart, the company-profile tool card and all styling are left out. Tool outputs are passed on as JSON values.
- ChatPage.WeatherCase: the output's `location` and `temperature` fields are read and carried as JSON values into the weather card. The "Location: ", "Temperature: " and "°F" text around them is not modelled.
- The `useChat` hook, `sendMessage`, `stop`, the chat route and the tools live in the AI SDK or on the server, not in these files. `ChatPage.ChatForm` and `PromptInput.PromptBox` record what they hand to `sendMessage` and `onSubmit`.
