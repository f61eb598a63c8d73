/**
 * The conversation frame: the timeline of bars on its right edge and the
 * status line shown while the assistant works.
 */
module Conversation {
  import opened Wrappers
  import opened UiTypes
  import DotLoader

  /** The width class of a timeline bar. */
  datatype BarWidth = W3 | W2 | NoWidth

  datatype Bar = Bar(id: string, width: BarWidth)

  /** `w-3` for assistant messages, `w-2` for user messages. */
  function WidthFor(role: Role): (w: BarWidth)
    ensures w == W3 <==> role == Assistant
    ensures w == W2 <==> role == User
  {
    if role == Assistant then W3 else if role == User then W2 else NoWidth
  }

  /** Fewer than this many messages, system ones included, and the timeline is not rendered. */
  const TimelineThreshold: nat := 4

  /** `ConversationTimeline`: nothing for a short conversation, otherwise one bar per non-system message. */
  function Timeline(messages: seq<Message>): (r: Option<seq<Bar>>)
    ensures r.None? <==> |messages| < TimelineThreshold
    ensures r.Some? ==> |r.value| == |NonSystem(messages)|
  {
    if |messages| < TimelineThreshold then None
    else
      var shown := NonSystem(messages);
      Some(seq(|shown|, i requires 0 <= i < |shown| => Bar(shown[i].id, WidthFor(shown[i].role))))
  }

  /** The timeline: absent below the threshold, otherwise keyed by the ids of the non-system messages in order. */
  lemma TimelineBars(messages: seq<Message>)
    ensures Timeline(messages).None? <==> |messages| < TimelineThreshold
    ensures Timeline(messages).Some? ==>
      var bars := Timeline(messages).value;
      var shown := NonSystem(messages);
      |bars| == |shown|
      && (forall i :: 0 <= i < |bars| ==> bars[i].id == shown[i].id)
      && (forall i :: 0 <= i < |bars| ==> bars[i].width != NoWidth)
      && (forall i :: 0 <= i < |bars| ==> (bars[i].width == W3 <==> shown[i].role == Assistant))
  {
  }

  lemma {:induction false} NoBarsForSystemOnly(messages: seq<Message>)
    requires forall i :: 0 <= i < |messages| ==> messages[i].role == System
    ensures NonSystem(messages) == []
  {
    if messages != [] {
      NoBarsForSystemOnly(messages[1..]);
    }
  }

  /** System messages count towards the threshold even though they get no bar. */
  lemma SystemMessagesCountForThreshold(messages: seq<Message>)
    requires |messages| >= TimelineThreshold
    requires forall i :: 0 <= i < |messages| ==> messages[i].role == System
    ensures Timeline(messages) == Some([])
  {
    NoBarsForSystemOnly(messages);
    assert Timeline(messages).value == [];
  }

  /** The text `ConversationStatus` shows for its `status` prop: the prop is not read. */
  function StatusText(status: string): (text: string) {
    "Thinking..."
  }

  /** Whatever status string a caller passes, the line reads "Thinking...", so two different statuses look the same. */
  lemma StatusTextIsConstant(a: string, b: string)
    ensures StatusText(a) == StatusText(b) == "Thinking..."
  {
  }

  /** The status line's dot loader uses the default repeat count. */
  const StatusLoaderRepeatCount: int := -1

  /** So the loader next to "Thinking..." never stops by itself. */
  lemma StatusLoaderNeverStops(n: nat)
    ensures !DotLoader.Run(StatusLoaderRepeatCount, n).cleared
  {
    DotLoader.DefaultNeverStops(n);
  }
}
