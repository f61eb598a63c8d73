/**
 * The timeline of a conversation: a one-line label per message, and a
 * cursor over the non-system messages that the up and down buttons move.
 */
module MessageScroll {
  import opened Wrappers
  import opened JsStrings
  import opened JsArrays
  import opened UiTypes

  const MaxLabelLength: nat := 60

  /** Drops the newlines a string starts with: what is dropped is all newlines, what is kept is a suffix that does not start with one. */
  function SkipNewlines(s: string): (r: string)
    ensures |r| <= |s| && r == s[|s| - |r|..]
    ensures forall i :: 0 <= i < |s| - |r| ==> s[i] == '\n'
    ensures s != [] && s[0] == '\n' ==> |r| < |s|
    ensures r != [] ==> r[0] != '\n'
    ensures '\n' !in s ==> r == s
  {
    if s != [] && s[0] == '\n' then SkipNewlines(s[1..]) else s
  }

  /** `k` newlines. */
  function NewlineRun(k: nat): (r: string)
    ensures |r| == k && forall i :: 0 <= i < k ==> r[i] == '\n'
  {
    seq(k, i => '\n')
  }

  lemma {:induction false} SkipNewlinesRun(k: nat, b: string)
    requires b == [] || b[0] != '\n'
    ensures SkipNewlines(NewlineRun(k) + b) == b
  {
    if k > 0 {
      assert (NewlineRun(k) + b)[1..] == NewlineRun(k - 1) + b;
      SkipNewlinesRun(k - 1, b);
    } else {
      assert NewlineRun(k) + b == b;
    }
  }

  /** `text.replace(/\n+/g, " ")`: every run of newlines becomes one space. */
  function CollapseNewlines(s: string): (r: string)
    ensures '\n' !in r
    ensures '\n' !in s ==> r == s
    ensures |r| <= |s|
    decreases |s|
  {
    if s == [] then []
    else if s[0] == '\n' then " " + CollapseNewlines(SkipNewlines(s))
    else [s[0]] + CollapseNewlines(s[1..])
  }

  /** A run of one or more newlines in front of anything but a newline becomes exactly one space. */
  lemma CollapseNewlinesRun(k: nat, b: string)
    requires k >= 1 && (b == [] || b[0] != '\n')
    ensures CollapseNewlines(NewlineRun(k) + b) == " " + CollapseNewlines(b)
  {
    SkipNewlinesRun(k, b);
  }

  /** Text without a newline is copied as it is, whatever follows it. */
  lemma {:induction false} CollapseNewlinesAppend(a: string, b: string)
    requires '\n' !in a
    ensures CollapseNewlines(a + b) == a + CollapseNewlines(b)
  {
    if a == [] {
      assert a + b == b;
    } else {
      assert a[0] in a;
      assert a + b == [a[0]] + (a[1..] + b);
      assert '\n' !in a[1..] by {
        forall i | 0 <= i < |a| - 1 ensures a[1..][i] != '\n' { assert a[1..][i] == a[i + 1]; }
      }
      CollapseNewlinesAppend(a[1..], b);
      CollapseNewlinesCons(a[0], a[1..] + b);
      var tail := CollapseNewlines(b);
      assert [a[0]] + (a[1..] + tail) == ([a[0]] + a[1..]) + tail;
      assert [a[0]] + a[1..] == a;
    }
  }

  lemma CollapseNewlinesCons(c: char, t: string)
    requires c != '\n'
    ensures CollapseNewlines([c] + t) == [c] + CollapseNewlines(t)
  {
    assert ([c] + t)[1..] == t;
  }

  /** The string without its spaces and newlines. */
  function Blankless(s: string): string {
    if s == [] then [] else (if s[0] == ' ' || s[0] == '\n' then [] else [s[0]]) + Blankless(s[1..])
  }

  /** Collapsing trades newlines for spaces and keeps every other character, in order. */
  lemma {:induction false} CollapseNewlinesKeepsText(s: string)
    ensures Blankless(CollapseNewlines(s)) == Blankless(s)
    decreases |s|
  {
    if s != [] {
      CollapseNewlinesKeepsText(s[1..]);
      var c := CollapseNewlines(s[1..]);
      if s[0] == '\n' {
        if |s| >= 2 && s[1] == '\n' {
          CollapseNewlinesDouble(s);
        } else {
          CollapseNewlinesSingle(s);
          assert (" " + c)[1..] == c;
        }
      } else {
        assert s == [s[0]] + s[1..];
        CollapseNewlinesCons(s[0], s[1..]);
        assert ([s[0]] + c)[1..] == c;
      }
    }
  }

  lemma CollapseNewlinesDouble(s: string)
    requires |s| >= 2 && s[0] == '\n' && s[1] == '\n'
    ensures CollapseNewlines(s) == CollapseNewlines(s[1..])
  {
    assert SkipNewlines(s) == SkipNewlines(s[1..]);
  }

  lemma CollapseNewlinesSingle(s: string)
    requires s != [] && s[0] == '\n' && (|s| == 1 || s[1] != '\n')
    ensures CollapseNewlines(s) == " " + CollapseNewlines(s[1..])
  {
    assert SkipNewlines(s) == s[1..];
  }

  /** The message text on one line, without surrounding white space. */
  function OneLiner(text: string): (r: string)
    ensures '\n' !in r
  {
    var c := CollapseNewlines(text);
    var r := Trim(c);
    assert forall i :: 0 <= i < |r| ==> r[i] == TrimStart(c)[i];
    r
  }

  /** Two lines, whatever number of newlines separates them, are joined by one space. */
  lemma OneLinerJoinsLines(a: string, k: nat, b: string)
    requires k >= 1 && '\n' !in a && '\n' !in b
    requires a != [] && !IsWhitespace(a[0]) && !IsWhitespace(a[|a| - 1])
    requires b != [] && !IsWhitespace(b[0]) && !IsWhitespace(b[|b| - 1])
    ensures OneLiner(a + NewlineRun(k) + b) == a + " " + b
  {
    var j := a + " " + b;
    CollapseJoinedLines(a, k, b);
    assert j[0] == a[0] && j[|j| - 1] == b[|b| - 1];
    TrimKeeps(j);
    OneLinerTrims(a + NewlineRun(k) + b);
  }

  lemma CollapseJoinedLines(a: string, k: nat, b: string)
    requires k >= 1 && '\n' !in a && '\n' !in b && (b == [] || b[0] != '\n')
    ensures CollapseNewlines(a + NewlineRun(k) + b) == a + " " + b
  {
    assert a + NewlineRun(k) + b == a + (NewlineRun(k) + b);
    CollapseNewlinesAppend(a, NewlineRun(k) + b);
    CollapseNewlinesRun(k, b);
    assert a + (" " + b) == a + " " + b;
  }

  lemma OneLinerTrims(text: string)
    ensures OneLiner(text) == Trim(CollapseNewlines(text))
  {
  }

  /**
   * `truncateText`: the one-line text when it fits in `maxLength`
   * characters, otherwise its first `maxLength` characters and an ellipsis.
   */
  function TruncateText(text: string, maxLength: nat): (r: string)
    ensures '\n' !in r
    ensures |r| <= maxLength + 3
    ensures |OneLiner(text)| <= maxLength ==> r == OneLiner(text)
    ensures |OneLiner(text)| > maxLength ==>
      |r| == maxLength + 3 && r[..maxLength] == OneLiner(text)[..maxLength] && EndsWith(r, "...")
  {
    var line := OneLiner(text);
    if |line| <= maxLength then line else line[..maxLength] + "..."
  }

  predicate IsToolPart(p: Part) {
    StartsWith(p.kind, "tool-")
  }

  predicate IsTextPart(p: Part) {
    p.kind == "text"
  }

  datatype ToolCallInfo = ToolCallInfo(toolName: string, symbol: Option<string>)

  /** The `symbol` field of a part's input, when the part has an input carrying one. */
  function InputSymbol(p: Part): Option<string> {
    match p.input
    case Some(input) => input.symbol
    case None => None
  }

  /** `getToolCallInfo`: the first tool part, with the `tool-` prefix stripped from its type. */
  function GetToolCallInfo(parts: seq<Part>): (r: Option<ToolCallInfo>)
    ensures r.None? <==> forall j :: 0 <= j < |parts| ==> !IsToolPart(parts[j])
    ensures r.Some? ==>
      var k := FindIndex(parts, IsToolPart);
      0 <= k < |parts| && r.value.toolName == parts[k].kind[5..] && r.value.symbol == InputSymbol(parts[k])
  {
    var k := FindIndex(parts, IsToolPart);
    if k < 0 then None
    else
      var part := parts[k];
      ReplaceLeadingPrefix(part.kind, "tool-");
      Some(ToolCallInfo(ReplaceFirst(part.kind, "tool-", ""), InputSymbol(part)))
  }

  /** `getTextContent`: the text of the first text part, or the empty string. */
  function GetTextContent(parts: seq<Part>): (r: string)
    ensures (forall j :: 0 <= j < |parts| ==> !IsTextPart(parts[j])) ==> r == ""
    ensures forall k :: (0 <= k < |parts| && IsTextPart(parts[k]) && parts[k].text.Some? &&
      (forall j :: 0 <= j < k ==> !IsTextPart(parts[j]))) ==> r == parts[k].text.value
  {
    var k := FindIndex(parts, IsTextPart);
    if k >= 0 && parts[k].text.Some? then parts[k].text.value else ""
  }

  /** `s.replace(/([A-Z])/g, " $1")`: a space before every ASCII capital. */
  function SpaceBeforeCapitals(s: string): (r: string)
    ensures s != [] ==> r != [] && r[|r| - 1] == s[|s| - 1]
  {
    if s == [] then []
    else (if IsAsciiUpper(s[0]) then [' ', s[0]] else [s[0]]) + SpaceBeforeCapitals(s[1..])
  }

  /** The number of ASCII capitals in the string. */
  function CapitalCount(s: string): nat {
    if s == [] then 0 else (if IsAsciiUpper(s[0]) then 1 else 0) + CapitalCount(s[1..])
  }

  /** Every ASCII capital of the string has a space right before it. */
  predicate CapitalsPrefixed(r: string) {
    forall k :: 0 <= k < |r| && IsAsciiUpper(r[k]) ==> k > 0 && r[k - 1] == ' '
  }

  lemma CapitalsPrefixedAppend(a: string, b: string)
    requires CapitalsPrefixed(a) && CapitalsPrefixed(b)
    ensures CapitalsPrefixed(a + b)
  {
    var r := a + b;
    forall k | 0 <= k < |r| && IsAsciiUpper(r[k]) ensures k > 0 && r[k - 1] == ' ' {
      if k >= |a| {
        assert r[k] == b[k - |a|];
        assert r[k - 1] == b[k - 1 - |a|];
      }
    }
  }

  /** In the spaced name every capital has a space right before it. */
  lemma {:induction false} SpaceBeforeCapitalsPrefixes(s: string)
    ensures CapitalsPrefixed(SpaceBeforeCapitals(s))
  {
    if s != [] {
      var head := if IsAsciiUpper(s[0]) then [' ', s[0]] else [s[0]];
      SpaceBeforeCapitalsPrefixes(s[1..]);
      CapitalsPrefixedAppend(head, SpaceBeforeCapitals(s[1..]));
    }
  }

  /** Spacing the name adds exactly one character per capital. */
  lemma {:induction false} SpaceBeforeCapitalsLength(s: string)
    ensures |SpaceBeforeCapitals(s)| == |s| + CapitalCount(s)
  {
    if s != [] {
      SpaceBeforeCapitalsLength(s[1..]);
    }
  }

  /** Spacing the name adds nothing but spaces. */
  lemma {:induction false} SpaceBeforeCapitalsAddsSpaces(s: string)
    ensures Unspaced(SpaceBeforeCapitals(s)) == Unspaced(s)
  {
    if s != [] {
      var head := if IsAsciiUpper(s[0]) then [' ', s[0]] else [s[0]];
      SpaceBeforeCapitalsAddsSpaces(s[1..]);
      UnspacedAppend(head, SpaceBeforeCapitals(s[1..]));
      UnspacedAppend([s[0]], s[1..]);
      assert s == [s[0]] + s[1..];
    }
  }

  /** The string with its spaces removed. */
  function Unspaced(s: string): string {
    if s == [] then [] else (if s[0] == ' ' then [] else [s[0]]) + Unspaced(s[1..])
  }

  lemma {:induction false} UnspacedAppend(a: string, b: string)
    ensures Unspaced(a + b) == Unspaced(a) + Unspaced(b)
  {
    if a == [] {
      assert a + b == b;
    } else {
      assert (a + b)[0] == a[0] && (a + b)[1..] == a[1..] + b;
      UnspacedAppend(a[1..], b);
    }
  }

  /** `s.replace(/^./, (c) => c.toUpperCase())`: `.` matches any first character but a line terminator. */
  function CapitalizeFirst(s: string): (r: string)
    ensures s == [] || (|r| == |s| && r[1..] == s[1..])
    ensures s != [] && !IsLineTerminator(s[0]) ==> r[0] == UpperChar(s[0])
    ensures s != [] && IsLineTerminator(s[0]) ==> r == s
    ensures s == [] ==> r == []
  {
    if s != [] && !IsLineTerminator(s[0]) then [UpperChar(s[0])] + s[1..] else s
  }

  /**
   * `formatToolName`: the result neither starts nor ends with white space,
   * and a name of ASCII letters and digits becomes its first character
   * upper-cased followed by the rest with a space before each capital.
   */
  function FormatToolName(name: string): (r: string)
    ensures r != [] ==> !IsWhitespace(r[0]) && !IsWhitespace(r[|r| - 1])
    ensures name != [] && (forall i :: 0 <= i < |name| ==> IsAsciiAlphanumeric(name[i])) ==>
      r == [UpperChar(name[0])] + SpaceBeforeCapitals(name[1..])
  {
    AlphanumericFormat(name);
    Trim(CapitalizeFirst(SpaceBeforeCapitals(name)))
  }

  predicate IsAsciiAlphanumeric(c: char) {
    IsAsciiUpper(c) || IsAsciiLower(c) || IsDigit(c)
  }

  /**
   * For a name of ASCII letters and digits only the space the spacing puts
   * before a leading capital is trimmed: the rest is the first character
   * upper-cased followed by the spaced remainder.
   */
  lemma AlphanumericFormat(name: string)
    ensures name != [] && (forall i :: 0 <= i < |name| ==> IsAsciiAlphanumeric(name[i])) ==>
      Trim(CapitalizeFirst(SpaceBeforeCapitals(name))) == [UpperChar(name[0])] + SpaceBeforeCapitals(name[1..])
  {
    if name != [] && (forall i :: 0 <= i < |name| ==> IsAsciiAlphanumeric(name[i])) {
      var c := [UpperChar(name[0])] + SpaceBeforeCapitals(name[1..]);
      AlphanumericIsNotWhitespace(name[0]);
      AlphanumericIsNotWhitespace(name[|name| - 1]);
      AlphanumericEnds(name);
      if IsAsciiUpper(name[0]) {
        LeadingCapitalHead(name);
        TrimLeadingSpace(c);
      } else {
        LowerOrDigitHead(name);
        TrimKeeps(c);
      }
    }
  }

  /** The ends of the formatted name are the name's own first character, upper-cased, and its last character. */
  lemma AlphanumericEnds(name: string)
    requires name != [] && IsAsciiAlphanumeric(name[0]) && IsAsciiAlphanumeric(name[|name| - 1])
    ensures var c := [UpperChar(name[0])] + SpaceBeforeCapitals(name[1..]);
      !IsWhitespace(c[0]) && !IsWhitespace(c[|c| - 1])
  {
    var c := [UpperChar(name[0])] + SpaceBeforeCapitals(name[1..]);
    if |name| > 1 {
      assert c[|c| - 1] == name[|name| - 1];
    }
  }

  lemma LowerOrDigitHead(name: string)
    requires name != [] && !IsAsciiUpper(name[0])
    ensures CapitalizeFirst(SpaceBeforeCapitals(name)) == [UpperChar(name[0])] + SpaceBeforeCapitals(name[1..])
  {
    var rest := SpaceBeforeCapitals(name[1..]);
    assert SpaceBeforeCapitals(name) == [name[0]] + rest;
    if IsLineTerminator(name[0]) {
      assert UpperChar(name[0]) == name[0];
    } else {
      assert CapitalizeFirst([name[0]] + rest) == [UpperChar(name[0])] + rest;
    }
  }

  /** A leading capital gets a space, which the capitalisation leaves alone. */
  lemma LeadingCapitalHead(name: string)
    requires name != [] && IsAsciiUpper(name[0])
    ensures CapitalizeFirst(SpaceBeforeCapitals(name)) == " " + ([UpperChar(name[0])] + SpaceBeforeCapitals(name[1..]))
  {
    var rest := SpaceBeforeCapitals(name[1..]);
    var t := [' ', name[0]] + rest;
    assert SpaceBeforeCapitals(name) == t;
    assert t[0] == ' ' && UpperChar(' ') == ' ';
    assert [t[0]] + t[1..] == t;
    assert t == " " + ([name[0]] + rest);
  }

  lemma AlphanumericIsNotWhitespace(c: char)
    requires IsAsciiAlphanumeric(c)
    ensures !IsWhitespace(c)
  {
  }

  /** The label of a tool call: the formatted name, and the upper-cased symbol in brackets when there is one. */
  function ToolLabel(info: ToolCallInfo): (r: string)
    ensures var name := FormatToolName(info.toolName);
      |r| >= |name| && r[..|name|] == name
    ensures info.symbol.None? || info.symbol == Some("") ==> r == FormatToolName(info.toolName)
    ensures info.symbol.Some? && info.symbol.value != "" ==>
      var name := FormatToolName(info.toolName);
      |r| == |name| + |info.symbol.value| + 3 && r[|name|..|name| + 2] == " (" && r[|r| - 1] == ')'
      && r[|name| + 2..|r| - 1] == ToUpperAscii(info.symbol.value)
      && forall i :: |name| + 2 <= i < |r| - 1 ==> !IsAsciiLower(r[i])
  {
    var name := FormatToolName(info.toolName);
    if info.symbol.Some? && info.symbol.value != "" then
      var inner := ToUpperAscii(info.symbol.value);
      Bracketed(name, inner);
      name + " (" + inner + ")"
    else name
  }

  /** Where the pieces of `name (inner)` sit; an inner part without lower-case letters leaves none between the brackets. */
  lemma Bracketed(name: string, inner: string)
    requires forall i :: 0 <= i < |inner| ==> !IsAsciiLower(inner[i])
    ensures var s := name + " (" + inner + ")";
      |s| == |name| + |inner| + 3 && s[..|name|] == name && s[|name|..|name| + 2] == " (" && s[|s| - 1] == ')'
      && s[|name| + 2..|s| - 1] == inner
      && forall i :: |name| + 2 <= i < |s| - 1 ==> !IsAsciiLower(s[i])
  {
    var s := name + " (" + inner + ")";
    forall i | |name| + 2 <= i < |s| - 1
      ensures !IsAsciiLower(s[i])
    {
      assert s[i] == inner[i - |name| - 2];
    }
  }

  /** `getMessageLabel`. */
  function MessageLabel(m: Message): (r: string)
    ensures m.role == System ==> r == "Message"
    ensures m.role == User ==> '\n' !in r && |r| <= MaxLabelLength + 3
  {
    if m.role == User then
      var text := GetTextContent(m.parts);
      if text != "" then TruncateText(text, MaxLabelLength) else "User message"
    else if m.role == Assistant then
      match GetToolCallInfo(m.parts)
      case Some(info) => ToolLabel(info)
      case None =>
        var text := GetTextContent(m.parts);
        if text != "" then TruncateText(text, MaxLabelLength) else "Assistant message"
    else
      "Message"
  }

  /** An assistant message is labelled by its first tool part, whatever text parts it has. */
  lemma AssistantToolPrecedence(m: Message, k: nat)
    requires m.role == Assistant && k < |m.parts| && IsToolPart(m.parts[k])
    requires forall j :: 0 <= j < k ==> !IsToolPart(m.parts[j])
    ensures MessageLabel(m) == ToolLabel(ToolCallInfo(m.parts[k].kind[5..], InputSymbol(m.parts[k])))
  {
    FirstToolPart(m.parts, k);
  }

  lemma FirstToolPart(parts: seq<Part>, k: nat)
    requires k < |parts| && IsToolPart(parts[k])
    requires forall j :: 0 <= j < k ==> !IsToolPart(parts[j])
    ensures GetToolCallInfo(parts) == Some(ToolCallInfo(parts[k].kind[5..], InputSymbol(parts[k])))
  {
    var i := FindIndex(parts, IsToolPart);
    assert i == k;
  }

  /** The fixed labels used when a message has nothing to show. */
  lemma LabelFallbacks(m: Message)
    ensures m.role == User && GetTextContent(m.parts) == "" ==> MessageLabel(m) == "User message"
    ensures (m.role == Assistant && (forall j :: 0 <= j < |m.parts| ==> !IsToolPart(m.parts[j])) &&
      GetTextContent(m.parts) == "") ==> MessageLabel(m) == "Assistant message"
  {
  }

  /** A text label is the truncated one-line text of the first text part. */
  lemma TextLabel(m: Message, k: nat)
    requires m.role == User || (m.role == Assistant && forall j :: 0 <= j < |m.parts| ==> !IsToolPart(m.parts[j]))
    requires k < |m.parts| && IsTextPart(m.parts[k]) && m.parts[k].text.Some? && m.parts[k].text.value != ""
    requires forall j :: 0 <= j < k ==> !IsTextPart(m.parts[j])
    ensures MessageLabel(m) == TruncateText(m.parts[k].text.value, MaxLabelLength)
    ensures '\n' !in MessageLabel(m) && |MessageLabel(m)| <= MaxLabelLength + 3
  {
    var text := m.parts[k].text.value;
    assert GetTextContent(m.parts) == text;
    if m.role == Assistant {
      assert GetToolCallInfo(m.parts).None?;
    }
  }

  /** One entry of the timeline. */
  datatype TimelineEntry = TimelineEntry(id: string, role: Role, labelText: string)

  /** `.map(...)`: the entry of each message, in order. */
  function Entries(ms: seq<Message>): (t: seq<TimelineEntry>)
    ensures |t| == |ms|
  {
    if ms == [] then [] else [TimelineEntry(ms[0].id, ms[0].role, MessageLabel(ms[0]))] + Entries(ms[1..])
  }

  lemma {:induction false} EntriesIndex(ms: seq<Message>)
    ensures |Entries(ms)| == |ms|
    ensures forall i :: 0 <= i < |ms| ==> Entries(ms)[i] == TimelineEntry(ms[i].id, ms[i].role, MessageLabel(ms[i]))
  {
    if ms != [] {
      EntriesIndex(ms[1..]);
    }
  }

  /** `timelineMessages`: each non-system message mapped to its entry. */
  function TimelineMessages(ms: seq<Message>): (t: seq<TimelineEntry>) {
    Entries(NonSystem(ms))
  }

  /** The timeline has one entry per non-system message, in order, with its id, role and label. */
  lemma TimelineOfMessages(ms: seq<Message>)
    ensures |TimelineMessages(ms)| == |NonSystem(ms)|
    ensures forall i :: 0 <= i < |TimelineMessages(ms)| ==>
      var e := TimelineMessages(ms)[i];
      e.role != System && e.id == NonSystem(ms)[i].id && e.role == NonSystem(ms)[i].role &&
      e.labelText == MessageLabel(NonSystem(ms)[i])
  {
    EntriesIndex(NonSystem(ms));
  }

  /** Without system messages, the timeline has one entry per message, in the same order and with the same ids. */
  lemma TimelineWithoutSystem(ms: seq<Message>)
    requires forall i :: 0 <= i < |ms| ==> ms[i].role != System
    ensures |TimelineMessages(ms)| == |ms|
    ensures forall i :: 0 <= i < |ms| ==> TimelineMessages(ms)[i].id == ms[i].id
  {
    NonSystemIdentity(ms);
    TimelineOfMessages(ms);
  }

  /** Ids as the chat library hands them out: unique and not empty. */
  predicate WellFormedIds(t: seq<TimelineEntry>) {
    (forall i :: 0 <= i < |t| ==> t[i].id != "") &&
    (forall i, j :: 0 <= i < j < |t| ==> t[i].id != t[j].id)
  }

  function HasId(id: string): TimelineEntry -> bool {
    (e: TimelineEntry) => e.id == id
  }

  /** `currentIndex`: -1 for a missing or empty id (the source tests it for truthiness) and for an id not in the timeline. */
  function IndexOfCurrent(t: seq<TimelineEntry>, current: Option<string>): (r: int)
    ensures -1 <= r < |t|
    ensures r >= 0 ==> current.Some? && t[r].id == current.value
    ensures current.None? || current == Some("") ==> r == -1
    ensures current.Some? && current.value != "" ==>
      (r == -1 <==> forall i :: 0 <= i < |t| ==> t[i].id != current.value)
    ensures r >= 0 ==> forall j :: 0 <= j < r ==> t[j].id != current.value
  {
    match current
    case None => -1
    case Some(id) =>
      if id == "" then -1
      else
        HasIdMeans(t, id);
        FindIndex(t, HasId(id))
  }

  lemma HasIdMeans(t: seq<TimelineEntry>, id: string)
    ensures forall i :: 0 <= i < |t| ==> (HasId(id)(t[i]) <==> t[i].id == id)
  {
  }

  /** With well-formed ids, the index of the id at position `k` is `k`. */
  lemma IndexOfEntry(t: seq<TimelineEntry>, k: nat)
    requires WellFormedIds(t) && k < |t|
    ensures IndexOfCurrent(t, Some(t[k].id)) == k
  {
    var r := FindIndex(t, HasId(t[k].id));
    assert HasId(t[k].id)(t[k]);
  }

  /** Selecting the last entry of a timeline with well-formed ids: nothing below it, and something above it iff it is not alone. */
  lemma SelectLast(t: seq<TimelineEntry>)
    requires |t| > 0
    ensures var c := IndexOfCurrent(t, Some(t[|t| - 1].id));
      WellFormedIds(t) ==> c == |t| - 1 && !(c >= 0 && c < |t| - 1) && (c > 0 <==> |t| > 1)
  {
    if WellFormedIds(t) { IndexOfEntry(t, |t| - 1); }
  }

  /** The cursor of `useMessageScroll`: the timeline and the id of the current message. */
  class MessageCursor {
    var timeline: seq<TimelineEntry>
    var currentId: Option<string>

    /** `currentIndex`: the first position of the current id, or -1 when no entry has it. */
    function CurrentIndex(): (r: int)
      reads this
      ensures -1 <= r < |timeline|
      ensures r >= 0 ==> currentId == Some(timeline[r].id)
      ensures currentId.Some? && currentId.value != "" ==>
        (r == -1 <==> forall i :: 0 <= i < |timeline| ==> timeline[i].id != currentId.value)
    {
      IndexOfCurrent(timeline, currentId)
    }

    /** `canScrollUp`: the current message is in the timeline and not its first entry. */
    predicate CanScrollUp()
      reads this
      ensures CanScrollUp() ==> currentId.Some? && |timeline| >= 2 && timeline[0].id != currentId.value
    {
      CurrentIndex() > 0
    }

    /** `canScrollDown`: the current message is in the timeline and not its last entry. */
    predicate CanScrollDown()
      reads this
      ensures CanScrollDown() ==> currentId.Some? && |timeline| >= 2
    {
      CurrentIndex() >= 0 && CurrentIndex() < |timeline| - 1
    }

    /** The first render, followed by the effect that selects the last message. */
    constructor(messages: seq<Message>)
      ensures currentId == if |timeline| > 0 then Some(timeline[|timeline| - 1].id) else None
      ensures timeline == TimelineMessages(messages)
    {
      var t := TimelineMessages(messages);
      timeline := t;
      currentId := if |t| > 0 then Some(t[|t| - 1].id) else None;
    }

    /** A render with a new message list: when the timeline's length changed and it is not empty, the last message becomes current. */
    method Rerender(messages: seq<Message>)
      modifies this
      ensures timeline == TimelineMessages(messages)
      ensures |timeline| != |old(timeline)| && |timeline| > 0 ==> currentId == Some(timeline[|timeline| - 1].id)
      ensures |timeline| == |old(timeline)| || |timeline| == 0 ==> currentId == old(currentId)
    {
      Follow(TimelineMessages(messages));
    }

    /** Takes on a new timeline, moving to its last entry when the length changed and it is not empty. */
    method Follow(t: seq<TimelineEntry>)
      modifies this
      ensures timeline == t
      ensures |t| != |old(timeline)| && |t| > 0 ==> currentId == Some(t[|t| - 1].id)
      ensures |t| == |old(timeline)| || |t| == 0 ==> currentId == old(currentId)
    {
      if |t| != |timeline| && |t| > 0 {
        currentId := Some(t[|t| - 1].id);
      }
      timeline := t;
    }

    /** `scrollToMessage`: the given id becomes current. */
    method ScrollToMessage(id: string)
      modifies this
      ensures timeline == old(timeline) && currentId == Some(id)
    {
      currentId := Some(id);
    }

    /** `scrollUp`: nothing at index 0 or -1; otherwise the previous entry becomes current. */
    method ScrollUp()
      modifies this
      ensures timeline == old(timeline)
      ensures !old(CanScrollUp()) ==> currentId == old(currentId)
      ensures old(CanScrollUp()) ==> currentId == Some(timeline[old(CurrentIndex()) - 1].id)
      ensures WellFormedIds(timeline) && old(CanScrollUp()) ==> CurrentIndex() == old(CurrentIndex()) - 1
    {
      var index := CurrentIndex();
      if index <= 0 {
        return;
      }
      currentId := Some(timeline[index - 1].id);
      if WellFormedIds(timeline) { IndexOfEntry(timeline, index - 1); }
    }

    /** `scrollDown`: nothing at -1 or at the last index; otherwise the next entry becomes current. */
    method ScrollDown()
      modifies this
      ensures timeline == old(timeline)
      ensures !old(CanScrollDown()) ==> currentId == old(currentId)
      ensures old(CanScrollDown()) ==> currentId == Some(timeline[old(CurrentIndex()) + 1].id)
      ensures WellFormedIds(timeline) && old(CanScrollDown()) ==> CurrentIndex() == old(CurrentIndex()) + 1
    {
      var index := CurrentIndex();
      if index < 0 || index >= |timeline| - 1 {
        return;
      }
      currentId := Some(timeline[index + 1].id);
      if WellFormedIds(timeline) { IndexOfEntry(timeline, index + 1); }
    }
  }
}
