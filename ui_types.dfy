/**
 * The chat values every component reads: messages with a role and an
 * ordered list of parts, the chat status, and the JSON values tools return.
 */
module UiTypes {
  import opened Wrappers

  /** A JSON value, as a tool's `output` carries it. Object fields are looked up by name. */
  datatype Json =
    | JNull
    | JBool(b: bool)
    | JNum(n: int)
    | JStr(s: string)
    | JArr(items: seq<Json>)
    | JObj(fields: map<string, Json>)

  /** `value.name` on a JSON value: `None` stands for `undefined`. */
  function Field(value: Json, name: string): Option<Json> {
    if value.JObj? && name in value.fields then Some(value.fields[name]) else None
  }

  datatype Role = User | Assistant | System

  /** The tool input, as far as it is read: every tool's input schema has a string `symbol`, absent while the input is still streaming. */
  datatype ToolInput = ToolInput(symbol: Option<string>)

  /**
   * One part of a message. `kind` is the part's `type` discriminant
   * (`"text"`, `"tool-<name>"`, or any other string the chat library adds);
   * fields a kind does not carry are `None`, `JNull` or empty.
   */
  datatype Part = Part(
    kind: string,
    text: Option<string>,
    state: string,
    input: Option<ToolInput>,
    output: Json,
    errorText: string)

  datatype Message = Message(id: string, role: Role, parts: seq<Part>)

  /** The status the chat hook reports. */
  datatype ChatStatus = Submitted | Streaming | Ready | Error

  /** `messages.filter((m) => m.role !== "system")`. */
  function NonSystem(ms: seq<Message>): (r: seq<Message>)
    ensures |r| <= |ms|
    ensures forall i :: 0 <= i < |r| ==> r[i].role != System
    ensures forall m :: m in r <==> m in ms && m.role != System
  {
    if ms == [] then []
    else if ms[0].role == System then NonSystem(ms[1..])
    else [ms[0]] + NonSystem(ms[1..])
  }

  /** The filter keeps the order: filtering a concatenation filters each half. */
  lemma {:induction false} NonSystemAppend(a: seq<Message>, b: seq<Message>)
    ensures NonSystem(a + b) == NonSystem(a) + NonSystem(b)
  {
    if a != [] {
      assert (a + b)[0] == a[0] && (a + b)[1..] == a[1..] + b;
      NonSystemAppend(a[1..], b);
      if a[0].role != System {
        assert [a[0]] + (NonSystem(a[1..]) + NonSystem(b)) == ([a[0]] + NonSystem(a[1..])) + NonSystem(b);
      }
    } else {
      assert a + b == b;
    }
  }

  /** A list without system messages passes the filter unchanged. */
  lemma {:induction false} NonSystemIdentity(ms: seq<Message>)
    requires forall i :: 0 <= i < |ms| ==> ms[i].role != System
    ensures NonSystem(ms) == ms
  {
    if ms != [] {
      NonSystemIdentity(ms[1..]);
    }
  }
}
