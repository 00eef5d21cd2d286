/** The two request converters between Anthropic Messages and OpenAI Chat. JSON is typed:
    a value is what it decodes to. */
module Requests {
  import opened Wrappers
  import opened Streams

  /** Raw JSON that is only passed on: absent, well-formed or not. */
  datatype Json = Absent | Valid(text: string) | Invalid(text: string)

  const EMPTY_OBJECT := Valid("{}")

  datatype Result<T> = Ok(value: T) | Err(message: string)

  datatype Source = Source(kind: string, mediaType: string, data: string, url: string)

  datatype Content =
    | Text(text: string)
    | Image(source: Option<Source>)
    | Use(id: Option<Id>, name: string, input: Json)
    | ToolResult(useId: string, body: Body, isError: Option<bool>)
    | Thinking(thinking: string)
    | OtherContent

  datatype Body = NoBody | TextBody(text: string) | BlockBody(blocks: seq<Content>) | RawBody

  /** The content of a message: nothing, a string, blocks, or neither of these. */
  datatype Raw = NoContent | StringContent(text: string) | Blocks(blocks: seq<Content>) | BadContent

  datatype Message = Message(role: string, content: Raw)

  datatype Part = TextPart(text: string) | ImagePart(url: Option<string>) | OtherPart

  datatype ChatBody = NoText | TextIs(text: string) | PartsAre(parts: seq<Part>) | Junk

  datatype ToolCall = ToolCall(id: Option<Id>, name: string, args: Json)

  datatype ChatMessage = ChatMessage(role: string, content: ChatBody, calls: seq<ToolCall>, callId: string, reasoning: string)

  /** A converted message: a role and its blocks. */
  datatype Turn = Turn(role: string, blocks: seq<Content>)

  // ---------------------------------------------------------------------------
  // Images
  // ---------------------------------------------------------------------------

  function UrlOf(s: Source): string {
    if s.kind == "base64" then "data:" + s.mediaType + ";base64," + s.data else s.url
  }

  function CommaAt(s: string): (i: nat)
    ensures i <= |s| && ',' !in s[..i] && (i < |s| ==> s[i] == ',')
  {
    if s == "" || s[0] == ',' then 0 else
      var i := CommaAt(s[1..]);
      assert s[..i + 1] == [s[0]] + s[1..][..i];
      i + 1
  }

  function TrimSuffix(s: string, t: string): string {
    if |t| <= |s| && s[|s| - |t|..] == t then s[..|s| - |t|] else s
  }

  function SourceOf(url: string): Source {
    if "data:" <= url then
      var rest := url[5..];
      var i := CommaAt(rest);
      Source("base64", TrimSuffix(rest[..i], ";base64"), if i < |rest| then rest[i + 1..] else "", "")
    else Source("url", "", "", url)
  }

  /** The images that come back as they were. */
  predicate PlainSource(s: Source) {
    if s.kind == "base64" then ',' !in s.mediaType && s.url == ""
    else s.kind == "url" && s.mediaType == "" && s.data == "" && !("data:" <= s.url)
  }

  /** The media type and the data of an inline image, cut at the first comma. */
  lemma {:induction false} InlineBack(media: string, data: string)
    ensures var rest := media + ";base64," + data;
            if ',' in media then CommaAt(rest) < |media|
            else CommaAt(rest) == |media| + 7 && rest[..|media| + 7] == media + ";base64" && rest[|media| + 8..] == data
  {
    var rest := media + ";base64," + data;
    if ',' in media {
      var k :| 0 <= k < |media| && media[k] == ',';
      assert rest[k] == ',';
    } else {
      CommaIs(rest, |media| + 7);
    }
  }

  lemma {:induction false} ImageRoundTrip(s: Source)
    ensures SourceOf(UrlOf(s)) == s <==> PlainSource(s)
  {
    if s.kind == "base64" {
      var url, rest := UrlOf(s), s.mediaType + ";base64," + s.data;
      assert url == "data:" + rest && url[5..] == rest && "data:" <= url;
      InlineBack(s.mediaType, s.data);
      assert (s.mediaType + ";base64")[|s.mediaType|..] == ";base64";
    }
  }

  lemma {:induction false} CommaIs(s: string, n: nat)
    requires n < |s| && s[n] == ',' && forall k :: 0 <= k < n ==> s[k] != ','
    ensures CommaAt(s) == n
  {
    if CommaAt(s) != n { assert false; }
  }

  // ---------------------------------------------------------------------------
  // Messages to Chat
  // ---------------------------------------------------------------------------

  function TextOf(bs: seq<Content>): string {
    if bs == [] then "" else TextOf(bs[..|bs| - 1]) + (if bs[|bs| - 1].Text? then bs[|bs| - 1].text else "")
  }

  function ThinkingOf(bs: seq<Content>): string {
    if bs == [] then "" else ThinkingOf(bs[..|bs| - 1]) + (if bs[|bs| - 1].Thinking? then bs[|bs| - 1].thinking else "")
  }

  function CallOf(b: Content): ToolCall
    requires b.Use?
  {
    ToolCall(b.id, b.name, if b.input == Absent then EMPTY_OBJECT else b.input)
  }

  function CallsOf(bs: seq<Content>): seq<ToolCall> {
    if bs == [] then [] else CallsOf(bs[..|bs| - 1]) + (if bs[|bs| - 1].Use? then [CallOf(bs[|bs| - 1])] else [])
  }

  function AssistantMessage(bs: seq<Content>): ChatMessage {
    ChatMessage("assistant", if TextOf(bs) != "" || CallsOf(bs) == [] then TextIs(TextOf(bs)) else NoText, CallsOf(bs), "", ThinkingOf(bs))
  }

  function ResultBody(b: Body): ChatBody {
    match b
    case NoBody => TextIs("")
    case TextBody(s) => TextIs(s)
    case BlockBody(bs) => TextIs(TextOf(bs))
    case RawBody => Junk
  }

  function UserParts(parts: seq<Part>): ChatMessage {
    ChatMessage("user", if |parts| == 1 && parts[0].TextPart? then TextIs(parts[0].text) else PartsAre(parts), [], "", "")
  }

  /** The chat messages split off so far, and the parts of the one being put together. */
  datatype Split = Split(out: seq<ChatMessage>, parts: seq<Part>)

  function Flushed(s: Split): seq<ChatMessage> { if s.parts != [] then s.out + [UserParts(s.parts)] else s.out }

  function SplitStep(s: Split, b: Content): Split {
    match b
    case ToolResult(id, body, _) => Split(Flushed(s) + [ChatMessage("tool", ResultBody(body), [], id, "")], [])
    case Text(t) => s.(parts := s.parts + [TextPart(t)])
    case Image(src) => if src.Some? then s.(parts := s.parts + [ImagePart(Some(UrlOf(src.value)))]) else s
    case _ => s
  }

  function SplitAll(bs: seq<Content>): Split {
    if bs == [] then Split([], []) else SplitStep(SplitAll(bs[..|bs| - 1]), bs[|bs| - 1])
  }

  function UserMessages(bs: seq<Content>): seq<ChatMessage> {
    var out := Flushed(SplitAll(bs));
    if out == [] then [ChatMessage("user", TextIs(""), [], "", "")] else out
  }

  function BlocksOf(c: Raw): Result<seq<Content>> {
    match c
    case NoContent => Ok([])
    case StringContent(s) => Ok([Text(s)])
    case Blocks(bs) => Ok(bs)
    case BadContent => Err("invalid message content")
  }

  function ToChat(m: Message): Result<seq<ChatMessage>> {
    var bs := BlocksOf(m.content);
    if bs.Err? then Err(bs.message)
    else Ok(if m.role == "assistant" then [AssistantMessage(bs.value)] else UserMessages(bs.value))
  }

  function AllToChat(ms: seq<Message>): Result<seq<ChatMessage>> {
    if ms == [] then Ok([])
    else
      var before, last := AllToChat(ms[..|ms| - 1]), ToChat(ms[|ms| - 1]);
      if before.Err? then before else if last.Err? then last else Ok(before.value + last.value)
  }

  method AnthropicMessageToChat(m: Message) returns (r: Result<seq<ChatMessage>>)
    ensures r == ToChat(m)
  {
    var parsed := BlocksOf(m.content);
    if parsed.Err? { return Err(parsed.message); }
    var blocks := parsed.value;
    if m.role == "assistant" {
      var text, calls, reasoning := "", [], "";
      for i := 0 to |blocks|
        invariant text == TextOf(blocks[..i]) && calls == CallsOf(blocks[..i]) && reasoning == ThinkingOf(blocks[..i])
      {
        assert blocks[..i + 1][..i] == blocks[..i];
        match blocks[i] {
          case Text(t) => text := text + t;
          case Use(id, name, input) =>
            var args := input;
            if args == Absent { args := EMPTY_OBJECT; }
            calls := calls + [ToolCall(id, name, args)];
          case Thinking(t) => reasoning := reasoning + t;
          case _ =>
        }
      }
      assert blocks[..|blocks|] == blocks;
      var content := NoText;
      if |text| > 0 || |calls| == 0 { content := TextIs(text); }
      return Ok([ChatMessage("assistant", content, calls, "", reasoning)]);
    }
    var out: seq<ChatMessage>, parts: seq<Part> := [], [];
    for i := 0 to |blocks|
      invariant Split(out, parts) == SplitAll(blocks[..i])
    {
      assert blocks[..i + 1][..i] == blocks[..i];
      match blocks[i] {
        case ToolResult(id, body, _) =>
          if |parts| > 0 {
            out := out + [UserParts(parts)];
            parts := [];
          }
          out := out + [ChatMessage("tool", ResultBody(body), [], id, "")];
        case Text(t) => parts := parts + [TextPart(t)];
        case Image(source) =>
          if source.Some? { parts := parts + [ImagePart(Some(UrlOf(source.value)))]; }
        case _ =>
      }
    }
    assert blocks[..|blocks|] == blocks;
    if |parts| > 0 { out := out + [UserParts(parts)]; }
    if |out| == 0 { out := [ChatMessage("user", TextIs(""), [], "", "")]; }
    return Ok(out);
  }

  function SystemMessage(system: string): seq<ChatMessage> {
    if system != "" then [ChatMessage("system", TextIs(system), [], "", "")] else []
  }

  function RequestToChat(system: string, ms: seq<Message>): Result<seq<ChatMessage>> {
    var out := AllToChat(ms);
    if out.Err? then out else Ok(SystemMessage(system) + out.value)
  }

  method AnthropicToChatMessages(system: string, ms: seq<Message>) returns (r: Result<seq<ChatMessage>>)
    ensures r == RequestToChat(system, ms)
  {
    var out: seq<ChatMessage> := [];
    if system != "" { out := [ChatMessage("system", TextIs(system), [], "", "")]; }
    assert out + [] == out && AllToChat(ms[..0]) == Ok([]);
    for i := 0 to |ms|
      invariant RequestToChat(system, ms[..i]) == Ok(out)
    {
      RequestNext(system, ms, i);
      var msgs := AnthropicMessageToChat(ms[i]);
      if msgs.Err? { return Err(msgs.message); }
      out := out + msgs.value;
    }
    assert ms[..|ms|] == ms;
    return Ok(out);
  }

  lemma {:induction false} RequestNext(system: string, ms: seq<Message>, i: nat)
    requires i < |ms| && RequestToChat(system, ms[..i]).Ok?
    ensures ToChat(ms[i]).Ok? ==>
              RequestToChat(system, ms[..i + 1]) == Ok(RequestToChat(system, ms[..i]).value + ToChat(ms[i]).value)
    ensures ToChat(ms[i]).Err? ==> RequestToChat(system, ms) == ToChat(ms[i])
  {
    assert ms[..i + 1][..i] == ms[..i];
    var body := AllToChat(ms[..i]).value;
    if ToChat(ms[i]).Err? {
      ChatErrorStays(ms, i + 1);
    } else {
      assert (SystemMessage(system) + body) + ToChat(ms[i]).value == SystemMessage(system) + (body + ToChat(ms[i]).value);
    }
  }

  lemma {:induction false} ChatErrorStays(ms: seq<Message>, i: nat)
    requires i <= |ms| && AllToChat(ms[..i]).Err?
    ensures AllToChat(ms) == AllToChat(ms[..i])
  {
    if i < |ms| {
      assert ms[..|ms| - 1][..i] == ms[..i];
      ChatErrorStays(ms[..|ms| - 1], i);
    } else {
      assert ms[..i] == ms;
    }
  }

  // ---------------------------------------------------------------------------
  // Chat to Messages
  // ---------------------------------------------------------------------------

  function PartsText(ps: seq<Part>): string {
    if ps == [] then "" else PartsText(ps[..|ps| - 1]) + (if ps[|ps| - 1].TextPart? then ps[|ps| - 1].text else "")
  }

  function ChatText(c: ChatBody): string {
    match c
    case NoText => ""
    case TextIs(s) => s
    case PartsAre(ps) => PartsText(ps)
    case Junk => ""
  }

  function PartBlocks(ps: seq<Part>): seq<Content> {
    if ps == [] then [] else
      PartBlocks(ps[..|ps| - 1]) +
      match ps[|ps| - 1]
      case TextPart(t) => [Text(t)]
      case ImagePart(url) => if url.Some? then [Image(Some(SourceOf(url.value)))] else []
      case OtherPart => []
  }

  function UserBlocks(c: ChatBody): Result<seq<Content>> {
    match c
    case TextIs(s) => Ok([Text(if s == "" then " " else s)])
    case PartsAre(ps) => Ok(PartBlocks(ps))
    case _ => Err("invalid user content")
  }

  function UseOf(c: ToolCall): Content {
    Use(if c.id.Some? then c.id else Some(Generated(0)), c.name, if c.args.Valid? then c.args else EMPTY_OBJECT)
  }

  function UsesOf(cs: seq<ToolCall>): seq<Content> {
    if cs == [] then [] else UsesOf(cs[..|cs| - 1]) + [UseOf(cs[|cs| - 1])]
  }

  function AssistantBlocks(m: ChatMessage): seq<Content> {
    var bs := (if ChatText(m.content) != "" then [Text(ChatText(m.content))] else []) + UsesOf(m.calls);
    if bs == [] then [Text(" ")] else bs
  }

  /** The role and blocks a chat message contributes; system messages go elsewhere. */
  function TurnOf(m: ChatMessage): Result<Turn> {
    if m.role == "user" then
      var bs := UserBlocks(m.content);
      if bs.Err? then Err(bs.message) else Ok(Turn("user", bs.value))
    else if m.role == "assistant" then Ok(Turn("assistant", AssistantBlocks(m)))
    else if m.role == "tool" || m.role == "function" then
      Ok(Turn("user", [ToolResult(m.callId, TextBody(ChatText(m.content)), None)]))
    else Ok(Turn("", []))
  }

  /** Appends blocks, to the last turn when the role is the same. */
  function Appended(ts: seq<Turn>, t: Turn): seq<Turn> {
    if t.blocks == [] then ts
    else if ts != [] && ts[|ts| - 1].role == t.role then
      ts[..|ts| - 1] + [Turn(t.role, ts[|ts| - 1].blocks + t.blocks)]
    else ts + [t]
  }

  function AllTurns(ms: seq<ChatMessage>): Result<seq<Turn>> {
    if ms == [] then Ok([])
    else
      var before, last := AllTurns(ms[..|ms| - 1]), TurnOf(ms[|ms| - 1]);
      if before.Err? then before else if last.Err? then Err(last.message) else Ok(Appended(before.value, last.value))
  }

  predicate IsSystem(m: ChatMessage) { m.role == "system" || m.role == "developer" }

  /** The system messages, one paragraph each. */
  function SystemParts(ms: seq<ChatMessage>): seq<string> {
    if ms == [] then [] else
      SystemParts(ms[..|ms| - 1]) + (if IsSystem(ms[|ms| - 1]) then [ChatText(ms[|ms| - 1].content)] else [])
  }

  function Paragraphs(ps: seq<string>): string {
    if ps == [] then "" else if |ps| == 1 then ps[0] else Paragraphs(ps[..|ps| - 1]) + "\n\n" + ps[|ps| - 1]
  }

  const CONTINUE := Turn("user", [Text("(continue)")])

  function FromChat(ms: seq<ChatMessage>): Result<seq<Turn>> {
    var ts := AllTurns(ms);
    if ts.Err? then ts
    else if ts.value == [] then Err("no user messages to send")
    else if ts.value[0].role != "user" then Ok([CONTINUE] + ts.value)
    else ts
  }

  class Turns {
    var msgs: seq<Turn>

    constructor ()
      ensures msgs == []
    {
      msgs := [];
    }

    method AppendMsg(role: string, blocks: seq<Content>)
      modifies this
      ensures msgs == Appended(old(msgs), Turn(role, blocks))
    {
      if |blocks| == 0 { return; }
      var n := |msgs|;
      if n > 0 && msgs[n - 1].role == role {
        msgs := msgs[n - 1 := Turn(role, msgs[n - 1].blocks + blocks)];
        assert msgs == old(msgs)[..n - 1] + [Turn(role, old(msgs)[n - 1].blocks + blocks)];
        return;
      }
      msgs := msgs + [Turn(role, blocks)];
    }
  }

  method ChatToAnthropicMessages(ms: seq<ChatMessage>) returns (r: Result<seq<Turn>>, system: string)
    ensures r == FromChat(ms)
    ensures r.Ok? ==> system == Paragraphs(SystemParts(ms))
  {
    var turns := new Turns();
    var systemParts: seq<string> := [];
    system := "";
    for i := 0 to |ms|
      invariant AllTurns(ms[..i]) == Ok(turns.msgs)
      invariant systemParts == SystemParts(ms[..i])
    {
      var m := ms[i];
      assert ms[..i + 1][..i] == ms[..i];
      if m.role == "system" || m.role == "developer" {
        systemParts := systemParts + [ChatText(m.content)];
      } else if m.role == "user" {
        var blocks := UserBlocks(m.content);
        if blocks.Err? {
          TurnErrorStays(ms, i + 1);
          return Err(blocks.message), "";
        }
        turns.AppendMsg("user", blocks.value);
      } else if m.role == "assistant" {
        turns.AppendMsg("assistant", AssistantBlocks(m));
      } else if m.role == "tool" || m.role == "function" {
        turns.AppendMsg("user", [ToolResult(m.callId, TextBody(ChatText(m.content)), None)]);
      }
    }
    assert ms[..|ms|] == ms;
    if |systemParts| > 0 { system := Paragraphs(systemParts); }
    var out := turns.msgs;
    if |out| == 0 { return Err("no user messages to send"), system; }
    if out[0].role != "user" { out := [Turn("user", [Text("(continue)")])] + out; }
    return Ok(out), system;
  }

  lemma {:induction false} TurnErrorStays(ms: seq<ChatMessage>, i: nat)
    requires i <= |ms| && AllTurns(ms[..i]).Err?
    ensures AllTurns(ms) == AllTurns(ms[..i])
  {
    if i < |ms| {
      assert ms[..|ms| - 1][..i] == ms[..i];
      TurnErrorStays(ms[..|ms| - 1], i);
    } else {
      assert ms[..i] == ms;
    }
  }

  // ---------------------------------------------------------------------------
  // Alternation, and the order of blocks
  // ---------------------------------------------------------------------------

  /** Roles alternate between user and assistant and no turn is empty. */
  ghost predicate Alternating(ts: seq<Turn>) {
    && (forall i :: 0 <= i < |ts| ==> ts[i].blocks != [] && ts[i].role in {"user", "assistant"})
    && (forall i :: 0 < i < |ts| ==> ts[i - 1].role != ts[i].role)
  }

  function Labelled(role: string, bs: seq<Content>): seq<(string, Content)> {
    if bs == [] then [] else Labelled(role, bs[..|bs| - 1]) + [(role, bs[|bs| - 1])]
  }

  /** Every block with its role, in order. */
  function Flat(ts: seq<Turn>): seq<(string, Content)> {
    if ts == [] then [] else Flat(ts[..|ts| - 1]) + Labelled(ts[|ts| - 1].role, ts[|ts| - 1].blocks)
  }

  lemma {:induction false} LabelledConcat(role: string, a: seq<Content>, b: seq<Content>)
    ensures Labelled(role, a + b) == Labelled(role, a) + Labelled(role, b)
  {
    if b == [] {
      assert a + b == a;
    } else {
      assert (a + b)[..|a + b| - 1] == a + b[..|b| - 1];
      LabelledConcat(role, a, b[..|b| - 1]);
    }
  }

  lemma {:induction false} FlatSnoc(ts: seq<Turn>, t: Turn)
    ensures Flat(ts + [t]) == Flat(ts) + Labelled(t.role, t.blocks)
  {
    assert (ts + [t])[..|ts|] == ts;
  }

  lemma {:induction false} AppendedFlat(ts: seq<Turn>, t: Turn)
    ensures Flat(Appended(ts, t)) == Flat(ts) + Labelled(t.role, t.blocks)
  {
    if t.blocks != [] {
      if ts != [] && ts[|ts| - 1].role == t.role {
        LabelledConcat(t.role, ts[|ts| - 1].blocks, t.blocks);
        FlatSnoc(ts[..|ts| - 1], Turn(t.role, ts[|ts| - 1].blocks + t.blocks));
      } else {
        FlatSnoc(ts, t);
      }
    }
  }

  /** Appending keeps the alternation. */
  lemma {:induction false} AppendedAlternates(ts: seq<Turn>, t: Turn)
    requires Alternating(ts) && (t.blocks != [] ==> t.role in {"user", "assistant"})
    ensures Alternating(Appended(ts, t))
  {
    var r := Appended(ts, t);
    forall i | 0 < i < |r| ensures r[i - 1].role != r[i].role {
      assert i < |ts| ==> ts[i - 1].role != ts[i].role;
    }
  }

  /** What the chat messages contribute, in order. */
  function Given(ms: seq<ChatMessage>): seq<(string, Content)> {
    if ms == [] then [] else
      Given(ms[..|ms| - 1]) +
      (if TurnOf(ms[|ms| - 1]).Ok? then Labelled(TurnOf(ms[|ms| - 1]).value.role, TurnOf(ms[|ms| - 1]).value.blocks) else [])
  }

  lemma {:induction false} TurnsKeep(ms: seq<ChatMessage>)
    requires AllTurns(ms).Ok?
    ensures Alternating(AllTurns(ms).value) && Flat(AllTurns(ms).value) == Given(ms)
  {
    if ms != [] {
      TurnsKeep(ms[..|ms| - 1]);
      AppendedFlat(AllTurns(ms[..|ms| - 1]).value, TurnOf(ms[|ms| - 1]).value);
      AppendedAlternates(AllTurns(ms[..|ms| - 1]).value, TurnOf(ms[|ms| - 1]).value);
    }
  }

  lemma {:induction false} FlatAfter(t: Turn, ts: seq<Turn>)
    ensures Flat([t] + ts) == Labelled(t.role, t.blocks) + Flat(ts)
  {
    if ts == [] {
      assert [t] + ts == [] + [t];
      FlatSnoc([], t);
    } else {
      var init, last := ts[..|ts| - 1], ts[|ts| - 1];
      FlatAfter(t, init);
      assert [t] + ts == ([t] + init) + [last];
      FlatSnoc([t] + init, last);
      Assoc(Labelled(t.role, t.blocks), Flat(init), Labelled(last.role, last.blocks));
    }
  }

  /** Every conversion that succeeds starts with the user, alternates strictly, has no empty
      message, and keeps every block in its original order, after a made-up first message
      when the conversation began with the assistant. */
  lemma {:induction false} AlwaysAlternates(ms: seq<ChatMessage>)
    requires FromChat(ms).Ok?
    ensures var ts := FromChat(ms).value;
            && Alternating(ts) && ts != [] && ts[0].role == "user"
            && Flat(ts) == (if AllTurns(ms).value[0].role == "user" then Given(ms) else Labelled("user", CONTINUE.blocks) + Given(ms))
  {
    TurnsKeep(ms);
    var ts := AllTurns(ms).value;
    FlatAfter(CONTINUE, ts);
    if ts[0].role != "user" {
      var all := [CONTINUE] + ts;
      assert forall i :: 0 < i < |all| ==> all[i] == ts[i - 1];
    }
  }

  // ---------------------------------------------------------------------------
  // There and back
  // ---------------------------------------------------------------------------

  predicate PlainUser(b: Content) {
    || (b.Text? && b.text != "")
    || (b.Image? && b.source.Some? && PlainSource(b.source.value))
    || (b.ToolResult? && b.body.TextBody? && b.isError.None?)
  }

  predicate PlainUse(b: Content) { b.Use? && b.id.Some? && b.input.Valid? }

  predicate PlainAssistant(bs: seq<Content>) {
    bs != [] && ((bs[0].Text? && bs[0].text != "") || PlainUse(bs[0])) && forall i :: 0 < i < |bs| ==> PlainUse(bs[i])
  }

  predicate Plain(m: Message) {
    && m.content.Blocks? && m.content.blocks != []
    && (m.role == "user" || m.role == "assistant")
    && (m.role == "user" ==> forall b :: b in m.content.blocks ==> PlainUser(b))
    && (m.role == "assistant" ==> PlainAssistant(m.content.blocks))
  }

  predicate Accepted(ms: seq<ChatMessage>) { forall m :: m in ms ==> TurnOf(m).Ok? }

  lemma {:induction false} AcceptedTurns(ms: seq<ChatMessage>)
    requires Accepted(ms)
    ensures AllTurns(ms).Ok?
  {
    if ms != [] {
      assert ms == ms[..|ms| - 1] + [ms[|ms| - 1]];
      AcceptedTurns(ms[..|ms| - 1]);
    }
  }

  lemma {:induction false} GivenConcat(a: seq<ChatMessage>, b: seq<ChatMessage>)
    ensures Given(a + b) == Given(a) + Given(b)
  {
    if b == [] {
      assert a + b == a;
    } else {
      assert (a + b)[..|a + b| - 1] == a + b[..|b| - 1];
      GivenConcat(a, b[..|b| - 1]);
    }
  }

  lemma {:induction false} GivenOne(m: ChatMessage, t: Turn)
    requires TurnOf(m) == Ok(t)
    ensures Given([m]) == Labelled(t.role, t.blocks)
  {
    assert [m][..|[m]| - 1] == [];
    assert Given([]) == [];
    assert [] + Labelled(t.role, t.blocks) == Labelled(t.role, t.blocks);
  }

  predicate PlainParts(ps: seq<Part>) {
    forall p :: p in ps ==> (p.TextPart? && p.text != "") || (p.ImagePart? && p.url.Some?)
  }

  lemma {:induction false} PartsBack(ps: seq<Part>)
    requires PlainParts(ps) && ps != []
    ensures TurnOf(UserParts(ps)) == Ok(Turn("user", PartBlocks(ps)))
  {
    if |ps| == 1 && ps[0].TextPart? {
      assert ps[0] in ps;
      assert ps[..|ps| - 1] == [] && PartBlocks([]) == [];
      assert PartBlocks(ps) == [Text(ps[0].text)];
    }
  }

  /** Where splitting stands: what the messages split off and the parts give back. */
  ghost predicate SplitBack(s: Split, bs: seq<Content>) {
    && PlainParts(s.parts) && Accepted(s.out)
    && Given(s.out) + Labelled("user", PartBlocks(s.parts)) == Labelled("user", bs)
  }

  lemma {:induction false} FlushedBack(s: Split, bs: seq<Content>)
    requires SplitBack(s, bs)
    ensures Accepted(Flushed(s)) && Given(Flushed(s)) == Labelled("user", bs)
  {
    if s.parts != [] {
      PartsBack(s.parts);
      GivenConcat(s.out, [UserParts(s.parts)]);
      GivenOne(UserParts(s.parts), Turn("user", PartBlocks(s.parts)));
    }
  }

  lemma {:induction false} PartBack(s: Split, bs: seq<Content>, p: Part, b: Content)
    requires SplitBack(s, bs) && PlainParts([p])
    requires b == if p.TextPart? then Text(p.text) else if p.url.Some? then Image(Some(SourceOf(p.url.value))) else OtherContent
    ensures SplitBack(s.(parts := s.parts + [p]), bs + [b])
  {
    var more := s.parts + [p];
    assert p in [p];
    assert more[..|more| - 1] == s.parts;
    assert PartBlocks(more) == PartBlocks(s.parts) + [b];
    LabelledConcat("user", PartBlocks(s.parts), [b]);
    LabelledConcat("user", bs, [b]);
  }

  lemma {:induction false} ResultBack(s: Split, bs: seq<Content>, b: Content)
    requires SplitBack(s, bs) && b.ToolResult? && PlainUser(b)
    ensures SplitBack(SplitStep(s, b), bs + [b])
  {
    FlushedBack(s, bs);
    var m := ChatMessage("tool", ResultBody(b.body), [], b.useId, "");
    GivenConcat(Flushed(s), [m]);
    GivenOne(m, Turn("user", [b]));
    LabelledConcat("user", bs, [b]);
    assert Labelled("user", PartBlocks([])) == [];
  }

  lemma {:induction false} UserSplitBack(bs: seq<Content>)
    requires forall b :: b in bs ==> PlainUser(b)
    ensures SplitBack(SplitAll(bs), bs)
  {
    if bs != [] {
      var init, last := bs[..|bs| - 1], bs[|bs| - 1];
      assert bs == init + [last];
      UserSplitBack(init);
      assert PlainUser(last) by { assert last in bs; }
      match last {
        case Text(t) => PartBack(SplitAll(init), init, TextPart(t), last);
        case Image(src) =>
          ImageRoundTrip(src.value);
          PartBack(SplitAll(init), init, ImagePart(Some(UrlOf(src.value))), last);
        case ToolResult(_, _, _) => ResultBack(SplitAll(init), init, last);
      }
    }
  }

  lemma {:induction false} UserBack(bs: seq<Content>)
    requires bs != [] && forall b :: b in bs ==> PlainUser(b)
    ensures Accepted(UserMessages(bs)) && Given(UserMessages(bs)) == Labelled("user", bs)
  {
    UserSplitBack(bs);
    FlushedBack(SplitAll(bs), bs);
  }

  function Head(bs: seq<Content>): seq<Content> { if bs != [] && bs[0].Text? then [bs[0]] else [] }

  lemma {:induction false} OneBlock(b: Content)
    ensures TextOf([b]) == if b.Text? then b.text else ""
    ensures CallsOf([b]) == if b.Use? then [CallOf(b)] else []
  {
    assert [b][..|[b]| - 1] == [];
    assert TextOf([]) == "" && CallsOf([]) == [];
  }

  lemma {:induction false} MoreCalls(bs: seq<Content>, b: Content)
    requires PlainUse(b)
    ensures TextOf(bs + [b]) == TextOf(bs) && CallsOf(bs + [b]) == CallsOf(bs) + [CallOf(b)]
  {
    assert (bs + [b])[..|bs + [b]| - 1] == bs;
    assert TextOf(bs) + "" == TextOf(bs);
  }

  lemma {:induction false} OneBack(b: Content)
    requires PlainAssistant([b])
    ensures TextOf([b]) == (if b.Text? then b.text else "") && Head([b]) + UsesOf(CallsOf([b])) == [b]
  {
    OneBlock(b);
    assert UsesOf([]) == [];
    if b.Use? {
      UsesSnoc([], b);
      assert [] + [CallOf(b)] == [CallOf(b)];
    }
  }

  lemma {:induction false} MoreBack(init: seq<Content>, last: Content)
    requires init != [] && PlainUse(last) && Head(init) + UsesOf(CallsOf(init)) == init
    ensures TextOf(init + [last]) == TextOf(init) && Head(init + [last]) + UsesOf(CallsOf(init + [last])) == init + [last]
  {
    var bs, calls := init + [last], CallsOf(init);
    MoreCalls(init, last);
    UsesSnoc(calls, last);
    assert bs[0] == init[0];
    assert UsesOf(CallsOf(bs)) == UsesOf(calls) + [last];
    assert Head(init) + (UsesOf(calls) + [last]) == (Head(init) + UsesOf(calls)) + [last];
  }

  /** An assistant message of one text and tool calls gives the text and the calls. */
  lemma {:induction false} AssistantParts(bs: seq<Content>)
    requires PlainAssistant(bs)
    ensures TextOf(bs) == (if bs[0].Text? then bs[0].text else "")
    ensures Head(bs) + UsesOf(CallsOf(bs)) == bs
    decreases |bs|
  {
    var init, last := bs[..|bs| - 1], bs[|bs| - 1];
    assert bs == init + [last];
    if |bs| == 1 {
      assert bs == [last];
      OneBack(last);
    } else {
      AssistantParts(init);
      MoreBack(init, last);
    }
  }

  lemma {:induction false} UsesSnoc(calls: seq<ToolCall>, b: Content)
    requires PlainUse(b)
    ensures UsesOf(calls + [CallOf(b)]) == UsesOf(calls) + [b]
  {
    assert (calls + [CallOf(b)])[..|calls|] == calls;
  }

  lemma {:induction false} AssistantBack(bs: seq<Content>)
    requires PlainAssistant(bs)
    ensures TurnOf(AssistantMessage(bs)) == Ok(Turn("assistant", bs))
    ensures Given([AssistantMessage(bs)]) == Labelled("assistant", bs)
  {
    AssistantParts(bs);
    GivenOne(AssistantMessage(bs), Turn("assistant", bs));
  }

  /** A message as its role and blocks. */
  function AsTurn(m: Message): Turn { Turn(m.role, if m.content.Blocks? then m.content.blocks else []) }

  function AsTurns(ms: seq<Message>): seq<Turn> {
    if ms == [] then [] else AsTurns(ms[..|ms| - 1]) + [AsTurn(ms[|ms| - 1])]
  }

  lemma {:induction false} MessageBack(m: Message)
    requires Plain(m)
    ensures ToChat(m).Ok? && Accepted(ToChat(m).value) && Given(ToChat(m).value) == Labelled(m.role, m.content.blocks)
  {
    if m.role == "user" { UserBack(m.content.blocks); } else { AssistantBack(m.content.blocks); }
  }

  lemma {:induction false} AsTurnsAt(ms: seq<Message>)
    ensures |AsTurns(ms)| == |ms| && forall i :: 0 <= i < |ms| ==> AsTurns(ms)[i] == AsTurn(ms[i])
  {
    if ms != [] { AsTurnsAt(ms[..|ms| - 1]); }
  }

  lemma {:induction false} AllBack(ms: seq<Message>)
    requires forall m :: m in ms ==> Plain(m)
    ensures AllToChat(ms).Ok? && Accepted(AllToChat(ms).value) && Given(AllToChat(ms).value) == Flat(AsTurns(ms))
  {
    if ms != [] {
      var init, last := ms[..|ms| - 1], ms[|ms| - 1];
      assert ms == init + [last];
      AllBack(init);
      MessageBack(last);
      GivenConcat(AllToChat(init).value, ToChat(last).value);
      FlatSnoc(AsTurns(init), AsTurn(last));
    }
  }

  /** The last turn is as long as the run of its role at the end. */
  lemma {:induction false} LabelledAt(role: string, bs: seq<Content>)
    ensures |Labelled(role, bs)| == |bs| && forall i :: 0 <= i < |bs| ==> Labelled(role, bs)[i] == (role, bs[i])
  {
    if bs != [] { LabelledAt(role, bs[..|bs| - 1]); }
  }

  /** What ends a sequence of labelled blocks: a run of one role as long as it can be. */
  predicate EndsWithRun(f: seq<(string, Content)>, t: Turn) {
    var n := |f| - |t.blocks|;
    && 0 <= n < |f|
    && (forall i :: n <= i < |f| ==> f[i] == (t.role, t.blocks[i - n]))
    && (n > 0 ==> f[n - 1].0 != t.role)
  }

  lemma {:induction false} OneRun(f: seq<(string, Content)>, s: Turn, t: Turn)
    requires EndsWithRun(f, s) && EndsWithRun(f, t)
    ensures s == t
  {
    var n := |f| - |s.blocks|;
    assert f[|f| - 1].0 == s.role == t.role;
    assert |s.blocks| == |t.blocks|;
    forall i | 0 <= i < |s.blocks| ensures s.blocks[i] == t.blocks[i] { assert f[n + i].1 == s.blocks[i]; }
  }

  lemma {:induction false} LastRun(ts: seq<Turn>)
    requires Alternating(ts) && ts != []
    ensures EndsWithRun(Flat(ts), ts[|ts| - 1])
    ensures Flat(ts[..|ts| - 1]) == Flat(ts)[..|Flat(ts)| - |ts[|ts| - 1].blocks|]
  {
    var init, t := ts[..|ts| - 1], ts[|ts| - 1];
    LabelledAt(t.role, t.blocks);
    if init != [] {
      var u := init[|init| - 1];
      LabelledAt(u.role, u.blocks);
      assert Flat(init) == Flat(init[..|init| - 1]) + Labelled(u.role, u.blocks);
    }
  }

  lemma {:induction false} SameLast(a: seq<Turn>, b: seq<Turn>)
    requires Alternating(a) && Alternating(b) && Flat(a) == Flat(b) && a != [] && b != []
    ensures a[|a| - 1] == b[|b| - 1] && Flat(a[..|a| - 1]) == Flat(b[..|b| - 1])
  {
    LastRun(a);
    LastRun(b);
    OneRun(Flat(a), a[|a| - 1], b[|b| - 1]);
  }

  /** Turns that alternate are determined by their blocks and roles. */
  lemma {:induction false} FlatIsUnique(a: seq<Turn>, b: seq<Turn>)
    requires Alternating(a) && Alternating(b) && Flat(a) == Flat(b)
    ensures a == b
    decreases |a|
  {
    if a == [] {
      if b != [] { LastRun(b); }
    } else if b == [] {
      LastRun(a);
    } else {
      SameLast(a, b);
      FlatIsUnique(a[..|a| - 1], b[..|b| - 1]);
      assert a == a[..|a| - 1] + [a[|a| - 1]] && b == b[..|b| - 1] + [b[|b| - 1]];
    }
  }

  // ---------------------------------------------------------------------------
  // The round trip
  // ---------------------------------------------------------------------------

  /** A conversation that alternates and starts with the user, of plain messages. */
  ghost predicate PlainConversation(ms: seq<Message>) {
    && ms != [] && ms[0].role == "user"
    && (forall m :: m in ms ==> Plain(m))
    && (forall i :: 0 < i < |ms| ==> ms[i - 1].role != ms[i].role)
  }

  lemma {:induction false} SystemFirst(system: string, ms: seq<ChatMessage>)
    ensures Given(SystemMessage(system) + ms) == Given(ms)
    ensures Accepted(ms) ==> Accepted(SystemMessage(system) + ms)
  {
    GivenConcat(SystemMessage(system), ms);
    if system != "" {
      var m := ChatMessage("system", TextIs(system), [], "", "");
      GivenOne(m, Turn("", []));
      assert Labelled("", []) == [];
    } else {
      assert Given([]) == [];
    }
  }

  lemma {:induction false} PlainAlternates(ms: seq<Message>)
    requires PlainConversation(ms)
    ensures Alternating(AsTurns(ms))
  {
    AsTurnsAt(ms);
    forall i | 0 <= i < |ms| ensures AsTurns(ms)[i].blocks != [] && AsTurns(ms)[i].role in {"user", "assistant"} {
      assert ms[i] in ms;
    }
  }

  lemma {:induction false} TurnsAre(chat: seq<ChatMessage>, ts: seq<Turn>)
    requires Accepted(chat) && Given(chat) == Flat(ts) && Alternating(ts)
    ensures AllTurns(chat) == Ok(ts)
  {
    AcceptedTurns(chat);
    TurnsKeep(chat);
    FlatIsUnique(AllTurns(chat).value, ts);
  }

  lemma {:induction false} TurnsBack(system: string, ms: seq<Message>)
    requires PlainConversation(ms) && AllToChat(ms).Ok?
    ensures AllTurns(SystemMessage(system) + AllToChat(ms).value) == Ok(AsTurns(ms))
  {
    AllBack(ms);
    PlainAlternates(ms);
    SystemFirst(system, AllToChat(ms).value);
    TurnsAre(SystemMessage(system) + AllToChat(ms).value, AsTurns(ms));
  }

  lemma {:induction false} SystemBack(system: string, ms: seq<Message>)
    requires AllToChat(ms).Ok?
    ensures Paragraphs(SystemParts(SystemMessage(system) + AllToChat(ms).value)) == system
  {
    NoSystem(ms);
    SystemSplit(SystemMessage(system), AllToChat(ms).value);
    if system != "" {
      assert SystemMessage(system)[..0] == [] && SystemParts([]) == [];
      assert [] + [system] == [system];
    }
  }

  /** Converting plain conversations to chat and back is the identity: every message, every
      block, in order, and the system text. */
  lemma {:induction false} RequestRoundTrip(system: string, ms: seq<Message>)
    requires PlainConversation(ms)
    ensures var chat := RequestToChat(system, ms);
            && chat.Ok? && FromChat(chat.value) == Ok(AsTurns(ms))
            && |AsTurns(ms)| == |ms| && (forall i :: 0 <= i < |ms| ==> AsTurns(ms)[i] == AsTurn(ms[i]))
            && Paragraphs(SystemParts(chat.value)) == system
  {
    AllBack(ms);
    AsTurnsAt(ms);
    TurnsBack(system, ms);
    SystemBack(system, ms);
  }

  lemma {:induction false} SystemSplit(a: seq<ChatMessage>, b: seq<ChatMessage>)
    requires forall m :: m in b ==> !IsSystem(m)
    ensures SystemParts(a + b) == SystemParts(a)
  {
    if b == [] {
      assert a + b == a;
    } else {
      assert (a + b)[..|a + b| - 1] == a + b[..|b| - 1];
      assert b == b[..|b| - 1] + [b[|b| - 1]];
      SystemSplit(a, b[..|b| - 1]);
    }
  }

  lemma {:induction false} SplitRoles(bs: seq<Content>)
    ensures forall m :: m in SplitAll(bs).out ==> !IsSystem(m)
  {
    if bs != [] { SplitRoles(bs[..|bs| - 1]); }
  }

  lemma {:induction false} NoSystem(ms: seq<Message>)
    requires AllToChat(ms).Ok?
    ensures forall m :: m in AllToChat(ms).value ==> !IsSystem(m)
  {
    if ms != [] {
      NoSystem(ms[..|ms| - 1]);
      var blocks := BlocksOf(ms[|ms| - 1].content);
      SplitRoles(blocks.value);
    }
  }

  // ---------------------------------------------------------------------------
  // The token limit and the thinking budget
  // ---------------------------------------------------------------------------

  /** The limit and, when thinking is enabled, its budget. */
  datatype Limits = Limits(maxTokens: int, thinking: Option<int>)

  datatype ChatLimits = ChatLimits(maxTokens: Option<int>, effort: string)

  function Effort(thinking: Option<int>): string {
    if thinking.None? || thinking.value <= 0 then "" else
      if thinking.value <= 2048 then "low" else if thinking.value <= 8192 then "medium" else "high"
  }

  function Budget(effort: string): int {
    if effort == "low" then 1024 else if effort == "medium" then 4096 else if effort == "high" then 16000 else 0
  }

  function LimitsToChat(l: Limits): ChatLimits {
    ChatLimits(if l.maxTokens > 0 then Some(l.maxTokens) else None, Effort(l.thinking))
  }

  function LimitsFromChat(c: ChatLimits): Limits {
    var limit := if c.maxTokens.Some? && c.maxTokens.value > 0 then c.maxTokens.value else 8192;
    var budget := Budget(c.effort);
    if budget > 0 then Limits(if limit <= budget then budget + 4096 else limit, Some(budget)) else Limits(limit, None)
  }

  /** The limits that come back unchanged are exactly those with a positive token limit above
      a budget that is one of the three the efforts stand for. */
  lemma {:induction false} LimitsRoundTrip(l: Limits)
    ensures LimitsFromChat(LimitsToChat(l)) == l <==>
              l.maxTokens > 0 && (l.thinking.None? || (l.thinking.value in {1024, 4096, 16000} && l.maxTokens > l.thinking.value))
  {
    assert Budget("low") == 1024 && Budget("medium") == 4096 && Budget("high") == 16000;
  }

  /** Whatever is asked for, a thinking budget leaves room for an answer. */
  lemma {:induction false} BudgetLeavesRoom(c: ChatLimits)
    ensures var l := LimitsFromChat(c); l.maxTokens > 0 && (l.thinking.Some? ==> l.maxTokens > l.thinking.value > 0)
  {
    assert Budget(c.effort) in {0, 1024, 4096, 16000};
  }
}
