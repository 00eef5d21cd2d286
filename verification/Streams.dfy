/** The two stream converters, OpenAI Chat to Anthropic Messages and back, as they emit
    events while reading. Events are typed: what JSON carries, without its text. */
module Streams {
  import opened Wrappers

  // ---------------------------------------------------------------------------
  // Events
  // ---------------------------------------------------------------------------

  /** A tool call id: given upstream, or made up by the converter for lack of one. */
  datatype Id = Given(text: string) | Generated(block: int)

  datatype ToolDelta = ToolDelta(index: Option<int>, id: Option<Id>, name: string, args: string)

  datatype Choice = Choice(reasoning: string, content: string, calls: seq<ToolDelta>, finish: Option<string>)

  datatype ChatEvent =
    | Chunk(choices: seq<Choice>)
    | ErrorChunk(message: string)
    | NotJson
    | DoneMark
    | ChatReadFails

  datatype Block = TextBlock | ThinkingBlock | ToolUse(id: Id, name: string) | OtherBlock

  datatype Delta = TextDelta(text: string) | ThinkingDelta(thinking: string) | InputJson(json: string) | OtherDelta

  datatype MessageEvent =
    | MessageStart
    | BlockStart(index: int, block: Block)
    | BlockDelta(index: int, delta: Delta)
    | BlockStop(index: int)
    | MessageDelta(stop: string)
    | MessageStop
    | ErrorEvent(error: string)
    | OtherEvent
    | MessageReadFails

  const INCOMPLETE := "upstream stream ended without a terminal event"

  function FinishToStop(f: string): string {
    if f == "length" then "max_tokens" else if f == "tool_calls" || f == "function_call" then "tool_use" else "end_turn"
  }

  function StopToFinish(s: string): string {
    if s == "max_tokens" then "length" else if s == "tool_use" then "tool_calls" else "stop"
  }

  // ---------------------------------------------------------------------------
  // Chat to Messages
  // ---------------------------------------------------------------------------

  /** What one choice carries, piece by piece in the order it is looked at. */
  datatype Piece = Reasoned(text: string) | Said(text: string) | Called(call: ToolDelta) | Finished(reason: string)

  function CallPieces(calls: seq<ToolDelta>): seq<Piece> {
    if calls == [] then [] else CallPieces(calls[..|calls| - 1]) + [Called(calls[|calls| - 1])]
  }

  function ReasonPart(c: Choice): seq<Piece> { if c.reasoning != "" then [Reasoned(c.reasoning)] else [] }

  function TextPart(c: Choice): seq<Piece> { if c.content != "" then [Said(c.content)] else [] }

  function FinishPart(c: Choice): seq<Piece> { if c.finish.Some? then [Finished(c.finish.value)] else [] }

  function ChoicePieces(c: Choice): seq<Piece> {
    ReasonPart(c) + TextPart(c) + CallPieces(c.calls) + FinishPart(c)
  }

  function Pieces(cs: seq<Choice>): seq<Piece> {
    if cs == [] then [] else Pieces(cs[..|cs| - 1]) + ChoicePieces(cs[|cs| - 1])
  }

  function Key(d: ToolDelta): int { if d.index.Some? then d.index.value else 0 }

  /** Where the conversion stands: tools maps a tool call index to its content block. */
  datatype Conv = Conv(started: bool, block: int, textOpen: bool, thinkOpen: bool, tools: map<int, int>, stop: string,
                       end: Ending, out: seq<MessageEvent>)

  datatype Ending = Running | SawDone | Failed

  const FRESH: Conv := Conv(false, -1, false, false, map[], "end_turn", Running, [])

  function Emit(c: Conv, e: MessageEvent): Conv { c.(out := c.out + [e]) }

  function Started(c: Conv): Conv { if c.started then c else Emit(c.(started := true), MessageStart) }

  function ClosedOpen(c: Conv): Conv {
    if c.textOpen || c.thinkOpen then Emit(c, BlockStop(c.block)).(textOpen := false, thinkOpen := false) else c
  }

  /** The next block index, opened for the given content. */
  function OpenedBlock(c: Conv, b: Block): Conv {
    var d := ClosedOpen(c);
    Emit(d.(block := d.block + 1), BlockStart(d.block + 1, b))
  }

  function WithThinking(c: Conv): Conv {
    if c.thinkOpen then c else OpenedBlock(c, ThinkingBlock).(thinkOpen := true)
  }

  function WithText(c: Conv): Conv {
    if c.textOpen then c else OpenedBlock(c, TextBlock).(textOpen := true)
  }

  function CallBlock(c: Conv, d: ToolDelta): Block {
    ToolUse(if d.id.Some? then d.id.value else Generated(ClosedOpen(c).block + 1), d.name)
  }

  function WithTool(c: Conv, d: ToolDelta): Conv {
    if Key(d) in c.tools then c else
      var o := OpenedBlock(c, CallBlock(c, d));
      o.(tools := o.tools[Key(d) := o.block])
  }

  function DoPiece(c: Conv, p: Piece): Conv {
    match p
    case Reasoned(s) => var d := WithThinking(c); Emit(d, BlockDelta(d.block, ThinkingDelta(s)))
    case Said(s) => var d := WithText(c); Emit(d, BlockDelta(d.block, TextDelta(s)))
    case Called(t) =>
      var d := WithTool(c, t);
      if t.args == "" || Key(t) !in d.tools then d else Emit(d, BlockDelta(d.tools[Key(t)], InputJson(t.args)))
    case Finished(f) => c.(stop := FinishToStop(f))
  }

  function DoPieces(c: Conv, ps: seq<Piece>): Conv {
    if ps == [] then c else DoPiece(DoPieces(c, ps[..|ps| - 1]), ps[|ps| - 1])
  }

  /** One event read; nothing is read after the end. */
  function DoEvent(c: Conv, e: ChatEvent): Conv {
    if c.end != Running then c else
      match e
      case DoneMark => c.(end := SawDone)
      case NotJson => c
      case ErrorChunk(m) => Emit(Started(c), ErrorEvent(m)).(end := Failed)
      case ChatReadFails => c.(end := Failed)
      case Chunk(choices) => DoPieces(Started(c), Pieces(choices))
  }

  function DoEvents(c: Conv, es: seq<ChatEvent>): Conv {
    if es == [] then c else DoEvent(DoEvents(c, es[..|es| - 1]), es[|es| - 1])
  }

  function Stops(order: seq<int>): seq<MessageEvent> {
    if order == [] then [] else Stops(order[..|order| - 1]) + [BlockStop(order[|order| - 1])]
  }

  /** An order in which the open tool blocks can be closed: each once. */
  ghost predicate Closing(tools: map<int, int>, order: seq<int>) {
    && (forall i, j :: 0 <= i < j < |order| ==> order[i] != order[j])
    && (forall b :: b in order <==> exists k :: k in tools && tools[k] == b)
  }

  /** The closing events, in the order the tool blocks happened to be closed. */
  function Closed(c: Conv, order: seq<int>): Conv {
    var d := ClosedOpen(Started(c));
    var f := d.(out := d.out + Stops(order), tools := map[]);
    if c.end == SawDone then Emit(Emit(f, MessageDelta(c.stop)), MessageStop) else Emit(f, ErrorEvent(INCOMPLETE))
  }

  // ---------------------------------------------------------------------------
  // Reading pieces and events one after the other
  // ---------------------------------------------------------------------------

  ghost function Next(c: Conv, done: seq<Piece>, p: Piece): (r: seq<Piece>)
    ensures DoPieces(c, r) == DoPiece(DoPieces(c, done), p) && r == done + [p]
  {
    assert (done + [p])[..|done|] == done;
    done + [p]
  }

  lemma {:induction false} OnePiece(c: Conv, p: Piece)
    ensures DoPieces(c, [p]) == DoPiece(c, p)
  {
    assert [p][..|[p]| - 1] == [];
  }

  lemma {:induction false} PiecesConcat(c: Conv, a: seq<Piece>, b: seq<Piece>)
    ensures DoPieces(c, a + b) == DoPieces(DoPieces(c, a), b)
  {
    if b == [] {
      assert a + b == a;
    } else {
      assert (a + b)[..|a + b| - 1] == a + b[..|b| - 1];
      PiecesConcat(c, a, b[..|b| - 1]);
    }
  }

  lemma {:induction false} EndUnchanged(c: Conv, ps: seq<Piece>)
    ensures DoPieces(c, ps).end == c.end
  {
    if ps != [] { EndUnchanged(c, ps[..|ps| - 1]); }
  }

  lemma {:induction false} EndStays(c: Conv, es: seq<ChatEvent>, i: nat)
    requires i <= |es| && DoEvents(c, es[..i]).end != Running
    ensures DoEvents(c, es) == DoEvents(c, es[..i])
  {
    if i < |es| {
      assert es[..|es| - 1][..i] == es[..i];
      EndStays(c, es[..|es| - 1], i);
    } else {
      assert es[..i] == es;
    }
  }

  // ---------------------------------------------------------------------------
  // What a reader of the events may rely on
  // ---------------------------------------------------------------------------

  datatype Kind = KText | KThinking | KTool | KOther

  datatype Flow = Flowing | Summed | Over

  /** A strict reader of message events: Bad once an event is out of place. */
  datatype Sink = Bad | Sink(begun: bool, next: int, open: map<int, Kind>, flow: Flow)

  function KindOf(b: Block): Kind {
    match b
    case TextBlock => KText
    case ThinkingBlock => KThinking
    case ToolUse(_, _) => KTool
    case OtherBlock => KOther
  }

  predicate Fits(k: Kind, d: Delta) {
    (k == KText && d.TextDelta?) || (k == KThinking && d.ThinkingDelta?) || (k == KTool && d.InputJson?)
  }

  /** One message_start, first; blocks numbered in the order they open, each opened once; no
      text or thinking block open while another block opens; deltas of the right kind, to
      open blocks only, text and thinking only to the newest; stops only of open blocks; the
      summary once nothing is open, the stop after it, nothing after a stop or an error. */
  function Accept(k: Sink, e: MessageEvent): Sink {
    if k.Bad? || k.flow == Over then Bad else
      match e
      case MessageStart => if k.begun then Bad else k.(begun := true)
      case BlockStart(i, b) =>
        if !k.begun || k.flow != Flowing || i != k.next || (exists o :: o in k.open && k.open[o] != KTool) then Bad
        else k.(next := i + 1, open := k.open[i := KindOf(b)])
      case BlockDelta(i, d) =>
        if i !in k.open || !Fits(k.open[i], d) || (k.open[i] != KTool && i != k.next - 1) then Bad else k
      case BlockStop(i) => if i !in k.open then Bad else k.(open := k.open - {i})
      case MessageDelta(_) => if !k.begun || k.flow != Flowing || k.open != map[] then Bad else k.(flow := Summed)
      case MessageStop => if k.flow != Summed then Bad else k.(flow := Over)
      case ErrorEvent(_) => if !k.begun then Bad else k.(flow := Over)
      case _ => Bad
  }

  function SinkOf(es: seq<MessageEvent>): Sink {
    if es == [] then Sink(false, 0, map[], Flowing) else Accept(SinkOf(es[..|es| - 1]), es[|es| - 1])
  }

  lemma {:induction false} SinkSnoc(es: seq<MessageEvent>, e: MessageEvent)
    ensures SinkOf(es + [e]) == Accept(SinkOf(es), e)
  {
    assert (es + [e])[..|es|] == es;
  }

  predicate IsTool(tools: map<int, int>, b: int) { exists t :: t in tools && tools[t] == b }

  /** What the reader sees is what the conversion believes. */
  ghost predicate Shape(c: Conv) {
    var k := SinkOf(c.out);
    && k.Sink? && k.flow == Flowing && k.begun == c.started && k.next == c.block + 1
    && (forall b :: b in k.open <==> IsTool(c.tools, b) || (b == c.block && (c.textOpen || c.thinkOpen)))
    && (forall t :: t in c.tools ==> c.tools[t] <= c.block && k.open[c.tools[t]] == KTool)
    && (c.textOpen ==> !c.thinkOpen && k.open[c.block] == KText)
    && (c.thinkOpen ==> k.open[c.block] == KThinking)
    && Injective(c.tools)
    && (!c.started ==> c == FRESH.(end := c.end))
  }

  lemma {:induction false} StartedShape(c: Conv)
    requires Shape(c)
    ensures Shape(Started(c)) && Started(c).started
  {
    if !c.started { SinkSnoc(c.out, MessageStart); }
  }

  lemma {:induction false} ClosedOpenShape(c: Conv)
    requires Shape(c)
    ensures Shape(ClosedOpen(c)) && !ClosedOpen(c).textOpen && !ClosedOpen(c).thinkOpen
  {
    if c.textOpen || c.thinkOpen {
      SinkSnoc(c.out, BlockStop(c.block));
      assert forall t :: t in c.tools ==> c.tools[t] != c.block;
    }
  }

  /** Opening a block once the last one is closed. */
  lemma {:induction false} OpenedShape(d: Conv, b: Block)
    requires Shape(d) && d.started && !d.textOpen && !d.thinkOpen
    ensures var k, k2 := SinkOf(d.out), SinkOf(d.out + [BlockStart(d.block + 1, b)]);
            k2 == Sink(true, d.block + 2, k.open[d.block + 1 := KindOf(b)], Flowing)
    ensures !IsTool(d.tools, d.block + 1)
  {
    SinkSnoc(d.out, BlockStart(d.block + 1, b));
    forall o | o in SinkOf(d.out).open ensures SinkOf(d.out).open[o] == KTool {
      var t :| t in d.tools && d.tools[t] == o;
    }
    assert forall t :: t in d.tools ==> d.tools[t] != d.block + 1;
  }

  /** A text or a thinking block, as its flag says. */
  lemma {:induction false} ProseOpenedShape(d: Conv, text: bool, after: Conv)
    requires Shape(d) && d.started && !d.textOpen && !d.thinkOpen
    requires after == Emit(d.(block := d.block + 1, textOpen := text, thinkOpen := !text),
                           BlockStart(d.block + 1, if text then TextBlock else ThinkingBlock))
    ensures Shape(after)
  {
    OpenedShape(d, if text then TextBlock else ThinkingBlock);
  }

  lemma {:induction false} WithTextShape(c: Conv)
    requires Shape(c) && c.started
    ensures Shape(WithText(c)) && WithText(c).textOpen && WithText(c).started
  {
    if !c.textOpen {
      ClosedOpenShape(c);
      ProseOpenedShape(ClosedOpen(c), true, WithText(c));
    }
  }

  lemma {:induction false} WithThinkingShape(c: Conv)
    requires Shape(c) && c.started
    ensures Shape(WithThinking(c)) && WithThinking(c).thinkOpen && WithThinking(c).started
  {
    if !c.thinkOpen {
      ClosedOpenShape(c);
      ProseOpenedShape(ClosedOpen(c), false, WithThinking(c));
    }
  }

  /** One more tool block among those open. */
  lemma {:induction false} MoreTools(tools: map<int, int>, key: int, block: int)
    requires key !in tools && Injective(tools) && !IsTool(tools, block)
    ensures Injective(tools[key := block])
    ensures forall b :: IsTool(tools[key := block], b) <==> IsTool(tools, b) || b == block
  {
    var more := tools[key := block];
    forall b ensures IsTool(more, b) <==> IsTool(tools, b) || b == block {
      if IsTool(tools, b) {
        var x :| x in tools && tools[x] == b;
        assert more[x] == b;
      }
      if b == block { assert more[key] == b; }
    }
    forall k, l | k in more && l in more && more[k] == more[l] ensures k == l {
      assert k in tools ==> IsTool(tools, tools[k]);
      assert l in tools ==> IsTool(tools, tools[l]);
    }
  }

  lemma {:induction false} ToolOpenedShape(d: Conv, t: ToolDelta, b: Block, after: Conv)
    requires Shape(d) && d.started && !d.textOpen && !d.thinkOpen && b.ToolUse? && Key(t) !in d.tools
    requires after == Emit(d.(block := d.block + 1, tools := d.tools[Key(t) := d.block + 1]), BlockStart(d.block + 1, b))
    ensures Shape(after)
  {
    OpenedShape(d, b);
    MoreTools(d.tools, Key(t), d.block + 1);
  }

  lemma {:induction false} WithToolShape(c: Conv, t: ToolDelta)
    requires Shape(c) && c.started
    ensures Shape(WithTool(c, t)) && Key(t) in WithTool(c, t).tools && WithTool(c, t).started
  {
    if Key(t) !in c.tools {
      ClosedOpenShape(c);
      ToolOpenedShape(ClosedOpen(c), t, CallBlock(c, t), WithTool(c, t));
    }
  }

  /** A delta to an open block of its kind changes nothing the reader tracks. */
  lemma {:induction false} DeltaShape(c: Conv, i: int, d: Delta)
    requires Shape(c)
    requires var k := SinkOf(c.out); i in k.open && Fits(k.open[i], d) && (k.open[i] == KTool || i == c.block)
    ensures Shape(Emit(c, BlockDelta(i, d)))
  {
    SinkSnoc(c.out, BlockDelta(i, d));
  }

  lemma {:induction false} PieceShape(c: Conv, p: Piece)
    requires Shape(c) && c.started
    ensures Shape(DoPiece(c, p)) && DoPiece(c, p).started
  {
    match p {
      case Reasoned(s) =>
        WithThinkingShape(c);
        DeltaShape(WithThinking(c), WithThinking(c).block, ThinkingDelta(s));
      case Said(s) =>
        WithTextShape(c);
        DeltaShape(WithText(c), WithText(c).block, TextDelta(s));
      case Called(t) =>
        WithToolShape(c, t);
        var d := WithTool(c, t);
        assert IsTool(d.tools, d.tools[Key(t)]);
        if t.args != "" { DeltaShape(d, d.tools[Key(t)], InputJson(t.args)); }
      case Finished(_) =>
    }
  }

  lemma {:induction false} PiecesShape(c: Conv, ps: seq<Piece>)
    requires Shape(c) && c.started
    ensures Shape(DoPieces(c, ps)) && DoPieces(c, ps).started
  {
    if ps != [] {
      PiecesShape(c, ps[..|ps| - 1]);
      PieceShape(DoPieces(c, ps[..|ps| - 1]), ps[|ps| - 1]);
    }
  }

  /** What the reader sees of a conversion that is over: an error read ends with an error
      event, unless the connection itself broke. */
  ghost predicate ShapeOrFailed(c: Conv) {
    if c.end != Failed then Shape(c) else
      && SinkOf(c.out).Sink?
      && (SinkOf(c.out).flow == Flowing || (c.out != [] && c.out[|c.out| - 1].ErrorEvent?))
  }

  /** A stop is the last thing a well-formed stream says. */
  lemma {:induction false} StopIsLast(es: seq<MessageEvent>)
    requires SinkOf(es).Sink? && MessageStop in es
    ensures SinkOf(es).flow == Over && es[|es| - 1] == MessageStop
  {
    var init := es[..|es| - 1];
    assert es == init + [es[|es| - 1]];
    if MessageStop in init { StopIsLast(init); }
  }

  lemma {:induction false} EventsShape(es: seq<ChatEvent>)
    ensures ShapeOrFailed(DoEvents(FRESH, es))
  {
    if es == [] {
      forall b ensures !IsTool(map[], b) {}
    } else {
      EventsShape(es[..|es| - 1]);
      EventShape(DoEvents(FRESH, es[..|es| - 1]), es[|es| - 1]);
    }
  }

  lemma {:induction false} ChunkShape(c: Conv, choices: seq<Choice>)
    requires Shape(c) && c.end == Running
    ensures Shape(DoEvent(c, Chunk(choices))) && DoEvent(c, Chunk(choices)).end == Running
  {
    StartedShape(c);
    PiecesShape(Started(c), Pieces(choices));
    EndUnchanged(Started(c), Pieces(choices));
  }

  lemma {:induction false} SinkError(out: seq<MessageEvent>, m: string)
    requires SinkOf(out).Sink? && SinkOf(out).begun && SinkOf(out).flow == Flowing
    ensures SinkOf(out + [ErrorEvent(m)]) == SinkOf(out).(flow := Over)
  {
    SinkSnoc(out, ErrorEvent(m));
  }

  lemma {:induction false} ErrorShape(c: Conv, m: string)
    requires Shape(c)
    ensures SinkOf(Started(c).out).Sink? && SinkOf(Emit(Started(c), ErrorEvent(m)).out) == SinkOf(Started(c).out).(flow := Over)
  {
    StartedShape(c);
    SinkError(Started(c).out, m);
  }

  lemma {:induction false} EventShape(c: Conv, e: ChatEvent)
    requires ShapeOrFailed(c)
    ensures ShapeOrFailed(DoEvent(c, e))
  {
    if c.end == Running {
      if e.Chunk? {
        ChunkShape(c, e.choices);
      } else if e.ErrorChunk? {
        ErrorShape(c, e.message);
        StartedShape(c);
      } else {
        assert DoEvent(c, e).out == c.out;
      }
    }
  }

  lemma {:induction false} ToolsInjective(input: seq<ChatEvent>)
    requires DoEvents(FRESH, input).end != Failed
    ensures Injective(DoEvents(FRESH, input).tools)
  {
    EventsShape(input);
  }

  /** The blocks still open once those listed are closed. */
  function Without(open: map<int, Kind>, order: seq<int>): (r: map<int, Kind>)
    ensures forall b :: b in r <==> b in open && b !in order
  {
    if order == [] then open else Without(open, order[..|order| - 1]) - {order[|order| - 1]}
  }

  /** Closing open blocks, each once, in any order. */
  lemma {:induction false} StopsShape(out: seq<MessageEvent>, k: Sink, order: seq<int>)
    requires k == SinkOf(out) && k.Sink? && k.flow == Flowing
    requires forall i, j :: 0 <= i < j < |order| ==> order[i] != order[j]
    requires forall b :: b in order ==> b in k.open
    ensures SinkOf(out + Stops(order)) == k.(open := Without(k.open, order))
  {
    if order == [] {
      assert out + Stops(order) == out;
    } else {
      var init, last := order[..|order| - 1], order[|order| - 1];
      StopsShape(out, k, init);
      assert out + Stops(order) == (out + Stops(init)) + [BlockStop(last)];
      assert last !in init && last in k.open;
      OneStopped(out + Stops(init), k.(open := Without(k.open, init)), last);
    }
  }

  lemma {:induction false} OneStopped(out: seq<MessageEvent>, k: Sink, block: int)
    requires k == SinkOf(out) && k.Sink? && k.flow == Flowing && block in k.open
    ensures SinkOf(out + [BlockStop(block)]) == k.(open := k.open - {block})
  {
    SinkSnoc(out, BlockStop(block));
  }

  lemma {:induction false} AllStopped(d: Conv, order: seq<int>)
    requires Shape(d) && d.started && !d.textOpen && !d.thinkOpen && Closing(d.tools, order)
    ensures SinkOf(d.out + Stops(order)) == Sink(true, d.block + 1, map[], Flowing)
  {
    var k := SinkOf(d.out);
    StopsShape(d.out, k, order);
    forall b | b in k.open ensures b in order { assert IsTool(d.tools, b); }
    assert Without(k.open, order) == map[];
  }

  lemma {:induction false} Ended(out: seq<MessageEvent>, next: int, stop: string, error: string)
    requires SinkOf(out) == Sink(true, next, map[], Flowing)
    ensures SinkOf(out + [MessageDelta(stop)] + [MessageStop]) == Sink(true, next, map[], Over)
    ensures SinkOf(out + [ErrorEvent(error)]) == Sink(true, next, map[], Over)
  {
    SinkSnoc(out, MessageDelta(stop));
    SinkSnoc(out + [MessageDelta(stop)], MessageStop);
    SinkSnoc(out, ErrorEvent(error));
  }

  /** A stream that ends, complete or cut short, leaves no block open, stops each one once,
      and stops the message exactly when it was complete. */
  lemma {:induction false} ClosedShape(c: Conv, order: seq<int>)
    requires Shape(c) && Closing(c.tools, order)
    ensures SinkOf(Closed(c, order).out) == Sink(true, c.block + 1, map[], Over)
    ensures Closed(c, order).out[|Closed(c, order).out| - 1] == if c.end == SawDone then MessageStop else ErrorEvent(INCOMPLETE)
  {
    StartedShape(c);
    ClosedOpenShape(Started(c));
    var d := ClosedOpen(Started(c));
    AllStopped(d, order);
    Ended(d.out + Stops(order), c.block + 1, c.stop, INCOMPLETE);
  }

  /** The events a whole conversion emits. */
  function Emitted(input: seq<ChatEvent>, order: seq<int>): seq<MessageEvent> {
    var c := DoEvents(FRESH, input);
    if c.end == Failed then c.out else Closed(c, order).out
  }

  /** On every input the events are well formed, whatever chunks arrive and however the
      stream ends; unless reading failed no block is left open; the message is stopped only if
      the input said it was done. */
  lemma {:induction false} AlwaysWellFormed(input: seq<ChatEvent>, order: seq<int>)
    requires DoEvents(FRESH, input).end != Failed ==> Closing(DoEvents(FRESH, input).tools, order)
    ensures var c := DoEvents(FRESH, input); var k := SinkOf(Emitted(input, order));
            && k.Sink? && (c.end != Failed ==> k.open == map[] && k.flow == Over)
            && (MessageStop in Emitted(input, order) <==> c.end == SawDone)
  {
    EventsShape(input);
    var c := DoEvents(FRESH, input);
    if c.end != Failed { ClosedShape(c, order); }
    if MessageStop in Emitted(input, order) { StopIsLast(Emitted(input, order)); }
  }

  ghost predicate Injective(tools: map<int, int>) {
    forall k, l :: k in tools && l in tools && tools[k] == tools[l] ==> k == l
  }

  class ChatStream {
    var started: bool
    var blockIndex: int
    var textOpen: bool
    var thinkOpen: bool
    var toolBlocks: map<int, int>
    var stopReason: string
    var out: seq<MessageEvent>
    ghost var end: Ending

    ghost function View(): Conv
      reads this
    {
      Conv(started, blockIndex, textOpen, thinkOpen, toolBlocks, stopReason, end, out)
    }

    constructor ()
      ensures View() == FRESH
    {
      started, blockIndex, textOpen, thinkOpen := false, -1, false, false;
      toolBlocks, stopReason, out, end := map[], "end_turn", [], Running;
    }

    method Start()
      modifies this
      ensures View() == Started(old(View()))
    {
      if started { return; }
      started := true;
      out := out + [MessageStart];
    }

    method CloseOpen()
      modifies this
      ensures View() == ClosedOpen(old(View()))
    {
      if textOpen || thinkOpen {
        out := out + [BlockStop(blockIndex)];
        textOpen, thinkOpen := false, false;
      }
    }

    /** Closes the tool blocks in whatever order the map gives them. */
    method CloseTools() returns (ghost order: seq<int>)
      requires Injective(toolBlocks)
      modifies this
      ensures Closing(old(toolBlocks), order)
      ensures View() == old(View()).(out := old(out) + Stops(order), tools := map[])
    {
      order := [];
      var left := toolBlocks.Keys;
      assert out + [] == out;
      while left != {}
        invariant toolBlocks == old(toolBlocks) && left <= toolBlocks.Keys
        invariant View() == old(View()).(out := old(out) + Stops(order))
        invariant forall i, j :: 0 <= i < j < |order| ==> order[i] != order[j]
        invariant forall b :: b in order <==> exists k :: k in toolBlocks && k !in left && toolBlocks[k] == b
        decreases left
      {
        var k := Pick(left);
        var b := toolBlocks[k];
        assert b !in order;
        out := out + [BlockStop(b)];
        assert (order + [b])[..|order|] == order;
        assert old(out) + Stops(order) + [BlockStop(b)] == old(out) + (Stops(order) + [BlockStop(b)]);
        order := order + [b];
        left := left - {k};
      }
      toolBlocks := map[];
    }

    method OpenBlock(b: Block)
      modifies this
      ensures View() == OpenedBlock(old(View()), b)
    {
      CloseOpen();
      blockIndex := blockIndex + 1;
      out := out + [BlockStart(blockIndex, b)];
    }

    method Reason(s: string)
      modifies this
      ensures View() == DoPiece(old(View()), Reasoned(s))
    {
      if !thinkOpen {
        OpenBlock(ThinkingBlock);
        thinkOpen := true;
      }
      out := out + [BlockDelta(blockIndex, ThinkingDelta(s))];
    }

    method Say(s: string)
      modifies this
      ensures View() == DoPiece(old(View()), Said(s))
    {
      if !textOpen {
        OpenBlock(TextBlock);
        textOpen := true;
      }
      out := out + [BlockDelta(blockIndex, TextDelta(s))];
    }

    method Call(tc: ToolDelta)
      modifies this
      ensures View() == DoPiece(old(View()), Called(tc))
    {
      var idx := 0;
      if tc.index.Some? { idx := tc.index.value; }
      if idx !in toolBlocks {
        CloseOpen();
        blockIndex := blockIndex + 1;
        toolBlocks := toolBlocks[idx := blockIndex];
        var id := if tc.id.Some? then tc.id.value else Generated(blockIndex);
        out := out + [BlockStart(blockIndex, ToolUse(id, tc.name))];
      }
      var bi := toolBlocks[idx];
      if tc.args != "" { out := out + [BlockDelta(bi, InputJson(tc.args))]; }
    }

    method TakeCalls(calls: seq<ToolDelta>)
      modifies this
      ensures View() == DoPieces(old(View()), CallPieces(calls))
    {
      ghost var s := View();
      for i := 0 to |calls|
        invariant View() == DoPieces(s, CallPieces(calls[..i]))
      {
        Call(calls[i]);
        assert calls[..i + 1][..i] == calls[..i];
        ghost var done := Next(s, CallPieces(calls[..i]), Called(calls[i]));
      }
      assert calls[..|calls|] == calls;
    }

    method Take(ch: Choice)
      modifies this
      ensures View() == DoPieces(old(View()), ChoicePieces(ch))
    {
      ghost var s := View();
      TakeProse(ch);
      TakeCalls(ch.calls);
      PiecesConcat(s, ReasonPart(ch) + TextPart(ch), CallPieces(ch.calls));
      TakeFinish(ch);
      PiecesConcat(s, ReasonPart(ch) + TextPart(ch) + CallPieces(ch.calls), FinishPart(ch));
    }

    method TakeProse(ch: Choice)
      modifies this
      ensures View() == DoPieces(old(View()), ReasonPart(ch) + TextPart(ch))
    {
      ghost var s := View();
      if ch.reasoning != "" { Reason(ch.reasoning); }
      OnePiece(s, Reasoned(ch.reasoning));
      ghost var t := View();
      if ch.content != "" { Say(ch.content); }
      OnePiece(t, Said(ch.content));
      PiecesConcat(s, ReasonPart(ch), TextPart(ch));
    }

    method TakeFinish(ch: Choice)
      modifies this`stopReason
      ensures View() == DoPieces(old(View()), FinishPart(ch))
    {
      ghost var s := View();
      if ch.finish.Some? {
        stopReason := FinishToStop(ch.finish.value);
        OnePiece(s, Finished(ch.finish.value));
      }
    }

    /** The whole conversion. The tool blocks are closed in some order; the result says
        whether the stream was complete. */
    method Convert(input: seq<ChatEvent>) returns (ok: bool, ghost order: seq<int>)
      requires View() == FRESH
      modifies this
      ensures var c := DoEvents(FRESH, input);
              if c.end == Failed then out == c.out && !ok
              else Closing(c.tools, order) && out == Closed(c, order).out && (ok <==> c.end == SawDone)
    {
      order := [];
      var more := true;
      for i := 0 to |input|
        invariant View() == DoEvents(FRESH, input[..i]) && end == Running && more
      {
        assert input[..i + 1][..i] == input[..i];
        more := Read(input[i]);
        if !more {
          EndStays(FRESH, input, i + 1);
          if input[i] != DoneMark { return false, []; }
          break;
        }
      }
      assert input[..|input|] == input;
      ToolsInjective(input);
      ok := !more;
      order := Close(ok);
    }

    /** One event; more says whether to go on reading. */
    method Read(ev: ChatEvent) returns (more: bool)
      requires end == Running
      modifies this
      ensures View() == DoEvent(old(View()), ev)
      ensures more <==> end == Running
      ensures end == SawDone <==> ev == DoneMark
    {
      more := true;
      match ev {
        case DoneMark => end, more := SawDone, false;
        case ChatReadFails => end, more := Failed, false;
        case NotJson =>
        case ErrorChunk(m) =>
          Start();
          out := out + [ErrorEvent(m)];
          end, more := Failed, false;
        case Chunk(choices) =>
          Start();
          TakeAll(choices);
      }
    }

    method TakeAll(choices: seq<Choice>)
      modifies this
      ensures View() == DoPieces(old(View()), Pieces(choices)) && end == old(end)
    {
      ghost var s := View();
      for j := 0 to |choices|
        invariant View() == DoPieces(s, Pieces(choices[..j]))
      {
        Take(choices[j]);
        assert choices[..j + 1][..j] == choices[..j];
        PiecesConcat(s, Pieces(choices[..j]), ChoicePieces(choices[j]));
      }
      assert choices[..|choices|] == choices;
      EndUnchanged(s, Pieces(choices));
    }

    /** What follows the last event that was read. */
    method Close(done: bool) returns (ghost order: seq<int>)
      requires Injective(toolBlocks) && (done <==> end == SawDone)
      modifies this
      ensures Closing(old(toolBlocks), order) && out == Closed(old(View()), order).out
    {
      Start();
      CloseOpen();
      order := CloseTools();
      if !done {
        out := out + [ErrorEvent(INCOMPLETE)];
        return;
      }
      out := out + [MessageDelta(stopReason)];
      out := out + [MessageStop];
    }
  }
}
