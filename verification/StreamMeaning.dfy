/** The way back, Anthropic Messages to OpenAI Chat, and what a chat stream says: converting
    there and back keeps it. */
module StreamMeaning {
  import opened Wrappers
  import opened Streams

  const THINK_OPEN := "<think>\n"
  const THINK_CLOSE := "\n</think>\n"

  // ---------------------------------------------------------------------------
  // Messages to Chat
  // ---------------------------------------------------------------------------

  /** Where the conversion stands: tools maps a content block to its tool call index. */
  datatype Back = Back(tools: map<int, int>, nextTool: int, finish: string, thinking: bool, end: Ending, out: seq<ChatEvent>)

  const UNREAD: Back := Back(map[], 0, "stop", false, Running, [])

  function Content(s: string): ChatEvent { Chunk([Choice("", s, [], None)]) }

  function Reasoning(s: string): ChatEvent { Chunk([Choice(s, "", [], None)]) }

  function CallChunk(d: ToolDelta): ChatEvent { Chunk([Choice("", "", [d], None)]) }

  function FinishChunk(f: string): ChatEvent { Chunk([Choice("", "", [], Some(f))]) }

  function Send(b: Back, e: ChatEvent): Back { b.(out := b.out + [e]) }

  /** Thinking goes into its own field, or into the content between think tags. */
  function SendThinking(b: Back, s: string, fold: bool): Back {
    if !fold then Send(b, Reasoning(s))
    else Send(b.(thinking := true), Content(if b.thinking then s else THINK_OPEN + s))
  }

  function SendText(b: Back, s: string): Back {
    if b.thinking then Send(b.(thinking := false), Content(THINK_CLOSE + s)) else Send(b, Content(s))
  }

  function SendStart(b: Back, i: int, id: Id, name: string): Back {
    Send(b.(tools := b.tools[i := b.nextTool], nextTool := b.nextTool + 1),
         CallChunk(ToolDelta(Some(b.nextTool), Some(id), name, "")))
  }

  function SendJson(b: Back, i: int, json: string): Back {
    Send(b, CallChunk(ToolDelta(Some(if i in b.tools then b.tools[i] else 0), None, "", json)))
  }

  function SendStop(b: Back, includeUsage: bool): Back {
    var c := if b.thinking then Send(b.(thinking := false), Content(THINK_CLOSE)) else b;
    var d := Send(c, FinishChunk(b.finish));
    var e := if includeUsage then Send(d, Chunk([])) else d;
    Send(e, DoneMark).(end := SawDone)
  }

  function DoMessage(b: Back, e: MessageEvent, fold: bool, includeUsage: bool): Back {
    if b.end != Running then b else
      match e
      case MessageStart => Send(b, Content(""))
      case BlockStart(i, block) => if block.ToolUse? then SendStart(b, i, block.id, block.name) else b
      case BlockDelta(i, TextDelta(s)) => SendText(b, s)
      case BlockDelta(i, ThinkingDelta(s)) => SendThinking(b, s, fold)
      case BlockDelta(i, InputJson(j)) => SendJson(b, i, j)
      case BlockDelta(i, OtherDelta) => b
      case BlockStop(_) => b
      case MessageDelta(stop) => if stop != "" then b.(finish := StopToFinish(stop)) else b
      case MessageStop => SendStop(b, includeUsage)
      case ErrorEvent(m) => Send(b, ErrorChunk(m)).(end := Failed)
      case OtherEvent => b
      case MessageReadFails => b.(end := Failed)
  }

  function DoMessages(es: seq<MessageEvent>, fold: bool, includeUsage: bool): Back {
    if es == [] then UNREAD else DoMessage(DoMessages(es[..|es| - 1], fold, includeUsage), es[|es| - 1], fold, includeUsage)
  }

  /** Everything the conversion writes. */
  function Answer(es: seq<MessageEvent>, fold: bool, includeUsage: bool): seq<ChatEvent> {
    var b := DoMessages(es, fold, includeUsage);
    if b.end == Running then b.out + [ErrorChunk(INCOMPLETE)] else b.out
  }

  lemma {:induction false} MessageEndStays(es: seq<MessageEvent>, i: nat, fold: bool, includeUsage: bool)
    requires i <= |es| && DoMessages(es[..i], fold, includeUsage).end != Running
    ensures DoMessages(es, fold, includeUsage) == DoMessages(es[..i], fold, includeUsage)
  {
    if i < |es| {
      assert es[..|es| - 1][..i] == es[..i];
      MessageEndStays(es[..|es| - 1], i, fold, includeUsage);
    } else {
      assert es[..i] == es;
    }
  }

  /** The state of the think tags while a stream is converted. */
  class ThinkState {
    var open: bool

    constructor ()
      ensures !open
    {
      open := false;
    }

    method Reasoning(delta: string, fold: bool) returns (c: Choice)
      modifies this
      ensures open == (if fold then true else old(open))
      ensures c == if !fold then Choice(delta, "", [], None)
                   else Choice("", if old(open) then delta else THINK_OPEN + delta, [], None)
    {
      if !fold { return Choice(delta, "", [], None); }
      if !open {
        open := true;
        return Choice("", THINK_OPEN + delta, [], None);
      }
      return Choice("", delta, [], None);
    }

    method Text(delta: string) returns (c: Choice)
      modifies this
      ensures !open && c == Choice("", if old(open) then THINK_CLOSE + delta else delta, [], None)
    {
      if open {
        open := false;
        return Choice("", THINK_CLOSE + delta, [], None);
      }
      return Choice("", delta, [], None);
    }
  }

  class MessageStream {
    var blockTool: map<int, int>
    var nextTool: int
    var finish: string
    const think: ThinkState
    var out: seq<ChatEvent>
    ghost var end: Ending

    ghost function View(): Back
      reads this, think
    {
      Back(blockTool, nextTool, finish, think.open, end, out)
    }

    constructor ()
      ensures View() == UNREAD && fresh(think)
    {
      blockTool, nextTool, finish, out, end := map[], 0, "stop", [], Running;
      think := new ThinkState();
    }

    method Emit(c: Choice)
      modifies this`out
      ensures out == old(out) + [Chunk([c])]
    {
      out := out + [Chunk([c])];
    }

    method ReadDelta(index: int, delta: Delta, fold: bool, includeUsage: bool)
      requires end == Running
      modifies this, think
      ensures View() == DoMessage(old(View()), BlockDelta(index, delta), fold, includeUsage)
    {
      match delta {
        case TextDelta(s) =>
          var c := think.Text(s);
          Emit(c);
        case ThinkingDelta(s) =>
          var c := think.Reasoning(s, fold);
          Emit(c);
        case InputJson(j) =>
          var ti := 0;
          if index in blockTool { ti := blockTool[index]; }
          Emit(Choice("", "", [ToolDelta(Some(ti), None, "", j)], None));
        case OtherDelta =>
      }
    }

    method StartTool(index: int, id: Id, name: string)
      modifies this
      ensures View() == SendStart(old(View()), index, id, name)
    {
      var ti := nextTool;
      nextTool := nextTool + 1;
      blockTool := blockTool[index := ti];
      Emit(Choice("", "", [ToolDelta(Some(ti), Some(id), name, "")], None));
    }

    method Stop(includeUsage: bool)
      modifies this, think
      ensures View() == SendStop(old(View()), includeUsage)
    {
      if think.open {
        think.open := false;
        Emit(Choice("", THINK_CLOSE, [], None));
      }
      Emit(Choice("", "", [], Some(finish)));
      if includeUsage { out := out + [Chunk([])]; }
      out := out + [DoneMark];
      end := SawDone;
    }

    /** One event; more says whether to go on reading. */
    method Read(e: MessageEvent, fold: bool, includeUsage: bool) returns (more: bool)
      requires end == Running
      modifies this, think
      ensures View() == DoMessage(old(View()), e, fold, includeUsage)
      ensures more <==> end == Running
      ensures end == SawDone <==> e == MessageStop
    {
      more := true;
      match e {
        case MessageStart => Emit(Choice("", "", [], None));
        case BlockStart(index, block) => if block.ToolUse? { StartTool(index, block.id, block.name); }
        case BlockDelta(index, delta) => ReadDelta(index, delta, fold, includeUsage);
        case MessageDelta(stop) => if stop != "" { finish := StopToFinish(stop); }
        case ErrorEvent(m) =>
          out := out + [ErrorChunk(m)];
          end, more := Failed, false;
        case MessageStop =>
          Stop(includeUsage);
          more := false;
        case MessageReadFails => end, more := Failed, false;
        case _ =>
      }
    }

    method Convert(input: seq<MessageEvent>, fold: bool, includeUsage: bool) returns (ok: bool)
      requires View() == UNREAD
      modifies this, think
      ensures out == Answer(input, fold, includeUsage)
      ensures ok <==> DoMessages(input, fold, includeUsage).end == SawDone
    {
      for i := 0 to |input|
        invariant View() == DoMessages(input[..i], fold, includeUsage) && end == Running
      {
        assert input[..i + 1][..i] == input[..i];
        var more := Read(input[i], fold, includeUsage);
        if !more {
          MessageEndStays(input, i + 1, fold, includeUsage);
          return input[i] == MessageStop;
        }
      }
      assert input[..|input|] == input;
      out := out + [ErrorChunk(INCOMPLETE)];
      return false;
    }
  }
}
