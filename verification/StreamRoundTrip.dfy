/** Converting a chat stream to message events and back says the same thing. */
module StreamRoundTrip {
  import opened Wrappers
  import opened Streams
  import opened StreamMeaning
  import Sse

  /** A tool call put together from its pieces. */
  datatype Tool = Tool(key: int, id: Option<Id>, name: string, args: string)

  /** What a chat stream has said so far; tools are in order of first appearance. */
  datatype Meaning = Meaning(text: string, reasoning: string, tools: seq<Tool>, finish: Option<string>, end: Ending)

  const SILENCE: Meaning := Meaning("", "", [], None, Running)

  /** The position of a tool call index, or the length. */
  function Find(tools: seq<Tool>, key: int): (i: nat)
    ensures i <= |tools| && (i < |tools| ==> tools[i].key == key)
    ensures forall j :: 0 <= j < i ==> tools[j].key != key
  {
    if tools == [] then 0
    else
      var i := Find(tools[..|tools| - 1], key);
      if i < |tools| - 1 || tools[|tools| - 1].key == key then i else |tools|
  }

  /** The first id and name given stand; arguments add up. */
  function Hear(t: Tool, d: ToolDelta): Tool {
    t.(id := if t.id.None? then d.id else t.id, name := if t.name == "" then d.name else t.name, args := t.args + d.args)
  }

  function HearCall(tools: seq<Tool>, d: ToolDelta): seq<Tool> {
    var i := Find(tools, Key(d));
    if i < |tools| then tools[i := Hear(tools[i], d)] else tools + [Tool(Key(d), d.id, d.name, d.args)]
  }

  function HearPiece(m: Meaning, p: Piece): Meaning {
    match p
    case Reasoned(s) => m.(reasoning := m.reasoning + s)
    case Said(s) => m.(text := m.text + s)
    case Called(d) => m.(tools := HearCall(m.tools, d))
    case Finished(f) => m.(finish := Some(f))
  }

  function HearPieces(m: Meaning, ps: seq<Piece>): Meaning {
    if ps == [] then m else HearPiece(HearPieces(m, ps[..|ps| - 1]), ps[|ps| - 1])
  }

  function HearEvent(m: Meaning, e: ChatEvent): Meaning {
    if m.end != Running then m else
      match e
      case Chunk(choices) => HearPieces(m, Pieces(choices))
      case DoneMark => m.(end := SawDone)
      case ErrorChunk(_) => m.(end := Failed)
      case NotJson => m
      case ChatReadFails => m.(end := Failed)
  }

  function Heard(es: seq<ChatEvent>): Meaning {
    if es == [] then SILENCE else HearEvent(Heard(es[..|es| - 1]), es[|es| - 1])
  }

  lemma {:induction false} HeardSnoc(es: seq<ChatEvent>, e: ChatEvent)
    ensures Heard(es + [e]) == HearEvent(Heard(es), e)
  {
    assert (es + [e])[..|es|] == es;
  }

  // ---------------------------------------------------------------------------
  // The condition: a tool call's id and name come with its first piece
  // ---------------------------------------------------------------------------

  predicate Introduced(tools: seq<Tool>, d: ToolDelta) {
    Find(tools, Key(d)) < |tools| || (d.id.Some? && d.name != "")
  }

  predicate PiecesIntroduced(m: Meaning, ps: seq<Piece>) {
    ps == [] || (PiecesIntroduced(m, ps[..|ps| - 1])
                 && (ps[|ps| - 1].Called? ==> Introduced(HearPieces(m, ps[..|ps| - 1]).tools, ps[|ps| - 1].call)))
  }

  predicate AllIntroduced(es: seq<ChatEvent>) {
    es == [] || (AllIntroduced(es[..|es| - 1])
                 && (es[|es| - 1].Chunk? ==> PiecesIntroduced(Heard(es[..|es| - 1]), Pieces(es[|es| - 1].choices))))
  }

  // ---------------------------------------------------------------------------
  // One chunk of the way back
  // ---------------------------------------------------------------------------

  lemma {:induction false} OneChoice(c: Choice)
    ensures Pieces([c]) == ChoicePieces(c)
  {
    assert [c][..|[c]| - 1] == [];
    assert [] + ChoicePieces(c) == ChoicePieces(c);
  }

  lemma {:induction false} HeardOne(m: Meaning, p: Piece)
    ensures HearPieces(m, [p]) == HearPiece(m, p)
  {
    assert [p][..|[p]| - 1] == [];
  }

  lemma {:induction false} HearContent(m: Meaning, s: string)
    requires m.end == Running
    ensures HearEvent(m, Content(s)) == m.(text := m.text + s)
  {
    var c := Choice("", s, [], None);
    OneChoice(c);
    if s == "" {
      assert ChoicePieces(c) == [];
      assert m.text + "" == m.text;
    } else {
      assert ChoicePieces(c) == [Said(s)];
      HeardOne(m, Said(s));
    }
  }

  lemma {:induction false} HearReasoning(m: Meaning, s: string)
    requires m.end == Running
    ensures HearEvent(m, Reasoning(s)) == m.(reasoning := m.reasoning + s)
  {
    var c := Choice(s, "", [], None);
    OneChoice(c);
    if s == "" {
      assert ChoicePieces(c) == [];
      assert m.reasoning + "" == m.reasoning;
    } else {
      assert ChoicePieces(c) == [Reasoned(s)];
      HeardOne(m, Reasoned(s));
    }
  }

  lemma {:induction false} HearCallChunk(m: Meaning, d: ToolDelta)
    requires m.end == Running
    ensures HearEvent(m, CallChunk(d)) == m.(tools := HearCall(m.tools, d))
  {
    var c := Choice("", "", [d], None);
    OneChoice(c);
    assert [d][..|[d]| - 1] == [];
    assert CallPieces([]) == [] && [] + [Called(d)] == [Called(d)];
    assert CallPieces([d]) == [Called(d)];
    assert ChoicePieces(c) == [Called(d)];
    HeardOne(m, Called(d));
  }

  lemma {:induction false} HearFinish(m: Meaning, f: string)
    requires m.end == Running
    ensures HearEvent(m, FinishChunk(f)) == m.(finish := Some(f))
  {
    var c := Choice("", "", [], Some(f));
    OneChoice(c);
    assert ChoicePieces(c) == [Finished(f)];
    HeardOne(m, Finished(f));
  }

  // ---------------------------------------------------------------------------
  // The relation kept event by event
  // ---------------------------------------------------------------------------

  /** The same tool call under the position it first appeared at. */
  predicate SameTool(i: int, out: Tool, given: Tool) {
    out == Tool(i, given.id, given.name, given.args)
  }

  ghost predicate ToolsAgree(back: map<int, int>, next: int, heard: seq<Tool>, blocks: map<int, int>, last: int, tools: seq<Tool>) {
    && |heard| == |tools| == next
    && (forall i :: 0 <= i < |tools| ==>
          && SameTool(i, heard[i], tools[i]) && tools[i].id.Some? && tools[i].name != ""
          && tools[i].key in blocks && blocks[tools[i].key] in back && back[blocks[tools[i].key]] == i)
    && (forall k :: k in blocks ==> Find(tools, k) < |tools|)
    && (forall b :: b in back ==> b <= last)
  }

  /** What has been written back so far says what has been read. */
  ghost predicate Agree(b: Back, n: Meaning, c: Conv, m: Meaning) {
    && b.end == Running && n.end == Running && !b.thinking && b.finish == "stop" && n.finish == None
    && n.text == m.text && n.reasoning == m.reasoning
    && ToolsAgree(b.tools, b.nextTool, n.tools, c.tools, c.block, m.tools)
    && c.stop == (if m.finish.Some? then FinishToStop(m.finish.value) else "end_turn")
  }

  /** The relation, for the events a conversion has emitted. */
  ghost predicate Faithful(c: Conv, m: Meaning, usage: bool) {
    var b := DoMessages(c.out, false, usage);
    Agree(b, Heard(b.out), c, m)
  }

  lemma {:induction false} DoMessagesSnoc(es: seq<MessageEvent>, e: MessageEvent, usage: bool)
    ensures DoMessages(es + [e], false, usage) == DoMessage(DoMessages(es, false, usage), e, false, usage)
  {
    assert (es + [e])[..|es|] == es;
  }

  /** Events that carry nothing to say. */
  predicate Silent(e: MessageEvent) {
    e.MessageStart? || e.BlockStop? || (e.BlockStart? && !e.block.ToolUse?)
  }

  lemma {:induction false} SilentFaithful(c: Conv, e: MessageEvent, m: Meaning, usage: bool)
    requires Faithful(c, m, usage) && Silent(e)
    ensures Faithful(Emit(c, e), m, usage)
  {
    DoMessagesSnoc(c.out, e, usage);
    var b := DoMessages(c.out, false, usage);
    if e.MessageStart? {
      HeardSnoc(b.out, Content(""));
      HearContent(Heard(b.out), "");
      assert m.text + "" == m.text;
    }
  }

  lemma {:induction false} TextFaithful(c: Conv, s: string, m: Meaning, after: Conv, n: Meaning, usage: bool)
    requires Faithful(c, m, usage) && after == Emit(c, BlockDelta(c.block, TextDelta(s))) && n == m.(text := m.text + s)
    ensures Faithful(after, n, usage)
  {
    DoMessagesSnoc(c.out, BlockDelta(c.block, TextDelta(s)), usage);
    var b := DoMessages(c.out, false, usage);
    HeardSnoc(b.out, Content(s));
    HearContent(Heard(b.out), s);
  }

  lemma {:induction false} ThinkingFaithful(c: Conv, s: string, m: Meaning, after: Conv, n: Meaning, usage: bool)
    requires Faithful(c, m, usage) && after == Emit(c, BlockDelta(c.block, ThinkingDelta(s)))
    requires n == m.(reasoning := m.reasoning + s)
    ensures Faithful(after, n, usage)
  {
    DoMessagesSnoc(c.out, BlockDelta(c.block, ThinkingDelta(s)), usage);
    var b := DoMessages(c.out, false, usage);
    HeardSnoc(b.out, Reasoning(s));
    HearReasoning(Heard(b.out), s);
  }

  // ---------------------------------------------------------------------------
  // Tool calls
  // ---------------------------------------------------------------------------

  lemma {:induction false} FindAt(tools: seq<Tool>, key: int, i: nat)
    requires i < |tools| && tools[i].key == key && forall j :: 0 <= j < i ==> tools[j].key != key
    ensures Find(tools, key) == i
  {
    if Find(tools, key) != i { assert false; }
  }

  lemma {:induction false} FindSnoc(tools: seq<Tool>, t: Tool, key: int)
    ensures Find(tools + [t], key) == if Find(tools, key) < |tools| || t.key != key then
                                        (if Find(tools, key) < |tools| then Find(tools, key) else |tools| + 1)
                                      else |tools|
  {
    assert (tools + [t])[..|tools|] == tools;
  }

  /** A key no block was opened for has not been heard of. */
  lemma {:induction false} UnheardKey(back: map<int, int>, next: int, heard: seq<Tool>, blocks: map<int, int>, last: int, tools: seq<Tool>, k: int)
    requires ToolsAgree(back, next, heard, blocks, last, tools) && k !in blocks
    ensures Find(tools, k) == |tools|
  {
    forall i | 0 <= i < |tools| ensures tools[i].key != k { assert tools[i].key in blocks; }
  }

  /** On the way back tool calls are numbered in order, so the next number is a new one. */
  lemma {:induction false} NextIsNew(back: map<int, int>, next: int, heard: seq<Tool>, blocks: map<int, int>, last: int, tools: seq<Tool>, d: ToolDelta)
    requires ToolsAgree(back, next, heard, blocks, last, tools) && d.index == Some(next)
    ensures HearCall(heard, d) == heard + [Tool(next, d.id, d.name, d.args)]
  {
    forall i | 0 <= i < |heard| ensures heard[i].key != next { assert SameTool(i, heard[i], tools[i]); }
    assert Find(heard, next) == |heard|;
  }

  /** A new tool call: the next position on one side, a new key on the other. */
  lemma {:induction false} ToolStarts(back: map<int, int>, next: int, heard: seq<Tool>, blocks: map<int, int>, last: int, tools: seq<Tool>,
                                      block: int, key: int, id: Id, name: string)
    requires ToolsAgree(back, next, heard, blocks, last, tools)
    requires key !in blocks && block == last + 1 && name != ""
    ensures ToolsAgree(back[block := next], next + 1, heard + [Tool(next, Some(id), name, "")], blocks[key := block], block,
                       tools + [Tool(key, Some(id), name, "")])
  {
    var t := Tool(key, Some(id), name, "");
    forall k | k in blocks[key := block] ensures Find(tools + [t], k) < |tools + [t]| { FindSnoc(tools, t, k); }
    forall i | 0 <= i < |tools|
      ensures tools[i].key in blocks && blocks[tools[i].key] in back && blocks[tools[i].key] != block && tools[i].key != key
    {
      assert blocks[tools[i].key] in back;
    }
  }

  /** More arguments for a tool call both sides know. */
  lemma {:induction false} ToolGoesOn(back: map<int, int>, next: int, heard: seq<Tool>, blocks: map<int, int>, last: int, tools: seq<Tool>, d: ToolDelta)
    requires ToolsAgree(back, next, heard, blocks, last, tools) && Key(d) in blocks
    ensures var i := Find(tools, Key(d));
            && i < |tools| && blocks[Key(d)] in back && back[blocks[Key(d)]] == i
            && HearCall(tools, d) == tools[i := tools[i].(args := tools[i].args + d.args)]
            && HearCall(heard, ToolDelta(Some(i), None, "", d.args)) == heard[i := heard[i].(args := heard[i].args + d.args)]
            && ToolsAgree(back, next, HearCall(heard, ToolDelta(Some(i), None, "", d.args)), blocks, last, HearCall(tools, d))
  {
    var i := Find(tools, Key(d));
    forall j | 0 <= j < |heard| ensures heard[j].key == j { assert SameTool(j, heard[j], tools[j]); }
    FindAt(heard, i, i);
    var more := tools[i := tools[i].(args := tools[i].args + d.args)];
    forall k ensures Find(more, k) == Find(tools, k) { SameKeys(more, tools, k); }
  }

  lemma {:induction false} SameKeys(a: seq<Tool>, b: seq<Tool>, key: int)
    requires |a| == |b| && forall i :: 0 <= i < |a| ==> a[i].key == b[i].key
    ensures Find(a, key) == Find(b, key)
  {
    if a != [] { SameKeys(a[..|a| - 1], b[..|b| - 1], key); }
  }

  lemma {:induction false} StartFaithful(c: Conv, d: ToolDelta, id: Id, m: Meaning, after: Conv, usage: bool)
    requires Faithful(c, m, usage) && Key(d) !in c.tools && d.id == Some(id) && d.name != ""
    requires after == Emit(c.(block := c.block + 1, tools := c.tools[Key(d) := c.block + 1]), BlockStart(c.block + 1, ToolUse(id, d.name)))
    ensures Find(m.tools, Key(d)) == |m.tools|
    ensures Faithful(after, m.(tools := m.tools + [Tool(Key(d), Some(id), d.name, "")]), usage)
  {
    var e := BlockStart(c.block + 1, ToolUse(id, d.name));
    DoMessagesSnoc(c.out, e, usage);
    var b := DoMessages(c.out, false, usage);
    var chunk := ToolDelta(Some(b.nextTool), Some(id), d.name, "");
    HeardSnoc(b.out, CallChunk(chunk));
    HearCallChunk(Heard(b.out), chunk);
    UnheardKey(b.tools, b.nextTool, Heard(b.out).tools, c.tools, c.block, m.tools, Key(d));
    NextIsNew(b.tools, b.nextTool, Heard(b.out).tools, c.tools, c.block, m.tools, chunk);
    ToolStarts(b.tools, b.nextTool, Heard(b.out).tools, c.tools, c.block, m.tools, c.block + 1, Key(d), id, d.name);
  }

  lemma {:induction false} JsonFaithful(c: Conv, d: ToolDelta, m: Meaning, after: Conv, usage: bool)
    requires Faithful(c, m, usage) && Key(d) in c.tools && after == Emit(c, BlockDelta(c.tools[Key(d)], InputJson(d.args)))
    ensures Faithful(after, m.(tools := HearCall(m.tools, d)), usage)
  {
    var b := DoMessages(c.out, false, usage);
    ToolGoesOn(b.tools, b.nextTool, Heard(b.out).tools, c.tools, c.block, m.tools, d);
    JsonBack(c, c.tools[Key(d)], d.args, usage);
  }

  /** What comes back for more arguments of a known block. */
  lemma {:induction false} JsonBack(c: Conv, block: int, args: string, usage: bool)
    requires DoMessages(c.out, false, usage).end == Heard(DoMessages(c.out, false, usage).out).end == Running
    requires block in DoMessages(c.out, false, usage).tools
    ensures var b := DoMessages(c.out, false, usage);
            var b2 := DoMessages(Emit(c, BlockDelta(block, InputJson(args))).out, false, usage);
            && b2 == b.(out := b2.out)
            && Heard(b2.out) == Heard(b.out).(tools := HearCall(Heard(b.out).tools, ToolDelta(Some(b.tools[block]), None, "", args)))
  {
    DoMessagesSnoc(c.out, BlockDelta(block, InputJson(args)), usage);
    var b := DoMessages(c.out, false, usage);
    var chunk := ToolDelta(Some(b.tools[block]), None, "", args);
    HeardSnoc(b.out, CallChunk(chunk));
    HearCallChunk(Heard(b.out), chunk);
  }

  lemma {:induction false} NoArgs(c: Conv, d: ToolDelta, m: Meaning, usage: bool)
    requires Faithful(c, m, usage) && Key(d) in c.tools && d.args == ""
    ensures HearCall(m.tools, d) == m.tools
  {
    var b := DoMessages(c.out, false, usage);
    ToolGoesOn(b.tools, b.nextTool, Heard(b.out).tools, c.tools, c.block, m.tools, d);
    assert m.tools[Find(m.tools, Key(d))].args + "" == m.tools[Find(m.tools, Key(d))].args;
  }

  // ---------------------------------------------------------------------------
  // Pieces
  // ---------------------------------------------------------------------------

  lemma {:induction false} ClosedOpenFaithful(c: Conv, m: Meaning, usage: bool)
    requires Faithful(c, m, usage)
    ensures Faithful(ClosedOpen(c), m, usage)
  {
    if c.textOpen || c.thinkOpen { SilentFaithful(c, BlockStop(c.block), m, usage); }
  }

  lemma {:induction false} OpenedFaithful(c: Conv, b: Block, m: Meaning, usage: bool)
    requires Faithful(c, m, usage) && !b.ToolUse?
    ensures Faithful(OpenedBlock(c, b), m, usage)
  {
    ClosedOpenFaithful(c, m, usage);
    NextBlockFaithful(ClosedOpen(c), ClosedOpen(c).block + 1, b, m, usage);
  }

  lemma {:induction false} NextBlockFaithful(d: Conv, i: int, b: Block, m: Meaning, usage: bool)
    requires Faithful(d, m, usage) && !b.ToolUse? && i == d.block + 1
    ensures Faithful(Emit(d.(block := i), BlockStart(i, b)), m, usage)
  {
    assert Faithful(d.(block := i), m, usage);
    SilentFaithful(d.(block := i), BlockStart(i, b), m, usage);
  }

  lemma {:induction false} CalledFaithful(c: Conv, d: ToolDelta, m: Meaning, usage: bool)
    requires Faithful(c, m, usage) && Introduced(m.tools, d)
    ensures Faithful(DoPiece(c, Called(d)), HearPiece(m, Called(d)), usage)
  {
    if Key(d) in c.tools {
      ArgsFaithful(c, d, m, usage);
    } else {
      UnknownKey(c, d, m, usage);
      FirstCallFaithful(c, d, d.id.value, m, m.(tools := m.tools + [Tool(Key(d), d.id, d.name, "")]), usage);
    }
  }

  lemma {:induction false} FirstCallFaithful(c: Conv, d: ToolDelta, id: Id, m: Meaning, known: Meaning, usage: bool)
    requires Faithful(c, m, usage) && Key(d) !in c.tools && d.id == Some(id) && d.name != ""
    requires known == m.(tools := m.tools + [Tool(Key(d), d.id, d.name, "")])
    ensures Faithful(DoPiece(c, Called(d)), m.(tools := HearCall(m.tools, d)), usage)
  {
    NewCallFaithful(c, d, id, m, usage);
    WithToolIs(c, d, id);
    HeardNew(m.tools, d);
    ArgsFaithful(WithTool(c, d), d, known, usage);
  }

  /** A call whose block is opened first. */
  lemma {:induction false} NewCallFaithful(c: Conv, d: ToolDelta, id: Id, m: Meaning, usage: bool)
    requires Faithful(c, m, usage) && Key(d) !in c.tools && d.id == Some(id) && d.name != ""
    ensures Find(m.tools, Key(d)) == |m.tools|
    ensures Faithful(WithTool(c, d), m.(tools := m.tools + [Tool(Key(d), d.id, d.name, "")]), usage)
  {
    ClosedOpenFaithful(c, m, usage);
    WithToolIs(c, d, id);
    StartFaithful(ClosedOpen(c), d, id, m, WithTool(c, d), usage);
  }

  /** The arguments of a call whose block is open. */
  lemma {:induction false} ArgsFaithful(c: Conv, d: ToolDelta, m: Meaning, usage: bool)
    requires Faithful(c, m, usage) && Key(d) in c.tools
    ensures Faithful(DoPiece(c, Called(d)), m.(tools := HearCall(m.tools, d)), usage)
  {
    if d.args == "" {
      NoArgs(c, d, m, usage);
    } else {
      JsonFaithful(c, d, m, Emit(c, BlockDelta(c.tools[Key(d)], InputJson(d.args))), usage);
    }
  }

  lemma {:induction false} HeardNew(tools: seq<Tool>, d: ToolDelta)
    requires Find(tools, Key(d)) == |tools| && d.id.Some?
    ensures HearCall(tools + [Tool(Key(d), d.id, d.name, "")], d) == HearCall(tools, d)
  {
    var t, whole := Tool(Key(d), d.id, d.name, ""), Tool(Key(d), d.id, d.name, d.args);
    FindSnoc(tools, t, Key(d));
    assert Hear(t, d) == whole by { assert "" + d.args == d.args; }
    assert (tools + [t])[|tools| := whole] == tools + [whole];
  }

  lemma {:induction false} WithToolIs(c: Conv, d: ToolDelta, id: Id)
    requires Key(d) !in c.tools && d.id == Some(id)
    ensures var o := ClosedOpen(c);
            WithTool(c, d) == Emit(o.(block := o.block + 1, tools := o.tools[Key(d) := o.block + 1]),
                                   BlockStart(o.block + 1, ToolUse(id, d.name)))
    ensures ClosedOpen(c).tools == c.tools && Key(d) in WithTool(c, d).tools
    ensures DoPiece(WithTool(c, d), Called(d)) == DoPiece(c, Called(d))
  {
  }

  lemma {:induction false} UnknownKey(c: Conv, d: ToolDelta, m: Meaning, usage: bool)
    requires Faithful(c, m, usage) && Introduced(m.tools, d) && Key(d) !in c.tools
    ensures d.id.Some? && d.name != ""
  {
    assert Find(m.tools, Key(d)) == |m.tools|;
  }

  lemma {:induction false} PieceFaithful(c: Conv, p: Piece, m: Meaning, after: Conv, n: Meaning, usage: bool)
    requires Faithful(c, m, usage) && (p.Called? ==> Introduced(m.tools, p.call))
    requires after == DoPiece(c, p) && n == HearPiece(m, p)
    ensures Faithful(after, n, usage)
  {
    match p {
      case Reasoned(s) =>
        if !c.thinkOpen { OpenedFaithful(c, ThinkingBlock, m, usage); }
        assert Faithful(WithThinking(c), m, usage);
        ThinkingFaithful(WithThinking(c), s, m, after, n, usage);
      case Said(s) =>
        if !c.textOpen { OpenedFaithful(c, TextBlock, m, usage); }
        assert Faithful(WithText(c), m, usage);
        TextFaithful(WithText(c), s, m, after, n, usage);
      case Called(d) => CalledFaithful(c, d, m, usage);
      case Finished(_) =>
    }
  }

  lemma {:induction false} PiecesFaithful(c: Conv, ps: seq<Piece>, m: Meaning, usage: bool)
    requires Faithful(c, m, usage) && PiecesIntroduced(m, ps)
    ensures Faithful(DoPieces(c, ps), HearPieces(m, ps), usage)
  {
    if ps != [] {
      PiecesFaithful(c, ps[..|ps| - 1], m, usage);
      PieceFaithful(DoPieces(c, ps[..|ps| - 1]), ps[|ps| - 1], HearPieces(m, ps[..|ps| - 1]), DoPieces(c, ps), HearPieces(m, ps), usage);
    }
  }

  // ---------------------------------------------------------------------------
  // Whole streams
  // ---------------------------------------------------------------------------

  /** The same text, reasoning and tool calls, in order of first appearance. */
  predicate Kept(n: Meaning, m: Meaning) {
    && n.text == m.text && n.reasoning == m.reasoning
    && |n.tools| == |m.tools| && forall i :: 0 <= i < |m.tools| ==> SameTool(i, n.tools[i], m.tools[i])
  }

  /** After a failed read: everything said until then was written back. */
  ghost predicate KeptUntilFailure(c: Conv, m: Meaning, usage: bool) {
    var b := DoMessages(c.out, false, usage);
    Kept(Heard(b.out), m) && b.end != SawDone && Heard(b.out).end == b.end
  }

  ghost predicate EventsKept(c: Conv, m: Meaning, usage: bool) {
    m.end == c.end && if c.end == Failed then KeptUntilFailure(c, m, usage) else Faithful(c, m, usage)
  }

  lemma {:induction false} HeardEnd(m: Meaning, ps: seq<Piece>)
    ensures HearPieces(m, ps).end == m.end
  {
    if ps != [] { HeardEnd(m, ps[..|ps| - 1]); }
  }

  lemma {:induction false} StartedFaithful(c: Conv, m: Meaning, usage: bool)
    requires Faithful(c, m, usage)
    ensures Faithful(Started(c), m, usage)
  {
    if !c.started { SilentFaithful(c.(started := true), MessageStart, m, usage); }
  }

  lemma {:induction false} ErrorKept(c: Conv, m: Meaning, message: string, usage: bool)
    requires Faithful(c, m, usage)
    ensures var b := DoMessages(c.out + [ErrorEvent(message)], false, usage);
            Kept(Heard(b.out), m) && b.end == Failed && Heard(b.out).end == Failed
  {
    DoMessagesSnoc(c.out, ErrorEvent(message), usage);
    HeardSnoc(DoMessages(c.out, false, usage).out, ErrorChunk(message));
  }

  lemma {:induction false} EventKept(c: Conv, e: ChatEvent, m: Meaning, usage: bool)
    requires EventsKept(c, m, usage) && (e.Chunk? ==> PiecesIntroduced(m, Pieces(e.choices)))
    ensures EventsKept(DoEvent(c, e), HearEvent(m, e), usage)
  {
    if c.end == Running {
      match e {
        case Chunk(choices) =>
          StartedFaithful(c, m, usage);
          PiecesFaithful(Started(c), Pieces(choices), m, usage);
          EndUnchanged(Started(c), Pieces(choices));
          HeardEnd(m, Pieces(choices));
        case ErrorChunk(message) =>
          StartedFaithful(c, m, usage);
          ErrorKept(Started(c), m, message, usage);
        case _ =>
      }
    }
  }

  lemma {:induction false} AllKept(es: seq<ChatEvent>, usage: bool)
    requires AllIntroduced(es)
    ensures EventsKept(DoEvents(FRESH, es), Heard(es), usage)
  {
    if es != [] {
      AllKept(es[..|es| - 1], usage);
      EventKept(DoEvents(FRESH, es[..|es| - 1]), es[|es| - 1], Heard(es[..|es| - 1]), usage);
    }
  }

  lemma {:induction false} StopsFaithful(c: Conv, order: seq<int>, m: Meaning, usage: bool)
    requires Faithful(c, m, usage)
    ensures Faithful(c.(out := c.out + Stops(order)), m, usage)
  {
    if order == [] {
      assert c.out + Stops(order) == c.out;
    } else {
      var init, last := order[..|order| - 1], order[|order| - 1];
      StopsFaithful(c, init, m, usage);
      SilentFaithful(c.(out := c.out + Stops(init)), BlockStop(last), m, usage);
      assert c.out + Stops(order) == (c.out + Stops(init)) + [BlockStop(last)];
    }
  }

  lemma {:induction false} StoppedKept(c: Conv, m: Meaning, usage: bool)
    requires Faithful(c, m, usage)
    ensures var b := DoMessages(c.out + [MessageDelta(c.stop)] + [MessageStop], false, usage);
            && Kept(Heard(b.out), m) && b.end == SawDone && Heard(b.out).end == SawDone
            && Heard(b.out).finish == Some(StopToFinish(c.stop))
  {
    var b := DoMessages(c.out, false, usage);
    StopRead(c.out, c.stop, usage);
    HeardStop(b.(finish := StopToFinish(c.stop)), usage);
  }

  lemma {:induction false} StopRead(out: seq<MessageEvent>, stop: string, usage: bool)
    requires DoMessages(out, false, usage).end == Running && stop != ""
    ensures DoMessages(out + [MessageDelta(stop)] + [MessageStop], false, usage)
              == SendStop(DoMessages(out, false, usage).(finish := StopToFinish(stop)), usage)
  {
    var b, c := DoMessages(out, false, usage), DoMessages(out + [MessageDelta(stop)], false, usage);
    DoMessagesSnoc(out, MessageDelta(stop), usage);
    assert c == b.(finish := StopToFinish(stop));
    DoMessagesSnoc(out + [MessageDelta(stop)], MessageStop, usage);
    assert DoMessage(c, MessageStop, false, usage) == SendStop(c, usage);
  }

  lemma {:induction false} HeardStop(b: Back, usage: bool)
    requires b.end == Running && !b.thinking && Heard(b.out).end == Running
    ensures Heard(SendStop(b, usage).out) == Heard(b.out).(finish := Some(b.finish), end := SawDone)
  {
    HeardSnoc(b.out, FinishChunk(b.finish));
    HearFinish(Heard(b.out), b.finish);
    var d := b.out + [FinishChunk(b.finish)];
    HeardSnoc(d, Chunk([]));
    HeardSnoc(d, DoneMark);
    HeardSnoc(d + [Chunk([])], DoneMark);
  }

  lemma {:induction false} FailedBack(c: Conv, m: Meaning, usage: bool)
    requires KeptUntilFailure(c, m, usage)
    ensures Kept(Heard(Answer(c.out, false, usage)), m) && Heard(Answer(c.out, false, usage)).end == Failed
  {
    var b := DoMessages(c.out, false, usage);
    if b.end == Running { HeardSnoc(b.out, ErrorChunk(INCOMPLETE)); }
  }

  lemma {:induction false} AllStoppedFaithful(c: Conv, order: seq<int>, m: Meaning, usage: bool)
    requires Faithful(c, m, usage)
    ensures var d := ClosedOpen(Started(c)); Faithful(d.(out := d.out + Stops(order)), m, usage) && d.stop == c.stop
  {
    StartedFaithful(c, m, usage);
    ClosedOpenFaithful(Started(c), m, usage);
    StopsFaithful(ClosedOpen(Started(c)), order, m, usage);
  }

  lemma {:induction false} EndedBack(c: Conv, order: seq<int>, m: Meaning, usage: bool)
    requires Faithful(c, m, usage) && c.end != Failed
    ensures var n := Heard(Answer(Closed(c, order).out, false, usage));
            && Kept(n, m) && n.end == (if c.end == SawDone then SawDone else Failed)
            && (c.end == SawDone ==> n.finish == Some(StopToFinish(c.stop)))
    ensures c.end == SawDone ==> c.stop == (if m.finish.Some? then FinishToStop(m.finish.value) else "end_turn")
  {
    AllStoppedFaithful(c, order, m, usage);
    var d := ClosedOpen(Started(c));
    var e := d.(out := d.out + Stops(order));
    if c.end == SawDone { StoppedKept(e, m, usage); } else { ErrorKept(e, m, INCOMPLETE, usage); }
  }

  /** What the reason a stream finished for comes back as. */
  function Normal(f: Option<string>): string {
    if f.Some? then StopToFinish(FinishToStop(f.value)) else "stop"
  }

  /** The reasons that come back unchanged are exactly these. */
  lemma {:induction false} NormalIsIdentity(f: string)
    ensures Normal(Some(f)) == f <==> f == "stop" || f == "length" || f == "tool_calls"
  {
  }

  /** A chat stream converted to message events and back, with thinking left in its own
      field, says the same text, the same reasoning and the same tool calls with their ids,
      names and whole arguments in order of first appearance; it is done exactly when the
      original was, and then it finished for the same reason. */
  lemma {:induction false} ThereAndBack(input: seq<ChatEvent>, order: seq<int>, usage: bool)
    requires AllIntroduced(input)
    ensures var m, n := Heard(input), Heard(Answer(Emitted(input, order), false, usage));
            && Kept(n, m) && (n.end == SawDone <==> m.end == SawDone)
            && (m.end == SawDone ==> n.finish == Some(Normal(m.finish)))
            && n.end != Running
  {
    AllKept(input, usage);
    var c, m := DoEvents(FRESH, input), Heard(input);
    if c.end == Failed { FailedBack(c, m, usage); } else { EndedBack(c, order, m, usage); }
  }

  /** The same over the wire between the two converters, for any encoding of events as clean
      server-sent events that decodes to what was encoded. */
  lemma {:induction false} ThereAndBackOverTheWire(input: seq<ChatEvent>, order: seq<int>, usage: bool,
                                encode: MessageEvent -> Sse.Event, decode: Sse.Event -> MessageEvent)
    requires AllIntroduced(input)
    requires forall e :: e in Emitted(input, order) ==>
               Sse.CleanName(encode(e).name) && Sse.CleanData(encode(e).data) && decode(encode(e)) == e
    ensures var m := Heard(input);
            var wire := Sse.WriteAll(Sse.Encoded(Emitted(input, order), encode));
            var n := Heard(Answer(Sse.Decoded(Sse.ReadAll(wire), decode), false, usage));
            && Kept(n, m) && (n.end == SawDone <==> m.end == SawDone)
            && (m.end == SawDone ==> n.finish == Some(Normal(m.finish)))
  {
    Sse.OverTheWire(Emitted(input, order), encode, decode);
    ThereAndBack(input, order, usage);
  }
}
