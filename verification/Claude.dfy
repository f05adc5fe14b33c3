/** The claude line parser: a message that is both streamed and sent complete reaches the app once. */
module Claude {
  import Domain
  import opened Sequences

  datatype Channel = Text | Thinking

  /** A content block of a complete message. */
  datatype Block = Prose(channel: Channel, text: string) | ToolUse(tool: string, input: string) | OtherBlock

  /** A decoded line; `valid` says whether the input collected for a block parses when the block stops. */
  datatype Line =
    | MessageStart(msg: string)
    | BlockStart(index: int, isTool: bool, tool: string)
    | ProseDelta(channel: Channel, text: string)
    | InputDelta(index: int, json: string)
    | BlockStop(index: int, valid: bool)
    | Assistant(msg: string, blocks: seq<Block>)
    | Result
    | OtherLine

  /**
   * What the parser emits; a tool call is `final` when no other follows in its turn, its input then "" if it never
   * parsed.
   */
  datatype Out =
    | Said(channel: Channel, msg: string, text: string)
    | Called(tool: string, final: bool, input: string)
    | Ended

  datatype OpenBlock = OpenBlock(isTool: bool, tool: string, input: string)

  datatype State = State(msgID: string, open: map<int, OpenBlock>, streamed: set<(Channel, string)>,
                         inputs: set<string>)

  /** Before the first line, and after every result. */
  const FRESH := State("", map[], {}, {})

  /** A state and what the lines up to it emitted. */
  datatype Parsed = Parsed(state: State, outs: seq<Out>)

  function ParseBlock(s: State, msg: string, b: Block): Parsed {
    match b
    case Prose(ch, text) =>
      if text == "" || (ch, msg) in s.streamed then Parsed(s, []) else Parsed(s, [Said(ch, msg, text)])
    case ToolUse(tool, input) =>
      if tool == "" || tool in s.inputs then Parsed(s, [])
      else Parsed(s.(inputs := s.inputs + {tool}), [Called(tool, true, input)])
    case OtherBlock => Parsed(s, [])
  }

  function ParseBlocks(s: State, msg: string, blocks: seq<Block>): Parsed {
    if blocks == [] then Parsed(s, [])
    else
      var init := ParseBlocks(s, msg, blocks[..|blocks| - 1]);
      var last := ParseBlock(init.state, msg, blocks[|blocks| - 1]);
      Parsed(last.state, init.outs + last.outs)
  }

  function StopBlock(s: State, index: int, valid: bool): Parsed {
    var t := s.(open := s.open - {index});
    if index !in s.open then Parsed(t, [])
    else
      var b := s.open[index];
      if !b.isTool || b.tool == "" || b.tool in s.inputs then Parsed(t, [])
      else Parsed(t.(inputs := s.inputs + {b.tool}), [Called(b.tool, true, if valid then b.input else "")])
  }

  function ParseLine(s: State, line: Line): Parsed {
    match line
    case MessageStart(msg) => Parsed(s.(msgID := msg, open := map[]), [])
    case BlockStart(index, isTool, tool) =>
      Parsed(s.(open := s.open[index := OpenBlock(isTool, tool, "")]),
             if isTool && tool != "" then [Called(tool, false, "")] else [])
    case ProseDelta(ch, text) =>
      if text == "" then Parsed(s, [])
      else Parsed(s.(streamed := s.streamed + {(ch, s.msgID)}), [Said(ch, s.msgID, text)])
    case InputDelta(index, json) =>
      if index !in s.open then Parsed(s, [])
      else Parsed(s.(open := s.open[index := s.open[index].(input := s.open[index].input + json)]), [])
    case BlockStop(index, valid) => StopBlock(s, index, valid)
    case Assistant(msg, blocks) => ParseBlocks(s, msg, blocks)
    case Result => Parsed(FRESH, [Ended])
    case OtherLine => Parsed(s, [])
  }

  function Parse(lines: seq<Line>): Parsed {
    if lines == [] then Parsed(FRESH, [])
    else
      var init := Parse(lines[..|lines| - 1]);
      var last := ParseLine(init.state, lines[|lines| - 1]);
      Parsed(last.state, init.outs + last.outs)
  }

  // ---- A tool's input is given for good once a turn ----

  predicate Finalises(o: Out, tool: string) {
    o.Called? && o.final && o.tool == tool
  }

  /** The tool's final call is among `outs` and its turn has not ended. */
  ghost predicate Given(outs: seq<Out>, tool: string) {
    exists i :: 0 <= i < |outs| && Finalises(outs[i], tool) && forall j :: i < j < |outs| ==> outs[j] != Ended
  }

  /** Between two final calls of a tool a turn ends. */
  ghost predicate FinalOnce(outs: seq<Out>) {
    forall i, j :: 0 <= i < j < |outs| && outs[i].Called? && outs[i].final && Finalises(outs[j], outs[i].tool) ==>
      exists k :: i < k < j && outs[k] == Ended
  }

  ghost predicate Tracked(p: Parsed) {
    FinalOnce(p.outs) && forall tool :: tool in p.state.inputs <==> Given(p.outs, tool)
  }

  lemma GivenStep(outs: seq<Out>, o: Out, tool: string)
    ensures Given(outs + [o], tool) <==> Finalises(o, tool) || (Given(outs, tool) && o != Ended)
  {
    var more := outs + [o];
    assert forall i :: 0 <= i < |outs| ==> more[i] == outs[i];
    assert more[|outs|] == o;
    if Given(outs, tool) && o != Ended {
      var i :| 0 <= i < |outs| && Finalises(outs[i], tool) && forall j :: i < j < |outs| ==> outs[j] != Ended;
      assert Finalises(more[i], tool);
    }
    if Given(more, tool) {
      var i :| 0 <= i < |more| && Finalises(more[i], tool) && forall j :: i < j < |more| ==> more[j] != Ended;
      if i < |outs| {
        forall j | i < j < |outs| ensures outs[j] != Ended { assert more[j] == outs[j]; }
        assert Finalises(outs[i], tool);
      }
    }
  }

  /** One more event: a final call must be of a tool not yet given. */
  lemma TrackedStep(p: Parsed, o: Out, s: State)
    requires Tracked(p)
    requires o.Called? && o.final ==> o.tool !in p.state.inputs
    requires s.inputs ==
      if o == Ended then {} else if o.Called? && o.final then p.state.inputs + {o.tool} else p.state.inputs
    ensures Tracked(Parsed(s, p.outs + [o]))
  {
    var outs := p.outs + [o];
    forall tool ensures tool in s.inputs <==> Given(outs, tool) { GivenStep(p.outs, o, tool); }
    forall i, j | 0 <= i < j < |outs| && outs[i].Called? && outs[i].final && Finalises(outs[j], outs[i].tool)
      ensures exists k :: i < k < j && outs[k] == Ended
    {
      if j < |p.outs| {
        var k :| i < k < j && p.outs[k] == Ended;
        assert outs[k] == Ended;
      } else {
        assert !Given(p.outs, o.tool) && Finalises(p.outs[i], o.tool);
        var k :| i < k < |p.outs| && p.outs[k] == Ended;
        assert outs[k] == Ended;
      }
    }
  }

  lemma TrackedSame(p: Parsed, s: State)
    requires Tracked(p) && s.inputs == p.state.inputs
    ensures Tracked(Parsed(s, p.outs + []))
  {
    assert p.outs + [] == p.outs;
  }

  lemma {:induction false} BlocksTracked(p: Parsed, msg: string, blocks: seq<Block>)
    requires Tracked(p)
    ensures var t := ParseBlocks(p.state, msg, blocks); Tracked(Parsed(t.state, p.outs + t.outs))
  {
    if blocks == [] {
      TrackedSame(p, p.state);
    } else {
      var init := ParseBlocks(p.state, msg, blocks[..|blocks| - 1]);
      var last := ParseBlock(init.state, msg, blocks[|blocks| - 1]);
      BlocksTracked(p, msg, blocks[..|blocks| - 1]);
      Extended(Parsed(init.state, p.outs + init.outs), last);
      assert p.outs + (init.outs + last.outs) == (p.outs + init.outs) + last.outs;
    }
  }

  /** At most one more event, as TrackedStep wants it. */
  lemma Extended(p: Parsed, last: Parsed)
    requires Tracked(p) && |last.outs| <= 1
    requires last.outs == [] ==> last.state.inputs == p.state.inputs
    requires last.outs != [] ==>
      var o := last.outs[0];
      && (o.Called? && o.final ==> o.tool !in p.state.inputs)
      && last.state.inputs ==
           if o == Ended then {} else if o.Called? && o.final then p.state.inputs + {o.tool} else p.state.inputs
    ensures Tracked(Parsed(last.state, p.outs + last.outs))
  {
    if last.outs == [] {
      TrackedSame(p, last.state);
    } else {
      TrackedStep(p, last.outs[0], last.state);
      assert last.outs == [last.outs[0]];
    }
  }

  lemma {:induction false} ParseTracked(lines: seq<Line>)
    ensures Tracked(Parse(lines))
  {
    if lines != [] {
      var p, line := Parse(lines[..|lines| - 1]), lines[|lines| - 1];
      ParseTracked(lines[..|lines| - 1]);
      if line.Assistant? { BlocksTracked(p, line.msg, line.blocks); } else { Extended(p, ParseLine(p.state, line)); }
    }
  }

  /** Whatever lines come, at most one input-finalising call per tool is emitted between two results. */
  lemma ToolsFinalOnce(lines: seq<Line>)
    ensures FinalOnce(Parse(lines).outs)
  {
    ParseTracked(lines);
  }

  // ---- And it is the one the lines hold ----

  /** The fragments of the input of block `index`, joined. */
  function Fragments(lines: seq<Line>, index: int): string {
    if lines == [] then ""
    else
      var line := lines[|lines| - 1];
      Fragments(lines[..|lines| - 1], index) + (if line.InputDelta? && line.index == index then line.json else "")
  }

  /** Whatever block is open under `index` is open no more. */
  predicate Shuts(line: Line, index: int) {
    line.MessageStart? || line == Result || ((line.BlockStart? || line.BlockStop?) && line.index == index)
  }

  /** The block that is open under `index` after the lines is the one line `j` started. */
  ghost predicate OpenSince(lines: seq<Line>, index: int, j: nat) {
    && j < |lines| && lines[j].BlockStart? && lines[j].index == index
    && forall i :: j < i < |lines| ==> !Shuts(lines[i], index)
  }

  lemma FragmentsNext(lines: seq<Line>, index: int, j: nat)
    requires j < |lines| - 1
    ensures var n := |lines| - 1;
            Fragments(lines[j + 1..], index) ==
            Fragments(lines[..n][j + 1..], index)
            + if lines[n].InputDelta? && lines[n].index == index then lines[n].json else ""
  {
    var n := |lines| - 1;
    assert lines[j + 1..][..n - j - 1] == lines[..n][j + 1..];
  }

  /** The block under `index` once the line is parsed. */
  function OpenAfter(was: Domain.Option<OpenBlock>, line: Line, index: int): Domain.Option<OpenBlock> {
    if line.BlockStart? && line.index == index then Domain.Some(OpenBlock(line.isTool, line.tool, ""))
    else if was == Domain.None || Shuts(line, index) then Domain.None
    else if line.InputDelta? && line.index == index then Domain.Some(was.value.(input := was.value.input + line.json))
    else was
  }

  function OpenAt(s: State, index: int): Domain.Option<OpenBlock> {
    if index in s.open then Domain.Some(s.open[index]) else Domain.None
  }

  lemma OpenNext(s: State, line: Line, index: int)
    ensures OpenAt(ParseLine(s, line).state, index) == OpenAfter(OpenAt(s, index), line, index)
  {
    if line.Assistant? { BlocksLeaveOpen(s, line.msg, line.blocks); }
  }

  lemma {:induction false} BlocksLeaveOpen(s: State, msg: string, blocks: seq<Block>)
    ensures ParseBlocks(s, msg, blocks).state.open == s.open
  {
    if blocks != [] { BlocksLeaveOpen(s, msg, blocks[..|blocks| - 1]); }
  }

  ghost predicate SomeOpen(lines: seq<Line>, index: int) {
    exists j: nat :: OpenSince(lines, index, j)
  }

  lemma SomeOpenNext(lines: seq<Line>, index: int)
    requires lines != []
    ensures var n := |lines| - 1;
            SomeOpen(lines, index) <==>
              (lines[n].BlockStart? && lines[n].index == index)
              || (SomeOpen(lines[..n], index) && !Shuts(lines[n], index))
  {
    var n := |lines| - 1;
    if SomeOpen(lines, index) {
      var j: nat :| OpenSince(lines, index, j);
      if j < n { assert OpenSince(lines[..n], index, j); }
    }
    if lines[n].BlockStart? && lines[n].index == index {
      assert OpenSince(lines, index, n);
    } else if SomeOpen(lines[..n], index) && !Shuts(lines[n], index) {
      var j: nat :| OpenSince(lines[..n], index, j);
      assert OpenSince(lines, index, j);
    }
  }

  /** What the block that line `j` started has collected. */
  function Collected(lines: seq<Line>, index: int, j: nat): OpenBlock
    requires j < |lines| && lines[j].BlockStart?
  {
    OpenBlock(lines[j].isTool, lines[j].tool, Fragments(lines[j + 1..], index))
  }

  /** A block that is open has collected the fragments that came since it was started, and no other. */
  lemma {:induction false} OpenExactly(lines: seq<Line>, index: int)
    ensures OpenAt(Parse(lines).state, index).Some? <==> SomeOpen(lines, index)
    ensures forall j: nat :: OpenSince(lines, index, j) ==>
      OpenAt(Parse(lines).state, index) == Domain.Some(Collected(lines, index, j))
  {
    if lines != [] {
      var n := |lines| - 1;
      OpenExactly(lines[..n], index);
      OpenNext(Parse(lines[..n]).state, lines[n], index);
      SomeOpenNext(lines, index);
      forall j: nat | OpenSince(lines, index, j)
        ensures OpenAt(Parse(lines).state, index) == Domain.Some(Collected(lines, index, j))
      {
        OpenStep(lines, index, j);
      }
    }
  }

  lemma OpenStep(lines: seq<Line>, index: int, j: nat)
    requires OpenSince(lines, index, j)
    requires var n := |lines| - 1;
             var s := Parse(lines[..n]).state;
      && OpenAt(Parse(lines).state, index) == OpenAfter(OpenAt(s, index), lines[n], index)
      && (OpenSince(lines[..n], index, j) ==> OpenAt(s, index) == Domain.Some(Collected(lines[..n], index, j)))
    ensures OpenAt(Parse(lines).state, index) == Domain.Some(Collected(lines, index, j))
  {
    var n := |lines| - 1;
    if j < n {
      assert OpenSince(lines[..n], index, j);
      FragmentsNext(lines, index, j);
      assert Fragments(lines[..n][j + 1..], index) + "" == Fragments(lines[..n][j + 1..], index);
    } else {
      assert lines[j + 1..] == [];
    }
  }

  function LineOuts(lines: seq<Line>, k: nat): seq<Out>
    requires k < |lines|
  {
    ParseLine(Parse(lines[..k]).state, lines[k]).outs
  }

  /** Line `k` stops the block that line `j` started, a tool's, and this is what it collected. */
  ghost predicate StopsTool(lines: seq<Line>, j: nat, k: nat, tool: string, input: string) {
    && j < k < |lines| && lines[k].BlockStop? && OpenSince(lines[..k], lines[k].index, j)
    && lines[j].isTool && lines[j].tool == tool
    && input == if lines[k].valid then Fragments(lines[j + 1..k], lines[k].index) else ""
  }

  /** The final call is of a block of a complete message, or of one that stops, with the input that block has. */
  ghost predicate InputIsOf(lines: seq<Line>, k: nat, o: Out)
    requires k < |lines| && o.Called?
  {
    || (lines[k].Assistant? && ToolUse(o.tool, o.input) in lines[k].blocks)
    || exists j: nat :: StopsTool(lines, j, k, o.tool, o.input)
  }

  lemma {:induction false} CalledInBlocks(s: State, msg: string, blocks: seq<Block>, o: Out)
    requires o in ParseBlocks(s, msg, blocks).outs && o.Called?
    ensures o.final && ToolUse(o.tool, o.input) in blocks
  {
    if blocks != [] {
      var init := blocks[..|blocks| - 1];
      assert blocks == init + [blocks[|blocks| - 1]];
      if o in ParseBlocks(s, msg, init).outs { CalledInBlocks(s, msg, init, o); }
    }
  }

  lemma CalledAt(lines: seq<Line>, k: nat, o: Out)
    requires k < |lines| && o in LineOuts(lines, k) && o.Called? && o.final
    ensures InputIsOf(lines, k, o)
  {
    var s, line := Parse(lines[..k]).state, lines[k];
    if line.Assistant? {
      CalledInBlocks(s, line.msg, line.blocks, o);
    } else {
      OpenExactly(lines[..k], line.index);
      var j: nat :| OpenSince(lines[..k], line.index, j);
      assert lines[..k][j + 1..] == lines[j + 1..k];
      assert StopsTool(lines, j, k, o.tool, o.input);
    }
  }

  lemma {:induction false} FromSomeLine(lines: seq<Line>, o: Out)
    requires o in Parse(lines).outs
    ensures exists k: nat :: k < |lines| && o in LineOuts(lines, k)
  {
    if lines != [] {
      var n := |lines| - 1;
      if o in Parse(lines[..n]).outs {
        FromSomeLine(lines[..n], o);
        var k: nat :| k < n && o in LineOuts(lines[..n], k);
        assert lines[..n][..k] == lines[..k];
        assert o in LineOuts(lines, k);
      } else {
        assert o in LineOuts(lines, n);
      }
    }
  }

  /**
   * Whatever lines come, a final call carries the input of a block of a complete message, or all the fragments, in
   * order and from no other block, that came for a tool's block before it stopped, if they parse, and else none.
   */
  lemma InputsFromLines(lines: seq<Line>, o: Out)
    requires o in Parse(lines).outs && o.Called? && o.final
    ensures exists k: nat :: k < |lines| && o in LineOuts(lines, k) && InputIsOf(lines, k, o)
  {
    FromSomeLine(lines, o);
    var k: nat :| k < |lines| && o in LineOuts(lines, k);
    CalledAt(lines, k, o);
  }

  /** A tool's block that stops gives the final call, unless one was given in the turn. */
  lemma StopGives(lines: seq<Line>, j: nat, k: nat, tool: string, input: string)
    requires StopsTool(lines, j, k, tool, input) && tool != ""
    ensures LineOuts(lines, k) == if Given(Parse(lines[..k]).outs, tool) then [] else [Called(tool, true, input)]
    ensures Given(Parse(lines[..k + 1]).outs, tool)
  {
    ParseTracked(lines[..k]);
    ParseTracked(lines[..k + 1]);
    OpenExactly(lines[..k], lines[k].index);
    assert lines[..k + 1][..k] == lines[..k] && lines[..k][j + 1..] == lines[j + 1..k];
  }

  /** So does the first block of a complete message that is a tool's. */
  lemma CopyGives(lines: seq<Line>, k: nat, m: nat)
    requires k < |lines| && lines[k].Assistant? && m < |lines[k].blocks|
    requires lines[k].blocks[m].ToolUse? && lines[k].blocks[m].tool != ""
    requires forall i :: 0 <= i < m ==>
      !(lines[k].blocks[i].ToolUse? && lines[k].blocks[i].tool == lines[k].blocks[m].tool)
    requires !Given(Parse(lines[..k]).outs, lines[k].blocks[m].tool)
    ensures Called(lines[k].blocks[m].tool, true, lines[k].blocks[m].input) in LineOuts(lines, k)
  {
    ParseTracked(lines[..k]);
    BlocksGive(Parse(lines[..k]).state, lines[k].msg, lines[k].blocks, m);
  }

  lemma {:induction false} UnusedStays(s: State, msg: string, blocks: seq<Block>, tool: string)
    requires tool !in s.inputs && forall i :: 0 <= i < |blocks| ==> !(blocks[i].ToolUse? && blocks[i].tool == tool)
    ensures tool !in ParseBlocks(s, msg, blocks).state.inputs
  {
    if blocks != [] { UnusedStays(s, msg, blocks[..|blocks| - 1], tool); }
  }

  lemma {:induction false} BlocksGive(s: State, msg: string, blocks: seq<Block>, m: nat)
    requires m < |blocks| && blocks[m].ToolUse? && blocks[m].tool != "" && blocks[m].tool !in s.inputs
    requires forall i :: 0 <= i < m ==> !(blocks[i].ToolUse? && blocks[i].tool == blocks[m].tool)
    ensures Called(blocks[m].tool, true, blocks[m].input) in ParseBlocks(s, msg, blocks).outs
  {
    var n := |blocks| - 1;
    if m < n { BlocksGive(s, msg, blocks[..n], m); } else { UnusedStays(s, msg, blocks[..n], blocks[m].tool); }
  }

  /** The tools of the blocks that start, in order. */
  function ToolsStarted(lines: seq<Line>): seq<string> {
    if lines == [] then []
    else
      var line := lines[|lines| - 1];
      ToolsStarted(lines[..|lines| - 1])
      + (if line.BlockStart? && line.isTool && line.tool != "" then [line.tool] else [])
  }

  /** The tools whose call was given before its input, in order. */
  function Announced(outs: seq<Out>): seq<string> {
    if outs == [] then []
    else
      var o := outs[|outs| - 1];
      Announced(outs[..|outs| - 1]) + (if o.Called? && !o.final then [o.tool] else [])
  }

  lemma {:induction false} AnnouncedAppend(a: seq<Out>, b: seq<Out>)
    ensures Announced(a + b) == Announced(a) + Announced(b)
  {
    if b == [] {
      assert a + b == a;
    } else {
      assert (a + b)[..|a + b| - 1] == a + b[..|b| - 1];
      AnnouncedAppend(a, b[..|b| - 1]);
      var o := b[|b| - 1];
      Regroup(Announced(a), Announced(b[..|b| - 1]), if o.Called? && !o.final then [o.tool] else []);
    }
  }

  lemma {:induction false} NoneAnnounced(outs: seq<Out>)
    requires forall o :: o in outs ==> !(o.Called? && !o.final)
    ensures Announced(outs) == []
  {
    if outs != [] {
      assert outs[|outs| - 1] in outs;
      NoneAnnounced(outs[..|outs| - 1]);
    }
  }

  lemma LineAnnounces(s: State, line: Line)
    ensures Announced(ParseLine(s, line).outs) ==
            if line.BlockStart? && line.isTool && line.tool != "" then [line.tool] else []
  {
    var outs := ParseLine(s, line).outs;
    if line.BlockStart? {
      if outs != [] { assert outs == [outs[0]] && outs[..0] == []; }
    } else {
      forall o | o in outs && o.Called? ensures o.final {
        if line.Assistant? { CalledInBlocks(s, line.msg, line.blocks, o); }
      }
      NoneAnnounced(outs);
    }
  }

  /** Each tool's block is announced as it starts, and nothing else is. */
  lemma {:induction false} StartsAnnounced(lines: seq<Line>)
    ensures Announced(Parse(lines).outs) == ToolsStarted(lines)
  {
    if lines != [] {
      var p, line := Parse(lines[..|lines| - 1]), lines[|lines| - 1];
      StartsAnnounced(lines[..|lines| - 1]);
      AnnouncedAppend(p.outs, ParseLine(p.state, line).outs);
      LineAnnounces(p.state, line);
    }
  }

  // ---- A message's text is given once ----

  function TextOf(outs: seq<Out>, ch: Channel, msg: string): string {
    if outs == [] then ""
    else
      var o := outs[|outs| - 1];
      TextOf(outs[..|outs| - 1], ch, msg) + (if o.Said? && o.channel == ch && o.msg == msg then o.text else "")
  }

  /** The message that deltas belong to. */
  function Current(lines: seq<Line>): string {
    if lines == [] then ""
    else if lines[|lines| - 1].MessageStart? then lines[|lines| - 1].msg
    else Current(lines[..|lines| - 1])
  }

  /** The deltas of a message. */
  function Streamed(lines: seq<Line>, ch: Channel, msg: string): string {
    if lines == [] then ""
    else
      var init, line := lines[..|lines| - 1], lines[|lines| - 1];
      Streamed(init, ch, msg)
      + (if line.ProseDelta? && line.channel == ch && Current(init) == msg then line.text else "")
  }

  function BlocksText(blocks: seq<Block>, ch: Channel): string {
    if blocks == [] then ""
    else
      var b := blocks[|blocks| - 1];
      BlocksText(blocks[..|blocks| - 1], ch) + (if b.Prose? && b.channel == ch then b.text else "")
  }

  /** The blocks of the message's complete copies; `early` keeps those that came before its first delta. */
  function Complete(lines: seq<Line>, ch: Channel, msg: string, early: bool): string {
    if lines == [] then ""
    else
      var init, line := lines[..|lines| - 1], lines[|lines| - 1];
      Complete(init, ch, msg, early)
      + (if line.Assistant? && line.msg == msg && (early ==> Streamed(init, ch, msg) == "")
         then BlocksText(line.blocks, ch) else "")
  }

  /** The lines of one turn. */
  ghost predicate OneTurn(lines: seq<Line>) {
    forall i :: 0 <= i < |lines| ==> lines[i] != Result
  }

  lemma {:induction false} TextAppend(a: seq<Out>, b: seq<Out>, ch: Channel, msg: string)
    ensures TextOf(a + b, ch, msg) == TextOf(a, ch, msg) + TextOf(b, ch, msg)
  {
    assert TextOf(a, ch, msg) + "" == TextOf(a, ch, msg);
    if b == [] {
      assert a + b == a;
    } else {
      assert (a + b)[..|a + b| - 1] == a + b[..|b| - 1];
      TextAppend(a, b[..|b| - 1], ch, msg);
      var o := b[|b| - 1];
      Regroup(TextOf(a, ch, msg), TextOf(b[..|b| - 1], ch, msg),
              if o.Said? && o.channel == ch && o.msg == msg then o.text else "");
    }
  }

  lemma SaidAlone(o: Out, ch: Channel, msg: string)
    ensures TextOf([o], ch, msg) == if o.Said? && o.channel == ch && o.msg == msg then o.text else ""
  {
    assert [o][..0] == [] && TextOf([], ch, msg) == "";
  }

  lemma BlockSaid(s: State, msg: string, b: Block, ch: Channel, m: string)
    ensures var t := ParseBlock(s, msg, b);
            t.state.streamed == s.streamed && t.state.msgID == s.msgID
            && TextOf(t.outs, ch, m) ==
                 if m == msg && (ch, m) !in s.streamed && b.Prose? && b.channel == ch then b.text else ""
  {
    var outs := ParseBlock(s, msg, b).outs;
    if outs != [] {
      assert outs == [outs[0]];
      SaidAlone(outs[0], ch, m);
    }
  }

  lemma {:induction false} BlocksSaid(s: State, msg: string, blocks: seq<Block>, ch: Channel, m: string)
    ensures var t := ParseBlocks(s, msg, blocks);
            t.state.streamed == s.streamed && t.state.msgID == s.msgID
            && TextOf(t.outs, ch, m) == if m == msg && (ch, m) !in s.streamed then BlocksText(blocks, ch) else ""
  {
    if blocks != [] {
      var init := ParseBlocks(s, msg, blocks[..|blocks| - 1]);
      var b := blocks[|blocks| - 1];
      BlocksSaid(s, msg, blocks[..|blocks| - 1], ch, m);
      BlockSaid(init.state, msg, b, ch, m);
      TextAppend(init.outs, ParseBlock(init.state, msg, b).outs, ch, m);
    }
  }

  /** What one line adds to a message. */
  function Added(s: State, line: Line, ch: Channel, msg: string): string {
    if line.ProseDelta? && line.channel == ch && s.msgID == msg then line.text
    else if line.Assistant? && line.msg == msg && (ch, msg) !in s.streamed then BlocksText(line.blocks, ch)
    else ""
  }

  lemma LineSaid(s: State, line: Line, ch: Channel, msg: string)
    requires line != Result
    ensures TextOf(ParseLine(s, line).outs, ch, msg) == Added(s, line, ch, msg)
  {
    if line.Assistant? {
      BlocksSaid(s, line.msg, line.blocks, ch, msg);
    } else {
      var outs := ParseLine(s, line).outs;
      if outs != [] {
        assert outs == [outs[0]];
        SaidAlone(outs[0], ch, msg);
      }
    }
  }

  lemma LineState(s: State, line: Line, ch: Channel, msg: string)
    requires line != Result
    ensures var t := ParseLine(s, line).state;
      && t.msgID == (if line.MessageStart? then line.msg else s.msgID)
      && ((ch, msg) in t.streamed <==>
            (ch, msg) in s.streamed || (line.ProseDelta? && line.channel == ch && s.msgID == msg && line.text != ""))
  {
    if line.Assistant? { BlocksSaid(s, line.msg, line.blocks, ch, msg); }
  }

  lemma {:induction false} StateExactly(lines: seq<Line>, ch: Channel, msg: string)
    requires OneTurn(lines)
    ensures Parse(lines).state.msgID == Current(lines)
    ensures (ch, msg) in Parse(lines).state.streamed <==> Streamed(lines, ch, msg) != ""
  {
    if lines != [] {
      var init, line := lines[..|lines| - 1], lines[|lines| - 1];
      StateExactly(init, ch, msg);
      LineState(Parse(init).state, line, ch, msg);
    }
  }

  lemma LineExactly(lines: seq<Line>, s: State, ch: Channel, msg: string)
    requires lines != [] && lines[|lines| - 1] != Result
    requires s.msgID == Current(lines[..|lines| - 1])
    requires (ch, msg) in s.streamed <==> Streamed(lines[..|lines| - 1], ch, msg) != ""
    ensures var init := lines[..|lines| - 1];
            Complete(lines, ch, msg, true) + Streamed(lines, ch, msg) ==
            Complete(init, ch, msg, true) + Streamed(init, ch, msg)
            + TextOf(ParseLine(s, lines[|lines| - 1]).outs, ch, msg)
  {
    var init, line := lines[..|lines| - 1], lines[|lines| - 1];
    var copied := if line.Assistant? && line.msg == msg && Streamed(init, ch, msg) == ""
      then BlocksText(line.blocks, ch) else "";
    var delta := if line.ProseDelta? && line.channel == ch && Current(init) == msg then line.text else "";
    LineSaid(s, line, ch, msg);
    OneAdds(Complete(init, ch, msg, true), Streamed(init, ch, msg), copied, delta);
  }

  /** A line adds to one of the two, to the first only as long as the second is empty. */
  lemma OneAdds(early: string, streamed: string, copied: string, delta: string)
    requires if delta == "" then copied == "" || streamed == "" else copied == ""
    ensures (early + copied) + (streamed + delta) == early + streamed + (if delta == "" then copied else delta)
  {
    assert early + "" == early && streamed + "" == streamed && early + streamed + "" == early + streamed;
    if delta != "" { Regroup(early, streamed, delta); }
  }

  /** Within a turn, and however messages interleave: what is emitted is the early complete copies, then the deltas. */
  lemma {:induction false} EmittedExactly(lines: seq<Line>, ch: Channel, msg: string)
    requires OneTurn(lines)
    ensures TextOf(Parse(lines).outs, ch, msg) == Complete(lines, ch, msg, true) + Streamed(lines, ch, msg)
  {
    if lines != [] {
      var init, line := lines[..|lines| - 1], lines[|lines| - 1];
      var p := Parse(init);
      EmittedExactly(init, ch, msg);
      StateExactly(init, ch, msg);
      TextAppend(p.outs, ParseLine(p.state, line).outs, ch, msg);
      LineExactly(lines, p.state, ch, msg);
    }
  }

  lemma {:induction false} AllEarly(lines: seq<Line>, ch: Channel, msg: string)
    requires Streamed(lines, ch, msg) == ""
    ensures Complete(lines, ch, msg, true) == Complete(lines, ch, msg, false)
  {
    if lines != [] { AllEarly(lines[..|lines| - 1], ch, msg); }
  }

  /**
   * For a message that is streamed whole or not at all: the app gets the text of its blocks, in order and once,
   * exactly if it was not streamed or none of its text came complete before the first delta.
   */
  lemma EmitsOnce(lines: seq<Line>, ch: Channel, msg: string)
    requires OneTurn(lines)
    requires Streamed(lines, ch, msg) == "" || Streamed(lines, ch, msg) == Complete(lines, ch, msg, false)
    ensures TextOf(Parse(lines).outs, ch, msg) == Complete(lines, ch, msg, false)
       <==> Streamed(lines, ch, msg) == "" || Complete(lines, ch, msg, true) == ""
  {
    EmittedExactly(lines, ch, msg);
    if Streamed(lines, ch, msg) == "" { AllEarly(lines, ch, msg); }
    var early, all := Complete(lines, ch, msg, true), Complete(lines, ch, msg, false);
    assert "" + all == all && early + "" == early;
  }

  // ---- Text and thinking keep their mutual order ----

  /** A character with the kind of block it belongs to. */
  type Mark = (Channel, char)

  function Marked(ch: Channel, text: string): (r: seq<Mark>)
    ensures |r| == |text| && (text == "" ==> r == [])
  {
    seq(|text|, i requires 0 <= i < |text| => (ch, text[i]))
  }

  /** All that is emitted of a message, of both kinds. */
  function Told(outs: seq<Out>, msg: string): seq<Mark> {
    if outs == [] then []
    else
      var o := outs[|outs| - 1];
      Told(outs[..|outs| - 1], msg) + (if o.Said? && o.msg == msg then Marked(o.channel, o.text) else [])
  }

  /** What blocks say, but for the kinds in `skip`. */
  function BlocksMarks(blocks: seq<Block>, skip: set<Channel>): seq<Mark> {
    if blocks == [] then []
    else
      var b := blocks[|blocks| - 1];
      BlocksMarks(blocks[..|blocks| - 1], skip)
      + (if b.Prose? && b.channel !in skip then Marked(b.channel, b.text) else [])
  }

  /** All deltas of a message. */
  function Stream(lines: seq<Line>, msg: string): seq<Mark> {
    if lines == [] then []
    else
      var init, line := lines[..|lines| - 1], lines[|lines| - 1];
      Stream(init, msg) + (if line.ProseDelta? && Current(init) == msg then Marked(line.channel, line.text) else [])
  }

  /** All blocks of a message's complete copies. */
  function Copies(lines: seq<Line>, msg: string): seq<Mark> {
    if lines == [] then []
    else
      var init, line := lines[..|lines| - 1], lines[|lines| - 1];
      Copies(init, msg) + (if line.Assistant? && line.msg == msg then BlocksMarks(line.blocks, {}) else [])
  }

  /** The kinds of block of a message that had a delta. */
  function Begun(lines: seq<Line>, msg: string): set<Channel> {
    set ch | ch in {Text, Thinking} && Streamed(lines, ch, msg) != ""
  }

  /** What a line gives of a message when the kinds in `begun` were streamed before. */
  function Gives(line: Line, current: string, begun: set<Channel>, msg: string): seq<Mark> {
    if line.ProseDelta? && current == msg then Marked(line.channel, line.text)
    else if line.Assistant? && line.msg == msg then BlocksMarks(line.blocks, begun)
    else []
  }

  /** The deltas, and the blocks that came complete before the first delta of their kind, as they come. */
  function Emission(lines: seq<Line>, msg: string): seq<Mark> {
    if lines == [] then []
    else
      var init, line := lines[..|lines| - 1], lines[|lines| - 1];
      Emission(init, msg) + Gives(line, Current(init), Begun(init, msg), msg)
  }

  lemma {:induction false} ToldAppend(a: seq<Out>, b: seq<Out>, msg: string)
    ensures Told(a + b, msg) == Told(a, msg) + Told(b, msg)
  {
    if b == [] {
      assert a + b == a;
    } else {
      assert (a + b)[..|a + b| - 1] == a + b[..|b| - 1];
      ToldAppend(a, b[..|b| - 1], msg);
      var o := b[|b| - 1];
      Regroup(Told(a, msg), Told(b[..|b| - 1], msg), if o.Said? && o.msg == msg then Marked(o.channel, o.text) else []);
    }
  }

  lemma ToldAlone(o: Out, msg: string)
    ensures Told([o], msg) == if o.Said? && o.msg == msg then Marked(o.channel, o.text) else []
  {
    assert [o][..0] == [] && Told([], msg) == [];
  }

  /** `begun` are the kinds that state `s` takes to be streamed. */
  predicate Knows(s: State, msg: string, begun: set<Channel>) {
    (Text in begun <==> (Text, msg) in s.streamed) && (Thinking in begun <==> (Thinking, msg) in s.streamed)
  }

  lemma BlockTold(s: State, msg: string, b: Block, m: string, begun: set<Channel>)
    requires Knows(s, msg, begun)
    ensures ParseBlock(s, msg, b).state.streamed == s.streamed
    ensures Told(ParseBlock(s, msg, b).outs, m) ==
            if m == msg && b.Prose? && b.channel !in begun then Marked(b.channel, b.text) else []
  {
    var outs := ParseBlock(s, msg, b).outs;
    if b.Prose? { assert b.channel == Text || b.channel == Thinking; }
    if outs != [] {
      assert outs == [outs[0]];
      ToldAlone(outs[0], m);
    }
  }

  lemma {:induction false} BlocksTold(s: State, msg: string, blocks: seq<Block>, m: string, begun: set<Channel>)
    requires Knows(s, msg, begun)
    ensures ParseBlocks(s, msg, blocks).state.streamed == s.streamed
    ensures Told(ParseBlocks(s, msg, blocks).outs, m) == if m == msg then BlocksMarks(blocks, begun) else []
  {
    if blocks != [] {
      var init := ParseBlocks(s, msg, blocks[..|blocks| - 1]);
      var b := blocks[|blocks| - 1];
      BlocksTold(s, msg, blocks[..|blocks| - 1], m, begun);
      BlockTold(init.state, msg, b, m, begun);
      ToldAppend(init.outs, ParseBlock(init.state, msg, b).outs, m);
    }
  }

  lemma LineTold(s: State, line: Line, msg: string, begun: set<Channel>)
    requires Knows(s, msg, begun)
    ensures Told(ParseLine(s, line).outs, msg) == Gives(line, s.msgID, begun, msg)
  {
    if line.Assistant? { CopyTold(s, line.msg, line.blocks, msg, begun); } else { OtherTold(s, line, msg, begun); }
  }

  lemma CopyTold(s: State, copied: string, blocks: seq<Block>, msg: string, begun: set<Channel>)
    requires Knows(s, msg, begun)
    ensures Told(ParseBlocks(s, copied, blocks).outs, msg) == if copied == msg then BlocksMarks(blocks, begun) else []
  {
    var known := if copied == msg then begun else set ch | ch in {Text, Thinking} && (ch, copied) in s.streamed;
    BlocksTold(s, copied, blocks, msg, known);
  }

  lemma OtherTold(s: State, line: Line, msg: string, begun: set<Channel>)
    requires !line.Assistant?
    ensures Told(ParseLine(s, line).outs, msg) == Gives(line, s.msgID, begun, msg)
  {
    var outs := ParseLine(s, line).outs;
    if outs != [] {
      assert outs == [outs[0]];
      ToldAlone(outs[0], msg);
    }
  }

  lemma BegunKnown(lines: seq<Line>, msg: string)
    requires OneTurn(lines)
    ensures Parse(lines).state.msgID == Current(lines) && Knows(Parse(lines).state, msg, Begun(lines, msg))
  {
    StateExactly(lines, Text, msg);
    StateExactly(lines, Thinking, msg);
  }

  /** EmittedExactly for both kinds at once, in the order they come. */
  lemma {:induction false} EmittedInOrder(lines: seq<Line>, msg: string)
    requires OneTurn(lines)
    ensures Told(Parse(lines).outs, msg) == Emission(lines, msg)
  {
    if lines != [] {
      var init, line := lines[..|lines| - 1], lines[|lines| - 1];
      var p := Parse(init);
      EmittedInOrder(init, msg);
      ToldAppend(p.outs, ParseLine(p.state, line).outs, msg);
      BegunKnown(init, msg);
      LineTold(p.state, line, msg, Begun(init, msg));
    }
  }

  lemma {:induction false} MarksSize(blocks: seq<Block>, skip: set<Channel>)
    ensures |BlocksMarks(blocks, skip)| ==
      (if Text in skip then 0 else |BlocksText(blocks, Text)|)
      + (if Thinking in skip then 0 else |BlocksText(blocks, Thinking)|)
  {
    if blocks != [] {
      var b := blocks[|blocks| - 1];
      MarksSize(blocks[..|blocks| - 1], skip);
      if b.Prose? { assert b.channel == Text || b.channel == Thinking; }
    }
  }

  lemma {:induction false} EmissionSize(lines: seq<Line>, msg: string)
    ensures |Emission(lines, msg)| ==
      |Stream(lines, msg)| + |Complete(lines, Text, msg, true)| + |Complete(lines, Thinking, msg, true)|
  {
    if lines != [] {
      var init, line := lines[..|lines| - 1], lines[|lines| - 1];
      EmissionSize(init, msg);
      if line.Assistant? { MarksSize(line.blocks, Begun(init, msg)); }
    }
  }

  lemma {:induction false} EmissionStream(lines: seq<Line>, msg: string)
    requires |Emission(lines, msg)| == |Stream(lines, msg)|
    ensures Emission(lines, msg) == Stream(lines, msg)
  {
    if lines != [] {
      EmissionSize(lines, msg);
      EmissionSize(lines[..|lines| - 1], msg);
      EmissionStream(lines[..|lines| - 1], msg);
    }
  }

  lemma {:induction false} EmissionCopies(lines: seq<Line>, msg: string)
    requires Stream(lines, msg) == []
    ensures Emission(lines, msg) == Copies(lines, msg) && Begun(lines, msg) == {}
  {
    if lines != [] {
      var init := lines[..|lines| - 1];
      EmissionCopies(init, msg);
      assert forall ch :: ch !in Begun(init, msg);
    }
  }

  /**
   * For a message that is streamed whole or not at all: the app gets the text and the thinking of its blocks once and
   * in their mutual order exactly if it was not streamed or nothing of either kind came complete before the first
   * delta of its kind.
   */
  lemma EmitsInOrder(lines: seq<Line>, msg: string)
    requires OneTurn(lines)
    requires Stream(lines, msg) == [] || Stream(lines, msg) == Copies(lines, msg)
    ensures Told(Parse(lines).outs, msg) == Copies(lines, msg)
       <==> Stream(lines, msg) == []
            || (Complete(lines, Text, msg, true) == "" && Complete(lines, Thinking, msg, true) == "")
  {
    EmittedInOrder(lines, msg);
    EmissionSize(lines, msg);
    if Stream(lines, msg) == [] {
      EmissionCopies(lines, msg);
    } else if |Emission(lines, msg)| == |Stream(lines, msg)| {
      EmissionStream(lines, msg);
    }
  }

  lemma OneMore(init: seq<Line>, line: Line, msg: string)
    ensures Current(init + [line]) == if line.MessageStart? then line.msg else Current(init)
    ensures Emission(init + [line], msg) == Emission(init, msg) + Gives(line, Current(init), Begun(init, msg), msg)
    ensures Copies(init + [line], msg) ==
            Copies(init, msg) + if line.Assistant? && line.msg == msg then BlocksMarks(line.blocks, {}) else []
    ensures forall ch :: Streamed(init + [line], ch, msg) == (Streamed(init, ch, msg)
                           + if line.ProseDelta? && line.channel == ch && Current(init) == msg then line.text else "")
    ensures forall ch, early :: Complete(init + [line], ch, msg, early) == (Complete(init, ch, msg, early)
                                  + if line.Assistant? && line.msg == msg && (early ==> Streamed(init, ch, msg) == "")
                                    then BlocksText(line.blocks, ch) else "")
  {
    assert (init + [line])[..|init|] == init;
  }

  /** A complete copy after the text, and nothing else, was streamed. */
  lemma CopyAfter(before: seq<Line>, copy: seq<Block>, msg: string)
    requires OneTurn(before) && Begun(before, msg) == {Text} && Streamed(before, Thinking, msg) == ""
    requires Streamed(before, Text, msg) == BlocksText(copy, Text)
    requires forall ch, early :: Complete(before, ch, msg, early) == ""
    ensures var lines := before + [Assistant(msg, copy)];
      && TextOf(Parse(lines).outs, Text, msg) == Complete(lines, Text, msg, false)
      && TextOf(Parse(lines).outs, Thinking, msg) == Complete(lines, Thinking, msg, false)
      && Told(Parse(lines).outs, msg) == Emission(before, msg) + BlocksMarks(copy, {Text})
      && Copies(lines, msg) == Copies(before, msg) + BlocksMarks(copy, {})
  {
    var lines := before + [Assistant(msg, copy)];
    OneMore(before, Assistant(msg, copy), msg);
    EmitsOnce(lines, Text, msg);
    EmitsOnce(lines, Thinking, msg);
    EmittedInOrder(lines, msg);
  }

  lemma TextFirst(lines: seq<Line>, msg: string, text: string)
    requires lines == [MessageStart(msg), ProseDelta(Text, text)] && text != ""
    ensures Streamed(lines, Text, msg) == text && Streamed(lines, Thinking, msg) == "" && Begun(lines, msg) == {Text}
    ensures OneTurn(lines) && forall ch, early :: Complete(lines, ch, msg, early) == ""
    ensures Emission(lines, msg) == Marked(Text, text) && Copies(lines, msg) == []
  {
    var one: seq<Line> := [MessageStart(msg)];
    OneMore([], MessageStart(msg), msg);
    assert [] + one == one && lines == one + [ProseDelta(Text, text)];
    assert Streamed(one, Text, msg) == "" && Streamed(one, Thinking, msg) == "";
    assert forall ch, early :: Complete(one, ch, msg, early) == "";
    OneMore(one, ProseDelta(Text, text), msg);
  }

  lemma OneBlock(init: seq<Block>, b: Block, ch: Channel, skip: set<Channel>)
    ensures BlocksText(init + [b], ch) == BlocksText(init, ch) + if b.Prose? && b.channel == ch then b.text else ""
    ensures BlocksMarks(init + [b], skip) ==
            BlocksMarks(init, skip) + if b.Prose? && b.channel !in skip then Marked(b.channel, b.text) else []
  {
    assert (init + [b])[..|init|] == init;
  }

  lemma CopyOf(copy: seq<Block>, text: string, thought: string)
    requires copy == [Prose(Thinking, thought), Prose(Text, text)]
    ensures BlocksText(copy, Text) == text && BlocksText(copy, Thinking) == thought
    ensures BlocksMarks(copy, {}) == Marked(Thinking, thought) + Marked(Text, text)
    ensures BlocksMarks(copy, {Text}) == Marked(Thinking, thought)
  {
    var first := [Prose(Thinking, thought)];
    assert [] + first == first && first + [copy[1]] == copy;
    OneBlock([], first[0], Text, {});
    OneBlock([], first[0], Thinking, {Text});
    OneBlock(first, copy[1], Text, {});
    OneBlock(first, copy[1], Thinking, {Text});
    assert "" + thought == thought && thought + "" == thought && "" + text == text;
  }

  /** With one kind streamed and the other only complete each is given once, but not in their mutual order. */
  lemma ThinkingAfterText(lines: seq<Line>, before: seq<Line>, copy: seq<Block>, msg: string, text: string,
                          thought: string)
    requires before == [MessageStart(msg), ProseDelta(Text, text)] && text != ""
    requires copy == [Prose(Thinking, thought), Prose(Text, text)] && lines == before + [Assistant(msg, copy)]
    ensures TextOf(Parse(lines).outs, Text, msg) == Complete(lines, Text, msg, false)
    ensures TextOf(Parse(lines).outs, Thinking, msg) == Complete(lines, Thinking, msg, false)
    ensures Told(Parse(lines).outs, msg) == Marked(Text, text) + Marked(Thinking, thought)
    ensures Copies(lines, msg) == Marked(Thinking, thought) + Marked(Text, text)
  {
    TextFirst(before, msg, text);
    CopyOf(copy, text, thought);
    CopyAfter(before, copy, msg);
  }

  /** A result cuts the lines in two turns that emit on their own. */
  lemma {:induction false} TurnsApart(a: seq<Line>, b: seq<Line>)
    ensures Parse(a + [Result] + b).outs == Parse(a).outs + [Ended] + Parse(b).outs
    ensures Parse(a + [Result] + b).state == Parse(b).state
  {
    var all := a + [Result] + b;
    if b == [] {
      assert all[..|all| - 1] == a;
      assert Parse(a).outs + [Ended] + [] == Parse(a).outs + [Ended];
    } else {
      var init := b[..|b| - 1];
      assert all[..|all| - 1] == a + [Result] + init;
      TurnsApart(a, init);
      var last := ParseLine(Parse(init).state, b[|b| - 1]).outs;
      assert Parse(a).outs + [Ended] + Parse(init).outs + last == Parse(a).outs + [Ended] + (Parse(init).outs + last);
    }
  }

  // ---- In place ----

  /** The parser's state, changed line by line. */
  class Parser {
    var msgID: string
    var open: map<int, OpenBlock>
    var streamed: set<(Channel, string)>
    var inputs: set<string>

    ghost function View(): State
      reads this
    {
      State(msgID, open, streamed, inputs)
    }

    constructor ()
      ensures View() == FRESH
    {
      msgID, open, streamed, inputs := "", map[], {}, {};
    }

    method ParseOne(line: Line) returns (outs: seq<Out>)
      modifies this
      ensures Parsed(View(), outs) == ParseLine(old(View()), line)
    {
      outs := [];
      match line {
        case MessageStart(msg) => msgID, open := msg, map[];
        case BlockStart(index, isTool, tool) =>
          open := open[index := OpenBlock(isTool, tool, "")];
          if isTool && tool != "" { outs := [Called(tool, false, "")]; }
        case ProseDelta(ch, text) =>
          if text != "" {
            streamed := streamed + {(ch, msgID)};
            outs := [Said(ch, msgID, text)];
          }
        case InputDelta(index, json) =>
          if index in open { open := open[index := open[index].(input := open[index].input + json)]; }
        case BlockStop(index, valid) => outs := ParseStop(index, valid);
        case Assistant(msg, blocks) => outs := ParseAssistant(msg, blocks);
        case Result =>
          msgID, open, streamed, inputs := "", map[], {}, {};
          outs := [Ended];
        case OtherLine =>
      }
    }

    method ParseStop(index: int, valid: bool) returns (outs: seq<Out>)
      modifies this`open, this`inputs
      ensures Parsed(View(), outs) == StopBlock(old(View()), index, valid)
    {
      outs := [];
      if index in open {
        var b := open[index];
        if b.isTool && b.tool != "" && b.tool !in inputs {
          inputs := inputs + {b.tool};
          outs := [Called(b.tool, true, if valid then b.input else "")];
        }
      }
      open := open - {index};
    }

    method ParseAssistant(msg: string, blocks: seq<Block>) returns (outs: seq<Out>)
      modifies this`inputs
      ensures Parsed(View(), outs) == ParseBlocks(old(View()), msg, blocks)
    {
      outs := [];
      for i := 0 to |blocks|
        invariant Parsed(View(), outs) == ParseBlocks(old(View()), msg, blocks[..i])
      {
        assert blocks[..i + 1][..i] == blocks[..i];
        match blocks[i] {
          case Prose(ch, text) =>
            if text != "" && (ch, msg) !in streamed { outs := outs + [Said(ch, msg, text)]; }
          case ToolUse(tool, input) =>
            if tool != "" && tool !in inputs {
              inputs := inputs + {tool};
              outs := outs + [Called(tool, true, input)];
            }
          case OtherBlock =>
        }
      }
      assert blocks[..|blocks|] == blocks;
    }

    /**
     * The loop over a session's lines: what it gives is the specification's, with each tool's input final once a turn.
     */
    method ReadLoop(lines: seq<Line>) returns (outs: seq<Out>)
      requires View() == FRESH
      modifies this
      ensures Parsed(View(), outs) == Parse(lines) && FinalOnce(outs)
    {
      outs := [];
      for i := 0 to |lines|
        invariant Parsed(View(), outs) == Parse(lines[..i])
      {
        assert lines[..i + 1][..i] == lines[..i];
        var more := ParseOne(lines[i]);
        outs := outs + more;
      }
      assert lines[..|lines|] == lines;
      ToolsFinalOnce(lines);
    }
  }
}
