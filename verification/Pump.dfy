/**
 * The pump's translation of one thread's agent reports into item events, and why the log it writes may be compacted:
 * for adapter streams in which no message resumes and no tool call restarts, every log is `Meaning.Safe`.
 */
module Pump {
  import opened Domain
  import P = Projection
  import F = Folding
  import M = Meaning
  import opened Sequences

  /** A streamed message is named by its kind, assistant or thinking, and the agent's id for it. */
  datatype Msg = Msg(kind: Kind, name: string)

  /** What the pump turns into items; `Restarts` is a new session's pump, `Ends` the end of a turn. */
  datatype Report =
    | Says(msg: Msg, text: string, meta: string)
    | Calls(tool: string, name: string, full: bool, meta: string)
    | Prints(tool: string, text: string)
    | Returns(tool: string, output: string, status: ItemStatus, isError: bool)
    | Ends
    | Restarts

  /** seenMsgs, in the order they were opened, and seenTools. */
  datatype Seen = Seen(open: seq<Msg>, tools: set<string>)

  function MsgId(owner: Id, m: Msg): ItemId {
    Message(owner, m.kind, m.name)
  }

  function Closer(id: ItemId): Payload {
    ItemCompleted(id, Done, "", "")
  }

  /** closeMessages, for every open message. */
  function Closers(owner: Id, open: seq<Msg>): (r: seq<Payload>)
    ensures |r| == |open| && forall i :: 0 <= i < |r| ==> r[i] == Closer(MsgId(owner, open[i]))
  {
    if open == [] then [] else [Closer(MsgId(owner, open[0]))] + Closers(owner, open[1..])
  }

  function Verdict(status: ItemStatus, isError: bool): ItemStatus {
    var s := if status == Plain then Done else status;
    if isError && s == Done then Failed else s
  }

  function Next(s: Seen, r: Report): Seen {
    match r
    case Says(m, _, _) => if m in s.open then s else s.(open := [m])
    case Calls(tool, _, _, _) => Seen([], s.tools + {tool})
    case Prints(_, _) => s
    case Returns(_, _, _, _) => s
    case Ends => Seen([], {})
    case Restarts => Seen([], {})
  }

  /** A call seen in this turn is updated if there is more to say of it. */
  function CallRows(id: ItemId, seen: bool, name: string, full: bool, meta: string): seq<Payload> {
    if !seen then [ItemStarted(id, false, Tool, name, Ongoing, "", meta)]
    else if full then [ItemCompleted(id, Ongoing, "", meta)]
    else []
  }

  function Written(owner: Id, s: Seen, r: Report): seq<Payload> {
    match r
    case Says(m, text, meta) =>
      if m in s.open then [ItemDelta(MsgId(owner, m), Unset, text)]
      else Closers(owner, s.open) + [ItemStarted(MsgId(owner, m), false, m.kind, "", Ongoing, text, meta)]
    case Calls(tool, name, full, meta) =>
      Closers(owner, s.open) + CallRows(ToolCall(owner, tool), tool in s.tools, name, full, meta)
    case Prints(tool, text) => [ItemDelta(ToolCall(owner, tool), OutputField, text)]
    case Returns(tool, output, status, isError) =>
      var id := ToolCall(owner, tool);
      (if output != "" then [ItemDelta(id, OutputField, output)] else [])
      + [ItemCompleted(id, Verdict(status, isError), "", "")]
    case Ends => Closers(owner, s.open)
    case Restarts => []
  }

  function SeenAfter(rs: seq<Report>): Seen {
    if rs == [] then Seen([], {}) else Next(SeenAfter(rs[..|rs| - 1]), rs[|rs| - 1])
  }

  /** The item events the reports leave, in order. */
  function Log(owner: Id, rs: seq<Report>): seq<Payload> {
    if rs == [] then []
    else Log(owner, rs[..|rs| - 1]) + Written(owner, SeenAfter(rs[..|rs| - 1]), rs[|rs| - 1])
  }

  // ---- What is asked of the adapter ----

  predicate Names(r: Report, tool: string) {
    (r.Calls? || r.Prints? || r.Returns?) && r.tool == tool
  }

  predicate Parts(r: Report) {
    r.Ends? || r.Restarts?
  }

  /** What ends a streamed message: another message, a tool call, the end of the turn or of the session. */
  predicate Interrupts(r: Report, m: Msg) {
    (r.Says? && r.msg != m) || r.Calls? || Parts(r)
  }

  /** No message resumes. */
  ghost predicate Steady(rs: seq<Report>) {
    forall i, j, k | 0 <= i < j < k < |rs| && rs[i].Says? && rs[k].Says? && rs[i].msg == rs[k].msg ::
      !Interrupts(rs[j], rs[i].msg)
  }

  /** The tool was called in the turn that `rs` ends in. */
  ghost predicate Running(rs: seq<Report>, tool: string) {
    exists j :: 0 <= j < |rs| && rs[j].Calls? && rs[j].tool == tool && forall k :: j < k < |rs| ==> !Parts(rs[k])
  }

  /** No tool call restarts: it is named for the first time, or was called in the same turn. */
  ghost predicate CalledOnce(rs: seq<Report>) {
    forall i, k | 0 <= i < k < |rs| && rs[k].Calls? && Names(rs[i], rs[k].tool) :: Running(rs[..k], rs[k].tool)
  }

  ghost predicate WellBehaved(rs: seq<Report>) {
    Steady(rs) && CalledOnce(rs)
  }

  lemma WellBehavedPrefix(rs: seq<Report>, n: nat)
    requires WellBehaved(rs) && n <= |rs|
    ensures WellBehaved(rs[..n])
  {
    CalledOncePrefix(rs, n);
  }

  lemma CalledOncePrefix(rs: seq<Report>, n: nat)
    requires CalledOnce(rs) && n <= |rs|
    ensures CalledOnce(rs[..n])
  {
    forall i, k | 0 <= i < k < n && rs[..n][k].Calls? && Names(rs[..n][i], rs[..n][k].tool)
      ensures Running(rs[..n][..k], rs[..n][k].tool)
    {
      assert rs[..n][..k] == rs[..k];
    }
  }

  // ---- One open message ----

  /** A message is open exactly if it was said and nothing has interrupted it since; never two at a time. */
  ghost predicate Open(rs: seq<Report>, m: Msg) {
    exists i :: 0 <= i < |rs| && rs[i].Says? && rs[i].msg == m && forall j :: i < j < |rs| ==> !Interrupts(rs[j], m)
  }

  lemma OpenStep(rs: seq<Report>, r: Report, m: Msg)
    ensures Open(rs + [r], m) <==> (r.Says? && r.msg == m) || (Open(rs, m) && !Interrupts(r, m))
  {
    var more := rs + [r];
    assert forall i :: 0 <= i < |rs| ==> more[i] == rs[i];
    if r.Says? && r.msg == m { assert more[|rs|].msg == m; }
    if Open(rs, m) && !Interrupts(r, m) {
      var i :| 0 <= i < |rs| && rs[i].Says? && rs[i].msg == m && forall j :: i < j < |rs| ==> !Interrupts(rs[j], m);
      assert more[i].Says?;
    }
    if Open(more, m) {
      var i :| 0 <= i < |more| && more[i].Says? && more[i].msg == m && forall j :: i < j < |more| ==>
        !Interrupts(more[j], m);
      assert more[|rs|] == r;
      if i < |rs| {
        forall j | i < j < |rs| ensures !Interrupts(rs[j], m) { assert more[j] == rs[j]; }
        assert rs[i].Says?;
      }
    }
  }

  lemma RunningStep(rs: seq<Report>, r: Report, tool: string)
    ensures Running(rs + [r], tool) <==> (r.Calls? && r.tool == tool) || (Running(rs, tool) && !Parts(r))
  {
    var more := rs + [r];
    assert forall i :: 0 <= i < |rs| ==> more[i] == rs[i];
    if r.Calls? && r.tool == tool { assert more[|rs|].tool == tool; }
    if Running(rs, tool) && !Parts(r) {
      var i :| 0 <= i < |rs| && rs[i].Calls? && rs[i].tool == tool && forall j :: i < j < |rs| ==> !Parts(rs[j]);
      assert more[i].Calls?;
    }
    if Running(more, tool) {
      var i :| 0 <= i < |more| && more[i].Calls? && more[i].tool == tool && forall j :: i < j < |more| ==>
        !Parts(more[j]);
      assert more[|rs|] == r;
      if i < |rs| {
        forall j | i < j < |rs| ensures !Parts(rs[j]) { assert more[j] == rs[j]; }
        assert rs[i].Calls?;
      }
    }
  }

  /** seenMsgs is what is open and seenTools what is running, for any stream. */
  lemma {:induction false} SeenExactly(rs: seq<Report>)
    ensures |SeenAfter(rs).open| <= 1
    ensures forall m :: m in SeenAfter(rs).open <==> Open(rs, m)
    ensures forall t :: t in SeenAfter(rs).tools <==> Running(rs, t)
  {
    if rs != [] {
      var init, r := rs[..|rs| - 1], rs[|rs| - 1];
      assert rs == init + [r];
      SeenExactly(init);
      forall m ensures m in SeenAfter(rs).open <==> Open(rs, m) { OpenStep(init, r, m); }
      forall t ensures t in SeenAfter(rs).tools <==> Running(rs, t) { RunningStep(init, r, t); }
    }
  }

  // ---- What the log holds about one item ----

  predicate Touched(p: Payload, id: ItemId) {
    (p.ItemStarted? || p.ItemDelta? || p.ItemCompleted?) && p.item == id
  }

  /** No start of the item follows another event about it. */
  ghost predicate StartsFirst(ps: seq<Payload>, id: ItemId) {
    forall i, j :: 0 <= i < j < |ps| && Touched(ps[i], id) && Touched(ps[j], id) ==> !ps[j].ItemStarted?
  }

  /** No completion of the item comes before one of its deltas. */
  ghost predicate EndsLast(ps: seq<Payload>, id: ItemId) {
    forall i, j :: 0 <= i < j < |ps| && Touched(ps[i], id) && Touched(ps[j], id) && ps[i].ItemCompleted? ==>
      !ps[j].ItemDelta?
  }

  ghost predicate Spelled(ps: seq<Payload>, id: ItemId, field: Field) {
    forall i :: 0 <= i < |ps| && Touched(ps[i], id) && ps[i].ItemDelta? ==> ps[i].field == field
  }

  /** A message's text is one delta group inside its start and end; a tool's output is one group after its start. */
  ghost predicate Tidy(ps: seq<Payload>, id: ItemId) {
    && StartsFirst(ps, id)
    && (id.Message? ==> EndsLast(ps, id) && Spelled(ps, id, Unset))
    && (id.ToolCall? ==> Spelled(ps, id, OutputField))
    && (id.Made? ==> forall i :: 0 <= i < |ps| && Touched(ps[i], id) ==> !ps[i].ItemDelta?)
  }

  ghost predicate Untouched(ps: seq<Payload>, id: ItemId) {
    forall i :: 0 <= i < |ps| ==> !Touched(ps[i], id)
  }

  /** The item is not completed. */
  ghost predicate Undone(ps: seq<Payload>, id: ItemId) {
    forall i :: 0 <= i < |ps| && Touched(ps[i], id) ==> !ps[i].ItemCompleted?
  }

  /** One more event keeps an item tidy. */
  lemma TidyAdd(ps: seq<Payload>, p: Payload, id: ItemId)
    requires Tidy(ps, id)
    requires Touched(p, id) && p.ItemStarted? ==> Untouched(ps, id)
    requires Touched(p, id) && p.ItemDelta? ==>
      if id.Message? then p.field == Unset && Undone(ps, id) else id.ToolCall? && p.field == OutputField
    ensures Tidy(ps + [p], id)
    ensures Untouched(ps, id) && !Touched(p, id) ==> Untouched(ps + [p], id)
    ensures Undone(ps, id) && !(Touched(p, id) && p.ItemCompleted?) ==> Undone(ps + [p], id)
  {
    var more := ps + [p];
    assert forall i :: 0 <= i < |ps| ==> more[i] == ps[i];
    assert more[|ps|] == p;
  }

  /** Completions keep every item tidy. */
  lemma TidyEnds(ps: seq<Payload>, ends: seq<Payload>, id: ItemId)
    requires Tidy(ps, id) && forall i :: 0 <= i < |ends| ==> ends[i].ItemCompleted?
    ensures Tidy(ps + ends, id)
  {
    var more := ps + ends;
    assert forall i :: 0 <= i < |more| ==> more[i] == (if i < |ps| then ps[i] else ends[i - |ps|]);
    assert forall i :: |ps| <= i < |more| ==> more[i].ItemCompleted?;
  }

  ghost predicate Said(rs: seq<Report>, m: Msg) {
    exists i :: 0 <= i < |rs| && rs[i].Says? && rs[i].msg == m
  }

  ghost predicate Named(rs: seq<Report>, tool: string) {
    exists i :: 0 <= i < |rs| && Names(rs[i], tool)
  }

  /** What the log holds about an item nobody reported on, and about an open message. */
  ghost predicate Kept(owner: Id, rs: seq<Report>, ps: seq<Payload>, id: ItemId) {
    && Tidy(ps, id)
    && match id
       case Made(_) => Untouched(ps, id)
       case Message(o, kind, name) =>
         var m := Msg(kind, name);
         && ((o == owner && Said(rs, m)) || Untouched(ps, id))
         && (Open(rs, m) ==> Undone(ps, id))
       case ToolCall(o, name) => (o == owner && Named(rs, name)) || Untouched(ps, id)
  }

  /** A message opened now was never said before. */
  lemma NewlySaid(rs: seq<Report>, r: Report)
    requires Steady(rs + [r]) && r.Says?
    ensures !Open(rs, r.msg) ==> !Said(rs, r.msg)
  {
    var more := rs + [r];
    assert forall i :: 0 <= i < |rs| ==> more[i] == rs[i];
    if Said(rs, r.msg) {
      var i :| 0 <= i < |rs| && rs[i].Says? && rs[i].msg == r.msg;
      assert more[|rs|] == r && more[i].Says?;
      forall j | i < j < |rs| ensures !Interrupts(rs[j], r.msg) {
        assert !Interrupts(more[j], more[i].msg);
      }
    }
  }

  /** A tool started now was never named. */
  lemma NewlyCalled(rs: seq<Report>, r: Report)
    requires CalledOnce(rs + [r]) && r.Calls?
    ensures !Running(rs, r.tool) ==> !Named(rs, r.tool)
  {
    var more := rs + [r];
    assert forall i :: 0 <= i < |rs| ==> more[i] == rs[i];
    assert more[|rs|] == r && more[..|rs|] == rs;
    if Named(rs, r.tool) {
      var i :| 0 <= i < |rs| && Names(rs[i], r.tool);
      assert Names(more[i], more[|rs|].tool);
    }
  }

  lemma NamedStep(rs: seq<Report>, r: Report)
    ensures forall m :: Said(rs + [r], m) <==> Said(rs, m) || (r.Says? && r.msg == m)
    ensures forall t :: Named(rs + [r], t) <==> Named(rs, t) || Names(r, t)
  {
    var more := rs + [r];
    assert forall i :: 0 <= i < |rs| ==> more[i] == rs[i];
    assert more[|rs|] == r;
    forall m ensures Said(more, m) <==> Said(rs, m) || (r.Says? && r.msg == m) {
      if i :| 0 <= i < |rs| && rs[i].Says? && rs[i].msg == m { assert more[i].Says?; }
    }
    forall t ensures Named(more, t) <==> Named(rs, t) || Names(r, t) {
      if i :| 0 <= i < |rs| && Names(rs[i], t) { assert Names(more[i], t); }
    }
  }

  /** Closing the open messages keeps what Kept says of every item but them. */
  lemma ClosersFit(owner: Id, open: seq<Msg>, ps: seq<Payload>, id: ItemId)
    requires Tidy(ps, id)
    ensures Tidy(ps + Closers(owner, open), id)
    ensures (forall m :: m in open ==> MsgId(owner, m) != id) ==>
              (Untouched(ps, id) ==> Untouched(ps + Closers(owner, open), id))
              && (Undone(ps, id) ==> Undone(ps + Closers(owner, open), id))
  {
    var ends := Closers(owner, open);
    TidyEnds(ps, ends, id);
    if forall m :: m in open ==> MsgId(owner, m) != id {
      forall i | 0 <= i < |ends| ensures !Touched(ends[i], id) { assert open[i] in open; }
    }
  }

  lemma SaysKept(owner: Id, rs: seq<Report>, r: Report, id: ItemId)
    requires WellBehaved(rs + [r]) && Kept(owner, rs, Log(owner, rs), id) && r.Says?
    ensures Kept(owner, rs + [r], Log(owner, rs) + Written(owner, SeenAfter(rs), r), id)
  {
    var ps, s := Log(owner, rs), SeenAfter(rs);
    SeenExactly(rs);
    NewlySaid(rs, r);
    NamedStep(rs, r);
    if id.Message? { OpenStep(rs, r, Msg(id.kind, id.name)); }
    if r.msg in s.open {
      TidyAdd(ps, ItemDelta(MsgId(owner, r.msg), Unset, r.text), id);
    } else {
      var start := ItemStarted(MsgId(owner, r.msg), false, r.msg.kind, "", Ongoing, r.text, r.meta);
      ClosersFit(owner, s.open, ps, id);
      var closed := ps + Closers(owner, s.open);
      assert ps + Written(owner, s, r) == closed + [start];
      TidyAdd(closed, start, id);
    }
  }

  lemma CallsKept(owner: Id, rs: seq<Report>, r: Report, id: ItemId)
    requires WellBehaved(rs + [r]) && Kept(owner, rs, Log(owner, rs), id) && r.Calls?
    ensures Kept(owner, rs + [r], Log(owner, rs) + Written(owner, SeenAfter(rs), r), id)
  {
    var ps, s := Log(owner, rs), SeenAfter(rs);
    var closed, tool := ps + Closers(owner, s.open), ToolCall(owner, r.tool);
    SeenExactly(rs);
    NewlyCalled(rs, r);
    NamedStep(rs, r);
    if id.Message? { OpenStep(rs, r, Msg(id.kind, id.name)); }
    ClosersFit(owner, s.open, ps, id);
    if r.tool !in s.tools {
      var start := ItemStarted(tool, false, Tool, r.name, Ongoing, "", r.meta);
      assert ps + Written(owner, s, r) == closed + [start];
      TidyAdd(closed, start, id);
    } else if r.full {
      var update := ItemCompleted(tool, Ongoing, "", r.meta);
      assert ps + Written(owner, s, r) == closed + [update];
      TidyAdd(closed, update, id);
    } else {
      assert ps + Written(owner, s, r) == closed;
    }
  }

  lemma ToolKept(owner: Id, rs: seq<Report>, r: Report, id: ItemId)
    requires WellBehaved(rs + [r]) && Kept(owner, rs, Log(owner, rs), id) && (r.Prints? || r.Returns?)
    ensures Kept(owner, rs + [r], Log(owner, rs) + Written(owner, SeenAfter(rs), r), id)
  {
    var ps, tool := Log(owner, rs), ToolCall(owner, r.tool);
    NamedStep(rs, r);
    if id.Message? { OpenStep(rs, r, Msg(id.kind, id.name)); }
    var text := if r.Prints? then r.text else r.output;
    var shown := ps + [ItemDelta(tool, OutputField, text)];
    TidyAdd(ps, ItemDelta(tool, OutputField, text), id);
    if r.Returns? {
      var end := ItemCompleted(tool, Verdict(r.status, r.isError), "", "");
      TidyAdd(shown, end, id);
      TidyAdd(ps, end, id);
      assert ps + Written(owner, SeenAfter(rs), r) == (if text != "" then shown else ps) + [end];
    }
  }

  lemma PartsKept(owner: Id, rs: seq<Report>, r: Report, id: ItemId)
    requires WellBehaved(rs + [r]) && Kept(owner, rs, Log(owner, rs), id) && Parts(r)
    ensures Kept(owner, rs + [r], Log(owner, rs) + Written(owner, SeenAfter(rs), r), id)
  {
    var ps, s := Log(owner, rs), SeenAfter(rs);
    SeenExactly(rs);
    NamedStep(rs, r);
    if id.Message? { OpenStep(rs, r, Msg(id.kind, id.name)); }
    ClosersFit(owner, s.open, ps, id);
    assert ps + [] == ps;
  }

  lemma {:induction false} LogKept(owner: Id, rs: seq<Report>, id: ItemId)
    requires WellBehaved(rs)
    ensures Kept(owner, rs, Log(owner, rs), id)
  {
    if rs != [] {
      var init, r := rs[..|rs| - 1], rs[|rs| - 1];
      assert rs == init + [r];
      WellBehavedPrefix(rs, |rs| - 1);
      LogKept(owner, init, id);
      if r.Says? { SaysKept(owner, init, r, id); }
      else if r.Calls? { CallsKept(owner, init, r, id); }
      else if Parts(r) { PartsKept(owner, init, r, id); }
      else { ToolKept(owner, init, r, id); }
    }
  }

  // ---- The whole log ----

  /** One pump, or several that follow each other, and what their agents reported. */
  datatype Stream = Stream(owner: Id, reports: seq<Report>)

  predicate Pumped(e: Event) {
    M.TextEvent(e) && !e.payload.item.Made?
  }

  /** What one writer wrote of the log; `writer` names each row's. */
  function Part(log: seq<Event>, writer: seq<nat>, w: nat): seq<Event>
    requires |writer| == |log|
  {
    if log == [] then []
    else
      var n := |log| - 1;
      Part(log[..n], writer[..n], w) + (if Pumped(log[n]) && writer[n] == w then [log[n]] else [])
  }

  function Payloads(log: seq<Event>): (r: seq<Payload>)
    ensures |r| == |log| && forall i :: 0 <= i < |r| ==> r[i] == log[i].payload
  {
    seq(|log|, i requires 0 <= i < |log| => log[i].payload)
  }

  /** A writer's event stands in its part behind all its events before it. */
  lemma {:induction false} PartAt(log: seq<Event>, writer: seq<nat>, w: nat, i: nat)
    requires |writer| == |log| && i < |log| && Pumped(log[i]) && writer[i] == w
    ensures var at := |Part(log[..i], writer[..i], w)|;
            at < |Part(log, writer, w)| && Part(log, writer, w)[at] == log[i]
  {
    var n := |log| - 1;
    if i < n {
      PartAt(log[..n], writer[..n], w, i);
      assert log[..n][..i] == log[..i] && writer[..n][..i] == writer[..i];
    }
  }

  lemma PartOrder(log: seq<Event>, writer: seq<nat>, w: nat, i: nat, j: nat)
    requires |writer| == |log| && i < j < |log| && Pumped(log[i]) && writer[i] == w
    ensures |Part(log[..i], writer[..i], w)| < |Part(log[..j], writer[..j], w)|
  {
    PartAt(log[..j], writer[..j], w, i);
    assert log[..j][..i] == log[..i] && writer[..j][..i] == writer[..i];
  }

  /** Only this writer writes about the item. */
  ghost predicate WritesAlone(log: seq<Event>, writer: seq<nat>, w: nat, id: ItemId)
    requires |writer| == |log|
  {
    forall i :: 0 <= i < |log| && Touched(log[i].payload, id) ==> Pumped(log[i]) && writer[i] == w
  }

  lemma TidyWhole(log: seq<Event>, writer: seq<nat>, w: nat, id: ItemId)
    requires |writer| == |log| && WritesAlone(log, writer, w, id) && Tidy(Payloads(Part(log, writer, w)), id)
    ensures Tidy(Payloads(log), id)
  {
    var ps := Payloads(log);
    forall i | 0 <= i < |ps| && Touched(ps[i], id)
      ensures var at := |Part(log[..i], writer[..i], w)|;
              at < |Part(log, writer, w)| && Payloads(Part(log, writer, w))[at] == ps[i]
    {
      PartAt(log, writer, w, i);
    }
    forall i, j | 0 <= i < j < |ps| && Touched(ps[i], id) && Touched(ps[j], id)
      ensures |Part(log[..i], writer[..i], w)| < |Part(log[..j], writer[..j], w)|
    {
      PartOrder(log, writer, w, i, j);
    }
  }

  /** A pump writes into its own thread, about items of that thread. */
  ghost predicate FromStreams(log: seq<Event>, writer: seq<nat>, streams: map<nat, Stream>)
    requires |writer| == |log|
  {
    && (forall i :: 0 <= i < |log| && Pumped(log[i]) ==>
          writer[i] in streams && log[i].payload.item.owner == log[i].thread == streams[writer[i]].owner)
    && (forall w :: w in streams ==> Payloads(Part(log, writer, w)) == Log(streams[w].owner, streams[w].reports))
  }

  /**
   * The log as pumps and other writers make it: any number of pumps to a thread may be at work at a time, a closed
   * session's beside its successor's, as long as no two write about one item.
   */
  ghost predicate WrittenBy(log: seq<Event>, writer: seq<nat>, streams: map<nat, Stream>) {
    && |writer| == |log| && FromStreams(log, writer, streams)
    && (forall e :: e in log && e.payload.ItemDelta? ==> !e.payload.item.Made?)
    && (forall i :: 0 <= i < |log| && Pumped(log[i]) ==> WritesAlone(log, writer, writer[i], log[i].payload.item))
  }

  lemma BetweenTidy(scope: Option<Id>, a: Event, e: Event, b: Event, ps: seq<Payload>, i: nat, j: nat, k: nat)
    requires M.SameGroup(a, b) && i < j < k < |ps| && ps[i] == a.payload && ps[j] == e.payload && ps[k] == b.payload
    requires Tidy(ps, a.payload.item) && F.Scoped(scope, a)
    requires Touched(e.payload, a.payload.item) ==> e.thread == a.thread
    ensures M.Between(scope, a, e, b)
  {
    assert Touched(ps[i], a.payload.item) && Touched(ps[k], a.payload.item);
  }

  /** A log written by the pumps of well-behaved agents, among any other events, is safe to compact. */
  lemma PumpsWriteSafeLogs(log: seq<Event>, writer: seq<nat>, streams: map<nat, Stream>, scope: Option<Id>)
    requires WrittenBy(log, writer, streams) && forall w :: w in streams ==> WellBehaved(streams[w].reports)
    ensures M.Safe(log, scope)
  {
    forall i, j, k | 0 <= i < j < k < |log| && M.SameGroup(log[i], log[k]) && F.Scoped(scope, log[i])
      && F.Scoped(scope, log[k])
      ensures M.Between(scope, log[i], log[j], log[k])
    {
      var id, w := log[i].payload.item, writer[i];
      assert log[i] in log;
      LogKept(streams[w].owner, streams[w].reports, id);
      TidyWhole(log, writer, w, id);
      BetweenTidy(scope, log[i], log[j], log[k], Payloads(log), i, j, k);
    }
  }

  /** So compacting it, whole or one thread's rows, changes nothing a replay sees. */
  lemma AgentLogsCompact(log: seq<Event>, writer: seq<nat>, streams: map<nat, Stream>, scope: Option<Id>)
    requires WrittenBy(log, writer, streams) && Ascending(log) && forall w :: w in streams ==>
      WellBehaved(streams[w].reports)
    ensures M.Agree(P.Replayed(log), P.Replayed(F.Compacted(log, scope)))
  {
    PumpsWriteSafeLogs(log, writer, streams, scope);
    M.CompactionKeepsMeaning(log, scope);
  }

  // ---- What the items show ----

  datatype Shown = Shown(status: ItemStatus, body: string, output: string)

  function Redrawn(was: Option<Shown>, p: Payload): Option<Shown>
    requires p.ItemStarted? || p.ItemDelta? || p.ItemCompleted?
  {
    match p
    case ItemStarted(_, _, _, _, state, body, _) => Some(Shown(state, body, ""))
    case ItemDelta(_, field, text) =>
      if was == None then None
      else if ColumnOf(field) == Body then Some(was.value.(body := was.value.body + text))
      else Some(was.value.(output := was.value.output + text))
    case ItemCompleted(_, state, body, _) =>
      if was == None then None
      else Some(was.value.(status := if state == Plain then was.value.status else state,
                           body := if body == "" then was.value.body else body))
  }

  /** Status, text and output of an item after the events, if it was not there before. */
  function View(ps: seq<Payload>, id: ItemId): Option<Shown> {
    if ps == [] then None
    else
      var was, p := View(ps[..|ps| - 1], id), ps[|ps| - 1];
      if Touched(p, id) then Redrawn(was, p) else was
  }

  function Row(t: P.Tables, id: ItemId): Option<Shown> {
    if id in t.items then Some(Shown(t.items[id].head.status, t.items[id].body, t.items[id].output)) else None
  }

  /** The projection shows exactly that. */
  lemma {:induction false} ViewIsProjected(t: P.Tables, log: seq<Event>, owner: Id, id: ItemId)
    requires owner in t.ledger.threads && id !in t.items
    requires forall e :: e in log ==> M.TextEvent(e) && e.thread == owner
    ensures P.Run(t, log).Ok? && owner in P.Run(t, log).value.ledger.threads
    ensures Row(P.Run(t, log).value, id) == View(Payloads(log), id)
  {
    if log != [] {
      var init, e := log[..|log| - 1], log[|log| - 1];
      assert log == init + [e] && Payloads(log)[..|log| - 1] == Payloads(init);
      ViewIsProjected(t, init, owner, id);
      P.RunConcat(t, init, [e]);
      var u := P.Run(t, init).value;
      assert e in log;
      assert P.Run(u, [e]) == P.Apply(u, e);
      DrawnOnce(u, e, id);
    }
  }

  lemma DrawnOnce(u: P.Tables, e: Event, id: ItemId)
    requires M.TextEvent(e) && e.thread in u.ledger.threads
    ensures P.Apply(u, e).Ok? && e.thread in P.Apply(u, e).value.ledger.threads
    ensures Row(P.Apply(u, e).value, id) ==
            if Touched(e.payload, id) then Redrawn(Row(u, id), e.payload) else Row(u, id)
  {
  }

  function Text(rs: seq<Report>, m: Msg): string {
    if rs == [] then ""
    else
      var r := rs[|rs| - 1];
      Text(rs[..|rs| - 1], m) + (if r.Says? && r.msg == m then r.text else "")
  }

  lemma ViewAdd(ps: seq<Payload>, p: Payload, id: ItemId)
    ensures View(ps + [p], id) == if Touched(p, id) then Redrawn(View(ps, id), p) else View(ps, id)
  {
    assert (ps + [p])[..|ps|] == ps;
  }

  lemma ViewClosers(owner: Id, open: seq<Msg>, ps: seq<Payload>, id: ItemId)
    requires |open| <= 1
    ensures var v := View(ps, id);
            View(ps + Closers(owner, open), id) ==
              if v.Some? && |open| == 1 && MsgId(owner, open[0]) == id then Some(v.value.(status := Done)) else v
  {
    if open == [] {
      assert ps + [] == ps;
    } else {
      assert Closers(owner, open) == [Closer(MsgId(owner, open[0]))];
      ViewAdd(ps, Closer(MsgId(owner, open[0])), id);
    }
  }

  /** The message was open when its session ended; no pump closes it any more. */
  ghost predicate Stranded(rs: seq<Report>, m: Msg) {
    exists k :: 0 <= k < |rs| && rs[k].Restarts? && Open(rs[..k], m)
  }

  /** What a message's item should show. */
  ghost function Expected(rs: seq<Report>, m: Msg): Option<Shown> {
    if Said(rs, m) then Some(Shown(if Open(rs, m) || Stranded(rs, m) then Ongoing else Done, Text(rs, m), "")) else None
  }

  function Outcome(was: Option<Shown>, open: bool, r: Report, m: Msg): Option<Shown> {
    if r.Says? && r.msg == m then
      if open && was.Some? then Some(was.value.(body := was.value.body + r.text)) else Some(Shown(Ongoing, r.text, ""))
    else if open && was.Some? && Interrupts(r, m) && !r.Restarts? then Some(was.value.(status := Done))
    else was
  }

  lemma {:induction false} NoText(rs: seq<Report>, m: Msg)
    requires !Said(rs, m)
    ensures Text(rs, m) == ""
  {
    if rs != [] {
      var init, r := rs[..|rs| - 1], rs[|rs| - 1];
      assert rs == init + [r];
      NamedStep(init, r);
      NoText(init, m);
    }
  }

  lemma StrandedStep(rs: seq<Report>, r: Report, m: Msg)
    ensures Stranded(rs + [r], m) <==> Stranded(rs, m) || (r.Restarts? && Open(rs, m))
  {
    var more := rs + [r];
    assert more[..|rs|] == rs && more[|rs|] == r;
    forall k | 0 <= k < |rs| ensures more[..k] == rs[..k] && more[k] == rs[k] {}
    if Stranded(rs, m) {
      var k :| 0 <= k < |rs| && rs[k].Restarts? && Open(rs[..k], m);
      assert more[k].Restarts? && Open(more[..k], m);
    }
  }

  /** A stranded message is never said again. */
  lemma StrandedStays(rs: seq<Report>, m: Msg)
    requires WellBehaved(rs) && Stranded(rs, m)
    ensures !Open(rs, m)
  {
    var k :| 0 <= k < |rs| && rs[k].Restarts? && Open(rs[..k], m);
    var i :| 0 <= i < k && rs[..k][i].Says? && rs[..k][i].msg == m;
    assert rs[i].Says? && rs[i].msg == m && Interrupts(rs[k], m);
  }

  lemma ExpectedStep(rs: seq<Report>, r: Report, m: Msg)
    requires WellBehaved(rs + [r])
    ensures Expected(rs + [r], m) == Outcome(Expected(rs, m), Open(rs, m), r, m)
  {
    assert (rs + [r])[..|rs|] == rs && (rs + [r])[|rs|] == r;
    assert Text(rs, m) + "" == Text(rs, m) && "" + (if r.Says? then r.text else "") == if r.Says? then r.text else "";
    WellBehavedPrefix(rs + [r], |rs|);
    if r.Says? { NewlySaid(rs, r); }
    NamedStep(rs, r);
    OpenStep(rs, r, m);
    StrandedStep(rs, r, m);
    assert Stranded(rs, m) ==> Said(rs, m) by { if Stranded(rs, m) { StrandedSaid(rs, m); } }
    if !Said(rs, m) { NoText(rs, m); }
    if Stranded(rs, m) { StrandedStays(rs, m); }
  }

  lemma StrandedSaid(rs: seq<Report>, m: Msg)
    requires Stranded(rs, m)
    ensures Said(rs, m)
  {
    var k :| 0 <= k < |rs| && rs[k].Restarts? && Open(rs[..k], m);
    var i :| 0 <= i < k && rs[..k][i].Says? && rs[..k][i].msg == m;
    assert rs[i].Says? && rs[i].msg == m;
  }

  /**
   * Every message's item holds the concatenation of its deltas; it is ongoing exactly while the message is open,
   * or if its session ended in the middle of it.
   */
  lemma {:induction false} MessageItems(owner: Id, rs: seq<Report>, m: Msg)
    requires WellBehaved(rs)
    ensures View(Log(owner, rs), MsgId(owner, m)) == Expected(rs, m)
  {
    if rs != [] {
      var init, r := rs[..|rs| - 1], rs[|rs| - 1];
      assert rs == init + [r];
      WellBehavedPrefix(rs, |rs| - 1);
      MessageItems(owner, init, m);
      ExpectedStep(init, r, m);
      MessageStep(owner, init, r, m);
    }
  }

  lemma MessageStep(owner: Id, rs: seq<Report>, r: Report, m: Msg)
    requires var v := View(Log(owner, rs), MsgId(owner, m)); Open(rs, m) ==> v.Some? && v.value.status == Ongoing
    ensures View(Log(owner, rs) + Written(owner, SeenAfter(rs), r), MsgId(owner, m))
         == Outcome(View(Log(owner, rs), MsgId(owner, m)), Open(rs, m), r, m)
  {
    SeenExactly(rs);
    WrittenShown(owner, Log(owner, rs), SeenAfter(rs), r, m);
  }

  lemma SaysShown(owner: Id, ps: seq<Payload>, s: Seen, r: Report, m: Msg)
    requires r.Says? && |s.open| <= 1
    requires var v := View(ps, MsgId(owner, m)); m in s.open ==> v.Some? && v.value.status == Ongoing
    ensures View(ps + Written(owner, s, r), MsgId(owner, m)) == Outcome(View(ps, MsgId(owner, m)), m in s.open, r, m)
  {
    assert s.open == [] || s.open == [s.open[0]];
    if r.msg in s.open {
      ViewAdd(ps, ItemDelta(MsgId(owner, r.msg), Unset, r.text), MsgId(owner, m));
    } else {
      NewShown(owner, ps, s, r, m);
    }
  }

  lemma NewShown(owner: Id, ps: seq<Payload>, s: Seen, r: Report, m: Msg)
    requires r.Says? && r.msg !in s.open && |s.open| <= 1
    requires var v := View(ps, MsgId(owner, m)); m in s.open ==> v.Some? && v.value.status == Ongoing
    ensures View(ps + Written(owner, s, r), MsgId(owner, m)) == Outcome(View(ps, MsgId(owner, m)), m in s.open, r, m)
  {
    var start := ItemStarted(MsgId(owner, r.msg), false, r.msg.kind, "", Ongoing, r.text, r.meta);
    ViewClosers(owner, s.open, ps, MsgId(owner, m));
    ViewAdd(ps + Closers(owner, s.open), start, MsgId(owner, m));
    Regroup(ps, Closers(owner, s.open), [start]);
    assert s.open == [] || s.open == [s.open[0]];
  }

  /** Events about tools leave messages alone, but for the closers a call brings. */
  lemma ToolShown(owner: Id, ps: seq<Payload>, s: Seen, r: Report, m: Msg)
    requires r.Calls? || r.Prints? || r.Returns?
    ensures View(ps + Written(owner, s, r), MsgId(owner, m))
         == View(if r.Calls? then ps + Closers(owner, s.open) else ps, MsgId(owner, m))
  {
    var id := MsgId(owner, m);
    var base := if r.Calls? then ps + Closers(owner, s.open) else ps;
    var more := ps + Written(owner, s, r);
    assert more == base + more[|base|..];
    ViewSkip(base, more[|base|..], id);
  }

  /** What a report closes: the open message, unless the report is more of it. */
  lemma ClosersShown(owner: Id, ps: seq<Payload>, s: Seen, r: Report, m: Msg)
    requires |s.open| <= 1 && (r.Calls? || r.Ends?)
    requires var v := View(ps, MsgId(owner, m)); m in s.open ==> v.Some? && v.value.status == Ongoing
    ensures View(ps + Closers(owner, s.open), MsgId(owner, m)) == Outcome(View(ps, MsgId(owner, m)), m in s.open, r, m)
  {
    ViewClosers(owner, s.open, ps, MsgId(owner, m));
    assert s.open == [] || s.open == [s.open[0]];
  }

  lemma WrittenShown(owner: Id, ps: seq<Payload>, s: Seen, r: Report, m: Msg)
    requires |s.open| <= 1
    requires var v := View(ps, MsgId(owner, m)); m in s.open ==> v.Some? && v.value.status == Ongoing
    ensures View(ps + Written(owner, s, r), MsgId(owner, m)) == Outcome(View(ps, MsgId(owner, m)), m in s.open, r, m)
  {
    match r
    case Says(_, _, _) => SaysShown(owner, ps, s, r, m);
    case Ends => ClosersShown(owner, ps, s, r, m);
    case Restarts => assert ps + [] == ps;
    case Calls(_, _, _, _) =>
      ToolShown(owner, ps, s, r, m);
      ClosersShown(owner, ps, s, r, m);
    case _ => ToolShown(owner, ps, s, r, m);
  }

  lemma {:induction false} ViewSkip(ps: seq<Payload>, more: seq<Payload>, id: ItemId)
    requires Untouched(more, id)
    ensures View(ps + more, id) == View(ps, id)
  {
    if more == [] {
      assert ps + more == ps;
    } else {
      var init := more[..|more| - 1];
      ViewSkip(ps, init, id);
      ViewAdd(ps + init, more[|more| - 1], id);
      assert ps + more == (ps + init) + [more[|more| - 1]];
    }
  }

  /** The same for the rows: replayed onto tables that hold no such item, the pump's events show each message so. */
  lemma MessagesShown(t: P.Tables, log: seq<Event>, owner: Id, rs: seq<Report>, m: Msg)
    requires owner in t.ledger.threads && MsgId(owner, m) !in t.items
    requires WellBehaved(rs) && Payloads(log) == Log(owner, rs)
    requires forall e :: e in log ==> M.TextEvent(e) && e.thread == owner
    ensures P.Run(t, log).Ok? && Row(P.Run(t, log).value, MsgId(owner, m)) == Expected(rs, m)
  {
    MessageItems(owner, rs, m);
    ViewIsProjected(t, log, owner, MsgId(owner, m));
  }

  // ---- What a tool's item shows ----

  ghost predicate Called(rs: seq<Report>, tool: string) {
    exists i :: 0 <= i < |rs| && rs[i].Calls? && rs[i].tool == tool
  }

  /** All the tool printed, and the output it returned. */
  function Printed(rs: seq<Report>, tool: string): string {
    if rs == [] then ""
    else
      var r := rs[|rs| - 1];
      Printed(rs[..|rs| - 1], tool)
      + (if r.Prints? && r.tool == tool then r.text else if r.Returns? && r.tool == tool then r.output else "")
  }

  /** The verdict of the last return, unless the call went on after it. */
  function Standing(rs: seq<Report>, tool: string): ItemStatus {
    if rs == [] then Ongoing
    else
      var r := rs[|rs| - 1];
      if r.Returns? && r.tool == tool then Verdict(r.status, r.isError)
      else if r.Calls? && r.tool == tool && r.full then Ongoing
      else Standing(rs[..|rs| - 1], tool)
  }

  ghost function ExpectedTool(rs: seq<Report>, tool: string): Option<Shown> {
    if Called(rs, tool) then Some(Shown(Standing(rs, tool), "", Printed(rs, tool))) else None
  }

  lemma {:induction false} NothingPrinted(rs: seq<Report>, tool: string)
    requires !Named(rs, tool)
    ensures Printed(rs, tool) == "" && Standing(rs, tool) == Ongoing && !Called(rs, tool)
  {
    if rs != [] {
      var init, r := rs[..|rs| - 1], rs[|rs| - 1];
      assert rs == init + [r];
      NamedStep(init, r);
      NothingPrinted(init, tool);
      CalledStep(init, r, tool);
    }
  }

  lemma CalledStep(rs: seq<Report>, r: Report, tool: string)
    ensures Called(rs + [r], tool) <==> Called(rs, tool) || (r.Calls? && r.tool == tool)
    ensures Running(rs, tool) ==> Called(rs, tool)
    ensures Called(rs, tool) ==> Named(rs, tool)
  {
    var more := rs + [r];
    assert forall i :: 0 <= i < |rs| ==> more[i] == rs[i];
    assert more[|rs|] == r;
    if Called(rs, tool) {
      var i :| 0 <= i < |rs| && rs[i].Calls? && rs[i].tool == tool;
      assert more[i].Calls? && Names(rs[i], tool);
    }
  }

  /** What one report makes of the tool's item. */
  function ToolOutcome(was: Option<Shown>, r: Report, tool: string): Option<Shown> {
    if !Names(r, tool) then was
    else if r.Calls? then
      if was == None then Some(Shown(Ongoing, "", "")) else if r.full then Some(was.value.(status := Ongoing)) else was
    else if was == None then None
    else if r.Prints? then Some(was.value.(output := was.value.output + r.text))
    else Some(was.value.(status := Verdict(r.status, r.isError), output := was.value.output + r.output))
  }

  lemma ExpectedToolStep(rs: seq<Report>, r: Report, tool: string)
    requires CalledOnce(rs + [r])
    ensures ExpectedTool(rs + [r], tool) == ToolOutcome(ExpectedTool(rs, tool), r, tool)
  {
    assert (rs + [r])[..|rs|] == rs && (rs + [r])[|rs|] == r;
    assert Printed(rs, tool) + "" == Printed(rs, tool);
    CalledStep(rs, r, tool);
    if r.Calls? && r.tool == tool && !Called(rs, tool) {
      NewlyCalled(rs, r);
      NothingPrinted(rs, tool);
    }
  }

  lemma ViewAddAny(ps: seq<Payload>, more: seq<Payload>, id: ItemId)
    requires |more| <= 1
    ensures View(ps + more, id) == if more != [] && Touched(more[0], id) then Redrawn(View(ps, id), more[0])
      else View(ps, id)
  {
    if more == [] {
      assert ps + more == ps;
    } else {
      assert more == [more[0]];
      ViewAdd(ps, more[0], id);
    }
  }

  /** The rows of a call, behind whatever stands before them. */
  lemma RowsShown(ps: seq<Payload>, id: ItemId, seen: bool, r: Report)
    requires r.Calls? && (seen <==> View(ps, id).Some?)
    ensures View(ps + CallRows(id, seen, r.name, r.full, r.meta), id) == ToolOutcome(View(ps, id), r, r.tool)
  {
    ViewAddAny(ps, CallRows(id, seen, r.name, r.full, r.meta), id);
  }

  lemma CallWritten(owner: Id, ps: seq<Payload>, s: Seen, r: Report)
    requires r.Calls? && (r.tool in s.tools <==> View(ps, ToolCall(owner, r.tool)).Some?)
    ensures View(ps + Written(owner, s, r), ToolCall(owner, r.tool)) ==
            ToolOutcome(View(ps, ToolCall(owner, r.tool)), r, r.tool)
  {
    var id := ToolCall(owner, r.tool);
    ViewSkip(ps, Closers(owner, s.open), id);
    RowsShown(ps + Closers(owner, s.open), id, r.tool in s.tools, r);
    Regroup(ps, Closers(owner, s.open), CallRows(id, r.tool in s.tools, r.name, r.full, r.meta));
  }

  /** What the pump writes about a tool, when it starts the item exactly if the tool is not running. */
  lemma ToolWritten(owner: Id, ps: seq<Payload>, s: Seen, r: Report, tool: string)
    requires r.Calls? && r.tool == tool ==> (tool in s.tools <==> View(ps, ToolCall(owner, tool)).Some?)
    ensures View(ps + Written(owner, s, r), ToolCall(owner, tool)) ==
            ToolOutcome(View(ps, ToolCall(owner, tool)), r, tool)
  {
    if !Names(r, tool) { ViewSkip(ps, Written(owner, s, r), ToolCall(owner, tool)); }
    else if r.Calls? { CallWritten(owner, ps, s, r); }
    else if r.Returns? { ReturnWritten(owner, ps, s, r); }
    else { ViewAdd(ps, ItemDelta(ToolCall(owner, tool), OutputField, r.text), ToolCall(owner, tool)); }
  }

  lemma ReturnWritten(owner: Id, ps: seq<Payload>, s: Seen, r: Report)
    requires r.Returns?
    ensures View(ps + Written(owner, s, r), ToolCall(owner, r.tool)) ==
      ToolOutcome(View(ps, ToolCall(owner, r.tool)), r, r.tool)
  {
    var id := ToolCall(owner, r.tool);
    var shown := if r.output != "" then [ItemDelta(id, OutputField, r.output)] else [];
    var end := ItemCompleted(id, Verdict(r.status, r.isError), "", "");
    ViewAddAny(ps, shown, id);
    ViewAdd(ps + shown, end, id);
    Regroup(ps, shown, [end]);
    assert Written(owner, s, r) == shown + [end];
    NothingAdded(View(ps, id));
  }

  lemma NothingAdded(was: Option<Shown>)
    ensures was.Some? ==> was.value.output + "" == was.value.output
  {
  }

  /**
   * Every tool called has an item whose output is all it printed and returned, in order, and whose status is the
   * verdict of its last return, or ongoing; a tool that was never called has none.
   */
  lemma {:induction false} ToolItems(owner: Id, rs: seq<Report>, tool: string)
    requires CalledOnce(rs)
    ensures View(Log(owner, rs), ToolCall(owner, tool)) == ExpectedTool(rs, tool)
  {
    if rs != [] {
      var init, r := rs[..|rs| - 1], rs[|rs| - 1];
      assert rs == init + [r];
      CalledOncePrefix(rs, |rs| - 1);
      ToolItems(owner, init, tool);
      ExpectedToolStep(init, r, tool);
      SeenExactly(init);
      CalledStep(init, r, tool);
      if r.Calls? { NewlyCalled(init, r); }
      ToolWritten(owner, Log(owner, init), SeenAfter(init), r, tool);
    }
  }

  /** The same for the rows. */
  lemma ToolsShown(t: P.Tables, log: seq<Event>, owner: Id, rs: seq<Report>, tool: string)
    requires owner in t.ledger.threads && ToolCall(owner, tool) !in t.items
    requires CalledOnce(rs) && Payloads(log) == Log(owner, rs)
    requires forall e :: e in log ==> M.TextEvent(e) && e.thread == owner
    ensures P.Run(t, log).Ok? && Row(P.Run(t, log).value, ToolCall(owner, tool)) == ExpectedTool(rs, tool)
  {
    ToolItems(owner, rs, tool);
    ViewIsProjected(t, log, owner, ToolCall(owner, tool));
  }

  /**
   * A return with no status of its own is done; one that is done, said or not, is failed with the error flag; and any
   * other status stands.
   */
  lemma Verdicts(status: ItemStatus)
    ensures Verdict(Plain, false) == Done && Verdict(Done, false) == Done
    ensures Verdict(Plain, true) == Failed && Verdict(Done, true) == Failed
    ensures status != Plain && status != Done ==> Verdict(status, true) == status == Verdict(status, false)
  {
  }

  // ---- What stands in a row ----

  /** The start of an item says whose it is: its kind, the tool's name and what came with the report. */
  predicate StartOf(owner: Id, r: Report, p: Payload) {
    || (r.Says? && p == ItemStarted(MsgId(owner, r.msg), false, r.msg.kind, "", Ongoing, r.text, r.meta))
    || (r.Calls? && p == ItemStarted(ToolCall(owner, r.tool), false, Tool, r.name, Ongoing, "", r.meta))
  }

  predicate DeltaOf(owner: Id, r: Report, p: Payload) {
    || (r.Says? && p == ItemDelta(MsgId(owner, r.msg), Unset, r.text))
    || (r.Prints? && p == ItemDelta(ToolCall(owner, r.tool), OutputField, r.text))
    || (r.Returns? && r.output != "" && p == ItemDelta(ToolCall(owner, r.tool), OutputField, r.output))
  }

  /** A completion is the end of a message, an update of a call with what there is to say of it, or a verdict. */
  predicate CompletionOf(owner: Id, r: Report, p: Payload) {
    || (p.ItemCompleted? && p.item.Message? && p == Closer(p.item) && (r.Says? || r.Calls? || r.Ends?))
    || (r.Calls? && r.full && p == ItemCompleted(ToolCall(owner, r.tool), Ongoing, "", r.meta))
    || (r.Returns? && p == ItemCompleted(ToolCall(owner, r.tool), Verdict(r.status, r.isError), "", ""))
  }

  predicate WrittenFor(owner: Id, r: Report, p: Payload) {
    StartOf(owner, r, p) || DeltaOf(owner, r, p) || CompletionOf(owner, r, p)
  }

  lemma RowsOf(owner: Id, s: Seen, r: Report, p: Payload)
    requires p in Written(owner, s, r)
    ensures WrittenFor(owner, r, p)
  {
    if p in Closers(owner, s.open) {
      var i :| 0 <= i < |s.open| && Closers(owner, s.open)[i] == p;
    }
  }

  /** Every row is written for a report, and says what the report does. */
  lemma {:induction false} RowsFromReports(owner: Id, rs: seq<Report>, p: Payload)
    requires p in Log(owner, rs)
    ensures exists k :: 0 <= k < |rs| && WrittenFor(owner, rs[k], p)
  {
    var n := |rs| - 1;
    if p in Log(owner, rs[..n]) {
      RowsFromReports(owner, rs[..n], p);
      var k :| 0 <= k < n && WrittenFor(owner, rs[..n][k], p);
      assert WrittenFor(owner, rs[k], p);
    } else {
      RowsOf(owner, SeenAfter(rs[..n]), rs[n], p);
    }
  }

  // ---- In place ----

  lemma Grown(owner: Id, rs: seq<Report>, r: Report)
    ensures SeenAfter(rs + [r]) == Next(SeenAfter(rs), r)
    ensures Log(owner, rs + [r]) == Log(owner, rs) + Written(owner, SeenAfter(rs), r)
  {
    assert (rs + [r])[..|rs|] == rs;
  }

  /** What a tool prints or returns is written whatever the pump has seen, and leaves that as it is. */
  lemma ToolGrown(owner: Id, rs: seq<Report>, r: Report)
    requires r.Prints? || r.Returns?
    ensures SeenAfter(rs + [r]) == SeenAfter(rs)
    ensures Log(owner, rs + [r]) == Log(owner, rs) + Written(owner, Seen([], {}), r)
  {
    Grown(owner, rs, r);
  }

  /** The messages open under another id than `keep`. */
  function Others(open: map<Msg, ItemId>, keep: Option<ItemId>): set<Msg> {
    set m | m in open && Some(open[m]) != keep
  }

  lemma KeptOnly(open: map<Msg, ItemId>, keep: Option<ItemId>)
    ensures open - Others(open, keep) == map m | m in open && Some(open[m]) == keep :: open[m]
  {
  }

  /** The pump's bookkeeping for one session, and what it has appended. */
  class Live {
    const owner: Id
    var seenMsgs: map<Msg, ItemId>
    var seenTools: set<string>
    var log: seq<Payload>
    ghost var reports: seq<Report>

    ghost predicate Valid()
      reads this
    {
      && (forall m :: m in seenMsgs <==> m in SeenAfter(reports).open)
      && (forall m :: m in seenMsgs ==> seenMsgs[m] == MsgId(owner, m))
      && seenTools == SeenAfter(reports).tools
      && log == Log(owner, reports)
    }

    constructor (owner: Id)
      ensures Valid() && this.owner == owner && reports == []
    {
      this.owner, seenMsgs, seenTools, log, reports := owner, map[], {}, [], [];
    }

    /** Marks every message but `keep` done, in whatever order the map yields them, and forgets it. */
    method CloseMessages(keep: Option<ItemId>) returns (evs: seq<Payload>)
      modifies this`seenMsgs
      ensures seenMsgs == map m | m in old(seenMsgs) && Some(old(seenMsgs)[m]) == keep :: old(seenMsgs)[m]
      ensures |evs| == |Others(old(seenMsgs), keep)|
      ensures forall m :: m in Others(old(seenMsgs), keep) ==> Closer(old(seenMsgs)[m]) in evs
    {
      evs := [];
      var all := seenMsgs;
      var left := Others(all, keep);
      ghost var closed := left;
      assert closed - left == {} && seenMsgs == all - {};
      while left != {}
        invariant left <= closed <= all.Keys && |evs| + |left| == |closed|
        invariant forall m :: m in closed - left ==> Closer(all[m]) in evs
        invariant seenMsgs == all - (closed - left)
        decreases |left|
      {
        var m :| m in left;
        evs := evs + [Closer(all[m])];
        seenMsgs := seenMsgs - {m};
        assert closed - (left - {m}) == (closed - left) + {m};
        left := left - {m};
      }
      assert closed - {} == closed;
      KeptOnly(all, keep);
    }

    /** At most one message is open, so the order does not matter. */
    lemma OneCloser(open: seq<Msg>, closed: set<Msg>, evs: seq<Payload>)
      requires |open| <= 1 && (forall m :: m in closed <==> m in open)
      requires |evs| == |closed| && forall m :: m in closed ==> Closer(MsgId(owner, m)) in evs
      ensures evs == Closers(owner, open)
    {
      if open == [] {
        assert closed == {};
      } else {
        assert closed == {open[0]};
        assert Closer(MsgId(owner, open[0])) in evs;
        assert Closers(owner, open) == [Closer(MsgId(owner, open[0]))];
      }
    }

    method CloseAll() returns (evs: seq<Payload>)
      requires Valid()
      modifies this`seenMsgs
      ensures seenMsgs == map[] && evs == Closers(owner, SeenAfter(reports).open)
    {
      evs := CloseMessages(None);
      SeenExactly(reports);
      OneCloser(SeenAfter(reports).open, Others(old(seenMsgs), None), evs);
    }

    method Delta(m: Msg, text: string, meta: string)
      requires Valid()
      modifies this
      ensures Valid() && reports == old(reports) + [Says(m, text, meta)]
    {
      if m !in seenMsgs {
        OpenMessage(m, text, meta);
        return;
      }
      Grown(owner, reports, Says(m, text, meta));
      reports := reports + [Says(m, text, meta)];
      log := log + [ItemDelta(seenMsgs[m], Unset, text)];
    }

    /** A new message means the previous streamed one is finished. */
    method OpenMessage(m: Msg, text: string, meta: string)
      requires Valid() && m !in seenMsgs
      modifies this
      ensures Valid() && reports == old(reports) + [Says(m, text, meta)]
    {
      Grown(owner, reports, Says(m, text, meta));
      var evs := Supersede(m);
      reports := reports + [Says(m, text, meta)];
      log := log + (evs + [ItemStarted(MsgId(owner, m), false, m.kind, "", Ongoing, text, meta)]);
    }

    /** Other messages have other ids. */
    lemma OthersThan(was: map<Msg, ItemId>, m: Msg)
      requires m !in was && forall n :: n in was ==> was[n] == MsgId(owner, n)
      ensures var id := MsgId(owner, m);
              var all := was[m := id];
              && Others(all, Some(id)) == was.Keys
              && (map n | n in all && Some(all[n]) == Some(id) :: all[n]) == map[m := id]
    {
    }

    method Supersede(m: Msg) returns (evs: seq<Payload>)
      requires Valid() && m !in seenMsgs
      modifies this`seenMsgs
      ensures seenMsgs == map[m := MsgId(owner, m)] && evs == Closers(owner, SeenAfter(reports).open)
    {
      var id := MsgId(owner, m);
      seenMsgs := seenMsgs[m := id];
      ghost var all := seenMsgs;
      OthersThan(old(seenMsgs), m);
      evs := CloseMessages(Some(id));
      SeenExactly(reports);
      OneCloser(SeenAfter(reports).open, Others(all, Some(id)), evs);
    }

    method ToolStarted(tool: string, name: string, full: bool, meta: string)
      requires Valid()
      modifies this
      ensures Valid() && reports == old(reports) + [Calls(tool, name, full, meta)]
    {
      var evs := CloseAll();
      Grown(owner, reports, Calls(tool, name, full, meta));
      reports := reports + [Calls(tool, name, full, meta)];
      var seen, id, rows := tool in seenTools, ToolCall(owner, tool), [];
      seenTools := seenTools + {tool};
      if !seen {
        rows := [ItemStarted(id, false, Tool, name, Ongoing, "", meta)];
      } else if full {
        rows := [ItemCompleted(id, Ongoing, "", meta)];
      }
      log := log + (evs + rows);
    }

    method ToolOutput(tool: string, text: string)
      requires Valid()
      modifies this
      ensures Valid() && reports == old(reports) + [Prints(tool, text)]
    {
      ToolGrown(owner, reports, Prints(tool, text));
      log := log + [ItemDelta(ToolCall(owner, tool), OutputField, text)];
      reports := reports + [Prints(tool, text)];
    }

    method ToolCompleted(tool: string, output: string, reported: ItemStatus, isError: bool)
      requires Valid()
      modifies this
      ensures Valid() && reports == old(reports) + [Returns(tool, output, reported, isError)]
    {
      ToolGrown(owner, reports, Returns(tool, output, reported, isError));
      var evs := if output != "" then [ItemDelta(ToolCall(owner, tool), OutputField, output)] else [];
      var status := reported;
      if status == Plain { status := Done; }
      if isError && status == Done { status := Failed; }
      log := log + (evs + [ItemCompleted(ToolCall(owner, tool), status, "", "")]);
      reports := reports + [Returns(tool, output, reported, isError)];
    }

    method TurnCompleted()
      requires Valid()
      modifies this
      ensures Valid() && reports == old(reports) + [Ends]
    {
      var evs := CloseAll();
      seenTools := {};
      Grown(owner, reports, Ends);
      reports := reports + [Ends];
      log := log + evs;
    }
  }
}
