/**
 * Rewinding a thread: the transcript and the agent's own conversation, which is forked at the anchors that
 * turn ends report, describe the same history.
 */
module Rewind {
  import opened Domain
  import opened Sequences

  /** A turn as the agent remembers it; a compaction turn carries no prompt. */
  datatype Turn = Turn(prompt: Option<string>, anchor: string)

  type Conversation = seq<Turn>

  /** What a prompt's item records about the moment it went out. */
  datatype Meta = Meta(agent: string, session: string, anchor: string, opening: bool)

  /** A transcript item; only a prompt has text here. */
  datatype Item = Item(id: nat, prompt: Option<string>, meta: Meta)

  const PLAIN := Meta("", "", "", false)

  /** The thread's row: the agent, its session's id, the last anchor and where the next session forks; "" is none. */
  datatype Link = Link(agent: string, external: string, anchor: string, forkAt: string)

  /** `live` is the conversation the registered session writes, `flight` the turn it is in. */
  datatype World = World(row: Link, items: seq<Item>, talks: map<string, Conversation>,
                         live: Option<string>, flight: Option<Option<string>>)

  // ---- What both sides hold ----

  /** A conversation up to and including the turn with this anchor. */
  function UpTo(talk: Conversation, anchor: string): Conversation {
    if talk == [] then []
    else [talk[0]] + (if talk[0].anchor == anchor then [] else UpTo(talk[1..], anchor))
  }

  predicate Has(talk: Conversation, anchor: string) {
    exists i :: 0 <= i < |talk| && talk[i].anchor == anchor
  }

  function Asked(talk: Conversation): seq<string> {
    if talk == [] then []
    else (if talk[0].prompt.Some? then [talk[0].prompt.value] else []) + Asked(talk[1..])
  }

  function Prompts(items: seq<Item>): seq<string> {
    if items == [] then []
    else (if items[0].prompt.Some? then [items[0].prompt.value] else []) + Prompts(items[1..])
  }

  function Cut(talk: Conversation, forkAt: string): Conversation {
    if forkAt == "" then talk else UpTo(talk, forkAt)
  }

  /** The conversation the next session starts from. */
  function Next(row: Link, talks: map<string, Conversation>): Conversation {
    if row.external !in talks then [] else Cut(talks[row.external], row.forkAt)
  }

  // ---- The steps ----

  /** Start: a fresh conversation, a fork, or the same one resumed; `id` names a conversation that begins. */
  function Start(w: World, id: string): World {
    if w.live.Some? then w
    else if w.row.external == "" then w.(talks := w.talks[id := []], live := Some(id))
    else if w.row.forkAt != "" then w.(talks := w.talks[id := Next(w.row, w.talks)], live := Some(id))
    else w.(live := Some(w.row.external))
  }

  /** A bound session is the fork a rewind asked for. */
  function Bind(w: World): World {
    if w.live.Some? && w.row.external != w.live.value
    then w.(row := w.row.(external := w.live.value, forkAt := "")) else w
  }

  function MetaFor(row: Link): Meta {
    if row.external != "" then Meta(row.agent, row.external, row.anchor, false) else Meta("", "", "", true)
  }

  function Send(w: World, id: nat, text: string): World {
    if w.live == None || w.flight.Some? then w
    else w.(items := w.items + [Item(id, Some(text), MetaFor(w.row))], flight := Some(Some(text)))
  }

  function Compact(w: World, id: nat): World {
    if w.live == None || w.flight.Some? then w
    else w.(items := w.items + [Item(id, None, PLAIN)], flight := Some(None))
  }

  /** The agent keeps the turn; the row keeps its anchor if there is one. */
  function EndTurn(w: World, id: nat, anchor: string): World {
    if w.live == None || w.flight == None || w.live.value !in w.talks then w
    else
      var c := w.live.value;
      World(if anchor != "" then w.row.(anchor := anchor) else w.row,
            w.items + [Item(id, None, PLAIN)],
            w.talks[c := w.talks[c] + [Turn(w.flight.value, anchor)]], w.live, None)
  }

  /** The session goes away, a turn in flight with it. */
  function Close(w: World): World {
    w.(live := None, flight := None)
  }

  function Note(w: World, id: nat): World {
    w.(items := w.items + [Item(id, None, PLAIN)])
  }

  /** Another agent cannot resume the session; the app allows the switch before the first item only. */
  function Switch(w: World, agent: string): World {
    if w.items != [] || w.flight.Some? || agent == w.row.agent then w
    else w.(row := Link(agent, "", "", ""), live := None)
  }

  /** Index of the first item with this id, or the length. */
  function Find(items: seq<Item>, id: nat): (k: nat)
    ensures k <= |items| && (k < |items| ==> items[k].id == id)
    ensures forall j :: 0 <= j < k ==> items[j].id != id
  {
    if items == [] || items[0].id == id then 0 else 1 + Find(items[1..], id)
  }

  predicate CanRewind(row: Link, item: Item, first: bool) {
    && item.prompt.Some?
    && (first || item.meta.opening
        || (item.meta.anchor != "" && (item.meta.agent == "" || item.meta.agent == row.agent)))
  }

  function Rewound(row: Link, meta: Meta, first: bool): Link {
    if first || meta.opening then Link(row.agent, "", "", "")
      else Link(row.agent, meta.session, meta.anchor, meta.anchor)
  }

  predicate Rewindable(w: World, id: nat) {
    var k := Find(w.items, id);
    w.flight == None && k < |w.items| && CanRewind(w.row, w.items[k], Prompts(w.items[..k]) == [])
  }

  /** The prompt and everything after it leave; a note says so. */
  function RewindTo(w: World, id: nat, note: nat): World {
    if !Rewindable(w, id) then w
    else
      var k := Find(w.items, id);
      w.(row := Rewound(w.row, w.items[k].meta, Prompts(w.items[..k]) == []),
         items := w.items[..k] + [Item(note, None, PLAIN)], live := None)
  }

  datatype Act =
    | Starts(id: string)
    | Binds
    | Sends(item: nat, text: string)
    | Compacts(item: nat)
    | Ends(item: nat, anchor: string)
    | Closes
    | Notes(item: nat)
    | Switches(agent: string)
    | Rewinds(prompt: nat, item: nat)

  function Step(w: World, a: Act): World {
    match a
    case Starts(id) => Start(w, id)
    case Binds => Bind(w)
    case Sends(id, text) => Send(w, id, text)
    case Compacts(id) => Compact(w, id)
    case Ends(id, anchor) => EndTurn(w, id, anchor)
    case Closes => Close(w)
    case Notes(id) => Note(w, id)
    case Switches(agent) => Switch(w, agent)
    case Rewinds(prompt, id) => RewindTo(w, prompt, id)
  }

  function Run(w: World, acts: seq<Act>): World {
    if acts == [] then w else Step(Run(w, acts[..|acts| - 1]), acts[|acts| - 1])
  }

  function Init(agent: string): World {
    World(Link(agent, "", "", ""), [], map[], None, None)
  }

  /**
   * What is asked of the agent: new conversations get new ids, a session tells its id before its turn ends,
   * every turn ends, with an anchor its conversation does not hold yet.
   */
  predicate Fair(w: World, a: Act) {
    match a
    case Starts(id) => id != "" && id !in w.talks
    case Ends(_, anchor) =>
      w.live.Some? && w.flight.Some? ==>
        w.row.external == w.live.value && anchor != ""
          && !(w.row.external in w.talks && Has(w.talks[w.row.external], anchor))
    case Closes => w.flight == None
    case _ => true
  }

  // ---- Facts about conversations ----

  lemma HasTail(talk: Conversation, anchor: string)
    requires talk != []
    ensures Has(talk, anchor) <==> talk[0].anchor == anchor || Has(talk[1..], anchor)
  {
    if i :| 0 <= i < |talk[1..]| && talk[1..][i].anchor == anchor { assert talk[i + 1].anchor == anchor; }
    if i :| 0 < i < |talk| && talk[i].anchor == anchor { assert talk[1..][i - 1].anchor == anchor; }
  }

  lemma {:induction false} UpToStays(talk: Conversation, more: Conversation, anchor: string)
    requires Has(talk, anchor)
    ensures UpTo(talk + more, anchor) == UpTo(talk, anchor) && Has(talk + more, anchor)
  {
    HasTail(talk, anchor);
    HasTail(talk + more, anchor);
    assert (talk + more)[1..] == talk[1..] + more;
    if talk[0].anchor != anchor { UpToStays(talk[1..], more, anchor); }
  }

  lemma {:induction false} UpToTwice(talk: Conversation, anchor: string)
    requires Has(talk, anchor)
    ensures Has(UpTo(talk, anchor), anchor) && UpTo(UpTo(talk, anchor), anchor) == UpTo(talk, anchor)
  {
    HasTail(talk, anchor);
    HasTail(UpTo(talk, anchor), anchor);
    if talk[0].anchor != anchor {
      UpToTwice(talk[1..], anchor);
      assert UpTo(talk, anchor)[1..] == UpTo(talk[1..], anchor);
    }
  }

  lemma {:induction false} UpToLast(talk: Conversation, turn: Turn)
    requires !Has(talk, turn.anchor)
    ensures Has(talk + [turn], turn.anchor) && UpTo(talk + [turn], turn.anchor) == talk + [turn]
  {
    HasTail(talk + [turn], turn.anchor);
    if talk == [] {
      assert (talk + [turn])[1..] == [];
    } else {
      HasTail(talk, turn.anchor);
      assert (talk + [turn])[1..] == talk[1..] + [turn];
      UpToLast(talk[1..], turn);
    }
  }

  lemma {:induction false} AskedAppend(talk: Conversation, turn: Turn)
    ensures Asked(talk + [turn]) == Asked(talk) + (if turn.prompt.Some? then [turn.prompt.value] else [])
  {
    if talk == [] {
      assert (talk + [turn])[1..] == [];
    } else {
      assert (talk + [turn])[1..] == talk[1..] + [turn];
      AskedAppend(talk[1..], turn);
      Regroup(if talk[0].prompt.Some? then [talk[0].prompt.value] else [], Asked(talk[1..]),
              if turn.prompt.Some? then [turn.prompt.value] else []);
    }
  }

  lemma {:induction false} PromptsAppend(items: seq<Item>, item: Item)
    ensures Prompts(items + [item]) == Prompts(items) + (if item.prompt.Some? then [item.prompt.value] else [])
  {
    if items == [] {
      assert (items + [item])[1..] == [];
    } else {
      assert (items + [item])[1..] == items[1..] + [item];
      PromptsAppend(items[1..], item);
      Regroup(if items[0].prompt.Some? then [items[0].prompt.value] else [], Prompts(items[1..]),
              if item.prompt.Some? then [item.prompt.value] else []);
    }
  }

  // ---- The invariant ----

  /** A prompt's record, cut out of the conversations, gives the prompts that stood before it. */
  ghost predicate Marked(meta: Meta, before: seq<string>, talks: map<string, Conversation>) {
    if meta.opening || meta.anchor == "" then before == []
    else
      && meta.session in talks && Has(talks[meta.session], meta.anchor)
      && Asked(UpTo(talks[meta.session], meta.anchor)) == before
  }

  ghost predicate AllMarked(items: seq<Item>, agent: string, talks: map<string, Conversation>) {
    forall k :: 0 <= k < |items| && items[k].prompt.Some? ==>
      Marked(items[k].meta, Prompts(items[..k]), talks) && (items[k].meta.agent == "" || items[k].meta.agent == agent)
  }

  ghost predicate RowOk(row: Link, talks: map<string, Conversation>) {
    && "" !in talks
    && (row.external != "" ==> row.external in talks)
    && (row.forkAt != "" ==> row.external != "" && Has(talks[row.external], row.forkAt) && row.anchor == row.forkAt)
    && (if row.anchor == "" then Next(row, talks) == []
        else
          && row.external != "" && Has(Next(row, talks), row.anchor)
          && UpTo(Next(row, talks), row.anchor) == Next(row, talks))
  }

  ghost predicate LiveOk(w: World) {
    && (w.live.Some? ==> w.live.value in w.talks && w.talks[w.live.value] == Next(w.row, w.talks)
                         && (w.live.value == w.row.external ==> w.row.forkAt == ""))
    && (w.flight.Some? ==> w.live.Some?)
  }

  /** The transcript's prompts are those of the conversation, and then the one in flight. */
  ghost predicate Agree(w: World) {
    Prompts(w.items) == Asked(Next(w.row, w.talks))
      + (if w.flight.Some? && w.flight.value.Some? then [w.flight.value.value] else [])
  }

  ghost predicate Inv(w: World) {
    RowOk(w.row, w.talks) && LiveOk(w) && Agree(w) && AllMarked(w.items, w.row.agent, w.talks)
  }

  lemma MarkedAppend(items: seq<Item>, item: Item, agent: string, talks: map<string, Conversation>)
    requires AllMarked(items, agent, talks)
    requires item.prompt.Some? ==>
      Marked(item.meta, Prompts(items), talks) && (item.meta.agent == "" || item.meta.agent == agent)
    ensures AllMarked(items + [item], agent, talks)
  {
    var more := items + [item];
    assert more[..|items|] == items;
    forall k | 0 <= k < |items| ensures more[..k] == items[..k] && more[k] == items[k] {}
  }

  lemma MarkedPrefix(items: seq<Item>, k: nat, agent: string, talks: map<string, Conversation>)
    requires AllMarked(items, agent, talks) && k <= |items|
    ensures AllMarked(items[..k], agent, talks)
  {
    forall j | 0 <= j < k ensures items[..k][..j] == items[..j] {}
  }

  /** New conversations and longer ones leave every record as it was. */
  lemma MarkedGrows(items: seq<Item>, agent: string, talks: map<string, Conversation>, id: string, talk: Conversation)
    requires AllMarked(items, agent, talks)
    requires id in talks ==> talks[id] <= talk
    ensures AllMarked(items, agent, talks[id := talk])
  {
    forall k | 0 <= k < |items| && items[k].prompt.Some?
      ensures Marked(items[k].meta, Prompts(items[..k]), talks[id := talk])
    {
      var m := items[k].meta;
      if m.session == id && id in talks && !m.opening && m.anchor != "" {
        assert talk == talks[id] + talk[|talks[id]|..];
        UpToStays(talks[id], talk[|talks[id]|..], m.anchor);
      }
    }
  }

  // ---- Each step keeps it ----

  lemma StartKeeps(w: World, id: string)
    requires Inv(w) && Fair(w, Starts(id))
    ensures Inv(Start(w, id))
  {
    if w.live == None && (w.row.external == "" || w.row.forkAt != "") {
      MarkedGrows(w.items, w.row.agent, w.talks, id, Next(w.row, w.talks));
    }
  }

  lemma SendKeeps(w: World, id: nat, text: string)
    requires Inv(w)
    ensures Inv(Send(w, id, text))
  {
    if w.live.Some? && w.flight == None {
      var item := Item(id, Some(text), MetaFor(w.row));
      MarkNow(w.row, w.talks);
      MarkedAppend(w.items, item, w.row.agent, w.talks);
      PromptsAppend(w.items, item);
    }
  }

  /** A record taken now names exactly the conversation the next session starts from. */
  lemma MarkNow(row: Link, talks: map<string, Conversation>)
    requires RowOk(row, talks)
    ensures Marked(MetaFor(row), Asked(Next(row, talks)), talks)
  {
    if row.anchor != "" && row.forkAt != "" { UpToTwice(talks[row.external], row.forkAt); }
  }

  lemma NoteKeeps(w: World, id: nat)
    requires Inv(w)
    ensures Inv(Note(w, id)) && Inv(Compact(w, id))
  {
    MarkedAppend(w.items, Item(id, None, PLAIN), w.row.agent, w.talks);
    PromptsAppend(w.items, Item(id, None, PLAIN));
  }

  lemma EndKeeps(w: World, id: nat, anchor: string)
    requires Inv(w) && Fair(w, Ends(id, anchor))
    ensures Inv(EndTurn(w, id, anchor))
  {
    if w.live.Some? && w.flight.Some? {
      var c := w.live.value;
      var turn := Turn(w.flight.value, anchor);
      var talk := w.talks[c] + [turn];
      UpToLast(w.talks[c], turn);
      AskedAppend(w.talks[c], turn);
      MarkedGrows(w.items, w.row.agent, w.talks, c, talk);
      MarkedAppend(w.items, Item(id, None, PLAIN), w.row.agent, w.talks[c := talk]);
      PromptsAppend(w.items, Item(id, None, PLAIN));
    }
  }

  /** A rewind needs the records only: it brings both sides together even if they had come apart. */
  lemma RewindHeals(w: World, id: nat, note: nat)
    requires RowOk(w.row, w.talks) && AllMarked(w.items, w.row.agent, w.talks) && Rewindable(w, id)
    ensures Inv(RewindTo(w, id, note))
  {
    var k := Find(w.items, id);
    var m := w.items[k].meta;
    MarkedPrefix(w.items, k, w.row.agent, w.talks);
    MarkedAppend(w.items[..k], Item(note, None, PLAIN), w.row.agent, w.talks);
    PromptsAppend(w.items[..k], Item(note, None, PLAIN));
    if Prompts(w.items[..k]) != [] && !m.opening { UpToTwice(w.talks[m.session], m.anchor); }
  }

  lemma RewindKeeps(w: World, id: nat, note: nat)
    requires Inv(w)
    ensures Inv(RewindTo(w, id, note))
  {
    if Rewindable(w, id) { RewindHeals(w, id, note); }
  }

  lemma StepKeeps(w: World, a: Act)
    requires Inv(w) && Fair(w, a)
    ensures Inv(Step(w, a))
  {
    match a
    case Starts(id) => StartKeeps(w, id);
    case Binds =>
    case Sends(id, text) => SendKeeps(w, id, text);
    case Compacts(id) => NoteKeeps(w, id);
    case Ends(id, anchor) => EndKeeps(w, id, anchor);
    case Closes =>
    case Notes(id) => NoteKeeps(w, id);
    case Switches(agent) =>
    case Rewinds(prompt, id) => RewindKeeps(w, prompt, id);
  }

  ghost predicate FairRun(agent: string, acts: seq<Act>) {
    forall k :: 0 <= k < |acts| ==> Fair(Run(Init(agent), acts[..k]), acts[k])
  }

  lemma {:induction false} RunKeeps(agent: string, acts: seq<Act>)
    requires FairRun(agent, acts)
    ensures Inv(Run(Init(agent), acts))
  {
    if acts != [] {
      var n := |acts| - 1;
      forall k | 0 <= k < n ensures Fair(Run(Init(agent), acts[..n][..k]), acts[..n][k]) {
        assert acts[..n][..k] == acts[..k];
      }
      RunKeeps(agent, acts[..n]);
      StepKeeps(Run(Init(agent), acts[..n]), acts[n]);
    }
  }

  // ---- The theorems ----

  /**
   * After any run, between turns: the next session starts from exactly the prompts of the transcript, each prompt's
   * record cuts out exactly the prompts before it, and every prompt can be rewound to.
   */
  lemma RewindAgreement(agent: string, acts: seq<Act>)
    requires FairRun(agent, acts) && Run(Init(agent), acts).flight == None
    ensures var w := Run(Init(agent), acts);
      && Asked(Next(w.row, w.talks)) == Prompts(w.items)
      && (forall k :: 0 <= k < |w.items| && w.items[k].prompt.Some? ==>
            Marked(w.items[k].meta, Prompts(w.items[..k]), w.talks)
            && CanRewind(w.row, w.items[k], Prompts(w.items[..k]) == []))
  {
    RunKeeps(agent, acts);
  }

  /** A rewind makes both sides forget the prompt and all that followed, and nothing else. */
  lemma RewindForgets(agent: string, acts: seq<Act>, id: nat, note: nat)
    requires FairRun(agent, acts) && Run(Init(agent), acts).flight == None
    requires var items := Run(Init(agent), acts).items; Find(items, id) < |items| && items[Find(items, id)].prompt.Some?
    ensures var w := Run(Init(agent), acts);
            var r := RewindTo(w, id, note);
            var before := w.items[..Find(w.items, id)];
            r.items == before + [Item(note, None, PLAIN)] && Prompts(r.items) == Prompts(before)
              && Asked(Next(r.row, r.talks)) == Prompts(before) && r.talks == w.talks && r.live == None
  {
    RunKeeps(agent, acts);
    Forgets(Run(Init(agent), acts), id, note);
  }

  lemma Forgets(w: World, id: nat, note: nat)
    requires Inv(w) && w.flight == None && Find(w.items, id) < |w.items| && w.items[Find(w.items, id)].prompt.Some?
    ensures var r := RewindTo(w, id, note);
            var before := w.items[..Find(w.items, id)];
            r.items == before + [Item(note, None, PLAIN)] && Prompts(r.items) == Prompts(before)
              && Asked(Next(r.row, r.talks)) == Prompts(before) && r.talks == w.talks && r.live == None
  {
    RewindKeeps(w, id, note);
    PromptsAppend(w.items[..Find(w.items, id)], Item(note, None, PLAIN));
  }

  // ---- The transcript and the session, step by step ----

  /** The transcript after a step: a prompt, a compaction, a turn's end or a note more, or what a rewind leaves. */
  function ItemsIn(w: World, a: Act): seq<Item> {
    var free := w.live.Some? && w.flight == None;
    match a
    case Sends(id, text) =>
      if !free then w.items
      else if w.row.external == "" then w.items + [Item(id, Some(text), Meta("", "", "", true))]
      else w.items + [Item(id, Some(text), Meta(w.row.agent, w.row.external, w.row.anchor, false))]
    case Compacts(id) => if free then w.items + [Item(id, None, PLAIN)] else w.items
    case Ends(id, _) => if w.live.Some? && w.flight.Some? then w.items + [Item(id, None, PLAIN)] else w.items
    case Notes(id) => w.items + [Item(id, None, PLAIN)]
    case Rewinds(prompt, note) =>
      if Rewindable(w, prompt) then w.items[..Find(w.items, prompt)] + [Item(note, None, PLAIN)] else w.items
    case _ => w.items
  }

  /** The session after a step: one is there from a start until it is closed, or the thread rewound or switched. */
  predicate LiveIn(w: World, a: Act, live: Option<string>) {
    match a
    case Starts(id) => live.Some? && (w.live.Some? ==> live == w.live)
    case Closes => live == None
    case Switches(agent) =>
      live == if w.items == [] && w.flight == None && agent != w.row.agent then None else w.live
    case Rewinds(prompt, _) => live == if Rewindable(w, prompt) then None else w.live
    case _ => live == w.live
  }

  /** And the turn it is in: the prompt's, or the compaction's, until it ends or the session goes. */
  predicate FlightIn(w: World, a: Act, flight: Option<Option<string>>) {
    var free := w.live.Some? && w.flight == None;
    match a
    case Sends(_, text) => flight == if free then Some(Some(text)) else w.flight
    case Compacts(_) => flight == if free then Some(None) else w.flight
    case Ends(_, _) => flight == if w.live.Some? then None else w.flight
    case Closes => flight == None
    case _ => flight == w.flight
  }

  lemma WorldNext(w: World, a: Act)
    requires w.live.Some? ==> w.live.value in w.talks
    ensures var v := Step(w, a);
            v.items == ItemsIn(w, a) && LiveIn(w, a, v.live) && FlightIn(w, a, v.flight)
  {
  }

  // ---- Whose conversations ----

  /** The step begins a conversation. */
  predicate Begins(w: World, a: Act) {
    a.Starts? && w.live == None && (w.row.external == "" || w.row.forkAt != "")
  }

  /** Which agent began each conversation. */
  function Owners(agent: string, acts: seq<Act>): map<string, string> {
    if acts == [] then map[]
    else
      var init, a := acts[..|acts| - 1], acts[|acts| - 1];
      var w := Run(Init(agent), init);
      if Begins(w, a) then Owners(agent, init)[a.id := w.row.agent] else Owners(agent, init)
  }

  ghost predicate OwnRecord(item: Item, agent: string, owners: map<string, string>) {
    item.prompt.Some? && item.meta.session != "" ==>
      item.meta.session in owners && owners[item.meta.session] == agent
  }

  /** What the thread resumes, writes to or can go back to is its agent's. */
  ghost predicate Owned(w: World, owners: map<string, string>) {
    && owners.Keys == w.talks.Keys
    && (w.row.external != "" ==> w.row.external in owners && owners[w.row.external] == w.row.agent)
    && (w.live.Some? ==> w.live.value in owners && owners[w.live.value] == w.row.agent)
    && (forall k :: 0 <= k < |w.items| ==> OwnRecord(w.items[k], w.row.agent, owners))
  }

  lemma StartOwned(w: World, id: string, owners: map<string, string>)
    requires Owned(w, owners) && Inv(w) && Fair(w, Starts(id))
    ensures Owned(Start(w, id), if Begins(w, Starts(id)) then owners[id := w.row.agent] else owners)
  {
  }

  lemma CutOwned(items: seq<Item>, k: nat, note: nat, agent: string, owners: map<string, string>)
    requires k <= |items| && forall j :: 0 <= j < |items| ==> OwnRecord(items[j], agent, owners)
    ensures var cut := items[..k] + [Item(note, None, PLAIN)];
            forall j :: 0 <= j < |cut| ==> OwnRecord(cut[j], agent, owners)
  {
  }

  lemma RewindOwned(w: World, id: nat, note: nat, owners: map<string, string>)
    requires Owned(w, owners)
    ensures Owned(RewindTo(w, id, note), owners)
  {
    if Rewindable(w, id) {
      var k := Find(w.items, id);
      assert OwnRecord(w.items[k], w.row.agent, owners);
      CutOwned(w.items, k, note, w.row.agent, owners);
    }
  }

  lemma StepOwned(w: World, a: Act, owners: map<string, string>)
    requires Owned(w, owners) && Inv(w) && Fair(w, a)
    ensures Owned(Step(w, a), if Begins(w, a) then owners[a.id := w.row.agent] else owners)
  {
    match a
    case Starts(id) => StartOwned(w, id, owners);
    case Rewinds(prompt, id) => RewindOwned(w, prompt, id, owners);
    case _ =>
  }

  /** The session that a thread resumes or forks, now or after a rewind, was begun by the agent that takes it up. */
  lemma {:induction false} ResumesOwn(agent: string, acts: seq<Act>)
    requires FairRun(agent, acts)
    ensures Owned(Run(Init(agent), acts), Owners(agent, acts))
  {
    if acts != [] {
      var n := |acts| - 1;
      forall k | 0 <= k < n ensures Fair(Run(Init(agent), acts[..n][..k]), acts[..n][k]) {
        assert acts[..n][..k] == acts[..k];
      }
      RunKeeps(agent, acts[..n]);
      ResumesOwn(agent, acts[..n]);
      StepOwned(Run(Init(agent), acts[..n]), acts[n], Owners(agent, acts[..n]));
    }
  }

  /** A turn that ends without an anchor spoils the next prompt's record exactly if it carried a prompt. */
  lemma AnchorlessTurn(w: World, id: nat)
    requires Inv(w) && w.flight.Some? && w.row.external == w.live.value
    ensures var e := EndTurn(w, id, "");
            Marked(MetaFor(e.row), Prompts(e.items), e.talks) <==> w.flight.value == None
  {
    var c := w.live.value;
    var turn := Turn(w.flight.value, "");
    PromptsAppend(w.items, Item(id, None, PLAIN));
    if w.row.anchor != "" { UpToStays(w.talks[c], [turn], w.row.anchor); }
  }

  /** The send failed, or the session died with the turn: the agent never took it up. */
  function Lose(w: World, gone: bool): World {
    w.(flight := None, live := if gone then None else w.live)
  }

  /**
   * A lost turn costs the agreement, and the next prompt's record, exactly if it carried a prompt; any rewind that is
   * possible then, to the lost prompt or an earlier one, restores both.
   */
  lemma LostTurn(w: World, gone: bool)
    requires Inv(w) && w.flight.Some?
    ensures var l := Lose(w, gone);
      && (Agree(l) <==> w.flight.value == None)
      && (Marked(MetaFor(l.row), Prompts(l.items), l.talks) <==> w.flight.value == None)
      && (forall id, note :: Rewindable(l, id) ==> Inv(RewindTo(l, id, note)))
      && (forall k :: 0 <= k < |l.items| && l.items[k].prompt.Some? ==>
           CanRewind(l.row, l.items[k], Prompts(l.items[..k]) == []))
  {
    var l := Lose(w, gone);
    MarkNow(w.row, w.talks);
    assert |Prompts(w.items)| == |Asked(Next(w.row, w.talks))| + if w.flight.value.Some? then 1 else 0;
    forall id, note | Rewindable(l, id) ensures Inv(RewindTo(l, id, note)) { RewindHeals(l, id, note); }
  }

  // ---- In place ----

  /** The rows and the session of one thread; what the agent keeps is ghost. */
  class Thread {
    var row: Link
    var items: seq<Item>
    var live: Option<string>
    var flight: Option<Option<string>>
    ghost var talks: map<string, Conversation>

    ghost function View(): World
      reads this
    {
      World(row, items, talks, live, flight)
    }

    ghost predicate Valid()
      reads this
    {
      Inv(View())
    }

    /** The records are right, whether or not a turn was lost. */
    ghost predicate Recorded()
      reads this
    {
      RowOk(row, talks) && AllMarked(items, row.agent, talks)
    }

    constructor (agent: string)
      ensures View() == Init(agent) && Valid()
    {
      row, items, live, flight, talks := Link(agent, "", "", ""), [], None, None, map[];
    }

    /** The scan finds the prompt and whether an earlier one stands before it. */
    method Scan(id: nat) returns (k: nat, first: bool)
      ensures k == Find(items, id) && first == (Prompts(items[..k]) == [])
    {
      k, first := 0, true;
      while k < |items| && items[k].id != id
        invariant k <= |items| && forall j :: 0 <= j < k ==> items[j].id != id
        invariant first == (Prompts(items[..k]) == [])
      {
        if items[k].prompt.Some? { first := false; }
        PromptsAppend(items[..k], items[k]);
        assert items[..k + 1] == items[..k] + [items[k]];
        k := k + 1;
      }
    }

    /** The text of the prompt the transcript is cut at, if it can be. */
    method Rewind(id: nat, note: nat) returns (r: Result<string>)
      modifies this`row, this`items, this`live
      ensures View() == RewindTo(old(View()), id, note)
      ensures items == if r.Ok? then old(items)[..Find(old(items), id)] + [Item(note, None, PLAIN)] else old(items)
      ensures if r.Ok? then live == None else unchanged(this)
      ensures old(Recorded()) && r.Ok? ==> Valid()
      ensures if Rewindable(old(View()), id) then r.Ok? && Some(r.value) == old(items[Find(items, id)].prompt)
        else r == Fail
    {
      ghost var was := View();
      if flight.Some? { return Fail; }
      var k, first := Scan(id);
      if k == |items| || !CanRewind(row, items[k], first) { return Fail; }
      var item := items[k];
      live := None;
      row := if first || item.meta.opening then Link(row.agent, "", "", "")
             else Link(row.agent, item.meta.session, item.meta.anchor, item.meta.anchor);
      items := items[..k] + [Item(note, None, PLAIN)];
      r := Ok(item.prompt.value);
      if Rewindable(was, id) && RowOk(was.row, was.talks) && AllMarked(was.items, was.row.agent, was.talks) {
        RewindHeals(was, id, note);
      }
    }

    /** A prompt sent between turns can be rewound to: its record cuts out exactly the prompts before it. */
    method StartPrompt(id: nat, text: string)
      requires Valid() && live.Some? && flight == None
      modifies this`items, this`flight
      ensures Valid() && flight == Some(Some(text)) && |items| == |old(items)| + 1
        && items[..|old(items)|] == old(items)
      ensures var sent := items[|old(items)|];
        && sent.id == id && sent.prompt == Some(text)
        && Marked(sent.meta, Prompts(old(items)), talks) && CanRewind(row, sent, Prompts(old(items)) == [])
    {
      SendKeeps(View(), id, text);
      MarkNow(row, talks);
      var meta := Meta("", "", "", true);
      if row.external != "" { meta := Meta(row.agent, row.external, row.anchor, false); }
      items, flight := items + [Item(id, Some(text), meta)], Some(Some(text));
    }

    /** A newly bound session ends the pending cut, and the conversation the next session starts from is the same. */
    method SessionBound()
      requires Valid() && live.Some?
      modifies this`row
      ensures Valid() && row.external == live.value && row.forkAt == "" && row.anchor == old(row.anchor)
      ensures Next(row, talks) == old(Next(row, talks)) == talks[live.value]
    {
      if row.external != live.value { row := row.(external := live.value, forkAt := ""); }
    }
  }
}
