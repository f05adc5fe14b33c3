/** A shell's output: a bounded scrollback and one bounded channel per subscriber, together without gap or repeat. */
module Term {
  import opened Domain

  type Byte = x: int | 0 <= x < 256

  type Bytes = seq<Byte>

  /** What the scrollback keeps. */
  const SCROLLBACK := 128 * 1024

  function Last(s: Bytes, n: nat): (r: Bytes)
    ensures |r| == if |s| > n then n else |s|
  {
    if |s| > n then s[|s| - n..] else s
  }

  function Joined(chunks: seq<Bytes>): Bytes {
    if chunks == [] then [] else Joined(chunks[..|chunks| - 1]) + chunks[|chunks| - 1]
  }

  /**
   * A subscriber's channel: what it replayed when `from` bytes had been written, what lies in it, all it ever
   * carried, and how often it was closed.
   */
  datatype Chan = Chan(from: nat, replay: Bytes, box: seq<Bytes>, sent: seq<Bytes>, closes: nat)

  /**
   * `total` is all the shell wrote; `subs` are the channels served, `None` once it exited; `chans` all there ever were.
   */
  datatype State = State(room: nat, total: Bytes, buf: Bytes, subs: Option<set<nat>>, chans: map<nat, Chan>)

  function Init(room: nat): State {
    State(room, [], [], Some({}), map[])
  }

  function CloseChan(c: Chan): Chan {
    c.(closes := c.closes + 1)
  }

  /** One chunk to one channel: a full one is closed. */
  function Fed(c: Chan, chunk: Bytes, room: nat): Chan {
    if |c.box| < room then c.(box := c.box + [chunk], sent := c.sent + [chunk]) else CloseChan(c)
  }

  function FedAll(chans: map<nat, Chan>, subs: set<nat>, chunk: Bytes, room: nat): map<nat, Chan> {
    map id | id in chans :: if id in subs then Fed(chans[id], chunk, room) else chans[id]
  }

  /** The subscribers that keep up. */
  function Roomy(chans: map<nat, Chan>, subs: set<nat>, room: nat): set<nat> {
    set id | id in subs && id in chans && |chans[id].box| < room
  }

  function ClosedAll(chans: map<nat, Chan>, subs: set<nat>): map<nat, Chan> {
    map id | id in chans :: if id in subs then CloseChan(chans[id]) else chans[id]
  }

  /** One turn of the read loop. */
  function Read(s: State, chunk: Bytes): State {
    if s.subs == None || chunk == [] then s
    else s.(total := s.total + chunk, buf := Last(s.buf + chunk, SCROLLBACK),
            subs := Some(Roomy(s.chans, s.subs.value, s.room)),
            chans := FedAll(s.chans, s.subs.value, chunk, s.room))
  }

  function Exit(s: State): State {
    if s.subs == None then s else s.(subs := None, chans := ClosedAll(s.chans, s.subs.value))
  }

  function Subscribe(s: State, id: nat): State {
    if id in s.chans then s
    else if s.subs == None then s.(chans := s.chans[id := Chan(|s.total|, s.buf, [], [], 1)])
    else s.(subs := Some(s.subs.value + {id}), chans := s.chans[id := Chan(|s.total|, s.buf, [], [], 0)])
  }

  /** The cancel function a subscriber got; it may come late, or twice. */
  function Cancel(s: State, id: nat): State {
    if s.subs == None || id !in s.subs.value || id !in s.chans then s
    else s.(subs := Some(s.subs.value - {id}), chans := s.chans[id := CloseChan(s.chans[id])])
  }

  function Take(s: State, id: nat): State {
    if id !in s.chans || s.chans[id].box == [] then s
    else s.(chans := s.chans[id := s.chans[id].(box := s.chans[id].box[1..])])
  }

  datatype Act = Reads(chunk: Bytes) | Exits | Subscribes(id: nat) | Cancels(id: nat) | Takes(id: nat)

  function Step(s: State, a: Act): State {
    match a
    case Reads(chunk) => Read(s, chunk)
    case Exits => Exit(s)
    case Subscribes(id) => Subscribe(s, id)
    case Cancels(id) => Cancel(s, id)
    case Takes(id) => Take(s, id)
  }

  function Run(room: nat, acts: seq<Act>): State {
    if acts == [] then Init(room) else Step(Run(room, acts[..|acts| - 1]), acts[|acts| - 1])
  }

  // ---- The invariant ----

  predicate Served(s: State, id: nat) {
    s.subs.Some? && id in s.subs.value
  }

  /** A channel carries a stretch of the output from where its replay ends, all of it while it is served. */
  ghost predicate ChanOk(c: Chan, total: Bytes, room: nat, served: bool) {
    && c.from <= |total| && c.replay == Last(total[..c.from], SCROLLBACK)
    && c.from + |Joined(c.sent)| <= |total| && Joined(c.sent) == total[c.from..c.from + |Joined(c.sent)|]
    && |c.box| <= |c.sent| && c.box == c.sent[|c.sent| - |c.box|..] && |c.box| <= room
    && c.closes == (if served then 0 else 1)
    && (served ==> c.from + |Joined(c.sent)| == |total|)
  }

  ghost predicate Inv(s: State) {
    && s.buf == Last(s.total, SCROLLBACK)
    && (s.subs.Some? ==> forall id :: id in s.subs.value ==> id in s.chans)
    && (forall id :: id in s.chans ==> ChanOk(s.chans[id], s.total, s.room, Served(s, id)))
  }

  /** Trimming as one goes keeps the last bytes. */
  lemma LastOfLast(s: Bytes, more: Bytes, n: nat)
    ensures Last(Last(s, n) + more, n) == Last(s + more, n)
  {
  }

  lemma JoinedMore(chunks: seq<Bytes>, chunk: Bytes)
    ensures Joined(chunks + [chunk]) == Joined(chunks) + chunk
  {
    assert (chunks + [chunk])[..|chunks|] == chunks;
  }

  lemma FedOk(c: Chan, total: Bytes, chunk: Bytes, room: nat)
    requires ChanOk(c, total, room, true)
    ensures ChanOk(Fed(c, chunk, room), total + chunk, room, |c.box| < room)
  {
    Unmoved(total, chunk, c);
    if |c.box| < room { SentOk(c, total, chunk, room); }
  }

  lemma SentOk(c: Chan, total: Bytes, chunk: Bytes, room: nat)
    requires ChanOk(c, total, room, true) && |c.box| < room
    ensures ChanOk(c.(box := c.box + [chunk], sent := c.sent + [chunk]), total + chunk, room, true)
  {
    var sent := c.sent + [chunk];
    JoinedMore(c.sent, chunk);
    Unmoved(total, chunk, c);
    Reaches(total, chunk, c.from, Joined(c.sent));
    assert c.box + [chunk] == sent[|sent| - |c.box| - 1..];
  }

  lemma Reaches(total: Bytes, chunk: Bytes, from: nat, carried: Bytes)
    requires from <= |total| && carried == total[from..]
    ensures carried + chunk == (total + chunk)[from..from + |carried + chunk|]
  {
  }

  lemma Unmoved(total: Bytes, chunk: Bytes, c: Chan)
    requires c.from + |Joined(c.sent)| <= |total|
    ensures (total + chunk)[..c.from] == total[..c.from]
    ensures (total + chunk)[c.from..c.from + |Joined(c.sent)|] == total[c.from..c.from + |Joined(c.sent)|]
  {
  }

  lemma ReadChan(s: State, chunk: Bytes, id: nat)
    requires s.subs.Some? && chunk != [] && id in s.chans && ChanOk(s.chans[id], s.total, s.room, Served(s, id))
    ensures var t := Read(s, chunk); ChanOk(t.chans[id], t.total, t.room, Served(t, id))
  {
    if Served(s, id) { FedOk(s.chans[id], s.total, chunk, s.room); } else { Unmoved(s.total, chunk, s.chans[id]); }
  }

  lemma ReadKeeps(s: State, chunk: Bytes)
    requires Inv(s) && s.subs.Some? && chunk != []
    ensures Inv(Read(s, chunk))
  {
    LastOfLast(s.total, chunk, SCROLLBACK);
    forall id | id in s.chans
      ensures var t := Read(s, chunk); ChanOk(t.chans[id], t.total, t.room, Served(t, id))
    {
      ReadChan(s, chunk, id);
    }
  }

  lemma NewChan(total: Bytes, room: nat, served: bool)
    ensures ChanOk(Chan(|total|, Last(total, SCROLLBACK), [], [], if served then 0 else 1), total, room, served)
  {
    assert total[..|total|] == total && total[|total|..|total|] == [];
  }

  lemma SubscribedChan(s: State, id: nat, other: nat)
    requires id !in s.chans && s.buf == Last(s.total, SCROLLBACK)
    requires other in s.chans ==> ChanOk(s.chans[other], s.total, s.room, Served(s, other))
    requires other in s.chans || other == id
    ensures var t := Subscribe(s, id); ChanOk(t.chans[other], t.total, t.room, Served(t, other))
  {
    if other == id { NewChan(s.total, s.room, s.subs.Some?); }
  }

  lemma SubscribeKeeps(s: State, id: nat)
    requires Inv(s)
    ensures Inv(Subscribe(s, id))
  {
    if id !in s.chans {
      forall other | other in s.chans || other == id
        ensures var t := Subscribe(s, id); ChanOk(t.chans[other], t.total, t.room, Served(t, other))
      {
        SubscribedChan(s, id, other);
      }
    }
  }

  lemma ClosedOk(c: Chan, total: Bytes, room: nat)
    requires ChanOk(c, total, room, true)
    ensures ChanOk(CloseChan(c), total, room, false)
  {
  }

  lemma ExitKeeps(s: State)
    requires Inv(s)
    ensures Inv(Exit(s))
  {
    if s.subs.Some? {
      forall id | id in s.chans ensures ChanOk(Exit(s).chans[id], s.total, s.room, false) {
        if id in s.subs.value { ClosedOk(s.chans[id], s.total, s.room); }
      }
    }
  }

  lemma CancelKeeps(s: State, id: nat)
    requires Inv(s)
    ensures Inv(Cancel(s, id))
  {
    if Served(s, id) { ClosedOk(s.chans[id], s.total, s.room); }
  }

  lemma TakenOk(c: Chan, total: Bytes, room: nat, served: bool)
    requires ChanOk(c, total, room, served) && c.box != []
    ensures ChanOk(c.(box := c.box[1..]), total, room, served)
  {
  }

  lemma TakeKeeps(s: State, id: nat)
    requires Inv(s)
    ensures Inv(Take(s, id))
  {
    if id in s.chans && s.chans[id].box != [] { TakenOk(s.chans[id], s.total, s.room, Served(s, id)); }
  }

  lemma StepKeeps(s: State, a: Act)
    requires Inv(s)
    ensures Inv(Step(s, a))
  {
    match a
    case Reads(chunk) => if s.subs.Some? && chunk != [] { ReadKeeps(s, chunk); }
    case Subscribes(id) => SubscribeKeeps(s, id);
    case Exits => ExitKeeps(s);
    case Cancels(id) => CancelKeeps(s, id);
    case Takes(id) => TakeKeeps(s, id);
  }

  lemma {:induction false} RunKeeps(room: nat, acts: seq<Act>)
    ensures Inv(Run(room, acts)) && Run(room, acts).room == room
  {
    if acts != [] {
      RunKeeps(room, acts[..|acts| - 1]);
      StepKeeps(Run(room, acts[..|acts| - 1]), acts[|acts| - 1]);
    }
  }

  // ---- The theorems ----

  lemma {:induction false} JoinedPrefix(chunks: seq<Bytes>, k: nat)
    requires k <= |chunks|
    ensures Joined(chunks[..k]) <= Joined(chunks)
  {
    if k == |chunks| {
      assert chunks[..k] == chunks;
    } else {
      JoinedPrefix(chunks[..|chunks| - 1], k);
      assert chunks[..|chunks| - 1][..k] == chunks[..k];
    }
  }

  /** What a subscriber has read: the replay and the chunks it took from its channel. */
  function Received(c: Chan): Bytes
    requires |c.box| <= |c.sent|
  {
    c.replay + Joined(c.sent[..|c.sent| - |c.box|])
  }

  /**
   * In every run each subscriber has received one unbroken piece of the shell's output, with no byte lost or repeated,
   * which starts at most a scrollback before it subscribed and so at the beginning of a short output; the scrollback is
   * the output's last bytes; and each channel is closed once at most, and exactly when it is no longer served.
   */
  lemma TerminalReplay(room: nat, acts: seq<Act>, id: nat)
    requires id in Run(room, acts).chans
    ensures var s := Run(room, acts);
            var c := s.chans[id];
      && s.buf == Last(s.total, SCROLLBACK)
      && |c.box| <= |c.sent| && c.from <= |s.total|
      && |c.replay| == (if c.from > SCROLLBACK then SCROLLBACK else c.from)
      && (var start := c.from - |c.replay|;
          start + |Received(c)| <= |s.total| && Received(c) == s.total[start..start + |Received(c)|])
      && c.closes == (if Served(s, id) then 0 else 1)
      && (Served(s, id) && c.box == [] ==> c.from - |c.replay| + |Received(c)| == |s.total|)
  {
    RunKeeps(room, acts);
    var s := Run(room, acts);
    Pieced(s.chans[id], s.total, room, Served(s, id));
  }

  /** Stretches that meet make one stretch. */
  lemma Meets(total: Bytes, start: nat, middle: nat, end: nat)
    requires start <= middle <= end <= |total|
    ensures total[start..middle] + total[middle..end] == total[start..end]
  {
  }

  lemma TakenStretch(total: Bytes, from: nat, taken: Bytes, all: Bytes)
    requires from + |all| <= |total| && all == total[from..from + |all|] && taken <= all
    ensures taken == total[from..from + |taken|]
  {
    assert taken == all[..|taken|];
  }

  lemma Replayed(total: Bytes, from: nat)
    requires from <= |total|
    ensures var replay := Last(total[..from], SCROLLBACK);
            |replay| <= from && replay == total[from - |replay|..from]
  {
  }

  lemma Pieced(c: Chan, total: Bytes, room: nat, served: bool)
    requires ChanOk(c, total, room, served)
    ensures var start := c.from - |c.replay|;
            start >= 0 && start + |Received(c)| <= |total| && Received(c) == total[start..start + |Received(c)|]
    ensures served && c.box == [] ==> c.from - |c.replay| + |Received(c)| == |total|
  {
    var k := |c.sent| - |c.box|;
    var taken := Joined(c.sent[..k]);
    Replayed(total, c.from);
    JoinedPrefix(c.sent, k);
    TakenStretch(total, c.from, taken, Joined(c.sent));
    Meets(total, c.from - |c.replay|, c.from, c.from + |taken|);
    assert c.box == [] ==> c.sent[..k] == c.sent;
  }

  // ---- Who is served ----

  predicate Exited(acts: seq<Act>) {
    acts != [] && (acts[|acts| - 1] == Exits || Exited(acts[..|acts| - 1]))
  }

  /** What the shell wrote until it exited. */
  function Output(acts: seq<Act>): Bytes {
    if acts == [] then []
    else
      var init, a := acts[..|acts| - 1], acts[|acts| - 1];
      if a.Reads? && !Exited(init) then Output(init) + a.chunk else Output(init)
  }

  /** A subscriber: whether it is served, what had been written when it came, how many chunks wait for it. */
  datatype Standing = Standing(served: bool, from: nat, waiting: nat)

  /**
   * It is served from its subscription, if the shell runs, until the shell exits, it cancels, or a chunk comes when
   * `room` chunks wait; each chunk until then waits for it.
   */
  function StandingOf(room: nat, acts: seq<Act>, id: nat): Option<Standing> {
    if acts == [] then None
    else
      var init, a := acts[..|acts| - 1], acts[|acts| - 1];
      var was := StandingOf(room, init, id);
      if was == None then
        if a == Subscribes(id) then Some(Standing(!Exited(init), |Output(init)|, 0)) else None
      else
        var w := was.value;
        match a
        case Reads(chunk) =>
          if !w.served || chunk == [] then was
          else if w.waiting < room then Some(w.(waiting := w.waiting + 1)) else Some(w.(served := false))
        case Exits => Some(w.(served := false))
        case Cancels(other) => if other == id then Some(w.(served := false)) else was
        case Takes(other) => if other == id && w.waiting > 0 then Some(w.(waiting := w.waiting - 1)) else was
        case Subscribes(_) => was
  }

  function StandingAt(s: State, id: nat): Option<Standing> {
    if id in s.chans then Some(Standing(Served(s, id), s.chans[id].from, |s.chans[id].box|)) else None
  }

  lemma StandingNext(s: State, a: Act, id: nat)
    requires Inv(s)
    ensures var t, was := Step(s, a), StandingAt(s, id);
      StandingAt(t, id) ==
        if was == None then
          if a == Subscribes(id) then Some(Standing(s.subs.Some?, |s.total|, 0)) else None
        else
          var w := was.value;
          match a
          case Reads(chunk) =>
            if !w.served || chunk == [] then was
            else if w.waiting < s.room then Some(w.(waiting := w.waiting + 1)) else Some(w.(served := false))
          case Exits => Some(w.(served := false))
          case Cancels(other) => if other == id then Some(w.(served := false)) else was
          case Takes(other) => if other == id && w.waiting > 0 then Some(w.(waiting := w.waiting - 1)) else was
          case Subscribes(_) => was
  {
  }

  lemma OutputNext(s: State, a: Act)
    ensures var t := Step(s, a);
      && (t.subs == None <==> s.subs == None || a == Exits)
      && t.total == (if a.Reads? && s.subs.Some? then s.total + a.chunk else s.total)
  {
  }

  /**
   * Over any run: all the shell wrote until it exited was taken up, and each subscriber has been served exactly as
   * long as it kept up, with as many chunks waiting for it as came then and were not taken.
   */
  lemma {:induction false} ServedExactly(room: nat, acts: seq<Act>, id: nat)
    ensures var s := Run(room, acts);
      && s.total == Output(acts) && (s.subs == None <==> Exited(acts))
      && StandingAt(s, id) == StandingOf(room, acts, id)
  {
    if acts != [] {
      var n := |acts| - 1;
      ServedExactly(room, acts[..n], id);
      RunKeeps(room, acts[..n]);
      OutputNext(Run(room, acts[..n]), acts[n]);
      StandingNext(Run(room, acts[..n]), acts[n], id);
    }
  }

  // ---- In place ----

  /** One channel more. */
  lemma FedOne(chans: map<nat, Chan>, all: set<nat>, left: set<nat>, id: nat, chunk: Bytes, room: nat)
    requires left <= all <= chans.Keys && id in left
    ensures FedAll(chans, all - left, chunk, room)[id] == chans[id]
    ensures FedAll(chans, all - (left - {id}), chunk, room) ==
      FedAll(chans, all - left, chunk, room)[id := Fed(chans[id], chunk, room)]
    ensures Roomy(chans, all - (left - {id}), room) ==
            Roomy(chans, all - left, room) + if |chans[id].box| < room then {id} else {}
  {
    assert all - (left - {id}) == (all - left) + {id};
  }

  lemma ClosedOne(chans: map<nat, Chan>, all: set<nat>, left: set<nat>, id: nat)
    requires left <= all <= chans.Keys && id in left
    ensures ClosedAll(chans, all - left)[id] == chans[id]
    ensures ClosedAll(chans, all - (left - {id})) == ClosedAll(chans, all - left)[id := CloseChan(chans[id])]
  {
    assert all - (left - {id}) == (all - left) + {id};
  }

  /** One shell; a channel is its entry in `chans`. */
  class Session {
    const room: nat
    var buf: Bytes
    var subs: Option<set<nat>>
    var chans: map<nat, Chan>
    ghost var total: Bytes

    ghost function View(): State
      reads this
    {
      State(room, total, buf, subs, chans)
    }

    constructor (room: nat)
      ensures View() == Init(room)
    {
      this.room, buf, subs, chans, total := room, [], Some({}), map[], [];
    }

    /** Every channel served, in any order: one that cannot take the chunk is closed, the others are kept. */
    method Feed(chunk: Bytes) returns (kept: set<nat>)
      requires subs.Some? && subs.value <= chans.Keys
      modifies this`chans
      ensures chans == FedAll(old(chans), subs.value, chunk, room) && kept == Roomy(old(chans), subs.value, room)
    {
      var all, left := subs.value, subs.value;
      kept := {};
      assert chans == FedAll(chans, all - left, chunk, room) && kept == Roomy(chans, all - left, room);
      while left != {}
        invariant left <= all <= old(chans).Keys
        invariant chans == FedAll(old(chans), all - left, chunk, room) && kept == Roomy(old(chans), all - left, room)
        decreases left
      {
        var id :| id in left;
        FedOne(old(chans), all, left, id, chunk, room);
        if |chans[id].box| < room { kept := kept + {id}; }
        chans := chans[id := Fed(chans[id], chunk, room)];
        left := left - {id};
      }
      assert all - {} == all;
    }

    /** A chunk goes to the scrollback and to every channel; one that cannot take it is dropped and closed. */
    method ReadChunk(chunk: Bytes)
      requires Inv(View()) && subs.Some? && chunk != []
      modifies this
      ensures View() == Read(old(View()), chunk) && Inv(View())
    {
      ReadKeeps(View(), chunk);
      total := total + chunk;
      buf := buf + chunk;
      if |buf| > SCROLLBACK { buf := buf[|buf| - SCROLLBACK..]; }
      var kept := Feed(chunk);
      subs := Some(kept);
    }

    method CloseEach()
      requires subs.Some? && subs.value <= chans.Keys
      modifies this`chans
      ensures chans == ClosedAll(old(chans), subs.value)
    {
      var all, left := subs.value, subs.value;
      assert chans == ClosedAll(chans, all - left);
      while left != {}
        invariant left <= all <= old(chans).Keys && chans == ClosedAll(old(chans), all - left)
        decreases left
      {
        var id :| id in left;
        ClosedOne(old(chans), all, left, id);
        chans := chans[id := CloseChan(chans[id])];
        left := left - {id};
      }
      assert all - {} == all;
    }

    /** The end of the read loop. */
    method End()
      requires Inv(View()) && subs.Some?
      modifies this
      ensures View() == Exit(old(View())) && Inv(View())
    {
      ExitKeeps(View());
      CloseEach();
      subs := None;
    }
  }
}
