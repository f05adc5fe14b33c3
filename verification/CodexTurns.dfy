/**
 * How the codex session reports turns: what it makes of the server's notifications, and the queue its events leave by.
 */
module CodexTurns {
  import opened Domain

  /**
   * What reaches the session. On the reader's side: anything that names a turn it belongs to (turn/started, an item, an
   * approval request), a turn's completion, an error, anything else it shows. On the caller's side: the response to
   * turn/start, which names the turn too, and, some time after, the event it owes if it was the first to. And the end.
   */
  datatype Note =
    | Named(turn: string)
    | Completed(turn: string)
    | Error
    | Shown
    | Replied(turn: string)
    | Spoken
    | Over(err: bool)

  /** What it emits. */
  datatype Out = Started(turn: string) | Finished(turn: string) | Notice | Closed(err: bool)

  /**
   * `owed`: the turn the caller has announced and not emitted yet. `emitted` is all that ever entered the queue,
   * `delivered` what left it;
   * `shut`: the events channel is closed.
   */
  datatype State = State(turnID: string, announced: string, owed: Option<string>, ended: bool,
                         queue: seq<Out>, emitted: seq<Out>, delivered: seq<Out>, shut: bool)

  const INIT := State("", "", None, false, [], [], [], false)

  /** emit: nothing enters after the end. */
  function Queued(s: State, o: Out): State {
    if s.ended then s else s.(queue := s.queue + [o], emitted := s.emitted + [o])
  }

  /** finish: the closing event, once. */
  function Ending(s: State, err: bool): State {
    if s.ended then s else Queued(s, Closed(err)).(ended := true)
  }

  /** ensureTurn under the mutex; the first to name a turn is to emit its start. */
  function Noted(s: State, turn: string): State {
    if turn == "" then s else s.(turnID := turn, announced := turn)
  }

  predicate First(s: State, turn: string) {
    turn != "" && turn != s.announced
  }

  /** The reader emits at once. */
  function Ensured(s: State, turn: string): State {
    if First(s, turn) then Queued(Noted(s, turn), Started(turn)) else Noted(s, turn)
  }

  /** The caller, one at a time, emits later: the reader may come between. */
  function Answered(s: State, turn: string): State {
    if s.owed.Some? then s
    else if First(s, turn) then Noted(s, turn).(owed := Some(turn))
    else Noted(s, turn)
  }

  function Said(s: State): State {
    if s.owed.Some? then Queued(s.(owed := None), Started(s.owed.value)) else s
  }

  function TurnDone(s: State, turn: string): State {
    Queued(s.(turnID := ""), Finished(if turn == "" then s.turnID else turn))
  }

  function Errored(s: State): State {
    if s.turnID == "" then Queued(s, Notice) else Queued(s.(turnID := ""), Finished(s.turnID))
  }

  /** One turn of the delivery loop. */
  function Passed(s: State): State {
    if s.queue != [] then s.(queue := s.queue[1..], delivered := s.delivered + [s.queue[0]])
    else if s.ended then s.(shut := true)
    else s
  }

  datatype Act = Notes(note: Note) | Delivers

  function Step(s: State, a: Act): State {
    match a
    case Notes(Named(turn)) => Ensured(s, turn)
    case Notes(Completed(turn)) => TurnDone(s, turn)
    case Notes(Error) => Errored(s)
    case Notes(Shown) => Queued(s, Notice)
    case Notes(Replied(turn)) => Answered(s, turn)
    case Notes(Spoken) => Said(s)
    case Notes(Over(err)) => Ending(s, err)
    case Delivers => Passed(s)
  }

  function Run(acts: seq<Act>): State {
    if acts == [] then INIT else Step(Run(acts[..|acts| - 1]), acts[|acts| - 1])
  }

  // ---- The queue ----

  /** The closing event is the last one, and there exactly once the session has ended. */
  ghost predicate ClosedLast(s: State) {
    && (s.ended <==> s.emitted != [] && s.emitted[|s.emitted| - 1].Closed?)
    && (forall i :: 0 <= i < |s.emitted| - 1 ==> !s.emitted[i].Closed?)
  }

  ghost predicate QueueOk(s: State) {
    s.delivered + s.queue == s.emitted && ClosedLast(s) && (s.shut ==> s.ended && s.queue == [])
  }

  lemma EmitKeeps(s: State, o: Out)
    requires QueueOk(s) && !o.Closed?
    ensures QueueOk(Queued(s, o))
  {
    assert s.delivered + (s.queue + [o]) == (s.delivered + s.queue) + [o];
  }

  lemma FinishKeeps(s: State, err: bool)
    requires QueueOk(s)
    ensures QueueOk(Ending(s, err))
  {
    assert s.delivered + (s.queue + [Closed(err)]) == (s.delivered + s.queue) + [Closed(err)];
  }

  lemma DeliverKeeps(s: State)
    requires QueueOk(s)
    ensures QueueOk(Passed(s))
  {
    if s.queue != [] { assert s.delivered + [s.queue[0]] + s.queue[1..] == s.delivered + s.queue; }
  }

  lemma NamesKeepQueue(s: State, turn: string)
    requires QueueOk(s)
    ensures QueueOk(Ensured(s, turn)) && QueueOk(Answered(s, turn))
  {
    if First(s, turn) { EmitKeeps(Noted(s, turn), Started(turn)); }
  }

  lemma SaidKeepsQueue(s: State)
    requires QueueOk(s)
    ensures QueueOk(Said(s))
  {
    if s.owed.Some? { EmitKeeps(s.(owed := None), Started(s.owed.value)); }
  }

  lemma NoteKeepsQueue(s: State, n: Note)
    requires QueueOk(s) && !n.Over?
    ensures QueueOk(Step(s, Notes(n)))
  {
    match n
    case Named(turn) => NamesKeepQueue(s, turn);
    case Completed(turn) => EmitKeeps(s.(turnID := ""), Finished(if turn == "" then s.turnID else turn));
    case Error => ErrorKeepsQueue(s);
    case Shown => EmitKeeps(s, Notice);
    case Replied(turn) => NamesKeepQueue(s, turn);
    case Spoken => SaidKeepsQueue(s);
  }

  lemma ErrorKeepsQueue(s: State)
    requires QueueOk(s)
    ensures QueueOk(Errored(s))
  {
    if s.turnID == "" { EmitKeeps(s, Notice); } else { EmitKeeps(s.(turnID := ""), Finished(s.turnID)); }
  }

  lemma StepKeepsQueue(s: State, a: Act)
    requires QueueOk(s)
    ensures QueueOk(Step(s, a))
  {
    match a
    case Notes(Over(err)) => FinishKeeps(s, err);
    case Delivers => DeliverKeeps(s);
    case Notes(n) => NoteKeepsQueue(s, n);
  }

  /**
   * Events leave in the order they were emitted, the closing event is the last, and the channel closes right after it.
   */
  lemma {:induction false} ClosesLast(acts: seq<Act>)
    ensures QueueOk(Run(acts))
    ensures var s := Run(acts);
            s.shut ==> s.delivered == s.emitted && s.delivered != [] && s.delivered[|s.delivered| - 1].Closed?
  {
    if acts != [] {
      ClosesLast(acts[..|acts| - 1]);
      StepKeepsQueue(Run(acts[..|acts| - 1]), acts[|acts| - 1]);
    }
    assert Run(acts).delivered + [] == Run(acts).delivered;
  }

  // ---- Turns ----

  /** The turn that was started and has not finished, if events alternate as the contract of a session asks. */
  datatype Scan = Bad | Between | In(turn: string)

  function Next(was: Scan, o: Out): Scan {
    match o
    case Started(turn) => if was == Between then In(turn) else Bad
    case Finished(turn) => if was == In(turn) then Between else Bad
    case _ => was
  }

  function Turns(outs: seq<Out>): Scan {
    if outs == [] then Between else Next(Turns(outs[..|outs| - 1]), outs[|outs| - 1])
  }

  lemma TurnsAppend(outs: seq<Out>, o: Out)
    ensures Turns(outs + [o]) == Next(Turns(outs), o)
  {
    assert (outs + [o])[..|outs|] == outs;
  }

  lemma QueuedTurns(s: State, o: Out)
    requires !s.ended
    ensures Turns(Queued(s, o).emitted) == Next(Turns(s.emitted), o)
  {
    TurnsAppend(s.emitted, o);
  }

  /** What one note adds to the events, as far as turns go. */
  function Adds(s: State, n: Note): Option<Out> {
    match n
    case Named(turn) => if First(s, turn) then Some(Started(turn)) else None
    case Spoken => if s.owed.Some? then Some(Started(s.owed.value)) else None
    case Completed(turn) => Some(Finished(if turn == "" then s.turnID else turn))
    case Error => if s.turnID != "" then Some(Finished(s.turnID)) else None
    case _ => None
  }

  lemma TurnsStep(s: State, n: Note)
    requires !s.ended
    ensures Turns(Step(s, Notes(n)).emitted) ==
            if Adds(s, n).Some? then Next(Turns(s.emitted), Adds(s, n).value) else Turns(s.emitted)
  {
    match n
    case Named(turn) => QueuedTurns(Noted(s, turn), Started(turn));
    case Spoken => if s.owed.Some? { QueuedTurns(s.(owed := None), Started(s.owed.value)); }
    case Completed(turn) => QueuedTurns(s.(turnID := ""), Finished(if turn == "" then s.turnID else turn));
    case Error => if s.turnID == "" { QueuedTurns(s, Notice); }
      else { QueuedTurns(s.(turnID := ""), Finished(s.turnID)); }
    case Shown => QueuedTurns(s, Notice);
    case Replied(_) => assert Step(s, Notes(n)).emitted == s.emitted;
    case Over(err) => QueuedTurns(s, Closed(err));
  }

  lemma BadStays(s: State, n: Note)
    requires Turns(s.emitted) == Bad && !s.ended
    ensures Turns(Step(s, Notes(n)).emitted) == Bad
  {
    TurnsStep(s, n);
  }

  // ---- What the notifications must be like ----

  predicate Names(n: Note) {
    (n.Named? || n.Replied?) && n.turn != ""
  }

  /** The turn named last, if any. */
  function LastNamed(ns: seq<Note>): string {
    if ns == [] then ""
    else if Names(ns[|ns| - 1]) then ns[|ns| - 1].turn
    else LastNamed(ns[..|ns| - 1])
  }

  /** A name other than the one before is new. */
  predicate News(ns: seq<Note>, n: Note) {
    Names(n) && n.turn != LastNamed(ns)
  }

  /** The turn that was new in a response and has not been spoken of since. */
  function Owes(ns: seq<Note>): Option<string> {
    if ns == [] then None
    else
      var init, n := ns[..|ns| - 1], ns[|ns| - 1];
      if n.Replied? && News(init, n) then Some(n.turn)
      else if n.Spoken? then None
      else Owes(init)
  }

  /** A turn is opened by a new name from the reader, or when the caller speaks of one. */
  predicate Opens(ns: seq<Note>, j: nat, turn: string) {
    j < |ns| && if ns[j].Spoken? then Owes(ns[..j]) == Some(turn) else ns[j] == Named(turn) && News(ns[..j], ns[j])
  }

  /** A turn is named and neither a completion nor an error has come since. */
  predicate NamedSince(ns: seq<Note>) {
    ns != [] &&
    match ns[|ns| - 1]
    case Completed(_) => false
    case Error => false
    case n => Names(n) || NamedSince(ns[..|ns| - 1])
  }

  /** A completion is an end, and so is an error if a turn was named. */
  predicate EndsAt(ns: seq<Note>, i: nat)
    requires i < |ns|
  {
    ns[i].Completed? || (ns[i].Error? && NamedSince(ns[..i]))
  }

  predicate NoEndAfter(ns: seq<Note>, j: nat) {
    forall i :: j < i < |ns| ==> !EndsAt(ns, i)
  }

  /** It runs until an end. */
  predicate Running(ns: seq<Note>, turn: string) {
    exists j: nat :: j < |ns| && Opens(ns, j, turn) && NoEndAfter(ns, j)
  }

  ghost predicate SomeRuns(ns: seq<Note>) {
    exists turn :: Running(ns, turn)
  }

  /**
   * A turn is opened only when none runs; a completion is of the turn that runs; and one that names none, or an error
   * after some turn was named, comes when the turn named last is the one that runs. So no error is followed by a
   * completion, no late event by an error, and no end comes before the caller has spoken.
   */
  ghost predicate ProperAt(ns: seq<Note>, k: nat)
    requires k < |ns|
  {
    var before := ns[..k];
    match ns[k]
    case Named(turn) => News(before, ns[k]) ==> !SomeRuns(before)
    case Spoken => Owes(before).Some? ==> !SomeRuns(before)
    case Completed(turn) =>
      if turn != "" then Running(before, turn) else NamedSince(before) && Running(before, LastNamed(before))
    case Error => NamedSince(before) ==> Running(before, LastNamed(before))
    case _ => true
  }

  ghost predicate Proper(ns: seq<Note>) {
    forall k :: 0 <= k < |ns| ==> ProperAt(ns, k)
  }

  /** The notifications of a run, up to its end. */
  function Heard(acts: seq<Act>): seq<Note> {
    if acts == [] then []
    else
      var h := Heard(acts[..|acts| - 1]);
      match acts[|acts| - 1]
      case Notes(n) => if (h != [] && h[|h| - 1].Over?) || (n.Replied? && Owes(h).Some?) then h else h + [n]
      case Delivers => h
  }

  lemma NameAppend(ns: seq<Note>, n: Note)
    ensures LastNamed(ns + [n]) == if Names(n) then n.turn else LastNamed(ns)
    ensures Owes(ns + [n]) == if n.Replied? && News(ns, n) then Some(n.turn) else if n.Spoken? then None else Owes(ns)
  {
    assert (ns + [n])[..|ns|] == ns;
  }

  lemma OpensStay(ns: seq<Note>, n: Note, j: nat, turn: string)
    requires j < |ns|
    ensures Opens(ns + [n], j, turn) <==> Opens(ns, j, turn)
    ensures NoEndAfter(ns + [n], j) <==> NoEndAfter(ns, j) && !EndsAt(ns + [n], |ns|)
  {
    var longer := ns + [n];
    assert longer[..j] == ns[..j];
    forall i | 0 <= i < |ns| ensures EndsAt(longer, i) <==> EndsAt(ns, i) { assert longer[..i] == ns[..i]; }
  }

  lemma RunningAppend(ns: seq<Note>, n: Note, turn: string)
    ensures Running(ns + [n], turn) <==>
      Opens(ns + [n], |ns|, turn) || (!EndsAt(ns + [n], |ns|) && Running(ns, turn))
  {
    var longer := ns + [n];
    if Running(longer, turn) {
      var j: nat :| j < |longer| && Opens(longer, j, turn) && NoEndAfter(longer, j);
      if j < |ns| { OpensStay(ns, n, j, turn); }
    }
    if !EndsAt(longer, |ns|) && Running(ns, turn) {
      var j: nat :| j < |ns| && Opens(ns, j, turn) && NoEndAfter(ns, j);
      OpensStay(ns, n, j, turn);
    }
    if Opens(longer, |ns|, turn) { assert NoEndAfter(longer, |ns|); }
  }

  lemma NamedAppend(ns: seq<Note>, n: Note)
    ensures NamedSince(ns + [n]) <==> !n.Completed? && !n.Error? && (Names(n) || NamedSince(ns))
  {
    assert (ns + [n])[..|ns|] == ns;
  }

  /** The scan of the emitted events and the session's fields say of the notes what their definitions do. */
  ghost predicate Tracks(ns: seq<Note>, s: State) {
    && Turns(s.emitted) != Bad && Turns(s.emitted) != In("")
    && s.announced == LastNamed(ns)
    && s.owed == Owes(ns) && s.owed != Some("")
    && (s.turnID != "" <==> NamedSince(ns)) && (s.turnID != "" ==> s.turnID == LastNamed(ns))
    && (forall u :: Running(ns, u) <==> Turns(s.emitted) == In(u))
  }

  lemma TracksRuns(ns: seq<Note>, s: State)
    requires Tracks(ns, s)
    ensures SomeRuns(ns) <==> Turns(s.emitted).In?
  {
    if Turns(s.emitted).In? { assert Running(ns, Turns(s.emitted).turn); }
  }

  lemma OpensLast(ns: seq<Note>, n: Note, turn: string)
    ensures Opens(ns + [n], |ns|, turn) <==>
      if n.Spoken? then Owes(ns) == Some(turn) else n == Named(turn) && News(ns, n)
  {
    assert (ns + [n])[..|ns|] == ns && (ns + [n])[|ns|] == n;
  }

  /** The turns that run after a note, as far as the note decides it. */
  lemma RunsTracked(ns: seq<Note>, s: State, n: Note)
    requires Tracks(ns, s) && !s.ended && ProperAt(ns + [n], |ns|)
    ensures var t := Step(s, Notes(n));
            Turns(t.emitted) != Bad && forall u :: Running(ns + [n], u) <==> Turns(t.emitted) == In(u)
  {
    assert (ns + [n])[..|ns|] == ns && (ns + [n])[|ns|] == n;
    TurnsStep(s, n);
    TracksRuns(ns, s);
    forall u ensures Running(ns + [n], u) <==> Turns(Step(s, Notes(n)).emitted) == In(u) {
      RunningAppend(ns, n, u);
      OpensLast(ns, n, u);
      assert Running(ns, u) <==> Turns(s.emitted) == In(u);
    }
  }

  lemma FieldsTracked(ns: seq<Note>, s: State, n: Note)
    requires Tracks(ns, s) && !s.ended && !(n.Replied? && s.owed.Some?)
    ensures var t := Step(s, Notes(n));
      && t.announced == LastNamed(ns + [n]) && t.owed == Owes(ns + [n]) && t.owed != Some("")
      && (t.turnID != "" <==> NamedSince(ns + [n])) && (t.turnID != "" ==> t.turnID == LastNamed(ns + [n]))
  {
    NameAppend(ns, n);
    NamedAppend(ns, n);
  }

  /** An improper note spoils the alternation at once. */
  lemma ImproperBreaks(ns: seq<Note>, s: State, n: Note)
    requires Tracks(ns, s) && !s.ended && !ProperAt(ns + [n], |ns|)
    ensures Turns(Step(s, Notes(n)).emitted) == Bad
  {
    assert (ns + [n])[..|ns|] == ns && (ns + [n])[|ns|] == n;
    TurnsStep(s, n);
    TracksRuns(ns, s);
    var named := LastNamed(ns);
    assert Running(ns, named) <==> Turns(s.emitted) == In(named);
    if n.Completed? { assert Running(ns, n.turn) <==> Turns(s.emitted) == In(n.turn); }
  }

  lemma NoteTracked(ns: seq<Note>, s: State, n: Note)
    requires Tracks(ns, s) && !s.ended && !(n.Replied? && s.owed.Some?)
    ensures if ProperAt(ns + [n], |ns|) then Tracks(ns + [n], Step(s, Notes(n)))
            else Turns(Step(s, Notes(n)).emitted) == Bad
  {
    if ProperAt(ns + [n], |ns|) {
      TurnsStep(s, n);
      RunsTracked(ns, s, n);
      FieldsTracked(ns, s, n);
    } else {
      ImproperBreaks(ns, s, n);
    }
  }

  lemma ProperAppend(ns: seq<Note>, n: Note)
    ensures Proper(ns + [n]) <==> Proper(ns) && ProperAt(ns + [n], |ns|)
  {
    var longer := ns + [n];
    forall k | 0 <= k < |ns| ensures ProperAt(longer, k) <==> ProperAt(ns, k) {
      assert longer[..k] == ns[..k] && longer[k] == ns[k];
    }
    assert Proper(longer) ==> ProperAt(longer, |ns|);
    assert Proper(longer) ==> forall k :: 0 <= k < |ns| ==> ProperAt(longer, k);
  }

  ghost predicate Heeds(ns: seq<Note>, s: State) {
    && (s.ended <==> ns != [] && ns[|ns| - 1].Over?)
    && (s.ended || (s.owed == Owes(ns) && s.announced == LastNamed(ns)))
    && (Turns(s.emitted) != Bad <==> Proper(ns))
    && (Proper(ns) && !s.ended ==> Tracks(ns, s))
  }

  lemma NamesNext(ns: seq<Note>, s: State, n: Note)
    requires s.owed == Owes(ns) && s.announced == LastNamed(ns) && !s.ended && !(n.Replied? && s.owed.Some?)
    ensures var t := Step(s, Notes(n)); t.owed == Owes(ns + [n]) && t.announced == LastNamed(ns + [n])
  {
    NameAppend(ns, n);
  }

  lemma NoteHeeded(ns: seq<Note>, s: State, n: Note)
    requires Heeds(ns, s)
    ensures Heeds(if s.ended || (n.Replied? && s.owed.Some?) then ns else ns + [n], Step(s, Notes(n)))
  {
    if !s.ended && !(n.Replied? && s.owed.Some?) {
      ProperAppend(ns, n);
      NamesNext(ns, s, n);
      if Proper(ns) { NoteTracked(ns, s, n); } else { BadStays(s, n); }
    }
  }

  lemma DeliveryHeeded(ns: seq<Note>, s: State)
    requires Heeds(ns, s)
    ensures Heeds(ns, Passed(s))
  {
    var t := Passed(s);
    assert t.emitted == s.emitted && t.turnID == s.turnID && t.announced == s.announced && t.owed == s.owed;
  }

  lemma {:induction false} RunHeeds(acts: seq<Act>)
    ensures Heeds(Heard(acts), Run(acts))
  {
    if acts != [] {
      var init := acts[..|acts| - 1];
      RunHeeds(init);
      match acts[|acts| - 1]
      case Notes(n) => NoteHeeded(Heard(init), Run(init), n);
      case Delivers => DeliveryHeeded(Heard(init), Run(init));
    }
  }

  /**
   * Turns alternate as the contract asks, each finished once and as itself, exactly if the notifications are proper:
   * whatever else the session does, only they matter.
   */
  lemma TurnsAlternateExactly(acts: seq<Act>)
    ensures Turns(Run(acts).emitted) != Bad <==> Proper(Heard(acts))
  {
    RunHeeds(acts);
  }

  // ---- Everything that is emitted, from what was heard ----

  /** What a note has the session emit when `before` was heard. */
  function Tells(before: seq<Note>, n: Note): seq<Out> {
    match n
    case Named(turn) => if News(before, n) then [Started(turn)] else []
    case Replied(_) => []
    case Spoken => if Owes(before).Some? then [Started(Owes(before).value)] else []
    case Completed(turn) =>
      [Finished(if turn != "" then turn else if NamedSince(before) then LastNamed(before) else "")]
    case Error => if NamedSince(before) then [Finished(LastNamed(before))] else [Notice]
    case Shown => [Notice]
    case Over(err) => [Out.Closed(err)]
  }

  function AllTold(ns: seq<Note>): seq<Out> {
    if ns == [] then []
    else
      var init, n := ns[..|ns| - 1], ns[|ns| - 1];
      AllTold(init) + Tells(init, n)
  }

  /** The session's fields, from what was heard. */
  predicate Reflects(ns: seq<Note>, s: State) {
    && s.announced == LastNamed(ns) && s.owed == Owes(ns)
    && (s.turnID != "" <==> NamedSince(ns)) && (s.turnID != "" ==> s.turnID == LastNamed(ns))
  }

  lemma ReflectsNext(ns: seq<Note>, s: State, n: Note)
    requires Reflects(ns, s) && !s.ended && !(n.Replied? && s.owed.Some?)
    ensures Reflects(ns + [n], Step(s, Notes(n))) && Step(s, Notes(n)).emitted == s.emitted + Tells(ns, n)
  {
    NameAppend(ns, n);
    NamedAppend(ns, n);
  }

  lemma NotHeard(ns: seq<Note>, s: State, n: Note)
    requires s.ended || (n.Replied? && s.owed.Some?)
    ensures Step(s, Notes(n)).emitted == s.emitted && Step(s, Notes(n)).ended == s.ended
    ensures !s.ended && Reflects(ns, s) ==> Reflects(ns, Step(s, Notes(n)))
  {
  }

  lemma HeardNext(acts: seq<Act>, n: Note)
    requires acts != [] && acts[|acts| - 1] == Notes(n)
    ensures var init := acts[..|acts| - 1];
            var s := Run(init);
            Heard(acts) == if s.ended || (n.Replied? && s.owed.Some?) then Heard(init) else Heard(init) + [n]
  {
    RunHeeds(acts[..|acts| - 1]);
  }

  /** Whatever comes, and however it interleaves: what the session emits is what it heard tells. */
  lemma {:induction false} EmitsAsHeard(acts: seq<Act>)
    ensures Run(acts).emitted == AllTold(Heard(acts))
    ensures !Run(acts).ended ==> Reflects(Heard(acts), Run(acts))
  {
    if acts != [] {
      var init := acts[..|acts| - 1];
      EmitsAsHeard(init);
      RunHeeds(init);
      match acts[|acts| - 1]
      case Notes(n) =>
        var h := Heard(init);
        HeardNext(acts, n);
        if Run(init).ended || (n.Replied? && Run(init).owed.Some?) {
          NotHeard(h, Run(init), n);
        } else {
          ReflectsNext(h, Run(init), n);
          assert (h + [n])[..|h|] == h;
        }
      case Delivers =>
    }
  }

  /** No end is heard. */
  predicate Goes(acts: seq<Act>) {
    forall a :: a in acts ==> !(a.Notes? && a.note.Over?)
  }

  lemma {:induction false} NotEnded(acts: seq<Act>)
    requires Goes(acts)
    ensures !Run(acts).ended
  {
    if acts != [] {
      var init, last := acts[..|acts| - 1], acts[|acts| - 1];
      assert last in acts && Goes(init);
      NotEnded(init);
    }
  }

  lemma EndStands(s: State, a: Act)
    requires s.ended
    ensures Step(s, a).ended && Step(s, a).emitted == s.emitted
  {
  }

  lemma EndsNow(s: State, err: bool)
    requires !s.ended
    ensures var t := Ending(s, err); t.ended && t.emitted == s.emitted + [Out.Closed(err)]
  {
  }

  lemma RunLast(init: seq<Act>, a: Act)
    ensures Run(init + [a]) == Step(Run(init), a)
  {
    assert (init + [a])[..|init|] == init;
  }

  lemma {:induction false} EmitsTheEnd(before: seq<Act>, err: bool, after: seq<Act>)
    requires Goes(before)
    ensures var s := Run(before + [Notes(Over(err))] + after);
            s.ended && s.emitted == Run(before).emitted + [Out.Closed(err)]
  {
    var upTo := before + [Notes(Over(err))];
    if after == [] {
      assert upTo + after == upTo;
      RunLast(before, Notes(Over(err)));
      NotEnded(before);
      EndsNow(Run(before), err);
    } else {
      var init, last := after[..|after| - 1], after[|after| - 1];
      assert upTo + after == (upTo + init) + [last];
      EmitsTheEnd(before, err, init);
      RunLast(upTo + init, last);
      EndStands(Run(upTo + init), last);
    }
  }

  /**
   * The closing event says what the first end that was heard says, whatever comes after; and it is the last event
   * delivered.
   */
  lemma ClosesAsEnded(before: seq<Act>, err: bool, after: seq<Act>)
    requires Goes(before)
    ensures var s := Run(before + [Notes(Over(err))] + after);
      && s.emitted == Run(before).emitted + [Out.Closed(err)]
      && (s.shut ==> s.delivered == Run(before).emitted + [Out.Closed(err)])
  {
    EmitsTheEnd(before, err, after);
    ClosesLast(before + [Notes(Over(err))] + after);
  }

  function Notices(outs: seq<Out>): nat {
    if outs == [] then 0 else Notices(outs[..|outs| - 1]) + (if outs[|outs| - 1] == Notice then 1 else 0)
  }

  /** How many notes are shown as they are: those that say so, and errors while no turn is named. */
  function ShownAsIs(ns: seq<Note>): nat {
    if ns == [] then 0
    else
      var init, n := ns[..|ns| - 1], ns[|ns| - 1];
      ShownAsIs(init) + (if n.Shown? || (n.Error? && !NamedSince(init)) then 1 else 0)
  }

  lemma {:induction false} NoticesAppend(a: seq<Out>, b: seq<Out>)
    requires |b| <= 1
    ensures Notices(a + b) == Notices(a) + if b == [Notice] then 1 else 0
  {
    if b == [] {
      assert a + b == a;
    } else {
      assert (a + b)[..|a|] == a && b == [b[0]];
    }
  }

  lemma NoticeTold(before: seq<Note>, n: Note)
    ensures |Tells(before, n)| <= 1
    ensures Tells(before, n) == [Notice] <==> n.Shown? || (n.Error? && !NamedSince(before))
  {
    var outs := Tells(before, n);
    if outs != [] { assert outs == [outs[0]] && (outs == [Notice] <==> outs[0] == Notice); }
  }

  lemma {:induction false} NoticesTold(ns: seq<Note>)
    ensures Notices(AllTold(ns)) == ShownAsIs(ns)
  {
    if ns != [] {
      var init, n := ns[..|ns| - 1], ns[|ns| - 1];
      NoticesTold(init);
      NoticeTold(init, n);
      NoticesAppend(AllTold(init), Tells(init, n));
    }
  }

  /** Nothing shown is lost or doubled on its way into the queue. */
  lemma NoticesCounted(acts: seq<Act>)
    ensures Notices(Run(acts).emitted) == ShownAsIs(Heard(acts))
  {
    EmitsAsHeard(acts);
    NoticesTold(Heard(acts));
  }

  /** An error in a turn that the server then completes too is reported as two ends of one turn. */
  lemma ErrorThenCompleted(turn: string)
    requires turn != ""
    ensures Run([Notes(Named(turn)), Notes(Note.Error), Notes(Completed(turn))]).emitted ==
      [Started(turn), Finished(turn), Finished(turn)]
  {
    var acts := [Notes(Named(turn)), Notes(Note.Error), Notes(Completed(turn))];
    assert acts[..2][..1][..0] == [] && acts[..2][..1] == [acts[0]] && acts[..2] == [acts[0], acts[1]];
    assert Run([acts[0]]).emitted == [Started(turn)];
    assert Run([acts[0], acts[1]]).emitted == [Started(turn), Finished(turn)];
  }

  /** The reader sees the turn announced and completed before the caller has said that it started. */
  lemma ResponseOvertaken(turn: string)
    requires turn != ""
    ensures Run([Notes(Replied(turn)), Notes(Named(turn)), Notes(Completed(turn)), Notes(Spoken)]).emitted ==
      [Finished(turn), Started(turn)]
  {
    var a, b, c, d := Notes(Replied(turn)), Notes(Named(turn)), Notes(Completed(turn)), Notes(Spoken);
    assert [a][..0] == [] && [a, b][..1] == [a] && [a, b, c][..2] == [a, b] && [a, b, c, d][..3] == [a, b, c];
    assert Run([a]) == Step(INIT, a) && Run([a, b]) == Step(Run([a]), b);
    assert Run([a, b, c]) == Step(Run([a, b]), c) && Run([a, b, c, d]) == Step(Run([a, b, c]), d);
  }

  // ---- In place ----

  class Session {
    var turnID: string
    var announced: string
    var owed: Option<string>
    var ended: bool
    var queue: seq<Out>
    var shut: bool
    ghost var emitted: seq<Out>
    ghost var delivered: seq<Out>

    ghost function View(): State
      reads this
    {
      State(turnID, announced, owed, ended, queue, emitted, delivered, shut)
    }

    ghost predicate Valid()
      reads this
    {
      QueueOk(View())
    }

    constructor ()
      ensures View() == INIT && Valid()
    {
      turnID, announced, owed, ended, shut := "", "", None, false, false;
      queue, emitted, delivered := [], [], [];
    }

    method Emit(o: Out)
      modifies this`queue, this`emitted
      ensures View() == Queued(old(View()), o)
    {
      if !ended { queue, emitted := queue + [o], emitted + [o]; }
    }

    method Finish(err: bool)
      modifies this`queue, this`emitted, this`ended
      ensures View() == Ending(old(View()), err)
    {
      if !ended {
        queue, emitted := queue + [Closed(err)], emitted + [Closed(err)];
        ended := true;
      }
    }

    /** Under the mutex; `first` says that the caller of this is to emit the start. */
    method Announce(turn: string) returns (first: bool)
      modifies this`turnID, this`announced
      ensures View() == Noted(old(View()), turn) && first == First(old(View()), turn)
    {
      if turn == "" { return false; }
      turnID := turn;
      first := announced != turn;
      announced := turn;
    }

    method EnsureTurn(turn: string)
      modifies this
      ensures View() == Ensured(old(View()), turn)
    {
      var first := Announce(turn);
      if first { Emit(Started(turn)); }
    }

    /** Send has its response: as far as the mutex is held. */
    method Reply(turn: string)
      modifies this
      ensures View() == Answered(old(View()), turn)
    {
      if owed.Some? { return; }
      var first := Announce(turn);
      if first { owed := Some(turn); }
    }

    /** And later. */
    method Speak()
      modifies this
      ensures View() == Said(old(View()))
    {
      if owed.Some? {
        Emit(Started(owed.value));
        owed := None;
      }
    }

    method TurnCompleted(turn: string)
      modifies this
      ensures View() == TurnDone(old(View()), turn)
    {
      var id := turn;
      if id == "" { id := turnID; }
      turnID := "";
      Emit(Finished(id));
    }

    method ThreadError()
      modifies this
      ensures View() == Errored(old(View()))
    {
      var id := turnID;
      turnID := "";
      if id == "" { Emit(Notice); } else { Emit(Finished(id)); }
    }

    /** The delivery loop's next event, if there is one; an ended session with nothing queued closes the channel. */
    method PumpOne() returns (ev: seq<Out>)
      requires Valid()
      modifies this
      ensures View() == Passed(old(View())) && delivered == old(delivered) + ev
      ensures Valid() && (ev != [] && ev[0].Closed? ==> queue == [])
    {
      ghost var was := View();
      ev := [];
      if queue != [] {
        ev := [queue[0]];
        delivered, queue := delivered + ev, queue[1..];
      } else if ended {
        shut := true;
      }
      DeliverKeeps(was);
      assert was.queue != [] ==> (was.delivered + was.queue)[|was.delivered|] == was.queue[0];
    }

    method Apply(a: Act)
      requires Valid()
      modifies this
      ensures View() == Step(old(View()), a)
    {
      match a {
        case Notes(Named(turn)) => EnsureTurn(turn);
        case Notes(Completed(turn)) => TurnCompleted(turn);
        case Notes(Error) => ThreadError();
        case Notes(Shown) => Emit(Notice);
        case Notes(Replied(turn)) => Reply(turn);
        case Notes(Spoken) => Speak();
        case Notes(Over(err)) => Finish(err);
        case Delivers => var _ := PumpOne();
      }
    }

    /** One notification, or one turn of the delivery loop. */
    method Handle(a: Act)
      requires Valid()
      modifies this
      ensures Valid() && View() == Step(old(View()), a)
    {
      StepKeepsQueue(View(), a);
      Apply(a);
    }

    /**
     * A whole life: what left is what was emitted, in order, all of it once the channel is closed; what was emitted is
     * what was heard; and turns alternate exactly if the notifications were proper.
     */
    method Serve(acts: seq<Act>)
      requires View() == INIT
      modifies this
      ensures View() == Run(acts) && delivered + queue == emitted && (shut ==> delivered == emitted)
      ensures Turns(emitted) != Bad <==> Proper(Heard(acts))
      ensures emitted == AllTold(Heard(acts))
    {
      assert Valid() && View() == Run(acts[..0]);
      for i := 0 to |acts|
        invariant Valid() && View() == Run(acts[..i])
      {
        assert acts[..i + 1][..i] == acts[..i];
        Handle(acts[i]);
      }
      assert acts[..|acts|] == acts;
      assert delivered + [] == delivered;
      TurnsAlternateExactly(acts);
      EmitsAsHeard(acts);
    }
  }
}
