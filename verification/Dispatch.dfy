/**
 * Which prompts go out, what the prompt lock is held for, which session is registered and which is in a turn: what
 * every step makes of them, and what a run has made of them.
 */
module Dispatch {
  import opened Domain
  import opened Protocol
  import opened ProtocolSafety
  import opened Outcomes
  import PromptQueue

  /** The thread is in no turn. */
  predicate Idling(s: State) {
    s.thread.status == Idle || s.thread.status == Error
  }

  // ---- The prompt lock ----

  function TaskAt(s: State): Option<Task> {
    match s.starting
    case None => None
    case Some(starting) => Some(starting.task)
  }

  /** What the lock is held for after a step, if it is. */
  function TaskIn(s: State, a: Act): Option<Task> {
    if a.Restarted? then None
    else if Locked(s) then
      if (a.Entered? && Entering(s) && !Begins(s, a)) || (a.Called? && Calling(s)) then None else TaskAt(s)
    else
      match a
      case Prompted(text) => if Idling(s) then Some(Ask(text)) else None
      case Compact(able) => if Idling(s) then Some(Fold(able)) else None
      case Resumed => if s.resuming then Some(Again) else None
      case Ended(id) => if CanEnd(s, id) && s.prompts.queue != [] then Some(Next(id)) else None
      case _ => None
  }

  /** A prompt or a compaction takes an idle thread's lock, and a turn's end that of one whose queue is not empty. */
  lemma TaskNext(s: State, a: Act)
    requires SessionThere(s)
    ensures TaskAt(Step(s, a)) == TaskIn(s, a)
  {
    match a
    case Entered(startOk) => if Entering(s) { EntryTask(s, startOk); }
    case Called(sendOk) => if Calling(s) { CallTask(s, sendOk); }
    case Ended(id) => if CanEnd(s, id) { EndTask(s, id); }
    case Restarted(resume, startOk, sendOk) => RestartTask(s, resume, startOk, sendOk);
    case _ => CommandTask(s, a);
  }

  lemma CommandTask(s: State, a: Act)
    requires !a.Entered? && !a.Called? && !a.Ended? && !a.Restarted?
    ensures TaskAt(Step(s, a)) == TaskIn(s, a)
  {
  }

  lemma CallTask(s: State, sendOk: bool)
    requires Calling(s)
    ensures Deliver(s, sendOk).starting == None
  {
  }

  lemma RestartTask(s: State, resume: bool, startOk: bool, sendOk: bool)
    ensures Recover(s, resume, startOk, sendOk).starting == None
  {
  }

  lemma EntryTask(s: State, startOk: bool)
    requires Entering(s) && SessionThere(s)
    ensures TaskAt(Enter(s, startOk)) == if Begins(s, Act.Entered(startOk)) then TaskAt(s) else None
  {
    ChosenIs(s, startOk);
  }

  lemma EndTask(s: State, id: nat)
    requires CanEnd(s, id)
    ensures TaskAt(EndTurn(s, id)) == if s.prompts.queue != [] then Some(Next(id)) else None
  {
  }

  /** The prompt of step `k` took the lock, and it has been held since. */
  ghost predicate AskedSince(settings: Settings, acts: seq<Act>, text: string, k: nat) {
    && k < |acts| && acts[k] == Prompted(text)
    && Idling(Run(Init(settings), acts[..k])) && !Locked(Run(Init(settings), acts[..k]))
    && forall j :: k < j <= |acts| ==> Locked(Run(Init(settings), acts[..j]))
  }

  /** What is about to be sent as a new prompt is what the command asked for that took the lock. */
  lemma {:induction false} AskIsAsked(settings: Settings, acts: seq<Act>, text: string) returns (k: nat)
    requires TaskAt(Run(Init(settings), acts)) == Some(Ask(text))
    ensures AskedSince(settings, acts, text, k)
  {
    var n := |acts| - 1;
    var s := Run(Init(settings), acts[..n]);
    RunThere(settings, acts[..n]);
    TaskNext(s, acts[n]);
    assert acts[..|acts|] == acts;
    if Locked(s) {
      k := AskIsAsked(settings, acts[..n], text);
      forall j | k < j <= n ensures Locked(Run(Init(settings), acts[..j])) { assert acts[..n][..j] == acts[..j]; }
      assert acts[..n][..k] == acts[..k];
    } else {
      k := n;
    }
  }

  // ---- The queue ----

  /** The oldest prompt goes out, the new one among them, when the turn that is written down is for a prompt. */
  function GoneOut(p: Prompts, task: Task): Prompts
    requires task.Next? ==> p.queue != []
  {
    match task
    case Ask(text) =>
      var added := Prompt(|p.accepted|, text);
      var line := p.queue + [added];
      Prompts(line[1..], p.accepted + [added], p.dispatched + [line[0]], p.cancelled)
    case Next(_) => Prompts(p.queue[1..], p.accepted, p.dispatched + [p.queue[0]], p.cancelled)
    case _ => p
  }

  /** The prompts after a step: one more waits, one is withdrawn, or the oldest there is goes out. */
  function PromptsIn(s: State, a: Act): Prompts {
    var p := s.prompts;
    match a
    case Prompted(text) =>
      var added := Prompt(|p.accepted|, text);
      if Locked(s) || Idling(s) then p
      else Prompts(p.queue + [added], p.accepted + [added], p.dispatched, p.cancelled)
    case Cancel(id) =>
      if Locked(s) || !Waits(p, id) then p
      else Prompts(Remaining(p.queue, {id}), p.accepted, p.dispatched, p.cancelled + {id})
    case Entered(_) =>
      if !Begins(s, a) then p
      else GoneOut(p, s.starting.value.task)
    case Restarted(_, _, _) =>
      if StartsQueued(s, a) then Prompts(p.queue[1..], p.accepted, p.dispatched + [p.queue[0]], p.cancelled) else p
    case _ => p
  }

  lemma PromptsNext(s: State, a: Act)
    requires SessionThere(s)
    ensures Step(s, a).prompts == PromptsIn(s, a)
  {
    match a
    case Entered(startOk) => if Entering(s) { EntryPrompts(s, startOk); }
    case Restarted(resume, startOk, sendOk) => RestartPrompts(s, resume, startOk, sendOk);
    case Ended(id) => if CanEnd(s, id) { EndPrompts(s, id); }
    case Called(sendOk) => if Calling(s) { CallPrompts(s, sendOk); }
    case Prompted(text) => PromptPrompts(s, text);
    case Cancel(_) =>
    case _ => PromptQueue.OthersLeave(s, a);
  }

  lemma PromptPrompts(s: State, text: string)
    ensures Step(s, Prompted(text)).prompts == PromptsIn(s, Prompted(text))
  {
  }

  lemma EntryPrompts(s: State, startOk: bool)
    requires Entering(s) && SessionThere(s)
    ensures Enter(s, startOk).prompts == PromptsIn(s, Act.Entered(startOk))
  {
    ChosenIs(s, startOk);
    var p, task := s.prompts, s.starting.value.task;
    if task.Ask? && p.queue == [] {
      var added := Prompt(|p.accepted|, task.text);
      assert p.queue + [added] == [added];
    }
  }

  lemma RestartPrompts(s: State, resume: bool, startOk: bool, sendOk: bool)
    ensures Recover(s, resume, startOk, sendOk).prompts == PromptsIn(s, Restarted(resume, startOk, sendOk))
  {
    DownRow(s, resume, startOk, sendOk);
  }

  lemma EndPrompts(s: State, id: nat)
    requires CanEnd(s, id)
    ensures EndTurn(s, id).prompts == s.prompts
  {
  }

  lemma CallPrompts(s: State, sendOk: bool)
    requires Calling(s)
    ensures Deliver(s, sendOk).prompts == s.prompts
  {
  }

  function Texts(prompts: seq<Prompt>): seq<string> {
    if prompts == [] then [] else Texts(prompts[..|prompts| - 1]) + [prompts[|prompts| - 1].text]
  }

  lemma TextsMore(prompts: seq<Prompt>, p: Prompt)
    ensures Texts(prompts + [p]) == Texts(prompts) + [p.text]
  {
    assert (prompts + [p])[..|prompts|] == prompts;
  }

  /** What a step has accepted: a prompt that comes to wait, or one that its turn is written down for. */
  function AcceptedIn(s: State, a: Act): seq<string> {
    if a.Prompted? && !Locked(s) && !Idling(s) then [a.text]
    else if Begins(s, a) && s.starting.value.task.Ask? then [s.starting.value.task.text]
    else []
  }

  function AcceptedOver(settings: Settings, acts: seq<Act>): seq<string> {
    if acts == [] then []
    else
      var init := acts[..|acts| - 1];
      AcceptedOver(settings, init) + AcceptedIn(Run(Init(settings), init), acts[|acts| - 1])
  }

  /** How often a prompt went out: a turn was written down for one, or a restart started one. */
  function OutOver(settings: Settings, acts: seq<Act>): nat {
    if acts == [] then 0
    else
      var init, a := acts[..|acts| - 1], acts[|acts| - 1];
      var s := Run(Init(settings), init);
      OutOver(settings, init)
      + One((Begins(s, a) && (s.starting.value.task.Ask? || s.starting.value.task.Next?)) || StartsQueued(s, a))
  }

  lemma LineNext(s: State, a: Act)
    requires SessionThere(s)
    ensures var p, q := s.prompts, Step(s, a).prompts;
      && Texts(q.accepted) == Texts(p.accepted) + AcceptedIn(s, a)
      && |q.dispatched| == |p.dispatched|
           + One((Begins(s, a) && (s.starting.value.task.Ask? || s.starting.value.task.Next?)) || StartsQueued(s, a))
  {
    PromptsNext(s, a);
    var p := s.prompts;
    if a.Prompted? { TextsMore(p.accepted, Prompt(|p.accepted|, a.text)); }
    if Begins(s, a) && s.starting.value.task.Ask? {
      TextsMore(p.accepted, Prompt(|p.accepted|, s.starting.value.task.text));
    }
    if AcceptedIn(s, a) == [] { assert Texts(p.accepted) + [] == Texts(p.accepted); }
  }

  /**
   * Over any run: what was accepted is what the commands asked, in the order they were accepted, and as many of it went
   * out as turns were started for prompts.
   */
  lemma {:induction false} AcceptedExactly(settings: Settings, acts: seq<Act>)
    ensures var p := Run(Init(settings), acts).prompts;
            Texts(p.accepted) == AcceptedOver(settings, acts) && |p.dispatched| == OutOver(settings, acts)
  {
    if acts != [] {
      var n := |acts| - 1;
      AcceptedExactly(settings, acts[..n]);
      RunThere(settings, acts[..n]);
      LineNext(Run(Init(settings), acts[..n]), acts[n]);
    }
  }

  // ---- Which sessions are closed ----

  predicate Stale(s: State, id: nat) {
    id in s.pool.live && s.pool.live[id].stale
  }

  /** A step that looks the registry up for a turn to come; one whose session a setting went stale on loses it. */
  predicate Looks(s: State, a: Act) {
    !Locked(s)
    && match a
       case Prompted(_) => Idling(s)
       case Compact(_) => Idling(s)
       case Resumed => s.resuming
       case Ended(id) => CanEnd(s, id) && Stale(s, id) && s.prompts.queue != []
       case _ => false
  }

  /** A step for which the registered session of an idle thread is closed. */
  predicate Clears(s: State, a: Act) {
    match a
    case Configured(_, _) => Accepts(s, a) && Idling(s)
    case Reaped => !Locked(s) && Idling(s) && Registered(s.pool) && s.pool.live[s.pool.current.value].idle
    case Settled(_, _) => !Locked(s) && Idling(s)
    case Shelved => Idling(s)
    case _ => false
  }

  /** The app closes the session. */
  predicate Shuts(s: State, a: Act, id: nat) {
    || (s.pool.current == Some(id) && (Clears(s, a) || (Looks(s, a) && Stale(s, id))))
    || (a == Act.Ended(id) && CanEnd(s, id) && Stale(s, id))
  }

  /** Its pump reads the session's last report. */
  predicate Unlists(s: State, a: Act, id: nat) {
    a.Pumped? && a.session == id && CanPump(s.pool, id) && s.pool.live[id].inbox[0].Closed?
  }

  /** The agent takes a turn up in it. */
  predicate TakesUp(s: State, a: Act, id: nat) {
    a.Called? && Calling(s) && s.starting.value.session == Some(id) && a.sendOk && !s.pool.live[id].gone
  }

  /** The session once the step is done, as far as its turn and its end go. */
  predicate Moves(s: State, a: Act, l: Live, m: Live, id: nat) {
    var last := Heeded(s, a) && a.session == id && a.report.Closed?;
    var done := Heeded(s, a) && a.session == id && a.report.Completed?;
    && (m.gone <==> l.gone || Shuts(s, a, id) || last || Unlists(s, a, id))
    && (m.flying <==> TakesUp(s, a, id)
                      || (l.flying && !(a == Act.Ended(id) && CanEnd(s, id)) && !Unlists(s, a, id)))
    && (m.turn <==> TakesUp(s, a, id) || (l.turn && !m.gone && !done))
  }

  predicate SameTurn(l: Live, m: Live) {
    m.gone == l.gone && m.flying == l.flying && m.turn == l.turn
  }

  /** Closed, in no turn of the agent's. */
  predicate Closes(l: Live, m: Live) {
    m.gone && !m.turn && m.flying == l.flying
  }

  lemma CloseTurn(p: Pool, id: nat)
    requires id in p.live && (p.live[id].gone ==> !p.live[id].turn)
    ensures var q := CloseSession(p);
            id in q.live && if p.current == Some(id) then Closes(p.live[id], q.live[id]) else q.live[id] == p.live[id]
    ensures var q := Looked(p);
            id in q.live && if p.current == Some(id) && p.live[id].stale then Closes(p.live[id], q.live[id])
                            else q.live[id] == p.live[id]
  {
  }

  /** The registered session is closed by the step. */
  predicate ClosesNow(s: State, a: Act, id: nat) {
    s.pool.current == Some(id) && (Clears(s, a) || (Looks(s, a) && Stale(s, id)))
  }

  /** A step in which neither the session nor a turn's start or end has a part. */
  lemma Settles(s: State, a: Act, l: Live, m: Live, id: nat)
    requires !a.Called? && !a.Ended? && !a.Reports? && !a.Pumped? && (l.gone ==> !l.turn)
    requires if ClosesNow(s, a, id) then Closes(l, m) else SameTurn(l, m)
    ensures Moves(s, a, l, m, id)
  {
  }

  lemma LookPool(s: State, a: Act)
    requires a.Prompted? || a.Compact? || a.Resumed?
    ensures Step(s, a).pool == if Looks(s, a) then Looked(s.pool) else s.pool
  {
  }

  lemma ClearPool(s: State, a: Act)
    requires a.Reaped? || a.Settled? || a.Shelved?
    ensures Step(s, a).pool == if Clears(s, a) then CloseSession(s.pool) else s.pool
  {
  }

  lemma LookTurn(s: State, a: Act, id: nat)
    requires a.Prompted? || a.Compact? || a.Resumed?
    requires id in s.pool.live && (s.pool.live[id].gone ==> !s.pool.live[id].turn)
    ensures var l, p := s.pool.live[id], Step(s, a).pool;
            id in p.live && if ClosesNow(s, a, id) then Closes(l, p.live[id]) else SameTurn(l, p.live[id])
  {
    CloseTurn(s.pool, id);
    LookPool(s, a);
  }

  lemma ClearTurn(s: State, a: Act, id: nat)
    requires a.Reaped? || a.Settled? || a.Shelved?
    requires id in s.pool.live && (s.pool.live[id].gone ==> !s.pool.live[id].turn)
    ensures var l, p := s.pool.live[id], Step(s, a).pool;
            id in p.live && if ClosesNow(s, a, id) then Closes(l, p.live[id]) else SameTurn(l, p.live[id])
  {
    CloseTurn(s.pool, id);
    ClearPool(s, a);
  }

  lemma CommandTurn(s: State, a: Act, id: nat)
    requires Command(a) || a.Resumed? || a.Marked?
    requires id in s.pool.live && (s.pool.live[id].gone ==> !s.pool.live[id].turn)
    ensures id in Step(s, a).pool.live && Moves(s, a, s.pool.live[id], Step(s, a).pool.live[id], id)
  {
    if a.Prompted? || a.Compact? || a.Resumed? { LookTurn(s, a, id); }
    else if a.Reaped? || a.Settled? || a.Shelved? { ClearTurn(s, a, id); }
    else { assert Step(s, a).pool == s.pool; }
    Settles(s, a, s.pool.live[id], Step(s, a).pool.live[id], id);
  }

  lemma SettingsTurn(s: State, to: Settings, pushed: bool, id: nat)
    requires id in s.pool.live && (s.pool.live[id].gone ==> !s.pool.live[id].turn)
    ensures var p := SetSettings(s, to, pushed).pool;
            id in p.live && Moves(s, Configured(to, pushed), s.pool.live[id], p.live[id], id)
  {
    CloseTurn(s.pool, id);
    SettingsClear(s, to, pushed, id);
    Settles(s, Configured(to, pushed), s.pool.live[id], SetSettings(s, to, pushed).pool.live[id], id);
  }

  lemma SettingsClear(s: State, to: Settings, pushed: bool, id: nat)
    requires id in s.pool.live
    ensures var a, p := Configured(to, pushed), SetSettings(s, to, pushed).pool;
      if Clears(s, a) then p == CloseSession(s.pool) else id in p.live && SameTurn(s.pool.live[id], p.live[id])
  {
  }

  lemma OwnTurn(s: State, a: Act, id: nat)
    requires a.Reports? || a.Pumped? || a.Judged? || a.Written?
    requires id in s.pool.live && (s.pool.live[id].gone ==> !s.pool.live[id].turn)
    ensures id in Step(s, a).pool.live && Moves(s, a, s.pool.live[id], Step(s, a).pool.live[id], id)
  {
    if a.Reports? {
      ReportTurn(s, a.session, a.report, id);
    } else if a.Pumped? {
      ReadTurn(s, a.session, a.resolveOk, id);
    } else {
      CloserTurn(s, a, id);
      Settles(s, a, s.pool.live[id], Step(s, a).pool.live[id], id);
    }
  }

  lemma CloserTurn(s: State, a: Act, id: nat)
    requires (a.Judged? || a.Written?) && id in s.pool.live
    ensures id in Step(s, a).pool.live && SameTurn(s.pool.live[id], Step(s, a).pool.live[id])
  {
  }

  /** A report of another session, or one that is neither a turn's end nor the last, leaves the session in its turn. */
  lemma Rests(s: State, a: Act, l: Live, m: Live, id: nat)
    requires (a.Reports? || a.Pumped?) && (l.gone ==> !l.turn) && SameTurn(l, m) && !Unlists(s, a, id)
    requires Heeded(s, a) && a.session == id ==> !a.report.Closed? && !a.report.Completed?
    ensures Moves(s, a, l, m, id)
  {
  }

  lemma ReportTurn(s: State, other: nat, r: Report, id: nat)
    requires id in s.pool.live && (s.pool.live[id].gone ==> !s.pool.live[id].turn)
    ensures var a := Reports(other, r);
            id in Step(s, a).pool.live && Moves(s, a, s.pool.live[id], Step(s, a).pool.live[id], id)
  {
    var a := Reports(other, r);
    if other != id {
      PumpApart(s, a, id);
      Rests(s, a, s.pool.live[id], Step(s, a).pool.live[id], id);
    } else if !Allowed(s.pool.live[id], r) {
      Rests(s, a, s.pool.live[id], Step(s, a).pool.live[id], id);
    } else {
      TurnReported(s, r, id);
    }
  }

  lemma TurnReported(s: State, r: Report, id: nat)
    requires id in s.pool.live && Allowed(s.pool.live[id], r)
    ensures Step(s, Reports(id, r)).pool.live == s.pool.live[id := Reported(s.pool.live[id], r)]
    ensures Moves(s, Reports(id, r), s.pool.live[id], Reported(s.pool.live[id], r), id)
  {
  }

  lemma ReadTurn(s: State, other: nat, resolveOk: bool, id: nat)
    requires id in s.pool.live && (s.pool.live[id].gone ==> !s.pool.live[id].turn)
    ensures var a := Pumped(other, resolveOk);
            id in Step(s, a).pool.live && Moves(s, a, s.pool.live[id], Step(s, a).pool.live[id], id)
  {
    var a := Pumped(other, resolveOk);
    if other != id {
      PumpApart(s, a, id);
      Rests(s, a, s.pool.live[id], Step(s, a).pool.live[id], id);
    } else if Unlists(s, a, id) {
      TurnUnlisted(s, resolveOk, id);
    } else {
      TurnRead(s, resolveOk, id);
      Rests(s, a, s.pool.live[id], Step(s, a).pool.live[id], id);
    }
  }

  lemma FirstRead(l: Live)
    requires l.inbox != []
    ensures SameTurn(l, Read(l))
  {
  }

  lemma TurnRead(s: State, resolveOk: bool, id: nat)
    requires id in s.pool.live && !Unlists(s, Pumped(id, resolveOk), id)
    ensures var p := Step(s, Pumped(id, resolveOk)).pool; id in p.live && SameTurn(s.pool.live[id], p.live[id])
  {
    if CanPump(s.pool, id) {
      FirstRead(s.pool.live[id]);
      assert Step(s, Pumped(id, resolveOk)).pool == Put(s.pool, id, Read(s.pool.live[id]));
    }
  }

  lemma TurnUnlisted(s: State, resolveOk: bool, id: nat)
    requires id in s.pool.live && Unlists(s, Pumped(id, resolveOk), id)
    ensures var p := Step(s, Pumped(id, resolveOk)).pool;
            id in p.live && Moves(s, Pumped(id, resolveOk), s.pool.live[id], p.live[id], id)
  {
    var m := Unlist(s, id, s.pool.live[id].inbox[0].err).pool.live[id];
    assert Step(s, Pumped(id, resolveOk)).pool.live[id] == m && m.gone && !m.flying && !m.turn;
  }

  lemma FreedTurn(s: State, id: nat)
    requires Locked(s) && id in s.pool.live
    ensures id in Freed(s).pool.live && SameTurn(s.pool.live[id], Freed(s).pool.live[id])
  {
  }

  lemma WrittenTurn(s: State, id: nat, other: nat)
    requires id in s.pool.live && other in s.pool.live
    ensures other in WrittenDown(s, id).pool.live && SameTurn(s.pool.live[other], WrittenDown(s, id).pool.live[other])
  {
  }

  lemma EntersTurn(s: State, chosen: Option<nat>, id: nat)
    requires Locked(s) && id in s.pool.live
    ensures id in Entry(s, chosen).pool.live && SameTurn(s.pool.live[id], Entry(s, chosen).pool.live[id])
  {
    if chosen == None || chosen.value !in s.pool.live {
      FreedTurn(Without(s, s.starting.value.task), id);
    } else if !Calls(s.prompts, s.starting.value.task) {
      FreedTurn(s, id);
    } else {
      var started := Some(s.starting.value.(session := chosen, entered := true));
      WrittenTurn(s.(prompts := Handed(s.prompts, s.starting.value.task), starting := started), chosen.value, id);
    }
  }

  lemma EntryTurn(s: State, startOk: bool, id: nat)
    requires Entering(s) && id in s.pool.live && id < s.pool.next
    ensures id in Enter(s, startOk).pool.live && SameTurn(s.pool.live[id], Enter(s, startOk).pool.live[id])
  {
    var u := Opened(s, startOk);
    assert id in u.pool.live && u.pool.live[id] == s.pool.live[id];
    EntersTurn(u, Chosen(u.pool, s.starting.value.session), id);
  }

  lemma CallTurn(s: State, sendOk: bool, id: nat)
    requires Calling(s) && id in s.pool.live && (s.pool.live[id].gone ==> !s.pool.live[id].turn)
    ensures var p := Deliver(s, sendOk).pool;
            id in p.live && Moves(s, Called(sendOk), s.pool.live[id], p.live[id], id)
  {
    FreedTurn(s, id);
    FreedTurn(s, s.starting.value.session.value);
  }

  lemma LandTurn(s: State, other: nat, id: nat)
    requires CanEnd(s, other) && id in s.pool.live && (s.pool.live[id].gone ==> !s.pool.live[id].turn)
    ensures var l, p := s.pool.live[id], Landed(s, other).pool;
      && id in p.live && (p.live[id].gone ==> !p.live[id].turn) && p.live[id].stale == l.stale
      && if id != other then p.live[id] == l
         else !p.live[id].flying
              && if l.stale then p.live[id].gone else p.live[id].gone == l.gone && p.live[id].turn == l.turn
    ensures Landed(s, other).pool.current == if s.pool.current == Some(other) && s.pool.live[other].stale then None
                                            else s.pool.current
  {
  }

  lemma EndTurns(s: State, other: nat, id: nat)
    requires CanEnd(s, other) && id in s.pool.live && (s.pool.live[id].gone ==> !s.pool.live[id].turn)
    ensures var p := EndTurn(s, other).pool;
            id in p.live && Moves(s, Act.Ended(other), s.pool.live[id], p.live[id], id)
  {
    var a, l, m := Act.Ended(other), s.pool.live[id], Landed(s, other).pool.live[id];
    LandTurn(s, other, id);
    if Looks(s, a) {
      CloseTurn(Landed(s, other).pool, id);
      assert EndTurn(s, other).pool == Looked(Landed(s, other).pool);
    } else {
      assert EndTurn(s, other).pool == Landed(s, other).pool;
    }
    EndMoves(s, other, l, EndTurn(s, other).pool.live[id], id);
  }

  lemma EndMoves(s: State, other: nat, l: Live, m: Live, id: nat)
    requires CanEnd(s, other) && (l.gone ==> !l.turn)
    requires m.gone <==> l.gone || Shuts(s, Act.Ended(other), id)
    requires m.flying <==> l.flying && id != other
    requires m.turn <==> l.turn && !m.gone
    ensures Moves(s, Act.Ended(other), l, m, id)
  {
  }

  /** What every step but a restart makes of a session that is there. */
  lemma SessionNext(s: State, a: Act, id: nat)
    requires Young(s.pool) && id in s.pool.live && (s.pool.live[id].gone ==> !s.pool.live[id].turn) && !a.Restarted?
    ensures id in Step(s, a).pool.live && Moves(s, a, s.pool.live[id], Step(s, a).pool.live[id], id)
  {
    match a
    case Configured(to, pushed) => SettingsTurn(s, to, pushed, id);
    case Entered(startOk) =>
      if Entering(s) { EntryTurn(s, startOk, id); }
      Settles(s, a, s.pool.live[id], Step(s, a).pool.live[id], id);
    case Called(sendOk) => CallsTurn(s, sendOk, id);
    case Ended(other) => EndsTurn(s, other, id);
    case _ => if Command(a) || a.Resumed? || a.Marked? { CommandTurn(s, a, id); } else { OwnTurn(s, a, id); }
  }

  lemma CallsTurn(s: State, sendOk: bool, id: nat)
    requires id in s.pool.live && (s.pool.live[id].gone ==> !s.pool.live[id].turn)
    ensures var a := Called(sendOk);
            id in Step(s, a).pool.live && Moves(s, a, s.pool.live[id], Step(s, a).pool.live[id], id)
  {
    if Calling(s) { CallTurn(s, sendOk, id); }
  }

  lemma EndsTurn(s: State, other: nat, id: nat)
    requires id in s.pool.live && (s.pool.live[id].gone ==> !s.pool.live[id].turn)
    ensures var a := Act.Ended(other);
            id in Step(s, a).pool.live && Moves(s, a, s.pool.live[id], Step(s, a).pool.live[id], id)
  {
    if CanEnd(s, other) { EndTurns(s, other, id); }
  }

  /** Whether a session was closed, has a turn whose end is not processed, and is in a turn of the agent's. */
  datatype Standing = Standing(gone: bool, flying: bool, turn: bool)

  function StandingAt(s: State, id: nat): Option<Standing> {
    if id in s.pool.live
    then Some(Standing(s.pool.live[id].gone, s.pool.live[id].flying, s.pool.live[id].turn)) else None
  }

  /** A new session is in no turn, unless a restart has sent it the oldest prompt. */
  function NewStanding(s: State, a: Act): Standing {
    var sent := StartsQueued(s, a) && a.sendOk;
    Standing(false, sent, sent)
  }

  /** A step opens session `id`. */
  predicate OpensNow(s: State, a: Act, id: nat) {
    id == s.pool.next
    && (StartsQueued(s, a)
        || (a.Entered? && Entering(s) && s.starting.value.session == None && !Registered(s.pool) && a.startOk))
  }

  function StandingIn(s: State, a: Act, id: nat, was: Option<Standing>): Option<Standing> {
    if OpensNow(s, a, id) then Some(NewStanding(s, a))
    else if a.Restarted? || was == None then None
    else
      var last := Heeded(s, a) && a.session == id && a.report.Closed?;
      var done := Heeded(s, a) && a.session == id && a.report.Completed?;
      var w, gone := was.value, was.value.gone || Shuts(s, a, id) || last || Unlists(s, a, id);
      Some(Standing(gone,
                    TakesUp(s, a, id) || (w.flying && !(a == Act.Ended(id) && CanEnd(s, id)) && !Unlists(s, a, id)),
                    TakesUp(s, a, id) || (w.turn && !gone && !done)))
  }

  lemma OpenNow(s: State, startOk: bool)
    requires Entering(s) && SessionThere(s) && Young(s.pool)
    ensures var a, p := Act.Entered(startOk), Enter(s, startOk).pool;
      && (forall id :: id in p.live <==> id in s.pool.live || OpensNow(s, a, id))
      && (OpensNow(s, a, s.pool.next) ==>
            StandingAt(Enter(s, startOk), s.pool.next) == Some(Standing(false, false, false)))
  {
    var u := Opened(s, startOk);
    EntryApart(u, Chosen(u.pool, s.starting.value.session));
    if OpensNow(s, Act.Entered(startOk), s.pool.next) {
      EntersTurn(u, Chosen(u.pool, s.starting.value.session), s.pool.next);
    }
  }

  lemma RestartOpens(s: State, resume: bool, startOk: bool, sendOk: bool)
    ensures var a, r := Restarted(resume, startOk, sendOk), Recover(s, resume, startOk, sendOk);
      && (forall id :: id in r.pool.live <==> OpensNow(s, a, id))
      && (OpensNow(s, a, s.pool.next) ==> StandingAt(r, s.pool.next) == Some(NewStanding(s, a)))
      && r.pool.current == (if StartsQueued(s, a) then Some(s.pool.next) else None)
  {
    DownRow(s, resume, startOk, sendOk);
    var t := Down(s, resume);
    if !t.cutOff && t.prompts.queue != [] {
      assert Session(t.pool, t.thread.settings, startOk) ==
             if startOk then Launch(t.pool, t.thread.settings) else t.pool;
    }
  }

  lemma NoneOpens(s: State, a: Act)
    requires Young(s.pool) && !a.Entered? && !a.Restarted?
    ensures Step(s, a).pool.live.Keys == s.pool.live.Keys && forall id :: !OpensNow(s, a, id)
  {
    NoneOpened(s, a);
  }

  lemma StandingNext(s: State, a: Act, id: nat)
    requires Young(s.pool) && SessionThere(s)
    requires id in s.pool.live ==> (s.pool.live[id].gone ==> !s.pool.live[id].turn)
    ensures StandingAt(Step(s, a), id) == StandingIn(s, a, id, StandingAt(s, id))
  {
    if a.Restarted? {
      RestartOpens(s, a.resume, a.startOk, a.sendOk);
    } else {
      if a.Entered? { if Entering(s) { OpenNow(s, a.startOk); } } else { NoneOpens(s, a); }
      if id in s.pool.live {
        SessionNext(s, a, id);
        StandingMoved(s, a, id, Step(s, a).pool.live[id]);
      }
    }
  }

  lemma StandingMoved(s: State, a: Act, id: nat, m: Live)
    requires id in s.pool.live && !OpensNow(s, a, id) && !a.Restarted? && Moves(s, a, s.pool.live[id], m, id)
    ensures StandingIn(s, a, id, StandingAt(s, id)) == Some(Standing(m.gone, m.flying, m.turn))
  {
  }

  function StandingOver(settings: Settings, acts: seq<Act>, id: nat): Option<Standing> {
    if acts == [] then None
    else
      var init := acts[..|acts| - 1];
      StandingIn(Run(Init(settings), init), acts[|acts| - 1], id, StandingOver(settings, init, id))
  }

  /**
   * Over any run: a session is closed exactly if the app closed it for one of the reasons it has, or it ended by
   * itself; its turn is in flight exactly if it took one up whose end has not been processed; and the agent is in it
   * exactly if it has not completed it and the session is not closed.
   */
  lemma {:induction false} SessionsExactly(settings: Settings, acts: seq<Act>, id: nat)
    ensures StandingAt(Run(Init(settings), acts), id) == StandingOver(settings, acts, id)
    ensures var l := StandingOver(settings, acts, id); l.Some? && l.value.gone ==> !l.value.turn
  {
    if acts != [] {
      var n := |acts| - 1;
      SessionsExactly(settings, acts[..n], id);
      RunThere(settings, acts[..n]);
      StandingNext(Run(Init(settings), acts[..n]), acts[n], id);
    }
  }

  // ---- Which session is registered ----

  predicate CurrentThere(s: State) {
    s.pool.current.Some? ==> s.pool.current.value in s.pool.live
  }

  /** The registered session, when `was` was registered before. */
  function CurrentIn(s: State, a: Act, was: Option<nat>): Option<nat> {
    if OpensNow(s, a, s.pool.next) then Some(s.pool.next)
    else if a.Restarted? || was == None then None
    else
      var c := was.value;
      if Shuts(s, a, c) || Unlists(s, a, c) || (a == Act.Written(c) && CanWrite(s.pool, c)) then None else Some(c)
  }

  lemma EntryCurrent(s: State, startOk: bool)
    requires Entering(s) && CurrentThere(s)
    ensures Enter(s, startOk).pool.current == CurrentIn(s, Act.Entered(startOk), s.pool.current)
  {
  }

  lemma EndCurrent(s: State, id: nat)
    requires CanEnd(s, id) && CurrentThere(s)
    ensures EndTurn(s, id).pool.current == CurrentIn(s, Act.Ended(id), s.pool.current)
  {
    LandedCurrent(s, id);
  }

  lemma LandedCurrent(s: State, id: nat)
    requires CanEnd(s, id)
    ensures var p := Landed(s, id).pool;
      && p.live.Keys == s.pool.live.Keys
      && (forall other :: other in p.live ==> p.live[other].stale == s.pool.live[other].stale)
      && p.current == if s.pool.current == Some(id) && s.pool.live[id].stale then None else s.pool.current
  {
  }

  lemma CurrentNext(s: State, a: Act)
    requires CurrentThere(s)
    ensures Step(s, a).pool.current == CurrentIn(s, a, s.pool.current)
  {
    match a
    case Entered(startOk) => if Entering(s) { EntryCurrent(s, startOk); }
    case Ended(id) => if CanEnd(s, id) { EndCurrent(s, id); }
    case Restarted(resume, startOk, sendOk) => RestartOpens(s, resume, startOk, sendOk);
    case Called(sendOk) => if Calling(s) { CallCurrent(s, sendOk); }
    case Configured(to, pushed) => SettingsCurrent(s, to, pushed);
    case _ => if Command(a) || a.Resumed? || a.Marked? { CommandCurrent(s, a); } else { OwnCurrent(s, a); }
  }

  lemma CommandCurrent(s: State, a: Act)
    requires CurrentThere(s) && (Command(a) || a.Resumed? || a.Marked?)
    ensures Step(s, a).pool.current == CurrentIn(s, a, s.pool.current)
  {
    if a.Prompted? || a.Compact? || a.Resumed? { LookPool(s, a); }
    else if a.Reaped? || a.Settled? || a.Shelved? { ClearPool(s, a); }
    else { assert Step(s, a).pool == s.pool; }
  }

  lemma OwnCurrent(s: State, a: Act)
    requires CurrentThere(s) && (a.Reports? || a.Pumped? || a.Judged? || a.Written?)
    ensures Step(s, a).pool.current == CurrentIn(s, a, s.pool.current)
  {
  }

  lemma CallCurrent(s: State, sendOk: bool)
    requires Calling(s)
    ensures Deliver(s, sendOk).pool.current == s.pool.current
  {
  }

  lemma SettingsCurrent(s: State, to: Settings, pushed: bool)
    requires CurrentThere(s)
    ensures SetSettings(s, to, pushed).pool.current == CurrentIn(s, Configured(to, pushed), s.pool.current)
  {
  }

  function CurrentOver(settings: Settings, acts: seq<Act>): Option<nat> {
    if acts == [] then None
    else
      var init := acts[..|acts| - 1];
      CurrentIn(Run(Init(settings), init), acts[|acts| - 1], CurrentOver(settings, init))
  }

  lemma LiveAfter(s: State, a: Act, id: nat)
    requires Young(s.pool) && SessionThere(s)
    ensures id in Step(s, a).pool.live <==> OpensNow(s, a, id) || (id in s.pool.live && !a.Restarted?)
  {
    match a
    case Restarted(resume, startOk, sendOk) => RestartOpens(s, resume, startOk, sendOk);
    case Entered(startOk) => LiveEntered(s, startOk, id);
    case _ => NoneOpens(s, a);
  }

  lemma LiveEntered(s: State, startOk: bool, id: nat)
    requires Young(s.pool) && SessionThere(s)
    ensures var a := Act.Entered(startOk); id in Step(s, a).pool.live <==> OpensNow(s, a, id) || id in s.pool.live
  {
    if Entering(s) { OpenNow(s, startOk); }
  }

  lemma CurrentFrom(s: State, a: Act)
    ensures var now := CurrentIn(s, a, s.pool.current);
      now.Some? ==>
        (now == Some(s.pool.next) && OpensNow(s, a, s.pool.next)) || (now == s.pool.current && !a.Restarted?)
  {
  }

  lemma CurrentStays(s: State, a: Act)
    requires Young(s.pool) && SessionThere(s) && CurrentThere(s)
    ensures CurrentThere(Step(s, a))
  {
    CurrentNext(s, a);
    CurrentFrom(s, a);
    var now := Step(s, a).pool.current;
    if now.Some? { LiveAfter(s, a, now.value); }
  }

  /** Over any run: the registered session is the one opened last, if it was not closed since and its pump not done. */
  lemma {:induction false} RegisteredExactly(settings: Settings, acts: seq<Act>)
    ensures CurrentThere(Run(Init(settings), acts))
    ensures Run(Init(settings), acts).pool.current == CurrentOver(settings, acts)
  {
    if acts != [] {
      var n := |acts| - 1;
      RegisteredExactly(settings, acts[..n]);
      RunThere(settings, acts[..n]);
      CurrentNext(Run(Init(settings), acts[..n]), acts[n]);
      CurrentStays(Run(Init(settings), acts[..n]), acts[n]);
    }
  }
}
