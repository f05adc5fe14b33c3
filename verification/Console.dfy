/** The app's methods in place: one thread's rows and sessions, and the loops that run over all threads. */
module Console {
  import opened Domain
  import P = Protocol
  import PromptQueue
  import Safety = ProtocolSafety

  /** A state in which every promise holds and no prompt is lost. */
  ghost predicate Healthy(s: P.State) {
    Safety.Inv(s) && PromptQueue.Conserved(s.prompts)
  }

  lemma StaysHealthy(s: P.State, a: P.Act)
    requires Healthy(s)
    ensures if Safety.Hazard(s, a) then !Safety.Sound(P.Step(s, a)) else Healthy(P.Step(s, a))
  {
    if Safety.Hazard(s, a) {
      Safety.HazardBreaks(s, a);
    } else {
      Safety.StepKeeps(s, a);
      PromptQueue.StepMoves(s, a);
      PromptQueue.MoveConserves(s.prompts, P.Step(s, a).prompts);
    }
  }

  /** What the app and its store hold about one thread; the ghost fields keep its history. */
  class ThreadHost {
    var thread: P.Thread
    var queue: seq<P.Prompt>
    var live: map<nat, P.Live>
    var current: Option<nat>
    var next: nat
    var starting: Option<P.Starting>
    var cutOff: bool
    var resuming: bool
    var issued: nat
    ghost var accepted: seq<P.Prompt>
    ghost var dispatched: seq<P.Prompt>
    ghost var cancelled: set<nat>
    ghost var resumes: nat
    ghost var calls: seq<P.Call>

    ghost function View(): P.State
      reads this
    {
      P.State(thread, P.Prompts(queue, accepted, dispatched, cancelled), P.Pool(live, current, next),
              starting, cutOff, resuming, resumes, calls)
    }

    ghost predicate Valid()
      reads this
    {
      Counted() && Healthy(View())
    }

    /** The ids given out are those of the prompts accepted. */
    ghost predicate Counted()
      reads this
    {
      issued == |accepted|
    }

    /**
     * The host took this step of the protocol: it is valid if it was, unless the step is a hazard, which breaks a
     * promise.
     */
    ghost predicate Took(was: P.State, a: P.Act)
      reads this
    {
      && View() == P.Step(was, a) && Counted()
      && (Healthy(was) ==> if Safety.Hazard(was, a) then !Safety.Sound(View()) else Valid())
    }

    constructor (settings: Settings)
      ensures View() == P.Init(settings) && Valid()
    {
      thread := P.Thread(Idle, settings, false, 0, map[], {});
      queue, live, current, next, starting := [], map[], None, 0, None;
      cutOff, resuming, issued := false, false, 0;
      accepted, dispatched, cancelled, resumes, calls := [], [], {}, 0, [];
    }

    lemma Taken(was: P.State, a: P.Act)
      requires View() == P.Step(was, a) && Counted()
      ensures Took(was, a)
    {
      if Healthy(was) { StaysHealthy(was, a); }
    }

    predicate Registered()
      reads this
    {
      current.Some? && current.value in live
    }

    // ---- Sessions ----

    /** The session is gone, and registered no more; any other session and its registration stay. */
    method Retire(id: nat)
      modifies this`live, this`current
      ensures View().pool == P.Retire(old(View().pool), id)
      ensures id in live ==> live[id].gone && current != Some(id)
      ensures live.Keys == old(live).Keys
      ensures forall other :: other in live && other != id ==> live[other] == old(live)[other]
    {
      if id in live {
        if current == Some(id) { current := None; }
        var l := live[id];
        if !l.gone { l := l.(gone := true, turn := false, inbox := l.inbox + [P.Closed(false)]); }
        live := live[id := l];
      }
    }

    method CloseSession()
      modifies this`live, this`current
      ensures View().pool == P.CloseSession(old(View().pool)) && current == None
    {
      if Registered() { Retire(current.value); } else { current := None; }
    }

    /** The registered session, unless a setting went stale on it: then it is retired. */
    method Look() returns (found: Option<nat>)
      modifies this`live, this`current
      ensures View().pool == P.Looked(old(View()).pool) && found == P.Found(old(View()).pool)
      ensures found.Some? ==> found.value in live && !live[found.value].stale
    {
      if Registered() && !live[current.value].stale { return current; }
      CloseSession();
      found := None;
    }

    /** With none found a new session starts, if it can; `id` is the one a turn then goes to. */
    method Open(found: Option<nat>, config: Settings, startOk: bool) returns (id: Option<nat>)
      modifies this`live, this`current, this`next
      ensures View().pool == P.Open(old(View()).pool, found, config, startOk) && id == P.Chosen(View().pool, found)
    {
      id := found;
      if found == None {
        if !Registered() && startOk {
          live := live[next := P.Live(config, false, false, false, false, None, false, [], P.Serving)];
          current := Some(next);
          next := next + 1;
        }
        if Registered() { id := current; }
      }
    }

    /** The session the next turn goes to; `found` is false when none starts. */
    method Session(startOk: bool) returns (found: bool)
      modifies this`live, this`current, this`next
      ensures View().pool == P.Session(old(View()).pool, thread.settings, startOk)
      ensures found == P.Registered(View().pool)
      ensures found ==> !live[current.value].stale
      ensures found && current != old(current) ==> live[current.value].config == thread.settings
    {
      var before := Look();
      var id := Open(before, thread.settings, startOk);
      found := Registered();
    }

    /** Under the lock: the row's settings are read and the registry is looked up. */
    method Take(task: P.Task)
      modifies this`live, this`current, this`starting
      ensures View() == P.Take(old(View()), task)
    {
      var found := Look();
      starting := Some(P.Starting(found, thread.settings, task, false));
    }

    /** An item, the running status and no idle stamp. */
    method WriteDown(id: nat)
      requires id in live
      modifies this`thread, this`live
      ensures View() == P.WrittenDown(old(View()), id)
    {
      thread := thread.(items := thread.items + 1, status := Running);
      live := live[id := live[id].(idle := false)];
    }

    /** The call; `taken` is false if it fails. */
    method Send(id: nat, sendOk: bool) returns (taken: bool)
      requires id in live
      modifies this`thread, this`live, this`calls
      ensures View() == P.Delivered(old(View()), id, sendOk) && taken == P.Takes(old(live)[id], sendOk)
    {
      var l := live[id];
      calls := calls + [P.Call(l.config, thread.settings, l.flying)];
      taken := sendOk && !l.gone;
      if taken { l := l.(flying := true, turn := true); } else { thread := thread.(status := Error); }
      live := live[id := l];
    }

    /** Both, when nothing comes between. */
    method StartTurn(id: nat, sendOk: bool)
      requires id in live
      modifies this`thread, this`live, this`calls
      ensures View() == P.StartTurn(old(View()), id, sendOk)
    {
      WriteDown(id);
      var _ := Send(id, sendOk);
    }

    method StartQueued(id: nat, sendOk: bool)
      requires id in live && queue != []
      modifies this`thread, this`live, this`calls, this`queue, this`dispatched
      ensures View() == P.StartQueued(old(View()), id, sendOk)
    {
      dispatched := dispatched + [queue[0]];
      queue := queue[1..];
      StartTurn(id, sendOk);
    }

    // ---- Commands ----

    /** A busy thread queues the prompt; while the prompt lock is taken this waits. */
    method SendPrompt(text: string)
      requires Counted()
      modifies this
      ensures Took(old(View()), P.Prompted(text))
    {
      ghost var was := View();
      if starting == None {
        if P.Busy(thread) {
          var p := Accept(text);
          queue := queue + [p];
        } else {
          Take(P.Ask(text));
        }
      }
      Taken(was, P.Prompted(text));
    }

    /** A prompt gets the next id. */
    method Accept(text: string) returns (p: P.Prompt)
      requires Counted()
      modifies this`issued, this`accepted
      ensures p == P.Prompt(|old(accepted)|, text) && accepted == old(accepted) + [p] && Counted()
    {
      p := P.Prompt(issued, text);
      issued, accepted := issued + 1, accepted + [p];
    }

    /** Prompts left waiting go first. */
    method HandOut(task: P.Task)
      requires Counted() && P.Calls(View().prompts, task)
      modifies this`issued, this`accepted, this`queue, this`dispatched
      ensures Counted() && View().prompts == P.Handed(old(View()).prompts, task)
    {
      if task.Ask? {
        var p := Accept(task.text);
        if queue == [] {
          dispatched := dispatched + [p];
          return;
        }
        queue := queue + [p];
      }
      if task.Ask? || task.Next? { dispatched, queue := dispatched + [queue[0]], queue[1..]; }
    }

    method Note()
      modifies this`thread
      ensures thread == P.Noted(old(thread))
    {
      thread := thread.(items := thread.items + 1);
    }

    /** The lock is free, and a pump that held it goes on. */
    method Free(task: P.Task)
      requires starting.Some? && task == starting.value.task
      modifies this`live, this`starting
      ensures View() == P.Freed(old(View()))
    {
      if task.Next? && task.holder in live { live := live[task.holder := live[task.holder].(ending := None)]; }
      starting := None;
    }

    /** Nothing to send to. */
    method Refuse(task: P.Task)
      modifies this`thread
      ensures View() == P.Without(old(View()), task)
    {
      match task
      case Next(_) => thread := thread.(status := Error);
      case Again => Note();
      case _ =>
    }

    /** The turn is written down, and the call is next, unless there is nothing to call, or to call for. */
    method Write(id: Option<nat>)
      requires starting.Some? && Counted()
      modifies this`issued, this`accepted, this`queue, this`dispatched, this`thread, this`live, this`starting
      ensures Counted() && View() == P.Entry(old(View()), id)
    {
      var task := starting.value.task;
      if id == None || id.value !in live {
        Refuse(task);
        Free(task);
      } else if (task.Next? && queue == []) || (task.Fold? && !task.able) {
        Free(task);
      } else {
        HandOut(task);
        starting := Some(starting.value.(session := id, entered := true));
        WriteDown(id.value);
      }
    }

    method Enter(startOk: bool)
      requires starting.Some? && Counted()
      modifies this
      ensures Counted() && View() == P.Enter(old(View()), startOk)
    {
      var id := Open(starting.value.session, starting.value.settings, startOk);
      Write(id);
    }

    predicate Calling()
      reads this
    {
      starting.Some? && starting.value.entered && starting.value.session.Some? && starting.value.session.value in live
    }

    /** The call; a resume is counted, and one that fails leaves a warning. */
    method Deliver(sendOk: bool)
      requires Calling()
      modifies this`resumes, this`thread, this`live, this`calls, this`starting
      ensures View() == P.Deliver(old(View()), sendOk)
    {
      var st := starting.value;
      Free(st.task);
      var taken := Send(st.session.value, sendOk);
      if st.task.Again? {
        resumes := resumes + 1;
        if !taken { Note(); }
      }
    }

    /** All of it, when nothing comes between. */
    method Begin(startOk: bool, sendOk: bool)
      requires starting.Some? && Counted()
      modifies this
      ensures Counted() && View() == P.Begin(old(View()), startOk, sendOk)
    {
      Enter(startOk);
      if Calling() { Deliver(sendOk); }
    }

    method EnterTurn(startOk: bool)
      requires Counted()
      modifies this
      ensures Took(old(View()), P.Entered(startOk))
    {
      ghost var was := View();
      if starting.Some? && !starting.value.entered { Enter(startOk); }
      Taken(was, P.Entered(startOk));
    }

    method CallSession(sendOk: bool)
      requires Counted()
      modifies this
      ensures Took(old(View()), P.Called(sendOk))
    {
      ghost var was := View();
      if Calling() { Deliver(sendOk); }
      Taken(was, P.Called(sendOk));
    }

    method CancelQueuedPrompt(id: nat) returns (found: bool)
      requires Counted()
      modifies this`queue, this`cancelled
      ensures Took(old(View()), P.Cancel(id))
      ensures starting == None ==> found == old(P.Waits(View().prompts, id))
    {
      ghost var was := View();
      found := false;
      if starting == None { found := Withdraw(id); }
      Taken(was, P.Cancel(id));
    }

    method Withdraw(id: nat) returns (found: bool)
      modifies this`queue, this`cancelled
      ensures found == old(P.Waits(View().prompts, id)) && View() == P.CancelQueued(old(View()), id)
    {
      var i := 0;
      while i < |queue| && queue[i].id != id
        invariant 0 <= i <= |queue| && forall k :: 0 <= k < i ==> queue[k].id != id
        decreases |queue| - i
      {
        i := i + 1;
      }
      found := i < |queue|;
      if found {
        queue := P.Remaining(queue, {id});
        cancelled := cancelled + {id};
      }
    }

    method CompactContext(able: bool)
      requires Counted()
      modifies this
      ensures Took(old(View()), P.Compact(able))
    {
      ghost var was := View();
      if starting == None && !P.Busy(thread) { Take(P.Fold(able)); }
      Taken(was, P.Compact(able));
    }

    method Interrupt()
      requires Counted()
      modifies this`thread
      ensures Took(old(View()), P.Interrupted)
    {
      ghost var was := View();
      if current == None { thread := thread.(status := Idle); }
      Taken(was, P.Interrupted);
    }

    method ResolveApproval(approval: Id, lasting: bool, resolveOk: bool)
      requires Counted()
      modifies this`thread
      ensures Took(old(View()), P.Answered(approval, lasting, resolveOk))
    {
      ghost var was := View();
      if approval in thread.pending && current != None && resolveOk {
        if lasting { thread := thread.(rules := thread.rules + {thread.pending[approval]}); }
        thread := thread.(pending := thread.pending - {approval});
        if thread.status == Awaiting { thread := thread.(status := Running); }
      }
      Taken(was, P.Answered(approval, lasting, resolveOk));
    }

    method RevokeRule(key: string)
      requires Counted()
      modifies this`thread
      ensures Took(old(View()), P.Revoked(key))
    {
      ghost var was := View();
      thread := thread.(rules := thread.rules - {key});
      Taken(was, P.Revoked(key));
    }

    static method Adjust(session: P.Live, from: Settings, to: Settings, pushed: bool) returns (l: P.Live)
      ensures l == P.Adjusted(session, from, to, pushed)
    {
      l := session;
      if to.mode != from.mode {
        if pushed { l := l.(config := l.config.(mode := to.mode)); } else { l := l.(stale := true); }
      }
      if to.model != from.model || to.effort != from.effort { l := l.(stale := true); }
    }

    method SetThreadSettings(to: Settings, pushed: bool)
      requires Counted()
      modifies this
      ensures Took(old(View()), P.Configured(to, pushed))
    {
      ghost var was := View();
      if to.agent == thread.settings.agent || thread.items == 0 {
        if P.Busy(thread) {
          ConfigureMidTurn(to, pushed);
        } else {
          CloseSession();
          thread := thread.(settings := to, bound := thread.bound && to.agent == thread.settings.agent);
        }
      }
      Taken(was, P.Configured(to, pushed));
    }

    method ConfigureMidTurn(to: Settings, pushed: bool)
      requires P.Busy(thread) && (to.agent == thread.settings.agent || thread.items == 0)
      modifies this`thread, this`live
      ensures View() == P.SetSettings(old(View()), to, pushed)
    {
      if Registered() {
        var l := Adjust(live[current.value], thread.settings, to, pushed);
        live := live[current.value := l];
      }
      NoteSettings(to);
    }

    /** The row's side of a change mid-turn: the notes and the new settings. */
    method NoteSettings(to: Settings)
      modifies this`thread
      ensures thread == P.Resettled(old(thread), to).(items := old(thread).items + P.NotesOn(old(thread).settings, to))
    {
      var from, notes := thread.settings, 0;
      if to.mode != from.mode { notes := notes + 1; }
      if to.model != from.model || to.effort != from.effort { notes := notes + 1; }
      thread := thread.(settings := to, bound := thread.bound && to.agent == from.agent, items := thread.items + notes);
    }

    method ReapIdle()
      requires Counted()
      modifies this`live, this`current
      ensures Took(old(View()), P.Reaped)
    {
      ghost var was := View();
      if starting == None && Registered() && live[current.value].idle && !P.Busy(thread) { CloseSession(); }
      Taken(was, P.Reaped);
    }

    method CloseWhenIdle(items: nat, bound: bool)
      requires Counted()
      modifies this`live, this`current, this`thread
      ensures Took(old(View()), P.Settled(items, bound))
    {
      ghost var was := View();
      if starting == None && !P.Busy(thread) {
        CloseSession();
        thread := thread.(items := items, bound := bound);
      }
      Taken(was, P.Settled(items, bound));
    }

    /** Without the lock. */
    method Shelve()
      requires Counted()
      modifies this`live, this`current
      ensures Took(old(View()), P.Shelved)
    {
      ghost var was := View();
      if !P.Busy(thread) { CloseSession(); }
      Taken(was, P.Shelved);
    }

    // ---- The agent and the pump ----

    /** What the agent may report arrives; anything else does not happen. */
    method Report(id: nat, r: P.Report)
      requires Counted()
      modifies this`live
      ensures Took(old(View()), P.Reports(id, r))
    {
      ghost var was := View();
      if id in live && P.Allowed(live[id], r) {
        var l := live[id];
        l := l.(inbox := l.inbox + [r]);
        if r.Completed? || r.Closed? { l := l.(turn := false); }
        l := l.(gone := r.Closed?);
        live := live[id := l];
      }
      Taken(was, P.Reports(id, r));
    }

    /** The closing report: the session is unregistered, and a turn it was in is over. */
    method Unlist(id: nat, err: bool)
      requires id in live
      modifies this`live, this`current
      ensures View() == P.Unlist(old(View()), id, err)
    {
      var registered := current == Some(id);
      if registered { current := None; }
      live := live[id := live[id].(inbox := [], flying := false, turn := false, gone := true,
                                   closing := P.Unlisted(err, registered))];
    }

    method Pump(id: nat, resolveOk: bool)
      requires Counted()
      modifies this
      ensures Took(old(View()), P.Pumped(id, resolveOk))
    {
      ghost var was := View();
      if id in live && live[id].inbox != [] && live[id].ending == None && live[id].closing == P.Serving {
        PumpReport(id, resolveOk);
      }
      Taken(was, P.Pumped(id, resolveOk));
    }

    method PumpReport(id: nat, resolveOk: bool)
      requires P.CanPump(View().pool, id)
      modifies this`live, this`current, this`thread
      ensures View() == P.Pump(old(View()), id, resolveOk)
    {
      var l := live[id];
      var report := l.inbox[0];
      if report.Closed? {
        Unlist(id, report.err);
        return;
      }
      l := l.(inbox := l.inbox[1..]);
      if report.Completed? { l := l.(idle := true, ending := Some(report.failed)); }
      live := live[id := l];
      Hear(report, resolveOk);
    }

    method Hear(report: P.Report, resolveOk: bool)
      modifies this`thread
      ensures thread == P.Heard(old(thread), report, resolveOk)
    {
      match report
      case SessionInfo => thread := thread.(bound := true);
      case TurnStarted => thread := thread.(status := Running);
      case Asked(approval, key) =>
        if key in thread.rules && resolveOk {
          thread := thread.(pending := thread.pending - {approval});
        } else {
          thread := thread.(pending := thread.pending[approval := key], status := Awaiting);
        }
      case _ =>
    }

    /** The pump of an unregistered session reads the status. */
    method Judge(id: nat)
      requires Counted()
      modifies this`live
      ensures Took(old(View()), P.Judged(id))
    {
      ghost var was := View();
      if id in live && live[id].closing.Unlisted? {
        var l := live[id];
        var write := None;
        if l.closing.err {
          write := Some(Error);
        } else if (l.closing.current || !P.Busy(thread)) && thread.status != Idle {
          write := Some(Idle);
        }
        live := live[id := l.(closing := P.Ruled(write))];
      }
      Taken(was, P.Judged(id));
    }

    /** And writes the one it decided on. */
    method WriteStatus(id: nat)
      requires Counted()
      modifies this`live, this`current, this`thread
      ensures Took(old(View()), P.Written(id))
    {
      ghost var was := View();
      if id in live && live[id].closing.Ruled? { Bury(id); }
      Taken(was, P.Written(id));
    }

    method Bury(id: nat)
      requires P.CanWrite(View().pool, id)
      modifies this`live, this`current, this`thread
      ensures View() == P.Write(old(View()), id)
    {
      var write := live[id].closing.write;
      if current == Some(id) { current := None; }
      live := live[id := live[id].(closing := P.Over)];
      if write.Some? {
        if write.value == Error { Note(); }
        thread := thread.(status := write.value);
      }
    }

    /** The end of a turn, under the prompt lock, up to where a queued prompt is to follow. */
    method EndTurn(id: nat)
      requires Counted()
      modifies this
      ensures Took(old(View()), P.Ended(id))
    {
      ghost var was := View();
      if starting == None && id in live && live[id].ending.Some? { HandOver(id); }
      Taken(was, P.Ended(id));
    }

    method HandOver(id: nat)
      requires id in live && live[id].ending.Some?
      modifies this`live, this`current, this`thread, this`starting
      ensures View() == P.EndTurn(old(View()), id)
    {
      var stale := live[id].stale;
      Land(id);
      if queue == [] { return; }
      if stale {
        Take(P.Next(id));
      } else {
        starting := Some(P.Starting(Some(id), thread.settings, P.Next(id), false));
      }
    }

    /** The turn's end itself; a session that went stale goes with it. */
    method Land(id: nat)
      requires id in live && live[id].ending.Some?
      modifies this`live, this`current, this`thread
      ensures View() == P.Landed(old(View()), id)
    {
      var l := live[id];
      thread := thread.(pending := map[], items := thread.items + 1);
      if queue == [] {
        thread := thread.(status := if l.ending.value then Error else Idle);
        live := live[id := l.(flying := false, ending := None)];
      } else {
        live := live[id := l.(flying := false)];
      }
      if l.stale { Retire(id); }
    }

    // ---- Restart ----

    method Recover(resume: bool, startOk: bool, sendOk: bool)
      requires Counted()
      modifies this
      ensures Took(old(View()), P.Restarted(resume, startOk, sendOk))
    {
      ghost var was := View();
      var _ := ComeUp(resume, startOk, sendOk);
      Taken(was, P.Restarted(resume, startOk, sendOk));
    }

    /** Recover's turn of the loop for this thread; `ok` is false when its queued prompt could not start. */
    method ComeUp(resume: bool, startOk: bool, sendOk: bool) returns (ok: bool)
      modifies this`live, this`current, this`next, this`starting, this`cutOff, this`resuming, this`thread, this`calls,
        this`queue, this`dispatched
      ensures View() == P.Recover(old(View()), resume, startOk, sendOk)
      ensures ok == !P.RecoverFails(old(View()), resume, startOk, sendOk)
    {
      GoDown(resume);
      ok := true;
      if !cutOff && queue != [] {
        var found := Session(startOk);
        if found { StartQueued(current.value, sendOk); }
        ok := found && sendOk;
      }
    }

    /** The same, for a caller that knows what comes of it. */
    method ComeUpAs(resume: bool, startOk: bool, sendOk: bool, ghost after: P.State, ghost stops: bool)
      returns (ok: bool, cut: bool)
      requires after == P.Recover(View(), resume, startOk, sendOk) && Counted()
      requires stops == P.RecoverFails(View(), resume, startOk, sendOk)
      modifies this
      ensures View() == after && Counted() && ok == !stops && cut == after.cutOff
    {
      ok := ComeUp(resume, startOk, sendOk);
      cut := cutOff;
    }

    method GoDown(resume: bool)
      modifies this`live, this`current, this`starting, this`cutOff, this`resuming, this`thread
      ensures View() == P.Down(old(View()), resume)
    {
      live, current, starting, resuming := map[], None, None, false;
      cutOff := P.CutOff(thread, resume);
      if !cutOff && P.Busy(thread) { thread := thread.(items := thread.items + 1, pending := map[], status := Idle); }
    }

    method Mark()
      modifies this`thread, this`cutOff, this`resuming
      ensures View() == P.MarkIdle(old(View()))
    {
      thread := thread.(items := thread.items + 1, pending := map[], status := Idle);
      cutOff, resuming := false, true;
    }

    /** ResumeCutOff's first half for this thread. */
    method MarkIdle()
      requires Counted()
      modifies this
      ensures Took(old(View()), P.Marked)
    {
      ghost var was := View();
      if cutOff { Mark(); }
      Taken(was, P.Marked);
    }

    /** And its second, up to where the turn is started like any other. */
    method ResumeTurn()
      requires Counted()
      modifies this
      ensures Took(old(View()), P.Resumed)
    {
      ghost var was := View();
      if starting == None && resuming { TakeUp(); }
      Taken(was, P.Resumed);
    }

    method TakeUp()
      modifies this`resuming, this`live, this`current, this`starting
      ensures View() == P.ResumeTurn(old(View()))
    {
      resuming := false;
      Take(P.Again);
    }

    /** All of it, for a thread that was cut off. */
    method ComeBack(startOk: bool, sendOk: bool)
      requires Counted()
      modifies this
      ensures Counted() && View() == P.ResumeCutOff(old(View()), startOk, sendOk)
    {
      if cutOff {
        Mark();
        TakeUp();
        Begin(startOk, sendOk);
      }
    }

    /** The same, for a caller that knows what comes of it. */
    method ComeBackAs(startOk: bool, sendOk: bool, ghost after: P.State)
      requires after == P.ResumeCutOff(View(), startOk, sendOk) && Counted()
      modifies this
      ensures View() == after && Counted()
    {
      ComeBack(startOk, sendOk);
    }

    // ---- Any step, any run ----

    method Perform(a: P.Act)
      requires Counted()
      modifies this
      ensures Took(old(View()), a)
    {
      match a
      case Prompted(text) => SendPrompt(text);
      case Cancel(id) => var _ := CancelQueuedPrompt(id);
      case Compact(able) => CompactContext(able);
      case Interrupted => Interrupt();
      case Answered(approval, lasting, resolveOk) => ResolveApproval(approval, lasting, resolveOk);
      case Revoked(key) => RevokeRule(key);
      case Configured(to, pushed) => SetThreadSettings(to, pushed);
      case Reaped => ReapIdle();
      case Settled(items, bound) => CloseWhenIdle(items, bound);
      case Shelved => Shelve();
      case Reports(id, r) => Report(id, r);
      case Pumped(id, resolveOk) => Pump(id, resolveOk);
      case Judged(id) => Judge(id);
      case Written(id) => WriteStatus(id);
      case Ended(id) => EndTurn(id);
      case Entered(startOk) => EnterTurn(startOk);
      case Called(sendOk) => CallSession(sendOk);
      case Restarted(resume, startOk, sendOk) => Recover(resume, startOk, sendOk);
      case Marked => MarkIdle();
      case Resumed => ResumeTurn();
    }

    method PerformNext(acts: seq<P.Act>, i: nat, ghost was: P.State)
      requires i < |acts| && View() == P.Run(was, acts[..i]) && Counted()
      modifies this
      ensures View() == P.Run(was, acts[..i + 1]) && Counted()
      ensures old(Valid()) && !Safety.HazardAt(was, acts, i) ==> Valid()
    {
      assert acts[..i + 1][..i] == acts[..i];
      Perform(acts[i]);
    }

    /** A whole run in place: it is the run of the protocol, and keeps every promise if no step of it is a hazard. */
    method PerformAll(acts: seq<P.Act>)
      requires Counted()
      modifies this
      ensures View() == P.Run(old(View()), acts) && Counted()
      ensures old(Valid()) && (forall k :: 0 <= k < |acts| ==> !Safety.HazardAt(old(View()), acts, k)) ==> Valid()
    {
      ghost var was, safe := View(), Valid();
      for i := 0 to |acts|
        invariant View() == P.Run(was, acts[..i]) && Counted()
        invariant safe && (forall k :: 0 <= k < i ==> !Safety.HazardAt(was, acts, k)) ==> Valid()
      {
        PerformNext(acts, i, was);
      }
      assert acts[..|acts|] == acts;
    }
  }

  // ---- All threads ----

  ghost predicate Distinct(ids: seq<Id>) {
    forall i, j :: 0 <= i < j < |ids| ==> ids[i] != ids[j]
  }

  /** How starting a session and sending a prompt go on each thread. */
  datatype Weather = Weather(resume: bool, starts: set<Id>, sends: set<Id>)

  function Recovered(s: P.State, id: Id, w: Weather): P.State {
    P.Recover(s, w.resume, id in w.starts, id in w.sends)
  }

  predicate Fails(s: P.State, id: Id, w: Weather) {
    P.RecoverFails(s, w.resume, id in w.starts, id in w.sends)
  }

  function AllRecovered(was: map<Id, P.State>, w: Weather): map<Id, P.State> {
    map id | id in was :: Recovered(was[id], id, w)
  }

  function AllFailing(was: map<Id, P.State>, w: Weather): set<Id> {
    set id | id in was && Fails(was[id], id, w)
  }

  function Resumed(s: P.State, id: Id, w: Weather): P.State {
    P.ResumeCutOff(s, id in w.starts, id in w.sends)
  }

  /** The threads of `ids`, in order, that are left to ResumeCutOff. */
  function CutOffs(ids: seq<Id>, after: map<Id, P.State>): seq<Id>
    requires forall id :: id in ids ==> id in after
  {
    if ids == [] then []
    else
      var last := ids[|ids| - 1];
      CutOffs(ids[..|ids| - 1], after) + (if after[last].cutOff then [last] else [])
  }

  lemma CutOffsNext(ids: seq<Id>, done: nat, after: map<Id, P.State>)
    requires done < |ids| && forall id :: id in ids ==> id in after
    ensures CutOffs(ids[..done + 1], after) ==
            CutOffs(ids[..done], after) + (if after[ids[done]].cutOff then [ids[done]] else [])
  {
    assert ids[..done + 1][..done] == ids[..done];
  }

  lemma {:induction false} CutOffsListed(ids: seq<Id>, after: map<Id, P.State>)
    requires Distinct(ids) && forall id :: id in ids ==> id in after
    ensures Distinct(CutOffs(ids, after))
    ensures forall id :: id in CutOffs(ids, after) <==> id in ids && after[id].cutOff
  {
    if ids != [] {
      var init, last := ids[..|ids| - 1], ids[|ids| - 1];
      CutOffsListed(init, after);
      assert ids == init + [last];
      assert last !in init && last !in CutOffs(init, after);
    }
  }

  /** The rows after the threads of `ids` were dealt with, one after the other. */
  function Patched(was: map<Id, P.State>, after: map<Id, P.State>, ids: seq<Id>): (r: map<Id, P.State>)
    requires forall id :: id in ids ==> id in after && id in was
    ensures r.Keys == was.Keys
  {
    if ids == [] then was
    else
      var last := ids[|ids| - 1];
      Patched(was, after, ids[..|ids| - 1])[last := after[last]]
  }

  lemma {:induction false} PatchedAt(was: map<Id, P.State>, after: map<Id, P.State>, ids: seq<Id>, id: Id)
    requires id in was && forall i :: i in ids ==> i in after && i in was
    ensures Patched(was, after, ids)[id] == if id in ids then after[id] else was[id]
  {
    if ids != [] {
      assert ids == ids[..|ids| - 1] + [ids[|ids| - 1]];
      PatchedAt(was, after, ids[..|ids| - 1], id);
    }
  }

  /** The next thread has not been touched. */
  lemma PatchedNext(was: map<Id, P.State>, after: map<Id, P.State>, ids: seq<Id>, done: nat)
    requires Distinct(ids) && done < |ids| && forall i :: i in ids ==> i in after && i in was
    ensures Patched(was, after, ids[..done])[ids[done]] == was[ids[done]]
    ensures Patched(was, after, ids[..done + 1]) == Patched(was, after, ids[..done])[ids[done] := after[ids[done]]]
  {
    PatchedAt(was, after, ids[..done], ids[done]);
    assert ids[..done + 1][..done] == ids[..done];
  }

  /** A sweep with the threads of `left` still to come. */
  function Mixed(was: map<Id, P.State>, after: map<Id, P.State>, left: set<Id>): map<Id, P.State>
    requires after.Keys == was.Keys
  {
    map id | id in was :: if id in left then was[id] else after[id]
  }

  lemma MixedOne(was: map<Id, P.State>, after: map<Id, P.State>, left: set<Id>, id: Id)
    requires after.Keys == was.Keys && id in left && id in was
    ensures Mixed(was, after, left)[id] == was[id]
    ensures Mixed(was, after, left - {id}) == Mixed(was, after, left)[id := after[id]]
  {
  }

  lemma OneDiffers(was: map<Id, P.State>, now: map<Id, P.State>, id: Id)
    requires id in was && now.Keys == was.Keys
    requires forall other :: other in was && other != id ==> now[other] == was[other]
    ensures now == was[id := now[id]]
  {
  }

  lemma Booted(s: P.State, up: P.State, id: Id, w: Weather)
    requires up == Recovered(s, id, w)
    ensures Resumed(up, id, w) == PromptQueue.Boot(s, w.resume, id in w.starts, id in w.sends)
  {
  }

  class App {
    const threads: map<Id, ThreadHost>

    ghost predicate Valid()
      reads threads.Values
    {
      && (forall i, j :: i in threads && j in threads && i != j ==> threads[i] != threads[j])
      && (forall id :: id in threads ==> threads[id].Counted())
    }

    ghost function Views(): (r: map<Id, P.State>)
      reads threads.Values
      ensures r.Keys == threads.Keys
    {
      map id | id in threads :: threads[id].View()
    }

    constructor (threads: map<Id, ThreadHost>)
      ensures this.threads == threads
    {
      this.threads := threads;
    }

    /** One step of one thread: no other thread sees it. */
    method Perform(id: Id, a: P.Act)
      requires Valid() && id in threads
      modifies threads[id]
      ensures Valid() && Views() == old(Views())[id := P.Step(old(Views())[id], a)]
    {
      ghost var was := Views();
      assert threads[id].View() == was[id];
      threads[id].Perform(a);
      assert threads[id].View() == Views()[id];
      OneDiffers(was, Views(), id);
    }

    method RecoverOne(id: Id, w: Weather, ghost after: P.State, ghost stops: bool) returns (ok: bool, cut: bool)
      requires Valid() && id in threads && Planned(Views()[id], id, w, after, stops)
      modifies threads[id]
      ensures Valid() && Views() == old(Views())[id := after] && ok == !stops && cut == after.cutOff
    {
      ghost var was := Views();
      assert threads[id].View() == was[id];
      ok, cut := threads[id].ComeUpAs(w.resume, id in w.starts, id in w.sends, after, stops);
      assert threads[id].View() == Views()[id];
      OneDiffers(was, Views(), id);
    }

    /** What recovery makes of a thread, and whether it must stop there. */
    ghost predicate Planned(was: P.State, id: Id, w: Weather, after: P.State, stops: bool) {
      after == Recovered(was, id, w) && stops == Fails(was, id, w)
    }

    ghost predicate PlannedAt(ids: seq<Id>, j: nat, w: Weather, was: map<Id, P.State>, after: map<Id, P.State>,
                              stops: set<Id>)
      requires j < |ids| && ids[j] in was && ids[j] in after
    {
      Planned(was[ids[j]], ids[j], w, after[ids[j]], ids[j] in stops)
    }

    ghost predicate ResumedAt(ids: seq<Id>, j: nat, w: Weather, was: map<Id, P.State>, after: map<Id, P.State>)
      requires j < |ids| && ids[j] in was && ids[j] in after
    {
      after[ids[j]] == Resumed(was[ids[j]], ids[j], w)
    }

    /** One turn of the loop: the thread has not been touched before. */
    method RecoverNext(ids: seq<Id>, done: nat, w: Weather, ghost was: map<Id, P.State>, ghost after: map<Id, P.State>,
                       ghost stops: bool)
      returns (ok: bool, cut: bool)
      requires Valid() && Distinct(ids) && done < |ids| && was.Keys == threads.Keys && after.Keys == threads.Keys
      requires (forall id :: id in ids ==> id in threads) && Views() == Patched(was, after, ids[..done])
      requires Planned(was[ids[done]], ids[done], w, after[ids[done]], stops)
      modifies threads[ids[done]]
      ensures Valid() && Views() == Patched(was, after, ids[..done + 1]) && ok == !stops
      ensures cut == after[ids[done]].cutOff
    {
      PatchedNext(was, after, ids, done);
      ok, cut := RecoverOne(ids[done], w, after[ids[done]], stops);
    }

    /** The first `done` threads were brought up, none of them stopping the loop, and those cut off listed. */
    ghost predicate Reached(ids: seq<Id>, was: map<Id, P.State>, after: map<Id, P.State>, stops: set<Id>, done: nat,
                            list: seq<Id>)
      requires done <= |ids| && forall id :: id in ids ==> id in after && id in was
      reads threads.Values
    {
      && Valid() && Views() == Patched(was, after, ids[..done])
      && (forall j :: 0 <= j < done ==> ids[j] !in stops)
      && list == CutOffs(ids[..done], after)
    }

    /** The loop has ended, after the first thread that failed or after all of them. */
    ghost predicate Left(ids: seq<Id>, was: map<Id, P.State>, after: map<Id, P.State>, stops: set<Id>, done: nat,
                         list: seq<Id>)
      requires done <= |ids| && forall id :: id in ids ==> id in after && id in was
      reads threads.Values
    {
      && Valid() && Views() == Patched(was, after, ids[..if done < |ids| then done + 1 else done])
      && (forall j :: 0 <= j < done ==> ids[j] !in stops) && (done < |ids| ==> ids[done] in stops)
      && list == CutOffs(ids[..done], after)
    }

    lemma AllUp(ids: seq<Id>, was: map<Id, P.State>, after: map<Id, P.State>, stops: set<Id>, list: seq<Id>)
      requires (forall id :: id in ids ==> id in after && id in was) && Reached(ids, was, after, stops, |ids|, list)
      ensures Left(ids, was, after, stops, |ids|, list)
    {
    }

    method RecoverListed(ids: seq<Id>, done: nat, list: seq<Id>, w: Weather, ghost was: map<Id, P.State>,
                         ghost after: map<Id, P.State>, ghost stops: set<Id>)
      returns (ok: bool, longer: seq<Id>)
      requires Distinct(ids) && done < |ids| && was.Keys == threads.Keys && after.Keys == threads.Keys
      requires (forall id :: id in ids ==> id in threads) && Reached(ids, was, after, stops, done, list)
      requires PlannedAt(ids, done, w, was, after, stops)
      modifies threads[ids[done]]
      ensures ok == (ids[done] !in stops)
      ensures if ok then Reached(ids, was, after, stops, done + 1, longer)
              else Left(ids, was, after, stops, done, list)
    {
      var cut;
      ok, cut := RecoverNext(ids, done, w, was, after, ids[done] in stops);
      CutOffsNext(ids, done, after);
      longer := list + (if cut then [ids[done]] else []);
    }

    /** The loop of Recover, up to the first thread whose queued prompt cannot start. */
    method RecoverEach(ids: seq<Id>, w: Weather, ghost was: map<Id, P.State>, ghost after: map<Id, P.State>,
                       ghost stops: set<Id>)
      returns (done: nat, list: seq<Id>)
      requires Valid() && Distinct(ids) && Views() == was && after.Keys == threads.Keys
      requires forall id :: id in ids ==> id in threads
      requires forall j :: 0 <= j < |ids| ==> PlannedAt(ids, j, w, was, after, stops)
      modifies threads.Values
      ensures done <= |ids| && Left(ids, was, after, stops, done, list)
    {
      done, list := 0, [];
      while done < |ids|
        invariant done <= |ids| && Reached(ids, was, after, stops, done, list)
      {
        assert PlannedAt(ids, done, w, was, after, stops);
        var ok, longer := RecoverListed(ids, done, list, w, was, after, stops);
        if !ok { return; }
        done, list := done + 1, longer;
      }
      AllUp(ids, was, after, stops, list);
    }

    method RecoverAll(ids: seq<Id>, w: Weather, ghost was: map<Id, P.State>, ghost after: map<Id, P.State>,
                      ghost stops: set<Id>)
      returns (done: nat, cutOff: seq<Id>)
      requires Valid() && Distinct(ids) && Views() == was && after.Keys == threads.Keys
      requires forall id :: id in ids <==> id in threads
      requires forall j :: 0 <= j < |ids| ==> PlannedAt(ids, j, w, was, after, stops)
      modifies threads.Values
      ensures Valid() && done <= |ids|
      ensures (forall j :: 0 <= j < done ==> ids[j] !in stops) && (done < |ids| ==> ids[done] in stops)
      ensures forall j :: 0 <= j < |ids| ==> Views()[ids[j]] == (if j <= done then after[ids[j]] else was[ids[j]])
      ensures done == |ids| ==> Distinct(cutOff) && forall id :: id in cutOff <==> id in threads && after[id].cutOff
    {
      done, cutOff := RecoverEach(ids, w, was, after, stops);
      Swept(ids, w, was, after, done);
      if done == |ids| {
        assert ids[..done] == ids;
        CutOffsListed(ids, after);
      }
    }

    /**
     * Every thread in turn, up to the first whose queued prompt cannot start; `cutOff` lists those left to
     * ResumeCutOff.
     */
    method Recover(ids: seq<Id>, w: Weather) returns (done: nat, cutOff: seq<Id>)
      requires Valid() && Distinct(ids) && forall id :: id in ids <==> id in threads
      modifies threads.Values
      ensures Valid() && done <= |ids|
      ensures forall j :: 0 <= j < done ==> !Fails(old(Views())[ids[j]], ids[j], w)
      ensures done < |ids| ==> Fails(old(Views())[ids[done]], ids[done], w)
      ensures forall j :: 0 <= j < |ids| ==>
        Views()[ids[j]] == (if j <= done then Recovered(old(Views())[ids[j]], ids[j], w) else old(Views())[ids[j]])
      ensures done == |ids| ==> Distinct(cutOff) && forall id :: id in cutOff <==> id in threads && Views()[id].cutOff
    {
      ghost var was := Views();
      ghost var after, stops := AllRecovered(was, w), AllFailing(was, w);
      done, cutOff := RecoverAll(ids, w, was, after, stops);
      if done == |ids| { AllReached(ids, after); }
    }

    lemma AllReached(ids: seq<Id>, after: map<Id, P.State>)
      requires after.Keys == threads.Keys && forall id :: id in ids <==> id in threads
      requires forall j :: 0 <= j < |ids| ==> Views()[ids[j]] == after[ids[j]]
      ensures Views() == after
    {
      forall id | id in threads ensures Views()[id] == after[id] { assert id in ids; }
    }

    /** What the sweep over `ids` that ended at `done` made of each thread. */
    lemma Swept(ids: seq<Id>, w: Weather, was: map<Id, P.State>, after: map<Id, P.State>, done: nat)
      requires Distinct(ids) && done <= |ids| && after.Keys == was.Keys && forall id :: id in ids ==> id in was
      requires Views() == Patched(was, after, ids[..if done < |ids| then done + 1 else done])
      ensures forall j :: 0 <= j < |ids| ==> Views()[ids[j]] == (if j <= done then after[ids[j]] else was[ids[j]])
    {
      var dealt := ids[..if done < |ids| then done + 1 else done];
      forall j | 0 <= j < |ids| ensures Views()[ids[j]] == if j <= done then after[ids[j]] else was[ids[j]] {
        PatchedAt(was, after, dealt, ids[j]);
        assert ids[j] in dealt <==> j <= done;
      }
    }

    method ResumeOne(id: Id, w: Weather, ghost after: P.State)
      requires Valid() && id in threads && after == Resumed(Views()[id], id, w)
      modifies threads[id]
      ensures Valid() && Views() == old(Views())[id := after]
    {
      ghost var was := Views();
      assert threads[id].View() == was[id];
      threads[id].ComeBackAs(id in w.starts, id in w.sends, after);
      assert threads[id].View() == Views()[id];
      OneDiffers(was, Views(), id);
    }

    method ResumeNext(ids: seq<Id>, i: nat, w: Weather, ghost was: map<Id, P.State>, ghost after: map<Id, P.State>)
      requires Valid() && Distinct(ids) && i < |ids| && was.Keys == threads.Keys && after.Keys == threads.Keys
      requires (forall id :: id in ids ==> id in threads) && Views() == Patched(was, after, ids[..i])
      requires ResumedAt(ids, i, w, was, after)
      modifies threads[ids[i]]
      ensures Valid() && Views() == Patched(was, after, ids[..i + 1])
    {
      PatchedNext(was, after, ids, i);
      ResumeOne(ids[i], w, after[ids[i]]);
    }

    method ResumeEach(cutOff: seq<Id>, w: Weather, ghost was: map<Id, P.State>, ghost after: map<Id, P.State>)
      requires Valid() && Distinct(cutOff) && Views() == was && after.Keys == threads.Keys
      requires forall id :: id in cutOff ==> id in threads
      requires forall j :: 0 <= j < |cutOff| ==> ResumedAt(cutOff, j, w, was, after)
      modifies threads.Values
      ensures Valid() && Views() == Patched(was, after, cutOff)
    {
      for i := 0 to |cutOff|
        invariant Valid() && Views() == Patched(was, after, cutOff[..i])
      {
        assert ResumedAt(cutOff, i, w, was, after);
        ResumeNext(cutOff, i, w, was, after);
      }
      assert cutOff[..|cutOff|] == cutOff;
    }

    /** Each listed thread once; what other commands do meanwhile is in the protocol's runs. */
    method ResumeCutOff(cutOff: seq<Id>, w: Weather)
      requires Valid() && Distinct(cutOff) && forall id :: id in cutOff <==> id in threads && Views()[id].cutOff
      modifies threads.Values
      ensures Valid() && forall id :: id in threads ==> Views()[id] == Resumed(old(Views())[id], id, w)
    {
      ghost var was := Views();
      ghost var after := map id | id in threads :: Resumed(was[id], id, w);
      ResumeEach(cutOff, w, was, after);
      forall id | id in threads ensures Views()[id] == after[id] { PatchedAt(was, after, cutOff, id); }
    }

    /**
     * A start that succeeds brings every thread up as PromptQueue.RestartRecovers says, each cut-off one resumed once.
     */
    method Boot(ids: seq<Id>, w: Weather) returns (ok: bool)
      requires Valid() && Distinct(ids) && forall id :: id in ids <==> id in threads
      modifies threads.Values
      ensures Valid() && ok == forall id :: id in ids ==> !Fails(old(Views())[id], id, w)
      ensures ok ==> forall id :: id in ids ==>
        Views()[id] == PromptQueue.Boot(old(Views())[id], w.resume, id in w.starts, id in w.sends)
    {
      ghost var was := Views();
      var done, cutOff := Recover(ids, w);
      ok := done == |ids|;
      if ok {
        ghost var up := Views();
        ResumeCutOff(cutOff, w);
        forall id | id in ids
          ensures Views()[id] == PromptQueue.Boot(was[id], w.resume, id in w.starts, id in w.sends)
        {
          Booted(was[id], up[id], id, w);
        }
      }
    }

    method ReapOne(id: Id, ghost after: P.State)
      requires Valid() && id in threads && after == P.Step(Views()[id], P.Reaped)
      modifies threads[id]
      ensures Valid() && Views() == old(Views())[id := after]
    {
      Perform(id, P.Reaped);
    }

    method ReapEach(ghost was: map<Id, P.State>, ghost after: map<Id, P.State>)
      requires Valid() && Views() == was && after.Keys == threads.Keys
      requires forall id {:trigger after[id]} :: id in threads ==> after[id] == P.Step(was[id], P.Reaped)
      modifies threads.Values
      ensures Valid() && Views() == after
    {
      var left := threads.Keys;
      assert was == Mixed(was, after, left);
      while left != {}
        invariant Valid() && left <= threads.Keys && Views() == Mixed(was, after, left)
        decreases left
      {
        var id :| id in left;
        MixedOne(was, after, left, id);
        ReapOne(id, after[id]);
        left := left - {id};
      }
      assert after == Mixed(was, after, {});
    }

    /** The reaper's sweep over every session. */
    method ReapIdle()
      requires Valid()
      modifies threads.Values
      ensures Valid() && forall id :: id in threads ==> Views()[id] == P.Step(old(Views())[id], P.Reaped)
    {
      ghost var was := Views();
      ghost var after := map id | id in threads :: P.Step(was[id], P.Reaped);
      ReapEach(was, after);
    }
  }
}
