/** No accepted prompt is lost, doubled or overtaken, in any run, and what a restart makes of a thread. */
module PromptQueue {
  import opened Domain
  import opened Protocol

  // ---- What remains of a list of prompts ----

  lemma {:induction false} RemainingAppend(a: seq<Prompt>, b: seq<Prompt>, gone: set<nat>)
    ensures Remaining(a + b, gone) == Remaining(a, gone) + Remaining(b, gone)
  {
    if a == [] {
      assert a + b == b;
    } else {
      assert (a + b)[1..] == a[1..] + b;
      RemainingAppend(a[1..], b, gone);
    }
  }

  lemma {:induction false} RemainingTwice(a: seq<Prompt>, gone: set<nat>, more: set<nat>)
    ensures Remaining(Remaining(a, gone), more) == Remaining(a, gone + more)
  {
    if a != [] {
      var rest := Remaining(a[1..], gone);
      RemainingTwice(a[1..], gone, more);
      assert [] + rest == rest && ([a[0]] + rest)[1..] == rest;
    }
  }

  lemma {:induction false} RemainingAll(a: seq<Prompt>, gone: set<nat>)
    requires forall i :: 0 <= i < |a| ==> a[i].id !in gone
    ensures Remaining(a, gone) == a
  {
    if a != [] { RemainingAll(a[1..], gone); }
  }

  lemma {:induction false} RemainingMember(a: seq<Prompt>, gone: set<nat>, p: Prompt)
    ensures p in Remaining(a, gone) <==> p in a && p.id !in gone
  {
    if a != [] { RemainingMember(a[1..], gone, p); }
  }

  ghost predicate Increasing(a: seq<Prompt>) {
    forall i, j :: 0 <= i < j < |a| ==> a[i].id < a[j].id
  }

  lemma {:induction false} RemainingIncreases(a: seq<Prompt>, gone: set<nat>)
    requires Increasing(a)
    ensures Increasing(Remaining(a, gone))
  {
    if a != [] {
      var rest := Remaining(a[1..], gone);
      RemainingIncreases(a[1..], gone);
      forall j | 0 <= j < |rest| ensures a[0].id < rest[j].id {
        RemainingMember(a[1..], gone, rest[j]);
      }
    }
  }

  // ---- Conservation ----

  /** Prompts are numbered as accepted, and those not withdrawn are the dispatched ones and then the queued ones. */
  ghost predicate Conserved(p: Prompts) {
    && (forall i :: 0 <= i < |p.accepted| ==> p.accepted[i].id == i)
    && Remaining(p.accepted, p.cancelled) == p.dispatched + p.queue
    && (forall id :: id in p.cancelled ==> id < |p.accepted|)
  }

  lemma AcceptKeeps(p: Prompts, text: string)
    requires Conserved(p)
    ensures Conserved(Enqueue(p, Prompt(|p.accepted|, text)))
    ensures p.queue == [] ==> Conserved(Pass(p, Prompt(|p.accepted|, text)))
  {
    var added := Prompt(|p.accepted|, text);
    RemainingAppend(p.accepted, [added], p.cancelled);
    assert Remaining([added], p.cancelled) == [added] by { assert [added][1..] == []; }
    assert p.dispatched + p.queue + [added] == p.dispatched + (p.queue + [added]);
  }

  lemma AdvanceKeeps(p: Prompts)
    requires Conserved(p) && p.queue != []
    ensures Conserved(Advance(p))
  {
    assert p.dispatched + p.queue == (p.dispatched + [p.queue[0]]) + p.queue[1..];
  }

  /** A waiting prompt was accepted, and none that went out has its id. */
  lemma WaitingApart(p: Prompts, id: nat)
    requires Conserved(p) && Waits(p, id)
    ensures id < |p.accepted| && forall j :: 0 <= j < |p.dispatched| ==> p.dispatched[j].id != id
  {
    var line := p.dispatched + p.queue;
    RemainingIncreases(p.accepted, p.cancelled);
    assert Increasing(line);
    var i :| 0 <= i < |p.queue| && p.queue[i].id == id;
    assert line[|p.dispatched| + i] == p.queue[i];
    forall j | 0 <= j < |p.dispatched| ensures p.dispatched[j].id != id { assert line[j] == p.dispatched[j]; }
    RemainingMember(p.accepted, p.cancelled, p.queue[i]);
  }

  lemma WithdrawKeeps(p: Prompts, id: nat)
    requires Conserved(p) && Waits(p, id)
    ensures Conserved(Withdraw(p, id))
  {
    WaitingApart(p, id);
    RemainingTwice(p.accepted, p.cancelled, {id});
    RemainingAppend(p.dispatched, p.queue, {id});
    RemainingAll(p.dispatched, {id});
  }

  /** The ways prompts move: one comes to wait, the oldest goes out, one goes straight through, one is withdrawn. */
  ghost predicate Moved(p: Prompts, q: Prompts) {
    || q == p
    || (p.queue != [] && q == Advance(p))
    || (exists text :: Comes(p, q, text))
    || (exists id :: Waits(p, id) && q == Withdraw(p, id))
  }

  /** A prompt behind others lets the first of them out, if it does not wait. */
  predicate Comes(p: Prompts, q: Prompts, text: string) {
    var added := Prompt(|p.accepted|, text);
    q == Enqueue(p, added) || (p.queue == [] && q == Pass(p, added))
      || (p.queue != [] && q == Advance(Enqueue(p, added)))
  }

  /** Prompts come by a command, wait while the thread is busy and go out when a turn is written down. */
  ghost predicate MovedBy(s: State, q: Prompts, a: Act) {
    match a
    case Prompted(text) => q == s.prompts
      || (Busy(s.thread) && q == Enqueue(s.prompts, Prompt(|s.prompts.accepted|, text)))
    case Cancel(id) => q == if Waits(s.prompts, id) && !Locked(s) then Withdraw(s.prompts, id) else s.prompts
    case Entered(_) =>
      q == s.prompts || (Entering(s) && Calls(s.prompts, s.starting.value.task)
                         && q == Handed(s.prompts, s.starting.value.task))
    case Restarted(_, _, _) => q == s.prompts || (s.prompts.queue != [] && q == Advance(s.prompts))
    case _ => q == s.prompts
  }

  lemma EnterMoves(s: State, startOk: bool)
    requires Entering(s)
    ensures MovedBy(s, Enter(s, startOk).prompts, Entered(startOk)) && Moved(s.prompts, Enter(s, startOk).prompts)
  {
    var task := s.starting.value.task;
    if Calls(s.prompts, task) && task.Ask? { assert Comes(s.prompts, Handed(s.prompts, task), task.text); }
  }

  lemma CallLeaves(s: State, sendOk: bool)
    requires Calling(s)
    ensures Deliver(s, sendOk).prompts == s.prompts
  {
  }

  lemma RecoverMoves(s: State, resume: bool, startOk: bool, sendOk: bool)
    ensures var q := Recover(s, resume, startOk, sendOk).prompts;
            q == s.prompts || (s.prompts.queue != [] && q == Advance(s.prompts))
  {
  }

  lemma EndMoves(s: State, id: nat)
    requires CanEnd(s, id)
    ensures EndTurn(s, id).prompts == s.prompts
  {
  }

  lemma OthersLeave(s: State, a: Act)
    requires !a.Prompted? && !a.Cancel? && !a.Entered? && !a.Called? && !a.Restarted? && !a.Ended?
    ensures Step(s, a).prompts == s.prompts
  {
  }

  lemma StepMoves(s: State, a: Act)
    ensures MovedBy(s, Step(s, a).prompts, a) && Moved(s.prompts, Step(s, a).prompts)
  {
    match a
    case Prompted(text) => if Busy(s.thread) && !Locked(s) { assert Comes(s.prompts, Step(s, a).prompts, text); }
    case Ended(id) => if CanEnd(s, id) { EndMoves(s, id); }
    case Entered(startOk) => if Entering(s) { EnterMoves(s, startOk); }
    case Called(sendOk) => if Calling(s) { CallLeaves(s, sendOk); }
    case Restarted(resume, startOk, sendOk) => RecoverMoves(s, resume, startOk, sendOk);
    case Cancel(_) =>
    case _ => OthersLeave(s, a);
  }

  lemma ComeKeeps(p: Prompts, q: Prompts, text: string)
    requires Conserved(p) && Comes(p, q, text)
    ensures Conserved(q) && p.dispatched <= q.dispatched && p.cancelled <= q.cancelled
  {
    AcceptKeeps(p, text);
    AdvanceKeeps(Enqueue(p, Prompt(|p.accepted|, text)));
  }

  lemma MoveConserves(p: Prompts, q: Prompts)
    requires Conserved(p) && Moved(p, q)
    ensures Conserved(q) && p.dispatched <= q.dispatched && p.cancelled <= q.cancelled
  {
    if q == p {
    } else if p.queue != [] && q == Advance(p) {
      AdvanceKeeps(p);
    } else if text :| Comes(p, q, text) {
      ComeKeeps(p, q, text);
    } else {
      var id :| Waits(p, id) && q == Withdraw(p, id);
      WithdrawKeeps(p, id);
    }
  }

  lemma {:induction false} RunConserves(s: State, acts: seq<Act>)
    requires Conserved(s.prompts)
    ensures Conserved(Run(s, acts).prompts)
    ensures s.prompts.dispatched <= Run(s, acts).prompts.dispatched
      && s.prompts.cancelled <= Run(s, acts).prompts.cancelled
  {
    if acts != [] {
      RunConserves(s, acts[..|acts| - 1]);
      var t := Run(s, acts[..|acts| - 1]);
      StepMoves(t, acts[|acts| - 1]);
      MoveConserves(t.prompts, Run(s, acts).prompts);
    }
  }

  ghost predicate OneOf(a: bool, b: bool, c: bool) {
    (a || b || c) && !(a && b) && !(a && c) && !(b && c)
  }

  /**
   * In every run, whatever interleaves: an accepted prompt is in exactly one of dispatched, queued or
   * cancelled, dispatched and queued prompts stand in acceptance order, and none of them was not accepted.
   */
  lemma PromptsConserved(settings: Settings, acts: seq<Act>)
    ensures var p := Run(Init(settings), acts).prompts;
      && (forall q :: q in p.accepted ==> OneOf(q in p.dispatched, q in p.queue, q.id in p.cancelled))
      && Increasing(p.dispatched + p.queue)
      && (forall q :: q in p.dispatched + p.queue ==> q in p.accepted)
  {
    RunConserves(Init(settings), acts);
    var p := Run(Init(settings), acts).prompts;
    RemainingIncreases(p.accepted, p.cancelled);
    var line := p.dispatched + p.queue;
    forall q | q in p.accepted ensures OneOf(q in p.dispatched, q in p.queue, q.id in p.cancelled) {
      RemainingMember(p.accepted, p.cancelled, q);
      NotTwice(p.dispatched, p.queue, q);
    }
    forall q | q in line ensures q in p.accepted { RemainingMember(p.accepted, p.cancelled, q); }
  }

  lemma NotTwice(a: seq<Prompt>, b: seq<Prompt>, q: Prompt)
    requires Increasing(a + b)
    ensures !(q in a && q in b)
  {
    forall i, j | 0 <= i < |a| && 0 <= j < |b| ensures a[i].id < b[j].id {
      assert (a + b)[i] == a[i] && (a + b)[|a| + j] == b[j];
    }
  }

  /** What went out stays out, and what was withdrawn never goes out, however the run goes on. */
  lemma OutcomesStand(settings: Settings, acts: seq<Act>, more: seq<Act>, q: Prompt)
    requires var p := Run(Init(settings), acts).prompts; q in p.accepted && (q in p.dispatched || q.id in p.cancelled)
    ensures var p := Run(Init(settings), acts).prompts;
            var r := Run(Run(Init(settings), acts), more).prompts;
            p.dispatched <= r.dispatched && (q.id in p.cancelled ==> q !in r.dispatched && q !in r.queue)
  {
    RunConserves(Init(settings), acts);
    var s := Run(Init(settings), acts);
    RunConserves(s, more);
    var r := Run(s, more).prompts;
    RemainingMember(r.accepted, r.cancelled, q);
    assert q in r.dispatched || q in r.queue ==> q in r.dispatched + r.queue;
  }

  // ---- Restart ----

  function Boot(s: State, resume: bool, startOk: bool, sendOk: bool): State {
    ResumeCutOff(Recover(s, resume, startOk, sendOk), startOk, sendOk)
  }

  predicate InTurn(s: State) {
    s.thread.status == Running && Registered(s.pool) && s.pool.live[s.pool.current.value].flying
  }

  lemma CutOffRecovers(s: State, resume: bool, startOk: bool, sendOk: bool)
    requires CutOff(s.thread, resume)
    ensures var r := Boot(s, resume, startOk, sendOk);
      && !r.cutOff && !Locked(r) && r.thread.pending == map[]
      && (r.thread.status == Idle || r.thread.status == Error || InTurn(r))
      && r.resumes == s.resumes + (if startOk then 1 else 0) && r.prompts == s.prompts
      && (InTurn(r) <==> sendOk && startOk)
  {
    var t := MarkIdle(Down(s, resume));
    var u := ResumeTurn(t);
    assert u.starting == Some(Starting(None, s.thread.settings, Again, false));
    assert u.pool == Pool(map[], None, s.pool.next);
  }

  /** A turn on the registered session, if that is open and in none. */
  lemma FreshTurn(s: State, id: nat, sendOk: bool)
    requires s.pool.current == Some(id) && id in s.pool.live && !s.pool.live[id].gone && !s.pool.live[id].flying
    ensures var t := StartTurn(s, id, sendOk);
            t == s.(thread := t.thread, pool := t.pool, calls := t.calls) && t.thread.pending == s.thread.pending
            && t.thread.status == (if sendOk then Running else Error) && (InTurn(t) <==> sendOk)
  {
  }

  lemma OtherRecovers(s: State, resume: bool, startOk: bool, sendOk: bool)
    requires !CutOff(s.thread, resume)
    ensures var r := Boot(s, resume, startOk, sendOk);
            var next := startOk && s.prompts.queue != [];
      && !r.cutOff && !Locked(r)
      && (Busy(s.thread) ==>
            r.thread.pending == map[] && (r.thread.status == Idle || r.thread.status == Error || InTurn(r)))
      && r.resumes == s.resumes && r.prompts == (if next then Advance(s.prompts) else s.prompts)
      && (InTurn(r) <==> sendOk && next)
  {
    var t := Down(s, resume);
    var p := Session(t.pool, t.thread.settings, startOk);
    assert p == if startOk then Launch(Pool(map[], None, s.pool.next), s.thread.settings)
      else Pool(map[], None, s.pool.next);
    if startOk && t.prompts.queue != [] {
      FreshTurn(t.(pool := p, prompts := Advance(t.prompts)), s.pool.next, sendOk);
    }
  }

  /**
   * Whatever a crash leaves: a thread that was busy comes up idle, in error or truly running, with no approval
   * pending; it is resumed once, exactly when it was cut off and its session started; and its queue moves only
   * by the oldest prompt going out, which happens exactly when nothing is resumed and a session started.
   */
  lemma RestartRecovers(s: State, resume: bool, startOk: bool, sendOk: bool)
    ensures var r := Boot(s, resume, startOk, sendOk);
            var cut := CutOff(s.thread, resume);
            var next := !cut && startOk && s.prompts.queue != [];
      && !r.cutOff && !Locked(r)
      && (Busy(s.thread) ==>
            r.thread.pending == map[] && (r.thread.status == Idle || r.thread.status == Error || InTurn(r)))
      && r.resumes == s.resumes + (if cut && startOk then 1 else 0)
      && r.prompts == (if next then Advance(s.prompts) else s.prompts)
      && (InTurn(r) <==> sendOk && startOk && (cut || s.prompts.queue != []))
  {
    if CutOff(s.thread, resume) { CutOffRecovers(s, resume, startOk, sendOk); }
    else { OtherRecovers(s, resume, startOk, sendOk); }
  }

  /**
   * The app does not come up exactly if a thread that is not left to be resumed has a prompt waiting, and recovery does
   * not end with it in a turn.
   */
  lemma RecoveryFails(s: State, resume: bool, startOk: bool, sendOk: bool)
    ensures RecoverFails(s, resume, startOk, sendOk) <==>
            s.prompts.queue != [] && !InTurn(Recover(s, resume, startOk, sendOk))
            && !((s.thread.status == Running || s.thread.status == Awaiting) && resume && s.thread.bound)
  {
    if !CutOff(s.thread, resume) && s.prompts.queue != [] {
      OtherRecovers(s, resume, startOk, sendOk);
      assert !Recover(s, resume, startOk, sendOk).cutOff;
    }
  }
}
