/** What a thread's row says of what happened: how its turns ended, what became of its sessions, which settings hold. */
module Outcomes {
  import opened Domain
  import opened Protocol
  import opened ProtocolSafety

  // ---- Reports, and what the pump has read of them ----

  predicate Heeded(s: State, a: Act) {
    a.Reports? && a.session in s.pool.live && Allowed(s.pool.live[a.session], a.report)
  }

  /** The ends of turns that the session reported, in order: whether each had failed. */
  function Ends(settings: Settings, acts: seq<Act>, id: nat): seq<bool> {
    if acts == [] then []
    else
      var init, last := acts[..|acts| - 1], acts[|acts| - 1];
      Ends(settings, init, id) + EndsIn(Run(Init(settings), init), last, id)
  }

  function EndsIn(s: State, a: Act, id: nat): seq<bool> {
    if Heeded(s, a) && a.session == id && a.report.Completed? then [a.report.failed] else []
  }

  /** The session's own process ended with an error. */
  ghost predicate Died(settings: Settings, acts: seq<Act>, id: nat) {
    exists k ::
      0 <= k < |acts| && acts[k] == Reports(id, Closed(true)) && Heeded(Run(Init(settings), acts[..k]), acts[k])
  }

  /** The ends of turns not read yet. */
  function Unread(inbox: seq<Report>): seq<bool> {
    if inbox == [] then []
    else (if inbox[0].Completed? then [inbox[0].failed] else []) + Unread(inbox[1..])
  }

  lemma {:induction false} UnreadAppend(inbox: seq<Report>, r: Report)
    ensures Unread(inbox + [r]) == Unread(inbox) + if r.Completed? then [r.failed] else []
    decreases |inbox|
  {
    if inbox == [] {
      assert inbox + [r] == [r] && [r][1..] == [];
    } else {
      assert (inbox + [r])[0] == inbox[0] && (inbox + [r])[1..] == inbox[1..] + [r];
      UnreadAppend(inbox[1..], r);
    }
  }

  // ---- One session through one step ----

  /** What a step that is neither its report nor the reading of it can do to a session. */
  predicate Apart(l: Live, m: Live) {
    && (m.ending == l.ending || m.ending == None)
    && (m.inbox == l.inbox || (!l.gone && m.gone && m.inbox == l.inbox + [Closed(false)]))
    && (m.inbox == l.inbox ==> m.gone == l.gone)
    && (m.closing == l.closing)
  }

  ghost predicate Young(p: Pool) {
    forall id :: id in p.live ==> id < p.next
  }

  lemma CloseApart(p: Pool, id: nat)
    requires id in p.live
    ensures id in CloseSession(p).live && Apart(p.live[id], CloseSession(p).live[id])
    ensures id in Looked(p).live && Apart(p.live[id], Looked(p).live[id])
    ensures CloseSession(p).next == p.next && CloseSession(p).live.Keys == p.live.Keys
    ensures Looked(p).next == p.next && Looked(p).live.Keys == p.live.Keys
  {
  }

  lemma ApartTwice(l: Live, m: Live, n: Live)
    requires Apart(l, m) && Apart(m, n)
    ensures Apart(l, n)
  {
  }

  lemma EndApart(s: State, other: nat, id: nat)
    requires CanEnd(s, other) && id in s.pool.live
    ensures id in EndTurn(s, other).pool.live && Apart(s.pool.live[id], EndTurn(s, other).pool.live[id])
    ensures EndTurn(s, other).pool.live.Keys == s.pool.live.Keys && EndTurn(s, other).pool.next == s.pool.next
  {
    var p := Landed(s, other).pool;
    assert id in p.live && Apart(s.pool.live[id], p.live[id]);
    CloseApart(p, id);
    ApartTwice(s.pool.live[id], p.live[id], Looked(p).live[id]);
  }

  lemma OpenApart(p: Pool, found: Option<nat>, config: Settings, startOk: bool)
    requires Young(p)
    ensures var o := Open(p, found, config, startOk);
      && Young(o) && (o.next == p.next || o.next == p.next + 1)
      && (forall id :: id in p.live ==> id in o.live && o.live[id] == p.live[id])
      && (forall id :: id in o.live && id !in p.live ==>
            id == p.next && o.live[id].inbox == [] && o.live[id].ending == None && o.live[id].closing == Serving
            && !o.live[id].gone)
  {
  }

  lemma FreedApart(s: State)
    requires Locked(s)
    ensures var p := Freed(s).pool;
            p.next == s.pool.next && p.live.Keys == s.pool.live.Keys
    ensures forall id :: id in s.pool.live ==> Apart(s.pool.live[id], Freed(s).pool.live[id])
  {
  }

  lemma WrittenApart(s: State, id: nat)
    requires id in s.pool.live
    ensures var p := WrittenDown(s, id).pool; p.next == s.pool.next && p.live.Keys == s.pool.live.Keys
    ensures forall other :: other in s.pool.live ==>
      Apart(s.pool.live[other], WrittenDown(s, id).pool.live[other])
  {
  }

  lemma EntryApart(s: State, chosen: Option<nat>)
    requires Locked(s)
    ensures var p := Entry(s, chosen).pool; p.next == s.pool.next && p.live.Keys == s.pool.live.Keys
    ensures forall id :: id in s.pool.live ==> Apart(s.pool.live[id], Entry(s, chosen).pool.live[id])
  {
    var st := s.starting.value;
    if chosen == None || chosen.value !in s.pool.live {
      assert Without(s, st.task).pool == s.pool && Without(s, st.task).starting == s.starting;
      FreedApart(Without(s, st.task));
    } else if !Calls(s.prompts, st.task) {
      FreedApart(s);
    } else {
      var started := Some(st.(session := chosen, entered := true));
      WrittenApart(s.(prompts := Handed(s.prompts, st.task), starting := started), chosen.value);
    }
  }

  /** A turn that is written down has a session, if need be a new one. */
  lemma EnterApart(s: State, startOk: bool)
    requires Locked(s) && Young(s.pool)
    ensures var p := Enter(s, startOk).pool;
      && Young(p) && (p.next == s.pool.next || p.next == s.pool.next + 1)
      && (forall id :: id in s.pool.live ==> id in p.live && Apart(s.pool.live[id], p.live[id]))
      && (forall id :: id in p.live && id !in s.pool.live ==>
            id == s.pool.next && p.live[id].inbox == [] && p.live[id].ending == None && p.live[id].closing == Serving
            && !p.live[id].gone)
  {
    var u := Opened(s, startOk);
    OpenApart(s.pool, s.starting.value.session, s.starting.value.settings, startOk);
    EntryApart(u, Chosen(u.pool, s.starting.value.session));
  }

  lemma DeliverApart(s: State, sendOk: bool, id: nat)
    requires Calling(s) && id in s.pool.live
    ensures id in Deliver(s, sendOk).pool.live && Apart(s.pool.live[id], Deliver(s, sendOk).pool.live[id])
  {
  }

  /** The acts in which the session itself, or its pump, has a part. */
  predicate Owns(a: Act, id: nat) {
    (a.Reports? || a.Pumped? || a.Judged? || a.Written?) && a.session == id
  }

  lemma PumpApart(s: State, a: Act, id: nat)
    requires (a.Reports? || a.Pumped? || a.Judged? || a.Written?) && a.session != id && id in s.pool.live
    ensures id in Step(s, a).pool.live && Step(s, a).pool.live[id] == s.pool.live[id]
  {
  }

  /** A change of settings closes the session, or marks it. */
  lemma SettingsPool(s: State, to: Settings, pushed: bool)
    ensures var p := SetSettings(s, to, pushed).pool;
      || p == s.pool || p == CloseSession(s.pool)
      || (Registered(s.pool)
          && p == Put(s.pool, s.pool.current.value,
                      Adjusted(s.pool.live[s.pool.current.value], s.thread.settings, to, pushed)))
  {
  }

  lemma SettingsApart(s: State, to: Settings, pushed: bool, id: nat)
    requires id in s.pool.live
    ensures var p := SetSettings(s, to, pushed).pool; id in p.live && Apart(s.pool.live[id], p.live[id])
  {
    CloseApart(s.pool, id);
    SettingsPool(s, to, pushed);
  }

  lemma CommandApart(s: State, a: Act, id: nat)
    requires Command(a) || a.Resumed? || a.Marked?
    requires id in s.pool.live
    ensures var p := Step(s, a).pool;
      && p.next == s.pool.next && p.live.Keys == s.pool.live.Keys
      && Apart(s.pool.live[id], p.live[id])
  {
    CloseApart(s.pool, id);
    CommandPool(s, a);
  }

  /** A command looks the session up, or closes it, or leaves the sessions alone. */
  lemma CommandPool(s: State, a: Act)
    requires Command(a) || a.Resumed? || a.Marked?
    ensures var p := Step(s, a).pool; p == s.pool || p == Looked(s.pool) || p == CloseSession(s.pool)
  {
  }

  predicate SameSessions(p: Pool, q: Pool) {
    q.next == p.next && q.live.Keys == p.live.Keys
  }

  lemma ClosingSame(p: Pool)
    ensures SameSessions(p, Looked(p)) && SameSessions(p, CloseSession(p))
  {
  }

  lemma OwnSame(s: State, a: Act)
    requires a.Reports? || a.Pumped? || a.Judged? || a.Written?
    ensures SameSessions(s.pool, Step(s, a).pool)
  {
  }

  lemma DeliverSame(s: State, sendOk: bool)
    requires Calling(s)
    ensures SameSessions(s.pool, Deliver(s, sendOk).pool)
  {
    FreedApart(s);
  }

  lemma EndSame(s: State, id: nat)
    requires CanEnd(s, id)
    ensures SameSessions(s.pool, EndTurn(s, id).pool)
  {
    ClosingSame(Landed(s, id).pool);
  }

  /** The other steps neither open a session nor forget one. */
  lemma NoneOpened(s: State, a: Act)
    requires !a.Entered? && !a.Restarted?
    ensures SameSessions(s.pool, Step(s, a).pool)
  {
    ClosingSame(s.pool);
    if Command(a) || a.Resumed? || a.Marked? { CommandPool(s, a); }
    else if a.Configured? { SettingsPool(s, a.to, a.pushed); }
    else if a.Called? { if Calling(s) { DeliverSame(s, a.sendOk); } }
    else if a.Ended? { if CanEnd(s, a.session) { EndSame(s, a.session); } }
    else { OwnSame(s, a); }
  }

  /** All else leaves a session's reports alone, but that it may be closed, and its turn's end be handled. */
  lemma OthersApart(s: State, a: Act, id: nat)
    requires Young(s.pool) && id in s.pool.live && id in Step(s, a).pool.live && !Owns(a, id)
    ensures Apart(s.pool.live[id], Step(s, a).pool.live[id])
  {
    match a
    case Reports(_, _) => PumpApart(s, a, id);
    case Pumped(_, _) => PumpApart(s, a, id);
    case Judged(_) => PumpApart(s, a, id);
    case Written(_) => PumpApart(s, a, id);
    case Ended(other) => if CanEnd(s, other) { EndApart(s, other, id); }
    case Entered(startOk) => if Entering(s) { EnterApart(s, startOk); }
    case Configured(to, pushed) => SettingsApart(s, to, pushed, id);
    case Called(sendOk) => if Calling(s) { DeliverApart(s, sendOk, id); }
    case Restarted(resume, startOk, sendOk) => RestartPool(s, resume, startOk, sendOk);
    case _ => CommandApart(s, a, id);
  }

  /** A restart forgets every session and opens one at most. */
  lemma RestartPool(s: State, resume: bool, startOk: bool, sendOk: bool)
    ensures var p := Recover(s, resume, startOk, sendOk).pool;
      && (p.next == s.pool.next || p.next == s.pool.next + 1)
      && (forall id :: id in p.live ==>
            id == s.pool.next && id < p.next && p.live[id].inbox == [] && p.live[id].ending == None
            && p.live[id].closing == Serving && !p.live[id].gone)
  {
  }

  lemma NewSession(s: State, a: Act, id: nat)
    requires Young(s.pool) && id !in s.pool.live && id in Step(s, a).pool.live
    ensures id == s.pool.next
    ensures var l := Step(s, a).pool.live[id]; l.inbox == [] && l.ending == None && l.closing == Serving && !l.gone
  {
    match a
    case Entered(startOk) => if Entering(s) { EnterApart(s, startOk); }
    case Restarted(resume, startOk, sendOk) => RestartPool(s, resume, startOk, sendOk);
    case _ => NoneOpened(s, a);
  }

  lemma StaysYoung(s: State, a: Act)
    requires Young(s.pool)
    ensures Young(Step(s, a).pool) && s.pool.next <= Step(s, a).pool.next
    ensures forall id :: id in Step(s, a).pool.live ==> id in s.pool.live || id == s.pool.next
  {
    match a
    case Entered(startOk) => if Entering(s) { EnterApart(s, startOk); }
    case Restarted(resume, startOk, sendOk) => RestartPool(s, resume, startOk, sendOk);
    case _ => NoneOpened(s, a);
  }

  // ---- What a session's state says of its reports ----

  /** The report of the end, if it is there, is the process's own or the app's. */
  predicate ClosedAs(inbox: seq<Report>, died: bool) {
    forall i :: 0 <= i < |inbox| && inbox[i].Closed? ==> inbox[i].err == died
  }

  predicate HasClosed(inbox: seq<Report>) {
    exists i :: 0 <= i < |inbox| && inbox[i].Closed?
  }

  /** The ends not read yet are the last ones. */
  predicate Behind(ends: seq<bool>, waiting: seq<bool>) {
    |waiting| <= |ends| && ends[|ends| - |waiting|..] == waiting
  }

  /** The end the pump holds is the one before those that wait. */
  predicate Holds(ends: seq<bool>, waiting: nat, ending: Option<bool>) {
    ending.Some? ==> waiting < |ends| && ending.value == ends[|ends| - waiting - 1]
  }

  ghost predicate ClosingTold(l: Live, died: bool) {
    && (!l.gone ==> !died && l.closing == Serving && !HasClosed(l.inbox))
    && ClosedAs(l.inbox, died)
    && (l.closing.Unlisted? ==> l.closing.err == died)
    && (l.closing.Ruled? ==> (l.closing.write == Some(Error) <==> died))
  }

  ghost predicate Told(l: Live, ends: seq<bool>, died: bool) {
    Behind(ends, Unread(l.inbox)) && Holds(ends, |Unread(l.inbox)|, l.ending) && ClosingTold(l, died)
  }

  lemma ApartTold(l: Live, m: Live, ends: seq<bool>, died: bool)
    requires Told(l, ends, died) && Apart(l, m)
    ensures Told(m, ends, died)
  {
    UnreadAppend(l.inbox, Closed(false));
    assert Unread(l.inbox) + [] == Unread(l.inbox);
  }

  lemma MoreBehind(ends: seq<bool>, waiting: seq<bool>, more: seq<bool>, ending: Option<bool>)
    requires Behind(ends, waiting) && Holds(ends, |waiting|, ending)
    ensures Behind(ends + more, waiting + more) && Holds(ends + more, |waiting + more|, ending)
  {
    assert (ends + more)[|ends| - |waiting|..] == ends[|ends| - |waiting|..] + more;
  }

  lemma ReportTold(l: Live, r: Report, ends: seq<bool>, died: bool)
    requires Told(l, ends, died) && Allowed(l, r)
    ensures Told(Reported(l, r), ends + (if r.Completed? then [r.failed] else []), died || r == Closed(true))
  {
    var more := if r.Completed? then [r.failed] else [];
    UnreadAppend(l.inbox, r);
    MoreBehind(ends, Unread(l.inbox), more, l.ending);
    assert forall i :: 0 <= i < |l.inbox| ==> (l.inbox + [r])[i] == l.inbox[i];
  }

  lemma UnreadTail(inbox: seq<Report>)
    requires inbox != []
    ensures var waiting := Unread(inbox);
            if inbox[0].Completed? then waiting == [inbox[0].failed] + Unread(inbox[1..])
            else waiting == Unread(inbox[1..])
  {
  }

  lemma ClosedTail(inbox: seq<Report>, died: bool)
    requires inbox != [] && ClosedAs(inbox, died) && !inbox[0].Closed?
    ensures ClosedAs(inbox[1..], died) && (HasClosed(inbox[1..]) ==> HasClosed(inbox))
  {
    assert forall i :: 0 <= i < |inbox[1..]| ==> inbox[1..][i] == inbox[i + 1];
  }

  lemma FirstRead(ends: seq<bool>, first: bool, rest: seq<bool>)
    requires Behind(ends, [first] + rest)
    ensures Behind(ends, rest) && Holds(ends, |rest|, Some(first))
  {
    assert ends[|ends| - |rest| - 1..][0] == first;
    assert ends[|ends| - |rest| - 1..][1..] == rest;
  }

  lemma ReadClosing(l: Live, died: bool)
    requires ClosingTold(l, died) && l.inbox != [] && !l.inbox[0].Closed?
    ensures ClosingTold(Read(l), died)
  {
    ClosedTail(l.inbox, died);
  }

  lemma ReadTold(l: Live, ends: seq<bool>, died: bool)
    requires Told(l, ends, died) && l.inbox != [] && !l.inbox[0].Closed? && l.ending == None
    ensures Told(Read(l), ends, died)
  {
    UnreadTail(l.inbox);
    ReadClosing(l, died);
    if l.inbox[0].Completed? { FirstRead(ends, l.inbox[0].failed, Unread(l.inbox[1..])); }
  }

  lemma UnlistTold(s: State, id: nat, ends: seq<bool>, died: bool)
    requires CanPump(s.pool, id) && Told(s.pool.live[id], ends, died) && s.pool.live[id].inbox[0].Closed?
    ensures Told(Unlist(s, id, s.pool.live[id].inbox[0].err).pool.live[id], ends, died)
  {
  }

  lemma PumpTold(s: State, id: nat, resolveOk: bool, ends: seq<bool>, died: bool)
    requires CanPump(s.pool, id) && Told(s.pool.live[id], ends, died)
    ensures Told(Pump(s, id, resolveOk).pool.live[id], ends, died)
  {
    var l := s.pool.live[id];
    if l.inbox[0].Closed? { UnlistTold(s, id, ends, died); } else { ReadTold(l, ends, died); }
  }

  lemma JudgeTold(s: State, id: nat, ends: seq<bool>, died: bool)
    requires CanJudge(s.pool, id) && Told(s.pool.live[id], ends, died)
    ensures Told(Judge(s, id).pool.live[id], ends, died)
  {
  }

  lemma WriteTold(s: State, id: nat, ends: seq<bool>, died: bool)
    requires CanWrite(s.pool, id) && Told(s.pool.live[id], ends, died)
    ensures Told(Write(s, id).pool.live[id], ends, died)
  {
  }

  lemma ReportStep(s: State, id: nat, r: Report, ends: seq<bool>, died: bool)
    requires id in s.pool.live && Told(s.pool.live[id], ends, died)
    ensures var a := Reports(id, r);
            id in Step(s, a).pool.live
            && Told(Step(s, a).pool.live[id], ends + EndsIn(s, a, id),
                    died || (Heeded(s, a) && a == Reports(id, Closed(true))))
  {
    assert ends + [] == ends;
    if Heeded(s, Reports(id, r)) { ReportTold(s.pool.live[id], r, ends, died); }
  }

  /** The pump's own steps; no end of a turn is reported in them. */
  lemma ReadingStep(s: State, a: Act, id: nat, ends: seq<bool>, died: bool)
    requires id in s.pool.live && Told(s.pool.live[id], ends, died) && Owns(a, id) && !a.Reports?
    ensures id in Step(s, a).pool.live && Told(Step(s, a).pool.live[id], ends, died)
  {
    match a
    case Pumped(_, resolveOk) => if CanPump(s.pool, id) { PumpTold(s, id, resolveOk, ends, died); }
    case Judged(_) => if CanJudge(s.pool, id) { JudgeTold(s, id, ends, died); }
    case Written(_) => if CanWrite(s.pool, id) { WriteTold(s, id, ends, died); }
  }

  lemma OwnTold(s: State, a: Act, id: nat, ends: seq<bool>, died: bool)
    requires id in s.pool.live && Told(s.pool.live[id], ends, died) && Owns(a, id)
    ensures id in Step(s, a).pool.live
    ensures Told(Step(s, a).pool.live[id], ends + EndsIn(s, a, id),
                 died || (Heeded(s, a) && a == Reports(id, Closed(true))))
  {
    if a.Reports? {
      ReportStep(s, id, a.report, ends, died);
    } else {
      ReadingStep(s, a, id, ends, died);
      assert ends + [] == ends;
    }
  }

  lemma DiedNext(settings: Settings, acts: seq<Act>, id: nat)
    requires acts != []
    ensures var init, last := acts[..|acts| - 1], acts[|acts| - 1];
            Died(settings, acts, id) <==>
              Died(settings, init, id) || (Heeded(Run(Init(settings), init), last) && last == Reports(id, Closed(true)))
  {
    var n := |acts| - 1;
    forall k | 0 <= k < n ensures acts[..n][..k] == acts[..k] {}
    if k :| 0 <= k < n && acts[k] == Reports(id, Closed(true)) && Heeded(Run(Init(settings), acts[..k]), acts[k]) {
      assert acts[..n][k] == acts[k] && Heeded(Run(Init(settings), acts[..n][..k]), acts[..n][k]);
    }
    if k :| 0 <= k < n && acts[..n][k] == Reports(id, Closed(true))
             && Heeded(Run(Init(settings), acts[..n][..k]), acts[..n][k]) {
      assert acts[k] == Reports(id, Closed(true)) && Heeded(Run(Init(settings), acts[..k]), acts[k]);
    }
  }

  /** A session there is was told so far, and one still to come has reported nothing. */
  ghost predicate ToldIn(s: State, id: nat, ends: seq<bool>, died: bool) {
    && Young(s.pool)
    && (id >= s.pool.next ==> ends == [] && !died)
    && (id in s.pool.live ==> Told(s.pool.live[id], ends, died))
  }

  lemma StepTold(s: State, a: Act, id: nat, ends: seq<bool>, died: bool)
    requires ToldIn(s, id, ends, died)
    ensures ToldIn(Step(s, a), id, ends + EndsIn(s, a, id),
                   died || (Heeded(s, a) && a == Reports(id, Closed(true))))
  {
    StaysYoung(s, a);
    assert ends + [] == ends;
    if id !in s.pool.live {
      if id in Step(s, a).pool.live { NewSession(s, a, id); }
    } else if Owns(a, id) {
      OwnTold(s, a, id, ends, died);
    } else if id in Step(s, a).pool.live {
      OthersApart(s, a, id);
      ApartTold(s.pool.live[id], Step(s, a).pool.live[id], ends, died);
    }
  }

  /** Over any run, hazards or not: a session's state says of its reports what they were. */
  lemma {:induction false} RunTold(settings: Settings, acts: seq<Act>, id: nat)
    ensures ToldIn(Run(Init(settings), acts), id, Ends(settings, acts, id), Died(settings, acts, id))
  {
    if acts != [] {
      var init := acts[..|acts| - 1];
      RunTold(settings, init, id);
      StepTold(Run(Init(settings), init), acts[|acts| - 1], id, Ends(settings, init, id), Died(settings, init, id));
      DiedNext(settings, acts, id);
    }
  }

  // ---- How a turn ends ----

  lemma RunNext(settings: Settings, acts: seq<Act>, a: Act)
    ensures Run(Init(settings), acts + [a]) == Step(Run(Init(settings), acts), a)
  {
    assert (acts + [a])[..|acts|] == acts;
  }

  lemma EndStep(s: State, t: State, id: nat)
    requires CanEnd(s, id) && s.prompts.queue == [] && t == Step(s, Act.Ended(id))
    ensures t.thread.status == if s.pool.live[id].ending.value then Error else Idle
  {
  }

  /** The status says how the turn ended whose end is the last of `ends` but for those that wait. */
  predicate EndsAs(ends: seq<bool>, waiting: nat, status: ThreadStatus) {
    waiting < |ends| && status == if ends[|ends| - waiting - 1] then Error else Idle
  }

  lemma EndStatus(s: State, t: State, id: nat, ends: seq<bool>, died: bool)
    requires ToldIn(s, id, ends, died)
    requires CanEnd(s, id) && s.prompts.queue == [] && t == Step(s, Act.Ended(id))
    ensures EndsAs(ends, |Unread(s.pool.live[id].inbox)|, t.thread.status)
  {
    EndStep(s, t, id);
  }

  /**
   * Once the end of a turn is taken with no prompt waiting, the status is what the session reported of that turn: in
   * error if and only if it had failed, idle otherwise. It is the last end reported, but for those still to be read.
   */
  lemma TurnEndsAsReported(settings: Settings, acts: seq<Act>, id: nat)
    requires var s := Run(Init(settings), acts); CanEnd(s, id) && s.prompts.queue == []
    ensures EndsAs(Ends(settings, acts, id), |Unread(Run(Init(settings), acts).pool.live[id].inbox)|,
                   Run(Init(settings), acts + [Act.Ended(id)]).thread.status)
  {
    RunTold(settings, acts, id);
    RunNext(settings, acts, Act.Ended(id));
    EndStatus(Run(Init(settings), acts), Run(Init(settings), acts + [Act.Ended(id)]), id,
              Ends(settings, acts, id), Died(settings, acts, id));
  }

  lemma NoneWaiting(inbox: seq<Report>)
    requires forall i :: 0 <= i < |inbox| ==> !inbox[i].Completed?
    ensures Unread(inbox) == []
  {
  }

  lemma QuietEnd(s: State, id: nat)
    requires Inv(s) && CanEnd(s, id)
    ensures Unread(s.pool.live[id].inbox) == []
  {
    assert Contract(s.pool.live[id]) && Quiet(s.pool.live[id].inbox);
    NoneWaiting(s.pool.live[id].inbox);
  }

  /** In a run without hazards it is the last end reported. */
  lemma LastEndCounts(settings: Settings, acts: seq<Act>, id: nat)
    requires forall k :: 0 <= k < |acts| ==> !HazardAt(Init(settings), acts, k)
    requires var s := Run(Init(settings), acts); CanEnd(s, id) && s.prompts.queue == []
    ensures EndsAs(Ends(settings, acts, id), 0, Run(Init(settings), acts + [Act.Ended(id)]).thread.status)
  {
    InvUntilHazard(settings, acts, |acts|);
    assert acts[..|acts|] == acts;
    QuietEnd(Run(Init(settings), acts), id);
    TurnEndsAsReported(settings, acts, id);
  }

  // ---- What the pump of a closed session writes ----

  /** In step `k` the pump reads the session's last report; `current`: the session is the registered one. */
  ghost predicate UnlistsAt(settings: Settings, acts: seq<Act>, id: nat, k: nat, current: bool)
    requires k < |acts|
  {
    var was := Run(Init(settings), acts[..k]);
    && acts[k].Pumped? && acts[k].session == id && CanPump(was.pool, id) && was.pool.live[id].inbox[0].Closed?
    && (current <==> was.pool.current == Some(id))
  }

  /** In step `k` it reads the status, and decides what to write. */
  ghost predicate JudgesAt(settings: Settings, acts: seq<Act>, id: nat, k: nat, err: bool, current: bool,
                           write: Option<ThreadStatus>)
    requires k < |acts|
  {
    var was := Run(Init(settings), acts[..k]);
    && acts[k] == Judged(id) && CanJudge(was.pool, id) && was.pool.live[id].closing == Unlisted(err, current)
    && write == if err then Some(Error)
                else if was.thread.status == Idle || (Busy(was.thread) && !current) then None
                else Some(Idle)
  }

  lemma ClosingNext(s: State, a: Act, id: nat)
    requires Young(s.pool) && id in Step(s, a).pool.live
    ensures var now := Step(s, a).pool.live[id].closing;
      || now == Serving
      || (id in s.pool.live && now == s.pool.live[id].closing)
      || (a.Pumped? && a.session == id && CanPump(s.pool, id) && s.pool.live[id].inbox[0].Closed?
          && now == Unlisted(s.pool.live[id].inbox[0].err, s.pool.current == Some(id)))
      || (a == Judged(id) && CanJudge(s.pool, id)
          && now == Ruled(if s.pool.live[id].closing.err then Some(Error)
                          else if s.thread.status == Idle || (Busy(s.thread) && !s.pool.live[id].closing.current)
                          then None else Some(Idle)))
      || now == Over
  {
    if id !in s.pool.live {
      NewSession(s, a, id);
    } else if !Owns(a, id) {
      OthersApart(s, a, id);
    }
  }

  lemma UnlistsStill(settings: Settings, acts: seq<Act>, n: nat, id: nat, k: nat, current: bool)
    requires k < n <= |acts| && UnlistsAt(settings, acts[..n], id, k, current)
    ensures UnlistsAt(settings, acts, id, k, current)
  {
    assert acts[..n][..k] == acts[..k];
  }

  lemma JudgesStill(settings: Settings, acts: seq<Act>, n: nat, id: nat, k: nat, err: bool, current: bool,
                    write: Option<ThreadStatus>)
    requires k < n <= |acts| && JudgesAt(settings, acts[..n], id, k, err, current, write)
    ensures JudgesAt(settings, acts, id, k, err, current, write)
  {
    assert acts[..n][..k] == acts[..k];
  }

  lemma {:induction false} UnlistedBefore(settings: Settings, acts: seq<Act>, id: nat, err: bool, current: bool)
    returns (k: nat)
    requires id in Run(Init(settings), acts).pool.live
    requires Run(Init(settings), acts).pool.live[id].closing == Unlisted(err, current)
    ensures k < |acts| && UnlistsAt(settings, acts, id, k, current)
  {
    var n := |acts| - 1;
    var s := Run(Init(settings), acts[..n]);
    RunTold(settings, acts[..n], id);
    ClosingNext(s, acts[n], id);
    if id in s.pool.live && s.pool.live[id].closing == Unlisted(err, current) {
      k := UnlistedBefore(settings, acts[..n], id, err, current);
      UnlistsStill(settings, acts, n, id, k, current);
    } else {
      k := n;
    }
  }

  lemma {:induction false} RuledBefore(settings: Settings, acts: seq<Act>, id: nat, write: Option<ThreadStatus>)
    returns (k: nat, err: bool, current: bool)
    requires id in Run(Init(settings), acts).pool.live
    requires Run(Init(settings), acts).pool.live[id].closing == Ruled(write)
    ensures k < |acts| && JudgesAt(settings, acts, id, k, err, current, write)
  {
    var n := |acts| - 1;
    var s := Run(Init(settings), acts[..n]);
    RunTold(settings, acts[..n], id);
    ClosingNext(s, acts[n], id);
    if id in s.pool.live && s.pool.live[id].closing == Ruled(write) {
      k, err, current := RuledBefore(settings, acts[..n], id, write);
      JudgesStill(settings, acts, n, id, k, err, current, write);
    } else {
      k, err, current := n, s.pool.live[id].closing.err, s.pool.live[id].closing.current;
    }
  }

  /** What is written, and a note with an error. */
  lemma WrittenStatus(s: State, id: nat)
    requires CanWrite(s.pool, id)
    ensures var write, t := s.pool.live[id].closing.write, Step(s, Written(id)).thread;
      && t.status == (if write == None then s.thread.status else write.value)
      && t.items == s.thread.items + if write == Some(Error) then 1 else 0
  {
  }

  /** The status that stands after such a pump, when `found` was the thread it read. */
  function Left(died: bool, found: ThreadStatus, current: bool, status: ThreadStatus): ThreadStatus {
    if died then Error
    else if found == Idle || ((found == Running || found == Awaiting) && !current) then status
    else Idle
  }

  /**
   * The status a closed session's pump leaves, over any run: in error, with a note, if and only if the session's
   * process ended with an error; otherwise the status stands if the pump found it idle, or found a turn that could not
   * be this session's, because another was registered when it read the end; and else the thread goes idle.
   */
  lemma ClosesAsItDied(settings: Settings, acts: seq<Act>, id: nat) returns (j: nat, k: nat, current: bool)
    requires CanWrite(Run(Init(settings), acts).pool, id)
    ensures j < k < |acts| && UnlistsAt(settings, acts, id, j, current) && acts[k] == Judged(id)
    ensures var s := Run(Init(settings), acts).thread;
            var t := Run(Init(settings), acts + [Act.Written(id)]).thread;
            var found := Run(Init(settings), acts[..k]).thread;
      && t.status == Left(Died(settings, acts, id), found.status, current, s.status)
      && t.items == s.items + if Died(settings, acts, id) then 1 else 0
  {
    var s := Run(Init(settings), acts);
    var write := s.pool.live[id].closing.write;
    RunTold(settings, acts, id);
    assert write == Some(Error) <==> Died(settings, acts, id);
    var err;
    k, err, current := RuledBefore(settings, acts, id, write);
    j := UnlistedBefore(settings, acts[..k], id, err, current);
    UnlistsStill(settings, acts, k, id, j, current);
    RunNext(settings, acts, Act.Written(id));
    WrittenStatus(s, id);
  }

  // ---- What else writes the row ----

  /** The session a turn that is taken up goes to is there. */
  predicate SessionThere(s: State) {
    s.starting.Some? && s.starting.value.session.Some? ==> s.starting.value.session.value in s.pool.live
  }

  /** There is a session to call, found, registered meanwhile or started now. */
  predicate HasSession(s: State, startOk: bool)
    requires Locked(s)
  {
    s.starting.value.session.Some? || Registered(s.pool) || startOk
  }

  /** The turn is written down for a session. */
  predicate Begins(s: State, a: Act) {
    a.Entered? && Entering(s) && HasSession(s, a.startOk)
    && match s.starting.value.task
       case Next(_) => s.prompts.queue != []
       case Fold(able) => able
       case _ => true
  }

  predicate Refused(s: State, a: Act) {
    a.Called? && Calling(s) && (!a.sendOk || s.pool.live[s.starting.value.session.value].gone)
  }

  /** A crash found the thread busy, and it is not left to be resumed. */
  predicate FoundBusy(s: State, a: Act) {
    a.Restarted? && (s.thread.status == Running || s.thread.status == Awaiting) && !(a.resume && s.thread.bound)
  }

  /** A restart starts the oldest prompt, with no turn to resume. */
  predicate StartsQueued(s: State, a: Act) {
    a.Restarted? && s.prompts.queue != [] && a.startOk
    && !((s.thread.status == Running || s.thread.status == Awaiting) && a.resume && s.thread.bound)
  }

  /** The pump reads a report that is not the session's last. */
  predicate Reads(s: State, a: Act) {
    a.Pumped? && CanPump(s.pool, a.session) && !s.pool.live[a.session].inbox[0].Closed?
  }

  function ReadIn(s: State, a: Act): Report
    requires Reads(s, a)
  {
    s.pool.live[a.session].inbox[0]
  }

  predicate AsksIn(s: State, a: Act) {
    Reads(s, a) && ReadIn(s, a).Asked? && !(ReadIn(s, a).key in s.thread.rules && a.resolveOk)
  }

  predicate AnsweredIn(s: State, a: Act) {
    a.Answered? && a.approval in s.thread.pending && s.pool.current.Some? && a.resolveOk
  }

  /** The status a step writes, if any. */
  function StatusIn(s: State, a: Act): Option<ThreadStatus> {
    match a
    case Interrupted => if s.pool.current == None then Some(Idle) else None
    case Answered(_, _, _) => if AnsweredIn(s, a) && s.thread.status == Awaiting then Some(Running) else None
    case Pumped(_, _) =>
      if AsksIn(s, a) then Some(Awaiting)
      else if Reads(s, a) && ReadIn(s, a).TurnStarted? then Some(Running)
      else None
    case Written(id) => if CanWrite(s.pool, id) then s.pool.live[id].closing.write else None
    case Ended(id) =>
      if CanEnd(s, id) && s.prompts.queue == []
      then Some(if s.pool.live[id].ending.value then Error else Idle) else None
    case Entered(startOk) =>
      if Begins(s, a) then Some(Running)
      else if Entering(s) && !HasSession(s, startOk) && s.starting.value.task.Next? then Some(Error)
      else None
    case Called(_) => if Refused(s, a) then Some(Error) else None
    case Restarted(_, _, sendOk) =>
      if StartsQueued(s, a) then Some(if sendOk then Running else Error)
      else if FoundBusy(s, a) then Some(Idle)
      else None
    case Marked => if s.cutOff then Some(Idle) else None
    case _ => None
  }

  function PendingIn(s: State, a: Act): map<Id, string> {
    var was := s.thread.pending;
    if AnsweredIn(s, a) then was - {a.approval}
    else if AsksIn(s, a) then was[ReadIn(s, a).approval := ReadIn(s, a).key]
    else if Reads(s, a) && ReadIn(s, a).Asked? then was - {ReadIn(s, a).approval}
    else if (a.Ended? && CanEnd(s, a.session)) || (a == Marked && s.cutOff) || FoundBusy(s, a) then map[]
    else was
  }

  /** A change that is accepted: another agent is refused once there is a transcript. */
  predicate Accepts(s: State, a: Act) {
    a.Configured? && (a.to.agent == s.thread.settings.agent || s.thread.items == 0)
  }

  predicate Cuts(s: State, a: Act) {
    a.Settled? && !Locked(s) && s.thread.status != Running && s.thread.status != Awaiting
  }

  function BoundIn(s: State, a: Act): bool {
    if Accepts(s, a) then s.thread.bound && a.to.agent == s.thread.settings.agent
    else if Reads(s, a) && ReadIn(s, a).SessionInfo? then true
    else if Cuts(s, a) then a.bound
    else s.thread.bound
  }

  function One(b: bool): nat {
    if b then 1 else 0
  }

  /** How many items a step adds: prompts and notes. */
  function AddsIn(s: State, a: Act): nat {
    match a
    case Configured(to, _) =>
      var from := s.thread.settings;
      if Accepts(s, a) && (s.thread.status == Running || s.thread.status == Awaiting)
      then One(to.mode != from.mode) + One(to.model != from.model || to.effort != from.effort)
      else 0
    case Written(id) => One(CanWrite(s.pool, id) && s.pool.live[id].closing.write == Some(Error))
    case Ended(id) => One(CanEnd(s, id))
    case Entered(startOk) =>
      One(Begins(s, a) || (Entering(s) && !HasSession(s, startOk) && s.starting.value.task.Again?))
    case Called(_) => One(Refused(s, a) && s.starting.value.task.Again?)
    case Restarted(_, _, _) => One(FoundBusy(s, a)) + One(StartsQueued(s, a))
    case Marked => One(s.cutOff)
    case _ => 0
  }

  /** The row after a step, but for the session rules. */
  function RowIn(s: State, a: Act): Thread {
    Thread(match StatusIn(s, a) case Some(status) => status case None => s.thread.status,
           if Accepts(s, a) then a.to else s.thread.settings, BoundIn(s, a),
           (if Cuts(s, a) then a.items else s.thread.items) + AddsIn(s, a), PendingIn(s, a), s.thread.rules)
  }

  predicate RowIs(s: State, a: Act, t: Thread) {
    t.(rules := s.thread.rules) == RowIn(s, a)
  }

  lemma ChosenIs(s: State, startOk: bool)
    requires Entering(s) && SessionThere(s)
    ensures var u := Opened(s, startOk);
            var id := Chosen(u.pool, s.starting.value.session);
      && (id.Some? && id.value in u.pool.live <==> HasSession(s, startOk))
      && u.thread == s.thread && u.starting == s.starting && u.prompts == s.prompts
  {
  }

  /** The row once the turn is written down, or is not. */
  lemma EntryIs(s: State, chosen: Option<nat>)
    requires Locked(s)
    ensures var t, task := s.thread, s.starting.value.task;
      Entry(s, chosen).thread ==
        if chosen.Some? && chosen.value in s.pool.live
        then if Calls(s.prompts, task) then t.(status := Running, items := t.items + 1) else t
        else t.(status := if task.Next? then Error else t.status, items := t.items + One(task.Again?))
  {
  }

  lemma EntryRow(s: State, startOk: bool)
    requires Entering(s) && SessionThere(s)
    ensures RowIs(s, Act.Entered(startOk), Enter(s, startOk).thread)
  {
    var u := Opened(s, startOk);
    ChosenIs(s, startOk);
    EntryIs(u, Chosen(u.pool, s.starting.value.session));
    assert Begins(s, Act.Entered(startOk)) <==> HasSession(s, startOk) && Calls(s.prompts, s.starting.value.task);
  }

  lemma DownRow(s: State, resume: bool, startOk: bool, sendOk: bool)
    ensures var a, d := Restarted(resume, startOk, sendOk), Down(s, resume);
      && d.thread == s.thread.(status := if FoundBusy(s, a) then Idle else s.thread.status,
                               pending := if FoundBusy(s, a) then map[] else s.thread.pending,
                               items := s.thread.items + One(FoundBusy(s, a)))
      && d.prompts == s.prompts && d.pool == Pool(map[], None, s.pool.next)
      && (StartsQueued(s, a) <==> !d.cutOff && s.prompts.queue != [] && startOk)
  {
  }

  lemma QueuedRow(s: State, id: nat, sendOk: bool)
    requires id in s.pool.live && !s.pool.live[id].gone && s.prompts.queue != []
    ensures StartQueued(s, id, sendOk).thread ==
            s.thread.(status := if sendOk then Running else Error, items := s.thread.items + 1)
  {
  }

  lemma RestartRow(s: State, resume: bool, startOk: bool, sendOk: bool)
    ensures RowIs(s, Restarted(resume, startOk, sendOk), Recover(s, resume, startOk, sendOk).thread)
  {
    var d := Down(s, resume);
    DownRow(s, resume, startOk, sendOk);
    if !d.cutOff && s.prompts.queue != [] {
      var p := Session(d.pool, d.thread.settings, startOk);
      assert p == if startOk then Launch(d.pool, d.thread.settings) else d.pool;
      if startOk { QueuedRow(d.(pool := p), s.pool.next, sendOk); }
    }
  }

  lemma EndRow(s: State, id: nat)
    requires CanEnd(s, id)
    ensures RowIs(s, Act.Ended(id), EndTurn(s, id).thread)
  {
    assert EndTurn(s, id).thread == Landed(s, id).thread;
  }

  lemma CallRow(s: State, sendOk: bool)
    requires Calling(s)
    ensures RowIs(s, Called(sendOk), Deliver(s, sendOk).thread)
  {
    FreedApart(s);
    var id := s.starting.value.session.value;
    assert Freed(s).thread == s.thread && Freed(s).pool.live[id].gone == s.pool.live[id].gone by { FreedAt(s, id); }
  }

  lemma ReadRow(s: State, id: nat, resolveOk: bool)
    requires CanPump(s.pool, id)
    ensures RowIs(s, Pumped(id, resolveOk), Pump(s, id, resolveOk).thread)
  {
  }

  lemma WriteRow(s: State, id: nat)
    requires CanWrite(s.pool, id)
    ensures RowIs(s, Act.Written(id), Write(s, id).thread)
  {
  }

  /** The commands that write the row. */
  lemma CommandRow(s: State, a: Act)
    requires a.Interrupted? || a.Answered? || a.Settled? || a.Marked? || a.Revoked?
    ensures RowIs(s, a, Step(s, a).thread)
  {
  }

  lemma SettingsRow(s: State, to: Settings, pushed: bool)
    ensures RowIs(s, Configured(to, pushed), SetSettings(s, to, pushed).thread)
  {
    var t := SetSettings(s, to, pushed).thread;
    if !Accepts(s, Configured(to, pushed)) {
      assert t == s.thread;
    } else if Busy(s.thread) {
      assert t == Resettled(s.thread, to).(items := s.thread.items + NotesOn(s.thread.settings, to));
    } else {
      assert t == Resettled(s.thread, to);
    }
  }

  /** Those that leave it alone. */
  lemma QuietRow(s: State, a: Act)
    requires a.Prompted? || a.Cancel? || a.Compact? || a.Reaped? || a.Shelved? || a.Reports? || a.Judged? || a.Resumed?
    ensures Step(s, a).thread == s.thread && RowIs(s, a, s.thread)
  {
  }

  /** What waits its turn, or has nothing to do, leaves the row alone too. */
  lemma EntryStep(s: State, startOk: bool)
    requires SessionThere(s)
    ensures RowIs(s, Act.Entered(startOk), Step(s, Act.Entered(startOk)).thread)
  {
    if Entering(s) { EntryRow(s, startOk); }
  }

  lemma CallStep(s: State, sendOk: bool)
    ensures RowIs(s, Called(sendOk), Step(s, Called(sendOk)).thread)
  {
    if Calling(s) { CallRow(s, sendOk); }
  }

  lemma EndedStep(s: State, id: nat)
    ensures RowIs(s, Act.Ended(id), Step(s, Act.Ended(id)).thread)
  {
    if CanEnd(s, id) { EndRow(s, id); }
  }

  lemma ReadStep(s: State, id: nat, resolveOk: bool)
    ensures RowIs(s, Pumped(id, resolveOk), Step(s, Pumped(id, resolveOk)).thread)
  {
    if CanPump(s.pool, id) { ReadRow(s, id, resolveOk); }
  }

  lemma WriteStep(s: State, id: nat)
    ensures RowIs(s, Act.Written(id), Step(s, Act.Written(id)).thread)
  {
    if CanWrite(s.pool, id) { WriteRow(s, id); }
  }

  lemma TurnRow(s: State, a: Act)
    requires SessionThere(s) && (a.Entered? || a.Called? || a.Ended? || a.Pumped? || a.Written?)
    ensures RowIs(s, a, Step(s, a).thread)
  {
    match a
    case Entered(startOk) => EntryStep(s, startOk);
    case Called(sendOk) => CallStep(s, sendOk);
    case Ended(id) => EndedStep(s, id);
    case Pumped(id, resolveOk) => ReadStep(s, id, resolveOk);
    case Written(id) => WriteStep(s, id);
  }

  /**
   * What every step does to the row. The status: idle by a stop with no session, the end of a turn, a restart and the
   * resume; awaiting by a request that no rule answers; running by an answer, a turn the agent starts or the app writes
   * down; in error by a failed turn, a refused call and a queued prompt with no session.
   */
  lemma RowNext(s: State, a: Act)
    requires SessionThere(s)
    ensures RowIs(s, a, Step(s, a).thread)
  {
    if a.Entered? || a.Called? || a.Ended? || a.Pumped? || a.Written? { TurnRow(s, a); }
    else if a.Restarted? { RestartRow(s, a.resume, a.startOk, a.sendOk); }
    else if a.Configured? { SettingsRow(s, a.to, a.pushed); }
    else if a.Interrupted? || a.Answered? || a.Settled? || a.Marked? || a.Revoked? { CommandRow(s, a); }
    else { QuietRow(s, a); }
  }

  // ---- Approvals that are pending ----

  /** The approval is settled: answered, asked for again and let through, or over with the turn. */
  predicate SettlesIn(s: State, a: Act, approval: Id) {
    || (AnsweredIn(s, a) && a.approval == approval)
    || (Reads(s, a) && ReadIn(s, a).Asked? && ReadIn(s, a).approval == approval && !AsksIn(s, a))
    || (a.Ended? && CanEnd(s, a.session))
    || (a == Marked && s.cutOff)
    || FoundBusy(s, a)
  }

  lemma PendingNext(s: State, a: Act, approval: Id)
    ensures approval in PendingIn(s, a) <==>
      || (AsksIn(s, a) && ReadIn(s, a).approval == approval)
      || (approval in s.thread.pending && !SettlesIn(s, a, approval))
  {
  }

  ghost predicate AskedAt(settings: Settings, acts: seq<Act>, approval: Id, k: nat)
    requires k < |acts|
  {
    var s := Run(Init(settings), acts[..k]);
    AsksIn(s, acts[k]) && ReadIn(s, acts[k]).approval == approval
  }

  ghost predicate SettledAt(settings: Settings, acts: seq<Act>, approval: Id, k: nat)
    requires k < |acts|
  {
    SettlesIn(Run(Init(settings), acts[..k]), acts[k], approval)
  }

  lemma AtSame(settings: Settings, acts: seq<Act>, approval: Id, k: nat)
    requires k < |acts| - 1
    ensures var init := acts[..|acts| - 1];
      && (AskedAt(settings, init, approval, k) <==> AskedAt(settings, acts, approval, k))
      && (SettledAt(settings, init, approval, k) <==> SettledAt(settings, acts, approval, k))
  {
    assert acts[..|acts| - 1][..k] == acts[..k];
  }

  /** It was asked for in step `k`, and not settled since. */
  ghost predicate OutstandingSince(settings: Settings, acts: seq<Act>, approval: Id, k: nat)
    requires k < |acts|
  {
    AskedAt(settings, acts, approval, k) && forall j :: k < j < |acts| ==> !SettledAt(settings, acts, approval, j)
  }

  ghost predicate Outstanding(settings: Settings, acts: seq<Act>, approval: Id) {
    exists k: nat :: k < |acts| && OutstandingSince(settings, acts, approval, k)
  }

  lemma SinceNext(settings: Settings, acts: seq<Act>, approval: Id, k: nat)
    requires k < |acts| - 1
    ensures OutstandingSince(settings, acts, approval, k) <==>
      OutstandingSince(settings, acts[..|acts| - 1], approval, k) && !SettledAt(settings, acts, approval, |acts| - 1)
  {
    var n := |acts| - 1;
    var init := acts[..n];
    AtSame(settings, acts, approval, k);
    if OutstandingSince(settings, acts, approval, k) {
      assert !SettledAt(settings, acts, approval, n);
      forall j | k < j < n ensures !SettledAt(settings, init, approval, j) { AtSame(settings, acts, approval, j); }
    }
    if OutstandingSince(settings, init, approval, k) && !SettledAt(settings, acts, approval, n) {
      forall j | k < j < |acts| ensures !SettledAt(settings, acts, approval, j) {
        if j < n { AtSame(settings, acts, approval, j); }
      }
    }
  }

  lemma OutstandingNext(settings: Settings, acts: seq<Act>, approval: Id)
    requires acts != []
    ensures var n := |acts| - 1;
            Outstanding(settings, acts, approval) <==>
              AskedAt(settings, acts, approval, n)
              || (Outstanding(settings, acts[..n], approval) && !SettledAt(settings, acts, approval, n))
  {
    var n := |acts| - 1;
    if k: nat :| k < |acts| && OutstandingSince(settings, acts, approval, k) {
      if k < n { SinceNext(settings, acts, approval, k); }
    }
    if AskedAt(settings, acts, approval, n) { assert OutstandingSince(settings, acts, approval, n); }
    if k: nat :| k < n && OutstandingSince(settings, acts[..n], approval, k) { SinceNext(settings, acts, approval, k); }
  }

  lemma {:induction false} RunThere(settings: Settings, acts: seq<Act>)
    ensures var s := Run(Init(settings), acts); Young(s.pool) && SessionThere(s)
  {
    if acts != [] {
      RunThere(settings, acts[..|acts| - 1]);
      StaysYoung(Run(Init(settings), acts[..|acts| - 1]), acts[|acts| - 1]);
      StaysThere(Run(Init(settings), acts[..|acts| - 1]), acts[|acts| - 1]);
    }
  }

  lemma TakenThere(s: State, task: Task)
    ensures SessionThere(Take(s, task))
  {
  }

  lemma EntryThere(s: State, startOk: bool)
    requires Entering(s)
    ensures SessionThere(Enter(s, startOk))
  {
  }

  lemma EndThere(s: State, id: nat)
    requires CanEnd(s, id)
    ensures SessionThere(EndTurn(s, id))
  {
    TakenThere(Landed(s, id), Next(id));
  }

  lemma StartsThere(s: State, a: Act)
    requires SessionThere(s) && (a.Prompted? || a.Compact? || a.Resumed?)
    ensures SessionThere(Step(s, a))
  {
    match a
    case Prompted(text) => TakenThere(s, Ask(text));
    case Compact(able) => TakenThere(s, Fold(able));
    case Resumed => TakenThere(s.(resuming := false), Again);
  }

  lemma StartingStays(s: State, a: Act)
    requires SessionThere(s) && !a.Ended? && !a.Entered? && !a.Prompted? && !a.Compact? && !a.Resumed?
    ensures SessionThere(Step(s, a))
  {
    if a.Called? { if Calling(s) { assert Deliver(s, a.sendOk).starting == None; } }
    else if a.Restarted? { assert Recover(s, a.resume, a.startOk, a.sendOk).starting == None; }
    else {
      NoneOpened(s, a);
      assert Step(s, a).starting == s.starting;
    }
  }

  lemma StaysThere(s: State, a: Act)
    requires SessionThere(s) && Young(s.pool)
    ensures SessionThere(Step(s, a))
  {
    if a.Ended? { if CanEnd(s, a.session) { EndThere(s, a.session); } }
    else if a.Entered? { if Entering(s) { EntryThere(s, a.startOk); } }
    else if a.Prompted? || a.Compact? || a.Resumed? { StartsThere(s, a); }
    else { StartingStays(s, a); }
  }

  /** Over any run: an approval is pending exactly if it was asked for and not settled since. */
  lemma {:induction false} PendingExactly(settings: Settings, acts: seq<Act>, approval: Id)
    ensures approval in Run(Init(settings), acts).thread.pending <==> Outstanding(settings, acts, approval)
  {
    if acts != [] {
      var n := |acts| - 1;
      PendingExactly(settings, acts[..n], approval);
      RunThere(settings, acts[..n]);
      RowNext(Run(Init(settings), acts[..n]), acts[n]);
      PendingNext(Run(Init(settings), acts[..n]), acts[n], approval);
      OutstandingNext(settings, acts, approval);
    }
  }

  // ---- Settings ----

  /** The settings last accepted. */
  function Accepted(settings: Settings, acts: seq<Act>): Settings {
    if acts == [] then settings
    else
      var init, last := acts[..|acts| - 1], acts[|acts| - 1];
      if Accepts(Run(Init(settings), init), last) then last.to else Accepted(settings, init)
  }

  lemma {:induction false} SettingsExactly(settings: Settings, acts: seq<Act>)
    ensures Run(Init(settings), acts).thread.settings == Accepted(settings, acts)
  {
    if acts != [] {
      var n := |acts| - 1;
      SettingsExactly(settings, acts[..n]);
      RunThere(settings, acts[..n]);
      RowNext(Run(Init(settings), acts[..n]), acts[n]);
    }
  }

  // ---- The marks on a session ----

  /** A change mid-turn that this session did not take. */
  predicate Outdates(s: State, a: Act, id: nat) {
    var from := s.thread.settings;
    Accepts(s, a) && Busy(s.thread) && s.pool.current == Some(id)
    && (a.to.model != from.model || a.to.effort != from.effort || (a.to.mode != from.mode && !a.pushed))
  }

  predicate SameMarks(l: Live, m: Live) {
    m.stale == l.stale && m.config == l.config && m.idle == l.idle
  }

  lemma CloseMarks(p: Pool, id: nat)
    requires id in p.live
    ensures id in CloseSession(p).live && SameMarks(p.live[id], CloseSession(p).live[id])
    ensures id in Looked(p).live && SameMarks(p.live[id], Looked(p).live[id])
  {
  }

  lemma EndMarks(s: State, other: nat, id: nat)
    requires CanEnd(s, other) && id in s.pool.live
    ensures id in EndTurn(s, other).pool.live && SameMarks(s.pool.live[id], EndTurn(s, other).pool.live[id])
  {
    var p := Landed(s, other).pool;
    assert id in p.live && SameMarks(s.pool.live[id], p.live[id]);
    CloseMarks(p, id);
  }

  lemma FreedMarks(s: State, id: nat)
    requires Locked(s) && id in s.pool.live
    ensures id in Freed(s).pool.live && SameMarks(s.pool.live[id], Freed(s).pool.live[id])
  {
  }

  lemma CallMarks(s: State, sendOk: bool, id: nat)
    requires Calling(s) && id in s.pool.live
    ensures id in Deliver(s, sendOk).pool.live && SameMarks(s.pool.live[id], Deliver(s, sendOk).pool.live[id])
  {
    FreedMarks(s, id);
  }

  /** What is read of an end of a turn stamps the session. */
  lemma OwnMarks(s: State, a: Act, id: nat)
    requires (a.Reports? || a.Pumped? || a.Judged? || a.Written?) && id in s.pool.live
    ensures var l, p := s.pool.live[id], Step(s, a).pool;
      && id in p.live && p.live[id].stale == l.stale && p.live[id].config == l.config
      && p.live[id].idle == (l.idle || (Reads(s, a) && a.session == id && ReadIn(s, a).Completed?))
  {
    if a.session != id {
      PumpApart(s, a, id);
    } else if a.Pumped? {
      if CanPump(s.pool, id) { ReadMarks(s, id, a.resolveOk); }
    } else {
      assert SameMarks(s.pool.live[id], Step(s, a).pool.live[id]);
    }
  }

  lemma ReadMarks(s: State, id: nat, resolveOk: bool)
    requires CanPump(s.pool, id)
    ensures var l, m, r := s.pool.live[id], Pump(s, id, resolveOk).pool.live[id], s.pool.live[id].inbox[0];
            m.stale == l.stale && m.config == l.config && m.idle == (l.idle || r.Completed?)
  {
    var l := s.pool.live[id];
    if l.inbox[0].Closed? {
      assert SameMarks(l, Unlist(s, id, l.inbox[0].err).pool.live[id]);
    } else {
      assert Pump(s, id, resolveOk).pool.live[id] == Read(l);
    }
  }

  lemma CommandMarks(s: State, a: Act, id: nat)
    requires (Command(a) || a.Resumed? || a.Marked?) && id in s.pool.live
    ensures id in Step(s, a).pool.live && SameMarks(s.pool.live[id], Step(s, a).pool.live[id])
  {
    CommandPool(s, a);
    CloseMarks(s.pool, id);
  }

  /** The turn is written down for this session. */
  predicate BeginsOn(s: State, a: Act, id: nat) {
    Begins(s, a) && Chosen(Opened(s, a.startOk).pool, s.starting.value.session) == Some(id)
  }

  lemma FreeMarks(s: State, u: State, id: nat)
    requires Locked(u) && id in s.pool.live && id in u.pool.live && u.pool.live[id] == s.pool.live[id]
    ensures id in Freed(u).pool.live && SameMarks(s.pool.live[id], Freed(u).pool.live[id])
  {
    FreedMarks(u, id);
  }

  lemma WrittenMarks(s: State, id: nat, other: nat)
    requires id in s.pool.live && other in s.pool.live
    ensures var l, p := s.pool.live[other], WrittenDown(s, id).pool;
      && other in p.live && p.live[other].stale == l.stale && p.live[other].config == l.config
      && p.live[other].idle == (l.idle && other != id)
  {
  }

  /** A session that a turn is written down for loses its stamp. */
  lemma EntryMarks(s: State, chosen: Option<nat>, id: nat)
    requires Locked(s) && id in s.pool.live
    ensures var l, p := s.pool.live[id], Entry(s, chosen).pool;
            var written := chosen == Some(id) && Calls(s.prompts, s.starting.value.task);
      && id in p.live && p.live[id].stale == l.stale && p.live[id].config == l.config
      && p.live[id].idle == (l.idle && !written)
  {
    var st := s.starting.value;
    if chosen == None || chosen.value !in s.pool.live {
      assert Without(s, st.task).pool == s.pool;
      FreeMarks(s, Without(s, st.task), id);
    } else if !Calls(s.prompts, st.task) {
      FreeMarks(s, s, id);
    } else {
      var started := Some(st.(session := chosen, entered := true));
      WrittenMarks(s.(prompts := Handed(s.prompts, st.task), starting := started), chosen.value, id);
    }
  }

  lemma EnterMarks(s: State, startOk: bool, id: nat)
    requires Entering(s) && SessionThere(s) && Young(s.pool) && id in s.pool.live
    ensures var l, p := s.pool.live[id], Enter(s, startOk).pool;
      && id in p.live && p.live[id].stale == l.stale && p.live[id].config == l.config
      && p.live[id].idle == (l.idle && !BeginsOn(s, Act.Entered(startOk), id))
  {
    var u := Opened(s, startOk);
    OpenApart(s.pool, s.starting.value.session, s.starting.value.settings, startOk);
    EntryMarks(u, Chosen(u.pool, s.starting.value.session), id);
  }

  lemma SettingsStale(s: State, to: Settings, pushed: bool, id: nat)
    requires id in s.pool.live
    ensures var a, l, p := Configured(to, pushed), s.pool.live[id], SetSettings(s, to, pushed).pool;
      && id in p.live && p.live[id].idle == l.idle && (p.live[id].stale <==> l.stale || Outdates(s, a, id))
  {
    CloseMarks(s.pool, id);
  }

  lemma SettingsMarks(s: State, to: Settings, pushed: bool, id: nat)
    requires id in s.pool.live
    ensures var a, l, p := Configured(to, pushed), s.pool.live[id], SetSettings(s, to, pushed).pool;
      && id in p.live && p.live[id].idle == l.idle && (p.live[id].stale <==> l.stale || Outdates(s, a, id))
      && p.live[id].config == if TakesMode(s, a, id) then l.config.(mode := to.mode) else l.config
  {
    SettingsStale(s, to, pushed, id);
  }

  /** A change mid-turn to the permission mode that this session took. */
  predicate TakesMode(s: State, a: Act, id: nat) {
    Accepts(s, a) && Busy(s.thread) && s.pool.current == Some(id) && a.pushed && a.to.mode != s.thread.settings.mode
  }

  lemma KeptMarks(s: State, a: Act, id: nat)
    requires !a.Configured? && !a.Entered? && !a.Restarted? && id in s.pool.live
    ensures var l, p := s.pool.live[id], Step(s, a).pool;
      && id in p.live && p.live[id].stale == l.stale && p.live[id].config == l.config
      && p.live[id].idle == (l.idle || (Reads(s, a) && a.session == id && ReadIn(s, a).Completed?))
  {
    if a.Called? { if Calling(s) { CallMarks(s, a.sendOk, id); } }
    else if a.Ended? { if CanEnd(s, a.session) { EndMarks(s, a.session, id); } }
    else if Command(a) || a.Resumed? || a.Marked? { CommandMarks(s, a, id); }
    else { OwnMarks(s, a, id); }
  }

  /**
   * A session is stale from the first change it did not take; it runs with the mode it took last; and it is stamped
   * idle by the end of a turn, until the next is written down for it.
   */
  lemma MarksNext(s: State, a: Act, id: nat)
    requires Young(s.pool) && SessionThere(s) && id in s.pool.live && id in Step(s, a).pool.live
    ensures var l, m := s.pool.live[id], Step(s, a).pool.live[id];
      && (m.stale <==> l.stale || Outdates(s, a, id))
      && m.config == (if TakesMode(s, a, id) then l.config.(mode := a.to.mode) else l.config)
      && (m.idle <==> (l.idle && !BeginsOn(s, a, id))
                      || (Reads(s, a) && a.session == id && ReadIn(s, a).Completed?))
  {
    if a.Configured? { SettingsMarks(s, a.to, a.pushed, id); }
    else if a.Entered? { if Entering(s) { EnterMarks(s, a.startOk, id); } }
    else if a.Restarted? { RestartPool(s, a.resume, a.startOk, a.sendOk); }
    else { KeptMarks(s, a, id); }
  }
}
