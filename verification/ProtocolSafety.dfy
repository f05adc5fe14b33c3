/**
 * What every run of the protocol keeps: one turn at a time, settings that reach the next turn, approvals that are real.
 */
module ProtocolSafety {
  import opened Domain
  import opened Protocol

  // ---- What a session may hold ----

  predicate Scoped(r: Report) {
    r.TurnStarted? || r.Asked? || r.Completed?
  }

  ghost predicate Quiet(inbox: seq<Report>) {
    forall i :: 0 <= i < |inbox| ==> !Scoped(inbox[i])
  }

  /** Nothing of a turn is reported after its end. */
  ghost predicate Orderly(inbox: seq<Report>) {
    forall i, j :: 0 <= i < j < |inbox| && inbox[i].Completed? ==> !Scoped(inbox[j])
  }

  ghost predicate Contract(l: Live) {
    && Orderly(l.inbox)
    && (l.turn ==> l.flying && !l.gone && !l.idle && l.ending == None
                   && forall i :: 0 <= i < |l.inbox| ==> !l.inbox[i].Completed?)
    && (l.closing != Serving ==> !l.flying && l.gone && l.ending == None)
    && (l.closing.Ruled? ==> l.closing.write != Some(Running) && l.closing.write != Some(Awaiting))
    && (!l.flying || l.ending.Some? ==> !l.turn && Quiet(l.inbox))
  }

  lemma ContractOfShut(l: Live)
    requires Contract(l)
    ensures Contract(Shut(l)) && Shut(l).flying == l.flying
  {
  }

  lemma ContractOfReported(l: Live, r: Report)
    requires Contract(l) && Allowed(l, r)
    ensures Contract(Reported(l, r)) && Reported(l, r).flying == l.flying
  {
  }

  // ---- The pool ----

  ghost predicate InFlight(p: Pool) {
    exists id :: id in p.live && p.live[id].flying
  }

  /** A turn in flight is on the registered session of a busy thread. */
  ghost predicate OneTurn(p: Pool, busy: bool) {
    forall id :: id in p.live && p.live[id].flying ==> p.current == Some(id) && busy
  }

  /** No idle stamp is left on a session mid-turn. */
  ghost predicate Unstamped(p: Pool) {
    forall id :: id in p.live && p.live[id].turn ==> !p.live[id].idle
  }

  /** A registered session that is not stale runs with the thread's settings. */
  ghost predicate UpToDate(p: Pool, settings: Settings) {
    p.current.Some? ==> Registered(p) && (!p.live[p.current.value].stale ==> p.live[p.current.value].config == settings)
  }

  /** Whatever is not registered was closed. */
  ghost predicate Retired(p: Pool) {
    forall id :: id in p.live && p.current != Some(id) ==> p.live[id].gone
  }

  ghost predicate PoolOk(p: Pool, settings: Settings, busy: bool) {
    && (forall id :: id in p.live ==> id < p.next && Contract(p.live[id]))
    && OneTurn(p, busy)
    && UpToDate(p, settings)
    && Retired(p)
  }

  lemma CloseKeeps(p: Pool, settings: Settings, to: Settings, busy: bool)
    requires PoolOk(p, settings, busy) && !InFlight(p)
    ensures var c := CloseSession(p);
            PoolOk(c, to, false) && c.current == None && !InFlight(c) && c.live.Keys == p.live.Keys
    ensures forall id :: id in p.live ==> CloseSession(p).live[id].ending == p.live[id].ending
  {
    if Registered(p) { ContractOfShut(p.live[p.current.value]); }
  }

  lemma LookKeeps(p: Pool, settings: Settings, busy: bool)
    requires PoolOk(p, settings, busy) && !InFlight(p)
    ensures PoolOk(Looked(p), settings, false) && !InFlight(Looked(p)) && Looked(p).live.Keys == p.live.Keys
    ensures if Found(p).Some? then Found(p).value in p.live && Looked(p) == p else Looked(p).current == None
    ensures forall id :: id in p.live ==> Looked(p).live[id].ending == p.live[id].ending
  {
    CloseKeeps(p, settings, settings, busy);
  }

  lemma OpenKeeps(p: Pool, found: Option<nat>, config: Settings, startOk: bool)
    requires PoolOk(p, config, false) && !InFlight(p)
    requires if found.Some? then found.value in p.live else p.current == None
    ensures var o := Open(p, found, config, startOk);
      && PoolOk(o, config, false) && !InFlight(o) && Chosen(o, found) == Fresh(p, found, startOk)
      && (Chosen(o, found).Some? ==> Chosen(o, found).value in o.live)
      && (o.live.Keys != p.live.Keys ==> o.live[p.next].config == config)
    ensures forall id :: id in p.live ==> Open(p, found, config, startOk).live[id] == p.live[id]
    ensures forall id :: id in Open(p, found, config, startOk).live && id !in p.live ==>
      Open(p, found, config, startOk).live[id].ending == None
  {
  }

  /** The session a turn is started on: the one found, or else the new one. */
  function Fresh(p: Pool, found: Option<nat>, startOk: bool): Option<nat> {
    if found.Some? then found else if startOk then Some(p.next) else None
  }

  lemma PutKeeps(p: Pool, settings: Settings, busy: bool, id: nat, l: Live)
    requires PoolOk(p, settings, busy) && id in p.live && Contract(l)
    requires (l.flying ==> p.live[id].flying) && (p.live[id].gone ==> l.gone)
    requires p.current == Some(id) && !l.stale ==> l.config == settings
    ensures PoolOk(Put(p, id, l), settings, busy)
  {
  }

  // ---- The invariant ----

  /** What the app promises: see the parts. */
  ghost predicate Sound(s: State) {
    && OneTurn(s.pool, Busy(s.thread))
    && Unstamped(s.pool)
    && UpToDate(s.pool, s.thread.settings)
    && Answerable(s.thread)
    && CallsOk(s.calls)
  }

  /** A thread awaiting an approval has one pending. */
  ghost predicate Answerable(t: Thread) {
    t.status == Awaiting ==> t.pending != map[]
  }

  /** Send and Compact are never called mid-turn, and always on a session with the thread's settings. */
  ghost predicate CallsOk(calls: seq<Call>) {
    forall i :: 0 <= i < |calls| ==> !calls[i].midTurn && calls[i].config == calls[i].wanted
  }

  /** A pump keeps a turn's end beyond its commit only while it hands over. */
  ghost predicate HandsOver(p: Pool, starting: Option<Starting>) {
    forall id :: id in p.live && p.live[id].ending.Some? && !p.live[id].flying ==>
      starting.Some? && starting.value.task == Next(id)
  }

  predicate Unrested(l: Live) {
    l.flying || l.gone || !l.idle
  }

  /**
   * The session a turn is starting on exists, and only a resume meets a turn in flight, on that session; once the turn
   * is written down the session has no idle stamp.
   */
  ghost predicate StartingOk(p: Pool, starting: Option<Starting>) {
    && HandsOver(p, starting)
    && (starting.Some? ==>
          var st := starting.value;
          && (if st.session.Some? then st.session.value in p.live else p.current == None)
          && (InFlight(p) ==> st.task.Again? && st.session == p.current)
          && (st.entered ==> st.session.Some? && Unrested(p.live[st.session.value])))
  }

  ghost predicate Inv(s: State) {
    && PoolOk(s.pool, s.thread.settings, Busy(s.thread))
    && StartingOk(s.pool, s.starting)
    && (Busy(s.thread) ==> s.thread.items > 0)
    && Answerable(s.thread)
    && CallsOk(s.calls)
  }

  /** What holds under the lock just before a turn is sent, whatever the status is. */
  ghost predicate Ready(s: State) {
    && PoolOk(s.pool, s.thread.settings, false) && !InFlight(s.pool)
    && s.starting == None && HandsOver(s.pool, None) && CallsOk(s.calls)
  }

  /** A session without an idle stamp takes a turn when none is in flight. */
  lemma SentKeeps(p: Pool, settings: Settings, id: nat, sendOk: bool)
    requires PoolOk(p, settings, false) && !InFlight(p) && HandsOver(p, None) && id in p.live && Unrested(p.live[id])
    ensures var q := Put(p, id, Sent(p.live[id], sendOk));
            PoolOk(q, settings, Takes(p.live[id], sendOk)) && StartingOk(q, None)
  {
    if !p.live[id].gone { assert p.current == Some(id); }
    assert Contract(Sent(p.live[id], sendOk));
  }

  /** The stamp goes when the turn is written down. */
  lemma WrittenPool(p: Pool, settings: Settings, busy: bool, id: nat)
    requires PoolOk(p, settings, busy) && id in p.live
    ensures var q := Put(p, id, p.live[id].(idle := false));
            PoolOk(q, settings, busy) && (InFlight(q) <==> InFlight(p)) && Unrested(q.live[id])
    ensures forall starting :: HandsOver(p, starting) ==> HandsOver(Put(p, id, p.live[id].(idle := false)), starting)
  {
    PutKeeps(p, settings, busy, id, p.live[id].(idle := false));
    var q := Put(p, id, p.live[id].(idle := false));
    if InFlight(p) {
      var other :| other in p.live && p.live[other].flying;
      assert q.live[other].flying;
    }
  }

  /** A turn starts on a session with the thread's settings and no turn in flight anywhere. */
  lemma StartKeeps(s: State, id: nat, sendOk: bool)
    requires Ready(s) && id in s.pool.live && s.pool.live[id].config == s.thread.settings
    ensures Inv(StartTurn(s, id, sendOk))
  {
    WrittenPool(s.pool, s.thread.settings, false, id);
    SentKeeps(WrittenDown(s, id).pool, s.thread.settings, id, sendOk);
  }

  // ---- Starting a turn ----

  lemma TakeKeeps(s: State, task: Task)
    requires PoolOk(s.pool, s.thread.settings, Busy(s.thread)) && !InFlight(s.pool)
    requires Answerable(s.thread) && CallsOk(s.calls) && (Busy(s.thread) ==> s.thread.items > 0)
    requires forall id :: id in s.pool.live && s.pool.live[id].ending.Some? && !s.pool.live[id].flying ==>
      task == Next(id)
    ensures Inv(Take(s, task))
  {
    LookKeeps(s.pool, s.thread.settings, Busy(s.thread));
  }

  /** A new session starts with settings that changed since they were read. */
  predicate OpensWrong(s: State, startOk: bool)
    requires Locked(s)
  {
    var st := s.starting.value;
    Chosen(s.pool, st.session) == None && startOk && st.settings != s.thread.settings
  }

  /** The session has not the thread's settings, or is in a turn, or takes the call while the status denies it. */
  predicate CallsWrong(s: State, sendOk: bool)
    requires Calling(s)
  {
    var l := s.pool.live[s.starting.value.session.value];
    l.config != s.thread.settings || l.flying || (Takes(l, sendOk) && !Busy(s.thread))
  }

  lemma FreedPool(p: Pool, settings: Settings, busy: bool, st: Starting)
    requires PoolOk(p, settings, busy) && HandsOver(p, Some(st)) && st.task.Next? && st.task.holder in p.live
    ensures var q := Put(p, st.task.holder, p.live[st.task.holder].(ending := None));
            PoolOk(q, settings, busy) && StartingOk(q, None) && (InFlight(q) ==> InFlight(p))
  {
    PutKeeps(p, settings, busy, st.task.holder, p.live[st.task.holder].(ending := None));
  }

  lemma FreedKeeps(s: State, busy: bool)
    requires Locked(s) && PoolOk(s.pool, s.thread.settings, busy) && HandsOver(s.pool, s.starting)
    ensures var p := Freed(s).pool;
            PoolOk(p, s.thread.settings, busy) && StartingOk(p, None) && (InFlight(p) ==> InFlight(s.pool))
  {
    var st := s.starting.value;
    if st.task.Next? && st.task.holder in s.pool.live { FreedPool(s.pool, s.thread.settings, busy, st); }
  }

  /** Only the end that was kept is gone. */
  lemma FreedAt(s: State, id: nat)
    requires Locked(s) && id in s.pool.live
    ensures var f := Freed(s);
            id in f.pool.live && f.pool.live[id] == s.pool.live[id].(ending := f.pool.live[id].ending)
  {
  }

  /** With no session found none is in a turn. */
  lemma NoneFound(s: State)
    requires Inv(s) && Locked(s) && s.starting.value.session == None
    ensures !InFlight(s.pool) && s.pool.current == None
  {
  }

  lemma WithoutKeeps(s: State, task: Task)
    requires Inv(s) && !InFlight(s.pool)
    ensures Inv(Without(s, task))
  {
  }

  /** The turn is written down for session `id`, the one found or a new one. */
  lemma EnteredKeeps(s: State, p: Pool, id: nat)
    requires Inv(s) && Entering(s) && id in p.live && Calls(s.prompts, s.starting.value.task)
    requires PoolOk(p, s.thread.settings, Busy(s.thread)) && HandsOver(p, s.starting)
    requires InFlight(p) ==> s.starting.value.task.Again? && p.current == Some(id)
    ensures Inv(Entry(s.(pool := p), Some(id)))
  {
    WrittenPool(p, s.thread.settings, Busy(s.thread), id);
  }

  /** A session that starts on an idle pool. */
  lemma LaunchedKeeps(s: State)
    requires Inv(s) && Locked(s) && s.starting.value.session == None
      && s.starting.value.settings == s.thread.settings
    ensures var p := Launch(s.pool, s.thread.settings);
            PoolOk(p, s.thread.settings, Busy(s.thread)) && HandsOver(p, s.starting) && !InFlight(p)
  {
    NoneFound(s);
  }

  lemma EnterFound(s: State, startOk: bool)
    requires Inv(s) && Entering(s) && s.starting.value.session.Some?
    ensures Inv(Enter(s, startOk))
  {
    var st := s.starting.value;
    assert Opened(s, startOk) == s;
    if Calls(s.prompts, st.task) {
      EnteredKeeps(s, s.pool, st.session.value);
    } else {
      FreedKeeps(s, Busy(s.thread));
    }
  }

  lemma EnterRefused(s: State)
    requires Inv(s) && Entering(s) && s.starting.value.session == None
    ensures Inv(Enter(s, false))
  {
    var u := Without(s, s.starting.value.task);
    NoneFound(s);
    WithoutKeeps(s, s.starting.value.task);
    FreedKeeps(u, Busy(u.thread));
    assert Enter(s, false) == Freed(u);
  }

  lemma EnterNew(s: State)
    requires Inv(s) && Entering(s) && s.starting.value.session == None
      && s.starting.value.settings == s.thread.settings
    ensures Inv(Enter(s, true))
  {
    var p := Launch(s.pool, s.thread.settings);
    NoneFound(s);
    LaunchedKeeps(s);
    assert Opened(s, true) == s.(pool := p) && Chosen(p, None) == Some(s.pool.next);
    if Calls(s.prompts, s.starting.value.task) {
      EnteredKeeps(s, p, s.pool.next);
    } else {
      FreedKeeps(s.(pool := p), Busy(s.thread));
    }
  }

  /** The session's start, and what is written down, keep every promise with the settings as they are. */
  lemma EnterKeeps(s: State, startOk: bool)
    requires Inv(s) && Entering(s) && !OpensWrong(s, startOk)
    ensures Inv(Enter(s, startOk))
  {
    if s.starting.value.session.Some? {
      EnterFound(s, startOk);
    } else {
      NoneFound(s);
      if startOk { EnterNew(s); } else { EnterRefused(s); }
    }
  }

  /** A call that does not go wrong meets no turn in flight. */
  lemma CallsClear(s: State, sendOk: bool)
    requires Inv(s) && Calling(s) && !CallsWrong(s, sendOk)
    ensures !InFlight(s.pool)
  {
  }

  lemma DeliveredKeeps(s: State, id: nat, sendOk: bool)
    requires PoolOk(s.pool, s.thread.settings, false) && !InFlight(s.pool) && HandsOver(s.pool, None)
    requires s.starting == None && id in s.pool.live && Unrested(s.pool.live[id])
    requires s.pool.live[id].config == s.thread.settings && (Takes(s.pool.live[id], sendOk) ==> Busy(s.thread))
    requires (Busy(s.thread) ==> s.thread.items > 0) && Answerable(s.thread) && CallsOk(s.calls)
    ensures Inv(Delivered(s, id, sendOk))
  {
    SentKeeps(s.pool, s.thread.settings, id, sendOk);
  }

  lemma DeliverKeeps(s: State, sendOk: bool)
    requires Inv(s) && Calling(s) && !CallsWrong(s, sendOk)
    ensures Inv(Deliver(s, sendOk))
  {
    var id := s.starting.value.session.value;
    CallsClear(s, sendOk);
    FreedKeeps(s, false);
    FreedAt(s, id);
    DeliveredKeeps(Freed(s), id, sendOk);
    CountedKeeps(Delivered(Freed(s), id, sendOk));
  }

  lemma CountedKeeps(s: State)
    requires Inv(s)
    ensures Inv(s.(resumes := s.resumes + 1)) && Inv(s.(resumes := s.resumes + 1, thread := Noted(s.thread)))
  {
  }

  // ---- Each kind of step ----

  lemma PromptKeeps(s: State, text: string)
    requires Inv(s) && !Locked(s)
    ensures Inv(SendPrompt(s, text))
  {
    if !Busy(s.thread) { TakeKeeps(s, Ask(text)); }
  }

  lemma CompactKeeps(s: State, able: bool)
    requires Inv(s) && !Locked(s)
    ensures Inv(CompactContext(s, able))
  {
    if !Busy(s.thread) { TakeKeeps(s, Fold(able)); }
  }

  lemma SettingsKeep(s: State, to: Settings, pushed: bool)
    requires Inv(s)
    ensures Inv(SetSettings(s, to, pushed))
  {
    if to.agent != s.thread.settings.agent && s.thread.items > 0 {
    } else if !Busy(s.thread) {
      CloseKeeps(s.pool, s.thread.settings, to, false);
    } else if Registered(s.pool) {
      SettledPool(s.pool, s.thread.settings, to, pushed, s.starting);
    }
  }

  lemma SettledPool(p: Pool, from: Settings, to: Settings, pushed: bool, starting: Option<Starting>)
    requires PoolOk(p, from, true) && StartingOk(p, starting) && Registered(p) && to.agent == from.agent
    ensures var q := Put(p, p.current.value, Adjusted(p.live[p.current.value], from, to, pushed));
            PoolOk(q, to, true) && StartingOk(q, starting)
  {
    var l := p.live[p.current.value];
    var a := Adjusted(l, from, to, pushed);
    AdjustedFits(l, from, to, pushed);
    assert a.gone == l.gone && a.idle == l.idle && a.ending == l.ending;
  }

  lemma AdjustedFits(l: Live, from: Settings, to: Settings, pushed: bool)
    requires Contract(l) && to.agent == from.agent && (!l.stale ==> l.config == from)
    ensures var a := Adjusted(l, from, to, pushed); Contract(a) && a.flying == l.flying && (!a.stale ==> a.config == to)
  {
  }

  lemma ClosingKeeps(s: State, items: nat, bound: bool)
    requires Inv(s)
    ensures Inv(ReapIdle(s)) && Inv(CloseWhenIdle(s, items, bound)) && Inv(Shelve(s))
  {
    if !Busy(s.thread) { CloseKeeps(s.pool, s.thread.settings, s.thread.settings, false); }
  }

  lemma ReportKeeps(s: State, id: nat, r: Report)
    requires Inv(s) && id in s.pool.live && Allowed(s.pool.live[id], r)
    ensures Inv(s.(pool := Put(s.pool, id, Reported(s.pool.live[id], r))))
  {
    ContractOfReported(s.pool.live[id], r);
    PutKeeps(s.pool, s.thread.settings, Busy(s.thread), id, Reported(s.pool.live[id], r));
  }

  lemma UnlistKeeps(s: State, id: nat, err: bool)
    requires Inv(s) && id in s.pool.live && s.pool.live[id].ending == None
    ensures Inv(Unlist(s, id, err))
  {
  }

  lemma JudgeKeeps(s: State, id: nat)
    requires Inv(s) && CanJudge(s.pool, id)
    ensures Inv(Judge(s, id))
  {
    var l := s.pool.live[id];
    PutKeeps(s.pool, s.thread.settings, Busy(s.thread), id,
             l.(closing := Ruled(Ruling(s.thread.status, l.closing.err, l.closing.current))));
  }

  lemma OverKeeps(p: Pool, settings: Settings, busy: bool, id: nat, starting: Option<Starting>)
    requires PoolOk(p, settings, busy) && StartingOk(p, starting) && id in p.live && p.live[id].closing.Ruled?
    ensures var q := Put(p.(current := if p.current == Some(id) then None else p.current), id,
                         p.live[id].(closing := Over));
            PoolOk(q, settings, busy) && StartingOk(q, starting) && (InFlight(q) ==> InFlight(p))
  {
    assert !p.live[id].flying && p.live[id].gone;
  }

  lemma WriteKeeps(s: State, id: nat)
    requires Inv(s) && CanWrite(s.pool, id)
    requires s.pool.live[id].closing.write.Some? ==> !InFlight(s.pool)
    ensures Inv(Write(s, id))
  {
    OverKeeps(s.pool, s.thread.settings, Busy(s.thread), id, s.starting);
    assert Contract(s.pool.live[id]);
  }

  lemma ReadKeeps(l: Live)
    requires Contract(l) && l.inbox != [] && l.ending == None && !l.inbox[0].Closed?
    ensures Contract(Read(l)) && (Scoped(l.inbox[0]) ==> l.flying)
  {
    assert forall i :: 0 <= i < |l.inbox[1..]| ==> l.inbox[1..][i] == l.inbox[i + 1];
  }

  lemma ReadPool(p: Pool, settings: Settings, busy: bool, id: nat, starting: Option<Starting>)
    requires PoolOk(p, settings, busy) && StartingOk(p, starting) && CanPump(p, id) && !p.live[id].inbox[0].Closed?
    ensures var q := Put(p, id, Read(p.live[id])); PoolOk(q, settings, busy) && StartingOk(q, starting)
    ensures Scoped(p.live[id].inbox[0]) ==> busy
  {
    ReadKeeps(p.live[id]);
    PutKeeps(p, settings, busy, id, Read(p.live[id]));
  }

  /** A session rule answers a second request with the id of the only one that is awaited. */
  predicate Repeats(t: Thread, r: Report, resolveOk: bool) {
    r.Asked? && t.status == Awaiting && r.key in t.rules && resolveOk && t.pending.Keys == {r.approval}
  }

  lemma HeardKeeps(t: Thread, r: Report, resolveOk: bool)
    requires Answerable(t) && (Scoped(r) ==> Busy(t)) && !Repeats(t, r, resolveOk)
    ensures var u := Heard(t, r, resolveOk);
            Answerable(u) && Busy(u) == Busy(t) && u.settings == t.settings && u.items == t.items
  {
    if r.Asked? { AskedKeeps(t, r.approval, r.key, resolveOk); }
  }

  lemma PumpKeeps(s: State, id: nat, resolveOk: bool)
    requires Inv(s) && CanPump(s.pool, id) && !Repeats(s.thread, s.pool.live[id].inbox[0], resolveOk)
    ensures Inv(Pump(s, id, resolveOk))
  {
    var r := s.pool.live[id].inbox[0];
    if r.Closed? {
      UnlistKeeps(s, id, r.err);
    } else {
      ReadPool(s.pool, s.thread.settings, Busy(s.thread), id, s.starting);
      HeardKeeps(s.thread, r, resolveOk);
    }
  }

  lemma AskedKeeps(t: Thread, approval: Id, key: string, resolveOk: bool)
    requires Answerable(t) && Busy(t)
    requires !(t.status == Awaiting && key in t.rules && resolveOk && t.pending.Keys == {approval})
    ensures Answerable(AskedFor(t, approval, key, resolveOk)) && Busy(AskedFor(t, approval, key, resolveOk))
  {
    var pending := AskedFor(t, approval, key, resolveOk).pending;
    if !(key in t.rules && resolveOk) {
      assert approval in pending;
    } else if t.status == Awaiting {
      var other :| other in t.pending && other != approval;
      assert other in pending;
    }
  }

  lemma LandedPool(p: Pool, settings: Settings, busy: bool, id: nat, ending: Option<bool>)
    requires PoolOk(p, settings, busy) && HandsOver(p, None) && id in p.live && p.live[id].ending.Some?
    requires ending == None || ending == p.live[id].ending
    ensures var l := p.live[id].(flying := false, ending := ending);
            var q := if l.stale then Retire(Put(p, id, l), id) else Put(p, id, l);
      && PoolOk(q, settings, busy) && !InFlight(q) && id in q.live
      && q.current == (if l.stale then None else Some(id)) && p.current == Some(id)
      && (forall other :: other in q.live && q.live[other].ending.Some? ==> other == id && ending.Some?)
  {
    var l := p.live[id].(flying := false, ending := ending);
    assert p.live[id].flying && p.current == Some(id);
    PutKeeps(p, settings, busy, id, l);
    ContractOfShut(l);
  }

  /** A turn's end leaves no turn in flight and no approval pending; the session goes if it went stale. */
  lemma LandedKeeps(s: State, id: nat)
    requires Inv(s) && CanEnd(s, id)
    ensures var t := Landed(s, id);
            PoolOk(t.pool, t.thread.settings, Busy(t.thread)) && !InFlight(t.pool)
            && t.thread.pending == map[] && t.calls == s.calls
            && (if s.pool.live[id].stale then t.pool.current == None
                else s.pool.current == Some(id) == t.pool.current && id in t.pool.live)
    ensures forall other :: other in Landed(s, id).pool.live && Landed(s, id).pool.live[other].ending.Some? ==>
      other == id && s.prompts.queue != []
  {
    LandedPool(s.pool, s.thread.settings, Busy(s.thread), id,
               if s.prompts.queue != [] then s.pool.live[id].ending else None);
  }

  lemma EndKeeps(s: State, id: nat)
    requires Inv(s) && CanEnd(s, id) && !Hazard(s, Ended(id))
    ensures Inv(EndTurn(s, id)) && EndTurn(s, id).thread.pending == map[] && !InFlight(EndTurn(s, id).pool)
  {
    LandedKeeps(s, id);
    var t := Landed(s, id);
    if s.prompts.queue != [] && s.pool.live[id].stale {
      TakeKeeps(t, Next(id));
      LookKeeps(t.pool, t.thread.settings, Busy(t.thread));
    }
  }

  lemma DownKeeps(s: State, resume: bool)
    requires CallsOk(s.calls)
    ensures Ready(Down(s, resume)) && Down(s, resume).pool.live == map[]
  {
  }

  /**
   * Whatever a crash leaves: recovery has every promise kept again, but for a thread left to ResumeCutOff that awaits
   * an approval while none is pending.
   */
  lemma RecoverRestores(s: State, resume: bool, startOk: bool, sendOk: bool)
    requires CallsOk(s.calls) && (Busy(s.thread) ==> s.thread.items > 0)
    ensures Inv(Recover(s, resume, startOk, sendOk)) <==> (CutOff(s.thread, resume) ==> Answerable(s.thread))
  {
    var t := Down(s, resume);
    DownKeeps(s, resume);
    if !t.cutOff && t.prompts.queue != [] {
      LookKeeps(t.pool, t.thread.settings, Busy(t.thread));
      OpenKeeps(Looked(t.pool), Found(t.pool), t.thread.settings, startOk);
      var u := t.(pool := Session(t.pool, t.thread.settings, startOk));
      if Registered(u.pool) { StartKeeps(u.(prompts := Advance(u.prompts)), u.pool.current.value, sendOk); }
    }
  }

  lemma RecoverKeeps(s: State, resume: bool, startOk: bool, sendOk: bool)
    requires Inv(s)
    ensures Inv(Recover(s, resume, startOk, sendOk))
  {
    RecoverRestores(s, resume, startOk, sendOk);
  }

  /** And once the resume has marked the thread idle they are kept there too. */
  lemma MarkRestores(s: State, resume: bool, startOk: bool, sendOk: bool)
    requires CallsOk(s.calls) && (Busy(s.thread) ==> s.thread.items > 0) && CutOff(s.thread, resume)
    ensures Inv(MarkIdle(Recover(s, resume, startOk, sendOk)))
  {
    DownKeeps(s, resume);
  }

  lemma MarkKeeps(s: State)
    requires Inv(s) && !InFlight(s.pool)
    ensures Inv(MarkIdle(s))
  {
  }

  /** A resume that finds a turn in flight keeps it only if it takes the session as it is. */
  lemma ResumeKeeps(s: State)
    requires Inv(s) && !Locked(s) && !(InFlight(s.pool) && Found(s.pool) == None)
    ensures Inv(ResumeTurn(s))
  {
    if !InFlight(s.pool) { TakeKeeps(s.(resuming := false), Again); }
  }

  // ---- A turn is not interrupted ----

  predicate Runs(p: Pool, id: nat) {
    id in p.live && p.live[id].flying && !p.live[id].gone && p.current == Some(id)
  }

  predicate Command(a: Act) {
    a.Prompted? || a.Cancel? || a.Compact? || a.Interrupted? || a.Answered? || a.Revoked? || a.Reaped? || a.Settled?
    || a.Shelved?
  }

  /** While a thread is busy with a session, no command but a change of settings touches its sessions. */
  lemma CommandsWait(s: State, a: Act)
    requires Command(a) && Busy(s.thread) && s.pool.current != None
    ensures Step(s, a).pool == s.pool
  {
  }

  lemma SettingsWait(s: State, to: Settings, pushed: bool, id: nat)
    requires Runs(s.pool, id) && Busy(s.thread)
    ensures Runs(Step(s, Configured(to, pushed)).pool, id)
  {
  }

  /** Nor does what another session does. */
  lemma OthersWait(s: State, other: nat, resolveOk: bool, id: nat)
    requires Runs(s.pool, id) && other != id
    ensures Runs(Step(s, Pumped(other, resolveOk)).pool, id)
  {
  }

  lemma EndsWait(s: State, other: nat, id: nat)
    requires Inv(s) && Runs(s.pool, id) && other != id
    ensures Step(s, Ended(other)) == s
  {
    assert other in s.pool.live && s.pool.live[other].ending.Some? ==> s.pool.live[other].flying || Locked(s);
  }

  lemma ReportsWait(s: State, other: nat, r: Report, id: nat)
    requires Runs(s.pool, id) && other != id
    ensures Runs(Step(s, Reports(other, r)).pool, id)
  {
  }

  lemma VerdictsWait(s: State, other: nat, id: nat)
    requires PoolOk(s.pool, s.thread.settings, Busy(s.thread)) && Runs(s.pool, id)
    ensures Runs(Step(s, Judged(other)).pool, id) && Runs(Step(s, Written(other)).pool, id)
  {
  }

  lemma EntersWait(s: State, startOk: bool, id: nat)
    requires Inv(s) && Entering(s) && Runs(s.pool, id)
    ensures Runs(Enter(s, startOk).pool, id)
  {
    assert InFlight(s.pool);
    if s.starting.value.session == None { NoneFound(s); }
  }

  /** Only the end of its turn, its own death or a restart takes a session out of a turn; no command here closes it. */
  lemma TurnUninterrupted(s: State, a: Act, id: nat)
    requires Inv(s) && !Hazard(s, a) && id in s.pool.live && s.pool.live[id].flying && !s.pool.live[id].gone
    requires a.Pumped? || a.Ended? || a.Reports? ==> a.session != id
    requires !a.Restarted?
    ensures Runs(Step(s, a).pool, id)
  {
    assert Busy(s.thread) && Runs(s.pool, id) && InFlight(s.pool);
    match a
    case Configured(to, pushed) => SettingsWait(s, to, pushed, id);
    case Pumped(other, resolveOk) => OthersWait(s, other, resolveOk, id);
    case Ended(other) => EndsWait(s, other, id);
    case Entered(startOk) => if Entering(s) { EntersWait(s, startOk, id); }
    case Called(sendOk) => if Calling(s) { CallsClear(s, sendOk); }
    case Reports(other, r) => ReportsWait(s, other, r, id);
    case Judged(other) => VerdictsWait(s, other, id);
    case Written(other) => VerdictsWait(s, other, id);
    case Marked => assert Step(s, a) == s;
    case Resumed => assert Step(s, a).pool == s.pool;
    case _ => CommandsWait(s, a);
  }

  // ---- Exactly when a run is sound ----

  /**
   * The steps the design does not survive. ResumeCutOff marks the thread idle, or closes the session it finds stale,
   * while a turn that a command started is in flight; a session starts with settings that changed since they were read;
   * a turn is sent in the middle of another, with settings that changed since its session took them, or after its
   * status was overwritten; the end of a turn that leaves an approval unanswered is committed while prompts wait; the
   * pump of a closed session writes a status while its successor is in a turn; and a session rule answers a second
   * request with the id of the only one pending.
   */
  ghost predicate Hazard(s: State, a: Act) {
    match a
    case Marked => s.cutOff && InFlight(s.pool)
    case Resumed => s.resuming && !Locked(s) && InFlight(s.pool) && Found(s.pool) == None
    case Entered(startOk) => Entering(s) && OpensWrong(s, startOk)
    case Called(sendOk) => Calling(s) && CallsWrong(s, sendOk)
    case Ended(id) => CanEnd(s, id) && s.prompts.queue != [] && s.thread.status == Awaiting
    case Written(id) => CanWrite(s.pool, id) && s.pool.live[id].closing.write.Some? && InFlight(s.pool)
    case Pumped(id, resolveOk) => CanPump(s.pool, id) && Repeats(s.thread, s.pool.live[id].inbox[0], resolveOk)
    case _ => false
  }

  /** Commands that leave the sessions alone. */
  lemma RowKeeps(s: State, a: Act)
    requires Inv(s) && (a.Cancel? || a.Interrupted? || a.Answered? || a.Revoked?) && !(Waiting(a) && Locked(s))
    ensures Inv(Step(s, a))
  {
  }

  lemma CommandKeeps(s: State, a: Act)
    requires Inv(s) && (Command(a) || a.Configured?) && !(Waiting(a) && Locked(s))
    ensures Inv(Step(s, a))
  {
    match a
    case Prompted(text) => PromptKeeps(s, text);
    case Compact(able) => CompactKeeps(s, able);
    case Configured(to, pushed) => SettingsKeep(s, to, pushed);
    case Reaped => ClosingKeeps(s, 0, false);
    case Settled(items, bound) => ClosingKeeps(s, items, bound);
    case Shelved => ClosingKeeps(s, 0, false);
    case _ => RowKeeps(s, a);
  }

  lemma ReportStep(s: State, id: nat, r: Report)
    requires Inv(s)
    ensures Inv(Step(s, Reports(id, r)))
  {
    if id in s.pool.live && Allowed(s.pool.live[id], r) { ReportKeeps(s, id, r); }
  }

  lemma ClosingStep(s: State, a: Act)
    requires Inv(s) && !Hazard(s, a) && (a.Judged? || a.Written?)
    ensures Inv(Step(s, a))
  {
    match a
    case Judged(id) => if CanJudge(s.pool, id) { JudgeKeeps(s, id); }
    case Written(id) => if CanWrite(s.pool, id) { WriteKeeps(s, id); }
  }

  lemma TurnStep(s: State, a: Act)
    requires Inv(s) && !Hazard(s, a) && !(Waiting(a) && Locked(s))
    requires a.Ended? || a.Entered? || a.Called? || a.Restarted? || a.Marked? || a.Resumed?
    ensures Inv(Step(s, a))
  {
    match a
    case Ended(id) => if CanEnd(s, id) { EndKeeps(s, id); }
    case Entered(startOk) => if Entering(s) { EnterKeeps(s, startOk); }
    case Called(sendOk) => if Calling(s) { DeliverKeeps(s, sendOk); }
    case Restarted(resume, startOk, sendOk) => RecoverKeeps(s, resume, startOk, sendOk);
    case Marked => if s.cutOff { MarkKeeps(s); }
    case Resumed => if s.resuming { ResumeKeeps(s); }
  }

  lemma StepKeeps(s: State, a: Act)
    requires Inv(s) && !Hazard(s, a)
    ensures Inv(Step(s, a))
  {
    if Waiting(a) && Locked(s) { return; }
    match a
    case Reports(id, r) => ReportStep(s, id, r);
    case Pumped(id, resolveOk) => if CanPump(s.pool, id) { PumpKeeps(s, id, resolveOk); }
    case Judged(_) => ClosingStep(s, a);
    case Written(_) => ClosingStep(s, a);
    case _ => if Command(a) || a.Configured? { CommandKeeps(s, a); } else { TurnStep(s, a); }
  }

  /** A turn in flight is unregistered by a resume that finds its session stale. */
  lemma ResumeBreaks(s: State)
    requires Inv(s) && InFlight(s.pool) && Found(s.pool) == None
    ensures !Sound(ResumeTurn(s))
  {
    var id :| id in s.pool.live && s.pool.live[id].flying;
    var p := ResumeTurn(s).pool;
    assert id in p.live && p.live[id].flying && p.current == None;
  }

  /** A session started with other settings than the thread's is registered with them. */
  lemma EnterBreaks(s: State, startOk: bool)
    requires Inv(s) && Entering(s) && OpensWrong(s, startOk)
    ensures !Sound(Enter(s, startOk))
  {
    var st, id := s.starting.value, s.pool.next;
    var p := Enter(s, startOk).pool;
    assert p.current == Some(id) && id in p.live && !p.live[id].stale && p.live[id].config == st.settings;
  }

  /** A call that goes wrong is one mid-turn or with other settings, or puts a turn under a status that denies it. */
  lemma DeliverBreaks(s: State, sendOk: bool)
    requires Inv(s) && Calling(s) && CallsWrong(s, sendOk)
    ensures !Sound(Deliver(s, sendOk))
  {
    var id := s.starting.value.session.value;
    var l, r := s.pool.live[id], Deliver(s, sendOk);
    FreedAt(s, id);
    assert r.calls == s.calls + [Call(l.config, s.thread.settings, l.flying)];
    assert r.calls[|s.calls|] == Call(l.config, s.thread.settings, l.flying);
    if Takes(l, sendOk) && !Busy(s.thread) { assert id in r.pool.live && r.pool.live[id].flying; }
  }

  lemma MarkBreaks(s: State)
    requires Inv(s) && InFlight(s.pool)
    ensures !Sound(MarkIdle(s))
  {
    var id :| id in s.pool.live && s.pool.live[id].flying;
    assert id in MarkIdle(s).pool.live;
  }

  lemma WriteBreaks(s: State, id: nat)
    requires Inv(s) && CanWrite(s.pool, id) && s.pool.live[id].closing.write.Some? && InFlight(s.pool)
    ensures !Sound(Write(s, id))
  {
    var other :| other in s.pool.live && s.pool.live[other].flying;
    assert Contract(s.pool.live[id]);
    assert other in Write(s, id).pool.live && Write(s, id).pool.live[other].flying;
  }

  lemma RequestBreaks(s: State, id: nat, resolveOk: bool)
    requires Hazard(s, Pumped(id, resolveOk))
    ensures !Answerable(Pump(s, id, resolveOk).thread)
  {
    assert s.thread.pending - {s.pool.live[id].inbox[0].approval} == map[];
  }

  lemma EndBreaks(s: State, id: nat)
    requires CanEnd(s, id) && s.prompts.queue != [] && s.thread.status == Awaiting
    ensures !Answerable(EndTurn(s, id).thread)
  {
  }

  lemma HazardBreaks(s: State, a: Act)
    requires Inv(s) && Hazard(s, a)
    ensures !Sound(Step(s, a))
  {
    match a
    case Resumed => ResumeBreaks(s);
    case Entered(startOk) => EnterBreaks(s, startOk);
    case Called(sendOk) => DeliverBreaks(s, sendOk);
    case Ended(id) => EndBreaks(s, id);
    case Marked => MarkBreaks(s);
    case Written(id) => WriteBreaks(s, id);
    case Pumped(id, resolveOk) => RequestBreaks(s, id, resolveOk);
  }

  ghost predicate HazardAt(s: State, acts: seq<Act>, k: nat)
    requires k < |acts|
  {
    Hazard(Run(s, acts[..k]), acts[k])
  }

  ghost predicate SoundAt(s: State, acts: seq<Act>, k: nat)
    requires k <= |acts|
  {
    Sound(Run(s, acts[..k]))
  }

  lemma {:induction false} InvUntilHazard(settings: Settings, acts: seq<Act>, n: nat)
    requires n <= |acts| && forall k :: 0 <= k < n ==> !HazardAt(Init(settings), acts, k)
    ensures Inv(Run(Init(settings), acts[..n]))
  {
    if n > 0 {
      InvUntilHazard(settings, acts, n - 1);
      assert acts[..n][..n - 1] == acts[..n - 1] && !HazardAt(Init(settings), acts, n - 1);
      StepKeeps(Run(Init(settings), acts[..n - 1]), acts[n - 1]);
    }
  }

  /** Every state of a run is sound exactly when no step of it is one of the hazards. */
  lemma SoundExactly(settings: Settings, acts: seq<Act>)
    ensures (forall k :: 0 <= k <= |acts| ==> SoundAt(Init(settings), acts, k))
       <==> (forall k :: 0 <= k < |acts| ==> !HazardAt(Init(settings), acts, k))
  {
    if k :| 0 <= k < |acts| && HazardAt(Init(settings), acts, k) {
      FirstHazard(settings, acts, k);
    } else {
      forall k | 0 <= k <= |acts| ensures SoundAt(Init(settings), acts, k) { InvUntilHazard(settings, acts, k); }
    }
  }

  lemma {:induction false} FirstHazard(settings: Settings, acts: seq<Act>, k: nat)
    requires k < |acts| && HazardAt(Init(settings), acts, k)
    ensures exists n :: 0 <= n <= |acts| && !SoundAt(Init(settings), acts, n)
    decreases k
  {
    if j :| 0 <= j < k && HazardAt(Init(settings), acts, j) {
      FirstHazard(settings, acts, j);
    } else {
      InvUntilHazard(settings, acts, k);
      HazardBreaks(Run(Init(settings), acts[..k]), acts[k]);
      assert acts[..k + 1][..k] == acts[..k];
      assert !SoundAt(Init(settings), acts, k + 1);
    }
  }

  // ---- Session rules ----

  /** The step answers a pending request under `key` for good. */
  predicate Grants(s: State, a: Act, key: string) {
    a.Answered? && a.lasting && a.resolveOk && s.pool.current.Some?
    && a.approval in s.thread.pending && s.thread.pending[a.approval] == key
  }

  ghost predicate GrantedAt(s: State, acts: seq<Act>, key: string, i: nat)
    requires i < |acts|
  {
    Grants(Run(s, acts[..i]), acts[i], key) && forall j :: i < j < |acts| ==> acts[j] != Revoked(key)
  }

  lemma RuleStep(s: State, a: Act, key: string)
    ensures key in Step(s, a).thread.rules <==> Grants(s, a, key) || (key in s.thread.rules && a != Revoked(key))
  {
    if !a.Answered? && !a.Revoked? { RulesUnmoved(s, a); }
  }

  lemma RecoveryLeavesRules(s: State, resume: bool, startOk: bool, sendOk: bool)
    ensures Recover(s, resume, startOk, sendOk).thread.rules == s.thread.rules
  {
    assert Down(s, resume).thread.rules == s.thread.rules;
  }

  lemma CommandLeavesRules(s: State, a: Act)
    requires Command(a) && !a.Answered? && !a.Revoked?
    ensures Step(s, a).thread.rules == s.thread.rules
  {
  }

  lemma ReadingLeavesRules(s: State, a: Act)
    requires a.Reports? || a.Pumped? || a.Judged? || a.Written?
    ensures Step(s, a).thread.rules == s.thread.rules
  {
  }

  lemma RulesUnmoved(s: State, a: Act)
    requires !a.Answered? && !a.Revoked?
    ensures Step(s, a).thread.rules == s.thread.rules
  {
    if Command(a) { CommandLeavesRules(s, a); }
    else if a.Reports? || a.Pumped? || a.Judged? || a.Written? { ReadingLeavesRules(s, a); }
    else if a.Restarted? { RecoveryLeavesRules(s, a.resume, a.startOk, a.sendOk); }
  }

  lemma GrantedLater(s: State, acts: seq<Act>, key: string, i: nat)
    requires i + 1 < |acts|
    ensures GrantedAt(s, acts, key, i) <==> GrantedAt(s, acts[..|acts| - 1], key, i) && acts[|acts| - 1] != Revoked(key)
  {
    assert acts[..|acts| - 1][..i] == acts[..i];
    assert forall j :: 0 <= j < |acts| - 1 ==> acts[..|acts| - 1][j] == acts[j];
  }

  /** Some answer gave the rule for good and nothing revoked it since. */
  ghost predicate Granted(s: State, acts: seq<Act>, key: string) {
    exists i :: 0 <= i < |acts| && GrantedAt(s, acts, key, i)
  }

  /**
   * A rule is in force exactly if a lasting answer gave it and it was not revoked since, through any turns and
   * restarts.
   */
  lemma {:induction false} RulesExactly(s: State, acts: seq<Act>, key: string)
    requires s.thread.rules == {}
    ensures key in Run(s, acts).thread.rules <==> Granted(s, acts, key)
  {
    if acts != [] {
      var n := |acts| - 1;
      RulesExactly(s, acts[..n], key);
      RuleStep(Run(s, acts[..n]), acts[n], key);
      assert GrantedAt(s, acts, key, n) <==> Grants(Run(s, acts[..n]), acts[n], key);
      forall i | 0 <= i < n
        ensures GrantedAt(s, acts, key, i) <==> GrantedAt(s, acts[..n], key, i) && acts[n] != Revoked(key)
      {
        GrantedLater(s, acts, key, i);
      }
    }
  }

  /**
   * After any run, a request is answered without asking, and nothing is pending under its id, exactly if a lasting
   * answer gave its rule, it was not revoked since and the session takes the answer; otherwise the thread awaits it.
   */
  lemma RulesAnswer(settings: Settings, acts: seq<Act>, id: nat, resolveOk: bool)
    requires var s := Run(Init(settings), acts); CanPump(s.pool, id) && s.pool.live[id].inbox[0].Asked?
    ensures var s := Run(Init(settings), acts);
            var r := s.pool.live[id].inbox[0];
            var t := Run(Init(settings), acts + [Pumped(id, resolveOk)]).thread;
            if Granted(Init(settings), acts, r.key) && resolveOk
            then t == s.thread.(pending := s.thread.pending - {r.approval})
            else t.status == Awaiting && t.pending == s.thread.pending[r.approval := r.key]
  {
    var s := Run(Init(settings), acts);
    var r := s.pool.live[id].inbox[0];
    RulesExactly(Init(settings), acts, r.key);
    assert (acts + [Pumped(id, resolveOk)])[..|acts|] == acts;
    PumpedRequest(s, id, resolveOk);
  }

  lemma PumpedRequest(s: State, id: nat, resolveOk: bool)
    requires CanPump(s.pool, id) && s.pool.live[id].inbox[0].Asked?
    ensures var r := s.pool.live[id].inbox[0];
            var t := Step(s, Pumped(id, resolveOk)).thread;
            if r.key in s.thread.rules && resolveOk then t == s.thread.(pending := s.thread.pending - {r.approval})
            else t.status == Awaiting && t.pending == s.thread.pending[r.approval := r.key]
  {
  }
}
