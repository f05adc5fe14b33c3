/** Runs that reach the hazards: none of the conditions of soundness can be left out. */
module ProtocolHazards {
  import opened Domain
  import opened Protocol
  import opened ProtocolSafety

  /** A run that keeps every promise up to its last step, a hazard, and breaks one with it. */
  ghost predicate Unsound(st: Settings, acts: seq<Act>) {
    && acts != [] && Inv(Run(Init(st), acts[..|acts| - 1]))
    && Hazard(Run(Init(st), acts[..|acts| - 1]), acts[|acts| - 1]) && !Sound(Run(Init(st), acts))
  }

  lemma Then(st: Settings, acts: seq<Act>, a: Act)
    ensures Run(Init(st), acts + [a]) == Step(Run(Init(st), acts), a)
  {
    assert (acts + [a])[..|acts|] == acts;
  }

  lemma Next(st: Settings, acts: seq<Act>, a: Act)
    requires Inv(Run(Init(st), acts)) && !Hazard(Run(Init(st), acts), a)
    ensures Run(Init(st), acts + [a]) == Step(Run(Init(st), acts), a) && Inv(Run(Init(st), acts + [a]))
  {
    Then(st, acts, a);
    StepKeeps(Run(Init(st), acts), a);
  }

  lemma Last(st: Settings, acts: seq<Act>, a: Act)
    requires Inv(Run(Init(st), acts)) && Hazard(Run(Init(st), acts), a)
    ensures Unsound(st, acts + [a])
  {
    Then(st, acts, a);
    HazardBreaks(Run(Init(st), acts), a);
    assert (acts + [a])[..|acts|] == acts;
  }

  lemma LastTwo(st: Settings, acts: seq<Act>, a: Act, b: Act)
    requires Inv(Run(Init(st), acts)) && !Hazard(Run(Init(st), acts), a)
    requires Hazard(Step(Run(Init(st), acts), a), b)
    ensures Unsound(st, acts + [a] + [b])
  {
    Next(st, acts, a);
    Last(st, acts + [a], b);
  }

  /** Three more steps. */
  lemma Tail(acts: seq<Act>, a: Act, b: Act, c: Act)
    ensures var all := acts + [a] + [b] + [c];
            |all| >= 3 && all[|all| - 3] == a && all[|all| - 1] == c
    ensures Interrupted !in acts && a != Interrupted && b != Interrupted && c != Interrupted ==>
      Interrupted !in acts + [a] + [b] + [c]
    ensures acts == [] ==> acts + [a] + [b] + [c] == [a, b, c]
  {
  }

  // ---- A prompt goes out ----

  const ASK := Prompted("go on")

  const ENTER := Entered(true)

  const CALL := Called(true)

  /** A session in a turn, with reports still to be read. */
  function Working(st: Settings, inbox: seq<Report>): Live {
    Live(st, false, false, true, true, None, false, inbox, Serving)
  }

  function One(id: nat, l: Live): Pool {
    Pool(map[id := l], Some(id), id + 1)
  }

  /** An idle thread without a session, and nobody else at it. */
  predicate Vacant(s: State) {
    !Busy(s.thread) && !Locked(s) && s.pool.current == None && s.prompts.queue == []
  }

  /** Its prompt is in flight on a new session. */
  function Gone(s: State): State {
    var p := Pool(s.pool.live[s.pool.next := Working(s.thread.settings, [])], Some(s.pool.next), s.pool.next + 1);
    s.(thread := s.thread.(status := Running, items := s.thread.items + 1), pool := p,
       prompts := Pass(s.prompts, Prompt(|s.prompts.accepted|, "go on")),
       starting := None, calls := s.calls + [Call(s.thread.settings, s.thread.settings, false)])
  }

  /** The prompt is written down for a new session, which is not called yet. */
  function Poised(s: State): State {
    var l := Live(s.thread.settings, false, false, false, false, None, false, [], Serving);
    s.(thread := s.thread.(status := Running, items := s.thread.items + 1),
       pool := Pool(s.pool.live[s.pool.next := l], Some(s.pool.next), s.pool.next + 1),
       prompts := Pass(s.prompts, Prompt(|s.prompts.accepted|, "go on")),
       starting := Some(Starting(Some(s.pool.next), s.thread.settings, Ask("go on"), true)))
  }

  lemma Asking(s: State)
    requires Vacant(s)
    ensures Step(s, ASK) == s.(starting := Some(Starting(None, s.thread.settings, Ask("go on"), false)))
  {
  }

  lemma Enters(s: State, t: State)
    requires Vacant(s) && t == s.(starting := Some(Starting(None, s.thread.settings, Ask("go on"), false)))
    ensures Step(t, ENTER) == Poised(s) && !Hazard(t, ENTER)
  {
    var id, l := s.pool.next, Live(s.thread.settings, false, false, false, false, None, false, [], Serving);
    assert s.pool.live[id := l][id := l] == s.pool.live[id := l];
  }

  lemma IsCalled(s: State)
    requires Vacant(s)
    ensures Step(Poised(s), CALL) == Gone(s) && !Hazard(Poised(s), CALL)
  {
    var id, l := s.pool.next, Live(s.thread.settings, false, false, false, false, None, false, [], Serving);
    assert s.pool.live[id := l][id := Working(s.thread.settings, [])] ==
      s.pool.live[id := Working(s.thread.settings, [])];
  }

  lemma Poises(st: Settings, acts: seq<Act>)
    requires Inv(Run(Init(st), acts)) && Vacant(Run(Init(st), acts))
    ensures var t := Run(Init(st), acts + [ASK] + [ENTER]); t == Poised(Run(Init(st), acts)) && Inv(t)
  {
    var s := Run(Init(st), acts);
    Asking(s);
    Next(st, acts, ASK);
    Enters(s, Step(s, ASK));
    Next(st, acts + [ASK], ENTER);
  }

  lemma Goes(st: Settings, acts: seq<Act>)
    requires Inv(Run(Init(st), acts)) && Vacant(Run(Init(st), acts))
    ensures var t := Run(Init(st), acts + [ASK] + [ENTER] + [CALL]); t == Gone(Run(Init(st), acts)) && Inv(t)
  {
    Poises(st, acts);
    IsCalled(Run(Init(st), acts));
    Next(st, acts + [ASK] + [ENTER], CALL);
  }

  lemma Flying(s: State)
    ensures InFlight(Gone(s).pool)
  {
    assert Gone(s).pool.live[s.pool.next].flying;
  }

  // ---- Reports are read ----

  lemma Replaced(id: nat, l: Live, m: Live)
    ensures map[id := l][id := m] == map[id := m]
  {
  }

  /** A report arrives at the only session, whose inbox is empty. */
  lemma Arrives(s: State, id: nat, l: Live, r: Report)
    requires s.pool == One(id, l) && l.inbox == [] && Allowed(l, r)
    ensures Step(s, Reports(id, r)) == s.(pool := One(id, Reported(l, r))) && Reported(l, r).inbox == [r]
  {
    Replaced(id, l, Reported(l, r));
  }

  /** And is read. */
  lemma IsRead(s: State, id: nat, l: Live)
    requires s.pool == One(id, l) && |l.inbox| == 1 && l.ending == None && l.closing == Serving && !l.inbox[0].Closed?
    ensures Step(s, Pumped(id, true)) == s.(pool := One(id, Read(l)), thread := Heard(s.thread, l.inbox[0], true))
  {
    Replaced(id, l, Read(l));
  }

  /** Both, and it is no hazard. */
  lemma Hears(st: Settings, acts: seq<Act>, l: Live, r: Report)
    requires var s := Run(Init(st), acts);
             Inv(s) && s.pool == One(0, l) && !Repeats(s.thread, r, true)
    requires l.inbox == [] && Allowed(l, r) && l.ending == None && !r.Closed?
    ensures var s := Run(Init(st), acts);
            var t := Run(Init(st), acts + [Reports(0, r)] + [Pumped(0, true)]);
            Inv(t) && t == s.(pool := One(0, Read(Reported(l, r))), thread := Heard(s.thread, r, true))
  {
    var s := Run(Init(st), acts);
    var u := s.(pool := One(0, Reported(l, r)));
    Arrives(s, 0, l, r);
    Next(st, acts, Reports(0, r));
    IsRead(u, 0, Reported(l, r));
    Next(st, acts + [Reports(0, r)], Pumped(0, true));
  }

  lemma ReadOne(st: Settings, r: Report)
    ensures Reported(Working(st, []), r).inbox == [r] && Read(Reported(Working(st, []), r)).inbox == []
  {
  }

  /** The thread's first prompt is in flight on session 0. */
  lemma Begun(st: Settings) returns (acts: seq<Act>)
    ensures var s := Run(Init(st), acts);
            Inv(s) && s.pool == One(0, Working(st, [])) && s.prompts.queue == [] && !Locked(s) && !s.cutOff
              && !s.resuming
            && s.thread == Thread(Running, st, false, 1, map[], {})
    ensures Interrupted !in acts
  {
    Goes(st, []);
    acts := [] + [ASK] + [ENTER] + [CALL];
  }

  /** It asks for an approval. */
  lemma AskedRun(st: Settings) returns (acts: seq<Act>)
    ensures var s := Run(Init(st), acts);
            Inv(s) && s.pool == One(0, Working(st, [])) && s.prompts.queue == [] && !Locked(s)
            && s.thread == Thread(Awaiting, st, false, 1, map["id" := "k"], {})
  {
    acts := Begun(st);
    ReadOne(st, Asked("id", "k"));
    Hears(st, acts, Working(st, []), Asked("id", "k"));
    assert Read(Reported(Working(st, []), Asked("id", "k"))) == Working(st, []);
    acts := acts + [Reports(0, Asked("id", "k"))] + [Pumped(0, true)];
  }

  // ---- The resume ----

  lemma Crashed(s: State)
    requires Busy(s.thread) && s.thread.bound
    ensures Step(s, Restarted(true, true, true)) ==
            s.(pool := Pool(map[], None, s.pool.next), starting := None, cutOff := true, resuming := false)
  {
  }

  /** A bound session's turn is cut off by a restart. */
  lemma CutOffRun(st: Settings) returns (acts: seq<Act>)
    ensures var s := Run(Init(st), acts);
            Inv(s) && s.cutOff && !s.resuming && s.thread.status == Running && s.thread.settings == st
            && !Locked(s) && s.prompts.queue == [] && s.pool.live == map[] && s.pool.current == None
    ensures Interrupted !in acts
  {
    acts := Begun(st);
    ReadOne(st, SessionInfo);
    Hears(st, acts, Working(st, []), SessionInfo);
    acts := acts + [Reports(0, SessionInfo)] + [Pumped(0, true)];
    Crashed(Run(Init(st), acts));
    Next(st, acts, Restarted(true, true, true));
    acts := acts + [Restarted(true, true, true)];
  }

  /** Interrupted before it is resumed, the thread takes a prompt, and the resume marks it idle mid-turn. */
  lemma MarkedMidTurn(st: Settings) returns (acts: seq<Act>)
    ensures Unsound(st, acts) && acts[|acts| - 1] == Marked
  {
    acts := CutOffRun(st);
    Next(st, acts, Interrupted);
    acts := acts + [Interrupted];
    Flying(Run(Init(st), acts));
    Goes(st, acts);
    acts := acts + [ASK] + [ENTER] + [CALL];
    Last(st, acts, Marked);
    acts := acts + [Marked];
  }

  /** A prompt comes between the two halves of the resume. */
  lemma PromptBetween(st: Settings) returns (acts: seq<Act>)
    ensures var s := Run(Init(st), acts);
            Inv(s) && s.resuming && !Locked(s) && Busy(s.thread) && s.thread.settings == st
            && exists id :: s.pool == One(id, Working(st, []))
    ensures Interrupted !in acts
  {
    acts := CutOffRun(st);
    Next(st, acts, Marked);
    acts := acts + [Marked];
    var s := Run(Init(st), acts);
    assert Gone(s).pool == One(s.pool.next, Working(st, []));
    Goes(st, acts);
    acts := acts + [ASK] + [ENTER] + [CALL];
  }

  lemma TakenMidTurn(s: State, id: nat, l: Live)
    requires s.resuming && !Locked(s) && s.pool == One(id, l) && l.flying && !l.stale && !l.idle
    ensures !Hazard(s, Resumed)
    ensures var t := Step(s, Resumed);
            t == s.(resuming := false, starting := Some(Starting(Some(id), s.thread.settings, Again, false)))
            && !Hazard(t, ENTER) && Hazard(Step(t, ENTER), CALL)
  {
  }

  /** The resume then starts its turn in the middle of the prompt's. */
  lemma ResumedMidTurn(st: Settings) returns (acts: seq<Act>)
    ensures |acts| >= 3 && Unsound(st, acts) && acts[|acts| - 1] == CALL && acts[|acts| - 3] == Resumed
      && Interrupted !in acts
  {
    acts := PromptBetween(st);
    var s := Run(Init(st), acts);
    var id :| s.pool == One(id, Working(st, []));
    TakenMidTurn(s, id, Working(st, []));
    Next(st, acts, Resumed);
    LastTwo(st, acts + [Resumed], ENTER, CALL);
    Tail(acts, Resumed, ENTER, CALL);
    acts := acts + [Resumed] + [ENTER] + [CALL];
  }

  function Other(st: Settings): Settings {
    st.(model := st.model + "+")
  }

  lemma StaleMidTurn(s: State, id: nat, st: Settings)
    requires s.pool == One(id, Working(st, [])) && s.thread.settings == st && Busy(s.thread)
    ensures Step(s, Configured(Other(st), true)).pool == One(id, Working(st, []).(stale := true))
    ensures Step(s, Configured(Other(st), true)).resuming == s.resuming
    ensures Step(s, Configured(Other(st), true)).starting == s.starting
  {
    Replaced(id, Working(st, []), Working(st, []).(stale := true));
  }

  /** Or, if the model was changed meanwhile, closes the session in the middle of it. */
  lemma ResumedOverStale(st: Settings) returns (acts: seq<Act>)
    ensures Unsound(st, acts) && acts[|acts| - 1] == Resumed && Interrupted !in acts
  {
    acts := PromptBetween(st);
    var s := Run(Init(st), acts);
    var id :| s.pool == One(id, Working(st, []));
    StaleMidTurn(s, id, st);
    Next(st, acts, Configured(Other(st), true));
    acts := acts + [Configured(Other(st), true)];
    assert Run(Init(st), acts).pool.live[id].flying;
    Last(st, acts, Resumed);
    acts := acts + [Resumed];
  }

  // ---- Settings change while a turn starts ----

  lemma ChangedWhenAsked(s: State, st: Settings)
    requires Vacant(s) && s.thread.settings == st
    ensures Hazard(Step(Step(s, ASK), Configured(Other(st), true)), ENTER)
  {
    assert st.model != Other(st).model;
  }

  /** A prompt is about to start a session when the model changes; the session gets the old one. */
  lemma LaunchedWithOld(st: Settings) returns (acts: seq<Act>)
    ensures Unsound(st, acts) && acts == [ASK, Configured(Other(st), true), ENTER]
  {
    Asking(Init(st));
    Next(st, [], ASK);
    ChangedWhenAsked(Init(st), st);
    LastTwo(st, [] + [ASK], Configured(Other(st), true), ENTER);
    acts := [] + [ASK] + [Configured(Other(st), true)] + [ENTER];
  }

  lemma ChangedWhenPoised(s: State, st: Settings)
    requires Vacant(s) && s.thread.settings == st
    ensures Hazard(Step(Poised(s), Configured(Other(st), true)), CALL)
  {
    assert st.model != Other(st).model;
  }

  /** Or the prompt is written down when it changes, and is sent to the session with the old one. */
  lemma CalledWithOld(st: Settings) returns (acts: seq<Act>)
    ensures |acts| == 4 && Unsound(st, acts) && acts[1] == ENTER && acts[3] == CALL
  {
    Poises(st, []);
    ChangedWhenPoised(Init(st), st);
    LastTwo(st, [] + [ASK] + [ENTER], Configured(Other(st), true), CALL);
    Tail([] + [ASK], ENTER, Configured(Other(st), true), CALL);
    acts := [] + [ASK] + [ENTER] + [Configured(Other(st), true)] + [CALL];
  }

  /** A turn that is over, with its end read and a prompt waiting. */
  function Done(st: Settings): Live {
    Live(st, false, true, true, false, Some(false), false, [], Serving)
  }

  lemma TurnOver(st: Settings, acts: seq<Act>) returns (more: seq<Act>)
    requires var s := Run(Init(st), acts); Inv(s) && s.pool == One(0, Working(st, [])) && Busy(s.thread) && !Locked(s)
    ensures var s := Run(Init(st), acts);
            var t := Run(Init(st), more);
            Inv(t) && t.pool == One(0, Done(st)) && t.thread == s.thread && !Locked(t) && t.prompts.queue != []
  {
    Next(st, acts, ASK);
    more := acts + [ASK];
    ReadOne(st, Completed(false));
    Hears(st, more, Working(st, []), Completed(false));
    assert Read(Reported(Working(st, []), Completed(false))) == Done(st);
    more := more + [Reports(0, Completed(false))] + [Pumped(0, true)];
  }

  /** An approval unanswered, a prompt waiting, the turn ended: the thread is left awaiting with nothing pending. */
  lemma AwaitingNothing(st: Settings) returns (acts: seq<Act>)
    ensures Unsound(st, acts) && acts[|acts| - 1] == Ended(0)
  {
    acts := AskedRun(st);
    acts := TurnOver(st, acts);
    Last(st, acts, Ended(0));
    acts := acts + [Ended(0)];
  }

  /** The oldest queued prompt is to follow on the session. */
  function Following(st: Settings): Starting {
    Starting(Some(0), st, Protocol.Next(0), false)
  }

  lemma HandedOver(s: State, st: Settings)
    requires s.pool == One(0, Done(st)) && s.thread.settings == st && s.thread.status == Running
    requires !Locked(s) && s.prompts.queue != []
    ensures var t := Step(s, Ended(0));
            t.pool == One(0, Done(st).(flying := false)) && t.starting == Some(Following(st))
            && t.thread.settings == st && t.thread.status == Running && t.prompts == s.prompts && t.thread.items > 0
    ensures !Hazard(s, Ended(0))
  {
    Replaced(0, Done(st), Done(st).(flying := false));
  }

  lemma ChangedBetween(s: State, st: Settings)
    requires s.pool == One(0, Done(st).(flying := false)) && s.starting == Some(Following(st))
    requires s.thread.settings == st && s.thread.status == Running && s.prompts.queue != []
    ensures var t := Step(s, Configured(Other(st), true)); !Hazard(t, ENTER) && Hazard(Step(t, ENTER), CALL)
  {
    Replaced(0, Done(st).(flying := false), Done(st).(flying := false, stale := true));
    assert st.model != Other(st).model;
  }

  /** A queued prompt is about to follow on its turn's session when the model changes; it is sent there all the same. */
  lemma SentWithOld(st: Settings) returns (acts: seq<Act>)
    ensures |acts| >= 4 && Unsound(st, acts) && acts[|acts| - 1] == CALL && acts[|acts| - 4] == Ended(0)
  {
    acts := Begun(st);
    acts := TurnOver(st, acts);
    var s := Run(Init(st), acts);
    HandedOver(s, st);
    Next(st, acts, Ended(0));
    acts := acts + [Ended(0)];
    ChangedBetween(Step(s, Ended(0)), st);
    Next(st, acts, Configured(Other(st), true));
    LastTwo(st, acts + [Configured(Other(st), true)], ENTER, CALL);
    acts := acts + [Configured(Other(st), true)] + [ENTER] + [CALL];
  }

  // ---- Requests ----

  /** A request is answered for good. */
  lemma RuleRun(st: Settings) returns (acts: seq<Act>)
    ensures var s := Run(Init(st), acts);
            Inv(s) && s.pool == One(0, Working(st, [])) && s.thread.status == Running
            && s.thread.rules == {"k"} && s.thread.pending == map[]
  {
    acts := AskedRun(st);
    var t := Run(Init(st), acts).thread;
    assert t.pending - {"id"} == map[];
    Next(st, acts, Answered("id", true, true));
    acts := acts + [Answered("id", true, true)];
  }

  /** A rule given for one request answers another with the id of the one that is pending. */
  lemma RepeatedRequest(st: Settings) returns (acts: seq<Act>)
    ensures Unsound(st, acts) && acts[|acts| - 1].Pumped?
  {
    acts := RuleRun(st);
    ReadOne(st, Asked("id", "j"));
    Hears(st, acts, Working(st, []), Asked("id", "j"));
    assert Read(Reported(Working(st, []), Asked("id", "j"))) == Working(st, []);
    acts := acts + [Reports(0, Asked("id", "j"))] + [Pumped(0, true)];
    var s := Run(Init(st), acts);
    assert s.thread.status == Awaiting && "k" in s.thread.rules && s.thread.pending.Keys == {"id"};
    Arrives(s, 0, Working(st, []), Asked("id", "k"));
    Next(st, acts, Reports(0, Asked("id", "k")));
    acts := acts + [Reports(0, Asked("id", "k"))];
    Last(st, acts, Pumped(0, true));
    acts := acts + [Pumped(0, true)];
  }

  // ---- A session closes ----

  function Resting(st: Settings, inbox: seq<Report>): Live {
    Live(st, false, true, false, false, None, false, inbox, Serving)
  }

  lemma TurnEnds(s: State, l: Live, st: Settings)
    requires s.pool == One(0, l) && l == Resting(st, []).(flying := true, ending := Some(true))
    requires s.prompts.queue == [] && !Locked(s) && s.thread.settings == st
    ensures var t := Step(s, Ended(0));
            t.pool == One(0, Resting(st, [])) && t.thread.status == Error && t.thread.settings == st
            && t.prompts == s.prompts && !Locked(t)
    ensures !Hazard(s, Ended(0))
  {
    Replaced(0, l, Resting(st, []));
  }

  /** A turn has failed; its session is idle and stays registered. */
  lemma FailedRun(st: Settings) returns (acts: seq<Act>)
    ensures var s := Run(Init(st), acts);
            Inv(s) && s.pool == One(0, Resting(st, [])) && s.thread.status == Error && s.thread.settings == st
            && s.prompts.queue == [] && !Locked(s)
  {
    acts := Begun(st);
    ReadOne(st, Completed(true));
    Hears(st, acts, Working(st, []), Completed(true));
    var l := Resting(st, []).(flying := true, ending := Some(true));
    assert Read(Reported(Working(st, []), Completed(true))) == l;
    acts := acts + [Reports(0, Completed(true))] + [Pumped(0, true)];
    TurnEnds(Run(Init(st), acts), l, st);
    Next(st, acts, Ended(0));
    acts := acts + [Ended(0)];
  }

  function Leaving(st: Settings, closing: Closing): Live {
    Live(st, false, true, false, false, None, true, [], closing)
  }

  lemma ClosingRead(s: State, st: Settings, err: bool)
    requires s.pool == One(0, Resting(st, [Closed(err)]).(gone := true))
    ensures Step(s, Pumped(0, true)) == s.(pool := Pool(map[0 := Leaving(st, Unlisted(err, true))], None, 1))
  {
    Replaced(0, Resting(st, [Closed(err)]).(gone := true), Leaving(st, Unlisted(err, true)));
  }

  lemma ClosingJudged(s: State, st: Settings, err: bool)
    requires s.pool == Pool(map[0 := Leaving(st, Unlisted(err, true))], None, 1) && s.thread.status == Error
    ensures Step(s, Judged(0)) ==
            s.(pool := Pool(map[0 := Leaving(st, Ruled(Some(if err then Error else Idle)))], None, 1))
  {
    Replaced(0, Leaving(st, Unlisted(err, true)), Leaving(st, Ruled(Some(if err then Error else Idle))));
  }

  /** A session closes while the thread is in error, and its pump has read the status. */
  lemma LeavingRun(st: Settings, err: bool) returns (acts: seq<Act>)
    ensures var s := Run(Init(st), acts);
            Inv(s) && s.pool == Pool(map[0 := Leaving(st, Ruled(Some(if err then Error else Idle)))], None, 1)
            && Vacant(s)
  {
    acts := FailedRun(st);
    Arrives(Run(Init(st), acts), 0, Resting(st, []), Closed(err));
    Next(st, acts, Reports(0, Closed(err)));
    acts := acts + [Reports(0, Closed(err))];
    ClosingRead(Run(Init(st), acts), st, err);
    Next(st, acts, Pumped(0, true));
    acts := acts + [Pumped(0, true)];
    ClosingJudged(Run(Init(st), acts), st, err);
    Next(st, acts, Judged(0));
    acts := acts + [Judged(0)];
  }

  /** Then a prompt starts a turn on a new session, and the status the pump decided on is written all the same. */
  lemma ClosedMidTurn(st: Settings, err: bool) returns (acts: seq<Act>)
    ensures Unsound(st, acts) && acts[|acts| - 1] == Written(0)
  {
    acts := LeavingRun(st, err);
    var s := Run(Init(st), acts);
    Flying(s);
    Goes(st, acts);
    assert Gone(s).pool.live[0] == s.pool.live[0];
    acts := acts + [ASK] + [ENTER] + [CALL];
    Last(st, acts, Written(0));
    acts := acts + [Written(0)];
  }

  /** Or the prompt is written down, then the status over it, and then the prompt is sent. */
  lemma ClosedBeforeCall(st: Settings, err: bool) returns (acts: seq<Act>)
    ensures |acts| >= 3 && Unsound(st, acts) && acts[|acts| - 1] == CALL && acts[|acts| - 2] == Written(0)
  {
    acts := LeavingRun(st, err);
    var s := Run(Init(st), acts);
    Poises(st, acts);
    StatusOver(s, st, err);
    LastTwo(st, acts + [ASK] + [ENTER], Written(0), CALL);
    acts := acts + [ASK] + [ENTER] + [Written(0)] + [CALL];
  }

  lemma StatusOver(s: State, st: Settings, err: bool)
    requires s.pool == Pool(map[0 := Leaving(st, Ruled(Some(if err then Error else Idle)))], None, 1) && Vacant(s)
    ensures !Hazard(Poised(s), Written(0)) && Hazard(Step(Poised(s), Written(0)), CALL)
  {
    var t := Poised(s);
    assert t.pool.live[0] == s.pool.live[0] && !t.pool.live[1].flying;
  }
}
