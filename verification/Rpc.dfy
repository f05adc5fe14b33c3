/**
 * The JSON-RPC client that every codex session shares: calls from many goroutines, one reader, one process that may
 * die. Requests and responses pair by id as in sections 4 and 5 of the JSON-RPC 2.0 specification.
 */
module Rpc {
  import opened Domain

  /** What a call's channel can carry: a response, or the error that stands for a process gone. */
  datatype Mail = Answer(id: int, body: string) | Gone

  datatype Outcome = Got(mail: Mail) | WriteFailed | TimedOut

  datatype Phase = Writing | Waiting | Returned(outcome: Outcome)

  /** A call, all its channel was ever sent, and what still lies in it; the channel holds one message. */
  datatype Call = Call(phase: Phase, sent: seq<Mail>, box: seq<Mail>)

  /** The reader goroutine: it may hold a response whose call it has already removed, or be failing the calls left. */
  datatype Reader = Reading | Holding(id: nat, mail: Mail) | Failing(left: set<nat>) | Ended

  datatype State = State(nextID: nat, pending: set<nat>, calls: map<nat, Call>, reader: Reader, refused: nat)

  predicate Dead(s: State) {
    s.reader.Failing? || s.reader.Ended?
  }

  function WithCall(s: State, id: nat, c: Call): State {
    s.(calls := s.calls[id := c])
  }

  /** A sent message enters the channel and its history. */
  function Post(c: Call, m: Mail): Call {
    c.(sent := c.sent + [m], box := c.box + [m])
  }

  // ---- The steps ----

  function Begin(s: State): State {
    if Dead(s) then s.(refused := s.refused + 1)
    else
      var id := s.nextID + 1;
      s.(nextID := id, pending := s.pending + {id}, calls := s.calls[id := Call(Writing, [], [])])
  }

  /** The request is written, or the call gives up; a dead client writes nothing. */
  function Wrote(s: State, id: nat, ok: bool): State {
    if id !in s.calls || s.calls[id].phase != Writing then s
    else if ok && !Dead(s) then WithCall(s, id, s.calls[id].(phase := Waiting))
    else WithCall(s, id, s.calls[id].(phase := Returned(WriteFailed))).(pending := s.pending - {id})
  }

  /** The process died between the check and a write that still went through. */
  function WroteLate(s: State, id: nat): State {
    if id !in s.calls || s.calls[id].phase != Writing then s else WithCall(s, id, s.calls[id].(phase := Waiting))
  }

  function Timeout(s: State, id: nat): State {
    if id !in s.calls || s.calls[id].phase != Waiting then s
    else WithCall(s, id, s.calls[id].(phase := Returned(TimedOut))).(pending := s.pending - {id})
  }

  function Receive(s: State, id: nat): State {
    if id !in s.calls || s.calls[id].phase != Waiting || s.calls[id].box == [] then s
    else WithCall(s, id, s.calls[id].(phase := Returned(Got(s.calls[id].box[0])), box := s.calls[id].box[1..]))
  }

  /** A response line; `id` is `None` when it does not parse as a number. */
  function Arrive(s: State, id: Option<int>, body: string): State {
    if s.reader != Reading || id == None || id.value < 0 || id.value !in s.pending then s
    else s.(pending := s.pending - {id.value}, reader := Holding(id.value, Answer(id.value, body)))
  }

  function Deliver(s: State): State {
    if !s.reader.Holding? || s.reader.id !in s.calls then s
    else WithCall(s, s.reader.id, Post(s.calls[s.reader.id], s.reader.mail)).(reader := Reading)
  }

  /** The reader met the end of the stream. */
  function Fail(s: State): State {
    if s.reader != Reading then s else s.(pending := {}, reader := Failing(s.pending))
  }

  function FailCall(s: State, id: nat): State {
    if !s.reader.Failing? || id !in s.reader.left || id !in s.calls then s
    else WithCall(s, id, Post(s.calls[id], Gone)).(reader := Failing(s.reader.left - {id}))
  }

  function Finish(s: State): State {
    if s.reader == Failing({}) then s.(reader := Ended) else s
  }

  datatype Act =
    | Begins
    | Writes(id: nat, ok: bool)
    | WritesLate(id: nat)
    | TimesOut(id: nat)
    | Receives(id: nat)
    | Arrives(response: Option<int>, body: string)
    | Delivers
    | Fails
    | FailsCall(id: nat)
    | Finishes

  function Step(s: State, a: Act): State {
    match a
    case Begins => Begin(s)
    case Writes(id, ok) => Wrote(s, id, ok)
    case WritesLate(id) => WroteLate(s, id)
    case TimesOut(id) => Timeout(s, id)
    case Receives(id) => Receive(s, id)
    case Arrives(id, body) => Arrive(s, id, body)
    case Delivers => Deliver(s)
    case Fails => Fail(s)
    case FailsCall(id) => FailCall(s, id)
    case Finishes => Finish(s)
  }

  function Run(s: State, acts: seq<Act>): State {
    if acts == [] then s else Step(Run(s, acts[..|acts| - 1]), acts[|acts| - 1])
  }

  const INIT := State(0, {}, map[], Reading, 0)

  // ---- What holds of each call ----

  /** A message to the call is still to come. */
  predicate Owed(s: State, id: nat) {
    id in s.pending || (s.reader.Holding? && s.reader.id == id) || (s.reader.Failing? && id in s.reader.left)
  }

  predicate CallOk(c: Call, id: nat, owed: bool) {
    && |c.sent| + (if owed then 1 else 0) <= 1
    && (c.sent != [] && c.sent[0].Answer? ==> c.sent[0].id == id)
    && (match c.phase
        case Returned(Got(m)) => c.sent == [m] && c.box == []
        case Returned(_) => c.box == c.sent
        case _ => c.box == c.sent && (owed || c.sent != []))
  }

  ghost predicate Inv(s: State) {
    && (forall id :: id in s.calls <==> 1 <= id <= s.nextID)
    && (forall id :: id in s.pending ==> id in s.calls && !s.calls[id].phase.Returned?)
    && (forall id :: id in s.calls ==> CallOk(s.calls[id], id, Owed(s, id)))
    && (s.reader.Holding? ==>
          s.reader.id in s.calls && s.reader.id !in s.pending && s.reader.mail.Answer?
            && s.reader.mail.id == s.reader.id)
    && (Dead(s) ==> s.pending == {})
    && (s.reader.Failing? ==> forall id :: id in s.reader.left ==> id in s.calls)
  }

  lemma BeginKeeps(s: State)
    requires Inv(s)
    ensures Inv(Begin(s))
  {
  }

  lemma WriteKeeps(s: State, id: nat, ok: bool)
    requires Inv(s)
    ensures Inv(Wrote(s, id, ok)) && Inv(WroteLate(s, id))
  {
  }

  lemma TimeoutKeeps(s: State, id: nat)
    requires Inv(s)
    ensures Inv(Timeout(s, id))
  {
  }

  lemma ReceiveKeeps(s: State, id: nat)
    requires Inv(s)
    ensures Inv(Receive(s, id))
  {
  }

  lemma ArriveKeeps(s: State, id: Option<int>, body: string)
    requires Inv(s)
    ensures Inv(Arrive(s, id, body)) && Inv(Deliver(s))
  {
  }

  lemma FailKeeps(s: State, id: nat)
    requires Inv(s)
    ensures Inv(Fail(s)) && Inv(FailCall(s, id)) && Inv(Finish(s))
  {
  }

  lemma StepKeeps(s: State, a: Act)
    requires Inv(s)
    ensures Inv(Step(s, a))
  {
    match a
    case Begins => BeginKeeps(s);
    case Writes(id, ok) => WriteKeeps(s, id, ok);
    case WritesLate(id) => WriteKeeps(s, id, true);
    case TimesOut(id) => TimeoutKeeps(s, id);
    case Receives(id) => ReceiveKeeps(s, id);
    case Arrives(id, body) => ArriveKeeps(s, id, body);
    case Delivers => ArriveKeeps(s, None, "");
    case FailsCall(id) => FailKeeps(s, id);
    case _ => FailKeeps(s, 0);
  }

  /** An outcome stands, and a call keeps what it was sent. */
  predicate Stands(c: Call, later: Call) {
    c.sent <= later.sent && (c.phase.Returned? ==> later.phase == c.phase)
  }

  lemma StepStands(s: State, a: Act)
    requires Inv(s)
    ensures forall id :: id in s.calls ==> id in Step(s, a).calls && Stands(s.calls[id], Step(s, a).calls[id])
  {
  }

  lemma {:induction false} RunStands(s: State, acts: seq<Act>)
    requires Inv(s)
    ensures Inv(Run(s, acts))
    ensures forall id :: id in s.calls ==> id in Run(s, acts).calls && Stands(s.calls[id], Run(s, acts).calls[id])
  {
    if acts != [] {
      RunStands(s, acts[..|acts| - 1]);
      StepKeeps(Run(s, acts[..|acts| - 1]), acts[|acts| - 1]);
      StepStands(Run(s, acts[..|acts| - 1]), acts[|acts| - 1]);
    }
  }

  // ---- The theorems ----

  /**
   * In every interleaving: ids run upwards and name one call each, a channel is sent at most one message, a response
   * only to the call of its id, what is pending is a call that has neither returned nor been answered, and a call that
   * got a message got the one it was sent.
   */
  lemma CallsCompleteOnce(acts: seq<Act>)
    ensures var s := Run(INIT, acts);
      && (forall id :: id in s.calls <==> 1 <= id <= s.nextID)
      && (forall id :: id in s.pending ==> id in s.calls && !s.calls[id].phase.Returned? && s.calls[id].sent == [])
      && (forall id :: id in s.calls ==> |s.calls[id].sent| <= 1)
      && (forall id :: id in s.calls && s.calls[id].sent != [] && s.calls[id].sent[0].Answer? ==>
           s.calls[id].sent[0].id == id)
      && (forall id :: id in s.calls && s.calls[id].phase.Returned? && s.calls[id].phase.outcome.Got? ==>
            s.calls[id].sent == [s.calls[id].phase.outcome.mail])
  {
    RunStands(INIT, acts);
  }

  /** The reader never finds the channel it sends to full. */
  lemma ReaderNeverBlocks(acts: seq<Act>)
    ensures var s := Run(INIT, acts);
      && (s.reader.Holding? ==> s.reader.id in s.calls && s.calls[s.reader.id].box == [])
      && (s.reader.Failing? ==> forall id :: id in s.reader.left ==> id in s.calls && s.calls[id].box == [])
  {
    RunStands(INIT, acts);
    var s := Run(INIT, acts);
    assert forall id :: id in s.calls && Owed(s, id) ==> s.calls[id].sent == [];
  }

  /**
   * Once the process is gone and its reader done, every call still waiting has its message, and new calls are refused.
   */
  lemma NoneLeftWaiting(acts: seq<Act>, id: nat)
    requires var s := Run(INIT, acts); s.reader.Ended? && id in s.calls && s.calls[id].phase == Waiting
    ensures var s := Run(INIT, acts);
            var r := Receive(s, id);
            s.calls[id].sent != [] && r.calls[id].phase == Returned(Got(s.calls[id].sent[0]))
              && Begin(s).calls == s.calls
  {
    RunStands(INIT, acts);
  }

  /** A new call gets an id no call ever had, and no later step takes it away or changes what it returned. */
  lemma IdsNeverReused(acts: seq<Act>, more: seq<Act>)
    ensures var s := Run(INIT, acts);
            var r := Run(s, more);
      && (!Dead(s) ==> s.nextID + 1 !in s.calls && s.nextID + 1 in Begin(s).calls)
      && s.nextID <= r.nextID
      && (forall id :: id in s.calls && s.calls[id].phase.Returned? ==>
           id in r.calls && r.calls[id].phase == s.calls[id].phase)
  {
    RunStands(INIT, acts);
    RunStands(Run(INIT, acts), more);
    var s := Run(INIT, acts);
    if s.nextID > 0 { assert s.nextID in s.calls; }
  }

  // ---- What a call returns, from what happened ----

  /** A response to the call comes while it is pending and the reader reads. */
  ghost predicate AnsweredAt(acts: seq<Act>, id: nat, k: nat)
    requires k < |acts|
  {
    acts[k].Arrives? && acts[k].response == Some(id)
    && Run(INIT, acts[..k]).reader == Reading && id in Run(INIT, acts[..k]).pending
  }

  /** The stream ends while the call is pending. */
  ghost predicate FailedAt(acts: seq<Act>, id: nat, k: nat)
    requires k < |acts|
  {
    acts[k] == Fails && Run(INIT, acts[..k]).reader == Reading && id in Run(INIT, acts[..k]).pending
  }

  /** The message is in the call's channel, or was, or the reader is about to send it. */
  predicate Reaches(s: State, id: nat, m: Mail)
    requires id in s.calls
  {
    s.calls[id].sent == [m] || s.reader == Holding(id, m) || (s.reader.Failing? && id in s.reader.left && m == Gone)
  }

  ghost predicate Explains(acts: seq<Act>, id: nat, m: Mail, k: nat)
    requires k < |acts|
  {
    match m
    case Answer(i, body) => i == id && AnsweredAt(acts, id, k) && acts[k].body == body
    case Gone => FailedAt(acts, id, k)
  }

  ghost predicate Explained(acts: seq<Act>, id: nat, m: Mail) {
    exists k :: 0 <= k < |acts| && Explains(acts, id, m, k)
  }

  lemma ExplainsLater(acts: seq<Act>, id: nat, m: Mail, k: nat)
    requires acts != [] && k < |acts| - 1
    ensures Explains(acts, id, m, k) <==> Explains(acts[..|acts| - 1], id, m, k)
  {
    assert acts[..|acts| - 1][..k] == acts[..k];
  }

  /** The step sets the message on its way. */
  predicate Brings(s: State, a: Act, id: nat, m: Mail) {
    s.reader == Reading && id in s.pending
    && ((a.Arrives? && a.response == Some(id) && m == Answer(id, a.body)) || (a == Fails && m == Gone))
  }

  lemma ExplainedNext(acts: seq<Act>, id: nat, m: Mail)
    requires acts != []
    ensures var n := |acts| - 1;
            Explained(acts, id, m) <==> Explained(acts[..n], id, m) || Brings(Run(INIT, acts[..n]), acts[n], id, m)
  {
    var n := |acts| - 1;
    assert Explains(acts, id, m, n) <==> Brings(Run(INIT, acts[..n]), acts[n], id, m);
    forall k | 0 <= k < n ensures Explains(acts, id, m, k) <==> Explains(acts[..n], id, m, k) {
      ExplainsLater(acts, id, m, k);
    }
    if k :| 0 <= k < n && Explains(acts[..n], id, m, k) { assert Explains(acts, id, m, k); }
  }

  predicate Readers(a: Act) {
    a.Arrives? || a.Delivers? || a.Fails? || a.FailsCall? || a.Finishes?
  }

  lemma ReaderReaches(s: State, a: Act, id: nat, m: Mail)
    requires Inv(s) && id in s.calls && Readers(a)
    ensures Reaches(Step(s, a), id, m) <==> Reaches(s, id, m) || Brings(s, a, id, m)
  {
    assert CallOk(s.calls[id], id, Owed(s, id));
    assert [] + [Gone] == [Gone];
    if s.reader.Holding? { assert [] + [s.reader.mail] == [s.reader.mail]; }
  }

  lemma CallersLeave(s: State, a: Act, id: nat, m: Mail)
    requires Inv(s) && id in s.calls && !Readers(a)
    ensures Reaches(Step(s, a), id, m) <==> Reaches(s, id, m)
  {
  }

  lemma ReachesNext(s: State, a: Act, id: nat, m: Mail)
    requires Inv(s) && id in s.calls
    ensures Reaches(Step(s, a), id, m) <==> Reaches(s, id, m) || Brings(s, a, id, m)
  {
    if Readers(a) { ReaderReaches(s, a, id, m); } else { CallersLeave(s, a, id, m); }
  }

  lemma NewUnreached(s: State, a: Act, id: nat, m: Mail)
    requires Inv(s) && id !in s.calls && id in Step(s, a).calls
    ensures !Reaches(Step(s, a), id, m) && !Brings(s, a, id, m)
  {
  }

  /**
   * A message is on its way to a call, or was sent to it, exactly if it is the response that came, or the error of the
   * stream that ended, while the call was pending.
   */
  lemma {:induction false} ReachesExactly(acts: seq<Act>, id: nat, m: Mail)
    requires id in Run(INIT, acts).calls
    ensures Reaches(Run(INIT, acts), id, m) <==> Explained(acts, id, m)
  {
    if acts != [] {
      var n := |acts| - 1;
      var s := Run(INIT, acts[..n]);
      RunStands(INIT, acts[..n]);
      ExplainedNext(acts, id, m);
      if id in s.calls {
        ReachesExactly(acts[..n], id, m);
        ReachesNext(s, acts[n], id, m);
      } else {
        NewUnreached(s, acts[n], id, m);
        NoneExplained(acts[..n], id, m);
      }
    }
  }

  lemma {:induction false} NoneExplained(acts: seq<Act>, id: nat, m: Mail)
    requires id !in Run(INIT, acts).calls
    ensures !Explained(acts, id, m)
  {
    if acts != [] {
      var n := |acts| - 1;
      RunStands(INIT, acts[..n]);
      StepStands(Run(INIT, acts[..n]), acts[n]);
      NoneExplained(acts[..n], id, m);
      ExplainedNext(acts, id, m);
    }
  }

  lemma {:induction false} RunOn(s: State, a: seq<Act>, b: seq<Act>)
    ensures Run(s, a + b) == Run(Run(s, a), b)
  {
    if b == [] {
      assert a + b == a;
    } else {
      assert (a + b)[..|a + b| - 1] == a + b[..|b| - 1];
      RunOn(s, a, b[..|b| - 1]);
    }
  }

  /** A call that is there and not pending never is again. */
  lemma {:induction false} StaysTaken(s: State, acts: seq<Act>, id: nat)
    requires Inv(s) && id in s.calls && id !in s.pending
    ensures id !in Run(s, acts).pending
  {
    if acts != [] {
      StaysTaken(s, acts[..|acts| - 1], id);
      RunStands(s, acts[..|acts| - 1]);
      TakenStays(Run(s, acts[..|acts| - 1]), acts[|acts| - 1], id);
    }
  }

  lemma TakenStays(s: State, a: Act, id: nat)
    requires Inv(s) && id in s.calls && id !in s.pending
    ensures id !in Step(s, a).pending
  {
  }

  lemma TakenBy(s: State, a: Act, id: nat, m: Mail)
    requires Inv(s) && Brings(s, a, id, m)
    ensures id in s.calls && id in Step(s, a).calls && id !in Step(s, a).pending
  {
  }

  /** Only one response, or the end of the stream, finds the call pending. */
  lemma ReachedOnce(acts: seq<Act>, id: nat, m: Mail, j: nat, k: nat)
    requires j < k < |acts| && Explains(acts, id, m, j)
    ensures id !in Run(INIT, acts[..k]).pending
  {
    var before, rest := acts[..j + 1], acts[..k][j + 1..];
    assert before[..j] == acts[..j] && before + rest == acts[..k];
    RunStands(INIT, acts[..j]);
    TakenBy(Run(INIT, acts[..j]), acts[j], id, m);
    RunStands(INIT, before);
    RunOn(INIT, before, rest);
    StaysTaken(Run(INIT, before), rest, id);
  }

  /**
   * What a call got, from the steps alone: a response with its id that came while it was pending, the first and only
   * one that did, with the body it came with; or the error, if the stream ended then.
   */
  lemma ReturnsItsResponse(acts: seq<Act>, id: nat)
    requires var s := Run(INIT, acts);
             id in s.calls && s.calls[id].phase.Returned? && s.calls[id].phase.outcome.Got?
    ensures var m := Run(INIT, acts).calls[id].phase.outcome.mail;
            exists k :: 0 <= k < |acts| && Explains(acts, id, m, k)
                        && forall j :: 0 <= j < |acts| && j != k ==> !AnsweredAt(acts, id, j) && !FailedAt(acts, id, j)
  {
    var s := Run(INIT, acts);
    var m := s.calls[id].phase.outcome.mail;
    RunStands(INIT, acts);
    assert Reaches(s, id, m);
    ReachesExactly(acts, id, m);
    var k :| 0 <= k < |acts| && Explains(acts, id, m, k);
    forall j | 0 <= j < |acts| && j != k ensures !AnsweredAt(acts, id, j) && !FailedAt(acts, id, j) {
      OneExplains(acts, id, m, k, j);
    }
  }

  lemma OneExplains(acts: seq<Act>, id: nat, m: Mail, k: nat, j: nat)
    requires k < |acts| && j < |acts| && j != k && Explains(acts, id, m, k)
    ensures !AnsweredAt(acts, id, j) && !FailedAt(acts, id, j)
  {
    if j > k {
      ReachedOnce(acts, id, m, k, j);
    } else {
      var other := if acts[j].Arrives? then Answer(id, acts[j].body) else Gone;
      if Explains(acts, id, other, j) { ReachedOnce(acts, id, other, j, k); }
    }
  }

  /** The step ends the call with no message: its write fails or finds the client dead, or its wait runs out. */
  predicate GivesUp(s: State, a: Act, id: nat, outcome: Outcome) {
    id in s.calls
    && match outcome
       case TimedOut => a == TimesOut(id) && s.calls[id].phase == Waiting
       case WriteFailed => a.Writes? && a.id == id && s.calls[id].phase == Writing && (!a.ok || Dead(s))
       case Got(_) => false
  }

  lemma EndsNext(s: State, a: Act, id: nat)
    requires Inv(s) && id in Step(s, a).calls && Step(s, a).calls[id].phase.Returned?
    requires id in s.calls ==> !s.calls[id].phase.Returned?
    ensures var outcome := Step(s, a).calls[id].phase.outcome; outcome.Got? || GivesUp(s, a, id, outcome)
  {
  }

  /** A call that returned without a message, from the steps. */
  lemma {:induction false} OtherOutcomes(acts: seq<Act>, id: nat, outcome: Outcome)
    requires var s := Run(INIT, acts); id in s.calls && s.calls[id].phase == Returned(outcome) && !outcome.Got?
    ensures exists k :: 0 <= k < |acts| && GivesUp(Run(INIT, acts[..k]), acts[k], id, outcome)
  {
    var n := |acts| - 1;
    var s := Run(INIT, acts[..n]);
    RunStands(INIT, acts[..n]);
    if id in s.calls && s.calls[id].phase.Returned? {
      StepStands(s, acts[n]);
      OtherOutcomes(acts[..n], id, outcome);
      var k :| 0 <= k < n && GivesUp(Run(INIT, acts[..n][..k]), acts[..n][k], id, outcome);
      assert acts[..n][..k] == acts[..k];
    } else {
      EndsNext(s, acts[n], id);
    }
  }

  // ---- In place ----

  function AllFailed(calls: map<nat, Call>, ids: set<nat>): map<nat, Call> {
    map id | id in calls :: if id in ids then Post(calls[id], Gone) else calls[id]
  }

  /** One call more. */
  lemma FailedOne(calls: map<nat, Call>, all: set<nat>, left: set<nat>, id: nat)
    requires left <= all <= calls.Keys && id in left
    ensures AllFailed(calls, all - left)[id] == calls[id]
    ensures AllFailed(calls, all - (left - {id})) == AllFailed(calls, all - left)[id := Post(calls[id], Gone)]
  {
    assert all - (left - {id}) == (all - left) + {id};
  }

  /** The client's fields; the channels are the boxes of `calls`. */
  class Client {
    var nextID: nat
    var pending: set<nat>
    var calls: map<nat, Call>
    var reader: Reader
    ghost var refused: nat

    ghost function View(): State
      reads this
    {
      State(nextID, pending, calls, reader, refused)
    }

    constructor ()
      ensures View() == INIT
    {
      nextID, pending, calls, reader, refused := 0, {}, map[], Reading, 0;
    }

    /** call, up to the write: a call that begins has an id that none had before, and nothing was sent to it. */
    method StartCall() returns (id: Option<nat>)
      requires Inv(View())
      modifies this
      ensures View() == Begin(old(View())) && Inv(View())
      ensures id == None <==> Dead(old(View()))
      ensures id.Some? ==> id.value !in old(calls) && id.value in pending
      ensures id.Some? ==> calls == old(calls)[id.value := Call(Writing, [], [])]
    {
      BeginKeeps(View());
      if nextID > 0 { assert nextID in calls; }
      if reader.Failing? || reader.Ended? {
        refused := refused + 1;
        return None;
      }
      nextID := nextID + 1;
      calls := calls[nextID := Call(Writing, [], [])];
      pending := pending + {nextID};
      id := Some(nextID);
    }

    /** handleResponse: the call leaves `pending` first, its message is sent after. */
    method HandleResponse(id: Option<int>, body: string)
      requires Inv(View()) && reader == Reading
      modifies this
      ensures View() == if old(id.Some? && id.value >= 0 && id.value in pending)
                        then Deliver(Arrive(old(View()), id, body)) else old(View())
      ensures Inv(View()) && reader == Reading
      ensures old(id.Some? && id.value >= 0 && id.value in pending) ==>
                id.value in old(calls) && pending == old(pending) - {id.value}
                && calls == old(calls)[id.value := Post(old(calls)[id.value], Answer(id.value, body))]
    {
      if id == None || id.value < 0 || id.value !in pending { return; }
      ArriveKeeps(View(), id, body);
      ArriveKeeps(Arrive(View(), id, body), None, "");
      pending := pending - {id.value};
      calls := calls[id.value := Post(calls[id.value], Answer(id.value, body))];
    }

    /** One of the calls left gets the error. */
    method FailNext(id: nat)
      requires Inv(View()) && reader.Failing? && id in reader.left
      modifies this`calls, this`reader
      ensures View() == FailCall(old(View()), id) && Inv(View())
    {
      FailKeeps(View(), id);
      calls := calls[id := Post(calls[id], Gone)];
      reader := Failing(reader.left - {id});
    }

    /** fail: whatever order the pending calls come in, each gets the error once and no other call anything. */
    method Fail()
      requires Inv(View()) && reader == Reading
      modifies this
      ensures Inv(View()) && reader == Ended && pending == {} && nextID == old(nextID)
      ensures calls == AllFailed(old(calls), old(pending))
    {
      ghost var all := pending;
      FailKeeps(View(), 0);
      reader, pending := Failing(pending), {};
      assert calls == AllFailed(calls, {}) && all - all == {};
      while reader.left != {}
        invariant reader.Failing? && reader.left <= all && Inv(View()) && nextID == old(nextID) && pending == {}
        invariant all <= old(calls).Keys && calls == AllFailed(old(calls), all - reader.left)
        decreases if reader.Failing? then reader.left else {}
      {
        var id :| id in reader.left;
        FailedOne(old(calls), all, reader.left, id);
        FailNext(id);
      }
      FailKeeps(View(), 0);
      assert all - {} == all;
      reader := Ended;
    }
  }
}
