/** Requests an agent process sends to the app: each is answered at most once, whoever answers, in both adapters. */
module Requests {
  import opened Domain

  /** The id of a request on the wire: a JSON number or a JSON string. */
  datatype WireId = Number(text: string) | Quoted(text: string)

  /** The approval id the app sees; the two kinds of wire id are not told apart. */
  function ApprovalId(id: WireId): string {
    id.text
  }

  /** `held` maps approval ids to the wire ids to answer; the rest is history. */
  datatype State = State(held: map<string, WireId>, closing: bool,
                         seen: set<WireId>, answered: multiset<WireId>, dropped: set<WireId>)

  const INIT := State(map[], false, {}, multiset{}, {})

  /** A request nobody is asked about is answered at once: refused, or told the time. */
  function Refuse(s: State, id: WireId): State {
    s.(seen := s.seen + {id}, answered := s.answered + multiset{id})
  }

  /** An approval request is held; one held under the same approval id is overwritten. */
  function Ask(s: State, id: WireId): State {
    var key := ApprovalId(id);
    s.(seen := s.seen + {id}, held := s.held[key := id])
  }

  function Answer(s: State, key: string): State {
    if key !in s.held then s
    else s.(held := s.held - {key}, answered := s.answered + multiset{s.held[key]})
  }

  function EndTurn(s: State): State {
    s.(held := map[], dropped := s.dropped + s.held.Values)
  }

  /** The codex session answers what it holds when it closes, the claude session lets it go with the process. */
  function Shut(s: State, answers: bool): State {
    if s.closing then s
    else if answers then s.(closing := true, held := map[], answered := s.answered + multiset(s.held.Values))
    else EndTurn(s).(closing := true)
  }

  datatype Act = Refuses(id: WireId) | Asks(id: WireId) | Resolves(key: string) | Ends | Closes(answers: bool)

  function Step(s: State, a: Act): State {
    match a
    case Refuses(id) => Refuse(s, id)
    case Asks(id) => Ask(s, id)
    case Resolves(key) => Answer(s, key)
    case Ends => EndTurn(s)
    case Closes(answers) => Shut(s, answers)
  }

  function Run(acts: seq<Act>): State {
    if acts == [] then INIT else Step(Run(acts[..|acts| - 1]), acts[|acts| - 1])
  }

  predicate Brings(a: Act, id: WireId) {
    (a.Refuses? || a.Asks?) && a.id == id
  }

  predicate New(s: State, a: Act) {
    forall id :: id in s.seen ==> !Brings(a, id)
  }

  /** The process numbers its requests: no id comes twice. */
  ghost predicate AllNew(acts: seq<Act>) {
    forall i, k, id :: 0 <= i < k < |acts| && Brings(acts[i], id) ==> !Brings(acts[k], id)
  }

  predicate Held(s: State, id: WireId) {
    ApprovalId(id) in s.held && s.held[ApprovalId(id)] == id
  }

  function Count(b: bool): nat {
    if b then 1 else 0
  }

  /** In how many ways the request is accounted for, an answer counting each time. */
  function Accounts(s: State, id: WireId): nat {
    s.answered[id] + Count(Held(s, id)) + Count(id in s.dropped)
  }

  /** Seen, and neither answered nor held nor dropped: nobody will ever answer it. */
  predicate Lost(s: State, id: WireId) {
    id in s.seen && Accounts(s, id) == 0
  }

  /** Everything is held under its own approval id, and no request is accounted for twice. */
  ghost predicate Sound(s: State) {
    && (forall key :: key in s.held ==> ApprovalId(s.held[key]) == key)
    && (forall id :: Accounts(s, id) <= Count(id in s.seen))
  }

  /** What is held under its own approval id, once. */
  lemma HeldOnce(s: State, id: WireId)
    requires forall key :: key in s.held ==> ApprovalId(s.held[key]) == key
    ensures id in s.held.Values <==> Held(s, id)
    ensures multiset(s.held.Values)[id] == Count(Held(s, id))
  {
    if id in s.held.Values {
      var key :| key in s.held && s.held[key] == id;
      assert ApprovalId(s.held[key]) == key;
    }
  }

  /** The step asks about another request under the approval id of this one, which is held. */
  predicate Overwrites(s: State, a: Act, id: WireId) {
    a.Asks? && a.id != id && ApprovalId(a.id) == ApprovalId(id) && Held(s, id)
  }

  /** A step moves requests from one account to another; only one that is overwritten falls out. */
  lemma StepAccounts(s: State, a: Act, id: WireId)
    requires Sound(s) && New(s, a)
    ensures Accounts(Step(s, a), id) ==
      if Brings(a, id) then 1 else if Overwrites(s, a, id) then 0 else Accounts(s, id)
  {
    HeldOnce(s, id);
    assert Accounts(s, id) <= Count(id in s.seen);
  }

  lemma StepSound(s: State, a: Act)
    requires Sound(s) && New(s, a)
    ensures Sound(Step(s, a))
  {
    forall id ensures Accounts(Step(s, a), id) <= Count(id in Step(s, a).seen) {
      StepAccounts(s, a, id);
      assert Accounts(s, id) <= Count(id in s.seen);
    }
  }

  predicate BroughtIn(acts: seq<Act>, id: WireId) {
    exists i :: 0 <= i < |acts| && Brings(acts[i], id)
  }

  lemma BroughtNext(acts: seq<Act>, id: WireId)
    requires acts != []
    ensures BroughtIn(acts, id) <==> BroughtIn(acts[..|acts| - 1], id) || Brings(acts[|acts| - 1], id)
  {
    var n := |acts| - 1;
    assert forall i :: 0 <= i < n ==> acts[..n][i] == acts[i];
  }

  lemma {:induction false} SeenMeans(acts: seq<Act>, id: WireId)
    ensures id in Run(acts).seen <==> BroughtIn(acts, id)
  {
    if acts != [] {
      SeenMeans(acts[..|acts| - 1], id);
      BroughtNext(acts, id);
    }
  }

  lemma NewBefore(acts: seq<Act>)
    requires acts != [] && AllNew(acts)
    ensures AllNew(acts[..|acts| - 1]) && New(Run(acts[..|acts| - 1]), acts[|acts| - 1])
  {
    var n := |acts| - 1;
    var init := acts[..n];
    forall id | id in Run(init).seen ensures !Brings(acts[n], id) {
      SeenMeans(init, id);
      var i :| 0 <= i < n && Brings(init[i], id);
      assert Brings(acts[i], id);
    }
  }

  lemma {:induction false} RunSound(acts: seq<Act>)
    requires AllNew(acts)
    ensures Sound(Run(acts))
  {
    if acts != [] {
      NewBefore(acts);
      RunSound(acts[..|acts| - 1]);
      StepSound(Run(acts[..|acts| - 1]), acts[|acts| - 1]);
    }
  }

  // ---- What the requests and answers must be like ----

  /** This step takes what is held under `key`: an answer, the end of a turn, the first close. */
  predicate Settles(acts: seq<Act>, j: nat, key: string)
    requires j < |acts|
  {
    match acts[j]
    case Resolves(other) => other == key
    case Ends => true
    case Closes(_) => forall m :: 0 <= m < j ==> !acts[m].Closes?
    case _ => false
  }

  predicate AsksFor(a: Act, key: string) {
    a.Asks? && ApprovalId(a.id) == key
  }

  predicate Unsettled(acts: seq<Act>, i: nat, k: nat, key: string)
    requires k <= |acts|
  {
    forall j :: i < j < k ==> !Settles(acts, j, key)
  }

  /** Asked, and neither settled nor asked over since. */
  predicate Waits(acts: seq<Act>, id: WireId) {
    exists i: nat :: i < |acts| && acts[i] == Asks(id) && Unsettled(acts, i, |acts|, ApprovalId(id))
                  && forall j :: i < j < |acts| ==> !AsksFor(acts[j], ApprovalId(id))
  }

  /** Another request with the same approval id came before this one was settled. */
  predicate Overtaken(acts: seq<Act>, id: WireId) {
    exists i: nat, k: nat :: i < k < |acts| && acts[i] == Asks(id) && AsksFor(acts[k], ApprovalId(id))
                          && Unsettled(acts, i, k, ApprovalId(id))
  }

  lemma SettlesEarlier(acts: seq<Act>, n: nat, j: nat, key: string)
    requires j < n <= |acts|
    ensures Settles(acts[..n], j, key) <==> Settles(acts, j, key)
  {
    assert forall m :: 0 <= m < j ==> acts[..n][m] == acts[m];
  }

  lemma UnsettledEarlier(acts: seq<Act>, n: nat, i: nat, k: nat, key: string)
    requires k <= n <= |acts|
    ensures Unsettled(acts[..n], i, k, key) <==> Unsettled(acts, i, k, key)
  {
    forall j | i < j < k ensures Settles(acts[..n], j, key) <==> Settles(acts, j, key) {
      SettlesEarlier(acts, n, j, key);
    }
  }

  lemma WaitsBefore(acts: seq<Act>, id: WireId)
    requires acts != [] && Waits(acts, id) && acts[|acts| - 1] != Asks(id)
    ensures var n, key := |acts| - 1, ApprovalId(id);
      Waits(acts[..n], id) && !Settles(acts, n, key) && !AsksFor(acts[n], key)
  {
    var n, key := |acts| - 1, ApprovalId(id);
    var init := acts[..n];
    var i: nat :| i < |acts| && acts[i] == Asks(id) && Unsettled(acts, i, |acts|, key)
                  && forall j :: i < j < |acts| ==> !AsksFor(acts[j], key);
    UnsettledEarlier(acts, n, i, n, key);
    assert init[i] == Asks(id) && forall j :: i < j < n ==> init[j] == acts[j];
  }

  lemma WaitsAfter(acts: seq<Act>, id: WireId)
    requires acts != []
    requires var n, key := |acts| - 1, ApprovalId(id);
      Waits(acts[..n], id) && !Settles(acts, n, key) && !AsksFor(acts[n], key)
    ensures Waits(acts, id)
  {
    var n, key := |acts| - 1, ApprovalId(id);
    var init := acts[..n];
    var i: nat :| i < n && init[i] == Asks(id) && Unsettled(init, i, n, key)
                  && forall j :: i < j < n ==> !AsksFor(init[j], key);
    UnsettledEarlier(acts, n, i, n, key);
    assert acts[i] == Asks(id) && forall j :: i < j < n ==> acts[j] == init[j];
  }

  lemma WaitsNext(acts: seq<Act>, id: WireId)
    requires acts != []
    ensures var n, key := |acts| - 1, ApprovalId(id);
      Waits(acts, id) <==>
        acts[n] == Asks(id) || (Waits(acts[..n], id) && !Settles(acts, n, key) && !AsksFor(acts[n], key))
  {
    var n, key := |acts| - 1, ApprovalId(id);
    if acts[n] == Asks(id) {
      assert Unsettled(acts, n, |acts|, key);
    } else {
      if Waits(acts, id) { WaitsBefore(acts, id); }
      if Waits(acts[..n], id) && !Settles(acts, n, key) && !AsksFor(acts[n], key) { WaitsAfter(acts, id); }
    }
  }

  lemma OvertakenNext(acts: seq<Act>, id: WireId)
    requires acts != []
    ensures var n, key := |acts| - 1, ApprovalId(id);
      Overtaken(acts, id) <==> Overtaken(acts[..n], id) || (Waits(acts[..n], id) && AsksFor(acts[n], key))
  {
    var n, key := |acts| - 1, ApprovalId(id);
    var init := acts[..n];
    if Overtaken(acts, id) {
      var i: nat, k: nat :| i < k < |acts| && acts[i] == Asks(id) && AsksFor(acts[k], key)
        && Unsettled(acts, i, k, key);
      var m: nat := FirstAsk(acts, i, k, key);
      UnsettledEarlier(acts, n, i, m, key);
      assert init[i] == Asks(id) && forall j :: i < j < n ==> init[j] == acts[j];
    }
    if Overtaken(init, id) {
      var i: nat, k: nat :| i < k < n && init[i] == Asks(id) && AsksFor(init[k], key) && Unsettled(init, i, k, key);
      UnsettledEarlier(acts, n, i, k, key);
      assert acts[i] == init[i] && acts[k] == init[k];
    }
    if Waits(init, id) && AsksFor(acts[n], key) {
      var i: nat :| i < n && init[i] == Asks(id) && Unsettled(init, i, n, key)
                 && forall j :: i < j < n ==> !AsksFor(init[j], key);
      UnsettledEarlier(acts, n, i, n, key);
      assert acts[i] == init[i];
    }
  }

  /** The first request of the approval id after the `i`th. */
  lemma FirstAsk(acts: seq<Act>, i: nat, k: nat, key: string) returns (m: nat)
    requires i < k < |acts| && AsksFor(acts[k], key) && Unsettled(acts, i, k, key)
    ensures i < m <= k && AsksFor(acts[m], key) && Unsettled(acts, i, m, key)
    ensures forall j :: i < j < m ==> !AsksFor(acts[j], key)
  {
    m := i + 1;
    while !AsksFor(acts[m], key)
      invariant i < m <= k && forall j :: i < j < m ==> !AsksFor(acts[j], key)
      decreases k - m
    {
      m := m + 1;
    }
  }

  predicate ClosedIn(acts: seq<Act>) {
    exists j :: 0 <= j < |acts| && acts[j].Closes?
  }

  lemma ClosedNext(acts: seq<Act>)
    requires acts != []
    ensures ClosedIn(acts) <==> ClosedIn(acts[..|acts| - 1]) || acts[|acts| - 1].Closes?
  {
    var n := |acts| - 1;
    assert forall j :: 0 <= j < n ==> acts[..n][j] == acts[j];
  }

  lemma {:induction false} ClosingMeans(acts: seq<Act>)
    ensures Run(acts).closing <==> ClosedIn(acts)
  {
    if acts != [] {
      ClosingMeans(acts[..|acts| - 1]);
      ClosedNext(acts);
    }
  }

  // ---- The theorems ----

  lemma {:induction false} HeldExactly(acts: seq<Act>, id: WireId)
    requires AllNew(acts)
    ensures Held(Run(acts), id) <==> Waits(acts, id)
  {
    if acts != [] {
      var n := |acts| - 1;
      NewBefore(acts);
      HeldExactly(acts[..n], id);
      RunSound(acts[..n]);
      ClosingMeans(acts[..n]);
      WaitsNext(acts, id);
      HeldNext(Run(acts[..n]), acts, id);
    }
  }

  lemma HeldNext(s: State, acts: seq<Act>, id: WireId)
    requires acts != [] && Sound(s) && (s.closing <==> ClosedIn(acts[..|acts| - 1]))
    ensures var n, key := |acts| - 1, ApprovalId(id);
      Held(Step(s, acts[n]), id) <==>
        acts[n] == Asks(id) || (Held(s, id) && !Settles(acts, n, key) && !AsksFor(acts[n], key))
  {
    assert acts[|acts| - 1].Closes? ==> (Settles(acts, |acts| - 1, ApprovalId(id)) <==> !s.closing);
  }

  lemma SettledStep(s: State, a: Act, id: WireId, was: bool, now: bool)
    requires Sound(s) && New(s, a) && (was ==> id in s.seen)
    requires Accounts(s, id) == Count(id in s.seen && !was)
    requires now <==> was || (Held(s, id) && AsksFor(a, ApprovalId(id)))
    ensures Accounts(Step(s, a), id) == Count(id in Step(s, a).seen && !now) && (now ==> id in Step(s, a).seen)
  {
    StepAccounts(s, a, id);
  }

  /**
   * At each point of a run a request that was seen is in exactly one place, answered once, held or dropped, unless
   * another with its approval id came before it was settled, and then it is in none.
   */
  lemma {:induction false} SettledOnce(acts: seq<Act>, id: WireId)
    requires AllNew(acts)
    ensures Accounts(Run(acts), id) == Count(id in Run(acts).seen && !Overtaken(acts, id))
    ensures Overtaken(acts, id) ==> id in Run(acts).seen
  {
    if acts != [] {
      var init := acts[..|acts| - 1];
      NewBefore(acts);
      SettledOnce(init, id);
      RunSound(init);
      HeldExactly(init, id);
      OvertakenNext(acts, id);
      SettledStep(Run(init), acts[|acts| - 1], id, Overtaken(init, id), Overtaken(acts, id));
    }
  }

  /** The step answers the request: one nobody is asked about, one the app has decided, or what is held at a close. */
  predicate Answers(s: State, a: Act, id: WireId) {
    a == Refuses(id) || (Held(s, id) && (a == Resolves(ApprovalId(id)) || (a == Closes(true) && !s.closing)))
  }

  /** It lets go of it: the turn is over, or the process. */
  predicate LetsGo(s: State, a: Act, id: WireId) {
    Held(s, id) && (a == Ends || (a == Closes(false) && !s.closing))
  }

  lemma AnswerNext(s: State, a: Act, id: WireId)
    requires Sound(s) && New(s, a)
    ensures Step(s, a).answered[id] == s.answered[id] + Count(Answers(s, a, id))
    ensures id in Step(s, a).dropped <==> id in s.dropped || LetsGo(s, a, id)
  {
    HeldOnce(s, id);
  }

  ghost predicate AnsweredAt(acts: seq<Act>, k: nat, id: WireId)
    requires k < |acts|
  {
    || acts[k] == Refuses(id)
    || (Waits(acts[..k], id)
        && (acts[k] == Resolves(ApprovalId(id)) || (acts[k] == Closes(true) && !ClosedIn(acts[..k]))))
  }

  ghost predicate LetGoAt(acts: seq<Act>, k: nat, id: WireId)
    requires k < |acts|
  {
    Waits(acts[..k], id) && (acts[k] == Ends || (acts[k] == Closes(false) && !ClosedIn(acts[..k])))
  }

  lemma AtTells(acts: seq<Act>, id: WireId)
    requires acts != [] && AllNew(acts)
    ensures var n := |acts| - 1;
      && (AnsweredAt(acts, n, id) <==> Answers(Run(acts[..n]), acts[n], id))
      && (LetGoAt(acts, n, id) <==> LetsGo(Run(acts[..n]), acts[n], id))
  {
    NewBefore(acts);
    HeldExactly(acts[..|acts| - 1], id);
    ClosingMeans(acts[..|acts| - 1]);
  }

  lemma AtEarlier(acts: seq<Act>, k: nat, id: WireId)
    requires k < |acts| - 1
    ensures var init := acts[..|acts| - 1];
      && (AnsweredAt(init, k, id) <==> AnsweredAt(acts, k, id))
      && (LetGoAt(init, k, id) <==> LetGoAt(acts, k, id))
  {
    assert acts[..|acts| - 1][..k] == acts[..k];
  }

  ghost predicate AnsweredIn(acts: seq<Act>, id: WireId) {
    exists k :: 0 <= k < |acts| && AnsweredAt(acts, k, id)
  }

  ghost predicate LetGoIn(acts: seq<Act>, id: WireId) {
    exists k :: 0 <= k < |acts| && LetGoAt(acts, k, id)
  }

  lemma InNext(acts: seq<Act>, id: WireId)
    requires acts != []
    ensures var n := |acts| - 1;
      && (AnsweredIn(acts, id) <==> AnsweredIn(acts[..n], id) || AnsweredAt(acts, n, id))
      && (LetGoIn(acts, id) <==> LetGoIn(acts[..n], id) || LetGoAt(acts, n, id))
  {
    var n := |acts| - 1;
    forall k | 0 <= k < n
      ensures (AnsweredAt(acts[..n], k, id) <==> AnsweredAt(acts, k, id))
           && (LetGoAt(acts[..n], k, id) <==> LetGoAt(acts, k, id))
    {
      AtEarlier(acts, k, id);
    }
  }

  /**
   * A request has been answered, once, exactly if it was refused, or waited when it was decided or when an adapter that
   * answers was closed; and let go exactly if it waited at the end of a turn or of a process that gets no answer.
   */
  lemma {:induction false} AnsweredExactly(acts: seq<Act>, id: WireId)
    requires AllNew(acts)
    ensures Run(acts).answered[id] == Count(AnsweredIn(acts, id))
    ensures id in Run(acts).dropped <==> LetGoIn(acts, id)
  {
    if acts != [] {
      var n := |acts| - 1;
      NewBefore(acts);
      AnsweredExactly(acts[..n], id);
      RunSound(acts);
      RunSound(acts[..n]);
      AtTells(acts, id);
      InNext(acts, id);
      AnswerNext(Run(acts[..n]), acts[n], id);
      assert Accounts(Run(acts), id) <= Count(id in Run(acts).seen);
    }
  }

  /** A request is lost, never to be answered, exactly if another with its approval id came before it was settled. */
  lemma LostExactly(acts: seq<Act>, id: WireId)
    requires AllNew(acts)
    ensures Lost(Run(acts), id) <==> Overtaken(acts, id)
  {
    SettledOnce(acts, id);
  }

  /** A lost request and the one that took its place have ids of different kinds. */
  lemma OvertakenBy(acts: seq<Act>, id: WireId) returns (i: nat, k: nat)
    requires Overtaken(acts, id)
    ensures i < k < |acts| && acts[i] == Asks(id) && AsksFor(acts[k], ApprovalId(id))
  {
    i, k :| i < k < |acts| && acts[i] == Asks(id) && AsksFor(acts[k], ApprovalId(id));
  }

  lemma OtherKind(acts: seq<Act>, id: WireId, i: nat, k: nat)
    requires AllNew(acts) && i < k < |acts| && acts[i] == Asks(id) && AsksFor(acts[k], ApprovalId(id))
    ensures acts[k].Asks? && acts[k].id.text == id.text && acts[k].id.Quoted? != id.Quoted?
  {
    assert Brings(acts[i], id) && !Brings(acts[k], id);
  }

  lemma LostToOtherKind(acts: seq<Act>, id: WireId) returns (i: nat, k: nat)
    requires AllNew(acts) && Lost(Run(acts), id)
    ensures i < k < |acts| && acts[i] == Asks(id) && acts[k].Asks? && acts[k].id.text == id.text
    ensures acts[k].id.Quoted? != id.Quoted?
  {
    LostExactly(acts, id);
    i, k := OvertakenBy(acts, id);
    OtherKind(acts, id, i, k);
  }

  /** With ids of one kind, as the claude process sends them, none is lost. */
  lemma OneKindLosesNone(acts: seq<Act>, id: WireId)
    requires AllNew(acts) && forall k :: 0 <= k < |acts| && acts[k].Asks? ==> acts[k].id.Quoted?
    ensures !Lost(Run(acts), id)
  {
    if Lost(Run(acts), id) { var _, _ := LostToOtherKind(acts, id); }
  }

  /** A run that loses one: the number 1 and the string "1" are the same approval to the app. */
  lemma NumberThenString()
    ensures var acts := [Asks(Number("1")), Asks(Quoted("1")), Resolves("1"), Ends];
            AllNew(acts) && Lost(Run(acts), Number("1")) && Run(acts).answered[Quoted("1")] == 1
  {
    var acts := [Asks(Number("1")), Asks(Quoted("1")), Resolves("1"), Ends];
    var one := Number("1");
    assert acts[0] == Asks(one) && AsksFor(acts[1], ApprovalId(one)) && Unsettled(acts, 0, 1, ApprovalId(one));
    LostExactly(acts, one);
    TwoAsked();
  }

  lemma TwoAsked()
    ensures Run([Asks(Number("1")), Asks(Quoted("1")), Resolves("1"), Ends]).answered[Quoted("1")] == 1
  {
    var a, b, c, d := Asks(Number("1")), Asks(Quoted("1")), Resolves("1"), Ends;
    assert [a][..0] == [] && [a, b][..1] == [a] && [a, b, c][..2] == [a, b] && [a, b, c, d][..3] == [a, b, c];
    assert Run([a]) == Step(INIT, a) && Run([a, b]) == Step(Run([a]), b) && Run([a, b, c]) == Step(Run([a, b]), c);
    assert Run([a, b, c, d]) == Step(Run([a, b, c]), d);
  }

  // ---- In place ----

  /** The part of a codex session that answers; `Wire` collects what it writes. */
  class Session {
    var approvals: map<string, WireId>
    var closing: bool
    var wire: seq<WireId>
    ghost var seen: set<WireId>
    ghost var dropped: set<WireId>

    ghost function View(): State
      reads this
    {
      State(approvals, closing, seen, multiset(wire), dropped)
    }

    ghost predicate Valid()
      reads this
    {
      Sound(View())
    }

    /** Every request stays in the one account it has, or moves to another. */
    twostate predicate Conserved()
      reads this
    {
      forall id :: Accounts(View(), id) == Accounts(old(View()), id)
    }

    /** The new request is held or answered, once; an older one is lost exactly if it was held under its approval id. */
    method HandleServerRequest(id: WireId, approval: bool)
      requires Valid() && id !in seen
      modifies this
      ensures Valid() && View() == Step(old(View()), if approval then Asks(id) else Refuses(id))
      ensures Accounts(View(), id) == 1 && Held(View(), id) == approval
      ensures wire == (if approval then old(wire) else old(wire) + [id]) && dropped == old(dropped)
      ensures forall other :: other in old(seen) && other != id ==>
        if approval && old(Held(View(), other)) && ApprovalId(other) == ApprovalId(id) then Lost(View(), other)
        else Accounts(View(), other) == Accounts(old(View()), other)
    {
      ghost var was, a := View(), if approval then Asks(id) else Refuses(id);
      StepSound(was, a);
      forall other ensures Accounts(Step(was, a), other) ==
        if other == id then 1 else if Overwrites(was, a, other) then 0 else Accounts(was, other)
      {
        StepAccounts(was, a, other);
      }
      seen := seen + {id};
      if approval {
        approvals := approvals[ApprovalId(id) := id];
      } else {
        wire := wire + [id];
      }
      assert View() == Step(was, a);
    }

    method Resolve(key: string) returns (found: bool)
      requires Valid()
      modifies this
      ensures Valid() && Conserved() && View() == Answer(old(View()), key) && found == (key in old(approvals))
      ensures found ==> wire == old(wire) + [old(approvals)[key]] && key !in approvals
    {
      ghost var was := View();
      StepSound(was, Resolves(key));
      forall id ensures Accounts(Step(was, Resolves(key)), id) == Accounts(was, id) {
        StepAccounts(was, Resolves(key), id);
      }
      found := key in approvals;
      if found {
        wire := wire + [approvals[key]];
        approvals := approvals - {key};
      }
      assert View() == Step(was, Resolves(key));
    }

    /** What the turn left unanswered is dropped: nothing is held, nothing written, nothing lost. */
    method TurnCompleted()
      requires Valid()
      modifies this
      ensures Valid() && Conserved() && approvals == map[] && wire == old(wire)
      ensures forall id :: id in dropped <==> id in old(dropped) || old(Held(View(), id))
    {
      ghost var was := View();
      StepSound(was, Ends);
      forall id
        ensures Accounts(Step(was, Ends), id) == Accounts(was, id) && (id in was.held.Values <==> Held(was, id))
      {
        StepAccounts(was, Ends, id);
        HeldOnce(was, id);
      }
      dropped := dropped + approvals.Values;
      approvals := map[];
      assert View() == Step(was, Ends);
    }

    /** Leaves nothing for the server to wait on; a second call does nothing. */
    method Close()
      requires Valid()
      modifies this
      ensures Valid() && Conserved() && View() == Shut(old(View()), true) && closing && dropped == old(dropped)
      ensures if old(closing) then wire == old(wire) && approvals == old(approvals)
        else approvals == map[] && multiset(wire) == multiset(old(wire)) + multiset(old(approvals).Values)
    {
      ghost var was := View();
      StepSound(was, Closes(true));
      forall id ensures Accounts(Step(was, Closes(true)), id) == Accounts(was, id) {
        StepAccounts(was, Closes(true), id);
      }
      if !closing { Decline(); }
      assert View() == Step(was, Closes(true));
    }

    method Decline()
      modifies this
      ensures closing && approvals == map[] && seen == old(seen) && dropped == old(dropped)
      ensures multiset(wire) == multiset(old(wire)) + multiset(old(approvals).Values)
    {
      closing := true;
      var ids := approvals.Values;
      approvals := map[];
      while ids != {}
        invariant approvals == map[] && closing && seen == old(seen) && dropped == old(dropped)
        invariant multiset(wire) + multiset(ids) == multiset(old(wire)) + multiset(old(approvals).Values)
        decreases |ids|
      {
        var id :| id in ids;
        wire := wire + [id];
        ids := ids - {id};
      }
    }
  }
}
