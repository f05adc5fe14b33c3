/** Compaction while the log grows: appends land between the transactions of a run, or of several. */
module Live {
  import opened Domain
  import opened Projection
  import opened Folding
  import opened Meaning

  /** A committed transaction: rows appended at the end, or one batch of deltas folded. */
  datatype Act = Arrive(events: seq<Event>) | FoldNow(s: Selection)

  function Final(log: seq<Event>, acts: seq<Act>): seq<Event>
    decreases |acts|
  {
    if acts == [] then log else
    match acts[0]
    case Arrive(events) => Final(log + events, acts[1..])
    case FoldNow(s) => Final(Fold(log, s), acts[1..])
  }

  /** Everything that arrives over a run, as a log that is never compacted would hold it. */
  function Arrivals(acts: seq<Act>): seq<Event> {
    if acts == [] then [] else (if acts[0].Arrive? then acts[0].events else []) + Arrivals(acts[1..])
  }

  lemma AgreeChain(a: Result<Tables>, b: Result<Tables>, c: Result<Tables>)
    requires Agree(a, b) && Agree(b, c)
    ensures Agree(a, c)
  {
  }

  lemma AgreeSelf(a: Result<Tables>)
    ensures Agree(a, a)
  {
  }

  ghost predicate SafeInAll(log: seq<Event>, scopes: set<Option<Id>>) {
    forall scope :: scope in scopes ==> Safe(log, scope)
  }

  predicate ScopesOf(acts: seq<Act>, scopes: set<Option<Id>>) {
    forall a :: a in acts && a.FoldNow? ==> a.s.scope in scopes
  }

  /** A fold of what is there now is a fold of the log with its future appended. */
  lemma FoldBefore(log: seq<Event>, later: seq<Event>, s: Selection) returns (r: Selection)
    requires Ascending(log + later)
    ensures Fold(log, s) + later == Fold(log + later, r) && r.scope == s.scope
  {
    r := s.(want := if log == [] then {} else s.want, hi := if s.hi < Top(log) then s.hi else Top(log));
    forall e | e in later ensures !Picks(r, e) {
      var j :| 0 <= j < |later| && later[j] == e;
      if log != [] {
        assert (log + later)[|log| - 1] == log[|log| - 1] && (log + later)[|log| + j] == e;
      }
    }
    forall e | e in log ensures Picks(s, e) <==> Picks(r, e) {
      var j :| 0 <= j < |log| && log[j] == e;
      if j < |log| - 1 { assert (log + later)[j].num < (log + later)[|log| - 1].num; }
    }
    FoldExtensional(log, s, r, {});
    FoldAppend(log, later, r, {});
  }

  /**
   * The projections kept up to date by the appends agree with a replay of whatever the log has become,
   * however appends and folds interleave, if the events as they arrived form a log safe for each fold's scope.
   */
  lemma {:induction false} LiveCompaction(t: Tables, log: seq<Event>, acts: seq<Act>, scopes: set<Option<Id>>)
    requires ScopesOf(acts, scopes) && SafeInAll(log + Arrivals(acts), scopes) && Ascending(log + Arrivals(acts))
    ensures Agree(Run(t, log + Arrivals(acts)), Run(t, Final(log, acts)))
    ensures SafeInAll(Final(log, acts), scopes) && Ascending(Final(log, acts))
    decreases |acts|
  {
    var full := log + Arrivals(acts);
    if acts == [] {
      assert full == log;
      AgreeSelf(Run(t, log));
    } else {
      var rest := Arrivals(acts[1..]);
      assert acts[0] in acts;
      match acts[0]
      case Arrive(events) =>
        assert full == (log + events) + rest;
        LiveCompaction(t, log + events, acts[1..], scopes);
      case FoldNow(s) =>
        assert full == log + rest;
        var r := FoldBefore(log, rest, s);
        SafeForAll(full, r);
        FoldKeepsMeaning(t, full, r);
        forall scope | scope in scopes ensures Safe(Fold(full, r), scope) { SafeAfterFold(full, r, scope); }
        FoldAscends(full, r);
        LiveCompaction(t, Fold(log, s), acts[1..], scopes);
        AgreeChain(Run(t, full), Run(t, Fold(full, r)), Run(t, Final(log, acts)));
    }
  }

  /** Tables that differ in `updated` of items alone stay so under the same events. */
  lemma RunSame(a: Tables, b: Tables, log: seq<Event>)
    requires Same(a, b)
    ensures Agree(Run(a, log), Run(b, log))
  {
    var none := Selection(None, 0, 0, {});
    forall i, col ensures Owed(log, none, {}, i, col) == "" { NothingOwed(log, none, {}, i, col); }
    forall i | i in a.items ensures LagsAt(a.items[i], b.items[i], log, none, {}, i) {
      LagsNothing(a.items[i], b.items[i]);
    }
    Simulate(a, b, log, none, {});
    FoldNothing(log, none, {});
  }

  /** What an append adds keeps the tables a mirror of the log. */
  lemma AppendMirrors(log: seq<Event>, view: Tables, rows: seq<Event>)
    requires Agree(Replayed(log), Ok(view))
    ensures Agree(Replayed(log + rows), Run(view, rows))
  {
    RunConcat(EMPTY, log, rows);
    RunSame(Replayed(log).value, view, rows);
  }

  /** The tables kept by the appends mirror the log a compaction among them has left. */
  lemma CompactMirrors(log: seq<Event>, scope: Option<Id>, arrived: seq<Event>, view: Tables)
    requires Safe(log + arrived, scope) && Ascending(log + arrived)
    requires Agree(Replayed(log), Ok(view))
    ensures Agree(Replayed(Compacted(log, scope) + arrived), Run(view, arrived))
  {
    var acts := [FoldNow(Everything(log, scope, Keys(log))), Arrive(arrived)];
    assert acts[1..] == [Arrive(arrived)] && [Arrive(arrived)][1..] == [];
    assert Arrivals([Arrive(arrived)]) == arrived + [] == arrived;
    assert Arrivals(acts) == [] + arrived == arrived;
    assert Final(log, acts) == Final(Compacted(log, scope), [Arrive(arrived)]) == Compacted(log, scope) + arrived;
    LiveCompaction(EMPTY, log, acts, {scope});
    AppendMirrors(log, view, arrived);
    AgreeSwap(Replayed(log + arrived), Replayed(Compacted(log, scope) + arrived));
    AgreeChain(Replayed(Compacted(log, scope) + arrived), Replayed(log + arrived), Run(view, arrived));
  }

  lemma AgreeSwap(a: Result<Tables>, b: Result<Tables>)
    requires Agree(a, b)
    ensures Agree(b, a)
  {
  }
}
