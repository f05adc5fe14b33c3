/** Folding streamed deltas: what compaction does to the log, and the algebra of it. */
module Folding {
  import opened Domain

  /** A group is the deltas of one item under one spelling of the field. */
  datatype Key = Key(item: ItemId, field: Field)

  function KeyOf(e: Event): Key
    requires e.payload.ItemDelta?
  {
    Key(e.payload.item, e.payload.field)
  }

  /**
   * The rows one fold reads: deltas of `scope` (`None` is every thread) numbered `lo` to `hi`, of the wanted groups.
   */
  datatype Selection = Selection(scope: Option<Id>, lo: nat, hi: nat, want: set<Key>)

  predicate Scoped(scope: Option<Id>, e: Event) {
    e.payload.ItemDelta? && (scope == None || scope == Some(e.thread))
  }

  predicate Picks(s: Selection, e: Event) {
    Scoped(s.scope, e) && s.lo <= e.num <= s.hi && KeyOf(e) in s.want
  }

  predicate InGroup(s: Selection, k: Key, e: Event) {
    Picks(s, e) && KeyOf(e) == k
  }

  function TextOf(log: seq<Event>, s: Selection, k: Key): string {
    if log == [] then ""
    else (if InGroup(s, k, log[0]) then log[0].payload.text else "") + TextOf(log[1..], s, k)
  }

  function WithText(e: Event, text: string): Event
    requires e.payload.ItemDelta?
  {
    e.(payload := e.payload.(text := text))
  }

  /**
   * The first picked row of each group takes the group's text, the later ones go; `seen` are the groups already met.
   */
  function FoldFrom(log: seq<Event>, s: Selection, seen: set<Key>): seq<Event> {
    if log == [] then []
    else if !Picks(s, log[0]) then [log[0]] + FoldFrom(log[1..], s, seen)
    else
      var k := KeyOf(log[0]);
      if k in seen then FoldFrom(log[1..], s, seen)
      else [WithText(log[0], TextOf(log, s, k))] + FoldFrom(log[1..], s, seen + {k})
  }

  function Fold(log: seq<Event>, s: Selection): seq<Event> {
    FoldFrom(log, s, {})
  }

  function Keys(log: seq<Event>): set<Key> {
    set i | 0 <= i < |log| && log[i].payload.ItemDelta? :: KeyOf(log[i])
  }

  function Top(log: seq<Event>): nat {
    if log == [] then 0 else log[|log| - 1].num
  }

  function Everything(log: seq<Event>, scope: Option<Id>, want: set<Key>): Selection {
    Selection(scope, 0, Top(log), want)
  }

  /** The log with every group of `scope` folded. */
  function Compacted(log: seq<Event>, scope: Option<Id>): seq<Event> {
    Fold(log, Everything(log, scope, Keys(log)))
  }

  // ---- Survivors keep their number, thread, time and place ----

  predicate Alike(a: Event, b: Event) {
    a == b || (a.payload.ItemDelta? && b.payload.ItemDelta? && a == WithText(b, a.payload.text))
  }

  /** `at` embeds `a` into `b`, in order, up to the text of deltas. */
  ghost predicate Embeds(at: seq<nat>, a: seq<Event>, b: seq<Event>) {
    && |at| == |a|
    && (forall i :: 0 <= i < |at| ==> at[i] < |b| && Alike(a[i], b[at[i]]))
    && (forall i, j :: 0 <= i < j < |at| ==> at[i] < at[j])
  }

  /** Places in the rest of a log, as places in the log. */
  function Shifted(at: seq<nat>): (r: seq<nat>)
    ensures |r| == |at| && forall i :: 0 <= i < |at| ==> r[i] == at[i] + 1
  {
    seq(|at|, i requires 0 <= i < |at| => at[i] + 1)
  }

  lemma EmbedsDropped(at: seq<nat>, a: seq<Event>, b: seq<Event>)
    requires b != [] && Embeds(at, a, b[1..])
    ensures Embeds(Shifted(at), a, b)
  {
    forall i | 0 <= i < |at| ensures Shifted(at)[i] < |b| && Alike(a[i], b[Shifted(at)[i]]) {
      assert b[1..][at[i]] == b[at[i] + 1];
    }
  }

  lemma EmbedsKept(at: seq<nat>, a: seq<Event>, b: seq<Event>, head: Event)
    requires b != [] && Embeds(at, a, b[1..]) && Alike(head, b[0])
    ensures Embeds([0] + Shifted(at), [head] + a, b)
  {
    EmbedsDropped(at, a, b);
    var all, places := [head] + a, [0] + Shifted(at);
    forall i | 0 <= i < |places| ensures places[i] < |b| && Alike(all[i], b[places[i]]) {
      if i > 0 { assert all[i] == a[i - 1] && places[i] == Shifted(at)[i - 1]; }
    }
  }

  lemma {:induction false} FoldEmbeds(log: seq<Event>, s: Selection, seen: set<Key>) returns (at: seq<nat>)
    ensures Embeds(at, FoldFrom(log, s, seen), log)
    decreases |log|
  {
    if log == [] {
      at := [];
    } else if Picks(s, log[0]) && KeyOf(log[0]) in seen {
      at := FoldEmbeds(log[1..], s, seen);
      EmbedsDropped(at, FoldFrom(log[1..], s, seen), log);
      at := Shifted(at);
    } else {
      var later := if Picks(s, log[0]) then seen + {KeyOf(log[0])} else seen;
      var head := if Picks(s, log[0]) then WithText(log[0], TextOf(log, s, KeyOf(log[0]))) else log[0];
      at := FoldEmbeds(log[1..], s, later);
      EmbedsKept(at, FoldFrom(log[1..], s, later), log, head);
      at := [0] + Shifted(at);
    }
  }

  lemma FoldAscends(log: seq<Event>, s: Selection)
    requires Ascending(log)
    ensures Ascending(Fold(log, s))
    ensures forall e :: e in Fold(log, s) ==> exists o :: o in log && Alike(e, o)
    ensures Top(Fold(log, s)) <= Top(log)
  {
    var at := FoldEmbeds(log, s, {});
    var f := Fold(log, s);
    forall e | e in f ensures exists o :: o in log && Alike(e, o) {
      var i :| 0 <= i < |f| && f[i] == e;
      assert log[at[i]] in log;
    }
    if f != [] { assert f[|f| - 1].num == log[at[|f| - 1]].num; }
  }

  // ---- Folding depends only on what is picked ----

  lemma {:induction false} FoldExtensional(log: seq<Event>, s: Selection, r: Selection, seen: set<Key>)
    requires forall e :: e in log ==> (Picks(s, e) <==> Picks(r, e))
    ensures FoldFrom(log, s, seen) == FoldFrom(log, r, seen)
    ensures forall k :: TextOf(log, s, k) == TextOf(log, r, k)
    decreases |log|
  {
    if log != [] {
      assert log[0] in log;
      forall e | e in log[1..] ensures e in log {}
      FoldExtensional(log[1..], s, r, if Picks(s, log[0]) then seen + {KeyOf(log[0])} else seen);
      FoldExtensional(log[1..], s, r, seen);
      assert forall k :: TextOf(log, s, k) == TextOf(log, r, k);
    }
  }

  lemma {:induction false} FoldNothing(log: seq<Event>, s: Selection, seen: set<Key>)
    requires forall e :: e in log ==> !Picks(s, e)
    ensures FoldFrom(log, s, seen) == log
    ensures forall k :: TextOf(log, s, k) == ""
    decreases |log|
  {
    if log != [] {
      assert log[0] in log;
      forall e | e in log[1..] ensures e in log {}
      FoldNothing(log[1..], s, seen);
    }
  }

  lemma {:induction false} FoldAppend(a: seq<Event>, b: seq<Event>, s: Selection, seen: set<Key>)
    requires forall e :: e in b ==> !Picks(s, e)
    ensures FoldFrom(a + b, s, seen) == FoldFrom(a, s, seen) + b
    ensures forall k :: TextOf(a + b, s, k) == TextOf(a, s, k)
    decreases |a|
  {
    if a == [] {
      assert a + b == b;
      FoldNothing(b, s, seen);
    } else {
      assert (a + b)[0] == a[0] && (a + b)[1..] == a[1..] + b;
      FoldAppend(a[1..], b, s, if Picks(s, a[0]) then seen + {KeyOf(a[0])} else seen);
      FoldAppend(a[1..], b, s, seen);
      assert forall k :: TextOf(a + b, s, k) == TextOf(a, s, k);
      if Picks(s, a[0]) && KeyOf(a[0]) !in seen {
        var head := WithText(a[0], TextOf(a, s, KeyOf(a[0])));
        assert FoldFrom(a + b, s, seen) == [head] + (FoldFrom(a[1..], s, seen + {KeyOf(a[0])}) + b);
      }
    }
  }

  // ---- Folding in parts ----

  /** Folding some groups leaves the text of the others alone. */
  lemma {:induction false} OtherText(log: seq<Event>, s: Selection, r: Selection, seen: set<Key>, k: Key)
    requires k !in s.want
    ensures TextOf(FoldFrom(log, s, seen), r, k) == TextOf(log, r, k)
    decreases |log|
  {
    if log != [] {
      OtherText(log[1..], s, r, if Picks(s, log[0]) then seen + {KeyOf(log[0])} else seen, k);
      OtherText(log[1..], s, r, seen, k);
    }
  }

  lemma {:induction false} WiderText(log: seq<Event>, s: Selection, r: Selection, k: Key)
    requires s.scope == r.scope && s.lo == r.lo && s.hi == r.hi && (k in s.want <==> k in r.want)
    ensures TextOf(log, s, k) == TextOf(log, r, k)
    decreases |log|
  {
    if log != [] { WiderText(log[1..], s, r, k); }
  }

  /** Two folds over disjoint groups are one fold over both. */
  lemma {:induction false} FoldTwice(log: seq<Event>, s: Selection, more: set<Key>, seenS: set<Key>, seenM: set<Key>)
    requires s.want !! more && seenS <= s.want && seenM <= more
    ensures FoldFrom(FoldFrom(log, s, seenS), s.(want := more), seenM)
         == FoldFrom(log, s.(want := s.want + more), seenS + seenM)
    decreases |log|
  {
    var m := s.(want := more);
    var both := s.(want := s.want + more);
    if log != [] {
      var e, rest := log[0], log[1..];
      if Picks(s, e) {
        var k := KeyOf(e);
        FoldTwice(rest, s, more, seenS + {k}, seenM);
        if k !in seenS {
          WiderText(log, s, both, k);
          var head := WithText(e, TextOf(log, s, k));
          assert FoldFrom(log, s, seenS) == [head] + FoldFrom(rest, s, seenS + {k});
          assert seenS + seenM + {k} == seenS + {k} + seenM;
        } else {
          assert seenS + {k} == seenS;
        }
      } else if Picks(m, e) {
        var k := KeyOf(e);
        var inner := FoldFrom(rest, s, seenS);
        assert FoldFrom(log, s, seenS) == [e] + inner;
        assert ([e] + inner)[1..] == inner;
        FoldTwice(rest, s, more, seenS, seenM + {k});
        FoldTwice(rest, s, more, seenS, seenM);
        OtherText(rest, s, m, seenS, k);
        WiderText(log, m, both, k);
        assert seenS + seenM + {k} == seenS + (seenM + {k});
      } else {
        var inner := FoldFrom(rest, s, seenS);
        assert FoldFrom(log, s, seenS) == [e] + inner;
        assert ([e] + inner)[1..] == inner;
        FoldTwice(rest, s, more, seenS, seenM);
      }
    }
  }

  // ---- Counting ----

  function Count(log: seq<Event>, s: Selection, k: Key): nat {
    if log == [] then 0 else (if InGroup(s, k, log[0]) then 1 else 0) + Count(log[1..], s, k)
  }

  function Picked(log: seq<Event>, s: Selection): nat {
    if log == [] then 0 else (if Picks(s, log[0]) then 1 else 0) + Picked(log[1..], s)
  }

  function PickedKeys(log: seq<Event>, s: Selection): set<Key> {
    if log == [] then {}
    else (if Picks(s, log[0]) then {KeyOf(log[0])} else {}) + PickedKeys(log[1..], s)
  }

  lemma NewKey(found: set<Key>, seen: set<Key>, k: Key)
    requires k !in seen
    ensures |({k} + found) - seen| == |found - (seen + {k})| + 1
  {
    assert ({k} + found) - seen == (found - (seen + {k})) + {k};
  }

  /** A fold removes one row for every picked row that is not the first of its group. */
  lemma {:induction false} FoldLength(log: seq<Event>, s: Selection, seen: set<Key>)
    ensures |FoldFrom(log, s, seen)| + Picked(log, s) == |log| + |PickedKeys(log, s) - seen|
    decreases |log|
  {
    if log != [] {
      var rest := log[1..];
      var found := PickedKeys(rest, s);
      if !Picks(s, log[0]) {
        FoldLength(rest, s, seen);
        assert {} + found == found;
      } else if KeyOf(log[0]) in seen {
        FoldLength(rest, s, seen);
        assert ({KeyOf(log[0])} + found) - seen == found - seen;
      } else {
        FoldLength(rest, s, seen + {KeyOf(log[0])});
        NewKey(found, seen, KeyOf(log[0]));
      }
    }
  }

  /** Every key meets its limit: at most one picked row, and none for keys in `gone`. */
  ghost predicate Single(log: seq<Event>, s: Selection, gone: set<Key>) {
    && (forall e :: e in log && Picks(s, e) ==> KeyOf(e) !in gone)
    && (forall i, j :: 0 <= i < j < |log| && Picks(s, log[i]) && Picks(s, log[j]) ==> KeyOf(log[i]) != KeyOf(log[j]))
  }

  lemma {:induction false} FoldSingle(log: seq<Event>, s: Selection, seen: set<Key>)
    ensures Single(FoldFrom(log, s, seen), s, seen)
    decreases |log|
  {
    if log != [] {
      if Picks(s, log[0]) {
        FoldSingle(log[1..], s, seen + {KeyOf(log[0])});
        FoldSingle(log[1..], s, seen);
      } else {
        FoldSingle(log[1..], s, seen);
      }
    }
  }

  lemma {:induction false} SingleStays(log: seq<Event>, s: Selection, seen: set<Key>)
    requires Single(log, s, seen)
    ensures FoldFrom(log, s, seen) == log
    decreases |log|
  {
    if log != [] {
      var rest := log[1..];
      assert log[0] in log;
      forall e | e in rest ensures e in log {}
      if Picks(s, log[0]) {
        var k := KeyOf(log[0]);
        forall e | e in rest && Picks(s, e) ensures KeyOf(e) !in seen + {k} {
          var j :| 0 <= j < |rest| && rest[j] == e;
          assert log[j + 1] == e;
        }
        assert forall i :: 0 <= i < |rest| ==> rest[i] == log[i + 1];
        SingleStays(rest, s, seen + {k});
        AbsentText(rest, s, k);
        assert WithText(log[0], TextOf(log, s, k)) == log[0];
      } else {
        assert forall i :: 0 <= i < |rest| ==> rest[i] == log[i + 1];
        SingleStays(rest, s, seen);
      }
    }
  }

  lemma {:induction false} AbsentText(log: seq<Event>, s: Selection, k: Key)
    requires forall e :: e in log ==> !InGroup(s, k, e)
    ensures TextOf(log, s, k) == ""
    decreases |log|
  {
    if log != [] {
      assert log[0] in log;
      forall e | e in log[1..] ensures e in log {}
      AbsentText(log[1..], s, k);
    }
  }

  lemma EverythingPicks(log: seq<Event>, scope: Option<Id>, want: set<Key>)
    requires Ascending(log)
    ensures forall e :: e in log ==> (Picks(Everything(log, scope, want), e) <==> Scoped(scope, e) && KeyOf(e) in want)
  {
    forall e | e in log ensures e.num <= Top(log) {
      var i :| 0 <= i < |log| && log[i] == e;
      if i < |log| - 1 { assert log[i].num < log[|log| - 1].num; }
    }
  }

  lemma InKeys(log: seq<Event>)
    ensures forall e :: e in log && e.payload.ItemDelta? ==> KeyOf(e) in Keys(log)
  {
    forall e | e in log && e.payload.ItemDelta? ensures KeyOf(e) in Keys(log) {
      var i :| 0 <= i < |log| && log[i] == e;
    }
  }

  /** A second compaction finds nothing left to fold. */
  lemma CompactedOnce(log: seq<Event>, scope: Option<Id>)
    requires Ascending(log)
    ensures Compacted(Compacted(log, scope), scope) == Compacted(log, scope)
  {
    var all := Everything(log, scope, Keys(log));
    var c := Compacted(log, scope);
    FoldSingle(log, all, {});
    FoldAscends(log, all);
    InKeys(log);
    InKeys(c);
    EverythingPicks(log, scope, Keys(log));
    var again := Everything(c, scope, Keys(c));
    EverythingPicks(c, scope, Keys(c));
    forall e | e in c ensures Picks(all, e) <==> Picks(again, e) {
      var o :| o in log && Alike(e, o);
    }
    FoldExtensional(c, all, again, {});
    SingleStays(c, all, {});
  }
}
