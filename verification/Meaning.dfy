/** Compaction preserves meaning: a log and its folded form replay to the same tables. */
module Meaning {
  import opened Domain
  import opened Projection
  import opened Folding

  // ---- Agreement ----

  /** Equal but for `updated` of items, which nothing else is computed from. */
  ghost predicate Same(a: Tables, b: Tables) {
    && a.ledger == b.ledger && a.index == b.index && a.items.Keys == b.items.Keys
    && forall i :: i in a.items ==> b.items[i] == a.items[i].(updated := b.items[i].updated)
  }

  ghost predicate Agree(a: Result<Tables>, b: Result<Tables>) {
    match (a, b)
    case (Ok(s), Ok(t)) => Same(s, t)
    case (Fail, Fail) => true
    case _ => false
  }

  // ---- When a fold is safe ----

  /** The events that set, index or extend the text column `col` of item `id`. */
  predicate Touches(e: Event, id: ItemId, col: Column) {
    match e.payload
    case ItemStarted(i, _, _, _, _, _, _) => i == id
    case ItemCompleted(i, _, _, _) => i == id && col == Body
    case ItemDelta(i, f, _) => i == id && ColumnOf(f) == col
    case _ => false
  }

  /** Up to the last row the fold takes from group `k`, the group's column is touched by its own rows only. */
  ghost predicate Clear(log: seq<Event>, s: Selection, k: Key) {
    forall i, j :: 0 <= i < j < |log| && InGroup(s, k, log[j]) && Touches(log[i], k.item, ColumnOf(k.field))
      ==> InGroup(s, k, log[i])
  }

  ghost predicate SafeFor(log: seq<Event>, s: Selection) {
    forall i :: 0 <= i < |log| && Picks(s, log[i]) ==> Clear(log[i + 1..], s, KeyOf(log[i]))
  }

  predicate SameGroup(a: Event, b: Event) {
    a.payload.ItemDelta? && b.payload.ItemDelta? && KeyOf(a) == KeyOf(b)
  }

  /** `e` may stand between the rows `a` and `b` of one group of the scope. */
  predicate Between(scope: Option<Id>, a: Event, e: Event, b: Event)
    requires SameGroup(a, b)
  {
    Touches(e, a.payload.item, ColumnOf(a.payload.field)) ==> Scoped(scope, e) && KeyOf(e) == KeyOf(a)
  }

  /**
   * Between two deltas of a group that is compacted the item is not started, is not completed if the group is its body,
   * and its column gets no delta under another spelling of the field or, if one thread is compacted, from another
   * thread.
   */
  ghost predicate Safe(log: seq<Event>, scope: Option<Id>) {
    forall i, j, k
      | 0 <= i < j < k < |log| && SameGroup(log[i], log[k]) && Scoped(scope, log[i]) && Scoped(scope, log[k]) ::
      Between(scope, log[i], log[j], log[k])
  }

  lemma SafeForAll(log: seq<Event>, s: Selection)
    requires Safe(log, s.scope) && Ascending(log)
    ensures SafeFor(log, s)
  {
    forall i | 0 <= i < |log| && Picks(s, log[i])
      ensures Clear(log[i + 1..], s, KeyOf(log[i]))
    {
      var rest, k := log[i + 1..], KeyOf(log[i]);
      forall m, n | 0 <= m < n < |rest| && InGroup(s, k, rest[n]) && Touches(rest[m], k.item, ColumnOf(k.field))
        ensures InGroup(s, k, rest[m])
      {
        assert rest[m] == log[i + 1 + m] && rest[n] == log[i + 1 + n];
        assert Between(s.scope, log[i], log[i + 1 + m], log[i + 1 + n]);
      }
    }
  }

  /** Safety survives a fold, whatever it picks, and so the next compaction may rely on it. */
  lemma SafeAfterFold(log: seq<Event>, s: Selection, scope: Option<Id>)
    requires Safe(log, scope)
    ensures Safe(Fold(log, s), scope)
  {
    var f := Fold(log, s);
    var at := FoldEmbeds(log, s, {});
    forall i, j, k | 0 <= i < j < k < |f| && SameGroup(f[i], f[k]) && Scoped(scope, f[i]) && Scoped(scope, f[k])
      ensures Between(scope, f[i], f[j], f[k])
    {
      assert Between(scope, log[at[i]], log[at[j]], log[at[k]]);
    }
  }

  // ---- The two replays side by side ----

  /** The text later rows of the groups in `seen` still have to add to a column. */
  function Owed(log: seq<Event>, s: Selection, seen: set<Key>, id: ItemId, col: Column): string {
    if log == [] then ""
    else
      (if Picks(s, log[0]) && KeyOf(log[0]) in seen && log[0].payload.item == id
       && ColumnOf(log[0].payload.field) == col
       then log[0].payload.text else "")
      + Owed(log[1..], s, seen, id, col)
  }

  ghost predicate Lags(o: Item, c: Item, body: string, output: string) {
    c.head == o.head && c.body == o.body + body && c.output == o.output + output
  }

  /** Item `i` lags by what `log` still owes it. */
  ghost predicate LagsAt(o: Item, c: Item, log: seq<Event>, s: Selection, seen: set<Key>, i: ItemId) {
    Lags(o, c, Owed(log, s, seen, i, Body), Owed(log, s, seen, i, Output))
  }

  /** `c` already holds the text the folded rows moved forward; `o` is still owed it. */
  ghost predicate Lag(o: Tables, c: Tables, log: seq<Event>, s: Selection, seen: set<Key>) {
    && c.ledger == o.ledger && c.index == o.index && c.items.Keys == o.items.Keys
    && forall i :: i in o.items ==> LagsAt(o.items[i], c.items[i], log, s, seen, i)
  }

  /** What stands before the last row of a group and touches its column finds nothing owed there. */
  lemma {:induction false} NothingOwed(log: seq<Event>, s: Selection, seen: set<Key>, id: ItemId, col: Column)
    requires forall e :: e in log && Picks(s, e) && KeyOf(e) in seen ==>
      !(KeyOf(e).item == id && ColumnOf(KeyOf(e).field) == col)
    ensures Owed(log, s, seen, id, col) == ""
    decreases |log|
  {
    if log != [] {
      assert log[0] in log;
      forall e | e in log[1..] ensures e in log {}
      NothingOwed(log[1..], s, seen, id, col);
    }
  }

  lemma ClearOwesNothing(log: seq<Event>, s: Selection, seen: set<Key>, id: ItemId, col: Column)
    requires log != [] && Touches(log[0], id, col)
    requires forall k :: k in seen ==> Clear(log, s, k)
    requires !(Picks(s, log[0]) && KeyOf(log[0]) in seen)
    ensures Owed(log[1..], s, seen, id, col) == "" && Owed(log, s, seen, id, col) == ""
  {
    var rest := log[1..];
    forall e | e in rest && Picks(s, e) && KeyOf(e) in seen
      ensures !(KeyOf(e).item == id && ColumnOf(KeyOf(e).field) == col)
    {
      var j :| 0 <= j < |rest| && rest[j] == e;
      assert log[j + 1] == e && InGroup(s, KeyOf(e), log[j + 1]);
      assert Clear(log, s, KeyOf(e));
    }
    NothingOwed(rest, s, seen, id, col);
  }

  /** Meeting a group moves its remaining text, and no other, onto the account. */
  lemma {:induction false} OwedGrows(log: seq<Event>, s: Selection, seen: set<Key>, k: Key, id: ItemId, col: Column)
    requires k !in seen
    requires id == k.item && col == ColumnOf(k.field) ==> Owed(log, s, seen, id, col) == ""
    ensures Owed(log, s, seen + {k}, id, col) ==
            if id == k.item && col == ColumnOf(k.field) then TextOf(log, s, k) else Owed(log, s, seen, id, col)
    decreases |log|
  {
    if log != [] { OwedGrows(log[1..], s, seen, k, id, col); }
  }

  /** Two projections that differ in the text of items at most. */
  ghost predicate Shadow(o: Tables, c: Tables) {
    && c.ledger == o.ledger && c.index == o.index && c.items.Keys == o.items.Keys
    && forall i :: i in o.items ==> c.items[i].head == o.items[i].head
  }

  /** The items that survive keep their rows on both sides. */
  ghost predicate Keeps(o: Tables, c: Tables, o': Tables, c': Tables) {
    && o'.ledger == c'.ledger && o'.index == c'.index && o'.items.Keys == c'.items.Keys
    && forall i :: i in o'.items ==>
         i in o.items && i in c.items && o'.items[i] == o.items[i] && c'.items[i] == c.items[i]
  }

  lemma RowidsShadow(o: Tables, c: Tables, thread: Id, cut: nat)
    requires Shadow(o, c)
    ensures RowidsFrom(o.items, thread, cut) == RowidsFrom(c.items, thread, cut)
  {
  }

  predicate TextEvent(e: Event) {
    e.payload.ItemStarted? || e.payload.ItemCompleted? || e.payload.ItemDelta?
  }

  lemma NeutralApply(o: Tables, c: Tables, e: Event)
    requires Shadow(o, c) && !TextEvent(e)
    ensures match (Apply(o, e), Apply(c, e))
            case (Fail, Fail) => true
            case (Ok(o'), Ok(c')) => Keeps(o, c, o', c')
            case _ => false
  {
    if e.payload.ThreadRewound? && e.payload.item in o.items {
      RowidsShadow(o, c, e.thread, o.items[e.payload.item].head.rowid);
    } else if e.payload.ThreadDeleted? {
      RowidsShadow(o, c, e.thread, 0);
    }
  }

  lemma NeutralStep(o: Tables, c: Tables, log: seq<Event>, s: Selection, seen: set<Key>)
    requires log != [] && Lag(o, c, log, s, seen) && !TextEvent(log[0])
    ensures match (Apply(o, log[0]), Apply(c, log[0]))
            case (Fail, Fail) => true
            case (Ok(o'), Ok(c')) => Lag(o', c', log[1..], s, seen)
            case _ => false
  {
    assert forall i, col :: Owed(log, s, seen, i, col) == Owed(log[1..], s, seen, i, col);
    NeutralApply(o, c, log[0]);
  }

  lemma LagsNothing(o: Item, c: Item)
    requires c.head == o.head && c.body == o.body && c.output == o.output
    ensures Lags(o, c, "", "")
  {
    assert o.body + "" == o.body && o.output + "" == o.output;
  }

  lemma StartedIndexes(o: Tables, c: Tables, e: Event)
    requires e.payload.ItemStarted? && c.ledger == o.ledger && c.index == o.index && c.items.Keys == o.items.Keys
    requires e.payload.item in o.items ==> c.items[e.payload.item].head == o.items[e.payload.item].head
    ensures var o', c' := Started(o, e), Started(c, e);
            c'.ledger == o'.ledger && c'.index == o'.index && c'.items.Keys == o'.items.Keys
  {
  }

  /** A start resets the item on both sides. */
  lemma StartedStep(o: Tables, c: Tables, log: seq<Event>, s: Selection, seen: set<Key>, o': Tables, c': Tables)
    requires log != [] && Lag(o, c, log, s, seen) && log[0].payload.ItemStarted?
    requires forall k :: k in seen ==> Clear(log, s, k)
    requires o' == Started(o, log[0]) && c' == Started(c, log[0])
    ensures Lag(o', c', log[1..], s, seen)
  {
    var id := log[0].payload.item;
    assert id in o.items ==> LagsAt(o.items[id], c.items[id], log, s, seen, id);
    StartedIndexes(o, c, log[0]);
    forall i | i in o'.items ensures LagsAt(o'.items[i], c'.items[i], log[1..], s, seen, i) {
      if i == id {
        ClearOwesNothing(log, s, seen, id, Body);
        ClearOwesNothing(log, s, seen, id, Output);
        LagsNothing(o'.items[i], c'.items[i]);
      } else {
        Unpaid(log, s, seen, i);
      }
    }
  }

  lemma Unpaid(log: seq<Event>, s: Selection, seen: set<Key>, i: ItemId)
    requires log != [] && !Picks(s, log[0])
    ensures forall col :: Owed(log, s, seen, i, col) == Owed(log[1..], s, seen, i, col)
  {
  }

  lemma LagsBody(o: Item, c: Item, output: string)
    requires Lags(o, c, "", output)
    ensures c.body == o.body
  {
    assert o.body + "" == o.body;
  }

  lemma LagsCompleted(o: Item, c: Item, p: Payload, at: int, output: string)
    requires Lags(o, c, "", output) && p.ItemCompleted?
    ensures Lags(Completed(o, p, at), Completed(c, p, at), "", output)
  {
    LagsBody(o, c, output);
    assert Completed(o, p, at).body + "" == Completed(o, p, at).body;
  }

  /** A completion finds the whole body on both sides, and indexes it. */
  lemma CompletedStep(o: Tables, c: Tables, log: seq<Event>, s: Selection, seen: set<Key>, o': Tables, c': Tables)
    requires log != [] && Lag(o, c, log, s, seen) && log[0].payload.ItemCompleted?
    requires forall k :: k in seen ==> Clear(log, s, k)
    requires o' == Finished(o, log[0]) && c' == Finished(c, log[0])
    ensures Lag(o', c', log[1..], s, seen)
  {
    var e, id := log[0], log[0].payload.item;
    ClearOwesNothing(log, s, seen, id, Body);
    if id in o.items { LagsBody(o.items[id], c.items[id], Owed(log, s, seen, id, Output)); }
    forall i | i in o'.items ensures LagsAt(o'.items[i], c'.items[i], log[1..], s, seen, i) {
      Unpaid(log, s, seen, i);
      if i == id { LagsCompleted(o.items[i], c.items[i], e.payload, e.at, Owed(log, s, seen, i, Output)); }
    }
  }

  /** The owed text of a column shrinks by what the plain side appends. */
  lemma PayLater(o: Item, c: Item, col: Column, text: string, rest: string, other: string, at: int)
    requires if col == Body then Lags(o, c, text + rest, other) else Lags(o, c, other, text + rest)
    ensures if col == Body then Lags(Extend(o, col, text, at), c, rest, other)
      else Lags(Extend(o, col, text, at), c, other, rest)
  {
    assert o.body + (text + rest) == (o.body + text) + rest;
    assert o.output + (text + rest) == (o.output + text) + rest;
  }

  /** With nothing owed, the folded side may append text ahead of the plain one. */
  lemma PayAhead(o: Item, c: Item, col: Column, text: string, rest: string, other: string, at: int)
    requires if col == Body then Lags(o, c, "", other) else Lags(o, c, other, "")
    ensures if col == Body then Lags(Extend(o, col, text, at), Extend(c, col, text + rest, at), rest, other)
            else Lags(Extend(o, col, text, at), Extend(c, col, text + rest, at), other, rest)
  {
    assert o.body + "" == o.body && o.output + "" == o.output;
    assert o.body + (text + rest) == (o.body + text) + rest;
    assert o.output + (text + rest) == (o.output + text) + rest;
  }

  function Across(col: Column): Column {
    if col == Body then Output else Body
  }

  lemma ExtendedAt(t: Tables, e: Event, i: ItemId)
    requires e.payload.ItemDelta? && i in t.items
    ensures Extended(t, e).items.Keys == t.items.Keys
    ensures Extended(t, e).items[i] ==
            if i == e.payload.item then Extend(t.items[i], ColumnOf(e.payload.field), e.payload.text, e.at)
              else t.items[i]
  {
  }

  lemma OwedLater(log: seq<Event>, s: Selection, seen: set<Key>, i: ItemId, col: Column)
    requires log != [] && Picks(s, log[0]) && KeyOf(log[0]) in seen
    ensures Owed(log, s, seen, i, col) ==
            if i == log[0].payload.item && col == ColumnOf(log[0].payload.field)
            then log[0].payload.text + Owed(log[1..], s, seen, i, col) else Owed(log[1..], s, seen, i, col)
  {
  }

  lemma LaterItem(o: Item, c: Item, log: seq<Event>, s: Selection, seen: set<Key>, i: ItemId)
    requires log != [] && Picks(s, log[0]) && KeyOf(log[0]) in seen && LagsAt(o, c, log, s, seen, i)
    ensures LagsAt(if i == log[0].payload.item
                   then Extend(o, ColumnOf(log[0].payload.field), log[0].payload.text, log[0].at) else o,
                   c, log[1..], s, seen, i)
  {
    var e, rest, col := log[0], log[1..], ColumnOf(log[0].payload.field);
    OwedLater(log, s, seen, i, Body);
    OwedLater(log, s, seen, i, Output);
    if i == e.payload.item {
      PayLater(o, c, col, e.payload.text, Owed(rest, s, seen, i, col), Owed(rest, s, seen, i, Across(col)), e.at);
    }
  }

  /** A delta of a folded group that is not its first is gone from the folded log. */
  lemma LaterDelta(o: Tables, c: Tables, log: seq<Event>, s: Selection, seen: set<Key>, o': Tables)
    requires log != [] && Lag(o, c, log, s, seen) && Picks(s, log[0]) && KeyOf(log[0]) in seen
    requires o' == Extended(o, log[0])
    ensures Lag(o', c, log[1..], s, seen)
  {
    forall i | i in o'.items ensures LagsAt(o'.items[i], c.items[i], log[1..], s, seen, i) {
      ExtendedAt(o, log[0], i);
      LaterItem(o.items[i], c.items[i], log, s, seen, i);
    }
  }

  lemma FirstOwed(log: seq<Event>, s: Selection, seen: set<Key>, k: Key, i: ItemId, col: Column)
    requires log != [] && Picks(s, log[0]) && k == KeyOf(log[0]) && k !in seen
    requires Owed(log, s, seen, k.item, ColumnOf(k.field)) == ""
    ensures Owed(log[1..], s, seen + {k}, i, col) ==
            if i == k.item && col == ColumnOf(k.field) then TextOf(log[1..], s, k) else Owed(log, s, seen, i, col)
    ensures TextOf(log, s, k) == log[0].payload.text + TextOf(log[1..], s, k)
  {
    OwedGrows(log[1..], s, seen, k, i, col);
  }

  lemma FirstItem(o: Item, c: Item, log: seq<Event>, s: Selection, seen: set<Key>, k: Key, text: string)
    requires log != [] && Picks(s, log[0]) && k == KeyOf(log[0]) && k !in seen && LagsAt(o, c, log, s, seen, k.item)
    requires Owed(log, s, seen, k.item, ColumnOf(k.field)) == "" && text == TextOf(log, s, k)
    ensures LagsAt(Extend(o, ColumnOf(k.field), log[0].payload.text, log[0].at),
                   Extend(c, ColumnOf(k.field), text, log[0].at),
                   log[1..], s, seen + {k}, k.item)
  {
    var col, rest := ColumnOf(k.field), TextOf(log[1..], s, k);
    FirstOwed(log, s, seen, k, k.item, Body);
    FirstOwed(log, s, seen, k, k.item, Output);
    PayAhead(o, c, col, log[0].payload.text, rest, Owed(log, s, seen, k.item, Across(col)), log[0].at);
  }

  /** The first delta of a folded group brings the text of all of it. */
  lemma FirstDelta(o: Tables, c: Tables, log: seq<Event>, s: Selection, seen: set<Key>, k: Key, o': Tables, c': Tables,
                   first: Event)
    requires log != [] && Lag(o, c, log, s, seen) && Picks(s, log[0]) && k == KeyOf(log[0]) && k !in seen
    requires forall j :: j in seen ==> Clear(log, s, j)
    requires first == WithText(log[0], TextOf(log, s, k)) && o' == Extended(o, log[0]) && c' == Extended(c, first)
    ensures Lag(o', c', log[1..], s, seen + {k})
  {
    ClearOwesNothing(log, s, seen, k.item, ColumnOf(k.field));
    forall i | i in o'.items ensures LagsAt(o'.items[i], c'.items[i], log[1..], s, seen + {k}, i)
    {
      ExtendedAt(o, log[0], i);
      ExtendedAt(c, first, i);
      if i == k.item {
        FirstItem(o.items[i], c.items[i], log, s, seen, k, TextOf(log, s, k));
      } else {
        FirstOwed(log, s, seen, k, i, Body);
        FirstOwed(log, s, seen, k, i, Output);
      }
    }
  }

  lemma OtherItem(o: Item, c: Item, log: seq<Event>, s: Selection, seen: set<Key>, i: ItemId, text: string)
    requires log != [] && log[0].payload.ItemDelta? && !Picks(s, log[0]) && LagsAt(o, c, log, s, seen, i)
    requires Owed(log, s, seen, log[0].payload.item, ColumnOf(log[0].payload.field)) == ""
      && text == log[0].payload.text
    ensures LagsAt(if i == log[0].payload.item then Extend(o, ColumnOf(log[0].payload.field), text, log[0].at) else o,
                   if i == log[0].payload.item then Extend(c, ColumnOf(log[0].payload.field), text, log[0].at) else c,
                   log[1..], s, seen, i)
  {
    var e, rest, col := log[0], log[1..], ColumnOf(log[0].payload.field);
    if i == e.payload.item {
      assert text + "" == text;
      PayAhead(o, c, col, text, "", Owed(rest, s, seen, i, Across(col)), e.at);
    }
  }

  /** A delta the fold leaves alone meets nothing owed to its column. */
  lemma OtherDelta(o: Tables, c: Tables, log: seq<Event>, s: Selection, seen: set<Key>, o': Tables, c': Tables)
    requires log != [] && Lag(o, c, log, s, seen) && log[0].payload.ItemDelta? && !Picks(s, log[0])
    requires forall k :: k in seen ==> Clear(log, s, k)
    requires o' == Extended(o, log[0]) && c' == Extended(c, log[0])
    ensures Lag(o', c', log[1..], s, seen)
  {
    ClearOwesNothing(log, s, seen, log[0].payload.item, ColumnOf(log[0].payload.field));
    forall i | i in o'.items ensures LagsAt(o'.items[i], c'.items[i], log[1..], s, seen, i) {
      ExtendedAt(o, log[0], i);
      ExtendedAt(c, log[0], i);
      OtherItem(o.items[i], c.items[i], log, s, seen, i, log[0].payload.text);
    }
  }

  lemma ClearTail(log: seq<Event>, s: Selection, k: Key)
    requires log != [] && Clear(log, s, k)
    ensures Clear(log[1..], s, k)
  {
    var rest := log[1..];
    forall i, j | 0 <= i < j < |rest| && InGroup(s, k, rest[j]) && Touches(rest[i], k.item, ColumnOf(k.field))
      ensures InGroup(s, k, rest[i])
    {
      assert rest[i] == log[i + 1] && rest[j] == log[j + 1];
    }
  }

  /** One event on both sides; `c'` and `now` are where the folded side stands after it. */
  lemma Step(o: Tables, c: Tables, log: seq<Event>, s: Selection, seen: set<Key>) returns (c': Tables, now: set<Key>)
    requires log != [] && Lag(o, c, log, s, seen)
    requires forall k :: k in seen ==> Clear(log, s, k)
    ensures now == if Picks(s, log[0]) then seen + {KeyOf(log[0])} else seen
    ensures match Apply(o, log[0])
            case Fail => Run(c, FoldFrom(log, s, seen)).Fail?
            case Ok(o') => Lag(o', c', log[1..], s, now)
                           && Run(c, FoldFrom(log, s, seen)) == Run(c', FoldFrom(log[1..], s, now))
  {
    var e, rest := log[0], log[1..];
    now := if Picks(s, e) then seen + {KeyOf(e)} else seen;
    c' := c;
    var tail := FoldFrom(rest, s, now);
    if Picks(s, e) && KeyOf(e) in seen {
      LaterDelta(o, c, log, s, seen, Extended(o, e));
      assert now == seen;
    } else {
      var head := if Picks(s, e) then WithText(e, TextOf(log, s, KeyOf(e))) else e;
      assert FoldFrom(log, s, seen) == [head] + tail && ([head] + tail)[1..] == tail;
      if Picks(s, e) {
        FirstDelta(o, c, log, s, seen, KeyOf(e), Extended(o, e), Extended(c, head), head);
      } else if e.payload.ItemDelta? {
        OtherDelta(o, c, log, s, seen, Extended(o, e), Extended(c, e));
      } else if e.payload.ItemStarted? {
        StartedStep(o, c, log, s, seen, Started(o, e), Started(c, e));
      } else if e.payload.ItemCompleted? {
        CompletedStep(o, c, log, s, seen, Finished(o, e), Finished(c, e));
      } else {
        NeutralStep(o, c, log, s, seen);
      }
      if Apply(c, head).Ok? { c' := Apply(c, head).value; }
    }
  }

  lemma {:induction false} Simulate(o: Tables, c: Tables, log: seq<Event>, s: Selection, seen: set<Key>)
    requires Lag(o, c, log, s, seen)
    requires SafeFor(log, s)
    requires forall k :: k in seen ==> Clear(log, s, k)
    ensures Agree(Run(o, log), Run(c, FoldFrom(log, s, seen)))
    decreases |log|
  {
    if log == [] {
      assert forall i :: i in o.items ==>
        o.items[i].body + "" == o.items[i].body && o.items[i].output + "" == o.items[i].output;
    } else {
      var rest := log[1..];
      var c', now := Step(o, c, log, s, seen);
      forall k | k in now ensures Clear(rest, s, k) {
        if k in seen { ClearTail(log, s, k); } else { assert Clear(log[0 + 1..], s, KeyOf(log[0])); }
      }
      forall i | 0 <= i < |rest| && Picks(s, rest[i]) ensures Clear(rest[i + 1..], s, KeyOf(rest[i])) {
        assert rest[i] == log[i + 1] && rest[i + 1..] == log[i + 2..];
      }
      if Apply(o, log[0]).Ok? { Simulate(Apply(o, log[0]).value, c', rest, s, now); }
    }
  }

  /** Any fold of a safe log replays to the same tables, from any start. */
  lemma FoldKeepsMeaning(t: Tables, log: seq<Event>, s: Selection)
    requires SafeFor(log, s)
    ensures Agree(Run(t, log), Run(t, Fold(log, s)))
  {
    forall i, col ensures Owed(log, s, {}, i, col) == "" { NothingOwed(log, s, {}, i, col); }
    assert forall i :: i in t.items ==>
      t.items[i].body + "" == t.items[i].body && t.items[i].output + "" == t.items[i].output;
    Simulate(t, t, log, s, {});
  }

  lemma CompactionKeepsMeaning(log: seq<Event>, scope: Option<Id>)
    requires Safe(log, scope) && Ascending(log)
    ensures Agree(Replayed(log), Replayed(Compacted(log, scope)))
    ensures Safe(Compacted(log, scope), scope) && Ascending(Compacted(log, scope))
  {
    var all := Everything(log, scope, Keys(log));
    SafeForAll(log, all);
    FoldKeepsMeaning(EMPTY, log, all);
    SafeAfterFold(log, all, scope);
    FoldAscends(log, all);
  }
}
