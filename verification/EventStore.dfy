/** The store: the log and the tables kept beside it, updated in place. */
module EventStore {
  import opened Domain
  import opened Sequences
  import opened Projection
  import opened Folding
  import opened Grouping
  import opened Meaning
  import opened Live

  /** An append by somebody else that commits between two transactions of a compaction. */
  datatype Arrival = Arrival(thread: Id, payloads: seq<Payload>, now: int)

  /** What the first pass over a stretch of rows knows of a group. */
  datatype Pile = Pile(head: Event, text: string, others: seq<nat>)

  /** The rows one append writes. */
  function Stamped(next: nat, thread: Id, now: int, payloads: seq<Payload>): (r: seq<Event>)
    ensures |r| == |payloads|
  {
    seq(|payloads|, i requires 0 <= i < |payloads| => Event(next + i, thread, now, payloads[i]))
  }

  /** `longer` is the log with a row for each payload behind it, numbered on from `next`, in their order. */
  ghost predicate Extends(log: seq<Event>, next: nat, thread: Id, now: int, payloads: seq<Payload>,
                          longer: seq<Event>)
  {
    && |longer| == |log| + |payloads| && longer[..|log|] == log
    && forall i :: 0 <= i < |payloads| ==> longer[|log| + i] == Event(next + i, thread, now, payloads[i])
  }

  /** What an append that succeeds leaves. */
  lemma StampedExtends(log: seq<Event>, next: nat, thread: Id, now: int, payloads: seq<Payload>)
    ensures Extends(log, next, thread, now, payloads, log + Stamped(next, thread, now, payloads))
  {
  }

  function NumSet(nums: seq<nat>): set<nat> {
    set i | 0 <= i < |nums| :: nums[i]
  }

  lemma NumSetConcat(a: seq<nat>, b: seq<nat>)
    ensures NumSet(a + b) == NumSet(a) + NumSet(b)
  {
    forall n | n in NumSet(a) + NumSet(b) ensures n in NumSet(a + b) {
      if n in a { var i :| 0 <= i < |a| && a[i] == n; assert (a + b)[i] == n; }
      else { var i :| 0 <= i < |b| && b[i] == n; assert (a + b)[|a| + i] == n; }
    }
  }

  function FirstKeys(order: seq<Key>, m: nat): set<Key>
    requires m <= |order|
  {
    set i | 0 <= i < m :: order[i]
  }

  ghost predicate Distinct(order: seq<Key>) {
    forall i, j :: 0 <= i < j < |order| ==> order[i] != order[j]
  }

  /** A pile holds its group: the first row, the joined text, the numbers of the others. */
  ghost predicate PileOf(log: seq<Event>, s: Selection, k: Key, p: Pile) {
    var g := Group(log, s, k);
    && g != [] && p.head == g[0] && p.text == TextOf(log, s, k)
    && |p.others| == |g| - 1 && forall i :: 0 <= i < |p.others| ==> p.others[i] == g[i + 1].num
  }

  ghost predicate Piled(log: seq<Event>, s: Selection, order: seq<Key>, folds: map<Key, Pile>) {
    && Distinct(order)
    && (forall i :: 0 <= i < |order| ==> order[i] in s.want && order[i] in folds)
    && (forall k :: k in folds ==> k in order && PileOf(log, s, k, folds[k]))
    && (forall e :: e in log && Picks(s, e) ==> KeyOf(e) in folds)
  }

  /** The log once the first `m` piles are folded. */
  function Partial(log: seq<Event>, s: Selection, order: seq<Key>, m: nat): seq<Event>
    requires m <= |order|
  {
    Fold(log, s.(want := FirstKeys(order, m)))
  }

  lemma FoldGrows(log: seq<Event>, s: Selection, order: seq<Key>, m: nat)
    requires Distinct(order) && m < |order|
    ensures Fold(Partial(log, s, order, m), s.(want := {order[m]})) == Partial(log, s, order, m + 1)
  {
    var done := s.(want := FirstKeys(order, m));
    FoldTwice(log, done, {order[m]}, {}, {});
    assert FirstKeys(order, m + 1) == FirstKeys(order, m) + {order[m]};
    var none: set<Key> := {};
    assert none + none == none;
  }

  lemma PileSurvives(log: seq<Event>, done: Selection, one: Selection, s: Selection, k: Key)
    requires done == s.(want := done.want) && one == s.(want := {k}) && k in s.want && k !in done.want
    ensures Group(Fold(log, done), one, k) == Group(log, s, k)
    ensures TextOf(Fold(log, done), one, k) == TextOf(log, s, k)
  {
    OtherGroup(log, done, one, {}, k);
    OtherText(log, done, one, {}, k);
    WiderGroup(log, one, s, k);
    WiderText(log, one, s, k);
  }

  lemma {:induction false} PickedOne(log: seq<Event>, s: Selection, k: Key)
    requires s.want == {k}
    ensures Picked(log, s) == |Group(log, s, k)|
    ensures PickedKeys(log, s) == if Group(log, s, k) == [] then {} else {k}
    decreases |log|
  {
    if log != [] { PickedOne(log[1..], s, k); }
  }

  /** Folding one group removes all its rows but one. */
  lemma FoldShrinks(log: seq<Event>, s: Selection, k: Key)
    requires s.want == {k} && Group(log, s, k) != []
    ensures |Fold(log, s)| == |log| - (|Group(log, s, k)| - 1)
  {
    FoldLength(log, s, {});
    PickedOne(log, s, k);
    assert {k} - {} == {k};
  }

  lemma OthersAre(g: seq<Event>, others: seq<nat>)
    requires g != [] && |others| == |g| - 1 && forall i :: 0 <= i < |others| ==> others[i] == g[i + 1].num
    ensures NumSet(others) == Nums(g[1..])
  {
    forall n | n in Nums(g[1..]) ensures n in NumSet(others) {
      var e :| e in g[1..] && e.num == n;
      var i :| 0 <= i < |g[1..]| && g[1..][i] == e;
      assert others[i] == n;
    }
    forall n | n in NumSet(others) ensures n in Nums(g[1..]) {
      var i :| 0 <= i < |others| && others[i] == n;
      assert g[1..][i] in g[1..];
    }
  }

  lemma LonePile(log: seq<Event>, s: Selection, k: Key)
    requires Ascending(log) && s.want == {k} && |Group(log, s, k)| == 1
    ensures Fold(log, s) == log
  {
    var g := Group(log, s, k);
    var e := g[0];
    assert e in g && g == [e];
    FoldOne(log, s, k);
    LoneText(log, s, k, e);
    RewrittenSame(log, e);
    assert g[1..] == [];
    WithoutNone(log, {});
  }

  lemma WholeOrder(log: seq<Event>, s: Selection, order: seq<Key>, folds: map<Key, Pile>)
    requires Piled(log, s, order, folds)
    ensures Partial(log, s, order, |order|) == Fold(log, s)
  {
    var r := s.(want := FirstKeys(order, |order|));
    forall e | e in log ensures Picks(r, e) <==> Picks(s, e) {
      if Picks(s, e) { assert KeyOf(e) in order; }
    }
    FoldExtensional(log, r, s, {});
  }

  function Piling(p: Pile, e: Event): Pile
    requires e.payload.ItemDelta?
  {
    p.(text := p.text + e.payload.text, others := p.others + [e.num])
  }

  lemma PiledStep(rows: seq<Event>, e: Event, s: Selection, order: seq<Key>, folds: map<Key, Pile>)
    requires Piled(rows, s, order, folds) && e.payload.ItemDelta? && (Picks(s, e) <==> KeyOf(e) in s.want)
    ensures var k := KeyOf(e);
            if k !in s.want then Piled(rows + [e], s, order, folds)
            else if k in folds then Piled(rows + [e], s, order, folds[k := Piling(folds[k], e)])
            else Piled(rows + [e], s, order + [k], folds[k := Pile(e, e.payload.text, [])])
  {
    var k := KeyOf(e);
    forall j | j in folds
      ensures PileOf(rows + [e], s, j, if Picks(s, e) && j == k then Piling(folds[j], e) else folds[j])
    {
      PileGrows(rows, e, s, j, folds[j]);
    }
    if k in s.want && k !in folds { PileBegins(rows, e, s, k); }
  }

  lemma PiledLog(log: seq<Event>, s: Selection, order: seq<Key>, folds: map<Key, Pile>)
    requires Piled(InRange(log, s.scope, s.lo, s.hi), s, order, folds)
    ensures Piled(log, s, order, folds)
  {
    forall k | k in folds ensures PileOf(log, s, k, folds[k]) { RangeGroups(log, s, k); }
    RangeHolds(log, s);
  }

  lemma {:induction false} RangeScoped(log: seq<Event>, scope: Option<Id>, lo: nat, hi: nat)
    ensures forall e :: e in InRange(log, scope, lo, hi) ==> Scoped(scope, e) && lo <= e.num <= hi
    decreases |log|
  {
    if log != [] { RangeScoped(log[1..], scope, lo, hi); }
  }

  lemma {:induction false} RangeHolds(log: seq<Event>, s: Selection)
    ensures forall e :: e in log && Picks(s, e) ==> e in InRange(log, s.scope, s.lo, s.hi)
    decreases |log|
  {
    if log != [] { RangeHolds(log[1..], s); }
  }

  lemma PileGrows(rows: seq<Event>, e: Event, s: Selection, k: Key, p: Pile)
    requires PileOf(rows, s, k, p)
    ensures PileOf(rows + [e], s, k,
                   if InGroup(s, k, e) then p.(text := p.text + e.payload.text, others := p.others + [e.num]) else p)
  {
    GroupSnoc(rows, e, s, k);
    TextSnoc(rows, e, s, k);
  }

  lemma NoGroup(log: seq<Event>, s: Selection, k: Key)
    requires forall e :: e in log ==> !InGroup(s, k, e)
    ensures Group(log, s, k) == []
  {
    var g := Group(log, s, k);
    assert forall i :: 0 <= i < |g| ==> g[i] in g;
  }

  lemma PileBegins(rows: seq<Event>, e: Event, s: Selection, k: Key)
    requires InGroup(s, k, e) && forall x :: x in rows ==> !InGroup(s, k, x)
    ensures PileOf(rows + [e], s, k, Pile(e, e.payload.text, []))
  {
    GroupSnoc(rows, e, s, k);
    TextSnoc(rows, e, s, k);
    AbsentText(rows, s, k);
    NoGroup(rows, s, k);
    assert "" + e.payload.text == e.payload.text;
  }

  // ---- Row by row ----

  /** The next row applies to what the rows before it gave, and a row that fails makes the whole log fail. */
  lemma NextRow(t: Tables, rows: seq<Event>, i: nat)
    requires i < |rows| && Run(t, rows[..i]).Ok?
    ensures rows[..i + 1] == rows[..i] + [rows[i]]
    ensures Run(t, rows[..i + 1]) == Apply(Run(t, rows[..i]).value, rows[i])
    ensures Run(t, rows[..i + 1]).Fail? ==> Run(t, rows).Fail?
  {
    assert rows[..i + 1] == rows[..i] + [rows[i]];
    RunConcat(t, rows[..i], [rows[i]]);
    OneRow(Run(t, rows[..i]).value, rows[i]);
    assert rows == rows[..i + 1] + rows[i + 1..];
    RunConcat(t, rows[..i + 1], rows[i + 1..]);
  }

  lemma OneRow(t: Tables, e: Event)
    ensures Run(t, [e]) == Apply(t, e)
  {
    assert [e][1..] == [];
  }

  // ---- One batch ----

  lemma AscendingJoin(a: seq<Event>, c: seq<Event>, b: seq<Event>)
    requires Ascending(a) && Ascending(c + b) && forall e, x :: e in b && x in a ==> x.num < e.num
    ensures Ascending(a + b)
  {
    forall i, j | 0 <= i < j < |b| ensures b[i].num < b[j].num {
      assert (c + b)[|c| + i].num < (c + b)[|c| + j].num;
    }
  }

  function BoundsKeys(list: seq<Bounds>, i: nat, j: nat): set<Key>
    requires i <= j <= |list|
  {
    set m | i <= m < j :: list[m].key
  }

  lemma BoundsTop(log: seq<Event>, scope: Option<Id>)
    requires Ascending(log)
    ensures var list := Groups(log, scope);
      && (forall m :: 0 <= m < |list| ==> list[m].last <= Top(log))
      && (forall m, n :: 0 <= m < n < |list| ==> list[m].key != list[n].key)
      && BoundsKeys(list, 0, |list|) == KeysOf(list)
  {
    var list, all := Groups(log, scope), Everything(log, scope, Keys(log));
    ListSpec(log, log, all, {});
    forall m | 0 <= m < |list| ensures list[m].last <= Top(log) { WithinBounds(log, all, list[m]); }
  }

  lemma OneGroup(log: seq<Event>, scope: Option<Id>, m: nat)
    requires Ascending(log) && m < |Groups(log, scope)|
    ensures var b := Groups(log, scope)[m];
            forall e :: e in log && Scoped(scope, e) && KeyOf(e) == b.key ==> b.first <= e.num <= b.last <= Top(log)
  {
    var all := Everything(log, scope, Keys(log));
    ListSpec(log, log, all, {});
    EverythingPicks(log, scope, Keys(log));
    InKeys(log);
    WithinBounds(log, all, Groups(log, scope)[m]);
  }

  /** The range of a batch holds its groups, so the range itself changes nothing. */
  lemma RangeCovers(log: seq<Event>, scope: Option<Id>, i: nat, j: nat, done: set<Key>, s: Selection)
    requires Ascending(log) && i <= j <= |Groups(log, scope)|
    requires s.scope == scope && s.want == BoundsKeys(Groups(log, scope), i, j)
    requires forall m :: i <= m < j ==> s.lo <= Groups(log, scope)[m].first && Groups(log, scope)[m].last <= s.hi
    ensures var x := Fold(log, Everything(log, scope, done));
            forall e :: e in x ==> (Picks(s, e) <==> Picks(Everything(log, scope, s.want), e))
  {
    var list, x := Groups(log, scope), Fold(log, Everything(log, scope, done));
    FoldAscends(log, Everything(log, scope, done));
    forall e | e in x && Scoped(scope, e) && KeyOf(e) in s.want ensures s.lo <= e.num <= s.hi && e.num <= Top(log) {
      var o :| o in log && Alike(e, o);
      var m :| i <= m < j && list[m].key == KeyOf(e);
      OneGroup(log, scope, m);
      assert KeyOf(o) == KeyOf(e) && o.num == e.num;
    }
  }

  /** The log once the first `i` listed groups are folded. */
  function Batched(log: seq<Event>, scope: Option<Id>, i: nat): seq<Event>
    requires i <= |Groups(log, scope)|
  {
    Fold(log, Everything(log, scope, BoundsKeys(Groups(log, scope), 0, i)))
  }

  lemma BatchFold(log: seq<Event>, scope: Option<Id>, i: nat, j: nat, s: Selection, arrived: seq<Event>)
    requires Ascending(log) && i <= j <= |Groups(log, scope)|
    requires s.scope == scope && s.want == BoundsKeys(Groups(log, scope), i, j) && s.hi <= Top(log)
    requires forall m :: i <= m < j ==> s.lo <= Groups(log, scope)[m].first && Groups(log, scope)[m].last <= s.hi
    requires forall e :: e in arrived ==> e.num > Top(log)
    ensures Fold(Batched(log, scope, i) + arrived, s) == Batched(log, scope, j) + arrived
  {
    var list := Groups(log, scope);
    var done := BoundsKeys(list, 0, i);
    var x := Fold(log, Everything(log, scope, done));
    BoundsTop(log, scope);
    FoldAppend(x, arrived, s, {});
    RangeCovers(log, scope, i, j, done, s);
    FoldExtensional(x, s, Everything(log, scope, s.want), {});
    FoldTwice(log, Everything(log, scope, done), s.want, {}, {});
    assert Everything(log, scope, done).(want := s.want) == Everything(log, scope, s.want);
    assert BoundsKeys(list, 0, j) == done + s.want;
    var none: set<Key> := {};
    assert none + none == none;
  }

  /** Before the first batch nothing is folded. */
  lemma BatchesStart(log: seq<Event>, scope: Option<Id>)
    ensures Batched(log, scope, 0) == log
  {
    assert BoundsKeys(Groups(log, scope), 0, 0) == {};
    FoldNothing(log, Everything(log, scope, {}), {});
  }

  /** After the last batch every group is, and the tables `view` mirror the log if `was` did. */
  lemma BatchesEnd(log0: seq<Event>, scope: Option<Id>, arrived: seq<Event>, log: seq<Event>, was: Tables, view: Tables)
    requires Ascending(log0) && Ascending(log) && log == Batched(log0, scope, |Groups(log0, scope)|) + arrived
    requires Run(was, arrived) == Ok(view) && forall e, x :: e in arrived && x in log0 ==> x.num < e.num
    ensures Batched(log0, scope, |Groups(log0, scope)|) == Compacted(log0, scope)
    ensures Ascending(log0 + arrived)
    ensures Agree(Replayed(log0), Ok(was)) && Safe(log0 + arrived, scope) ==> Agree(Replayed(log), Ok(view))
  {
    BoundsTop(log0, scope);
    ListedSuffice(log0, scope);
    AscendingJoin(log0, Compacted(log0, scope), arrived);
    if Agree(Replayed(log0), Ok(was)) && Safe(log0 + arrived, scope) {
      CompactMirrors(log0, scope, arrived, was);
    }
  }

  class Store {
    var log: seq<Event>
    var next: nat
    var projects: map<Id, Project>
    var threads: map<Id, Thread>
    var items: map<ItemId, Item>
    var approvals: map<(Id, Id), Approval>
    var queue: map<Id, Queued>
    var rules: map<(Id, string), int>
    var index: map<nat, IndexRow>

    ghost function Book(): Ledger
      reads this
    {
      Ledger(projects, threads, approvals, queue, rules)
    }

    ghost function View(): Tables
      reads this
    {
      Tables(Book(), items, index)
    }

    ghost predicate Valid()
      reads this
    {
      Ascending(log) && next > 0 && forall e :: e in log ==> e.num < next
    }

    /** The tables are what a replay of the log would give, up to `updated` of items. */
    ghost predicate Mirrors()
      reads this
    {
      Agree(Replayed(log), Ok(View()))
    }

    constructor ()
      ensures Valid() && Mirrors() && log == [] && View() == EMPTY
    {
      log, next := [], 1;
      projects, threads, items, approvals, queue, rules, index := map[], map[], map[], map[], map[], map[], map[];
    }

    // ---- Applying one event ----

    method Touch(ev: Event)
      modifies this`threads
      ensures Book() == Projection.Touch(old(Book()), ev)
    {
      if ev.thread in threads {
        threads := threads[ev.thread := Revise(threads[ev.thread], ev.payload, ev.at)];
      }
    }

    method UnindexItem(id: ItemId)
      modifies this`index
      ensures index == Unindexed(old(index), items, id)
    {
      if id in items { index := index - {items[id].head.rowid}; }
    }

    method IndexItem(id: ItemId)
      modifies this`index
      ensures index == Indexed(old(index), items, id)
    {
      UnindexItem(id);
      if id in items {
        var row := items[id];
        if Searchable(row.head.kind) && row.body != "" {
          index := index[row.head.rowid := IndexRow(id, row.head.thread, row.body)];
        }
      }
    }

    /** The foreign keys' cascade when threads go. */
    method DeleteThreads(gone: set<Id>)
      modifies this`threads, this`items, this`approvals, this`queue, this`rules
      ensures View() == DropThreads(old(View()), gone)
    {
      threads := threads - gone;
      items := map i | i in items && items[i].head.thread !in gone :: items[i];
      approvals := map a | a in approvals && a.0 !in gone :: approvals[a];
      queue := map q | q in queue && queue[q].thread !in gone :: queue[q];
      rules := map r | r in rules && r.0 !in gone :: rules[r];
    }

    method ApplyCatalog(c: CatalogChange, at: int) returns (ok: bool)
      requires !c.ProjectRemoved?
      modifies this`projects, this`threads
      ensures match Catalogued(old(Book()), c, at) case Fail => !ok case Ok(l) => ok && Book() == l
    {
      ok := true;
      match c
      case ProjectAdded(id, path, name) =>
        if id !in projects && !(exists q :: q in projects && projects[q].path == path) {
          projects := projects[id := Project(path, name, at, false, Settings("", "", "", ""), "")];
        }
      case ProjectSettingsChanged(id, worktrees, defaults, cleanup) =>
        if id in projects {
          projects := projects[id := projects[id].(worktrees := worktrees, defaults := defaults, cleanup := cleanup)];
        }
      case ThreadCreated(id, project, _, _, _) =>
        if id !in threads {
          ok := project in projects;
          if ok { threads := threads[id := FreshThread(c, at)]; }
        }
    }

    method ApplyQueue(ev: Event) returns (ok: bool)
      requires ev.payload.Queue?
      modifies this`threads, this`queue
      ensures match Requeued(old(Book()), ev) case Fail => !ok case Ok(l) => ok && Book() == l
    {
      ok := true;
      match ev.payload.queue
      case PromptQueued(id, body) =>
        ok := id !in queue && ev.thread in threads;
        if ok {
          queue := queue[id := Queued(ev.thread, ev.num, body, ev.at)];
          Touch(ev);
        }
      case PromptDequeued(id) =>
        if id in queue && queue[id].thread == ev.thread { queue := queue - {id}; }
        Touch(ev);
    }

    method ApplyConsent(thread: Id, c: ApprovalChange, at: int) returns (ok: bool)
      modifies this`approvals, this`rules
      ensures match Consented(old(Book()), thread, c, at) case Fail => !ok case Ok(l) => ok && Book() == l
    {
      ok := true;
      match c
      case ApprovalRequested(id, about, tool, description, input) =>
        ok := thread in threads;
        if ok {
          approvals := approvals[(thread, id) := Approval(about, tool, description, input, Undecided, at, None)];
        }
      case ApprovalResolved(id, decision, auto) =>
        var k := (thread, id);
        var lasting := decision == AllowSession && !auto;
        if k in approvals {
          approvals := approvals[k := approvals[k].(decision := decision, resolved := Some(at))];
          var rule := (thread, RuleKey(approvals[k].tool, approvals[k].input));
          if lasting && rule !in rules { rules := rules[rule := at]; }
        } else {
          ok := !lasting;
        }
      case RuleRevoked(key) => rules := rules - {(thread, key)};
    }

    method ApplyStart(ev: Event)
      requires ev.payload.ItemStarted?
      modifies this`items, this`index, this`threads
      ensures View() == Started(old(View()), ev)
    {
      var p := ev.payload;
      UnindexItem(p.item);
      items := items[p.item := FreshItem(ev)];
      if p.kind == User || (p.state != Ongoing && p.state != Pending) { IndexItem(p.item); }
      Touch(ev);
    }

    method ApplyRewind(ev: Event)
      requires ev.payload.ThreadRewound?
      modifies this`items, this`index, this`threads
      ensures View() == Apply(old(View()), ev).value
    {
      var id := ev.payload.item;
      if id in items {
        var cut := items[id].head.rowid;
        index := index - RowidsFrom(items, ev.thread, cut);
        items := map i | i in items && !(items[i].head.thread == ev.thread && items[i].head.rowid >= cut) :: items[i];
      }
      Touch(ev);
    }

    /** Brings the tables up to one event; on `!ok` the caller rolls the transaction back. */
    method ApplyEvent(ev: Event) returns (ok: bool)
      modifies this`projects, this`threads, this`items, this`approvals, this`queue, this`rules, this`index
      ensures match Apply(old(View()), ev) case Fail => !ok case Ok(t) => ok && View() == t
    {
      ok := true;
      match ev.payload
      case ItemStarted(_, _, _, _, _, _, _) =>
        ok := ev.thread in threads;
        if ok { ApplyStart(ev); }
      case ItemDelta(id, field, text) =>
        if id in items { items := items[id := Extend(items[id], ColumnOf(field), text, ev.at)]; }
      case ItemCompleted(id, _, _, _) =>
        if id in items { items := items[id := Completed(items[id], ev.payload, ev.at)]; }
        IndexItem(id);
      case ThreadRewound(_, _, _) => ApplyRewind(ev);
      case ThreadDeleted =>
        index := index - RowidsFrom(items, ev.thread, 0);
        DeleteThreads({ev.thread});
      case Row(_) => Touch(ev);
      case Catalog(c) =>
        if c.ProjectRemoved? {
          DeleteThreads(set id | id in threads && threads[id].project == c.project);
          projects := projects - {c.project};
        } else {
          ok := ApplyCatalog(c, ev.at);
        }
      case Queue(_) => ok := ApplyQueue(ev);
      case Consent(c) => ok := ApplyConsent(ev.thread, c, ev.at);
      case GitChanged =>
    }

    /** Back to where a transaction began. */
    method Rollback(log0: seq<Event>, next0: nat, t: Tables)
      modifies this
      ensures log == log0 && next == next0 && View() == t
    {
      log, next, items, index := log0, next0, t.items, t.index;
      projects, threads, approvals, queue, rules :=
        t.ledger.projects, t.ledger.threads, t.ledger.approvals, t.ledger.queue, t.ledger.rules;
    }

    // ---- Append and Replay ----

    /** Writes one row and applies it. */
    method AppendRow(ev: Event, ghost t0: Tables, ghost rows: seq<Event>, ghost i: nat) returns (ok: bool)
      requires i < |rows| && rows[i] == ev && Run(t0, rows[..i]) == Ok(View())
      modifies this
      ensures log == old(log) + [ev] && next == old(next) + 1 && rows[..i + 1] == rows[..i] + [ev]
      ensures if ok then Run(t0, rows[..i + 1]) == Ok(View()) else Run(t0, rows).Fail?
    {
      NextRow(t0, rows, i);
      log := log + [ev];
      next := next + 1;
      ok := ApplyEvent(ev);
    }

    /** Row after row, up to one that fails. */
    method AppendRows(thread: Id, payloads: seq<Payload>, now: int, ghost rows: seq<Event>) returns (ok: bool)
      requires rows == Stamped(next, thread, now, payloads)
      modifies this
      ensures ok ==> log == old(log) + rows && next == old(next) + |rows| && Run(old(View()), rows) == Ok(View())
      ensures !ok ==> Run(old(View()), rows).Fail?
    {
      ghost var t0 := View();
      var i := 0;
      ok := true;
      while i < |payloads| && ok
        invariant 0 <= i <= |payloads|
        invariant ok ==> next == old(next) + i && log == old(log) + rows[..i] && Run(t0, rows[..i]) == Ok(View())
        invariant !ok ==> Run(t0, rows).Fail?
      {
        ok := AppendRow(Event(next, thread, now, payloads[i]), t0, rows, i);
        i := i + 1;
      }
      assert rows[..|rows|] == rows;
    }

    /** Writes the payloads as rows and applies them, all or nothing. */
    method Append(thread: Id, payloads: seq<Payload>, now: int) returns (ok: bool)
      requires Valid()
      modifies this
      ensures Valid()
      ensures ok <==> Run(old(View()), Stamped(old(next), thread, now, payloads)).Ok?
      ensures ok ==> log == old(log) + Stamped(old(next), thread, now, payloads)
                     && next == old(next) + |payloads|
                     && Run(old(View()), Stamped(old(next), thread, now, payloads)) == Ok(View())
      ensures !ok ==> log == old(log) && next == old(next) && View() == old(View())
      ensures old(Mirrors()) ==> Mirrors()
    {
      ghost var mirrored := Mirrors();
      var log0, next0 := log, next;
      var t0 := Tables(Ledger(projects, threads, approvals, queue, rules), items, index);
      ghost var rows := Stamped(next, thread, now, payloads);
      ok := AppendRows(thread, payloads, now, rows);
      if !ok {
        Rollback(log0, next0, t0);
        return;
      }
      if mirrored { AppendMirrors(log0, t0, rows); }
    }

    /** Rebuilds every table from the log. */
    method Replay() returns (ok: bool)
      modifies this
      ensures log == old(log) && next == old(next)
      ensures ok <==> Replayed(log).Ok?
      ensures ok ==> Replayed(log) == Ok(View()) && Mirrors()
      ensures !ok ==> View() == old(View())
    {
      var t0 := Tables(Ledger(projects, threads, approvals, queue, rules), items, index);
      projects, threads, items, approvals, queue, rules, index := map[], map[], map[], map[], map[], map[], map[];
      var i := 0;
      assert log[..0] == [];
      while i < |log|
        invariant 0 <= i <= |log| && log == old(log) && next == old(next)
        invariant Replayed(log[..i]) == Ok(View())
      {
        var ev := log[i];
        NextRow(EMPTY, log, i);
        ok := ApplyEvent(ev);
        if !ok {
          Rollback(log, next, t0);
          return;
        }
        i := i + 1;
      }
      ok := true;
      assert log[..i] == log;
    }

    // ---- Compaction ----

    static method PileRow(e: Event, want: set<Key>, order: seq<Key>, folds: map<Key, Pile>, ghost rows: seq<Event>,
                          ghost s: Selection)
      returns (order': seq<Key>, folds': map<Key, Pile>)
      requires e.payload.ItemDelta? && s.want == want && (Picks(s, e) <==> KeyOf(e) in want)
        && Piled(rows, s, order, folds)
      ensures Piled(rows + [e], s, order', folds')
    {
      PiledStep(rows, e, s, order, folds);
      order', folds' := order, folds;
      var k := KeyOf(e);
      if k in want {
        if k !in folds {
          order' := order + [k];
          folds' := folds[k := Pile(e, e.payload.text, [])];
        } else {
          folds' := folds[k := Piling(folds[k], e)];
        }
      }
    }

    /** Piles up the wanted groups in the order they appear. */
    static method PileRows(rows: seq<Event>, want: set<Key>, ghost s: Selection)
      returns (order: seq<Key>, folds: map<Key, Pile>)
      requires s.want == want && forall e :: e in rows ==> e.payload.ItemDelta? && (Picks(s, e) <==> KeyOf(e) in want)
      ensures Piled(rows, s, order, folds)
    {
      order, folds := [], map[];
      var n := 0;
      while n < |rows|
        invariant 0 <= n <= |rows|
        invariant Piled(rows[..n], s, order, folds)
      {
        assert rows[n] in rows;
        assert rows[..n + 1] == rows[..n] + [rows[n]];
        order, folds := PileRow(rows[n], want, order, folds, rows[..n], s);
        n := n + 1;
      }
      assert rows[..n] == rows;
    }

    /** Reads the rows of the range once. */
    method Collect(scope: Option<Id>, lo: nat, hi: nat, want: set<Key>) returns (order: seq<Key>, folds: map<Key, Pile>)
      ensures Piled(log, Selection(scope, lo, hi, want), order, folds)
    {
      ghost var s := Selection(scope, lo, hi, want);
      var rows := InRange(log, scope, lo, hi);
      RangeScoped(log, scope, lo, hi);
      order, folds := PileRows(rows, want, s);
      PiledLog(log, s, order, folds);
    }

    /** Deletes the rows of the given numbers, 500 at a time. */
    method DeleteRows(nums: seq<nat>)
      modifies this`log
      ensures log == Without(old(log), NumSet(nums))
    {
      WithoutNone(log, {});
      assert nums[..0] == [] && NumSet([]) == {};
      var i := 0;
      while i < |nums|
        invariant 0 <= i <= |nums|
        invariant log == Without(old(log), NumSet(nums[..i]))
      {
        var end := if i + 500 < |nums| then i + 500 else |nums|;
        var part := nums[i..end];
        WithoutTwice(old(log), NumSet(nums[..i]), NumSet(part));
        assert nums[..end] == nums[..i] + part;
        NumSetConcat(nums[..i], part);
        log := Without(log, NumSet(part));
        i := end;
      }
      assert nums[..i] == nums;
    }

    /** Writes the text of one pile to its first row and deletes the others. */
    method FoldPile(pile: Pile, ghost one: Selection, ghost k: Key)
      requires Ascending(log) && one.want == {k} && PileOf(log, one, k, pile)
      modifies this`log
      ensures log == Fold(old(log), one) && |log| == |old(log)| - |pile.others|
    {
      FoldOne(log, one, k);
      FoldShrinks(log, one, k);
      OthersAre(Group(log, one, k), pile.others);
      log := Rewritten(log, pile.head.num, pile.text);
      DeleteRows(pile.others);
    }

    /** Folds the next pile, if it has anything to fold. */
    method FoldNext(pile: Pile, ghost log0: seq<Event>, ghost s: Selection, ghost order: seq<Key>, ghost m: nat)
      returns (removed: nat)
      requires Ascending(log0) && Distinct(order) && m < |order| && order[m] in s.want
      requires log == Partial(log0, s, order, m) && PileOf(log0, s, order[m], pile)
      modifies this`log
      ensures log == Partial(log0, s, order, m + 1) && removed == |old(log)| - |log|
    {
      ghost var one := s.(want := {order[m]});
      FoldGrows(log0, s, order, m);
      PileSurvives(log0, s.(want := FirstKeys(order, m)), one, s, order[m]);
      FoldAscends(log0, s.(want := FirstKeys(order, m)));
      removed := |pile.others|;
      if |pile.others| > 0 {
        FoldPile(pile, one, order[m]);
      } else {
        LonePile(log, one, order[m]);
      }
    }

    /** Folds the piles in their order. */
    method FoldPiles(order: seq<Key>, folds: map<Key, Pile>, ghost s: Selection) returns (removed: nat)
      requires Ascending(log) && Piled(log, s, order, folds)
      modifies this`log
      ensures log == Partial(old(log), s, order, |order|) && removed == |old(log)| - |log|
    {
      removed := 0;
      assert FirstKeys(order, 0) == {};
      FoldNothing(log, s.(want := {}), {});
      var m := 0;
      while m < |order|
        invariant 0 <= m <= |order| && log == Partial(old(log), s, order, m) && removed == |old(log)| - |log|
      {
        var n := FoldNext(folds[order[m]], old(log), s, order, m);
        removed := removed + n;
        m := m + 1;
      }
    }

    /** Folds the wanted groups among the rows `lo` to `hi`, in one transaction. */
    method CompactRange(scope: Option<Id>, lo: nat, hi: nat, want: set<Key>) returns (removed: nat)
      requires Valid()
      modifies this`log
      ensures Valid()
      ensures log == Fold(old(log), Selection(scope, lo, hi, want))
      ensures removed == |old(log)| - |log|
    {
      ghost var s := Selection(scope, lo, hi, want);
      var order, folds := Collect(scope, lo, hi, want);
      WholeOrder(log, s, order, folds);
      FoldAscends(log, s);
      removed := FoldPiles(order, folds, s);
    }

    /** The stretch of the log a batch of groups spans, and the batch's keys. */
    static method Span(groups: seq<Bounds>, i: nat, end: nat, ghost top: nat) returns (lo: nat, hi: nat, want: set<Key>)
      requires i < end <= |groups| && forall m :: i <= m < end ==> groups[m].last <= top
      ensures want == BoundsKeys(groups, i, end) && hi <= top
      ensures forall m :: i <= m < end ==> lo <= groups[m].first && groups[m].last <= hi
    {
      lo, hi, want := groups[i].first, groups[i].last, {};
      var j := i;
      while j < end
        invariant i <= j <= end && hi <= top
        invariant want == BoundsKeys(groups, i, j)
        invariant forall m :: i <= m < j ==> lo <= groups[m].first && groups[m].last <= hi
      {
        lo := if groups[j].first < lo then groups[j].first else lo;
        hi := if groups[j].last > hi then groups[j].last else hi;
        want := want + {groups[j].key};
        assert BoundsKeys(groups, i, j + 1) == BoundsKeys(groups, i, j) + {groups[j].key};
        j := j + 1;
      }
    }

    /**
     * Folds every group of `scope`, `batch` groups to a transaction; `early` are the appends that commit between the
     * listing and the first of them, `arrivals` those that commit after each, `arrived` the rows they all wrote.
     */
    method Compact(scope: Option<Id>, batch: nat, early: seq<Arrival>, arrivals: seq<seq<Arrival>>)
      returns (removed: nat, ghost arrived: seq<Event>)
      requires Valid() && batch > 0
      modifies this
      ensures Valid()
      ensures log == Compacted(old(log), scope) + arrived
      ensures removed == |old(log)| - |Compacted(old(log), scope)|
      ensures Run(old(View()), arrived) == Ok(View())
      ensures forall e :: e in arrived ==> old(next) <= e.num < next
      ensures Ascending(old(log) + arrived)
      ensures old(Mirrors()) && Safe(old(log) + arrived, scope) ==> Mirrors()
    {
      ghost var log0 := log;
      var groups := Groups(log, scope);
      BoundsTop(log, scope);
      BatchesStart(log, scope);
      arrived := InterruptAll(early);
      removed, arrived := Batches(scope, groups, batch, arrivals, log0, arrived, old(View()), old(next));
      BatchesEnd(log0, scope, arrived, log, old(View()), View());
    }

    /** The first `i` groups are folded, and what arrived since `from` stands behind them, applied to the tables. */
    ghost predicate Midway(log0: seq<Event>, scope: Option<Id>, i: nat, removed: nat, arrived: seq<Event>,
                           was: Tables, from: nat)
      requires i <= |Groups(log0, scope)|
      reads this
    {
      && Valid() && from <= next && (forall e :: e in arrived ==> from <= e.num < next)
      && log == Batched(log0, scope, i) + arrived && removed == |log0| - |Batched(log0, scope, i)|
      && Run(was, arrived) == Ok(View())
    }

    /** The loop over the batches. */
    method Batches(scope: Option<Id>, groups: seq<Bounds>, batch: nat, arrivals: seq<seq<Arrival>>,
                   ghost log0: seq<Event>, ghost early: seq<Event>, ghost was: Tables, ghost from: nat)
      returns (removed: nat, ghost arrived: seq<Event>)
      requires batch > 0 && Ascending(log0) && groups == Groups(log0, scope) && Top(log0) < from
      requires forall m :: 0 <= m < |groups| ==> groups[m].last <= Top(log0)
      requires Midway(log0, scope, 0, 0, early, was, from)
      modifies this
      ensures Midway(log0, scope, |groups|, removed, arrived, was, from)
    {
      removed, arrived := 0, early;
      var i, turn := 0, 0;
      while i < |groups|
        invariant i <= |groups| && Midway(log0, scope, i, removed, arrived, was, from)
      {
        var appends := if turn < |arrivals| then arrivals[turn] else [];
        i, removed, arrived := Round(scope, groups, batch, appends, i, removed, log0, arrived, was, from);
        turn := turn + 1;
      }
    }

    /** The next batch, and what arrives after it. */
    method Round(scope: Option<Id>, groups: seq<Bounds>, batch: nat, appends: seq<Arrival>, i: nat, removed: nat,
                 ghost log0: seq<Event>, ghost arrived: seq<Event>, ghost was: Tables, ghost from: nat)
      returns (end: nat, more: nat, ghost since: seq<Event>)
      requires batch > 0 && Ascending(log0) && groups == Groups(log0, scope) && i < |groups| && Top(log0) < from
      requires forall m :: 0 <= m < |groups| ==> groups[m].last <= Top(log0)
      requires Midway(log0, scope, i, removed, arrived, was, from)
      modifies this
      ensures i < end <= |groups| && Midway(log0, scope, end, more, since, was, from)
    {
      end := if i + batch < |groups| then i + batch else |groups|;
      var lo, hi, want := Span(groups, i, end, Top(log0));
      var n := Batch(scope, lo, hi, want, log0, i, end, arrived);
      more := removed + n;
      ghost var rows := InterruptAll(appends);
      RunConcat(was, arrived, rows);
      Regroup(Batched(log0, scope, end), arrived, rows);
      since := arrived + rows;
    }

    /** The transaction of one batch. */
    method Batch(scope: Option<Id>, lo: nat, hi: nat, want: set<Key>,
                 ghost log0: seq<Event>, ghost i: nat, ghost end: nat, ghost arrived: seq<Event>) returns (removed: nat)
      requires Valid() && Ascending(log0) && i <= end <= |Groups(log0, scope)|
      requires want == BoundsKeys(Groups(log0, scope), i, end) && hi <= Top(log0)
      requires forall m :: i <= m < end ==> lo <= Groups(log0, scope)[m].first && Groups(log0, scope)[m].last <= hi
      requires forall e :: e in arrived ==> e.num > Top(log0)
      requires log == Batched(log0, scope, i) + arrived
      modifies this`log
      ensures Valid() && log == Batched(log0, scope, end) + arrived
      ensures removed == |Batched(log0, scope, i)| - |Batched(log0, scope, end)|
    {
      BatchFold(log0, scope, i, end, Selection(scope, lo, hi, want), arrived);
      removed := CompactRange(scope, lo, hi, want);
    }

    /** Somebody else's append; `rows` is what it wrote, nothing if it was rolled back. */
    method Interrupt(a: Arrival) returns (ghost rows: seq<Event>)
      requires Valid()
      modifies this
      ensures Valid() && log == old(log) + rows && old(next) <= next
      ensures Run(old(View()), rows) == Ok(View())
      ensures forall e :: e in rows ==> old(next) <= e.num < next
    {
      rows := [];
      var ok := Append(a.thread, a.payloads, a.now);
      if ok {
        rows := Stamped(old(next), a.thread, a.now, a.payloads);
      }
    }

    /** Any number of such appends. */
    method InterruptAll(appends: seq<Arrival>) returns (ghost rows: seq<Event>)
      requires Valid()
      modifies this
      ensures Valid() && log == old(log) + rows && old(next) <= next
      ensures Run(old(View()), rows) == Ok(View())
      ensures forall e :: e in rows ==> old(next) <= e.num < next
    {
      rows := [];
      assert log == log + [];
      for i := 0 to |appends|
        invariant Valid() && log == old(log) + rows && old(next) <= next
        invariant Run(old(View()), rows) == Ok(View())
        invariant forall e :: e in rows ==> old(next) <= e.num < next
      {
        ghost var more := Interrupt(appends[i]);
        RunConcat(old(View()), rows, more);
        Regroup(old(log), rows, more);
        rows := rows + more;
      }
    }
  }
}
