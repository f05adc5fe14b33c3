/** The full-text index agrees with the transcript, except for what a removed project leaves behind. */
module SearchIndex {
  import opened Domain
  import opened Projection
  import opened Meaning
  import opened Exactness

  /** The index row names an item that is there, at its present rowid. */
  predicate Alive(t: Tables, r: nat)
    requires r in t.index
  {
    t.index[r].item in t.items && t.items[t.index[r].item].head.rowid == r
  }

  /** The rows whose item version is gone. */
  function Orphans(t: Tables): set<nat> {
    set r | r in t.index && !Alive(t, r)
  }

  /** Rowids are given out once: a row at an item's rowid is that item's row. */
  ghost predicate Kept(t: Tables, next: nat) {
    && Numbered(t, next)
    && (forall r :: r in t.index ==> r < next)
    && (forall i :: i in t.items && t.items[i].head.rowid in t.index ==> t.index[t.items[i].head.rowid].item == i)
  }

  predicate RemovesProject(e: Event) {
    e.payload.Catalog? && e.payload.catalog.ProjectRemoved?
  }

  /** The rowids of indexed items that go with the threads of a project. */
  function Leaked(t: Tables, e: Event): set<nat>
    requires RemovesProject(e)
  {
    set i | i in t.items && t.items[i].head.thread in ThreadsOf(t.ledger, e.payload.catalog.project)
            && t.items[i].head.rowid in t.index :: t.items[i].head.rowid
  }

  /** An event that leaves index rows without their items. */
  predicate Leaks(t: Tables, e: Event) {
    RemovesProject(e) && Leaked(t, e) != {}
  }

  lemma StartedOrphans(t: Tables, e: Event, next: nat)
    requires Kept(t, next) && e.num >= next && e.payload.ItemStarted?
    ensures Orphans(Started(t, e)) == Orphans(t)
  {
  }

  lemma StartedIndex(t: Tables, e: Event, next: nat)
    requires Kept(t, next) && e.num >= next && e.payload.ItemStarted?
    ensures Kept(Started(t, e), e.num + 1) && Orphans(Started(t, e)) == Orphans(t)
  {
    StartedOrphans(t, e, next);
  }

  lemma FinishedIndex(t: Tables, e: Event, next: nat)
    requires Kept(t, next) && e.num >= next && e.payload.ItemCompleted?
    ensures Kept(Finished(t, e), e.num + 1) && Orphans(Finished(t, e)) == Orphans(t)
  {
  }

  lemma RewoundIndex(t: Tables, e: Event, next: nat)
    requires Kept(t, next) && e.num >= next && e.payload.ThreadRewound?
    ensures Kept(Apply(t, e).value, e.num + 1) && Orphans(Apply(t, e).value) == Orphans(t)
  {
  }

  lemma DeletedIndex(t: Tables, e: Event, next: nat)
    requires Kept(t, next) && e.num >= next && e.payload.ThreadDeleted?
    ensures Kept(Apply(t, e).value, e.num + 1) && Orphans(Apply(t, e).value) == Orphans(t)
  {
  }

  lemma RemovedIndex(t: Tables, e: Event, next: nat)
    requires Kept(t, next) && e.num >= next && RemovesProject(e)
    ensures Kept(Apply(t, e).value, e.num + 1) && Orphans(Apply(t, e).value) == Orphans(t) + Leaked(t, e)
  {
  }

  lemma AsideIndex(t: Tables, e: Event, next: nat)
    requires Kept(t, next) && e.num >= next && Aside(e.payload) && Apply(t, e).Ok?
    ensures Kept(Apply(t, e).value, e.num + 1) && Orphans(Apply(t, e).value) == Orphans(t)
  {
    assert Apply(t, e).value.items == t.items && Apply(t, e).value.index == t.index;
  }

  lemma DeltaIndex(t: Tables, e: Event, next: nat)
    requires Kept(t, next) && e.num >= next && e.payload.ItemDelta?
    ensures Kept(Apply(t, e).value, e.num + 1) && Orphans(Apply(t, e).value) == Orphans(t)
  {
  }

  /** Only the removal of a project makes orphans, and nothing clears them. */
  lemma OrphanStep(t: Tables, e: Event, next: nat)
    requires Kept(t, next) && e.num >= next && Apply(t, e).Ok?
    ensures Kept(Apply(t, e).value, e.num + 1)
    ensures Orphans(Apply(t, e).value) == Orphans(t) + if RemovesProject(e) then Leaked(t, e) else {}
  {
    match e.payload
    case ItemStarted(_, _, _, _, _, _, _) => StartedIndex(t, e, next);
    case ItemCompleted(_, _, _, _) => FinishedIndex(t, e, next);
    case ThreadRewound(_, _, _) => RewoundIndex(t, e, next);
    case ThreadDeleted => DeletedIndex(t, e, next);
    case ItemDelta(_, _, _) => DeltaIndex(t, e, next);
    case Catalog(c) => if c.ProjectRemoved? { RemovedIndex(t, e, next); } else { AsideIndex(t, e, next); }
    case _ => AsideIndex(t, e, next);
  }

  /** A restart, a rewind and a thread's deletion remove exactly the rows of the item versions they drop. */
  lemma RemovesExactly(t: Tables, e: Event, next: nat, r: nat)
    requires Kept(t, next) && e.num >= next && Apply(t, e).Ok? && r in t.index && Alive(t, r)
    requires e.payload.ItemStarted? || e.payload.ThreadRewound? || e.payload.ThreadDeleted?
    ensures var t', i := Apply(t, e).value, t.index[r].item;
            r in t'.index <==> i in t'.items && t'.items[i].head.rowid == r
  {
    OrphanStep(t, e, next);
    var t' := Apply(t, e).value;
    assert r in t'.index && !Alive(t', r) ==> r in Orphans(t');
  }

  /** What the events of a log say of item `i`: its last start or completion indexed it, and no body text came since. */
  predicate Settled(log: seq<Event>, i: ItemId) {
    if log == [] then true else
    var last := log[|log| - 1];
    match last.payload
    case ItemStarted(j, _, _, _, _, _, _) =>
      if j == i then IndexedAtStart(last.payload) else Settled(log[..|log| - 1], i)
    case ItemCompleted(j, _, _, _) => j == i || Settled(log[..|log| - 1], i)
    case ItemDelta(j, f, _) => !(j == i && ColumnOf(f) == Body) && Settled(log[..|log| - 1], i)
    case _ => Settled(log[..|log| - 1], i)
  }

  /** Item `i` has an index row exactly if it is a prompt or reply with text, and the row is its present text. */
  predicate Current(t: Tables, i: ItemId)
    requires i in t.items
  {
    var row := t.items[i];
    if Searchable(row.head.kind) && row.body != ""
    then row.head.rowid in t.index && t.index[row.head.rowid] == IndexRow(i, row.head.thread, row.body)
    else row.head.rowid !in t.index
  }

  lemma CurrentAside(t: Tables, e: Event, next: nat, i: ItemId)
    requires Kept(t, next) && e.num >= next && Apply(t, e).Ok? && i in Apply(t, e).value.items
    requires !TextEvent(e) && (i in t.items ==> Current(t, i))
    ensures i in t.items && Current(Apply(t, e).value, i)
  {
  }

  lemma CurrentText(t: Tables, e: Event, next: nat, i: ItemId)
    requires Kept(t, next) && e.num >= next && Apply(t, e).Ok? && i in Apply(t, e).value.items && TextEvent(e)
    requires match e.payload
             case ItemStarted(j, _, _, _, _, _, _) =>
               if j == i then IndexedAtStart(e.payload) else i in t.items && Current(t, i)
             case ItemCompleted(j, _, _, _) => j == i || (i in t.items && Current(t, i))
             case ItemDelta(j, f, _) => !(j == i && ColumnOf(f) == Body) && i in t.items && Current(t, i)
             case _ => false
    ensures Current(Apply(t, e).value, i)
  {
  }

  function After(log: seq<Event>): nat {
    if log == [] then 0 else log[|log| - 1].num + 1
  }

  lemma Snoc(log: seq<Event>)
    requires log != [] && Ascending(log)
    ensures var init, last := log[..|log| - 1], log[|log| - 1];
            && Ascending(init) && last.num >= After(init)
            && Replayed(log) == match Replayed(init) case Fail => Fail case Ok(t) => Apply(t, last)
  {
    var init, last := log[..|log| - 1], log[|log| - 1];
    assert log == init + [last];
    RunConcat(EMPTY, init, [last]);
    assert [last][1..] == [];
  }

  lemma {:induction false} RowidsKept(log: seq<Event>)
    requires Ascending(log) && Replayed(log).Ok?
    ensures Kept(Replayed(log).value, After(log))
    decreases |log|
  {
    if log != [] {
      Snoc(log);
      RowidsKept(log[..|log| - 1]);
      OrphanStep(Replayed(log[..|log| - 1]).value, log[|log| - 1], After(log[..|log| - 1]));
    }
  }

  /** The row at the rowid of an item whose last event indexed it holds the item's present text. */
  lemma {:induction false} SettledIsCurrent(log: seq<Event>, i: ItemId)
    requires Ascending(log) && Replayed(log).Ok? && i in Replayed(log).value.items && Settled(log, i)
    ensures Current(Replayed(log).value, i)
    decreases |log|
  {
    if log != [] {
      Snoc(log);
      var init, last := log[..|log| - 1], log[|log| - 1];
      var t := Replayed(init).value;
      RowidsKept(init);
      var here := last.payload.ItemStarted? || last.payload.ItemCompleted?;
      if !(here && last.payload.item == i) {
        Survives(t, last, i);
        SettledIsCurrent(init, i);
      } else if last.payload.ItemCompleted? {
        Survives(t, last, i);
      }
      if TextEvent(last) {
        CurrentText(t, last, After(init), i);
      } else {
        CurrentAside(t, last, After(init), i);
      }
    }
  }

  lemma Survives(t: Tables, e: Event, i: ItemId)
    requires Apply(t, e).Ok? && i in Apply(t, e).value.items && !(e.payload.ItemStarted? && e.payload.item == i)
    ensures i in t.items
  {
  }

  /** The `n`th event removes a project whose threads still have indexed items. */
  predicate LeaksAt(log: seq<Event>, n: nat)
    requires n < |log|
  {
    match Replayed(log[..n])
    case Fail => false
    case Ok(t) => Leaks(t, log[n])
  }

  /** Every index row names a live item version exactly if no project was removed while it had indexed items. */
  lemma {:induction false} ExactUnlessLeaked(log: seq<Event>)
    requires Ascending(log) && Replayed(log).Ok?
    ensures Orphans(Replayed(log).value) == {} <==> forall n :: 0 <= n < |log| ==> !LeaksAt(log, n)
    decreases |log|
  {
    if log != [] {
      Snoc(log);
      var init, last := log[..|log| - 1], log[|log| - 1];
      RowidsKept(init);
      ExactUnlessLeaked(init);
      OrphanStep(Replayed(init).value, last, After(init));
      forall n | 0 <= n < |init| ensures LeaksAt(log, n) <==> LeaksAt(init, n) {
        assert init[..n] == log[..n];
      }
      assert LeaksAt(log, |log| - 1) <==> Leaks(Replayed(init).value, last);
    }
  }

  // ---- What a search then shows ----

  /** Index rows a search joins to an item that is not of their version. */
  predicate StaleHit(t: Tables, r: nat) {
    r in t.index && t.index[r].item in t.items && t.items[t.index[r].item].head.rowid != r
  }

  /** The event starts an item of which an orphan is left. */
  predicate Revives(t: Tables, e: Event) {
    exists r :: r in Orphans(t) && Starts(e, t.index[r].item)
  }

  predicate Starts(e: Event, i: ItemId) {
    e.payload.ItemStarted? && e.payload.item == i
  }

  /** No event moves an item or a row. */
  ghost predicate Steady(t: Tables, e: Event, t': Tables) {
    && (forall i :: i in t'.items ==>
          if Starts(e, i) then t'.items[i].head.rowid == e.num
          else i in t.items && t'.items[i].head.rowid == t.items[i].head.rowid)
    && (forall r :: r in t'.index && !Alive(t', r) ==> r in t.index && t'.index[r].item == t.index[r].item)
  }

  lemma TextSteady(t: Tables, e: Event)
    requires e.payload.ItemStarted? || e.payload.ItemCompleted?
    ensures Apply(t, e).Ok? ==> Steady(t, e, Apply(t, e).value)
  {
    if e.payload.ItemStarted? { assert Steady(t, e, Started(t, e)); } else { assert Steady(t, e, Finished(t, e)); }
  }

  lemma OtherSteady(t: Tables, e: Event)
    requires !e.payload.ItemStarted? && !e.payload.ItemCompleted? && Apply(t, e).Ok?
    ensures Steady(t, e, Apply(t, e).value)
  {
    var t' := Apply(t, e).value;
    assert forall i :: i in t'.items ==> i in t.items && t'.items[i].head.rowid == t.items[i].head.rowid;
    assert forall r :: r in t'.index ==> r in t.index && t'.index[r] == t.index[r];
  }

  lemma StepSteady(t: Tables, e: Event)
    requires Apply(t, e).Ok?
    ensures Steady(t, e, Apply(t, e).value)
  {
    if e.payload.ItemStarted? || e.payload.ItemCompleted? { TextSteady(t, e); } else { OtherSteady(t, e); }
  }

  /** A start makes stale hits of the orphans of the item it starts, and nothing else makes any. */
  lemma StaleStep(t: Tables, e: Event, next: nat, r: nat)
    requires Kept(t, next) && e.num >= next && Apply(t, e).Ok?
    ensures StaleHit(Apply(t, e).value, r) ==>
      StaleHit(t, r) || (r in Orphans(t) && Starts(e, t.index[r].item))
    ensures r in Orphans(t) && Starts(e, t.index[r].item) ==> StaleHit(Apply(t, e).value, r)
  {
    StepSteady(t, e);
    OrphanStep(t, e, next);
    var t' := Apply(t, e).value;
    assert StaleHit(t', r) ==> r in Orphans(t');
    assert r in Orphans(t) && Starts(e, t.index[r].item) ==> r in Orphans(t') && t.index[r].item in t'.items;
  }

  ghost predicate StaleAt(log: seq<Event>, n: nat)
    requires n <= |log|
  {
    match Replayed(log[..n])
    case Fail => false
    case Ok(t) => exists r :: StaleHit(t, r)
  }

  predicate RevivesAt(log: seq<Event>, n: nat)
    requires n < |log|
  {
    match Replayed(log[..n])
    case Fail => false
    case Ok(t) => Revives(t, log[n])
  }

  lemma StaleNext(t: Tables, e: Event, next: nat)
    requires Kept(t, next) && e.num >= next && Apply(t, e).Ok? && forall r :: !StaleHit(t, r)
    ensures (exists r :: StaleHit(Apply(t, e).value, r)) <==> Revives(t, e)
  {
    forall r ensures StaleHit(Apply(t, e).value, r) <==>
      r in Orphans(t) && Starts(e, t.index[r].item)
    {
      StaleStep(t, e, next, r);
    }
  }

  lemma EarlierAlike(log: seq<Event>)
    requires log != []
    ensures var init := log[..|log| - 1];
      && (forall n :: 0 <= n <= |init| ==> (StaleAt(log, n) <==> StaleAt(init, n)))
      && (forall n :: 0 <= n < |init| ==> (RevivesAt(log, n) <==> RevivesAt(init, n)))
  {
    var init := log[..|log| - 1];
    forall n | 0 <= n <= |init|
      ensures (StaleAt(log, n) <==> StaleAt(init, n)) && (n < |init| ==> (RevivesAt(log, n) <==> RevivesAt(init, n)))
    {
      assert init[..n] == log[..n];
    }
  }

  /** The last event of a log that has shown nothing stale so far. */
  lemma LastStale(log: seq<Event>)
    requires log != [] && Ascending(log) && Replayed(log).Ok? && !StaleAt(log, |log| - 1)
    ensures StaleAt(log, |log|) <==> RevivesAt(log, |log| - 1)
  {
    Snoc(log);
    var init, last := log[..|log| - 1], log[|log| - 1];
    RowidsKept(init);
    assert log[..|log|] == log;
    StaleNext(Replayed(init).value, last, After(init));
  }

  /**
   * At every moment every index row that a search joins is the joined item's only one and stands at its rowid, exactly
   * if no event starts an item of which an orphan is left.
   */
  lemma {:induction false} JoinsExactly(log: seq<Event>)
    requires Ascending(log) && Replayed(log).Ok?
    ensures (forall n :: 0 <= n <= |log| ==> !StaleAt(log, n)) <==> (forall n :: 0 <= n < |log| ==> !RevivesAt(log, n))
    decreases |log|
  {
    if log == [] {
      assert Replayed(log[..0]) == Ok(EMPTY);
    } else {
      Snoc(log);
      JoinsExactly(log[..|log| - 1]);
      EarlierAlike(log);
      if !StaleAt(log, |log| - 1) { LastStale(log); }
    }
  }

  // ---- Where rows come from ----

  predicate MadeAt(log: seq<Event>, r: nat, i: ItemId) {
    exists a :: 0 <= a < |log| && log[a].num == r && Starts(log[a], i)
  }

  predicate RemovalAfter(log: seq<Event>, r: nat) {
    exists b :: 0 <= b < |log| && RemovesProject(log[b]) && log[b].num > r
  }

  /** Rows and items are numbered by the event that started the item; an orphan has seen a project go. */
  ghost predicate Traced(log: seq<Event>, t: Tables) {
    && (forall i :: i in t.items ==> MadeAt(log, t.items[i].head.rowid, i))
    && (forall r :: r in t.index ==> MadeAt(log, r, t.index[r].item))
    && (forall r :: r in Orphans(t) ==> RemovalAfter(log, r))
  }

  lemma TraceGrows(log: seq<Event>, e: Event, r: nat, i: ItemId)
    ensures MadeAt(log, r, i) ==> MadeAt(log + [e], r, i)
    ensures RemovalAfter(log, r) ==> RemovalAfter(log + [e], r)
    ensures Starts(e, i) && e.num == r ==> MadeAt(log + [e], r, i)
    ensures RemovesProject(e) && e.num > r ==> RemovalAfter(log + [e], r)
  {
    var longer := log + [e];
    assert longer[|log|] == e;
    if MadeAt(log, r, i) {
      var a :| 0 <= a < |log| && log[a].num == r && Starts(log[a], i);
      assert longer[a] == log[a];
    }
    if RemovalAfter(log, r) {
      var b :| 0 <= b < |log| && RemovesProject(log[b]) && log[b].num > r;
      assert longer[b] == log[b];
    }
  }

  lemma TraceStep(log: seq<Event>, t: Tables, e: Event, next: nat)
    requires Traced(log, t) && Kept(t, next) && e.num >= next && Apply(t, e).Ok?
    ensures Traced(log + [e], Apply(t, e).value)
  {
    var t' := Apply(t, e).value;
    StepSteady(t, e);
    OrphanStep(t, e, next);
    forall i | i in t'.items ensures MadeAt(log + [e], t'.items[i].head.rowid, i) {
      TraceGrows(log, e, t'.items[i].head.rowid, i);
    }
    forall r | r in t'.index ensures MadeAt(log + [e], r, t'.index[r].item) {
      TraceGrows(log, e, r, t'.index[r].item);
    }
    forall r | r in Orphans(t') ensures RemovalAfter(log + [e], r) {
      TraceGrows(log, e, r, t'.index[r].item);
    }
  }

  lemma {:induction false} RowsTraced(log: seq<Event>)
    requires Ascending(log) && Replayed(log).Ok?
    ensures Traced(log, Replayed(log).value)
    decreases |log|
  {
    if log != [] {
      Snoc(log);
      var init, last := log[..|log| - 1], log[|log| - 1];
      RowidsKept(init);
      RowsTraced(init);
      assert log == init + [last];
      TraceStep(init, Replayed(init).value, last, After(init));
    }
  }

  /** An item started, a project removed, and the item started again: ids drawn at random do not do that. */
  predicate ReusedAt(log: seq<Event>, a: nat, b: nat, c: nat)
    requires a < b < c < |log|
  {
    && log[a].payload.ItemStarted? && RemovesProject(log[b])
    && log[c].payload.ItemStarted? && log[c].payload.item == log[a].payload.item
  }

  ghost predicate NoneReused(log: seq<Event>) {
    forall a, b, c :: 0 <= a < b < c < |log| ==> !ReusedAt(log, a, b, c)
  }

  /** An orphan's item was started under its number, and a project removed since. */
  lemma OrphanHistory(log: seq<Event>, t: Tables, r: nat) returns (a: nat, b: nat)
    requires Ascending(log) && Traced(log, t) && r in Orphans(t)
    ensures a < b < |log| && Starts(log[a], t.index[r].item) && RemovesProject(log[b])
  {
    a :| a < |log| && log[a].num == r && Starts(log[a], t.index[r].item);
    b :| b < |log| && RemovesProject(log[b]) && log[b].num > r;
  }

  lemma NoneRevives(log: seq<Event>, n: nat)
    requires Ascending(log) && NoneReused(log) && n < |log|
    ensures !RevivesAt(log, n)
  {
    if RevivesAt(log, n) {
      var t := Replayed(log[..n]).value;
      RowsTraced(log[..n]);
      var r :| r in Orphans(t) && t.index[r].item == log[n].payload.item;
      var a, b := OrphanHistory(log[..n], t, r);
      assert ReusedAt(log, a, b, n);
    }
  }

  /**
   * What the index shows of item `i`: its present text at its own rowid if it is a prompt or reply with one, else
   * nothing.
   */
  ghost predicate FoundAs(t: Tables, i: ItemId)
    requires i in t.items
  {
    forall r :: r in t.index && t.index[r].item == i <==>
      && r == t.items[i].head.rowid && Searchable(t.items[i].head.kind) && t.items[i].body != ""
      && r in t.index && t.index[r] == IndexRow(i, t.items[i].head.thread, t.items[i].body)
  }

  /**
   * Where no id is started again after a removal, what a removed project left joins nothing, and a settled item is
   * found under its present text and under no other.
   */
  lemma FoundExactly(log: seq<Event>)
    requires Ascending(log) && Replayed(log).Ok? && NoneReused(log)
    ensures var t := Replayed(log).value;
      && (forall r :: r in t.index ==> (t.index[r].item in t.items <==> r !in Orphans(t)))
      && (forall i :: i in t.items && Settled(log, i) ==> FoundAs(t, i))
  {
    var t := Replayed(log).value;
    forall n | 0 <= n < |log| ensures !RevivesAt(log, n) { NoneRevives(log, n); }
    JoinsExactly(log);
    assert log[..|log|] == log && !StaleAt(log, |log|);
    forall r | r in t.index ensures t.index[r].item in t.items <==> r !in Orphans(t) { assert !StaleHit(t, r); }
    forall i | i in t.items && Settled(log, i) ensures FoundAs(t, i) {
      SettledIsCurrent(log, i);
      forall r | r in t.index && t.index[r].item == i ensures r == t.items[i].head.rowid { assert !StaleHit(t, r); }
    }
  }

  // ---- A leak ----

  function Made(n: nat, p: Id, thread: Id, i: ItemId, body: string): seq<Event> {
    [Event(n, "", 0, Catalog(ProjectAdded(p, "/p", "p"))),
     Event(n + 1, "", 0, Catalog(ThreadCreated(thread, p, "t", "a", "m"))),
     Event(n + 2, thread, 0, ItemStarted(i, false, User, "", Done, body, ""))]
  }

  /** Making a project, a thread and a prompt in tables that hold none of them. */
  lemma MadeRun(t: Tables, n: nat, p: Id, thread: Id, i: ItemId, body: string)
    requires t.ledger.projects == map[] && t.ledger.threads == map[] && t.items == map[] && body != ""
    ensures var r := Run(t, Made(n, p, thread, i, body));
      && r.Ok? && r.value.ledger.threads.Keys == {thread} && r.value.ledger.threads[thread].project == p
      && r.value.ledger.projects.Keys == {p} && r.value.items.Keys == {i}
      && r.value.items[i].body == body && r.value.items[i].head.rowid == n + 2 && r.value.items[i].head.thread == thread
      && r.value.index == t.index[n + 2 := IndexRow(i, thread, body)]
  {
    var m := Made(n, p, thread, i, body);
    RunThrough3(t, m[0], m[1], m[2]);
    var t1 := Apply(t, m[0]).value;
    assert t1.ledger.projects.Keys == {p} && t1.items == map[] && t1.index == t.index;
    var t2 := Apply(t1, m[1]).value;
    assert t2.ledger.threads.Keys == {thread};
    PromptMade(t2, m[2]);
  }

  lemma RunThrough3(t: Tables, a: Event, b: Event, c: Event)
    requires Apply(t, a).Ok? && Apply(Apply(t, a).value, b).Ok?
    ensures Run(t, [a, b, c]) == Apply(Apply(Apply(t, a).value, b).value, c)
  {
    var t1 := Apply(t, a).value;
    assert [a, b, c][1..] == [b, c] && [b, c][1..] == [c] && [c][1..] == [];
    assert Run(t1, [b, c]) == Run(Apply(t1, b).value, [c]);
  }

  lemma PromptMade(t: Tables, e: Event)
    requires e.payload.ItemStarted? && e.payload.kind == User && e.payload.body != "" && t.items == map[]
    requires t.ledger.threads.Keys == {e.thread}
    ensures var r := Apply(t, e);
      && r.Ok? && r.value.items.Keys == {e.payload.item} && r.value.ledger.projects == t.ledger.projects
      && r.value.ledger.threads.Keys == {e.thread}
      && r.value.ledger.threads[e.thread].project == t.ledger.threads[e.thread].project
      && r.value.items[e.payload.item].body == e.payload.body && r.value.items[e.payload.item].head.rowid == e.num
      && r.value.items[e.payload.item].head.thread == e.thread
      && r.value.index == t.index[e.num := IndexRow(e.payload.item, e.thread, e.payload.body)]
  {
    assert Apply(t, e) == Ok(Started(t, e));
  }

  lemma GoneRun(t: Tables, n: nat, p: Id, thread: Id)
    requires t.ledger.threads.Keys == {thread} && t.ledger.threads[thread].project == p && t.ledger.projects.Keys == {p}
    requires forall i :: i in t.items ==> t.items[i].head.thread == thread
    ensures var r := Run(t, [Event(n, "", 0, Catalog(ProjectRemoved(p)))]);
      r.Ok? && r.value.ledger.projects == map[] && r.value.ledger.threads == map[] && r.value.items == map[]
        && r.value.index == t.index
  {
    var e := Event(n, "", 0, Catalog(ProjectRemoved(p)));
    assert [e][1..] == [];
    assert ThreadsOf(t.ledger, p) == {thread};
  }

  function Leaking(p: Id, thread: Id, i: ItemId, body: string): seq<Event> {
    Made(1, p, thread, i, body) + [Event(4, "", 0, Catalog(ProjectRemoved(p)))]
  }

  /** Ids are used once in it. */
  lemma LeakingReusesNone(p: Id, thread: Id, i: ItemId, body: string)
    ensures Ascending(Leaking(p, thread, i, body)) && NoneReused(Leaking(p, thread, i, body))
  {
    var log := Leaking(p, thread, i, body);
    assert forall k :: 0 <= k < |log| ==> log[k].num == k + 1 && (RemovesProject(log[k]) ==> k == 3);
  }

  /** Any project with any prompt: removing it leaves the prompt's row in the index, of nothing and joining nothing. */
  lemma RemovedProjectLeaks(p: Id, thread: Id, i: ItemId, body: string)
    requires body != ""
    ensures Replayed(Leaking(p, thread, i, body)).Ok?
    ensures var t := Replayed(Leaking(p, thread, i, body)).value;
            t.items == map[] && t.index == map[3 := IndexRow(i, thread, body)] && Orphans(t) == {3}
    ensures Ascending(Leaking(p, thread, i, body)) && NoneReused(Leaking(p, thread, i, body))
  {
    LeakingReusesNone(p, thread, i, body);
    var made := Made(1, p, thread, i, body);
    MadeRun(EMPTY, 1, p, thread, i, body);
    GoneRun(Run(EMPTY, made).value, 4, p, thread);
    RunConcat(EMPTY, made, [Event(4, "", 0, Catalog(ProjectRemoved(p)))]);
  }
}
