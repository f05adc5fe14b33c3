/** How exact the condition is: which events may stand between the deltas of a group that is folded. */
module Exactness {
  import opened Domain
  import opened Projection
  import opened Folding
  import opened Meaning

  function Text(row: Item, col: Column): string {
    if col == Body then row.body else row.output
  }

  function Look(index: map<nat, IndexRow>, rowid: nat): Option<IndexRow> {
    if rowid in index then Some(index[rowid]) else None
  }

  /** The events that reset, or publish, column `col` of an item of kind `kind`. */
  predicate Resets(e: Event, id: ItemId, col: Column, kind: Kind) {
    match e.payload
    case ItemStarted(i, _, _, _, _, _, _) => i == id
    case ItemCompleted(i, _, body, _) => i == id && col == Body && (body != "" || Searchable(kind))
    case _ => false
  }

  predicate Feeds(e: Event, id: ItemId, col: Column) {
    e.payload.ItemDelta? && e.payload.item == id && ColumnOf(e.payload.field) == col
  }

  /** Items have rowids of their own, all below `next`. */
  ghost predicate Numbered(t: Tables, next: nat) {
    && (forall i :: i in t.items ==> t.items[i].head.rowid < next)
    && (forall i, j :: i in t.items && j in t.items && t.items[i].head.rowid == t.items[j].head.rowid ==> i == j)
  }

  /** The fold picks what feeds the column of group `k`, and that is the group's. */
  predicate OneGroup(e: Event, s: Selection, k: Key) {
    && (Picks(s, e) <==> Feeds(e, k.item, ColumnOf(k.field)))
    && (Picks(s, e) ==> KeyOf(e) == k)
  }

  /** The middle of group `k`: rows numbered from `next` on, of which only the group's feed its column. */
  ghost predicate Middle(log: seq<Event>, next: nat, s: Selection, k: Key) {
    && Ascending(log)
    && (forall e :: e in log ==> e.num >= next && OneGroup(e, s, k))
  }

  /** One item: the folded side is ahead by `text`. */
  ghost predicate Leads(o: Item, c: Item, col: Column, text: string) {
    c.head == o.head && Text(c, col) == Text(o, col) + text && Text(c, Across(col)) == Text(o, Across(col))
  }

  ghost predicate Alone(o: Tables, c: Tables, id: ItemId) {
    && c.ledger == o.ledger && c.items.Keys == o.items.Keys
    && (forall i :: i in o.items ==> c.items[i].head == o.items[i].head)
  }

  /** Only item `id` differs: the folded side already has the text still to come. */
  ghost predicate Ahead(o: Tables, c: Tables, id: ItemId, col: Column, text: string) {
    && Alone(o, c, id) && c.index == o.index
    && (forall i :: i in o.items ==> AheadAt(o.items[i], c.items[i], i == id, col, text))
  }

  ghost predicate AheadAt(o: Item, c: Item, leads: bool, col: Column, text: string) {
    if leads then Leads(o, c, col, text) else c.head == o.head && c.body == o.body && c.output == o.output
  }

  lemma CompletedAhead(o: Item, c: Item, leads: bool, col: Column, text: string, p: Payload, at: int)
    requires AheadAt(o, c, leads, col, text) && p.ItemCompleted? && (leads && col == Body ==> p.body == "")
    ensures AheadAt(Completed(o, p, at), Completed(c, p, at), leads, col, text)
  {
  }

  /** The folded side has lost the text, or the index has published it too soon. */
  ghost predicate Apart(o: Tables, c: Tables, id: ItemId, col: Column, text: string) {
    && Alone(o, c, id)
    && (id in o.items ==> Lost(o.items[id], c.items[id], col) || Early(o, c, id, col, text))
  }

  ghost predicate Lost(o: Item, c: Item, col: Column) {
    |Text(c, col)| <= |Text(o, col)|
  }

  ghost predicate Early(o: Tables, c: Tables, id: ItemId, col: Column, text: string)
    requires id in o.items && id in c.items
  {
    && col == Body && Searchable(o.items[id].head.kind)
    && c.items[id].body == o.items[id].body + text
    && Look(o.index, o.items[id].head.rowid) != Look(c.index, o.items[id].head.rowid)
  }

  lemma AloneApply(o: Tables, c: Tables, id: ItemId, e: Event)
    requires Alone(o, c, id) && !TextEvent(e)
    ensures match (Apply(o, e), Apply(c, e))
            case (Fail, Fail) => true
            case (Ok(o'), Ok(c')) => Alone(o', c', id) && forall i :: i in o'.items ==>
              i in o.items && o'.items[i] == o.items[i] && c'.items[i] == c.items[i]
            case _ => false
  {
    if e.payload.ThreadRewound? || e.payload.ThreadDeleted? {
      AloneCut(o, c, id, e);
    } else if e.payload.Catalog? && e.payload.catalog.ProjectRemoved? {
      assert Apply(o, e) == Ok(RemoveProject(o, e.payload.catalog.project));
    } else {
      assert Aside(e.payload);
    }
  }

  lemma AloneCut(o: Tables, c: Tables, id: ItemId, e: Event)
    requires Alone(o, c, id) && (e.payload.ThreadRewound? || e.payload.ThreadDeleted?)
    ensures Apply(o, e).Ok? && Apply(c, e).Ok? && Alone(Apply(o, e).value, Apply(c, e).value, id)
    ensures forall i :: i in Apply(o, e).value.items ==>
      i in o.items && Apply(o, e).value.items[i] == o.items[i] && Apply(c, e).value.items[i] == c.items[i]
  {
  }

  /** Rows of surviving items stay in the index when other items go. */
  lemma IndexKept(t: Tables, next: nat, e: Event, i: ItemId)
    requires Numbered(t, next) && !TextEvent(e) && Apply(t, e).Ok? && i in Apply(t, e).value.items
    ensures i in t.items && Look(Apply(t, e).value.index, t.items[i].head.rowid) == Look(t.index, t.items[i].head.rowid)
  {
  }

  lemma NumberedStep(t: Tables, next: nat, e: Event)
    requires Numbered(t, next) && e.num >= next && Apply(t, e).Ok?
    ensures Numbered(Apply(t, e).value, e.num + 1)
  {
    match e.payload
    case ItemStarted(_, _, _, _, _, _, _) => NumberedStart(t, next, e);
    case ItemDelta(_, _, _) => NumberedText(t, next, e);
    case ItemCompleted(_, _, _, _) => NumberedText(t, next, e);
    case _ => ItemsOnlyGo(t, e);
  }

  lemma NumberedStart(t: Tables, next: nat, e: Event)
    requires Numbered(t, next) && e.num >= next && e.payload.ItemStarted?
    ensures Numbered(Started(t, e), e.num + 1)
  {
  }

  lemma NumberedText(t: Tables, next: nat, e: Event)
    requires Numbered(t, next) && e.num >= next && (e.payload.ItemDelta? || e.payload.ItemCompleted?)
    ensures Numbered(Apply(t, e).value, e.num + 1)
  {
    var u := Apply(t, e).value;
    assert forall i :: i in u.items ==> i in t.items && u.items[i].head.rowid == t.items[i].head.rowid;
  }

  lemma ItemsOnlyGo(t: Tables, e: Event)
    requires !TextEvent(e) && Apply(t, e).Ok?
    ensures forall i :: i in Apply(t, e).value.items ==> i in t.items && Apply(t, e).value.items[i] == t.items[i]
  {
  }

  lemma NeutralAhead(o: Tables, c: Tables, id: ItemId, col: Column, text: string, e: Event)
    requires Ahead(o, c, id, col, text) && !TextEvent(e)
    ensures match (Apply(o, e), Apply(c, e))
            case (Fail, Fail) => true
            case (Ok(o'), Ok(c')) => Ahead(o', c', id, col, text)
            case _ => false
  {
    NeutralApply(o, c, e);
  }

  lemma StartedAhead(o: Tables, c: Tables, id: ItemId, col: Column, text: string, e: Event)
    requires Ahead(o, c, id, col, text) && e.payload.ItemStarted? && e.payload.item != id
    ensures Ahead(Started(o, e), Started(c, e), id, col, text)
  {
    var o', c' := Started(o, e), Started(c, e);
    assert c'.index == o'.index;
    forall i | i in o'.items ensures AheadAt(o'.items[i], c'.items[i], i == id, col, text) {
      assert i != e.payload.item ==> AheadAt(o.items[i], c.items[i], i == id, col, text);
    }
  }

  lemma ExtendedAhead(o: Tables, c: Tables, id: ItemId, col: Column, text: string, e: Event)
    requires Ahead(o, c, id, col, text) && e.payload.ItemDelta? && !Feeds(e, id, col)
    ensures Ahead(Extended(o, e), Extended(c, e), id, col, text)
  {
  }

  lemma FinishedAhead(o: Tables, c: Tables, id: ItemId, col: Column, text: string, e: Event)
    requires Ahead(o, c, id, col, text) && e.payload.ItemCompleted?
    requires id in o.items ==> !Resets(e, id, col, o.items[id].head.kind)
    ensures Ahead(Finished(o, e), Finished(c, e), id, col, text)
  {
    FinishedIndexes(o, c, id, col, text, e);
    var o', c' := Finished(o, e), Finished(c, e);
    forall i | i in o'.items ensures AheadAt(o'.items[i], c'.items[i], i == id, col, text) {
      assert AheadAt(o.items[i], c.items[i], i == id, col, text);
      if i == e.payload.item { CompletedAhead(o.items[i], c.items[i], i == id, col, text, e.payload, e.at); }
    }
  }

  lemma FinishedIndexes(o: Tables, c: Tables, id: ItemId, col: Column, text: string, e: Event)
    requires Ahead(o, c, id, col, text) && e.payload.ItemCompleted?
    requires id in o.items ==> !Resets(e, id, col, o.items[id].head.kind)
    ensures Finished(c, e).index == Finished(o, e).index
  {
  }

  lemma TextAhead(o: Tables, c: Tables, id: ItemId, col: Column, text: string, e: Event)
    requires Ahead(o, c, id, col, text) && TextEvent(e) && !Feeds(e, id, col)
    requires id in o.items ==> !Resets(e, id, col, o.items[id].head.kind)
    requires e.payload.ItemStarted? ==> e.payload.item != id
    ensures match (Apply(o, e), Apply(c, e))
            case (Fail, Fail) => true
            case (Ok(o'), Ok(c')) => Ahead(o', c', id, col, text)
            case _ => false
  {
    match e.payload
    case ItemStarted(_, _, _, _, _, _, _) => StartedAhead(o, c, id, col, text, e);
    case ItemDelta(_, _, _) => ExtendedAhead(o, c, id, col, text, e);
    case ItemCompleted(_, _, _, _) => FinishedAhead(o, c, id, col, text, e);
  }

  lemma NeutralApart(o: Tables, c: Tables, id: ItemId, col: Column, text: string, next: nat, e: Event)
    requires Apart(o, c, id, col, text) && Numbered(o, next) && !TextEvent(e)
    ensures match (Apply(o, e), Apply(c, e))
            case (Fail, Fail) => true
            case (Ok(o'), Ok(c')) => Apart(o', c', id, col, text)
            case _ => false
  {
    AloneApply(o, c, id, e);
    if Apply(o, e).Ok? && id in Apply(o, e).value.items {
      IndexKept(o, next, e, id);
      assert Numbered(c, next);
      IndexKept(c, next, e, id);
    }
  }

  /** The completion of an item both sides index differently, or that both have lost. */
  lemma CompletedApart(o: Tables, c: Tables, id: ItemId, col: Column, text: string, e: Event)
    requires Alone(o, c, id) && e.payload.ItemCompleted? && e.payload.item == id && id in o.items && text != ""
    requires Lost(o.items[id], c.items[id], col) || (col == Body && c.items[id].body == o.items[id].body + text)
    requires col == Body && c.items[id].body == o.items[id].body + text && !Lost(o.items[id], c.items[id], col)
      ==> Resets(e, id, col, o.items[id].head.kind) || Early(o, c, id, col, text)
    ensures Apart(Finished(o, e), Finished(c, e), id, col, text)
  {
  }

  lemma StartedApart(o: Tables, c: Tables, id: ItemId, col: Column, text: string, next: nat, e: Event)
    requires Apart(o, c, id, col, text) && Numbered(o, next) && e.num >= next && e.payload.ItemStarted?
    ensures Apart(Started(o, e), Started(c, e), id, col, text)
  {
    if e.payload.item == id {
      assert Lost(Started(o, e).items[id], Started(c, e).items[id], col);
    } else {
      StartedElsewhere(o, c, id, col, text, next, e);
    }
  }

  lemma StartedElsewhere(o: Tables, c: Tables, id: ItemId, col: Column, text: string, next: nat, e: Event)
    requires Apart(o, c, id, col, text) && Numbered(o, next) && e.num >= next && e.payload.ItemStarted?
      && e.payload.item != id
    ensures Apart(Started(o, e), Started(c, e), id, col, text)
  {
    if id in o.items {
      assert Numbered(c, next);
      LookStays(o, next, e, id);
      LookStays(c, next, e, id);
    }
  }

  /** A start of another item leaves this one and its index row alone. */
  lemma LookStays(t: Tables, next: nat, e: Event, id: ItemId)
    requires Numbered(t, next) && e.num >= next && e.payload.ItemStarted? && e.payload.item != id && id in t.items
    ensures Started(t, e).items[id] == t.items[id]
    ensures Look(Started(t, e).index, t.items[id].head.rowid) == Look(t.index, t.items[id].head.rowid)
  {
  }

  lemma ExtendedApart(o: Tables, c: Tables, id: ItemId, col: Column, text: string, e: Event)
    requires Apart(o, c, id, col, text) && e.payload.ItemDelta? && !Feeds(e, id, col)
    ensures Apart(Extended(o, e), Extended(c, e), id, col, text)
  {
  }

  lemma FinishedApart(o: Tables, c: Tables, id: ItemId, col: Column, text: string, next: nat, e: Event)
    requires Apart(o, c, id, col, text) && Numbered(o, next) && e.payload.ItemCompleted? && text != ""
    ensures Apart(Finished(o, e), Finished(c, e), id, col, text)
  {
    if e.payload.item == id && id in o.items {
      CompletedApart(o, c, id, col, text, e);
    } else {
      FinishedElsewhere(o, c, id, col, text, next, e);
    }
  }

  lemma FinishedElsewhere(o: Tables, c: Tables, id: ItemId, col: Column, text: string, next: nat, e: Event)
    requires Apart(o, c, id, col, text) && Numbered(o, next) && e.payload.ItemCompleted?
      && !(e.payload.item == id && id in o.items)
    ensures Apart(Finished(o, e), Finished(c, e), id, col, text)
  {
  }

  lemma TextApart(o: Tables, c: Tables, id: ItemId, col: Column, text: string, next: nat, e: Event)
    requires Apart(o, c, id, col, text) && Numbered(o, next) && e.num >= next && TextEvent(e) && !Feeds(e, id, col)
      && text != ""
    ensures match (Apply(o, e), Apply(c, e))
            case (Fail, Fail) => true
            case (Ok(o'), Ok(c')) => Apart(o', c', id, col, text)
            case _ => false
  {
    match e.payload
    case ItemStarted(_, _, _, _, _, _, _) => StartedApart(o, c, id, col, text, next, e);
    case ItemDelta(_, _, _) => ExtendedApart(o, c, id, col, text, e);
    case ItemCompleted(_, _, _, _) => FinishedApart(o, c, id, col, text, next, e);
  }

  lemma ResetApart(o: Tables, c: Tables, id: ItemId, col: Column, text: string, e: Event, kind: Kind)
    requires Ahead(o, c, id, col, text) && Resets(e, id, col, kind) && text != ""
    requires id in o.items ==> o.items[id].head.kind == kind
    ensures match (Apply(o, e), Apply(c, e))
            case (Fail, Fail) => true
            case (Ok(o'), Ok(c')) => Apart(o', c', id, col, text)
            case _ => false
  {
    if e.payload.ItemCompleted? && id in o.items {
      CompletedApart(o, c, id, col, text, e);
    }
  }

  /** A later row of the group: the plain side catches up by its text, and the folded log has it no more. */
  lemma LaterAhead(o: Tables, c: Tables, id: ItemId, col: Column, e: Event, text: string)
    requires Feeds(e, id, col) && Ahead(o, c, id, col, e.payload.text + text)
    ensures Ahead(Extended(o, e), c, id, col, text)
  {
    if id in o.items {
      var had := Text(o.items[id], col);
      assert had + (e.payload.text + text) == (had + e.payload.text) + text;
    }
  }

  lemma LaterApart(o: Tables, c: Tables, id: ItemId, col: Column, e: Event, text: string)
    requires Feeds(e, id, col) && Apart(o, c, id, col, e.payload.text + text)
    ensures Apart(Extended(o, e), c, id, col, text)
  {
    if id in o.items {
      var had := Text(o.items[id], col);
      assert had + (e.payload.text + text) == (had + e.payload.text) + text;
    }
  }

  lemma Unpicked(c: Tables, log: seq<Event>, s: Selection, k: Key)
    requires log != [] && !Picks(s, log[0])
    ensures Run(c, FoldFrom(log, s, {k})) ==
            match Apply(c, log[0]) case Fail => Fail case Ok(c') => Run(c', FoldFrom(log[1..], s, {k}))
    ensures TextOf(log, s, k) == TextOf(log[1..], s, k)
  {
    var rest := FoldFrom(log[1..], s, {k});
    assert ([log[0]] + rest)[1..] == rest;
  }

  lemma PickedText(log: seq<Event>, s: Selection, k: Key, tail: string)
    requires log != [] && InGroup(s, k, log[0])
    ensures TextOf(log, s, k) + tail == log[0].payload.text + (TextOf(log[1..], s, k) + tail)
    ensures FoldFrom(log, s, {k}) == FoldFrom(log[1..], s, {k})
  {
  }

  lemma {:induction false} StaysApart(o: Tables, c: Tables, log: seq<Event>, next: nat, s: Selection, k: Key,
                                      tail: string)
    requires Apart(o, c, k.item, ColumnOf(k.field), TextOf(log, s, k) + tail) && Numbered(o, next)
    requires Middle(log, next, s, k) && tail != ""
    ensures match (Run(o, log), Run(c, FoldFrom(log, s, {k})))
            case (Fail, Fail) => true
            case (Ok(o'), Ok(c')) => Apart(o', c', k.item, ColumnOf(k.field), tail)
            case _ => false
    decreases |log|
  {
    var id, col := k.item, ColumnOf(k.field);
    if log == [] {
      assert "" + tail == tail;
    } else {
      var e, rest := log[0], log[1..];
      var text := TextOf(rest, s, k) + tail;
      assert e in log;
      MiddleTail(log, next, s, k);
      if Apply(o, e).Ok? { NumberedStep(o, next, e); }
      if Picks(s, e) {
        PickedText(log, s, k, tail);
        LaterApart(o, c, id, col, e, text);
        StaysApart(Extended(o, e), c, rest, e.num + 1, s, k, tail);
      } else {
        Unpicked(c, log, s, k);
        if TextEvent(e) { TextApart(o, c, id, col, text, next, e); }
          else { NeutralApart(o, c, id, col, text, next, e); }
        if Apply(o, e).Ok? { StaysApart(Apply(o, e).value, Apply(c, e).value, rest, e.num + 1, s, k, tail); }
      }
    }
  }

  lemma MiddleTail(log: seq<Event>, next: nat, s: Selection, k: Key)
    requires Middle(log, next, s, k) && log != []
    ensures Middle(log[1..], log[0].num + 1, s, k)
  {
    forall e | e in log[1..] ensures e.num >= log[0].num + 1 && OneGroup(e, s, k) {
      var j :| 0 <= j < |log[1..]| && log[1..][j] == e;
      assert log[j + 1] == e && log[0].num < log[j + 1].num;
    }
  }

  lemma KindKept(t: Tables, e: Event, id: ItemId)
    requires Apply(t, e).Ok? && !(e.payload.ItemStarted? && e.payload.item == id) && id in Apply(t, e).value.items
    ensures id in t.items && Apply(t, e).value.items[id].head.kind == t.items[id].head.kind
  {
  }

  lemma StaysAhead(o: Tables, c: Tables, id: ItemId, col: Column, text: string, kind: Kind, e: Event)
    requires Ahead(o, c, id, col, text) && !Feeds(e, id, col) && !Resets(e, id, col, kind)
    requires id in o.items ==> o.items[id].head.kind == kind
    ensures match (Apply(o, e), Apply(c, e))
            case (Fail, Fail) => true
            case (Ok(o'), Ok(c')) => Ahead(o', c', id, col, text) && (id in o'.items ==> o'.items[id].head.kind == kind)
            case _ => false
  {
    if TextEvent(e) { TextAhead(o, c, id, col, text, e); } else { NeutralAhead(o, c, id, col, text, e); }
    if Apply(o, e).Ok? && id in Apply(o, e).value.items { KindKept(o, e, id); }
  }

  /** Ahead until the first reset, apart from then on. */
  lemma {:induction false} Outcome(o: Tables, c: Tables, log: seq<Event>, next: nat, s: Selection, k: Key,
                                   tail: string, kind: Kind)
    requires Ahead(o, c, k.item, ColumnOf(k.field), TextOf(log, s, k) + tail) && Numbered(o, next)
    requires Middle(log, next, s, k) && tail != ""
    requires k.item in o.items ==> o.items[k.item].head.kind == kind
    ensures match (Run(o, log), Run(c, FoldFrom(log, s, {k})))
            case (Fail, Fail) => true
            case (Ok(o'), Ok(c')) =>
              if exists e :: e in log && Resets(e, k.item, ColumnOf(k.field), kind)
              then Apart(o', c', k.item, ColumnOf(k.field), tail) else Ahead(o', c', k.item, ColumnOf(k.field), tail)
            case _ => false
    decreases |log|
  {
    if log == [] {
      assert "" + tail == tail;
    } else if Resets(log[0], k.item, ColumnOf(k.field), kind) {
      ResetFirst(o, c, log, next, s, k, tail, kind);
    } else {
      var c' := AheadStep(o, c, log, next, s, k, tail, kind);
      ResetsLater(log, k.item, ColumnOf(k.field), kind);
      if Apply(o, log[0]).Ok? {
        Outcome(Apply(o, log[0]).value, c', log[1..], log[0].num + 1, s, k, tail, kind);
      }
    }
  }

  /** An event that resets nothing, on both sides; `c'` is where the folded side stands after it. */
  lemma AheadStep(o: Tables, c: Tables, log: seq<Event>, next: nat, s: Selection, k: Key, tail: string, kind: Kind)
    returns (c': Tables)
    requires Ahead(o, c, k.item, ColumnOf(k.field), TextOf(log, s, k) + tail) && Numbered(o, next)
    requires Middle(log, next, s, k) && log != [] && !Resets(log[0], k.item, ColumnOf(k.field), kind)
    requires k.item in o.items ==> o.items[k.item].head.kind == kind
    ensures match Apply(o, log[0])
            case Fail => Run(c, FoldFrom(log, s, {k})).Fail?
            case Ok(o') =>
              && Ahead(o', c', k.item, ColumnOf(k.field), TextOf(log[1..], s, k) + tail)
              && Numbered(o', log[0].num + 1) && Middle(log[1..], log[0].num + 1, s, k)
              && (k.item in o'.items ==> o'.items[k.item].head.kind == kind)
              && Run(c, FoldFrom(log, s, {k})) == Run(c', FoldFrom(log[1..], s, {k}))
  {
    var e, text := log[0], TextOf(log[1..], s, k) + tail;
    c' := c;
    assert e in log;
    MiddleTail(log, next, s, k);
    if Apply(o, e).Ok? { NumberedStep(o, next, e); }
    if Picks(s, e) {
      PickedText(log, s, k, tail);
      LaterAhead(o, c, k.item, ColumnOf(k.field), e, text);
    } else {
      Unpicked(c, log, s, k);
      StaysAhead(o, c, k.item, ColumnOf(k.field), text, kind, e);
      if Apply(c, e).Ok? { c' := Apply(c, e).value; }
    }
  }

  lemma ResetFirst(o: Tables, c: Tables, log: seq<Event>, next: nat, s: Selection, k: Key, tail: string, kind: Kind)
    requires Ahead(o, c, k.item, ColumnOf(k.field), TextOf(log, s, k) + tail) && Numbered(o, next)
    requires Middle(log, next, s, k) && tail != "" && log != [] && Resets(log[0], k.item, ColumnOf(k.field), kind)
    requires k.item in o.items ==> o.items[k.item].head.kind == kind
    ensures match (Run(o, log), Run(c, FoldFrom(log, s, {k})))
            case (Fail, Fail) => true
            case (Ok(o'), Ok(c')) => Apart(o', c', k.item, ColumnOf(k.field), tail)
            case _ => false
  {
    var e, text := log[0], TextOf(log, s, k) + tail;
    assert e in log;
    MiddleTail(log, next, s, k);
    Unpicked(c, log, s, k);
    ResetApart(o, c, k.item, ColumnOf(k.field), text, e, kind);
    if Apply(o, e).Ok? {
      NumberedStep(o, next, e);
      StaysApart(Apply(o, e).value, Apply(c, e).value, log[1..], e.num + 1, s, k, tail);
    }
  }

  lemma ResetsLater(log: seq<Event>, id: ItemId, col: Column, kind: Kind)
    requires log != [] && !Resets(log[0], id, col, kind)
    ensures (exists e :: e in log && Resets(e, id, col, kind)) <==>
      (exists e :: e in log[1..] && Resets(e, id, col, kind))
  {
    forall e | e in log && Resets(e, id, col, kind) ensures e in log[1..] { assert e != log[0]; }
    forall e | e in log[1..] ensures e in log {}
  }

  lemma ApartEnds(o: Tables, c: Tables, last: Event, id: ItemId, col: Column)
    requires last.payload.ItemDelta? && Feeds(last, id, col) && last.payload.text != "" && id in o.items
    requires Apart(o, c, id, col, last.payload.text)
    ensures !Same(Extended(o, last), c)
  {
    if Lost(o.items[id], c.items[id], col) {
      assert |Text(Extended(o, last).items[id], col)| == |Text(o.items[id], col)| + |last.payload.text|;
    }
  }

  lemma AheadEnds(o: Tables, c: Tables, last: Event, id: ItemId, col: Column)
    requires last.payload.ItemDelta? && Feeds(last, id, col) && id in o.items
    requires Ahead(o, c, id, col, last.payload.text)
    ensures Same(Extended(o, last), c)
  {
  }

  /**
   * A stretch of the log from one delta of a group to another, with any number of the group's deltas and of other
   * events between them, the item still there at its end: folding the group keeps the meaning exactly when nothing
   * between the two starts the item or completes it in a way that sets or publishes the column.
   */
  lemma FoldGroupExactly(t: Tables, next: nat, first: Event, middle: seq<Event>, last: Event, s: Selection)
    requires Picks(s, first) && Picks(s, last) && KeyOf(first) == KeyOf(last) && last.payload.text != ""
    requires Numbered(t, next) && Middle(middle, next, s, KeyOf(first))
    requires first.payload.item in t.items
    requires Run(t, [first] + middle + [last]).Ok?
    requires first.payload.item in Run(t, [first] + middle + [last]).value.items
    ensures Agree(Run(t, [first] + middle + [last]), Run(t, Fold([first] + middle + [last], s)))
       <==> forall e :: e in middle ==>
              !Resets(e, first.payload.item, ColumnOf(first.payload.field), t.items[first.payload.item].head.kind)
  {
    var k, text := KeyOf(first), TextOf(middle, s, KeyOf(first)) + last.payload.text;
    var o, c := Extended(t, first), Extended(t, WithText(first, first.payload.text + text));
    RunThree(t, first, middle, last);
    GroupRuns(t, first, middle, last, s);
    PairStarts(t, first, text);
    StretchEnds(o, c, next, middle, last, s, k, t.items[k.item].head.kind);
  }

  lemma StretchEnds(o: Tables, c: Tables, next: nat, middle: seq<Event>, last: Event, s: Selection, k: Key, kind: Kind)
    requires InGroup(s, k, last) && last.payload.text != "" && Numbered(o, next) && Middle(middle, next, s, k)
    requires Ahead(o, c, k.item, ColumnOf(k.field), TextOf(middle, s, k) + last.payload.text)
    requires k.item in o.items ==> o.items[k.item].head.kind == kind
    requires Run(o, middle).Ok? && k.item in Run(o, middle).value.items
    ensures Run(c, FoldFrom(middle, s, {k})).Ok?
    ensures Same(Extended(Run(o, middle).value, last), Run(c, FoldFrom(middle, s, {k})).value)
       <==> forall e :: e in middle ==> !Resets(e, k.item, ColumnOf(k.field), kind)
  {
    Outcome(o, c, middle, next, s, k, last.payload.text, kind);
    Verdict(Run(o, middle).value, Run(c, FoldFrom(middle, s, {k})).value, last, k.item, ColumnOf(k.field),
            exists e :: e in middle && Resets(e, k.item, ColumnOf(k.field), kind));
  }

  lemma Verdict(o: Tables, c: Tables, last: Event, id: ItemId, col: Column, reset: bool)
    requires last.payload.ItemDelta? && Feeds(last, id, col) && last.payload.text != "" && id in o.items
    requires if reset then Apart(o, c, id, col, last.payload.text) else Ahead(o, c, id, col, last.payload.text)
    ensures Same(Extended(o, last), c) <==> !reset
  {
    if reset { ApartEnds(o, c, last, id, col); } else { AheadEnds(o, c, last, id, col); }
  }

  lemma GroupRuns(t: Tables, first: Event, middle: seq<Event>, last: Event, s: Selection)
    requires Picks(s, first) && Picks(s, last) && KeyOf(first) == KeyOf(last)
    requires forall e :: e in middle && Picks(s, e) ==> KeyOf(e) == KeyOf(first)
    ensures var k := KeyOf(first);
            var text := TextOf(middle, s, k) + last.payload.text;
      Run(t, Fold([first] + middle + [last], s)) ==
      Run(Extended(t, WithText(first, first.payload.text + text)), FoldFrom(middle, s, {k}))
  {
    var k := KeyOf(first);
    var both := WithText(first, first.payload.text + (TextOf(middle, s, k) + last.payload.text));
    var folded := FoldFrom(middle, s, {k});
    GroupFolds(first, middle, last, s);
    assert ([both] + folded)[0] == both && ([both] + folded)[1..] == folded;
  }

  /** What the fold makes of the stretch. */
  lemma GroupFolds(first: Event, middle: seq<Event>, last: Event, s: Selection)
    requires Picks(s, first) && Picks(s, last) && KeyOf(first) == KeyOf(last)
    requires forall e :: e in middle && Picks(s, e) ==> KeyOf(e) == KeyOf(first)
    ensures var k := KeyOf(first);
      Fold([first] + middle + [last], s) ==
      [WithText(first, first.payload.text + (TextOf(middle, s, k) + last.payload.text))] + FoldFrom(middle, s, {k})
  {
    var k, rest := KeyOf(first), middle + [last];
    assert [first] + middle + [last] == [first] + rest && ([first] + rest)[1..] == rest;
    LastFolds(middle, last, s, k, {k});
    var none: set<Key> := {};
    assert none + {k} == {k};
  }

  lemma {:induction false} LastFolds(middle: seq<Event>, last: Event, s: Selection, k: Key, seen: set<Key>)
    requires InGroup(s, k, last) && k in seen && forall e :: e in middle && Picks(s, e) ==> KeyOf(e) == k
    ensures TextOf(middle + [last], s, k) == TextOf(middle, s, k) + last.payload.text
    ensures FoldFrom(middle + [last], s, seen) == FoldFrom(middle, s, seen)
    decreases |middle|
  {
    var all := middle + [last];
    if middle == [] {
      assert all == [last] && all[1..] == [];
      assert last.payload.text + "" == "" + last.payload.text;
    } else {
      assert all[0] == middle[0] && all[1..] == middle[1..] + [last];
      assert middle[0] in middle;
      forall e | e in middle[1..] ensures e in middle {}
      LastFolds(middle[1..], last, s, k, seen);
      var head := if InGroup(s, k, middle[0]) then middle[0].payload.text else "";
      assert head + (TextOf(middle[1..], s, k) + last.payload.text) ==
             (head + TextOf(middle[1..], s, k)) + last.payload.text;
    }
  }

  /** The least stretch that is folded: two deltas and nothing of the group between them. */
  lemma FoldPairExactly(t: Tables, next: nat, first: Event, middle: seq<Event>, last: Event)
    requires first.payload.ItemDelta? && last.payload.ItemDelta? && KeyOf(first) == KeyOf(last)
      && last.payload.text != ""
    requires Numbered(t, next) && Ascending(middle)
    requires forall e :: e in middle ==>
      e.num >= next && !Feeds(e, first.payload.item, ColumnOf(first.payload.field))
    requires first.payload.item in t.items
    requires Run(t, [first] + middle + [last]).Ok?
    requires first.payload.item in Run(t, [first] + middle + [last]).value.items
    ensures Agree(Run(t, [first] + middle + [last]),
                  Run(t, [WithText(first, first.payload.text + last.payload.text)] + middle))
       <==> forall e :: e in middle ==>
              !Resets(e, first.payload.item, ColumnOf(first.payload.field), t.items[first.payload.item].head.kind)
  {
    var s := Selection(None, 0, first.num + last.num, {KeyOf(first)});
    FoldNothing(middle, s, {KeyOf(first)});
    FoldGroupExactly(t, next, first, middle, last, s);
    GroupFolds(first, middle, last, s);
    assert "" + last.payload.text == last.payload.text;
  }

  /** The folded delta puts its side ahead by the text of the second. */
  lemma PairStarts(t: Tables, first: Event, text: string)
    requires first.payload.ItemDelta? && first.payload.item in t.items
    ensures Ahead(Extended(t, first), Extended(t, WithText(first, first.payload.text + text)),
                  first.payload.item, ColumnOf(first.payload.field), text)
  {
    var had := Text(t.items[first.payload.item], ColumnOf(first.payload.field));
    assert had + (first.payload.text + text) == (had + first.payload.text) + text;
  }

  lemma RunThree(t: Tables, first: Event, middle: seq<Event>, last: Event)
    requires first.payload.ItemDelta? && last.payload.ItemDelta?
    ensures Run(t, [first] + middle + [last]) ==
            match Run(Extended(t, first), middle) case Fail => Fail case Ok(m) => Ok(Extended(m, last))
  {
    var rest := middle + [last];
    assert [first] + middle + [last] == [first] + rest;
    assert ([first] + rest)[1..] == rest;
    RunConcat(Extended(t, first), middle, [last]);
    match Run(Extended(t, first), middle)
    case Fail =>
    case Ok(m) => assert [last][1..] == [] && Run(m, [last]) == Ok(Extended(m, last));
  }
}
