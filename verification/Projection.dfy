/** What the log means: the tables a replay rebuilds, one event at a time. */
module Projection {
  import opened Domain

  datatype Project = Project(path: string, name: string, created: int,
                             worktrees: bool, defaults: Settings, cleanup: string)

  datatype Thread = Thread(
    project: Id, title: string, settings: Settings, resolvedModel: string,
    external: Id, status: ThreadStatus, detail: string, archived: bool, pinned: bool,
    worktree: string, branch: string, tokens: int, window: int,
    prRepo: string, prNumber: int, prUrl: string,
    created: int, updated: int, settledAt: Option<int>, heldAt: Option<int>, snoozedUntil: Option<int>,
    anchor: string, forkAt: string)

  /** What a delta leaves alone of an item. */
  datatype Head = Head(thread: Id, rowid: nat, kind: Kind, tool: string, status: ItemStatus, meta: string, created: int)

  datatype Item = Item(head: Head, body: string, output: string, updated: int)

  datatype Approval = Approval(about: ItemId, tool: string, description: string, input: Input,
                               decision: Decision, created: int, resolved: Option<int>)

  datatype Queued = Queued(thread: Id, rowid: nat, body: string, created: int)

  /** A row of the full-text index; its key in `Tables.index` is its rowid. */
  datatype IndexRow = IndexRow(item: ItemId, thread: Id, body: string)

  /** The tables that hold no transcript. */
  datatype Ledger = Ledger(
    projects: map<Id, Project>,
    threads: map<Id, Thread>,
    approvals: map<(Id, Id), Approval>,
    queue: map<Id, Queued>,
    rules: map<(Id, string), int>)

  datatype Tables = Tables(ledger: Ledger, items: map<ItemId, Item>, index: map<nat, IndexRow>)

  const EMPTY: Tables := Tables(Ledger(map[], map[], map[], map[], map[]), map[], map[])

  /** Only prompts and replies are searched. */
  predicate Searchable(k: Kind) {
    k == User || k == Assistant
  }

  // ---- Row updates ----

  function ReviseRow(row: Thread, c: RowChange, at: int): Thread {
    match c
    case ThreadRenamed(title) => row.(title := title, updated := at)
    case ThreadArchived => row.(archived := true, settledAt := Some(at), snoozedUntil := None)
    case ThreadUnarchived => row.(archived := false, settledAt := None, heldAt := Some(at))
    case ThreadSnoozed(until) => row.(snoozedUntil := Some(until), archived := false, settledAt := None)
    case ThreadWoken(auto) =>
      var woken := row.(snoozedUntil := None, heldAt := Some(at));
      if auto then woken.(updated := at) else woken
    case ThreadWorktreeSet(path, branch) => row.(worktree := path, branch := branch)
    case ThreadPinned => row.(pinned := true)
    case ThreadUnpinned => row.(pinned := false)
    case ThreadPRLinked(repo, number, url) => row.(prRepo := repo, prNumber := number, prUrl := url)
    case ThreadPRUnlinked => row.(prRepo := "", prNumber := 0, prUrl := "")
    case ThreadSettingsChanged(s) =>
      var same := row.settings.agent == s.agent;
      row.(settings := s, external := if same then row.external else "",
           anchor := if same then row.anchor else "", forkAt := if same then row.forkAt else "",
           window := if row.settings.model == s.model then row.window else 0, updated := at)
    case AgentSessionBound(session, model) =>
      row.(external := session, forkAt := "",
           resolvedModel := if model == "" then row.resolvedModel else model, updated := at)
    case ThreadStatusChanged(status, detail) => row.(status := status, detail := detail, updated := at)
    case TurnStarted(_) => row.(updated := at)
    case TurnCompleted(_, anchor) => row.(anchor := if anchor == "" then row.anchor else anchor, updated := at)
    case ContextUsed(tokens, window) => row.(tokens := tokens, window := if window == 0 then row.window else window)
  }

  /** The update an event makes to the row of its own thread. */
  function Revise(row: Thread, p: Payload, at: int): Thread {
    match p
    case Row(change) => ReviseRow(row, change, at)
    case Queue(_) => row.(updated := at)
    case ItemStarted(_, quiet, _, _, _, _, _) => if quiet then row else row.(updated := at)
    case ThreadRewound(_, session, forkAt) =>
      row.(external := session, forkAt := forkAt, anchor := forkAt, tokens := 0, updated := at)
    case _ => row
  }

  function ReviseThread(threads: map<Id, Thread>, ev: Event): map<Id, Thread> {
    if ev.thread in threads
    then threads[ev.thread := Revise(threads[ev.thread], ev.payload, ev.at)]
    else threads
  }

  function FreshThread(c: CatalogChange, at: int): Thread
    requires c.ThreadCreated?
  {
    Thread(c.project, c.title, Settings(c.agent, c.model, "", ""), "", "", Idle, "", false, false,
           "", "", 0, 0, "", 0, "", at, at, None, None, None, "", "")
  }

  function FreshItem(ev: Event): Item
    requires ev.payload.ItemStarted?
  {
    var p := ev.payload;
    var meta := if p.meta == "" then "{}" else p.meta;
    Item(Head(ev.thread, ev.num, p.kind, p.tool, p.state, meta, ev.at), p.body, "", ev.at)
  }

  function Extend(row: Item, col: Column, text: string, at: int): Item {
    if col == Output then row.(output := row.output + text, updated := at)
    else row.(body := row.body + text, updated := at)
  }

  function Completed(row: Item, p: Payload, at: int): Item
    requires p.ItemCompleted?
  {
    Item(row.head.(status := if p.state == Plain then row.head.status else p.state,
                   meta := if p.meta == "" then row.head.meta else p.meta),
         if p.body == "" then row.body else p.body, row.output, at)
  }

  // ---- The search index ----

  function Unindexed(index: map<nat, IndexRow>, items: map<ItemId, Item>, id: ItemId): map<nat, IndexRow> {
    if id in items then index - {items[id].head.rowid} else index
  }

  /** Replaces the index row of item `id` by one holding its current text. */
  function Indexed(index: map<nat, IndexRow>, items: map<ItemId, Item>, id: ItemId): map<nat, IndexRow> {
    var cleared := Unindexed(index, items, id);
    if id in items && Searchable(items[id].head.kind) && items[id].body != ""
    then cleared[items[id].head.rowid := IndexRow(id, items[id].head.thread, items[id].body)]
    else cleared
  }

  // ---- Deletes and their cascades ----

  function DropFromLedger(l: Ledger, gone: set<Id>): Ledger {
    Ledger(l.projects, l.threads - gone,
           map a | a in l.approvals && a.0 !in gone :: l.approvals[a],
           map q | q in l.queue && l.queue[q].thread !in gone :: l.queue[q],
           map r | r in l.rules && r.0 !in gone :: l.rules[r])
  }

  function DropFromItems(items: map<ItemId, Item>, gone: set<Id>): map<ItemId, Item> {
    map i | i in items && items[i].head.thread !in gone :: items[i]
  }

  /** Deletes threads with the rows that hang off them through foreign keys; the index has no such key. */
  function DropThreads(t: Tables, gone: set<Id>): Tables {
    Tables(DropFromLedger(t.ledger, gone), DropFromItems(t.items, gone), t.index)
  }

  function ThreadsOf(l: Ledger, project: Id): set<Id> {
    set id | id in l.threads && l.threads[id].project == project
  }

  function RowidsFrom(items: map<ItemId, Item>, thread: Id, cut: nat): set<nat> {
    set i | i in items && items[i].head.thread == thread && items[i].head.rowid >= cut :: items[i].head.rowid
  }

  function Rewind(t: Tables, thread: Id, item: ItemId): Tables {
    if item !in t.items then t else
    var cut := t.items[item].head.rowid;
    t.(index := t.index - RowidsFrom(t.items, thread, cut),
       items := map i | i in t.items && !(t.items[i].head.thread == thread && t.items[i].head.rowid >= cut)
                :: t.items[i])
  }

  // ---- One event ----

  function Touch(l: Ledger, ev: Event): Ledger {
    l.(threads := ReviseThread(l.threads, ev))
  }

  /** A start that is not streamed is indexed at once. */
  predicate IndexedAtStart(p: Payload)
    requires p.ItemStarted?
  {
    p.kind == User || (p.state != Ongoing && p.state != Pending)
  }

  function Started(t: Tables, ev: Event): Tables
    requires ev.payload.ItemStarted?
  {
    var id := ev.payload.item;
    var items := t.items[id := FreshItem(ev)];
    var cleared := Unindexed(t.index, t.items, id);
    Tables(Touch(t.ledger, ev), items, if IndexedAtStart(ev.payload) then Indexed(cleared, items, id) else cleared)
  }

  function Extended(t: Tables, ev: Event): Tables
    requires ev.payload.ItemDelta?
  {
    var p := ev.payload;
    if p.item in t.items
    then t.(items := t.items[p.item := Extend(t.items[p.item], ColumnOf(p.field), p.text, ev.at)])
    else t
  }

  function Finished(t: Tables, ev: Event): Tables
    requires ev.payload.ItemCompleted?
  {
    var p := ev.payload;
    var items := if p.item in t.items then t.items[p.item := Completed(t.items[p.item], p, ev.at)] else t.items;
    Tables(t.ledger, items, Indexed(t.index, items, p.item))
  }

  function Catalogued(l: Ledger, c: CatalogChange, at: int): Result<Ledger>
    requires !c.ProjectRemoved?
  {
    match c
    case ProjectAdded(id, path, name) =>
      if id in l.projects || (exists q :: q in l.projects && l.projects[q].path == path) then Ok(l)
      else Ok(l.(projects := l.projects[id := Project(path, name, at, false, Settings("", "", "", ""), "")]))
    case ProjectSettingsChanged(id, worktrees, defaults, cleanup) =>
      if id in l.projects
      then Ok(l.(projects := l.projects[id :=
        l.projects[id].(worktrees := worktrees, defaults := defaults, cleanup := cleanup)]))
      else Ok(l)
    case ThreadCreated(id, project, _, _, _) =>
      if id in l.threads then Ok(l)
      else if project !in l.projects then Fail
      else Ok(l.(threads := l.threads[id := FreshThread(c, at)]))
  }

  function RemoveProject(t: Tables, project: Id): Tables {
    var left := DropThreads(t, ThreadsOf(t.ledger, project));
    left.(ledger := left.ledger.(projects := left.ledger.projects - {project}))
  }

  function Requeued(l: Ledger, ev: Event): Result<Ledger>
    requires ev.payload.Queue?
  {
    var touched := Touch(l, ev);
    match ev.payload.queue
    case PromptQueued(id, body) =>
      if id in l.queue || ev.thread !in l.threads then Fail
      else Ok(touched.(queue := l.queue[id := Queued(ev.thread, ev.num, body, ev.at)]))
    case PromptDequeued(id) =>
      if id in l.queue && l.queue[id].thread == ev.thread then Ok(touched.(queue := l.queue - {id})) else Ok(touched)
  }

  function Consented(l: Ledger, thread: Id, c: ApprovalChange, at: int): Result<Ledger> {
    match c
    case ApprovalRequested(id, about, tool, description, input) =>
      if thread !in l.threads then Fail
      else Ok(l.(approvals := l.approvals[(thread, id) :=
        Approval(about, tool, description, input, Undecided, at, None)]))
    case ApprovalResolved(id, decision, auto) =>
      var k := (thread, id);
      if k !in l.approvals then
        if decision == AllowSession && !auto then Fail else Ok(l)
      else
        var row := l.approvals[k];
        var answered := l.(approvals := l.approvals[k := row.(decision := decision, resolved := Some(at))]);
        var rule := (thread, RuleKey(row.tool, row.input));
        if decision == AllowSession && !auto && rule !in l.rules
        then Ok(answered.(rules := l.rules[rule := at]))
        else Ok(answered)
    case RuleRevoked(key) => Ok(l.(rules := l.rules - {(thread, key)}))
  }

  /** Events that neither read nor write a transcript. */
  predicate Aside(p: Payload) {
    match p
    case Row(_) => true
    case Queue(_) => true
    case Consent(_) => true
    case Catalog(c) => !c.ProjectRemoved?
    case GitChanged => true
    case _ => false
  }

  function ApplyAside(l: Ledger, ev: Event): Result<Ledger>
    requires Aside(ev.payload)
  {
    match ev.payload
    case Row(_) => Ok(Touch(l, ev))
    case Queue(_) => Requeued(l, ev)
    case Consent(c) => Consented(l, ev.thread, c, ev.at)
    case Catalog(c) => Catalogued(l, c, ev.at)
    case GitChanged => Ok(l)
  }

  /** Applies one event; `Fail` is a constraint the statement breaks, which rolls the transaction back. */
  function Apply(t: Tables, ev: Event): Result<Tables> {
    if Aside(ev.payload) then
      match ApplyAside(t.ledger, ev)
      case Fail => Fail
      case Ok(l) => Ok(t.(ledger := l))
    else
      match ev.payload
      case ItemStarted(_, _, _, _, _, _, _) => if ev.thread !in t.ledger.threads then Fail else Ok(Started(t, ev))
      case ItemDelta(_, _, _) => Ok(Extended(t, ev))
      case ItemCompleted(_, _, _, _) => Ok(Finished(t, ev))
      case ThreadRewound(item, _, _) =>
        var cut := Rewind(t, ev.thread, item);
        Ok(cut.(ledger := Touch(cut.ledger, ev)))
      case ThreadDeleted =>
        Ok(DropThreads(t, {ev.thread}).(index := t.index - RowidsFrom(t.items, ev.thread, 0)))
      case Catalog(c) => Ok(RemoveProject(t, c.project))
  }

  /** Applies a stretch of the log in order. */
  function Run(t: Tables, log: seq<Event>): Result<Tables>
    decreases |log|
  {
    if log == [] then Ok(t) else
    match Apply(t, log[0])
    case Fail => Fail
    case Ok(t') => Run(t', log[1..])
  }

  function Replayed(log: seq<Event>): Result<Tables> {
    Run(EMPTY, log)
  }

  lemma {:induction false} RunConcat(t: Tables, a: seq<Event>, b: seq<Event>)
    ensures Run(t, a + b) ==
            match Run(t, a) case Fail => Fail case Ok(t') => Run(t', b)
    decreases |a|
  {
    if a == [] {
      assert a + b == b;
    } else {
      assert (a + b)[0] == a[0] && (a + b)[1..] == a[1..] + b;
      match Apply(t, a[0])
      case Fail =>
      case Ok(t') => RunConcat(t', a[1..], b);
    }
  }
}
