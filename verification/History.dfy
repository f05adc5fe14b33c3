/** What the tables say of the log: every row stands for the events that made it, and for none that took it away. */
module History {
  import opened Domain
  import opened Projection
  import SearchIndex

  lemma RunLast(t: Tables, log: seq<Event>)
    requires log != []
    ensures var n := |log| - 1;
            Run(t, log) == match Run(t, log[..n]) case Fail => Fail case Ok(u) => Apply(u, log[n])
  {
    var n := |log| - 1;
    assert log == log[..n] + [log[n]];
    RunConcat(t, log[..n], [log[n]]);
    match Run(t, log[..n])
    case Fail =>
    case Ok(u) => assert [log[n]][1..] == [];
  }

  // ---- Threads ----

  /** The project of a thread, if the thread is there. */
  function ThreadAt(t: Tables, thread: Id): Option<Id> {
    if thread in t.ledger.threads then Some(t.ledger.threads[thread].project) else None
  }

  /** Which project a thread was created in, if it was and neither it nor the project was removed since. */
  function ProjectOf(t: Tables, log: seq<Event>, thread: Id): Option<Id> {
    if log == [] then ThreadAt(t, thread)
    else
      var e := log[|log| - 1];
      var was := ProjectOf(t, log[..|log| - 1], thread);
      match e.payload
      case ThreadDeleted => if e.thread == thread then None else was
      case Catalog(ProjectRemoved(project)) => if was == Some(project) then None else was
      case Catalog(ThreadCreated(id, project, _, _, _)) => if id == thread && was == None then Some(project) else was
      case _ => was
  }

  /** The event takes the thread away, and all that hangs off it. */
  predicate Drops(u: Tables, e: Event, thread: Id) {
    || (e.payload.ThreadDeleted? && e.thread == thread)
    || (e.payload.Catalog? && e.payload.catalog.ProjectRemoved?
        && ThreadAt(u, thread) == Some(e.payload.catalog.project))
  }

  /** What an event does to the row of a thread: it updates that of its own, removes some, and may create one. */
  ghost predicate ThreadsMove(u: Tables, e: Event, v: Tables, thread: Id) {
    var l, m := u.ledger.threads, v.ledger.threads;
    && (thread in l ==> (thread in m <==> !Drops(u, e, thread)))
    && (thread in l && thread in m ==>
          m[thread] == if e.thread == thread then Revise(l[thread], e.payload, e.at) else l[thread])
    && (thread !in l ==> (thread in m <==> Creates(e, thread)))
    && (thread !in l && thread in m ==> m[thread] == FreshThread(e.payload.catalog, e.at))
  }

  predicate Creates(e: Event, thread: Id) {
    e.payload.Catalog? && e.payload.catalog.ThreadCreated? && e.payload.catalog.thread == thread
  }

  lemma QueueThreads(u: Tables, e: Event, thread: Id)
    requires e.payload.Queue? && Apply(u, e).Ok?
    ensures ThreadsMove(u, e, Apply(u, e).value, thread)
  {
  }

  lemma ConsentThreads(u: Tables, e: Event, thread: Id)
    requires e.payload.Consent? && Apply(u, e).Ok?
    ensures ThreadsMove(u, e, Apply(u, e).value, thread)
  {
    assert Consented(u.ledger, e.thread, e.payload.consent, e.at).value.threads == u.ledger.threads;
  }

  lemma CatalogThreads(u: Tables, e: Event, thread: Id)
    requires e.payload.Catalog? && Aside(e.payload) && Apply(u, e).Ok?
    ensures ThreadsMove(u, e, Apply(u, e).value, thread)
  {
  }

  lemma AsideThreads(u: Tables, e: Event, thread: Id)
    requires Aside(e.payload) && Apply(u, e).Ok?
    ensures ThreadsMove(u, e, Apply(u, e).value, thread)
  {
    if e.payload.Queue? { QueueThreads(u, e, thread); }
    else if e.payload.Consent? { ConsentThreads(u, e, thread); }
    else if e.payload.Catalog? { CatalogThreads(u, e, thread); }
  }

  lemma RemovalThreads(u: Tables, e: Event, thread: Id)
    requires e.payload.ThreadDeleted? || (e.payload.Catalog? && e.payload.catalog.ProjectRemoved?)
    ensures ThreadsMove(u, e, Apply(u, e).value, thread)
  {
  }

  lemma ItemThreads(u: Tables, e: Event, thread: Id)
    requires !Aside(e.payload) && Apply(u, e).Ok?
    requires e.payload.ItemStarted? || e.payload.ItemDelta? || e.payload.ItemCompleted? || e.payload.ThreadRewound?
    ensures ThreadsMove(u, e, Apply(u, e).value, thread)
  {
  }

  lemma ThreadsNext(u: Tables, e: Event, thread: Id)
    requires Apply(u, e).Ok?
    ensures ThreadsMove(u, e, Apply(u, e).value, thread)
  {
    if Aside(e.payload) { AsideThreads(u, e, thread); }
    else if e.payload.ThreadDeleted? || e.payload.Catalog? { RemovalThreads(u, e, thread); }
    else { ItemThreads(u, e, thread); }
  }

  lemma ThreadKept(u: Tables, e: Event, thread: Id)
    requires thread in u.ledger.threads && !Drops(u, e, thread) && Apply(u, e).Ok?
    ensures ThreadAt(Apply(u, e).value, thread) == ThreadAt(u, thread)
  {
    ThreadsNext(u, e, thread);
  }

  /** A thread is there exactly if it was created and not removed since, in the project it was created in. */
  lemma {:induction false} ThreadsHold(t: Tables, log: seq<Event>, thread: Id)
    requires Run(t, log).Ok?
    ensures ThreadAt(Run(t, log).value, thread) == ProjectOf(t, log, thread)
  {
    if log != [] {
      var n := |log| - 1;
      RunLast(t, log);
      ThreadsHold(t, log[..n], thread);
      ThreadsNext(Run(t, log[..n]).value, log[n], thread);
      if thread in Run(t, log[..n]).value.ledger.threads && !Drops(Run(t, log[..n]).value, log[n], thread) {
        ThreadKept(Run(t, log[..n]).value, log[n], thread);
      }
    }
  }

  // ---- The fields of a thread's row ----

  /** No event of the log takes the thread away. */
  ghost predicate Stays(t: Tables, log: seq<Event>, thread: Id) {
    forall k :: 0 <= k <= |log| ==> ProjectOf(t, log[..k], thread).Some?
  }

  /** What the events of the thread make of a value. */
  function Folded<V>(was: V, log: seq<Event>, thread: Id, update: (V, Event) -> V): V {
    if log == [] then was
    else
      var v := Folded(was, log[..|log| - 1], thread, update);
      if log[|log| - 1].thread == thread then update(v, log[|log| - 1]) else v
  }

  /** What the last of the thread's events that says so gives; `was` if none does. */
  function Given<V>(was: V, log: seq<Event>, thread: Id, gives: Event -> Option<V>): V {
    if log == [] then was
    else
      var e := log[|log| - 1];
      if e.thread == thread && gives(e).Some? then gives(e).value else Given(was, log[..|log| - 1], thread, gives)
  }

  /** Whatever every update does to a part of the row, the events of the thread did to it in order. */
  lemma {:induction false} RowFolds<V>(t: Tables, log: seq<Event>, thread: Id, get: Thread -> V,
                                       update: (V, Event) -> V)
    requires Run(t, log).Ok? && Stays(t, log, thread) && thread in t.ledger.threads
    requires forall row: Thread, e: Event :: get(Revise(row, e.payload, e.at)) == update(get(row), e)
    ensures var u := Run(t, log).value;
            thread in u.ledger.threads
            && get(u.ledger.threads[thread]) == Folded(get(t.ledger.threads[thread]), log, thread, update)
  {
    if log != [] {
      var n := |log| - 1;
      RunLast(t, log);
      forall k | 0 <= k <= n ensures log[..n][..k] == log[..k] {}
      RowFolds(t, log[..n], thread, get, update);
      ThreadsHold(t, log, thread);
      assert log[..|log|] == log;
      ThreadsNext(Run(t, log[..n]).value, log[n], thread);
    }
  }

  lemma {:induction false} GivenFolds<V>(was: V, log: seq<Event>, thread: Id, gives: Event -> Option<V>)
    ensures Given(was, log, thread, gives) ==
            Folded(was, log, thread, (v: V, e: Event) => if gives(e).Some? then gives(e).value else v)
  {
    if log != [] { GivenFolds(was, log[..|log| - 1], thread, gives); }
  }

  /** Updates set this part of a row as `gives` says, or leave it alone. */
  ghost predicate Sets<V>(get: Thread -> V, gives: Event -> Option<V>) {
    forall row: Thread, e: Event ::
      get(Revise(row, e.payload, e.at)) == if gives(e).Some? then gives(e).value else get(row)
  }

  /** A part of the row that updates set or leave alone is what the last of them set it to. */
  lemma LastGiven<V>(t: Tables, log: seq<Event>, thread: Id, get: Thread -> V, gives: Event -> Option<V>)
    requires Run(t, log).Ok? && Stays(t, log, thread) && thread in t.ledger.threads && Sets(get, gives)
    ensures var u := Run(t, log).value;
            thread in u.ledger.threads
            && get(u.ledger.threads[thread]) == Given(get(t.ledger.threads[thread]), log, thread, gives)
  {
    GivenFolds(get(t.ledger.threads[thread]), log, thread, gives);
    RowFolds(t, log, thread, get, (v: V, e: Event) => if gives(e).Some? then gives(e).value else v);
  }

  // What the events say, part by part.

  function StatusGiven(e: Event): Option<(ThreadStatus, string)> {
    match e.payload
    case Row(ThreadStatusChanged(status, detail)) => Some((status, detail))
    case _ => None
  }

  function TitleGiven(e: Event): Option<string> {
    match e.payload
    case Row(ThreadRenamed(title)) => Some(title)
    case _ => None
  }

  function ArchivedGiven(e: Event): Option<bool> {
    match e.payload
    case Row(ThreadArchived) => Some(true)
    case Row(ThreadUnarchived) => Some(false)
    case Row(ThreadSnoozed(_)) => Some(false)
    case _ => None
  }

  /** Archiving settles a thread; bringing it back, or putting it off, unsettles it. */
  function SettledGiven(e: Event): Option<Option<int>> {
    match e.payload
    case Row(ThreadArchived) => Some(Some(e.at))
    case Row(ThreadUnarchived) => Some(None)
    case Row(ThreadSnoozed(_)) => Some(None)
    case _ => None
  }

  function SnoozedGiven(e: Event): Option<Option<int>> {
    match e.payload
    case Row(ThreadArchived) => Some(None)
    case Row(ThreadSnoozed(until)) => Some(Some(until))
    case Row(ThreadWoken(_)) => Some(None)
    case _ => None
  }

  function HeldGiven(e: Event): Option<Option<int>> {
    match e.payload
    case Row(ThreadUnarchived) => Some(Some(e.at))
    case Row(ThreadWoken(_)) => Some(Some(e.at))
    case _ => None
  }

  function PinnedGiven(e: Event): Option<bool> {
    match e.payload
    case Row(ThreadPinned) => Some(true)
    case Row(ThreadUnpinned) => Some(false)
    case _ => None
  }

  function WorktreeGiven(e: Event): Option<(string, string)> {
    match e.payload
    case Row(ThreadWorktreeSet(path, branch)) => Some((path, branch))
    case _ => None
  }

  function PullGiven(e: Event): Option<(string, int, string)> {
    match e.payload
    case Row(ThreadPRLinked(repo, number, url)) => Some((repo, number, url))
    case Row(ThreadPRUnlinked) => Some(("", 0, ""))
    case _ => None
  }

  function SettingsGiven(e: Event): Option<Settings> {
    match e.payload
    case Row(ThreadSettingsChanged(settings)) => Some(settings)
    case _ => None
  }

  function ModelGiven(e: Event): Option<string> {
    match e.payload
    case Row(AgentSessionBound(_, model)) => if model == "" then None else Some(model)
    case _ => None
  }

  function TokensGiven(e: Event): Option<int> {
    match e.payload
    case Row(ContextUsed(tokens, _)) => Some(tokens)
    case ThreadRewound(_, _, _) => Some(0)
    case _ => None
  }

  /** What shows in the list as news. */
  function UpdatedGiven(e: Event): Option<int> {
    match e.payload
    case Row(ThreadRenamed(_)) => Some(e.at)
    case Row(ThreadWoken(auto)) => if auto then Some(e.at) else None
    case Row(ThreadSettingsChanged(_)) => Some(e.at)
    case Row(AgentSessionBound(_, _)) => Some(e.at)
    case Row(ThreadStatusChanged(_, _)) => Some(e.at)
    case Row(TurnStarted(_)) => Some(e.at)
    case Row(TurnCompleted(_, _)) => Some(e.at)
    case Queue(_) => Some(e.at)
    case ItemStarted(_, quiet, _, _, _, _, _) => if quiet then None else Some(e.at)
    case ThreadRewound(_, _, _) => Some(e.at)
    case _ => None
  }

  /** A thread that is there through the whole stretch. */
  ghost predicate Lasts(t: Tables, log: seq<Event>, thread: Id) {
    Run(t, log).Ok? && Stays(t, log, thread) && thread in t.ledger.threads
    && thread in Run(t, log).value.ledger.threads
  }

  lemma Survives(t: Tables, log: seq<Event>, thread: Id)
    requires Run(t, log).Ok? && Stays(t, log, thread) && thread in t.ledger.threads
    ensures Lasts(t, log, thread)
  {
    ThreadsHold(t, log, thread);
    assert log[..|log|] == log;
  }

  function RowAfter(t: Tables, log: seq<Event>, thread: Id): Thread
    requires Run(t, log).Ok? && thread in Run(t, log).value.ledger.threads
  {
    Run(t, log).value.ledger.threads[thread]
  }

  function StatusOf(r: Thread): (ThreadStatus, string) {
    (r.status, r.detail)
  }

  lemma StatusSets()
    ensures Sets(StatusOf, StatusGiven)
  {
  }

  function TitleOf(r: Thread): string {
    r.title
  }

  lemma TitleSets()
    ensures Sets(TitleOf, TitleGiven)
  {
  }

  function PinnedOf(r: Thread): bool {
    r.pinned
  }

  lemma PinnedSets()
    ensures Sets(PinnedOf, PinnedGiven)
  {
  }

  function ArchivedOf(r: Thread): bool {
    r.archived
  }

  lemma ArchivedSets()
    ensures Sets(ArchivedOf, ArchivedGiven)
  {
  }

  function SettledOf(r: Thread): Option<int> {
    r.settledAt
  }

  lemma SettledSets()
    ensures Sets(SettledOf, SettledGiven)
  {
  }

  function HeldOf(r: Thread): Option<int> {
    r.heldAt
  }

  lemma HeldSets()
    ensures Sets(HeldOf, HeldGiven)
  {
  }

  function SnoozedOf(r: Thread): Option<int> {
    r.snoozedUntil
  }

  lemma SnoozedSets()
    ensures Sets(SnoozedOf, SnoozedGiven)
  {
  }

  function UpdatedOf(r: Thread): int {
    r.updated
  }

  lemma UpdatedSets()
    ensures Sets(UpdatedOf, UpdatedGiven)
  {
  }

  function WorktreeOf(r: Thread): (string, string) {
    (r.worktree, r.branch)
  }

  lemma WorktreeSets()
    ensures Sets(WorktreeOf, WorktreeGiven)
  {
  }

  function PullOf(r: Thread): (string, int, string) {
    (r.prRepo, r.prNumber, r.prUrl)
  }

  lemma PullSets()
    ensures Sets(PullOf, PullGiven)
  {
  }

  function SettingsOf(r: Thread): Settings {
    r.settings
  }

  lemma SettingsSets()
    ensures Sets(SettingsOf, SettingsGiven)
  {
  }

  function ModelOf(r: Thread): string {
    r.resolvedModel
  }

  lemma ModelSets()
    ensures Sets(ModelOf, ModelGiven)
  {
  }

  function TokensOf(r: Thread): int {
    r.tokens
  }

  lemma TokensSets()
    ensures Sets(TokensOf, TokensGiven)
  {
  }

  /** Over any stretch of the log: the status, with its detail, is the one last reported. */
  lemma StatusIsLast(t: Tables, log: seq<Event>, thread: Id)
    requires Lasts(t, log, thread)
    ensures var was, row := t.ledger.threads[thread], RowAfter(t, log, thread);
      && StatusOf(row) == Given(StatusOf(was), log, thread, StatusGiven)
  {
    StatusSets();
    LastGiven(t, log, thread, StatusOf, StatusGiven);
  }

  /** So are the title and the pin, and whether the thread is archived. */
  lemma TitleIsLast(t: Tables, log: seq<Event>, thread: Id)
    requires Lasts(t, log, thread)
    ensures var was, row := t.ledger.threads[thread], RowAfter(t, log, thread);
      && TitleOf(row) == Given(TitleOf(was), log, thread, TitleGiven)
      && PinnedOf(row) == Given(PinnedOf(was), log, thread, PinnedGiven)
      && ArchivedOf(row) == Given(ArchivedOf(was), log, thread, ArchivedGiven)
  {
    TitleSets();
    LastGiven(t, log, thread, TitleOf, TitleGiven);
    PinnedSets();
    LastGiven(t, log, thread, PinnedOf, PinnedGiven);
    ArchivedSets();
    LastGiven(t, log, thread, ArchivedOf, ArchivedGiven);
  }

  /** And when it was settled, brought back, put off and last in the news. */
  lemma TimesAreLast(t: Tables, log: seq<Event>, thread: Id)
    requires Lasts(t, log, thread)
    ensures var was, row := t.ledger.threads[thread], RowAfter(t, log, thread);
      && SettledOf(row) == Given(SettledOf(was), log, thread, SettledGiven)
      && HeldOf(row) == Given(HeldOf(was), log, thread, HeldGiven)
      && SnoozedOf(row) == Given(SnoozedOf(was), log, thread, SnoozedGiven)
      && UpdatedOf(row) == Given(UpdatedOf(was), log, thread, UpdatedGiven)
  {
    SettledSets();
    LastGiven(t, log, thread, SettledOf, SettledGiven);
    HeldSets();
    LastGiven(t, log, thread, HeldOf, HeldGiven);
    SnoozedSets();
    LastGiven(t, log, thread, SnoozedOf, SnoozedGiven);
    UpdatedSets();
    LastGiven(t, log, thread, UpdatedOf, UpdatedGiven);
  }

  /** And its worktree, its pull request, its settings, the model the agent named and the tokens it counted. */
  lemma SettingsAreLast(t: Tables, log: seq<Event>, thread: Id)
    requires Lasts(t, log, thread)
    ensures var was, row := t.ledger.threads[thread], RowAfter(t, log, thread);
      && WorktreeOf(row) == Given(WorktreeOf(was), log, thread, WorktreeGiven)
      && PullOf(row) == Given(PullOf(was), log, thread, PullGiven)
      && SettingsOf(row) == Given(SettingsOf(was), log, thread, SettingsGiven)
      && ModelOf(row) == Given(ModelOf(was), log, thread, ModelGiven)
      && TokensOf(row) == Given(TokensOf(was), log, thread, TokensGiven)
  {
    WorktreeSets();
    LastGiven(t, log, thread, WorktreeOf, WorktreeGiven);
    PullSets();
    LastGiven(t, log, thread, PullOf, PullGiven);
    SettingsSets();
    LastGiven(t, log, thread, SettingsOf, SettingsGiven);
    ModelSets();
    LastGiven(t, log, thread, ModelOf, ModelGiven);
    TokensSets();
    LastGiven(t, log, thread, TokensOf, TokensGiven);
  }

  /** Which of the agent's conversations the next session resumes, and where it cuts it. */
  datatype Link = Link(agent: string, session: Id, anchor: string, forkAt: string)

  /**
   * A session that is bound replaces the one before and has no cut pending; a turn's end moves the anchor, if it names
   * one; a rewind names the session and the cut, which is its anchor too; another agent can resume none of it.
   */
  function Linked(l: Link, e: Event): Link {
    match e.payload
    case Row(AgentSessionBound(session, _)) => Link(l.agent, session, l.anchor, "")
    case Row(TurnCompleted(_, anchor)) => if anchor == "" then l else Link(l.agent, l.session, anchor, l.forkAt)
    case ThreadRewound(_, session, forkAt) => Link(l.agent, session, forkAt, forkAt)
    case Row(ThreadSettingsChanged(s)) => if s.agent == l.agent then l else Link(s.agent, "", "", "")
    case _ => l
  }

  function LinkOf(r: Thread): Link {
    Link(r.settings.agent, r.external, r.anchor, r.forkAt)
  }

  lemma LinkUpdate(row: Thread, e: Event)
    ensures LinkOf(Revise(row, e.payload, e.at)) == Linked(LinkOf(row), e)
  {
    if e.payload.Row? && !e.payload.row.ThreadSettingsChanged? {
      assert Revise(row, e.payload, e.at).settings == row.settings;
    }
  }

  lemma LinkUpdates()
    ensures forall row: Thread, e: Event :: LinkOf(Revise(row, e.payload, e.at)) == Linked(LinkOf(row), e)
  {
    forall row: Thread, e: Event ensures LinkOf(Revise(row, e.payload, e.at)) == Linked(LinkOf(row), e) {
      LinkUpdate(row, e);
    }
  }

  /** What is resumed next, and from where, is what the thread's events made of it in their order. */
  lemma LinkFolds(t: Tables, log: seq<Event>, thread: Id)
    requires Lasts(t, log, thread)
    ensures LinkOf(RowAfter(t, log, thread)) == Folded(LinkOf(t.ledger.threads[thread]), log, thread, Linked)
  {
    LinkUpdates();
    RowFolds(t, log, thread, LinkOf, Linked);
  }

  /** The context window is the last one counted for the model that is set. */
  function Windowed(w: (string, int), e: Event): (string, int) {
    match e.payload
    case Row(ContextUsed(_, window)) => if window == 0 then w else (w.0, window)
    case Row(ThreadSettingsChanged(s)) => if s.model == w.0 then w else (s.model, 0)
    case _ => w
  }

  function WindowOf(r: Thread): (string, int) {
    (r.settings.model, r.window)
  }

  lemma WindowUpdates()
    ensures forall row: Thread, e: Event :: WindowOf(Revise(row, e.payload, e.at)) == Windowed(WindowOf(row), e)
  {
  }

  /** So is the context window. */
  lemma WindowFolds(t: Tables, log: seq<Event>, thread: Id)
    requires Lasts(t, log, thread)
    ensures WindowOf(RowAfter(t, log, thread)) == Folded(WindowOf(t.ledger.threads[thread]), log, thread, Windowed)
  {
    WindowUpdates();
    RowFolds(t, log, thread, WindowOf, Windowed);
  }

  /** A thread that is created is idle, empty and in its project, under the title, agent and model it was given. */
  lemma CreatedFresh(t: Tables, e: Event, thread: Id)
    requires Apply(t, e).Ok? && Creates(e, thread) && thread !in t.ledger.threads
    ensures var c, l := e.payload.catalog, Apply(t, e).value.ledger;
      && thread in l.threads
      && (var r := l.threads[thread];
          && c.project in l.projects && r.project == c.project && r.title == c.title
          && r.settings == Settings(c.agent, c.model, "", "") && r.resolvedModel == ""
          && r.status == Idle && r.detail == "" && !r.archived && !r.pinned
          && LinkOf(r) == Link(c.agent, "", "", "") && r.worktree == "" && r.branch == ""
          && r.prRepo == "" && r.prNumber == 0 && r.prUrl == "" && r.tokens == 0 && r.window == 0
          && r.created == e.at && r.updated == e.at
          && r.settledAt == None && r.heldAt == None && r.snoozedUntil == None)
  {
  }

  // ---- Items ----

  /** The start that an item stands by: its number in the log, and its thread. */
  datatype Slot = Slot(num: nat, thread: Id)

  function SlotAt(t: Tables, i: ItemId): Option<Slot> {
    if i in t.items then Some(Slot(t.items[i].head.rowid, t.items[i].head.thread)) else None
  }

  /** The event takes away what the slot holds; `cut` is the slot of the prompt a rewind goes back to. */
  predicate Cuts(slot: Slot, e: Event, cut: Option<Slot>) {
    e.payload.ThreadRewound? && cut.Some? && slot.thread == e.thread && cut.value.num <= slot.num
  }

  /** The event removes the thread, or its project. */
  predicate Removes(e: Event, thread: Id, project: Option<Id>) {
    || (e.payload.ThreadDeleted? && e.thread == thread)
    || (e.payload.Catalog? && e.payload.catalog.ProjectRemoved? && project == Some(e.payload.catalog.project))
  }

  /** The start an item stands by after the log, if nothing took it away since. */
  function SlotOf(t: Tables, log: seq<Event>, i: ItemId): Option<Slot> {
    if log == [] then SlotAt(t, i)
    else
      var init, e := log[..|log| - 1], log[|log| - 1];
      var was := SlotOf(t, init, i);
      if e.payload.ItemStarted? && e.payload.item == i then Some(Slot(e.num, e.thread))
      else if was == None then None
      else if e.payload.ThreadRewound? && Cuts(was.value, e, SlotOf(t, init, e.payload.item)) then None
      else if Removes(e, was.value.thread, ProjectOf(t, init, was.value.thread)) then None
      else was
  }

  lemma SlotNext(u: Tables, e: Event, i: ItemId)
    requires Apply(u, e).Ok?
    ensures var was := SlotAt(u, i);
            SlotAt(Apply(u, e).value, i) ==
              if e.payload.ItemStarted? && e.payload.item == i then Some(Slot(e.num, e.thread))
              else if was == None then None
              else if e.payload.ThreadRewound? && Cuts(was.value, e, SlotAt(u, e.payload.item)) then None
              else if Removes(e, was.value.thread, ThreadAt(u, was.value.thread)) then None
              else was
  {
    if Aside(e.payload) {
      assert Apply(u, e).value.items == u.items;
    } else if e.payload.Catalog? {
      RemovedSlot(u, e, i);
    }
  }

  lemma RemovedSlot(u: Tables, e: Event, i: ItemId)
    requires e.payload.Catalog? && e.payload.catalog.ProjectRemoved?
    ensures SlotAt(Apply(u, e).value, i) ==
      if SlotAt(u, i).Some? && Removes(e, SlotAt(u, i).value.thread, ThreadAt(u, SlotAt(u, i).value.thread)) then None
      else SlotAt(u, i)
  {
  }

  /** An item is in the tables exactly if it was started and nothing took it away since; it has that start's number. */
  lemma {:induction false} ItemsHold(t: Tables, log: seq<Event>, i: ItemId)
    requires Run(t, log).Ok?
    ensures SlotAt(Run(t, log).value, i) == SlotOf(t, log, i)
    decreases |log|
  {
    if log != [] {
      var n := |log| - 1;
      RunLast(t, log);
      var u := Run(t, log[..n]).value;
      ItemsHold(t, log[..n], i);
      if log[n].payload.ThreadRewound? { ItemsHold(t, log[..n], log[n].payload.item); }
      if i in u.items { ThreadsHold(t, log[..n], u.items[i].head.thread); }
      SlotNext(u, log[n], i);
    }
  }

  /** Every item of that number is still there. */
  ghost predicate NoneWent(t: Tables, u: Tables, r: nat) {
    forall i :: i in t.items && t.items[i].head.rowid == r ==> i in u.items
  }

  /**
   * A rewind to an item of the tables takes away, of its thread, that item and what was started after it, and nothing
   * else; their index rows go with them, and no others.
   */
  lemma RewindTakes(t: Tables, e: Event)
    requires e.payload.ThreadRewound? && e.payload.item in t.items
    ensures Apply(t, e).Ok?
    ensures var u, cut := Apply(t, e).value, t.items[e.payload.item].head.rowid;
      && (forall i :: i in u.items <==>
            i in t.items && (t.items[i].head.thread != e.thread || t.items[i].head.rowid < cut))
      && (forall i :: i in u.items ==> u.items[i] == t.items[i])
      && (forall r :: r in u.index <==> r in t.index && NoneWent(t, u, r))
      && (forall r :: r in u.index ==> u.index[r] == t.index[r])
  {
    var u := Apply(t, e).value;
    var cut := t.items[e.payload.item].head.rowid;
    forall r ensures r in u.index <==> r in t.index && NoneWent(t, u, r) {
      if r in t.index && r !in u.index {
        var i :| i in t.items && t.items[i].head.thread == e.thread && t.items[i].head.rowid >= cut
                 && t.items[i].head.rowid == r;
        assert i !in u.items;
      }
    }
  }

  /** A rewind to an item that is not there takes nothing. */
  lemma RewindNowhere(t: Tables, e: Event)
    requires e.payload.ThreadRewound? && e.payload.item !in t.items
    ensures Apply(t, e).Ok? && Apply(t, e).value.items == t.items && Apply(t, e).value.index == t.index
  {
  }

  // ---- What an item holds ----

  /** A column's text: the body it was completed with last, or started with, and then its deltas. */
  function ColumnText(t: Tables, log: seq<Event>, i: ItemId, col: Column): string {
    if log == [] then (if i !in t.items then "" else if col == Body then t.items[i].body else t.items[i].output)
    else
      var e := log[|log| - 1];
      var was := ColumnText(t, log[..|log| - 1], i, col);
      match e.payload
      case ItemStarted(id, _, _, _, _, body, _) => if id != i then was else if col == Body then body else ""
      case ItemDelta(id, field, text) => if id == i && ColumnOf(field) == col then was + text else was
      case ItemCompleted(id, _, body, _) => if id == i && col == Body && body != "" then body else was
      case _ => was
  }

  /** Its status: the one it was completed with last, if any, or started with. */
  function ItemState(t: Tables, log: seq<Event>, i: ItemId): ItemStatus {
    if log == [] then (if i in t.items then t.items[i].head.status else Plain)
    else
      var e := log[|log| - 1];
      match e.payload
      case ItemStarted(id, _, _, _, state, _, _) => if id == i then state else ItemState(t, log[..|log| - 1], i)
      case ItemCompleted(id, state, _, _) =>
        if id == i && state != Plain then state else ItemState(t, log[..|log| - 1], i)
      case _ => ItemState(t, log[..|log| - 1], i)
  }

  /** What was said of it last; nothing is an empty object. */
  function ItemMeta(t: Tables, log: seq<Event>, i: ItemId): string {
    if log == [] then (if i in t.items then t.items[i].head.meta else "")
    else
      var e := log[|log| - 1];
      match e.payload
      case ItemStarted(id, _, _, _, _, _, meta) =>
        if id == i then (if meta == "" then "{}" else meta) else ItemMeta(t, log[..|log| - 1], i)
      case ItemCompleted(id, _, _, meta) => if id == i && meta != "" then meta else ItemMeta(t, log[..|log| - 1], i)
      case _ => ItemMeta(t, log[..|log| - 1], i)
  }

  /** Whose it is: its kind, its tool's name and when it was started. */
  function ItemOrigin(t: Tables, log: seq<Event>, i: ItemId): (Kind, string, int) {
    if log == [] then
      if i in t.items then (t.items[i].head.kind, t.items[i].head.tool, t.items[i].head.created) else (System, "", 0)
    else
      var e := log[|log| - 1];
      match e.payload
      case ItemStarted(id, _, kind, tool, _, _, _) =>
        if id == i then (kind, tool, e.at) else ItemOrigin(t, log[..|log| - 1], i)
      case _ => ItemOrigin(t, log[..|log| - 1], i)
  }

  /** An event leaves an item that survives it as it was, unless it is about it. */
  lemma ItemNext(u: Tables, e: Event, i: ItemId)
    requires Apply(u, e).Ok? && i in Apply(u, e).value.items
    ensures var v := Apply(u, e).value;
      match e.payload
      case ItemStarted(id, _, kind, tool, state, body, meta) =>
        if id == i
        then v.items[i] == Item(Head(e.thread, e.num, kind, tool, state, if meta == "" then "{}" else meta, e.at),
                                body, "", e.at)
        else i in u.items && v.items[i] == u.items[i]
      case ItemDelta(id, field, text) =>
        i in u.items && v.items[i] == if id != i then u.items[i]
          else if ColumnOf(field) == Output then u.items[i].(output := u.items[i].output + text, updated := e.at)
          else u.items[i].(body := u.items[i].body + text, updated := e.at)
      case ItemCompleted(id, state, body, meta) =>
        i in u.items && v.items[i] == if id != i then u.items[i]
          else Item(u.items[i].head.(status := if state == Plain then u.items[i].head.status else state,
                                     meta := if meta == "" then u.items[i].head.meta else meta),
                    if body == "" then u.items[i].body else body, u.items[i].output, e.at)
      case _ => i in u.items && v.items[i] == u.items[i]
  {
    if Aside(e.payload) { assert Apply(u, e).value.items == u.items; }
  }

  /** An item that is there holds what the events about it say, in order. */
  lemma {:induction false} ItemsRead(t: Tables, log: seq<Event>, i: ItemId)
    requires Run(t, log).Ok? && i in Run(t, log).value.items
    ensures var row := Run(t, log).value.items[i];
      && row.body == ColumnText(t, log, i, Body) && row.output == ColumnText(t, log, i, Output)
      && row.head.status == ItemState(t, log, i) && row.head.meta == ItemMeta(t, log, i)
      && (row.head.kind, row.head.tool, row.head.created) == ItemOrigin(t, log, i)
  {
    if log != [] {
      var n := |log| - 1;
      RunLast(t, log);
      ItemNext(Run(t, log[..n]).value, log[n], i);
      if i in Run(t, log[..n]).value.items { ItemsRead(t, log[..n], i); }
    }
  }

  // ---- The queue ----

  function QueuedAt(t: Tables, q: Id): Option<Queued> {
    if q in t.ledger.queue then Some(t.ledger.queue[q]) else None
  }

  /** The prompt as it was queued, if neither it left the queue nor its thread went since. */
  function QueuedOf(t: Tables, log: seq<Event>, q: Id): Option<Queued> {
    if log == [] then QueuedAt(t, q)
    else
      var init, e := log[..|log| - 1], log[|log| - 1];
      var was := QueuedOf(t, init, q);
      if e.payload.Queue? && e.payload.queue.PromptQueued? && e.payload.queue.prompt == q
      then Some(Queued(e.thread, e.num, e.payload.queue.body, e.at))
      else if was == None then None
      else if e.payload.Queue? && e.payload.queue == PromptDequeued(q) && was.value.thread == e.thread then None
      else if Removes(e, was.value.thread, ProjectOf(t, init, was.value.thread)) then None
      else was
  }

  lemma QueueAside(u: Tables, e: Event)
    requires Aside(e.payload) && !e.payload.Queue? && Apply(u, e).Ok?
    ensures Apply(u, e).value.ledger.queue == u.ledger.queue
  {
    if e.payload.Consent? {
      assert Consented(u.ledger, e.thread, e.payload.consent, e.at).value.queue == u.ledger.queue;
    }
  }

  lemma QueueRemoval(u: Tables, e: Event, q: Id)
    requires e.payload.Catalog? && e.payload.catalog.ProjectRemoved?
    ensures var was := QueuedAt(u, q);
            QueuedAt(Apply(u, e).value, q) ==
              if was.Some? && Removes(e, was.value.thread, ThreadAt(u, was.value.thread)) then None else was
  {
  }

  lemma QueueNext(u: Tables, e: Event, q: Id)
    requires Apply(u, e).Ok?
    ensures var was := QueuedAt(u, q);
            QueuedAt(Apply(u, e).value, q) ==
              if e.payload.Queue? && e.payload.queue.PromptQueued? && e.payload.queue.prompt == q
              then Some(Queued(e.thread, e.num, e.payload.queue.body, e.at))
              else if was == None then None
              else if e.payload.Queue? && e.payload.queue == PromptDequeued(q) && was.value.thread == e.thread then None
              else if Removes(e, was.value.thread, ThreadAt(u, was.value.thread)) then None
              else was
  {
    if e.payload.Queue? { return; }
    if Aside(e.payload) { QueueAside(u, e); } else if e.payload.Catalog? { QueueRemoval(u, e, q); }
  }

  /** The queue holds what was queued and not taken out since, as it was queued. */
  lemma {:induction false} QueueHolds(t: Tables, log: seq<Event>, q: Id)
    requires Run(t, log).Ok?
    ensures QueuedAt(Run(t, log).value, q) == QueuedOf(t, log, q)
  {
    if log != [] {
      var n := |log| - 1;
      RunLast(t, log);
      var u := Run(t, log[..n]).value;
      QueueHolds(t, log[..n], q);
      if q in u.ledger.queue { ThreadsHold(t, log[..n], u.ledger.queue[q].thread); }
      QueueNext(u, log[n], q);
    }
  }

  // ---- Approvals, and the rules they leave ----

  function ApprovalAt(t: Tables, thread: Id, a: Id): Option<Approval> {
    if (thread, a) in t.ledger.approvals then Some(t.ledger.approvals[(thread, a)]) else None
  }

  /** What an event of the thread makes of an approval: a request opens it anew, an answer decides it. */
  function Decided(was: Option<Approval>, c: ApprovalChange, a: Id, at: int): Option<Approval> {
    match c
    case ApprovalRequested(id, about, tool, description, input) =>
      if id == a then Some(Approval(about, tool, description, input, Undecided, at, None)) else was
    case ApprovalResolved(id, decision, _) =>
      if id == a && was.Some? then Some(was.value.(decision := decision, resolved := Some(at))) else was
    case RuleRevoked(_) => was
  }

  function ApprovalOf(t: Tables, log: seq<Event>, thread: Id, a: Id): Option<Approval> {
    if log == [] then ApprovalAt(t, thread, a)
    else
      var init, e := log[..|log| - 1], log[|log| - 1];
      var was := ApprovalOf(t, init, thread, a);
      if e.payload.Consent? && e.thread == thread then Decided(was, e.payload.consent, a, e.at)
      else if Removes(e, thread, ProjectOf(t, init, thread)) then None
      else was
  }

  function EntryAt(m: map<(Id, Id), Approval>, key: (Id, Id)): Option<Approval> {
    if key in m then Some(m[key]) else None
  }

  lemma ConsentNext(l: Ledger, owner: Id, c: ApprovalChange, at: int, thread: Id, a: Id)
    requires Consented(l, owner, c, at).Ok?
    ensures EntryAt(Consented(l, owner, c, at).value.approvals, (thread, a)) ==
            if owner == thread then Decided(EntryAt(l.approvals, (thread, a)), c, a, at)
            else EntryAt(l.approvals, (thread, a))
  {
  }

  lemma ApprovalNext(u: Tables, e: Event, thread: Id, a: Id)
    requires Apply(u, e).Ok?
    ensures ApprovalAt(Apply(u, e).value, thread, a) ==
            var was := ApprovalAt(u, thread, a);
            if e.payload.Consent? && e.thread == thread then Decided(was, e.payload.consent, a, e.at)
            else if Removes(e, thread, ThreadAt(u, thread)) then None
            else was
  {
    if e.payload.Consent? {
      ConsentNext(u.ledger, e.thread, e.payload.consent, e.at, thread, a);
    } else if Aside(e.payload) {
      assert Apply(u, e).value.ledger.approvals == u.ledger.approvals;
    }
  }

  /** An approval is as it was asked for last and decided since; undecided exactly if no answer has come. */
  lemma {:induction false} ApprovalsHold(t: Tables, log: seq<Event>, thread: Id, a: Id)
    requires Run(t, log).Ok?
    ensures ApprovalAt(Run(t, log).value, thread, a) == ApprovalOf(t, log, thread, a)
  {
    if log != [] {
      var n := |log| - 1;
      RunLast(t, log);
      ApprovalsHold(t, log[..n], thread, a);
      ThreadsHold(t, log[..n], thread);
      ApprovalNext(Run(t, log[..n]).value, log[n], thread, a);
    }
  }

  function RuleAt(t: Tables, thread: Id, key: string): Option<int> {
    if (thread, key) in t.ledger.rules then Some(t.ledger.rules[(thread, key)]) else None
  }

  /** The event answers the approval for the rest of the session. */
  predicate Lasting(e: Event, thread: Id, a: Option<Approval>, key: string) {
    && e.payload.Consent? && e.thread == thread && e.payload.consent.ApprovalResolved?
    && e.payload.consent.decision == AllowSession && !e.payload.consent.auto
    && a.Some? && RuleKey(a.value.tool, a.value.input) == key
  }

  /** Since when the rule is in force: a lasting answer to a request it covers, not revoked since. */
  function RuleOf(t: Tables, log: seq<Event>, thread: Id, key: string): Option<int> {
    if log == [] then RuleAt(t, thread, key)
    else
      var init, e := log[..|log| - 1], log[|log| - 1];
      var was := RuleOf(t, init, thread, key);
      if e.payload.Consent? && e.payload.consent.ApprovalResolved?
         && Lasting(e, thread, ApprovalOf(t, init, thread, e.payload.consent.approval), key)
      then if was.Some? then was else Some(e.at)
      else if e.payload == Consent(RuleRevoked(key)) && e.thread == thread then None
      else if Removes(e, thread, ProjectOf(t, init, thread)) then None
      else was
  }

  lemma RuleNext(u: Tables, e: Event, thread: Id, key: string)
    requires Apply(u, e).Ok?
    ensures var was := RuleAt(u, thread, key);
            RuleAt(Apply(u, e).value, thread, key) ==
              if e.payload.Consent? && e.payload.consent.ApprovalResolved?
                 && Lasting(e, thread, ApprovalAt(u, thread, e.payload.consent.approval), key)
              then if was.Some? then was else Some(e.at)
              else if e.payload == Consent(RuleRevoked(key)) && e.thread == thread then None
              else if Removes(e, thread, ThreadAt(u, thread)) then None
              else was
  {
    if e.payload.Consent? {
      RuleConsent(u.ledger, e.thread, e.payload.consent, e.at, thread, key);
    } else if Aside(e.payload) {
      assert Apply(u, e).value.ledger.rules == u.ledger.rules;
    }
  }

  lemma RuleConsent(l: Ledger, owner: Id, c: ApprovalChange, at: int, thread: Id, key: string)
    requires Consented(l, owner, c, at).Ok?
    ensures var now := Consented(l, owner, c, at).value.rules;
            var given := c.ApprovalResolved? && c.decision == AllowSession && !c.auto && owner == thread
              && (owner, c.approval) in l.approvals
              && RuleKey(l.approvals[(owner, c.approval)].tool, l.approvals[(owner, c.approval)].input) == key;
      && ((thread, key) in now <==>
            given || ((thread, key) in l.rules && !(c == RuleRevoked(key) && owner == thread)))
      && ((thread, key) in now ==>
            now[(thread, key)] == if (thread, key) in l.rules then l.rules[(thread, key)] else at)
  {
  }

  /** A rule is in force exactly if a lasting answer gave it and nothing took it away since. */
  lemma {:induction false} RulesHold(t: Tables, log: seq<Event>, thread: Id, key: string)
    requires Run(t, log).Ok?
    ensures RuleAt(Run(t, log).value, thread, key) == RuleOf(t, log, thread, key)
  {
    if log != [] {
      var n := |log| - 1;
      var e := log[n];
      RunLast(t, log);
      RulesHold(t, log[..n], thread, key);
      ThreadsHold(t, log[..n], thread);
      if e.payload.Consent? && e.payload.consent.ApprovalResolved? {
        ApprovalsHold(t, log[..n], thread, e.payload.consent.approval);
      }
      RuleNext(Run(t, log[..n]).value, e, thread, key);
    }
  }

  // ---- Projects ----

  function ProjectAt(t: Tables, q: Id): Option<Project> {
    if q in t.ledger.projects then Some(t.ledger.projects[q]) else None
  }

  /** No project has the path. */
  ghost predicate PathFree(u: Tables, path: string) {
    forall q :: q in u.ledger.projects ==> u.ledger.projects[q].path != path
  }

  /** A project is as it was added, under a path no other had, with the settings it was given last. */
  lemma ProjectNext(u: Tables, e: Event, q: Id)
    requires Apply(u, e).Ok?
    ensures var was := ProjectAt(u, q);
            ProjectAt(Apply(u, e).value, q) ==
              match e.payload
              case Catalog(ProjectAdded(id, path, name)) =>
                if id == q && was == None && PathFree(u, path)
                then Some(Project(path, name, e.at, false, Settings("", "", "", ""), "")) else was
              case Catalog(ProjectSettingsChanged(id, worktrees, defaults, cleanup)) =>
                if id == q && was.Some?
                then Some(was.value.(worktrees := worktrees, defaults := defaults, cleanup := cleanup)) else was
              case Catalog(ProjectRemoved(id)) => if id == q then None else was
              case _ => was
  {
    if e.payload.Consent? {
      assert Consented(u.ledger, e.thread, e.payload.consent, e.at).value.projects == u.ledger.projects;
    }
  }

  predicate AtPath(row: Option<Project>, path: string) {
    row.Some? && row.value.path == path
  }

  /** The project as it was added and set since, unless it was removed. */
  ghost function ProjectRow(t: Tables, log: seq<Event>, q: Id): Option<Project>
    decreases |log|
  {
    if log == [] then ProjectAt(t, q)
    else
      var init, e := log[..|log| - 1], log[|log| - 1];
      var was := ProjectRow(t, init, q);
      match e.payload
      case Catalog(ProjectAdded(id, path, name)) =>
        if id == q && was == None && forall r: Id :: !AtPath(ProjectRow(t, init, r), path)
        then Some(Project(path, name, e.at, false, Settings("", "", "", ""), "")) else was
      case Catalog(ProjectSettingsChanged(id, worktrees, defaults, cleanup)) =>
        if id == q && was.Some?
        then Some(was.value.(worktrees := worktrees, defaults := defaults, cleanup := cleanup)) else was
      case Catalog(ProjectRemoved(id)) => if id == q then None else was
      case _ => was
  }

  lemma PathsTold(u: Tables, path: string)
    ensures PathFree(u, path) <==> forall r: Id :: !AtPath(ProjectAt(u, r), path)
  {
    if !PathFree(u, path) {
      var q :| q in u.ledger.projects && u.ledger.projects[q].path == path;
      assert AtPath(ProjectAt(u, q), path);
    }
    if r: Id :| AtPath(ProjectAt(u, r), path) { assert r in u.ledger.projects; }
  }

  /** Every project is as it was added, under a path no other had, and set since. */
  lemma {:induction false} ProjectsHold(t: Tables, log: seq<Event>, q: Id)
    requires Run(t, log).Ok?
    ensures ProjectAt(Run(t, log).value, q) == ProjectRow(t, log, q)
    decreases |log|
  {
    if log != [] {
      var n := |log| - 1;
      RunLast(t, log);
      var u := Run(t, log[..n]).value;
      forall r: Id ensures ProjectAt(u, r) == ProjectRow(t, log[..n], r) { ProjectsHold(t, log[..n], r); }
      if log[n].payload.Catalog? && log[n].payload.catalog.ProjectAdded? {
        PathsTold(u, log[n].payload.catalog.path);
      }
      ProjectNext(u, log[n], q);
    }
  }

  // ---- Which logs replay ----

  /** The keys that an event needs are there, and one that must be new is. */
  ghost predicate Fits(t: Tables, log: seq<Event>, e: Event) {
    match e.payload
    case ItemStarted(_, _, _, _, _, _, _) => ProjectOf(t, log, e.thread).Some?
    case Queue(PromptQueued(id, _)) => ProjectOf(t, log, e.thread).Some? && QueuedOf(t, log, id) == None
    case Consent(ApprovalRequested(_, _, _, _, _)) => ProjectOf(t, log, e.thread).Some?
    case Consent(ApprovalResolved(id, decision, auto)) =>
      decision == AllowSession && !auto ==> ApprovalOf(t, log, e.thread, id).Some?
    case Catalog(ThreadCreated(id, project, _, _, _)) =>
      ProjectOf(t, log, id).Some? || ProjectRow(t, log, project).Some?
    case _ => true
  }

  predicate FitsNow(u: Tables, e: Event) {
    match e.payload
    case ItemStarted(_, _, _, _, _, _, _) => ThreadAt(u, e.thread).Some?
    case Queue(PromptQueued(id, _)) => ThreadAt(u, e.thread).Some? && QueuedAt(u, id) == None
    case Consent(ApprovalRequested(_, _, _, _, _)) => ThreadAt(u, e.thread).Some?
    case Consent(ApprovalResolved(id, decision, auto)) =>
      decision == AllowSession && !auto ==> ApprovalAt(u, e.thread, id).Some?
    case Catalog(ThreadCreated(id, project, _, _, _)) => ThreadAt(u, id).Some? || ProjectAt(u, project).Some?
    case _ => true
  }

  lemma AppliesExactly(u: Tables, e: Event)
    ensures Apply(u, e).Ok? <==> FitsNow(u, e)
  {
  }

  lemma FitsTold(t: Tables, log: seq<Event>, e: Event)
    requires Run(t, log).Ok?
    ensures FitsNow(Run(t, log).value, e) <==> Fits(t, log, e)
  {
    ThreadsHold(t, log, e.thread);
    match e.payload
    case Queue(q) => QueueHolds(t, log, q.prompt);
    case Consent(c) => if c.ApprovalResolved? { ApprovalsHold(t, log, e.thread, c.approval); }
    case Catalog(c) =>
      if c.ThreadCreated? {
        ThreadsHold(t, log, c.thread);
        ProjectsHold(t, log, c.project);
      }
    case _ =>
  }

  /** A log replays exactly if every event of it fits what the events before it say. */
  lemma {:induction false} ReplaysExactly(t: Tables, log: seq<Event>)
    ensures Run(t, log).Ok? <==> forall k :: 0 <= k < |log| ==> Fits(t, log[..k], log[k])
  {
    if log != [] {
      var n := |log| - 1;
      RunLast(t, log);
      ReplaysExactly(t, log[..n]);
      forall k | 0 <= k < n ensures log[..n][..k] == log[..k] && log[..n][k] == log[k] {}
      if Run(t, log[..n]).Ok? {
        AppliesExactly(Run(t, log[..n]).value, log[n]);
        FitsTold(t, log[..n], log[n]);
      }
    }
  }

  // ---- What the index holds of an item ----

  /**
   * The index row of an item: a prompt or a reply with text is indexed when it starts, a reply only if it is not
   * streamed, and again whenever it is completed, as its text then stands.
   */
  function IndexedAs(log: seq<Event>, i: ItemId): Option<SearchEntry> {
    if log == [] then None
    else
      var init, e := log[..|log| - 1], log[|log| - 1];
      match e.payload
      case ItemStarted(id, _, kind, _, state, body, _) =>
        if id != i then IndexedAs(init, i)
        else if body != "" && (kind == User || (kind == Assistant && state != Ongoing && state != Pending))
        then Some(SearchEntry(e.thread, body)) else None
      case ItemCompleted(id, _, _, _) =>
        var text, slot, kind := ColumnText(EMPTY, log, i, Body), SlotOf(EMPTY, init, i), ItemOrigin(EMPTY, init, i).0;
        if id != i then IndexedAs(init, i)
        else if slot.Some? && text != "" && (kind == User || kind == Assistant)
        then Some(SearchEntry(slot.value.thread, text)) else None
      case _ => IndexedAs(init, i)
  }

  datatype SearchEntry = SearchEntry(thread: Id, text: string)

  /** The row at the item's own number. */
  function EntryOf(t: Tables, i: ItemId): Option<IndexRow>
    requires i in t.items
  {
    if t.items[i].head.rowid in t.index then Some(t.index[t.items[i].head.rowid]) else None
  }

  ghost predicate Listed(t: Tables, i: ItemId, entry: Option<SearchEntry>)
    requires i in t.items
  {
    match entry
    case None => EntryOf(t, i) == None
    case Some(SearchEntry(thread, text)) => EntryOf(t, i) == Some(IndexRow(i, thread, text))
  }

  lemma StartListed(u: Tables, e: Event, next: nat, i: ItemId)
    requires SearchIndex.Kept(u, next) && e.num >= next && Apply(u, e).Ok?
    requires e.payload.ItemStarted? && e.payload.item == i
    ensures i in Apply(u, e).value.items
    ensures var p := e.payload;
            var whole := p.state != Ongoing && p.state != Pending;
            Listed(Apply(u, e).value, i, if p.body != "" && (p.kind == User || (p.kind == Assistant && whole))
                                         then Some(SearchEntry(e.thread, p.body)) else None)
  {
  }

  lemma EndListed(u: Tables, e: Event, next: nat, i: ItemId)
    requires SearchIndex.Kept(u, next) && e.num >= next && i in u.items
    requires e.payload.ItemCompleted? && e.payload.item == i
    ensures var v := Apply(u, e).value;
      && i in v.items && v.items[i].head.kind == u.items[i].head.kind
      && v.items[i].head.thread == u.items[i].head.thread
      && Listed(v, i, if v.items[i].body != "" && (v.items[i].head.kind == User || v.items[i].head.kind == Assistant)
                      then Some(SearchEntry(v.items[i].head.thread, v.items[i].body)) else None)
  {
  }

  lemma OtherListed(u: Tables, e: Event, next: nat, i: ItemId)
    requires SearchIndex.Kept(u, next) && e.num >= next && Apply(u, e).Ok? && i in Apply(u, e).value.items
    requires (e.payload.ItemStarted? || e.payload.ItemCompleted?) ==> e.payload.item != i
    ensures i in u.items && EntryOf(Apply(u, e).value, i) == EntryOf(u, i)
  {
    if Aside(e.payload) { assert Apply(u, e).value.items == u.items && Apply(u, e).value.index == u.index; }
  }

  /** An item that is there is found, at its own number, as the log says, and otherwise not there. */
  lemma {:induction false} IndexHolds(log: seq<Event>, i: ItemId)
    requires Ascending(log) && Replayed(log).Ok? && i in Replayed(log).value.items
    ensures Listed(Replayed(log).value, i, IndexedAs(log, i))
  {
    if log != [] {
      var n := |log| - 1;
      var init, e := log[..n], log[n];
      SearchIndex.Snoc(log);
      SearchIndex.RowidsKept(init);
      var u, next := Replayed(init).value, SearchIndex.After(init);
      if (e.payload.ItemStarted? || e.payload.ItemCompleted?) && e.payload.item == i {
        if e.payload.ItemStarted? {
          StartListed(u, e, next, i);
        } else {
          SearchIndex.Survives(u, e, i);
          EndListed(u, e, next, i);
          ItemsHold(EMPTY, init, i);
          ItemsRead(EMPTY, log, i);
          ItemsRead(EMPTY, init, i);
        }
      } else {
        OtherListed(u, e, next, i);
        IndexHolds(init, i);
      }
    }
  }
}
