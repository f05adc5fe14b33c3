/**
 * One thread of the app: its status, prompt queue, approvals and sessions, as steps.
 * HTTP commands, the pumps of its sessions, the idle reaper and crash recovery interleave freely; what starts a turn
 * holds the prompt lock from the look at the registry to the call, and what does not take the lock may come between, as
 * it may between the commit that writes the turn down and the call.
 */
module Protocol {
  import opened Domain

  datatype Prompt = Prompt(id: nat, text: string)

  /** What a session reports, in order; `Closed` is the last report. */
  datatype Report =
    | SessionInfo
    | TurnStarted
    | Streamed
    | Asked(approval: Id, key: string)
    | Completed(failed: bool)
    | Closed(err: bool)

  /**
   * How far a pump is with its session's closing report: it has unregistered the session, then it has read the
   * status and knows which one to write, if any, and then it is done.
   */
  datatype Closing = Serving | Unlisted(err: bool, current: bool) | Ruled(write: Option<ThreadStatus>) | Over

  /**
   * A session. `flying`: a turn was sent and its end is not processed yet. `turn`: the agent is still in that turn.
   * `ending`: the pump holds the turn's end, waits for the prompt lock or hands over to a queued prompt under it.
   */
  datatype Live = Live(config: Settings, stale: bool, idle: bool, flying: bool, turn: bool,
                       ending: Option<bool>, gone: bool, inbox: seq<Report>, closing: Closing)

  /** The thread's projection. `items` counts its transcript, `pending` maps an open approval to its rule key. */
  datatype Thread = Thread(status: ThreadStatus, settings: Settings, bound: bool, items: nat,
                           pending: map<Id, string>, rules: set<string>)

  /** The queue, and what became of every prompt a command accepted. */
  datatype Prompts = Prompts(queue: seq<Prompt>, accepted: seq<Prompt>, dispatched: seq<Prompt>, cancelled: set<nat>)

  /** The sessions since the app came up, and the registered one. */
  datatype Pool = Pool(live: map<nat, Live>, current: Option<nat>, next: nat)

  /** A call of Send or Compact, and how the session and the thread stood when it was made. */
  datatype Call = Call(config: Settings, wanted: Settings, midTurn: bool)

  /**
   * What a turn is started for: a prompt, the oldest queued one after the turn that session `holder` ended, a
   * compaction of the context (`able`: the session has one), or a turn that a restart cut off.
   */
  datatype Task = Ask(text: string) | Next(holder: nat) | Fold(able: bool) | Again

  /**
   * A turn about to start: the session it goes to, if one was found, and the settings a new one gets. `entered`: the
   * turn is written down, as an item and as the status, and only the call is left.
   */
  datatype Starting = Starting(session: Option<nat>, settings: Settings, task: Task, entered: bool)

  /**
   * `starting`: the prompt lock is held for it. `cutOff`: Recover left the thread to ResumeCutOff; `resuming`: that has
   * marked it idle and goes on to start it.
   */
  datatype State = State(thread: Thread, prompts: Prompts, pool: Pool, starting: Option<Starting>,
                         cutOff: bool, resuming: bool, resumes: nat, calls: seq<Call>)

  predicate Locked(s: State) {
    s.starting.Some?
  }

  predicate Busy(t: Thread) {
    t.status == Running || t.status == Awaiting
  }

  function WithStatus(s: State, status: ThreadStatus): State {
    s.(thread := s.thread.(status := status))
  }

  function Noted(t: Thread): Thread {
    t.(items := t.items + 1)
  }

  // ---- Sessions ----

  predicate Registered(p: Pool) {
    p.current.Some? && p.current.value in p.live
  }

  function Put(p: Pool, id: nat, l: Live): Pool {
    p.(live := p.live[id := l])
  }

  /** Close: the session's last report follows whatever it reported before. */
  function Shut(l: Live): Live {
    if l.gone then l else l.(gone := true, turn := false, inbox := l.inbox + [Closed(false)])
  }

  /** retire: close this session, and forget it if it is the registered one. */
  function Retire(p: Pool, id: nat): Pool {
    if id !in p.live then p
    else Put(p.(current := if p.current == Some(id) then None else p.current), id, Shut(p.live[id]))
  }

  /** closeSession: forget the registered session and close it. */
  function CloseSession(p: Pool): Pool {
    if Registered(p) then Retire(p, p.current.value) else p.(current := None)
  }

  function Launch(p: Pool, config: Settings): Pool {
    Pool(p.live[p.next := Live(config, false, false, false, false, None, false, [], Serving)], Some(p.next), p.next + 1)
  }

  /** session: the registered one, unless a setting went stale on it. */
  function Found(p: Pool): Option<nat> {
    if Registered(p) && !p.live[p.current.value].stale then p.current else None
  }

  /** A stale one is retired. */
  function Looked(p: Pool): Pool {
    if Found(p).Some? then p else CloseSession(p)
  }

  /** If none was found a new one starts, unless another was registered meanwhile. */
  function Open(p: Pool, found: Option<nat>, config: Settings, startOk: bool): Pool {
    if found.Some? || Registered(p) || !startOk then p else Launch(p, config)
  }

  /** All of it, when nothing comes between. */
  function Session(p: Pool, config: Settings, startOk: bool): Pool {
    Open(Looked(p), Found(p), config, startOk)
  }

  /** A session that was closed takes no call. */
  predicate Takes(l: Live, sendOk: bool) {
    sendOk && !l.gone
  }

  function Sent(l: Live, sendOk: bool): Live {
    if Takes(l, sendOk) then l.(flying := true, turn := true) else l
  }

  /** startPromptMeta and CompactContext: an item, the running status and no idle stamp. */
  function WrittenDown(s: State, id: nat): State
    requires id in s.pool.live
  {
    s.(thread := Noted(s.thread).(status := Running), pool := Put(s.pool, id, s.pool.live[id].(idle := false)))
  }

  /** Then the call; if it fails, the thread is in error. */
  function Delivered(s: State, id: nat, sendOk: bool): State
    requires id in s.pool.live
  {
    var l := s.pool.live[id];
    s.(thread := if Takes(l, sendOk) then s.thread else s.thread.(status := Error),
       pool := Put(s.pool, id, Sent(l, sendOk)),
       calls := s.calls + [Call(l.config, s.thread.settings, l.flying)])
  }

  /** Both, when nothing comes between. */
  function StartTurn(s: State, id: nat, sendOk: bool): State
    requires id in s.pool.live
  {
    Delivered(WrittenDown(s, id), id, sendOk)
  }

  // ---- The queue ----

  /** The prompts whose id is not in `gone`, in order. */
  function Remaining(prompts: seq<Prompt>, gone: set<nat>): seq<Prompt> {
    if prompts == [] then []
    else (if prompts[0].id in gone then [] else [prompts[0]]) + Remaining(prompts[1..], gone)
  }

  function Enqueue(p: Prompts, added: Prompt): Prompts {
    p.(queue := p.queue + [added], accepted := p.accepted + [added])
  }

  /** The oldest queued prompt moves to the transcript. */
  function Advance(p: Prompts): Prompts
    requires p.queue != []
  {
    p.(queue := p.queue[1..], dispatched := p.dispatched + [p.queue[0]])
  }

  /** A prompt that never waited. */
  function Pass(p: Prompts, added: Prompt): Prompts {
    p.(accepted := p.accepted + [added], dispatched := p.dispatched + [added])
  }

  predicate Waits(p: Prompts, id: nat) {
    exists i :: 0 <= i < |p.queue| && p.queue[i].id == id
  }

  function Withdraw(p: Prompts, id: nat): Prompts {
    p.(queue := Remaining(p.queue, {id}), cancelled := p.cancelled + {id})
  }

  /** startPromptMeta for the oldest queued prompt. */
  function StartQueued(s: State, id: nat, sendOk: bool): State
    requires id in s.pool.live && s.prompts.queue != []
  {
    StartTurn(s.(prompts := Advance(s.prompts)), id, sendOk)
  }

  // ---- Starting a turn ----

  /** Under the lock: the thread's settings are read and the registry is looked up. */
  function Take(s: State, task: Task): State {
    s.(pool := Looked(s.pool), starting := Some(Starting(Found(s.pool), s.thread.settings, task, false)))
  }

  /** The lock is free, and a pump that held it goes on. */
  function Freed(s: State): State
    requires Locked(s)
  {
    var task := s.starting.value.task;
    var pool := if task.Next? && task.holder in s.pool.live
                then Put(s.pool, task.holder, s.pool.live[task.holder].(ending := None)) else s.pool;
    s.(pool := pool, starting := None)
  }

  /** The session the turn goes to. */
  function Chosen(p: Pool, found: Option<nat>): Option<nat> {
    if found.Some? then found else if Registered(p) then p.current else None
  }

  /** There is something to call the session for. */
  predicate Calls(p: Prompts, task: Task) {
    match task
    case Ask(_) => true
    case Next(_) => p.queue != []
    case Fold(able) => able
    case Again => true
  }

  /** A new prompt that finds others waiting goes behind them, and the first of them goes out. */
  function Handed(p: Prompts, task: Task): Prompts
    requires Calls(p, task)
  {
    match task
    case Ask(text) =>
      var added := Prompt(|p.accepted|, text);
      if p.queue != [] then Advance(Enqueue(p, added)) else Pass(p, added)
    case Next(_) => Advance(p)
    case _ => p
  }

  /** No session: a queued prompt puts the thread in error, a resume leaves a warning, a command is refused. */
  function Without(s: State, task: Task): State {
    match task
    case Next(_) => WithStatus(s, Error)
    case Again => s.(thread := Noted(s.thread))
    case _ => s
  }

  predicate Entering(s: State) {
    Locked(s) && !s.starting.value.entered
  }

  /** The session is there, or starts. */
  function Opened(s: State, startOk: bool): State
    requires Locked(s)
  {
    s.(pool := Open(s.pool, s.starting.value.session, s.starting.value.settings, startOk))
  }

  /** Then the turn is written down for session `id`; with nothing to call, or to call for, the lock is free again. */
  function Entry(s: State, id: Option<nat>): (r: State)
    requires Locked(s)
    ensures r.thread.rules == s.thread.rules
  {
    var st := s.starting.value;
    if id == None || id.value !in s.pool.live then Freed(Without(s, st.task))
    else if !Calls(s.prompts, st.task) then Freed(s)
    else
      var started := Some(st.(session := id, entered := true));
      WrittenDown(s.(prompts := Handed(s.prompts, st.task), starting := started), id.value)
  }

  function Enter(s: State, startOk: bool): State
    requires Locked(s)
  {
    var u := Opened(s, startOk);
    Entry(u, Chosen(u.pool, s.starting.value.session))
  }

  predicate Calling(s: State) {
    Locked(s) && s.starting.value.entered && s.starting.value.session.Some?
    && s.starting.value.session.value in s.pool.live
  }

  /** The call, and the lock is free again; a resume that fails leaves a warning. */
  function Deliver(s: State, sendOk: bool): (r: State)
    requires Calling(s)
    ensures r.thread.rules == s.thread.rules
  {
    var st := s.starting.value;
    var f := Freed(s);
    var id := st.session.value;
    var t := Delivered(f, id, sendOk);
    if !st.task.Again? then t
    else t.(resumes := t.resumes + 1, thread := if Takes(f.pool.live[id], sendOk) then t.thread else Noted(t.thread))
  }

  /** All of it, when nothing comes between. */
  function Begin(s: State, startOk: bool, sendOk: bool): State
    requires Locked(s)
  {
    var t := Enter(s, startOk);
    if Calling(t) then Deliver(t, sendOk) else t
  }

  // ---- Commands ----

  /** A busy thread queues the prompt. */
  function SendPrompt(s: State, text: string): State {
    if Busy(s.thread) then s.(prompts := Enqueue(s.prompts, Prompt(|s.prompts.accepted|, text)))
    else Take(s, Ask(text))
  }

  function CancelQueued(s: State, id: nat): State {
    if Waits(s.prompts, id) then s.(prompts := Withdraw(s.prompts, id)) else s
  }

  function CompactContext(s: State, able: bool): State {
    if Busy(s.thread) then s else Take(s, Fold(able))
  }

  /** Interrupt only asks a live session to stop; with none it makes the projection agree. */
  function Interrupt(s: State): State {
    if s.pool.current == None then WithStatus(s, Idle) else s
  }

  function ResolveApproval(s: State, approval: Id, lasting: bool, resolveOk: bool): State {
    if approval !in s.thread.pending || s.pool.current == None || !resolveOk then s
    else
      var t := s.thread;
      s.(thread := t.(pending := t.pending - {approval},
                      rules := if lasting then t.rules + {t.pending[approval]} else t.rules,
                      status := if t.status == Awaiting then Running else t.status))
  }

  function RevokeRule(s: State, key: string): State {
    s.(thread := s.thread.(rules := s.thread.rules - {key}))
  }

  /** What a settings change does to a session mid-turn; `pushed`: it took the new permission mode live. */
  function Adjusted(l: Live, from: Settings, to: Settings, pushed: bool): Live {
    var live := if to.mode != from.mode && pushed then l.(config := l.config.(mode := to.mode)) else l;
    live.(stale := l.stale || (to.mode != from.mode && !pushed) || to.model != from.model || to.effort != from.effort)
  }

  /** The row after a settings change; another agent cannot resume the session. */
  function Resettled(t: Thread, to: Settings): Thread {
    t.(settings := to, bound := t.bound && to.agent == t.settings.agent)
  }

  /** The notes a change mid-turn leaves: one about the mode, one about model and effort. */
  function NotesOn(from: Settings, to: Settings): nat {
    (if to.mode != from.mode then 1 else 0) + (if to.model != from.model || to.effort != from.effort then 1 else 0)
  }

  function SetSettings(s: State, to: Settings, pushed: bool): State {
    var t := s.thread;
    if to.agent != t.settings.agent && t.items > 0 then s
    else if !Busy(t) then s.(thread := Resettled(t, to), pool := CloseSession(s.pool))
    else
      var u := s.(thread := Resettled(t, to).(items := t.items + NotesOn(t.settings, to)));
      if !Registered(s.pool) then u
      else
        var id := s.pool.current.value;
        u.(pool := Put(s.pool, id, Adjusted(s.pool.live[id], t.settings, to, pushed)))
  }

  /** reapIdle, when the session has been idle long enough. */
  function ReapIdle(s: State): State {
    if Registered(s.pool) && s.pool.live[s.pool.current.value].idle && !Busy(s.thread)
    then s.(pool := CloseSession(s.pool))
    else s
  }

  /** Archiving a thread, or a change of its agent's configuration, closes the session of an idle thread. */
  function Shelve(s: State): State {
    if Busy(s.thread) then s else s.(pool := CloseSession(s.pool))
  }

  /** So does a rewind, which also cuts the items and may unbind the agent's session. */
  function CloseWhenIdle(s: State, items: nat, bound: bool): State {
    if Busy(s.thread) then s
    else s.(thread := s.thread.(items := items, bound := bound), pool := CloseSession(s.pool))
  }

  // ---- The pump ----

  predicate CanPump(p: Pool, id: nat) {
    id in p.live && p.live[id].inbox != [] && p.live[id].ending == None && p.live[id].closing == Serving
  }

  /** The pump has the turn's end and gets the lock. */
  predicate CanEnd(s: State, id: nat) {
    id in s.pool.live && s.pool.live[id].ending.Some? && !Locked(s)
  }

  function AskedFor(t: Thread, approval: Id, key: string, resolveOk: bool): Thread {
    if key in t.rules && resolveOk then t.(pending := t.pending - {approval})
    else t.(pending := t.pending[approval := key], status := Awaiting)
  }

  /** The closing report, the last one: the session is unregistered, and a turn it was in is over. */
  function Unlist(s: State, id: nat, err: bool): State
    requires id in s.pool.live
  {
    var current := s.pool.current == Some(id);
    var l := s.pool.live[id].(inbox := [], flying := false, turn := false, gone := true,
                              closing := Unlisted(err, current));
    s.(pool := Put(s.pool.(current := if current then None else s.pool.current), id, l))
  }

  predicate CanJudge(p: Pool, id: nat) {
    id in p.live && p.live[id].closing.Unlisted?
  }

  /** What a closed session makes of the status it finds. */
  function Ruling(status: ThreadStatus, err: bool, current: bool): Option<ThreadStatus> {
    if err then Some(Error)
    else if !current && (status == Running || status == Awaiting) then None
    else if status != Idle then Some(Idle)
    else None
  }

  /** The pump reads the status. */
  function Judge(s: State, id: nat): State
    requires CanJudge(s.pool, id)
  {
    var l := s.pool.live[id];
    s.(pool := Put(s.pool, id, l.(closing := Ruled(Ruling(s.thread.status, l.closing.err, l.closing.current)))))
  }

  predicate CanWrite(p: Pool, id: nat) {
    id in p.live && p.live[id].closing.Ruled?
  }

  function Rewritten(t: Thread, write: Option<ThreadStatus>): Thread {
    match write
    case None => t
    case Some(Error) => Noted(t).(status := Error)
    case Some(status) => t.(status := status)
  }

  /** And writes what it decided, whatever the status is by then. */
  function Write(s: State, id: nat): State
    requires CanWrite(s.pool, id)
  {
    var l := s.pool.live[id];
    var p := s.pool.(current := if s.pool.current == Some(id) then None else s.pool.current);
    s.(pool := Put(p, id, l.(closing := Over)), thread := Rewritten(s.thread, l.closing.write))
  }

  /** The session once its first report is read; the end of a turn stamps it idle. */
  function Read(l: Live): Live
    requires l.inbox != []
  {
    var m := l.(inbox := l.inbox[1..]);
    match l.inbox[0]
    case Completed(failed) => m.(idle := true, ending := Some(failed))
    case _ => m
  }

  function Heard(t: Thread, r: Report, resolveOk: bool): Thread {
    match r
    case SessionInfo => t.(bound := true)
    case TurnStarted => t.(status := Running)
    case Asked(approval, key) => AskedFor(t, approval, key, resolveOk)
    case _ => t
  }

  /** One report of session `id`, up to where the end of a turn takes the prompt lock. */
  function Pump(s: State, id: nat, resolveOk: bool): State
    requires CanPump(s.pool, id)
  {
    var l := s.pool.live[id];
    if l.inbox[0].Closed? then Unlist(s, id, l.inbox[0].err)
    else s.(pool := Put(s.pool, id, Read(l)), thread := Heard(s.thread, l.inbox[0], resolveOk))
  }

  /** A turn's end, committed under the prompt lock; a session that went stale is retired. */
  function Landed(s: State, id: nat): State
    requires id in s.pool.live && s.pool.live[id].ending.Some?
  {
    var l := s.pool.live[id];
    var waits := s.prompts.queue != [];
    var status := if waits then s.thread.status else if l.ending.value then Error else Idle;
    var pool := Put(s.pool, id, l.(flying := false, ending := if waits then l.ending else None));
    s.(thread := Noted(s.thread).(pending := map[], status := status),
       pool := if l.stale then Retire(pool, id) else pool)
  }

  /**
   * The oldest queued prompt is to follow, on this session or, if it went stale, on another; the status waits for it.
   */
  function EndTurn(s: State, id: nat): State
    requires id in s.pool.live && s.pool.live[id].ending.Some?
  {
    var t := Landed(s, id);
    if s.prompts.queue == [] then t
    else if s.pool.live[id].stale then Take(t, Next(id))
    else t.(starting := Some(Starting(Some(id), s.thread.settings, Next(id), false)))
  }

  // ---- The agent ----

  /** What the contract of a session lets the agent report next. */
  predicate Allowed(l: Live, r: Report) {
    !l.gone && l.closing == Serving && (r.TurnStarted? || r.Asked? || r.Completed? ==> l.turn)
  }

  function Reported(l: Live, r: Report): Live {
    l.(inbox := l.inbox + [r], turn := l.turn && !r.Completed? && !r.Closed?, gone := r.Closed?)
  }

  // ---- Restart ----

  predicate CutOff(t: Thread, resume: bool) {
    Busy(t) && resume && t.bound
  }

  /**
   * A crash leaves the projections and nothing else; a busy thread not left to ResumeCutOff goes idle with a note.
   * `resume`: the setting is on and the agent is there.
   */
  function Down(s: State, resume: bool): State {
    var c := s.(pool := Pool(map[], None, s.pool.next), starting := None,
                cutOff := CutOff(s.thread, resume), resuming := false);
    if !c.cutOff && Busy(s.thread) then c.(thread := Noted(s.thread).(pending := map[], status := Idle)) else c
  }

  /** Recover, before any command: a thread that is not cut off starts its oldest queued prompt. */
  function Recover(s: State, resume: bool, startOk: bool, sendOk: bool): State {
    var t := Down(s, resume);
    if t.cutOff || t.prompts.queue == [] then t
    else
      var u := t.(pool := Session(t.pool, t.thread.settings, startOk));
      if Registered(u.pool) then StartQueued(u, u.pool.current.value, sendOk) else u
  }

  /** Recover stops at a queued prompt it could not start, and the app does not come up. */
  predicate RecoverFails(s: State, resume: bool, startOk: bool, sendOk: bool) {
    !CutOff(s.thread, resume) && s.prompts.queue != [] && !(startOk && sendOk)
  }

  /** ResumeCutOff, for a thread Recover left to it: first, without the prompt lock, the thread is marked idle. */
  function MarkIdle(s: State): State {
    s.(thread := Noted(s.thread).(pending := map[], status := Idle), cutOff := false, resuming := true)
  }

  /** Then, under the lock and whatever the status is by then, its turn is started again. */
  function ResumeTurn(s: State): State {
    Take(s.(resuming := false), Again)
  }

  /** All of it, when nothing comes between. */
  function ResumeCutOff(s: State, startOk: bool, sendOk: bool): State {
    if s.cutOff then Begin(ResumeTurn(MarkIdle(s)), startOk, sendOk) else s
  }

  // ---- Steps and runs ----

  datatype Act =
    | Prompted(text: string)
    | Cancel(prompt: nat)
    | Compact(able: bool)
    | Interrupted
    | Answered(approval: Id, lasting: bool, resolveOk: bool)
    | Revoked(key: string)
    | Configured(to: Settings, pushed: bool)
    | Reaped
    | Settled(items: nat, bound: bool)
    | Shelved
    | Reports(session: nat, report: Report)
    | Pumped(session: nat, resolveOk: bool)
    | Judged(session: nat)
    | Written(session: nat)
    | Ended(session: nat)
    | Entered(startOk: bool)
    | Called(sendOk: bool)
    | Restarted(resume: bool, startOk: bool, sendOk: bool)
    | Marked
    | Resumed

  /** These wait for the prompt lock. */
  predicate Waiting(a: Act) {
    a.Prompted? || a.Cancel? || a.Compact? || a.Reaped? || a.Settled? || a.Ended? || a.Resumed?
  }

  /** A step that is not enabled changes nothing. Prompt ids are fresh: the number of prompts accepted before. */
  function Step(s: State, a: Act): State {
    if Waiting(a) && Locked(s) then s else
    match a
    case Prompted(text) => SendPrompt(s, text)
    case Cancel(id) => CancelQueued(s, id)
    case Compact(able) => CompactContext(s, able)
    case Interrupted => Interrupt(s)
    case Answered(approval, lasting, resolveOk) => ResolveApproval(s, approval, lasting, resolveOk)
    case Revoked(key) => RevokeRule(s, key)
    case Configured(to, pushed) => SetSettings(s, to, pushed)
    case Reaped => ReapIdle(s)
    case Settled(items, bound) => CloseWhenIdle(s, items, bound)
    case Shelved => Shelve(s)
    case Reports(id, r) =>
      if id in s.pool.live && Allowed(s.pool.live[id], r)
      then s.(pool := Put(s.pool, id, Reported(s.pool.live[id], r))) else s
    case Pumped(id, resolveOk) => if CanPump(s.pool, id) then Pump(s, id, resolveOk) else s
    case Judged(id) => if CanJudge(s.pool, id) then Judge(s, id) else s
    case Written(id) => if CanWrite(s.pool, id) then Write(s, id) else s
    case Ended(id) => if CanEnd(s, id) then EndTurn(s, id) else s
    case Entered(startOk) => if Entering(s) then Enter(s, startOk) else s
    case Called(sendOk) => if Calling(s) then Deliver(s, sendOk) else s
    case Restarted(resume, startOk, sendOk) => Recover(s, resume, startOk, sendOk)
    case Marked => if s.cutOff then MarkIdle(s) else s
    case Resumed => if s.resuming then ResumeTurn(s) else s
  }

  function Run(s: State, acts: seq<Act>): State {
    if acts == [] then s else Step(Run(s, acts[..|acts| - 1]), acts[|acts| - 1])
  }

  function Init(settings: Settings): State {
    State(Thread(Idle, settings, false, 0, map[], {}), Prompts([], [], [], {}), Pool(map[], None, 0),
          None, false, false, 0, [])
  }
}
