/** The event log: what a row of it says, and the small values the rows are made of. */
module Domain {

  type Id = string

  datatype Option<+T> = None | Some(value: T)

  /** A store operation either commits a value or is rolled back. */
  datatype Result<+T> = Ok(value: T) | Fail

  datatype ThreadStatus = Idle | Running | Awaiting | Error

  datatype Kind = User | Assistant | Thinking | Tool | Outcome | Failure | System

  /** `Plain` is the empty status; `Other` covers what an adapter reports verbatim. */
  datatype ItemStatus = Plain | Ongoing | Done | Failed | Declined | Pending | Cancelled | Other(name: string)

  /** Field of a delta as spelled in its payload; every spelling but "output" means the body. */
  datatype Field = Unset | BodyField | OutputField | OtherField(name: string)

  datatype Column = Body | Output

  function ColumnOf(f: Field): Column {
    if f.OutputField? then Output else Body
  }

  /** Item ids are random (`Made`) or derived from an adapter's own ids. */
  datatype ItemId =
    | Made(serial: nat)
    | Message(owner: Id, kind: Kind, name: string)
    | ToolCall(owner: Id, name: string)

  datatype Decision = Undecided | Allow | AllowSession | Deny

  /** A tool input; `words` is the Bash command split at blanks, empty for any other tool. */
  datatype Input = Input(raw: string, words: seq<string>)

  datatype Settings = Settings(agent: string, model: string, effort: string, mode: string)

  /** Projects, and the threads created in them. */
  datatype CatalogChange =
    | ProjectAdded(project: Id, path: string, name: string)
    | ProjectRemoved(project: Id)
    | ProjectSettingsChanged(project: Id, worktrees: bool, defaults: Settings, cleanup: string)
    | ThreadCreated(thread: Id, project: Id, title: string, agent: string, model: string)

  /** Events that update the row of their thread and nothing else. */
  datatype RowChange =
    | ThreadRenamed(title: string)
    | ThreadArchived
    | ThreadUnarchived
    | ThreadSnoozed(until: int)
    | ThreadWoken(auto: bool)
    | ThreadWorktreeSet(path: string, branch: string)
    | ThreadPinned
    | ThreadUnpinned
    | ThreadPRLinked(repo: string, number: int, url: string)
    | ThreadPRUnlinked
    | ThreadSettingsChanged(settings: Settings)
    | AgentSessionBound(session: Id, model: string)
    | ThreadStatusChanged(status: ThreadStatus, detail: string)
    | TurnStarted(turn: Id)
    | TurnCompleted(turn: Id, anchor: string)
    | ContextUsed(tokens: int, window: int)

  datatype QueueChange = PromptQueued(prompt: Id, body: string) | PromptDequeued(prompt: Id)

  datatype ApprovalChange =
    | ApprovalRequested(approval: Id, about: ItemId, tool: string, description: string, input: Input)
    | ApprovalResolved(approval: Id, decision: Decision, auto: bool)
    | RuleRevoked(key: string)

  datatype Payload =
    | ItemStarted(item: ItemId, quiet: bool, kind: Kind, tool: string, state: ItemStatus, body: string, meta: string)
    | ItemDelta(item: ItemId, field: Field, text: string)
    | ItemCompleted(item: ItemId, state: ItemStatus, body: string, meta: string)
    | ThreadRewound(item: ItemId, session: Id, forkAt: string)
    | ThreadDeleted
    | Row(row: RowChange)
    | Catalog(catalog: CatalogChange)
    | Queue(queue: QueueChange)
    | Consent(consent: ApprovalChange)
    | GitChanged

  datatype Event = Event(num: nat, thread: Id, at: int, payload: Payload)

  /** The rule an "allow for session" answer leaves behind. */
  function RuleKey(tool: string, input: Input): string {
    if tool == "Bash" && |input.words| > 0 then "Bash:" + input.words[0] else tool
  }

  /** Rows are numbered upwards, as AUTOINCREMENT guarantees. */
  ghost predicate Ascending(log: seq<Event>) {
    forall i, j :: 0 <= i < j < |log| ==> log[i].num < log[j].num
  }
}
