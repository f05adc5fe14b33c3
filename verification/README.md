# A model of starcode's event log, sessions and agent adapters

starcode keeps everything as events in one SQLite log, folds them into projection tables, and runs coding agents behind
sessions. This project models the parts of it whose correctness spans many functions, and proves what they are for.
`dafny verify dfyconfig.toml` checks it all; each file is one module.

| files | what they model |
|---|---|
| `Domain`, `Projection` | events, the tables they fold into, foreign-key cascades, failed constraints |
| `History` | what the tables say of the log: every row stands for the events that made it |
| `Folding`, `Grouping`, `Meaning`, `Exactness`, `Live` | compaction as a function on the log, and what it preserves |
| `EventStore` | the store in place: Append, Replay and Compact over mutable tables, with other writers between its transactions |
| `SearchIndex` | the full-text index against the items |
| `Protocol`, `ProtocolSafety`, `ProtocolHazards`, `PromptQueue`, `Console` | one thread's prompts, sessions, approvals, settings and restart as interleaved steps; in place for one thread and for all |
| `Outcomes`, `Dispatch` | what such a run leaves behind: how turns ended, what the row says, which prompts went out, which sessions are registered, closed or in a turn |
| `Rewind` | the transcript against the agent's own conversation, cut and forked at anchors |
| `Pump` | agent reports to item events; the logs pumps write are those compaction may fold |
| `Rpc`, `Requests`, `CodexTurns` | the codex JSON-RPC client, the answering of server requests in both adapters, and the turns a codex session reports |
| `Claude`, `Titles` | the claude line parser and the incremental transcript reader |
| `Bus`, `Term` | the two fan-outs with bounded buffers |
| `Sequences` | one fact about concatenation |

Where the source works in place, a class with the same fields is proved equal, method by method, to specification
functions, and the theorems are about those functions over all inputs, runs and interleavings.

## What is proved

* **Compaction preserves meaning.** If between two deltas of a group that is compacted the item is not started again, not
  completed (for a body group) and its column is not fed under another spelling, nor, if one thread is compacted, by another
  thread, then replaying the folded log gives the same projects, threads, approvals, queue, rules, index and items, all but
  `updated_at` of items (`Meaning.CompactionKeepsMeaning`). For one group, with any number of deltas, the condition is
  exact: from its first delta to its last one with text, folding it keeps the meaning if and only if nothing between the two
  resets or publishes the column (`Exactness.FoldGroupExactly`). `Live.LiveCompaction` and
  `EventStore.Store.Compact` carry it over to appends that commit before, between and after a run's transactions.
* **The tables say what the log says.** A log replays if and only if every event of it fits what the events before it say
  (`History.ReplaysExactly`). Then a thread, project, queued prompt, approval or rule is there if and only if it was made and
  not taken away since, as it was made and changed (`History.ThreadsHold`, `ProjectsHold`, `QueueHolds`, `ApprovalsHold`,
  `RulesHold`); every column of a thread's row is what its last event about it says (`History.StatusIsLast`, `TitleIsLast`,
  `TimesAreLast`, `SettingsAreLast`, `LinkFolds`, `WindowFolds`); an item is there under the number of its last start unless a
  rewind, its thread or its project took it away, holds its deltas and completions in order, and is indexed as it last
  started or completed (`History.ItemsHold`, `RewindTakes`, `ItemsRead`, `IndexHolds`).
* **The pump feeds compaction.** For agent streams in which no message resumes and no tool call restarts, every log the
  pumps write, among any other events and with a closed session's pump still at work beside its successor's, meets that
  condition, so it compacts without loss (`Pump.AgentLogsCompact`). A message's item holds the concatenation of its deltas;
  it is ongoing while the message is open, and for ever if its session ended in the middle of it (`Pump.MessageItems`),
  which is what the code does. A tool's item holds all that was printed and returned, in order (`Pump.ToolItems`).
* **Sessions.** A run keeps every promise (one turn at a time, no call or idle stamp mid-turn, current settings on
  every call, an approval pending whenever one is awaited) if and only if none of its steps is one of the named hazards
  (`ProtocolSafety.SoundExactly`), and each of them is reached by a run from the start (`ProtocolHazards`). The hazards are
  behaviours of the code:
  * A turn that starts reads the thread's row and looks up the registry, then starts a session and writes the turn and the
    running status down, and then makes the call (`internal/app/app.go:1032`, `1044-1093`, `1272-1317`);
    `SetThreadSettings` takes no prompt lock, so a change that comes in between does not reach the new session or the
    call, and a status written without the lock before the call stands over the turn it starts.
  * A turn's end that leaves an approval unanswered resolves it, and while prompts wait it writes no status
    (`internal/app/app.go:1507-1524`): until the oldest of them has started the thread awaits with nothing pending. This
    needs no race, and `ProtocolSafety.RecoverRestores` says what a crash in that window comes back to.
  * `ResumeCutOff` runs while commands are already served (`main.go:256`) and does not look at the status again
    (`internal/app/app.go:277-308`): it may mark a thread idle in the middle of a turn or, when a prompt comes between its
    two halves, start a turn in the middle of another or close that turn's session if a setting went stale.
  * The pump of a closed session unregisters it, reads the status and writes one in three steps without the prompt lock
    (`internal/app/app.go:1551-1571`), so it may write over the turn of a successor that a prompt started in between, and
    after an error it does so whatever it read.
  * A rule that answers a repeated request id can leave a thread awaiting nothing.
* **Outcomes.** Over any run, hazards or not: when a turn's end is taken up with no prompt waiting, the status is error or
  idle as the session reported of it, and in a run without hazards it is the last end reported
  (`Outcomes.TurnEndsAsReported`, `LastEndCounts`); a closed session's pump writes what its end was, clean or not, and what
  it found (`Outcomes.ClosesAsItDied`); an approval is pending, a setting in force, a session registered, closed, in flight
  or stale, exactly as the steps say (`Outcomes.PendingExactly`, `SettingsExactly`, `Dispatch.RegisteredExactly`,
  `SessionsExactly`).
* **Prompts.** In every run, without hypothesis, each accepted prompt is in exactly one of dispatched, queued or cancelled
  and the first two stand in acceptance order (`PromptQueue.PromptsConserved`); outcomes stand
  (`PromptQueue.OutcomesStand`); what was accepted is what the commands asked, and one goes out for every turn written down
  for a prompt (`Dispatch.AcceptedExactly`); a restart resumes exactly the cut-off threads once and loses or overtakes nothing
  (`PromptQueue.RestartRecovers`, `Console.App.Boot`).
* **Rewind agreement.** Between turns the conversation the next session starts from holds exactly the prompts of the
  transcript, every prompt's record cuts out exactly those before it, and every prompt can be rewound to
  (`Rewind.RewindAgreement`). A turn that ends without an anchor spoils the next record if and only if it carried a prompt
  (`Rewind.AnchorlessTurn`); a turn that is lost, its send refused or its session dead, costs the agreement under the same
  condition, and any rewind restores it (`Rewind.LostTurn`). What a thread resumes or forks was begun by the agent that takes
  it up (`Rewind.ResumesOwn`).
* **Search.** The comment at `internal/store/store.go:372-374` leaves to each delete the search rows of the items it drops;
  `ProjectRemoved` (`internal/store/store.go:361-363`) does not see to them, and every row names a live item if and only if
  no removed project still had indexed items (`SearchIndex.ExactUnlessLeaked`). What is left joins nothing, and every row
  that a search joins is its item's only one, if and only if no event starts an item of which such a row is left
  (`SearchIndex.JoinsExactly`). Where ids are not used again, as random ones are not, a settled item is found under its
  present text and under no other (`SearchIndex.FoundExactly`), though the index keeps what was left
  (`SearchIndex.RemovedProjectLeaks`).
* **Adapters.** Whether the codex session keeps the contract the app relies on (each turn started once and finished once, as
  itself) is decided by the notifications and by when the caller of `Send` reports the turn it was answered: the contract is
  kept if and only if a turn is opened only when none runs, a completion is of the turn that runs, and no error comes after
  a late event has named an ended turn (`CodexTurns.TurnsAlternateExactly`). An error notification followed by the
  completion of the same turn breaks it (`CodexTurns.ErrorThenCompleted`, `internal/agent/codex/session.go:515-642`), and so
  does a completion that the reader handles after the caller has announced its turn and before it has reported it
  (`CodexTurns.ResponseOvertaken`, `internal/agent/codex/session.go:98-111`, `235-250`). What the session emits is what was heard, and its closing event says how it ended
  (`CodexTurns.EmitsAsHeard`, `ClosesAsEnded`). A call returns the one response with its id that came while it was pending, or
  the error if the stream ended then (`Rpc.ReturnsItsResponse`); a request is answered exactly once, when it is refused,
  decided or left at a close that answers (`Requests.AnsweredExactly`), and lost if and only if another with the same approval
  id comes before it is settled (`Requests.LostExactly`). A tool's final input is that of its block in a complete message, or
  the fragments of its streamed block joined, if they parse (`Claude.InputsFromLines`); the claude parser emits each message once, text and thinking in their mutual order, under an
  exact condition (`Claude.EmitsInOrder`), and the incremental transcript reader equals a full scan, whose title is the newest of
  the complete records (`Titles.NewestWins`).
* **Fan-outs.** The bus drops a message only while its flag is set or the buffer is full (`Bus.OfferedExactly`), and marks
  every gap but those in one window, shown exactly and by a run; a terminal subscriber gets one unbroken piece of the output
  and is served exactly as long as it keeps up (`Term.ServedExactly`).

## Model

| member | source | states |
|---|---|---|
| Projection.RunConcat | internal/store/store.go:301-344 | replaying two stretches in turn is replaying them joined, a failed constraint stopping both |
| History.ReplaysExactly | internal/store/store.go:351-556 | a log replays if and only if each event finds the thread, project or approval it needs, as the events before it say, and a queued prompt a free id |
| History.ThreadsHold | internal/store/store.go:358-379 | over any stretch of a log: a thread is there if and only if it was created and neither it nor its project was removed since, in the project it was created in |
| History.CreatedFresh | internal/store/store.go:364-367 | a created thread is idle and empty, with the title, agent and model it was given and nothing to resume |
| History.ProjectsHold | internal/store/store.go:358-415 | a project is there if and only if it was added, under a path no other had, and not removed since, with the settings given last |
| History.StatusIsLast | internal/store/store.go:444-446 | the status and its detail are those of the last status event |
| History.TitleIsLast | internal/store/store.go:368-421 | so are the title and the pin; a thread is archived if the last event to say so archived it, and not if it was brought back or put off |
| History.TimesAreLast | internal/store/store.go:368-500 | when it was settled, brought back and put off, and when it was last in the news: no event moves these but those that should |
| History.SettingsAreLast | internal/store/store.go:410-461 | worktree, pull request, settings and token count are the last given; the model named by the agent the last that was named |
| History.LinkFolds | internal/store/store.go:398-455 | what the next session resumes and where it cuts: set by a bound session, a named anchor and a rewind, and dropped with the agent |
| History.WindowFolds | internal/store/store.go:430-461 | the context window is the last one counted for the model that is set |
| History.ItemsHold | internal/store/store.go:398-500 | an item is there if and only if it was started and since then neither its thread nor its project was removed nor its thread rewound to an item of no higher number; it has the number of its last start |
| History.RewindTakes | internal/store/store.go:398-409 | a rewind to an item takes, of its own thread, that item and those numbered after it, with their index rows, and leaves every other item and index row as it was |
| History.RewindNowhere | internal/store/store.go:398-409 | a rewind to an item that is not there takes none |
| History.ItemsRead | internal/store/store.go:475-528 | an item holds the body it was last started or completed with and the deltas since, its output all output deltas since its start, its status and metadata the last given |
| History.IndexHolds | internal/store/store.go:475-577 | an item that is there has an index row at its number if and only if its last indexing, at a start that is not streamed or at a completion, found it a prompt or reply with text, and it is that text |
| History.QueueHolds | internal/store/store.go:462-474 | the queue holds exactly the prompts queued and neither dequeued in their thread since nor gone with it, as they were queued |
| History.ApprovalsHold | internal/store/store.go:529-548 | an approval is as it was requested last, with the decision of the last answer since; undecided if there was none |
| History.RulesHold | internal/store/store.go:537-551 | a rule is in force since the first lasting answer to a request it covers that was not revoked since |
| Folding.FoldEmbeds | internal/store/store.go:1418-1502 | folding any set of groups keeps the surviving rows in order, with their seq, thread and time, and alters nothing but the text of deltas |
| Folding.FoldAscends | internal/store/store.go:1418-1502 | a folded log is still strictly ascending in seq and invents no row |
| Folding.FoldTwice | internal/store/store.go:1390-1408 | folding two disjoint sets of groups one after the other is folding both at once, so the split into batches does not matter |
| Folding.FoldLength | internal/store/store.go:1493 | the rows removed are the rows picked less one per group |
| Folding.CompactedOnce | internal/store/store.go:1352-1410 | a second compaction of a compacted log changes nothing |
| Meaning.SafeAfterFold | internal/store/store.go:1418-1502 | the condition that makes a fold safe survives the fold, so compaction may be repeated |
| Meaning.Simulate | internal/store/store.go:475-528 | step by step, the folded side is ahead by exactly the text the later rows of met groups still owe, in every item and column |
| Meaning.FoldKeepsMeaning | internal/store/store.go:1418-1502 | any safe fold replays to the same tables from any start, failing exactly when the original fails |
| Meaning.CompactionKeepsMeaning | internal/store/store.go:1352-1410 | replaying a log that is safe for the compacted scope, all threads or one, and its compacted form agree in everything but items' updated_at |
| Exactness.FoldGroupExactly | internal/store/store.go:475-528 | folding a group from its first delta to its last with text, with any number of its deltas and of other events between, keeps the meaning if and only if none of those starts the item, or completes it with a body or into the index |
| Exactness.FoldPairExactly | internal/store/store.go:475-528 | the same for two deltas and nothing of the group between them |
| Live.LiveCompaction | internal/store/store.go:1357-1361 | after any interleaving of appended events and folds of any scopes, the live tables agree with a replay of the log as it then stands |
| Grouping.ListSpec | internal/store/store.go:1367-1388 | the first pass lists every group with more than one row, once, with the seq of its first and last row |
| Grouping.FoldOne | internal/store/store.go:1470-1494 | rewriting a group's first row with its text and deleting its other rows is folding that group |
| Grouping.ListedSuffice | internal/store/store.go:1367-1410 | folding the listed groups folds all of them: a group of one row needs nothing |
| EventStore.Store.constructor | internal/store/store.go:204-220 | a new store mirrors its empty log |
| EventStore.Store.UnindexItem | internal/store/store.go:561-564 | removes the index row at the item's present seq and no other |
| EventStore.Store.IndexItem | internal/store/store.go:569-577 | leaves the item one row with its present text if it is a prompt or reply with text, and none otherwise |
| EventStore.Store.DeleteThreads | internal/store/migrations/001_init.sql:19-48 | deleting threads takes their items, approvals, queued prompts and rules along and nothing else |
| EventStore.Store.ApplyStart | internal/store/store.go:475-500 | a start replaces the item's row and index row |
| EventStore.Store.ApplyRewind | internal/store/store.go:398-409 | the in-place deletes are the rewind of the tables, of which `History.RewindTakes` says what goes: the item and what follows it in its thread, with their index rows; and the session to resume and its fork are set |
| EventStore.Store.ApplyQueue | internal/store/store.go:462-474 | a queued prompt with a used id or no thread fails; a dequeue removes the row of that thread only |
| EventStore.Store.ApplyConsent | internal/store/store.go:529-551 | requests, answers and revoked rules; a lasting answer leaves one rule under the request's rule key |
| EventStore.Store.ApplyCatalog | internal/store/store.go:358-367 | projects and threads are inserted once; a thread needs its project |
| EventStore.Store.ApplyEvent | internal/store/store.go:351-556 | the in-place statements do to the tables what the projection function says, for every kind of event |
| EventStore.StampedExtends | internal/store/store.go:262-298 | what an append writes: a row for each payload, in order, numbered on from the next seq, with the thread and time of the call |
| EventStore.Store.Append | internal/store/store.go:262-298 | all payloads are written under fresh ascending seqs and applied, or nothing changes; tables that mirrored the log still do |
| EventStore.Store.Replay | internal/store/store.go:301-344 | the tables become exactly what the log folds to, or stay if some event fails |
| EventStore.Store.Collect | internal/store/store.go:1423-1468 | one pass over a range piles up each wanted group: first row, joined text, numbers of the others, in order of appearance |
| EventStore.Store.FoldPile | internal/store/store.go:1474-1493 | one update and deletes of at most 500 rows each fold the group |
| EventStore.Store.CompactRange | internal/store/store.go:1418-1502 | the log becomes its fold over the wanted groups in the range, and the count is the rows that went |
| EventStore.Store.Span | internal/store/store.go:1391-1399 | the range of a batch covers every row of its groups |
| EventStore.Store.Compact | internal/store/store.go:1362-1410 | for every batch size and every appends before the first transaction and after each: the log ends as the compacted old log and then what arrived, the count is exact, and a log safe for the scope still mirrors its tables |
| SearchIndex.OrphanStep | internal/store/store.go:351-577 | seqs name one row for ever, and only a project's removal leaves index rows behind, exactly those of its indexed items |
| SearchIndex.RemovesExactly | internal/store/store.go:371-409 | a restart of an item, a rewind and a thread's deletion drop an index row if and only if they drop that version of the item |
| SearchIndex.ExactUnlessLeaked | internal/store/store.go:361-379 | every index row names a live item version if and only if no removed project had indexed items |
| SearchIndex.JoinsExactly | internal/store/store.go:1028-1031 | over any log: at every moment each row a search joins is its item's only one and stands at its rowid, if and only if no event starts an item of which an orphan is left |
| SearchIndex.FoundExactly | internal/store/store.go:475-577 | where no item id is started again after a project's removal, orphans join nothing, and an item whose last event was an indexing start or a completion is found under its present text, if it is a prompt or reply with any, and under no other |
| SearchIndex.RemovedProjectLeaks | internal/store/store.go:361-363 | a log with fresh ids, for any text, after which the removed project's prompt is still in the index |
| ProtocolSafety.PromptKeeps | internal/app/app.go:915-969 | a prompt is queued or takes the lock for a turn, looking up the registry and closing a stale session, and keeps the invariant |
| ProtocolSafety.CompactKeeps | internal/app/app.go:1101-1132 | so does a context compaction of a thread that is not busy |
| ProtocolSafety.EnterKeeps | internal/app/app.go:1044-1087 | the session's start and the commit of the item and the running status keep the invariant unless a new session would get other settings than the thread's present ones |
| ProtocolSafety.EnterBreaks | internal/app/app.go:1272-1317 | and then a session is registered with them |
| ProtocolSafety.DeliverKeeps | internal/app/app.go:1088-1092 | the call keeps it unless the session is in a turn or has not the thread's present settings, or takes the call under a status overwritten since |
| ProtocolSafety.DeliverBreaks | internal/app/app.go:1088-1092 | and then a promise is broken, by the call or by the turn it starts |
| ProtocolSafety.SettingsKeep | internal/app/app.go:761-836 | after a settings change the registered session has the new settings, is stale, or is gone; a turn in flight goes on |
| ProtocolSafety.ClosingKeeps | internal/app/app.go:172-206 | the reaper, archiving, a change of the agent's configuration and rewinding keep the invariant |
| ProtocolSafety.PumpKeeps | internal/app/app.go:1361-1571 | each report of a session keeps the invariant unless it is a hazard; a closing one only unregisters |
| ProtocolSafety.WriteKeeps | internal/app/app.go:1551-1571 | the status that a closed session's pump decided on and writes later keeps the invariant unless a turn is in flight by then |
| ProtocolSafety.EndKeeps | internal/app/app.go:1502-1547 | the commit of a turn's end keeps the invariant unless an approval was left unanswered while prompts wait, and leaves no approval pending and no turn in flight |
| ProtocolSafety.LandedKeeps | internal/app/app.go:1507-1530 | once a turn has ended no approval is pending and no turn is in flight, and its session is retired exactly if it went stale |
| ProtocolSafety.RecoverRestores | internal/app/app.go:217-269 | from whatever a crash leaves, in the window of a turn's end too, recovery has the invariant hold if and only if the thread is not one left to the resume that awaits with nothing pending |
| ProtocolSafety.MarkRestores | internal/app/app.go:280-294 | that thread meets it once the resume has marked it idle |
| ProtocolSafety.RecoverKeeps | internal/app/app.go:217-269 | recovery from a crash of a state that meets the invariant keeps it |
| ProtocolSafety.MarkKeeps | internal/app/app.go:280-294 | marking a cut-off thread idle keeps the invariant unless a turn is in flight |
| ProtocolSafety.ResumeKeeps | internal/app/app.go:295-307 | taking the lock to start its turn again keeps it unless a turn is in flight on a stale session |
| ProtocolSafety.ResumeBreaks | internal/app/app.go:295-307 | a resume that finds a turn in flight on a stale session closes it mid-turn, whatever else holds |
| ProtocolSafety.TurnUninterrupted | internal/app/app.go:172-206 | none of the commands modelled and no other session's report closes or unregisters a session mid-turn |
| ProtocolSafety.SoundExactly | internal/app/app.go:1044-1571 | every state of a run keeps all promises if and only if no step of it is a hazard |
| Outcomes.TurnEndsAsReported | internal/app/app.go:1486-1523 | over any run: when the end of a turn is taken up with no prompt waiting, the status becomes error if the session reported that end as failed, and idle otherwise |
| Outcomes.LastEndCounts | internal/app/app.go:1486-1523 | in a run without hazards that is the last end the session reported |
| Outcomes.ClosesAsItDied | internal/app/app.go:1551-1571 | over any run: the pump of a session that ended writes error, with a note, if and only if the process had died; else it writes idle unless it found the thread idle, or busy under a successor |
| Outcomes.RowNext | internal/app/app.go:761-1571 | what every step leaves in the row: a stop with no session, an answer, a request, a refused call, a queued prompt with no session, an end, a restart and a resume write exactly these statuses, items, settings and approvals |
| Outcomes.PendingExactly | internal/app/app.go:1422-1524 | over any run an approval is pending if and only if it was asked for and since then neither answered, nor let through on a repeat, nor over with its turn |
| Outcomes.SettingsExactly | internal/app/app.go:761-836 | over any run the settings are the last that were accepted; another agent is refused once there is a transcript |
| Outcomes.MarksNext | internal/app/app.go:761-836 | a session goes stale exactly by a change mid-turn that it did not take, and has the mode it took; it is stamped idle by the end of a turn until a turn is written down for it |
| Dispatch.AskIsAsked | internal/app/app.go:915-969 | over any run: what is about to be sent as a new prompt is the text of the command that took the prompt lock, held since |
| Dispatch.TaskNext | internal/app/app.go:915-1547 | what the prompt lock is held for after every step: an idle thread's prompt or compaction, the next queued prompt after a turn, a resume; and when it is free again |
| Dispatch.SessionsExactly | internal/app/app.go:172-1571 | over any run: a session is closed if and only if it ended or the app closed it, stamped idle, outdated, or with an idle thread that was rewound, archived or reconfigured; its turn is in flight from a call it took to the end that is committed; the agent is in it until it completes it or is closed |
| Dispatch.RegisteredExactly | internal/app/app.go:1272-1340 | over any run: the registered session is the last one opened, until it is closed or its last report is read |
| ProtocolHazards.MarkedMidTurn | internal/app/app.go:277-294 | a run from the start in which the resume marks a thread idle in the middle of a turn |
| ProtocolHazards.ResumedMidTurn | internal/app/app.go:295-307 | a run, with no interrupt, in which a prompt comes between the halves of the resume, which then starts a second turn |
| ProtocolHazards.ResumedOverStale | internal/app/app.go:295-307 | a run in which the model is changed then too, and the resume closes the session mid-turn |
| ProtocolHazards.LaunchedWithOld | internal/app/app.go:1272-1317 | a run of three steps in which a setting changes while a prompt's session starts, and the session has the old one |
| ProtocolHazards.CalledWithOld | internal/app/app.go:1077-1088 | a run of four steps in which a setting changes between the commit of the running status and the call, which goes to a session with the old one |
| ProtocolHazards.SentWithOld | internal/app/app.go:1524-1547 | a run in which a setting changes between the commit of a turn's end and the queued prompt's send, which goes out with the old one |
| ProtocolHazards.AwaitingNothing | internal/app/app.go:1507-1524 | a run with no race in which a turn ends with its approval unanswered and a prompt waiting, and the thread awaits with nothing pending |
| ProtocolHazards.ClosedMidTurn | internal/app/app.go:1551-1571 | a run in which a closed session's pump, with an error or without, writes its status over its successor's turn |
| ProtocolHazards.ClosedBeforeCall | internal/app/app.go:1077-1088 | a run in which it writes between the successor's running status and its call |
| ProtocolHazards.RepeatedRequest | internal/app/app.go:1432-1448 | a run in which a rule answers a request with the id of the one awaited, and the thread awaits nothing |
| ProtocolSafety.RulesExactly | internal/store/store.go:537-551 | over any run, restarts included, a session rule is in force if and only if a lasting answer gave it and it was not revoked since |
| ProtocolSafety.RulesAnswer | internal/app/app.go:1432-1448 | after any run, a request the pump reads is answered without asking if and only if a lasting answer in that run gave its rule, none revoked it since and the session takes the answer; otherwise it is pending and the thread awaits it |
| PromptQueue.StepMoves | internal/app/app.go:915-993 | a step queues, dispatches the oldest, passes a prompt straight through when none waits, withdraws one, or leaves the queue alone |
| Dispatch.PromptsNext | internal/app/app.go:915-1093 | the queue after every step: a busy thread's prompt waits behind the others, a turn written down for a prompt lets the oldest out, a withdrawn one leaves, and nothing else moves |
| Dispatch.AcceptedExactly | internal/app/app.go:915-1093 | over any run: the prompts accepted are the texts of the commands that queued one or had a turn written down, in that order, and as many went out as turns were started for prompts |
| PromptQueue.PromptsConserved | internal/app/app.go:915-993 | in every run each accepted prompt is in exactly one of dispatched, queued, cancelled; dispatched and queued ones stand in acceptance order |
| PromptQueue.OutcomesStand | internal/app/app.go:972-993 | a dispatched prompt stays dispatched and a cancelled one is never dispatched, however the run goes on |
| PromptQueue.RestartRecovers | internal/app/app.go:217-308 | whatever a crash leaves comes up idle, in error or truly in a turn, a busy thread with no approval pending; one resume exactly if cut off and started; the queue moves by its oldest prompt or not at all |
| PromptQueue.RecoveryFails | internal/app/app.go:224-267 | recovery stops at a thread if and only if it is not left to the resume, has a prompt waiting, and does not end in a turn |
| Console.ThreadHost.Session | internal/app/app.go:1272-1317 | the registered session is kept unless stale, else a new one with the thread's settings takes its place |
| Console.ThreadHost.CancelQueuedPrompt | internal/app/app.go:972-986 | when the lock is free: finds the prompt exactly if it waits, and withdraws it |
| Console.ThreadHost.EnterTurn | internal/app/app.go:1044-1087 | what holds the lock goes on, in place: session, queue, item and status |
| Console.ThreadHost.CallSession | internal/app/app.go:1088-1092 | the call, and the lock is free |
| Console.ThreadHost.Perform | internal/app/app.go:172-1571 | every handler and every part of the pump, in place, takes its step of the protocol, of which `Outcomes.RowNext`, `Dispatch.PromptsNext` and `Dispatch.SessionsExactly` say what it leaves; a host that keeps the invariant and has every prompt accounted for still does, unless the step is a hazard, which breaks a promise |
| Console.ThreadHost.PerformAll | internal/app/app.go:172-1571 | a whole run in place is the run of the protocol, and leaves the host valid if no step of it was a hazard |
| Console.ThreadHost.ComeUp | internal/app/app.go:224-267 | one thread's share of recovery, and exactly when it fails |
| Console.App.Perform | internal/app/app.go:172-1571 | a step of one thread leaves every other thread as it was |
| Console.App.ReapIdle | internal/app/app.go:172-206 | the sweep, in any order, closes exactly the sessions that are stamped idle on threads not busy |
| Console.App.RecoverEach | internal/app/app.go:223-268 | the loop brings the hosts up one after the other to the first that fails, leaves the rest alone, and lists those cut off, in order |
| Console.App.Recover | internal/app/app.go:217-269 | the threads up to the first failing one are recovered, the others untouched; with none failing all are, and exactly those cut off are listed, once |
| Console.App.ResumeCutOff | internal/app/app.go:277-308 | every listed thread is resumed once and no other is |
| Console.App.Boot | internal/app/app.go:217-308 | a start succeeds if and only if no queued prompt fails to start, and then every thread is as RestartRecovers says |
| Rewind.UpToStays | internal/agent/agent.go:30-34 | a cut at an anchor is not changed by later turns |
| Rewind.MarkNow | internal/app/app.go:1049-1057 | the record a prompt takes names exactly the conversation the next session starts from |
| Rewind.SendKeeps | internal/app/app.go:1044-1093 | sending a prompt keeps the agreement |
| Rewind.EndKeeps | internal/store/store.go:449-455 | a turn's end with a new anchor keeps it |
| Rewind.StartKeeps | internal/app/app.go:1272-1317 | starting fresh, resuming or forking keeps it |
| Rewind.RewindKeeps | internal/app/rewind.go:46-111 | a rewind, successful or refused, keeps it |
| Rewind.RewindAgreement | internal/app/rewind.go:36-111 | over all runs: next conversation and transcript hold the same prompts, each record cuts out the prompts before it, every prompt can be rewound to |
| Rewind.RewindForgets | internal/app/rewind.go:36-45 | after a rewind the transcript is what stood before the prompt, and a note; both sides hold exactly the prompts before it; conversations are not changed and the session is closed |
| Rewind.ResumesOwn | internal/store/store.go:430-437 | over all runs: the session a thread resumes, writes to or can be rewound into was begun by the agent that is set |
| Rewind.WorldNext | internal/app/app.go:1044-1132 | what every step leaves in the transcript, and of the session and its turn |
| Rewind.AnchorlessTurn | internal/store/store.go:449-455 | a turn that ends without an anchor leaves a right record for the next prompt if and only if it carried no prompt |
| Rewind.LostTurn | internal/app/app.go:1088-1092 | a turn lost with its send or its session keeps the agreement and the next record if and only if it carried no prompt; every prompt can still be rewound to, and any rewind restores the invariant |
| Rewind.RewindHeals | internal/app/rewind.go:46-111 | a rewind needs only the records to be right: it brings both sides together even if they had come apart |
| Rewind.Thread.Rewind | internal/app/rewind.go:46-111 | the scan finds the prompt and whether an earlier one exists; it succeeds exactly if the rewind is possible, returns the prompt's text, cuts the transcript there and leaves both sides in agreement; else nothing changes |
| Rewind.Thread.StartPrompt | internal/app/app.go:1044-1079 | the item a prompt leaves can be rewound to: its record cuts out exactly the prompts before it |
| Rewind.Thread.SessionBound | internal/store/store.go:438-443 | a newly bound session ends the pending cut, and the next session still starts from the same conversation |
| Pump.SeenExactly | internal/app/app.go:1473-1485 | for any stream, seenMsgs holds exactly the message said last and not interrupted since, so at most one, and seenTools the calls of the turn |
| Pump.LogKept | internal/app/app.go:1384-1431 | for a well-behaved stream each item is started first, its deltas are one group, and a message is completed only after its last delta |
| Pump.PumpsWriteSafeLogs | internal/app/app.go:1384-1431 | the events of any number of pumps, several to a thread as long as no two write about one item, among any other events, form a log that is safe to compact |
| Pump.AgentLogsCompact | internal/store/store.go:1352-1410 | such a log, whole or one thread's rows, replays the same after compaction |
| Pump.MessageItems | internal/app/app.go:1576-1632 | a message's item holds the concatenation of its deltas, and is ongoing exactly while open or if stranded by its session's end |
| Pump.MessagesShown | internal/store/store.go:475-528 | the projection of the pump's events shows exactly that |
| Pump.ToolItems | internal/app/app.go:1387-1421 | a called tool's item holds all it printed and returned, in order, under the verdict of its last return; a tool never called has none |
| Pump.ToolsShown | internal/store/store.go:475-528 | the projection shows that too |
| Pump.Verdicts | internal/app/app.go:1408-1421 | a plain return is done, one that is done is failed with the error flag, any other status stands |
| Pump.RowsFromReports | internal/app/app.go:1384-1421 | every row is the start, delta or completion of a report, with its text, name, metadata and verdict |
| Pump.Live.CloseMessages | internal/app/app.go:1620-1632 | completes and forgets every message but the kept one, in any order |
| Pump.Live.Delta | internal/app/app.go:1576-1598 | a first delta closes what was open and starts the item, a later one extends it |
| Pump.Live.ToolStarted | internal/app/app.go:1388-1405 | a call closes messages, starts its item once a turn, and updates it only with new input |
| Pump.Live.ToolCompleted | internal/app/app.go:1408-1421 | remaining output, then the verdict from status and error flag |
| Pump.Live.TurnCompleted | internal/app/app.go:1473-1485 | completes what is open and forgets messages and tools |
| Rpc.CallsCompleteOnce | internal/agent/codex/client.go:150-185 | over all interleavings ids name one call each, a channel carries at most one message, a response only reaches the call of its id, and a call returns what it was sent |
| Rpc.ReturnsItsResponse | internal/agent/codex/client.go:176-271 | over all interleavings: a call that got a response got the body of the first and only one with its id that came while it was pending; one that got the error was pending when the stream ended |
| Rpc.OtherOutcomes | internal/agent/codex/client.go:167-180 | a call that returned without either gave up: its write failed or its time ran out while it waited |
| Rpc.ReaderNeverBlocks | internal/agent/codex/client.go:256-271 | whenever the reader is about to send, the channel is empty |
| Rpc.NoneLeftWaiting | internal/agent/codex/client.go:373-408 | after death every waiting call has a message to return, and no call begins |
| Rpc.IdsNeverReused | internal/agent/codex/client.go:155-165 | a new call's id is new, and what a call returned never changes |
| Rpc.Client.StartCall | internal/agent/codex/client.go:150-165 | a call that begins has an id that none had before and waits alone under it; it is refused exactly when the process is gone |
| Rpc.Client.HandleResponse | internal/agent/codex/client.go:256-271 | a response to a pending call puts its own body in that call's channel and in no other, and the call is pending no more; any other changes nothing |
| Rpc.Client.Fail | internal/agent/codex/client.go:373-408 | every pending call gets the error once, in any order, and no other call anything |
| Requests.SettledOnce | internal/agent/codex/session.go:141-183 | each request seen is in exactly one place, answered once, held or dropped, unless another with its approval id came before it was settled, and then it is in none |
| Requests.AnsweredExactly | internal/agent/codex/session.go:141-183 | over any run: a request was answered, once, if and only if it was refused, or was held when it was decided or when a session that answers was first closed; and let go if and only if it was held at the end of a turn or of a process |
| Requests.LostExactly | internal/agent/codex/session.go:646-698 | a request is never answered, held or dropped if and only if another with its approval id comes before an answer, the end of the turn or the close |
| Requests.LostToOtherKind | internal/agent/codex/session.go:778-789 | the request that takes its place has an id of the other JSON kind with the same text |
| Requests.NumberThenString | internal/agent/codex/session.go:778-789 | a run in which the string "1" takes the place of the number 1, which is lost |
| Requests.OneKindLosesNone | internal/agent/claude/claude.go:1435-1465 | with string ids only, no request is lost |
| Requests.Session.HandleServerRequest | internal/agent/codex/client.go:308-369 | the request is held or answered, once; every other keeps its account but one held under the same approval id, which is lost |
| Requests.Session.Resolve | internal/agent/codex/session.go:141-154 | answers a held request and forgets it, or reports that there is none; no request changes its number of accounts |
| Requests.Session.Close | internal/agent/codex/session.go:158-183 | answers every held request once and holds none; a second close does nothing; no request is lost |
| Requests.Session.TurnCompleted | internal/agent/codex/session.go:532-546 | exactly what was held is dropped: nothing is written, nothing held, nothing lost |
| CodexTurns.ClosesLast | internal/agent/codex/session.go:187-231 | events leave in the order emitted, the closing event is there once and last, and the channel closes only after it |
| CodexTurns.EmitsAsHeard | internal/agent/codex/session.go:98-642 | over any run: what was emitted is exactly what the notes heard until the end say, in order |
| CodexTurns.ClosesAsEnded | internal/agent/codex/session.go:203-213 | the closing event carries the error of the first end heard, or none, and is the last event delivered |
| CodexTurns.NoticesCounted | internal/agent/codex/session.go:515-642 | as many notices enter the queue as notes were shown and errors came outside a turn |
| CodexTurns.TurnsAlternateExactly | internal/agent/codex/session.go:98-642 | over any run, turns are started and finished in alternation, each as itself, if and only if the notifications, the answer to a started turn and its caller's report of it are proper: a condition on the names, completions and errors alone and on when the caller speaks |
| CodexTurns.ErrorThenCompleted | internal/agent/codex/session.go:620-642 | an error in a turn that is then completed is reported as two ends of that turn |
| CodexTurns.ResponseOvertaken | internal/agent/codex/session.go:235-250 | a turn completed between the announcing and the report of its start is reported as finished, then started |
| CodexTurns.Session.PumpOne | internal/agent/codex/session.go:215-231 | the oldest event leaves, a closing one only as the last; the channel closes when none is left after the end |
| CodexTurns.Session.Serve | internal/agent/codex/session.go:98-249 | a whole life in place: what was emitted is what was heard, the closing event included; what left is that, in order, all of it once the channel is closed; and turns alternate exactly if what was heard is proper |
| Bus.DeliversInOrder | internal/bus/bus.go:39-87 | a subscriber takes, in order and once, the messages that were not dropped, and nothing is sent on a closed channel |
| Bus.OfferedExactly | internal/bus/bus.go:57-72 | a message to an open subscription is sent if and only if the flag is clear and the buffer has room; a dropped one leaves the flag set |
| Bus.KeepingUpMissesNothing | internal/bus/bus.go:57-72 | a subscriber that makes room in time is sent everything published and never a marker |
| Bus.EndCloses | internal/bus/bus.go:39-83 | from any state a subscription that is left has its channel closed once the marker's sender has had its turn, with nothing enqueued lost |
| Bus.GapsAreMarked | internal/bus/bus.go:61-83 | a dropped message has a marker behind it, or one on its way, or the subscription ended, unless it fell between marker and clearing |
| Bus.MarkedUnlessLate | internal/bus/bus.go:77-80 | with no further publish, a message dropped now ends with a marker behind it if and only if the marker was not already in |
| Bus.LateUnmarked | internal/bus/bus.go:67-83 | a run that leaves a dropped message with no marker behind it and none to come |
| Bus.Bus.Publish | internal/bus/bus.go:57-87 | every message is offered to every registered subscriber, in any order, and to no other |
| Bus.Bus.Subscribe | internal/bus/bus.go:39-43 | a new empty subscription; the others are left alone |
| Term.TerminalReplay | internal/term/term.go:162-233 | replay and received chunks are one unbroken piece of the output, up to its end while served; the scrollback is the last 128 KiB; a channel is closed once, exactly when no longer served |
| Term.ServedExactly | internal/term/term.go:162-233 | over any run: a subscriber is served from its subscription until the shell exits, it cancels, or a chunk comes when its channel is full; every chunk until then waits for it until it takes it |
| Term.Session.ReadChunk | internal/term/term.go:166-186 | one turn of the read loop over all channels, in any order; the invariant behind TerminalReplay is kept |
| Term.Session.End | internal/term/term.go:191-197 | closes every served channel once and serves none |
| Titles.IncrementalIsBatch | internal/agent/claude/claude.go:456-532 | after any reads of a growing transcript the title is that of one scan of all complete records, and the offset says each byte was consumed once |
| Titles.ScanSplit | internal/agent/claude/claude.go:504-530 | scanning whole lines and then the rest is scanning it all |
| Titles.NewestWins | internal/agent/claude/claude.go:504-530 | the title of a scan is that of the last complete record that gives one |
| Titles.RecordsConsumed | internal/agent/claude/claude.go:504-530 | a scan consumes the complete records and what ends them, and nothing of a line still to follow |
| Titles.ReadsFindNewest | internal/agent/claude/claude.go:456-532 | after any reads of a growing transcript the title is the newest of its records and the offset stands behind them |
| Titles.ReadFinds | internal/agent/claude/claude.go:486-532 | one read of any file goes on where the last stopped, or at the start of a shorter file, and finds the newest record from there |
| Titles.TitleReader.ReadTitle | internal/agent/claude/claude.go:467-532 | one read in place: an empty title for an id that names no file or a transcript not found, else the title of a scan that goes on where the last stopped; a new session starts afresh, a shorter file is read from its start, a last line counts only if it is a record |
| Claude.ToolsFinalOnce | internal/agent/claude/claude.go:1254-1403 | whatever lines come, at most one input-finalising call per tool between two results |
| Claude.InputsFromLines | internal/agent/claude/claude.go:1254-1403 | a final call carries the input of the tool's block in a complete message, or the fragments of its streamed block since its start, joined in order, if they parse, and nothing if they do not |
| Claude.StopGives | internal/agent/claude/claude.go:1318-1341 | a tool's block that stops gives its final call, unless that was given in this turn |
| Claude.CopyGives | internal/agent/claude/claude.go:1349-1403 | and so does a tool's block in a complete message |
| Claude.StartsAnnounced | internal/agent/claude/claude.go:1254-1403 | every tool block that starts is announced, once and in order, and nothing else is |
| Claude.EmittedExactly | internal/agent/claude/claude.go:1254-1403 | within a turn, the text emitted for a message is its complete copies up to its first delta and then its deltas, however messages interleave |
| Claude.EmitsOnce | internal/agent/claude/claude.go:1349-1403 | for a message streamed whole or not at all, the text of its blocks is emitted once and in order if and only if it was not streamed or no text of it came complete before the first delta |
| Claude.EmittedInOrder | internal/agent/claude/claude.go:1254-1403 | within a turn, text and thinking of a message are emitted in one order: deltas as they come, and blocks that come complete before the first delta of their kind |
| Claude.EmitsInOrder | internal/agent/claude/claude.go:1349-1403 | for a message streamed whole or not at all, the text and the thinking of its blocks are emitted once and in their mutual order if and only if it was not streamed or nothing of either kind came complete before the first delta of its kind |
| Claude.ThinkingAfterText | internal/agent/claude/claude.go:1349-1403 | of a message whose text is streamed and whose thinking only comes complete, each is emitted once but the thinking after the text it precedes |
| Claude.TurnsApart | internal/agent/claude/claude.go:1001-1013 | a result separates turns completely: the lines after it are parsed as from a fresh start |
| Claude.Parser.ReadLoop | internal/agent/claude/claude.go:748-757 | the loop over a session's lines gives what the specification does, each tool's input, the one `Claude.InputsFromLines` says, final at most once between two results |
| Claude.Parser.ParseAssistant | internal/agent/claude/claude.go:1349-1403 | the loop over a message's blocks in place |

## Left out

Assumptions and simplifications:

- SQL is modelled as maps keyed by id, JSON payloads as decoded values, times as integers; the row order of `items` and `queued_prompts` is their seq.
- Item ids of messages, tool calls and newly made items are kept apart by construction; in the program they are strings that random parts keep apart.
- `Append` with no payload, marshalling errors and a failing commit are not modelled; a failed constraint is, and rolls back.
- Deleting a project is taken to cascade to threads, items, approvals, queue and rules through the foreign keys the migrations declare; drafts, stashes, usage and seen marks are not part of the tables.
- Meaning.CompactionKeepsMeaning: also asks that a group's deltas use one spelling of the field; for other spellings the code keeps one group per spelling and their order is lost.
- ProtocolSafety.SoundExactly: `SetThreadSettings`, `ResolveApproval`, `Interrupt`, `ArchiveThread`, and `SetAgent` and `RemoveAgent` (internal/app/app.go:338-375) are one step each; the last three check the status and then close the session without the prompt lock, so a turn may start in between, which is not seen. Store writes succeed, and a session follows the contract at internal/agent/agent.go:46-51.
- ProtocolSafety.EnterKeeps: a start is three steps: the look at row and registry (with the commit of the turn's end, if it follows one), the session's start with the commit of item and status, and the call with what is written if it fails. The resume is these and the marking before them, the end of a closed session three steps, and `Recover` one, as no command is served yet. The prompt lock is one for the whole app and is modelled per thread, so starts of other threads never wait here.
- ProtocolSafety.TurnUninterrupted: `DeleteThread` (internal/app/app.go:838) and `RemoveProject` (internal/app/app.go:467-479) close the session of a busy thread along with the thread itself; they are not among the commands modelled.
- PromptQueue.RestartRecovers: one thread; `Console.App` has the loops over all of them. The queue and the thread are read and written in one step.
- Rewind.LostTurn: takes the agent to have kept nothing of a lost turn; a process that dies in mid-turn may have written the prompt to its transcript, and then the conversation is that of `Rewind.AnchorlessTurn`.
- Rewind.RewindAgreement: asks that every turn ends (`Rewind.LostTurn` says what one that does not costs), with an anchor new to its conversation, after its session told its id, that new conversations get new ids and that a closed session's late events are not processed; a prompt's record is taken from the row in the same step as the item is written; checkpoints of files are left out.
- Pump.MessagesShown: for a stretch of the log that holds only one pump's item events, as is `Pump.ToolsShown`; deletions and rewinds in between are not followed.
- Pump.AgentLogsCompact: two pumps at work at a time are taken to write about different items, as the agents' ids of messages and calls keep them apart.
- Rpc.CallsCompleteOnce: request ids are unbounded integers; writes of notifications and responses are not modelled.
- Requests.AnsweredExactly: that a request is answered is modelled, and not which of accept and decline it says.
- Requests.SettledOnce: an answer counts as given when the write is attempted, and a process is taken not to use a request's id twice.
- Bus.GapsAreMarked: claims nothing for messages skipped between the marker's entry and the clearing of the flag; `Bus.MarkedUnlessLate` shows those stay unmarked.
- CodexTurns.TurnsAlternateExactly: notifications are decoded and handled one at a time, each in one step, and one `Send` is under way at a time; the answer to a started turn and the report of it are two steps. Text, tool and usage events count as any other event.
- Titles.IncrementalIsBatch: asks that a last line which was a whole record when read is followed by its newline, and that the file is not cut; which of several files the path pattern matches, and errors of reading a file that opened, are left out.
- Claude.EmitsInOrder: within one turn, as is `Claude.EmitsOnce`; a message id is as decoded. With one kind streamed and the other only complete their order may be lost, as `Claude.ThinkingAfterText` shows.
- Exactness.FoldGroupExactly: for an item that is there at both ends of the stretch, in which only the group's own deltas feed the column; other spellings are `Meaning.CompactionKeepsMeaning`'s condition.

Not modelled at all:

- HTTP handlers, SSE rendering, templates and JavaScript under `internal/web`.
- git, gh, worktrees, pull request links and checkpoints: their semantics live in other programs.
- Processes, ptys, TLS and downloads; keys, providers, drafts, stashes and settings sweeps, which would add easy members.
- Comparison of timestamps as text (`internal/store/store.go:1222-1227`).
- The maps that keep the codex session's item/completed from repeating what it streamed; the claude parser's like are modelled.
- Costs, limits, model catalogues and the agents' context readings; the token count and window of a thread's row are modelled.
