# Nanoku: a verified model

Nanoku is a single-host deployment tool: it pulls images or brings up compose stacks, records deploys and containers
in SQLite, streams deploy logs to a browser, and generates a Caddyfile. This project models the parts of its Go server
that hold state, interleave or do arithmetic, and proves properties of them. `dafny verify dfyconfig.toml` checks
everything.

## The deploy protocol

`DeployProtocol` is a transition system. Its processes are the two handlers that take the per-app lock, insert a
`running` row and spawn a worker; the worker itself, with its stack of deferred calls; start/stop/restart requests;
reconcile; the Janitor's two-pass container prune; app creation and deletion; and the drain at shutdown. One step is
one lock operation, one database call or one docker call. Every call can fail, a worker can panic anywhere in its
body, and the clock can jump by any amount between steps. A run starts from any database a previous process may have
left behind. The current-container edge is a UNIQUE column of the container table, as in the schema.

`DeployInvariant` is the inductive invariant, `DeployPreservation` proves that every step keeps it, and `DeploySafety`
states what follows for every run. `DeployEdges` says which steps change which rows, `DeployHistory` what the past of
a run says about its deletes, deadlines and marks, and `DeployProgress` that no worker is ever stuck. Four fields of
the state (`owner`, `acquired`, `released`, `lost`) are history that no guard reads. `lost` holds the deploys whose
row was already running at boot or whose own status write failed; the at-most-one-running claim holds for the others.
`DeployRegistry` has the lock, the in-flight map and the drain as mutable objects, and ties the drain's loop to the
protocol's steps; `Pruning` does the same for the prune.

Where the comments of the source and its code disagree, the model follows the code:

- `executeDeploy` says it always writes a terminal status. Its status writes use the 30-minute deadline context, so
  after the deadline they are lost. `DeployLateFailure` has a run in which every database call is accepted and a deploy
  still ends running, with a second running row beside it. `SettledIff` gives the exact condition over whole runs: a
  success or failure write before the deadline, the recovery of a panic, or a drain mark has reached the row.
- The old container is looked up after the edge that leads to it was cleared, so retiring it never happens
  (`RetireBranchIsDead`).
- The drain says that a late worker's real outcome is final. A success written between the drain's snapshot and its mark
  is overwritten (`SuccessStaysIff`; `DeployLateSuccess` has the run).
- `IsDeployInFlight` says that one more read after it turns false completes a log stream. The stream reads before it
  asks, and makes no further read (`EndIsCompleteIff`, `LineLostBeforeEnd`).
- Tailing delivers lines at least once, not once (`ExactlyOnceIff`, `LineDeliveredTwice`).
- The Caddyfile is meant to hold one block per enabled site, under the options in force. The renderer writes a block for
  each option, and Caddy takes one such block only, so an email with automatic HTTPS off makes the file unreadable
  (`TwoOptionBlocks`). Upstreams are trimmed and written as they are: one with a line break is served as a second site
  (`LineBreakIsAccepted`), one that ends in a brace makes the file unreadable (`BraceIsAccepted`). A loopback domain is
  checked by its suffix only (`BlankIsAccepted`). `FileServesTheTableIff` gives the condition, for a reader of words,
  comments, braces, matchers and addresses: everything else, fully-qualified domains and the upstreams of linked sites,
  is always written as one word.
- The Janitor's comments say that a zero interval disables a task; the defaults replace it (`ZeroDisablesNothing`).
- A free site's upstream cannot be updated by a request that names no app, because the handler then takes the site to be
  linked (`UpstreamAcceptedIff`). A create with app id 0 and no upstream dereferences the missing upstream; the model
  has it as its own outcome.

## The deploy log

The log is written, read back, tailed and sent as server-sent events. `LogWriter` has the file and the chunk splitter,
`LogFormat` the parser, `LogTail` the tail cursor beside a writer as a second transition system, `ServerSentEvents` the
frames and, as their specification, the decoder of sections 9.2.5 and 9.2.6 of the WHATWG HTML Living Standard, and
`LogStream` the whole chain over one read, and `LogDelivery` the pump of a live stream and what its client has.
`LogTailOnce`, `LogTailView` and `LogTailEnd` say what the client of the tail gets, and `LogTailRuns` has two runs that
break its promises. In `LogTail` a deploy closes its log before it leaves the in-flight map, and the drain, which
empties the map under a writing worker, is a step of its own; `DeployTail` proves that every run of the deploy protocol,
with a stream beside it, is such a run of the tail. Strings here are bytes, one character a byte. `EndToEnd` says
exactly which lists of entries come back: an entry must stay on one line, hold no carriage return, fit the scanner, and
not be taken for an entry of the other kind.

## Time windows, routing and canonical forms

`LoginLimiter` and `Sessions` have the sliding login window and the sliding session expiry; `Janitor` the schedule and
status of the cleanup tasks. `ExposedPorts`, `Domains`, `Sites` and `Caddyfile` go from the `exposed_ports` column and
the site table to the generated file; `CaddyGrammar` reads such a file, and `CaddyServed`, `SitesServed` and
`TableServed` say what it then serves. `Reconcile` compares container rows with docker. Strings in these modules are
sequences of Unicode characters. The JSON decoder and the parsing of IP addresses are parameters. Mutexes, the
database and docker appear as atomic calls that succeed or fail as their parameters say.

Helper modules: `Wrappers`, `Collections`, `Text`, `Decimal`, `Sorting`.

## Model

| member | source | states |
|---|---|---|
| `DeploySafety.RunInv` | internal/api/deploy_executor.go:64-412 | the invariant of the protocol holds in every state of every interleaving of handlers, workers, actions, reconcile, prune and drain |
| `DeployPreservation.StepInv` | internal/api/deploy_executor.go:64-412 | every enabled step of every process keeps the invariant |
| `DeploySafety.MutualExclusion` | internal/api/deploy_lock.go:20-34 | an app is busy if and only if some handler or unreleased worker holds its lock, never two; acquires equal releases plus the locks still held |
| `DeploySafety.ReleasedByItsHolder` | internal/api/apps_deploy.go:50-74 | a lock is freed only by the insert failure of the handler that took it or by the worker that inherited it, and nobody holds it afterwards |
| `DeployProgress.TurnedAwayIff` | internal/api/apps_deploy.go:50-57 | a deploy is turned away if and only if some handler or worker holds the lock of its app |
| `DeployProgress.WorkerCanGoOn` | internal/api/deploy_executor.go:64-412 | a worker before its deadline whose app is still there can always take its next normal step, whatever the other processes have done, and any other unfinished worker can go on or fail |
| `DeployProgress.DeploySucceeds` | internal/api/deploy_executor.go:64-412 | in every state of every run a worker just spawned can, by its own steps, bring its deploy to success: its new container is the app's current one, the old one is not, the lock and the in-flight entry are given back, and everything of the other apps is untouched |
| `DeploySafety.OneRunningRow` | internal/api/trigger.go:110-135 | an app has at most one running row whose status writes were not lost, and the process that will settle it owns the app's lock |
| `DeploySafety.SettledIff` | internal/api/deploy_executor.go:49-93 | in every run, the row of a deploy with a worker is terminal if and only if some earlier success, failure, panic or drain write reached it, and otherwise running |
| `DeploySafety.SettledBeforeRelease` | internal/api/deploy_executor.go:75-93 | once a worker's deferred calls have come to the lock release, by return or by panic, its row is terminal if and only if such a write reached it; otherwise it is running and one of the worker's own writes was lost |
| `DeployHistory.WritesReachInTime` | internal/api/deploy_executor.go:88-93 | a success or failure write of a worker's body reaches the row if and only if the database takes it within half an hour of the step in which the worker set its deadline |
| `DeployHistory.CallsSucceedInTime` | internal/api/deploy_executor.go:88-97 | a worker loads its app, clears the edge, inserts its container row and links it only within half an hour of the step in which it set its deadline, and only while the app exists |
| `DeploySafety.TerminalIsForever` | internal/api/shutdown.go:44-59 | no step, the drain's placeholder and late workers included, moves a row from terminal back |
| `DeploySafety.SetCurrentFindsFreeEdge` | internal/api/deploy_executor.go:155-175 | when a worker links its container, neither end of the one-to-one edge is taken |
| `DeploySafety.OnlyOwnRowIsCurrent` | internal/api/deploy_executor.go:358-374 | from a worker's clear to its release the app's current container is none or the row that worker inserted |
| `DeploySafety.OnlyTheWorkerLinks` | internal/api/reconcile.go:185-198 | in that window nobody but the worker makes a container current for the app; reconcile can only clear |
| `DeploySafety.RetireBranchIsDead` | internal/api/deploy_executor.go:184-193 | the look-up of the old container never finds one, so nothing is ever retired |
| `DeploySafety.ClearedNeverCurrentAgain` | internal/api/deploy_executor.go:170-172 | a container row that stopped being current is never current again |
| `DeployEdges.EdgeLostIff` | internal/api/deploy_executor.go:170-172 | an app's current container stops being current in exactly the steps that clear that app's own edge: the clear of one of its workers, its reconcile or its removal; the other apps keep theirs |
| `DeployEdges.EdgeGainedIff` | internal/api/deploy_executor.go:371-374 | a container becomes an app's current one in exactly the step in which a worker of that app links the row it inserted |
| `DeployEdges.RowChangesIff` | internal/api/apps_deploy.go:173-183 | a container row goes only in the prune's delete of it, keeps its age for ever, and changes its status only to the one that a start, stop or restart which had loaded it saves |
| `DeployEdges.RowAdded` | internal/api/deploy_executor.go:358-370 | a new container row is running, linked to no app, and known to the worker that inserted it |
| `DeployEdges.DeployRowChangesIff` | internal/api/apps_deploy.go:83-90 | a deploy row is never deleted, changes its status only in a write that reaches it, to success in its own worker's success write and to failed otherwise, and loses its app only when the app is removed |
| `DeployEdges.DeployRowAdded` | internal/api/apps_deploy.go:59-69 | a new deploy row is running and belongs to the app whose lock its handler has taken |
| `DeploySafety.CurrentContainerNeverDeleted` | internal/api/cleanup.go:603-711 | a row that disappears was no app's current container at that moment and was older than a day, whatever happened between the two passes of the prune |
| `DeployHistory.DeletedWasOver` | internal/api/cleanup.go:603-711 | every delete of the prune is of a row that was exited, dead or retired and older than the days to keep, counted back from the start of the prune, when the prune queried, and was not current when it had listed the current rows before that |
| `DeploySafety.LeftInflightMeansDone` | internal/api/deploy_executor.go:65-93 | before the drain's swap, a started deploy that is not in flight has closed its log and released its lock, and its log never grows again |
| `DeployHistory.InflightIff` | internal/api/deploy_executor.go:69-79 | before the drain's swap a deploy is in flight exactly from its worker's first step to the last of its deferred calls |
| `DeployHistory.MarkedWasInflight` | internal/api/shutdown.go:44-59 | the drain marks only deploys that were in flight when it emptied the map |
| `DeploySafety.SuccessStaysIff` | internal/api/shutdown.go:20-22 | a written success stays if and only if neither a drain mark nor the recovery of a later panic follows it |
| `DeployLateFailure.TwoRunningRowsAfterDeadline` | internal/api/deploy_executor.go:61-63 | a run in which the promise of a terminal status fails and two rows of one app are running |
| `DeployLateSuccess.SuccessOverwritten` | internal/api/shutdown.go:20-22 | a run in which a worker writes its success after the drain's snapshot and the drain then marks the row failed |
| `DeployRegistry.DeployLock.TryAcquire` | internal/api/deploy_lock.go:20-28 | succeeds if and only if the app was free, and leaves it busy |
| `DeployRegistry.Registry.DrainInflight` | internal/api/shutdown.go:44-59 | empties the in-flight map and marks failed exactly the deploys that were in it and whose write was accepted |
| `DeployRegistry.MarkingIsAStep` | internal/api/shutdown.go:57-59 | each mark of the drain, taken or refused by the database, is one step of the protocol |
| `Pruning.FilterInPlace` | internal/api/cleanup.go:667-693 | filtering a slice into its own front keeps exactly the rows that are not current, in order, and never overwrites an unread one |
| `Pruning.FastIsSlow` | internal/api/cleanup.go:623-656 | the query with the excluded ids and the filter in memory select the same rows in the same order |
| `Pruning.OnlyMatchingRowsGo` | internal/api/cleanup.go:696-711 | a prune removes only rows that its query matches, and all of them if undisturbed |
| `Pruning.ContainerTable.PruneOldContainers` | internal/api/cleanup.go:603-657 | undisturbed, a row goes if and only if it is exited, dead or retired, was created more than the days to keep ago and is not current; if deletes are refused or the run is cancelled only such rows go; scanned counts them and pruned those that went |
| `Pruning.SelectsThePrunable` | internal/api/cleanup.go:603-657 | the rows selected are those the protocol's prune step puts on its list |
| `LogWriter.LineWriter.Write` | internal/api/deploy_executor.go:25-37 | appends the complete lines of the buffer and the new bytes and keeps what follows the last newline |
| `LogWriter.ChunkInvariance` | internal/api/deploy_executor.go:25-45 | however a stream is cut into writes, the lines emitted are its split at newlines and a remainder unless that is empty |
| `LogFormat.ParseDeployLog` | internal/api/deploy_log_store.go:265-301 | the scan computes the parse of the file's lines, and stops with an error at a line that is too long |
| `LogFormat.FileRoundTrip` | internal/api/deploy_log_store.go:119-155 | plain and keyed entries that are unambiguous on one line are read back as written, in order |
| `ServerSentEvents.SseWriter.SseEvent` | internal/api/sse.go:67-83 | the bytes written are the named event with one data field per line of the data |
| `ServerSentEvents.StreamRoundTrip` | internal/api/sse.go:67-100 | a conforming decoder gets the events back in order, with comments and retry hints anywhere between them |
| `ServerSentEvents.DataSurvivesIff` | internal/api/sse.go:65-83 | the data of an event comes back unchanged if and only if it holds no carriage return |
| `LogStream.EndToEnd` | internal/api/deploy_log_stream.go:184-189 | written, parsed, framed, decoded and split at the first tab, a list of entries comes back if and only if every entry is deliverable: on one line, without carriage returns, shorter than a mebibyte, and not to be taken for an entry of the other kind |
| `LogStream.LinesOnTheWire` | internal/api/deploy_log_stream.go:184-189 | a conforming decoder gets a `line` event for each plain line and a `line-replace` event with key, tab and text for each keyed one |
| `LogTail.TailCursor.Next` | internal/api/deploy_log_store.go:213-244 | one poll returns the parse from the cursor to the end of file and moves the cursor to the earlier size, or fails and moves nothing |
| `LogTail.PollSteps` | internal/api/deploy_log_store.go:223-241 | one poll of the cursor is the Stat, read and move steps of the transition system, whatever is appended after the Stat |
| `LogTail.AtLeastOnceInOrder` | internal/api/deploy_log_store.go:213-244 | under any appends the cursor is at a line boundary, every line before it has been delivered, and first deliveries are in file order without gaps |
| `LogTailOnce.ExactlyOnceIff` | internal/api/deploy_log_store.go:223-241 | every line was delivered exactly once if and only if no read that raced with an append was followed by another read |
| `LogTailView.ViewOfOneRead` | internal/api/deploy_log_store.go:186-212 | the latest text of each key, and the order of the keys, are those of one full read even when polls overlap |
| `LogTailEnd.EndIsCompleteIff` | internal/api/deploy_log_stream.go:96-167 | at the end marker, after the deploy's end or a failed open or poll, the client has the file as of the last look, which is all of it if and only if nothing was appended since |
| `LogTailEnd.EndedIff` | internal/api/deploy_log_stream.go:120-146 | a stream has ended exactly if one of its checks has found the deploy no longer in flight |
| `LogTailEnd.NothingAfterEnd` | internal/api/handlers.go:179-185 | before the shutdown drain, the log of an ended stream never grows again, so what the stream missed stays missed |
| `DeployTail.StreamBesideTheProtocol` | internal/api/deploy_executor.go:64-130 | every run of the deploy protocol with a stream beside it, in any interleaving, is a run of the tail's transition system on the deploy's log |
| `DeployTail.StepFollows` | internal/api/deploy_executor.go:64-130 | each step of any process is an append, a close, a leaving of the map or a drain of the deploy's tailed log, an append and a close, or nothing |
| `DeployEdges.LogGrowsIff` | internal/api/deploy_executor.go:114-153 | a deploy's log grows by one line in exactly the steps of its worker that write one, the partial line at the close included, and never shrinks |
| `LogTailRuns.LineLostBeforeEnd` | internal/api/deploy_log_stream.go:139-146 | a run in which the deploy's only line is never delivered |
| `LogTailRuns.LineDeliveredTwice` | internal/api/deploy_log_store.go:223-241 | a run in which a line appended between the Stat and the end of a read is delivered twice |
| `LogDelivery.EmitTail` | internal/api/deploy_log_stream.go:154-174 | one poll sends the frames of its lines in order, or the end marker if it fails |
| `LogDelivery.Pump.StreamDeployLog` | internal/api/deploy_log_stream.go:94-149 | for any open, faults and turns, beside any steps of the worker before, between and after its own: the frames sent carry exactly what was delivered, with a retry hint and a comment before, one keepalive for each quiet turn and the end marker last if the stream is over; a stream that goes on or has ended has delivered all that was in the log at its start, has asked about the deploy once after the dump and once after each poll, and has ended exactly if an answer was no; it fails only by the open, a fault of its last poll or a line too long, and is gone exactly after a lost client |
| `LogDelivery.EverythingOnceIff` | internal/api/deploy_log_stream.go:96-149 | an ended stream has sent every line of the file exactly once and in order if and only if nothing was appended after its last look and no read that raced with an append was followed by another |
| `LogDelivery.LiveStreamDelivers` | internal/api/deploy_log_stream.go:86-149 | entries logged while a stream tails the file, in any interleaving, are decoded by the client from the bytes sent exactly once and in order if the stream ends undisturbed |
| `LoginLimiter.SessionStore.AllowLogin` | internal/api/sessions.go:141-163 | the verdict and the new log are those of the sliding window at the sampled cutoff: accepted exactly if fewer than five stamps of the address are younger than sixty seconds |
| `LoginLimiter.SessionStore.PurgeStaleAttempts` | internal/api/sessions.go:169-184 | exactly the logs without a stamp after the cutoff are dropped |
| `LoginLimiter.RateBound` | internal/api/sessions.go:140-163 | in every interleaving of calls and purges no window of sixty seconds holds more than five accepted attempts of an address, and the fifth after any attempt comes sixty seconds later at least |
| `LoginLimiter.RefusedOnlyWhenFull` | internal/api/sessions.go:140-163 | a call is refused only if the fifth last accepted attempt of its address came less than sixty seconds before the call sampled its cutoff, or later; otherwise it is stamped with the time at which it got the mutex |
| `LoginLimiter.RefinesWholeHistory` | internal/api/sessions.go:141-184 | called one at a time, the pruned limiter gives the verdicts of the limiter that keeps every stamp |
| `LoginLimiter.PurgesAreInvisible` | internal/api/sessions.go:165-184 | purges inserted anywhere change no verdict |
| `Sessions.SessionStore.Lookup` | internal/api/sessions.go:80-117 | which lookups are accepted, and the row deleted if it has expired, given seven days from now if half of seven days or less is left, or left alone; no other row is touched |
| `Sessions.SessionStore.PurgeExpired` | internal/api/sessions.go:133-138 | removes exactly the sessions that have expired, counts them, and leaves the others as they are |
| `Sessions.AcceptedLifetime` | internal/api/sessions.go:101-116 | after an accepted lookup more than half and at most all of the lifetime is left |
| `Sessions.NeverLoggedOutWhileAttended` | internal/api/sessions.go:80-117 | a session visited at least every half lifetime is accepted every time, whatever other sessions and purges do |
| `Sessions.IdleIsLoggedOut` | internal/api/sessions.go:94-97 | after any history, a session left alone for a whole lifetime is refused |
| `Sessions.RenewalRate` | internal/api/sessions.go:102-107 | n renewals take at least n half lifetimes |
| `Sessions.PurgesAreInvisible` | internal/api/sessions.go:133-138 | purges inserted anywhere change no lookup's verdict |
| `Janitor.StatusSumsUpHistory` | internal/api/cleanup.go:400-439 | after any runs the status holds the counts, the last success retained across errors, the last failure's time and the next run |
| `Janitor.Janitor.Tick` | internal/api/cleanup.go:367-400 | a tick, stale ones too, visits the tasks in order up to a cancellation: it starts one run, marked as its own and with the outcome of its task, of exactly those whose previous start is at least an interval before it, and leaves the others alone |
| `Janitor.Janitor.Loop` | internal/api/cleanup.go:361-398 | for any first pass and any runs on demand and ticks after it: the first pass runs each task once up to a cancellation, a run on demand adds one run of its task, a tick does what it should unless the loop has been cancelled before; every run that a tick started is not its task's first and begins at least an interval after the start before it, whoever made that one; and the status sums up each history |
| `Janitor.Tasks` | internal/api/cleanup.go:313-330 | the built-in tasks, and then, in order, the first custom task of each name that is still free |
| `Janitor.CustomTasksIff` | internal/api/cleanup.go:313-330 | of the custom tasks, those that are the first of a name that no built-in task has are run, and nothing else is |
| `Janitor.TasksDistinct` | internal/api/cleanup.go:313-330 | the names of the tasks that run are distinct |
| `Janitor.ZeroDisablesNothing` | internal/api/cleanup.go:127-152 | after the defaults no built-in task has a zero interval and at least one day is kept; unset intervals become an hour, five minutes, an hour, six hours and a day, and set ones stay |
| `ExposedPorts.TrimAndCheck` | internal/api/exposed_ports.go:104-121 | accepts exactly the acceptable lists, trimmed in place, and otherwise reports the first offending entry |
| `ExposedPorts.MarshalExposedPorts` | internal/api/exposed_ports.go:98-129 | succeeds exactly on well-formed lists, whose entries it trims and puts in ascending order of the names in place; otherwise it reports the first offending entry and leaves the entries before it trimmed |
| `ExposedPorts.ParseOfMarshal` | internal/api/exposed_ports.go:49-129 | marshalling succeeds exactly on the lists whose trimmed names match the pattern and differ and whose ports are between 1 and 65535, and parsing the result gives the trimmed entries in ascending order of the names, character by character |
| `Sorting.LessIsBefore` | internal/api/exposed_ports.go:91 | the order of the sort is that of strings: at the first place where two differ, the lesser has ended or holds the lower character |
| `ExposedPorts.PermutationsMarshalEqual` | internal/api/exposed_ports.go:88-91 | two arrangements of a list are accepted alike and marshal to the same string |
| `ExposedPorts.MarshalAfterParse` | internal/api/exposed_ports.go:49-129 | what a parse returns is a fixed point of marshalling and parsing |
| `ExposedPorts.SameAcceptance` | internal/api/exposed_ports.go:69-121 | both functions accept exactly the well-formed lists, and report the first offending entry of the others; what a parse returns is the decoded list, trimmed and in ascending order |
| `ExposedPorts.PrintedReadsBack` | internal/api/exposed_ports.go:122-128 | the printed JSON determines the list, numbers included |
| `Caddyfile.Render` | internal/caddy/caddyfile.go:22-77 | the file is the preamble and the blocks of the enabled sites, sorted by domain |
| `Caddyfile.RenderIgnoresOrder` | internal/caddy/caddyfile.go:51-59 | with distinct domains the file depends only on which sites there are |
| `CaddyServed.FileServesEnabledIff` | internal/caddy/caddyfile.go:22-77 | read as a Caddyfile, the file has exactly the options that must be in force and one block for each enabled site, by domain, if and only if the email is one word and the only option, each address and upstream is one word that means itself, and the addresses are distinct |
| `CaddyServed.TwoOptionBlocks` | internal/caddy/caddyfile.go:43-49 | with an email and automatic HTTPS off, the file is no Caddyfile |
| `CaddyServed.OpenBrace` | internal/caddy/caddyfile.go:60-74 | an upstream that ends in a brace makes the file no Caddyfile |
| `CaddyServed.OneSiteServesTwo` | internal/caddy/caddyfile.go:60-74 | for any two sites, a single enabled site whose file serves both |
| `Sites.UpstreamIsTheRoute` | internal/api/sites.go:538-573 | an app's site has an upstream if and only if it is routed somewhere, always for a docker app and for a compose app if it names an exposed service or there is only one; cut at its only colon the upstream is the alias and the numeral of the port |
| `Sites.CreateAcceptedIff` | internal/api/sites.go:130-215 | a create is accepted if and only if its domain is valid, its scheme is http or https, and it would be routed to the app it names or names none and brings an upstream |
| `Sites.UpdateLinkIff` | internal/api/sites.go:346-376 | an update that ends linked passes its check if and only if the app it ends with would route the service it ends with |
| `Sites.SiteTable.CreateSite` | internal/api/sites.go:130-248 | which creates are accepted and the row they save; anything else leaves the table as it was |
| `Sites.SiteTable.UpdateSite` | internal/api/sites.go:250-394 | which updates are accepted and the row they save, whichever of the site query, the app load, the check, the save and the reload fails; domains stay distinct |
| `Sites.SiteUpdate.ApplyAppService` | internal/api/sites.go:489-517 | a service name must be exposed by a compose app and is ignored for a docker app |
| `Sites.CreatedSiteResolves` | internal/api/sites.go:195-230 | a created site resolves to the upstream that was checked, or to the one it was given |
| `Sites.LinkedUpdateResolves` | internal/api/sites.go:346-376 | an update that ends linked leaves a row that resolves to exactly the non-empty upstream that was checked |
| `Sites.UpdatedSiteResolvesIff` | internal/api/sites.go:305-376 | an accepted update leaves the site served unless it ends free without an upstream |
| `Sites.UpstreamAcceptedIff` | internal/api/sites.go:305-345 | an update that sets an upstream is accepted if and only if it would be accepted without it and it clears the link, explicitly or by app id zero on a site that has none |
| `Sites.ResolveCaddySites` | internal/api/sites.go:599-631 | the rows with an upstream, in query order, each with its resolved upstream |
| `Sites.ResolvesExactly` | internal/api/sites.go:599-631 | the renderer is given a site for each row that has an upstream, enabled or not, with the row's domain, scheme and flag and that upstream, and no other |
| `Sites.FileIgnoresQueryOrder` | internal/api/sites.go:592-631 | the generated file does not depend on the order in which the query lists the rows |
| `SitesServed.FileServesTheTableIff` | internal/api/handlers.go:128-144 | for a table of validated domains, the file serves exactly the enabled rows that resolve, by ascending domain, if and only if the options fit in one block, and the free upstreams and the loopback addresses of those rows are one word each that means itself |
| `TableServed.FileServesTheTable` | internal/api/sites.go:592-631 | whenever the options fit in one block and the free upstreams and loopback domains are words, the file says `auto_https off` and the email exactly when they must be in force, and its blocks are those of the enabled rows that have an upstream, each once and by ascending domain, at the row's own address, over plain http if asked or loopback, and going to the alias and port of its app or to its own upstream |
| `Domains.ValidDomainIff` | internal/api/validate.go:27-42 | a domain is valid if and only if, trimmed, it is not empty, no longer than 253 bytes, and a loopback domain or, in lower case, labels with dots between them and a top-level domain of two letters or more |
| `SitesServed.SavedIsStored` | internal/api/validate.go:27-42 | creates and updates store only validated, trimmed domains |
| `SitesServed.LinkedUpstreamIsArg` | internal/api/sites.go:538-573 | the upstream of a linked site is always one word that means itself |
| `SitesServed.QualifiedIsKey` | internal/api/validate.go:15-19 | a domain that matches the pattern, in any case, is always an address that means itself |
| `SitesServed.LineBreakIsAccepted` | internal/api/sites.go:195-230 | for any two sites, the create handler accepts an upstream with which the one row is served as both |
| `SitesServed.BraceIsAccepted` | internal/api/sites.go:195-230 | the create handler accepts an upstream with which the file is no Caddyfile |
| `SitesServed.BlankIsAccepted` | internal/caddy/loopback.go:22-38 | a loopback domain with a blank in it is valid, and is not one address |
| `Reconcile.ComputeReconcile` | internal/api/reconcile.go:104-158 | each list of the report is the filter it names, in order, with the current marks of the dangling apps |
| `Reconcile.DbOnlyExactly` | internal/api/reconcile.go:112-142 | a row is reported, with its id, name and app or zero, if and only if docker lacks its container, and as current if and only if some app whose current container docker lacks points at it |
| `Reconcile.CurrentMissingExactly` | internal/api/reconcile.go:128-141 | an app is reported if and only if its current container is a row whose container docker does not have |
| `Reconcile.DockerOnlyExactly` | internal/api/reconcile.go:144-155 | a docker name is reported if and only if no row tracks it, it is not the proxy's and it has the prefix |
| `Reconcile.DockerNamesSplit` | internal/api/reconcile.go:144-155 | the tracked names, the proxy's, the foreign ones and the reported ones make up the docker listing, duplicates counted, and the last are reported in order |
| `Reconcile.Database.ApplyReconcile` | internal/api/reconcile.go:170-198 | clears exactly the reported edges, in order and up to the first failure, and returns the report from before |
| `Reconcile.SecondScan` | internal/api/reconcile.go:160-181 | where nothing else moves, a second scan finds no current container missing and otherwise the same rows, none of them current |

## Left out

- ShutdownWG: the clean drain, in which every worker has finished, takes no action; only the drain that times out is modelled.
- Panics in the HTTP handlers between taking the lock and spawning the worker, and inside the deferred calls.
- A panic between opening the log file and registering its close: the two are one step.
- Registry login, image pull, compose and network aliases, and the Caddy reload: one docker phase of a worker that appends lines and then succeeds or fails.
- Network aliases of app `a-b` and of app `a` with service `b` are the same string; nothing here says that aliases are unique.
- The image and credential resolution of a trigger, and its token check.
- LogTail.AtLeastOnceInOrder: appends are whole lines; a line longer than the 4 KiB buffer reaches the file in more than one write.
- LogDelivery.Pump.StreamDeployLog: a client write error inside a poll ends the stream with some of that poll's frames unsent; the model loses a client only between polls.
- The `id` field and the last event ID of the event stream, and its UTF-8 decoding; the server sends no ids.
- The browser's cap of 5000 rows, its pause and its reconnects.
- Pruning of log files, and the query errors of the prune, which end it before it selects anything.
- `encoding/json` beyond what it prints for a valid list: the decoder is a parameter, and `DecodePrinted` reads only the printed form.
- `net.ParseIP` and the environment switch of the renderer: parameters.
- CaddyServed.FileServesEnabledIff: the reader knows the part of the grammar that the renderer means to use. It refuses quoted words, heredocs, backslashes, environment variables, imports and nested blocks, and knows nothing of what an address or an upstream stands for; Caddy itself takes a backslash inside a word as it is.
- Janitor.Janitor.Loop: a run on demand is over, and in the status, before the loop looks again; two runs of one task at the same time are not modelled.
- SQL: a table is a map or a sequence, a failing call changes nothing, and a value set in an update wins over a clear of the same column.
- The token hash of a session is its key; the generator never repeats a token in the sequences of calls.
- Toggling, deleting and listing sites, removing orphan containers, and the boot-time reconcile: single-branch uses of what is modelled.
- Fairness of the scheduler: `DeployProgress` says what workers can do, not that they are given the time for it.
