# AgentWorkplace: verified models of the bus

AgentWorkplace is a push message bus between coding agents and one human
manager. A broker keeps sessions, channels, subscriptions, an append-only log
and one acknowledgment row per message and recipient; it pushes messages into
live sessions, either over the session's own connection or into a Codex thread.
This project models the parts where a mistake would lose, repeat or misdirect a
message, or would make the log lie, and proves what they promise.

How the files fit together:

- `Store.dfy` is the store: tables as maps and sets in one field `db`, every
  mutation a transaction on a local copy that is assigned back on commit.
  `Handlers.dfy` is what one request does to the tables, as a function `Step`,
  with the invariants every step keeps. `Rpc.dfy` is the broker object whose
  methods are the request handlers, each proved to do exactly its step, and
  `Sessions.dfy` the registry above it: registering, leaving, reporting, sending.
- `Replay.dfy`, `Audit.dfy`, `Deletion.dfy`, `Paging.dfy` prove what holds over
  whole runs of requests: the log rebuilds the tables, messages are conserved,
  human decisions stand, every deletion has its own request, pages cut a listing
  exactly. `History.dfy` follows a client's cursors through the handler, which
  looks the channel's name up on every page. `StaleRows.dfy` says what becomes of
  the handlers that look a channel up before their transaction. `Audience.dfy`,
  `Names.dfy` and `Utf8.dfy` are the computations of a send.
- `Acks.dfy` is one acknowledgment row under updates in any order.
- `Delivery.dfy` is one Codex delivery as a protocol against an adversarial
  app-server, `Attach.dfy` the client whose loops are proved to run it,
  `CodexTask.dfy` the retrying task around it, `ThreadLocks.dfy` many deliveries
  on any number of clients.
- `Ownership.dfy` is the session registry with all delivery tasks, sweeps and
  claims interleaved in small steps. `Injection.dfy` and `Reinjection.dfy` say
  exactly when a record can be given to its recipient twice, `Rollbacks.dfy` what
  a failed registration does to held rows, and `Races.dfy` holds concrete runs.
- `ShimBinding.dfy` is the shim's link and the broker session at its other end,
  with connection losses; `Reconnect.dfy` is the loop around it.
- `Supervisor.dfy` is the app-server supervisor, `LineReader.dfy` the bounded
  line reader, `Backoff.dfy` the capped doubling that three loops share.

An environment that the code cannot control (app-server replies, scheduling,
clocks, exits, connection losses, storage failures of a registration) is a
parameter or a step that may happen at any time.

## Model

| member | source | states |
|---|---|---|
| `Delivery.AtMostOnce` | crates/adapter-codex/src/attach.rs:285-443 | against every app-server, over every run, one delivery injects the text at most once; not at all while it may still answer `Unreachable`; exactly once when it answers `Processed` |
| `Delivery.ProcessedMeansCompleted` | crates/adapter-codex/src/attach.rs:285-443 | `Processed` means one accepted commit returned a turn and the last thing read was that very turn, completed |
| `Delivery.PolledTurnWasStarted` | crates/adapter-codex/src/attach.rs:405-443 | the turn being polled is the one an executed steer or start of this run returned |
| `Delivery.CommitsAreLicensed` | crates/adapter-codex/src/attach.rs:285-403 | every start directly follows an idle read of its thread, every steer a read that showed the turn it names, every resume an RPC error that hints unload and not a missing rollout |
| `Delivery.TaskKeepsTarget` | crates/adapter-codex/src/attach.rs:285-443 | a delivery never changes thread or text |
| `Delivery.RunInBudget` | crates/adapter-codex/src/attach.rs:27-45 | what each kind of request may have cost at any point, with every wait paid for in time |
| `Delivery.DeliveryEnds` | crates/adapter-codex/src/attach.rs:285-443 | every delivery ends: at most 201 busy waits, 201 polls, one steer, one resume, two starts, 812 steps |
| `Attach.CodexAttach.Deliver` | crates/adapter-codex/src/attach.rs:285-443 | the client's loops perform a finished run of that protocol that ends with the returned outcome, and nothing else |
| `Attach.CodexAttach.Commit` | crates/adapter-codex/src/attach.rs:285-403 | the loop up to the commit point reaches the protocol state for its result: settled on the returned turn, or done |
| `Attach.CodexAttach.AwaitTurn` | crates/adapter-codex/src/attach.rs:405-443 | the polling loop continues that run to its end |
| `Attach.CodexAttach.Reload` | crates/adapter-codex/src/attach.rs:353-398 | one resume at most, and the outcome of a failed resume differs before and after a start attempt |
| `CodexTask.DeliverViaCodex` | crates/broker/src/core.rs:471-547 | over all rounds and connections at most one injection, accounted for by the ending; the acknowledgments reported; capped doubling waits; it stops exactly when the name is gone, held by another session, or the delivery settled |
| `CodexTask.InjectionsJoin` | crates/broker/src/core.rs:501-505 | injections over several connections add up |
| `ThreadLocks.StartFollowsIdleRead` | crates/adapter-codex/src/attach.rs:163-170 | however deliveries interleave on any number of clients, if none enters a thread on which another client has an unfinished one, nothing touches the thread between the idle read and the start |
| `ThreadLocks.OneClientNeverCrosses` | crates/adapter-codex/src/attach.rs:163-170 | with a single client that condition always holds |
| `ThreadLocks.CrossingCanIntrude` | crates/broker/src/core.rs:526-533 | the condition is exact: whenever a delivery enters a thread on which another client has an unfinished one, the two can go on so that the start of one follows a request of the other |
| `ThreadLocks.TwoClientsIntrude` | crates/broker/src/core.rs:526-533 | a run in which that happens |
| `ThreadLocks.RunKeepsLocks` | crates/adapter-codex/src/attach.rs:285-295 | unfinished deliveries hold their threads' locks, and the last thing done to a thread about to be acted on was done by the holder |
| `Ownership.NoOrphan` | crates/broker/src/core.rs:365-559 | in every interleaving without a failed registration each held row has a task that will move it on, an arriving session about to drain it, or the pending grace sweep |
| `Ownership.QuiescentHoldsNothing` | crates/broker/src/core.rs:365-559 | once nothing is left running, no row is held |
| `Ownership.UniqueHolder` | crates/broker/src/core/rpc.rs:140-183 | no two attached sessions hold one name at any point, although the active check is a scan and registrations may roll back |
| `Ownership.MissHeldIff` | crates/broker/src/core.rs:372-385 | a task that fails a row as disconnected does so while an attached session holds the name if and only if the name was bound since its lookup began and not given up since the last bind |
| `Ownership.SweepHeldIff` | crates/broker/src/core.rs:248-272 | the same for the sweep of a departing session, counted from its leaving |
| `Ownership.GraceHeldIff` | crates/broker/src/core.rs:205-227 | the same for the sweep that ends the grace window, counted from its look at the row |
| `Injection.InjectedOnce` | crates/broker/src/core.rs:365-559 | over every run, through any sessions, tasks, retries and handovers, a record is given to its recipient at most once if no drain lists a row that an earlier task can still serve |
| `Injection.GivenOncePerTask` | crates/broker/src/core.rs:372-412 | on every run a record was given as often as it has tasks that gave it, and no task gives twice |
| `Injection.InactiveStays` | crates/broker/src/core.rs:465-547 | a task whose sessions have gone or that has ended never gives again, however the run goes on |
| `Reinjection.OverlapInjectsTwice` | crates/broker/src/core.rs:549-559 | the condition is exact: every run whose next step is such a drain can go on, without any failure, until a record was given twice |
| `Reinjection.ViableGives` | crates/broker/src/core.rs:372-412 | a task that can still serve its row can in fact be brought to give the record |
| `Rollbacks.RollbackKeepsOwnedIff` | crates/broker/src/core/rpc.rs:171-180 | a registration that fails after its bind keeps every held row owned if and only if each held row of the name has a task about to look up, looking, awaiting an answer, or retrying without a departed session of that name ahead of it |
| `Rollbacks.OwnedThroughoutIff` | crates/broker/src/core/rpc.rs:171-180 | a run keeps every held row owned at every point if and only if each of its failed registrations met that condition |
| `Rollbacks.RollbackAbandons` | crates/broker/src/core/rpc.rs:171-180 | where it is not met, the row can end up held with every task of it gone and nothing left to report it |
| `Ownership.StepNeverHoldsAgain` | crates/broker/src/store.rs:732-769 | no step takes a row back to a lower rank |
| `Ownership.StepKeepsSafe` | crates/broker/src/core.rs:229-286 | every step keeps: one holder per name, claims and lookups still have every holder ahead of them, a task of the current binding knows the only holder |
| `Ownership.StepKeepsOwned` | crates/broker/src/core.rs:248-272 | every step but a failed registration hands each held row's owner on |
| `Ownership.ArrivalStays` | crates/broker/src/core.rs:549-559 | from its bind until the drain has spawned a task for it, an arriving session answers for each held row of its name |
| `Races.RegisteredAgain` | crates/broker/src/core/rpc.rs:162-211 | a run in which deregistering and registering again gives one record twice |
| `Races.SentWhileRegistering` | crates/broker/src/core/rpc.rs:162-183 | a run in which a send between the bind and the drain is given twice |
| `Races.SweptFromUnderANewSession` | crates/broker/src/core.rs:248-272 | a run in which a departed session's sweep fails a row that the next session of the name is delivering |
| `Races.MissedTheNewHolder` | crates/broker/src/core.rs:274-286 | a run in which a lookup misses the session that took the name meanwhile, and fails the row |
| `Races.OrphanedByRollback` | crates/broker/src/core/rpc.rs:171-180 | a run in which a task gives way to a session whose registration then fails, and the row is held with nothing left to report it |
| `Acks.ResultMeetsVerdict` | crates/broker/src/store.rs:732-769 | after any updates, state and reason are those of the first terminal update, else of the first relayed one, else unchanged |
| `Acks.EmittedRises` | crates/broker/src/store.rs:732-769 | watchers see at most two transitions, of strictly rising rank, the last being the final state |
| `Acks.RankNeverFalls` | crates/broker/src/store.rs:904-911 | rank never falls, and a terminal state keeps its reason |
| `Acks.StampsAreLatest` | crates/broker/src/store.rs:740-752 | each column holds the time of the latest update of its kind, stale or not |
| `Acks.ReorderSameState` | crates/broker/src/store.rs:732-769 | reordered updates with one terminal kind end in the same state |
| `Acks.OrderIndependentIff` | crates/broker/src/store.rs:732-769 | the final state is independent of order if and only if the updates offer at most one terminal kind or the row is terminal already |
| `Replay.LogRebuildsTables` | crates/broker/src/store.rs:205-395 | after any requests, folding the system records from empty gives a view that agrees with principals, names, archived flags, memberships and decisions |
| `Replay.OnlyReplayFits` | crates/broker/src/store.rs:205-395 | the replayed view is the only one that agrees with the tables |
| `Replay.StepRebuilds` | crates/broker/src/store.rs:423-537 | every request keeps the log able to rebuild the tables, renames and reused names included |
| `Replay.ArchiveRebuilds` | crates/broker/src/store.rs:279-332 | archiving logs one record per dropped member and the fold drops exactly those |
| `Replay.DeleteRebuilds` | crates/broker/src/store.rs:338-395 | deleting removes no system record, and the tombstone removes the channel from the fold |
| `Handlers.RunKeepsInv` | crates/broker/src/core/rpc.rs:395-728 | after any requests: unique names, no dangling row, human precedence, archived channels without members or decisions, a message linked exactly when it was sent to channels |
| `Handlers.StepKeepsInv` | crates/broker/src/store.rs:205-640 | each single request keeps those invariants |
| `Handlers.AppendEventsFrame` | crates/broker/src/store.rs:821-838 | appending system records changes no earlier record and no other table |
| `Audit.Conservation` | crates/broker/src/store.rs:338-395 | on every run, messages stored by sends equal messages still there plus the counts on all tombstones |
| `Audit.StepKeepsLog` | crates/broker/src/store.rs:338-395 | no system record is ever removed or altered; a message is unchanged or was removed with its only channel |
| `Audit.SharedMessageSurvives` | crates/broker/src/store.rs:346-369 | a message also linked to another channel survives a deletion with its other link |
| `Audit.DecisionStands` | crates/broker/src/store.rs:470-537 | after a human decision no run of requests changes that membership short of another decision about it |
| `StaleRows.SelfStaleIff` | crates/broker/src/core/rpc.rs:404-410 | with the row looked up before the transaction, a self-service change keeps invariants and log if and only if the transaction stops of itself or the row is still current |
| `StaleRows.AdminStaleIff` | crates/broker/src/core/rpc.rs:574-603 | the same for an admin decision |
| `StaleRows.RenameStaleIff` | crates/broker/src/core/rpc.rs:605-634 | a rename without a clash and with an outdated old name keeps them if and only if the channel still bore that name, or nothing bears it and the channel is gone or has the new name, or the channel is gone and both names are one |
| `StaleRows.ArchiveStaleIff` | crates/broker/src/core/rpc.rs:636-662 | a flag change with an outdated name keeps them if and only if the channel still bore it, or is gone or flagged already and so is the bearer of the name |
| `StaleRows.DeleteStaleIff` | crates/broker/src/core/rpc.rs:715-728 | a deletion with an outdated name keeps them if and only if the channel still bore it or both are gone |
| `StaleRows.ArchivedBetweenHalves` | crates/broker/src/core/rpc.rs:404-410 | a run in which a channel archived between the two halves gains a member |
| `Deletion.Warrant` | crates/broker/src/core/rpc.rs:664-728 | every removal rests on an earlier request, within its lifetime, by the same session for the same channel id |
| `Deletion.WarrantsDiffer` | crates/broker/src/core/rpc.rs:689-728 | different removals rest on different requests |
| `Deletion.FirstPresentationSpends` | crates/broker/src/core/rpc.rs:689-728 | a token is spent by its first presentation, honoured or not |
| `Deletion.OnlyConfirmationRemoves` | crates/broker/src/core/rpc.rs:689-728 | after any actions, a channel disappears only by a confirmed removal of that id, which removes no other |
| `Deletion.TicketedRunIsRun` | crates/broker/src/core/rpc.rs:664-728 | whatever tickets are asked for and presented, the store goes through a run of requests, so what holds of all runs holds here |
| `Deletion.ConfirmIsDelete` | crates/broker/src/core/rpc.rs:715-728 | an honoured confirmation deletes the channel that bears the presented name |
| `History.HistoryIsExact` | crates/broker/src/core/rpc.rs:458-530 | as long as every fetch still resolves to the scope of the first, following the cursors yields every record it held then once, in id order, in full pages but the last, whatever requests run in between |
| `History.ExactIffPagesMatch` | crates/broker/src/core/rpc.rs:458-530 | in general a walk ends with the whole listing if and only if each page it got is the page the listing has at that cursor |
| `History.MovedNameExactIff` | crates/broker/src/core/rpc.rs:462-476 | once the name has moved to another channel for the rest of the walk, the rest is exact if and only if neither channel has anything left below the cursor |
| `History.RenamedUnderTheCursor` | crates/broker/src/core/rpc.rs:462-476 | a run in which a rename and a new channel of the old name send the next fetch to the other channel, and the rest of the first is lost |
| `History.EndsUnlessRefused` | crates/broker/src/core/rpc.rs:458-530 | given time, a walk stops short of its last page if and only if a fetch is refused: cursors fall |
| `History.HistoriesBegin` | crates/broker/src/core/rpc.rs:433-456 | after any requests each channel has a record of its own older than everything else in its history |
| `Paging.ScopeWalkIsExact` | crates/broker/src/store.rs:675-723 | a walk over one fixed scope is exact unless the scope's channel is deleted meanwhile |
| `Paging.WalkIsListing` | crates/broker/src/store.rs:675-723 | the pages of a walk joined are the listing below the first bound, and their number is as small as it can be |
| `Paging.PageSplitsListing` | crates/broker/src/store.rs:675-723 | a page is the end of the listing and its first id cuts the rest off exactly |
| `Paging.FetchPage` | crates/broker/src/store.rs:675-698 | the newest-first scan, turned around, is the page |
| `Paging.StepKeepsChannelScope` | crates/broker/src/store.rs:346-369 | no existing record enters or leaves a channel's history unless that channel is deleted |
| `Paging.StepKeepsDirectScope` | crates/broker/src/store.rs:700-723 | no request removes direct history |
| `Audience.ResolveAudience` | crates/broker/src/core/rpc.rs:248-291 | the audience is sorted, without repeats, and exactly the addressed principals less the sender; the reason for an empty one |
| `Audience.ListedSubscribers` | crates/broker/src/core/rpc.rs:251-269 | the listed principals subscribed to some listed channel |
| `Audience.AllSubscribers` | crates/broker/src/core/rpc.rs:273-278 | the subscribers of all listed channels |
| `Audience.Addressed` | crates/broker/src/core/rpc.rs:248-284 | membership in the addressed set, for each of the three forms of a send |
| `Audience.WithoutHas` | crates/broker/src/core/rpc.rs:288 | removing the sender removes nobody else |
| `Audience.AddressingIsMonotone` | crates/broker/src/core/rpc.rs:248-291 | more channels, or more principals beside channels, never reach fewer |
| `Audience.EmptyReasonIff` | crates/broker/src/core/rpc.rs:270-291 | a send that reaches nobody carries a reason if and only if the sender was not itself addressed |
| `Audience.SilentlyEmptySend` | crates/broker/src/core/rpc.rs:273-291 | a send whose only subscriber is the sender is empty without a reason |
| `Names.SortDedup` | crates/broker/src/core/rpc.rs:286-287 | sorting and removing repeats keeps the elements and orders them strictly |
| `Names.StrictlySortedUnique` | crates/broker/src/core/rpc.rs:286-287 | the result is the only such sequence |
| `Utf8.Truncate` | crates/broker/src/core/rpc.rs:293-303 | the longest well-formed prefix within the limit, in at most three steps back, flagged exactly when bytes were dropped |
| `Utf8.BoundaryIffValidPrefix` | crates/broker/src/core/rpc.rs:293-303 | the one-byte boundary test decides whether the prefix is well formed |
| `Utf8.BoundaryNearby` | crates/broker/src/core/rpc.rs:293-303 | a boundary lies within three bytes below any position |
| `Rpc.Broker.SendMessage` | crates/broker/src/core/rpc.rs:213-382 | succeeds if and only if the caller is registered, every name resolves and no channel repeats; an error stores nothing; else the stored message, the report and one row per recipient, held or failed by presence |
| `Rpc.AppendPublishes` | crates/broker/src/core/rpc.rs:309-351 | the append leaves exactly what a successful send promises |
| `Rpc.AckRowsPartition` | crates/broker/src/core/rpc.rs:309-329 | the stored rows are exactly the audience, split into held and failed |
| `Rpc.AllowedIff` | crates/broker/src/store.rs:596-601 | a resolved send is stored if and only if it lists no channel twice |
| `Rpc.Partition` | crates/broker/src/core/rpc.rs:312-315 | held and absent split the audience by presence without repeats |
| `Rpc.Broker.ResolveChannels` | crates/broker/src/core/rpc.rs:225-236 | succeeds if and only if all channels are live, with their ids in order |
| `Rpc.Broker.CreateChannel` | crates/broker/src/core/rpc.rs:433-456 | does the create step, and fails if and only if the name is in use, archived channels included |
| `Rpc.Broker.RenameChannel` | crates/broker/src/core/rpc.rs:605-634 | does the rename step and says which of its errors held |
| `Rpc.Broker.ArchiveChannel` | crates/broker/src/core/rpc.rs:636-662 | does the archive step; a channel already so is left alone |
| `Rpc.Broker.SelfSubscription` | crates/broker/src/core/rpc.rs:395-431 | does the self-service step; denied exactly by an opposite human decision |
| `Rpc.Broker.AdminSubscription` | crates/broker/src/core/rpc.rs:574-603 | does the admin step; afterwards decision and membership are as asked |
| `Rpc.Broker.DeleteRequest` | crates/broker/src/core/rpc.rs:664-687 | issues a new ticket for the channel's id and changes no table |
| `Rpc.Broker.DeleteConfirm` | crates/broker/src/core/rpc.rs:689-728 | deletes if and only if the ticket is honoured, and spends it either way |
| `Rpc.Broker.History` | crates/broker/src/core/rpc.rs:458-530 | answers if and only if the caller may read the scope, with its page and cursor |
| `Store.Store.CreateChannelLogged` | crates/broker/src/store.rs:205-225 | the row and its record together, or neither |
| `Store.Store.RenameChannelLogged` | crates/broker/src/store.rs:245-277 | the new name and its record together, or neither on a clash |
| `Store.Store.ArchiveChannel` | crates/broker/src/store.rs:279-332 | flag, members, decisions and one record per dropped member in one transaction |
| `Store.Store.DeleteChannelLogged` | crates/broker/src/store.rs:338-395 | the loops over sole messages leave the tables without the channel and its own messages, and a tombstone with their number |
| `Sessions.Registry.Register` | crates/broker/src/core/rpc.rs:95-184 | refuses a bad credential, a bound session and a held name, in that order, and records the first and last; a failed write leaves neither binding nor record; success binds the name, stores principal and record, and lists what is held, oldest first |
| `Sessions.RegistrationLasts` | crates/broker/src/store.rs:423-437 | a registered name stays a principal through all later requests, each registration adds one record, and a name known before gains nothing else |
| `Sessions.Registry.Deregister` | crates/broker/src/core/rpc.rs:186-211 | without its record the binding stays; with it the binding goes and held rows are left alone |
| `Sessions.Registry.Detach` | crates/broker/src/core.rs:248-272 | the session is forgotten, the disconnection recorded, and exactly the rows held for its name fail |
| `Sessions.SweepLeavesNothingHeld` | crates/broker/src/core.rs:256-270 | after the sweep nothing is held for that name and no other row has changed |
| `Sessions.Registry.AckUpdate` | crates/broker/src/core.rs:325-333 | one acknowledgment step, and watchers are told exactly when it advanced the row |
| `Sessions.Registry.ReportProcessed` | crates/broker/src/core/rpc.rs:18-30 | only the session bound to the recipient moves the row |
| `Sessions.Registry.Send` | crates/broker/src/core/rpc.rs:213-382 | a send by a bound session: stored and reported as `Rpc.Broker.SendMessage` says with presence read from the bindings, one tracked delivery per recipient that is there, one untracked copy per other admin |
| `Store.Store.SelfSubscription` | crates/broker/src/store.rs:470-504 | the outcome, and a change exactly when it was applied |
| `Store.Store.AdminSubscription` | crates/broker/src/store.rs:506-537 | decision, membership and record together, when either differs |
| `Store.Store.AppendMessageWithAcks` | crates/broker/src/store.rs:570-640 | message, links, participants and rows together; a repeated key or missing channel rolls back |
| `Store.Store.SetAck` | crates/broker/src/store.rs:732-769 | one update of one row, and whether watchers are told |
| `Store.Store.HeldFor` | crates/broker/src/store.rs:794-804 | exactly the held records of the recipient, by rising id |
| `ShimBinding.BoundMeansKnown` | crates/shim-claude/src/lib.rs:296-423 | over any run with losses and replays, whenever the broker's session is bound the shim's binding carries that name once the answers under way have arrived |
| `ShimBinding.AgreementIff` | crates/shim-claude/src/lib.rs:343-358 | shim and broker agree in full if and only if a registration was accepted on this connection or the shim brought none |
| `ShimBinding.EachCallOnce` | crates/shim-claude/src/lib.rs:384-398 | every call waits or is resolved, never both, and an answer is the broker's answer to that call |
| `ShimBinding.ResolvedOnce` | crates/shim-claude/src/lib.rs:384-398 | what a caller was told is never told again or changed |
| `ShimBinding.LostCallIff` | crates/shim-claude/src/lib.rs:208-214 | a connection loss tells every waiting call it is unreachable; it was served if and only if its answer was under way, and otherwise its request is left behind with the broker |
| `ShimBinding.UnreachableServedIff` | crates/broker/src/server.rs:149-216 | an unserved call that was told unreachable can still be served in some continuation if and only if a lost connection left its request behind |
| `ShimBinding.ServedYetUnreachable` | crates/shim-claude/src/lib.rs:208-214 | a run in which a registration succeeds and its caller is told the broker is unreachable |
| `ShimBinding.RefusedReplayDisagrees` | crates/shim-claude/src/lib.rs:343-398 | a run in which a refused replay leaves the shim bound and the broker's session unbound |
| `ShimBinding.Link.Connect` | crates/shim-claude/src/lib.rs:307-358 | ids start anew, nothing is pending but the hello and the replay of the binding |
| `ShimBinding.Link.Ask` | crates/shim-claude/src/lib.rs:402-420 | one request with the next id, pending with its caller and effect |
| `ShimBinding.Link.OnResponse` | crates/shim-claude/src/lib.rs:384-398 | resolves the caller of that id and applies its effect on success; ignores unknown ids |
| `ShimBinding.StepKeepsLink` | crates/shim-claude/src/lib.rs:296-423 | every step keeps the messages under way matched with what is pending |
| `ShimBinding.StepKeepsLedger` | crates/shim-claude/src/lib.rs:296-423 | every step keeps the account of calls |
| `Reconnect.BrokerLoop` | crates/shim-claude/src/lib.rs:216-268 | when each connection attempt is made |
| `Reconnect.AttemptsAreSpaced` | crates/shim-claude/src/lib.rs:222-268 | at least a second between attempts, and unstable attempts in a row take at least the sum of the doubled and capped waits |
| `Supervisor.Loop.Supervise` | crates/workplace/src/codex_supervisor.rs:122-261 | whatever happens, what the loop did is a lawful history with one probe per turn, and its variables are what that history says |
| `Supervisor.Loop.Look` | crates/workplace/src/codex_supervisor.rs:140-211 | a probe updates the variables as the history demands |
| `Supervisor.Loop.Adopt` | crates/workplace/src/codex_supervisor.rs:141-180 | verification when due, reset of the backoff when healthy for long enough, else nothing |
| `Supervisor.Loop.Start` | crates/workplace/src/codex_supervisor.rs:211-230 | a start after enough absent probes and without a child, else nothing |
| `Supervisor.Loop.Rest` | crates/workplace/src/codex_supervisor.rs:234-259 | rest for the poll interval or until the child exits |
| `Supervisor.StartsAreSpaced` | crates/workplace/src/codex_supervisor.rs:212-255 | n+1 starts without a reset take at least the sum over i<n of min(initial*2^i, max), failed starts and exits alike |
| `Supervisor.StartFollowsAbsence` | crates/workplace/src/codex_supervisor.rs:202-214 | every start has no child to replace and follows at least `debounce` absent probes in a row |
| `Supervisor.AtMostOneChild` | crates/workplace/src/codex_supervisor.rs:212-255 | successful starts less exits are one or none |
| `Supervisor.ResetMeansStable` | crates/workplace/src/codex_supervisor.rs:175-179 | the backoff is cleared only after a verified period of at least `stable_uptime` that nothing interrupted |
| `Supervisor.PutOffMeansUnverified` | crates/workplace/src/codex_supervisor.rs:141-174 | a pending `next_verify` implies not verified |
| `Supervisor.BackoffInRange` | crates/workplace/src/codex_supervisor.rs:178-255 | the backoff never falls below the smaller of its bounds, and exceeds the maximum only if the initial one does |
| `Supervisor.VerificationsAreSpaced` | crates/workplace/src/codex_supervisor.rs:155-173 | after n failed verifications in a row the next comes no earlier than the sum of the first n waits |
| `Backoff.WaitIsCapped` | crates/workplace/src/codex_supervisor.rs:225 | wait number i is min(first*2^i, max) for every i but the first, which is the initial wait as it is |
| `LineReader.Reader.ReadLineBounded` | crates/broker/src/server.rs:78-123 | the answer depends on the bytes only, exactly the line and its newline are consumed, the buffer never exceeds the cap and one piece |
| `LineReader.ReadAll` | crates/broker/src/server.rs:78-123 | for every way of cutting the stream, repeated reads are the lines of the whole stream, each classified on its own |
| `LineReader.SplitJoin` | crates/broker/src/server.rs:78-123 | the lines joined again are the stream, up to a final newline |
| `LineReader.SplitHasNoNewline` | crates/broker/src/server.rs:78-123 | no line holds a newline |

## Left out

- Transport, JSON and SQLite: TCP and WebSocket framing, serde shapes, SQL text, migration and row decoding; messages are values and a transaction is atomic.
- Name validation, tokens, the admin credential, loopback checks, watch filtering, error texts, rendering of deliveries, tool definitions, status queries: settled by reading one branch.
- Terminal user interface, configuration, process start-up.
- Numeric row ids of principals: a principal is its name, which is unique and never deleted.
- Wall-clock accuracy: one request uses one arbitrary time for all its records.
- Integer widths: ids, counters and times do not wrap around; the absent-read counter saturates only far above any debounce.
- The outbound queue of a session and its overflow: an overflow is a connection loss.
- The 30-second limit on a shim call and on a broker-side delivery call: a caller that gave up ignores its answer; the delivery call is one step that succeeds or fails.
- Endpoint dial backoff inside the client cache: a client is there or not, per round.
- Untracked copies for admin sessions in the ownership model: they own no row. `CodexTask.DeliverViaCodex` and `Sessions.Registry.Send` cover them.
- Which of the two delivery paths a session wants is free in the ownership model, per lookup.
- Endless loops are proved over every finite stretch of them, with the environment of each turn as a parameter.
- Delivery.AtMostOnce: is about one delivery. Whether a record can be given twice is a matter of its tasks: `Injection.InjectedOnce` and `Reinjection.OverlapInjectsTwice` give the exact condition, `Races.RegisteredAgain` and `Races.SentWhileRegistering` runs in which it fails.
- Injection.InjectedOnce: takes a whole call of a task, over either path, as one step that may give the message and one that reports. That one Codex task gives it at most once is proved of its loops (`CodexTask.DeliverViaCodex`); that a message pushed over a session's own connection arrives at most once rests on that transport.
- Ownership.NoOrphan: leaves out failed registrations, for which `Rollbacks.OwnedThroughoutIff` gives the exact condition; a failed read of held rows or a failed acknowledgment update is not part of the model.
- Ownership.StepKeepsSafe: a send writes its rows and spawns its tasks in one step, and a record of a departure is not part of that model.
- ThreadLocks.StartFollowsIdleRead: does not hold for clients that replace one another; the condition under which it does is exact (`ThreadLocks.CrossingCanIntrude`).
- Handlers.RunKeepsInv: takes each request as one atomic step. What the gap between looking a channel up and opening the transaction can do is in `StaleRows.dfy`.
- Sessions.Registry.Register: system records of refusals and departures always commit; the source logs a failure to write them and goes on. The handler is one step here, its interleaving is in `Ownership.dfy`.
- Sessions.Registry.Send: presence is one set, read at one moment; the ownership model lets it be any split. The order of the copies is free.
- History.HistoryIsExact: a refused fetch (name gone, or archived for a caller that is no admin) ends the walk early (`History.EndsUnlessRefused`). The caller's own name and rights are fixed during a walk.
- Comments and code disagree in places, and the model follows the code: a send addressed only to its sender is empty without a reason; a thread id may name any message, not only a thread root; a lost connection reports that a message was not sent even when it was or still will be; a detached session's sweep also fails rows that a newer session of the same name is delivering (`Ownership.SweepHeldIff`, `Races.SweptFromUnderANewSession`).
