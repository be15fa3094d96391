# net-cat, verified

net-cat is a chat server: a connection picks a name, picks a room (or waits in the room's queue when ten people are in it), chats, renames itself, moves between rooms, and can be kicked or banned. Every event is kept in the room's history and in a daily log file, from which the histories are rebuilt at startup. Each connection also has a line editor on the server side, so that broadcasts do not garble what the user is typing.

The project models three parts and proves what they promise.

**Rooms, names, queues and moderation.**
- `ServerState` holds the shared state and one function for each section that runs under the server's lock. Connection ids stand for client pointers, tickets for queue entries, stamps for history items.
- `Commands` composes the sections into whole connection events and commands (`Step`), and `Possible` runs of them. Map iteration orders are part of an action, so a result holds for every order.
- `Ownership`, `OwnershipRuns`: the two name indexes agree, in every reachable state, exactly as long as nobody who was moderated while still choosing a room goes on to join or to leave under a name that has passed to someone else.
- `Grounds`: the weaker facts that hold in every reachable state without exception. `Indexes`: what joining, leaving and renaming do to the indexes in any state.
- `Replay`: a room's history, replayed, gives exactly the names present, over every run, if and only if every step records what it changes where it changes it. `ChangedHands`: from a fresh server, the runs in which the name results meet their exceptions.
- `Queues`, `QueueRuns`: first come first served, one place each, one admission each, and the right position told to everyone who waits.
- `Bans`: a ban reaches everyone on the address and nobody else, and refills exactly the places it opened.
- `Departures`, `Tidiness`, `Forgotten`: what a departure does for those who stay. The queue of the room left is served, a room left empty goes, and its old events are never shown again. `Still`: the commands that take nobody out.
- `Admins`, `Moderation`: the stored admin names and the lazily expiring address blocks. `Blocked`: who may connect, over whole runs.
- `Speech`: which lines become chats, who gets them, who has been silenced. `Effects`: what every other command changes, exactly.
- `LiveServer`, `LiveCommands`, `LiveHistory` (with `LiveSteps`): the same server as objects that change in place. `LiveServer.View` is the state an object stands for; every method is tied to its section or step, so the results above are about these methods.
- `Sections`: the same server once more with one step per locked section. Every handler and the operator has a list of sections still to run, and the lists interleave freely. `Atomic` shows that a list run alone amounts to the whole-command step. `Scripts` says what the lists look like in every reachable state. `Delivery` (no chat is lost), `Capacity` and `Peaks` (how full a room can get) and `CalmRuns` (what holds when nobody is kicked or banned) are about all interleavings. `Lift` turns every run of whole commands into a trace of sections; with it `Overfull` (ways past ten members) and `Skipped` (ways to miss a chat; it needs `Stamps`, the age of events) reach their states from a fresh server, starting from the halls full of guests of `Halls`.

**The log.** `Messages` and `RoundTrip`: printing a message as a log line and parsing it back. `Logs`: the logger with its cached file handle, the line scanner, recovery. `HistoryRuns`: a machine of memory and log over days, clears, room deletions and restarts. `LogLines`, `LogRuns`: the server's own histories and log are a run of that machine, over whole commands on any number of days and over every interleaving of sections within one. `Lifetimes`: one server after another over the same log directory. `Text` has the string functions both need. `Names` has the two name checks.

**The line editor.** `LineReader`: bytes to lines and edits. `Terminal`: the connection with its bounded channel, write loop and reader. `Mirror`: the write loop's copy of the line against the line itself. `Screens`: what the bytes of a redraw show on a terminal.

Results worth knowing when changing the code:
- A client that is kicked or banned while queued or choosing a room keeps going. If its name has been taken since, its exit removes the new owner from the index (`OwnershipRuns.StolenName`, reached in `ChangedHands.NameChangesHands`), and the event recorded for it goes to a room with an empty name. Such an event is missing from every memory until the next restart, which files it under the default room (`HistoryRuns.UntaggedEventIsMisfiled`).
- Ten members is not an invariant. Two checks can both see the last place (`Overfull.OverlappingChecksOverfill`), a kick admits once itself and once more when the kicked handler ends (`Overfull.TwoAdmittedForOneKick`), and a client that has just been removed puts itself back with `/name` (`Skipped.RevivedMemberMissesChat`). How far past ten depends on how many places are out and how many departures are unanswered at the moment a check passes (`Peaks.CalmRoomPeak`). The ledger behind it counts a place handed out by a check as overlapping when another place is out or when a departure has not been answered by an admission call yet; without the second half it would be false (`Overfull.UnansweredDepartureOverfills`).
- A chat skips a member in three cases only: the member wrote it; it bore the writer's name at the broadcast, the writer having lost it (`Skipped.NamesakeMissesChat`); or it was out of the room's index at the broadcast and was put back by its own `/name` afterwards (`Skipped.RevivedMemberMissesChat`). The last two take a kick or a ban.
- A plain user may rename itself to the name of an admin who is away; the name is then stored as an admin's while the user is none (`ChangedHands.PlainUserBearsAdminName`).
- A line of more than 4096 bytes spoils the copy of the line until the line is empty again. An empty line ended by LF right after a line ended by CR is swallowed.
- Recovery stops at a log line of 1 MiB or more and loses the rest of that day (`Logs.RecoveryIsComplete`). Only an announcement can be that long. A client's line is not bounded at all, and the operator's scanner accepts an announcement whose log line is over the limit although the typed line is not: after one, a restart brings back nothing of what came with it or later (`Lifetimes.LongAnnouncementLosesTheRest`).
- An admin that another's exit has unregistered keeps its flag. If its name is taken over and demoted meanwhile, its next `/name` registers an admin whose name is not stored (`ChangedHands.UnstoredAdminIsRegistered`).
- A `]:` inside a sender's name moves the boundary between the fields of a recovered chat, but what is displayed stays the same.

The length limits of chats and names count bytes, although the messages to the user speak of characters; the model counts bytes.

## Model

| member | source | states |
|---|---|---|
| OwnershipRuns.StepOwnedExactly | server/clients.go:30-114 | from an owned state (keys are usernames, none reserved, members are registered under the same key, each client in its own room only) every enabled step leads to an owned state if and only if it is not a moderated pending client joining, or leaving under a name that is registered again |
| OwnershipRuns.RunOwned | server/handler.go:139-182 | ownership over all runs that keep to that guard |
| OwnershipRuns.ActiveModerationKeepsOwned | server/commands.go:422-530 | ownership over all runs whose kicks and bans hit only clients that are in a room, with no other condition |
| OwnershipRuns.StolenName | server/handler.go:139-149 | the case the guard excludes: the exit of a moderated pending client takes away the registration of the name's new owner |
| ChangedHands.NameChangesHands | server/handler.go:139-149 | a run from a fresh server: kick of a client choosing a room, its name and a seat taken by another, exit of the first; everything is in order up to the exit, and after it the unmoderated second client is in its session but unregistered, the indexes disagree and the history no longer gives the members |
| OwnershipRuns.RoomSizesAddUp | server/room.go:55-65 | the registered clients that have a room are exactly as many as all room members together |
| Grounds.StepGrounded | server/clients.go:30-114 | every enabled step, moderation of pending clients included, keeps: keys are the usernames of their clients, a connection has a room exactly from its first join on, no room without a name has members |
| Replay.StepReplaysExactly | server/commands.go:270-307 | from a grounded state in which each room's history, folded over the names present at its start, gives exactly the keys of the room's client map, a step leads to such a state if and only if it is none of: the end of a pending connection under the name of a member, the end of a session whose name is another's by now, a rename by a session whose room is gone |
| Replay.UnrecordedWhileOwned | server/handler.go:139-182 | while the indexes are owned, the one such step is the exit of a moderated pending client whose name has passed to somebody who is in a room |
| Replay.RunReplaysExactly | server/handler.go:158-203 | over whole runs with no other condition: the fold gives the members at every point if and only if no step of the run is of that kind; the midnight clear restarts the fold from the names then present |
| Replay.ActiveModerationIsRecorded | server/commands.go:422-530 | runs whose kicks and bans hit only clients that are in a room contain no such step |
| Replay.HistoryDeterminesMembers | server/commands.go:350-369 | from a fresh server, over recorded steps without a midnight clear, folding a room's history from nobody gives exactly the room's members, across switch, create, rename, kick, ban, quit, drop, room deletion and re-creation |
| Queues.AdmitTakesFirstLive | server/room.go:209-231 | an admission takes the first live entry, discards only closed ones ahead of it, and leaves the rest in order |
| Queues.AdmittedIsNotQueued | server/handler.go:281-291 | an admitted entry is in no queue |
| Queues.OnePlace | server/handler.go:281-291 | no connection and no entry has two places in the queues |
| QueueRuns.StepQueuesOk | server/room.go:234-250 | every step, moderation included, keeps the queue invariant |
| QueueRuns.QueuesInReachableStates | server/room.go:219-230 | in every reachable state the entries admitted to a room are in enqueue order and ahead of all that wait, none is admitted twice, and the last position told to a queued client is its place |
| Bans.PurgeIsStableFilter | server/room.go:253-276 | for every order of visiting the rooms each queue becomes its entries of other hosts in order, and exactly the clients dropped are returned |
| Bans.AdmitTimesEffect | server/room.go:209-231 | n admission calls admit exactly the first min(n, live) live entries |
| Bans.BanReachesTheHost | server/commands.go:464-530 | in any state that is grounded and whose queues are in order: after a ban the host has no registered client but possibly the issuer and no queue entry; clients of other hosts are unchanged; each name removed has left its client's room, and no other name has left any room; outside shutdown each room has admitted exactly min(clients of it expelled, live waiting) in queue order |
| Bans.BansInReachableStates | server/commands.go:464-530 | the same in every state reached from a fresh server, with no other condition |
| Bans.BanCountsMembers | server/commands.go:480-520 | with both indexes owned, each room has lost exactly as many members as the ban has counted slots for it |
| Departures.DeparturesServeTheQueue | server/commands.go:270-307 | in every reachable state outside shutdown: a successful /switch or /create, the end of a session, and a kick of somebody in a room admit exactly the first open connection in the queue of the room left, drop only closed entries ahead of it and keep the rest in order; with no open connection waiting nobody is admitted; no other queue changes |
| Tidiness.OnlyDeparturesAdmit | server/room.go:209-231 | a step that is no such departure and no ban admits nobody |
| Tidiness.AbandonedRoomsGo | server/room.go:39-52 | in every reachable state: a step deletes a room only if somebody moves out of it or leaves it; the room left then stays exactly if it is the default one or has a member or a queue; a deleted room has no history and can be created again |
| Tidiness.LastOneOut | server/commands.go:270-307 | the last member of a room nobody waits for moves out, or leaves unmoderated while the indexes are owned: the room is gone unless it is the default one |
| Forgotten.OldEventsAreGone | server/room.go:39-52 | over all later runs, what was in a deleted room's history is in no history and is sent to nobody again |
| Blocked.WhoMayConnect | server/handler.go:67-79 | from a fresh server over any run with a clock that never goes back: a new connection is closed at once if and only if an earlier step banned its host, a kick of its host is less than 300 seconds old, or the server is shutting down; otherwise it is asked for a name |
| Blocked.BansKeepOut | server/commands.go:464-530 | after a ban, by name or by a queued address, nobody from that host is let in for the rest of any run, at any clock; the step bans no other host |
| Blocked.StepBlocks | server/moderation.go:20-50 | every step's effect on both block tables, host by host |
| Blocked.SweepClosesTheHost | server/operator.go:189-311 | moderation by address closes everybody of the host in every queue and takes out nobody else |
| Speech.WhoIsHeard | server/commands.go:81-109 | from a fresh server over any run: a line is recorded if and only if it is not blank, has at most 2048 bytes and the last mute command for its writer was no mute; then exactly one message is logged, otherwise nothing changes |
| Speech.SayExactly | server/commands.go:81-109 | the same for one line in any state, with exactly who is sent it: the members of the room but those under the writer's name |
| Speech.StepMutes | server/operator.go:314-370 | in every step exactly the mute commands change who is muted, and each exactly the connection it names |
| Effects.EnterNameExactly | server/handler.go:90-137 | when choosing a name succeeds, and its whole effect |
| Effects.ChooseRoomExactly | server/handler.go:272-291 | the room chosen and what follows: refused, ended in shutdown, joined with the whole history sent, or lined up with its place told |
| Effects.TakeSlotExactly | server/handler.go:317-357 | a place handed out is taken up by joining the room waited for |
| Effects.AnswerExactly | server/handler.go:281-316 | yes waits, no leaves the queue and ends, anything else asks again |
| Effects.MoveExactly | server/commands.go:212-307 | when /switch and /create succeed; the connection is then in the new room only, has been sent all its history, and both rooms' members have been sent one event |
| Effects.RenameExactly | server/commands.go:327-371 | when a rename succeeds; both indexes, the event and its receivers |
| Effects.LeaveExactly | server/handler.go:158-182 | the end of an unmoderated session, with "drop" or "voluntary" |
| Effects.KickExactly | server/commands.go:422-459 | the target closed and out of both indexes, one event for those who stay |
| Effects.BanCloses | server/commands.go:464-530 | everybody a ban takes out is closed |
| Effects.TargetMuted | server/operator.go:314-370 | the flag and the event of a mute or unmute that changes anything |
| Effects.PromoteExactly | server/operator.go:392-451 | flag, stored name and event of a promotion or demotion that changes anything |
| Effects.AnnounceExactly | server/operator.go:372-390 | an announcement is recorded exactly once in every room |
| Effects.MidnightExactly | server/history.go:15-21 | all histories become empty and nothing else changes |
| Admins.StepAdmins | server/handler.go:131-137 | from any grounded state: that every registered client with the admin flag has its current name stored survives a step if and only if the step is not a rename by an admin whose name is not stored to another such name; that stored names of registered clients all carry the flag survives as well if and only if, besides, no plain user just took a stored name |
| Admins.RenameAdmins | server/commands.go:350-360 | the same two statements for a rename in any state |
| Admins.RunAdmins | server/admins.go:94-118 | the same over whole possible runs: both hold throughout if and only if no such rename ever happens |
| Admins.AdminsInReachableStates | server/admins.go:94-118 | the same over all runs from a fresh server, with no other condition |
| Admins.GuardedRunsStore | server/admins.go:94-118 | a run that keeps to the guard of the name indexes contains no rename from a name that is not stored |
| ChangedHands.UnstoredAdminIsRegistered | server/admins.go:110-118 | a run from a fresh server with one stored admin, flags and stored names agreeing up to its last step, a rename after which an admin is registered whose name is not stored |
| ChangedHands.PlainUserBearsAdminName | server/commands.go:327-371 | a run from a fresh server with one stored admin after which a plain user bears the stored name |
| Admins.PlainUserUnderAdminName | server/commands.go:327-371 | the converse fails: a plain user renamed to an absent admin's name |
| Moderation.LazyExpiryIsExact | server/moderation.go:20-50 | with a clock that never goes back, an address is blocked if and only if it was ever banned or some kick of it is less than five minutes old |
| Moderation.AskingChangesNothing | server/moderation.go:36-50 | earlier questions, although they delete expired entries, never change a later answer |
| Atomic.SectionsMakeStep | server/handler.go:139-203 | for every command and every map iteration order, running the command's sections with nobody in between ends in the state of the whole-command step |
| Atomic.BanningYields | server/operator.go:233-311 | the same for a ban: lookup, collateral one by one, sweep, closings and one admission for each opened slot |
| Scripts.TickScripts | server/handler.go:139-193 | in every interleaving a handler's remaining sections hold at most one join, followed by the history of the room joined, and nobody runs another handler's own sections |
| Delivery.DeliveryHolds | server/commands.go:98-106 | the delivery invariant over every interleaving of sections |
| Delivery.NoChatIsLost | server/handler.go:152-187 | a connection that has joined a room and been sent its history has been sent every chat now in that history whose broadcast is done, by copy or live, unless it wrote the chat, or at the broadcast bore the writer's name in the room, or was out of the room's index; unless the chat is its own, it has been sent it if and only if no broadcast since it was last sent it left it out |
| Skipped.NamesakeMissesChat | server/room.go:70-82 | a trace from a fresh server after which a member lacks a chat for good because it took the kicked writer's name before the broadcast |
| Skipped.RevivedMemberMissesChat | server/commands.go:327-371 | a trace from a fresh server after which a member, kicked while it was renaming itself and put back by the rename, lacks a chat for good and counts as one beyond the departures |
| Capacity.TickLedger | server/room.go:196-231 | every tick keeps, for each room, members + places out + unanswered departures at most ten + overlapping places + places beyond the departures |
| Capacity.LedgerHolds | server/handler.go:272-291 | that bound over every interleaving, moderation included |
| ChangedHands.DepartureStaysOpen | server/handler.go:139-149 | a trace from a fresh server after which every section has run and a departure from the default room is still without its admission call |
| Capacity.RoomSizeBound | server/handler.go:152-182 | hence a room's size is at most ten plus the overlapping and the extra places |
| Peaks.RoomSizePeak | server/handler.go:272-291 | over every interleaving, however long: members, places out and unanswered departures are at most ten, plus the most places out and unanswered departures any passed check met, plus the extra places since the last passed check |
| Peaks.CalmRoomPeak | server/handler.go:272-291 | without kicks and bans a room's size is at most ten plus that greatest pressure; hence ten is never exceeded where every passed check finds no place out and no departure unanswered |
| CalmRuns.CalmRoomSize | server/commands.go:229-289 | without kicks and bans there are no extra places: a room exceeds ten only by overlapping places |
| CalmRuns.CalmChatsArrive | server/commands.go:98-106 | without kicks and bans no chat is missed by any member but its writer |
| CalmRuns.ContinueNames | server/clients.go:48-114 | without kicks and bans both indexes stay owned through every single section |
| Overfull.OverlappingChecksOverfill | server/handler.go:272-279 | a trace from a fresh server without kicks: two checks see the last place, and the room has eleven members |
| Overfull.UnansweredDepartureOverfills | server/handler.go:158-182 | a trace from a fresh server without kicks, with places handed out one at a time: a check passes between a departure and its admission call, and the room has eleven members |
| Overfull.KickAdmitsTwice | server/commands.go:422-459 | a kick and the kicked handler's cleanup admit two waiting connections for one departure |
| Overfull.TwoAdmittedForOneKick | server/commands.go:422-459 | a run from a fresh server in which that happens in a full room |
| Lift.RunIsATrace | server/handler.go:139-203 | every run of whole commands, moderation, shutdown and midnight included, is carried out, command by command, by a trace of sections; a run without kicks and bans by a calm one |
| Lift.FreshRunIsATrace | server/handler.go:139-203 | whatever whole commands can do to a fresh server, some trace of sections does |
| Lift.GentleCommands | server/handler.go:272-291 | a run of connects, names and room choices, nobody being admitted from a queue, is carried out with places handed out one at a time |
| LiveServer.LiveServer.RegisterClient | server/clients.go:30-45 | new state and verdict of a registration |
| LiveServer.LiveServer.RemoveClient | server/clients.go:48-60 | new state of both indexes, everything else unchanged |
| LiveServer.LiveServer.RenameClient | server/clients.go:94-114 | new state and verdict of a rename |
| LiveServer.LiveServer.GetClientsByIP | server/clients.go:119-129 | exactly the registered clients of the host but the excluded one, each once |
| LiveServer.LiveServer.JoinRoom | server/room.go:55-65 | new state of a move between rooms, the target room created if needed |
| LiveServer.LiveServer.DeleteRoomIfEmpty | server/room.go:39-52 | only an empty room with an empty queue other than the default one goes |
| LiveServer.LiveServer.BroadcastRoom | server/room.go:70-82 | exactly the members but the excluded name are sent the event |
| LiveServer.LiveServer.RecordRoomEvent | server/room.go:122-134 | the tagged event is appended to the history and to the log |
| LiveServer.LiveServer.GetRoomNames | server/room.go:139-157 | every room name once, in order |
| LiveServer.LiveServer.CheckRoomCapacity | server/room.go:196-204 | whether the room has fewer than ten members, a missing room having none |
| LiveServer.LiveServer.AdmitFromRoomQueue | server/room.go:209-231 | the popping loop carries out one admission |
| LiveServer.LiveServer.RemoveFromRoomQueue | server/room.go:234-250 | the entry goes, the others keep their order and are told their new places |
| LiveServer.LiveServer.RemoveFromAllRoomQueuesByIP | server/room.go:253-276 | the nested loops carry out the purge for the order the rooms were visited in |
| LiveServer.LiveServer.GetQueueLength | server/server.go:177-185 | the number of places in all queues |
| LiveServer.LiveServer.ClearHistory | server/history.go:15-21 | all histories become empty, nothing else changes |
| LiveServer.LiveServer.IsIPBlocked | server/moderation.go:36-50 | verdict and the deletion of an expired cooldown |
| LiveServer.LiveServer.RenameAdmin | server/admins.go:110-118 | a stored name is replaced, a name that is not stored stays out |
| LiveCommands.CheckOrQueueRoom | server/handler.go:272-291 | the room choice: refused, dropped in shutdown, let in, or queued |
| LiveCommands.CleanupConnection | server/handler.go:158-182 | the end of a handler, with and without moderation |
| LiveCommands.HandleChatMessage | server/commands.go:81-109 | a chat is recorded and broadcast unless blank, over 2048 bytes or muted |
| LiveCommands.SwitchClientRoom | server/commands.go:270-307 | the whole move between two rooms |
| LiveCommands.CmdName | server/commands.go:327-371 | the rename command with all its refusals |
| LiveCommands.CmdKick | server/commands.go:422-459 | the kick command with all its refusals |
| LiveCommands.Ban | server/commands.go:464-530 | the ban with its collateral and its count of opened slots, whatever orders its maps are iterated in |
| LiveCommands.OperatorCmdKick | server/operator.go:189-230 | the operator's kick, by name or by the address of queued clients |
| LiveCommands.OperatorCmdBan | server/operator.go:233-311 | the operator's ban, by name or by the address of queued clients |
| LiveCommands.OperatorCmdPromote | server/operator.go:392-420 | flag, stored name and record of a promotion |
| LiveCommands.OperatorCmdDemote | server/operator.go:423-451 | flag, stored name and record of a demotion |
| LiveHistory.RecoverHistory | server/history.go:47-105 | every scanned line that parses and is no server event is appended to its room in order, untagged ones to the default room, and nothing else changes |
| LiveHistory.RestartAfter | server/history.go:47-105 | a new server over the files of any logged messages is a fresh one but for its histories, and holds in each room the day's messages for that room up to the first line of 1 MiB; all of them if and only if none for the room comes from there on |
| Names.ValidateName | server/handler.go:360-388 | the exact complaint, and acceptance of exactly 1 to 32 visible ASCII characters |
| Names.ValidateRoomName | server/handler.go:391-404 | the same for room names |
| Messages.TimestampRoundTrip | models/message.go:44-48 | reading a printed valid time gives it back to the second |
| RoundTrip.ParseUndoesFormat | models/message.go:150-287 | for all seven kinds, parsing a printed message succeeds and gives the message to the second with trimmed text, fields split at the first `]:`, an empty leave reason made voluntary and the room of a server event dropped |
| RoundTrip.DocumentedLines | models/message.go:118-147 | the form of each kind of log line |
| RoundTrip.DocumentedNotices | models/message.go:96-115 | the notice users see for each kind |
| RoundTrip.ReferenceTime | models/message.go:44-48 | the printed form of a date and a time |
| RoundTrip.RoundTripExactly | models/message.go:278-287 | sender, announcer and text come back as they were if and only if the bracketed name contains no `]:` |
| RoundTrip.RecoveredChatLooksTheSame | models/message.go:96-115 | every recovered chat displays as the original, right-trimmed, with no condition on the name |
| RoundTrip.ReprintedLine | models/message.go:118-147 | a recovered chat or announcement prints as the original line, right-trimmed |
| Logs.Logger.Log | logger/logger.go:31-52 | the line is appended to the file of the message's date and to no other |
| Logs.Logger.EnsureFile | logger/logger.go:92-108 | the handle held afterwards is that of the date asked for |
| Logs.LogSessions | logger/logger.go:31-108 | over several logger lifetimes the files hold all messages in logging order |
| Logs.RejectedLinesAreInvisible | server/history.go:74-85 | lines the parser rejects change nothing, wherever they stand |
| Logs.RecoveryIsComplete | server/history.go:68-96 | recovery for a date adds to each room, in logging order and up to normalisation, that date's messages for the room before the first line that is too long, hence all of them if and only if none for the room is logged from there on |
| Logs.DayIsWhole | server/history.go:68-96 | every room gets all of the date if and only if, from the first line that is too long on, only server events were logged on the date |
| Logs.RestartRebuildsTheDay | server/history.go:47-105 | the same for recovery from files written from scratch |
| HistoryRuns.StepRefines | server/history.go:15-96 | recording, room deletion, clearing, a new day and a restart each keep the invariant: a named room's memory is a suffix of its log without what the last restart could not read; the default room's memory is all that was logged for it from where it began to where the last restart stopped reading, then what was recorded under its own name |
| HistoryRuns.MemoryIsSuffixOfLog | server/room.go:39-52 | over all runs from an empty log directory: a room other than the default one holds, up to normalisation, a suffix of all messages ever logged for it without those the last restart could not read; the default room holds everything logged for it since it began if and only if no untagged event came after the last restart or clear and none of its messages was left unread |
| HistoryRuns.RestartReadsAll | server/history.go:68-96 | a restart leaves nothing unread if and only if every line of its day fits |
| HistoryRuns.DefaultRoomHoldsTheDay | server/history.go:47-96 | after a restart and until a clear, whatever was logged before: on the same day the default room holds exactly that day's messages if and only if no untagged event came after the restart and it left none of the room's messages unread; on any later day its memory ends with the day's messages if and only if the same holds of the day's messages |
| HistoryRuns.RestartTwice | server/history.go:47-96 | after any clears, deletions and restarts in between, another restart of the day brings back the same state |
| HistoryRuns.UntaggedEventIsMisfiled | server/room.go:122-134 | from any state an event recorded for the room without a name is missing from the default room's memory, whose log has it; the next restart makes the memory the log of its day if and only if it can read all of it |
| HistoryRuns.MisfiledFromBoot | server/room.go:122-134 | such an event can be the first thing ever logged: the default room's memory is empty and its log is not |
| HistoryRuns.RestartRepairs | server/history.go:47-96 | a restart makes the default room's memory its readable log of the day, and all of it if and only if none of its messages is left unread |
| LogLines.PlainIsOneLine | models/message.go:118-147 | a message with valid names, a four-digit year and text from one line of input takes one line of the log, which the recovery scanner can read unless it is an announcement |
| LogLines.AnnouncementFits | server/history.go:68-70 | an announcement's line can be read if and only if its text and what the log puts before it stay below 1 MiB together |
| LogRuns.SectionMirrors | server/room.go:122-134 | every section, its names being valid, is at most one operation of the log machine |
| LogRuns.CommandsMatchLog | server/room.go:39-134 | from a fresh server over any run of whole commands on any number of days: all that is logged is loggable on one line, scannable unless an announcement; each named room's history is a suffix of its log; and without a midnight clear the default room's history is its log if and only if nothing was logged untagged |
| LogRuns.SectionsMatchLog | server/history.go:47-105 | the same over every interleaving of sections within a day; and recovery from that day's log gives each room what was logged for it before the first line that is too long, everything if and only if nothing was logged for it from there on |
| Lifetimes.RebornMirrors | server/history.go:47-105 | a server that has recovered the log of the day has exactly the histories the log machine has after a restart |
| Lifetimes.LivesMatchLog | server/history.go:47-105 | over any number of servers one after another from an empty directory: each named room's history is a suffix of all lives' messages for it without what the start could not read (or, after a clear, of all of them); and without a clear the default room's history is the day's log at the start followed by everything logged since, if and only if nothing was logged untagged and the start left none of its messages unread |
| Lifetimes.LongAnnouncementLosesTheRest | server/operator.go:61 | an announcement that the operator's scanner accepts, then a short one: the server has both in memory, and every server started on that log has neither |
| LineReader.LineEndingsAgree | client/client.go:334-381 | printable lines under any mixture of LF, CR and CRLF come back exactly, if and only if no empty line ended by LF follows a CR |
| LineReader.ErasedKeysLeaveNoTrace | client/client.go:364-368 | a key and a backspace or delete after it change no line, wherever they are typed, unless they part a carriage return from its line feed |
| LineReader.NothingToErase | client/client.go:364-368 | on an empty line a backspace or delete does nothing and is not passed on |
| LiveSteps.AtMostIsDictionaryOrder | server/room.go:139-157 | the order of the room names is that of a dictionary |
| LineReader.UniformEndingsAgree | client/client.go:345-361 | lines all ended the same way always come back |
| Terminal.Client.Enqueue | client/client.go:95-107 | a message is dropped exactly when the connection is closed or the channel is full |
| Terminal.Client.WriteLoopTurn | client/client.go:242-282 | new copy, prompt and output after one message, in and out of echo mode |
| Terminal.Client.WriteWithContinuity | client/client.go:289-318 | one write: the line cleared if there is anything on it, the message, the prompt and the input |
| Terminal.Client.ReadLineInteractive | client/client.go:334-382 | exactly the bytes of one line are consumed, and their edits are sent in order |
| Terminal.Client.ReadSession | server/handler.go:205-222 | the lines of successive calls are one fold over all bytes, the carriage return flag being carried across calls |
| Mirror.OnGood | client/client.go:242-318 | every key, notice, prompt, turn of the write loop and closing keeps the copy's invariant |
| Mirror.CopyIsTheLine | client/client.go:334-382 | while no edit is lost the copy, after the pending messages, is the line if and only if the line has not passed 4096 bytes since it was last empty |
| Mirror.RedrawsShowTheLine | client/client.go:289-318 | every broadcast is redrawn with the prompt and the line as they were when it was enqueued |
| Screens.UserSeesTheLine | client/client.go:289-318 | on any terminal, after each broadcast redrawn while the copy is exact, the rows of the broadcast stand above and the bottom row is the prompt followed by the line as they were when the broadcast was sent |
| Screens.RedrawOnScreen | client/client.go:289-318 | the same for one redraw, whatever the bottom row showed before |
| Screens.PromptOnScreen | client/client.go:262-265 | a prompt on an empty row stands there, and the copy starts afresh with it |
| Screens.EditsAreSilent | client/client.go:266-277 | typed keys are only counted, not written |
| Mirror.ModestSessionsAgree | client/client.go:95-107 | with room in the channel and lines within the limit the copy is always the line |
| Mirror.KeyedIsRead | client/client.go:334-382 | typing in the interleaved model sends and leaves what the reader method sends and leaves |

## Left out

- Sockets, accept and listen, keep-alive, read deadlines and scanner resets: only the lines, bytes and failures they produce appear.
- The heartbeat, the midnight timer and the grace loop of shutdown: only a severed connection, a cleared history and the flag that stops admissions appear. A queued connection released by shutdown appears as one that gives up.
- The JSON file of admin names and its temporary file: the stored names are a set. The nil logger and errors of the operating system.
- Addresses: a client carries its host; splitting host and port is not modelled.
- Text is a sequence of decoded characters. Trimming is modelled for valid UTF-8; limits count bytes.
- Timestamps are read in the printed form only, and a civil time out of range is rejected where the original's parser might normalise it. Time zones are not modelled.
- One clock reading per command, where the original reads the clock several times.
- Whispers, announcements and mute or promotion notices are sent to clients in the original; the model keeps their effect on histories and flags only. Server events of the log are operations of the log machine only.
- Help, list, rooms and stats output, banners, command parsing and the port check.
- Mute and announce have no method on the live server; they are steps and sections only. The client variants of promote and demote are not modelled, because no client has the privilege level they need.
- Clients of the live server are entries of a table, not objects, so two references to one client cannot differ. Rooms are objects.
- In `Sections` appending to a history and to the log is one section; the original does it under two locks, so the order of two lines in the log may differ from that of the histories. The shutdown flag is read together with the admission it guards. The order in which a ban hands out its places is left open, a superset of the map orders.
- A message that a full channel drops counts as sent in `Delivery`; the drop itself is modelled in `Terminal` and `Mirror`.
- Write errors of the write loop before echo mode.
- LogRuns.CommandsMatchLog: takes the clock to be read in order: a command's date is never an earlier one, and `LogRuns.SectionsMatchLog` stays within one date, since a message made before midnight and recorded after it goes to the earlier day's file.
- Delivery.NoChatIsLost: says nothing about chats of a history that has been cleared or deleted with its room.
- Capacity.LedgerHolds: a departure that is not followed by an admission call for its room stays on the books until the next such call, and makes checks in between count as overlapping. The exit of a moderated pending client whose name has passed to a member is such a departure (`ChangedHands.DepartureStaysOpen`).
