# Verified model of the abacusd contest server

abacusd is a replicated programming-contest server. This project models its hardest parts in
Dafny and proves what they promise. Operations that change state are classes and methods with
loops, as in the C++ source. Each is proved against a function or predicate on values, and the
properties over whole runs are lemmas about those.

| file | part of the server |
|---|---|
| `Replication.dfy`, `Resending.dfy`, `Handling.dfy`, `PeerServer.dfy` | the peer protocol: stored messages, owed copies, acks, resending, handling, restarts |
| `Fragments.dfy` | cutting a message into UDP fragments and putting it together again |
| `Options.dfy`, `Sequences.dfy`, `Decimals.dfy`, `Bytes.dfy`, `BufferWriter.dfy`, `ProblemCodec.dfy`, `MarkCodec.dfy`, `ServerCodec.dfy`, `MessageBlob.dfy` | shared notions, and binary store and load of messages |
| `ProblemUpdates.dfy` | last-writer-wins processing of problem updates |
| `ContestClock.dfy` | the start/stop event list and the three computations over it |
| `StartStop.dfy`, `TimedActions.dfy`, `Wakeups.dfy` | wake-ups that keep every group's state up to date, and the thread that performs them |
| `MessageBlocks.dfy`, `ClientConnections.dfy` | the client wire format and its incremental parser |
| `Markers.dfy` | the dispatcher of submissions to markers |
| `Scoring.dfy`, `Standings.dfy`, `Solving.dfy` | the scoring loop, the cached standings, and the score told from the database |

## Main results

- **Replication.** Over every run with loss, duplication, reordering, database failures and
  restarts, a stored message is owed to each known peer or held by it (`NothingIsLost`). Copies
  with the same key are identical (`CopiesAgree`). A stored message is in the handler's queue exactly once
  until it is processed (`HandledExactlyOnce`), it is marked exactly then (`ProcessedExactlyWhen`), and
  a restart queues exactly the rest (`RequeuedExactlyWhen`). Every copy of a message carries the
  time and kind it was made with (`RowsSayWhatWasMade`). From
  every reachable state, with no other sends than those of the resender, every debt to a server
  that knows the debtor can be settled (`DebtsCanBeSettled`), and servers that know each other can
  all come to store every message (`ServersCanConverge`), whichever earliest messages the database
  picks (any `Policy`; one exists by `PolicyExists`).
- **Fragments.** The pieces partition the message, and any sequence of arriving fragments
  delivers exactly the messages whose pieces became complete (`PiecesPartition`, `DeliversExactly`).
- **Codecs.** Problem, mark and create-server messages survive store, blob, build and load
  (`ProbRoundTrip`, `MarkRoundTrip`, `ServerRoundTrip`, `BuildMade`). Strings are written by
  `strcpy`; `FillsExactlyWhen` and `CopiedExactlyWhen` say when that writes all of them.
- **Problem updates.** Any two orders of the same updates end in the rows of the newest one
  (`OrdersAgree`). The exact condition, for any updates, is `AllOrdersAgreeExactlyWhen`.
- **Clock.** The loops equal a count of running seconds, the end time is the last moment within the
  duration, and status changes only at events and at that end (`ContestTime`, `ContestEndTime`,
  `StatusChange`).
- **Wake-ups.** In every run, in whatever order due actions are performed, the pending actions
  cover every future change (`RunsCoverTheFuture`), and `TrueExactlyWhen` says when the stored
  group states are true. With timely messages and a thread that takes no action late, they are true
  once due actions have run (`NoneLateShowsTheTruth`).
- **Client protocol.** Parsing does not depend on how the bytes are cut, and printed messages
  come back from any partial writes and any read chunks (`ChunksDoNotMatter`, `EndToEnd`).
- **Markers.** Submissions are conserved over every run with database failures
  (`SubmissionsConserved`). A connection is in the pool exactly when it subscribed and did not leave
  since (`PresentExactlyWhen`), and work that is taken back was issued longer ago than the timeout
  and held ever since (`TakenBackOnlyLate`).
- **Standings.** The two-pass loop equals the definition of the score (`ScoreTeam`). Told from the
  submissions and marks alone, tries, points and time are those of `TriesFromDatabase`,
  `PointsFromDatabase` and `TimeFromDatabase`. Nothing done
  to blinded submissions reaches a score that contestants are shown (`BlindsHideScores`). In every
  run the cached row is the last computed score that showed a try (`CacheIsLastTried`).

Some expected properties do not hold of the code. For each there is the failing case, and the
exact condition under which the property holds:

| property | failing case | exact condition |
|---|---|---|
| fragment numbers decode (the guard at `src/udpmessenger.C:517` tests the wrong field) | 2^15 fragments or more | `WireNumbersDecode` |
| a problem attribute is read back | a nameless file with data, which no caller can build | `RecBack` |
| loading a problem stays inside the buffer | a short buffer | `OverrunsExactlyWhen` |
| a made blob can be opened | no data | `OpenMade` |
| `setContent` leaves a matching header | no data, old `content-length` | `MessageBlock.SetContent` |
| a restart rebuilds the event list | `OrderMattersOnTies` | `ListRebuiltExactlyWhen` |
| a restart changes no time or status | `RestartChangesStatusOnTies` | `RestartInvisibleExactlyWhen` |
| a message about the past leaves true states | `LateMessageLies` | `LateMessage` |
| timed actions are performed in time order | `LateActionBreaksOrder` | `OrderedExactlyWhenNoneLate` |
| the stored group states are true when nothing is due or queued | `LateTakeLies` | `TrueExactlyWhen` |
| `store` of a mark fills the space that was announced | a NUL in the comment or a file name | `FillsExactlyWhen` |
| `strcpy` writes a whole string | a NUL in the string | `CopiedExactlyWhen` |
| a complete collection is delivered | a failed build: `FailedBuildSticks` | `ReceiveHonest` |
| the cache says what a computation from scratch says | `StaleRow`, `DeferralLeavesRow` | `CacheExactlyWhen` |
| problem updates commute | `KeepingDependsOnOrder`, `TiesGoToTheLast` | `AllOrdersAgreeExactlyWhen` |

## Assumptions

- Each database call is one atomic step. Primary keys are those of `db/structure.sql`, in
  particular (server_id, message_id) for PeerMessage.
- `Listen` takes the lookup of a key, the insert and the reading of the server list for the acks as
  one step. In the code other threads can act in between, which changes nothing: only the one
  listener thread inserts messages of other servers, and a server's own messages are stored before
  they are first sent, so the answer of the lookup still holds at the insert. A server that joins
  after the insert is owed every stored message by `addServer` itself. The list is read after the
  insert, so an ack always names a stored message; an ack more or less is one that a repeated frame
  would bring, or a lost one.
- `Process` is the step in which the handler of a message has succeeded and that is recorded (`src/message.C:161-167`). A handler that
  fails, or whose success cannot be recorded, is no step: the message stays unprocessed.
- All servers use the same `maxfragmentsize`, and frames arrive intact or not at all. Lost frames
  are frames that are never delivered; delivered frames can be delivered again.
- Clock readings, socket results, random shuffles and the outcome of database calls are parameters.
- The order in which a `std::map` is walked is any order of its keys. A `std` heap is a multiset
  whose top is any greatest element.
- Integers are unbounded except where the width matters: the 32-bit fields of the codecs, the
  16-bit fragment number and the `content-length` value.
- The set of groups is fixed during a run, and the contest duration is positive, as `init` makes it.
- The set of problems that have a short name, the only ones whose submissions are listed
  (`src/dbmysql.C:905`), is fixed during a run, and so is the set of users.
- Every submission has a positive time, because `contestTime` reads 0 as "now" (`src/support_timer.C:59-60`).
- Which of several marks `getSubmissionState` reports is an arbitrary choice that depends only on
  the marks of the submission.

Where a comment and the code disagree, the model follows the code. `_issue_times` is a max-heap, so
its top is the newest record, although the comment at `src/markers.C:194` says earliest.

## Model

| member | source | states |
|---|---|---|
| `Replication.NothingIsLost` | src/dbmysql.C:309-403 | In every run, a stored message is owed to every other known server or stored there, and an ack in flight means the acker stores the message |
| `Replication.CopiesAgree` | src/dbmysql.C:372-390 | In every run, two servers that store the same key store the same bytes, and those bytes carry that key |
| `Replication.HandledOnce` | src/abacusd.C:273-293 | In every run, the handler queue of a server never holds a key twice since the last restart, and only stored keys |
| `Handling.HandledExactlyOnce` | src/abacusd.C:279-288 | In every run, a stored message that was not processed is in the queue exactly once, and no message is there more than once |
| `Handling.ProcessedExactlyWhen` | src/dbmysql.C:429-438 | In every run, a stored message is marked processed if and only if that server processed it at some step |
| `Handling.ProcessMarksForGood` | src/dbmysql.C:429-438 | After the step that processes a message, it is stored and marked in every later state |
| `Handling.DoMarks` | src/dbmysql.C:429-438 | A step leaves every stored row as it is, except that processing a message sets the flag of that row |
| `Handling.RequeuedExactlyWhen` | src/dbmysql.C:544-548 | A restart queues a message if and only if it is stored and was not processed at any step before |
| `Handling.RowsSayWhatWasMade` | src/message.C:43-93 | In every run, what a server made is stored there for good, and each copy anywhere has the key, time and kind it was made with and opens to its signature and data |
| `Handling.StoredWasMade` | src/message.C:43-93 | In every run, every stored message was made by a step of the server in its key |
| `Handling.OlderFirst` | src/dbmysql.C:544-563 | In any list in time order, a message made with an earlier time comes before one made with a later time |
| `Handling.NotOwedToMaker` | src/dbmysql.C:392-397 | In every run, no server owes a message to itself, or to its maker unless that server joined later |
| `Replication.ProcessedForever` | src/dbmysql.C:429-438 | Once a message is marked processed it stays stored and processed through every later step |
| `Replication.RestartSkipsProcessed` | src/dbmysql.C:544-548 | A restart never queues a message that was marked processed at any earlier point of the run |
| `Replication.RunInv` | src/abacusd.C:273-293 | Every reachable state keeps the global invariant on stores, debts, collections, queues and packets |
| `Replication.DoInv` | src/udpmessenger.C:599-672 | Each step (local message, send, delivery, join, processing, restart) keeps the global invariant |
| `Resending.CanDeliver` | src/udpmessenger.C:614-670 | From every consistent state where the fragments of a message are on their way to a peer that lacks it, and its collection is not stuck, arrivals alone lead to a state where the peer stores it |
| `Resending.CanSettle` | src/abacusd.C:439-484 | From every consistent state, with sends only by the resender, steps exist after which one server owes another nothing: message after message in the order in which the resender picks them |
| `Resending.DebtsCanBeSettled` | src/abacusd.C:439-484 | From every reachable state, with sends only by the resender, steps exist after which a server that knows the debtor stores everything it was owed and the debts are gone, also what it stored before it knew the debtor, and, with its restart, when a collection is stuck |
| `Resending.ServersCanConverge` | src/abacusd.C:439-484 | From every reachable state in which all servers know each other, with sends only by the resender, steps exist after which every server stores every message ever made, with the same bytes |
| `Replication.FailedBuildSticks` | src/udpmessenger.C:646-668 | When all pieces were collected but the build failed, no further frame of that message delivers it |
| `PeerServer.Peer.NextMessageId` | src/dbmysql.C:317-340 | The id computed over the stored rows is the next id of the reference |
| `PeerServer.Peer.PutLocalMessage` | src/dbmysql.C:309-370 | The new row has the next free key and the made blob, is owed to every other server and is queued |
| `PeerServer.Peer.PutRemoteMessage` | src/dbmysql.C:372-403 | The received blob is stored under its own key, queued and owed to the other servers except its origin; nothing changes if the key is already stored |
| `PeerServer.Peer.NewServer` | src/dbmysql.C:440-461 | The new server is known and owed every stored message; a known server changes nothing |
| `PeerServer.Peer.Acknowledge` | src/server.C:271-290 | Exactly the debt of that key to that acker is removed, and none for a null id |
| `PeerServer.Peer.Processed` | src/dbmysql.C:429-438 | Exactly the processed flag of that row is set |
| `PeerServer.Peer.SelectByTime` | src/dbmysql.C:550-568 | The rows come in time order, none left out is earlier, and nothing is left out below the limit |
| `PeerServer.Peer.GetUnacked` | src/dbmysql.C:550-568 | The earliest messages owed to a server, of one kind or of any, in time order and up to the limit |
| `PeerServer.Peer.ResendMessage` | src/abacusd.C:439-458 | The list sent is one the resender of the protocol may pick: all owed create-server messages in time order if there are any, otherwise one earliest owed message; nothing only if nothing is owed |
| `Resending.ResendsInTurn` | src/abacusd.C:447-449 | Of the messages owed to a server, a create-server message is always resent; any other is resent alone, when none of those is owed and no owed message is older |
| `PeerServer.Peer.Start` | src/abacusd.C:212-262 | After a restart the queue holds exactly the unprocessed messages in time order, and no fragments |
| `PeerServer.Peer.SendAcks` | src/udpmessenger.C:453-466 | One ack of the key to every other known server |
| `PeerServer.Peer.Hear` | src/udpmessenger.C:599-672 | A frame is acked, collected, built, stored and queued as the step of the protocol says, in every outcome of the database calls |
| `Fragments.PiecesPartition` | src/udpmessenger.C:505-544 | The pieces of any message are non-empty, within the size limit, and joined in order give the message |
| `Fragments.FewestAndEven` | src/udpmessenger.C:505-508 | There are as few pieces as the limit allows, and no two differ by more than one byte |
| `Fragments.WireNumbersDecode` | src/udpmessenger.C:517-535 | Every fragment number and last-mark is read back correctly if and only if there are fewer than 2^15 fragments |
| `Fragments.SendMessage` | src/udpmessenger.C:488-558 | For any shuffle, the frames sent are exactly the fragments of the message, one each; an empty blob is refused |
| `Fragments.FragmentReceiver.GetFragment` | src/udpmessenger.C:614-670 | A frame updates the collection of its message and delivers as the reference receiver does, stale or repeated or complete |
| `Fragments.FragmentReceiver.Concatenate` | src/udpmessenger.C:646-658 | The pieces are copied out in order of their numbers |
| `Fragments.ReceiveHonest` | src/udpmessenger.C:614-668 | A message is delivered exactly when its last missing piece arrives and builds, with the right bytes, and the collection is then dropped |
| `Fragments.DeliversExactly` | src/udpmessenger.C:614-668 | For any arrival order with duplicates and interleaving, the delivered messages are exactly those expected from the sets of arrived pieces |
| `Bytes.CheckTerms` | src/message.C:248-255 | Within the buffer the check succeeds exactly when there are enough NUL bytes, and never reads past the size |
| `Bytes.CopiedExactlyWhen` | src/message_createserver.C:46-50 | Copying a string and going on by its length leaves all of it there, whatever the buffer held, if and only if it holds no NUL |
| `BufferWriter.StrCpy` | src/act_mark.C:169-173 | The text up to the first NUL and a terminator are written, and nothing else changes |
| `ProblemCodec.ProbRoundTrip` | src/act_problemmanip.C:117-290 | For every problem that fits and every order of its attributes, loading the stored bytes gives the same problem and uses all bytes |
| `ProblemCodec.ProbLayout` | src/act_problemmanip.C:144-158 | Id, time, number of dependencies and type of a stored problem are at their place in the bytes |
| `ProblemCodec.RecBack` | src/act_problemmanip.C:227-289 | One attribute record is read back if and only if it is not a nameless file with data |
| `ProblemCodec.StorageRequired` | src/act_problemmanip.C:117-142 | The computed size is the length of the encoding, or the error value for an improper problem |
| `ProblemCodec.Store` | src/act_problemmanip.C:144-202 | For every problem the returned length is that of the encoding, and the buffer starts with exactly the encoding if no string holds a NUL |
| `ProblemCodec.LoadRecs` | src/act_problemmanip.C:227-289 | The record loop adds exactly the records of the reference parser, or fails where it fails |
| `ProblemCodec.LoadProb` | src/act_problemmanip.C:204-290 | Loading equals the reference parser on every buffer, including refusals and reads past the end |
| `ProblemCodec.OverrunsExactlyWhen` | src/act_problemmanip.C:204-290 | Loading reads past the end exactly when the buffer ends within the dependency count, before the announced dependencies, or in an integer record with fewer than four bytes left |
| `MarkCodec.MarkRoundTrip` | src/act_mark.C:148-229 | For every mark that fits, loading the stored bytes gives the same mark and uses all bytes |
| `MarkCodec.MarkLayout` | src/act_mark.C:162-169 | Each number and the comment of a stored mark are at their place in the bytes |
| `MarkCodec.NeverOverruns` | src/act_mark.C:184-229 | Loading never reads past the end, on any buffer |
| `MarkCodec.LoadFiles` | src/act_mark.C:204-224 | The file loop equals the reference parser on every buffer |
| `MarkCodec.LoadMark` | src/act_mark.C:184-229 | Loading equals the reference parser on every buffer |
| `MarkCodec.StorageRequired` | src/act_mark.C:148-160 | The computed size is the length of the encoding |
| `MarkCodec.Store` | src/act_mark.C:162-182 | For every mark the buffer starts with exactly the encoding of the mark with its strings cut at their first NUL, and its length is returned |
| `MarkCodec.FillsExactlyWhen` | src/act_mark.C:148-182 | Store uses no more than the announced size, and exactly that size if and only if neither the comment nor a file name holds a NUL; then it writes the mark unchanged |
| `MarkCodec.StoredLoads` | src/act_mark.C:162-229 | For every mark whose numbers fit, loading the stored bytes gives the mark with its strings cut at their first NUL |
| `ServerCodec.ServerRoundTrip` | src/message_createserver.C:33-88 | For every server and every order of its attributes, loading the stored bytes gives the same server and uses all bytes |
| `ServerCodec.NeverOverruns` | src/message_createserver.C:59-88 | Loading never reads past the end, and refuses exactly the buffers without an id or without a NUL |
| `ServerCodec.CountZeros` | src/message_createserver.C:63-65 | The loop counts the NUL bytes after the id |
| `ServerCodec.LoadServer` | src/message_createserver.C:59-88 | Loading equals the reference parser on every buffer |
| `ServerCodec.StorageRequired` | src/message_createserver.C:33-39 | The computed size is the length of the encoding |
| `ServerCodec.Store` | src/message_createserver.C:41-57 | A buffer that is too small is refused untouched; otherwise the announced length is returned, and the buffer starts with exactly the encoding if no string holds a NUL |
| `MessageBlob.OpenMade` | src/message.C:208-238 | Opening a made blob gives header, signature and data back, and is refused exactly when there is no data |
| `MessageBlob.MadeHeader` | src/message.C:145-159 | Key, time and kind read from a made blob are those of its header |
| `MessageBlob.BuildMade` | src/message.C:208-238 | Building from the made blob of a stored problem, mark or server message gives the same message |
| `ProblemUpdates.AllOrdersAgreeExactlyWhen` | src/act_problemmanip.C:326-389 | For any updates with types, also several newest ones: all orders leave the same rows, if and only if the newest agree on the type and on every slot that neither keeps, and no update brings a file that all the newest keep |
| `ProblemUpdates.KeptFileDiffers` | src/act_problemmanip.C:363-368 | If all newest updates keep a file that another one brings, the file is there after one order and missing after another |
| `ProblemUpdates.OrdersAgree` | src/act_problemmanip.C:326-389 | Two servers that process the same updates in any two orders end with the same type, time, attributes and files, those of the newest update |
| `ProblemUpdates.NewestWins` | src/act_problemmanip.C:337-353 | The rows after any sequence are those the newest update alone leaves on a fresh problem |
| `ProblemUpdates.NewestReadsBack` | src/act_problemmanip.C:356-389 | After any order of updates, type, time, strings and integers of the newest update are read back from the rows |
| `ProblemUpdates.UpdateStores` | src/act_problemmanip.C:337-389 | After an update that is not discarded, each of its strings, integers and files is there, strings over integers over files; a file that it only names stays, and other attributes are gone |
| `ProblemUpdates.IntTextReads` | src/dbmysql.C:1463-1465 | The text that an integer attribute is stored as reads back to the integer |
| `ProblemUpdates.KeepingDependsOnOrder` | src/act_problemmanip.C:364-368 | A file brought by one update and kept by a newer one is there in one order and missing in the other |
| `ProblemUpdates.TiesGoToTheLast` | src/act_problemmanip.C:339-344 | Of any number of newest updates with the same time the one processed last wins, if it keeps no file |
| `ProblemUpdates.SameNewsIsSameRows` | src/act_problemmanip.C:356-389 | Two updates that keep no file agree, in the sense of that condition, exactly when they leave the same rows on a fresh problem |
| `ProblemUpdates.ProblemTable.IntProcess` | src/act_problemmanip.C:326-389 | Processing an update, stepwise on the rows, is the reference: discarded when older, otherwise every slot is written, kept or dropped |
| `ProblemUpdates.ProblemTable.DropUnnamed` | src/act_problemmanip.C:345-353 | Exactly the attributes that the update does not mention are deleted |
| `ProblemUpdates.ProblemTable.WriteFiles` | src/act_problemmanip.C:363-368 | Exactly the named files are written |
| `ProblemUpdates.ProblemTable.WriteInts` | src/act_problemmanip.C:370-373 | Exactly the integers are written, over files of the same name |
| `ProblemUpdates.ProblemTable.WriteStrings` | src/act_problemmanip.C:377-382 | Exactly the strings are written, over anything of the same name |
| `ProblemUpdates.SetAttribute` | src/dbmysql.C:1467-1481 | The attribute holds the value, its file data is gone, and no other attribute changes |
| `ProblemUpdates.SetFile` | src/dbmysql.C:1483-1497 | The attribute holds the file name and the data, and no other attribute changes |
| `ProblemUpdates.DelAttribute` | src/dbmysql.C:1499-1517 | Value and file data of the attribute are gone, and no other attribute changes |
| `ContestClock.TimerSupport.ContestTime` | src/support_timer.C:53-84 | The loop over any sorted list computes the number of running seconds before the time, capped by the duration |
| `ContestClock.TimerSupport.ContestStatus` | src/support_timer.C:86-104 | The status is that of the latest applicable event, and stopped once the duration is used up |
| `ContestClock.TimerSupport.ContestEndTime` | src/support_timer.C:106-132 | The result is the greatest time whose running time is within the duration, and 0 exactly when the duration is never exceeded |
| `ContestClock.TimerSupport.EndTimeLoop` | src/support_timer.C:106-132 | The countdown loop finds the end time |
| `ContestClock.TimerSupport.ScheduleStartStop` | src/support_timer.C:143-177 | The event is inserted before the first one that is not earlier; a database failure changes nothing; the list stays sorted |
| `ContestClock.TimerSupport.UpdateGroupState` | src/support_timer.C:183-193 | The group's state becomes its status at the time, the old one is reported, no other group changes |
| `ContestClock.TimerSupport.constructor` | src/support_timer.C:195-238 | The list is the reverse of the stored rows, sorted; a zero duration becomes five hours and the blinds are capped |
| `ContestClock.ContestTimeGrowth` | src/support_timer.C:53-84 | Contest time is monotone and grows no faster than real time |
| `ContestClock.EndTimeUnique` | include/timersupportmodule.h:62-68 | There is only one end time |
| `ContestClock.EndTime` | include/timersupportmodule.h:62-68 | There is always an end time |
| `ContestClock.TimeStopsAtEnd` | src/support_timer.C:53-132 | Contest time is the number of running seconds up to the end time, and the duration from then on |
| `ContestClock.StatusChange` | src/support_timer.C:86-132 | A status changes only at the time of an applicable event or at the end time |
| `ContestClock.StatusSteady` | src/support_timer.C:86-132 | Between events and end time the status is the same |
| `ContestClock.Slot` | src/support_timer.C:143-177 | The insertion point is after all earlier events and before all others |
| `ContestClock.ScheduleKeepsPast` | src/support_timer.C:143-177 | Scheduling an event at T changes contest time at no moment up to T, and status at no moment before T, and nothing for groups it does not apply to |
| `ContestClock.ScheduleKeepsEnd` | src/support_timer.C:143-177 | The end time of a group does not move for events that do not apply to it |
| `ContestClock.RestartRebuildsList` | src/support_timer.C:222-235 | For distinct times, any order of insertions gives the list that a restart rebuilds from the stored rows |
| `ContestClock.ListRebuiltExactlyWhen` | src/support_timer.C:143-177 | Every order of scheduling the same events gives the list that a restart rebuilds, if and only if no two of them, equal or not, have the same time |
| `ContestClock.RestartInvisibleExactlyWhen` | src/support_timer.C:143-177 | Whatever the order of scheduling, a restart changes no contest time and no status of any group at any moment for any duration, if and only if no two events with equal times and a common group have different actions |
| `ContestClock.OrderMattersOnTies` | src/support_timer.C:143-177 | For two different events with equal times, swapping their insertions gives a different list |
| `ContestClock.RestartChangesStatusOnTies` | src/support_timer.C:222-235 | A start of all groups and a stop of one at the same time: a restart can turn that group from running to stopped |
| `StartStop.RunsShowTheTruth` | src/act_startstop.C:77-262 | In every run with fixed groups, due actions performed in time order and timely messages, pending actions include every future moment at which a status changes, and when no action is due every stored state is the status now |
| `StartStop.RunsCoverTheFuture` | src/act_startstop.C:176-229 | In every run, in whatever order due actions are performed and whenever messages arrive, the stored states are true at the moment last served, and every change of a status after now has a pending action |
| `StartStop.TrueExactlyWhen` | src/act_startstop.C:77-262 | In every such run the stored states are true now, if and only if for no group an event or the end time falls after the moment last served and changes the status |
| `StartStop.DrainResult` | src/act_startstop.C:77-99 | Performing all overdue actions leaves the states of the last one's time |
| `StartStop.LateMessage` | src/act_startstop.C:195-213 | A message about the past that arrives while actions are overdue leaves true states after those actions, if and only if for no group the message or the new end time falls after the last overdue action and changes the status |
| `StartStop.LateMessageLies` | src/act_startstop.C:195-213 | A run in which such a message leaves a group shown as stopped, with nothing overdue, although it is running |
| `StartStop.StartStopModule.Perform` | src/act_startstop.C:77-99 | Every group gets its status at the action's time, and exactly the groups that changed are notified |
| `StartStop.StartStopModule.IntProcess` | src/act_startstop.C:176-229 | The event is inserted, states are refreshed exactly when it is not in the future, and event and end-time wake-ups are queued |
| `StartStop.StartStopModule.QueueEnds` | src/act_startstop.C:215-226 | The future end times of the groups concerned are queued |
| `StartStop.EndWakeupsExact` | src/act_startstop.C:215-226 | The wake-ups that a message queues for end times are exactly those ahead of the groups it concerns, once each |
| `StartStop.StartStopModule.InitialiseEvents` | src/act_startstop.C:235-262 | All states are refreshed, and all future end times and events are queued |
| `StartStop.StartStopModule.InitialiseGroups` | src/act_startstop.C:250-256 | All states are refreshed and each future end time is queued |
| `StartStop.StartStopModule.QueueEvents` | src/act_startstop.C:258-261 | All future events are queued |
| `TimedActions.TimedActionThread.RunDue` | src/abacusd.C:498-510 | The loop performs only due actions, each the earliest held, until none is due |
| `TimedActions.TimedActionThread.PerformOne` | src/abacusd.C:499-509 | One due action is performed and an earliest of the heap becomes next |
| `TimedActions.TimedActionThread.TakeOne` | src/abacusd.C:512-522 | A new action becomes next if it is earlier, and is otherwise put on the heap |
| `TimedActions.RunsLoseNothing` | src/abacusd.C:494-523 | In every run each accepted action was performed exactly once, not before its time, or is still held; no next means an empty heap; next is earliest |
| `TimedActions.OrderedExactlyWhenNoneLate` | src/abacusd.C:494-523 | In every run, actions are performed in time order with none earlier still held, if and only if none was accepted after a later one was performed |
| `TimedActions.LateActionBreaksOrder` | src/abacusd.C:494-523 | A run in which an action that arrives late is performed after a later one |
| `Wakeups.ThreadRunsServer` | src/abacusd.C:494-523 | Whatever the queue and the thread do with the wake-ups of a server is a run of that server |
| `Wakeups.PerformsFirst` | src/abacusd.C:494-523 | If no action is taken after a later one was performed, each action performed is the earliest of all that are queued, held or next |
| `Wakeups.NoneLateShowsTheTruth` | src/abacusd.C:494-523 | In every run in which no action is taken late and messages are timely, once the queue is empty and nothing is due every stored state is the status now |
| `Wakeups.LateTakeLies` | src/abacusd.C:494-523 | A reachable state with nothing queued or due in which a running group is stored as stopped, because an earlier action was taken after a later one was performed |
| `MessageBlocks.ChunksDoNotMatter` | src/messageblock.C:120-206 | Any split of a byte stream gives the same messages, the same leftover state and the same error point as the whole |
| `MessageBlocks.RefusedForBadLine` | src/messageblock.C:180-199 | A stream is refused only for a non-empty line without a colon, and right after it |
| `MessageBlocks.BadLineRefused` | src/messageblock.C:180-199 | A header line without a colon ends the stream, and nothing after it is read |
| `MessageBlocks.PrintedBlockParses` | src/messageblock.C:219-234 | Parsing a printed well-formed message gives it back and continues with what follows |
| `MessageBlocks.PrintedBlocksParse` | src/messageblock.C:219-234 | Parsing printed well-formed messages gives the same sequence and nothing left |
| `MessageBlocks.PrefixParses` | src/messageblock.C:120-206 | Any prefix of the printed messages, in any chunks, parses without error to a prefix of the sequence |
| `MessageBlocks.MessageBlock.AddBytes` | src/messageblock.C:120-206 | Feeding a chunk, with its in-place buffers, equals the byte-wise parser: same result code, same state, same finished message |
| `MessageBlocks.MessageBlock.NextLine` | src/messageblock.C:129-160 | Consuming up to the next newline leaves exactly the work that remained |
| `MessageBlocks.MessageBlock.TakeLine` | src/messageblock.C:162-199 | An action line, a header line and the empty line are handled as the reference does, errors included |
| `MessageBlocks.MessageBlock.AddContent` | src/messageblock.C:121-126 | Content bytes are added up to the content length |
| `MessageBlocks.MessageBlock.SetContent` | src/messageblock.C:83-108 | The header matches the content if and only if there is data or no positive old content length |
| `MessageBlocks.MessageBlock.GetRaw` | src/messageblock.C:219-234 | The printed text is action line, headers in any order, empty line and content |
| `MessageBlocks.MessageBlock.PrintHeaders` | src/messageblock.C:225-226 | Each header is printed once, in order |
| `ClientConnections.EndToEnd` | src/clientconnection.C:160-201 | Whatever part of the sent messages is on the wire, in any read chunks, parses to a prefix of them, and to all of them once everything is written |
| `ClientConnections.ClientConnection.SendMessageBlock` | src/clientconnection.C:242-250 | The text is added at the end of what is to be sent |
| `ClientConnections.ClientConnection.WriteData` | src/clientconnection.C:160-201 | With any partial writes the wire grows and stays a prefix of the text sent; it is idle exactly when all is written, and otherwise stops at the first write that takes nothing, asking for output exactly if that write wanted to write, and for input exactly if it wanted to read |
| `ClientConnections.ClientConnection.Advance` | src/clientconnection.C:195-199 | Each accepted write moves those bytes to the wire |
| `ClientConnections.ClientConnection.ReadData` | src/clientconnection.C:119-158 | Any sequence of chunks yields the messages, the error and the leftover state of the whole stream |
| `ClientConnections.ClientConnection.ReadChunk` | src/clientconnection.C:125-140 | One chunk yields its messages, its error and its leftover state |
| `Markers.SubmissionsConserved` | src/markers.C:48-188 | In every run, with any database failures, each submission's queued plus issued copies plus matching marks equal the times it was enqueued; no connection is idle twice or idle and issued; without failures idle markers and queued submissions are never both there |
| `Markers.PresentExactlyWhen` | src/markers.C:48-210 | In every run, a connection is idle or busy if and only if it subscribed and was neither dropped nor lost its work to a timeout since |
| `Markers.AskingServed` | src/markers.C:93-156 | A new marker gets the submission queued first, or becomes the last idle one; when the database fails both are put at the end |
| `Markers.SubmissionServed` | src/markers.C:80-156 | A submission goes to the marker idle longest, or to the end of the queue; when the database fails both are put at the end |
| `Markers.DoneServed` | src/markers.C:170-188 | A marker that is done gets the submission queued first or becomes the last idle one, and work it did not mark goes to the first idle marker or the end of the queue |
| `Markers.IssuedWhen` | src/markers.C:111-156 | In every run, the time kept with a job is that of the operation that issued it, and the job was held since |
| `Markers.TakenBackOnlyLate` | src/markers.C:190-210 | In every run, a job that is taken back was issued by an operation longer ago than the timeout, and held by that connection ever since |
| `Markers.ApplyOk` | src/markers.C:48-210 | Each operation keeps the invariant and changes the outstanding submissions only by enqueueing and by a matching mark |
| `Markers.PreemptOk` | src/markers.C:61-78 | After preemption the connection is neither idle nor issued, and no submission is lost |
| `Markers.TakenBackOverdue` | src/markers.C:190-210 | Work that is taken back was held longer than the timeout, also with stale records for the same pair |
| `Markers.TimedOutMarkRefused` | src/act_mark.C:256-268 | After a timeout, a plain marker's mark for that submission is legal only if it was issued to them again |
| `Markers.Dispatcher.DoIssue` | src/markers.C:111-156 | The submission is issued with a record, or queued again with the marker idle again when the database fails |
| `Markers.Dispatcher.RealEnqueueSubmission` | src/markers.C:80-91 | The submission goes to the first idle marker or to the queue |
| `Markers.Dispatcher.RealEnqueueMarker` | src/markers.C:93-103 | The marker gets the first queued submission or becomes idle |
| `Markers.Dispatcher.Subscribe` | src/markers.C:48-59 | A known marker changes nothing; a new one is given work or becomes idle |
| `Markers.Dispatcher.EnqueueSubmission` | src/markers.C:105-109 | The submission is given out or queued |
| `Markers.Dispatcher.PreemptMarker` | src/markers.C:61-78 | The connection leaves the idle list and its work is given out again or queued |
| `Markers.Dispatcher.NotifyMarked` | src/markers.C:170-188 | Issued work that was not the one marked is given out or queued again, and the marker gets new work or becomes idle; an unknown marker changes nothing |
| `Markers.Dispatcher.CheckForTimeouts` | src/markers.C:190-210 | The loop ends with no records or the newest one not overdue, each turn takes back only overdue work, and if the newest record is overdue and no marker is idle nothing stays issued |
| `Markers.Dispatcher.TakeBack` | src/markers.C:193-206 | One turn lowers idle markers or records and keeps "no idle marker and all overdue" |
| `Scoring.ScoreTeam` | src/support_standings.C:152-193 | The nested loops compute, for both tables, solved problems plus bonus points, first-correct times plus 1200 s per earlier try minus bonus seconds, and the signed tries |
| `Scoring.ScoreProblem` | src/support_standings.C:165-193 | The two passes compute the shown result over unblinded submissions and the final one over all |
| `Scoring.Pass` | src/support_standings.C:173-181 | A pass stops at the first correct submission, at the end, or in the first pass at the first blinded one |
| `Scoring.BlindsHide` | src/support_standings.C:152-193 | Two teams' data with the same unblinded submissions give the same contestant row, whatever else they hold, also on problems tried only after the blinds |
| `Scoring.SolvedBeforeBlinds` | src/support_standings.C:165-193 | A problem solved before the blinds has the same result in the final table |
| `Scoring.SameTriesWhenSolved` | src/support_standings.C:165-193 | A problem solved before the blinds has the same tries in both tables |
| `Standings.BlindsHideScores` | src/support_standings.C:113-193 | Two databases that agree on all but blinded submissions and their marks give every user the same contestant score |
| `Standings.BlindedMarkUnseen` | src/act_mark.C:128-138 | After every careful run, a mark of any kind on a blinded submission leaves every row that contestants are shown as it was |
| `Standings.CacheIsRight` | src/support_standings.C:195-210 | In every careful run of marks, bonus changes, start/stop messages and submissions, whenever a user's score from scratch shows a try, the cached row equals it, in both tables |
| `Standings.CacheIsLastTried` | src/support_standings.C:195-210 | In every run, with any deferrals, the cached row of a user is the last of the scores computed for them that shows a try, and there is none if none does |
| `Standings.RowThereExactlyWhen` | src/support_standings.C:195-210 | In every run a user has a row exactly when one of the scores computed for them showed a try |
| `Standings.CacheExactlyWhen` | src/support_standings.C:195-210 | In every run: while a user's score is still the one computed last, the cache says what a computation from scratch says, if and only if the score shows a try or none computed before did; if the score has changed since and the one computed last shows a try, the cache is wrong |
| `Standings.StaleRow` | src/dbmysql.C:1162-1167 | A run in which a mark is corrected to a compile failure and the row with the solved problem stays |
| `Standings.DeferralLeavesRow` | src/act_mark.C:136-137 | A run in which a mark that counts is changed to a deferral to a judge, and the cached row stays although the score, which still shows a try, is another |
| `Standings.TriedExactlyWhen` | src/support_standings.C:113-193 | A score shows a try exactly when the user has a counted submission that the table may show |
| `Solving.TriesFromDatabase` | src/support_standings.C:113-193 | From submissions and marks alone: tries show on exactly the problems with a try in the table, positive if and only if one is marked correct; then they count the tries up to the first correct one, and otherwise all |
| `Solving.PointsFromDatabase` | src/support_standings.C:152-193 | The points are the bonus points and the number of problems with a correct submission in the table |
| `Solving.TimeFromDatabase` | src/support_standings.C:152-193 | The time is the sum, over solved problems, of the contest time of the first correct submission and 1200 s for each try before it, less the bonus seconds |
| `Solving.PenaltyExists` | src/support_standings.C:165-193 | Every problem with a correct submission in the table has such a penalty |
| `Solving.BonusMoves` | src/support_standings.C:152-163 | A bonus message moves the user's points up and time down by the change of the bonus, and nobody else's |
| `Solving.MarkDecides` | src/dbmysql.C:1162-1167 | A submission marked by one marker has the verdict this marker gave last, and no other submission's verdict changes |
| `Solving.CorrectMarkSolves` | src/support_standings.C:121-127 | A submission that its only marker marks correct solves its problem in every table that shows it |
| `Standings.NextExists` | src/support_standings.C:73-210 | Every message can be handled from every state |
| `Standings.RunGoesOn` | src/support_standings.C:73-210 | Every run goes on with any message, and the cached row of a user then changes exactly if their score is computed and shows a try |
| `Standings.RefreshedCached` | src/support_standings.C:73-210 | One refresh leaves the rows of other users and any row whose user's score shows no try; it stores every other score |
| `Standings.ChangesOnly` | src/act_mark.C:128-138 | A message changes a cached row only if it is a mark other than a deferral for that user, their bonus, or an event whose time has come |
| `Standings.StandingsModule.Gather` | src/support_standings.C:113-145 | The loop collects every counted submission, by user and problem, in order |
| `Standings.StandingsModule.UpdateStandings` | src/support_standings.C:73-210 | Both tables get the fresh row of every gathered user with a try, and no other row changes |
| `Standings.StandingsModule.UpdateTeams` | src/support_standings.C:152-210 | The loop over users updates exactly those users |
| `Standings.StandingsModule.PutRow` | src/support_standings.C:195-209 | A row is stored exactly when it shows a try |

## Left out

- Fragments.SendMessage: requires fewer than 65535 fragments, because at 65535 the 16-bit loop that numbers the fragments does not end, and beyond that the count wraps around.
- ProblemCodec.Store: requires a buffer of at least the required size, which the caller allocates from `storageRequired`; the log entry for a smaller one is not modelled. If a string holds a NUL, only the length of what is written is stated, because the bytes after the NUL are those that the new buffer happened to hold.
- ServerCodec.Store: the same if a string holds a NUL.
- MarkCodec.Store: requires a buffer of at least the required size, for the same reason.
- StartStop.RunsShowTheTruth: due actions are performed in time order, and messages about past times arrive only when no action is overdue. `StartStop.RunsCoverTheFuture` and `StartStop.TrueExactlyWhen` hold of all runs, `Wakeups.NoneLateShowsTheTruth` derives the time order from when the thread takes the actions, and `StartStop.LateMessage` says exactly which late messages leave true states.
- Markers.Dispatcher.CheckForTimeouts: does not claim that every overdue job is taken back, because the loop looks at the newest record only.
- Resending.DebtsCanBeSettled: says that settling stays possible, not that an unfair network delivers.
- Standings.CacheIsRight: holds of careful runs, in which deferrals to a judge come only on submissions without a counted mark, and new submissions are not from the future. `Standings.CacheIsLastTried` and `Standings.CacheExactlyWhen` hold of all runs. Giving a problem a short name, or taking it away, triggers no update and is outside the runs.
- OpenSSL, sockets, encryption, checksums and address lookup: foreign calls.
- `src/udtcpmessenger.C`, `src/waitable.C` and the worker pool: thread plumbing around the modelled steps.
- Partial failure between the two statements of one database call, and all other queries of `src/dbmysql.C`.
- Problem dependencies in `src/act_problemmanip.C:391-417`: which of them are seen depends on rows of other problems.
- Database failures while a problem update is processed: the source only logs them.
- `src/serverconnection.C`, permission tables, configuration, logging, password hashing and module loading: easy or library-bound.
- The `in_standings` flag, event broadcasts to clients and the text of error replies.
- Creation of groups during a run, which refreshes a state but schedules no end-time wake-up.
- The handling of submissions dated in the future, which is disabled in the source.
- Linked-list nodes and heap arrays are modelled as sequences and multisets, so node links and heap layout are not captured.
- Overflow of line buffers and message lengths beyond 2^31 on the client wire.
- markerd, runlimit, compilers, checkers, the web application and deployment scripts.
