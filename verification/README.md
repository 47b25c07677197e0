# Karshipta protocols in Dafny

Karshipta is a ground station: a gateway in C++ talks to vehicles and trackers ("wards"), a browser
console in TypeScript talks to the gateway, and a demo engine inside the console stands in for a gateway.
This project models the parts of it that are state machines or stream algorithms, and proves what they
keep over whole runs.

| component | files | what is modelled |
|---|---|---|
| GT06 trackers | `Gt06Crc`, `Gt06CrcValues`, `Gt06Frame`, `Gt06FrameProofs`, `Gt06Stream`, `Gt06StreamProofs` | CRC-16/X-25 (the FCS of section C.2 of RFC 1662), framing in both header forms with the fallback scan, content decoding, acknowledgements, and the connection loop that reassembles frames from a byte stream |
| Fleet missions | `FleetMissions`, `FleetMissionProofs`, `FleetStopExactly`, `FleetStopProofs`, `FleetRouteProofs` | missions of many wards: create, edit, stop, remove, upload outcomes and command outcomes, with outcomes that arrive while a stop command is still being dispatched |
| Console requests | `Console`, `ConsoleProofs`, `ConsoleOutcomes`, `ConsoleAnswers` | commands, ward configuration, parameter writes, log downloads and calibrations the console is waiting on, the one timer table they share, lingering, and the loss of the link |
| Log transfer | `LogTransfer`, `LogTransferProofs` | the gateway's chunk loop, and the transfer end to end into the console's store |
| Demo engine | `DemoFlight`, `DemoFlightProofs`, `DemoFlightRuns`, `DemoFlightItems`, `DemoFlightAnswers` | manoeuvres, missions with passes, holds, pauses and resumption, and every acknowledgement and progress message they send |
| Command executor | `CommandQueue`, `CommandQueueProofs`, `CommandQueueEnds` | many threads handing commands in, one worker, shutdown, and the authority window |
| Calibration executor | `CalibrationSlot` | one calibration at a time, whoever asks |
| Staleness checker | `HeraldStaleness`, `HeraldProofs`, `HeraldStates` | many threads bringing messages in, one checker |
| Request gate | `RequestGate` | spacing, order and liveness of the console's OpenAIP requests |

`Options`, `Collections` and `Acknowledgements` hold what several components share.

How the models are built. State that the program changes in place is the fields of a class (`FleetManager`,
`FleetStore`, `FakeGateway`, `CommandExecutor`, `CalibrationExecutor`, `HeraldWardManager`,
`OpenAipRequestGate`, `Connection`); its methods carry out the program's steps, and each is proved to take
the state where a specification function takes it. The theorems are about those functions: over every
sequence of events. Where threads share state, one event is one stretch that no other thread can cut into
(usually a critical section), and the theorems hold for every interleaving of such events. An event that
is not possible in a state changes nothing, so that all sequences may be quantified over. Fields such as
`pushed`, `records`, `marks`, `passed` or `reached` are histories: the program does not keep them, the theorems need
them.

Assumptions.
- The mission store starts empty; mission, upload, command and request ids are new (they are random or taken from a clock in the program, counters or a set of ids seen here).
- Handlers of the fleet manager are atomic, except that command outcomes may be reported while a stop command is being dispatched. In particular no upload outcome is reported while a create or edit request is still handing out routes: the program writes "uploading" only after dispatching the upload.
- `find_fleet` is a parameter (whether the fleet is known); which wards refuse a route at once, and why, is a parameter.
- Clocks, sensor readings, results of vehicle calls and file reads are parameters of the events. Clocks used for spacing and staleness do not run backwards, and a pause does not end early.

Where the program and its own comments differ, the model follows the program.
- `gateway/libs/herald/include/gt06_parser.h` says a missing stop marker or an impossible length makes a frame invalid; the parser only calls a wrong header invalid, and otherwise falls back to scanning for a stop marker (`InvalidExactly` says what is invalid and what is waited for; `MissingStopWaits` is a whole frame without its stop marker that is waited for).
- The checksum flag is lost for packets whose content cannot be decoded (`CorruptionFlagged` states exactly when it is raised).
- The buffer limit of 32768 bytes is checked with "greater than" on an incomplete frame, so a frame of 32769 bytes still gets through (`SplitInsensitiveExactly` has the exact condition).
- `gateway/docs/command-executor.md` says commands still queued at shutdown are rejected, never dropped; a command pushed after the worker has drained its queue stays accepted for ever (`LateCommandIsLost`, `LateForEver`). `AnsweredForEver` has the exact condition: no thread is between its acknowledgement and the queue when the worker goes, and none is accepted afterwards.
- The number of chunks of a log is kept in 32 bits; a file of more than about 3.5 PiB would be cut short (`EndToEnd` states exactly when the file arrives whole).
- The request gate does not read the cooldown again after a pause, so a start can fall into a cooldown (`CooldownCanBeOverrun`). It never does if failures are noted outside of pauses only (`NoEarlyStart`); one noted during a pause is overrun by the pause's punctual end, unless both end together (`OverrunExactly`).
- The request gate stops for good if a task rejects (`DeadForEver`).

## Model

| member | source | states |
|---|---|---|
| Gt06Crc.ComputeChecksum | gateway/libs/herald/src/gt06_parser.cpp:83-101 | the byte-and-bit loop computes the reflected CRC register, complemented, for every message |
| Gt06Crc.RegisterIsFeed | gateway/libs/herald/src/gt06_parser.cpp:83-101 | the register after a message is the result of shifting in the message's bits one by one |
| Gt06Crc.TableDriven | gateway/libs/herald/src/gt06_parser.cpp:83-101 | the bitwise register equals the register of the table-driven form of RFC 1662, from any start value |
| Gt06Crc.ChecksumAffine | gateway/libs/herald/src/gt06_parser.cpp:83-101 | the checksum of the exclusive or of three messages of one length is the exclusive or of their checksums |
| Gt06Crc.ShiftBitInjective | gateway/libs/herald/src/gt06_parser.cpp:83-101 | one shift of the register can be undone |
| Gt06Crc.BurstDetected | gateway/libs/herald/src/gt06_parser.cpp:83-101 | two messages that differ only within sixteen consecutive bits have the same checksum only if they are equal |
| Gt06Crc.SeventeenBitsMissed | gateway/libs/herald/src/gt06_parser.cpp:83-101 | sixteen is sharp: one seventeen-bit burst is missed over any three bytes |
| Gt06CrcValues.KnownAnswer | gateway/libs/herald/src/gt06_parser.cpp:83-101 | the digits one to nine come to 0x906E, the check value of CRC-16/X-25 |
| Gt06CrcValues.NothingIsZero | gateway/libs/herald/src/gt06_parser.cpp:83-101 | the empty message comes to zero: the start value and the final complement are the same |
| Gt06CrcValues.GoodResidue | gateway/libs/herald/src/gt06_parser.cpp:83-101 | any message followed by its own checksum, low byte first, leaves 0xF0B8 in the register, the good FCS of RFC 1662 |
| Gt06Frame.DecodeImei | gateway/libs/herald/src/gt06_parser.cpp:40-57 | the digit loop yields the identity: sixteen packed digits less one padding zero |
| Gt06Frame.ScanForStop | gateway/libs/herald/src/gt06_parser.cpp:159-178 | the scan ends at the first literal stop marker past the header, if there is one |
| Gt06Frame.ParseFrame | gateway/libs/herald/src/gt06_parser.cpp:103-249 | framing and decoding give, for every buffer, the frame's length, packet and checksum flag, or "incomplete", or "invalid" |
| Gt06Frame.DecodeFields | gateway/libs/herald/src/gt06_parser.cpp:196-249 | type, content, serial number and checksum are read from the offsets the length field gives, within the whole buffer, and the flag is raised only for content that decodes |
| Gt06Frame.ParseContent | gateway/libs/herald/src/gt06_parser.cpp:251-316 | reading each field at its own offset, with its flags and signs, yields what the content means; nothing comes of a login shorter than 8 bytes or a position that is too short or marked void, and of those only |
| Gt06Frame.BuildAck | gateway/libs/herald/src/gt06_parser.cpp:318-352 | logins and heartbeats get a sealed frame with their serial number, other packets none |
| Gt06FrameProofs.OkConsumesAFrame | gateway/libs/herald/src/gt06_parser.cpp:103-249 | a decoded frame takes at least four bytes, no more than there are, and ends in a stop marker |
| Gt06FrameProofs.InvalidExactly | gateway/libs/herald/src/gt06_parser.cpp:103-178 | a buffer is invalid if and only if its first two bytes are no header, and awaited if and only if it is too short for one or has a header and no stop marker anywhere |
| Gt06FrameProofs.MissingStopWaits | gateway/libs/herald/src/gt06_parser.cpp:103-178 | a frame of the declared length without its stop marker is awaited, not invalid |
| Gt06FrameProofs.UnreadableFields | gateway/libs/herald/src/gt06_parser.cpp:196-220 | a frame whose length field has no room for the fields, or points past the end, is consumed up to the first stop marker as an unsupported packet with serial number 0 and no flag |
| Gt06FrameProofs.FrameLocal | gateway/libs/herald/src/gt06_parser.cpp:103-249 | bytes after a well-declared frame have no influence on how it is decoded, and exactly it is consumed |
| Gt06FrameProofs.PrefixWaits | gateway/libs/herald/src/gt06_parser.cpp:159-178 | no proper prefix of a frame without an inner stop marker is taken for a frame |
| Gt06FrameProofs.InnerStopCuts | gateway/libs/herald/src/gt06_parser.cpp:159-178 | a frame with an inner stop marker is cut short by the first prefix that decodes, and every shorter one waits |
| Gt06FrameProofs.SealedParses | gateway/libs/herald/src/gt06_parser.cpp:180-249 | a frame built from type, content, serial number and any checksum decodes to those fields in both header forms, whatever follows |
| Gt06FrameProofs.EncodeParses | gateway/libs/herald/src/gt06_parser.cpp:103-249 | a correctly sealed frame decodes to its own fields with its exact length and no flag |
| Gt06FrameProofs.AcksParse | gateway/libs/herald/src/gt06_parser.cpp:318-352 | for every serial number a heartbeat's acknowledgement decodes as that heartbeat, a login's frames with its serial number but as unsupported |
| Gt06FrameProofs.LoginAckBytes | gateway/libs/herald/src/gt06_parser.cpp:318-352 | the very bytes that answer the login with serial number one |
| Gt06FrameProofs.KindsExactly | gateway/libs/herald/src/gt06_parser.cpp:251-316 | decoded content is a login, position or heartbeat exactly for the type bytes 0x01, 0x10 and 0x23, and only the first two carry an identity and a fix |
| Gt06FrameProofs.CorruptionFlagged | gateway/libs/herald/src/gt06_parser.cpp:233-248 | a burst of up to sixteen bits in the covered bytes after the length field is flagged if and only if the received content still decodes |
| Gt06FrameProofs.ImeiRoundTrip | gateway/libs/herald/src/gt06_parser.cpp:40-57 | every fifteen-digit identity survives packing |
| Gt06FrameProofs.ImeiInjective | gateway/libs/herald/src/gt06_parser.cpp:40-57 | different identity fields decode to different identities |
| Gt06FrameProofs.LocationRoundTrip | gateway/libs/herald/src/gt06_parser.cpp:267-301 | a packed position decodes to its own coordinates in degrees (its readings over 1,800,000, negative for south and west), validity and satellites |
| Gt06Stream.Connection.HandlePacket | gateway/libs/herald/src/gt06_tcp_server.cpp:229-272 | one packet: remember a login's identity, hand on a position under it, acknowledge, and drop the frame's bytes |
| Gt06Stream.Connection.OnRecv | gateway/libs/herald/src/gt06_tcp_server.cpp:200-275 | one read: append, then decode frame after frame until the rest is incomplete, too long or invalid |
| Gt06Stream.Connection.Run | gateway/libs/herald/src/gt06_tcp_server.cpp:182-279 | the whole connection: the reads in turn until the stream desyncs |
| Gt06StreamProofs.NothingLost | gateway/libs/herald/src/gt06_tcp_server.cpp:191-274 | bytes received are the consumed frames followed by the buffer at every point, the buffer stays within 32768 + 1024 bytes, positions carry the latest earlier login, and acknowledgements are those of the packets in order |
| Gt06StreamProofs.BatchLogs | gateway/libs/herald/src/gt06_tcp_server.cpp:229-272 | frames, packets, positions handed on and acknowledgements of a stream of clean frames, each from the packets alone |
| Gt06StreamProofs.StreamingEqualsBatch | gateway/libs/herald/src/gt06_tcp_server.cpp:191-274 | clean frames come out as those very frames, with the same positions and acknowledgements, for every way of splitting the stream |
| Gt06StreamProofs.SplitInsensitiveExactly | gateway/libs/herald/src/gt06_tcp_server.cpp:191-274 | decoding is independent of the splitting if and only if no frame has an inner stop marker and none is longer than 32769 bytes |
| Gt06StreamProofs.SomeSplitFails | gateway/libs/herald/src/gt06_tcp_server.cpp:203-215 | for any other stream of well-declared frames there is a split that loses the frames |
| FleetMissions.FleetManager.UpdateWardState | gateway/libs/fleet/src/fleet_mission_store.cpp:293-309 | exactly one ward's row is overwritten; an unknown mission or ward changes nothing |
| FleetMissions.FleetManager.SetStatus | gateway/libs/fleet/src/fleet_mission_store.cpp:311-322 | exactly one mission's aggregate status is overwritten |
| FleetMissions.FleetManager.MaybeFinalizeStop | gateway/libs/fleet/src/fleet_manager.cpp:711-722 | a stopping mission becomes stopped exactly when all its wards are settled |
| FleetMissions.FleetManager.InsertRoutes | gateway/libs/fleet/src/fleet_mission_store.cpp:207-219 | rows are inserted route by route; the loop fails at the first ward that already has one, which happens if and only if a ward has two routes |
| FleetMissions.FleetManager.CreateFleetMission | gateway/libs/fleet/src/fleet_mission_store.cpp:175-222 | a mission with exactly the given routes is added to tables and listing, or, if a ward has two, the tables are put back as they were |
| FleetMissions.FleetManager.UpdateWardPlans | gateway/libs/fleet/src/fleet_mission_store.cpp:324-375 | all rows of a known mission are replaced by those of the new routes, or the tables are put back as they were |
| FleetMissions.FleetManager.HandleCommandOutcome | gateway/libs/fleet/src/fleet_manager.cpp:639-684 | a terminal outcome of a pending stop settles or revives its ward, clears the entry and finalizes; any other is ignored |
| FleetMissions.FleetManager.DispatchCommand | gateway/libs/fleet/src/fleet_manager.cpp:460-477 | outcomes reported before the dispatch returns take effect one after another |
| FleetMissions.FleetManager.StopOne | gateway/libs/fleet/src/fleet_manager.cpp:444-478 | the ward is marked and the command entered before anything can answer it |
| FleetMissions.FleetManager.HandleStop | gateway/libs/fleet/src/fleet_manager.cpp:419-504 | the loop over the snapshot, the aggregate and the reply, for every pattern of outcomes inside it |
| FleetMissions.FleetManager.UploadPlans | gateway/libs/fleet/src/fleet_manager.cpp:383-402 | each ward gets its own route under its own new upload id, or is refused with the reason |
| FleetMissions.FleetManager.HandleCreate | gateway/libs/fleet/src/fleet_manager.cpp:346-417 | the reply and the whole new state: for an unknown fleet, no routes, a ward with two routes, and otherwise |
| FleetMissions.FleetManager.HandleEdit | gateway/libs/fleet/src/fleet_manager.cpp:506-588 | the reply and the whole new state: for an unknown mission, an unsettled ward, no routes, a ward with two routes, and otherwise |
| FleetMissions.FleetManager.HandleRemove | gateway/libs/fleet/src/fleet_manager.cpp:595-637 | a mission is removed exactly if all its wards are settled |
| FleetMissions.FleetManager.HandleUploadOutcome | gateway/libs/fleet/src/fleet_manager.cpp:686-709 | the first listed mission waiting for this upload has that ward answered |
| FleetMissionProofs.EveryRun | gateway/libs/fleet/src/fleet_manager.cpp:346-722 | over every run: pending stops and stopping wards correspond one to one; a stopped aggregate has only settled wards and a stopping one has an unsettled ward and none still uploading; plans and states have the same wards; upload ids are unique |
| FleetMissionProofs.AfterAckKeeps | gateway/libs/fleet/src/fleet_manager.cpp:639-684 | a command outcome keeps that invariant |
| FleetMissionProofs.AfterUploadKeeps | gateway/libs/fleet/src/fleet_manager.cpp:686-709 | an upload outcome keeps it |
| FleetMissionProofs.StopWardEffect | gateway/libs/fleet/src/fleet_manager.cpp:444-478 | one turn of the stop loop, with any outcomes inside it, keeps it; the ward ends stopping or answered, other wards unchanged or answered |
| FleetMissionProofs.AfterStopKeeps | gateway/libs/fleet/src/fleet_manager.cpp:419-504 | a stop request keeps it |
| FleetMissionProofs.AfterCreateKeeps | gateway/libs/fleet/src/fleet_mission_store.cpp:175-222 | a create request keeps it, refused or not |
| FleetMissionProofs.AfterEditKeeps | gateway/libs/fleet/src/fleet_mission_store.cpp:324-375 | an edit request keeps it, refused or not |
| FleetMissionProofs.AfterRemoveKeeps | gateway/libs/fleet/src/fleet_manager.cpp:595-637 | a remove request keeps it |
| FleetMissionProofs.SortedIdsAscend | gateway/libs/fleet/src/fleet_mission_store.cpp:241-262 | wards are listed in ascending order of id |
| FleetStopExactly.StopExactly | gateway/libs/fleet/src/fleet_manager.cpp:437-491 | for every pattern of outcomes, of any commands, reported while its commands are dispatched: each live ward ends as the first terminal outcome of its own command since its dispatch says, stopped or active with the reason, or else stopping with exactly one new entry; wards of pending stops end as the first outcome of theirs says and no other row changes; the reply counts the live wards and the aggregates match |
| FleetStopExactly.AcksExactly | gateway/libs/fleet/src/fleet_manager.cpp:639-684 | after any sequence of outcomes each pending stop's row is as its first terminal outcome says, or as before if it has none; its entry is gone exactly if it has one; no other row changes |
| FleetStopProofs.StopOnItsOwn | gateway/libs/fleet/src/fleet_manager.cpp:437-491 | if each dispatch is answered by its own command at most, every row outside the mission and every earlier entry is untouched, and each live ward's row depends on its own dispatch only |
| FleetStopProofs.OwnAcks | gateway/libs/fleet/src/fleet_manager.cpp:656-676 | of several outcomes of one command only the first terminal one counts |
| FleetStopProofs.FailedStopShows | gateway/libs/fleet/src/fleet_manager.cpp:639-684 | in every reachable state a pending stop's success leaves its ward stopped, a rejection active with the reason, a timeout active and saying so; after either of the latter the mission is not settled and its removal is refused |
| FleetStopProofs.NeverStuck | gateway/libs/fleet/src/fleet_manager.cpp:595-637 | from every reachable state: a stop without refusals, then a success for each of its pending entries in any order, and the mission can be removed |
| FleetStopProofs.SuccessIsProgress | gateway/libs/fleet/src/fleet_manager.cpp:656-676 | each success lowers the number of stopping wards by one |
| FleetRouteProofs.PlacedExactly | gateway/libs/fleet/src/fleet_manager.cpp:383-402 | a new or edited mission has exactly the requested wards, each uploading under an unused id or refused with its reason, and no other row changes |
| FleetRouteProofs.CreatedExactly | gateway/libs/fleet/src/fleet_manager.cpp:346-417 | a request to create is accepted exactly if the fleet is known, there are routes and no ward has two; the new mission then has the given name, repetitions and routes, each ward uploading under a new id or refused with its reason, in order of id; nothing else changes |
| FleetRouteProofs.EditedExactly | gateway/libs/fleet/src/fleet_manager.cpp:506-588 | a request to edit is accepted exactly if the mission is known, all its wards are stopped or rejected, there are routes and no ward has two; the mission is then as requested and nothing else changes |
| FleetRouteProofs.DuplicateWardsRefused | gateway/libs/fleet/src/fleet_mission_store.cpp:175-222 | a create or edit request that nothing else speaks against is refused if and only if some ward has two routes in it, and then no table changes |
| FleetRouteProofs.UploadExactly | gateway/libs/fleet/src/fleet_manager.cpp:686-709 | an upload outcome changes one row, of the one mission waiting for that very upload, to active or to rejected with the reason; or nothing |
| FleetRouteProofs.StaleUploadIgnored | gateway/libs/fleet/src/fleet_manager.cpp:506-588 | an outcome of an upload begun before an edit leaves the edited mission alone |
| FleetRouteProofs.UnsettledOnlyByEdit | gateway/libs/fleet/src/fleet_manager.cpp:506-588 | a settled ward changes only through an accepted edit of its mission |
| Console.Reassemble | console/src/lib/fleet-store.svelte.ts:1410-1417 | every piece is written inside the buffer, which ends up as the pieces end to end |
| Console.FleetStore.Send | console/src/lib/fleet-store.svelte.ts:551-602 | a new request is tracked with a timeout, or refused at once in a read-only session or without a channel |
| Console.FleetStore.SettleRequest | console/src/lib/fleet-store.svelte.ts:1258-1339 | an open request of that kind takes the status; a terminal one clears its timeout and starts its lingering |
| Console.FleetStore.RequestDownloadLogFile | console/src/lib/fleet-store.svelte.ts:798-846 | a new download is tracked with a timeout, or refused at once |
| Console.FleetStore.ApplyDownloadLogFileAck | console/src/lib/fleet-store.svelte.ts:1358-1386 | only a pending download reacts: refused, complete and empty, or under way with an empty table and a new timeout |
| Console.FleetStore.ApplyLogFileChunk | console/src/lib/fleet-store.svelte.ts:1396-1422 | only a download under way reacts: aborted, chunk ignored, chunk kept with a new timeout, or complete with all pieces joined |
| Console.FleetStore.SettleLogDownload | console/src/lib/fleet-store.svelte.ts:1459-1473 | an open download is refused, its table and timeout dropped |
| Console.FleetStore.CompleteLogDownload | console/src/lib/fleet-store.svelte.ts:1440-1457 | the file is saved once, the timeout dropped |
| Console.FleetStore.RequestStartCalibration | console/src/lib/fleet-store.svelte.ts:861-910 | a new run replaces the ward's earlier one, whose timeout stays behind |
| Console.FleetStore.ApplyCalibrationProgress | console/src/lib/fleet-store.svelte.ts:1483-1519 | only the current run of the ward reacts, with a new timeout while it is running |
| Console.FleetStore.SettleCalibration | console/src/lib/fleet-store.svelte.ts:1521-1541 | only the current, running run is ended |
| Console.FleetStore.ClearCalibrationRun | console/src/lib/fleet-store.svelte.ts:952-961 | the run and its timeout go |
| Console.FleetStore.FireTimeout | console/src/lib/fleet-store.svelte.ts:830-835 | a timeout that fires runs the callback it was armed with |
| Console.FleetStore.FireLinger | console/src/lib/fleet-store.svelte.ts:1470-1472 | a settled tracker is deleted, a run only if it is still the same one |
| Console.FleetStore.LoseLink | console/src/lib/fleet-store.svelte.ts:464-511 | both loops end exactly the running calibrations and open downloads of gateway wards |
| ConsoleProofs.EveryRun | console/src/lib/fleet-store.svelte.ts:551-1541 | over every interleaving: each open request, download and running calibration has its own timeout armed and settled ones have none; a chunk table exists exactly for downloads under way, is not full, and holds the bytes counted; settled trackers are on their way out unless read-only; a file is saved at most once, exactly for complete downloads |
| ConsoleOutcomes.SettledForGood | console/src/lib/fleet-store.svelte.ts:1258-1541 | over every run a terminal status never changes and no deleted or replaced request comes back |
| ConsoleOutcomes.TimeoutSettles | console/src/lib/fleet-store.svelte.ts:1258-1541 | in every reachable state the timeout of an open tracker is armed and would settle it, saving nothing: a command as timed out, configuration, parameter writes, downloads and unanswered calibrations as rejected, a calibration that was making progress as failed, each with what was missing |
| ConsoleOutcomes.LinkDownSettles | console/src/lib/fleet-store.svelte.ts:475-510 | after a lost link no download is open and no calibration running on a gateway ward, those that were are refused or failed for the lost link, all others are as before, and open commands, ward configurations and parameter writes of any ward stay open, each with its timeout armed |
| ConsoleOutcomes.NewerRunUntouched | console/src/lib/fleet-store.svelte.ts:1483-1541 | progress, timeouts and clean-ups of an earlier calibration change neither the newer run of the ward nor its timeout |
| ConsoleAnswers.AskShown | console/src/lib/fleet-store.svelte.ts:551-602 | a new request is open with its timeout, or refused for a read-only session (never configuration) or a missing channel; nothing else changes |
| ConsoleAnswers.AnswerShown | console/src/lib/fleet-store.svelte.ts:1258-1339 | an answer shows on the open request of that kind and id, whose timeout goes exactly with a final status; any other answer changes nothing |
| ConsoleAnswers.AskDownloadShown | console/src/lib/fleet-store.svelte.ts:798-846 | a new download is pending with its timeout, or refused for the reason; nothing else changes |
| ConsoleAnswers.DownloadAckShown | console/src/lib/fleet-store.svelte.ts:1358-1386 | only a pending download reacts to its acknowledgement: refused with the reason, complete with an empty file saved, or under way with the totals and a new timeout |
| ConsoleAnswers.SettleDownloadShown | console/src/lib/fleet-store.svelte.ts:1459-1473 | an open download given up is refused with the reason, its pieces and timeout dropped; a settled one stays as it is |
| ConsoleAnswers.AskRunShown | console/src/lib/fleet-store.svelte.ts:861-910 | a new calibration is running with its timeout, or refused for the reason; nothing else changes |
| ConsoleAnswers.ProgressShown | console/src/lib/fleet-store.svelte.ts:1483-1519 | progress shows on the ward's current running calibration, with a new timeout exactly while it goes on; any other changes nothing |
| ConsoleAnswers.SettleRunShown | console/src/lib/fleet-store.svelte.ts:1521-1541 | only the ward's current running calibration of that id is ended, with the status and reason given |
| ConsoleAnswers.LeaveRunShown | console/src/lib/fleet-store.svelte.ts:952-961 | the ward's calibration and its own timeout go, and nothing else |
| ConsoleAnswers.SendFailureShown | console/src/lib/fleet-store.svelte.ts:551-602 | a request that could not be sent, if still open, is refused with the reason |
| LogTransfer.ExecuteDownload | gateway/libs/ward/src/log_download_executor.cpp:112-227 | the messages sent for each way fetching a log can end |
| LogTransfer.StreamFile | gateway/libs/ward/src/log_download_executor.cpp:165-218 | the read loop sends the acknowledgement and the chunks of the file, up to a shutdown or a failed read |
| LogTransfer.PiecesArePrefix | gateway/libs/ward/src/log_download_executor.cpp:165-218 | the first chunks of a file end to end are its beginning, for any number of them |
| LogTransfer.ChunksAreFull | gateway/libs/ward/src/log_download_executor.cpp:165-218 | every chunk but the last has 917,504 bytes, and the last is not empty |
| LogTransfer.AllChunksSent | gateway/libs/ward/src/log_download_executor.cpp:188-218 | undisturbed, every announced chunk is sent, numbered in order |
| LogTransfer.StreamDemoLog | console/src/lib/fake/fleet-sim.ts:1192-1247 | the demo engine's chunk loop sends as many numbered chunks as 4096-byte pieces are needed, and they make up its filler log, byte i being i modulo 256 |
| LogTransferProofs.DeliveredInAnyOrder | console/src/lib/fleet-store.svelte.ts:1358-1422 | chunks in any order, repeated, and mixed with anything else the console does: the log is saved exactly once, whole, and exactly when its last missing chunk is in |
| LogTransferProofs.SentChunksAreHarmless | gateway/libs/ward/src/log_download_executor.cpp:188-218 | every chunk the gateway sends for a file may arrive at any moment of that transfer |
| LogTransferProofs.EndToEnd | gateway/libs/ward/src/log_download_executor.cpp:165-218 | once all the gateway's messages have arrived exactly one file is saved, and it is the gateway's file if and only if that has at most 917,504 times 4,294,967,295 bytes; the size and number of chunks shown are those announced |
| LogTransferProofs.RefusedDownload | gateway/libs/ward/src/log_download_executor.cpp:118-163 | a log that cannot be listed, found, fetched or read has its download end as refused with that very reason, and nothing saved then or later |
| LogTransferProofs.CutShort | gateway/libs/ward/src/log_download_executor.cpp:188-218 | a shutdown leaves exactly the chunks before it sent; a failed read adds one rejected chunk |
| LogTransferProofs.AbandonedSavesNothing | console/src/lib/fleet-store.svelte.ts:1399-1403 | a transfer aborted before its last chunk is refused with the reason given and saves nothing, whatever follows |
| LogTransferProofs.ClosedForGood | console/src/lib/fleet-store.svelte.ts:1358-1473 | a download that is over saves nothing more, whatever follows |
| DemoFlight.FakeGateway.Aim | console/src/lib/fake/fleet-sim.ts:1479-1514 | the newer manoeuvre takes the ward's target; the command it pushes aside is told so |
| DemoFlight.FakeGateway.InterruptMission | console/src/lib/fake/fleet-sim.ts:1524-1541 | the mission and its motion end and its start command is told so |
| DemoFlight.FakeGateway.FlyToCurrentItem | console/src/lib/fake/fleet-sim.ts:1543-1581 | the next supported item becomes the target; others are skipped; the mutual recursion terminates by passes left, then items ahead |
| DemoFlight.FakeGateway.AdvanceMission | console/src/lib/fake/fleet-sim.ts:1583-1618 | next item, next pass, or the end with its one success |
| DemoFlight.FakeGateway.HandleCommand | console/src/lib/fake/fleet-sim.ts:1305-1477 | the effect and the answer of every command, on known and unknown wards |
| DemoFlight.FakeGateway.HandleMissionUpload | console/src/lib/fake/fleet-sim.ts:1289-1303 | a new mission replaces the old and drops a run without a word |
| DemoFlight.FakeGateway.TickWard | console/src/lib/fake/fleet-sim.ts:1640-1647 | a hold that is over moves on, then motion and arrival |
| DemoFlight.FakeGateway.Arrive | console/src/lib/fake/fleet-sim.ts:1811-1850 | hold at or move past an item, finish a manoeuvre, or descend |
| DemoFlightProofs.FlyFliesOn | console/src/lib/fake/fleet-sim.ts:1543-1581 | flying on either takes over the target for a later item of the same run, telling at most the preempted command, or ends the run with one success to its start command |
| DemoFlightProofs.AdvanceFliesOn | console/src/lib/fake/fleet-sim.ts:1583-1618 | the same for stepping past an item; the items passed stay in order |
| DemoFlightProofs.CommandedMoves | console/src/lib/fake/fleet-sim.ts:1305-1477 | a command tells only itself and what its ward was doing, and leaves a sound ward |
| DemoFlightProofs.TickedMoves | console/src/lib/fake/fleet-sim.ts:1766-1850 | so does a tick |
| DemoFlightRuns.EveryRun | console/src/lib/fake/fleet-sim.ts:1289-1884 | over every run: each command is told at most "executing" and then one terminal answer, and nothing after it; a mission reported finished has passed all its items in order, once more than its repeat count, just before its success; no two wards carry out one command; a mission under way is in the air and heading, holding or paused |
| DemoFlightRuns.MissionFate | console/src/lib/fake/fleet-sim.ts:1583-1618 | a mission goes on (across pauses and resumes, nothing passed twice) or the last that was sent is that it is finished and its start command told so, unless one of the listed events ended it |
| DemoFlightRuns.ManoeuvreEnds | console/src/lib/fake/fleet-sim.ts:1351-1412 | a takeoff, landing, return or goto takes over from what the ward was doing, which is told it lost; reached, it succeeds, a landing on the ground and disarmed, any other holding in the air |
| DemoFlightRuns.FlownToTheEnd | console/src/lib/fake/fleet-sim.ts:1640-1647 | left alone, a mission is reported finished and its start command told so within twice as many ticks as it has items to pass |
| DemoFlightItems.FlyItems | console/src/lib/fake/fleet-sim.ts:1543-1581 | flying on from an item nobody has announced yet ends with a supported item announced and headed for, each item in between reported as skipped, or with the mission finished as below |
| DemoFlightItems.EveryItem | console/src/lib/fake/fleet-sim.ts:1543-1618 | over every run: a ward on a mission has a supported current item, and the messages since the mission's start announce exactly the supported items met so far, in order, and skip exactly the others; a mission reported finished has announced each supported item, in order, once more than its repeat count, and the ward has reached each of them every time |
| DemoFlightItems.FlownWhole | console/src/lib/fake/fleet-sim.ts:1583-1618 | left alone, a mission is reported finished within twice as many ticks as it has items to pass, after every supported item was announced and reached on every pass |
| DemoFlightAnswers.AnsweredRightly | console/src/lib/fake/fleet-sim.ts:1305-1477 | a command that cannot be carried out is rejected and changes nothing; arming, disarming, pausing and setting home succeed at once with their effect; any other is told it is being carried out |
| DemoFlightAnswers.NoShortCut | console/src/lib/fake/fleet-sim.ts:1640-1647 | a tick leaves an item behind only if it was reached, and one to hold at only if the hold is over |
| DemoFlightAnswers.ManoeuvreTicks | console/src/lib/fake/fleet-sim.ts:1766-1850 | a manoeuvre succeeds exactly on the tick that reaches its target, a landing exactly if that is on the ground; otherwise it goes on unchanged |
| DemoFlightAnswers.UploadedExactly | console/src/lib/fake/fleet-sim.ts:1289-1303 | an upload replaces the mission of one ward and drops its run without a word; other wards are as before |
| DemoFlightAnswers.SpawnedExactly | console/src/lib/fake/fleet-sim.ts:470-495 | a new ward is armed and on patrol in the air, and removing it leaves no trace |
| DemoFlightAnswers.NoneFliesDisarmed | console/src/lib/fake/fleet-sim.ts:1305-1477 | over every run whatever is in the air is armed |
| CommandQueue.CommandExecutor.Enqueue | gateway/libs/ward/src/command_executor.cpp:156-161 | a command without an action is refused, any other accepted before it is queued |
| CommandQueue.CommandExecutor.PushBack | gateway/libs/ward/src/command_executor.cpp:162-166 | it joins the end of the queue |
| CommandQueue.CommandExecutor.WakeUp | gateway/libs/ward/src/command_executor.cpp:169-187 | the worker takes the front command, or starts refusing once a stop is requested |
| CommandQueue.CommandExecutor.CheckAuthority | gateway/libs/ward/src/command_executor.cpp:225-232 | a gated command outside the window is refused; any other is let through |
| CommandQueue.CommandExecutor.RefuseOne | gateway/libs/ward/src/command_executor.cpp:189-193 | what is left at shutdown is refused one by one |
| CommandQueueProofs.EveryRun | gateway/libs/ward/src/command_executor.cpp:156-232 | over every interleaving: each command is told a prefix of accepted and one end, or refused for having no action; the accepted ones are exactly those answered, being carried out, queued or on their way to the queue, each in one of these places; answers come in the order of the queue; no gated command more than 5000 ms from its time is let through, and none twice |
| CommandQueueProofs.WindowExactly | gateway/libs/ward/src/command_executor.cpp:225-232 | a command is let through exactly if it is not gated or within 5000 ms of its time on either side, and refused on the spot otherwise |
| CommandQueueProofs.DriftIsDistance | gateway/libs/ward/src/command_executor.cpp:225-232 | the 64-bit subtraction never wraps: it is the distance of the two times |
| CommandQueueProofs.AnsweredAfterShutdown | gateway/libs/ward/src/command_executor.cpp:189-194 | once the worker is gone, every accepted command has its answer if and only if the queue is empty and no thread is on its way to it |
| CommandQueueProofs.AnsweredForEver | gateway/libs/ward/src/command_executor.cpp:156-194 | for every continuation of a run in which the worker has just gone: everything ever accepted is answered if and only if no thread was on its way to the queue at that moment and none is accepted later |
| CommandQueueProofs.LateForEver | gateway/libs/ward/src/command_executor.cpp:156-167 | an accepted command without an answer then stays without one, whatever follows |
| CommandQueueProofs.LateCommandIsLost | gateway/libs/ward/src/command_executor.cpp:156-194 | a run in which that happens |
| CommandQueueEnds.EndsRightly | gateway/libs/ward/src/command_executor.cpp:188-232 | over every interleaving: a command is told accepted and success if and only if the vehicle was asked and carried it out; accepted and rejected if and only if the vehicle declined, or it came more than 5000 ms from its time, or it was left in the queue at a requested stop, and in the latter two the vehicle was never asked |
| CommandQueueEnds.HandedIn | gateway/libs/ward/src/command_executor.cpp:156-166 | a new command is refused exactly if it has no action, and otherwise accepted and on its way to the queue |
| CommandQueueEnds.NothingAfterStop | gateway/libs/ward/src/command_executor.cpp:174-182 | once a stop is requested the vehicle is asked nothing more than what is already under way |
| CommandQueueEnds.HeadIsServed | gateway/libs/ward/src/command_executor.cpp:183-204 | a queued command's turn ends with the answer the vehicle gave |
| CommandQueueEnds.ShutdownCompletes | gateway/libs/ward/src/command_executor.cpp:188-194 | after a stop request an idle worker refuses every queued command and goes |
| CalibrationSlot.CalibrationExecutor.EnqueueStart | gateway/libs/ward/src/calibration_executor.cpp:42-73 | refused for an unknown type or a held slot, else the slot is taken at once |
| CalibrationSlot.CalibrationExecutor.Execute | gateway/libs/ward/src/calibration_executor.cpp:134-186 | any number of reports, then one result |
| CalibrationSlot.CalibrationExecutor.WakeUp | gateway/libs/ward/src/calibration_executor.cpp:107-132 | the worker takes the job, or drops what is queued and frees the slot |
| CalibrationSlot.EveryRun | gateway/libs/ward/src/calibration_executor.cpp:42-186 | over every interleaving: queued plus busy is one exactly when the slot is held, else zero; a refused start hears one refusal only; an admitted one hears reports and then exactly one result, unless dropped at shutdown or admitted after it |
| CalibrationSlot.AskedExactly | gateway/libs/ward/src/calibration_executor.cpp:42-73 | a start is refused exactly if its type is unknown or the slot is held, and otherwise has the slot at once |
| CalibrationSlot.ResultTold | gateway/libs/ward/src/calibration_executor.cpp:134-186 | the result told is the one the vehicle gave, after any reports |
| CalibrationSlot.StopsOnlyWhenAsked | gateway/libs/ward/src/calibration_executor.cpp:107-132 | nothing is dropped before a stop is requested and nothing begun after |
| CalibrationSlot.ComesThrough | gateway/libs/ward/src/calibration_executor.cpp:42-186 | with the slot free a start comes through and frees it again, and an idle worker asked to stop goes |
| HeraldStaleness.HeraldWardManager.FirstSight | gateway/libs/herald/src/herald_ward_manager.cpp:232-246 | the first thread to see a ward, and only it, is to announce it |
| HeraldStaleness.HeraldWardManager.Remember | gateway/libs/herald/src/herald_ward_manager.cpp:264-278 | the latest message is stored as connected and unmarked, the time it replaces handed back |
| HeraldStaleness.HeraldWardManager.SendOn | gateway/libs/herald/src/herald_ward_manager.cpp:280-304 | the flags that apply, then the state |
| HeraldStaleness.HeraldWardManager.Sweep | gateway/libs/herald/src/herald_ward_manager.cpp:155-165 | the loop marks exactly the unmarked wards silent for the timeout |
| HeraldStaleness.HeraldWardManager.SendDue | gateway/libs/herald/src/herald_ward_manager.cpp:166-188 | a ward found silent is sent as gone only if it is still marked |
| HeraldProofs.EveryRun | gateway/libs/herald/src/herald_ward_manager.cpp:146-304 | over every interleaving: marked exactly if stored as gone; a mark follows a silence of the timeout and two marks have a message between them; each ward is announced once; a message is flagged out of order exactly if it goes back in time, and once |
| HeraldProofs.SweepMarksAll | gateway/libs/herald/src/herald_ward_manager.cpp:155-165 | after a sweep every swept ward silent for the timeout is marked |
| HeraldStates.EveryMessage | gateway/libs/herald/src/herald_ward_manager.cpp:280-304 | over every interleaving: each message sent on is one connected state of its ward, with a clock warning exactly if its time is ahead of the gateway's; a ward is sent as gone no more often than it was marked |
| HeraldStates.GoneExactly | gateway/libs/herald/src/herald_ward_manager.cpp:166-188 | a ward found silent is sent as gone exactly if nothing was stored for it since |
| HeraldStates.SilenceIsReported | gateway/libs/herald/src/herald_ward_manager.cpp:155-188 | a connected ward silent for the timeout is marked, queued, and sent as gone in its turn |
| HeraldStates.GoesThrough | gateway/libs/herald/src/herald_ward_manager.cpp:232-304 | a message comes through: its ward announced if new, stored as connected and latest, and sent on |
| RequestGate.OpenAipRequestGate.Add | console/src/lib/openaip/request-gate.ts:44-52 | the task is queued and the loop started unless it runs |
| RequestGate.OpenAipRequestGate.Turn | console/src/lib/openaip/request-gate.ts:63-80 | one turn of the loop: done, a pause of the gap or cooldown still to go, or the next start |
| RequestGate.PauseExactly | console/src/lib/openaip/request-gate.ts:66-76 | the loop pauses exactly until the later of the gap and the cooldown known then, and not at all if that is past |
| RequestGate.NoEarlyStart | console/src/lib/openaip/request-gate.ts:59-80 | in every run in which no failure is noted during a pause, no start falls into a cooldown |
| RequestGate.OverrunExactly | console/src/lib/openaip/request-gate.ts:59-80 | in every reachable pause: its end starts a task early if and only if the cooldown in force then goes on; a failure noted during it makes its punctual end early if and only if the cooldown it sets does not end with the pause |
| RequestGate.EveryRun | console/src/lib/openaip/request-gate.ts:44-80 | over every trace: starts i and j are at least 2500*(j-i) ms apart, any six seconds hold at most three; tasks start once each in order; a waiting task has a loop under way if no task rejected |
| RequestGate.AtMostThree | console/src/lib/openaip/request-gate.ts:20-26 | any starts so spaced have at most three in six seconds |
| RequestGate.DeadForEver | console/src/lib/openaip/request-gate.ts:75-79 | after a task has rejected nothing starts again |
| RequestGate.NeverDies | console/src/lib/openaip/request-gate.ts:63-80 | nothing but a rejection stops the gate |
| RequestGate.CooldownCanBeOverrun | console/src/lib/openaip/request-gate.ts:67-75 | a run in which a start falls into a cooldown noted during the pause |

## Left out

- FleetMissions.FleetManager.HandleStop: two stop requests interleaving on one snapshot are not modelled; handlers are taken as atomic.
- FleetMissions.FleetManager.HandleCreate: store failures other than a ward with two routes are not modelled, nor the broadcasts and log lines of any handler.
- FleetMissions.FleetManager.HandleEdit: store failures other than a ward with two routes are not modelled.
- Gt06Frame.ParseContent: the six calendar bytes of a position are kept as received, their conversion to epoch milliseconds is the C library's; coordinates are exact rationals, not floating point.
- Gt06FrameProofs.CorruptionFlagged: error bursts that touch the length field are not covered, since the frame then has another extent and the checksum is taken over other bytes.
- Gt06FrameProofs.FrameLocal: claimed for well-declared frames only, since in the fallback path field offsets are bounded by the whole buffer.
- Console.FleetStore.ApplyLogFileChunk: asks that the counted bytes are those in the table, which ConsoleProofs.EveryRun shows of every reachable state.
- DemoFlight.FakeGateway.TickWard: flight modes, positions, speeds, battery drain, demo fleet missions, demo calibrations and telemetry messages are not modelled; whether a target is reached or a hold over is a reading.
- DemoFlightRuns.EveryRun: that every command gets a terminal answer is not claimed: a stopped motion, a replaced run and an upload drop commands without one.
- CommandQueue.CommandExecutor.CheckAuthority: which vehicle calls a command makes, and their results, are one event with a free outcome.
- CalibrationSlot.CalibrationExecutor.WakeUp: cancelling is left out: it asks the vehicle to cancel whatever it is doing, and shows up as the result.
- HeraldStaleness.HeraldWardManager.Sweep: the sleeping between sweeps and the refusal of ids that are already vehicle wards are not modelled; of a message only its ward and times are kept.
- Restart of the gateway: the table of pending stops is not persisted, so a restart in mid-stop is outside the model.
- Order of broadcasts of different threads on the wire, and delivery to late joiners.
- The console's mirrors of fleets, zones and missions, and everything about maps, airspace data, geometry, units and storage in the browser.
- MAVSDK, SQLite, protobuf, WebSocket and relay libraries: their results are parameters, tables are maps, transactions are atomic.
- Parameter and log-entry listings: one answer, one timeout, no protocol.
