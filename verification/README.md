# Crab.rs in Dafny

Crab.rs connects machines over QUIC: every connection joins two peers that
shake hands, register each other, beat to show they are alive, and run commands
on each other. This project models that protocol and proves what it promises.
Paths in the tables are relative to the root of the Crab.rs repository.

`dafny verify dfyconfig.toml` checks the whole project.

## The modules

| module | models |
|---|---|
| `Wire` | the 12-byte `CRAB` header, error values, the acknowledgement message |
| `FrameStream` | the sending and receiving half of a stream as objects; frames written and read on them |
| `Hooks` | both halves of the handshake and of one heartbeat round, as they run on such streams, for any callbacks |
| `Peer` | one connection as a state machine: handshake, first beat, beats, command streams, all interleavings of both sides |
| `Timing` | the heartbeat in discrete time: interval, delay, deadline |
| `Tasks` | the client programs of a command and the handler of the simple ones, as they run on streams |
| `Session` | a two-phase command as a state machine: caller, client task, handler, body bytes |
| `AtomicWrite` | any number of interleaved `WriteFile` handlers over a disk of directories, links and inodes |
| `Transfers` | sessions that go through and sessions that are refused, cut off or left; an upload with the write handler behind it, end to end |
| `Manager`, `Pipeline` | the registry; connections from the listener or a dial loop through handshake, queue and service; dial loops; shutdown |
| `Calls` | one node's task queue, callers, status and shutdown |
| `WorkerGroup` | cancellation tokens, the worker group, the worker that serves once |
| `Udp` | the length-prefixed UDP packet with its SOCKS5 header (section 7 of RFC 1928, address types in section 5), and the copy loop |
| `TcpForward` | the two copy loops of a forwarded connection |

Code that one task runs on its own stream, socket, buffer, registry or join set
is imperative: classes with the source's fields, methods with its loops, each
proved against a function whose properties the lemmas state. A sending half takes
only so many bytes before its writes fail, at any byte of any frame. Code whose meaning
lies in how several tasks interleave (`nodes.rs`, `endpoint.rs`, the write
handlers, the two ends of a command) is a state machine: `Enabled` and `Apply`
give one step of one task, `Exec` a run, and a theorem about runs holds for
every interleaving. Nondeterministic `select!` choice, failing system calls and
the peer's behaviour are events that may occur whenever they are enabled.

## Where the code differs from its evident intent

The model follows the code; where a correction is modelled it is named.

- `src/app/protocol/forwarder/types.rs:50-54` gives the address tag to the reader
  only, and `src/app/protocol/forwarder/udp.rs:43` hands on the buffer up to its
  end instead of the packet's. `tagged` and `cut` say whether each is corrected.
  `AsWrittenRoundTripIff` characterises the very few packets that survive without
  either, `StaleTailDelivered` what the tag alone mends, `PacketRoundTripIff` what
  both together do.
- `src/app/protocol/commands.rs:196` refuses an existing target when `overwrite`
  is set and replaces it when it is not, the reverse of the flag's name and of its
  use in the repository's `README.md:244` (`OverwriteGuardIff`).
- `src/app/protocol/commands.rs:174` leaves the temporary file behind when the
  caller does not go on (`TempFilesLeft`).
- Two concurrent writes to one target share one temporary file. Whatever they send,
  if the first can succeed some run acknowledges it with success and leaves the
  target empty (`SharedTargetLosesWrite`). A target named like another's temporary
  file is emptied by that other (`TargetAsTempFileIsEmptied`).
- `src/app/protocol/util.rs:9-21` refuses every bare file name, with `mkdir` or
  without: its parent is the empty path, which can be made but never exists
  (`WithDirIs`, `OverwriteGuardIff`).
- An uploader that fails half way, as at `src/app/workers/ctrl/ctrl.rs:158-169`, ends
  its stream like one that is done; the handler acknowledges the truncated file and
  puts it in place of the target (`TruncatedUploadReplacesTarget`).
- `src/app/protocol/base.rs:16-23` reports a deletion as successful whatever became
  of it, because it never reads the second reply (`DeleteIgnoresTheOutcome`;
  `DeleteWithSecondAckIff` for the corrected client).
- `src/app/protocol/proto.rs:38` and `src/app/protocol/proto.rs:56` are separate
  steps, and the dialling side does not check at all; a live node can lose its
  registry entry (`RaceUnregistersLiveNode`, `DialDisplacesRegisteredNode`).
- An address configured twice has two dial loops, and so two connections
  (`OneConnectionPerAddressIff`).
- A dialled connection whose handshake fails ends the dial loop that made it for
  good, although the loop is there to retry (`DroppedNoticeEndsLoop`).
- A node whose first heartbeat failed still shows the status `Ready`
  (`StatusMovesForward`); `spawn` reports success for a task that may never start
  (`QueuedSpawnMayNeverStart`, with the exact condition in `SpawnedHasStartedIff`).
- After a failed callback a heartbeat round reports success on both sides and leaves
  one frame unread, so the next round starts out of step (`HeartbeatRound`). The
  lock-step theorems are therefore about the application protocol, whose heartbeat
  callbacks never fail.

## Model

| member | source | states |
|---|---|---|
| Wire.HeaderRoundTrip | src/crab/proto/types.rs:16-25 | a printed header parses back to the same header |
| Wire.AcceptedHeaderReprints | src/crab/proto/types.rs:16-25 | any 12 bytes the parser accepts print back to the same bytes |
| Wire.HeaderAcceptedIff | src/crab/proto/types.rs:5-25 | a header is accepted exactly if the magic is right and the method number is at most 4 |
| Wire.HeaderOnTheWire | src/crab/proto/types.rs:5-25 | a header byte for byte: the letters CRAB, version, option, method number, length, numbers little-endian |
| Wire.WithErrorBit | src/crab/proto/util.rs:86-95 | setting the error bit makes the option odd and keeps every other bit |
| Wire.AckConversions | src/crab/proto/types.rs:60-81 | a result turned into an acknowledgement and back: success and bare codes survive, code zero becomes success, any other error keeps its display text under UNKNOWN_ERROR |
| FrameStream.SendStream.WriteMessage | src/crab/proto/util.rs:63-84 | appends exactly one frame, the header filled into the reserved front of the buffer; nothing if the serialiser refuses; a cut frame and an error if the connection stops taking it |
| FrameStream.SendStream.WriteError | src/crab/proto/util.rs:86-95 | the same for the error's acknowledgement with the error bit set |
| FrameStream.PeerReadsIffWritten | src/crab/proto/util.rs:23-84 | wherever a write breaks off, the peer reads a message if and only if the write succeeded, and then that message |
| FrameStream.RecvStream.ReadExact | src/crab/proto/util.rs:23-25 | in however many pieces the bytes arrive, fills the buffer with the next `n` or fails exactly if fewer remain, then leaving nothing |
| FrameStream.RecvStream.ReadMessage | src/crab/proto/util.rs:23-45 | result and remaining bytes are those of the frame reader, independent of how the stream is cut into pieces |
| FrameStream.RecvStream.ReadAck | src/crab/proto/util.rs:46-49 | reads one acknowledgement and gives its meaning as a result |
| FrameStream.FrameReadsAs | src/crab/proto/util.rs:23-84 | what the peer reads from a frame whose payload has any length, and what it leaves |
| FrameStream.FrameRoundTripIff | src/crab/proto/util.rs:23-84 | a payload comes back exactly if it is at most 16 MiB; above and below 2^32 it is refused; from 2^32 on its size modulo 2^32 decides |
| FrameStream.TruncatedFrame | src/crab/proto/util.rs:23-45 | a frame cut short anywhere reads as the end of the stream, never as a message |
| FrameStream.RefusedFrames | src/crab/proto/util.rs:23-45 | over all headers and what follows them: which is refused with which code, which payload is decoded as what, and what is left to read |
| FrameStream.StreamRoundTrip | src/crab/proto/util.rs:23-84 | any list of messages within the limit that was written without an error reads back as that list with nothing left over |
| FrameStream.ErrorTransport | src/crab/proto/util.rs:34-37 | an error frame of any size makes a read at any expected type return the transported code and consume exactly the frame if and only if the acknowledgement fits a payload |
| FrameStream.BareCodesAlwaysArrive | src/crab/proto/types.rs:40-59 | with a concrete acknowledgement format every bare code arrives unchanged |
| Hooks.RunAcceptHandshake | src/crab/proto/hook_wrapper.rs:39-81 | the accepting half on every path, failing writes included: its result, the bytes it sends and the bytes it leaves |
| Hooks.RunDialHandshake | src/crab/proto/hook_wrapper.rs:82-107 | the dialling half on every path, failing writes included |
| Hooks.RunServerBeat | src/crab/proto/hook_wrapper.rs:108-131 | one round of the side that waits for a beat, on every error path, failing writes included |
| Hooks.RunClientBeat | src/crab/proto/hook_wrapper.rs:132-168 | one round of the side that beats first, on every error path, failing writes included |
| Hooks.HandshakesAreDual | src/crab/proto/hook_wrapper.rs:39-107 | for any two protocols whose two messages a frame can carry, on a connection that holds, each half reads all the other wrote and no more; both succeed with opposite roles and each other's packets, or both fail and the dialler learns the refusal's code |
| Hooks.HandshakeSucceedsIff | src/crab/proto/hook_wrapper.rs:39-107 | for packets of any size and connections that fail anywhere: both sides succeed with each other's packets and nothing unread if and only if the callback agrees, frames can carry both packets and both writes are taken whole |
| Hooks.OtherKindsAreRefused | src/crab/proto/hook_wrapper.rs:45-56 | a frame of any other method is refused with BAD_MESSAGE_HEADER however well it decodes, without asking the protocol or answering |
| Hooks.ErrorsEndTheHandshake | src/crab/proto/hook_wrapper.rs:45-95 | an error frame in place of the packet gives either half its code; the accepting half answers nothing |
| Hooks.UnwrittenHandshakeAnswer | src/crab/proto/hook_wrapper.rs:62-79 | an agreement that cannot be written is reported as IO_BAD_MESSAGE, a refusal that cannot as the error of the write |
| Hooks.UnsentHandshakeReadsNothing | src/crab/proto/hook_wrapper.rs:90-95 | a dialler that has no packet, or cannot write it, reads nothing |
| Hooks.HeartbeatRound | src/crab/proto/hook_wrapper.rs:108-168 | for any two protocols whose messages frames can carry, failing callbacks or not, the outcome of one round on both sides and what is left unread; earlier failures are reported as success and leave a frame behind |
| Hooks.HeartbeatSucceedsIff | src/crab/proto/hook_wrapper.rs:108-168 | on connections that fail anywhere: both halves succeed with nothing unread if and only if all four callbacks agree, frames can carry both beats and the acknowledgement, and all three writes are taken whole |
| Hooks.BeatAckCodeDecides | src/crab/proto/hook_wrapper.rs:119-128 | the waiting side takes any acknowledgement frame for its answer and succeeds exactly if its code is zero |
| Hooks.UnwrittenBeatStopsTheRound | src/crab/proto/hook_wrapper.rs:108-149 | a side that cannot write its beat ends the round with the error of the write and reads no more |
| Peer.StreamsAreClassified | src/crab/nodes.rs:220-300 | in every reachable state each stream was accepted for what it was opened for, no frame was read as another kind, and a side opens command streams only after its own first beat |
| Peer.TasksAreAccounted | src/crab/node_handle.rs:38-46 | in every run and for each side each task queued is still queued, started, or has had its own stream opened; streams accepted are counted likewise |
| Peer.CommandsAreAccounted | src/crab/nodes.rs:57-71 | in every run each command stream has its command written at most once, and read by the other side as often unless it is still on its way |
| Peer.CommandsFlow | src/crab/nodes.rs:99-169 | after any positive number of rounds any number of commands of either side can have been queued, started, written, accepted and read |
| Peer.RolesAreOpposite | src/crab/proto/hook_wrapper.rs:57-104 | a dialler that completed the handshake and its acceptor hold opposite `as_client` flags |
| Peer.HeartbeatsAreInLockStep | src/crab/nodes.rs:171-219 | over any number of rounds the opener has sent a prefix of (beat, ack)*, the other a prefix of beat*; at most two frames are in flight and rounds differ by at most one |
| Peer.NeverBothWaiting | src/crab/proto/hook_wrapper.rs:108-168 | from the handshake through every round, while neither side has stopped one of them can move |
| Peer.AnyNumberOfRounds | src/crab/nodes.rs:301-328 | for every count some run has that many whole rounds on both sides and nothing in flight |
| Peer.RefusalEndsBoth | src/crab/proto/hook_wrapper.rs:62-68 | a run in which a refused handshake ends both sides before either has a role |
| Peer.StopIsFinal | src/crab/nodes.rs:303-327 | either side may stop at any moment, and in no continuation does it beat or finish a handshake afterwards |
| Timing.DeadlineSafeIff | src/crab/nodes.rs:182-219 | no run against a live opener reaches HEARTBEAT_TIMEOUT if and only if interval + 3 * delay < timeout |
| Timing.DefaultMargin | src/crab/types.rs:40-51 | with the default 15 and 30 seconds that is a one-way delay below 5 seconds |
| Timing.SilenceIsNoticed | src/crab/nodes.rs:196-219 | in any run in which the opener falls silent, with whatever on its way, the other side has timed out once one delay and one timeout have passed since |
| Timing.SilenceCanBeNoticed | src/crab/nodes.rs:196-219 | the opener may fall silent at any moment of any run, and from there the run can always go on to the deadline |
| Timing.NeverOutOfStep | src/crab/nodes.rs:301-328 | in no run, whatever the interval, delay and timeout, does the answering side meet a frame it does not expect |
| Tasks.ExecuteJob | src/crab/proto/tasks.rs:67-90 | puts on its channel the acknowledgement's error or the executor's result, once; a command that cannot be written drops the sender unused |
| Tasks.ExecuteSpawned | src/crab/proto/tasks.rs:41-53 | the same without a channel: the error or the result is the task's own |
| Tasks.ExecuteStaged | src/crab/proto/tasks.rs:119-171 | the two-stage task on every path, a failing command write included |
| Tasks.ReadFirstValue | src/crab/proto/tasks.rs:132-150 | acknowledgement and first value: what the caller is sent, and how the task ends if it does |
| Tasks.AfterFirstValue | src/crab/proto/tasks.rs:151-171 | dropped, declined or agreed: what is sent, what is run and what is returned, failing writes included |
| Tasks.HandleSimple | src/app/protocol/types.rs:152-167 | an acknowledgement, then the response or the frame of its error, ending at the first write that fails |
| Tasks.SimpleCommandDelivers | src/app/protocol/base.rs:40-50 | client and handler together: the caller gets the response or the code of its error, and nothing is left unread |
| Tasks.DeleteIgnoresTheOutcome | src/app/protocol/base.rs:16-23 | as written, deletion succeeds for every outcome and leaves the outcome's frame unread |
| Tasks.DeleteWithSecondAckIff | src/app/protocol/commands.rs:21-36 | with the second acknowledgement read, deletion succeeds exactly if the removal did |
| Tasks.StagedTaskIsDual | src/crab/proto/tasks.rs:119-171 | against an acknowledging handler the first value arrives, the handler then reads success, the declining error's code, or nothing, and the executor starts on exactly the bytes that follow |
| Tasks.FirstPhaseErrorEnds | src/crab/proto/tasks.rs:137-150 | a handler that fails in its first phase gives the caller its error code whatever the answer would be; nothing more is sent, nothing run, and the task ends with TASK_ACK_FAILED, or CANCELED_ERROR if nobody listens |
| Tasks.RefusalEnds | src/crab/proto/tasks.rs:132-136 | an error in place of the acknowledgement is all the caller hears, and neither program sends or runs anything more |
| Tasks.RefusalsAreRead | src/crab/proto/tasks.rs:79-84 | so is an acknowledgement that carries an error code |
| Tasks.CommandComesFirst | src/crab/proto/tasks.rs:72-90 | what a job sends is its command frame and then what its executor sends, and a command that cannot be written ends it |
| Tasks.StagedCommandComesFirst | src/crab/proto/tasks.rs:124-131 | the same for a two-stage task, whose caller hears of a command that cannot be written |
| Tasks.UnwrittenAnswerEnds | src/crab/proto/tasks.rs:155-169 | an answer that cannot be written ends the task with the error of the write, and no executor is run |
| Tasks.ReplySucceedsIff | src/app/protocol/types.rs:138-168 | a handler succeeds exactly if acknowledgement and response are serialised and both frames taken whole; without an acknowledgement it sends nothing |
| Session.BodyIsGated | src/crab/proto/tasks.rs:132-171 | no frame is misread, and no body byte is sent nor body phase entered unless the caller was offered the first value and agreed |
| Session.NextItemIsExpected | src/crab/proto/tasks.rs:132-171 | in every reachable state what lies next before a side is what its program waits for, or tells of an error; in the body phase it is a body byte |
| Session.BodyArrivesInOrder | src/app/protocol/commands.rs:93-127 | what a side received is a prefix of the source; at the end of the stream it is all of it exactly if the sender did not stop short |
| Session.AcknowledgedWriteArrived | src/app/protocol/commands.rs:191-229 | a client that has read the final success of a write faces a handler that has received every byte it sent, which is its whole source exactly if it sent all of it |
| Session.NoDeadlock | src/app/protocol/commands.rs:157-190 | while either side is at work one of them can move, unless the task waits for the caller to answer |
| Session.SessionsEnd | src/app/protocol/forwarder/tcp.rs:56-85 | every session has a bounded number of steps, whatever the caller does and whatever fails |
| AtomicWrite.TempPathIsInjective | src/app/protocol/util.rs:7-25 | distinct targets have distinct temporary files, all of them named as such |
| AtomicWrite.OrdinaryNamesAreApart | src/app/protocol/util.rs:22-24 | different targets not named like temporary files share no file |
| AtomicWrite.WithDirIs | src/app/protocol/util.rs:9-21 | the directory is there or is made exactly if it is named, and exists or `mkdir` is set and no file lies on the way; what is made is exactly its missing prefixes |
| AtomicWrite.WayClearIs | src/app/protocol/util.rs:13-17 | a file lies on the way exactly if one stands where a directory on the way, or the directory itself, would be |
| AtomicWrite.WritesAreAtomic | src/app/protocol/commands.rs:150-229 | with targets that share no file, every reachable state shows each as it was or whole; nothing else is touched; success is acknowledged only after the rename, failure only without it |
| AtomicWrite.WriteAtIs | src/app/protocol/commands.rs:179-190 | a chunk copied to an open file replaces the bytes in its place and no others, of that file and no other |
| AtomicWrite.TempFilesLeft | src/app/protocol/commands.rs:174-225 | a finished handler leaves the temporary file it made exactly if in its run it was not told to go on or the removal failed |
| AtomicWrite.HandlersGoOn | src/app/protocol/commands.rs:150-229 | in every reachable state a handler that is not done has a step of its own; each step, but for reading nothing, brings it nearer its end and leaves the others alone |
| AtomicWrite.AnswersUnlessNotToldToGo | src/app/protocol/commands.rs:174-229 | in every run a handler ends without a last answer exactly if it was not told to go on |
| AtomicWrite.FailedCopyCleansUp | src/app/protocol/commands.rs:205-228 | a copy that fails can be followed by the removal of the temporary file and an answer that is not success, the target as it was |
| AtomicWrite.OverwriteGuardIff | src/app/protocol/commands.rs:140-218 | a write can succeed exactly if its directory is named, and there or can be made, neither target nor temporary file is a directory, and the target does not exist or `overwrite` is not set |
| AtomicWrite.SharedTargetLosesWrite | src/app/protocol/commands.rs:140-229 | for any disk and any two requests for one target of which the first can succeed, some run acknowledges the first with success and leaves the target empty |
| AtomicWrite.TargetAsTempFileIsEmptied | src/app/protocol/util.rs:22-24 | among any requests of which one's target is another's temporary file, some run empties it before its own handler has begun |
| Transfers.UndisturbedSessionsComplete | src/crab/proto/tasks.rs:119-173 | however the steps interleave: if nothing fails, nobody leaves and the caller agrees, no error is ever sent or read, and when both sides are done each receiver has the whole source and a write was acknowledged |
| Transfers.ReadDeliversAll | src/app/protocol/commands.rs:93-128 | for every file some session delivers it whole, the end included |
| Transfers.ForwardDeliversAll | src/app/protocol/forwarder/tcp.rs:56-85 | for every pair of bodies some session delivers both, each whole |
| Transfers.RefusedOfferEnds | src/app/protocol/commands.rs:88-91 | a first phase that fails ends on both sides with one error for the caller and no body |
| Transfers.DeclinedOfferEnds | src/crab/proto/tasks.rs:155-160 | a caller that declines ends both sides with an error frame and no body |
| Transfers.UnopenedFileEnds | src/app/protocol/commands.rs:101-110 | a file that cannot be opened after the caller agreed ends both sides with an error frame and no body |
| Transfers.FailedCopyIsRefused | src/app/protocol/commands.rs:185-220 | a copy that fails after any prefix is answered with an acknowledgement that is not success |
| Transfers.CallerAlwaysHears | src/crab/proto/tasks.rs:124-150 | a task that ends of itself has told a caller that is still there exactly one thing |
| Transfers.DepartedCallerEndsIt | src/crab/proto/tasks.rs:139-147 | a caller may leave at any moment before it was offered something; it is then offered nothing and no body is sent, in any continuation |
| Transfers.AbortIsFinal | src/app/protocol/commands.rs:111-127 | either side can be cut off at any moment before its end and then sends and takes nothing more, in any continuation |
| Transfers.AnyPrefixIsAcknowledged | src/app/workers/ctrl/ctrl.rs:151-172 | for every source and every prefix of it some session ends with just that prefix received and acknowledged with success |
| Transfers.TruncatedUploadReplacesTarget | src/app/protocol/commands.rs:174-229 | and the handler that received it can leave it in place of any target that can be written |
| Manager.LatestIs | src/app/manager.rs:26-46 | by its history an id leads to a handle exactly if that handle arrived under it and nothing was said of the id since |
| Manager.Registry.Insert | src/app/manager.rs:26-35 | the entry of the id is the new handle, every other key is unchanged, and lookups still agree with the history |
| Manager.Registry.Remove | src/app/manager.rs:36-38 | the entry of the id is gone, every other key is unchanged, and lookups still agree with the history |
| Manager.Registry.Get | src/app/manager.rs:39-43 | the handle of the latest arrival under the id, unless it has left since |
| Manager.Registry.IsKnown | src/app/manager.rs:44-46 | whether there is such a handle |
| Pipeline.ConnectionsAreConserved | src/crab/endpoint.rs:128-225 | in every reachable state each connection received is in exactly one place, counted with multiplicity |
| Pipeline.HooksRunOnceInOrder | src/crab/endpoint.rs:194-209 | each connection's story is a prefix of start, exit hook, notification: exactly one exit hook per served node, at most one notification, only for dialled ones |
| Pipeline.ReturnsWhenDrained | src/crab/endpoint.rs:178-224 | when the pipeline has returned every connection is finished or discarded, and every served one has run its hook and told its dial loop |
| Pipeline.RegistryIsSound | src/app/protocol/proto.rs:50-61 | every registered handle is of a node accepted under that id whose exit hook has not run; it is live unless a shutdown dropped it unserved |
| Pipeline.CompleteIffNeverShared | src/app/protocol/proto.rs:33-61 | the registry leads to every accepted live node throughout a run if and only if no two of them ever share an id |
| Pipeline.OneAtATimeNeverShares | src/app/protocol/proto.rs:33-61 | it is enough that in every state at most one connection of each id is between its check and its exit |
| Pipeline.RegistryIsExact | src/app/manager.rs:26-46 | without shared ids and without a dropped node the registry is the map of accepted live nodes |
| Pipeline.KnownPeersAreRefused | src/app/protocol/proto.rs:33-42 | a listened connection of a registered peer is dropped and the registry kept; any other passes under the id it told |
| Pipeline.TakeoverNeedsDialOrRace | src/app/protocol/proto.rs:33-61 | in every run the entry of a registered node is taken over only by a dialled connection, or by one checked before that node was accepted |
| Pipeline.RaceUnregistersLiveNode | src/app/protocol/proto.rs:38-60 | a run without shutdown in which both of two connections pass the check and the exit of one unregisters the other |
| Pipeline.DialDisplacesRegisteredNode | src/crab/endpoint.rs:155-156 | a run without any race in which dialling registers over a live node |
| Pipeline.OneConnectionPerEntry | src/crab/endpoint.rs:289-339 | each entry of the configured list has at most one connection outstanding, the one its loop waits for |
| Pipeline.OneConnectionPerAddressIff | src/crab/endpoint.rs:280-339 | so each address has, in every reachable state, if and only if none is configured twice |
| Pipeline.RedialsOnlyAfterExit | src/crab/endpoint.rs:311-339 | the loop of a list entry dials only when every connection it made before was served to its end and notified |
| Pipeline.DroppedNoticeEndsLoop | src/crab/endpoint.rs:331-337 | after a connection of a list entry was dropped unserved the loop of that entry never dials again, in any continuation |
| Pipeline.LoopsEndOnlyTwoWays | src/crab/endpoint.rs:311-339 | in every run a dial loop that ended was cancelled or lost a connection of its own unserved |
| Pipeline.GivenUpForGood | src/crab/endpoint.rs:311-318 | whenever a loop could dial it can be cancelled instead, and then no continuation dials for it |
| Pipeline.DialAfterReturnIsLast | src/crab/endpoint.rs:320-329 | a dial that works after the pipeline has returned is its loop's last |
| Pipeline.FailedDialIsRetried | src/crab/endpoint.rs:311-339 | a dial that fails leaves the loop, and all else, where it was before |
| Pipeline.FailedHandshakeIsForgotten | src/crab/endpoint.rs:150-158 | a handshake can fail up to the moment its node is accepted; its connection is then never served or registered, in any continuation |
| Pipeline.AnyNumberOfDials | src/crab/endpoint.rs:303-341 | for every count some run dials one list entry that often, serves each connection to its end and leaves everything else as at the start |
| Pipeline.CanAlwaysReturn | src/crab/endpoint.rs:128-225 | from every reachable state the pipeline can be brought to its return |
| Calls.StatusCell.SetStatus | src/crab/nodes.rs:36-48 | the status becomes the given one, and watchers are woken exactly if it changed |
| Calls.TasksAreConserved | src/crab/nodes.rs:49-98 | each submitted task is in exactly one place: waiting, queued, running, completed, dropped or refused |
| Calls.EachCallOnce | src/crab/node_handle.rs:38-73 | a task starts at most once and its channel is sent on at most once, with exactly when |
| Calls.AnswersAreFinal | src/crab/node_handle.rs:49-81 | a caller's answer, once given, is the same in every continuation |
| Calls.AnswersFollowTheTurns | src/crab/proto/tasks.rs:41-172 | in every run the outcomes of a task's operations decide whether it is over, what its channel holds and whether it read an acknowledgement, for each kind of call |
| Calls.EveryCallCanSucceed | src/crab/node_handle.rs:48-81 | while the task loop runs and a handle is held, whatever is queued or running, a new call of any kind can be made, acknowledged by the peer and answered with any value |
| Calls.QueueIsFifo | src/crab/nodes.rs:57-72 | in every run tasks are started in the order they were queued; with the queue open nothing is lost |
| Calls.ExitMeansUnacknowledged | src/crab/node_handle.rs:57-59 | a channel closed unsent surfaces as NODE_ALREADY_EXIT, and then no acknowledgement was read; the task was never started exactly if it was dropped or refused |
| Calls.NobodyWaitsForever | src/crab/nodes.rs:88-97 | once the node is done or gone every caller has its answer or is being refused |
| Calls.CanAlwaysEnd | src/crab/nodes.rs:88-97 | from every reachable state the node can be brought to its end, with every call ever made answered |
| Calls.LoopsEndIff | src/crab/nodes.rs:57-119 | over all runs when the stream loop and the task loop can end: after a cancellation from above or the end of the beats, the task loop also when no handle is left and nothing queued |
| Calls.LoopEndsWithoutHandles | src/crab/nodes.rs:57-64 | a run in which the task loop has ended while the node beats on |
| Calls.StatusMovesForward | src/crab/nodes.rs:279-341 | the status history is a prefix of Ready, Running, Stopping, Stopped; tasks start only after Running; Stopped means both subtasks were joined |
| Calls.SpawnedHasStartedIff | src/crab/node_handle.rs:75-81 | of the tasks `spawn` reported a success for, exactly those have started that are neither queued nor dropped with the queue |
| Calls.QueuedSpawnMayNeverStart | src/crab/node_handle.rs:75-81 | a run in which `spawn` succeeded and its task went with the queue |
| WorkerGroup.CancelReachesSubtree | src/crab/nodes.rs:315-317 | cancelling a token cancels its own subtree and nothing else |
| WorkerGroup.NodeFailureStaysLocal | src/crab/endpoint.rs:197-200 | a node that cancels its token leaves the endpoint, the other nodes and all below them as they were |
| WorkerGroup.FirstFailureIs | src/crab/utils/runit.rs:114-130 | the first failure is the one before which nothing failed; there is none exactly if nothing failed |
| WorkerGroup.Serve | src/crab/utils/runit.rs:105-131 | returns with no worker running; Ok exactly if all were, else the first error in the order of ending; the shared token is cancelled on failure, no older token is |
| WorkerGroup.OnceRunner.ServeOnce | src/crab/utils/runit.rs:33-40 | the first call runs the worker, every later one gets ALREADY_SERVED |
| Udp.UnpackedReprints | src/app/protocol/forwarder/types.rs:74-83 | what `unpack` accepts, printed with its tag, is the prefix it consumed |
| Udp.UnpackIsPrefixParsing | src/app/protocol/forwarder/types.rs:40-83 | over all byte strings `unpack` succeeds exactly on those that start with a printed header, and depends on that prefix alone |
| Udp.PrintedUnpacks | src/app/protocol/forwarder/types.rs:40-83 | every printed header, IPv4, IPv6 or a name of up to 255 bytes, unpacks to itself whatever follows |
| Udp.PacketOnTheWire | src/app/protocol/forwarder/types.rs:40-63 | a packet byte for byte, with and without its tag: length, reserved octets, fragment, address type, address, port, payload, numbers big-endian |
| Udp.NamedPacketDelivered | src/app/protocol/forwarder/types.rs:95-116 | a packet for a named host comes back as that name and port; a name that is no text is refused with ENCODING_ERROR |
| Udp.NamedPacketIsRelayed | src/app/protocol/forwarder/udp_util.rs:20-34 | the loop sends it to the address the name resolves to, skips it if there is none, and ends if the name is no text |
| Udp.SendTo | src/app/protocol/forwarder/udp.rs:71-86 | writes the length, the header from the 24-byte buffer, and the payload; a failing write cuts the packet short and is reported |
| Udp.ReadPacketInto | src/app/protocol/forwarder/udp.rs:28-44 | fills the caller's buffer in place; result, remaining bytes and buffer are those of the packet reader |
| Udp.PacketRoundTripIff | src/app/protocol/forwarder/udp.rs:28-86 | with both corrections a packet of any size comes back exactly if its total is at most 1500 |
| Udp.RefusedForSpaceIff | src/app/protocol/forwarder/udp.rs:33-40 | a packet is refused for space exactly if its total modulo 2^15 exceeds 1500; below 2^15 that is a payload above 1490 or 1478 bytes |
| Udp.CutPacketIsRefused | src/app/protocol/forwarder/udp.rs:28-44 | a packet cut short anywhere, its length included, is never delivered |
| Udp.TruncatedLengthLosesData | src/app/protocol/forwarder/udp.rs:79-81 | a total of 2^15 or more never comes back as it was sent |
| Udp.StaleTailDelivered | src/app/protocol/forwarder/udp.rs:43 | with the tag alone the slice has length 1500 minus the header and begins with the payload; it is the payload exactly if the packet fills the buffer |
| Udp.CopyPackets | src/app/protocol/forwarder/udp_util.rs:20-35 | with one reused buffer, passes on exactly what the packet reader makes of the stream, skipping unresolvable names, and ends with its first error or when cancelled |
| Udp.CancelledRelayIsPrefix | src/crab/utils/runit.rs:173-186 | a cancellation after any number of packets passed on leaves a prefix of what would have been passed on |
| Udp.TunnelDelivers | src/app/protocol/forwarder/udp_util.rs:20-34 | any list of packets that fit crosses the tunnel: unchanged and in order with both corrections, padded with stale bytes with the tag alone |
| Udp.InterruptedTunnel | src/app/protocol/forwarder/udp_util.rs:20-34 | how many of a list of packets cross when the socket fails after some number of them or a cancellation comes after some number, and which error ends the loop |
| Udp.UntaggedNamesSenderIff | src/app/protocol/forwarder/types.rs:48-56 | an untagged header is read as the sender's address exactly if every octet, both port bytes and the first payload byte are the family's tag |
| Udp.AsWrittenRoundTripIff | src/app/protocol/forwarder/udp.rs:28-86 | as written a packet comes back exactly if all its bytes, and the stale last byte of the buffer, are the tag and it is one byte short of the buffer |
| Udp.AsWrittenTunnelDies | src/app/protocol/forwarder/udp_util.rs:20-34 | as written the loop ends at the first packet, passing nothing on, unless its first octet is a tag |
| Udp.MisreadAsIpv4 | src/app/protocol/forwarder/types.rs:48-56 | an untagged packet whose first octet is the IPv4 tag goes to the address and port made of the seven bytes behind it, with the bytes after those and, as written, the buffer's stale bytes |
| TcpForward.OutputsArePrefixes | src/app/protocol/forwarder/tcp_util.rs:15-27 | under every interleaving each output is a prefix of the other side's input, with one shutdown after its last byte once the loop has finished |
| TcpForward.UncancelledIsComplete | src/app/protocol/forwarder/tcp_util.rs:28-41 | a call that returns uncancelled has shut both writers down, and a direction without error delivered its whole input |
| TcpForward.DirectionsAreIndependent | src/app/protocol/forwarder/tcp_util.rs:16-26 | an unfinished direction can always go on whatever the other did, and each of its steps brings it nearer its end and leaves the other alone |
| TcpForward.BothArriveWhole | src/app/protocol/forwarder/tcp_util.rs:15-27 | for every two inputs some run returns uncancelled with both delivered whole and shut down |
| TcpForward.FailureStaysLocal | src/app/protocol/forwarder/tcp_util.rs:16-26 | one direction may fail after any part of its input; its writer is shut down and the other direction can still deliver everything |
| TcpForward.CancelledAnywhere | src/app/protocol/forwarder/tcp_util.rs:28-31 | a cancellation may come after any parts of both inputs, and shuts neither writer down |
| TcpForward.ReturnsIff | src/app/protocol/forwarder/tcp_util.rs:28-41 | in every run the call can return exactly if it was cancelled or both directions are done, and afterwards nothing is passed on |

## Left out

- QUIC, TLS, sockets, DNS and the real disk: streams are byte sequences that arrive in pieces, or channels of frames accepted in the order they were opened (section 3.2 of RFC 9000); a resolver is a function; a disk is a map of links to inodes.
- The serialisation library: payload formats are any pair of functions that invert each other, with one concrete acknowledgement format to show such a pair exists.
- Hooks.HandshakesAreDual: says how a handshake ends for messages that frames can carry on a connection that holds; `HandshakeSucceedsIff` says for all others that it does not succeed.
- Hooks.HeartbeatRound: says how a round ends for messages that frames can carry on a connection that holds; `HeartbeatSucceedsIff` says for others that it does not succeed.
- Hooks.HeartbeatSucceedsIff: beats and acknowledgements of 2^32 bytes or more, whose size the header cannot announce, are not considered.
- AtomicWrite.WritesAreAtomic: hard links, symbolic links and different spellings of one path are not modelled; targets are equal exactly if directory and name are, and nothing but these handlers touches the disk. Making a directory succeeds or leaves the disk as it was.
- Session.SessionsEnd: counts steps, not time; whether a caller ever answers is its own affair.
- Timing.DeadlineSafeIff: time is discrete and local steps take none; scheduling delays count as frame delay.
- Pipeline.RegistryIsExact: tasks that panic are not modelled; a panic between registration and the exit hook leaves an entry as a shutdown does.
- Calls.NobodyWaitsForever: says who has been answered, not that a running executor ever ends.
- TcpForward.UncancelledIsComplete: a shutdown that itself fails is counted as done, as the source ignores its result.
- The state machines hold values, so they say nothing about locks, reference counts or memory shared between tasks beyond the steps they list; task capacity is modelled for the queue of ten, not for the other channels.
- In `Peer` only the first frame of a command stream is modelled; what follows it is in `Session` and `Tasks`.
- Transfers.UndisturbedSessionsComplete: says what an undisturbed session has when it is done; that it can get there is in `Session.NoDeadlock` and `Session.SessionsEnd`.
- Udp.CopyPackets: a cancellation inside a packet is one after the packets before it; which bytes of the packet had been read is not modelled, since the loop owns its reader and drops it.
- Udp.CancelledRelayIsPrefix: counts whole packets for the same reason.
- The reverse direction of a UDP forward, which reads datagrams from a socket with an exact slice.
- Flow label and scope of an IPv6 socket address, which the packet header does not carry.
- The HTTP API and HTTP proxy, the SOCKS5 front end, configuration, certificates, signals, host information and logging.
- `impl OnceWorker for Receiver<T>` in `src/crab/utils/runit.rs`: a loop without a result of its own.
- Directory listing, file metadata and the text of error codes: easy members.
