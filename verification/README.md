# Verification of stugan's connection relay and IRC core

stugan keeps IRC connections up across its own restarts: `stugan-engine` holds the
sockets, and the stugan process attaches to them over a link. This project models
that relay, the IRC state stugan keeps, and the wire codecs that have both of their
ends in the repository, and proves what they are for.

The relay, in layers:

* `Buffer.dfy`, `SessionSpec.dfy`, `Session.dfy` - one held socket. `SessionSpec`
  says on values what each operation does; the classes `LineBuffer`, `Session` and
  `Budget` do it on fields and backing arrays, method by method. `BudgetRun.dfy`
  follows the bytes charged through every interleaving of sessions and refunds.
* `LineReader.dfy`, `IrcLine.dfy`, `Tags.dfy` - lines off the socket, the engine's
  parser, and the tags the relay adds for the client.
* `SessionLaws.dfy`, `SessionRun.dfy`, `SessionTheorems.dfy`, `SessionHistory.dfy`,
  `ReplayContent.dfy` - which lines are taken and which answered; then whole runs of one
  socket, with a history of every line numbered, shed and handed out: what the log is, the
  shape of the backlog, what each claim is handed and when it is handed all, where losses
  are counted, what a replay says.
* `Claims.dfy`, `ClaimLaws.dfy`, `Server.dfy` - the server's indexes and the frames that
  claim, detach and close sessions, under any interleaving: who is turned away, what a
  connect gives, what a detach, a close and the end of a link leave; in place, on the
  sessions and the budget of `Session.dfy`. `ClaimHistories.dfy` - what the server does
  to a session is a run of that session, so claim safety and delivery are about the same
  histories.
* `RelaySession.dfy` - the client side of a claim: restore swallowing, delivery, the
  ack probe, the acks of a link.
* `Relay.dfy`, `RelayTheorems.dfy`, `AckRun.dfy`, `AckProgress.dfy` - the two sides
  together with any number of processes, their handlers and their event loops: no line is
  lost silently, and the chain of watermarks behind an ack; a run in which an ack is taken;
  and that from every state a run reaches a working claim can still handle, commit and ack
  all it was delivered.

IRC state and codecs: `JoinGate.dfy` (the autojoin gate), `Modes.dfy` and `ModeLaws.dfy`
(channel and membership modes), `Network.dfy` and `NetworkLaws.dfy` (buffers and members),
`Sasl.dfy` (base64, SASL PLAIN), `Bouncer.dfy` (bouncer rows and logins), `Wire.dfy` (the
server's printer and parser), `BouncerRow.dfy` (a row as a whole line). `GoStrings.dfy`
holds the parts of Go's `strings` and `strconv` they use.

A step is what the source does under one hold of a lock: a session's, the server's,
the engine's; on the core loop it is one queued event. About girc three things are
assumed. Two are as internal/irc/conn.go:415-418 states them: handlers for all events
run before an event's own, and all handlers of one event end before the next event
begins. The third is what internal/irc/relay.go:117-120 counts on: girc returns only
when no handler runs any more, so the last line it began is handled by then; the last
ack, and with it `WatermarkChain`, rests on that. Clocks, timeouts, crashes and lost
connections are steps that may come at any time. Handles and markers are drawn at random
by the source; here a new claim simply has a handle no claim had before.

Where code and comment disagree the code is followed:

* `fold` lower-cases `[]\~` to `{}|^`; its comment has the two swapped
  (internal/engine/ircline.go:74-90).
* `isPong` speaks of the final parameter, but judges a trailing one with spaces by a
  part of it. `PongLooksAtTheFinalParamIff` says exactly when the two agree.
* `handleClose` says a superseded connect can never end its successor's socket. It
  checks and shuts down under two locks: `CloseMayEndASuccessor` gives the run in which
  it does, from every state where it can, `ClosableIsReached` such a state, and
  `CloseEndsItsOwnClaimIff` the condition. `handleWrite` has the same gap between its
  decision and the queueing: `WriteReachesItsClaimIff`, `WriteMayReachASuccessor`.
* `UnmarshalLogin` takes `u@c/n`, but the login `BouncerOpen` builds from it parses to
  another network: `BoundLoginParsesIff`, `FifthFormFails`.
* A join hold is said to last until its timeout. An expired timer of an earlier hold
  can end it: `ExpiredTimerEndsALaterHold`; `HoldLastsItsTimeIff` says when one can.
* Members' prefixes are kept strongest first, but a NAMES reply is stored as the server
  orders it: `NamesOutOfOrder`; `RankedThroughoutIff` says when the order holds.
* A bouncer row escapes every value but the port: `RowRoundTrip` says which ports are
  read back, `RowLineReadsBackIff` which rows come through as one parameter.
* `FormatLine` and `ParseLine` are inverse on exactly the last parameters that
  `RoundTripIff` describes; one that starts with a colon is printed as it is.

## Model

| member | source | states |
|---|---|---|
| RelayTheorems.NoSilentLoss | internal/irc/relay.go:117-172 | after any run of crashes, detaches, takeovers and re-attaches, every line the engine numbered is in its buffer as it came, was shed, lies in the replayed burst, or was handled by a process that committed every event its handlers emitted |
| RelayTheorems.WatermarkChain | internal/irc/conn.go:415-430 | per claim: accepted <= sent <= pending <= last line committed without a gap <= delivered <= the engine's seq, and every line of the claim up to pending is handled and committed |
| RelayTheorems.AckedIsVouched | internal/engine/session.go:531-544 | what the engine forgot on acks is never above what the acks of some claim vouched for |
| RelayTheorems.AckedLine | internal/irc/relay.go:143-172 | each line an ack lets go is shed, committed by the acking claim, or covered by the burst |
| RelayTheorems.StepKeepsWorld | internal/core/engine.go:1119-1148 | every step of engine, link, handlers, event loop or crash keeps the invariant behind these |
| RelayTheorems.ProbeVouchesForTheTail | internal/enginelink/session.go:190-204 | when all is read and handled, the next read's probe lets the last delivered line count as handled |
| AckRun.AnAckIsTaken | internal/irc/relay.go:143-172 | for every line the engine relays there is a run from the start in which it is delivered, handled, committed and acked: the engine forgets it, and the claim has committed it |
| AckProgress.DeliveredLinesGetAcked | internal/irc/relay.go:143-172 | from every state a run reaches, a claim whose process runs, whose client reads on and whose link is up can by its own steps alone read and handle every line it was delivered, and, while the engine knows the claim, have it acked to the last of them: the engine then buffers nothing up to it. So no probe, barrier or ack is ever lost for good |
| AckProgress.EarlierLinesGetAcked | internal/irc/conn.go:415-430 | and without reading or handling anything more: every line but the last one begun, and every line a probe vouched for, can be acked |
| AckProgress.HandledLinesGetAcked | internal/irc/relay.go:111-120 | and once its client has returned, the last ack can get every line it handled acked |
| AckProgress.StepKeepsReady | internal/irc/relay.go:143-172 | every step keeps what that rests on: the last probe is queued or seen, every line but the last one begun is in the watermark, the last watermark queued waits behind its barrier or arrived, the last one sent is on the wire, and what a known claim had taken is in the engine's mark |
| Relay.BeginKeepsInbox | internal/irc/conn.go:415-430 | when the next event starts, the line recorded before is fully handled, so the watermark it raises is true |
| Relay.PushKeepsAcks | internal/core/engine.go:1267-1273 | queueing an event or a barrier keeps every earlier barrier ahead of no event it should cover |
| Relay.CommitKeepsAcks | internal/irc/relay.go:163-172 | when the loop reaches a barrier, every event of the lines it names is committed |
| SessionTheorems.BacklogIsTheTail | internal/engine/session.go:318-324 | after any run the backlog is exactly the last consecutive lines as they came, above acked, within the cap; whatever is not in it was shed or acked |
| SessionTheorems.ClaimsAreHandedTheStream | internal/engine/session.go:503-530 | each claim is handed strictly increasing numbers above its start with the exact text, a number is left out only if shed or acked, and a closed frame comes last and after everything |
| SessionTheorems.LossIsReported | internal/engine/session.go:414-423 | Lost figures reported plus the counter equal the lines shed before any link had them; every other shed line was written or lies in the burst |
| SessionTheorems.NoRedelivery | internal/engine/session.go:447-488 | a later claim is never handed a line acked before it or covered by its replay |
| SessionTheorems.StepKeepsClosed | internal/engine/session.go:523-528 | once a closed frame went out nothing is owed any more |
| SessionTheorems.StepKeepsCap | internal/engine/session.go:318-324 | with a cap of at least 64 KiB no step leaves a backlog over it |
| SessionLaws.IngestIff | internal/engine/session.go:296-332 | on an open socket a line that parses, has two characters or more, is no PING and no answer to the probe gets the next number and is appended as it came, and the oldest lines go only as far as the cap asks; any other line, or any line on a socket that is not open, changes nothing |
| SessionLaws.PingIsAnswered | internal/engine/session.go:306-314 | a line is answered if and only if it is a PING, and the answer parses to PONG with the PING's last parameter alone |
| SessionHistory.LogIsWhatCame | internal/engine/session.go:296-332 | after any run the log is exactly the lines for the app that came while the socket was open, in order, numbered from 1; state and reason of the socket are those the dial and the first failure give |
| SessionHistory.ClaimsAreTheLastEight | internal/engine/session.go:447-460 | after any run the session is held by the last claim's link unless that let go, and remembers the last eight handles |
| SessionHistory.AckCountsIff | internal/engine/session.go:532-544 | an ack counts if and only if it comes from one of the last eight claims and moves forward to a line there is; then exactly the lines above it stay |
| SessionHistory.PullHandsOut | internal/engine/session.go:503-530 | a pull hands out the frames about the socket, then the next lines as they came, as many as asked for or all, and the closed frame with its reason just when nothing is left of a closed socket |
| SessionHistory.PullingDrains | internal/engine/session.go:503-530 | however small the pulls, as many as there are lines owed and one more hand out every line the session still had, and the closed frame last |
| SessionHistory.LostNeverWentOut | internal/engine/session.go:414-423 | the lines counted as lost were shed and went to no link, before or after |
| SessionHistory.FinishedIff | internal/engine/session.go:523-528 | a closed frame is no longer due if and only if one went out or a close was asked for |
| SessionRun.StepKeepsBuffer | internal/engine/session.go:296-332 | every step keeps the buffer the tail of the log above acked |
| SessionRun.StepKeepsDelivery | internal/engine/session.go:447-530 | every step keeps what each claim was handed exact, ordered and gap-free but for what is gone |
| SessionRun.ReceiveFollows | internal/engine/session.go:296-332 | the history kept beside a session never changes what ingest does to it |
| ReplayContent.BurstIsTheFilter | internal/engine/session.go:335-353 | the recorded burst is the burst-command filter of the lines covered, up to the end of MOTD or the line that trips the cap, and welcomeIdx its first 001 |
| ReplayContent.ChannelsAreOurHistory | internal/engine/session.go:362-411 | nick and channels are those our own 001, NICK, JOIN, PART and KICK lines give, no channel twice under one fold |
| ReplayContent.ClaimAnnouncesTheSocket | internal/engine/session.go:447-488 | the attached frame of a re-attach carries that burst, its 001 for the current nick, the capability changes behind the burst, those channels, the exact backlog and Lost counts, and `unattended` just when the first 001 came with no link there and no claim came since; the claim starts at what was acked or replayed |
| ReplayContent.CapsAndAttendance | internal/engine/session.go:335-411 | after any run the capability changes kept are the CAP ACK, NEW and DEL lines behind the burst, up to their cap; and registered and unattended are what the history of 001s, links and claims says |
| ReplayContent.FirstWelcomeIs | internal/engine/session.go:346-348 | welcomeIdx names the first 001 and no other |
| IrcLine.ParseLine | internal/engine/ircline.go:16-56 | the consuming loop computes the recursive grammar |
| IrcLine.FoldInPlace | internal/engine/ircline.go:76-95 | the in-place loop folds every byte |
| IrcLine.FoldIdempotent | internal/engine/ircline.go:76-95 | folding twice is folding once |
| IrcLine.FoldsTogetherIff | internal/engine/ircline.go:76-95 | two names fold to the same if and only if they differ in case only, the four RFC 1459 pairs included |
| IrcLine.LineParses | internal/engine/ircline.go:16-56 | a line written from tags, source, command, middle parameters and a last one parses to just these |
| IrcLine.NickOfSource | internal/engine/ircline.go:27-35 | the nick of a source is what precedes its first '!' or '@' |
| IrcLine.NotALine | internal/engine/ircline.go:16-56 | what does not parse: nothing, tags or a source that are empty, never end, or have nothing behind |
| IrcLine.RewriteTargetReplacesOnlyTheTarget | internal/engine/ircline.go:111-142 | the rewritten line parses as before with the first parameter replaced, if and only if the nick can be a middle parameter |
| IrcLine.RewriteTargetLeaves | internal/engine/ircline.go:111-142 | a line without a first middle parameter is left as it is |
| Buffer.LineBuffer.Push | internal/engine/buffer.go:37-41 | appends one line, whatever the backing array does |
| Buffer.LineBuffer.DropOldest | internal/engine/buffer.go:46-55 | takes the first line off |
| Buffer.LineBuffer.Search | internal/engine/buffer.go:59-63 | the binary search finds the split a plain filter by number makes |
| Buffer.LineBuffer.AckThrough | internal/engine/buffer.go:59-71 | leaves what a plain filter leaves and frees exactly its cost |
| Buffer.LineBuffer.After | internal/engine/buffer.go:74-78 | returns the first lines a plain filter keeps |
| Buffer.LineBuffer.CountAfter | internal/engine/buffer.go:81-84 | counts what a plain filter keeps |
| Buffer.LineBuffer.Compact | internal/engine/buffer.go:93-103 | changes nothing observable |
| Buffer.LineBuffer.Clear | internal/engine/buffer.go:87-91 | empties the buffer and frees exactly its cost |
| Buffer.AboveIsSuffix | internal/engine/buffer.go:56-84 | in lines split by number the filter is a suffix |
| EngineSession.Session.Ingest | internal/engine/session.go:296-332 | in place: on an open socket a line for the app is numbered, appended as it came, charged, and old ones shed no further than the cap asks; nothing else changes the session; a PING is answered with its own last parameter |
| EngineSession.Session.AttachLocked | internal/engine/session.go:447-488 | does what SessionSpec.Attach says |
| EngineSession.Session.DetachLocked | internal/engine/session.go:492-500 | releases the claim only for the link that holds it |
| EngineSession.Session.PullOwed | internal/engine/session.go:503-530 | returns exactly the frames owed, and nothing to a link that lost the claim |
| EngineSession.Session.Acknowledge | internal/engine/session.go:532-544 | ignores unknown claims and watermarks that do not move forward or lie ahead of seq |
| EngineSession.Budget.Reclaim | internal/engine/buffer.go:132-149 | nothing is shed while the total fits; else each session lost only its oldest lines, none its last, the last line to go went from a session with the most bytes and without it the total was over; the total stays exactly what is buffered, and ends within the budget or at no more than one line a session |
| EngineSession.Budget.Receive | internal/engine/session.go:296-332 | a line that comes in, with the reclaim behind it: the total stays exact and ends within that bound, and every session but for shed lines is what Ingest makes of it |
| EngineSession.Budget.Acknowledge | internal/engine/session.go:532-544 | an ack, with its refund, keeps the total exact and touches one session |
| EngineSession.Budget.Admit | internal/engine/server.go:550-553 | a new session is registered and the total stays exact |
| EngineSession.Budget.Forget | internal/engine/server.go:244-258 | clear, unregister and refund keep the total exact, and take just this session out |
| BudgetRun.AccountsAreExact | internal/engine/buffer.go:101-149 | after any run of ingests, acks, sheds, forgets and late refunds the total is the cost of what the registered sessions buffer plus the refunds on their way: never negative, zero once all are forgotten and refunded |
| BudgetRun.StepKeepsExact | internal/engine/server.go:244-258 | every step keeps that, and nothing is ever charged for a session that was forgotten |
| BudgetRun.OpIsCharged | internal/engine/session.go:296-332 | what an operation charges and refunds, line by line, is the change in what it leaves buffered |
| EngineSession.Budget.Largest | internal/engine/buffer.go:136-143 | finds a session with the most bytes buffered |
| EngineSession.Budget.Unregister | internal/engine/buffer.go:123-127 | takes the session out of the ones reclaim looks at |
| EngineSession.SumBound | internal/engine/buffer.go:132-149 | n sessions of at most one line each stay within n lines' cost |
| LineReading.FragmentationDoesNotMatter | internal/engine/session.go:236-262 | any two ways of cutting a stream into slices, full buffers and timed-out reads give the same lines |
| LineReading.DriveIsFrame | internal/engine/session.go:245-262 | reading slice by slice frames the stream as reading it whole |
| LineReading.FrameIsSplit | internal/engine/session.go:243-262 | the lines are those between newlines without trailing carriage returns, never longer than limit + 1, and it fails exactly on a raw line longer than limit + 2 |
| LineReading.LineReader.Next | internal/engine/session.go:245-262 | keeps at most limit + 2 bytes and returns what one pass over the slices says |
| LineReading.LineReader.ReadLoop | internal/engine/session.go:204-234 | in place: the lines handed on, the probes sent, the end and the bytes left are those of Loop; and the lines are those of the stream |
| LineReading.LoopStops | internal/engine/session.go:204-234 | the loop stops at the first read that fails for good, runs over, or times out right after another; it has handed on the lines before and sent one probe for each timeout before |
| LineReading.PingTimeoutIff | internal/engine/session.go:204-234 | it ends in a ping timeout if and only if two reads time out with no line between them before anything else ends it |
| Tags.TagLine | internal/enginelink/tags.go:40-76 | the loop computes Tagged |
| Tags.TaggedReadsBack | internal/enginelink/tags.go:35-76 | the tags of the result are stugan's, then the incoming ones in order without empty ones and forged ones; the rest is the line's |
| Tags.KeptInOrder | internal/enginelink/tags.go:40-76 | of the incoming tags those stay, in order, that are not empty and not under stugan/ |
| Tags.LeftAsItIs | internal/enginelink/tags.go:40-76 | a line whose tags never end, or that has none and gets none, is passed on as it is |
| Tags.NoForgedTags | internal/irc/relay.go:226-238 | whatever a server sends, the only tags under stugan/ are the number and the replay mark put there; the number read back is the engine's and the mark is stugan's |
| Tags.TimeIsKept | internal/enginelink/tags.go:36-39 | a line has a time tag afterwards, and only its own, or the arrival time if it had none |
| Tags.RelayedIsTagged | internal/engine/session.go:296-305 | every line the engine relays can be tagged, so its number always reads back |
| Tags.TaggingKeepsTheMessageIff | internal/enginelink/tags.go:40-76 | the tagged line parses to the same source, command and parameters, if and only if the line does not start with a space |
| Claims.IndexesAreExact | internal/engine/server.go:244-258 | after any run byHandle is injective and holds exactly each live session's current handle; whatever is in no index is closed |
| Claims.SupersededIsPowerless | internal/engine/server.go:578-628 | a detach or close changes no session but the one whose current handle it carries, for the link that holds it |
| Claims.SupersededForGood | internal/engine/server.go:559-628 | a handle that lost its session stays powerless over it in every later state: no write, detach or close that carries it has any effect on the session |
| Claims.WritesReachTheHolder | internal/engine/server.go:559-576 | the decision on a write: it passes only to the one session its handle stands for, from its holder, however stale the lookup |
| Claims.WriteReachesItsClaimIff | internal/engine/server.go:559-576 | when the line is queued, the claim that holds the socket is the one that was asked if and only if no connect re-attached the socket in between |
| Claims.WriteMayReachASuccessor | internal/engine/server.go:559-576 | from every state with an allowed write and a possible re-attach there is a run in which the line is queued on the successor's socket |
| Claims.OnlyNewerDisplace | internal/engine/server.go:507-548 | a holder is displaced only by a connect from a link with gen at least its own |
| Claims.KeysDoNotCollide | internal/engine/server.go:474-478 | instance and id can be read off a session key in one way only |
| Claims.CloseEndsItsOwnClaimIff | internal/engine/server.go:600-628 | the whole exchange, close frame, any steps, shutdown: the closed socket carries the claim that was checked if and only if no connect re-attached it in between |
| Claims.CloseMayEndASuccessor | internal/engine/server.go:600-628 | from every state with a closable, re-attachable claim there is a run in which the close ends the successor's socket and no closed frame follows |
| Claims.ClosableIsReached | internal/engine/server.go:483-628 | from an empty server two links, a connect, its socket and a welcome lead to a state with a claim that may be closed, whose write is allowed, and which another connect may re-attach |
| Claims.StepKeeps | internal/engine/server.go:483-628 | every frame, link end, session event and forget keeps the indexes exact |
| ClaimLaws.TurnedAwayChangesNothing | internal/engine/server.go:483-528 | a connect with an empty id or handle, a handle in use, or a session held by a newer link changes nothing |
| ClaimLaws.ConnectGivesASession | internal/engine/server.go:528-556 | any other connect leads its handle and its key to one session that its link holds: the one under the key with its backlog, if that is registered, open and has the same fingerprint, else a new one that dials with an empty backlog, the old one gone from both indexes; no other session changes |
| ClaimLaws.DetachLetsGo | internal/engine/server.go:578-598 | a detach is heard just from the holder under a handle that leads to its session: nobody holds that then, and it stays with its backlog, or is gone if it had closed |
| ClaimLaws.CloseIsTakenIff | internal/engine/server.go:600-628 | a close is taken if and only if the session its id leads to has this handle and is held by this link or nobody |
| ClaimLaws.LinkEndLetsGo | internal/engine/server.go:349-378 | the end of a link does to each session it held what a detach does, and nothing to any other |
| ClaimHistories.EverySessionIsARun | internal/engine/server.go:483-628 | in every reachable state of the server a session it has not forgotten has gone through a run of SessionRun from the connect that dialled it, so every theorem of SessionTheorems holds of it |
| ClaimHistories.StepFollows | internal/engine/server.go:483-628 | each frame, link end or session event of the server is to a session it does not forget what its steps of SessionRun are |
| ClaimHistories.HeldBacklogIsTheTail | internal/engine/session.go:318-324 | so under any frames and takeovers a held session's backlog is the consecutive lines up to its last, above what was acked and within its cap |
| EngineServer.Server.HandleConnect | internal/engine/server.go:483-557 | in place: turned away exactly as TurnedAway says; else re-attaches, replaces or dials as Claims.Connect says, and sends a detached frame to exactly the link that held the session, for the handle it held it by |
| EngineServer.DisplacedIsPowerless | internal/engine/server.go:507-548 | after a connect the handle told of is in no index and its link can write to no session by it |
| EngineServer.Server.HandleDetach | internal/engine/server.go:578-598 | in place, on the session itself: as Claims.DetachFrame says |
| EngineServer.Server.HandleClose | internal/engine/server.go:603-622 | in place, on the session itself: accepts exactly the closes Claims.CloseAccepted allows |
| EngineServer.Server.MayWrite | internal/engine/server.go:564-575 | lets a line through if and only if the handle leads to a session with this very handle, held by this link, on an open socket |
| EngineServer.Server.ForgetLocked | internal/engine/server.go:244-258 | takes the session out of both indexes, handle by handle, clears its buffer, takes it out of the budget and refunds it; the total stays exact |
| EngineServer.Server.PullFor | internal/engine/session.go:503-530 | a link that lost a session is handed nothing; its holder gets what is owed, under the one handle that leads to the session |
| EngineServer.Server.CloseLink | internal/engine/server.go:349-378 | detaches every session the link held and forgets the closed ones |
| RestoreWriter.ClientLinesGetThrough | internal/enginelink/session.go:236-289 | for every stream and every way of cutting it into writes, what is relayed is exactly the non-empty lines behind the first answer to the marker (all of them on a fresh session), and the callback runs once |
| RestoreWriter.LineIsCut | internal/enginelink/session.go:236-260 | what counts as a line there: what a newline ends, without the carriage returns before it, if anything is left; what none ends stays unfinished |
| RestoreWriter.LateCallbackRunsOnce | internal/enginelink/session.go:95-107 | a callback registered at any time runs once just when the restore is over |
| RestoreWriter.PongLooksAtTheFinalParamIff | internal/enginelink/session.go:291-305 | for any PONG the token is compared with the final parameter if and only if that is the plain one |
| RestoreWriter.OneParamPong | internal/enginelink/session.go:291-305 | a one-parameter PONG answers this token and no other |
| RelaySession.Session.Write | internal/enginelink/session.go:239-289 | in place: as RestoreWriter says; on a failing link a prefix is relayed and the callback does not run |
| RelaySession.Session.Read | internal/enginelink/session.go:190-211 | queues a probe exactly when nothing is queued, not all delivered is vouched for and the session is not closed, and hands out what is queued in order, as much as asked for or all |
| RelaySession.Session.Deliver | internal/enginelink/session.go:161-180 | appends the line unless the session ended; one that leaves too much unread ends it, with what waits still there |
| RelaySession.Conn.FlushAcks | internal/enginelink/link.go:353-372 | each session queued sends its watermark once if it is new; when the link goes the rest sends nothing |
| JoinGates.NeverPastAHold | internal/core/engine.go:1373-1502 | along any run from the start an autojoin goes to the current registered connection, and every hold taken on it was by then ended by a release, a callback for it, a reset, or a hold for another connection |
| JoinGates.HeldIff | internal/core/engine.go:1373-1502 | the gate is held for a connection if and only if a hold was taken on it that nothing ended since |
| JoinGates.AtMostOnePerTrigger | internal/core/engine.go:1478-1493 | over any run no more autojoins than triggers |
| JoinGates.TriggerJoinsUnlessHeld | internal/core/engine.go:1478-1493 | along any run from the start a trigger whose connection is registered and current and whose startup is current joins at once if no hold on the connection stands, and is queued if one does; a stale one does nothing |
| JoinGates.QueuedTriggerStays | internal/core/engine.go:1416-1502 | a queued trigger waits through any run without its flush, a timeout of its hold, a reset, or a hold for another connection |
| JoinGates.EveryHoldIsTimed | internal/core/engine.go:1373-1415 | after any run a held gate has a timer of its connection armed, or its callback on the way |
| JoinGates.QueuedTriggerIsFlushedOnce | internal/core/engine.go:1416-1471 | a queued trigger on a connection that stays registered is flushed once, by the first release or timeout, whatever comes in between |
| JoinGates.HoldStandsIff | internal/core/engine.go:1453-1471 | a hold nobody releases stands if and only if no callback of a timer of its connection ran |
| JoinGates.HoldLastsItsTimeIff | internal/core/engine.go:1373-1415 | a new hold is sure to stand until its own timer expires if and only if no other timer of the connection is armed or has expired |
| JoinGates.ExpiredTimerEndsALaterHold | internal/core/engine.go:1400-1415 | a timer that expired before a new hold ends it, and the new timer still runs |
| JoinGates.ExpiredTimerIsReached | internal/core/engine.go:1373-1415 | a connection, a hold and its expiry lead to such a state from the start |
| JoinGates.Engine.HoldJoins | internal/core/engine.go:1375-1415 | in place: as Hold says |
| JoinGates.Engine.ReleaseJoins | internal/core/engine.go:1419-1451 | in place: as Release says |
| JoinGates.Engine.AutoReleaseJoins | internal/core/engine.go:1453-1471 | in place: ends only a hold of its own connection, and flushes what waits |
| JoinGates.Engine.TriggerAutojoinOrQueue | internal/core/engine.go:1478-1493 | in place: queues behind a gate held for the connection, joins otherwise, with a gate or without, and drops a stale startup |
| JoinGates.Engine.ResetJoinGate | internal/core/engine.go:1495-1502 | in place: the gate goes with its timer stopped |
| Modes.MembershipModeChanges | internal/irc/translate.go:133-166 | the loop gives each prefix letter the argument left for it by the flags before, as ModeLaws.ModeLineIsRead says letter by letter |
| Modes.ChangesSplit | internal/irc/translate.go:133-166 | a MODE line cut before a sign makes the same changes, the second part on the arguments left |
| ModeLaws.ModeLineIsRead | internal/irc/translate.go:133-166 | letter by letter from PREFIX and CHANMODES: a prefix letter takes the first argument and gives it the symbol at its own place under the current sign (nothing for an empty or missing one); a list or always letter, and a when-set letter under '+', drops exactly one argument; any other letter drops none |
| ModeLaws.PrefixIs | internal/irc/translate.go:172-182 | a PREFIX value gives its letters and symbols |
| ModeLaws.PrefixFallsBack | internal/irc/translate.go:172-182 | anything that is no PREFIX value counts as (ov)@+ |
| ModeLaws.ClassesAre | internal/irc/translate.go:187-196 | the first three classes of a CHANMODES value |
| ModeLaws.MissingClasses | internal/irc/translate.go:187-196 | classes left out at the end are empty |
| Modes.ChannelSettingFlags | internal/irc/translate.go:110-131 | the loop drops membership and list letters |
| ModeLaws.SettingsAreTheRest | internal/irc/translate.go:110-131 | letter by letter: signs and letters that are neither a prefix's nor a list's stay, in order, behind a '+' unless there is a sign |
| Modes.UpdateChannelMode | internal/core/engine.go:2346-2387 | the loop and the sort compute the canonical form of the letters in force |
| Modes.LastFlagDecides | internal/core/engine.go:2346-2387 | a letter is in force when the last flag naming it adds it, or none does and it was |
| ModeLaws.UpdateIs | internal/core/engine.go:2346-2387 | a mode without a sign is stored as it is, arguments are dropped, and of a change each letter has what the last flag naming it says |
| ModeLaws.OwnLettersAreStored | internal/core/engine.go:2346-2387 | after a MODE line a letter that is the channel's own is stored just when its last flag adds it, or none names it and it was |
| Modes.UpdateIsCanonical | internal/core/engine.go:2346-2387 | a signed change keeps the stored mode sorted and duplicate-free |
| Modes.UpdatesCompose | internal/core/engine.go:2346-2387 | two changes in sequence are the one change written without a gap |
| Modes.StoredIsClean | internal/irc/translate.go:110-131 | after any number of MODE lines no membership or list letter is stored |
| Modes.AddPrefix | internal/core/engine.go:2324-2344 | the loop inserts at the place its rank has |
| Modes.PrefixesStayRanked | internal/core/engine.go:2159-2178 | prefixes stay in rank order and unique under any changes |
| Modes.LastChangeDecides | internal/core/engine.go:2159-2178 | the last change that names a symbol decides whether the member has it |
| NetworkSpec.RunKeepsNet | internal/core/engine.go:2004-2157 | after any events no two buffers fold the same and every member stands under the fold of its current nick |
| NetworkSpec.RosterFollows | internal/core/engine.go:2076-2157 | after every event the buffers hold exactly who a plain roster of folded names says |
| NetworkSpec.RosterFollowsRun | internal/core/engine.go:2004-2157 | so do they after any run of events, whatever the NAMES replies say |
| NetworkLaws.MembersFollow | internal/core/engine.go:2004-2200 | what every event does to each member of each buffer, prefixes, account and away included: who joins stands there afresh, a NAMES reply has the last word on whom it lists, a MODE line changes those it names by the changes meant for them, a new nick takes the member along, and nobody else changes |
| NetworkLaws.OrderFollows | internal/core/engine.go:2004-2200 | a new buffer comes last under the name it was first seen by, one we part from goes, the others stay in their order |
| NetworkSpec.RankedThroughoutIff | internal/core/engine.go:2104-2190 | from rank order on, prefixes stay in rank order all along a run if and only if the last entry for each nick in every NAMES reply has them so |
| NetworkSpec.NamesOutOfOrder | internal/irc/translate.go:21-27 | a NAMES reply with !@bob or +@bob stores such a member, under its right nick |
| NetworkState.Network.Lookup | internal/core/types.go:146-153 | the indexed lookup finds what a linear search by EqualIRC finds |
| NetworkState.Network.GetOrCreate | internal/core/types.go:155-168 | adds a buffer exactly when none has that name, and keeps the index exact |
| NetworkState.Network.Remove | internal/core/types.go:170-182 | removes the buffer from list and index |
| NetworkState.Network.Apply | internal/core/engine.go:2004-2157 | in place: as NetworkSpec.Next says, the index staying exact |
| NetworkState.Network.Clone | internal/core/types.go:74-114 | equal contents in fresh objects, with an exact index of its own |
| Base64.RoundTrip | internal/irc/sasl.go:52-59 | decoding what was encoded gives every byte string back |
| Sasl.PlainLogsIn | internal/ircserver/session.go:418-501 | for every NUL-free user and password, the server completes exactly one response and reads these two off it if the base64 is at most 8192 bytes, and completes none otherwise |
| Sasl.ResponseLength | internal/irc/sasl.go:52-59 | how long the response is, from the lengths of user and password |
| Sasl.Reassembles | internal/ircserver/session.go:450-474 | the chunks of a response, in any number, are put together again, full last chunks included |
| Sasl.DeafToTheRest | internal/ircserver/session.go:431-446 | what is left of a refused response starts no other |
| Sasl.MessageIsHandled | internal/ircserver/session.go:418-474 | for every state and message: refused, completed, continued or given up, and what each leaves |
| Sasl.NothingWithoutTheCapability | internal/ircserver/session.go:418-430 | without the capability every message is refused and none completes a response |
| Sasl.WhoLogsIn | internal/ircserver/session.go:476-501 | a decoded response logs in its second part, or its first if that is empty, with its third for a password, and nobody without a name or a password |
| Sasl.SendChunked | internal/irc/sasl.go:61-74 | the loop sends all chunks but the last |
| Sasl.Session.HandleSasl | internal/ircserver/session.go:418-474 | in place: as Handle says |
| Bouncer.RowRoundTrip | internal/ircserver/session.go:910-936 | the client reads back name, state, host, tls and nick exactly as the server wrote them and the port as Atoi reads it, and merging changes these six and nothing else; the row lists just these six if and only if the port has no semicolon |
| Bouncer.DecimalPort | internal/core/bouncer.go:50-51 | a decimal port, with zeros in front or not, is read as its number |
| Bouncer.NamedPort | internal/core/bouncer.go:50-51 | a port that is a name is read as 0 |
| BouncerRow.RowLineReadsBackIff | internal/ircserver/session.go:929-936 | the whole printed row parses back to the id and these attributes if and only if the nick does not end in NUL and the values have no white space but what is escaped, or the port has a space |
| Bouncer.EscapeRoundTrip | internal/ircserver/parse.go:156-211 | both unescapers give every value back |
| Bouncer.UnescapeTagValue | internal/ircserver/parse.go:178-211 | the flag-driven loop computes Unescape |
| Bouncer.MergeBouncerAttrs | internal/core/bouncer.go:65-87 | takes the named attributes from the patch and no other |
| Bouncer.ParseBouncerAttrs | internal/core/bouncer.go:33-63 | the loop sets attribute after attribute and lists the keys |
| Bouncer.AttributesAreRead | internal/core/bouncer.go:33-63 | of any list of attributes each known key has its last value, unescaped, and all keys are listed in order |
| Bouncer.EscapesStandFor | internal/ircserver/parse.go:156-211 | what each escape stands for on either side, and what becomes of an unknown one and of a backslash at the end |
| Bouncer.BoundLoginParsesIff | internal/core/bouncer.go:202-212 | the login of a bound network parses back to user, new network and client if and only if the client part has no separator |
| Bouncer.FourForms | internal/ircserver/parse.go:213-257 | u, u/n, u@c and u/n@c are such logins |
| Bouncer.LoginForms | internal/ircserver/parse.go:213-257 | u, u/n, u@c, u/n@c and u@c/n parse to their user, network and client |
| Bouncer.FifthFormFails | internal/core/bouncer.go:202-212 | u@c/n ends up on a network named after the client |
| Wire.RoundTripIff | internal/ircserver/parse.go:116-153 | parsing a printed line gives the command, the client tags, and the parameters if and only if the last starts with no colon, ends in no CR, LF or NUL and has a space if it has white space |
| Wire.BareRoundTrip | internal/ircserver/parse.go:116-135 | a message without parameters comes back |
| Wire.ClientTagsInOrder | internal/ircserver/parse.go:49-71 | of the tags a client sends those stay, in their order, whose key is a '+' and more |
| Wire.ClientTagsArrive | internal/ircserver/parse.go:70-74 | they reach the message unless they are longer than 4094 together; then none does |
| Wire.NoMessage | internal/ircserver/parse.go:33-113 | a line of line ends only, or of tags or a prefix that never end, is no message |
| Wire.FormatLine | internal/ircserver/parse.go:117-153 | the builder loop prints Format |
| Wire.ParseLine | internal/ircserver/parse.go:33-113 | the shrinking line parses as Parsed says |

## Left out

- Text beyond ASCII in the engine: upper-casing, trimming and comparing without case are modelled for ASCII letters and blanks (internal/engine/ircline.go:52, internal/engine/session.go:298, 354).
- Sequence numbers and byte counts are unbounded; the source's 64-bit wrap-around, and `strconv`'s range errors, are not modelled.
- BouncerRow.RowLineReadsBackIff: reads the row with this repository's own parser, because girc, which the client reads with, is not part of this model; network ids are single words.
- AckProgress.DeliveredLinesGetAcked: says that the steps are there to be taken from every reachable state, not that a scheduler takes them, because tickers and goroutines are not modelled.
- Time: idle timeouts, reaping, tickers and DetachedMs are steps that may come at any moment, or left out.
- RelaySession.Session.Read: hands out whole entries, not bytes, because a probe depends only on whether anything is left; the replay's own lines and the marker PING stand outside the entries.
- RelaySession.Session.Deliver: is told whether it overflows, because the entries carry no bytes. The source sends no detach frame then, as the session has failed by the time it lets go.
- Claims.WritesReachTheHolder: is about the decision, because a write accepted just before a takeover may reach the socket after it; that half is WriteReachesItsClaimIff. The checks on a write's text are not modelled.
- EngineServer.Server.ForgetLocked: numbers the sessions, because `Claims` does; the number stands for the reference. Lines and acks that reach a session are `EngineSession.Budget` and `ClaimHistories`, not methods of the server.
- EngineSession.Budget.Acknowledge: refunds before anything else happens; the refund that comes late is in `BudgetRun`.
- NetworkState.Network.Clone: copies what the model has of a network, because topics, modes and the other fields are plain values.
- Wire.ParseLine: keeps the raw text of client tags, because their map is filled by `UnescapeTagValue` alone.
- `link.sessions` is not modelled: a link that closes may let go of any sessions.
- RelayTheorems.NoSilentLoss: speaks of a session until it is forgotten, because one whose socket closed while nobody was attached takes its backlog with it (internal/engine/session.go:569-575).
- A line absorbed into an open draft/multiline batch emits its message later (internal/irc/conn.go:912-930); commitment is stated per emitted event.
- `Autojoin` is called after the lock is let go of; a hold that comes in between is not held against it.
- Modes.StoredIsClean: is about MODE lines, because a 324 reply stores the mode as sent (internal/core/engine.go:2179-2181).
- Pairing of letters and symbols, and flags, are by character; the source works on bytes, which is the same for ASCII.
- In `Wire` the map of client tags is left out; their raw text is kept. `ToUpper` is ASCII.
- Bouncer names with a separator, and `UnmarshalLogin` on logins with surrounding blanks beyond trimming, are not followed further.
- The account, chghost and invite events, topics, persistence of autojoin keys, `Buffer` state of plugins: easy members beside those here.
- girc, Lua, the store, TLS, dialing and JSON framing are not part of this model.
