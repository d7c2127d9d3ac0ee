# Verification of the web terminal's core

The repository runs shells behind a browser terminal. A Go server parses each program's output into a
screen, replicates the screen and its scrollback to any number of browser clients over WebSockets, and takes
their input back; a TypeScript client keeps an outbox so that no keystroke is lost or typed twice when a
connection drops. This project models the parts of that design in which many pieces have to agree, and proves
what they promise. `dafny verify dfyconfig.toml` checks it.

## The models

**Reliable input** (`Registry`, `ClientRegistry`, `Framing`, `Outbox`, `InputProtocol`, `InputDelivery`,
`ExactlyOnce`, `Hypotheses`, `DroppedInput`). `Registry` is a transition system with one step per critical section of the
server's registry mutex and ledger mutexes; a resume is four of them, and any socket may run in between.
`ClientRegistry` is the same table as a mutable class whose methods are proved to be those steps. `Outbox` is the
browser's counters and outbox, `Framing` the v3 and v4 framings and the upgrade between them on one FIFO socket.
`InputProtocol` composes all of it: a page, its sockets old and new (two queues each, which outlive the page's
interest in them), acks, restarts of the server, and any number of other clients. `InputDelivery` proves one
invariant through every step, and `ExactlyOnce` reads it off: every byte that reaches the PTY is one the page sent,
none is written twice, they come in order, and both sides' counters mean what they say. Two hypotheses carry the
result, and `Hypotheses` proves each is needed: no input between a socket's open and its resumeAck, and no ledger
forgotten whose count the page has not seen acked. `DroppedInput` proves for every offline state whether a resume loses
input.

**Screen replication** (`FlushBuilder`, `ResumeGate`, `Replication`, `Scrollback`, `Paging`, `PagingRuns`, `Wire`, `WireDecoder`,
`Doubles`, `RowBudget`).
The flush builder is a class whose frames carry only what changed, keyed by absolute line index; a client that
applies them is proved to hold what a full repaint would give it, over every run of flushes, alternate-screen
switches and resets. `ResumeGate` is the step relation of the handler mutex, the clients' write mutexes and the
resume generation. `Replication` runs the two together, with the committed history and any number of clients: what
each client shows and holds over every interleaving of flushes, dispatches and resumes. `Scrollback` proves the ring, through growth, eviction and `Clear`, to hold the newest lines of an
append-only log; `Paging` is the reply to a history request and what the client concludes from it, and `PagingRuns`
whole runs of requests, timeouts and late answers. `Wire` has the encoders, `WireDecoder` the decoder as a parser and as
a mutable cursor proved against it, `Doubles` the numbers it reads.

**The terminal** (`Params`, `ParserTable`, `Parser`, `Characters`, `Sgr`, `SgrLaws`, `SgrRoundTrip`, `Lines`, `Grid`, `Erasing`,
`Columns`, `Motion`, `ScreenRuns`, `Terminal`, `ByteRuns`, `Commands`, `Controls`, `Escapes`, `Runs`, `Autolinks`, `Rendering`). The parser's flat parameter array is a class over real arrays, proved
against the text it was fed; the transition table is built by the same loops and proved equal to a
per-state meaning; a printed style is fed back byte by byte through table, array and pen. `Grid` is the mutable screen:
rows are arrays that move by reference when whole lines move and cell by cell inside a margin box. `Lines` says what
the shifts mean as values. `Terminal` joins parser and screen: every byte is parsed and everything it dispatches, from
characters in their sets to modes and resets, is carried out; `ByteRuns` has what holds of whole byte strings and of any
sequence in the middle of anything, and `Commands`, `Controls` and `Escapes` what the bytes of each command do, in terms of the
cursor, the rows and the settings. `SgrLaws` says the same of the numbers that set the pen. `Runs` and
`Autolinks` are run-length coding and links across wrapped rows, `Rendering` a whole row made of both.

**Small machines** (`Layouts`, `Sessions`, `ProgramStatus`, `TextTail`). The session manager with capture and
restore, the OSC 7501 record set, and the text tail.

## Where the code and its own account differ

- A page that typed before its first connection declares those bytes as sent, the server creates a ledger and
  answers that one was lost, and the page drops them (web/src/connection.ts:1303-1306): `DroppedInput.OfflineInputIsDropped`
  is the run, and `DroppedInput.ResumeDiscardsIff` says of every offline state whether a resume loses input.
- Forgetting an idle ledger is safe for exactly-once delivery if and only if it counted nothing or the page has seen an
  ack (`Hypotheses.ForgettingIsSafeIff`).
- The fallback of `evictOldestSession` for a table in which every session is attached never runs at its only call
  site: the entry just inserted is itself unattached (`ClientRegistry.ClientRegistry.MakeRoom`). With 1024 others all
  attached it is the one forgotten, while the socket that asked for it is handed its ledger
  (`ClientRegistry.ClientRegistry.BeginResume`).
- A change of nothing but the cursor's look sends no frame (`FlushBuilder.LookIsCurrentIff`).
- Leaving the alternate screen clamps the restored region's bottom to the screen but not its top
  (`Grid.ShrinkUnderAltLosesTheRegion`); the exact condition is in `Grid.Screen.ExitFromAlt`.
- The column wrap and the whole-screen scroll inside `scrollIfNeeded` cannot be reached while the grid invariant holds
  (`Grid.Screen.ScrollIfNeeded`).
- A history reply can make the client give up lines that are still retained: a reply to a request that lay at or past
  the live window, and a late reply to a request that timed out, read while a retry of an overlapping range is open
  (`Paging.FloorIsSafeIff` has the exact condition, `PagingRuns.LateAnswerCondemns` a run). A replayed or live chunk that
  starts inside the open window past its start does the same (`PagingRuns.DeliverCoversIff`).
- A mode saved with XTSAVE, set or reset and restored comes back if and only if it is not mode 41 that was set, for
  which no status is recorded, nor the margin mode that was set and is reset in between below conformance level 64,
  where setting it again is ignored (`Terminal.SavedComesBackIff`, byte by byte `ByteRuns.SaveAndRestore`, and
  `ByteRuns.LoseMarginMode` with the bytes that lose it). DECSCL, said to have no effect but its own report, decides it.
- Lines drained in the same flush interval as a switch are dropped as belonging to the screen just left. On the way into
  the alternate screen that screen is the main one, and its lines are in nobody's history; so are main-screen lines
  drained after the switch back (`Replication.HistoryOfARun` has exactly which lines become history).
- A resume commits the lines drained so far and replays them to its own client; no frame carries them to another. Until
  its next batch another client has such a line right if and only if its page showed just that at the line's index
  (`Replication.DrainedLineIsRightIff`).
- In the alternate screen the replay is sent before the window, because a client in that screen drops lines. A client
  that was in it when its socket closed still is, and refuses replayed lines from its frozen window on: it gets every
  line it asked for if and only if it had those already (`Replication.EveryBatchShowsItsSnapshot`;
  `Replication.ReplayIsRefused` is the run).

## Model

| member | source | states |
|---|---|---|
| Registry.InvStep | terminal/client_registry.go:64-91 | every critical section of accept, resume, input, remove and reclaim keeps the ownership invariant: an owner's phase claims exactly that ledger, is not fenced, and wrote every byte since it took over |
| Registry.OneOwnedLedger | terminal/client_registry.go:204-240 | in every reachable state a socket owns at most one ledger and a fenced socket owns none |
| Registry.FencedForever | terminal/client_registry.go:204-270 | once fenced, for the rest of any run a socket owns nothing and no byte logged since is its own, even when it was fenced in the middle of moving |
| Registry.AckSplitsTheLog | terminal/client_registry.go:227-240 | the ack a resume returns counts every byte earlier owners wrote and none later; until the next takeover everything past it is the new owner's |
| ClientRegistry.ClientRegistry.Add | terminal/client_registry.go:48-55 | registering a socket is the Accept step |
| ClientRegistry.ClientRegistry.BeginResume | terminal/client_registry.go:204-217 | the registry-mutex part of a resume is the Lookup step, but for idle ledgers it may forget, none of which another registered socket holds; the table stays within its cap. A new entry survives while there is room, and over the cap while another unattached one is older; with every other attached it is forgotten, although this socket is handed its ledger |
| ClientRegistry.ClientRegistry.LeaveOldLedger | terminal/client_registry.go:222-226 | leaving the previous ledger is the LeaveOld step |
| ClientRegistry.ClientRegistry.TakeOver | terminal/client_registry.go:227-240 | a fenced socket takes nothing; another becomes owner, fences the one it displaces, and gets the ledger's count as ack |
| ClientRegistry.ClientRegistry.ApplyInput | terminal/client_registry.go:247-270 | a frame is written and counted whole exactly when the socket owns its ledger or has none |
| ClientRegistry.ClientRegistry.Remove | terminal/client_registry.go:64-81 | unregistering is its own step and starts the ledger's retention clock |
| ClientRegistry.ClientRegistry.ReleaseLedger | terminal/client_registry.go:85-91 | releasing is its own step, after which the socket owns nothing |
| ClientRegistry.ClientRegistry.GcIdleSessions | terminal/client_registry.go:289-305 | exactly the attached and the recently seen ledgers are retained |
| ClientRegistry.ClientRegistry.EvictOldestSession | terminal/client_registry.go:315-341 | over the cap, one entry goes: the longest unseen among the unattached, or the oldest of all when every one is attached |
| ClientRegistry.ClientRegistry.MakeRoom | terminal/client_registry.go:289-341 | collecting and evicting after an insert never costs a ledger that a registered socket holds, and leaves the table within its cap |
| ClientRegistry.ForgettingIsReclaiming | terminal/client_registry.go:289-341 | whatever collection and eviction forget, the table afterwards is reached by Reclaim steps alone |
| Framing.FramingIsTransparent | terminal/terminal.go:1658-1768 | whatever a v4 client sends, with the size first or no size known, and wherever the upgrade falls, the PTY gets exactly the input bytes, the dispatcher exactly the controls, and the socket is never refused |
| Framing.InputFramesCarryTheChunk | web/src/connection.ts:215-226 | splitting alters the number of messages, never the bytes; before the upgrade only a lone NUL starts with NUL |
| Framing.SendInputFrames | web/src/connection.ts:215-226 | the loop sends exactly the frames of that split |
| Framing.UnsplitSentinelIsSwallowed | terminal/terminal.go:1691-1720 | input that looks like a sentinel control, sent unsplit before the upgrade, never reaches the PTY |
| Framing.LatchedSentinelIsTyped | terminal/terminal.go:1691-1720 | a sentinel control sent after the latch is typed into the program |
| Outbox.ApplyAckTrims | web/src/connection.ts:246-265 | an ack removes exactly the bytes it newly confirms from the front of the outbox and never confirms more than was sent |
| Outbox.ResumeState.Send | web/src/connection.ts:583-602 | input is accepted exactly while the outbox has room, and then appended and counted |
| Outbox.ResumeState.Acknowledge | web/src/connection.ts:246-265 | the chunk-dropping loop computes the trimmed ledger |
| Outbox.ResumeState.Reset | web/src/connection.ts:237-242 | counters and outbox go together |
| Outbox.ResumeState.Retransmit | web/src/connection.ts:268-272 | the frames sent are those of the outbox's chunks |
| Outbox.ResumeState.ObserveEpoch | web/src/connection.ts:1253-1282 | an epoch that differs from the recorded one, or a seeded one left unconfirmed, resets the counters |
| Outbox.ResumeState.HandleResumeAck | web/src/connection.ts:1253-1323 | a lost ledger resets and sends nothing; otherwise the outbox is trimmed to the ack and the rest retransmitted; the notices shown are those of `NoticeIff` |
| Outbox.NoticeIff | web/src/connection.ts:1253-1323 | for every ledger and ack at most one notice is shown, and one exactly when the server is seen to have restarted or the counters were dropped with bytes not acked |
| Outbox.FramesCarryTheOutbox | web/src/connection.ts:268-272 | retransmitted frames carry the outbox's bytes in order |
| Outbox.RetransmitIsExactIffNothingSentEarly | web/src/connection.ts:1303-1323 | what reaches the socket after the ack is the unacked suffix exactly when nothing was sent between open and resumeAck |
| InputDelivery.InvStep | web/src/connection.ts:1253-1323 | every guarded step of the composed system keeps the delivery invariant |
| InputDelivery.InvOther | terminal/client_registry.go:204-270 | whatever other clients of the server do leaves delivery undisturbed |
| InputDelivery.ReplyAgrees | web/src/connection.ts:1253-1323 | every resumeAck the server can send resets the counters only when its ledger counted nothing and leaves the acked count equal to what was written |
| InputDelivery.RetransmissionIsTheRest | web/src/connection.ts:268-272 | what is retransmitted is exactly what is not yet written |
| ExactlyOnce.DeliveredInOrderAtMostOnce | web/src/connection.ts:246-265 | in every guarded run every PTY byte is one the page sent, none twice, in the order sent |
| ExactlyOnce.CountersAgree | terminal/client_registry.go:247-270 | acked is at most written is at most sent; the PTY ends with the first written bytes since the reset, the outbox is the suffix from acked, and the server's count is what was written |
| ExactlyOnce.UninterruptedPrefix | web/src/connection.ts:583-602 | without a reset, the PTY holds exactly a prefix of what was sent |
| ExactlyOnce.DrainedMeansDelivered | web/src/connection.ts:1319-1323 | when the owning socket has nothing in flight, everything sent since the last reset is written |
| Hypotheses.ForgettingIsSafeIff | terminal/client_registry.go:289-305 | forgetting an unattached ledger is safe if and only if it counted nothing or the client has seen an ack; otherwise a later guarded run writes a byte twice |
| Hypotheses.ForgettingUnseenCountRepeats | web/src/connection.ts:1303-1310 | a forgotten count no ack ever told of makes the client send it all again |
| Hypotheses.EarlyInputIsWrittenTwice | web/src/connection.ts:598-600 | any chunk that is not empty, sent on the first socket between open and resumeAck, reaches the program twice |
| DroppedInput.ResumeDiscardsIff | web/src/connection.ts:1303-1323 | for every state a page can resume from offline: the undisturbed resume discards unwritten input if and only if there is some and the server has no ledger for the page, is a new process, or counted nothing where the page saw acks; then no continuation ever writes any of it, and otherwise the server alone can write all of it; while something sent is unwritten a notice is shown exactly when it is discarded |
| DroppedInput.DiscardIsReported | web/src/connection.ts:691-709 | a resume that discards unwritten input always tells the user |
| DroppedInput.OfflineInputIsDropped | web/src/connection.ts:583-602 | from the start, whatever is typed before the first connection: a run that connects, resumes and reads the resumeAck, after which the outbox and the PTY are empty and nothing typed is ever written |
| DroppedInput.ResetPastIsNeverWritten | web/src/connection.ts:237-242 | a byte the counters were reset past is never written by any continuation |
| ResumeGate.InvStep | terminal/terminal.go:1502-1542 | every critical section of build, write, lock, snapshot and batch keeps the order of what each client sees, and the exact list of what each was written |
| ResumeGate.NoClientGoesBackwards | terminal/terminal.go:1502-1542 | over every interleaving no client is shown an older snapshot after a newer one |
| ResumeGate.ScrollPartsExactlyOnce | terminal/terminal.go:1488-1542 | each scroll payload of a dispatched frame is written once, in order, to every client of its snapshot |
| ResumeGate.WholeFrameIsWritten | terminal/terminal.go:1502-1542 | over every run, a client of a dispatched frame that took no snapshot since the build has the whole frame in its trace in one piece: every payload of its screen, mode and title, which stand nowhere else in it, then the clipboard, then the scroll parts |
| ResumeGate.BatchIsWritten | terminal/terminal.go:2096-2173 | over every run, a resume batch writes its client every state payload of its snapshot, of which none was written before |
| ResumeGate.ClipboardExactlyOnce | terminal/terminal.go:1488-1542 | each frame's clipboard is written exactly once to every client of its snapshot, whether or not its state was |
| ResumeGate.StrippingIsNeeded | terminal/terminal.go:1488-1495 | a frame written whole to a client already shown a newer snapshot would take it backwards; stripped to its durable part it does not |
| FlushBuilder.FlushFrameBuilder.Build | terminal/flush_builder.go:53-128 | the frame is exactly the update from what was sent before to the screen, absent exactly when there is none, and the cache becomes the screen |
| FlushBuilder.FlushFrameBuilder.DiffWindow | terminal/flush_builder.go:148-159 | the rows whose content differs from what was last sent for their absolute index, no others |
| FlushBuilder.FlushFrameBuilder.TrackCursor | terminal/flush_builder.go:229-239 | the rows the cursor left and entered are added exactly when it moved |
| FlushBuilder.FlushFrameBuilder.Reset | terminal/flush_builder.go:39-47 | everything but the screen kind is forgotten |
| FlushBuilder.FlushShowsTheScreen | terminal/flush_builder.go:53-172 | a client in step with the cache shows the whole screen after a flush: window, history, cursor, modes and title |
| FlushBuilder.DiffRefinesFullRepaint | terminal/flush_builder.go:148-172 | applying only the changed rows ends in the same client state as applying every row |
| FlushBuilder.PureScrollSendsNewRowsOnly | terminal/flush_builder.go:148-172 | after a pure scroll the rows sent are those that scrolled in, the two rows of a cursor that moved, and the cursor's row when the bell rang |
| FlushBuilder.BellIsSent | terminal/flush_builder.go:99-107 | a bell on the screen always yields a frame that carries it, with the cursor's row among those sent |
| FlushBuilder.LookIsCurrentIff | terminal/flush_builder.go:141-143 | the client's cursor look is current after a flush if and only if it was already or some row had to be sent |
| FlushBuilder.RunStaysInSync | terminal/flush_builder.go:39-128 | over every run of flushes and repaints, whoever joins when, the cache is what the client has |
| Replication.InvStep | terminal/terminal.go:1207-1306 | every critical section of attach, leave, reset, flush, write, dispatch, lock, snapshot and batch keeps each client in step with what the next diff is taken against, and with the history |
| Replication.ReadsWhole | terminal/terminal.go:1502-1542 | what a client reads of a frame follows from the messages the gate wrote to it: the whole frame applied when it was written whole, its scroll lines alone when it was stripped |
| Replication.WholeFrameShowsTheScreen | terminal/terminal.go:1419-1542 | over every interleaving of builds, dispatches and resumes: a frame written whole to a client that has read its resumeAck leaves it showing that frame's screen, its cursor, modes and title, and holding its lines |
| Replication.ClientsStayInStep | terminal/terminal.go:2024-2034 | between frames every such client has what the next diff is taken against, whoever else resumed or attached |
| Replication.ClientsHoldWhatFramesCarry | terminal/terminal.go:1269-1273 | it holds every line committed since its batch, but for those that a resume or an interval without clients drained |
| Replication.DrainedLineIsRightIff | terminal/terminal.go:2087-2095 | a line that another client's resume drained reaches a client before its own next batch in no way: it is right if and only if the page showed it at that index |
| Replication.EveryBatchShowsItsSnapshot | terminal/terminal.go:2096-2160 | after its batch a client shows the snapshot's screen, cursor, modes and title, and holds the lines it asked for if and only if it had those it refuses |
| Replication.ReplayIsRefused | web/src/store.ts:674-697 | from any state: a client left in the alternate screen comes back while that screen is shown, asks for a line past its frozen window, and does not get it |
| Replication.HistoryOfARun | terminal/flush_builder.go:60-86 | over every run the history is exactly the lines drained from the main screen by flushes, resumes and intervals without clients, unless the alternate screen was the last one flushed |
| Scrollback.ScrollbackRing.Append | terminal/scrollback.go:31-57 | the log grows by exactly the lines and its newest ones are retained, as many as fit |
| Scrollback.ScrollbackRing.LinesFrom | terminal/scrollback.go:98-111 | the retained lines from an absolute index on, and where they start |
| Scrollback.ScrollbackRing.LinesRange | terminal/scrollback.go:115-130 | the retained lines of a range, empty exactly when the range misses the window |
| Scrollback.ScrollbackRing.Clear | terminal/scrollback.go:152-157 | nothing is retained and no index is reused |
| Scrollback.ScrollbackRing.OldestIndex | terminal/scrollback.go:77-79 | the oldest retained index is never past the committed count |
| Paging.ShrinkToBudget | terminal/terminal.go:1841-1850 | the most leading rows that fit the budget, at least one |
| Paging.HistoryControl | terminal/terminal.go:1858-1924 | a session, a declared capability, a valid range and a token are needed for a reply; it is empty exactly when nothing asked for is retained, else the longest prefix of the intersection that fits the byte budget |
| Paging.PageSizeIsExact | terminal/terminal.go:1841-1850 | the budget is spent in bytes the encoder writes |
| Paging.ReplayIsTheMissingTail | terminal/terminal.go:2025-2040 | a resume replays exactly the retained lines the client misses among the newest bound |
| Paging.HistoryPager.RequestHistory | web/src/connection.ts:875-907 | a request goes out exactly when the server declared paging on this socket, none is in flight, the numbers are sound, the socket is upgraded and the pacing allows it; it then satisfies the server's own test |
| Paging.HistoryPager.OnDataTimeout | web/src/connection.ts:933-948 | the request is released, half its size becomes the ceiling, and the page size restarts at the minimum |
| Paging.HistoryPager.CorrelateHistoryReply | web/src/connection.ts:956-986 | the verdict, the floor and the release of the request are those of the reply against the request in flight |
| Paging.HistoryPager.ResetForNewSocket | web/src/connection.ts:543-548 | a new socket starts with nothing in flight and nothing declared, and the floor outlives the old one |
| Paging.FloorIsSafeIff | web/src/connection.ts:956-986 | which answers give up a line that is still retained, for an answer to any earlier request on the socket: with lines, exactly when it starts inside the open window past its start and past the oldest line; empty, exactly when it falls in an open window that reaches retained lines; for the request's own answer, exactly when the request lay at or past a window of retained lines |
| PagingRuns.AnswersAreFrames | terminal/terminal.go:1858-1924 | every answer of the server is a frame the runs allow |
| PagingRuns.CondemnsByRequest | web/src/connection.ts:956-986 | for a late answer, when that is in terms of the request it answers |
| PagingRuns.DeliverCoversIff | web/src/connection.ts:956-986 | over any scroll frame, answer or replayed or live chunk, when reading it gives up a line that is retained |
| PagingRuns.FloorIsSafeUntil | web/src/connection.ts:875-986 | over every run of requests, timeouts, retries, late answers, chunks, evictions and reconnects the client's floor stays at or below the oldest retained line exactly as long as no frame of that kind is read |
| PagingRuns.CarefulIsSafe | web/src/connection.ts:875-948 | a run that asks only below the committed count and never while an earlier request is unanswered, and reads no chunk starting inside an open window past its start, gives up nothing retained |
| PagingRuns.LateAnswerCondemns | web/src/connection.ts:933-986 | a run of one timeout and one retry whose late answer gives up 500 retained lines |
| Wire.AppendRowRuns | terminal/wire_binary.go:419-435 | the loop appends exactly the row's bytes, of a row whose links are dropped exactly when its encoding is over the ceiling |
| Wire.RowSizeIsExact | terminal/wire_binary.go:378-414 | the computed size of a capped row is the number of bytes written |
| Wire.CappedRowFits | terminal/wire_binary.go:393-414 | for rows of at most 1000 columns, stripping links always brings a row under the ceiling |
| Wire.EncodeScrollMsg | terminal/wire_binary.go:252-262 | the loop writes exactly the scroll frame |
| Wire.EncodeScreenMsg | terminal/wire_binary.go:208-245 | the loop writes exactly the screen frame |
| Wire.CursorFlags | terminal/wire_binary.go:208-245 | each flag has a bit of its own |
| WireDecoder.ScrollRoundTrip | web/src/wire-binary.ts:248-258 | a scroll frame decodes to ack, first index and lines, the counts as JavaScript numbers; a line whose encoding with its links fits the ceiling comes back as it was up to strings cut at 65535 bytes, another without links and with everything else |
| WireDecoder.ScreenRoundTrip | web/src/wire-binary.ts:206-247 | a screen frame decodes to its head, its changed indices and the changed rows likewise, the counts as JavaScript numbers |
| WireDecoder.OnWireDelivers | terminal/wire_binary.go:391-414 | for every row, in terms of the bytes of the row itself: within the ceiling it is delivered with its links, over it without them, and its text, style and other attributes always |
| WireDecoder.RowByExample | terminal/wire_binary.go:419-455 | the bytes of one row, field by field |
| WireDecoder.ResumeAckRoundTrip | terminal/wire_binary.go:267-276 | for every 64-bit count a resumeAck decodes to its fields, counts below 2^53 exactly and the epoch rounded |
| WireDecoder.EpochsTellBootsApart | web/src/wire-binary.ts:63-77 | one boot time always decodes to one epoch, never 0, and two further apart than the spacing of doubles, 256 ns at today's times and at most 2048, to different ones in their order |
| Doubles.NumberIsNearest | web/src/wire-binary.ts:63-77 | a 64-bit count becomes one of the two doubles around it, at most half their distance away |
| Doubles.NumbersApart | web/src/wire-binary.ts:63-77 | counts further apart than the spacing stay apart and in order |
| Doubles.HalfSpacingCollapses | web/src/wire-binary.ts:63-77 | two counts of that size half a spacing apart become one number |
| WireDecoder.StampChangesOnlyTheAck | terminal/wire_binary.go:333-340 | patching the ack of any frame changes what it decodes to in the ack alone |
| WireDecoder.Cursor.ReadRowRuns | web/src/wire-binary.ts:86-102 | the advancing cursor reads exactly the row the parser finds, or fails with it |
| WireDecoder.Cursor.ReadChanged | web/src/wire-binary.ts:223-231 | the same for the sparse rows of a screen frame |
| WireDecoder.Cursor.ReadLines | web/src/wire-binary.ts:249-255 | the same for the lines of a scroll frame |
| WireDecoder.DecodeScreen | web/src/wire-binary.ts:206-247 | the reads of a screen frame in order are its parse |
| WireDecoder.DecodeScroll | web/src/wire-binary.ts:248-258 | the reads of a scroll frame in order are its parse |
| RowBudget.ScreenRowFits | terminal/wire_binary.go:360-414 | runs without an empty one over at most 1000 columns, however styled and linked, fit one page once capped |
| RowBudget.RenderBudgetedRow | terminal/wire_binary.go:360-414 | every row of at most 1000 columns, rendered with the links of its chain stamped on it, fits one page once capped |
| Params.ParserState.ParserClear | vt/parse.go:189-198 | the array stands for the empty text |
| Params.ParserState.HandleParam | vt/parse.go:128-139 | after a digit or semicolon the array stands for the text with that character |
| Params.ParserState.HandleSubparam | vt/parse.go:141-146 | the same for a colon |
| Params.ParserState.PushParam | vt/parse.go:150-169 | a full array ignores the value, any other stores it and opens a group when asked |
| Params.ParserState.FinalizeParams | vt/parse.go:174-187 | what is held is exactly the first 32 values of the text, in their groups |
| Params.ParserState.GroupStartIdx | vt/parse.go:204-210 | the start of a group is the number of values before it |
| Params.ParserState.ParamGroup | vt/parse.go:219-244 | a group's values, at most eight, read inside the array |
| Params.GroupsStep | vt/parse.go:128-146 | one more character changes the denoted values as ECMA-48 section 5.4.2 says, each value the decimal saturated digit by digit |
| Sgr.Pen.ApplySGR | vt/sgr.go:9-108 | the index loop over the array computes the fold of the parameters over the style, whose parameters mean what `SgrLaws` says |
| Sgr.Pen.Parameter | vt/sgr.go:9-108 | one parameter sets the attribute it names and takes the groups that belong to it |
| Sgr.Pen.ParseExtColorLegacy | vt/sgr.go:151-180 | the semicolon form of an extended colour, and how far it reaches |
| Sgr.Pen.ParseExtColorGroup | vt/sgr.go:114-146 | the colon form or, without sub-parameters, the semicolon form |
| SgrLaws.EachSets | vt/sgr.go:9-108 | each setting number turns on its own attribute and nothing else, and 0 everything off |
| SgrLaws.WeightReset | vt/sgr.go:9-108 | 1 or 2, then 22: neither bold nor dim, everything else as it was |
| SgrLaws.ItalicReset | vt/sgr.go:9-108 | 3, then 23 |
| SgrLaws.UnderlineReset | vt/sgr.go:9-108 | 4, then 24 |
| SgrLaws.DoubleUnderlineReset | vt/sgr.go:9-108 | 21, then 24 |
| SgrLaws.BlinkReset | vt/sgr.go:9-108 | 5, then 25 |
| SgrLaws.RapidBlinkReset | vt/sgr.go:9-108 | 6, then 25 |
| SgrLaws.InverseReset | vt/sgr.go:9-108 | 7, then 27 |
| SgrLaws.HiddenReset | vt/sgr.go:9-108 | 8, then 28 |
| SgrLaws.StrikethroughReset | vt/sgr.go:9-108 | 9, then 29 |
| SgrLaws.OverlineReset | vt/sgr.go:9-108 | 53, then 55 |
| SgrLaws.UnderlineKinds | vt/sgr.go:9-108 | 4:n names the kind of underline, 4:0 none |
| SgrLaws.BasicColors | vt/sgr.go:9-108 | 30 to 37, 40 to 47, 90 to 97 and 100 to 107 set their colour and nothing else |
| SgrLaws.DefaultColors | vt/sgr.go:9-108 | 39, 49 and 59 give back the default colour of each kind |
| SgrLaws.OthersAreIgnored | vt/sgr.go:9-108 | any other number changes nothing |
| SgrLaws.IndexedForms | vt/sgr.go:114-180 | 38, 48 and 58 with 5 and an index: the colon and the semicolon form give the same style |
| SgrLaws.DirectForms | vt/sgr.go:114-190 | with 2 and red, green, blue: the colon form, with a colour space or without, and the semicolon form give the same style |
| SgrLaws.PartialColon | vt/sgr.go:126-146 | a colon form without all three values changes nothing |
| SgrLaws.BrokenOff | vt/sgr.go:151-180 | a semicolon form that breaks off, and how much it takes with it |
| SgrLaws.UnknownColon | vt/sgr.go:126-146 | a colon form of any other kind changes nothing |
| SgrRoundTrip.SgrParamsString | vt/sgr.go:197-271 | the printed text is the joined numbers of the style |
| SgrRoundTrip.PrintedFits | vt/sgr.go:197-271 | a printed style needs at most 26 of the 32 parameter slots and no number saturates |
| SgrRoundTrip.PrintedIsHeld | vt/parse.go:128-187 | the array holds exactly the printed numbers |
| SgrRoundTrip.SgrRoundTripIff | vt/sgr.go:9-271 | from any pen, reading a printed style gives that style if and only if it is canonical: no basic underline colour, not both underline kinds |
| ParserTable.BuildTable | vt/table.go:50-401 | the built table is the meaning of every byte in every state |
| ParserTable.TableIsTotal | vt/table.go:356-401 | every byte has a transition; CAN, SUB and ESC leave any state; bytes from 0x80 never cut a string or the ground state |
| ParserTable.DispatchIsFinal | vt/table.go:165-243 | a control sequence is dispatched by 0x40 to 0x7E in its own states only |
| ParserTable.HighBytes | vt/table.go:356-401 | bytes 0x80 to 0x9F are text and payload where those are read and C1 controls elsewhere |
| Parser.Parser.Feed | vt/parse.go:7-53 | one byte, in every state: exactly the reports to the screen that the table, the exit actions and an unfinished UTF-8 character call for; sequence bytes move the state, the text and the pen as they should |
| Parser.Parser.DoAction | vt/parse.go:56-101 | each action's effect on the parameters, the markers, the collected strings and the pen, and what it reports |
| Parser.DecodeUtf8 | vt/parse.go:443-470 | the character of a UTF-8 sequence is never a surrogate, past U+10FFFF or U+FFFF |
| Characters.EncodeReadsBack | vt/parse.go:443-470 | every character from U+0080 on comes back from its UTF-8 bytes, but for surrogates and U+FFFF, which are replaced |
| Characters.DecodesIff | vt/parse.go:443-470 | a lead byte with its continuation bytes stands for a character other than the replacement if and only if it is that character's encoding, so no overlong form stands for any |
| Parser.FeedPrintedStyle | vt/parse.go:7-101 | from any parser state and pen, the bytes printed for a style leave exactly it if and only if it is canonical |
| Lines.ShiftUpTwice | vt/csi.go:621-634 | shifting twice is shifting once by the sum |
| Lines.ShiftIsConfined | vt/csi.go:1300-1355 | nothing outside the margin box moves |
| Lines.ShiftDownUndoesUp | vt/csi.go:1300-1355 | shifting back restores what was neither pushed out nor blanked |
| Lines.ScrollConserves | vt/screen.go:732-751 | drained rows and shown rows together are the old rows in order, then blanks: every row keeps its absolute index |
| Lines.DeleteUndoesInsert | vt/csi.go:1158-1188 | deleting what was just inserted restores every cell not pushed out |
| Lines.FittedKeeps | vt/screen.go:474-499 | a row keeps what fits and is padded with blanks; padding and cutting again gives it back |
| Lines.HeightenedKeeps | vt/screen.go:443-469 | a shorter screen keeps its top rows, a taller one all of them, at the top or, for the alternate screen, at the bottom |
| Lines.BlankIs | vt/screen.go:804-812 | a blank is a space in the background given, otherwise in the default look |
| Grid.Screen.constructor | vt/screen.go:309-324 | a new screen meets the grid invariant |
| Grid.Screen.ScrollUpOnce | vt/csi.go:1300-1322 | one line of scroll is the shift by one; only a full-screen scroll drains its top row |
| Grid.Screen.ScrollUp | vt/csi.go:621-626 | SU is one shift by the clamped count and drains exactly the rows shifted out of a full screen |
| Grid.Screen.ScrollDown | vt/csi.go:629-634 | SD is one shift by the clamped count |
| Grid.Screen.InsertLines | vt/csi.go:1256-1276 | IL is one shift by the clamped count below the cursor, or nothing outside the region |
| Grid.Screen.DeleteLines | vt/csi.go:1278-1298 | DL likewise, and drains nothing |
| Grid.Screen.LineDown | vt/csi.go:1324-1336 | down one row, scrolling at the region's bottom from inside the margins only |
| Grid.Screen.ScrollIfNeeded | vt/screen.go:693-710 | a cursor past the region comes back to its bottom after one scroll |
| Grid.Screen.WrapLine | vt/screen.go:693-724 | an autowrap lands on the wrap column of the next row and marks it as a continuation unless a margin box wrapped |
| Grid.Screen.Put | vt/screen.go:626-691 | the whole effect of printing: the deferred wrap and a wide character's own first, the row pushed right in insert mode, then the glyph with its spacer and nothing else; the cursor past it or at the edge with the next wrap deferred |
| Grid.Screen.InsertChars | vt/csi.go:1158-1170 | the row is the inserted row within the margins |
| Grid.Screen.DeleteChars | vt/csi.go:1175-1188 | the row is the deleted row within the margins |
| Grid.Screen.SetScrollRegion | vt/csi.go:738-752 | a region of two rows or more is set, the cursor homed in it or on the screen and a deferred wrap cancelled; any other is ignored |
| Grid.Screen.SetLeftRightMargins | vt/csi.go:758-772 | likewise for the margins |
| Grid.Screen.CursorPosition | vt/csi.go:331-356 | CUP clamps to the screen, or in origin mode to the region and margins |
| Grid.Screen.SaveCursor | vt/tabstops.go:78-90 | the slot of the screen shown, the other untouched |
| Grid.Screen.RestoreCursor | vt/tabstops.go:93-118 | the saved place brought onto the screen with the pen, the origin mode, the deferred wrap and the guard saved with it, or home |
| Grid.Screen.EnterFromMain | vt/screen.go:830-875 | the main screen is kept as a copy that shares no storage, and the alternate one shown: its stashed rows, without wrap flags, when they fit and the mode is not 1049, else blank ones |
| Grid.Screen.ExitFromAlt | vt/screen.go:889-945 | the kept cells, flags and region come back, and 47 alone leaves the alternate rows stashed; the invariant holds afterwards exactly when the kept top is still on the screen |
| Grid.Screen.LeaveAndReturn | vt/screen.go:830-945 | the alternate screen left and entered again shows its rows as they were when it was left with 47 and not entered with 1049, and blank rows otherwise |
| Grid.Screen.Resize | vt/screen.go:413-436 | each dimension within 1 and 1000, content kept or padded, the cursor kept on its row and cut at the edges, stops kept, region and margins full, the kept main screen rebuilt |
| Grid.Screen.ResizeWidth | vt/screen.go:474-499 | every row cut or padded, tab stops kept and extended to the new width |
| Grid.Screen.ResizeSavedMain | vt/screen.go:507-529 | the kept main rows, each cut or padded, at the new size with their cursor on it |
| Grid.ShrinkUnderAltLosesTheRegion | vt/screen.go:922-945 | a concrete run after which the region's top lies below its bottom |
| Erasing.EraseRegionMode | vt/screen.go:767-796 | exactly the unguarded cells of the rectangle become blank; off-screen coordinates are skipped |
| Erasing.EraseInDisplay | vt/csi.go:557-589 | ED and DECSED by mode, with the drain and wrap flags dropped where they should be |
| Erasing.EraseInLine | vt/csi.go:593-606 | EL and DECSEL by mode |
| Erasing.EraseChars | vt/csi.go:610-617 | ECH clamped to the row |
| Erasing.HalvesMeetAtTheCursor | vt/csi.go:557-589 | erasing up to the cursor and from it on, in either order, is erasing the whole screen under the same guards |
| Erasing.EraseSpares | vt/screen.go:767-796 | a guarded cell and a cell outside survive, every other is blank, flags stay |
| Erasing.GuardsByMode | vt/screen.go:767-796 | a plain erase spares ISO guards, a selective rectangle DECSCA guards, a selective erase both, and the rest neither |
| Erasing.RectBounds | vt/csi.go:460-485 | whatever the parameters, the rectangle lies on the screen and in origin mode inside region and margins |
| Erasing.RectByOrigin | vt/csi.go:460-485 | bounds left out are the screen's, or in origin mode the region's and margins', from whose corner the others count and at whose edge they are cut |
| Erasing.FillRect | vt/csi.go:489-500 | DECFRA fills exactly the rectangle, with the pen |
| Erasing.EraseRect | vt/csi.go:505-514 | DECERA spares nothing, DECSERA DECSCA guards only |
| Erasing.CopyRect | vt/csi.go:520-553 | DECCRA is the simultaneous copy, cut at the screen's edge |
| Erasing.CopyIsSimultaneous | vt/csi.go:520-553 | every cell reached shows what its source showed before, overlap or not |
| Columns.InsertOrDeleteColumns | vt/csi.go:1194-1236 | DECIC and DECDC shift every row of the region between cursor and right margin |
| Columns.BackIndex | vt/csi.go:1361-1371 | DECBI moves back, or at the margin scrolls the box right |
| Columns.ForwardIndex | vt/csi.go:1376-1386 | DECFI, its mirror |
| Columns.ShiftScreen | vt/csi.go:1414-1452 | SL and SR shift whole rows of the region |
| Columns.DeleteUndoesInsertColumns | vt/csi.go:1194-1236 | a column delete undoes a column insert up to what fell off |
| Motion.CursorUp | vt/csi.go:306-313 | up, stopping at the region's top from inside it and never leaving the region |
| Motion.CursorDown | vt/csi.go:319-326 | down, stopping at the region's bottom from inside it and never leaving the region |
| Motion.CursorRight | vt/csi.go:360-367 | right, stopping at the margin from inside it and never leaving the margins |
| Motion.CursorLeft | vt/csi.go:376-392 | under reverse wrap exactly as many backspaces, else one clamped step |
| Motion.CursorLine | vt/csi.go:46-55 | CNL and CPL move by rows within the region and end at the left margin |
| Motion.PositionReadsBack | vt/csi.go:851-871 | a cursor placed by CUP, or by CHA and VPA, reports the position asked for, cut at the screen or in origin mode at the region and margins |
| Motion.Backspace | vt/csi.go:402-424 | one step back, wrapping inside region and margins under reverse wrap |
| Motion.BackWalksTheBox | vt/csi.go:402-424 | reverse-wrapping backspaces walk the margin box backwards cell by cell as one cycle and never leave it |
| Motion.BackManyCells | vt/csi.go:376-392 | n of them from the n-th cell on go back exactly n cells |
| Motion.LineFeed | vt/parse.go:273-279 | LF, with the return of newline mode first |
| Motion.NextLine | vt/parse.go:340-350 | NEL moves one row down and returns; it decides its scroll by the column it starts from |
| Motion.ReverseIndex | vt/parse.go:357-367 | RI scrolls down at the region's top from inside the margins only |
| Motion.CarriageReturn | vt/parse.go:280-288 | to the left margin, or to the edge from left of it |
| Motion.NextTabStop | vt/tabstops.go:37-47 | the first stop past the column |
| Motion.PrevTabStop | vt/tabstops.go:50-63 | the last stop before the column, or 0 |
| Motion.SetTabStop | vt/tabstops.go:6-29 | exactly that stop changes, default stops becoming explicit first |
| Motion.TabOnce | vt/csi.go:650-668 | to the next stop, skipping none, or to the margin or edge before it; false exactly when already there |
| Motion.TabForward | vt/csi.go:638-644 | to the n-th stop past the column, or to the limit when fewer come before it |
| Motion.TabBackward | vt/csi.go:672-680 | to the n-th stop before the column, or to column 0 when there are fewer |
| Motion.Tab | vt/parse.go:289-306 | one tab with nothing else changed; a deferred wrap makes it do nothing, or with the more fix is carried out first and the tab taken from the wrap column |
| ScreenRuns.SoftReset | vt/csi.go:1454-1498 | DECSTR resets region, margins, modes, pen and saved cursors and keeps the cells |
| ScreenRuns.HardReset | vt/parse.go:380-418 | RIS leaves a blank main screen without kept buffers |
| ScreenRuns.Align | vt/parse.go:423-441 | DECALN fills the screen and resets the margins |
| ScreenRuns.ColumnMode | vt/csi.go:1120-1133 | DECCOLM resets the margins and erases unless suppressed |
| ScreenRuns.Perform | vt/csi.go:37-190 | any operation keeps the grid invariant and leaves the kept main screen alone; and every one of them leaves exactly the page, the deferred wrap and the setting (pen, modes, margins, region, stops, saved cursor) described |
| ScreenRuns.SwitchScreen | vt/screen.go:830-945 | entering keeps the main screen aside, leaving shows it again with its region, and with 1049 its cursor and pen; leaving forgets the pending drain, and no mode changes |
| ScreenRuns.PlainPrint | vt/screen.go:626-691 | printing a narrow character with no wrap due and no insert mode changes that one cell and moves past it |
| ScreenRuns.WidePrint | vt/screen.go:626-691 | a wide character where it fits writes itself and its second half, and nothing else |
| ScreenRuns.WideWrap | vt/screen.go:626-691 | in the last column it leaves a blank there and goes to the next row, which is marked as continuing |
| ScreenRuns.WrapThenPrint | vt/screen.go:626-691 | a deferred wrap comes before the character, which goes to the start of the next row, marked as continuing |
| ScreenRuns.ScrollThenPrint | vt/screen.go:693-730 | at the bottom of a full screen the top row is drained first and the character starts a new last row |
| ScreenRuns.Run | vt/screen.go:327-332 | over every run of operations, alternate-screen switches, resets and main-screen resizes the grid stays well formed and shares no storage |
| ScreenRuns.AltSession | vt/screen.go:830-945 | whatever happens between entering and leaving, cells, flags and region come back, and with 1049 cursor and pen |
| Terminal.Terminal.Feed | vt/parse.go:7-53 | one byte: the terminal stays well formed, what is kept of the main screen changes only by a switch, a reset or a resize, text and its controls make none, a byte that reports nothing changes nothing, and a single report does what is said of it: a character printed, a described operation, a mode turned, saved or restored, a switch, a pen |
| Terminal.Terminal.DoControl | vt/parse.go:267-316 | BS, HT, LF, VT, FF and CR are the operations described of them, SO and SI choose the set in use, the C1 codes of SPA and EPA the guard; any other changes nothing, and no control switches the screen |
| Terminal.Terminal.DoEscape | vt/parse.go:319-414 | IND, NEL, RI, HTS, DECBI, DECFI and DECALN are the operations described of them, IND after cancelling a deferred wrap; saved cursors, guards, single shifts and character sets change what they should and nothing else; RIS leaves a new screen; any other changes nothing |
| Terminal.Terminal.DoCsi | vt/csi.go:237-257 | the wrap cancelled for its final byte, then exactly what the table calls for: an operation from where the screen was, modes by lists, the pen, the region, the margins, the saved cursor, a repeat, or with an intermediate byte its own operation, the soft reset or the level; and nothing where the table has no entry for the grid |
| Terminal.Terminal.SetMode | vt/csi.go:943-1070 | each mode that acts on the grid is turned as it should be and no other, but the margin mode is set only from conformance level 64 on and the column mode resets it; what its operation does to the page and the setting besides |
| Terminal.Terminal.PrintAscii | vt/charset.go:63-87 | a printable byte is read in the set in use, a single shift holding for one character, and printed |
| Terminal.Terminal.Designate | vt/charset.go:92-114 | exactly the designated set changes |
| Terminal.Terminal.SaveOrRestore | vt/tabstops.go:78-118 | the character sets are saved and restored with the cursor, in the slot of the screen shown |
| Terminal.Terminal.DoOsc | vt/osc.go:581-597 | a hyperlink command sets or clears the pen's link, any other or a malformed one changes nothing |
| Terminal.Terminal.SaveModes | vt/csi.go:1092-1100 | XTSAVE records the reported status of the modes listed and of no other |
| Terminal.SavedComesBackIff | vt/csi.go:968-974 | over every state of the modes: one saved, set or reset and restored comes back if and only if it is not mode 41 that was set, nor the margin mode that was set and is reset in between below conformance level 64 |
| Terminal.Terminal.SaveAndRestore | vt/csi.go:1092-1114 | for modes 3, 6, 7, 41, 45, 69, 95, 47, 1047 and 1049, XTSAVE, a change and XTRESTORE bring the mode back under exactly that condition |
| ByteRuns.Write | vt/screen.go:327-332 | over every byte string from every terminal nothing is read or written out of bounds, and the kept main screen survives unless the bytes switch, reset or resize |
| ByteRuns.ControlSequence | vt/csi.go:237-257 | any control sequence without an intermediate, with any numbers, fed in the middle of anything, is carried out with exactly those numbers |
| ByteRuns.ControlByte | vt/parse.go:267-316 | any control character between characters is carried out |
| ByteRuns.CollectedSequence | vt/csi.go:237-292 | any control sequence with one intermediate byte, likewise |
| ByteRuns.EscapeSequence | vt/parse.go:319-414 | any escape sequence of two bytes, fed in the middle of anything, is carried out |
| ByteRuns.CollectedEscape | vt/parse.go:319-330 | any escape sequence with an intermediate byte, likewise |
| ByteRuns.OneMode | vt/csi.go:910-936 | the bytes that set, reset, save or restore one mode do so to the modes as they were, in the middle of anything |
| ByteRuns.ListedModes | vt/csi.go:910-936 | a list of modes is set, reset, saved or restored in order |
| ByteRuns.SetLevel | vt/csi.go:219-221 | DECSCL by its bytes sets the conformance level and no mode |
| ByteRuns.SaveAndRestore | vt/csi.go:1092-1114 | the condition for a saved mode to come back, for the bytes of the three control sequences, from any terminal |
| ByteRuns.LoseMarginMode | vt/csi.go:968-974 | bytes after which a saved margin mode is not restored |
| ByteRuns.SwitchScreen | vt/csi.go:910-936 | ESC [ ? mode h or l, fed in the middle of anything, is exactly the alternate-screen switch |
| ByteRuns.FullScreenSession | vt/screen.go:830-945 | an alternate-screen mode set, any bytes at all, the mode reset: unless those bytes completed a switch or reset of their own, the main screen is back with its region, and with 1049 the cursor and the pen |
| ByteRuns.WriteText | vt/table.go:102-112 | bytes without ESC, from the ground state, make no switch, reset or resize |
| ByteRuns.FullScreenText | vt/screen.go:830-945 | an alternate-screen mode set, any bytes without ESC, the mode reset: the main screen is always back |
| ByteRuns.SetPrintedStyle | vt/sgr.go:9-271 | from any terminal, in the middle of anything, the bytes printed for a style leave it as the screen's pen if and only if it is canonical |
| ByteRuns.TypeText | vt/screen.go:626-691 | plain text typed where it fits up to the margin appears there in the pen's look and nowhere else, the cursor past it or at the margin with the next wrap deferred |
| Commands.MoveVertically | vt/csi.go:306-326 | CUU, CUD and VPR by their bytes: n rows up or down, from inside the region at most to its edge, from outside to the screen's; nothing else changes |
| Commands.MoveRight | vt/csi.go:360-367 | CUF: n columns right, from inside the margins at most to the right one |
| Commands.MoveLeft | vt/csi.go:376-392 | CUB: n columns left, from inside the margins at most to the left one, under reverse wrap n backspaces |
| Commands.MoveLines | vt/csi.go:47-55 | CNL and CPL: as CUD and CUU, and to the left margin |
| Commands.MoveToColumn | vt/csi.go:20-22 | CHA and HPA: to the column, from the left margin in origin mode |
| Commands.MoveToRow | vt/csi.go:99-99 | VPA: to the row, from the region's top in origin mode |
| Commands.MoveAlong | vt/csi.go:94-97 | HPR: n columns right, whatever the margins |
| Commands.MoveCursor | vt/csi.go:331-356 | CUP and HVP: to that row and column, cut at the screen's limits or the region's and margins' |
| Commands.MoveByTabs | vt/csi.go:638-680 | CHT and CBT: to the n-th stop on or back |
| Commands.EraseDisplay | vt/csi.go:557-591 | ED and DECSED: from the cursor on, up to it, or everything, sparing the guards they should; the cursor stays |
| Commands.EraseLine | vt/csi.go:593-606 | EL and DECSEL: the same of the cursor's row |
| Commands.EraseCells | vt/csi.go:610-617 | ECH: n cells from the cursor on, at most to the end of the row |
| Commands.ShiftCells | vt/csi.go:1158-1188 | ICH and DCH: the cells from the cursor to the right margin shift right or left |
| Commands.ShiftLines | vt/csi.go:1246-1298 | IL and DL: from inside region and margins the lines from the cursor's on shift down or up, from outside nothing changes |
| Commands.ScrollLines | vt/csi.go:621-634 | SU and SD: the region's lines shift up or down, and a full-screen scroll up drains its top rows |
| Commands.ClearScreen | vt/csi.go:557-591 | the bytes of a cleared screen leave every cell blank in the pen's background and the cursor at home, from any terminal |
| Controls.ClearStop | vt/csi.go:725-732 | TBC 0: the stop at the cursor goes and no other |
| Controls.ClearStops | vt/csi.go:725-732 | TBC 3: every stop goes |
| Controls.SetRegion | vt/csi.go:738-752 | DECSTBM: the rows given, cut at the screen, are the region and the cursor is home; fewer than two change nothing |
| Controls.SetMargins | vt/csi.go:758-772 | DECSLRM: the columns given are the margins that bound what moves, likewise |
| Controls.RepeatLast | vt/csi.go:682-694 | REP: the last character n times more, in the style it was printed in, with every wrap and scroll on the way; the pen stays as it was |
| Controls.RepeatedFits | vt/csi.go:682-694 | where a narrow one fits, the n cells from the cursor on show it, nothing else changes and the cursor is past them |
| Controls.KeepOrBringCursor | vt/csi.go:130-150 | SCOSC and SCORC: cursor, pen, guard, origin mode, deferred wrap and character sets are kept, or brought back onto the screen |
| Controls.SetStyle | vt/csi.go:122-126 | SGR with any parameter text: the pen is what its groups make of it, and nothing else changes |
| Controls.SetNumbers | vt/csi.go:122-126 | the same with single numbers |
| Controls.ShiftScreen | vt/csi.go:1414-1452 | SL and SR: whole rows of the region shift |
| Controls.ShiftColumns | vt/csi.go:1194-1240 | DECIC and DECDC: from inside region and margins the columns from the cursor's on shift in every row of the region |
| Controls.FillRectangle | vt/csi.go:489-500 | DECFRA by its bytes |
| Controls.EraseRectangle | vt/csi.go:505-514 | DECERA and DECSERA by their bytes |
| Controls.CopyRectangle | vt/csi.go:520-553 | DECCRA by its bytes |
| Controls.Protect | vt/csi.go:218-218 | DECSCA: the guard of what is printed from now on is set exactly for 1 |
| Controls.ResetSoftly | vt/csi.go:1454-1498 | DECSTR: region, margins, modes, pen, saved cursor and character sets as in a new terminal; rows, cursor and stops stay |
| Controls.Ignore | vt/csi.go:237-257 | a control sequence whose last byte stands for nothing on the grid changes nothing but the deferred wrap it may cancel |
| Controls.IgnoreCollected | vt/csi.go:265-292 | likewise with an intermediate byte, which keeps the rest of its sequence from being taken for another |
| Escapes.IndexDown | vt/parse.go:337-339 | IND: one line down, scrolling at the region's bottom from inside the margins |
| Escapes.NextLine | vt/parse.go:340-350 | NEL: the same, then the return |
| Escapes.IndexUp | vt/parse.go:357-367 | RI: one line up, scrolling down at the region's top from inside the margins |
| Escapes.IndexSideways | vt/csi.go:1361-1412 | DECBI and DECFI: one column back or forward, at the margin the region's columns shift instead |
| Escapes.SetStop | vt/parse.go:335-336 | HTS: a stop at the cursor, no other changes |
| Escapes.SaveOrRestore | vt/tabstops.go:78-118 | DECSC and DECRC, as SCOSC and SCORC |
| Escapes.Guard | vt/parse.go:351-354 | SPA and EPA: the ISO guard of what is printed from now on |
| Escapes.ShiftOnce | vt/parse.go:376-379 | SS2 and SS3: the next character is read in the third or fourth set |
| Escapes.ResetAll | vt/parse.go:380-414 | RIS: from any terminal the blank main screen of a new one |
| Escapes.AlignScreen | vt/parse.go:423-441 | DECALN: every cell an E, region and margins full, the cursor at home |
| Escapes.NameSet | vt/charset.go:92-114 | SCS: exactly the set named changes |
| Escapes.Ignore | vt/parse.go:330-414 | an escape sequence whose last byte stands for nothing on the grid changes nothing |
| Escapes.StepBack | vt/csi.go:402-424 | BS: one column back, under reverse wrap on round the margin box |
| Escapes.Return | vt/parse.go:280-288 | CR: to the left margin, or to the edge from left of it |
| Escapes.Feed | vt/parse.go:273-279 | LF, VT and FF: one line down, from column 0 in newline mode |
| Escapes.TabOn | vt/parse.go:289-306 | HT: to the next stop or the limit before it, with a deferred wrap nothing or the wrap first |
| Escapes.UseSet | vt/parse.go:307-310 | SO and SI: the second set is in use, or the first |
| Escapes.ReadIn | vt/charset.go:63-87 | what each byte is read as in each set |
| Escapes.TypeSequence | vt/parse.go:7-53 | a lead byte and its continuation bytes print the one character they stand for, which is then the one that REP repeats |
| Escapes.TypeCharacter | vt/parse.go:443-470 | every character from U+0080 on is printed by its bytes, surrogates and U+FFFF as the replacement |
| Escapes.LinksIff | vt/osc.go:59-80 | a command sets the link exactly when its number is 8 and a second semicolon follows |
| Escapes.LinkIs | vt/osc.go:581-597 | the link is all that follows that semicolon |
| Escapes.Command | vt/osc.go:59-80 | any operating-system command by its bytes changes nothing of the screen but the pen's link, as those two say |
| Escapes.SetOriginMode | vt/csi.go:943-1070 | DECOM by its bytes: the mode, and the cursor at home |
| Escapes.SetFlagMode | vt/csi.go:943-1070 | DECAWM, the more fix and reverse wrap: that mode and nothing else |
| Escapes.SetMarginMode | vt/csi.go:969-974 | DECLRMM: on from level 64, off with the margins forgotten |
| Escapes.SetColumnMode | vt/csi.go:1120-1133 | DECCOLM: margins and region full, the cursor at home, and the rows erased unless mode 95 at level 65 forbids it |
| Escapes.SetAnsiMode | vt/csi.go:921-936 | IRM and LNM: that mode and nothing else |
| Runs.CellsToRuns | vt/wire.go:97-125 | the runs are maximal and expand to the row up to trailing unstyled blanks, kept when the row continues |
| Runs.TrimTrailingBlanks | vt/wire.go:84-90 | exactly the trailing trimmable blanks go |
| Runs.ShownIs | vt/wire.go:97-125 | what is sent of a cell: its character, its style and the application's link, the second half of a wide character as U+FFFF |
| Runs.StampRun | vt/wire.go:390-421 | one run is stamped column by column and keeps its text |
| Runs.ApplyLinkSpans | vt/wire.go:390-421 | links are stamped on exactly the covered columns, the text is kept, an application's own links are never touched |
| Autolinks.ChainRows | vt/wire.go:307-328 | the chain of a row, preceded by the kept tail, at most four rows around it |
| Autolinks.BoundChain | vt/wire.go:288-298 | at most four consecutive rows that contain the focus |
| Autolinks.ContinuesIff | vt/wire.go:225-267 | exactly when a row continues the one above: it wraps from it, or both are as wide and alike indented and the upper one is full to its last column |
| Autolinks.ChainTextIs | vt/wire.go:271-284 | a row takes part with all its text, but for the indent of a continuation that did not wrap |
| Autolinks.OneChain | vt/wire.go:260-328 | a row belongs to one chain only |
| Autolinks.ChainAgrees | vt/wire.go:307-328 | all rows of a chain of at most four, the kept tail included, build the same joined rows, each with its own focus |
| Autolinks.AutolinkSpans | vt/wire.go:350-385 | the spans are disjoint and ordered and cover exactly the columns a match shows on the focus row |
| Autolinks.LinkIsWhole | vt/wire.go:350-385 | a match stamps its whole URL on every column that shows it and on no other |
| Rendering.RenderRow | vt/wire.go:55-60 | the rendered row has exactly the columns that are sent, each with the application's link as it is or the link the scan of its chain puts there, and no empty run |
| Rendering.SentLength | vt/wire.go:67-90 | how many columns are sent: all of a row that the next one wraps from, else all up to the last that is not an unstyled blank without a link, so coloured blanks are sent |
| Rendering.SameLinkOnEachRow | vt/wire.go:335-342 | two rows of one chain of at most four, each rendered by itself, scan the same text, and every column of either that shows a match and has no link of its own carries the match's whole URL |
| Rendering.RenderTwoRows | vt/wire.go:335-342 | rendering both rows links every match of the whole chain on every column that shows it, and nothing else |
| Rendering.LinkedEverywhere | vt/wire.go:335-342 | a column differs from its cell only where it shows a match |
| Layouts.NormalizeIsIdempotent | terminal/session_set.go:244-264 | normalizing any layout twice is normalizing it once |
| Layouts.NormalizedIsValidIff | terminal/session_set.go:187-264 | exactly which layouts normalizing makes acceptable |
| Layouts.WellShapedIff | terminal/session_manager.go:595-609 | exactly which layouts are well shaped |
| Layouts.PresentableIsNormal | terminal/session_set.go:239-264 | a layout already fit to show is left alone |
| Layouts.IndexOfIds | terminal/session_set.go:214-237 | positions to ids and back is the identity |
| Layouts.IdsOfIndices | terminal/session_set.go:214-237 | ids to positions and back empties exactly the panes whose session is not listed |
| Layouts.NormalizedPanes | terminal/session_set.go:275-277 | a repaired layout names only listed sessions and shows one in the selected pane |
| Layouts.NormalizingKeeps | terminal/session_set.go:239-277 | a pane whose session stays keeps it, and the selection moves only off an emptied pane |
| Sessions.SessionManager.Create | terminal/session_manager.go:399-446 | appended last with its asked alias if valid and free, shown when nothing was; refused after shutdown |
| Sessions.SessionManager.Close | terminal/session_manager.go:780-795 | out of order and layout; the other shown session and its selection stay |
| Sessions.SessionManager.SetSessionOrder | terminal/session_manager.go:530-551 | accepted exactly when the ids name the live set once each |
| Sessions.SessionManager.SetPaneLayout | terminal/session_manager.go:640-663 | accepted exactly when well shaped, naming live sessions and selecting a shown one |
| Sessions.SessionManager.DropFromLayout | terminal/session_manager.go:678-687 | the emptied panes are repaired and the rest kept |
| Sessions.SessionManager.SetSessionAlias | terminal/session_manager.go:817-832 | accepted exactly when valid and held by no other session |
| Sessions.AliasesByExample | terminal/session_manager.go:838-852 | which aliases are valid, by example |
| Sessions.SessionManager.MaybeReap | terminal/session_manager.go:1400-1418 | with no client past the idle window everything goes, else nothing |
| Sessions.SessionManager.Shutdown | terminal/session_manager.go:950-990 | everything goes, for good |
| Sessions.SessionManager.ApplyRestored | terminal/session_set.go:362-380 | order and layout are each replaced only when a restored session lives and no client wrote its own since |
| Sessions.RestoredOrder | terminal/session_set.go:384-397 | the restored sessions in index order, then the others in theirs |
| Sessions.RestoredOrderListsLive | terminal/session_set.go:384-397 | which is a permutation of the live sessions |
| Sessions.SessionManager.CaptureSessionSet | terminal/session_set.go:77-104 | the capture of the kept sessions, which always passes the checks of a stored set |
| Sessions.CapturedIsSettled | terminal/session_set.go:77-198 | aliases valid and distinct, at most 512 entries, a layout fit to show |
| Sessions.SessionManager.RestoreSessionSet | terminal/session_set.go:305-354 | exactly the planned sessions are created; into an empty manager with every create succeeding, capturing again gives back the stored set, an entry stored without an alias with the one it was given |
| Sessions.SessionManager.Run | terminal/session_manager.go:376-687 | over every interleaving the order is a permutation of the live sessions and the layout fit to show |
| ProgramStatus.ProgramStatus.Apply | vt/osc7501.go:119-148 | every change of the record set is the specified transition and keeps its invariant |
| ProgramStatus.ProgramStatus.Evict | vt/osc7501.go:189-199 | the one least recently reported record goes, whatever order the map is walked in |
| ProgramStatus.ProgramStatus.FoldRecords | vt/osc7501.go:245-263 | the folded record, whatever order the map is walked in |
| ProgramStatus.ProgramStatus.Store | vt/osc7501.go:152-164 | the record is written, evicting only past the cap, and a change of state or kind reported |
| ProgramStatus.ProgramStatus.ClearBelow | vt/osc7501.go:166-178 | exactly the id and its subtree go |
| ProgramStatus.SubtreeIff | vt/osc7501.go:166-178 | the ids below one are those that go on from it after a slash |
| ProgramStatus.ProgramStatus.DropUnfinished | vt/osc7501.go:180-186 | exactly the working and blocked records go |
| ProgramStatus.ProgramStatus.App | vt/osc7501.go:267-278 | the app of the nearest ancestor that has one |
| ProgramStatus.Screen.Report | vt/osc7501.go:202-212 | a report's number is past every number of either channel |
| ProgramStatus.InvRun | vt/osc7501.go:95-148 | over every run: at most 64 records, distinct numbers, the shown record is the fold, occurrence at most the newest number |
| ProgramStatus.InvStep | vt/osc7501.go:119-148 | one change keeps that, and neither counter ever falls |
| ProgramStatus.NothingUnfinishedAfterExit | vt/osc7501.go:95-148 | after an exit no working or blocked record is ever left or shown |
| ProgramStatus.OnlyChangesOccur | vt/osc7501.go:137-148 | the occurrence moves exactly for a report that changed a record's state or kind, or cleared, and changed what is shown, and then to that report's number |
| ProgramStatus.ShowsWhoWaits | vt/osc7501.go:231-263 | the status is blocked exactly when some record is, and then shows the root or the newest blocked record |
| ProgramStatus.EvictionKeepsTheNewest | vt/osc7501.go:150-199 | after any run of reports a missing id was last reported before each of the 64 that remain |
| TextTail.Text | terminal/text.go:27-68 | the text is exactly the last maxLines logical lines of ring, drain and screen |
| TextTail.TextTail.Push | terminal/text.go:80-87 | one more row on top joins the line being assembled or completes it |
| TextTail.TextTail.Flush | terminal/text.go:91-102 | the assembled line is completed, trimmed, and dropped when empty below all content |
| TextTail.TrimIs | terminal/text.go:91-102 | trimming takes exactly the trailing blanks |
| TextTail.DropIs | terminal/text.go:44-68 | exactly the trailing empty lines are dropped |
| TextTail.EarlyExitIsExact | terminal/text.go:44-68 | stopping at maxLines complete lines loses nothing the answer needs |
| TextTail.GroupsAreTheLines | terminal/text.go:70-87 | grouping by wrap flags loses no row and cuts exactly before rows that do not wrap |

## Left out

- Registry: the 60-minute retention and the cap are times and counts of `ClientRegistry`; in the composed model losing a ledger is the Reclaim step.
- ClientRegistry.ClientRegistry.ApplyInput: a PTY write is atomic; a short or failed write, which ends the process, is not modelled.
- Framing.FramingIsTransparent: JSON is a pair of functions that parse back what they print and reject the empty payload; the controls' own effects are elsewhere.
- Outbox.ResumeState.HandleResumeAck: the renderer, focus and capability callbacks of the same handler are browser effects.
- InputProtocol: a server that restarts has a higher epoch than the one before, which the code leaves to the clock, and epochs are compared exactly; `WireDecoder.EpochsTellBootsApart` says what the decoded ones tell apart.
- ExactlyOnce.DeliveredInOrderAtMostOnce: holds for runs without input between open and resumeAck, without forgetting an unseen count, and without forgetting the ledger of a connected socket, which the cap does to a resuming one when every other ledger is attached; `Hypotheses` shows what happens otherwise to the first two. Ephemeral input and focus reports are uncounted writes and not part of the log.
- ResumeGate.ScrollPartsExactlyOnce: says nothing of clients outside a frame's snapshot, nor of lines a resume drains into the ring; the latter are in `Replication`.
- Replication.WholeFrameShowsTheScreen: a frame is applied in one step, the ring keeps the whole history, and the clipboard, the bell, an ED3 clear and the client's own caps are left out.
- FlushBuilder.FlushShowsTheScreen: rows are compared as values; the client is the map from absolute index to row and an alternate grid, without its renderer.
- Paging.HistoryControl: the token buckets that pace requests and replies are left out, and so are the read-lock details of the ring.
- WireDecoder.ScreenRoundTrip: modes, title and clipboard frames are one-field records.
- Wire.RowSizeIsExact: UTF-8 validity is a parameter, and colours are already 32-bit numbers; the palette and contrast mapping are not modelled.
- Parser.Parser.Feed: device-control strings report nothing.
- Parser.Parser.DoAction: hook, put and unhook have no effect but finalizing the parameters.
- Terminal.Terminal.Feed: device-control strings and every operating-system command but the hyperlink are left out, as are replies, titles and the mouse and keyboard modes; none of them acts on the grid.
- Terminal.Terminal.Print: the rune's width is a function given, of which 0, 1 and 2 count.
- Grid.Screen.SaveCursor: the character sets saved with the cursor are in `Terminal`.
- ScreenRuns.SoftReset: cursor visibility, mouse and keyboard modes are not modelled; the character sets are reset in `Terminal`.
- ScreenRuns.HardReset: likewise, and titles, special colours and the program status of the reset are elsewhere or left out.
- Grid.Screen.Put: the rune's width is a parameter of 0, 1 or 2; combining characters are left out.
- ScreenRuns.Run: a resize while the alternate screen is shown is not taken, because leaving the screen may then break the region (Grid.ShrinkUnderAltLosesTheRegion).
- Rendering.RenderRow: the application's links, the theme and the palette are values of the cells.
- Autolinks.AutolinkSpans: URL matches are given as disjoint intervals of the joined text; the upkeep of the kept tail of drained rows is left out.
- Layouts.NormalizedIsValidIff: a handle is a real number, so the refusal of NaN is left out.
- Sessions.SessionManager.Create: a drawn session id is new, which the code leaves to 128 random bits; titles are kept as given, without sanitizing.
- Sessions.SessionManager.CaptureSessionSet: resume tokens and the byte limit of the stored JSON are left out, and the list is taken in display order.
- Sessions.SessionManager.RestoreSessionSet: the minted aliases are given and collide with none asked for; the counts of the result are left out.
- ProgramStatus.Screen.Report: parsing and validating a report's text is left out.
- TextTail.Text: rows are given as text; the removal of the wide-character marker and the joining by newlines are left out.
- Not modelled at all: PTY and process control, HTTP routes, status classification, timers and heartbeats, the DOM renderer, mouse and keyboard, the theme and contrast code, titles and the clipboard.
