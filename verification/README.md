# Transactions: a verified model

This project models, in Dafny 4.11, the transaction subsystem of a CAN hub and
proves what it promises. A client describes steps (a frame or an ISO-TP message
to send, an answer to wait for) in a script or through the programming
interface. A builder turns them into templates and byte records. A sender packs
the records into batches within a credit window, the hub relays them, the agent
keeps them in a ring and runs them on its bus.

`dafny verify dfyconfig.toml` checks everything.

## Main results

- ISO-TP: `IsotpPair.MessagesArriveIntact`, `IsotpPair.EveryMessageCanArrive`,
  `IsotpDiscipline.OpenedLinkDisciplined`.
- Credit: `Credit.CreditIsNeverExceeded`, over client, hub and agent.
- Builder to agent: `ClientRuns.BuiltStepsNeverRefused`,
  `ClientMessages.MessagesSentAsGiven` with `MessageFlow.OnceFlows`.
- The agent's runner, over all sequences of calls: `RunnerRuns.LedgerBalances`,
  `RunnerRuns.OneStatusAtTheEnd`, `RunnerTimers.WakeTimeSound`,
  `RunnerRoster.SeenIsAnswered`, `RunnerRoster.QuorumReachedExactly`,
  `RunnerRoster.MissingNodesReported`; the class
  `AgentMachine.Agent` promises them of the object that changes in place.
- Conditions: `Meaning.VerdictKeepsItsMeaning`, `Meaning.QualifiedVerdictKeepsItsMeaning`,
  from the script's terms to the agent's verdict.
- Scripts: `ParserEngine.Parse`, `GeneratorEngine.Generator.Next`, `ScriptRun.Run`,
  `ScriptTree.ChunksPartition`.
- Arithmetic: `Checksum.CrcIsRemainder` with `Checksum.RemainderIsUnique`,
  `EgressShaper.Shaper.ChargedWithinRate`.
- The hub's counters: `HubRelay.Broker`, whose methods all keep them balanced.

## How it is built

Code that changes things step by step is a class whose methods follow the source:
the ring, the link, the batch writer, the sender, the client, the builder, the
runner, the parser, the generator, the checksum, the shaper, the transaction
table and the broker. The link, the sender, the builder and the runner are also
given as functions on values (`IsotpLink`, `TransactionSender`,
`TransactionBuilder`, `TransactionRunner`); their classes are proved equal to
those, and the theorems about runs are proved of them. Pure code is functions.

Time is a parameter, the bus and the hub answer each transmission with yes or no
as they like, files are read in pieces of any size and may fail. A machine word
is the set of its one bits. 32-bit counters wrap; the shaper's 64-bit arithmetic
wraps; other clocks and counters do not.

## Where the code and its description part

- The programming interface says a qualifier's id replaces the response's and its
  bytes add (include/canhub.h:317). In the code its bits override the response's;
  `Meaning.QualifierAddsExactly` says exactly when that is the same.
- The agent accepts any ISO-TP data length from 8 to 64, while only the lengths of
  CAN FD frames keep a message intact: `IsotpPair.IntactOnlyWithLegalLength`. The
  builder lets only those through.
- A roster may list a node twice: `RunnerRoster.RepeatedNodesAccepted` gives two
  that the builder accepts. A node counts once, so such a step may need more answers
  than there are nodes, with or without nodes allowed to be missing;
  `RunnerRoster.QuorumReachedExactly` says exactly when it can be met.
- A chunk loop whose variable has the name of its source hides the source from
  itself after the first chunk: `ScriptGenerator.LoopIsWhole`.
- A byte or id term whose shifted mask leaves its field compares other bits:
  `Meaning.ByteTermSaidExactly`, `Meaning.IdTermSaidExactly`.
- A wake time of zero means none, so the clock must be positive:
  `IsotpLink.ClockAtZeroMissesAFrame`.
- The shaper's bucket can hold a fraction of a bit more than its burst:
  `EgressShaper.CappedExactly`.

## Model

| member | source | states |
|---|---|---|
| IsotpPair.MessagesArriveIntact | src/agent/domain/isotp_link.c:92-124 | Two mirrored links over lossless channels, each sending a message, under every interleaving of ticks and deliveries, with refusals and timeouts anywhere: what the far end holds is always a prefix of the message, it completes with exactly that message and at most once, and a link only ever fails by a timeout. |
| IsotpPair.StepKeeps | src/agent/domain/isotp_link.c:167-436 | Every single tick or delivery keeps the invariant of both lanes: what is unsent, in flight, counted against the block and reassembled fit together. |
| IsotpPair.EveryMessageCanArrive | src/agent/domain/isotp_link.c:321-427 | From fresh links at any time there is a schedule whose clock never runs backwards that delivers the message: no block size, separation time, padding or address mode blocks the link. |
| IsotpPair.CanAlwaysDeliver | src/agent/domain/isotp_link.c:321-427 | The same from every state in which the message is on its way. |
| IsotpPair.IntactOnlyWithLegalLength | src/agent/domain/transaction_runner.c:380-386 | The first frame of every segmented message leaves its bytes intact if and only if the data length is one CAN FD frames have; the agent lets through any length from 8 to 64. |
| IsotpDiscipline.React | src/agent/domain/isotp_link.c:82-124 | Whatever happens to a link, its state stays well formed: while reassembling, fewer bytes are held than announced, and never more than 4095. |
| IsotpDiscipline.AlwaysDisciplined | src/agent/domain/isotp_link.c:167-200 | Against any traffic a monitor that keeps its own count of the grants, waits and segments finds consecutive frames only under a grant, at most the granted block of them, spaced by the granted time, and giving up exactly on the eleventh wait in a row. |
| IsotpDiscipline.OpenedLinkDisciplined | src/agent/domain/isotp_link.c:71-80 | The same from the moment a link is opened. |
| IsotpLink.WakeTimeSound | src/agent/domain/isotp_link.c:126-143 | Ticks before the wake time do nothing if and only if there is no wake time or every timer the link holds is set to a time after zero. |
| IsotpLink.ClockAtZeroMissesAFrame | src/agent/domain/isotp_link.c:549-558 | On a clock that starts at zero a tick before the wake time can send a frame: zero means no timer. |
| IsotpEngine.SearchFrameLength | src/agent/domain/isotp_link.c:470-483 | The search through the FD lengths finds the shortest frame that holds the data. |
| IsotpEngine.LinkMachine.OnFrame | src/agent/domain/isotp_link.c:92-114 | The object's state, event and transmitted frames are those of the link function. |
| IsotpEngine.LinkMachine.OnFlowControl | src/agent/domain/isotp_link.c:167-200 | As OnFrame, for flow control. |
| IsotpEngine.LinkMachine.OnSingleFrame | src/agent/domain/isotp_link.c:202-224 | As OnFrame, for single frames, with the message written into the buffer in place. |
| IsotpEngine.LinkMachine.OnFirstFrame | src/agent/domain/isotp_link.c:226-258 | As OnFrame, for first frames. |
| IsotpEngine.LinkMachine.OnConsecutiveFrame | src/agent/domain/isotp_link.c:260-295 | As OnFrame, for consecutive frames. |
| IsotpEngine.LinkMachine.Tick | src/agent/domain/isotp_link.c:116-124 | The tick is that of the link function; before the wake time it transmits nothing and changes nothing. |
| IsotpEngine.LinkMachine.TickReceiver | src/agent/domain/isotp_link.c:297-319 | The receiver's part of a tick. |
| IsotpEngine.LinkMachine.SendFrames | src/agent/domain/isotp_link.c:321-344 | The bounded send loop transmits what the recursive send function does. |
| IsotpEngine.LinkMachine.SendConsecutiveFrame | src/agent/domain/isotp_link.c:396-427 | One segment, with its sequence number, block count and next time. |
| IsotpEngine.LinkMachine.NextWake | src/agent/domain/isotp_link.c:126-143 | The earliest time the link has something to do. |
| StepCodec.DecodesBack | src/protocol/txn_steps_message.c:40-94 | A valid record decodes to the step it encodes, whatever follows it. |
| StepCodec.BatchRoundTrip | src/protocol/txn_steps_message.c:157-183 | A batch within its limits decodes to itself. |
| StepCodec.AreRecordsWellFormed | src/protocol/txn_steps_message.c:244-259 | The receiver's check accepts exactly the bytes that parse as that many records. |
| SenderEngine.StepsWriter.Append | src/protocol/txn_steps_message.c:119-136 | A record is written if and only if it is valid, fits and is not one too many; otherwise nothing changes. |
| SenderEngine.StepsWriter.MarkEnd | src/protocol/txn_steps_message.c:138-141 | The end flag is set in place and nothing else changes. |
| SenderEngine.StepsWriter.Finish | src/protocol/txn_steps_message.c:143-155 | The buffer begins with the encoding of exactly the appended steps. |
| StepRing.StepRing.Push | src/agent/domain/step_ring.c:28-34 | A record of at most one maximal size within capacity minus 272 bytes is always taken, wrapped or not, and joins the records at the end. |
| StepRing.StepRing.Peek | src/agent/domain/step_ring.c:36-47 | What is read begins with the oldest record, whole. |
| StepRing.StepRing.Release | src/agent/domain/step_ring.c:49-60 | Exactly the oldest record leaves; the others stay as they are. |
| StepRing.StepRing.Clear | src/agent/domain/step_ring.c:19-26 | The ring is empty. |
| TransactionSender.OfferStaysInWindow | src/client/transaction_sender.c:66-92 | An accepted step keeps the bytes in flight in the window, wrapping counters included. |
| TransactionSender.EmptyBatchFits | src/client/transaction_sender.c:139-149 | A step always fits the batch that follows a flush. |
| TransactionSender.BatchReadsBack | src/client/transaction_sender.c:109-118 | What the open batch says is what the receiver reads. |
| SenderEngine.SenderMachine.OnBeginAck | src/client/transaction_sender.c:22-37 | The object's state is that of the function. |
| SenderEngine.SenderMachine.OnProgress | src/client/transaction_sender.c:39-47 | The object's state is that of the function. |
| TransactionSender.OverForGood | src/client/transaction_sender.c:49-93 | Once the sender has been told that its own transaction is over, by a status or by a refusal to begin, nothing that is called afterwards, other than the start of the next, changes what it was told: every step offered is rejected, none is taken, nothing is numbered or counted as sent, it cannot end again, and the batch left open can only be sent. |
| TransactionSender.OverExactly | src/client/transaction_sender.c:22-64 | After any calls, a transaction that was begun is over if and only if one of them was a status for it or a refusal to begin it. |
| SenderEngine.SenderMachine.Offer | src/client/transaction_sender.c:66-92 | Result and state are those of the function, with the record in the batch buffer. |
| SenderEngine.SenderMachine.End | src/client/transaction_sender.c:94-107 | Accepted if and only if the transaction runs, has not ended and no message is open. |
| SenderEngine.Client.Flush | src/client/client.c:296-311 | The open batch leaves whole or stays pending; nothing accepted is lost or reordered. |
| SenderEngine.Client.DefineRoster | src/client/client.c:228-245 | Told if and only if the transaction runs and the hub refuses nothing; a roster is sent only after every step accepted before it: it never overtakes one. |
| SenderEngine.Client.DefineTemplate | src/client/client.c:247-264 | A template is sent only after every step accepted before it. |
| SenderEngine.Client.SendSteps | src/client/client.c:266-285 | The loop ends, and only because all were accepted or the next one cannot be; what it accepted is a prefix of the steps and is sent or pending, in order, nothing lost or doubled. |
| SenderEngine.Client.EndTransaction | src/client/client.c:287-294 | The transaction ends if it can, and no accepted step is lost. |
| Credit.CreditIsNeverExceeded | src/agent/domain/transaction_runner.c:184-214 | Over any run of client, hub and agent, with late or lost progress reports and wrapping counters: the agent never aborts with OVERRUN, and refuses a batch only for a record it does not accept, never for its first number or for coming after the end. |
| Credit.RunKeeps | src/client/transaction_sender.c:125-128 | Every run keeps the accounting: bytes consumed but not credited, in the ring, on their way and pending never exceed the window. |
| Credit.NextBatchFits | src/agent/domain/transaction_runner.c:413-441 | The next batch to arrive continues the agent's numbers, fits its ring and finds the transaction open. |
| Credit.BatchLands | src/agent/domain/transaction_runner.c:184-214 | Such a batch is queued whole, or holds a record the agent does not accept. |
| Credit.ConsumedFollows | src/agent/domain/transaction_runner.c:673-677 | What leaves the ring is what the wrapping counter of consumed bytes adds. |
| BuilderSound.StepNeverRefused | src/client/transaction_builder.c:83-111 | Whatever the builder accepts, the agent that holds the builder's earlier definitions accepts: roster, template and every record. |
| BuilderSound.WholeTransactionAccepted | src/client/transaction_builder.c:189-365 | The same for whole sequences of steps from the first on. |
| BuilderSound.ShapesStayDistinct | src/client/transaction_builder.c:467-486 | No two templates of a transaction are alike. |
| BuilderSound.ComparedValuesShareATemplate | src/client/transaction_builder.c:329-381 | Steps that differ only in what their qualifier compares with use one template. |
| BuilderSound.SameShapeDefinesNothing | src/client/transaction_builder.c:488-510 | A second step of the same shape defines nothing and leaves the builder as it is. |
| BuilderSound.RewindUndoesStep | src/client/transaction_builder.c:113-128 | Rewinding to the mark before a step undoes the step. |
| BuilderSound.RecordCount | src/client/transaction_builder.c:548-574 | A message is cut into no more records than its length asks for. |
| BuilderEngine.SearchLowestSetBit | src/client/transaction_builder.c:457-465 | The loop finds the lowest one bit, or 0. |
| BuilderEngine.CheckNodes | src/client/transaction_builder.c:272-313 | The loop accepts exactly the legal node lists. |
| BuilderEngine.BuilderObject.Step | src/client/transaction_builder.c:83-111 | The object builds what the function builds, or refuses and stays as it was. |
| BuilderEngine.BuilderObject.Rewind | src/client/transaction_builder.c:123-128 | The object goes back to the marked state. |
| ClientRuns.BuiltStepsNeverRefused | src/agent/domain/transaction_runner.c:155-214 | Over any run in which what goes out is what the builder gave, in order: the agent never aborts with INVALID_STEP, neither at a definition, nor at a record, nor when it gathers a message. |
| ClientRuns.MessageSurvives | src/client/transaction_builder.c:548-574 | The records of an ISO-TP step at the front of the ring become its message byte for byte, one pass a record with nothing else happening, in at most 17 records. |
| ClientMessages.MessagesSentAsGiven | src/agent/domain/transaction_runner.c:524-576 | Over any run in which what goes out is what the builder gave: the messages still to be sent, in the ring, on their way and not gone out yet, are the last of those given to the builder, in order, and what an ISO-TP step hands to its link is the first of them, byte for byte. |
| ClientMessages.MessageRecordsFlow | src/client/transaction_builder.c:548-574 | Data cut into records, of any length, is gathered into exactly that data behind whatever was open. |
| MessageFlow.OnceFlows | src/agent/domain/transaction_runner.c:443-557 | In a pass the first message leaves the ring if and only if the link has just sent it; otherwise all messages stay as they are, in order. |
| MessageFlow.TickFlows | src/agent/domain/transaction_runner.c:228-245 | Over a whole tick messages only leave from the front, and the one being gathered stays. |
| MessageFlow.RingFlowGrows | src/agent/domain/transaction_runner.c:184-214 | Records that reach the ring become messages behind those in it, continuing the one left open. |
| ClientRuns.BuildTaken | src/client/transaction_builder.c:83-111 | All that an accepted step sends is taken by the agent and leaves no message open. |
| RunnerMessages.MessageGathered | src/agent/domain/transaction_runner.c:559-576 | From any running state with a message's records at the front: as many passes as records lead to its transmission with exactly their bytes. |
| RunnerMessages.TickGathers | src/agent/domain/transaction_runner.c:454-488 | A tick never aborts for an invalid step if what is in the ring can be gathered, and leaves what is still to be gathered as it was. |
| RunnerRuns.LedgerBalances | src/agent/domain/transaction_runner.c:184-214 | After any calls from power-up: pushed minus consumed bytes are those in the ring, the next number is the completed steps plus those in the ring, and the step in execution is the front record. |
| RunnerRuns.OneStatusAtTheEnd | src/agent/domain/transaction_runner.c:1031-1057 | Whatever the calls, a transaction gives at most one status, as its last word and exactly when it ends; only Cancel ends it silently; DONE means everything was received, consumed and completed. |
| RunnerRuns.NothingAfterTheEnd | src/agent/domain/transaction_runner.c:228-260 | Once over, a transaction transmits and reports nothing more. |
| TransactionRunner.RoomIsReal | src/agent/domain/transaction_runner.c:413-441 | The room computed from the wrapping counters is the room in the ring. |
| TransactionRunner.ReplayKeeps | src/agent/domain/transaction_runner.c:793-802 | Replaying the early frames keeps every guarantee of the runner. |
| RunnerTimers.WakeTimeSound | src/agent/domain/transaction_runner.c:267-296 | After every run on a positive clock: a tick that stops on its own and leaves the transaction active names a wake time, before which a tick transmits nothing, reports nothing and changes nothing but its own time. |
| RunnerTimers.QuietBeforeWake | src/agent/domain/transaction_runner.c:228-245 | The same for every state at rest. |
| RunnerTimers.TickRests | src/agent/domain/transaction_runner.c:228-245 | A tick that stops on its own, not on its budget of 64 passes, comes to rest. |
| RunnerRoster.SeenIsAnswered | src/agent/domain/transaction_runner.c:834-880 | After any calls from power-up: while a step waits for a roster, a node is seen, at its first place in the roster, if and only if a frame shown to the step since it began to wait, its quorum not met, was that node's matching answer; early frames replayed to an expect-only step count. |
| RunnerRoster.QuorumIsExact | src/agent/domain/transaction_runner.c:848-867 | In every reachable state a roster step is satisfied if and only if as many nodes were seen as it needs; all nodes can only have answered if none is listed twice. |
| RunnerRoster.QuorumReachedExactly | src/agent/domain/transaction_runner.c:848-880 | In every reachable state, a step that waits for a roster is satisfied only if it needs no more answers than the roster has nodes; once every listed node has answered, if and only if so. For a step that waits for all nodes that is if and only if no node is listed twice. |
| RunnerRoster.BuiltNeeds | src/client/transaction_builder.c:343-348 | What a step the builder accepts needs of its roster is all its places less those allowed to be missing. |
| RunnerRoster.RepeatedNodesAccepted | src/client/transaction_builder.c:276-290 | The builder accepts rosters that list a node twice, or three times with one allowed to be missing, which need more answers than they have nodes. |
| RunnerRoster.MissingNodesReported | src/agent/domain/transaction_runner.c:326-339 | The reports of missing nodes in any run are exactly one for each roster step completed with nodes missing, in order, with its number and the nodes seen. |
| RunnerRoster.PassReports | src/agent/domain/transaction_runner.c:713-720 | The same for one pass. |
| RunnerEngine.StepQueue.Push | src/agent/domain/transaction_runner.c:413-441 | The ring takes every record within the credit and holds the steps in order. |
| RunnerEngine.RunnerMachine.PushSteps | src/agent/domain/transaction_runner.c:184-214 | The loop over a batch's records in place does what the function on the state does. |
| RunnerEngine.RunnerMachine.Tick | src/agent/domain/transaction_runner.c:228-245 | The loop of passes in place, over ring, link and bus, does what the function on the state does. |
| RunnerEngine.RunnerMachine.OnFrame | src/agent/domain/transaction_runner.c:216-226 | As Tick, for a frame from the bus. |
| RunnerEngine.RunnerMachine.NextWake | src/agent/domain/transaction_runner.c:267-296 | The wake time of the state. |
| RunnerEngine.RunnerMachine.SearchNode | src/agent/domain/transaction_runner.c:869-880 | The loop finds the first place of a node in the roster. |
| AgentMachine.Agent.Tick | src/agent/domain/transaction_runner.c:228-245 | Under any history of calls: the ledger balances, the log grows only by what belongs to the transaction with a status last and exactly at its end, a tick that stops on its own leaves a wake time, and a tick before it does nothing at all. |
| AgentMachine.Agent.NextWake | src/agent/domain/transaction_runner.c:267-296 | Between a tick that stopped on its own and the next call, the end of the quiet; 0 when no transaction is active. |
| AgentMachine.Agent.OnFrame | src/agent/domain/transaction_runner.c:216-226 | Under any history: balance and log as for Tick. |
| AgentMachine.Agent.PushSteps | src/agent/domain/transaction_runner.c:184-214 | Under any history: balance and log as for Tick. |
| AgentMachine.Agent.DefineRoster | src/agent/domain/transaction_runner.c:155-168 | Under any history: balance and log as for Tick. |
| AgentMachine.Agent.DefineTemplate | src/agent/domain/transaction_runner.c:170-182 | Under any history: balance and log as for Tick. |
| AgentMachine.Agent.Abort | src/agent/domain/transaction_runner.c:247-254 | Under any history: balance and log as for Tick. |
| AgentMachine.Agent.Begin | src/agent/domain/transaction_runner.c:101-153 | Granted if and only if no transaction is active and the keepalive is legal; says nothing. |
| AgentMachine.Agent.Cancel | src/agent/domain/transaction_runner.c:256-260 | The only call that ends a transaction without a word. |
| AgentRules.ComputePayloadWord | src/agent/domain/transaction_runner.c:940-949 | The loop over the bytes builds the little-endian word of the first eight. |
| Conditions.PlaceRange | src/client/txn_script/script_resolver.c:236-267 | The loop places a number's bytes in either order. |
| Conditions.ResolveCondition | src/client/txn_script/script_resolver.c:103-147 | The loop over the terms merges them as the fold does. |
| Meaning.ConditionMeans | src/client/txn_script/script_resolver.c:103-147 | A resolved condition compares a frame as its terms do. |
| Meaning.ByteTermSaidExactly | src/client/txn_script/script_resolver.c:212-234 | A byte term keeps its meaning for every payload if and only if its shifted mask stays in its byte, or its value does at the end of the word. |
| Meaning.IdTermSaidExactly | src/client/txn_script/script_resolver.c:185-210 | An id term keeps its meaning for every id if and only if its shifted value stays in the id and, unmasked, its mask covers the rest. |
| Meaning.VerdictKeepsItsMeaning | src/agent/domain/transaction_runner.c:815-832 | The agent's verdict on every data frame is the one the conditions call for: it extends exactly if pending holds, else aborts exactly if failure holds, else advances exactly if success holds, else aborts on the right id exactly if the response says so. |
| Meaning.QualifiedVerdictKeepsItsMeaning | src/client/transaction_builder.c:367-411 | The same with a qualifier, whose id terms and compared bits come in place of the response's. |
| Meaning.LastRecordCloses | src/client/transaction_builder.c:512-574 | The last record of every step carries the step's expected value exactly if it has a qualifier. |
| Meaning.QualifierAddsExactly | include/canhub.h:313-319 | Whatever the qualifier, its bytes add to the response's beside the id that counts, as the interface says, if and only if the two compare no bit with different values; otherwise they override them. |
| Meaning.SuccessKeepsItsMeaning | src/agent/domain/transaction_runner.c:910-930 | The advance pattern is met exactly when every success term holds. |
| Meaning.QualifierKeepsItsMeaning | src/client/transaction_builder.c:576-586 | The advance pattern with the expected value is met exactly when qualifier and unqualified rest hold. |
| Checksum.CrcIsRemainder | src/client/txn_script/checksum.c:88-103 | After any message, for every width from 8 to 32, the value is the GF(2) remainder of the message with the initial value in front by x^width + polynomial, although bits above the width are left in the loop. |
| Checksum.RemainderIsUnique | src/client/txn_script/checksum.c:88-103 | There is only one such remainder. |
| Checksum.PiecesDoNotMatter | src/client/txn_script/checksum.c:39-50 | Data may come in pieces of any size. |
| Checksum.ReflectLoop | src/client/txn_script/checksum.c:75-86 | The loop turns a word end to end. |
| Checksum.CrcByteLoop | src/client/txn_script/checksum.c:88-103 | The loop over eight bits is the byte step. |
| Checksum.Crc.Update | src/client/txn_script/checksum.c:39-50 | The value is that of all bytes fed so far. |
| Checksum.Crc.Finish | src/client/txn_script/checksum.c:52-63 | Each bit of the result is that of the remainder of all that was fed, from the same end or the other, flipped where the final word has a one. |
| ParserEngine.Parse | src/client/txn_script/script_parser.c:116-149 | A text is parsed if and only if every line is accepted in turn and no block is left waiting; then the statements are, in line order, those of exactly the lines that add one; links lead forward and list all statements but the keepalive in line order; siblings are equally indented and what a loop holds stands further in; loops nest within the generator's limit. |
| ParserEngine.Parser.PlaceLine | src/client/txn_script/script_parser.c:153-179 | The blocks a line is no longer in are closed; accepted if and only if every one may close and the line then fits. |
| ParserEngine.Parser.CloseBlock | src/client/txn_script/script_parser.c:181-200 | Closed if and only if it has a line and, for a roster, a success line. |
| ParserEngine.Parser.OpenBlock | src/client/txn_script/script_parser.c:202-220 | Opened if and only if fewer than eight blocks are open; the stack stays in order. |
| ParserEngine.Parser.ParseLine | src/client/txn_script/script_parser.c:227-275 | A line is accepted if and only if the innermost block takes it, leaving the outline that says; the tree stays in line order. |
| ParserEngine.Parser.AddStatement | src/client/txn_script/script_parser.c:957-977 | A statement is added, linked to nothing, unless there are 256. |
| ParserEngine.Parser.LinkStatement | src/client/txn_script/script_parser.c:979-991 | Linked as the last of the innermost block, a statement comes last of all in the order of the tree. |
| ParserEngine.IndentsIncrease | src/client/txn_script/script_parser.c:153-179 | The indentations of the open blocks strictly increase. |
| ParserEngine.StatementHasLine | src/client/txn_script/script_parser.c:957-977 | Every statement is the one its line describes. |
| ParserEngine.StatementsInLineOrder | src/client/txn_script/script_parser.c:979-991 | Statements stand in line order. |
| ParserEngine.AddingLineHasStatement | src/client/txn_script/script_parser.c:957-977 | Every line that adds a statement has one: no step, keepalive or loop header is lost. |
| ParserEngine.AddingLines | src/client/txn_script/script_parser.c:227-275 | An accepted line adds a statement if and only if it is a step, the keepalive, or a for line that is not in a response. |
| ScriptParser.AttachedLast | src/client/txn_script/script_parser.c:979-991 | A statement linked where the tree ends comes after all others and moves none. |
| ScriptTree.ListIsWhole | src/client/txn_script/script_compiler.c:421-441 | A list loop goes through every value of every range, in order. |
| ScriptTree.ChunksPartition | src/client/txn_script/script_generator.c:183-208 | The chunks of a loop are its source cut in order, extended to a whole number of chunks if the loop pads. |
| ScriptTree.PaddedToWholeChunks | src/client/txn_script/script_generator.c:202-205 | What padding adds makes the length the chunk size times the number of chunks. |
| ScriptTree.ChunkSizes | src/client/txn_script/script_generator.c:183-208 | No chunk is empty, and all have the full size but for an unpadded last one. |
| ScriptGenerator.LoopIsWhole | src/client/txn_script/script_generator.c:186-191 | A chunk loop goes through its whole source if and only if its variable is not its source's name or one chunk is enough. |
| GeneratorEngine.FilePort.ReadFile | src/client/txn_script/script_generator.c:210-239 | Reading in pieces, however short they come, gives the whole slice. |
| GeneratorEngine.Generator.LoadChunk | src/client/txn_script/script_generator.c:183-208 | The chunk of an outer chunk or a file at an offset, padded. |
| GeneratorEngine.Generator.RebuildBindings | src/client/txn_script/script_generator.c:241-266 | The bindings are those of the open loops. |
| GeneratorEngine.Generator.EnterFor | src/client/txn_script/script_generator.c:103-140 | What is left to happen is all turns of the loop and what follows it; a loop over nothing is skipped. |
| GeneratorEngine.Generator.AdvanceFrame | src/client/txn_script/script_generator.c:142-181 | What is left to happen is what was left, less the turn that ended. |
| GeneratorEngine.Generator.Next | src/client/txn_script/script_generator.c:46-79 | The next step with its bindings is the next of the recursive unrolling; the end is reported exactly when none is left; it always comes to one of the two, or fails if and only if a read of a file failed. |
| GeneratorEngine.Generator.All | src/platform/linux/libcanhub/canhub_script.c:340-362 | All steps are those of the recursive unrolling, in order, and generation ends. |
| ScriptRun.Run | src/platform/linux/libcanhub/canhub_script.c:340-362 | From lines to steps: refused if and only if the lines are not accepted; otherwise exactly the steps of its tree with the loops unrolled, stopped early only by a failed read; loops never nest too deep. |
| EgressShaper.Shaper.constructor | src/shared/egress_shaper.c:5-12 | A full bucket with nothing charged. |
| EgressShaper.Shaper.SetRate | src/shared/egress_shaper.c:14-20 | Only the rate changes. |
| EgressShaper.Shaper.Refill | src/shared/egress_shaper.c:22-51 | For bursts whose product with 10^6 is in range, the 64-bit arithmetic and its shortcut give exactly the refilled bucket. |
| EgressShaper.Shaper.TryConsume | src/shared/egress_shaper.c:53-68 | Succeeds if and only if the bucket holds the bits, at most a burst; what it charges stays within burst and income. |
| EgressShaper.Shaper.DelayUs | src/shared/egress_shaper.c:70-81 | The rounded-up time until the missing bits have come in. |
| EgressShaper.Shaper.ChargedWithinRate | src/shared/egress_shaper.c:22-68 | Between any two moments of a steady clock and rate, the bits charged never exceed what was in the bucket plus the rate times the time: at most the burst, that income and one bit; from the start, not that bit. |
| EgressShaper.Shaper.ConsumeAfterDelay | src/shared/egress_shaper.c:22-81 | A frame that waits as long as it is told to, or longer, is let through and charged. |
| EgressShaper.DelayIsEnough | src/shared/egress_shaper.c:70-81 | After the delay, or any later, the capped bucket holds the bits, or a burst if they are more. |
| EgressShaper.CappedExactly | src/shared/egress_shaper.c:36-50 | The refill equals the formula capped at the burst if and only if it does not end less than a whole bit above the brim. |
| EgressShaper.FullBucketOverflows | src/shared/egress_shaper.c:43-50 | A full bucket keeps a fraction of a bit above its burst. |
| EgressShaper.FillTime | src/shared/egress_shaper.c:36-41 | The shortcut is taken exactly when the gain alone passes the brim. |
| HubRelay.TransactionTable.Open | src/hub/domain/transaction_table.c:15-32 | A request becomes pending unless its agent has a transaction or no entry is free; at most one for each agent. |
| HubRelay.TransactionTable.Activate | src/hub/domain/transaction_table.c:34-41 | The entry becomes active and the leases are counted. |
| HubRelay.TransactionTable.Close | src/hub/domain/transaction_table.c:43-49 | The entry is free again and the leases are counted. |
| HubRelay.TransactionTable.ForAgent | src/hub/domain/transaction_table.c:51-62 | The agent's transaction if there is one. |
| HubRelay.TransactionTable.ForClientChannel | src/hub/domain/transaction_table.c:64-76 | A transaction of the client on the channel if there is one. |
| HubRelay.Broker.Begin | src/hub/broker.c:2637-2670 | A begin is rejected exactly if inadmissible, its agent taken or the table full, else live; begun transactions are always the completed, aborted, rejected and live ones. |
| HubRelay.Broker.BeginAck | src/hub/broker.c:2672-2719 | A pending transaction is rejected if refused, else started if its client is there, else aborted, each exactly then; the balance is kept. |
| HubRelay.Broker.Status | src/hub/broker.c:2751-2778 | An active transaction of that number is counted completed or aborted, once; any other status counts nothing. |
| HubRelay.Broker.Abort | src/hub/broker.c:2780-2803 | Cancelling counts nothing: a pending transaction loses its client, an active one is left to its agent. |
| HubRelay.Broker.RefuseTemplate | src/hub/broker.c:2888-2946 | An active transaction whose template the agent cannot run is aborted; the balance is kept. |
| HubRelay.Broker.CloseChannel | src/hub/broker.c:2137-2161 | A transaction on the channel is abandoned; the balance is kept. |
| HubRelay.Broker.ClientGone | src/hub/broker.c:3041-3049 | When a client leaves, each of its transactions is abandoned and none of the others touched; the balance is kept. |
| HubRelay.Broker.AgentGone | src/hub/broker.c:3051-3068 | After an agent left, it has no live transaction; an active one counts as aborted, a pending one as rejected. |

## Left out

- Script lexing and the grammar of a line: a line is given by its indentation and what it says; limits on constants, conditions and data items count as a line that does not parse.
- Names in scripts: terms, loops and sources carry what their names stand for; rosters declared in scripts and the node bits derived for them (src/client/txn_script/script_compiler.c) are not modelled.
- GeneratorEngine.Generator.Next: gives the statement and its bindings; filling the bytes of the frame from them is not modelled.
- ScriptRun.Run: ends with the generated steps; that the builder may refuse one of them and so end the run is not part of it.
- TransactionSender.OverForGood: of a status message the sender's transaction and its step count are modelled; the rest is only stored.
- The sum kind of checksum, and which models the names crc16 and crc32 stand for.
- Message headers and the encodings of begin, roster, template, progress, status and report messages: the messages are values.
- Wrap-around of 64-bit clocks and of the hub's counters.
- RunnerEngine.RunnerMachine.Tick: the runner's scalar fields are one record, and the message and early-frame buffers are sequences; aliasing of those buffers is not modelled.
- IsotpPair.MessagesArriveIntact: channels lose and reorder nothing; a lost frame is covered only as a timeout of the link.
- Credit.CreditIsNeverExceeded: one transaction from its acknowledgement on; the client's reaction to a status is not modelled.
- HubRelay.Broker.Begin: whether a request is admissible is given; roles, sessions, interfaces and capabilities are not modelled, nor is what is relayed.
- Leases beyond their count, bridges, routing, administration and every other part of the hub.
- The agent's connection, reconnecting, the mirror, the socketcand server, the bindings, the web interface and platform code.
