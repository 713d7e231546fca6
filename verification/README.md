# A verified model of the laptop factory's multi-Paxos

A group of servers takes laptop orders from customers and replicates them with
multi-Paxos. Every server is an acceptor, a scout (with its commander) and a
learner at once. The protocol is unusual in one respect: an acceptor keeps one
promise and one accepted command for the whole log, not one per slot. So
agreement on a slot does not follow from single-decree Paxos. It follows from
three facts proved here: a number is won by at most one prepare phase, chosen
numbers lie on one chain of parents (the parent of a winning number is the
highest accepted number its scout was told of), and along that chain a slot
keeps its command or rises. The first two need one hypothesis on the run, the
third a second one.

`dafny verify dfyconfig.toml` checks the whole project.

| file | what it holds |
|---|---|
| Common, Quorum, Messages, Bytes | shared types, majorities, the two protocol values, byte orders and memcpy |
| Learner | the reordering buffer that feeds the log, as a function of the messages received |
| Protocol, Runs | the system as a state machine over atomic steps, with history variables; prefixes of its runs |
| EveryRun, Provenance, Slots | what holds in every run with no hypothesis: counters, learners, where commands come from, which slot they take |
| Safety, Agreement | the inductive invariants, and what they mean for whole runs |
| AcceptCount, AtMostOnce | what the count of phase 2 is worth; one order, one slot |
| Recovery | what the recovery file is worth |
| Progress | a scout that runs alone |
| Connections, LiteralRuns | which runs the sockets allow; three such runs that go wrong |
| Passes, Server | what a pass over a map of stubs does; the class `LaptopFactory`, its handlers and loops, proved against the state machine |
| LogFile | the log printer and its parser, character by character |
| Socket, Wire, ServerConfig | chunked streams, the message codec, the server list codec, and their framing |

## The code as written, and what safety needs

The steps are those of the code, including where it departs from what its
comments say. The safety theorems name what they need as hypotheses about the
steps of a run, and for each one there is a run without it that goes wrong.
Those three runs keep to the discipline of the connections
(`Connections.Conforms`): a stub whose reply was not read is closed and not used
again, a pass visits the usable stubs in key order, and one commander's learn
messages reach a learner in order. In the first two every message is answered.

* `Counted`: whenever a scout entered phase 2, a majority had promised the number
  in use. The prepare loop does not clear its counters when it retries with a
  larger number (`src/ServerThread.cpp:269-274`, `src/ServerThread.cpp:314-317`),
  although the comment at `src/ServerThread.cpp:322` takes the number to be the
  highest one. `EveryRun.PromiseCounterExact` says that the program's counter is
  the genuine one exactly while no retry of the attempt carried a promise over to
  another number, so a run whose scouts decide only in such attempts is counted
  (`EveryRun.CleanIsCounted`). `LiteralRuns.CountHypothesisNeeded` is a run
  without `Counted` that puts two different commands into slot 1.
* `SlotSafe`: a reported command is passed over only when every slot up to its
  own is learned. The code asks only whether that slot holds a decision
  (`src/ServerThread.cpp:326`) and then fills the first free slot
  (`src/ServerThread.cpp:334-337`). `Slots.FreeSlotRisesIff` shows, for every
  state of every run, that the slot rises exactly when the guard holds.
  `LiteralRuns.SlotHypothesisNeeded` is a run without `SlotSafe` that fills a
  decided slot again. Everything about numbers (one winner, one chain, final
  quorum reads) needs `Counted` alone.
* `RejectsHeard`, for the at-most-once theorems only: whenever a scout dropped an
  own command after a full reject (`src/ServerThread.cpp:347-350`), no reply of
  that pass had been lost. Losses anywhere else do no harm. They also need
  `HandledOnce`, an accept message is not handled twice, which the connections
  guarantee (`Connections.ConformingHandledOnce`).
  `LiteralRuns.ReliabilityNeeded` is a run that meets everything but
  `RejectsHeard`, loses one reply, and decides one order in two slots.

The recovery file has a departure of its own: `Learn` prints the command of the
slot (`src/ServerThread.cpp:212`) but saves the command of the message at hand
(`src/ServerThread.cpp:216`). The two differ when a message fills a gap. The
model keeps both outputs, and `Learner.FileFaithfulIff`,
`Recovery.FileFaithfulInRun` and `Recovery.RecoveryInRun` say exactly when the
file is right.

## What is assumed of the environment

All servers have the same acceptor set, with distinct ids; the count each one
compares majorities with may exceed the number of distinct ids (a peer
configured twice). Handlers are atomic. Any interleaving is possible, and any
message may be unsent, handled without its reply being read, or handled late: an
accept message may be handled at any time after it was made, and a prepare
message for any number at any time, which is more than the program does.
Learn messages may be delivered to any learner, any number of times, in any order.
In the class of one server the environment is an input about which nothing is
assumed: which connections and sends succeed, which replies are read, and which
steps others take between its own (`Passes.Env`).
Local reads and writes of one scout's decision (`src/ServerThread.cpp:326-338`)
are one step. Numbers and slots are unbounded integers in the protocol; on the
wire and in the file they are 32-bit.

## Model

| member | source | states |
|---|---|---|
| Quorum.MajoritiesMeet | src/ServerThread.cpp:314 | two sets of acceptors that each pass the majority test share a member, even when the configured count exceeds the number of acceptors |
| Learner.FirstFree | src/ServerThread.cpp:334-336 | the result is free and every slot between the start and it is taken |
| Learner.FirstFreeUnique | src/ServerThread.cpp:209-219 | the loops stop at the only free slot that has no free slot before it |
| Learner.DrainBound | src/ServerThread.cpp:209-219 | the drain loop takes at most as many turns as there are stored slots at or above slot_out |
| Learner.LearnKeepsWellFormed | src/ServerThread.cpp:203-221 | after each call slot_out is the least slot from 1 on without a decision, stored commands carry their slot, both outputs hold exactly slots 1..slot_out-1 in order, and both only grow |
| Learner.LearnAllWellFormed | src/ServerThread.cpp:203-221 | the same after any sequence of learn messages, consistent or not |
| Learner.LastMessageCounts | src/ServerThread.cpp:206 | whether or not messages agree, the decision of a slot is the last message for it |
| Learner.OnlyMessagesCount | src/ServerThread.cpp:206 | a slot without a message holds no decision |
| Learner.LearnAllHolds | src/ServerThread.cpp:206-212 | after consistent messages the buffer holds exactly the commands received and printed what it holds |
| Learner.Confluence | src/ServerThread.cpp:203-221 | the same consistent messages in any order, with any duplication, give the same decisionMap, slot_out and committed log |
| Learner.FileFaithfulStep | src/ServerThread.cpp:212-216 | one call keeps the file equal to the decisions if and only if it does not fill a gap in front of a stored slot |
| Learner.UnfaithfulStays | src/ServerThread.cpp:65-71 | a wrong line of the append-only file is never repaired |
| Learner.FileFaithfulIff | src/ServerThread.cpp:203-221 | over any history of consistent messages the file holds the decided commands if and only if no message filled a gap |
| Learner.FileWrongAfterReorder | src/ServerThread.cpp:212-216 | slots 2 then 1 print the right log but save the command of slot 1 twice |
| Protocol.MajorityMeans | src/ServerThread.cpp:309-314 | the majority test holds of exactly the counts that are more than half of the configured number |
| Protocol.PassOutcome | src/ServerThread.cpp:309-320 | after a pass exactly one of giving up, retrying and deciding is open, by the two counts in numbers |
| Protocol.AcceptResultMeans | src/ServerThread.cpp:429-439 | the four results in numbers, too few answers coming before everything else |
| Messages.CarriesCommand | src/Messages.cpp:597-607 | a message carries the command put into it field by field and keeps its other fields |
| EveryRun.NextLearns | src/ServerThread.cpp:429-446 | in any step of any run, a command handed to the learners was accepted by a majority at one number, and stays so |
| EveryRun.RunVoted | src/ServerThread.cpp:419-420 | in every run each acceptor a scout counted has voted for its number and command, and every command handed out is chosen |
| EveryRun.RunLearner | src/ServerThread.cpp:203-221 | in every run each learner is well formed, and holds and has committed only commands that were handed out |
| EveryRun.LearnedIsChosen | src/ServerThread.cpp:344-346 | in every run each stored or committed command was accepted by a strict majority at one number |
| EveryRun.RunSlotCounter | src/ServerThread.cpp:334-337 | in every run all slots below slot_in hold decisions at that server |
| EveryRun.PromiseCounterExact | src/ServerThread.cpp:269-317 | in every run promisedNum is at least the number of acceptors that promised the number in use, and equals it if and only if no retry of the attempt with a positive count changed the number |
| EveryRun.CountGuardIff | src/ServerThread.cpp:314-319 | a genuine majority implies the program's majority test, and in such an attempt the two are equivalent |
| EveryRun.CleanIsCounted | src/ServerThread.cpp:314-319 | a run all of whose phase-2 entries are in such attempts is counted |
| Safety.BlockedKept | src/ServerThread.cpp:167-170 | an acceptor that promised hi and has no vote strictly between lo and hi never gets one, because a vote needs the current promise |
| Safety.PromiseStepInv | src/ServerThread.cpp:144-158 | a handled prepare message keeps the invariant on promises, votes, winners and scouts |
| Safety.VoteStepInv | src/ServerThread.cpp:165-173 | a handled accept message keeps that invariant |
| Safety.PromiseHeard | src/ServerThread.cpp:294-301 | a promise that is read extends the quorum read: all promisers stay blocked between the best reported number and the scout's own |
| Safety.PrepareReplyInv | src/ServerThread.cpp:280-307 | sending, handling and reading one prepare exchange keeps the invariant |
| Safety.AcceptReplyInv | src/ServerThread.cpp:402-425 | the same for one accept exchange |
| Safety.FreshNumber | src/ServerThread.cpp:314-319 | a scout that enters phase 2 with a majority for its number finds that number never won before, although numbers are not unique to a server |
| Safety.FreeSlotAbove | src/ServerThread.cpp:334-337 | the first free slot is never below slot_out, in whatever order commands were learned |
| Safety.SlotRisesIff | src/ServerThread.cpp:326-337 | for a slot counter with only learned slots below it and a positive reported slot, the free slot is above the reported one if and only if every slot up to the reported one is learned |
| Slots.ReportedSlot | src/ServerThread.cpp:294-301 | in every run a command reported to a scout has a slot of at least 1 |
| Slots.FreeSlotRisesIff | src/ServerThread.cpp:326-337 | the same if and only if in every state of every run, with nothing assumed of the counter or the report |
| Slots.SlotGuardIff | src/ServerThread.cpp:326-361 | at every phase-2 entry of every run the slot guard holds if and only if the proposal is the reported command, has a higher slot, or nothing was reported |
| Safety.WinAdded | src/ServerThread.cpp:326-361 | entering phase 2 with a majority for the number records a win whose parent is an earlier win and whose quorum blocks everything between |
| Safety.DecideInv | src/ServerThread.cpp:326-361 | entering phase 2 with a majority for the number keeps the invariant, whatever slot is taken |
| Safety.DecideRises | src/ServerThread.cpp:326-361 | with the slot guard as well, each win repeats its parent's command and request or has a higher slot |
| Safety.DeliverInv | src/ServerThread.cpp:192-221 | a handled learn message keeps the invariant |
| Safety.ScoutOnlyInv | src/ServerThread.cpp:309-383 | beginning, giving up, retrying, unanswered messages and the end of phase 2 keep the invariant |
| Safety.NextInv | src/ServerThread.cpp:135-383 | every step of any server keeps the invariant, phase-2 entries with a majority for their number |
| Safety.RunInv | src/ServerThread.cpp:135-383 | the invariant holds in every state of every counted run |
| Safety.RunRising | src/ServerThread.cpp:326-361 | in every run that is slot-safe as well, wins follow their parents in slot order |
| Safety.NothingBetween | src/ServerThread.cpp:296-301 | no number strictly between a winner and its parent is chosen |
| Safety.ChosenOnChain | src/ServerThread.cpp:146-155 | every chosen number at or below a winning number is an ancestor of it |
| Safety.SlotsRise | src/ServerThread.cpp:326-361 | from an ancestor to a descendant the slot keeps its command and request, or rises |
| Safety.ChosenAgree | src/ServerThread.cpp:396-440 | two chosen commands with one slot are the same command for the same request |
| Safety.LearnsAgree | src/ServerThread.cpp:447-479 | two commands handed to the learners with one slot are equal |
| Runs.RunExtends | src/ServerThread.cpp:203-221 | in every run, guarded or not, votes, proposals, wins, handed-out commands, logs and promises only grow |
| Agreement.SlotAgreement | src/ServerThread.cpp:203-221 | in every state of every run that is counted and slot-safe, two servers that hold a decision for a slot hold the same command |
| Agreement.LogPrefix | src/ServerThread.cpp:209-218 | at any time the committed log of one of two servers is a prefix of the other's |
| Agreement.LogsGrow | src/ServerThread.cpp:209-218 | a committed log never loses or changes an entry, guarded or not |
| Agreement.OneWinnerPerNumber | src/ServerThread.cpp:314-319 | two prepare phases of one counted run, on whatever servers and with slots learned in whatever order, never win the same number |
| Agreement.OneCommandPerNumber | src/ServerThread.cpp:167-170 | in every counted run all acceptors that ever accepted a number accepted the same command |
| Agreement.WinsStay | src/ServerThread.cpp:314-319 | in a counted run who won a number, with which parent and command, never changes later |
| Agreement.QuorumReadIsFinal | src/ServerThread.cpp:294-301 | in a counted run, when a scout enters phase 2 with n after being told a, no number strictly between is chosen then or in any later state |
| Agreement.ChosenFormOneChain | src/ServerThread.cpp:326-361 | in a counted run, of two chosen numbers the smaller is an ancestor of the larger |
| Agreement.ChosenSlotsRise | src/ServerThread.cpp:326-361 | in a run that is slot-safe as well, chosen commands in the order of their numbers are equal or rise in slot |
| AcceptCount.RunCounts | src/ServerThread.cpp:416-424 | in counted runs that handle no accept message twice, scouts in phase 2 use different numbers, and every vote at such a number was counted or its reply was not read |
| AcceptCount.AcceptCountIsExact | src/ServerThread.cpp:396-440 | when no reply of the pass was lost, whatever happened to others, the acceptors counted are exactly those that accepted, so a full reject means nobody did and success means chosen, and conversely |
| AtMostOnce.RunOnce | src/ServerThread.cpp:341-367 | in counted runs where every dropped own command was heard by all, all live numbers of one request carry one command, and a scout that may build a new own command finds none live |
| AtMostOnce.DecideOnce | src/ServerThread.cpp:326-342 | entering phase 2 keeps that |
| AtMostOnce.VotingOnce | src/ServerThread.cpp:416-424 | answered, lost and late accept messages keep that |
| AtMostOnce.EndOnce | src/ServerThread.cpp:347-367 | ending or restarting after phase 2 keeps that: after a full reject with every reply read nobody accepted and nobody will |
| AtMostOnce.OneCommandPerOrder | src/ServerThread.cpp:341-368 | two chosen commands that serve one order are equal, with slots learned in whatever order |
| AtMostOnce.OneSlotPerOrder | src/ServerThread.cpp:341-368 | in a run that is slot-safe as well, two chosen commands serve the same request if and only if they have the same slot, and then they are equal |
| Provenance.NextPresent | src/ServerThread.cpp:144-173 | one step brings a command into the system only by building it from an order |
| Provenance.PresentIsBuilt | src/ServerThread.cpp:330-346 | in every run, a command proposed, accepted, reported, handed out, stored, committed or saved was built unchanged by one step of one scout for an order it had been given |
| Provenance.MessagesCarryDefaultIp | src/Messages.h:269-310 | every message of every run carries the default 15-character address |
| Provenance.RunMessagesSurviveTheWire | src/ServerStub.cpp:72-85 | any messages sent at any times of a run whose numbers fit a C int come back unchanged through the fixed-size reads |
| Recovery.RecoveryInRun | src/Utilities.cpp:49-74 | in every run a server's file parses to the lines it saved, and loading it restores its decisions below slot_out if and only if the file is faithful |
| Recovery.FileFaithfulInRun | src/ServerThread.cpp:206-219 | in every guarded run a server's file is faithful if and only if no learn message filled a gap there |
| Connections.ConformingHandledOnce | src/Socket.cpp:51-74 | a run that keeps to the discipline of the connections handles no accept message twice |
| LiteralRuns.CountHypothesisNeeded | src/ServerThread.cpp:269-317 | a conforming, fully answered, slot-safe run of three servers in which promises for 0 and 1 are added up and two servers store different commands in slot 1 |
| LiteralRuns.SlotHypothesisNeeded | src/ServerThread.cpp:326-337 | a conforming, fully answered, counted run of three servers in which one commander's learn message overtakes another's and a decided slot is filled again |
| LiteralRuns.ReliabilityNeeded | src/ServerThread.cpp:347-350 | a conforming, counted, slot-safe run that loses a single reply, of an own command then dropped, and decides the order of one call in two slots |
| Progress.PrepareRoundEffect | src/ServerThread.cpp:280-307 | what one pass that all of a set of live acceptors answer does to the counters and to the promise of each of them |
| Progress.FailedRoundShows | src/ServerThread.cpp:294-316 | with more than half of the configured acceptors answering, the number a failed pass retries with lies above every promise of those |
| Progress.TwoRoundsSuffice | src/ServerThread.cpp:277-321 | from any promises, with more than half of the configured acceptors answering, a scout that runs alone leaves the prepare loop within two rounds with a genuine majority that stands at its number |
| Progress.AcceptRoundSucceeds | src/ServerThread.cpp:396-440 | the accept phase that follows, over the same acceptors, returns 1 and hands the command to the learners |
| Progress.SoloCallSucceeds | src/ServerThread.cpp:266-346 | both together: the call of a scout that runs alone with more than half of the acceptors answering ends with its command handed out |
| Server.InterleavingKeeps | src/ServerThread.cpp:237-440 | steps of other threads and servers leave this scout alone and take back no vote and no learn message |
| Server.LaptopFactory.constructor | src/ServerThread.h:53-72 | the initial values of the protocol fields, each by its number |
| Server.LaptopFactory.AddAcceptor | src/ServerThread.cpp:522-536 | the acceptor map and the customers' server list are updated (the list keeps an id it already has), the count always rises, and it stays at least the number of acceptors |
| Server.LaptopFactory.Start | src/ServerThread.cpp:481-487 | the server takes its place in the initial state of the system |
| Server.LaptopFactory.EngineerAcceptor | src/ServerThread.cpp:135-182 | the reply, field by field, and the new acceptor fields for each case of a prepare and an accept message, equal to the protocol's steps; other phases change nothing |
| Server.LaptopFactory.Learn | src/ServerThread.cpp:203-221 | the loop over the fields computes exactly the learner's step, on decisions, slot_out and both outputs |
| Server.LaptopFactory.EngineerLearner | src/ServerThread.cpp:183-197 | a phase-5 message is learned; any other changes nothing |
| Server.LaptopFactory.AcceptPhaseBrocasting | src/ServerThread.cpp:396-440 | the accept message goes out, in key order, to every stub whose send succeeds, exactly the others are erased, and each stub takes the step its reply's fate stands for; -2 exactly when the stubs left are at most half of the configured count, else 0 exactly when nobody agreed, 1 exactly when more than half did; in a counted run with no reply of the pass lost, 0 only if nobody voted and 1 only if the command is chosen; with more than half standing at the number, up, and nobody else moving, 1 |
| Server.LaptopFactory.SendLearns | src/ServerThread.cpp:466-478 | a learn message with the command goes out, in key order, on every learner stub whose send succeeds, and exactly the others are erased, from both maps |
| Server.LaptopFactory.CommanderBrocasting | src/ServerThread.cpp:447-479 | for a command that a majority accepted, the learn message goes out on every connected learner stub (all that can be connected, the first time) whose send succeeds, and exactly the others are erased from both maps |
| Server.LaptopFactory.PreparePass | src/ServerThread.cpp:280-307 | the prepare message with the current number goes out, in key order, to every stub whose send succeeds, exactly the others are erased from both maps, each stub takes the step its reply's fate stands for, and the locals afterwards are the scout's counters |
| Server.LaptopFactory.PrepareLoop | src/ServerThread.cpp:277-321 | the loop's run is a run of the protocol and drops exactly the stubs whose send failed in one of its passes; it is won with both counts above half and the best reported command, or given up only when the stubs left are at most half; with more than half up, the rest down and nobody else moving it is won within two rounds, by acceptors that stand at its number; otherwise it has made as many passes as rounds were followed |
| Server.LaptopFactory.TakeRetry | src/ServerThread.cpp:314-317 | the number becomes the highest heard plus one and nothing else of the scout is cleared |
| Server.LaptopFactory.AdvanceSlotIn | src/ServerThread.cpp:334-337 | slot_in becomes the first free slot from where it stood |
| Server.LaptopFactory.ChooseCommand | src/ServerThread.cpp:326-361 | the own command is taken exactly when nothing was reported or the reported slot holds a decision, then in the first free slot from slot_in on; otherwise the reported command is |
| Server.LaptopFactory.FinishAttempt | src/ServerThread.cpp:322-375 | a won prepare phase goes back to the start only while more than half of the stubs are left, and with more than half of the acceptors standing at the number it ends with 1 and its command handed out |
| Server.LaptopFactory.PhaseTwo | src/ServerThread.cpp:341-375 | a result of 1 ends the call with 1, the command chosen and sent to the learner stubs left; 0 restarts it; -1 ends an own command with 1 and restarts a reported one; -2, exactly when at most half of the stubs are left, ends an own command with 1 and a reported one with 0 |
| Server.LaptopFactory.ScoutBrocasting | src/ServerThread.cpp:237-383 | the whole call, in any interleaving, is a run of the protocol that starts with the connections that succeed and drops only stubs whose send failed; 0 only when at most half of the acceptors have a stub left; 1 only when a command was handed out, or this call's own command met a partial reject or too few answers; with more than half of the acceptors up, the rest down and nobody else moving, it returns 1 with its command handed out; it is still going on only after as many passes as rounds were followed |
| LogFile.FileTextAppend | src/Utilities.cpp:65-71 | appending one line at a time gives the text of the whole list |
| LogFile.RecoveryFile.SaveCommandToFile | src/Utilities.cpp:65-74 | the file is the old text and one new line |
| LogFile.LoadMapFromFile | src/Utilities.cpp:49-63 | the loop returns the map of all records before the first extraction that fails |
| LogFile.ReadIntAccepts | src/Utilities.cpp:55 | a number after any blanks, with an optional sign and leading zeros, is read to the end of its digits if it fits an int, and reading fails if it does not |
| LogFile.ReadIntRefuses | src/Utilities.cpp:55 | without a digit reading fails |
| LogFile.ValueIsPositional | src/Utilities.cpp:55 | digits count ten times what the one after them does |
| LogFile.DecimalCanonical | src/Utilities.cpp:68-69 | numbers are printed without leading zeros, with a sign when negative |
| LogFile.LineExample | src/Utilities.cpp:68-69 | one printed line, written out |
| LogFile.IntRoundTrip | src/Utilities.cpp:55 | reading a printed int returns it and stops right after it |
| LogFile.WordRoundTrip | src/Utilities.cpp:55 | reading a printed blank-free word returns it |
| LogFile.RecordRoundTrip | src/Utilities.cpp:55-70 | one printed line is read back as one record |
| LogFile.FileRoundTrip | src/Utilities.cpp:49-74 | parsing any printed list of records returns exactly that list |
| LogFile.RecoveryExact | src/Utilities.cpp:49-74 | loading the file of a well-formed learner restores its decisions below slot_out if and only if the file is faithful |
| Bytes.NetOrder | src/Messages.cpp:494-504 | numbers come in the order of their htonl bytes read from the left, which determines those bytes |
| Bytes.NetIntOrder | src/Messages.cpp:494-504 | the same for ints in two's complement, with the bytes of 0, 1 and -1 written out |
| Bytes.HostOrder | src/Messages.cpp:352-373 | unconverted numbers: network order on a big-endian host, mirrored on a little-endian one |
| Bytes.NetIntRoundTrip | src/Messages.cpp:494-543 | an int survives htonl and ntohl, negative or not |
| Bytes.CStringRoundTrip | src/Messages.cpp:570-573 | a string survives the C-string copy if and only if it holds no NUL |
| Bytes.Copy | src/Messages.cpp:507-527 | memcpy writes the source at the offset and leaves the rest of the buffer as it was |
| Socket.Connection.Send | src/Socket.cpp:28-49 | for any chunks, empty ones included, 1 means exactly the given bytes went out in order; 0 means the socket is closed and a prefix of them went out |
| Socket.Connection.Recv | src/Socket.cpp:51-74 | for any chunks, 1 means exactly the next size bytes of the stream are in the buffer; 0 means the socket is closed |
| Wire.Layout | src/Messages.cpp:507-527 | which bytes of the buffer hold each field, in network order, and each character of the address |
| Wire.DefaultMessage | src/Messages.h:301-312 | a default message field by field, of 51 bytes |
| Wire.CodecRoundTrip | src/Messages.cpp:493-583 | unmarshalling what was marshalled gives the message back, whatever follows, if and only if its address holds no NUL |
| Wire.FixedSizeReadIff | src/ClientStub.cpp:96-103 | a read of the default size returns the first message and leaves the stream at the next one if and only if the address has 15 characters and no NUL |
| Wire.StreamRoundTrip | src/ServerStub.cpp:72-85 | any sequence of such messages is read back exactly, message by message, whatever the buffers held |
| Wire.Message.Marshal | src/Messages.cpp:493-528 | the buffer holds the encoding, whose bytes Layout and NetIntOrder fix, at its start and is otherwise unchanged |
| Wire.Message.Unmarshal | src/Messages.cpp:530-583 | the fields become those decoded from the buffer |
| Wire.SendPaxosMsg | src/ClientStub.cpp:90-94 | on success exactly the encoding was sent |
| Wire.ReceivePaxosMsg | src/ClientStub.cpp:96-103 | the message decoded from the next 51 bytes, or a default message when they cannot be read |
| Wire.SendAndReceive | src/ServerStub.cpp:72-85 | sent and received over one reliable connection, in any chunks, a message comes back unchanged and the stream is empty |
| Wire.ReceiveMessages | src/ServerThread.cpp:137-138 | the receive loop returns the messages of a stream one by one, in order, and leaves what follows |
| Wire.SendAndReceiveAll | src/ServerStub.cpp:72-85 | any sequence of messages sent one after the other over a reliable connection is received as that sequence, in any chunks |
| ServerList.InfoRoundTrip | src/Messages.cpp:347-380 | one server's record is read back, whatever follows, if and only if its address holds no NUL |
| ServerList.InfoLayout | src/Messages.cpp:352-362 | which bytes of a record hold the length, each character of the address and the port |
| ServerList.EntriesLayout | src/Messages.cpp:408-416 | each record is its key in network order and its server, and the next one follows |
| ServerList.ConfigLayout | src/Messages.cpp:402-417 | the count in network order, then the records: each server once, in ascending keys |
| ServerList.FillListing | src/Messages.cpp:419-436 | inserting a map's records into another adds exactly that map |
| ServerList.ConfigRoundTrip | src/Messages.cpp:402-438 | for every finite map with NUL-free addresses, unmarshalling restores the map and consumes exactly the bytes written |
| ServerList.ServerConfig.SetServer | src/Messages.cpp:389-391 | a new id is added; an id already listed keeps its server |
| ServerList.ServerConfig.Size | src/Messages.cpp:393-400 | the loop returns the length of what Marshal writes |
| ServerList.ServerConfig.Marshal | src/Messages.cpp:402-417 | the loop writes the encoding in key order, exactly size() bytes, and nothing beyond |
| ServerList.ServerConfig.Unmarshal | src/Messages.cpp:419-438 | the loop adds the decoded records to the map, and fails exactly when one points outside the buffer |
| ServerList.FrameRoundTrip | src/ServerStub.cpp:30-40 | a length-prefixed frame is read back as the map it was made from, and the stream is left at what follows |
| ServerList.SendServerConfig | src/ServerStub.cpp:30-40 | on a reliable connection exactly one frame is sent |
| ServerList.ReceiveServerConfig | src/ClientStub.cpp:63-82 | the map in the next frame, or an empty one when the header or the data cannot be read, whatever length a failed header leaves |
| ServerList.SendAndReceive | src/ServerStub.cpp:30-40 | sent and received over one reliable connection, in any chunks, the server list comes back unchanged |

## Left out

- Server.LaptopFactory.PrepareLoop: competing scouts may overtake each other for ever, so the loop is followed for a given number of rounds, any number; that it ends is claimed only when more than half of the acceptors are up, the rest is down and nobody else moves.
- Server.LaptopFactory.ScoutBrocasting: the restarts are followed for a given number of rounds as well, and a result of 1 does not say that the caller's own order was decided, because the code does not provide that.
- Server.LaptopFactory.CommanderBrocasting: says which stubs the messages go out on, not that they arrive; arrival is a separate step of the protocol that may happen or not.
- ServerList.ReceiveServerConfig: a frame too short for a count, and records that point outside the frame, are undefined behaviour in the code; the model promises nothing about the list then.
- ServerList.ServerConfig.Unmarshal: a record that points outside the buffer is undefined behaviour in the code and a failure here.
- Wire.Message.Unmarshal: an address length that points outside the buffer is undefined behaviour in the code and a failure without effect here.
- Progress.SoloCallSucceeds: assumes that more than half of the configured acceptors answer every message and no other scout moves; there is no claim of progress under contention.
- Overflow of proposal numbers and slots beyond 32 bits inside the protocol.
- Acceptor state lives in memory only, so a restarted acceptor is outside the model; so is a change of the membership.
- The protocol's values (command, message, the state of the whole system) are datatypes, because the code copies them by value; aliasing between them does not exist. The class of one server holds its own fields, and sees its acceptor and learner threads' changes between its steps.
- Races inside one handler (the check and the assignments of an acceptor, the reads of decisionMap without its lock): handlers are atomic.
- generateCommandID: the clock-made identifier is an arbitrary number; agreement does not depend on it.
- A file that cannot be opened, and a file that existed before the server started.
- saveMapToFile: the same lines as saveCommandToFile, and no caller is part of this model.
- The customer's side, customer_record, the identity-1 backup path with smr_log, and the fixed-width codecs of the other messages: they would only add easy members.
- Threads, locks, queues, sleeps, console output and connection set-up.
