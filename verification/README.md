# Verified model of the htsim BBR transport and its queues

This project models five pieces of the packet simulator under `fattree/sim` and proves what they keep:

* **Reliable transfer** between `BBRSrc` and `BBRSink` over a network that loses, reorders, duplicates and trims
  packets (`BbrSender`, `BbrSink`, `BbrSystem`, `BbrExact`).
* **BBR control**: the ten-slot bandwidth filter, the full-pipe test, STARTUP / DRAIN / PROBE_BW (`BbrControl`,
  `BbrStartup`, `BbrTiming`).
* **Pacing**: `BBRSrc` and `BBRPacer` as two objects that call each other, on the real event list
  (`BbrPacing`, `BbrPacedSender`, `BbrHandlers`, `BbrSource`).
* **The objects together**: source, pacer, sink and network as objects that follow a run of the values, and two
  such runs step by step (`BbrTransfer`, `BbrScenes`).
* **Switch queues**: `CompositeQueue` with its phantom queue, driven by `EventList`, and `CompositePrioQueue`
  (`WeightedService`, `EventList`, `CompositeQueue`, `QueueOutcomes`, `LowService`, `CompositePrioQueue`,
  `PrioOutcomes`).
* **Pull queues**: `CircularBuffer` and `FairPullQueue`.

Each component has a specification on values, a state and a function for each of its operations, and a class
whose methods change fields as the original does and are proved to follow that specification. Runs are sequences
of steps in which a step that is not possible does nothing, so a statement about every sequence is a statement
about every run. Times and byte counts are natural numbers, rates are real numbers, random draws and decisions
made elsewhere are parameters. An assertion of the original that may fail sets `aborted`, after which nothing
happens; an assertion that cannot fail is proved.

How the transfer results fit together. `BbrSystem` takes the atomic actions of `BbrSender` in every order, with every
behaviour of the network. `BbrPacedSender` adds a clock, a pacer and a record of what left when, and shows that
pacing only delays what the sender does (`PacingOnlyDelays`). `BbrSource` shows that the two objects, however
deep `schedule_send`, `doNextEvent`, `pacedSend` and `send_packets` nest, only take steps of that paced sender,
and that the nesting ends; while the pacer waits for its event they compute exactly what `BbrHandlers` says.
`BbrTransfer` composes them: a source on the event list, a sink and a multiset of messages are always in a state of
a run of `BbrSystem`, so what holds in every run of the values holds of the objects. An ack that arrives there needs
no precondition and never makes the source abort.

That a method follows a function says little about either. So for each operation there is a statement of what it does
that names no function of its own: what a delivery is answered with in terms of what was delivered before
(`AnswersExactly`), when a flow is declared finished (`FinishedExactly`), what the window is (`WindowIsBdpOrPacket`),
when checks are made, fill the pipe and end DRAIN (`BbrTiming`), and which way each packet goes through a queue
(`QueueOutcomes`, `PrioOutcomes`).

Where the code and what it says of itself disagree, the model follows the code:

* The question in `processNack`, whether a packet may be nacked after it was acked, has the answer yes. `LateNack`
  drives the objects through a flow of three packets, with one overdue timer and no duplication, to a nack for
  packet 1, which the sink has and whose entry is gone: the assertion before the question fails.
  `NackExpectedExactly` says exactly when both assertions hold, and `QuietRunsNeverAbort` that they always do without
  timeouts and duplication. A timeout alone cannot resend anything: the scan runs only under the flag that a nack
  without room raises, and a restart takes that flag down.
* The branch of `mark_received` that is said not to happen does not happen (`IndividualAckFindsItsEntry`).
* A restart clears the flag that asks for retransmissions, but not the marks on the entries. Every other operation
  keeps `Covered`, that an entry waits for a resend only under that flag; after a start `Covered` holds if and only if
  no entry was waiting before it (`StartFlow`). `StrandedByRestart` drives the objects to a restart that leaves two
  entries waiting though both could be resent at once; the next firing of the pacer sends nothing (`StrandedWaits`).
* STARTUP ends, for acks without end and with bounded bandwidth, if and only if some full-pipe check sees bandwidth
  at all (`StartupEndsExactly`).
* `CompositePrioQueue` is written for whole packets of one size, of which eight fit, and paths of 1 to 19 hops; then
  no assertion fails (`OneSizeNeverAborts`). For packets of any size and path, `ArriveKeeps` says exactly when an
  arrival breaks one. `MixedSizesFail` and `ZeroPathFails` are runs that do; a path of 20 hops, for which the
  histogram has a place, is another case (`EnqueueAbortsExactly`).

## Model

| member | source | states |
|---|---|---|
| BbrSender.NackCountNeverWraps | fattree/sim/bbr.cpp:348-351 | In every run, whatever acknowledgments arrive, the unsigned count of pending retransmissions is positive whenever an entry is flagged nacked, so its decrements never wrap. |
| BbrSender.WindowBounds | fattree/sim/bbr.cpp:401-426 | The window stays in `mss .. maxcwnd` and the bytes in flight below `maxcwnd + mss` in every run after the start, if and only if the BDP holds one packet. |
| BbrSender.WindowIsBdpOrPacket | fattree/sim/bbr.cpp:401-426 | In every run after the start the window is one packet if a timeout came since the last start, and else the BDP: no ack and no nack changes it. |
| BbrSender.NewPacketsFitWindow | fattree/sim/bbr.cpp:1481 | A new packet leaves only if it fits the window as a whole: in every run without resends the bytes in flight stay within the BDP. |
| BbrSender.NackCountExactly | fattree/sim/bbr.cpp:1761-1764 | In every run the count of pending retransmissions is exactly the number of entries flagged nacked and of those erased while they were. |
| BbrSender.StepKeepsAccounts | fattree/sim/bbr.cpp:1714-1792 | Every action, with any acknowledgment, keeps the nack count at least the number of nacked entries, the window within its limits and the bytes in flight below the bound. |
| BbrSender.MarkReceivedKeepsAccounts | fattree/sim/bbr.cpp:322-374 | A cumulative erase that drops nacked entries without counting them, a front erase, or a mark keeps the same accounts. |
| BbrSender.SendsKeepAccounts | fattree/sim/bbr.cpp:1121-1130 | Every send and resend adds exactly one packet to the bytes in flight that `get_unacked` sums. |
| BbrSender.DropCoveredIsSuffix | fattree/sim/bbr.cpp:324-327 | The cumulative erase leaves a suffix whose front is beyond `ackno` and not acked, and removes only covered or acked entries. |
| BbrSender.IndexOf | fattree/sim/bbr.cpp:303-310 | `get_sent_packet_idx`: the first entry for a sequence number, or the length when there is none. |
| BbrSink.InsertSortedInserts | fattree/sim/bbr.cpp:1937-1950 | Insertion keeps the out-of-order list strictly increasing and adds exactly the one packet, once. |
| BbrSink.AbsorbKeeps | fattree/sim/bbr.cpp:1916-1925 | The loop that takes in-order packets off the list changes nothing about which packets are represented, only raises the cumulative ack, and stops where the next packet is missing. |
| BbrSink.ReceiveAddsExactly | fattree/sim/bbr.cpp:1843-1959 | Receiving a data packet adds exactly that packet to those represented; receiving a trimmed one adds none. |
| BbrSink.AnswerMeaning | fattree/sim/bbr.cpp:1880-1959 | What each answer means: ack number 1 always stands for a cumulative ack, an individual ack is never for the packet after the cumulative ack, a nack only for a packet the sink lacks, silence only for a duplicate without trimming. |
| BbrSink.AnswersExactly | fattree/sim/bbr.cpp:1880-1959 | After any deliveries: a packet delivered before is answered with the cumulative ack, or not at all without trimming; the header of any other with a nack; a new packet with an ack of its own exactly if one before it is missing, and else with the cumulative ack; and a cumulative ack always ends the longest prefix then delivered. |
| BbrSink.AckedAloneOnce | fattree/sim/bbr.cpp:1936-1959 | Over any sequence of deliveries each packet but the first gets an ack of its own at most once, and only if it was delivered. |
| BbrSink.SinkRefinesDeliveredSet | fattree/sim/bbr.cpp:1827-1952 | After any order, repetition and trimming of packets, cumulative ack and list stand for exactly the set delivered; the list is strictly increasing without the next expected packet; the cumulative ack ends the longest delivered prefix. |
| BbrSink.BbrSink.HasReceived | fattree/sim/bbr.cpp:1827-1841 | The search through the list answers exactly whether the packet was received. |
| BbrSink.BbrSink.Insert | fattree/sim/bbr.cpp:1932-1951 | Insertion in place, at the front, the back or in the middle, is sorted insertion without repetition. |
| BbrSink.BbrSink.ReceivePacket | fattree/sim/bbr.cpp:1843-1959 | The method's new state and answer are those of the specification, and bytes are counted once per new packet. |
| BbrSystem.RunKeeps | fattree/sim/bbr.cpp:322-374 | The invariant of source, sink and network together, with every value the cumulative ack has had and every packet acked individually, holds along every run. |
| BbrSystem.FrontIsNotAcked | fattree/sim/bbr.cpp:325 | The front entry is never flagged acked, because the sink never acks individually a packet whose predecessor was its cumulative ack. |
| BbrSystem.EraseStopsAtAckno | fattree/sim/bbr.cpp:324-327 | The cumulative erase stops exactly at `ackno`, or leaves the list alone when the ack is old. |
| BbrSystem.EntriesAreGapFree | fattree/sim/bbr.cpp:1496-1530 | In every reachable state the entries are gap-free from the first packet not cumulatively acked to the highest sent, and the front one is not acked. |
| BbrSystem.CumulativeAckIsExact | fattree/sim/bbr.cpp:322-329 | A cumulative ack on the wire removes exactly the entries it covers, even when entries beyond are flagged acked. |
| BbrSystem.IndividualAckFindsItsEntry | fattree/sim/bbr.cpp:331-344 | An individual ack passes the duplicate test exactly when its packet is not yet covered, and then finds an entry that is not the front one: the branch for index 0 is dead and the assertion holds. |
| BbrSystem.IndividualAckIsExact | fattree/sim/bbr.cpp:343-351 | That ack then marks exactly that entry, clears its other marks, and leaves its timer and all other entries alone. |
| BbrSystem.AcksAreHarmless | fattree/sim/bbr.cpp:1097-1101 | No ack on the wire makes the source abort, and `_highest_sent = seqno` changes nothing. |
| BbrSystem.FinishedMeansDelivered | fattree/sim/bbr.cpp:1073-1095 | When the flow is declared finished the sink has every byte, up to the highest sent, and nothing is left to acknowledge, for every interleaving. |
| BbrSystem.FinishedExactly | fattree/sim/bbr.cpp:1073-1095 | In every reachable state a flow with data is finished if and only if the cumulative acks processed cover it, which is when everything was sent and no entry is left; the highest byte sent stays within a packet of the flow size. |
| BbrSystem.BytesSentAreAccounted | fattree/sim/bbr.cpp:1121-1130 | In every reachable state each byte sent is covered by the cumulative acks, acked alone, waiting to be resent, or counted in flight by `get_unacked`, and exactly one of them. |
| BbrSystem.NackExpectedExactly | fattree/sim/bbr.cpp:563-569 | Both assertions of `processNack` hold for a nack on the wire if and only if no ack processed so far covers its packet. |
| BbrScenes.LateNack | fattree/sim/bbr.cpp:531-580 | Drives source, pacer, sink and network through a run without duplication, at the end of which a nack makes the source abort for a packet that the sink has received. |
| BbrScenes.AckMakesRoom | fattree/sim/bbr.cpp:1776-1792 | In that run: an individual ack opens the window, and the scan it starts times packet 1 out and sends a second copy while the first is still on its way. |
| BbrScenes.AckRemovesEntry | fattree/sim/bbr.cpp:322-329 | In that run: the cumulative ack for the second copy removes the entry, so the nack for the first copy is not expected any more. |
| BbrScenes.StrandedByRestart | fattree/sim/bbr.cpp:1389-1423 | Drives the objects through a run at the end of which two entries wait for a resend and the flag that asks for resends is down. |
| BbrScenes.ScanFindsNoRoom | fattree/sim/bbr.cpp:1776-1792 | In that run: the scan times an entry out but has no unused firing or no room in the window for either waiting entry, and keeps the flag up. |
| BbrScenes.StrandedWaits | fattree/sim/bbr.cpp:1468-1541 | After that restart window and pacer would let a resend go at once, and yet the next firing of the pacer sends nothing. |
| BbrExact.StepKeepsOneCopy | fattree/sim/bbr.cpp:1714-1773 | Without timeouts and duplication every step keeps: a packet has at most one live copy, header or nack, and a live one means the sink lacks the packet. |
| BbrExact.NackIsExpected | fattree/sim/bbr.cpp:563-569 | Then a live nack meets both assertions. |
| BbrExact.QuietRunsNeverAbort | fattree/sim/bbr.cpp:531-580 | Every run without duplication and timeouts, with any loss, reordering and trimming, never aborts. |
| BbrPacing.SendsAreLicensed | fattree/sim/bbr_pacer.cpp:30-42 | An interval carries at most one packet more than it has firings, and no more than its firings if it ends with an unused one. |
| BbrPacing.FiringsAreSpaced | fattree/sim/bbr_pacer.cpp:9-20 | The k-th firing of an interval comes at least k - 1 delays after its start. |
| BbrPacing.RateBound | fattree/sim/bbr_pacer.cpp:9-42 | With every delay in force at least d, an interval of length T carries at most floor(T / d) + 2 packets. |
| BbrPacing.RateBoundIsTight | fattree/sim/bbr_pacer.cpp:9-42 | For every delay and every whole number n of delays there is a sound history with n + 2 packets in n delays. |
| BbrPacedSender.FollowsKeeps | fattree/sim/bbr_pacer.cpp:30-42 | Along every path the history is sound, the token is held exactly after an unused firing, without the token no firing is later than the last send, and each packet left when the history says. |
| BbrPacedSender.PacingOnlyDelays | fattree/sim/bbr.cpp:1462-1541 | The paced sender is in a state that a run of the unpaced sender reaches, with the same packets on the wire in the same order. |
| BbrPacedSender.PacketsArePaced | fattree/sim/bbr.cpp:1462-1541 | The rate bound for the packets that a paced sender put on the wire, new and resent, in every run. |
| BbrPacedSender.EmitsProgresses | fattree/sim/bbr.cpp:1776-1792 | A call that sends removes no entry, and gives up a firing only for a packet, which leaves less work: the measure that ends the nested calls. |
| BbrPacedSender.AckSettlesFirst | fattree/sim/bbr.cpp:1073-1074 | Packets sent in the middle of an ack do not change whether it completes the flow: the two halves of the ack around them are the whole ack and then the packets. |
| BbrPacedSender.MarkReceivedLeavesNoneWaiting | fattree/sim/bbr.cpp:322-374 | An acknowledgment makes no entry wait for a resend. |
| BbrSource.BbrPacer.ScheduleSend | fattree/sim/bbr_pacer.cpp:9-20 | Fires at once if the delay has passed and otherwise leaves one event, at `_next_send`; the sender takes only paced steps, and none in the second case; the nested calls end. |
| BbrSource.BbrPacer.DoNextEvent | fattree/sim/bbr_pacer.cpp:30-42 | One firing is recorded first, with the delay in force; at the end the pacer waits for one event again or, without a delay, for none; the source has nothing it may send now. |
| BbrSource.BbrPacer.Cancel | fattree/sim/bbr_pacer.cpp:22-26 | No event of the pacer is left, and no other source loses one. |
| BbrSource.BbrPacer.JustSent | fattree/sim/bbr_pacer.cpp:28 | A send is recorded now, and a pacer that waits for an event still keeps a delay from its last firing. |
| BbrSource.BbrSrc.GetUnacked | fattree/sim/bbr.cpp:1121-1130 | The loop sums one packet size per entry in flight. |
| BbrSource.BbrSrc.GetSentPacketIdx | fattree/sim/bbr.cpp:303-310 | The search finds the first entry for a sequence number, or answers the length. |
| BbrHandlers.EarliestIsLeast | fattree/sim/bbr.cpp:312-320 | With positive timers, what `update_rtx_time` computes is zero exactly when nothing is in flight, and otherwise the least timer of the entries in flight. |
| BbrHandlers.ScansAreScan | fattree/sim/bbr.cpp:1776-1792 | However many turns of the scan were taken one by one, the turns still to come lead to the result of the whole scan. |
| BbrHandlers.ScanAsksExactly | fattree/sim/bbr.cpp:1776-1792 | While the pacer waits, the flag is up after a scan if and only if some entry still waits for a resend. |
| BbrSource.BbrSrc.EarliestTimer | fattree/sim/bbr.cpp:312-320 | The loop computes that timer, for all timers. |
| BbrSource.BbrSrc.PacedSend | fattree/sim/bbr.cpp:1462-1466 | One firing more, then only paced steps; the firing is used up, and work done, or kept. |
| BbrSource.BbrSrc.SendPackets | fattree/sim/bbr.cpp:1468-1541 | Terminates, only takes paced steps, and returns only when the window is full, nothing is unsent, or the pacer is pending. Resends that were asked for and possible make progress; an entry still waits for a resend only under its flag. While the pacer waits, the state is exactly that of one scan, if asked for, and at most one new packet. |
| BbrSource.BbrSrc.SendNewPacket | fattree/sim/bbr.cpp:1496-1539 | Exactly one new packet leaves, with the next sequence number and a timer of now, service time and RTO; the token is used up. |
| BbrSource.BbrSrc.ResendPacket | fattree/sim/bbr.cpp:1714-1773 | A resend succeeds exactly when fewer bytes are in flight than the window has, however little room that leaves, and a firing is unused; it then changes exactly its entry and sends exactly its packet. |
| BbrSource.BbrSrc.RetransmitPacket | fattree/sim/bbr.cpp:1776-1792 | After the scan no entry waits for a resend unless the flag is up, although the scan is re-entered by its own sends. A scan that may resend and finds an entry waiting does some work; one that finds none changes nothing. While the pacer waits, the result is exactly the turn-by-turn scan. |
| BbrSource.BbrSrc.RetransmitOne | fattree/sim/bbr.cpp:1778-1790 | One turn of the scan extends the part in which no entry waits, or leaves the flag up, and resends a waiting entry when that is possible. |
| BbrSource.BbrSrc.TimeOutIfOverdue | fattree/sim/bbr.cpp:1780-1784 | Exactly an overdue entry in flight is marked, and the window falls to one packet. |
| BbrSource.BbrSrc.UpdateParams | fattree/sim/bbr.cpp:477-528 | RTO of three base RTTs, window and its limit at the BDP, no retransmission asked for. |
| BbrSource.BbrSrc.Begin | fattree/sim/bbr.cpp:1389-1398 | A start makes the pacer the first time, puts the window back, takes the flags down and sends nothing yet. |
| BbrSource.BbrSrc.StartFlow | fattree/sim/bbr.cpp:1389-1423 | The first start makes the pacer; every start restarts the window and then sends what it may. After it every waiting entry is asked for if and only if no entry was waiting before it. |
| BbrSource.BbrSrc.MarkNacked | fattree/sim/bbr.cpp:544-574 | The state is that of the specification, and an assertion fails exactly when the nack is not expected. |
| BbrSource.BbrSrc.ProcessNack | fattree/sim/bbr.cpp:531-580 | Unless an assertion fails: the nack is marked, the packet is resent at once exactly when the window has room and a firing is unused, and otherwise the flag is up; only paced steps are taken. |
| BbrSource.BbrSrc.MarkReceived | fattree/sim/bbr.cpp:322-374 | The erase loops and the mark, in place, are those of the specification. |
| BbrSource.BbrSrc.Repace | fattree/sim/bbr.cpp:951-956 | The pacer starts over with the new delay; it has one event or none, and packets leave only by paced steps. |
| BbrSource.BbrSrc.FinishAck | fattree/sim/bbr.cpp:1073-1117 | The flow finishes, and the pacer falls silent, exactly when the ack covers it and no entry is left; otherwise everything that may be sent is. |
| BbrSource.BbrSrc.ProcessAck | fattree/sim/bbr.cpp:990-1119 | For every ack, also one beyond what was sent: it aborts exactly when the assertion of `mark_received` fails; otherwise the ack as specified, then only paced steps, also when packets leave in the middle of it; at the end the flow is finished with a silent pacer, or nothing more may be sent now. |
| BbrSource.BbrSrc.ReceivePacket | fattree/sim/bbr.cpp:1143-1203 | Any packet: an ack or nack has its effect; then, exactly while a timeout is pending and the window has room, the source schedules its own event. |
| BbrSource.BbrSrc.RtxTimerHook | fattree/sim/bbr.cpp:1667-1712 | Exactly an overdue timer not yet acted on shrinks the window and schedules the source, at the timer or now. |
| BbrSource.BbrSrc.RunNext | fattree/sim/eventlist.cpp:10-35 | An event of the pacer comes exactly at `_next_send`, so its assertion holds, and leaves waiting entries asked for if they were; an event of the source is a start, after which they are if and only if there were none; the invariant holds after any event. |
| BbrSource.BbrSrc.PacerHasOneEvent | fattree/sim/bbr_pacer.cpp:9-20 | Between calls the pacer has at most one pending event, at `_next_send`, a whole delay after its last firing. |
| BbrSource.BbrSrc.RefinesSender | fattree/sim/bbr.cpp:1468-1541 | At any time between calls the source is in a state of a run of the specification and has sent its packets. |
| BbrSource.BbrSrc.SendsAtBoundedRate | fattree/sim/bbr_pacer.cpp:9-42 | The rate bound for the packets the object has sent. |
| BbrSource.BbrSrc.StaysWithinWindow | fattree/sim/bbr.cpp:1714-1792 | The window of the object is one packet or the BDP, and its bytes in flight and nack count are within their bounds. |
| BbrTransfer.EmitsIsRun | fattree/sim/bbr.cpp:1468-1541 | Whatever a call of the source sends, from a state of a run of the system, is a run in which only the source acts and exactly those packets are added to the wire. |
| BbrTransfer.AckIsRun | fattree/sim/bbr.cpp:990-1119 | An ack off the wire, with packets sent in its middle and at its end, is a run of the system. |
| BbrTransfer.AckNeverAborts | fattree/sim/bbr.cpp:331-344 | No ack on the wire makes the source abort. |
| BbrTransfer.Transfer.FinishesExactly | fattree/sim/bbr.cpp:1073-1095 | Of the objects at any time: the flow is finished if and only if everything was sent and no entry is left; then the sink has it all. |
| BbrTransfer.NackIsRun | fattree/sim/bbr.cpp:531-580 | So is an expected nack, with what is resent. |
| BbrTransfer.RestartIsRun | fattree/sim/bbr.cpp:1389-1423 | So is a restart, with what it sends. |
| BbrTransfer.Transfer.ToSink | fattree/sim/bbr.cpp:1843-1959 | A data packet or header reaches the sink object: its answer, if any, takes the place of the packet on the wire, and the objects are still in a state of a run of the system. |
| BbrTransfer.Transfer.AckToSource | fattree/sim/bbr.cpp:990-1119 | An ack on the wire reaches the source object, which does not abort; exactly its new packets join the wire, and the objects stay in a state of a run. |
| BbrTransfer.Transfer.NackToSource | fattree/sim/bbr.cpp:531-580 | A nack on the wire reaches it; it aborts exactly when the nack is not expected, and even then the objects are in a state of a run. |
| BbrTransfer.Transfer.RunNext | fattree/sim/eventlist.cpp:10-35 | Whatever event comes next, the pacer's, the source's or another, the objects stay in a state of a run. |
| BbrTransfer.Transfer.Hook | fattree/sim/bbr.cpp:1667-1712 | So they do after the timer hook. |
| BbrControl.ModelMirrorsWindows | fattree/sim/bbr.cpp:934-950 | After every run of samples each slot of the ring holds the peak of the sample window it stands for. |
| BbrControl.BestIsSlidingMaximum | fattree/sim/bbr.cpp:831-842 | `GetBestBw` is the maximum over the last ten sample windows of the whole history, the open one counting once it has a sample. |
| BbrTiming.WindowsCutTheSamples | fattree/sim/bbr.cpp:934-950 | The sample windows of any history, in order, are exactly its samples. |
| BbrTiming.WindowsCloseOnTime | fattree/sim/bbr.cpp:942-949 | The k-th window is closed by the first sample that comes more than k base round trips after time zero and finds it open. |
| BbrControl.StartupIsGeometric | fattree/sim/bbr.cpp:896-916 | After n checks that do not fill the pipe, the full bandwidth is at least the first one times 5/4 to the power ceil(n/3) - 1. |
| BbrControl.BoundedBandwidthFillsPipe | fattree/sim/bbr.cpp:896-916 | However many checks see nothing first: if none ever sees bandwidth the test is as at the start, and bandwidth that stays below a bound fills the pipe as soon as growth by 5/4 every three checks would have passed that bound. |
| BbrControl.FillingTakesFourChecks | fattree/sim/bbr.cpp:896-916 | The pipe is full exactly after three stale checks in a row, which takes at least four. |
| BbrTiming.FillsExactly | fattree/sim/bbr.cpp:896-916 | The pipe is full if and only if at some point three checks in a row had seen less than 5/4 of the last record, a record being a check that saw 5/4 of the one before. |
| BbrTiming.CheckMadeExactly | fattree/sim/bbr.cpp:881-894 | In every run, while the pipe is not full, an ack makes a check if and only if it comes more than a round trip after the ack with which the wait began: the first, or the one after a check. |
| BbrTiming.ChecksAreSpaced | fattree/sim/bbr.cpp:881-894 | Every check ends such a wait: it comes more than a round trip after an ack that follows the check before it. |
| BbrControl.ZerosDoNotCount | fattree/sim/bbr.cpp:896-916 | Checks that see no bandwidth, before any that does, leave the full-pipe test as it was. |
| BbrControl.SilenceNeverFillsPipe | fattree/sim/bbr.cpp:901-905 | With zero bandwidth every check finds growth. |
| BbrControl.StatesFollowPipe | fattree/sim/bbr.cpp:844-879 | In every run of acks STARTUP is left exactly when the pipe is full, the pipe is what the checks made of it, and each state has its gains. |
| BbrControl.StartupLastsFourChecks | fattree/sim/bbr.cpp:844-916 | No run leaves STARTUP before its fourth full-pipe check. |
| BbrStartup.StartupEndsExactly | fattree/sim/bbr.cpp:844-916 | In every endless stream of acks with bounded bandwidth STARTUP is left if and only if some full-pipe check sees bandwidth. |
| BbrStartup.LeavingNeedsBandwidth | fattree/sim/bbr.cpp:896-905 | Without a bound and without an endless stream: a run that has left STARTUP had a check that saw bandwidth. |
| BbrStartup.ManyChecks | fattree/sim/bbr.cpp:896-916 | As long as acks keep coming, any number of full-pipe checks is made unless the pipe fills first. |
| BbrControl.StatesOnlyAdvance | fattree/sim/bbr.cpp:844-879 | Along every run the state moves only from STARTUP to DRAIN to PROBE_BW. |
| BbrTiming.DrainEndsExactly | fattree/sim/bbr.cpp:858-871 | An ack brings PROBE_BW for the first time if and only if the checks made have filled the pipe and the bytes in flight are at most the greatest bandwidth of the last ten windows times the base round trip, and one packet. |
| BbrControl.AckAdvancesState | fattree/sim/bbr.cpp:1037-1040 | One ack keeps or advances the state, and keeps its gains fitting. |
| BbrControl.GainsFollowCycle | fattree/sim/bbr.cpp:813-829 | The gains set in PROBE_BW are 1.25, 0.75 and six times 1, from the start and over and over, in every run. |
| BbrTiming.PhasesLastRoundTrips | fattree/sim/bbr.cpp:813-829 | In every run the n-th gain lasts until the first ack that comes more than n base round trips after the ack that brought PROBE_BW. |
| BbrControl.ProbingIsNeutral | fattree/sim/bbr.cpp:49 | Any eight consecutive gains of PROBE_BW average exactly one. |
| BbrControl.BbrControl.MaxElement | fattree/sim/bbr.cpp:944 | The maximum of the open sample window. |
| BbrControl.BbrControl.GetBestBw | fattree/sim/bbr.cpp:831-842 | The loop finds the maximum of the ten slots, or zero. |
| BbrControl.BbrControl.UpdateBwModel | fattree/sim/bbr.cpp:934-950 | The ring, its index and the open window change as specified. |
| BbrControl.BbrControl.CheckFullPipe | fattree/sim/bbr.cpp:896-916 | The full-pipe state changes as specified, one check per round trip. |
| BbrControl.BbrControl.CheckDrain | fattree/sim/bbr.cpp:844-879 | STARTUP may pass through DRAIN into PROBE_BW in one call, as specified. |
| BbrControl.BbrControl.ProcessAck | fattree/sim/bbr.cpp:1037-1040 | One ack takes the control exactly through the specified step. |
| CircularBuffer.GrowthKeepsContents | fattree/sim/circular_buffer.h:35-51 | Doubling a full ring and moving its wrapped part keeps the sequence it stands for. |
| CircularBuffer.CircularBuffer.Grow | fattree/sim/circular_buffer.h:35-51 | The copying loop does that in place. |
| CircularBuffer.CircularBuffer.Push | fattree/sim/circular_buffer.h:32-55 | Appends to the sequence, growing if need be; the count stays below the size. |
| CircularBuffer.CircularBuffer.Pop | fattree/sim/circular_buffer.h:57-65 | Takes the oldest element off the sequence. |
| CircularBuffer.CircularBuffer.PopFront | fattree/sim/circular_buffer.h:67-75 | Takes the newest element off the sequence. |
| CircularBuffer.CircularBuffer.Back | fattree/sim/circular_buffer.h:77-80 | Answers the oldest element and changes nothing. |
| CircularBuffer.CircularBuffer.GrowthIsAmortized | fattree/sim/circular_buffer.h:35-51 | Over any run, growth has moved at most two elements per push. |
| FairPullQueue.RoundRobinIsFair | fattree/sim/fairpullqueue.cpp:74-91 | While a flow stays busy and unserved, no other flow is served twice, for any mix of puts, new flows and flushes, wherever the round starts. |
| FairPullQueue.FlowsKeepOrder | fattree/sim/fairpullqueue.cpp:61-107 | Over any run the packets of a flow leave in the order they came, none lost or repeated. |
| FairPullQueue.TurnIsNotPassed | fattree/sim/fairpullqueue.cpp:74-91 | The flow served had not been passed in this round of any busy flow, and has been after it. |
| FairPullQueue.SearchMovesOn | fattree/sim/fairpullqueue.cpp:78-90 | The search wraps around at most once, passes over only idle flows, and stops at the flow whose turn it is. |
| FairPullQueue.RemainingShrinks | fattree/sim/fairpullqueue.cpp:78-90 | The cyclic distance to the turn shrinks with every step of the endless loop. |
| FairPullQueue.TotalUpdate | fattree/sim/fairpullqueue.cpp:61-72 | How the sum of all queue lengths changes with one queue. |
| FairPullQueue.FairPullQueue.Enqueue | fattree/sim/fairpullqueue.cpp:61-72 | The packet goes to the end of its flow's queue, made if need be; the count stays the sum of the lengths. |
| FairPullQueue.FairPullQueue.Dequeue | fattree/sim/fairpullqueue.cpp:74-91 | Nothing exactly when no packet is queued; otherwise the loop ends and takes the oldest packet of the flow whose turn it is. |
| FairPullQueue.FairPullQueue.FlushFlow | fattree/sim/fairpullqueue.cpp:93-107 | The flow's queue is gone, the iterator stays valid, the count is right. |
| WeightedService.BoundedBypass | fattree/sim/compositequeue.cpp:70-98 | While LOW has packets at most `_ratio_high` decisions in a row go to HIGH. |
| WeightedService.CrtCountsContended | fattree/sim/compositequeue.cpp:70-87 | The round counter is the number of decisions between two busy queues so far, modulo a round: no other decision moves it. |
| WeightedService.ChoiceExactly | fattree/sim/compositequeue.cpp:70-98 | The n-th such decision goes to HIGH if and only if n modulo a round is below `_ratio_high`; a queue that is alone is served. |
| WeightedService.LowIsServed | fattree/sim/compositequeue.cpp:70-98 | The k-th low packet starts service within k * (`_ratio_high` + `_ratio_low`) decisions. |
| WeightedService.FullRound | fattree/sim/compositequeue.cpp:71-78 | A round of the counter has exactly `_ratio_high` decisions for HIGH, wherever it starts. |
| WeightedService.ContendedRoundIsExact | fattree/sim/compositequeue.cpp:70-87 | Of any `_ratio_high` + `_ratio_low` consecutive contended decisions exactly `_ratio_high` go to HIGH. |
| EventList.InsertKeepsOrder | fattree/sim/eventlist.cpp:49-51 | An insertion that is not in the past keeps the events in order and none in the past. |
| EventList.InsertIsStable | fattree/sim/eventlist.cpp:50-51 | A new event goes behind every event due at the same time. |
| EventList.InsertSchedules | fattree/sim/eventlist.cpp:50-51 | Exactly the source of the event gains one event. |
| EventList.CancelRemovesEarliest | fattree/sim/eventlist.cpp:56-65 | Cancelling erases the source's earliest event and no other. |
| EventList.PopTakesEarliest | fattree/sim/eventlist.cpp:23-31 | The event taken is the earliest of all, the clock never runs back, and only its source loses an event. |
| EventList.NextIs | fattree/sim/eventlist.cpp:23-31 | A source whose one event is earlier than all events of the others comes next. |
| EventList.EventList.DoNextEvent | fattree/sim/eventlist.cpp:10-35 | Newest trigger first, then the earliest event, with the clock at its time. |
| EventList.EventList.SourceIsPending | fattree/sim/eventlist.cpp:37-52 | One more event for the source, unless it is at or after the end. |
| EventList.EventList.CancelPendingSource | fattree/sim/eventlist.cpp:56-65 | The loop erases the source's first event; a source with one event has none. |
| EventList.EventList.ReschedulePendingSource | fattree/sim/eventlist.cpp:67-70 | A source that had at most one event is left with exactly the new one. |
| CompositeQueue.ClockTellsEventsApart | fattree/sim/compositequeue.cpp:303-310 | The test on the clock runs the phantom tick exactly when it is due, and otherwise a service is due and has its packet. |
| CompositeQueue.DispatchIsExact | fattree/sim/compositequeue.cpp:303-310 | In every run at most one service and one phantom event are pending, and every event planned before has run exactly once, at its time. |
| CompositeQueue.SameInstantRunsBoth | fattree/sim/compositequeue.cpp:54-68 | When both events fall at one instant both run, the phantom tick first. |
| CompositeQueue.PacketsAreConserved | fattree/sim/compositequeue.cpp:312-535 | In every run every packet is exactly once queued, served, bounced or dropped, in order of arrival per FIFO; the counters are the bytes queued, within `_maxsize` and 2000 times it; the server is idle exactly when both FIFOs are empty. |
| QueueOutcomes.ArrivalGoesItsWay | fattree/sim/compositequeue.cpp:312-535 | A whole packet on a working link that fits `_maxsize` joins LOW unchanged; any other leaves LOW alone and joins HIGH as a 64-byte header exactly when that fits 2000 times `_maxsize` and, for lack of room in LOW, dropping is not asked for; the rest are sent back if returnable and not sent back before, and else dropped. |
| QueueOutcomes.EveryArrivalGoesItsWay | fattree/sim/compositequeue.cpp:312-535 | In every run what LOW and HIGH took, what was sent back and what was dropped are exactly the arrivals that had to go that way, in order. |
| QueueOutcomes.TrimmedForAReason | fattree/sim/compositequeue.cpp:363 | In every run what HIGH took came as a header, over a failed link, or when it did not fit. |
| QueueOutcomes.ServiceTakesItsTime | fattree/sim/compositequeue.cpp:70-98 | In every run the service in progress ends when the bytes of its packet have been sent, counted from the decision that started it. |
| QueueOutcomes.ServedIsHead | fattree/sim/compositequeue.cpp:166-301 | What leaves is the packet in service, with at most its mark changed, which happens only to whole packets and to headers that are neither feedback nor trimmed. |
| QueueOutcomes.TicksAreEven | fattree/sim/compositequeue.cpp:54-68 | In every run the phantom queue starts when the first service ends and ticks at even intervals from then on. |
| QueueOutcomes.PhantomIsKept | fattree/sim/compositequeue.cpp:54-68 | In every run the phantom queue is within its limit; an arrival, or a departure if it is in series, adds the bytes it should, and a tick takes a full packet out. |
| CompositeQueue.LowIsBypassedBriefly | fattree/sim/compositequeue.cpp:70-98 | In every run of the queue, bounded bypass of the low FIFO. |
| LowService.LowPacketsStart | fattree/sim/compositequeue.cpp:70-98 | In every run of the queue, the k-th packet that waits in the low FIFO has started service, in order of arrival, within k * (`_ratio_high` + 1) decisions made while that FIFO had packets. |
| LowService.RunCounts | fattree/sim/compositequeue.cpp:70-98 | Along every run each decision for LOW is one low packet that leaves or is in service, and neither is ever taken back. |
| CompositeQueue.ArriveKeeps | fattree/sim/compositequeue.cpp:312-535 | An arrival, stored, trimmed, bounced or dropped, keeps accounts, service and timers. |
| CompositeQueue.WakeKeeps | fattree/sim/compositequeue.cpp:303-310 | An event that comes due keeps them, and has something to do. |
| CompositeQueue.OwnEventIsStep | fattree/sim/eventlist.cpp:23-33 | When the event list takes an event of the queue, running it is a step of the specification. |
| CompositeQueue.CompositeQueue.ReceivePacket | fattree/sim/compositequeue.cpp:312-535 | The object's new state is that of the specified arrival. |
| CompositeQueue.CompositeQueue.BeginService | fattree/sim/compositequeue.cpp:70-98 | The choice, and the one service event scheduled for it. |
| CompositeQueue.CompositeQueue.CompleteService | fattree/sim/compositequeue.cpp:166-301 | The packet that leaves is the oldest of the FIFO served, marked as decided, and the next service starts if there is work. |
| CompositeQueue.CompositeQueue.DecreasePhantom | fattree/sim/compositequeue.cpp:54-68 | The phantom queue drains, not below zero, and its one event is scheduled again. |
| CompositeQueue.CompositeQueue.DoNextEvent | fattree/sim/compositequeue.cpp:303-310 | Run on the event just taken, keeps the invariant and does what that event was for. |
| CompositePrioQueue.RemoveAtKeeps | fattree/sim/compositeprioqueue.cpp:195-212 | Whichever packet leaves, its histogram entry is positive, and histogram, cached maximum and bytes agree with the list again. |
| CompositePrioQueue.EnqueueKeeps | fattree/sim/compositeprioqueue.cpp:181-193 | Storing a packet keeps them in agreement. |
| CompositePrioQueue.FindMaxFinds | fattree/sim/compositeprioqueue.cpp:235-249 | Scanning the histogram down finds the longest path length in the list. |
| CompositePrioQueue.CheckQueuedHolds | fattree/sim/compositeprioqueue.cpp:251-261 | Both assertions of `check_queued` hold whenever the housekeeping does. |
| CompositePrioQueue.CheckQueuedMeans | fattree/sim/compositeprioqueue.cpp:251-261 | They hold, of any list with a true histogram, if and only if all paths are shorter than 20 and at most eight packets are queued. |
| CompositePrioQueue.EnqueueAbortsExactly | fattree/sim/compositeprioqueue.cpp:181-193 | So storing a packet breaks one exactly when its path is 20 or longer, or eight packets are queued already. |
| CompositePrioQueue.LongerExists | fattree/sim/compositeprioqueue.cpp:263-319 | The search for a packet with a longer path cannot fail. |
| CompositePrioQueue.EvictionIsFair | fattree/sim/compositeprioqueue.cpp:107-142 | Eviction never takes a packet with a shorter path than the arriving one, and removes exactly that packet, which is queued as a header exactly if that fits, and else dropped. |
| CompositePrioQueue.TrimKeeps | fattree/sim/compositeprioqueue.cpp:263-319 | Trimming, of the packet in service too, keeps lists, histogram and maximum in agreement. |
| CompositePrioQueue.ArriveKeeps | fattree/sim/compositeprioqueue.cpp:93-179 | Packets of any size and path: no assertion fails if and only if the packet is a header; or it fits, has a path shorter than 20 and is at most the eighth; or it meets a packet, and is stripped, or finds a path longer than 0 and fits where its victim was. The queue is then sound again. |
| PrioOutcomes.ArrivalGoesItsWay | fattree/sim/compositeprioqueue.cpp:93-179 | An arrival that breaks no assertion: one that fits is kept whole and evicts nothing; one that does not takes the place of the newest packet with a longer path, or with the coin of the newest with as long a one, or is trimmed itself; and each header is queued, newest, exactly when it fits, and dropped exactly when not. |
| PrioOutcomes.ServiceTakesOldest | fattree/sim/compositeprioqueue.cpp:66-89 | The end of a service takes the oldest packet off the list that was chosen and changes nothing else in the lists. |
| CompositePrioQueue.LowIsBypassedBriefly | fattree/sim/compositeprioqueue.cpp:36-62 | In every run, while LOW has packets at most `_ratio_high` services in a row start for HIGH. |
| CompositePrioQueue.MixedSizesFail | fattree/sim/compositeprioqueue.cpp:129 | A run of three packets in which one eviction does not make enough room. |
| CompositePrioQueue.ZeroPathFails | fattree/sim/compositeprioqueue.cpp:125 | A run of two packets without hops in which the threshold for the eviction wraps around. |
| CompositePrioQueue.QueueStaysSound | fattree/sim/compositeprioqueue.cpp:36-319 | In every run, as long as no assertion has failed, histogram and maximum are true, both assertions of `check_queued` hold, a service finds its packet even if the one in service was evicted, and every packet is once queued, sent or dropped. |
| CompositePrioQueue.OneSizeNeverAborts | fattree/sim/compositeprioqueue.cpp:93-319 | With whole packets of one size, of which one to eight fit, and paths of 1 to 19 hops, no assertion fails in any run. |
| CompositePrioQueue.CompositePrioQueue.TakeOut | fattree/sim/compositeprioqueue.cpp:263-300 | Removes one packet in place, with its housekeeping. |
| CompositePrioQueue.CompositePrioQueue.TrimLowPriorityPacket | fattree/sim/compositeprioqueue.cpp:263-319 | The search and the eviction, in place, are those of the specification. |
| CompositePrioQueue.CompositePrioQueue.ReceivePacket | fattree/sim/compositeprioqueue.cpp:93-179 | The object aborts exactly when the specified arrival does, and otherwise its new state is that one, and sound. |
| CompositePrioQueue.CompositePrioQueue.CompleteService | fattree/sim/compositeprioqueue.cpp:66-89 | The oldest packet of the list served leaves, and the next service starts if there is work. |

## Left out

- Liveness of the transfer: a finished flow is complete, but no claim is made that a flow finishes; `doNextEvent` of the source is a restart that drops pending retransmissions.
- `use_fast_drop`, `stop_after_quick`, `quick_adapt`, `adjust_window` and the increase functions: off the live BBR path.
- Distance-based retransmission: disabled by every constructor.
- `_unacked` and `_rtx_timeout` as exact caches: the code does not keep either exact. `_rtx_timeout` is what the last update computed.
- `UpdatePacingRate`: the pacing delay an ack may bring, and which acks bring one by closing a bandwidth window, are parameters of the source. `pacing_delay` is shared by all flows; the invariant between calls says nothing about it, so any other flow may change it there.
- `use_pacing` switched off: the source then runs without a pacer, which `processAck` uses all the same.
- `simulateTrimEvent`: only for the lossless queue type, which is not part of this model.
- Routes, entropies, path choice, the end trigger, loggers, collected data and statistics counters: they do not change the modelled state.
- Fixed-width arithmetic, except for the count of pending retransmissions: sequence numbers, times and sizes are unbounded, and all data packets of a flow have one size.
- BbrControl.BbrControl.ComputeInFlight: leaves out the truncation to an integer; bandwidths are real numbers, and `best_bdw_window` starts at zero. Its only caller is `CheckDrain`, with gain 1 and not in PROBE_BW.
- `use_bts`, `_use_mixed` and the thresholds of `decide_ECN`: the outcome of a marking decision is a parameter.
- CompositeQueue.CompositeQueue.ReceivePacket: the two rings are sequences here, and a byte takes a whole number of picoseconds.
- FairPullQueue.FairPullQueue.Enqueue: each flow's ring is a sequence here; that a ring refines a sequence is proved in `CircularBuffer`.
- CompositePrioQueue.CompositePrioQueue.CompleteService: the time a service takes is not modelled; that its length is that of its packet is proved for `CompositeQueue`.
- CompositePrioQueue.CompositePrioQueue.ReceivePacket: `_max_path_len_seen`, which the constructor does not set, starts at zero; the coin toss is a parameter; looking at the front of an empty list and writing past the end of the histogram count as failed assertions; once one has failed nothing is said of the queue.
- `FifoPullQueue`, `ECNQueue`, the other transports and the packet headers: not part of this model.
