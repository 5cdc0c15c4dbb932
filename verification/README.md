# Libertas driver model

This project models the Libertas wireless driver under `kernel/net/wifi` and the list
helpers of `include/net/compat.h`, and proves what they promise.  The command
`dafny verify dfyconfig.toml` checks the whole project.

## The host-command engine

Ten command nodes circulate between a free queue, a pending queue, the command in flight
(`cur_cmd`) and the callers that prepare or wait for commands.  One worker thread runs
`lbs_thread`; callers, the command timer, event arrival and response arrival interleave with
it.  `LbsState.dfy` has one function for each section of code that runs without
interruption: a `driver_lock` critical section, or a run of unlocked statements of which at
most one accesses a variable that another context may change meanwhile.  Between two
sections any other context may run.  In particular the head of the queue is peeked and
removed in different sections, the two checks of the sleep confirmation are different
sections, and so are the load and the store of `priv->seqnum++` and the read after it.  `Step` runs one section of one context and `Run` a sequence of them; a
theorem about runs is about all sequences, or all with the property that it names.

`LbsPrivate.dfy` is the same engine in the driver's own form: an object with the fields of
`struct lbs_private`, each section a method that updates it in place.  Both queues are rings
of heap nodes, linked through the list heads that the ten command nodes embed
(`CmdLists.dfy`), and the command buffers and response slots are arrays.  Every
method is proved to do what the step function does; the straight-line ones are not listed
below.  `Section` combines them, and `Continue` concludes the safety theorems for the object.

| file | about |
|---|---|
| `LbsState.dfy` | state, sections, runs |
| `LbsPrivate.dfy`, `CmdLists.dfy` | the same with rings, arrays and fields updated in place |
| `QueueMoves.dfy` | every step is one of nine moves of the queues |
| `NodeConservation.dfy` | where the ten nodes are; which steps lose one |
| `PowerSave.dfy` | safe sleep and power gating |
| `NodeOwners.dfy`, `CallerFates.dfy` | who gets a completed node back; what becomes of a node that a caller takes |
| `CommandOrder.dfy` | first in, first out |
| `SequenceNumbers.dfy`, `SeqnumRace.dfy` | which command a response answers, and the race for its number |
| `ResponseSlots.dfy`, `EventQueue.dfy` | the two response buffers and the event fifo: each entry once and in order |
| `CommandAnswers.dfy`, `EventEffects.dfy` | what responses and events do |
| `RunUntil.dfy`, `Dispatch.dfy`, `IdleSleep.dfy` | one call of `lbs_execute_next_command` in every interleaving; frames and the timer |
| `SleepHandshake.dfy`, `SleepSchedule.dfy` | when the card falls asleep, and a run in which it does |
| `RetryBudget.dfy`, `GivingUp.dfy`, `Wedge.dfy` | timeouts, and firmware that stops answering, in every interleaving |
| `WakeRuns.dfy`, `WakeProgress.dfy` | how a command leaves power-save mode, and when it cannot |
| `ThreadPass.dfy`, `DeadFirmware.dfy`, `WakeSchedule.dfy` | single schedules, and that they are runs as those theorems ask for |
| `ListHead.dfy` | circular list surgery on the heap |
| `DomainSpec.dfy`, `DomainRoundTrip.dfy`, `DomainInfo.dfy` | 802.11d country information (section 7.3.2.9 of IEEE 802.11-2007) |
| `SdioAlign.dfy`, `SdioPackets.dfy`, `Firmware.dfy` | the SDIO transport |
| `CommonRates.dfy`, `NetworkChoice.dfy` | association |
| `Multicast.dfy` | the multicast filter |
| `Options.dfy` | optional values |

## Where the code departs from what it seems to promise

Each of these is a theorem, with the exact condition where there is one.

- `dnld_sent` is not cleared after the fourth timeout (kernel/net/wifi/main.c:789-792).  The
  next command can be sent without a report of the card if and only if the last transfer
  was reported done before (`SentExactlyIfReported`, `WedgedForGood`, and `WedgeIsReachable` for a
  run from the start).
  `reset_card` would help, but nothing in the repository assigns it.
- Outside full power, with all nodes waiting in the queue behind a command that needs
  EXIT_PS, no node is left for EXIT_PS (`StarvedForGood`, `CallersCanStarve`).
- `priv->seqnum++` is an unlocked load and store, and the value is read again after it: racing
  callers can share a number in two ways (`RacingCallersShareANumber`,
  `LostIncrementSharesANumber`).  The counter has counted all increments if and only if every
  store found it as it was loaded (`CountsExactlyIfWhole`).  When no wake confirmation has
  used up a number and every caller has read its own, the numbers differ if and only if that is
  so and some context increments the counter between any two reads
  (`NumbersDifferExactly`); the attribution theorems are about such runs.
- Within three calls of `lbs_execute_next_command` a waiting command leaves power-save mode
  if and only if no other caller puts EXIT_PS at the head of the queue before the third call
  looks there (`ThirdCallExactly`).  Callers that do so are in kernel/net/wifi/wext.c:750 and
  kernel/net/wifi/assoc.c:569; `ForeignExitPsDelays` is a run in which the third call submits
  the EXIT_PS of the driver instead.  An EXIT_PS that such a caller prepares at full power goes
  to the end of the queue and does no harm.
- `needtowakeup` is never set in any run: the states that set it are blocked before
  `lbs_execute_next_command`, as a comment there says (`EveryRunIsSafe`).
- A response that outruns the thread by one makes it skip a response, and by two reaches the
  `BUG_ON` (`PaceIsNeeded`, `UnpacedResponsesHitBug`).
- A response of size zero is accepted (kernel/net/wifi/if_sdio.c:214-237) and stored, but the
  thread takes its slot for empty.  Two responses that are both on time reach the
  `BUG_ON` if an empty one comes between them (`EmptyResponseHitsBug`).
- `nr_parsedchan` is not reset between runs (kernel/net/wifi/11d.c:187-196): `ExactLengths`,
  `RoundTrip`, `RoundTripFails`.
- The header comment of `sdio_align_size` promises one request where possible; for odd block
  sizes padding a padded size can grow it again (`IdempotentExactly`).
- The length test of `if_sdio_host_to_card` allows payloads of which the padded size no
  longer fits 16 bits (`GuardSuffices`).
- `lbs_find_best_ssid_in_list` keeps a strength of up to 256 in 8 bits (`StrongestExactly`,
  `StrongestFails`).
- `list_cut_position` with entry and head equal leaves `list` alone when head is empty; its
  comment says only that the list is not cut (`ListCutPosition`).

## Model

| member | source | states |
|---|---|---|
| `QueueMoves.StepMoves` | kernel/net/wifi/cmd.c:1122-1257 | Every section of every context moves the command nodes by one of nine legal moves; only a caller advances a preparation, only lbs_execute_next_command unlinks, and the worker thread alone stores or completes a command, with no other one in flight |
| `NodeConservation.StepConserves` | kernel/net/wifi/cmd.c:1635-1660 | One section keeps each of the ten nodes in exactly one place and keeps its ledger of queued, completed and returned |
| `NodeConservation.RunConserves` | kernel/net/wifi/cmd.c:1956-2047 | Over every run each node is in exactly one of free queue, pending queue, cur_cmd, just unlinked, being prepared, completed but owned by its waiter, or lost; it is completed once per queueing and returned once per completion |
| `NodeConservation.InitConserved` | kernel/net/wifi/main.c:1058-1071 | The state after lbs_init_adapter satisfies that invariant: ten nodes, all free |
| `NodeConservation.LostExactlyByLeaks` | kernel/net/wifi/cmd.c:1432-1443 | A node is lost for good in a run if and only if the run contains a SET_AFC/GET_AFC caller that jumps to its end or a zero-size command that lbs_queue_cmd ignores |
| `PowerSave.EveryRunIsSafe` | kernel/net/wifi/cmd.c:1843-1953 | Over every run: while the card sleeps, no command is in flight, nothing is on its way, the fifo is empty and the next response slot is empty; each hand-over happens with one command in flight, at full power or awake with RSSI or EXIT_PS; needtowakeup is never set; nr_retries is at most 3 |
| `PowerSave.StepSafe` | kernel/net/wifi/main.c:824-851 | One section of any context, in any interleaving, keeps the sleep and power-gating invariant |
| `PowerSave.SleepsUntilWoken` | kernel/net/wifi/main.c:1480-1513 | A sleeping card sleeps, and nothing is sent to it, over every run without an event or a response |
| `CommandOrder.CompletedInQueueOrder` | kernel/net/wifi/cmd.c:1140-1155 | Over every run from the start the completed commands, EXIT_PS left out, are a prefix of the queued ones, and none is completed twice |
| `CommandOrder.RunOrdered` | kernel/net/wifi/cmd.c:1691-1784 | The order invariant over runs from any ordered state: head insertions are EXIT_PS only, and the peeked node is still first in line among the others when it is unlinked |
| `CommandOrder.MoveInOrder` | kernel/net/wifi/main.c:794-803 | Every move, the head re-insertion of a timed-out command included, keeps the order |
| `SequenceNumbers.LiveNumbersDiffer` | kernel/net/wifi/cmd.c:1366-1368 | In every run in which no increment of the counter is lost and one comes between any two reads of it, two live commands with numbers among the last 65536 have different sequence numbers |
| `SequenceNumbers.AnswersItsOwnCommand` | kernel/net/wifi/cmdresp.c:379-418 | In such a run a response, however late, is accepted only while the very command it answers is in flight |
| `SequenceNumbers.RejectedChangesNothing` | kernel/net/wifi/cmdresp.c:379-418 | A response changes nothing but the place of the thread if no command is in flight, the numbers differ, the command codes differ and neither is ASSOCIATE, or the result is DEFER |
| `NodeConservation.OpenKeepsBuffer` | kernel/net/wifi/main.c:793-804 | A queued command is still in the same buffer with the same number over any run at whose end it is open and not queued anew, retries included |
| `SeqnumRace.CountsExactlyIfWhole` | kernel/net/wifi/cmd.c:1987-1988 | The increment is an unlocked load and store: while fewer than 65536 have been made, the counter has counted them all if and only if every store found the counter as its own context had loaded it |
| `SeqnumRace.DistinctExactlyIfSpaced` | kernel/net/wifi/cmd.c:1987-1991 | No two commands of a run read the counter after equally many increments if and only if the run has an increment between any two reads |
| `SeqnumRace.NumbersDifferExactlyIfSpaced` | kernel/net/wifi/cmd.c:1366-1368 | In a run that loses no increment the 16-bit numbers given are all different, while fewer than 65536 increments were made, if and only if one comes between any two reads |
| `SeqnumRace.NumbersDifferExactly` | kernel/net/wifi/cmd.c:1366-1368 | In every run, lost increments included, that has read as many numbers as it has made increments, fewer than 65536: the numbers given are all different if and only if no increment is lost and one comes between any two reads |
| `SeqnumRace.RacingCallersShareANumber` | kernel/net/wifi/cmd.c:1367-1368 | Two callers that both store before either reads get the same number, although no increment is lost |
| `SeqnumRace.LostIncrementSharesANumber` | kernel/net/wifi/cmd.c:1367-1368 | Two callers that both load before either stores get the same number, although there is an increment between their reads |
| `ResponseSlots.EachResponseTakenOnce` | kernel/net/wifi/if_sdio.c:231-239 | If each response that fits the buffers is not empty and arrives only after the previous one was taken: the BUG_ON does not fire, the slot being read is not overwritten, and responses are taken once, in order of arrival |
| `ResponseSlots.DeliveredExactlyIfPaced` | kernel/net/wifi/main.c:768-779 | That is so in every state of a run if and only if each response of the run comes non-empty and after the previous one was taken |
| `ResponseSlots.PaceIsNeeded` | kernel/net/wifi/if_sdio.c:214-239 | In a state where that holds, one more response of any size, refused and empty ones included, keeps it if and only if it is refused, or not empty and the previous one has been taken |
| `ResponseSlots.EmptyResponseHitsBug` | kernel/net/wifi/if_sdio.c:231-237 | A response of size zero is stored but never taken: between two responses that are both on time it leads to the BUG_ON |
| `ResponseSlots.UnpacedResponsesHitBug` | kernel/net/wifi/if_sdio.c:234 | Three responses that outrun the thread reach the BUG_ON |
| `RetryBudget.StepWork` | kernel/net/wifi/main.c:781-805 | Four units per open command less the tries used never grow except by queueing; each timeout and each accepted response takes at least one |
| `RetryBudget.TriesAreBounded` | kernel/net/wifi/cmdresp.c:420-427 | Over every run the timeouts and accepted responses are bounded by the work at the start, plus 3, plus four per command queued |
| `RetryBudget.DrainsInAnyOrder` | kernel/net/wifi/main.c:781-806 | In every interleaving without new commands, as many timeouts and accepted responses as there is work leave nothing queued, nothing unlinked, and nothing in flight that is not answered |
| `GivingUp.FacingRun` | kernel/net/wifi/main.c:793-804 | In every interleaving without answers and insertions at the head, commands queued behind included, the first three timeouts bring the same command back in the same buffer, before every other one |
| `GivingUp.FourthTimeoutGivesUp` | kernel/net/wifi/main.c:785-792 | In every such interleaving the timeout after those completes exactly that command with -ETIMEDOUT and resets nr_retries |
| `GivingUp.AllGivenUp` | kernel/net/wifi/main.c:781-806 | In every interleaving at full power without new commands and answers, as many timeouts as there is work complete every open command exactly once, each with -ETIMEDOUT, and leave nothing queued or in flight |
| `GivingUp.DrainedMeansAllDone` | kernel/net/wifi/cmd.c:1244-1257 | Whenever a run from the start leaves nothing queued or in flight, all commands queued so far, EXIT_PS left out, have been completed in the order of queueing |
| `DeadFirmware.DeadFirmwareDrains` | kernel/net/wifi/main.c:700-884 | Rounds of one timeout and one pass of the thread, as many as there are tries left, drain the queue as long as the card takes each transfer; and they are a run without new commands and answers that has a timeout for each try |
| `Wedge.DrainsFromStart` | kernel/net/wifi/main.c:700-884 | From the start there is a run to a state with ten open commands and 40 units of work, and on from there a run as AllGivenUp asks for: no new command, no answer, and as many timeouts as there is work |
| `Wedge.SentExactlyIfReported` | kernel/net/wifi/main.c:785-792 | At full power, after the fourth timeout in a row and with another command waiting: some run without lbs_host_to_card_done sends that command if and only if the last transfer was reported done before |
| `Wedge.WedgeIsReachable` | kernel/net/wifi/main.c:785-792 | A run from the start, of callers, timeouts and the thread, that ends wedged with nine commands waiting |
| `Wedge.WedgedForGood` | kernel/net/wifi/main.c:854-855 | A wedged driver never sends or completes another command, over every run without lbs_host_to_card_done |
| `WakeRuns.FirstCallExactly` | kernel/net/wifi/cmd.c:1726-1739 | Awake, with a command at the head that needs full power: in every quiet interleaving in which no other caller puts EXIT_PS at the head, the thread returns from lbs_execute_next_command with EXIT_PS first in the queue if and only if a node was free when the call decided |
| `WakeRuns.ThirdCallExactly` | kernel/net/wifi/cmd.c:1714-1784 | With a node free then, in every quiet interleaving with three calls of lbs_execute_next_command: the third one submits the waiting command, in its old buffer and at full power, if and only if no other caller puts EXIT_PS at the head before that call looks there; quiet means no sleep or disconnect event, no timeout and no failed answer of the command in flight |
| `WakeSchedule.QuietRunExists` | kernel/net/wifi/cmd.c:1714-1784 | There is such an interleaving, with three calls and without another EXIT_PS at the head: the thread alone, the card taking both commands and answering EXIT_PS; it ends with the waiting command in flight at full power |
| `WakeProgress.ForeignExitPsDelays` | kernel/net/wifi/wext.c:748-752 | If another context queues EXIT_PS between the first and the second call, the second call submits that one and the third the EXIT_PS of the driver, not the waiting command |
| `WakeProgress.StarvedForGood` | kernel/net/wifi/cmd.c:1736 | Outside full power, with no node free, being prepared, owned by a waiter, unlinked or in flight, and a command at the head that needs full power, nothing is ever sent again, over every run |
| `WakeProgress.CallersCanStarve` | kernel/net/wifi/cmd.c:1348-1357 | Callers of one ordinary command lead to that state from any state outside full power with nothing queued, in flight, prepared or owned |
| `SleepHandshake.SleepsExactlyIfUnhindered` | kernel/net/wifi/cmdresp.c:577-590 | From a PS_SLEEP event outside full power, in every interleaving up to the return to the event loop: the card sleeps if and only if nothing was in flight or on its way at the first check, nothing waited at either check, whatever arrived between them, and the card took the confirmation; otherwise the driver stays in PRE_SLEEP |
| `SleepHandshake.NoSleepAtFullPower` | kernel/net/wifi/cmdresp.c:580-585 | At full power the event changes only the place of the thread |
| `SleepHandshake.DelayedConfirmation` | kernel/net/wifi/main.c:824-844 | A confirmation still owed is tried again when nothing is in flight or on its way, with the same condition; without a connection the driver goes back to AWAKE |
| `SleepSchedule.SleepIsReachable` | kernel/net/wifi/cmd.c:1859-1866 | From the start, whatever the settings, there is a run to SLEEP: a connection with power save is configured, the driver asks for power save by itself, the card agrees, asks for sleep and is confirmed |
| `CommandAnswers.AnswerCompletes` | kernel/net/wifi/cmdresp.c:420-520 | In every interleaving from an answer (same number, same code with bit 15 or an association, result not 4) to the end of its processing: exactly the command in flight is completed, once, with the result of the answer; errors and answers to PS_MODE complete it in the same section, unless EXIT_PS has to be queued first |
| `CommandAnswers.AnswerStep` | kernel/net/wifi/cmdresp.c:432-476 | The section that looks at an answer resets timeout and retries, and leads to AWAKE for ENTER_PS, to FULL_POWER for EXIT_PS, and to CAM for an ENTER_PS refused in ad-hoc mode; it completes the command, calls for EXIT_PS, or leaves it to the callback |
| `CommandAnswers.AnswerWakesAgain` | kernel/net/wifi/cmdresp.c:456-469 | When ENTER_PS succeeds without a connection and a node is free: in every interleaving EXIT_PS is queued before the command is completed |
| `CommandAnswers.OthersAreDropped` | kernel/net/wifi/cmdresp.c:379-418 | A response that is no answer changes only the place of the thread |
| `IdleSleep.AsksForSleepExactly` | kernel/net/wifi/cmd.c:1785-1811 | In every interleaving with an empty queue: when the call returns, ENTER_PS has been queued if and only if a node was free, power-save mode is on, the card is at full power, a connection exists, and WPA is off or has keys; otherwise nothing has changed |
| `EventQueue.EachEventHandledOnce` | kernel/net/wifi/main.c:1480-1496 | In every run from the start the events handled, followed by those that wait, are the accepted ones in order of arrival; an event is refused exactly if 16 wait |
| `EventQueue.EventsInOrder` | kernel/net/wifi/main.c:808-819 | The same over runs from any state: no event is lost, repeated or overtaken |
| `EventEffects.AwakeWakesExactly` | kernel/net/wifi/cmdresp.c:597-618 | In every interleaving after PS_AWAKE outside full power: EXIT_PS is queued if and only if needtowakeup is set and a node was free |
| `EventEffects.HostAwakeEvent` | kernel/net/wifi/cmdresp.c:528-549 | HOST_AWAKE is answered by a wake confirmation with the next number, whatever other contexts do meanwhile |
| `EventEffects.DisconnectWakesExactly` | kernel/net/wifi/cmdresp.c:26-78 | In every interleaving after the loss of the link: EXIT_PS is queued if and only if there was a connection, the card is not at full power and a node was free |
| `EventEffects.OtherEvents` | kernel/net/wifi/cmdresp.c:558-560 | All other events, MESH_AUTO_STARTED aside, change only the place of the thread |
| `NodeOwners.CompletedGoesTo` | kernel/net/wifi/cmd.c:1244-1257 | In every run from the start the step that completes a command leaves the node to the waiter if and only if it was filled for __lbs_cmd, and puts it at the end of the free queue otherwise |
| `NodeOwners.OwnedHasItsCaller` | kernel/net/wifi/cmd.c:2009-2042 | In every run from the start a node that was completed and not returned was filled for __lbs_cmd |
| `CallerFates.FateExactly` | kernel/net/wifi/cmd.c:1432-1514 | In every interleaving, when a caller is done with its node: lost for SET_AFC, GET_AFC and size zero, last free node if the builder failed, and else at one end of the pending queue, filled as asked and with result 0 |
| `CallerFates.FreeNodesAreBlank` | kernel/net/wifi/cmd.c:1216-1229 | In every run from the start the buffer of a free node shows nothing of its last command |
| `Dispatch.HeadCommand` | kernel/net/wifi/cmd.c:1698-1784 | In every interleaving from the decision about the peeked command to the end of the call: it is in flight (full power, or awake with RSSI or EXIT_PS), completed with result 0 without being sent (another PS_MODE command while awake), waits for a new EXIT_PS (any other, if a node is free), or waits with nothing changed |
| `Dispatch.SubmitsAtFullPower` | kernel/net/wifi/main.c:853-855 | At full power, with the firmware ready, a command waiting and nothing in flight or on its way: in every interleaving a command is in flight when the thread has passed the call |
| `Dispatch.NothingSentBeforeReady` | kernel/net/wifi/main.c:821-822 | Over every run while the firmware is not ready no command is unlinked or sent |
| `Dispatch.FrameHandedOver` | kernel/net/wifi/main.c:863-883 | A waiting data frame is handed over if and only if nothing is on its way; it is forgotten also when the card does not take it |
| `Dispatch.OneTransferAtATime` | kernel/net/wifi/main.c:854-882 | In every run from the start a transfer other than a wake confirmation begins only when none is on its way |
| `Dispatch.TimeoutsNeedExpiries` | kernel/net/wifi/main.c:982-1001 | Over every run no more commands time out than the timer has expired for commands in flight |
| `Dispatch.ExpiryTimesOut` | kernel/net/wifi/main.c:990-996 | A timer that expires for a command in flight before the thread looks makes it time out, whatever other contexts do between |
| `LbsPrivate.Private.AimCommand` | kernel/net/wifi/cmd.c:1130-1148 | A zero-size command is dropped; EXIT_PS outside full power is aimed at the head, all others at the tail |
| `LbsPrivate.Private.IfSdioHandleCmd` | kernel/net/wifi/if_sdio.c:214-245 | An oversized response is refused; a stored one wakes a sleeping card |
| `LbsPrivate.Private.AcceptsResponse` | kernel/net/wifi/cmdresp.c:379-418 | A response is accepted exactly if a command is in flight, the numbers agree, the command codes match or one side is ASSOCIATE, and the result is not DEFER |
| `LbsPrivate.Private.ApplyCommandResponse` | kernel/net/wifi/cmdresp.c:420-476 | Timeout and retries are reset; ENTER_PS leads to AWAKE, EXIT_PS to FULL_POWER, a refused ENTER_PS in ad-hoc mode to CAM |
| `LbsPrivate.Private.ProcessCommandResponse` | kernel/net/wifi/cmdresp.c:366-504 | A response is dropped, completes the command, queues EXIT_PS first, or goes to the callback |
| `LbsPrivate.Private.HandleCommandTimeout` | kernel/net/wifi/main.c:782-805 | A timed-out command is requeued at the head three times and completed with -ETIMEDOUT the fourth |
| `LbsPrivate.Private.MacEventDisconnected` | kernel/net/wifi/cmdresp.c:26-78 | The first disconnect clears the connection and the pending frame, and wakes the card outside full power |
| `LbsPrivate.Private.ExecuteNextCommand` | kernel/net/wifi/cmd.c:1698-1784 | What happens to the peeked command in each power state |
| `LbsPrivate.Private.ConfirmSleepStep` | kernel/net/wifi/cmd.c:1926-1949 | The confirmation is sent only with nothing on its way, in flight or waiting to be read |
| `LbsPrivate.Private.Section` | kernel/net/wifi/main.c:700-884 | One section of any context, on the rings, arrays and fields of the driver, does exactly what the step of the model does |
| `LbsPrivate.Private.Continue` | kernel/net/wifi/main.c:700-884 | After any run, continued by any section, the fields satisfy safe sleep, the retry bound, and needtowakeup being clear |
| `CmdLists.CommandQueues.constructor` | kernel/net/wifi/cmd.c:1577-1580 | After the ten list_add_tail of lbs_allocate_cmd_buffer the free ring links the ten nodes in order and the pending ring is empty |
| `CmdLists.CommandQueues.TakeFree` | kernel/net/wifi/cmd.c:1647-1653 | The first node of the free ring is unlinked and found through its list member; none exactly if the ring is empty; the pending ring keeps its links |
| `CmdLists.CommandQueues.PutFree` | kernel/net/wifi/cmd.c:1229 | The node becomes the last entry of the free ring, and the pending ring keeps its links |
| `CmdLists.CommandQueues.Queue` | kernel/net/wifi/cmd.c:1150-1157 | The node becomes the first or the last entry of the pending ring, and the free ring keeps its links |
| `CmdLists.CommandQueues.Unqueue` | kernel/net/wifi/cmd.c:1781 | list_del takes the node out of the pending ring wherever it stands, and out of no other place |
| `CmdLists.CommandQueues.FirstPending` | kernel/net/wifi/cmd.c:1691-1694 | The head of the pending ring is found without being unlinked; none exactly if the ring is empty |
| `ListHead.ListAdd` | kernel/net/wifi/cmd.c:1155 | The entry is linked in front of all others, in both directions, writing three nodes only |
| `ListHead.ListAddTail` | kernel/net/wifi/cmd.c:1153 | The entry is linked behind all others, in both directions, writing three nodes only |
| `ListHead.ListDel` | kernel/net/wifi/cmd.c:1650 | The neighbours of the entry are linked to each other, and only they are written |
| `ListHead.OneListPerHead` | include/net/compat.h:557-560 | The links determine the entries and their order: a head has one list |
| `ListHead.LengthTests` | include/net/compat.h:557-560 | list_empty and list_is_singular hold exactly for lists of zero and one entries |
| `ListHead.CutPosition` | include/net/compat.h:809-819 | Cutting at xs[k] leaves xs[..k+1] and xs[k+1..], both well formed, and writes only the five nodes named |
| `ListHead.ListCutPosition` | include/net/compat.h:821-847 | The same with its special cases: cutting at the head empties list, unless head is empty, when list is not written at all |
| `ListHead.CompatListSplice` | include/net/compat.h:851-863 | The entries are linked between the last entry and the head |
| `ListHead.ListSpliceTail` | include/net/compat.h:865-875 | The entries are appended; list keeps pointing at them |
| `ListHead.ListSpliceTailInit` | include/net/compat.h:877-892 | The entries are appended and list is empty |
| `ListHead.CutThenSplice` | include/net/compat.h:809-892 | Cutting anywhere and splicing the rest behind restores the whole list under the new head and empties the old one |
| `DomainSpec.SupportedInterval` | kernel/net/wifi/11d.c:267-297 | The supported channels of a region are an interval of 1 to 14 |
| `DomainSpec.AcceptedExactly` | kernel/net/wifi/11d.c:352-360 | The running lastchan test accepts a sub-band exactly if it starts above every channel reached by an accepted one before it |
| `DomainSpec.ParsedExactly` | kernel/net/wifi/11d.c:305-405 | For any sub-bands the output increases strictly, consists exactly of the supported channels of the accepted sub-bands with their own power, and has at most 14 entries |
| `DomainSpec.RunsAreMaximal` | kernel/net/wifi/11d.c:173-196 | The generated sub-bands are the maximal runs of consecutive channels with equal power |
| `DomainSpec.ExactLengths` | kernel/net/wifi/11d.c:187-196 | The counts are the run lengths if and only if every run but the last is a single channel, as nr_parsedchan is not reset |
| `DomainRoundTrip.RoundTrip` | kernel/net/wifi/11d.c:153-212 | Reading the generated sub-bands in the same region gives the table back if and only if no run that comes after a longer run stops below the last supported channel |
| `DomainRoundTrip.LearnedRoundTrip` | kernel/net/wifi/11d.c:600-634 | The same for the domain written after parsing any country element |
| `DomainRoundTrip.RegionTableRoundTrip` | kernel/net/wifi/11d.c:220-258 | The table of every region is one sub-band and is always read back |
| `DomainRoundTrip.RoundTripFails` | kernel/net/wifi/11d.c:187-196 | A table of two runs that comes back with a channel too many |
| `DomainInfo.RegionSurvives` | kernel/net/wifi/11d.c:46-73 | The country code written for a region leads back to a region with the same table |
| `DomainInfo.UpperExactly` | kernel/net/wifi/11d.c:46-52 | Every letter before the first zero byte is put in upper case, and nothing else changes |
| `DomainInfo.FirstName` | kernel/net/wifi/11d.c:63-73 | The name written for a code is that of its first entry, and US for a code without one |
| `DomainInfo.CaseDoesNotMatter` | kernel/net/wifi/11d.c:46-61 | Every code of the table is found in any mixture of cases |
| `DomainInfo.UnknownIsUs` | kernel/net/wifi/11d.c:46-61 | A code that is not in the table stands for the US |
| `DomainInfo.LbsRegion2Code` | kernel/net/wifi/11d.c:46-61 | The code is upper-cased in place up to a zero byte and looked up, with US as the default |
| `DomainInfo.ParseSubband` | kernel/net/wifi/11d.c:364-390 | The inner loop appends exactly the supported channels of the sub-band and advances lastchan |
| `DomainInfo.ParseSubbands` | kernel/net/wifi/11d.c:352-396 | The outer loop produces the parsed list; the bound of 40 never ends it |
| `DomainInfo.ParseDomainInfo` | kernel/net/wifi/11d.c:305-405 | An element without country or sub-bands changes nothing; any other fills band, region, country and channels as specified |
| `DomainInfo.GenerateDomainInfo` | kernel/net/wifi/11d.c:153-212 | The loop writes one sub-band per run, with the count as the code computes it |
| `DomainInfo.GenerateParsedRegionChan` | kernel/net/wifi/11d.c:220-258 | The table of the region is copied with its country code; without a table nothing changes |
| `SdioAlign.NeverShrinks` | kernel/net/wifi/helper.c:45-125 | In 32-bit arithmetic the result covers the request if and only if no addition wraps; otherwise it is 0 |
| `SdioAlign.LeastTransfer` | kernel/net/wifi/helper.c:67-87 | With multi-block transfers and a block size divisible by 4 the result is the least multiple of 4 that covers the request and fits one transfer |
| `SdioAlign.IdempotentExactly` | kernel/net/wifi/helper.c:67-98 | For every 32-bit block size: padding twice is padding once, for all sizes where nothing wraps, if and only if the block size is even, 1, 3 or 7, or so large that two blocks do not fit 32 bits |
| `SdioAlign.IdempotentWithoutMultiBlock` | kernel/net/wifi/helper.c:99-118 | Without multi-block transfers padding is idempotent for every size and block size |
| `SdioAlign.SingleBlockSteps` | kernel/net/wifi/helper.c:99-124 | Without multi-block transfers the result is the request rounded to 4, or the request itself |
| `SdioPackets.FrameDecodes` | kernel/net/wifi/if_sdio.c:365-411 | The 4-byte header of a frame decodes to its own type and payload, followed by zeros only |
| `SdioPackets.ReceivedExactly` | kernel/net/wifi/if_sdio.c:365-411 | Any buffer: delivered if its length field is between 4 and the size and its type is known; a smaller length of a known type passes for a huge packet; all others are refused |
| `SdioPackets.FrameInjective` | kernel/net/wifi/if_sdio.c:795-806 | Equal frames carry equal packets |
| `SdioPackets.FitsExactly` | kernel/net/wifi/if_sdio.c:781-788 | For every block size divisible by 4: a padded frame keeps a 16-bit length if and only if the frame is not longer than the largest single transfer |
| `SdioPackets.GuardSuffices` | kernel/net/wifi/if_sdio.c:776-779 | The length test covers that for all payloads if and only if whole blocks fill all but the last 8 bytes of 65536 |
| `SdioPackets.FitsWithoutMultiBlock` | kernel/net/wifi/if_sdio.c:776-788 | Without multi-block transfers the length test is enough for every payload and block size |
| `SdioPackets.FillPacket` | kernel/net/wifi/if_sdio.c:795-806 | Header and payload written into the zeroed buffer make the frame |
| `SdioPackets.Card.Append` | kernel/net/wifi/if_sdio.c:810-817 | The walk to the last packet appends the new one |
| `SdioPackets.Card.HostToCard` | kernel/net/wifi/if_sdio.c:763-840 | Exactly the accepted packets are queued, as frames, at the end; dnld_sent tells their type |
| `SdioPackets.Card.WorkerRound` | kernel/net/wifi/if_sdio.c:428-462 | The oldest packet is taken; it is written or dropped |
| `SdioPackets.Card.HostToCardWorker` | kernel/net/wifi/if_sdio.c:415-465 | When the queue is empty the writes are the queued frames, less those dropped |
| `SdioPackets.KeptExactly` | kernel/net/wifi/if_sdio.c:454-461 | What is written is the good transfers, each once, in the order of queueing |
| `Firmware.ProgHelper` | kernel/net/wifi/if_sdio.c:505-543 | The 64-byte blocks gather to exactly the image, only the last one is empty, and a failed download gathers to a prefix |
| `Firmware.SendRequest` | kernel/net/wifi/if_sdio.c:659-678 | A request is sent in chunks of at most 512 bytes that continue the image |
| `Firmware.ProgReal` | kernel/net/wifi/if_sdio.c:618-681 | The chunks without padding are the image on success and a prefix otherwise; the end result follows the requests |
| `Firmware.RequestsExactly` | kernel/net/wifi/if_sdio.c:647-660 | The download completes if and only if every request before the end of the image is even and not zero |
| `CommonRates.IntersectionExactly` | kernel/net/wifi/assoc.c:1230-1247 | The result is the input up to its first zero, restricted to the card's rates with multiplicity, never longer, and a fixed point |
| `CommonRates.CommonInOrder` | kernel/net/wifi/assoc.c:1240-1246 | The result is in the order of the card's table |
| `CommonRates.CommonIsShort` | kernel/net/wifi/main.c:169-171 | As the card's rates are distinct the temporary buffer never holds more than the input |
| `CommonRates.CollectRates` | kernel/net/wifi/assoc.c:1240-1246 | The nested loops fill the temporary buffer with that result |
| `CommonRates.GetCommonRates` | kernel/net/wifi/assoc.c:1230-1270 | The buffer holds the result and zeros behind it in every case; -1 exactly if a fixed rate is not among them |
| `NetworkChoice.FindSsidInList` | kernel/net/wifi/assoc.c:380-437 | The first match when BSSID and mode are given, else the first of the strongest matches; none exactly if nothing matches |
| `NetworkChoice.FindBestSsidInList` | kernel/net/wifi/assoc.c:882-917 | The choice with the best strength kept in 8 bits |
| `NetworkChoice.CompatibleExactly` | kernel/net/wifi/assoc.c:174-315 | Without security settings a network suits exactly if it sends neither WPA nor RSN element, with WEP alone exactly if it encrypts, with WPA or WPA2 exactly if it offers one of those enabled, and never with WEP together with these |
| `NetworkChoice.ChosenExactly` | kernel/net/wifi/assoc.c:882-917 | For every list: none is chosen exactly if none suits; the chosen one is the first of the strongest after the last suitable one of strength 256, or that one itself if no suitable one follows |
| `NetworkChoice.ChosenIsUnique` | kernel/net/wifi/assoc.c:882-917 | No list has two networks like that, so that the choice is determined |
| `NetworkChoice.StrongestExactly` | kernel/net/wifi/assoc.c:885-912 | That choice is a strongest suitable network if and only if no suitable one has strength 256, or the last suitable one has |
| `NetworkChoice.StrongestFails` | kernel/net/wifi/assoc.c:893-898 | Two suitable networks, the first one of strength 256, of which the weaker one is chosen |
| `Multicast.MacInList` | kernel/net/wifi/main.c:573-583 | Exactly the first len addresses are searched |
| `Multicast.AddMcastAddrs` | kernel/net/wifi/main.c:586-616 | The addresses not yet listed are appended; -EOVERFLOW exactly if they do not fit in 32 |
| `Multicast.ListedExactly` | kernel/net/wifi/main.c:645-648 | The list has exactly the addresses of both devices, each once if the devices list none twice |
| `Multicast.Filter.SetMcastWorker` | kernel/net/wifi/main.c:618-673 | At most one of the three mode bits is set, the one asked for, and no other bit changes |
| `Multicast.EveryAddressPasses` | kernel/net/wifi/main.c:618-673 | Every address of a device that is up for multicast passes the programmed filter |
| `Multicast.FilterExactly` | kernel/net/wifi/main.c:618-673 | A multicast frame passes if and only if a device asks for everything or lists the address, or the list is too long; the card is promiscuous if and only if a device asks for that |
| `Multicast.OverflowExactly` | kernel/net/wifi/main.c:645-650 | With duplicate-free lists the filter falls back to all multicast if and only if the union exceeds 32 |

## Left out

- cur_cmd_retcode, and the wait at the end of lbs_prepare_and_send_command, which reads a node that may already serve another caller: no property here depends on the value returned to callers.
- An interrupted wait in __lbs_cmd (kernel/net/wifi/cmd.c:2033): it would free a node that is still queued or in flight; the wait is modelled as blocking until the command is completed.
- lbs_stop_card, lbs_remove_card, surpriseremoved, suspend and resume, kthread_should_stop: they end a run or break the ownership of nodes.
- When the thread sleeps (kernel/net/wifi/main.c:711-742): the model lets it run at any time, so the theorems hold for every such decision.
- The command timer: a timeout may be reported at any time while a command is in flight.
- List operations outside driver_lock (kernel/net/wifi/main.c:803, kernel/net/wifi/cmd.c:1754, 1767, 1781) are atomic in the model, and so is the call of lbs_complete_command in kernel/net/wifi/main.c:789, although the function that it calls to free the node asks for the lock (kernel/net/wifi/cmd.c:1213-1229).
- The bodies of command builders and response handlers: a builder fills a buffer or fails; a handler changes no modelled state.
- Connection, keys, power mode and the pending data frame are changed by other parts of the driver at any moment (label Configure); the settings that MESH_AUTO_STARTED changes (kernel/net/wifi/cmdresp.c:655-670) are changed that way as well.
- LbsPrivate.Private.Section: requires the partition of the nodes (Conserved), which RunConserves keeps over all runs from the start; the local pointers of callers and waiters are node numbers.
- SequenceNumbers.LiveNumbersDiffer: for runs that lose no increment and have one between any two reads; that both are needed is shown by LostIncrementSharesANumber and RacingCallersShareANumber.
- SeqnumRace.NumbersDifferExactly: for runs that have used up numbers without giving them to commands (wake confirmations, callers before their read) the condition is proved sufficient, and both halves of it needed when no increment is lost (NumbersDifferExactlyIfSpaced).
- WakeRuns.ThirdCallExactly: not for runs with a sleep or disconnect event, or a timeout or failed answer of the command in flight.
- Wedge.SentExactlyIfReported: at full power; in power-save mode the next command may have to wait for EXIT_PS as well.  That nothing is sent without a report, WedgedForGood shows for every power state.
- DeadFirmware.DeadFirmwareDrains: for a card that takes each transfer; the theorems about interleavings are AllGivenUp and DrainsInAnyOrder.
- SdioPackets.Card.HostToCard: requires a padded size that fits 16 bits; beyond that the original writes past its buffer, which the model does not represent.
- SdioAlign.IdempotentExactly: for sizes where no addition wraps; the driver asks for at most 2^16.
- SdioPackets.FitsExactly: for block sizes divisible by 4, such as the 32 that the driver sets (kernel/net/wifi/if_sdio.c:614).
- CommonRates.GetCommonRates: for buffers of at most 30 rates, the size of the temporary buffer; the callers use 14.  The loop conditions that read one element before testing the bound are written in the other order.
- DomainInfo.LbsRegion2Code: the table behind the kernel's toupper is not in the repository; it is taken to be that of ISO 8859-1.  The test for a zero byte (kernel/net/wifi/11d.c:50) comes before the bound in the original and behind it here.
- DomainInfo.ParseDomainInfo: reads as many sub-bands as the element announces, whatever lies there; for a length of 255 that is one more than the 83 that the structure has.
- Multicast.Filter.SetMcastWorker: addresses are numbers below 2^48 and the command buffer an array of 32 of them; locking of the device list and sending are not modelled.
- NetworkChoice.FindSsidInList: the oldest network, which it also tracks, is not used by it and is left out.
- ListHead.CutThenSplice: a client of the two operations, not a function of the repository.
- Register access, interrupts, waiting for the card to become ready, board power, module init and exit, sysfs, debugfs, ethtool, wireless events and logging.
- lbs_rate_to_fw_bitmap, lbs_set_basic_rate_flags, lbs_get_scan_type_11d, lbs_chan_2_freq and iwe_stream_add_*: each is a lookup or a copy of one line, with nothing to prove about it beyond its body.
