# Verified models of the USB network engine and the Moxa serial drivers

This project models the hardest parts of the kernel modules in this repository and proves what
they are meant to guarantee. Each part is a state machine or an in-place program with its own
modules.

**The USB network transfer engine** (`UsbNet*.dfy`, from `modules/qmi_wwan/usbnet.c`). Socket
buffers and URBs move between the receive, transmit, done and pause queues, the deferred anchor,
the host controller and the handlers that work on them.
`UsbNetModel` is a machine whose events are the sections a handler runs between taking and
releasing a lock. Any enabled event may come next, so its runs are all the interleavings of
completions, tasklet, work item, transmit entry, unlinkers, suspend and resume.
`UsbNetInvariant` is its inductive invariant. `UsbNetLocality` shows that an event that touches one
thread, one buffer and one URB, which it has to itself, keeps the invariant once the touched three
are in order; `UsbNetFocus`, `UsbNetSteps` and `UsbNetSafety` apply that to every event.
`UsbNetTheorems` draws the conclusions. `UsbNetDriver` is the driver as a class with one method a
handler, updating the queues in place: each atomic section of a method is one event of the machine
(`UsbNetTrace`), so all conclusions hold of it. `UsbNetLimits` has runs that show where an
interleaving does what whole handlers never do; `UsbNetQuiet` and `UsbNetBound` say exactly when it
can.

**The transmit side of the serial drivers** (`TxRing`, `TxArm`, `TxPort`, from
`modules/mxser/mxser.c` and `mxupcie.c`). `TxRing` is the transmit page shared by a writer that
sizes its copy and copies byte by byte without the lock, and an interrupt that drains it. `TxArm` is
the machine of the THRI bit over all entry points that touch it. `TxPort` is both in place, handlers
whole, with the byte loop of mxser and the chunked copy of mxupcie.

**Baud rates** (`LinearBaud`, `LinearBaudChip`, `MustBaud`), **the banked registers of the MUST
chip** (`MustChip`), **opening, closing and hanging up a port** (`PortCount`, `OpenPort`), and **the
interrupt's scan of a board** (`IrqScan`).

**The header fixup of qmi_wwan** and the address rule it rests on (`QmiWwan`), its wakeup counter
(`QmiPower`), and **the magic close of the watchdog** (`Watchdog`).

`Basics` and `Division` hold the shared vocabulary and arithmetic.

## What turned out not to hold

Each of these has an input or run that shows it, and a theorem that says exactly when it happens.

- A read can be submitted while the device is asleep: `rx_submit` tests the asleep flag under the
  lock of rxq, and suspend sets it under the lock of txq (`UsbNetLimits.ReadWhileAsleep`). No run
  before the end of resume submits one exactly when nobody is inside rx_submit's locked section with
  its tests passed (`UsbNetQuiet.NoReadIffQuiet`), and at most one slips into a suspension
  (`UsbNetQuiet.AtMostOneRead`). No packet ever does (`UsbNetTheorems.TransmitsAwake`).
- Resume requeues a deferred packet without writing its state. A packet whose control block came
  from the stack reading `unlink_start` then passes for unlinked
  (`UsbNetLimits.ResumedPassesForUnlinked`); `UsbNetTheorems.UnlinkExit` is the exact condition.
- The bound `rx_qlen + 1` on the receive queue holds when handlers run whole
  (`UsbNetDriver.UsbNet`). Interleaved, the queue outgrows every bound
  (`UsbNetLimits.ReadsOutgrowAnyBound`): what bounds it is the reads queued together with the URBs
  that completions carry, exactly (`UsbNetBound.BoundedIffReads`). That run has as many completions
  of the endpoint under way at once as it leaves reads queued. A host controller that completes an
  endpoint's URBs one after the other allows fewer, and with at most k such URBs in hand at a time the
  queue stays below `rx_qlen + k` (`UsbNetBound.FewCarriersStayBounded`).
- The writer's size is computed by a macro that reads xmit_cnt and xmit_head again and again. Bytes
  sent in between can make it exceed the page or the caller's buffer, from exactly the states that
  `TxRing.OverrunIffUnsafe` names; a flush in between can also make it a whole page, one byte more than
  the queue holds, from exactly those that `TxRing.OverrunIffExposed` names.
- A flush inside a writer's copy corrupts the ring (`TxRing.FlushInsideCopyRepeats`), unless the
  start of the page comes to hold the bytes anyway (`TxRing.FlushInsideCopy`). Only a copy that
  began there is safe whatever the page holds (`TxRing.FlushHarmlessIffAtStart`).
- `set_termios` clearing IXON between `stop_tty`'s flag and the driver's stop can get the transmitter
  stuck, and no other step can (`TxArm.StuckIffRace`).
- Below 252 baud `set_linear_baud` skips its encoding, and the chip divides by 255 * 16 instead of
  the 255 * 46 found (`LinearBaud.GuardPassesFrom252`, `LinearBaudChip.Puart.SetLinearBaud`).
- Below 15 baud the divisor of `mxser_set_baud` does not fit its two bytes
  (`MustBaud.DivisorFitsFrom15`).
- A hangup while an open waits for its page, and nothing else, leaves a port initialised after its
  last close (`PortCount.HangupInOpenLeavesItInitialized`, `PortCount.OrphanedIffInterrupted`).
- The wait for a close under way is compiled out of `mxser_block_til_ready`. An open that succeeds
  while a last close still drains, and nothing else, has the port shut down under it
  (`PortCount.OpenInCloseRun`, `PortCount.DiesIffOpenedInClose`). An open that waits for the carrier
  does so only if another close cleared ASYNC_CLOSING first (`PortCount.FlagKeepsWaitersOut`,
  `PortCount.WaiterOpensInClose`).
- Overlapping calls of `qmi_wwan_manage_power` can leave the wakeup flag wrong
  (`QmiPower.OverlapLeavesItWrong`, `QmiPower.WrongIffOverlap`): exactly when an odd number of
  crossings of zero followed the one whose write came last (`QmiPower.FlagRightIffEven`).

## What is taken to exclude what

- `PortCount`, `OpenPort`: open, close and hangup exclude each other but for the places where they
  sleep, which are the allocation of the page, the wait for the carrier, and a close's drain and close
  delay. So it is under a lock that a sleeping task gives up; one that is kept while sleeping allows
  fewer runs. The driver relies on such a lock: without its own, `mxser_open`,
  `mxser_block_til_ready` and `mxser_hangup` change info->count, `mxser_shutdown` tests
  ASYNC_INITIALIZED and `mxser_startup` sets it. Both runs above, the hangup in an open and the open in
  a close, need no more than the sleeping places.
- `TxRing`: one writer at a time, as under the tty core's write lock; flushes and the interrupt come at
  any time.
- `Watchdog`: calls on the device come one at a time.

## Model

| member | source | states |
|---|---|---|
| UsbNetSafety.StepKeepsInv | modules/qmi_wwan/usbnet.c:423-656 | Every event of every handler, in any interleaving, keeps the ownership, reference, lock, order and unlink invariant |
| UsbNetSafety.ReachableInv | modules/qmi_wwan/usbnet.c:423-656 | That invariant holds in every state any run reaches |
| UsbNetTheorems.SingleOwner | modules/qmi_wwan/usbnet.c:423-441 | In every reachable state a buffer is in at most one place (a queue, the anchor, one handler's hands, freed) and in no queue twice |
| UsbNetTheorems.NothingLost | modules/qmi_wwan/usbnet.c:1430-1452 | Every buffer that exists is in one of those places or with the network stack |
| UsbNetTheorems.UrbSingleOwner | modules/qmi_wwan/usbnet.c:643-663 | In every reachable state each URB ever allocated is in exactly one place: submitted for reading or for writing, in one handler's hands, on the anchor, idle in one buffer's entry, or freed |
| UsbNetTheorems.FreedOnce | modules/qmi_wwan/usbnet.c:696-739 | No buffer or URB is freed twice; a URB anybody still uses has its memory, and one that was freed yet is in use is held by an unlinker's own reference |
| UsbNetTheorems.CompletionFindsItsBuffer | modules/qmi_wwan/usbnet.c:567-656 | Every URB at the host controller belongs to a buffer on rxq or txq whose entry names it, and a completion still finds that buffer there when it unlinks it |
| UsbNetTheorems.NoBogusState | modules/qmi_wwan/usbnet.c:1436-1452 | The tasklet only ever finds rx_done, tx_done or rx_cleanup, never loses a buffer, and in tx_done the URB it looks into is there and allocated |
| UsbNetTheorems.TransmitOrder | modules/qmi_wwan/usbnet.c:1343-1381 | What reached the device is a subsequence of what was accepted, in order, across any suspends; the rest either failed in resume or waits, newest, on the anchor, which is empty while awake |
| UsbNetTheorems.TransmitsAwake | modules/qmi_wwan/usbnet.c:1350-1364 | Only a transmit section that finds the device awake, or resume's drain, ever hands a packet to the host |
| UsbNetTheorems.ReadsWhenClear | modules/qmi_wwan/usbnet.c:494-523 | Only a submission whose tests of the flags all passed adds a read to the host or to rxq |
| UsbNetTheorems.PowerBalanced | modules/qmi_wwan/usbnet.c:1343-1381 | Outstanding power references equal transmissions at the host plus deferred ones, and are zero exactly when there are none |
| UsbNetTheorems.PowerAtRest | modules/qmi_wwan/usbnet.c:1343-1381 | With no completion under way the references are as many as the packets on txq and the anchor |
| UsbNetTheorems.AutosuspendIsIdle | modules/qmi_wwan/usbnet.c:1759-1769 | An autosuspend succeeds exactly when txq is empty, and then no transmission is at the host and no reference is held |
| UsbNetTheorems.UnlinkIsPrecise | modules/qmi_wwan/usbnet.c:714-735 | No entry is unlinked twice, and an unlinker's pinned URB is alive and still belongs to the entry it marked, so it cancels no other transfer |
| UsbNetTheorems.PickIsNew | modules/qmi_wwan/usbnet.c:707-712 | The next entry unlink_urbs picks was never picked before |
| UsbNetTheorems.UnlinkExit | modules/qmi_wwan/usbnet.c:706-713 | unlink_urbs finds nothing more exactly when every entry was unlinked, but for packets that resume requeued with a stale unlink_start |
| UsbNetTheorems.SweptStaysQuiet | modules/qmi_wwan/usbnet.c:1755-1785 | After suspend's sweep every read left is unlinked and no event but the end of resume submits a read |
| UsbNetQuiet.AddsReadExactly | modules/qmi_wwan/usbnet.c:494-523 | In every reachable state a step hands the host a read exactly if it is a locked submission whose tests had passed and that the host accepts |
| UsbNetQuiet.QuietStays | modules/qmi_wwan/usbnet.c:494-500 | Asleep with nobody past the tests, every event but the end of resume keeps it so and adds no read |
| UsbNetQuiet.LoudSubmits | modules/qmi_wwan/usbnet.c:494-502 | Asleep with somebody past the tests, a submission is enabled that adds a read |
| UsbNetQuiet.NoReadIffQuiet | modules/qmi_wwan/usbnet.c:494-500 | No run before the end of resume submits a read exactly when nobody is in the locked section with its tests passed |
| UsbNetQuiet.AtMostOneRead | modules/qmi_wwan/usbnet.c:1755-1785 | From the moment the device is asleep to the end of resume at most one read is submitted, over any run |
| UsbNetQuiet.SweptIsQuiet | modules/qmi_wwan/usbnet.c:1770-1776 | The end of suspend's sweep is past the last moment at which one could be |
| UsbNetLimits.ResumedPassesForUnlinked | modules/qmi_wwan/usbnet.c:1799-1813 | A run after which a packet in flight counts as unlinked though it never was |
| UsbNetLimits.ReadWhileAsleep | modules/qmi_wwan/usbnet.c:494-500 | A run in which a read is submitted while the device is asleep |
| UsbNetLimits.ReadsOutgrowAnyBound | modules/qmi_wwan/usbnet.c:643-654 | For every n a run, with n completions under way at once, after which rxq holds n reads, though new reads were only ever submitted to an empty queue |
| UsbNetBound.StepKeepsReads | modules/qmi_wwan/usbnet.c:643-654 | No event but the allocation of a read's URB raises the reads queued plus the URBs that will be resubmitted |
| UsbNetBound.BoundedIffReads | modules/qmi_wwan/usbnet.c:643-654 | rxq keeps within a bound over every run without a new read exactly when those together are within it |
| UsbNetBound.CarefulStaysBounded | modules/qmi_wwan/usbnet.c:1410-1416 | If new reads were begun only while those together are below the limit, rxq would keep within it in every interleaving |
| UsbNetBound.FewCarriersStayBounded | modules/qmi_wwan/usbnet.c:1410-1416 | With new reads begun only while rxq is below the limit and at most k threads carrying a read's URB at a time, rxq stays below the limit plus k in every interleaving |
| UsbNetDriver.UsbNet.RxSubmit | modules/qmi_wwan/usbnet.c:464-532 | Succeeds exactly under the flag, allocation and submission conditions, then rxq gains the new buffer at its end; a stall sets RX_HALT and a lack of memory RX_MEMORY, and nothing else does; otherwise the URB, and the buffer if there was one, are freed; a run of the machine |
| UsbNetDriver.UsbNet.DeferRead | modules/qmi_wwan/usbnet.c:423-441 | Exchanges the entry's state, tells the old one, and moves the buffer from its list to the end of done |
| UsbNetDriver.UsbNet.CountRead | modules/qmi_wwan/usbnet.c:631-641 | One read updates the counters as the window rule below says, and reports more than 20 errors |
| UsbNetDriver.CountIsWindow | modules/qmi_wwan/usbnet.c:631-641 | Over any run of reads the error count is that of the current window of 31, of which the last starts the next |
| UsbNetDriver.UsbNet.RxComplete | modules/qmi_wwan/usbnet.c:567-656 | The read moves to done as rx_done exactly if it was good, keeping its URB exactly if its status blocks; the counters, RX_KILL, RX_HALT and RX_MEMORY end as stated; exactly the stated conditions resubmit the URB, else it is freed unless the entry keeps it; all other entries stay, and the queue bound is kept |
| UsbNetDriver.UsbNet.RxAllocSubmit | modules/qmi_wwan/usbnet.c:1404-1424 | Whatever each turn meets, one read is added a turn until ten are, rxq is full, or a turn fails, and that failure sets RX_HALT or RX_MEMORY as it calls for; older entries stay, and the bound on reads plus the pending RX_MEMORY one is kept |
| UsbNetDriver.UsbNet.KeventRxMemory | modules/qmi_wwan/usbnet.c:1111-1134 | RX_MEMORY is cleared unless its URB cannot be allocated, and one read is submitted exactly if it was set and everything on the way succeeds; a new failure sets the flags again; keeps the bound |
| UsbNetDriver.UsbNet.BhOne | modules/qmi_wwan/usbnet.c:1436-1452 | One buffer is taken off done and delivered, put by, sent round again cleaned up, or freed with the URB its entry names, as its state and rx_process say; the work left strictly decreases even if it goes round once |
| UsbNetDriver.UsbNet.EmptyDone | modules/qmi_wwan/usbnet.c:1436-1452 | Received buffers are delivered, or put by while paused, in their order; all others and those sent round again are freed, each with the URB its entry names; no other queue is touched |
| UsbNetDriver.UsbNet.Bh | modules/qmi_wwan/usbnet.c:1430-1480 | Does that to the done queue, clears RX_KILL, and then, if the device is ready, not halted and rxq not full, tops rxq up as rx_alloc_submit does, else leaves it |
| UsbNetDriver.UsbNet.EmptyPause | modules/qmi_wwan/usbnet.c:667-689 | Empties the pause queue: resuming delivers its buffers in order, purging frees them in order; touches nothing else |
| UsbNetDriver.UsbNet.StartXmit | modules/qmi_wwan/usbnet.c:1343-1399 | A packet is dropped, deferred or queued exactly as the power call, the asleep flag and the submission say; a reference is taken exactly if it is kept, and packet and URB are freed exactly if not |
| UsbNetDriver.UsbNet.TxComplete | modules/qmi_wwan/usbnet.c:1169-1214 | The packet moves from txq to done as tx_done and its reference is dropped |
| UsbNetDriver.UsbNet.UnlinkUrbs | modules/qmi_wwan/usbnet.c:696-739 | While completions resubmit nothing (asleep or halted) it terminates although they run while the lock is dropped, leaves nothing unmarked on the queue, and unlinks, once each, only entries that were unmarked before, among them all that are still queued; marks are all it changes, and only on its own queue |
| UsbNetDriver.UsbNet.Suspend | modules/qmi_wwan/usbnet.c:1755-1785 | Refused exactly for an autosuspend with packets queued, then nothing changed; else, if it is the first, asleep with every transmission and every read left on its queue marked, and those that were unmarked before unlinked |
| UsbNetDriver.UsbNet.Drain | modules/qmi_wwan/usbnet.c:1800-1813 | Whatever usb_submit_urb answers for each URB, exactly the packets whose URBs it accepts are queued, in order; exactly the others are freed, with their URBs, and drop one reference each |
| UsbNetDriver.UsbNet.Resume | modules/qmi_wwan/usbnet.c:1788-1838 | The last resume does that to the anchor, wakes the device, and tops rxq up exactly if it is open, ready and not halted; an earlier one changes only the count |
| UsbNetDriver.AllDeferredSent | modules/qmi_wwan/usbnet.c:1803-1813 | If all are accepted all deferred packets are queued and none fails; in any case each is queued or failed exactly by its own outcome, and the two add up |
| UsbNetDriver.AtRest | modules/qmi_wwan/usbnet.c:1343-1381 | Between handlers the driver's reference count is the length of txq plus that of the anchor |
| TxRing.RingIsFifo | modules/mxser/mxser.c:1884-1911 | Over every interleaving with the interrupt and with flushes outside the copy itself whose sizes keep in bounds, head is (tail + cnt) mod SIZE, cnt is below SIZE, and the bytes accepted are those gone followed by those queued, each sent or flushed |
| TxRing.SizeFitsRoom | modules/mxser/mxser.c:1885-1886 | However the interrupt falls between the macro's readings, without a flush the size never exceeds the room in the queue |
| TxRing.SizeSafeIff | modules/mxser/mxser.c:1885-1886 | No readings make the size exceed the page's end or what is left exactly when the queue is empty, or the room reaches round the page's end, or less than the room is asked for, or a whole page is with head at its start |
| TxRing.OverrunIffUnsafe | modules/mxser/mxser.c:1884-1886 | A sizing that starts in a state of a run can go out of bounds, by readings and sent bytes, exactly when that condition fails |
| TxRing.OverrunIffExposed | modules/mxser/mxser.c:1884-1886 | With flushes between the readings too, exactly when head is not at the start and what is asked for reaches the page's end or the room, or head is there and it reaches the room of a queue that is not empty but not a whole page's worth |
| TxRing.NothingLostWithoutFlush | modules/mxser/mxser.c:3453-3464 | Without a flush the bytes sent followed by those queued are exactly the bytes accepted |
| TxRing.FlushInsideCopy | modules/mxser/mxser.c:2032-2034 | A flush after any number of a copy's bytes leaves the queue right exactly when the page's start comes to hold the bytes accepted |
| TxRing.FlushAtPageStart | modules/mxser/mxser.c:2032-2034 | It does when the copy began at the page's start |
| TxRing.FlushHarmlessIffAtStart | modules/mxser/mxser.c:2032-2034 | Whatever bytes the page holds it does, exactly when the copy began there |
| TxRing.FlushInsideCopyRepeats | modules/mxser/mxser.c:2032-2034 | A run in which such a flush makes the chip send an old byte again |
| TxArm.NeverStuck | modules/mxser/mxser.c:1913-1922 | While bytes wait and nothing holds them back, THRI is set or a thread is about to set it; with no thread under way THRI is set |
| TxArm.StuckIffRace | modules/mxser/mxser.c:2802-2816 | After a step of any race-free run, the port can get stuck before another race exactly when the step is set_termios clearing IXON inside a stop |
| TxArm.PendingArms | modules/mxser/mxser.c:1958-1967 | A thread counted as about to arm goes on, arms, or ends because there was nothing to send or sending was held back |
| TxArm.RaceSticks | modules/mxser/mxser.c:2802-2816 | From every state in which the locks are in order, whatever other threads are at, such a race step has a continuation to bytes waiting, nothing holding them back, no thread under way and THRI clear |
| TxPort.Port.Write | modules/mxser/mxser.c:1872-1928 | Accepts exactly the smaller of the length and the room, appends those bytes, in at most two copies, and arms the interrupt if it may |
| TxPort.Port.PutChar | modules/mxser/mxser.c:1930-1971 | Appends the byte and returns 1 exactly when there is room |
| TxPort.Port.WriteRoom | modules/mxser/mxser.c:1996-2009 | Is the page size less one less what waits |
| TxPort.Port.FlushChars | modules/mxser/mxser.c:1975-1994 | Arms the interrupt exactly when bytes wait and nothing holds them back |
| TxPort.Port.FlushBuffer | modules/mxser/mxser.c:2024-2034 | Leaves the queue empty and the port in order |
| TxPort.Port.TransmitChars | modules/mxser/mxser.c:3408-3489 | Sends a pending flow-control character, or a FIFO's worth of the oldest bytes but at least one, or disarms when held back; the chip gets exactly those bytes, and the counter counts what was sent |
| TxPort.Port.TransmitChunk | modules/mxser/mxupcie.c:2422-2468 | Sends the oldest bytes in one copy, never more than the chip's room, and stops short only at the end of data, of room or of the page |
| TxPort.Port.CheckModemStatus | modules/mxser/mxser.c:3518-3541 | hw_stopped follows CTS, and THRI follows it where the driver obeys CTS itself |
| TxPort.Port.Stop | modules/mxser/mxser.c:2825-2836 | Disarms a stopped port |
| TxPort.Port.Start | modules/mxser/mxser.c:2838-2852 | Arms when bytes wait |
| TxPort.Port.SetTermios | modules/mxser/mxser.c:2776-2816 | Whatever flags change, stopped and hw_stopped end as the new flags and CTS require, and the port is armed where it must be |
| TxPort.Port.StopRx | modules/mxser/mxser.c:2662-2696 | Under IXOFF puts a stop character in line and arms, or on a MUST chip masks its receive interrupts, and under CRTSCTS drops RTS |
| TxPort.Port.StartRx | modules/mxser/mxser.c:2698-2735 | Takes back a character in line, or else puts a start character there or unmasks the MUST chip, and under CRTSCTS raises RTS |
| LinearBaud.Search | modules/mxser/mxupcie.c:2986-3012 | Finds, for every speed from 1 to 921600, the first in scan order of the pairs nearest the speed, and its error |
| LinearBaud.Scan | modules/mxser/mxupcie.c:2993-3012 | The two loops find the first candidate of least score, whatever the score |
| LinearBaud.RateIsQuotient | modules/mxser/mxupcie.c:2994-2998 | The rate of a divisor and a sequence is the clock divided by their product, rounded down |
| LinearBaud.WithinFourPercent | modules/mxser/mxupcie.c:2992-3013 | For every speed from 1257 to 921600 the best error is at most a twenty-fifth of the speed |
| LinearBaud.GuardPassesFrom252 | modules/mxser/mxupcie.c:3013 | The guard passes exactly for speeds from 252 up, and below 1257 the best error is 1257 less the speed |
| LinearBaudChip.Encode | modules/mxser/mxupcie.c:3018-3027 | For every sequence from 4 to 23 the search finds SCR and N in range with 16 - SCR + N equal to it |
| LinearBaudChip.Puart.SetLinearBaud | modules/mxser/mxupcie.c:2978-3036 | From 252 baud the registers give back the best pair's divisor and sequence, within 4% from 1257 up; below they give 255 and 16 |
| LinearBaudChip.Puart.WriteDivScr | modules/mxser/mxupcie.c:2960-2976 | SCR and both divisor bytes are written where they are meant to go, and SFR, LCR and the registers sharing their offsets are as before |
| MustBaud.Port.SetBaud | modules/mxser/mxser.c:4084-4161 | Too high a speed changes nothing; otherwise realbaud and the timeout are set and DTR tells whether there is a divisor. If there is and it fits, DLL, DLM and ENUM hold it: base / speed rounded down, 1 for a speed of the table above the base, base / 134.5 for 134, with no eighths for the table and else the nearest eighth in all. Nothing else changes but EFR's bank bits |
| MustBaud.QuotIsDivisor | modules/mxser/mxser.c:4107-4122 | The divisor of every speed by inequalities, and there is one exactly for 134 with a base of 135 or more, another speed of the table but 0, or any speed in range up to the base |
| MustBaud.TimeoutDrainsFifo | modules/mxser/mxser.c:4125-4126 | Where the work of a full FIFO fits 32 bits, the timeout less its slop is the whole jiffies it takes at the base rate |
| MustBaud.WorkOfCharacter | modules/mxser/mxser.c:4125-4126 | The work is nothing for an empty FIFO and grows by ten bits of the divisor for each character |
| MustBaud.NearestEighth | modules/mxser/mxser.c:4149-4157 | Divisor and eighths together are a nearest eighth to the exact divisor; the eighths are at most 8, and 8 exactly when the remainder is within a sixteenth of the next divisor |
| MustBaud.DivisorBytes | modules/mxser/mxser.c:4144-4146 | The two bytes hold the divisor exactly when it is below 65536 |
| MustBaud.DivisorFitsFrom15 | modules/mxser/mxser.c:4144-4146 | With the base rate 921600 the divisor of a speed in range is below 65536 exactly from 15 baud up |
| MustChip.Chip.SetBanked | modules/mxser/mxser.h:154-164 | A banked write changes its own register and EFR's bank bits only, and LCR is put back |
| MustChip.Chip.SetFifo | modules/mxser/mxser.h:251-266 | The four thresholds of bank 1 are set and nothing else but EFR's bank bits changes |
| MustChip.Chip.GetBanked | modules/mxser/mxser.h:280-290 | Reads the banked register and changes nothing but EFR's bank bits |
| MustChip.Chip.ChangeEfr | modules/mxser/mxser.h:313-364 | Changes just the EFR bits named |
| MustChip.Chip.ChangeSpeed | modules/mxser/mxser.c:4052-4065 | EFR's low nibble is RX1 for IXON and TX1 for IXOFF, the enhance bit is kept, thresholds and XON1/XOFF1 are as given, all else is unchanged |
| MustChip.BankedIsPrecise | modules/mxser/mxser.h:154-249 | A banked write leaves each of the fifteen other hidden registers alone, whatever the bank |
| MustChip.FlowMacrosCompose | modules/mxser/mxser.h:313-364 | The two directions' macros commute, the last of one direction counts, and disabling reception later equals never having enabled it |
| PortCount.CountIsLiveHandles | modules/mxser/mxser.c:3623-3675 | Over every run info->count is the number of handles neither hung up nor waiting nor closed, blocked_open the number waiting, and no bad count is ever corrected |
| PortCount.PageIsThePorts | modules/mxser/mxser.c:3684-3706 | Over every run the pages out are the port's one, if it has it, and an initialised port has it |
| PortCount.CarrierLetsIn | modules/mxser/mxser.c:3653-3657 | Once no close is under way, a turn of the waiting loop that sees a carrier opens unless the handle is hung up or the port shut down |
| PortCount.LastCloseShutsDown | modules/mxser/mxser.c:1729-1767 | Once every handle is closed the port is shut down, if no hangup fell into an open's allocation |
| PortCount.InterruptOrphans | modules/mxser/mxser.c:2929-2940 | From every state, a hangup that falls into an open's allocation has a continuation to an initialised port with no handle |
| PortCount.OrphanedIffInterrupted | modules/mxser/mxser.c:2929-2940 | In any run so far without one, a step can be what leaves the port initialised after the last close exactly when it is such a hangup |
| PortCount.HangupInOpenLeavesItInitialized | modules/mxser/mxser.c:2929-2940 | A run where one did, ending with no handle and an initialised port |
| PortCount.DiesIffOpenedInClose | modules/mxser/mxser.c:1767-1862 | A handle that opened a working port and was not hung up keeps it over every run in which no open succeeds while a last close still drains; after a step of such a run it can lose it before another such open exactly when the step is one |
| PortCount.OpenInCloseRun | modules/mxser/mxser.c:3551-3570 | A run to an open handle, counted and not hung up, on a port that was shut down |
| PortCount.FlagKeepsWaitersOut | modules/mxser/mxser.c:3653-3657 | While no close clears ASYNC_CLOSING under another, the flag tells exactly whether a close is under way, and of the opens only one that does not wait succeeds in a last close |
| PortCount.WaiterOpensInClose | modules/mxser/mxser.c:1860-1862 | A run in which one close cleared the flag and an open that waited for the carrier succeeded under another |
| OpenPort.Port.CloseStart | modules/mxser/mxser.c:1729-1767 | Drops the count by one unless hung up, never through a correction, goes on to drain exactly when that leaves none, and is the machine's step |
| OpenPort.Port.CloseFinish | modules/mxser/mxser.c:1820-1862 | Leaves the port shut down, waits for the close delay exactly when an open waits, and is the machine's step |
| OpenPort.Port.StartPort | modules/mxser/mxser.c:3678-3787 | Success, ASYNC_INITIALIZED and the page for every path, by what it meets and finds; count and handles stay |
| OpenPort.Port.JoinWaiting | modules/mxser/mxser.c:3584-3626 | Gives up its place in the count unless hung up, and is counted as waiting |
| OpenPort.Port.TakeTurn | modules/mxser/mxser.c:3628-3675 | Leaves the loop exactly when hung up, the port is shut down, a carrier is there and no close holds the port, or a signal is pending, and opens only on an initialised port |
| OpenPort.Port.HangupAll | modules/mxser/mxser.c:2929-2940 | Shuts the port down, marks every handle and leaves none counted |
| OpenPort.Port.MxserOpen | modules/mxser/mxser.c:1627-1699 | For whatever it meets and any steps of others wherever it sleeps: it fails without a page or a working port, opens at once if it need not wait, and else waits through exactly the turns that find nothing to end the wait; the last turn decides. The handle is then open or failed as it says and counted unless hung up, by a run of the machine |
| OpenPort.AfterIsRun | modules/mxser/mxser.c:3603-3664 | Every run of the others is among the steps that may be taken where it sleeps |
| OpenPort.Port.MxserClose | modules/mxser/mxser.c:1709-1862 | With any steps of others wherever it sleeps, a close leaves its handle gone; it is the last exactly when the count was one, then it passes through the stated state with the port shut down, and ends as that and the close delay leave it |
| IrqScan.Pass | modules/mxser/mxser.c:3018-3025 | One pass serves each port that wants service once, lowest first, and ends early only when none is left |
| IrqScan.Interrupt | modules/mxser/mxser.c:3012-3079 | For any sequence of readings: each turn serves exactly the ports clear in its reading, once each and lowest first, until the first reading that shows none or the limit on passes, and the interrupt is handled exactly if the first reading shows one |
| QmiWwan.PossiblyIpHdrMeaning | modules/qmi_wwan/qmi_wwan.c:220-224 | The mask picks out exactly the first nibbles 4 and 6 |
| QmiWwan.AddressStaysSafe | modules/qmi_wwan/qmi_wwan.c:479-487 | From bind on, through any changes, the address never starts like an IP header |
| QmiWwan.FramesToUsUnchanged | modules/qmi_wwan/qmi_wwan.c:172-218 | A frame to the host's address is passed on unchanged exactly when that address is safe |
| QmiWwan.RawPacketGetsHeader | modules/qmi_wwan/qmi_wwan.c:209-216 | A raw packet becomes the header (host address, zero, its type) and the packet untouched |
| QmiWwan.GroupFramesUnchanged | modules/qmi_wwan/qmi_wwan.c:193-205 | Broadcast and IPv4 or IPv6 multicast frames are passed on unchanged |
| QmiWwan.FrameKeepsItsRest | modules/qmi_wwan/qmi_wwan.c:193-217 | Every Ethernet frame of full length keeps its length and all behind its destination, which becomes the host's exactly when its first nibble is 0 and it is no group's |
| QmiWwan.AcceptedDestination | modules/qmi_wwan/qmi_wwan.c:172-218 | What is accepted never starts like an IP header and, unless it was passed on unchanged, names the host |
| QmiWwan.Rejected | modules/qmi_wwan/qmi_wwan.c:172-211 | In raw mode exactly IP packets are accepted, unchanged; otherwise exactly short frames and packets without room for a header are rejected |
| QmiWwan.FixupIdempotent | modules/qmi_wwan/qmi_wwan.c:155-157 | A second fixup changes nothing: no header is made twice |
| QmiWwan.Device.RxFixup | modules/qmi_wwan/qmi_wwan.c:172-218 | In place, with the buffer's headroom, computes that fixup, and rejects without touching the packet |
| QmiWwan.Device.BindAddr | modules/qmi_wwan/qmi_wwan.c:475-487 | Leaves the address told, or the random one for the two known bad ones, made local and safe exactly if it started like an IP header |
| QmiWwan.Device.MacAddr | modules/qmi_wwan/qmi_wwan.c:227-239 | Accepts exactly prepared and safe addresses, takes over what it accepts, and keeps the address safe |
| QmiPower.WakeupIsWanted | modules/qmi_wwan/qmi_wwan.c:254-275 | With no call under way the wakeup flag is set exactly while requests are outstanding, if no calls overlapped at zero |
| QmiPower.FlagRightIffEven | modules/qmi_wwan/qmi_wwan.c:262-272 | Over any run, the flag is right exactly when an even number of crossings of zero followed the one whose write came last |
| QmiPower.WrongIffOverlap | modules/qmi_wwan/qmi_wwan.c:254-275 | After a step of any run without overlaps the flag can end wrong before another exactly when the step is one |
| QmiPower.OverlapLeavesItWrong | modules/qmi_wwan/qmi_wwan.c:262-272 | A run of two overlapping calls that leaves the flag set with nobody wanting it |
| QmiPower.PowerState.ManagePower | modules/qmi_wwan/qmi_wwan.c:254-275 | One call moves the count by one and leaves the flag telling whether it is positive |
| Watchdog.ReleaseStopsTimer | modules/moxa_v2100_wdt/moxa_v2100_wdt.c:172-184 | Over any run release stops the timer exactly when the last data written since open, with nowayout off at the time, held a readable V |
| Watchdog.OkToCloseMeaning | modules/moxa_v2100_wdt/moxa_v2100_wdt.c:265-286 | The bit means exactly that, also after a write that faulted half way and across changes of nowayout |
| Watchdog.DataRestarts | modules/moxa_v2100_wdt/moxa_v2100_wdt.c:265-286 | Data starts the timer anew unless it faults while nowayout is off, and it decides the bit exactly while nowayout is off |
| Watchdog.NoWayOut | modules/moxa_v2100_wdt/moxa_v2100_wdt.c:193-242 | With nowayout on, a running timer is stopped by nothing but WDIOC_SETOPTIONS, a shutdown, or a change of the module's parameters |
| Watchdog.StopsDoStop | modules/moxa_v2100_wdt/moxa_v2100_wdt.c:300-306 | Each of those does stop it, at once or at the next keep-alive or magic close |
| Watchdog.Wdt.WriteData | modules/moxa_v2100_wdt/moxa_v2100_wdt.c:265-286 | The byte loop leaves the bit set exactly if a V was read before any fault, and restarts the timer unless it faulted |

## Left out

- The kernel and bus services (usb_submit_urb, autopm, the tty core, allocation, timers, user
  memory) appear as parameters or as nondeterministic results.
- One modern configuration is modelled, not the variants chosen by LINUX_VERSION_CODE.
- usbnet: probe and disconnect, ethtool, control messages, statistics, the TX_HALT and link work,
  and the wait of usbnet_terminate_urbs, whose condition does not decide that the queues are empty.
- usbnet: a transmission dropped before it has a URB, and the netif queue's stop and wake, which do
  not touch the queues modelled.
- A socket buffer that is freed, or that left for the stack, is never the same buffer again; what
  its control block held is the `left` parameter of the next transmission.
- UsbNetDriver.UsbNet.UnlinkUrbs: for rxq it asks that the device is asleep or the endpoint halted, as
  in suspend and kevent; in the calls of usbnet_unlink_rx_urbs and of a link change completions may
  keep resubmitting, and the loop need not end.
- TxRing: what a size out of bounds does to the memory beyond the page is not modelled; the macro is
  taken to read xmit_cnt and xmit_head as often as it names them, in any order, which covers a compiler
  that reads them less often. A flush empties the queue in one step.
- TxRing: SERIAL_XMIT_SIZE is a kernel constant, taken as 4096, and one writer at a time is assumed,
  as the tty core's write lock provides.
- TxArm: stop_tty and start_tty exclude each other, as the tty core's flow lock provides; TIOCSSERIAL's
  change of the UART type is not modelled.
- TxPort.Port.TransmitChunk: does not claim the armed interrupt, because mxupcie's put_char does not
  arm a port that CTS stopped and its drain ignores that flag.
- mxser_receive_chars, the break, monitoring and ioctl paths, and the per-port loop inside the
  interrupt.
- MustBaud.Port.SetBaud: takes the speed that mxser_change_speed has just put in info->speed, not
  the call of MOXA_ASPP_SETBAUD, which leaves that field alone.
- LinearBaudChip: what the chip makes of its registers beyond the driver's own expression.
- PortCount: callout devices, compiled out; a hangup marks all files and calls the driver in one step.
  What open, close and hangup do where none of them sleeps is not interleaved: with no lock around them
  the accesses named above could also make the count wrong and lose the page of an initialised port.
- Watchdog: two threads writing to the open file at once, and the timeout that WDIOC_GETTIMEOUT returns.
- The GPIO, LED, relay and power drivers, the network card's firmware interface and the user
  utilities.
