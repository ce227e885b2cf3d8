# Verified model of the quadcopter firmware

A Dafny model of the parts of the ESP32 quadcopter firmware whose correctness is hard to see by
reading: the flight loop with its PID and complementary filter, the Bluepad32 gamepad stack's
state machines, queues and codecs, and the packet and audio plumbing of BTstack's ESP32 port.

Each component is one module. Its logic is a step function on values; the properties are lemmas
over every input, every run or every interleaving of those steps; and a class or method with the
source's own fields, loops and re-entrant calls is proved to compute exactly that step.

| file | component |
|---|---|
| Crc32.dfy | report checksum: the bit-serial loop is long division by the IEEE 802.3 generator |
| ByteRing.dfy, HciTransport.dfy, HciFaults.dfy | byte ring, the two-thread HCI packet transport, and its runs without room |
| OutgoingQueue.dfy, DevicePool.dfy | ring of unsent reports with retry, device pool with virtual children |
| Rumble.dfy, WiiHandshake.dfy, SwitchSetup.dfy, Ds5Calibration.dfy, BalanceBoard.dfy | timed and handshake state machines |
| FlightLoop.dfy, Pid.dfy, ComplementaryFilter.dfy | flight control with sticks written by another task |
| Arithmetic.dfy, Axes.dfy, Quadrature.dfy, Allowlist.dfy, AudioSink.dfy | exact arithmetic, codecs and in-place buffers |

`dafny verify dfyconfig.toml` checks the whole project.

## What turned out differently from what one would expect

- The HCI transport tests for `len` free bytes but stores `len + 2`; `FramingExact` gives the exact
  condition for sound framing. HciFaults shows what follows without it: a payload is lost, stale bytes
  are delivered in its place, and a later payload is taken for a length tag. Then the handler is told
  of 65534 bytes (`HugeSizeTold`), and the copy to the receive buffer can run past its end exactly when
  the ring has at least three bytes more than that buffer (`OverrunPossibleIff`). An empty packet makes
  the handler be told of 65535 bytes even with sound framing (`EmptyPacketTold`).
- Reports need not leave in the order of their submission: a failed retry goes to the back of the
  queue, and a fresh report is sent although others wait. `OrderExact` and `InOrderExact` say exactly
  when what left and what waits stay in order; reports are conserved in any case.
- Deleting a virtual device directly leaves its parent linked to a slot that a stranger may take
  (`DeleteExact`, `StaleChildCapturesStranger`).
- DS4 and Switch rumble can fail their own assertion (`AbortExact`). A DS3 can stay DELAYED without
  a timer, and even with its motors running for ever (`Ds3RunsForEver`); `Ds3StuckExact` and
  `Ds3RestExact` characterise the request sequences that do this.
- A Wii Pro controller keeps its device type through a handshake restart and may then stream a
  report that is thrown away (`AcceptedExact`, `ProAfterRestart`).
- The balance-board pulse lasts 12 frames where the comment says 10, and the landing test uses `>`
  for one of four sensors; the model follows the code.
- A DualSense accelerometer bias lies between its readings except after the fallback to defaults
  (`BiasBetweenIff`), and a scaled gyroscope value can overflow 32 bits (`GyroCanOverflow`,
  `GyroFitsExact`).
- Switch stick calibration is used unchecked: reaches of zero in the controller's flash make the axis
  divide by zero (`SticksTotalExact`, `BlankFlashDividesByZero`).
- After a controller disconnect the motors stop at the next *good* sensor read; while reads fail the
  last duties stay (`DisconnectStopsMotors`, `FailedReadHolds`).
- Starting an audio stream over a block whose write was refused loses that one block
  (`DiscardExact`, `RestartDiscards`), and re-initialising over a waiting block damages it unless the buffer size
  stays (`InitKeepsIff`).

## Modelling decisions

- Machine words in the checksum are bit strings, least significant bit first (`TurnIsC` ties a turn of the
  bit loop to the C statement on integers); elsewhere integers are
  unbounded and every truncation that matters is written out (16-bit ring space, 8-bit counters,
  16- and 32-bit sensor fields, C's division toward zero, the unsigned axis subtraction).
- Results of I/O are parameters of events: send outcomes, sensor reads, bytes written, timer firings,
  device answers, the platform's accept or refuse.
- Pointers into the device array are slot numbers. Run-loop timers are one-shot flags.
- Control arithmetic is over the reals; `atan2` and `sqrt` are functions with the ranges of the real
  ones.
- In the flight loop each stick read, stick write and motor update is a separate step. The PID
  update and reset are folded into the computing step, since no other task sees them.

## Model

| member | source | states |
|---|---|---|
| Crc32.ShiftOut | components/bluepad32/uni_utils.c:13-19 | the inner bit loop computes `Shift`, `bits` conditional shift-and-xor steps |
| Crc32.ComputeCrc | components/bluepad32/uni_utils.c:9-22 | the two nested loops compute `Crc` of the first `len` bytes |
| Gf2.RemainderLinear | components/bluepad32/uni_utils.c:9-22 | long division by the generator is linear over GF(2) |
| Gf2.RemainderAbsorbed | components/bluepad32/uni_utils.c:13-19 | dividing past n absorbed places multiplies the register by x^n |
| Gf2.TimesInjective | components/bluepad32/uni_utils.c:13-19 | multiplication by x^n modulo the generator is injective |
| Crc32.ShiftIsTimes | components/bluepad32/uni_utils.c:13-19 | n turns of the bit loop are multiplication by x^n modulo the generator |
| Crc32.CrcIsRemainder | components/bluepad32/uni_utils.c:9-22 | the checksum is the long-division remainder of the seeded message times x^32, as clause 3.2.9 of IEEE 802.3 defines it |
| Crc32.PolynomialIsGenerator | components/bluepad32/uni_utils.c:7-22 | the bits of 0xedb88320 are the coefficients of the IEEE 802.3 generator, given by its exponents |
| Crc32.TurnIsC | components/bluepad32/uni_utils.c:15-18 | one turn of the bit loop is the C statement on a 32-bit integer |
| Crc32.ShiftTurns | components/bluepad32/uni_utils.c:15-18 | and so are n turns |
| Crc32.CrcConcat | components/bluepad32/uni_utils.c:9-22 | checksums chain over concatenation |
| Crc32.CrcLinear | components/bluepad32/uni_utils.c:9-22 | XOR-linear in seed and message together, for all equal-length messages |
| Crc32.CrcSeedInjective | components/bluepad32/uni_utils.c:9-22 | for a fixed message the result determines the seed (if and only if) |
| Crc32.BurstDetected | components/bluepad32/uni_utils.c:9-22 | two messages of any length that differ only within 32 consecutive bits, byte-aligned or not, always get different checksums |
| Crc32.CrcOfWord | components/bluepad32/uni_utils.c:9-22 | running the checksum over a little-endian word is 32 shifts of their sum |
| Crc32.ResidueIffSealed | components/bluepad32/parser/uni_hid_parser_ds5.c:737-753 | the checksum over a whole report is one fixed residue if and only if its last four bytes are the complemented checksum of the rest |
| Crc32.ChecksumExact | components/bluepad32/parser/uni_hid_parser_ds5.c:750-751 | every bit of the checksum is the complement of the remainder of the message seeded with 32 ones |
| Crc32.SealExact | components/bluepad32/parser/uni_hid_parser_ds5.c:737-753 | a sealed report is its body and then exactly those bits, in transmission order |
| Crc32.ResidueExact | components/bluepad32/parser/uni_hid_parser_ds5.c:750-751 | the residue is the word 0xdebb20e3 |
| Crc32.SealDetectsBurst | components/bluepad32/parser/uni_hid_parser_ds5.c:737-753 | a sealed report hit by a burst of at most 32 bits, in body or checksum, never shows the residue |
| Crc32.SealReport | components/bluepad32/parser/uni_hid_parser_ds4.c:590-597 | the sender's buffer and loop produce body plus little-endian complemented checksum |
| Crc32.HeaderExact | components/bluepad32/parser/uni_hid_parser_ds5.c:737-748 | the four header bytes bit by bit: 0xa2, 0x31, the sequence number in the high nibble, 0x10 |
| Crc32.Ds5Sender.constructor | components/bluepad32/parser/uni_hid_parser_ds5.c:406-422 | the output sequence number starts at 0 |
| Crc32.Ds5Sender.SendOutputReport | components/bluepad32/parser/uni_hid_parser_ds5.c:737-753 | header, sequence tag and seal of the report sent, and the sequence number wrapping from 14 to 0 |
| Crc32.SeqAfter | components/bluepad32/parser/uni_hid_parser_ds5.c:737-753 | the k-th next sequence number is (start + k) mod 15 |
| Crc32.RecentReportsDistinct | components/bluepad32/parser/uni_hid_parser_ds5.c:737-753 | any two reports less than 15 apart carry different headers |
| ByteRing.Ring.constructor | components/btstack/src/btstack_ring_buffer.c:53-63 | a new ring is empty |
| ByteRing.Ring.BytesAvailable | components/btstack/src/btstack_ring_buffer.c:65-70 | exactly the number of stored bytes, full flag included |
| ByteRing.Ring.BytesFree | components/btstack/src/btstack_ring_buffer.c:78-80 | capacity minus stored bytes |
| ByteRing.Ring.Write | components/btstack/src/btstack_ring_buffer.c:83-118 | appends the whole block, split at the end of storage, or refuses it and changes nothing |
| ByteRing.Ring.Read | components/btstack/src/btstack_ring_buffer.c:121-153 | removes and returns the oldest min(n, available) bytes |
| HciTransport.TagRoundTrip | components/btstack/btstack_port_esp32.c:145-204 | the two-byte length tag decodes to the length |
| HciTransport.FramesAppend | components/btstack/btstack_port_esp32.c:145-174 | appending a packet appends its frame |
| HciTransport.StepKeeps | components/btstack/btstack_port_esp32.c:145-204 | every atomic step of either thread keeps the transport invariant, if an accepted packet has room for its tag and fits the receive buffer |
| HciTransport.RunKeeps | components/btstack/btstack_port_esp32.c:145-204 | every interleaving keeps it |
| HciTransport.TransportCorrect | components/btstack/btstack_port_esp32.c:145-204 | in every interleaving: ring exactly the whole frames of accepted packets not yet taken whenever the mutex is free, delivery a prefix of acceptance, nonempty ring always still watched, no tag read and no copy beyond the receive buffer, and for every nonempty packet a size told within it |
| HciTransport.SizeToldExact | components/btstack/btstack_port_esp32.c:200 | the handler is told of more than the buffer if and only if the tag exceeds it or is zero |
| HciTransport.FetchExact | components/btstack/btstack_port_esp32.c:194-200 | for any tag and ring: the copy runs past the receive buffer if and only if tag and available bytes both exceed it; otherwise the size told exceeds it if and only if the tag does or is zero |
| HciTransport.SmallRingNeverOverruns | components/btstack/btstack_port_esp32.c:145-204 | in every run, with or without room, a ring of at most two bytes more than the receive buffer never makes a copy run past it |
| HciTransport.StepProgress | components/btstack/btstack_port_esp32.c:145-204 | every step except an arrival decreases a work measure |
| HciTransport.QuietRunEnds | components/btstack/btstack_port_esp32.c:176-204 | without arrivals both threads come to rest within that measure |
| HciTransport.RestMeansDelivered | components/btstack/btstack_port_esp32.c:176-204 | at rest every accepted packet was delivered and the ring is empty |
| HciTransport.FramingExact | components/btstack/btstack_port_esp32.c:152-167 | the space test forgets the tag: storing an accepted packet keeps the framing sound if and only if free space is at least len + 2 and the packet fits the receive buffer |
| HciTransport.TagFits | components/btstack/btstack_port_esp32.c:190-204 | with sound framing every tag read is at most the size of the receive buffer |
| HciTransport.BufferSizeFixed | components/btstack/btstack_port_esp32.c:190-204 | no run changes the size of the receive buffer |
| HciTransport.DrainedFrames | components/btstack/btstack_port_esp32.c:190-204 | draining decodes exactly the packets framed, whatever the receive buffer held, and overruns the buffer if and only if some packet is longer than it |
| HciTransport.ReceivedIsSteps | components/btstack/btstack_port_esp32.c:145-174 | the producer's steps under the mutex are `host_recv_pkt_cb` on the ring |
| HciTransport.HostRecvPkt | components/btstack/btstack_port_esp32.c:145-174 | the ring after the callback, and when a notification is due, with the 16-bit space variable |
| HciTransport.TakePacket | components/btstack/btstack_port_esp32.c:190-204 | one turn of the loop takes the front packet through a receive buffer of any size and tells the handler tag - 1; the copy runs past the buffer if and only if tag and available bytes both exceed it |
| HciTransport.DeliverPackets | components/btstack/btstack_port_esp32.c:190-204 | the undisturbed loop hands over the decoding of the ring and empties it, unless it overruns the receive buffer |
| HciFaults.ReceiveReaches | components/btstack/btstack_port_esp32.c:145-174 | an undisturbed reception from any reachable state |
| HciFaults.TakeReaches | components/btstack/btstack_port_esp32.c:190-204 | an undisturbed delivery from any reachable state, for any tag whose copy stays within the buffer |
| HciFaults.PayloadLostWithoutRoom | components/btstack/btstack_port_esp32.c:152-167 | a run in which the tag is stored and the payload lost |
| HciFaults.StalePacketDelivered | components/btstack/btstack_port_esp32.c:190-204 | a run from start-up in which the lost payload is delivered as stale bytes of an earlier packet |
| HciFaults.EmptyPacketTold | components/btstack/btstack_port_esp32.c:190-204 | a run in which an empty packet makes the handler be told of 65535 bytes |
| HciFaults.HugeSizeTold | components/btstack/btstack_port_esp32.c:190-204 | a run with three packets of at most four bytes after which the handler is told of 65534 bytes, while the copy stays within the buffer |
| HciFaults.OverrunWithoutRoom | components/btstack/btstack_port_esp32.c:145-204 | for every ring of 8 to 65535 bytes that has at least three bytes more than a receive buffer of at least four, a run with packets that fit the buffer whose copy runs past it |
| HciFaults.OverrunPossibleIff | components/btstack/btstack_port_esp32.c:145-204 | for a ring below 64 kB and a receive buffer of at least five bytes, such a run exists if and only if the ring has at least three bytes more than the buffer |
| OutgoingQueue.CidRoundTrip | components/bluepad32/uni_circular_buffer.c:11-40 | a channel id survives the signed 16-bit field |
| OutgoingQueue.CircularBuffer.constructor | components/bluepad32/uni_circular_buffer.c:50-52 | a new buffer is an empty queue |
| OutgoingQueue.CircularBuffer.IsEmpty | components/bluepad32/uni_circular_buffer.c:42-44 | true if and only if the queue is empty |
| OutgoingQueue.CircularBuffer.IsFull | components/bluepad32/uni_circular_buffer.c:46-48 | true if and only if it holds 31 reports |
| OutgoingQueue.CircularBuffer.Put | components/bluepad32/uni_circular_buffer.c:11-26 | appends at the back, or reports full or too big and changes nothing; only the tail slot is written |
| OutgoingQueue.CircularBuffer.Get | components/bluepad32/uni_circular_buffer.c:28-40 | removes the oldest report; its slot is never the next slot to be written |
| OutgoingQueue.CircularBuffer.Reset | components/bluepad32/uni_circular_buffer.c:50-52 | empties the queue |
| OutgoingQueue.RetryKeeps | components/bluepad32/uni_hid_device.c:844-863 | a failed retry always fits back, at the tail, and drops nothing |
| OutgoingQueue.SubmitKeeps | components/bluepad32/uni_hid_device.c:797-822 | a submitted report ends up in exactly one of sent, waiting, dropped |
| OutgoingQueue.SendExact | components/bluepad32/uni_hid_device.c:797-822 | which reports are ignored, sent, kept waiting or lost, case by case in numbers |
| OutgoingQueue.ReportsConserved | components/bluepad32/uni_hid_device.c:797-863 | over every run with any send outcomes: submitted = sent + waiting + dropped as multisets, at most 31 waiting |
| OutgoingQueue.BacklogDrainsInOrder | components/bluepad32/uni_hid_device.c:844-863 | once sends succeed the backlog leaves completely and in order |
| OutgoingQueue.FailedRetryReorders | components/bluepad32/uni_hid_device.c:844-863 | a failed retry keeps the waiting reports in order if and only if they are all equal |
| OutgoingQueue.OrderExact | components/bluepad32/uni_hid_device.c:797-863 | for every event: sent and waiting reports together grow only at their end if and only if a failed retry finds equal reports, and an accepted submission only reports equal to itself |
| OutgoingQueue.InOrderExact | components/bluepad32/uni_hid_device.c:797-863 | from an empty queue, what left and what waits are together in the order of submission at every moment of a run if and only if every event meets that condition |
| OutgoingQueue.KeptIsSubmitted | components/bluepad32/uni_hid_device.c:797-863 | when nothing was dropped, the reports so ordered are the submitted ones |
| OutgoingQueue.SubmissionOvertakes | components/bluepad32/uni_hid_device.c:797-822 | a run in which a later submission is sent first, with no failed retry |
| OutgoingQueue.FailedRetriesCancel | components/bluepad32/uni_hid_device.c:844-863 | two failed retries that break that condition and yet leave the order of what is sent intact |
| OutgoingQueue.FailedRetryOvertakes | components/bluepad32/uni_hid_device.c:844-863 | a run in which a failed retry swaps two reports |
| OutgoingQueue.HidOutput.constructor | components/bluepad32/uni_hid_device.c:121-130 | a new device has nothing submitted, sent or waiting |
| OutgoingQueue.HidOutput.SendReport | components/bluepad32/uni_hid_device.c:797-822 | the code on the ring refines `Send` |
| OutgoingQueue.HidOutput.Submit | components/bluepad32/uni_hid_device.c:797-822 | a fresh submission refines the queue model and keeps conservation |
| OutgoingQueue.HidOutput.SendQueuedReports | components/bluepad32/uni_hid_device.c:844-863 | a retry, which reads the popped slot after freeing it, refines the queue model |
| DevicePool.FirstFree | components/bluepad32/uni_hid_device.c:69-83 | the first slot with a zero address |
| DevicePool.Lookup | components/bluepad32/uni_hid_device.c:132-140 | finds only physical devices with the address, and one whenever there is one |
| DevicePool.CreateExact | components/bluepad32/uni_hid_device.c:69-83 | creation keeps the pool sound if and only if the address is nonzero and no physical device has it |
| DevicePool.CreateVirtualExact | components/bluepad32/uni_hid_device.c:85-119 | creating a virtual device keeps it sound if and only if the parent is in use, physical and childless |
| DevicePool.CreateLookup | components/bluepad32/uni_hid_device.c:69-83 | a created device is found at the first free slot, every other address as before |
| DevicePool.VirtualLookup | components/bluepad32/uni_hid_device.c:85-119 | creating a virtual device links it both ways and changes no lookup |
| DevicePool.DeleteExact | components/bluepad32/uni_hid_device.c:488-507 | deletion keeps it sound if and only if the device is not virtual |
| DevicePool.DeleteSlots | components/bluepad32/uni_hid_device.c:488-507 | slot by slot: the device and its child as after setup, every other slot unchanged |
| DevicePool.DeleteLookup | components/bluepad32/uni_hid_device.c:488-507 | a deleted device is found no more, every other address as before, and its slot can be taken again |
| DevicePool.DisconnectKeeps | components/bluepad32/uni_hid_device.c:442-486 | disconnecting any slot keeps it sound |
| DevicePool.DisconnectSlots | components/bluepad32/uni_hid_device.c:442-486 | slot by slot: only the flags of the device and its child are cleared, and exactly the connected ones of them are reported |
| DevicePool.ConnectExact | components/bluepad32/uni_hid_device.c:428-440 | connecting keeps it sound if and only if the slot is in use |
| DevicePool.ToldOnce | components/bluepad32/uni_hid_device.c:428-486 | a connected device and child are reported once on disconnecting, the child first |
| DevicePool.RejectKeeps | components/bluepad32/parser/uni_hid_parser_ds5.c:876-892 | deleting a refused child and clearing the parent's link keeps it sound |
| DevicePool.StaleChildCapturesStranger | components/bluepad32/bt/uni_bt.c:206-214 | deleting a virtual device by index and reusing the slot leaves the parent linked to a stranger |
| DevicePool.DepthAtMostTwo | components/bluepad32/uni_hid_device.c:442-507 | a child has no child, so the recursions end |
| DevicePool.PoolSound | components/bluepad32/uni_hid_device.c:64-140 | in every reachable pool: mutual links, clean free slots, unique physical addresses, and lookup exact |
| DevicePool.HidDevices.Setup | components/bluepad32/uni_hid_device.c:64-67 | every slot clean |
| DevicePool.HidDevices.FindFree | components/bluepad32/uni_hid_device.c:69-71 | the scanning loop finds `FirstFree` |
| DevicePool.HidDevices.Create | components/bluepad32/uni_hid_device.c:69-83 | the array after creation, slot by slot, and the slot or nothing returned |
| DevicePool.HidDevices.CreateVirtual | components/bluepad32/uni_hid_device.c:85-119 | the field-by-field writes give `CreatedVirtual`; child and parent slot spelled out, the others unchanged |
| DevicePool.HidDevices.GetInstanceForAddress | components/bluepad32/uni_hid_device.c:132-140 | the loop computes `Lookup` |
| DevicePool.HidDevices.Connect | components/bluepad32/uni_hid_device.c:428-440 | sets the connected flag of that slot only and tells the platform |
| DevicePool.HidDevices.Disconnect | components/bluepad32/uni_hid_device.c:442-486 | the recursion terminates, clears exactly the two connected flags and tells the platform of connected devices, child first |
| DevicePool.HidDevices.Delete | components/bluepad32/uni_hid_device.c:488-507 | the recursion terminates, leaves device and child as after setup and all else unchanged, and stays sound if and only if the device was physical |
| Rumble.Ds5Correct | components/bluepad32/parser/uni_hid_parser_ds5.c:685-722 | in every run: delay timer armed iff DELAYED, duration timer iff IN_PROGRESS, assertion never fails, DISABLED means motors were told 0 |
| Rumble.Ds5Settles | components/bluepad32/parser/uni_hid_parser_ds5.c:755-819 | with no new request at most two timers fire, and with none armed the motors are off |
| Rumble.MotorsExact | components/bluepad32/parser/uni_hid_parser_ds5.c:774-807 | for every driver and run: while rumbling the weak and the strong motor hold the magnitudes of the request that started last, at once or delayed; at rest none |
| Rumble.RequestHeard | components/bluepad32/parser/uni_hid_parser_ds5.c:685-722 | a request, or the firing of its delay, sets each motor to its own magnitude |
| Rumble.Ds3Correct | components/bluepad32/parser/uni_hid_parser_ds3.c:269-306 | in every run: armed timer implies its phase, assertion never fails, DISABLED means motors off |
| Rumble.Ds3StuckExact | components/bluepad32/parser/uni_hid_parser_ds3.c:366-427 | over every run, from the requests and firings alone: a DS3 ends DELAYED without a timer if and only if a pending start was cancelled by a zero duration and nothing was requested since |
| Rumble.Ds3RestExact | components/bluepad32/parser/uni_hid_parser_ds3.c:366-427 | with no timer armed the motors are off, unless such a cancelled start had interrupted a running rumble |
| Rumble.Ds3DeadWaitsForRequest | components/bluepad32/parser/uni_hid_parser_ds3.c:269-306 | a DS3 in that state changes only by a new request |
| Rumble.Ds3RunsForEver | components/bluepad32/parser/uni_hid_parser_ds3.c:366-427 | three requests that leave the motors running with no timer armed |
| Rumble.AbortExact | components/bluepad32/parser/uni_hid_parser_ds4.c:599-665 | a DS4 or Switch run fails the assertion if and only if a zero-duration request meets a pending delayed start; all other runs keep the DS5 guarantees |
| Rumble.DelayedThenZeroAborts | components/bluepad32/parser/uni_hid_parser_switch.c:1364-1421 | a two-request run that fails it |
| Rumble.RumbleDriver.constructor | components/bluepad32/parser/uni_hid_parser_ds5.c:406-422 | starts DISABLED with no timer armed |
| Rumble.RumbleDriver.StopRumbleNow | components/bluepad32/parser/uni_hid_parser_ds5.c:755-772 | refines `Stop`, assertion failure included |
| Rumble.RumbleDriver.PlayDualRumbleNow | components/bluepad32/parser/uni_hid_parser_ds5.c:774-807 | refines `PlayNow` |
| Rumble.RumbleDriver.PlayDualRumble | components/bluepad32/parser/uni_hid_parser_ds5.c:685-722 | refines the request step: the running timer removed, then start now or later |
| Rumble.RumbleDriver.OnSetRumbleOn | components/bluepad32/parser/uni_hid_parser_ds5.c:809-814 | refines the delay timer's firing |
| Rumble.RumbleDriver.OnSetRumbleOff | components/bluepad32/parser/uni_hid_parser_ds5.c:816-819 | refines the duration timer's firing |
| Arithmetic.TDivStandard | components/bluepad32/include/uni_common.h:215-219 | the model of C's `/` and `%`: they recompose, remainder smaller than the divisor with the dividend's sign |
| Arithmetic.MultFracExact | components/bluepad32/include/uni_common.h:215-219 | for all signs and every nonzero divisor the result is the exact truncated quotient of the full product |
| Arithmetic.MultFracFits | components/bluepad32/include/uni_common.h:215-219 | with 32-bit arguments no intermediate value leaves 64 bits |
| BalanceBoard.HistoryHolds | components/bluepad32/uni_joystick.c:279-335 | before every frame the detector's state determines what the recent frames were and that outputs were silent |
| BalanceBoard.PulseNeedsJump | components/bluepad32/uni_joystick.c:279-335 | a pulse starts exactly 3 frames after an all-idle frame that came 1 to 11 frames after a press, after at least 4 silent frames |
| BalanceBoard.PulseInNumbers | components/bluepad32/uni_joystick.c:279-335 | the same with thresholds in numbers |
| BalanceBoard.StandingNeverFires | components/bluepad32/uni_joystick.c:279-335 | a sensor at 1600 or more means no pulse three frames later |
| BalanceBoard.PulseLastsTwelve | components/bluepad32/uni_joystick.c:279-335 | every pulse lasts exactly 12 frames (the source comment says 10) |
| BalanceBoard.PulsesApart | components/bluepad32/uni_joystick.c:279-335 | pulses start at least 16 frames apart, so at least 4 silent frames separate them |
| BalanceBoard.JumpFires | components/bluepad32/uni_joystick.c:279-335 | conversely any press that is heard - at rest, or again within ten frames of the last one - then at most ten frames on the board, take-off and two frames in the air always fire |
| BalanceBoard.JumpInNumbers | components/bluepad32/uni_joystick.c:279-335 | a press and three frames below 1600 fire in the next frame, from rest |
| BalanceBoard.SmoothFits | components/bluepad32/uni_joystick.c:255-277 | filtered values always fit their 16-bit fields |
| BalanceBoard.SmoothExact | components/bluepad32/uni_joystick.c:261-265 | a filtered value is six hundredths of the two sensors less the last value, cut toward zero |
| BalanceBoard.Board.constructor | components/bluepad32/uni_joystick.c:255-277 | filter and detector start cleared |
| BalanceBoard.Board.Move | components/bluepad32/uni_joystick.c:255-277 | direction bits from the filtered sums; never two opposite ones |
| BalanceBoard.Board.DetectJump | components/bluepad32/uni_joystick.c:279-335 | the switch statement refines `Next` and `Fires` |
| WiiHandshake.ProcessRests | components/bluepad32/parser/uni_hid_parser_wii.c:1193-1241 | nested FSM calls end in a state that waits for the device |
| WiiHandshake.StepKeeps | components/bluepad32/parser/uni_hid_parser_wii.c:221-338 | every answer of the device keeps the handshake invariant, and register bank 0xa6 is never left |
| WiiHandshake.HandshakeCorrect | components/bluepad32/parser/uni_hid_parser_wii.c:1086-1168 | in every handshake: register 0xa4 or 0xa6, Nunchuk or uDraw means vertical mode, and every device other than the Pro is asked for a report whose handler accepts it |
| WiiHandshake.NoExtensionExact | components/bluepad32/parser/uni_hid_parser_wii.c:221-268 | a remote without extension: held A requests `KA`, held plus selects vertical mode and `K`, otherwise `K` |
| WiiHandshake.ExtensionsExact | components/bluepad32/parser/uni_hid_parser_wii.c:271-338 | id 00 00 ends in Nunchuk, `KE`, vertical; 01 01 in Classic, `E`; 01 12 in uDraw, `KE`, vertical |
| WiiHandshake.ProExact | components/bluepad32/parser/uni_hid_parser_wii.c:290-300 | id 01 20 ends in the Pro Controller, `KEE` |
| WiiHandshake.BoardExact | components/bluepad32/parser/uni_hid_parser_wii.c:340-403 | id 04 02 ends in the Balance Board, `KEE`, after two calibration answers |
| WiiHandshake.UnknownIdExact | components/bluepad32/parser/uni_hid_parser_wii.c:271-338 | any other id leaves the extension unknown: the remote streams `K`, or `KA` if A was held |
| WiiHandshake.FaultyAnswerIgnored | components/bluepad32/parser/uni_hid_parser_wii.c:271-403 | no short or failed data answer moves the handshake on, whatever it waits for |
| WiiHandshake.DeviceExact | components/bluepad32/parser/uni_hid_parser_wii.c:221-338 | over every handshake: once a report is assigned, a device not identified as the Pro is told apart by its product id |
| WiiHandshake.ProbedIsRun | components/bluepad32/parser/uni_hid_parser_wii.c:446-471 | the four answers of a probe as a run |
| WiiHandshake.BadIdIgnored | components/bluepad32/parser/uni_hid_parser_wii.c:271-285 | an answer without a readable id leaves the probe waiting |
| WiiHandshake.RefusalExact | components/bluepad32/parser/uni_hid_parser_wii.c:475-500 | a refused write moves to bank 0xa6, refused there restarts; other answers change nothing |
| WiiHandshake.RegisterNeverGoesBack | components/bluepad32/parser/uni_hid_parser_wii.c:475-500 | once 0xa6, always 0xa6 |
| WiiHandshake.AcceptedWithoutRestart | components/bluepad32/parser/uni_hid_parser_wii.c:504-940 | without a restart the Pro, too, gets an accepted report |
| WiiHandshake.AcceptedExact | components/bluepad32/parser/uni_hid_parser_wii.c:504-940 | for every device and every sequence of answers: an assigned report is accepted if and only if no Pro was surveyed again without being identified again |
| WiiHandshake.ProFoundAgain | components/bluepad32/parser/uni_hid_parser_wii.c:475-500 | a restart after which the Pro is identified again and accepted |
| WiiHandshake.ProAfterRestart | components/bluepad32/parser/uni_hid_parser_wii.c:475-500 | a concrete restart after which the Pro streams a report its handler ignores |
| WiiHandshake.WiiInstance.constructor | components/bluepad32/parser/uni_hid_parser_wii.c:1245-1267 | the instance after setup and its first FSM call |
| WiiHandshake.WiiInstance.ProcessFsm | components/bluepad32/parser/uni_hid_parser_wii.c:1193-1241 | re-entrant calls terminate by a state rank and refine `Process` |
| WiiHandshake.WiiInstance.AssignDevice | components/bluepad32/parser/uni_hid_parser_wii.c:1086-1158 | chooses the report type and goes on |
| WiiHandshake.WiiInstance.UpdateLed | components/bluepad32/parser/uni_hid_parser_wii.c:1160-1168 | signals ready once after the nested call |
| WiiHandshake.WiiInstance.ProcessReqStatus | components/bluepad32/parser/uni_hid_parser_wii.c:221-268 | refines the status step |
| WiiHandshake.WiiInstance.ReadRegister | components/bluepad32/parser/uni_hid_parser_wii.c:271-338 | refines extension identification |
| WiiHandshake.WiiInstance.ProcessReqData | components/bluepad32/parser/uni_hid_parser_wii.c:446-471 | refines the data step |
| WiiHandshake.WiiInstance.ProcessReqReturn | components/bluepad32/parser/uni_hid_parser_wii.c:475-500 | refines the acknowledgement step, with the fallback to 0xa6 and the restart |
| Axes.ParsedIsOrdered | components/bluepad32/parser/uni_hid_parser_switch.c:784-820 | parsed calibration always has min <= center <= max |
| Axes.ParseStickRoundTrip | components/bluepad32/parser/uni_hid_parser_switch.c:784-820 | center and reaches packed in either stick's order are recovered |
| Axes.CalibrateIsScaled | components/bluepad32/parser/uni_hid_parser_switch.c:1349-1362 | the two divisions are one truncated quotient, then the clamp |
| Axes.CalibrateEndpoints | components/bluepad32/parser/uni_hid_parser_switch.c:1349-1362 | strict calibration sends min, center, max to -512, 0, 512 |
| Axes.CalibrateMonotone | components/bluepad32/parser/uni_hid_parser_switch.c:1349-1362 | monotone in every reading and within -512..512 |
| Axes.CalibrateTotalIff | components/bluepad32/parser/uni_hid_parser_switch.c:1349-1362 | no 12-bit reading divides by zero if and only if min < center, and center < max or center is 4095 |
| Axes.UsableMonotone | components/bluepad32/parser/uni_hid_parser_switch.c:1349-1362 | every such calibration is monotone on 12-bit readings and within -512..512 |
| Axes.ParsedTotalIff | components/bluepad32/parser/uni_hid_parser_switch.c:784-820 | a parsed stick never divides by zero if and only if the reaches in its bytes are good |
| Axes.CenteredExact | components/bluepad32/parser/uni_hid_parser.c:78-100 | the unsigned subtraction gives the exact signed offset from the middle |
| Axes.ProcessAxisMonotone | components/bluepad32/parser/uni_hid_parser.c:78-100 | for ranges up to 2^22 every reading in range maps into -512..511, monotonically |
| Axes.ProcessAxisLinear | components/bluepad32/parser/uni_hid_parser.c:78-100 | the value is the linear map of the reading cut toward zero, less than one unit off and never past it; the middle gives 0 |
| Axes.RepairExact | components/bluepad32/parser/uni_hid_parser.c:78-100 | the field size matters only when the logical maximum is -1, which then means the largest value of the field |
| Axes.ByteAxis | components/bluepad32/parser/uni_hid_parser.c:78-100 | a byte-wide axis with maximum -1 is read as 0 to 255, each step worth four |
| Axes.ProductFitsIff | components/bluepad32/parser/uni_hid_parser.c:78-100 | the 32-bit product never overflows in range if and only if the range has at most 2^22 values |
| SwitchSetup.ReplyKeeps | components/bluepad32/parser/uni_hid_parser_switch.c:497-612 | no reply changes state, timer or readiness by itself, and calibration stays ordered |
| SwitchSetup.EventMovesOn | components/bluepad32/parser/uni_hid_parser_switch.c:418-471 | every reply or timeout moves the setup on by exactly one stage |
| SwitchSetup.SetupCorrect | components/bluepad32/parser/uni_hid_parser_switch.c:730-782 | replies and timeouts in any order and content: READY at exactly the seventh event, platform asked exactly once, connection ready iff it accepts |
| SwitchSetup.RefusalWipes | components/bluepad32/uni_hid_device.c:230-260 | a device the platform refuses at its seventh event is wiped: no state, timer, mode, type or calibration is left |
| SwitchSetup.StateNeverDecreases | components/bluepad32/parser/uni_hid_parser_switch.c:418-471 | the state never decreases while the platform accepts |
| SwitchSetup.AtMostOneTimeout | components/bluepad32/parser/uni_hid_parser_switch.c:1423-1428 | the setup timer fires at most once in a run |
| SwitchSetup.TimerExact | components/bluepad32/parser/uni_hid_parser_switch.c:348-389 | the setup timer runs exactly until it fires or six events have come |
| SwitchSetup.TypeExact | components/bluepad32/parser/uni_hid_parser_switch.c:650-673 | after every setup run the controller type is the last one told, the mode the one chosen by button A when it was first told |
| SwitchSetup.DefaultExact | components/bluepad32/parser/uni_hid_parser_switch.c:348-389 | the calibration before any reply is 512, 2048, 3583, which map to -512, 0, 512 |
| SwitchSetup.SourceExact | components/bluepad32/parser/uni_hid_parser_switch.c:497-612 | which bytes of which reply set which stick |
| SwitchSetup.SticksTotalExact | components/bluepad32/parser/uni_hid_parser_switch.c:497-612 | after every setup run a stick never divides by zero if and only if the reaches in the last reply that set it are good |
| SwitchSetup.BlankFlashDividesByZero | components/bluepad32/parser/uni_hid_parser_switch.c:497-546 | a setup run to READY after which every reading of the left stick divides by zero |
| SwitchSetup.SwitchInstance.constructor | components/bluepad32/parser/uni_hid_parser_switch.c:348-389 | the instance after setup and its first FSM call |
| SwitchSetup.SwitchInstance.ProcessFsm | components/bluepad32/parser/uni_hid_parser_switch.c:418-471 | nested calls terminate by a state rank and refine `Advance` |
| SwitchSetup.SwitchInstance.DumpRom | components/bluepad32/parser/uni_hid_parser_switch.c:1035-1066 | stops the timer and goes straight on |
| SwitchSetup.SwitchInstance.ReadyComplete | components/bluepad32/uni_hid_device.c:230-260 | asks the platform once; a refused device is wiped |
| SwitchSetup.SwitchInstance.GamepadReady | components/bluepad32/parser/uni_hid_parser_switch.c:1183-1192 | READY, ready-complete, and one more FSM call |
| SwitchSetup.SwitchInstance.ReplyFactoryStick | components/bluepad32/parser/uni_hid_parser_switch.c:497-546 | which sticks a factory reply calibrates, by controller type and length |
| SwitchSetup.SwitchInstance.ReplyUserStick | components/bluepad32/parser/uni_hid_parser_switch.c:548-612 | which sticks a user reply calibrates, by magic bytes |
| SwitchSetup.SwitchInstance.ProcessInputSubcmdReply | components/bluepad32/parser/uni_hid_parser_switch.c:730-782 | refines the reply step |
| SwitchSetup.SwitchInstance.SetupTimeout | components/bluepad32/parser/uni_hid_parser_switch.c:1423-1428 | refines the timeout step |
| Ds5Calibration.BiasBetweenIff | components/bluepad32/parser/uni_hid_parser_ds5.c:475-545 | the accelerometer bias lies between its readings if and only if they differ or are zero; otherwise the defaults replaced it |
| Ds5Calibration.AccelBiasExact | components/bluepad32/parser/uni_hid_parser_ds5.c:475-545 | after any handshake ending with a calibration report, each accelerometer bias lies between its readings if and only if they differ or are zero |
| Ds5Calibration.ScaleMagnitude | components/bluepad32/parser/uni_hid_parser_ds5.c:623-637 | magnitude and sign of a scaled reading |
| Ds5Calibration.AccelFits | components/bluepad32/parser/uni_hid_parser_ds5.c:623-637 | scaled acceleration always fits int32 |
| Ds5Calibration.GyroCanOverflow | components/bluepad32/parser/uni_hid_parser_ds5.c:475-545 | a handshake with a calibration report after which the reading 32767 overflows on every axis |
| Ds5Calibration.FitsIffExtremeFits | components/bluepad32/parser/uni_hid_parser_ds5.c:623-637 | all readings of an axis fit int32 if and only if -32768 does |
| Ds5Calibration.FitsIff | components/bluepad32/parser/uni_hid_parser_ds5.c:623-637 | all readings of an axis fit int32 if and only if 32768 times the numerator stays below 2^31 (or 2^31 + 1) denominators |
| Ds5Calibration.GyroFitsExact | components/bluepad32/parser/uni_hid_parser_ds5.c:475-545 | after any handshake ending with a calibration report, each gyroscope axis always fits int32 if and only if speed and spread in the report meet that bound |
| Ds5Calibration.CalibrationSafe | components/bluepad32/parser/uni_hid_parser_ds5.c:424-555 | after setup, under feature reports of any content in any order: six nonzero denominators, accelerations in int32 |
| Ds5Calibration.ReportExact | components/bluepad32/parser/uni_hid_parser_ds5.c:475-548 | after any handshake ending with a calibration report: READY, and all six axes in terms of the report, each accelerometer bias the middle of its readings |
| Ds5Calibration.OtherReports | components/bluepad32/parser/uni_hid_parser_ds5.c:424-474 | the other reports move the handshake on and leave the calibration alone |
| Ds5Calibration.ScaleMeaning | components/bluepad32/parser/uni_hid_parser_ds5.c:623-637 | the difference of an axis' two readings scales to exactly 2 g, a gyroscope spread to exactly its speed |
| Ds5Calibration.Ds5Instance.constructor | components/bluepad32/parser/uni_hid_parser_ds5.c:406-422 | default calibration |
| Ds5Calibration.Ds5Instance.Repair | components/bluepad32/parser/uni_hid_parser_ds5.c:475-545 | the sanity loop replaces exactly the axes with zero denominator |
| Ds5Calibration.Ds5Instance.SetGyro | components/bluepad32/parser/uni_hid_parser_ds5.c:475-545 | gyroscope calibration from a report |
| Ds5Calibration.Ds5Instance.SetAccel | components/bluepad32/parser/uni_hid_parser_ds5.c:475-545 | accelerometer calibration from a report |
| Ds5Calibration.Ds5Instance.ParseFeatureReport | components/bluepad32/parser/uni_hid_parser_ds5.c:424-555 | refines the handshake step and keeps the calibration invariant |
| Ds5Calibration.Ds5Instance.ScaleAccel | components/bluepad32/parser/uni_hid_parser_ds5.c:557-637 | nothing before READY; then three exact truncated quotients in int32 |
| FlightLoop.PowerOnIff | main/bukkis_drone.c:22-79 | motors get power if and only if the tested throttle is below -20 and the mapped one at most -30 |
| FlightLoop.TiltExact | main/bukkis_drone.c:22-76 | tilt commands lie in -30..30 degrees, in stick order, with the ends met exactly |
| FlightLoop.CommandsExact | main/bukkis_drone.c:22-76 | throttle and tilt commands as formulas of the stick values |
| FlightLoop.ErrorsExact | main/bukkis_drone.c:79-113 | a powered iteration gives the pitch controller the commanded less the measured pitch, the roll controller the same for roll; any other resets both |
| FlightLoop.AxesApart | main/bukkis_drone.c:79-113 | what becomes of one controller depends on its own past, stick and angle and on the throttle alone |
| FlightLoop.SpeedsExact | main/bukkis_drone.c:79-106 | the four speeds of any powered iteration, each controller asked with its own stick and angle |
| FlightLoop.FirstCorrection | main/bukkis_drone.c:45-55 | a fresh controller answers 26.2 times the error, at most 40 either way |
| FlightLoop.FirstSpeedsExact | main/bukkis_drone.c:79-106 | the speeds of a first powered iteration in terms of sticks and angles alone |
| FlightLoop.LevelsItself | main/bukkis_drone.c:79-106 | sticks centred and controllers fresh, no motor on the raised side gets more than its partner |
| FlightLoop.MixerInvertible | main/bukkis_drone.c:85-89 | throttle, pitch and roll are recovered from the four mixed speeds |
| FlightLoop.DutyRange | components/motor/motor.c:53-63 | duty in 0..1023, 0 for no speed, 1023 exactly from 100 percent |
| FlightLoop.DutyExact | components/motor/motor.c:53-63 | within range the duty is 10.23 times the percentage, cut to an integer |
| FlightLoop.CorrectionKeepsItsSense | main/bukkis_drone.c:85-101 | limits and truncation never invert a roll or pitch correction |
| FlightLoop.StepKeeps | main/bukkis_drone.c:57-119 | every step of either task keeps duties in range, PID integrals limited and motors driven only as computed |
| FlightLoop.FlightSafe | main/bukkis_drone.c:57-119 | in every interleaving, at every moment: duties in 0..1023, and a nonzero duty was set by an iteration that mapped a throttle of at most -30; between iterations, after good and failed reads, that is the last good one |
| FlightLoop.ControllersSafe | main/bukkis_drone.c:57-119 | in every interleaving both controllers keep their gains, and their integrals stay within 20 |
| FlightLoop.CallbacksExact | components/bukkis_bt/bukkis_bt.c:41-51 | what data and disconnect callbacks leave in the four sticks after their four stores |
| FlightLoop.OnlyDriveChangesDuties | main/bukkis_drone.c:97-109 | no other step changes a duty |
| FlightLoop.FailedReadHolds | main/bukkis_drone.c:57-119 | from a failed sensor read on duties and controllers stay, through any number of failed reads and whatever the other task does |
| FlightLoop.CutsOff | main/bukkis_drone.c:57-119 | an iteration begun without throttle ends with all motors off, and they stay off while no data asks for power |
| FlightLoop.DisconnectStopsMotors | components/bukkis_bt/bukkis_bt.c:41-51 | from any state, after a disconnect the first good iteration turns all four motors off within 13 loop steps, in every interleaving without new throttle data |
| FlightLoop.NothingFliesUnasked | main/bukkis_drone.c:45-119 | once the loop has started no motor runs before controller data asks for power |
| FlightLoop.IterationsEnd | main/bukkis_drone.c:57-119 | in every interleaving at most 14 loop steps lie between two sensor reads, and until then there is always a next one |
| FlightLoop.SettleIsRun | main/bukkis_drone.c:57-119 | the loop running alone is a run |
| FlightLoop.UndisturbedIteration | main/bukkis_drone.c:57-119 | an iteration with resting sticks has exactly the effect of one `Iterate` on the stick values |
| FlightLoop.FlightController.constructor | main/bukkis_drone.c:45-48 | fresh controllers, motors off, sticks zero |
| FlightLoop.FlightController.OnDeviceDisconnected | components/bukkis_bt/bukkis_bt.c:41-44 | all four sticks zero |
| FlightLoop.FlightController.OnControllerData | components/bukkis_bt/bukkis_bt.c:46-51 | which axis goes to which stick |
| FlightLoop.FlightController.MotorSetSpeed | components/motor/motor.c:53-63 | sets the duty of that motor only |
| FlightLoop.FlightController.DriveMixed | main/bukkis_drone.c:85-101 | which motor gets which sum of throttle, pitch and roll, limited |
| FlightLoop.FlightController.Iterate | main/bukkis_drone.c:57-119 | one pass: unchanged after a failed read, otherwise controllers and duties as functions of the values read; fresh and centred, it works against the measured angles |
| ComplementaryFilter.AnglesBounded | components/mpu6050/mpu6050.c:85-125 | for every sample sequence and any clock, angles within 12437 degrees stay there (in particular from zero) |
| ComplementaryFilter.StepExact | components/mpu6050/mpu6050.c:85-120 | one step from the register bytes alone: which bytes, which signs, which weights |
| ComplementaryFilter.LongGap | components/mpu6050/mpu6050.c:88-95 | after more than half a second the step counts as a hundredth |
| ComplementaryFilter.StartForgotten | components/mpu6050/mpu6050.c:85-125 | two runs on the same samples differ by exactly 0.98^n times the first gap |
| ComplementaryFilter.Converges | components/mpu6050/mpu6050.c:85-125 | at rest the error to the accelerometer angle is exactly 0.98^n times the first one |
| ComplementaryFilter.DecayVanishes | components/mpu6050/mpu6050.c:115-120 | that share is positive and at most 49/(49+n) |
| ComplementaryFilter.Measure | components/mpu6050/mpu6050.c:97-113 | which register bytes make which angle and rate, as signed 16-bit values |
| ComplementaryFilter.Mpu6050.constructor | components/mpu6050/mpu6050.c:68-72 | angles zero, clock at the time of initialisation |
| ComplementaryFilter.Mpu6050.ReadAngles | components/mpu6050/mpu6050.c:77-128 | a good read refines the filter step and reports the angles swapped and negated; a failed one changes nothing |
| Pid.ClampWithinIff | components/pid/pid.c:6-10 | a symmetric clamp respects its limit if and only if the limit is not negative |
| Pid.LimitsHold | components/pid/pid.c:25-62 | integral and every output stay within their limits for all input sequences |
| Pid.OutputExact | components/pid/pid.c:25-62 | the output is the limited sum of the three terms, each spelled out, and so is the new state |
| Pid.OutputMonotone | components/pid/pid.c:25-62 | with gains that are not negative a larger error never lowers the output |
| Pid.DerivativeBounded | components/pid/pid.c:40-55 | errors bounded by E keep the filtered derivative within 2E/dt |
| Pid.ConstantErrorHalves | components/pid/pid.c:40-55 | constant error makes the derivative halve with every step |
| Pid.ResetIsFresh | components/pid/pid.c:65-69 | after a reset all later outputs equal those of a new controller with the same gains |
| Pid.Mirrored | components/pid/pid.c:25-62 | mirrored inputs give mirrored outputs, over whole runs |
| Pid.Controller.constructor | components/pid/pid.c:12-23 | gains stored, state zero |
| Pid.Controller.Compute | components/pid/pid.c:25-62 | the statements refine `Next` and `Output` |
| Pid.Controller.ResetState | components/pid/pid.c:65-69 | state zero, gains kept |
| Quadrature.TickIsOneStep | components/bluepad32/uni_mouse_quadrature.c:81-127 | a tick changes exactly one line, and a standard decoder sees exactly that step leave the pending count |
| Quadrature.UpdateReplaces | components/bluepad32/uni_mouse_quadrature.c:189-241 | a nonzero update replaces pending by delta, a zero one leaves it; no line moves |
| Quadrature.PositionConserved | components/bluepad32/uni_mouse_quadrature.c:81-241 | for every interleaving: decoded position plus pending equals reported movement less exactly what was overwritten |
| Quadrature.ReaderFollowsMouse | components/bluepad32/uni_mouse_quadrature.c:81-241 | when nothing is overwritten the decoder ends where the mouse did |
| Quadrature.TicksPlayOut | components/bluepad32/uni_mouse_quadrature.c:81-127 | n ticks play out n pending steps |
| Quadrature.QuadratureState.constructor | components/bluepad32/uni_mouse_quadrature.c:50-69 | idle at phase 0 |
| Quadrature.QuadratureState.ProcessQuadrature | components/bluepad32/uni_mouse_quadrature.c:81-127 | refines the tick |
| Quadrature.QuadratureState.ProcessUpdate | components/bluepad32/uni_mouse_quadrature.c:189-241 | refines the update |
| Quadrature.UpdatePort | components/bluepad32/uni_mouse_quadrature.c:330-343 | horizontal by dx, vertical by -dy, on an existing port after initialisation; nothing otherwise, and no other port changes |
| Allowlist.HexRoundTrip | components/btstack/src/btstack_util.c:225-250 | nibble printing and parsing are inverse |
| Allowlist.NibbleExact | components/btstack/src/btstack_util.c:245-250 | digits are read in either case and nothing else is one |
| Allowlist.PrintedExact | components/btstack/src/btstack_util.c:374-389 | a printed address character by character |
| Allowlist.CommaExact | components/bluepad32/bt/uni_bt_allowlist.c:30-36 | every entry ends with a comma |
| Allowlist.ScanPrinted | components/btstack/src/btstack_util.c:374-439 | a printed address is scanned back wherever it stands in a string |
| Allowlist.ScanSpelled | components/btstack/src/btstack_util.c:374-439 | bytes separated by colons, dashes, blanks or nothing, in any mixture, are scanned the same |
| Allowlist.StrayRejected | components/btstack/src/btstack_util.c:374-439 | any other character after a byte spoils the address |
| Allowlist.JoinAt | components/bluepad32/bt/uni_bt_allowlist.c:20-41 | the k-th entry starts at character 18k |
| Allowlist.FitsIff | components/bluepad32/bt/uni_bt_allowlist.c:20-41 | the string fits its 128-byte buffer if and only if at most seven addresses are in use |
| Allowlist.SmallListFits | components/bluepad32/bt/uni_bt_allowlist.c:12-41 | a list of at most seven slots, such as the configured four, never overflows it |
| Allowlist.AddKeeps | components/bluepad32/bt/uni_bt_allowlist.c:91-104 | exactly the new address joins, and none is listed twice |
| Allowlist.RemoveKeeps | components/bluepad32/bt/uni_bt_allowlist.c:106-115 | exactly the removed address leaves |
| Allowlist.SlotsExact | components/bluepad32/bt/uni_bt_allowlist.c:91-115 | which slot an add or a removal changes, and that no other changes |
| Allowlist.ParsePrinted | components/bluepad32/bt/uni_bt_allowlist.c:20-69 | parsing the printed list gives the addresses in use |
| Allowlist.RestoreAtBoot | components/bluepad32/bt/uni_bt_allowlist.c:43-69 | a list is stored if and only if at most seven addresses are in use, and re-initialising then restores the same addresses in compacted order and the same string |
| Allowlist.AddrAllowlist.constructor | components/bluepad32/bt/uni_bt_allowlist.c:12-14 | empty list, no property |
| Allowlist.AddrAllowlist.UpdateToProperty | components/bluepad32/bt/uni_bt_allowlist.c:20-41 | the appending loop stores exactly the printed list, or overflows its 128-byte buffer if and only if the text does not fit |
| Allowlist.AddrAllowlist.FindSlot | components/bluepad32/bt/uni_bt_allowlist.c:71-78 | the first slot with the address |
| Allowlist.AddrAllowlist.AddAddr | components/bluepad32/bt/uni_bt_allowlist.c:91-104 | list, result, property and overflow after an add; the property prints the list as long as at most seven addresses are in use |
| Allowlist.AddrAllowlist.RemoveAddr | components/bluepad32/bt/uni_bt_allowlist.c:106-115 | list, result, property and overflow after a removal |
| Allowlist.AddrAllowlist.RemoveAll | components/bluepad32/bt/uni_bt_allowlist.c:117-123 | empty list, empty string |
| Allowlist.AddrAllowlist.UpdateFromProperty | components/bluepad32/bt/uni_bt_allowlist.c:43-69 | the loop loads every parsed address although each add rewrites the property, and overflows nothing if the list reached fits |
| AudioSink.DuplicateSamples | components/btstack/btstack_audio_esp32_v4.c:322-329 | the backward in-place loop doubles every sample and disturbs nothing behind |
| AudioSink.DropSecondChannel | components/btstack/btstack_audio_esp32_v4.c:458-464 | the forward in-place loop keeps the left channel |
| AudioSink.LeftOfDoubled | components/btstack/btstack_audio_esp32_v4.c:322-329 | dropping inverts doubling |
| AudioSink.DoubledIff | components/btstack/btstack_audio_esp32_v4.c:458-464 | doubling inverts dropping if and only if both channels agree |
| AudioSink.StepKeeps | components/btstack/btstack_audio_esp32_v4.c:311-347 | every call and transmit event keeps the conservation invariant |
| AudioSink.FilledExact | components/btstack/btstack_audio_esp32_v4.c:315-334 | every sample handed over: the waiting block, the callback's samples, doubled if mono, or silence |
| AudioSink.StreamsExactly | components/btstack/btstack_audio_esp32_v4.c:349-420 | in every run the sink streams exactly between a start and the next stop, close or initialisation |
| AudioSink.PhaseStep | components/btstack/btstack_audio_esp32_v4.c:315-332 | the callback is asked exactly on a transmit event while streaming with no block waiting |
| AudioSink.InitKeepsIff | components/btstack/btstack_audio_esp32_v4.c:349-367 | re-initialising over a waiting block keeps it if and only if the buffer size stays |
| AudioSink.ReinitCutsBlock | components/btstack/btstack_audio_esp32_v4.c:349-367 | a run in which half of a waiting block is played after re-initialising for a smaller buffer |
| AudioSink.AudioConserved | components/btstack/btstack_audio_esp32_v4.c:311-347 | in every run the callback's blocks are played in order, once each, plus at most one pending and those a restart discarded |
| AudioSink.StalledUnchanged | components/btstack/btstack_audio_esp32_v4.c:336-342 | any number of zero-byte writes changes nothing and asks for no data |
| AudioSink.StalledThenPlayed | components/btstack/btstack_audio_esp32_v4.c:336-342 | the stalled block is then played exactly once |
| AudioSink.DiscardExact | components/btstack/btstack_audio_esp32_v4.c:382-398 | a block is discarded if and only if a stream starts over a waiting block, and then it is that block |
| AudioSink.RestartDiscards | components/btstack/btstack_audio_esp32_v4.c:382-408 | a waiting block survives any stops, closes and initialisations until the next start discards it |
| AudioSink.LoopbackMono | components/btstack/btstack_audio_esp32_v4.c:456-466 | a mono block played and recorded comes back unchanged |
| AudioSink.Sink.constructor | components/btstack/btstack_audio_esp32_v4.c:305-311 | off, buffer silent |
| AudioSink.Sink.FetchData | components/btstack/btstack_audio_esp32_v4.c:315-334 | asks the callback only when streaming with no block waiting; silence otherwise |
| AudioSink.Sink.FillBuffer | components/btstack/btstack_audio_esp32_v4.c:311-347 | what is handed over, when the flag clears and when the partial-write assertion fails |
| AudioSink.Sink.Initialize | components/btstack/btstack_audio_esp32_v4.c:349-367 | stores channels and buffer size, and refines initialisation |
| AudioSink.Sink.StartStream | components/btstack/btstack_audio_esp32_v4.c:382-398 | refines the start, clearing a waiting block |
| AudioSink.Sink.StopStream | components/btstack/btstack_audio_esp32_v4.c:400-408 | refines the stop |
| AudioSink.Sink.CloseSink | components/btstack/btstack_audio_esp32_v4.c:410-420 | refines closing |
| AudioSink.ProcessRecording | components/btstack/btstack_audio_esp32_v4.c:437-467 | what the recording callback gets, and when the partial-read assertion fails |

## Left out

- BR/EDR, SDP and LE connection flows, pairing and scanning: their order of events is BTstack's.
- Button and hat tables of the parsers, keyboard and twin-stick mappings: flat tables whose claims a reader settles by reading one branch.
- Console, web server, logging, ES8388 codec registers, platform variants and version glue.
- Floating-point rounding in PID, filter, mixer and map: the proofs are over the reals.
- Yaw: the source stores the stick but never uses it; `motor_test_sequence` runs before the loop and leaves the duties at zero.
- Quadrature timer periods and the scale factor; a delta of -2^31, whose negation overflows in C.
- Wii EEPROM and Switch flash dumping (compiled out), Switch IMU calibration, Wii `set_mode` from the console, balance-board weight interpolation.
- Rumble on the Wii, and rumble timers that survive the deletion of their device; each parser model covers one lifetime of its instance.
- DualShock 4 calibration, which repeats the DualSense's.
- Allowlist.AddrAllowlist.UpdateToProperty: what follows a write past the 128-byte buffer is not modelled; NVS size limits are not either.
- HciTransport.TakePacket: what happens after a copy past the receive buffer is not modelled; a length tag cut short reads missing bytes as zero.
- AudioSink.Sink.Initialize: the sample-rate comparison and driver installation are not modelled; the buffer size is a parameter.
- AudioSink.Sink.FillBuffer: the queue of I2S events and the 5 ms poll timer appear only as transmit events.
- AudioSink.Sink.StartStream: the assertion that the sink's sample rate is the driver's is not modelled, since sample rates are not.
- WiiHandshake.WiiInstance.ProcessReqData: the balance-board calibration values it stores are not modelled; the handshake does not read them.
- SwitchSetup.SwitchInstance.ProcessInputSubcmdReply: IMU calibration and battery level are not modelled; the setup does not read them.
- Ds5Calibration.Ds5Instance.ParseFeatureReport: the firmware version and the vibration mode it selects are not modelled; calibration and handshake do not read them.
- Crc32.Ds5Sender.SendOutputReport: the payload's fields are opaque bytes; handing the report to L2CAP is the outgoing queue's part.
- DevicePool.HidDevices.Create: the connection timeout timer and the fields that are only copied are not modelled.
- FlightLoop.FlightController.Iterate: the 10 ms wait is not modelled; the step size is the source's constant 0.01.
