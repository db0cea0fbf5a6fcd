# USB 3.0 dual-role controller: model and proofs

The controller can act as a USB host or as a USB device. It is built from cooperating
processes on a discrete-event kernel: a role manager that picks the role from the Type-C
attachment, VBUS and software requests; a monitor that switches the two sides on and off; a
host controller thread that enumerates a device and then drains a ring of transfers; a device
controller with a bulk loopback; a router between them; and a register block with a level
interrupt. A small peer device sits on the link.

## How it is modelled

Five step machines, each with a program counter per thread at its waits, a visible and a
pending value per signal, flags for events waiting for the update phase, and time in
nanoseconds. Each is studied in an environment that may do anything the kernel allows at any
moment, so its theorems hold whatever the rest of the design does.

- `HostMachine` (with `Transport`): the host thread, the router, the peer and the device block.
- `RoleMachine`: the role manager and the role-switch monitor.
- `Loopback`: the device controller's slots and copy thread under arbitrary packets.
- `InterruptMachine`: the interrupt collector and the register block under arbitrary sources
  and register writes. `Registers` has the block itself and its event histories. Words are sets
  of bit positions, since every operation there is bitwise.
- `SystemMachine`: the whole controller as its top level wires it. Each of its steps is one step
  of each part, so a run of the whole is, step for step, a run of the role subsystem, of the host
  side and of the interrupt block (`PartsRun`), and their theorems are theorems about the whole.

`Transport` says in closed form, with no recursion, what one transmission has done to the
whole platform when it returns. `Platform` and `RoleBlock` hold the objects: classes with the
fields the design updates in place, one method per function of the design, and the socket
calls as mutually recursive methods. Each method is proved to end in the state the closed
form or the step function gives, and the `decreases` clauses of the transport methods prove
that every re-entrant call returns. `Execute` and its like carry any allowed schedule out on
the objects and promise the main invariants of the objects' own fields.

A run is a sequence of states and actions from reset. The main theorems are about every
position of every run. Both ends of each path are read off the run itself, not off fields of
the model: what software asked for (`Requests`), what the environment drove on the inputs
(`Shown`) or brought on the link (`Arrived`), what the routers put on the link, sender,
metadata and bytes (`wire`, `HandedOn`), and what a register read returns (`ReadAt`).
`SystemScenarios` and `LoopbackScenario` give runs in which the paths carry data end to end.

## What the proofs found

- The interrupt output is described as level-sensitive, but the level is only written, by raises
  and by clears to zero. It differs from status and mask if and only if the agreement was broken
  and not mended since (`DisagreesIffBroken`). Two kinds of write break it: a mask write that
  changes whether an enabled bit is set, and a status write that leaves only masked bits under a
  high level (`EventAgreesIff`). The second needs no later mask write: a driver that sets its mask
  once and acknowledges every enabled bit can be left with the level high (`AcknowledgeBreaks`).
- Packet metadata documents device addresses as 0 to 127. The host hands out eight bits and the
  peer keeps seven: a recorded address is the peer's exactly when the number of Set Address
  requests is below 128 modulo 256 (`AddressesAgreeIff`).
- An edge of `role_changed` that comes inside the monitor's 1 us wait is missed, and the host side
  can be on in the device role (`FlipInGuardDisagrees`). The enables agree with the role exactly
  when the role served last is still the role (`EnablesFollowServedRole`), always if no role is
  applied inside that wait (`SpacedEnablesAgree`), and a disagreement lasts until another role is
  applied (`ParkedPersists`).
- A role request whose update phase finds the manager inside its 10 ns pulse stays on record but
  wakes nobody, for any length of time (`RequestLeftIff`, `RequestIsLeft`).
- A payload whose update phase finds the copy thread inside its 10 ns pulse, or whose notification
  finds the device not configured, stays in EP2 until another one lands (`PayloadStuckIff`).
- An enumeration always reports success against this peer. Begun in another role it still ends
  enumerated, with all ids zero (`EnumerationCorrect`); the whole controller can get there
  (`EnumeratesWithoutIds`).
- A configuration read that is not answered to the host leaves the device descriptor in its buffer,
  and until it sets a configuration it has the device's subclass on record as the active one
  (`ConfigOnRecord`).
- An answer to the host's own configuration or BOS read that comes back once the role and the device
  enable have changed lands in the device's EP2 as if it were bulk data (`AnswerLandsInDevice`).
  Nothing else the host does ever reaches the device block (`HostChangesDeviceIff`).
- In the built wiring nobody ever configures the device block, so its copy thread never copies and
  its interrupt never rises (`DeviceStaysInert`).
- The register decoder masks with a 32-bit constant, so addresses repeat every 2^32
  (`AlignedIsIndex`).

## Model

| member | source | states |
|---|---|---|
| Descriptors.PackSetupPacket | src/usb3_host_controller.cpp:7-17 | fills the eight bytes of section 9.3 of the USB 3.0 specification, least significant byte first |
| Descriptors.PackedInjective | src/usb3_host_controller.cpp:7-17 | two setup packets with the same wire image are the same packet |
| Descriptors.PackedLayout | src/usb3_host_controller.cpp:7-17 | which byte of the wire image holds which field |
| Descriptors.DescriptorLayout | src/usb3_device_controller.cpp:25-29 | which byte of a device descriptor holds which field, section 9.6.1 |
| Descriptors.DescriptorRoundTrip | src/usb3_host_controller.cpp:50-54 | the host's reader recovers VID, PID and configuration count from the bytes of any device descriptor |
| Platform.EpFifo.Write | include/usb3_device_controller.h:81-84 | a write replaces the slot's payload |
| Platform.EpFifo.Read | include/usb3_device_controller.h:85-91 | a read empties a full slot and hands its payload over, and does nothing to an empty one |
| Platform.TransferRing.Enqueue | include/usb3_host_controller.h:36-39 | adds at the back, below the depth of 256 |
| Platform.TransferRing.Dequeue | include/usb3_host_controller.h:40-45 | takes from the front |
| Platform.ProtocolLayer.NextSeq | include/usb3_protocol_layer.h:42 | hands out numbers upward, wrapping at 2^32 |
| Platform.HostController.FromProtocol | src/usb3_host_controller.cpp:314-335 | keeps a non-empty inbound payload for the thread |
| Platform.Board.RouteTx | src/usb3_protocol_layer.cpp:31-55 | returns for every role, enable and slot state, with the whole re-entrant exchange in its closed form |
| Platform.Board.PeerTransport | src/sc_main.cpp:67-107 | the peer's reaction to any packet, its own answer and what that provokes included |
| Platform.Board.PeerHandleSetup | src/sc_main.cpp:112-145 | the peer's answer to each request, cut to the length asked for |
| Platform.Board.Upstream | src/usb3_protocol_layer.cpp:57-93 | handshakes stop at the router, stalls are marked and passed on |
| Platform.Board.ForwardToActive | src/usb3_protocol_layer.cpp:95-108 | the role decides who gets the packet; without a role the response stays incomplete |
| Platform.Board.DeviceFromProto | src/usb3_device_controller.cpp:52-108 | every packet kind, the disabled block and the missing metadata, with the response status |
| Platform.Board.DeviceHandleSetup | src/usb3_device_controller.cpp:110-245 | which requests change the device, which are answered and which stall |
| Platform.Board.SendToProtocol | src/usb3_device_controller.cpp:286-307 | the device's own sends, stamped with its address |
| Platform.DeviceController.HandleBulkOut | src/usb3_device_controller.cpp:247-260 | the payload lands in EP2 and the copy thread is notified |
| Platform.Board.CopyOnce | src/usb3_device_controller.cpp:313-329 | EP2 moves to EP1 and is announced, only when configured and full |
| Platform.Board.ProcessTransferRing | src/usb3_host_controller.cpp:256-312 | leaves on disable, blocks on an empty ring, else runs the head |
| Platform.Board.ResumeHost | src/usb3_host_controller.cpp:19-37 | one run of the host thread from any of its waits to the next |
| Platform.Board.EnqueueBulkTrb | src/usb3_host_controller.cpp:239-254 | queues a transfer of exactly that payload, length, device, endpoint and direction, and notifies the thread |
| Platform.Board.QueueOut | src/usb3_host_controller.cpp:230-233 | the new transfer at the back is the OUT asked for, with its data whole |
| Platform.Board.QueueIn | src/usb3_host_controller.cpp:235-237 | the new transfer at the back is the IN asked for, with its length |
| Platform.Board.Execute | src/usb3_host_controller.cpp:19-37 | any allowed schedule leaves every request of software executed or in the ring, unaltered and in order, and the peer's and the receive buffer those of the one-slot register over the requests |
| Platform.Board.ExecuteLoop | src/usb3_device_controller.cpp:309-336 | any allowed schedule leaves the payloads on the link and in the slots a subsequence of those that arrived, short by exactly the overwritten ones; configured flag and address are those asked for |
| RoleBlock.RoleSubsystem.RequestRole | src/usb3_role_manager.cpp:58-65 | records a host or a device request and notifies the manager |
| RoleBlock.RoleManager.Apply | src/usb3_role_manager.cpp:42-56 | a new role is written and its pulse begun; the same role does nothing |
| RoleBlock.RoleManager.Resume | src/usb3_role_manager.cpp:12-40 | one run of the detection thread from any of its waits |
| RoleBlock.RoleSwitchMonitor.Resume | src/usb3_drd_controller.cpp:42-67 | one run of the monitor from any of its waits |
| RoleBlock.RoleSubsystem.ForwardInputs | src/usb3_drd_controller.cpp:186-189 | both inputs are written to the internal signals, each to its own |
| RoleBlock.RoleSubsystem.Execute | src/usb3_drd_controller.cpp:42-67 | any allowed schedule ends with at most one enable high or pending, and with the role the arbiter last chose, written out |
| Registers.DrdRegisters.RaiseIrq | src/usb3_drd_controller.cpp:84-95 | sets bits and, if an enabled one is set then, raises the level and shadows the status |
| Registers.DrdRegisters.InterruptCollector | src/usb3_drd_controller.cpp:69-82 | raises each source seen high, in order, and shadows the address with the first |
| Registers.DrdRegisters.CfgTransport | src/usb3_drd_controller.cpp:106-178 | every access: short ones fail and take no time, the others add 10 ns; reads change nothing, writes follow the register map |
| TransportProps.RoutingNumbers | src/usb3_protocol_layer.cpp:44-46 | numbering is kept by every routed packet; other kinds take and change no number |
| TransportProps.SendingNumbers | src/usb3_protocol_layer.cpp:31-55 | numbering is kept across a whole re-entrant exchange |
| TransportProps.BareKeepsNumbers | src/usb3_protocol_layer.cpp:34-42 | a packet without metadata takes no number |
| TransportProps.SendReach | src/usb3_device_controller.cpp:91-102 | a send puts one packet on the wire, or exactly two when it bounces off a full EP1, which it empties |
| TransportProps.ReceiveIsolation | src/usb3_protocol_layer.cpp:95-108 | a link packet changes the device block only as device and enabled, the host's answer only as host |
| TransportProps.SendIsolation | src/usb3_protocol_layer.cpp:95-108 | the same for everything a send provokes |
| TransportProps.SendingCounts | src/sc_main.cpp:112-145 | no answer is ever a Set Address request |
| TransportProps.SentDevice | src/usb3_device_controller.cpp:52-108 | all a send can do to the device block is land one payload or take one |
| LinkProps.LinkAnswered | src/usb3_device_controller.cpp:52-245 | the device's answer to every packet it takes, field by field and byte by byte, or none; the response is an error exactly for a stall or a kind it does not take |
| LinkProps.LinkTaken | src/usb3_device_controller.cpp:226-260 | what else the packet does to slots, address and configured flag |
| LinkProps.LinkUnanswered | src/usb3_protocol_layer.cpp:57-108 | what happens to a packet in every other role and state: kept for the host, or nothing |
| LinkProps.PeerReplies | src/sc_main.cpp:112-145 | the peer's answer is the descriptor asked for, cut to the length asked for |
| LinkProps.SentWire | src/usb3_protocol_layer.cpp:31-55 | a send puts its own packet on the link unaltered, and nothing else but what it bounces off a full EP1 |
| LinkProps.CopyWire | src/usb3_device_controller.cpp:317-329 | a copy moves the payload and announces it with one ERDY |
| HostRuns.TransfersConserved | include/usb3_host_controller.h:32-47 | in every run executed transfers followed by the ring are exactly what software asked for, payload, device, endpoint and direction unaltered, in order; the ring holds at most 256 and takes more below that |
| HostRuns.TransfersRunEnabled | src/usb3_host_controller.cpp:256-263 | a transfer runs only with enable seen high in the same uninterrupted run, from the head, after a successful enumeration |
| HostRuns.NoWakeupIsLost | src/usb3_host_controller.cpp:239-261 | a thread blocked on a non-empty ring has a wakeup pending that the next update phase delivers; one blocked on enable has enable low and wakes with it |
| HostRuns.BulkRefinesRegister | src/usb3_host_controller.cpp:296-304 | in every run, with any role changes, the peer's buffer and the receive buffer are those of a one-slot register driven by the requests carried out, and no answer is pending between transfers |
| HostRuns.EchoReturns | src/sc_main.cpp:83-101 | after an OUT of some data and an IN carried as host, the receive buffer holds what software passed |
| HostRuns.CompletionAccounting | src/usb3_host_controller.cpp:306-310 | in every run transfer_done is high for exactly 1 ns per executed transfer and rises once per maximal burst, transfers whose pulses touch sharing an edge |
| HostRuns.EnumerationCorrect | src/usb3_host_controller.cpp:39-103 | whenever enumerated: configuration 1, peer configured, and the ids are the peer's exactly when the first request was answered to the host |
| HostRuns.EnumerationAdvances | src/usb3_host_controller.cpp:39-103 | an enumeration against the peer cannot fail or stall, and its pulse ends 2 035 010 ns after it began |
| HostPulses.EnumerationsAnnounced | src/usb3_host_controller.cpp:93-102 | enumeration_done is high for exactly 10 ns per completed enumeration |
| HostConfig.ConfigOnRecord | src/usb3_host_controller.cpp:75-83 | the active configuration on record between reading and setting it, answered or not |
| HostWire.RequestOnWire | src/usb3_host_controller.cpp:105-172 | every request goes out as one frame with each field, address and byte as the enumeration has it |
| HostWire.StatusOnWire | src/usb3_host_controller.cpp:207-226 | and is closed by one status frame to the same address in the right direction |
| HostWire.TransferOnWire | src/usb3_host_controller.cpp:263-296 | the k-th transfer puts the k-th request's data, device and endpoint on the link |
| HostWire.NothingElseOnWire | src/usb3_host_controller.cpp:150-226 | the host side puts nothing else on the link |
| HostRuns.AddressesAgree | src/usb3_host_controller.cpp:61-68 | in every run, after k Set Address requests the peer holds k mod 128, and the host and the address output k mod 256 from the moment it is recorded |
| HostRuns.FirstAddressesDistinct | src/usb3_host_controller.cpp:61-68 | in every run, recorded addresses of the first 127 are non-zero, the peer's, and different from those recorded before |
| HostRuns.AddressesAgreeIff | src/sc_main.cpp:133-136 | in every run a recorded address is the peer's if and only if the number of requests is below 128 modulo 256 |
| HostRuns.PacketsNumbered | src/usb3_protocol_layer.cpp:110-120 | in every run against the peer the k-th numbered packet carries k mod 2^32, and 2^32 consecutive ones differ pairwise |
| LoopbackRuns.PacketsNumbered | src/usb3_protocol_layer.cpp:31-55 | the same over any mix of host sends of every kind, sends without metadata, link packets and the device's own answers |
| LoopbackRuns.PlainSendsKeepCount | src/usb3_protocol_layer.cpp:31-42 | sends of other kinds, or without metadata, go out whole and neither take nor alter a number, answers included |
| RoleRuns.EnablesExclude | src/usb3_drd_controller.cpp:42-67 | never both enables, in visible and pending values alike |
| RoleRuns.DeadTime | src/usb3_drd_controller.cpp:55-64 | between an enable being high and any enable rising both stay low for at least 1 us |
| RoleRuns.GuardLasts | src/usb3_drd_controller.cpp:46-66 | the monitor switches on the side of the role it read at the edge, exactly 1 us after it answered |
| RoleRuns.EdgesAreRoleChanges | src/usb3_role_manager.cpp:42-56 | the roles shown at the edges of role_changed are exactly the roles taken, in order; only the newest can lack its edge yet |
| RoleRuns.RolesAlternate | src/usb3_role_manager.cpp:42-50 | successive roles differ, and the last is the manager's and the value last written |
| RoleRuns.PulsesLast | src/usb3_role_manager.cpp:52-55 | role_changed is high for exactly 10 ns per role change |
| RoleRuns.InputsAreShown | src/usb3_drd_controller.cpp:186-189 | the manager sees the inputs the environment drove last before the last update phase |
| RoleRuns.WakesIff | src/usb3_role_manager.cpp:16-19 | an update phase wakes the manager exactly if it waits there and the inputs shown change or a role has been asked for |
| RoleRuns.RoleIsVerdict | src/usb3_role_manager.cpp:16-40 | the role is the arbiter's verdict at the last wakeup over the inputs driven and the requests since the wakeup before |
| RoleRuns.RequestWakesIff | src/usb3_role_manager.cpp:58-65 | the first update phase after a request wakes the manager if and only if it is waiting for input there |
| RoleRuns.RequestLeftIff | src/usb3_role_manager.cpp:16-40 | a request is left on record with no wakeup due if and only if none had taken it by that phase and the manager was in its pulse there |
| RoleRuns.EnablesFollowServedRole | src/usb3_drd_controller.cpp:46-66 | the enables of a parked monitor match the role at the last edge it answered, hence the role in force iff that is still it |
| RoleRuns.SpacedEnablesAgree | src/usb3_drd_controller.cpp:46-66 | with no role applied inside a guard time a parked monitor's enables match the role |
| RoleRuns.ParkedPersists | src/usb3_drd_controller.cpp:46-66 | agreement or disagreement of a parked monitor's enables with the role lasts until a role is applied |
| LoopbackWire.AcceptedIsArrived | src/usb3_device_controller.cpp:77-80 | the payloads accepted are exactly those that arrived while the environment had the block listen |
| LoopbackWire.DeliveredIsHandedOn | src/usb3_device_controller.cpp:262-276 | the payloads taken from EP1 are exactly those of the BULK_IN packets the device put on the link |
| LoopbackRuns.OrderPreserved | src/usb3_device_controller.cpp:309-323 | payloads on the link from the device, then EP1, then EP2, are a subsequence of those that arrived, and a full EP2 holds the last |
| LoopbackRuns.LosslessIffNoOverwrite | include/usb3_device_controller.h:77-92 | nothing that arrived is missing if and only if nothing was written over, and exactly as many are missing as were |
| LoopbackRuns.LostIsOverwrites | src/usb3_device_controller.cpp:257-258 | which steps lose a payload, counted over every run |
| LoopbackRuns.DisciplineIsLossless | src/usb3_device_controller.cpp:247-260 | a driver that waits for a configured block, an empty EP1 and a parked thread with no notification pending loses nothing |
| LoopbackRuns.CopiesAnnounced | src/usb3_device_controller.cpp:324-333 | bulk_irq is high for exactly 10 ns per copy, and one ERDY is on the link for each |
| LoopbackRuns.DeviceChanges | src/usb3_device_controller.cpp:226-245 | which steps can change the device's slots, address or configured flag |
| LoopbackRuns.SettingsAreRequests | src/usb3_device_controller.cpp:212-241 | the device is configured if and only if the link asked for it while it listened, and its address is the last one asked for |
| LoopbackRuns.DataNeedsConfiguration | src/usb3_device_controller.cpp:309-323 | EP1 holds data only after such a request |
| LoopbackWakeups.PayloadStuckIff | src/usb3_device_controller.cpp:309-336 | the payload landed last is left in EP2 with nothing pending if and only if its update phase found it there and the copy thread in its pulse, or the thread has found the block unconfigured since |
| LoopbackScenario.LoopbackHappens | src/usb3_device_controller.cpp:309-336 | for any payload, a run that brings it in and sends it out again |
| Registers.StatusIsHistory | src/usb3_drd_controller.cpp:160-164 | a status bit is set if and only if it was raised after it was last cleared |
| Registers.IrqIsHistory | src/usb3_drd_controller.cpp:84-89 | the level is high if and only if a raise found an enabled bit after the last clear to zero; a high level means a non-zero status |
| Registers.EventAgreesIff | src/usb3_drd_controller.cpp:160-168 | which writes make the level differ from status and mask, and which events end that, exactly |
| Registers.DisagreesIffBroken | src/usb3_drd_controller.cpp:84-89 | in every history the level differs from status and mask if and only if it was broken and not mended since |
| Registers.LevelAgreesIff | src/usb3_drd_controller.cpp:160-168 | it follows them throughout if and only if no write of the breaking kinds is ever made |
| Registers.IrqIsStatusWhileUnmasked | src/usb3_drd_controller.cpp:166-168 | while the mask is never written the level is high exactly when the status is non-zero |
| Registers.MaskWritesBreak | src/usb3_drd_controller.cpp:166-168 | unmasking does not raise the level and masking does not drop it |
| Registers.AcknowledgeBreaks | src/usb3_drd_controller.cpp:160-164 | with the mask set once, acknowledging every enabled bit can leave the level high |
| InterruptRuns.EveryRiseIsRaised | src/usb3_drd_controller.cpp:69-82 | whatever drives the sources, each rise of transfer_done, enumeration_done or bulk_irq has a collector run before the next update phase that leaves its bit set, and the level high if enabled |
| InterruptRuns.OnlySourcesRaise | src/usb3_drd_controller.cpp:69-82 | those bits come up only in a collector run that sees their source high |
| InterruptRuns.CollectorWakesIff | include/usb3_drd_controller.h:107-112 | what makes the collector runnable |
| InterruptRuns.RunIsHistory | src/usb3_drd_controller.cpp:69-95 | in every run of collector, monitor and register writes, status and level are those of the event history |
| Registers.ReadsReturn | src/usb3_drd_controller.cpp:97-145 | the word a read returns at every address after any history, bit by bit |
| Registers.RoleAskedIff | src/usb3_drd_controller.cpp:154-159 | a write asks for a role exactly if it writes 1 or 2 to 0x08 |
| Registers.AlignedIsIndex | src/usb3_drd_controller.cpp:108 | which register an address names |
| SystemRuns.PartsRun | src/usb3_drd_controller.cpp:11-40 | step for step, every run of the wired whole is a run of the role subsystem, of the host side and of the interrupt block |
| SystemRuns.AlwaysWired | src/usb3_drd_controller.cpp:11-40 | in every state of the whole each part is shown what another drives |
| SystemRuns.PartsKeepInvariants | src/usb3_drd_controller.cpp:11-40 | the invariants of the parts hold of the whole |
| SystemRuns.CopierSteps | src/usb3_device_controller.cpp:309-336 | the copy thread's part of a step of the whole is its step in the loopback machine |
| SystemRuns.WholeConserves | include/usb3_host_controller.h:32-47 | in the whole, executed transfers followed by the ring are exactly what software asked for, unaltered |
| SystemRuns.WholeEchoes | src/sc_main.cpp:241-262 | in the whole, what software passes to a bulk OUT is in the receive buffer after a bulk IN carried as host |
| SystemRuns.WholeArbitrates | src/usb3_role_manager.cpp:16-40 | in the whole the role is the verdict over the inputs driven and the writes to 0x08 |
| SystemRuns.RoleActionIs | src/usb3_drd_controller.cpp:154-189 | which steps of software and environment reach the role subsystem, and as what |
| SystemReads.ReadsOfWhole | src/usb3_drd_controller.cpp:97-145 | what a register read of the whole returns at every address, at every moment |
| SystemRuns.WholeAccounts | src/usb3_host_controller.cpp:306-310 | in the whole, transfer_done is high for 1 ns per executed transfer and rises once per burst |
| SystemRuns.EveryRiseSetsStatus | src/usb3_drd_controller.cpp:69-95 | in the whole, every rise of transfer_done or enumeration_done has set its status bit before the next update phase |
| SystemRuns.SwitchSetsRoleChanged | src/usb3_drd_controller.cpp:55-66 | ROLE_CHANGED comes up exactly when the monitor ends a guard time |
| SystemRuns.WholeInterruptHistory | src/usb3_drd_controller.cpp:84-95 | in the whole, status, level and their disagreement are those of the event history |
| SystemDevice.TransfersSpareDevice | src/usb3_drd_controller.cpp:55-64 | in the whole no transfer ever touches the device block, whatever the role has become |
| SystemDevice.NoTransferNearDevice | src/usb3_drd_controller.cpp:55-64 | in the whole every transfer began at least 1 us before the device side is switched on |
| SystemDevice.HostChangesDeviceIff | src/usb3_protocol_layer.cpp:95-108 | a run of the host thread changes the device block if and only if device role and enable are up and it reads a configuration or BOS that is not empty; the answer then lands in EP2 |
| SystemDevice.EnumerationSparesDevice | src/usb3_host_controller.cpp:26-35 | an enumeration begins only with the host side on, so its first request never reaches the device block |
| SystemDevice.DeviceStaysInert | src/sc_main.cpp:211-213 | in the built wiring the device block stays unconfigured at address 0, copies nothing and hands nothing on |
| SystemScenarios.FlipInGuardDisagrees | src/usb3_drd_controller.cpp:55-64 | a reachable state of the whole where a parked monitor has the host side on in the device role |
| SystemScenarios.EnumeratesWithoutIds | src/usb3_host_controller.cpp:39-103 | for every peer, a reachable state of the whole that counts as enumerated with every id zero |
| SystemScenarios.AnswerLandsInDevice | src/usb3_device_controller.cpp:77-80 | for every non-empty configuration, a reachable step of the whole that lands it in the device's EP2 |
| SystemScenarios.RequestIsLeft | src/usb3_role_manager.cpp:52-65 | a reachable state of the whole with a device request on record, the host role, and nothing to bring the request up |
| SystemScenarios.EchoHappens | src/sc_main.cpp:241-262 | for any data, a run of the whole from reset in which it goes out and comes back to the receive buffer |

## Left out

- Kernel internals, sockets, extension memory and pointer lifetimes: transport is method calls on values, the kernel is evaluate, update, events and timed waits.
- Platform.Board.DeviceHandleSetup: leaves out the 2 ms wait inside Set Address, which holds the caller, not the block; it follows the last change the handler makes, so the interleavings it allows are those of the loopback machine's arbitrary packets.
- The data-out stage of a control transfer (src/usb3_host_controller.cpp:183-204): no caller in the repository has one.
- Transfers without interrupt-on-completion: every transfer is made by `enqueue_bulk_trb`, which sets the flag.
- Contents of the configuration, BOS and string descriptors: arbitrary byte strings here.
- Packets that reach the controller other than as the peer's answers: the whole is wired to the peer alone, as the top level wires it. `Loopback` takes arbitrary ones.
- CTRL soft reset, logging, string formatting, the build and the scenario script.
- Physical layer, link training, retry after NRDY, and two controllers wired back to back, none of which the repository models.
