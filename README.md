# SRTM low-power audio link-up and PDM-to-SAI buffer ring, in Dafny

This project models two small sequential cores of NXP's i.MX8M demo programs.

1. **The SRTM audio demo (`app_srtm.c`).** It covers the peer-core link-up
   state machine (`srtmState`: Run, then LinkedUp), the monitor task's wake
   loop, the link-up poll run by the dispatcher, and the audio-device
   lifecycle across suspend and resume. That lifecycle includes the one-shot
   audio-board power-on, and the low-power manager's block-sleep count raised
   around each codec I2C transfer.
2. **The PDM-to-SAI loop-back demo (`pdm_sai_sdma.c`).** It covers the read
   and write indices that walk a 4-slot × 1024-byte buffer, and the
   valid-block counter changed by the two DMA completion callbacks.

The outside world is reduced to inputs and a log:

- Whether the transport is linked up is a boolean input.
- So are whether a dispatcher procedure could be allocated and the status a
  driver returns.
- Timer starts, semaphore gives, channel announcements, dispatcher stops and
  starts, and SDMA/I2C init and deinit are appended to an event log, together
  with the board power-on.
- The binary semaphore `monSig` is a token flag. A monitor wake is a method
  call, and it does nothing when there is no token.
- The one-shot link-up timer is a running flag. A timer that is not running
  does not expire.

Files:

- `ctypes.dfy` (module `CTypes`): `uint32`, status codes, `Option`.
- `srtm_spec.dfy` (module `SrtmSpec`): the SRTM globals as a `Snapshot`
  value, one function per operation, and `Replay` over a sequence of
  operations.
- `srtm_proofs.dfy` (module `SrtmProofs`): tick conversion, monitor wake
  outcomes, and invariants over any sequence of operations after boot.
- `srtm_app.dfy` (module `SrtmApp`): class `AudioApp`, the globals updated in
  place. Each method is proved equal to its `SrtmSpec` function.
- `pdm_ring.dfy` (module `PdmRing`): constants, slot windows, index advance,
  uint32 counter updates, and cyclic-order lemmas.
- `pdm_loop.dfy` (module `PdmLoop`): class `Demo`, the globals, the loop body
  and the two callbacks.

Behaviours of the code worth knowing, which the model keeps:

- `APP_SRTM_Linkup` creates a new peer core every time it announces the
  channel, including on a re-announcement in LinkedUp.
- When the link is already up at `APP_SRTM_InitPeerCore`, the channel is
  announced, even though the comment at `app_srtm.c:366` says it need not
  be. `srtmState` stays Run in that case and no timer is started.
- In this file the monitor's semaphore is given only at monitor start and by
  the poll that sees the link come up. A re-announcement in LinkedUp
  therefore needs a give from outside this file. The model has that as the
  `MonitorSignalGiven` operation, because `monSig` is a global.
- When `SRTM_Procedure_Create` fails at a timer expiry, no poll is posted
  and the one-shot timer is not restarted. Only a monitor wake in Run
  restarts it (through `APP_SRTM_InitPeerCore`), and after boot a wake needs
  a give from outside this file. So without such a give the state stays Run and the channel is
  never announced (`SrtmProofs.FailedAllocationEndsPolling`).
- When the link is already up at the first wake, `srtmState` stays Run
  unless something outside this file gives `monSig`
  (`SrtmProofs.LinkedUpAtFirstWakeStaysRun`). Such a give then runs
  `rpmsg_lite_remote_init` again instead of only re-announcing
  (`SrtmProofs.ReinitialisedOnSignalInRun`). If that wake finds the link
  down, it starts the timer, and a later poll can still reach LinkedUp.

## Model

| member | source | states |
|---|---|---|
| SrtmSpec.MsToTick | boards/flex-imx8mm-pi/demo_apps/sai_low_power_audio/app_srtm.c:35 | the result is at most the wrapped sum (ms + period − 1) mod 2^32, so it fits in a uint32; the ceiling of ms / period, and its failure once the sum wraps, are stated in SrtmProofs.MsToTickIsCeiling and SrtmProofs.MsToTickFallsShortWhenWrapped |
| SrtmProofs.MsToTickIsCeiling | boards/flex-imx8mm-pi/demo_apps/sai_low_power_audio/app_srtm.c:35 | APP_MS2TICK is the ceiling of ms / tick period while the uint32 sum does not wrap: ticks × period ≥ ms, (ticks − 1) × period < ms when ms > 0, and ticks is 0 iff ms is 0 |
| SrtmProofs.MsToTickFallsShortWhenWrapped | boards/flex-imx8mm-pi/demo_apps/sai_low_power_audio/app_srtm.c:35 | for every ms and period > 0 with ms + period − 1 ≥ 2^32, ticks × period < ms: the result falls below the ceiling exactly when MsToTickIsCeiling's precondition fails |
| SrtmProofs.MsToTickWrapsNearLimit | boards/flex-imx8mm-pi/demo_apps/sai_low_power_audio/app_srtm.c:35 | near 2^32 the uint32 sum wraps, and the macro gives 0 ticks for 0xFFFFFFFF ms with a 10 ms tick |
| SrtmSpec.ServiceIdle | boards/flex-imx8mm-pi/demo_apps/sai_low_power_audio/app_srtm.c:93-106 | idle iff both Tx and Rx are Closed; either one not Closed gives false |
| SrtmSpec.Initial | boards/flex-imx8mm-pi/demo_apps/sai_low_power_audio/app_srtm.c:514-528 | after APP_SRTM_Init: state Run, semaphore empty, timer stopped, dispatcher not started, board not powered, empty log |
| SrtmSpec.PollLinkup | boards/flex-imx8mm-pi/demo_apps/sai_low_power_audio/app_srtm.c:301-316 | LinkedUp: no effect at all. Run with link up: LinkedUp, one more semaphore give, no timer start. Run with link down: stays Run, timer restarted, no give. No announcement, no board power-on |
| SrtmSpec.LinkupTimerCallback | boards/flex-imx8mm-pi/demo_apps/sai_low_power_audio/app_srtm.c:318-326 | a stopped timer does not fire; an expiry stops the one-shot timer and runs the poll only if the procedure could be allocated |
| SrtmSpec.Linkup | boards/flex-imx8mm-pi/demo_apps/sai_low_power_audio/app_srtm.c:336-358 | one more channel announcement on one more new peer core; no state, token, timer, dispatcher or power change |
| SrtmSpec.InitPeerCore | boards/flex-imx8mm-pi/demo_apps/sai_low_power_audio/app_srtm.c:360-374 | transport initialised once; channel announced iff the link is up, timer started iff it is down; state unchanged |
| SrtmSpec.StopDispatcher | boards/flex-imx8mm-pi/demo_apps/sai_low_power_audio/app_srtm.c:495 | dispatcher stopped, one Stop logged, no other counted event |
| SrtmSpec.StartDispatcher | boards/flex-imx8mm-pi/demo_apps/sai_low_power_audio/app_srtm.c:497 | dispatcher running, one Start logged, no other counted event |
| SrtmSpec.WakeBody | boards/flex-imx8mm-pi/demo_apps/sai_low_power_audio/app_srtm.c:493-505 | in Run: announce iff link up, else timer start; in LinkedUp: announce again, no timer; state, token and dispatcher untouched |
| SrtmSpec.MonitorWake | boards/flex-imx8mm-pi/demo_apps/sai_low_power_audio/app_srtm.c:490-506 | without a token nothing changes; with one the token is taken, the state is unchanged and the dispatcher is left running |
| SrtmSpec.InitAudioDevice | boards/flex-imx8mm-pi/demo_apps/sai_low_power_audio/app_srtm.c:376-395 | SDMA and I2C initialised once each; board powered iff the flag was clear; flag and codec handle set afterwards |
| SrtmSpec.DeinitAudioDevice | boards/flex-imx8mm-pi/demo_apps/sai_low_power_audio/app_srtm.c:397-401 | I2C and SDMA deinitialised once each; power flag and codec handle not reset; link state untouched |
| SrtmSpec.InitAudioService | boards/flex-imx8mm-pi/demo_apps/sai_low_power_audio/app_srtm.c:402-474 | runs the device init (SDMA and I2C initialised once each, board powered iff the flag was clear, codec bound to the I2C handle) and registers the service once; state, token, timer and dispatcher untouched; no announcement |
| SrtmSpec.MonitorTaskStart | boards/flex-imx8mm-pi/demo_apps/sai_low_power_audio/app_srtm.c:481-489 | the service registered once, the dispatcher started once and the semaphore given once, so it holds a token; board powered; state and timer untouched; no announcement |
| SrtmSpec.Boot | boards/flex-imx8mm-pi/demo_apps/sai_low_power_audio/app_srtm.c:514-528 | after init and monitor start: Run, token given, timer stopped, board powered exactly once, nothing announced, no timer started |
| SrtmSpec.I2cTransfer | boards/flex-imx8mm-pi/demo_apps/sai_low_power_audio/app_srtm.c:224-276 | the transfer runs with the block-sleep count one higher, and the count afterwards is what it was before |
| SrtmSpec.GiveMonitorSignal | boards/flex-imx8mm-pi/demo_apps/sai_low_power_audio/app_srtm.c:76 | a give from outside this file: token set, one more give, state and timer untouched |
| SrtmProofs.MonitorWakeBracketed | boards/flex-imx8mm-pi/demo_apps/sai_low_power_audio/app_srtm.c:490-506 | a wake that takes the token logs exactly one Stop, first, and one Start, last, and leaves the dispatcher running |
| SrtmProofs.MonitorWakeInRun | boards/flex-imx8mm-pi/demo_apps/sai_low_power_audio/app_srtm.c:493-498 | a wake in Run stays in Run, initialises the transport once, announces iff the link is up and otherwise starts the timer |
| SrtmProofs.MonitorWakeInLinkedUp | boards/flex-imx8mm-pi/demo_apps/sai_low_power_audio/app_srtm.c:499-505 | a wake in LinkedUp announces again on a new peer core and starts no timer |
| SrtmProofs.StepOnlyLinksUp | boards/flex-imx8mm-pi/demo_apps/sai_low_power_audio/app_srtm.c:307 | the only change of srtmState any operation makes is Run to LinkedUp, by a timer expiry whose poll ran and saw the link up |
| SrtmProofs.LinkedUpIsStable | boards/flex-imx8mm-pi/demo_apps/sai_low_power_audio/app_srtm.c:303-307 | once LinkedUp, every sequence of operations stays LinkedUp |
| SrtmProofs.AudioBoardPoweredAtMostOnce | boards/flex-imx8mm-pi/demo_apps/sai_low_power_audio/app_srtm.c:388-392 | over any sequence of operations the board is powered at most once, the flag matches the log, and once set it stays set |
| SrtmProofs.AudioBoardPoweredOncePerBoot | boards/flex-imx8mm-pi/demo_apps/sai_low_power_audio/app_srtm.c:529-537 | after boot, whatever suspends and resumes follow, the board has been powered exactly once |
| SrtmProofs.BlockSleepCountBalanced | boards/flex-imx8mm-pi/demo_apps/sai_low_power_audio/app_srtm.c:243-246 | every sequence of operations leaves the block-sleep count where it was |
| SrtmProofs.AnnouncedAtMostOnce | boards/flex-imx8mm-pi/demo_apps/sai_low_power_audio/app_srtm.c:489-505 | without gives from outside this file, the announce invariant holds throughout and the channel is announced at most once |
| SrtmProofs.AnnouncedAtMostOncePerBoot | boards/flex-imx8mm-pi/demo_apps/sai_low_power_audio/app_srtm.c:481-506 | from boot, without gives from outside this file, the channel is announced at most once |
| SrtmProofs.FailedPollsKeepPolling | boards/flex-imx8mm-pi/demo_apps/sai_low_power_audio/app_srtm.c:310-314 | while the link stays down, n polls keep Run with the timer running, start the timer n more times and announce nothing |
| SrtmProofs.LinkupAfterRetries | boards/flex-imx8mm-pi/demo_apps/sai_low_power_audio/app_srtm.c:301-316 | link down at boot, n failed polls, one successful poll and a wake give LinkedUp with exactly one announcement, one peer core and n + 1 timer starts |
| SrtmProofs.ReannouncedOnSignal | boards/flex-imx8mm-pi/demo_apps/sai_low_power_audio/app_srtm.c:499-505 | in LinkedUp, a give and a wake announce once more, on one more new peer core |
| SrtmProofs.NothingPendingIsQuiet | boards/flex-imx8mm-pi/demo_apps/sai_low_power_audio/app_srtm.c:489-506 | with no token and the timer stopped, and no outside give, every sequence of operations keeps the state, no token, the timer stopped, and adds no announcement, timer start or transport init |
| SrtmProofs.FailedAllocationEndsPolling | boards/flex-imx8mm-pi/demo_apps/sai_low_power_audio/app_srtm.c:318-326 | an expiry whose procedure cannot be allocated leaves the timer stopped for good; without an outside give the state stays Run and nothing more is announced |
| SrtmProofs.LinkedUpAtFirstWakeStaysRun | boards/flex-imx8mm-pi/demo_apps/sai_low_power_audio/app_srtm.c:364-368 | link up at the first wake after boot: one announcement, and the state stays Run with nothing pending whatever follows, absent an outside give |
| SrtmProofs.ReinitialisedOnSignalInRun | boards/flex-imx8mm-pi/demo_apps/sai_low_power_audio/app_srtm.c:493-498 | in Run, a give and a wake initialise the transport once more and announce iff the link is up; the state stays Run |
| SrtmApp.AudioApp.constructor | boards/flex-imx8mm-pi/demo_apps/sai_low_power_audio/app_srtm.c:514-528 | the globals start as SrtmSpec.Initial |
| SrtmApp.AudioApp.PollLinkup | boards/flex-imx8mm-pi/demo_apps/sai_low_power_audio/app_srtm.c:301-316 | the new globals are SrtmSpec.PollLinkup of the old |
| SrtmApp.AudioApp.LinkupTimerCallback | boards/flex-imx8mm-pi/demo_apps/sai_low_power_audio/app_srtm.c:318-326 | the new globals are SrtmSpec.LinkupTimerCallback of the old |
| SrtmApp.AudioApp.Linkup | boards/flex-imx8mm-pi/demo_apps/sai_low_power_audio/app_srtm.c:336-358 | the new globals are SrtmSpec.Linkup of the old |
| SrtmApp.AudioApp.InitPeerCore | boards/flex-imx8mm-pi/demo_apps/sai_low_power_audio/app_srtm.c:360-374 | the new globals are SrtmSpec.InitPeerCore of the old |
| SrtmApp.AudioApp.MonitorWake | boards/flex-imx8mm-pi/demo_apps/sai_low_power_audio/app_srtm.c:490-506 | woke iff a token was there; the new globals are SrtmSpec.MonitorWake of the old |
| SrtmApp.AudioApp.StopDispatcherNow | boards/flex-imx8mm-pi/demo_apps/sai_low_power_audio/app_srtm.c:495 | the new globals are SrtmSpec.StopDispatcher of the old |
| SrtmApp.AudioApp.RunWakeBody | boards/flex-imx8mm-pi/demo_apps/sai_low_power_audio/app_srtm.c:493-505 | the new globals are SrtmSpec.WakeBody of the old |
| SrtmApp.AudioApp.StartDispatcherNow | boards/flex-imx8mm-pi/demo_apps/sai_low_power_audio/app_srtm.c:497 | the new globals are SrtmSpec.StartDispatcher of the old |
| SrtmApp.AudioApp.InitAudioDevice | boards/flex-imx8mm-pi/demo_apps/sai_low_power_audio/app_srtm.c:376-395 | the new globals are SrtmSpec.InitAudioDevice of the old |
| SrtmApp.AudioApp.DeinitAudioDevice | boards/flex-imx8mm-pi/demo_apps/sai_low_power_audio/app_srtm.c:397-401 | the new globals are SrtmSpec.DeinitAudioDevice of the old |
| SrtmApp.AudioApp.InitAudioService | boards/flex-imx8mm-pi/demo_apps/sai_low_power_audio/app_srtm.c:402-474 | the new globals are SrtmSpec.InitAudioService of the old |
| SrtmApp.AudioApp.MonitorTaskStart | boards/flex-imx8mm-pi/demo_apps/sai_low_power_audio/app_srtm.c:481-489 | the new globals are SrtmSpec.MonitorTaskStart of the old |
| SrtmApp.AudioApp.Suspend | boards/flex-imx8mm-pi/demo_apps/sai_low_power_audio/app_srtm.c:529-532 | suspend is exactly the device deinit |
| SrtmApp.AudioApp.Resume | boards/flex-imx8mm-pi/demo_apps/sai_low_power_audio/app_srtm.c:534-537 | resume is exactly the device init |
| SrtmApp.AudioApp.I2cSend | boards/flex-imx8mm-pi/demo_apps/sai_low_power_audio/app_srtm.c:224-249 | returns the transfer's status unchanged; the new globals are SrtmSpec.I2cTransfer of the old, for a write |
| SrtmApp.AudioApp.I2cReceive | boards/flex-imx8mm-pi/demo_apps/sai_low_power_audio/app_srtm.c:251-276 | returns the transfer's status unchanged; the new globals are SrtmSpec.I2cTransfer of the old, for a read |
| PdmRing.SlotWindow | boards/evkmimx8mm/driver_examples/pdm/pdm_sai_sdma/pdm_sai_sdma.c:231-232 | the window of slot idx is BUFFER_SIZE bytes, starts at idx × BUFFER_SIZE, and ends inside the BUFFER_SIZE × BUFFER_NUMBER buffer |
| PdmRing.SlotWindowsDisjoint | boards/evkmimx8mm/driver_examples/pdm/pdm_sai_sdma/pdm_sai_sdma.c:69 | windows of different slots do not overlap |
| PdmRing.Advance | boards/evkmimx8mm/driver_examples/pdm/pdm_sai_sdma/pdm_sai_sdma.c:233-240 | the index stays below BUFFER_NUMBER; it moves to (idx + 1) mod BUFFER_NUMBER on success and is unchanged otherwise |
| PdmRing.IndexAfter | boards/evkmimx8mm/driver_examples/pdm/pdm_sai_sdma/pdm_sai_sdma.c:226-256 | after any run of attempted transfers the index is below BUFFER_NUMBER |
| PdmRing.IndexAfterCountsAccepted | boards/evkmimx8mm/driver_examples/pdm/pdm_sai_sdma/pdm_sai_sdma.c:233-240 | the index after a run is the start plus the number of accepted transfers, mod BUFFER_NUMBER |
| PdmRing.SlotsUsed | boards/evkmimx8mm/driver_examples/pdm/pdm_sai_sdma/pdm_sai_sdma.c:231-240 | one slot per accepted transfer |
| PdmRing.SlotsUsedCyclic | boards/evkmimx8mm/driver_examples/pdm/pdm_sai_sdma/pdm_sai_sdma.c:231-240 | the k-th accepted transfer uses slot (start + k) mod BUFFER_NUMBER: 0, 1, 2, 3, 0, … from index 0 |
| PdmRing.IndexAfterSnoc | boards/evkmimx8mm/driver_examples/pdm/pdm_sai_sdma/pdm_sai_sdma.c:233-240 | one more attempt at the end of a run advances the index from where the run left it |
| PdmRing.SlotsUsedSnoc | boards/evkmimx8mm/driver_examples/pdm/pdm_sai_sdma/pdm_sai_sdma.c:231-240 | one more attempt at the end of a run uses, if accepted, the slot the run left the index at |
| PdmRing.CaptureComplete | boards/evkmimx8mm/driver_examples/pdm/pdm_sai_sdma/pdm_sai_sdma.c:86-89 | the count drops by one, wrapping from 0 to UINT32_MAX |
| PdmRing.PlaybackComplete | boards/evkmimx8mm/driver_examples/pdm/pdm_sai_sdma/pdm_sai_sdma.c:91-101 | the count is unchanged on kStatus_SAI_TxError; otherwise it rises by one, wrapping from UINT32_MAX to 0 |
| PdmRing.CaptureThenPlaybackRestores | boards/evkmimx8mm/driver_examples/pdm/pdm_sai_sdma/pdm_sai_sdma.c:86-101 | a capture completion and a non-error playback completion cancel out, in either order, including across the wrap |
| PdmLoop.Demo.constructor | boards/evkmimx8mm/driver_examples/pdm/pdm_sai_sdma/pdm_sai_sdma.c:70-72 | the counter starts at BUFFER_NUMBER, both indices at 0, with no attempts recorded |
| PdmLoop.Demo.SlotsCyclic | boards/evkmimx8mm/driver_examples/pdm/pdm_sai_sdma/pdm_sai_sdma.c:226-256 | in every reachable state each index is the number of accepted transfers mod BUFFER_NUMBER, and the k-th accepted transfer of each kind used slot k mod BUFFER_NUMBER |
| PdmLoop.Demo.ReceiveStep | boards/evkmimx8mm/driver_examples/pdm/pdm_sai_sdma/pdm_sai_sdma.c:229-241 | a receive is attempted iff the counter is above 0, on the window of the current read slot; the index advances with wrap only on success; the attempt is recorded and, if accepted, its slot; the index stays PdmRing.IndexAfter and the slots PdmRing.SlotsUsed of the recorded attempts from 0 |
| PdmLoop.Demo.SendStep | boards/evkmimx8mm/driver_examples/pdm/pdm_sai_sdma/pdm_sai_sdma.c:243-255 | a send is attempted iff the counter is below BUFFER_NUMBER, on the window of the current write slot; the index advances with wrap only on success; the attempt and slot are recorded as for receives, and the same invariant is kept |
| PdmLoop.Demo.LoopIteration | boards/evkmimx8mm/driver_examples/pdm/pdm_sai_sdma/pdm_sai_sdma.c:226-256 | after every iteration both indices are in [0, BUFFER_NUMBER), with the guards, windows, advances and recorded attempts and slots of the two halves |
| PdmLoop.Demo.PdmCallback | boards/evkmimx8mm/driver_examples/pdm/pdm_sai_sdma/pdm_sai_sdma.c:86-89 | the counter becomes PdmRing.CaptureComplete of the old one |
| PdmLoop.Demo.SaiCallback | boards/evkmimx8mm/driver_examples/pdm/pdm_sai_sdma/pdm_sai_sdma.c:91-101 | the counter becomes PdmRing.PlaybackComplete of the old one and the status |

## Left out

- FreeRTOS and SRTM primitives are not modelled: task creation, semaphore and timer creation, dispatcher creation and its run loop, and procedure posting. Whether a procedure could be allocated is a boolean input. The semaphore is a token flag, the timer a running flag, and the dispatcher a running flag plus logged Stop/Start.
- The dispatcher's procedure queue is left out. A posted link-up poll runs at the timer expiry that posts it. The timer is one-shot and is restarted only by the monitor or by the poll itself. When nothing outside this file gives `monSig`, at most one link-up activity is outstanding: `SrtmProofs.AnnouncedAtMostOnce` keeps `SrtmProofs.AnnounceInv`, under which a token and a running timer never coexist. With such a give they can coexist: a give after a failed first poll leaves both set, and a wake in Run then runs `APP_SRTM_InitPeerCore` (`rpmsg_lite_remote_init`) again while the timer is still running.
- Concurrency is left out. Callbacks, the timer and the monitor run as whole method calls, one at a time. In particular a DMA callback cannot change `s_bufferValidBlock` between the loop's two reads of it.
- The monitor task's endless loop is one method call per iteration. The PDM `while (1)` loop is one method call per iteration.
- The fatal asserts are left out. These calls are assumed to succeed: transport init (`assert(rpmsgHandle)` in `APP_SRTM_InitPeerCore`), I2C init (`assert` on `I2C_RTOS_Init`'s status in `APP_SRTM_InitI2C`, reached on every device init and so on every Resume), and the SAI and codec adapter creation in `APP_SRTM_InitAudioService`. In the source their failure halts the program. A halt only cuts a run short, so the lemmas over sequences of operations still hold for the operations that do run.
- `APP_SRTM_I2C_ReleaseBus` and `i2c_release_bus_delay` are left out: they are GPIO bit-banging with NOP delays.
- The contents of the `APP_SRTM_PowerOnAudioBoard` GPIO-expander writes are left out. Only the "board powered" event is kept, and the flag is set whether or not the expander write succeeded, as in the code.
- The configuration structs filled in `APP_SRTM_InitAudioService` are left out. So are the codec creation and the register-map callbacks (`Codec_I2C_SendFunc`, `Codec_I2C_ReceiveFunc`, `APP_SRTM_ReadCodecRegMap`, `APP_SRTM_WriteCodecRegMap`). These are constant settings and pass-throughs to the SAI, SDMA and AK4497 libraries. The I2C wrappers they call are modelled.
- `APP_SRTM_NotifyPeerCoreReady` is reduced to a logged event when a monitor callback is registered. Whether one is registered is fixed at construction, because `rpmsgMonitor` is set outside this file.
- The low-power manager's block-sleep count is an unbounded integer. Its implementation is not part of this model.
- The driver's audio state type has more values than Closed. The model gives it three others; only Closed matters to `APP_SRTM_ServiceIdle`.
- No bound is claimed on `s_bufferValidBlock`. The code enforces none, and extra completions wrap the uint32 counter.
- Clock, pin-mux, RDC and SDMA script setup, codec init, the delay loops and the ISR flag-clearing handlers of `pdm_sai_sdma.c` are hardware register sequences and are left out. The contents of the audio buffer are left out too: only the windows handed to the drivers are modelled.
- `sai_interrupt_transfer.c` and `RTE_Device.h` are not part of this model. They hold driver setup with a busy-wait, and preprocessor constants.
