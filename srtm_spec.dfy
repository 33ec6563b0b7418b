/**
 * The remote-core link-up state machine and the audio-device lifecycle of the
 * SRTM low-power audio demo, as pure functions on a snapshot of its globals.
 *
 * Every operation that changes the globals is a function from the old snapshot
 * (and the answers of the outside world: is the transport linked up, could a
 * dispatcher procedure be allocated, what did the I2C driver return) to the new
 * one. Calls into FreeRTOS, the SRTM dispatcher and the drivers are not run:
 * they are appended to the event log.
 */
module SrtmSpec {
  import opened CTypes

  /** app_srtm_state_t: the only global of the link-up state machine. */
  datatype LinkState = Run | LinkedUp

  /** srtm_audio_state_t as reported by the SAI/SDMA adapter for one direction. */
  datatype AudioState = Closed | Opened | Started | Paused

  /** Direction of an I2C transfer to the codec. */
  datatype Direction = Write | Read

  /** What the core asked of its collaborators, in the order it asked. */
  datatype Event =
    | RemoteInitialised              // rpmsg_lite_remote_init
    | LinkupTimerStarted             // xTimerStart(linkupTimer)
    | MonitorSignalled               // xSemaphoreGive(monSig)
    | PeerReadyNotified              // the registered rpmsg monitor callback
    | PeerCoreCreated                // SRTM_PeerCore_Create + SetState(Activated)
    | ChannelAnnounced               // SRTM_RPMsgEndpoint_Create + PeerCore_AddChannel
    | PeerCoreAdded                  // SRTM_Dispatcher_AddPeerCore
    | DispatcherStopped
    | DispatcherStarted
    | SdmaInitialised
    | SdmaDeinitialised
    | I2cInitialised
    | I2cDeinitialised
    | AudioBoardPowered              // the GPIO-expander writes that power the audio board
    | AudioServiceRegistered         // SRTM_Dispatcher_RegisterService
    | I2cTransferred(dir: Direction, blockSleepCnt: int)  // I2C_RTOS_Transfer, with the LPM count seen during it

  /**
   * The globals of app_srtm.c that the modelled operations read or write,
   * plus the state of the FreeRTOS objects they use and the event log.
   */
  datatype Snapshot = Snapshot(
    state: LinkState,            // srtmState
    monSig: bool,                // the binary semaphore holds its token
    linkupTimerActive: bool,     // the one-shot link-up timer is running
    dispatcherRunning: bool,     // SRTM_Dispatcher_Start / Stop
    powerOnAudioBoard: bool,     // the one-shot power-on flag
    codecI2cBound: bool,         // codecI2cHandle points at I2cHandle
    blockSleepCnt: int,          // the low-power manager's block-sleep count
    rpmsgMonitorSet: bool,       // rpmsgMonitor is not NULL
    events: seq<Event>)

  /** Number of times `e` occurs in `log`. */
  function Count(log: seq<Event>, e: Event): nat
  {
    multiset(log)[e]
  }

  /**
   * APP_MS2TICK(ms): milliseconds to ticks, rounded up. The sum is computed in
   * uint32 arithmetic (portTICK_PERIOD_MS is a TickType_t), so it wraps.
   */
  function MsToTick(ms: uint32, tickPeriodMs: uint32): (ticks: nat)
    requires tickPeriodMs > 0
    ensures ticks <= (ms as int + tickPeriodMs as int - 1) % UINT32_MODULUS
    ensures ticks < UINT32_MODULUS
  {
    var sum := (ms as int + tickPeriodMs as int - 1) % UINT32_MODULUS;
    QuotientAtMostDividend(sum, tickPeriodMs as int);
    sum / tickPeriodMs as int
  }

  /** Dividing by a positive divisor never increases a natural number. */
  lemma QuotientAtMostDividend(x: nat, p: int)
    requires p > 0
    ensures x / p <= x
  {
    var q: nat := x / p;
    var d: nat := p - 1;
    assert x == q * p + x % p;
    assert q * p == q + q * d;
    assert q * d >= 0;
  }

  /** APP_SRTM_ServiceIdle: the service is idle iff both audio paths are closed. */
  function ServiceIdle(txState: AudioState, rxState: AudioState): (idle: bool)
    ensures idle <==> txState == Closed && rxState == Closed
    ensures txState != Closed ==> !idle
    ensures rxState != Closed ==> !idle
  {
    if txState == Closed && rxState == Closed then true else false
  }

  /**
   * APP_SRTM_Init: the semaphore is created empty, the one-shot timer stopped,
   * the dispatcher created but not started. The low-power manager's count and
   * whether a monitor callback is registered come from outside this file.
   */
  function Initial(rpmsgMonitorSet: bool, blockSleepCnt: int): (s: Snapshot)
    ensures s.state == Run && !s.monSig && !s.linkupTimerActive && !s.dispatcherRunning
    ensures !s.powerOnAudioBoard && s.events == []
  {
    Snapshot(Run, false, false, false, false, false, blockSleepCnt, rpmsgMonitorSet, [])
  }

  /**
   * APP_SRTM_PollLinkup, run by the dispatcher: in Run, a link that is up moves
   * the state to LinkedUp and wakes the monitor; a link that is down restarts
   * the timer. In LinkedUp it does nothing.
   */
  function PollLinkup(s: Snapshot, linkUp: bool): (t: Snapshot)
    ensures s.state == LinkedUp ==> t == s
    ensures s.state == Run && linkUp ==>
      && t.state == LinkedUp && t.monSig
      && Count(t.events, MonitorSignalled) == Count(s.events, MonitorSignalled) + 1
      && Count(t.events, LinkupTimerStarted) == Count(s.events, LinkupTimerStarted)
      && t.linkupTimerActive == s.linkupTimerActive
    ensures s.state == Run && !linkUp ==>
      && t.state == Run && t.linkupTimerActive && t.monSig == s.monSig
      && Count(t.events, MonitorSignalled) == Count(s.events, MonitorSignalled)
      && Count(t.events, LinkupTimerStarted) == Count(s.events, LinkupTimerStarted) + 1
    ensures t.dispatcherRunning == s.dispatcherRunning && t.powerOnAudioBoard == s.powerOnAudioBoard
    ensures t.blockSleepCnt == s.blockSleepCnt && s.events <= t.events
    ensures Count(t.events, ChannelAnnounced) == Count(s.events, ChannelAnnounced)
    ensures Count(t.events, PeerCoreCreated) == Count(s.events, PeerCoreCreated)
    ensures Count(t.events, AudioBoardPowered) == Count(s.events, AudioBoardPowered)
  {
    if s.state == Run then
      if linkUp then
        s.(state := LinkedUp, monSig := true, events := s.events + [MonitorSignalled])
      else
        s.(linkupTimerActive := true, events := s.events + [LinkupTimerStarted])
    else
      s
  }

  /**
   * APP_LinkupTimerCallback: when the one-shot timer expires it posts a
   * PollLinkup procedure if one could be allocated; the procedure runs at once.
   * A stopped timer does not expire.
   */
  function LinkupTimerCallback(s: Snapshot, procCreated: bool, linkUp: bool): (t: Snapshot)
    ensures !s.linkupTimerActive ==> t == s
    ensures s.linkupTimerActive && !procCreated ==> t == s.(linkupTimerActive := false)
    ensures s.linkupTimerActive && procCreated ==> t == PollLinkup(s.(linkupTimerActive := false), linkUp)
  {
    if !s.linkupTimerActive then s
    else
      var expired := s.(linkupTimerActive := false);
      if procCreated then PollLinkup(expired, linkUp) else expired
  }

  /** Events of APP_SRTM_Linkup, in order. */
  function LinkupEvents(rpmsgMonitorSet: bool): seq<Event>
  {
    (if rpmsgMonitorSet then [PeerReadyNotified] else [])
      + [PeerCoreCreated, ChannelAnnounced, PeerCoreAdded]
  }

  /**
   * APP_SRTM_Linkup: notifies the monitor callback if one is set, creates an
   * activated peer core, announces the audio channel on it and hands it to the
   * dispatcher. It changes no global of the state machine.
   */
  function Linkup(s: Snapshot): (t: Snapshot)
    ensures t.state == s.state && t.monSig == s.monSig && t.linkupTimerActive == s.linkupTimerActive
    ensures t.dispatcherRunning == s.dispatcherRunning && t.powerOnAudioBoard == s.powerOnAudioBoard
    ensures t.blockSleepCnt == s.blockSleepCnt && s.events <= t.events
    ensures Count(t.events, ChannelAnnounced) == Count(s.events, ChannelAnnounced) + 1
    ensures Count(t.events, PeerCoreCreated) == Count(s.events, PeerCoreCreated) + 1
    ensures Count(t.events, LinkupTimerStarted) == Count(s.events, LinkupTimerStarted)
    ensures Count(t.events, DispatcherStopped) == Count(s.events, DispatcherStopped)
    ensures Count(t.events, DispatcherStarted) == Count(s.events, DispatcherStarted)
    ensures Count(t.events, AudioBoardPowered) == Count(s.events, AudioBoardPowered)
  {
    s.(events := s.events + LinkupEvents(s.rpmsgMonitorSet))
  }

  /**
   * APP_SRTM_InitPeerCore: initialises the transport, then announces the
   * channel at once if the link is already up, otherwise starts the link-up
   * timer. Either way the state is left as it was.
   */
  function InitPeerCore(s: Snapshot, linkUp: bool): (t: Snapshot)
    ensures t.state == s.state && t.monSig == s.monSig
    ensures t.dispatcherRunning == s.dispatcherRunning && t.powerOnAudioBoard == s.powerOnAudioBoard
    ensures t.blockSleepCnt == s.blockSleepCnt && s.events <= t.events
    ensures Count(t.events, RemoteInitialised) == Count(s.events, RemoteInitialised) + 1
    ensures Count(t.events, ChannelAnnounced) == Count(s.events, ChannelAnnounced) + (if linkUp then 1 else 0)
    ensures Count(t.events, PeerCoreCreated) == Count(s.events, PeerCoreCreated) + (if linkUp then 1 else 0)
    ensures Count(t.events, LinkupTimerStarted) == Count(s.events, LinkupTimerStarted) + (if linkUp then 0 else 1)
    ensures t.linkupTimerActive == (s.linkupTimerActive || !linkUp)
    ensures Count(t.events, DispatcherStopped) == Count(s.events, DispatcherStopped)
    ensures Count(t.events, DispatcherStarted) == Count(s.events, DispatcherStarted)
    ensures Count(t.events, AudioBoardPowered) == Count(s.events, AudioBoardPowered)
  {
    var initialised := s.(events := s.events + [RemoteInitialised]);
    if linkUp then Linkup(initialised)
    else initialised.(linkupTimerActive := true, events := initialised.events + [LinkupTimerStarted])
  }

  /**
   * One iteration of the monitor task's loop. Without the semaphore's token
   * the task stays blocked and nothing happens. With it, the token is taken
   * and the dispatcher is stopped; in Run the peer core is initialised, in
   * LinkedUp the channel is announced again; then the dispatcher is restarted.
   */
  function MonitorWake(s: Snapshot, linkUp: bool): (t: Snapshot)
    ensures !s.monSig ==> t == s
    ensures s.monSig ==> !t.monSig && t.dispatcherRunning && t.state == s.state
    ensures t.powerOnAudioBoard == s.powerOnAudioBoard && t.blockSleepCnt == s.blockSleepCnt
    ensures Count(t.events, AudioBoardPowered) == Count(s.events, AudioBoardPowered)
  {
    if !s.monSig then s
    else
      var stopped := StopDispatcher(s.(monSig := false));
      StartDispatcher(WakeBody(stopped, linkUp))
  }

  /** What the monitor does between stopping and restarting the dispatcher. */
  function WakeBody(s: Snapshot, linkUp: bool): (t: Snapshot)
    ensures t.state == s.state && t.monSig == s.monSig && t.dispatcherRunning == s.dispatcherRunning
    ensures t.powerOnAudioBoard == s.powerOnAudioBoard && t.blockSleepCnt == s.blockSleepCnt
    ensures s.events <= t.events
    ensures Count(t.events, DispatcherStopped) == Count(s.events, DispatcherStopped)
    ensures Count(t.events, DispatcherStarted) == Count(s.events, DispatcherStarted)
    ensures Count(t.events, AudioBoardPowered) == Count(s.events, AudioBoardPowered)
    ensures s.state == Run ==>
      && Count(t.events, ChannelAnnounced) == Count(s.events, ChannelAnnounced) + (if linkUp then 1 else 0)
      && Count(t.events, PeerCoreCreated) == Count(s.events, PeerCoreCreated) + (if linkUp then 1 else 0)
      && Count(t.events, LinkupTimerStarted) == Count(s.events, LinkupTimerStarted) + (if linkUp then 0 else 1)
      && t.linkupTimerActive == (s.linkupTimerActive || !linkUp)
    ensures s.state == LinkedUp ==>
      && Count(t.events, ChannelAnnounced) == Count(s.events, ChannelAnnounced) + 1
      && Count(t.events, PeerCoreCreated) == Count(s.events, PeerCoreCreated) + 1
      && Count(t.events, LinkupTimerStarted) == Count(s.events, LinkupTimerStarted)
      && t.linkupTimerActive == s.linkupTimerActive
  {
    if s.state == Run then InitPeerCore(s, linkUp) else Linkup(s)
  }

  /** SRTM_Dispatcher_Stop. */
  function StopDispatcher(s: Snapshot): (t: Snapshot)
    ensures t == s.(dispatcherRunning := false, events := s.events + [DispatcherStopped])
    ensures Count(t.events, DispatcherStopped) == Count(s.events, DispatcherStopped) + 1
    ensures Count(t.events, DispatcherStarted) == Count(s.events, DispatcherStarted)
    ensures Count(t.events, ChannelAnnounced) == Count(s.events, ChannelAnnounced)
    ensures Count(t.events, PeerCoreCreated) == Count(s.events, PeerCoreCreated)
    ensures Count(t.events, LinkupTimerStarted) == Count(s.events, LinkupTimerStarted)
    ensures Count(t.events, AudioBoardPowered) == Count(s.events, AudioBoardPowered)
  {
    s.(dispatcherRunning := false, events := s.events + [DispatcherStopped])
  }

  /** SRTM_Dispatcher_Start. */
  function StartDispatcher(s: Snapshot): (t: Snapshot)
    ensures t == s.(dispatcherRunning := true, events := s.events + [DispatcherStarted])
    ensures Count(t.events, DispatcherStarted) == Count(s.events, DispatcherStarted) + 1
    ensures Count(t.events, DispatcherStopped) == Count(s.events, DispatcherStopped)
    ensures Count(t.events, ChannelAnnounced) == Count(s.events, ChannelAnnounced)
    ensures Count(t.events, PeerCoreCreated) == Count(s.events, PeerCoreCreated)
    ensures Count(t.events, LinkupTimerStarted) == Count(s.events, LinkupTimerStarted)
    ensures Count(t.events, AudioBoardPowered) == Count(s.events, AudioBoardPowered)
  {
    s.(dispatcherRunning := true, events := s.events + [DispatcherStarted])
  }

  /**
   * APP_SRTM_InitAudioDevice (also APP_SRTM_Resume): initialises SDMA and the
   * codec I2C bus, powers the audio board the first time only, and points the
   * codec at the I2C handle.
   */
  function InitAudioDevice(s: Snapshot): (t: Snapshot)
    ensures t.powerOnAudioBoard && t.codecI2cBound
    ensures Count(t.events, AudioBoardPowered) == Count(s.events, AudioBoardPowered) + (if s.powerOnAudioBoard then 0 else 1)
    ensures Count(t.events, I2cInitialised) == Count(s.events, I2cInitialised) + 1
    ensures Count(t.events, SdmaInitialised) == Count(s.events, SdmaInitialised) + 1
    ensures t.state == s.state && t.monSig == s.monSig && t.linkupTimerActive == s.linkupTimerActive
    ensures t.dispatcherRunning == s.dispatcherRunning && t.blockSleepCnt == s.blockSleepCnt
    ensures Count(t.events, ChannelAnnounced) == Count(s.events, ChannelAnnounced)
    ensures s.events <= t.events
  {
    var powered := if s.powerOnAudioBoard then [] else [AudioBoardPowered];
    s.(powerOnAudioBoard := true, codecI2cBound := true,
       events := s.events + [SdmaInitialised, I2cInitialised] + powered)
  }

  /**
   * APP_SRTM_DeinitAudioDevice (also APP_SRTM_Suspend): tears down the I2C bus
   * and SDMA. Neither the power-on flag nor the codec's handle pointer is reset.
   */
  function DeinitAudioDevice(s: Snapshot): (t: Snapshot)
    ensures t.powerOnAudioBoard == s.powerOnAudioBoard && t.codecI2cBound == s.codecI2cBound
    ensures Count(t.events, I2cDeinitialised) == Count(s.events, I2cDeinitialised) + 1
    ensures Count(t.events, SdmaDeinitialised) == Count(s.events, SdmaDeinitialised) + 1
    ensures Count(t.events, AudioBoardPowered) == Count(s.events, AudioBoardPowered)
    ensures t.state == s.state && t.monSig == s.monSig && t.linkupTimerActive == s.linkupTimerActive
    ensures t.dispatcherRunning == s.dispatcherRunning && t.blockSleepCnt == s.blockSleepCnt
    ensures Count(t.events, ChannelAnnounced) == Count(s.events, ChannelAnnounced)
    ensures s.events <= t.events
  {
    s.(events := s.events + [I2cDeinitialised, SdmaDeinitialised])
  }

  /**
   * APP_SRTM_InitAudioService, reduced to what this model keeps: it
   * initialises the audio device and registers the audio service.
   */
  function InitAudioService(s: Snapshot): (t: Snapshot)
    ensures t.powerOnAudioBoard && t.codecI2cBound && t.state == s.state && t.monSig == s.monSig
    ensures t.linkupTimerActive == s.linkupTimerActive && t.blockSleepCnt == s.blockSleepCnt
    ensures t.dispatcherRunning == s.dispatcherRunning && s.events <= t.events
    ensures Count(t.events, AudioServiceRegistered) == Count(s.events, AudioServiceRegistered) + 1
    ensures Count(t.events, SdmaInitialised) == Count(s.events, SdmaInitialised) + 1
    ensures Count(t.events, I2cInitialised) == Count(s.events, I2cInitialised) + 1
    ensures Count(t.events, AudioBoardPowered) == Count(s.events, AudioBoardPowered) + (if s.powerOnAudioBoard then 0 else 1)
    ensures Count(t.events, ChannelAnnounced) == Count(s.events, ChannelAnnounced)
  {
    var initialised := InitAudioDevice(s);
    initialised.(events := initialised.events + [AudioServiceRegistered])
  }

  /**
   * The monitor task's prologue: register the services, start the dispatcher
   * and give the semaphore once so that the first wake initialises the peer core.
   */
  function MonitorTaskStart(s: Snapshot): (t: Snapshot)
    ensures t.monSig && t.dispatcherRunning && t.powerOnAudioBoard
    ensures t.state == s.state && t.linkupTimerActive == s.linkupTimerActive && t.blockSleepCnt == s.blockSleepCnt
    ensures Count(t.events, AudioServiceRegistered) == Count(s.events, AudioServiceRegistered) + 1
    ensures Count(t.events, DispatcherStarted) == Count(s.events, DispatcherStarted) + 1
    ensures Count(t.events, MonitorSignalled) == Count(s.events, MonitorSignalled) + 1
    ensures Count(t.events, AudioBoardPowered) == Count(s.events, AudioBoardPowered) + (if s.powerOnAudioBoard then 0 else 1)
    ensures Count(t.events, ChannelAnnounced) == Count(s.events, ChannelAnnounced)
  {
    var registered := InitAudioService(s);
    StartDispatcher(registered).(monSig := true, events := StartDispatcher(registered).events + [MonitorSignalled])
  }

  /** The state once APP_SRTM_Init has run and the monitor task has started. */
  function Boot(rpmsgMonitorSet: bool, blockSleepCnt: int): (s: Snapshot)
    ensures s.state == Run && s.monSig && !s.linkupTimerActive && s.dispatcherRunning
    ensures s.powerOnAudioBoard && Count(s.events, AudioBoardPowered) == 1
    ensures Count(s.events, ChannelAnnounced) == 0 && Count(s.events, PeerCoreCreated) == 0
    ensures Count(s.events, LinkupTimerStarted) == 0
    ensures s.blockSleepCnt == blockSleepCnt
  {
    MonitorTaskStart(Initial(rpmsgMonitorSet, blockSleepCnt))
  }

  /**
   * I2C_SendFunc / I2C_ReceiveFunc: the low-power manager's block-sleep count
   * is raised for the duration of the transfer and lowered after it, whatever
   * the transfer returned.
   */
  function I2cTransfer(s: Snapshot, dir: Direction): (t: Snapshot)
    ensures t.blockSleepCnt == s.blockSleepCnt
    ensures t.events == s.events + [I2cTransferred(dir, s.blockSleepCnt + 1)]
    ensures t.state == s.state && t.monSig == s.monSig && t.linkupTimerActive == s.linkupTimerActive
    ensures t.powerOnAudioBoard == s.powerOnAudioBoard && t.dispatcherRunning == s.dispatcherRunning
  {
    var raised := s.(blockSleepCnt := s.blockSleepCnt + 1);
    var transferred := raised.(events := raised.events + [I2cTransferred(dir, raised.blockSleepCnt)]);
    transferred.(blockSleepCnt := transferred.blockSleepCnt - 1)
  }

  /** xSemaphoreGive(monSig) by code outside this file (monSig is a global). */
  function GiveMonitorSignal(s: Snapshot): (t: Snapshot)
    ensures t.monSig && t.state == s.state && t.linkupTimerActive == s.linkupTimerActive
    ensures t.powerOnAudioBoard == s.powerOnAudioBoard && t.blockSleepCnt == s.blockSleepCnt
    ensures Count(t.events, MonitorSignalled) == Count(s.events, MonitorSignalled) + 1
    ensures Count(t.events, ChannelAnnounced) == Count(s.events, ChannelAnnounced)
    ensures Count(t.events, PeerCoreCreated) == Count(s.events, PeerCoreCreated)
    ensures Count(t.events, RemoteInitialised) == Count(s.events, RemoteInitialised)
    ensures Count(t.events, AudioBoardPowered) == Count(s.events, AudioBoardPowered)
  {
    s.(monSig := true, events := s.events + [MonitorSignalled])
  }

  /** What can happen to the core after boot, each with its outside-world answers. */
  datatype Op =
    | TimerExpires(procCreated: bool, linkUp: bool)
    | MonitorWakes(linkUp: bool)
    | PowerSuspend
    | PowerResume
    | CodecSend
    | CodecReceive
    | MonitorSignalGiven

  function Step(s: Snapshot, op: Op): Snapshot
  {
    match op
    case TimerExpires(procCreated, linkUp) => LinkupTimerCallback(s, procCreated, linkUp)
    case MonitorWakes(linkUp) => MonitorWake(s, linkUp)
    case PowerSuspend => DeinitAudioDevice(s)
    case PowerResume => InitAudioDevice(s)
    case CodecSend => I2cTransfer(s, Write)
    case CodecReceive => I2cTransfer(s, Read)
    case MonitorSignalGiven => GiveMonitorSignal(s)
  }

  /** The snapshot after the operations `ops`, in order. */
  function Replay(s: Snapshot, ops: seq<Op>): Snapshot
    decreases |ops|
  {
    if ops == [] then s else Replay(Step(s, ops[0]), ops[1..])
  }
}
