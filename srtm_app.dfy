/**
 * The globals of app_srtm.c, updated in place by the operations that the
 * dispatcher, the monitor task, the link-up timer and the power manager run.
 * Each method is proved against its SrtmSpec function, whose properties
 * SrtmSpec and SrtmProofs establish.
 */
module SrtmApp {
  import opened CTypes
  import opened SrtmSpec

  class AudioApp {
    var srtmState: LinkState
    var monSig: bool                 // binary semaphore monSig holds its token
    var linkupTimerActive: bool      // one-shot timer linkupTimer is running
    var dispatcherRunning: bool      // dispatcher disp is started
    var powerOnAudioBoard: bool
    var codecI2cBound: bool          // codecI2cHandle == &I2cHandle
    var blockSleepCnt: int           // the low-power manager's block-sleep count
    const rpmsgMonitorSet: bool      // rpmsgMonitor != NULL
    ghost var events: seq<Event>

    /** The globals as a snapshot value. */
    ghost function Abs(): Snapshot
      reads this
    {
      Snapshot(srtmState, monSig, linkupTimerActive, dispatcherRunning, powerOnAudioBoard,
               codecI2cBound, blockSleepCnt, rpmsgMonitorSet, events)
    }

    /** APP_SRTM_Init. */
    constructor (rpmsgMonitorSet: bool, blockSleepCnt: int)
      ensures Abs() == Initial(rpmsgMonitorSet, blockSleepCnt)
    {
      srtmState := Run;
      monSig := false;
      linkupTimerActive := false;
      dispatcherRunning := false;
      powerOnAudioBoard := false;
      codecI2cBound := false;
      this.blockSleepCnt := blockSleepCnt;
      this.rpmsgMonitorSet := rpmsgMonitorSet;
      events := [];
    }

    /** APP_SRTM_PollLinkup, with the transport's link-up answer as `linkUp`. */
    method PollLinkup(linkUp: bool)
      modifies this
      ensures Abs() == SrtmSpec.PollLinkup(old(Abs()), linkUp)
    {
      if srtmState == Run {
        if linkUp {
          srtmState := LinkedUp;
          monSig := true;
          events := events + [MonitorSignalled];
        } else {
          linkupTimerActive := true;
          events := events + [LinkupTimerStarted];
        }
      }
    }

    /**
     * The link-up timer expires and APP_LinkupTimerCallback runs; `procCreated`
     * says whether SRTM_Procedure_Create returned a procedure.
     */
    method LinkupTimerCallback(procCreated: bool, linkUp: bool)
      modifies this
      ensures Abs() == SrtmSpec.LinkupTimerCallback(old(Abs()), procCreated, linkUp)
    {
      if linkupTimerActive {
        linkupTimerActive := false;
        if procCreated {
          PollLinkup(linkUp);
        }
      }
    }

    /** APP_SRTM_Linkup. */
    method Linkup()
      modifies this
      ensures Abs() == SrtmSpec.Linkup(old(Abs()))
    {
      if rpmsgMonitorSet {
        events := events + [PeerReadyNotified];
      }
      events := events + [PeerCoreCreated, ChannelAnnounced, PeerCoreAdded];
    }

    /** APP_SRTM_InitPeerCore. */
    method InitPeerCore(linkUp: bool)
      modifies this
      ensures Abs() == SrtmSpec.InitPeerCore(old(Abs()), linkUp)
    {
      events := events + [RemoteInitialised];
      if linkUp {
        Linkup();
      } else {
        linkupTimerActive := true;
        events := events + [LinkupTimerStarted];
      }
    }

    /**
     * One iteration of SRTM_MonitorTask's loop; `woke` says whether the
     * semaphore had a token to take.
     */
    method MonitorWake(linkUp: bool) returns (woke: bool)
      modifies this
      ensures woke == old(monSig)
      ensures Abs() == SrtmSpec.MonitorWake(old(Abs()), linkUp)
    {
      woke := monSig;
      if woke {
        monSig := false;
        StopDispatcherNow();
        RunWakeBody(linkUp);
        StartDispatcherNow();
      }
    }

    /** SRTM_Dispatcher_Stop. */
    method StopDispatcherNow()
      modifies this
      ensures Abs() == StopDispatcher(old(Abs()))
    {
      dispatcherRunning := false;
      events := events + [DispatcherStopped];
    }

    /** SRTM_Dispatcher_Start. */
    method StartDispatcherNow()
      modifies this
      ensures Abs() == StartDispatcher(old(Abs()))
    {
      dispatcherRunning := true;
      events := events + [DispatcherStarted];
    }

    /** The monitor's work between stopping and restarting the dispatcher. */
    method RunWakeBody(linkUp: bool)
      modifies this
      ensures Abs() == WakeBody(old(Abs()), linkUp)
    {
      if srtmState == Run {
        InitPeerCore(linkUp);
      } else {
        Linkup();
      }
    }

    /** APP_SRTM_InitAudioDevice. */
    method InitAudioDevice()
      modifies this
      ensures Abs() == SrtmSpec.InitAudioDevice(old(Abs()))
    {
      events := events + [SdmaInitialised, I2cInitialised];
      if !powerOnAudioBoard {
        events := events + [AudioBoardPowered];
        powerOnAudioBoard := true;
      }
      codecI2cBound := true;
    }

    /** APP_SRTM_DeinitAudioDevice. */
    method DeinitAudioDevice()
      modifies this
      ensures Abs() == SrtmSpec.DeinitAudioDevice(old(Abs()))
    {
      events := events + [I2cDeinitialised, SdmaDeinitialised];
    }

    /** APP_SRTM_InitAudioService, reduced to the device init and the registration. */
    method InitAudioService()
      modifies this
      ensures Abs() == SrtmSpec.InitAudioService(old(Abs()))
    {
      InitAudioDevice();
      events := events + [AudioServiceRegistered];
    }

    /** SRTM_MonitorTask up to its loop. */
    method MonitorTaskStart()
      modifies this
      ensures Abs() == SrtmSpec.MonitorTaskStart(old(Abs()))
    {
      InitAudioService();
      dispatcherRunning := true;
      events := events + [DispatcherStarted];
      monSig := true;
      events := events + [MonitorSignalled];
    }

    /** APP_SRTM_Suspend. */
    method Suspend()
      modifies this
      ensures Abs() == SrtmSpec.DeinitAudioDevice(old(Abs()))
    {
      DeinitAudioDevice();
    }

    /** APP_SRTM_Resume. */
    method Resume()
      modifies this
      ensures Abs() == SrtmSpec.InitAudioDevice(old(Abs()))
    {
      InitAudioDevice();
    }

    /**
     * I2C_SendFunc; `transferStatus` is what I2C_RTOS_Transfer returns, and
     * the wrapper returns it unchanged.
     */
    method I2cSend(transferStatus: Status) returns (status: Status)
      modifies this
      ensures status == transferStatus
      ensures Abs() == I2cTransfer(old(Abs()), Write)
    {
      blockSleepCnt := blockSleepCnt + 1;
      events := events + [I2cTransferred(Write, blockSleepCnt)];
      status := transferStatus;
      blockSleepCnt := blockSleepCnt - 1;
    }

    /** I2C_ReceiveFunc, as I2cSend for a read. */
    method I2cReceive(transferStatus: Status) returns (status: Status)
      modifies this
      ensures status == transferStatus
      ensures Abs() == I2cTransfer(old(Abs()), Read)
    {
      blockSleepCnt := blockSleepCnt + 1;
      events := events + [I2cTransferred(Read, blockSleepCnt)];
      status := transferStatus;
      blockSleepCnt := blockSleepCnt - 1;
    }
  }
}
