/**
 * Properties of the SRTM link-up state machine and audio-device lifecycle that
 * relate several operations: the tick conversion, the monitor's dispatcher
 * bracketing, and invariants over any sequence of operations after boot.
 */
module SrtmProofs {
  import opened CTypes
  import opened SrtmSpec

  /**
   * APP_MS2TICK rounds up: as long as ms + tickPeriodMs - 1 fits in 32 bits,
   * the ticks cover ms and one tick fewer would not.
   */
  lemma MsToTickIsCeiling(ms: uint32, tickPeriodMs: uint32)
    requires tickPeriodMs > 0
    requires ms as int + tickPeriodMs as int - 1 < UINT32_MODULUS
    ensures MsToTick(ms, tickPeriodMs) * tickPeriodMs as int >= ms as int
    ensures ms > 0 ==> (MsToTick(ms, tickPeriodMs) - 1) * tickPeriodMs as int < ms as int
    ensures MsToTick(ms, tickPeriodMs) == 0 <==> ms == 0
  {
    var p := tickPeriodMs as int;
    var x := ms as int + p - 1;
    assert x % UINT32_MODULUS == x;
    var q := MsToTick(ms, tickPeriodMs);
    assert q == x / p;
    DivisionBounds(x, p);
    assert q * p <= x < q * p + p;
    assert (q - 1) * p == q * p - p;
    if ms == 0 {
      SmallQuotient(x, p);
    }
  }

  /** Quotient and remainder of a natural number by a positive divisor. */
  lemma DivisionBounds(x: nat, p: int)
    requires p > 0
    ensures (x / p) * p <= x < (x / p) * p + p
  {
    assert x == (x / p) * p + x % p;
  }

  /** A dividend below the divisor has quotient zero. */
  lemma SmallQuotient(x: nat, p: int)
    requires x < p
    ensures x / p == 0
  {
  }

  /** Near 2^32 the macro's uint32 sum wraps and the result is no longer the ceiling. */
  lemma MsToTickWrapsNearLimit()
    ensures MsToTick(0xFFFF_FFFF, 10) == 0
  {
    assert (0xFFFF_FFFF + 10 - 1) % UINT32_MODULUS == 8;
  }

  /**
   * Whenever ms + tickPeriodMs - 1 does not fit in 32 bits, the macro's sum
   * wraps and its ticks no longer cover ms: the exact complement of the
   * precondition of MsToTickIsCeiling.
   */
  lemma MsToTickFallsShortWhenWrapped(ms: uint32, tickPeriodMs: uint32)
    requires tickPeriodMs > 0
    requires ms as int + tickPeriodMs as int - 1 >= UINT32_MODULUS
    ensures MsToTick(ms, tickPeriodMs) * tickPeriodMs as int < ms as int
  {
    var p := tickPeriodMs as int;
    var x := ms as int + p - 1 - UINT32_MODULUS;
    assert 0 <= x < UINT32_MODULUS;
    assert (ms as int + p - 1) % UINT32_MODULUS == x;
    assert MsToTick(ms, tickPeriodMs) == x / p;
    DivisionBounds(x, p);
  }

  /**
   * A monitor wake that takes the token is bracketed by exactly one dispatcher
   * Stop, first, and one Start, last, and leaves the dispatcher running.
   */
  lemma MonitorWakeBracketed(s: Snapshot, linkUp: bool)
    requires s.monSig
    ensures var t := MonitorWake(s, linkUp);
      && s.events < t.events && |t.events| >= |s.events| + 2
      && t.events[|s.events|] == DispatcherStopped
      && t.events[|t.events| - 1] == DispatcherStarted
      && Count(t.events, DispatcherStopped) == Count(s.events, DispatcherStopped) + 1
      && Count(t.events, DispatcherStarted) == Count(s.events, DispatcherStarted) + 1
      && t.dispatcherRunning && !t.monSig && t.state == s.state
  {
    var stopped := StopDispatcher(s.(monSig := false));
    var done := WakeBody(stopped, linkUp);
    assert MonitorWake(s, linkUp) == StartDispatcher(done);
    assert stopped.events <= done.events;
    assert done.events[|s.events|] == DispatcherStopped;
  }

  /**
   * A wake in Run initialises the peer core: the channel is announced at once
   * iff the link is already up, otherwise the link-up timer is started; the
   * state stays Run either way.
   */
  lemma MonitorWakeInRun(s: Snapshot, linkUp: bool)
    requires s.monSig && s.state == Run
    ensures var t := MonitorWake(s, linkUp);
      && t.state == Run
      && Count(t.events, ChannelAnnounced) == Count(s.events, ChannelAnnounced) + (if linkUp then 1 else 0)
      && Count(t.events, PeerCoreCreated) == Count(s.events, PeerCoreCreated) + (if linkUp then 1 else 0)
      && Count(t.events, LinkupTimerStarted) == Count(s.events, LinkupTimerStarted) + (if linkUp then 0 else 1)
      && t.linkupTimerActive == (s.linkupTimerActive || !linkUp)
      && Count(t.events, RemoteInitialised) == Count(s.events, RemoteInitialised) + 1
  {
    var stopped := StopDispatcher(s.(monSig := false));
    var done := WakeBody(stopped, linkUp);
    assert done == InitPeerCore(stopped, linkUp);
    assert MonitorWake(s, linkUp) == StartDispatcher(done);
  }

  /**
   * A wake in LinkedUp announces the channel again, on a newly created peer
   * core, and starts no timer.
   */
  lemma MonitorWakeInLinkedUp(s: Snapshot, linkUp: bool)
    requires s.monSig && s.state == LinkedUp
    ensures var t := MonitorWake(s, linkUp);
      && t.state == LinkedUp
      && Count(t.events, ChannelAnnounced) == Count(s.events, ChannelAnnounced) + 1
      && Count(t.events, PeerCoreCreated) == Count(s.events, PeerCoreCreated) + 1
      && Count(t.events, LinkupTimerStarted) == Count(s.events, LinkupTimerStarted)
      && t.linkupTimerActive == s.linkupTimerActive
  {
    var stopped := StopDispatcher(s.(monSig := false));
    var done := WakeBody(stopped, linkUp);
    assert MonitorWake(s, linkUp) == StartDispatcher(done);
  }

  /** Replaying two runs of operations one after the other. */
  lemma {:induction false} ReplayAppend(s: Snapshot, a: seq<Op>, b: seq<Op>)
    ensures Replay(s, a + b) == Replay(Replay(s, a), b)
    decreases |a|
  {
    if a == [] {
      assert a + b == b;
    } else {
      assert (a + b)[0] == a[0];
      assert (a + b)[1..] == a[1..] + b;
      ReplayAppend(Step(s, a[0]), a[1..], b);
    }
  }

  /**
   * The only change of srtmState any operation makes is Run to LinkedUp, and
   * it is made by a link-up poll that ran and found the link up.
   */
  lemma StepOnlyLinksUp(s: Snapshot, op: Op)
    ensures var t := Step(s, op);
      t.state != s.state ==>
        && s.state == Run && t.state == LinkedUp
        && op.TimerExpires? && op.procCreated && op.linkUp && s.linkupTimerActive
  {
  }

  /** Once LinkedUp, the state machine never leaves LinkedUp. */
  lemma {:induction false} LinkedUpIsStable(s: Snapshot, ops: seq<Op>)
    requires s.state == LinkedUp
    ensures Replay(s, ops).state == LinkedUp
    decreases |ops|
  {
    if ops != [] {
      StepOnlyLinksUp(s, ops[0]);
      LinkedUpIsStable(Step(s, ops[0]), ops[1..]);
    }
  }

  /** The power-on flag is set iff the board-powering writes have been made, once. */
  ghost predicate PowerFlagMatchesLog(s: Snapshot)
  {
    Count(s.events, AudioBoardPowered) == if s.powerOnAudioBoard then 1 else 0
  }

  /**
   * Across any sequence of operations (every Resume re-running
   * InitAudioDevice), the audio board is powered at most once and the flag,
   * once set, stays set.
   */
  lemma {:induction false} AudioBoardPoweredAtMostOnce(s: Snapshot, ops: seq<Op>)
    requires PowerFlagMatchesLog(s)
    ensures PowerFlagMatchesLog(Replay(s, ops))
    ensures Count(Replay(s, ops).events, AudioBoardPowered) <= 1
    ensures s.powerOnAudioBoard ==> Replay(s, ops).powerOnAudioBoard
    decreases |ops|
  {
    if ops != [] {
      var t := Step(s, ops[0]);
      assert PowerFlagMatchesLog(t) && (s.powerOnAudioBoard ==> t.powerOnAudioBoard);
      AudioBoardPoweredAtMostOnce(t, ops[1..]);
    }
  }

  /** After boot the board has been powered exactly once, whatever happens next. */
  lemma AudioBoardPoweredOncePerBoot(rpmsgMonitorSet: bool, blockSleepCnt: int, ops: seq<Op>)
    ensures var t := Replay(Boot(rpmsgMonitorSet, blockSleepCnt), ops);
      t.powerOnAudioBoard && Count(t.events, AudioBoardPowered) == 1
  {
    AudioBoardPoweredAtMostOnce(Boot(rpmsgMonitorSet, blockSleepCnt), ops);
  }

  /**
   * Every operation leaves the low-power manager's block-sleep count where it
   * found it: the I2C wrappers raise it and lower it again around each transfer.
   */
  lemma {:induction false} BlockSleepCountBalanced(s: Snapshot, ops: seq<Op>)
    ensures Replay(s, ops).blockSleepCnt == s.blockSleepCnt
    decreases |ops|
  {
    if ops != [] {
      assert Step(s, ops[0]).blockSleepCnt == s.blockSleepCnt;
      BlockSleepCountBalanced(Step(s, ops[0]), ops[1..]);
    }
  }

  /**
   * What holds between operations when nothing outside this file gives the
   * monitor's semaphore: the channel has been announced at most once, after
   * an announcement nothing is pending, at most one of "token given" and
   * "timer running" holds, and in LinkedUp the timer is stopped.
   */
  ghost predicate AnnounceInv(s: Snapshot)
  {
    && Count(s.events, ChannelAnnounced) <= 1
    && (Count(s.events, ChannelAnnounced) == 1 ==> !s.monSig && !s.linkupTimerActive)
    && !(s.monSig && s.linkupTimerActive)
    && (s.state == LinkedUp ==> !s.linkupTimerActive)
  }

  lemma StepKeepsAnnounceInv(s: Snapshot, op: Op)
    requires AnnounceInv(s) && !op.MonitorSignalGiven?
    ensures AnnounceInv(Step(s, op))
  {
    match op {
      case MonitorWakes(linkUp) =>
        if s.monSig {
          if s.state == Run {
            MonitorWakeInRun(s, linkUp);
          } else {
            MonitorWakeInLinkedUp(s, linkUp);
          }
        }
      case _ =>
    }
  }

  /**
   * With no semaphore give from outside this file, the audio channel is
   * announced at most once per boot: either at the first wake, if the link is
   * already up, or at the wake that follows the poll that saw it come up.
   */
  lemma {:induction false} AnnouncedAtMostOnce(s: Snapshot, ops: seq<Op>)
    requires AnnounceInv(s)
    requires forall i :: 0 <= i < |ops| ==> !ops[i].MonitorSignalGiven?
    ensures AnnounceInv(Replay(s, ops))
    ensures Count(Replay(s, ops).events, ChannelAnnounced) <= 1
    decreases |ops|
  {
    if ops != [] {
      StepKeepsAnnounceInv(s, ops[0]);
      AnnouncedAtMostOnce(Step(s, ops[0]), ops[1..]);
    }
  }

  lemma AnnouncedAtMostOncePerBoot(rpmsgMonitorSet: bool, blockSleepCnt: int, ops: seq<Op>)
    requires forall i :: 0 <= i < |ops| ==> !ops[i].MonitorSignalGiven?
    ensures Count(Replay(Boot(rpmsgMonitorSet, blockSleepCnt), ops).events, ChannelAnnounced) <= 1
  {
    AnnouncedAtMostOnce(Boot(rpmsgMonitorSet, blockSleepCnt), ops);
  }

  /** `n` expiries of the link-up timer, each posting a poll that finds the link down. */
  function FailedPolls(n: nat): (ops: seq<Op>)
    ensures |ops| == n && forall i :: 0 <= i < n ==> ops[i] == TimerExpires(true, false)
  {
    if n == 0 then [] else [TimerExpires(true, false)] + FailedPolls(n - 1)
  }

  /** While the link stays down, each poll restarts the timer and changes nothing else that matters. */
  lemma {:induction false} FailedPollsKeepPolling(s: Snapshot, n: nat)
    requires s.state == Run && s.linkupTimerActive && !s.monSig
    ensures var t := Replay(s, FailedPolls(n));
      && t.state == Run && t.linkupTimerActive && !t.monSig
      && Count(t.events, ChannelAnnounced) == Count(s.events, ChannelAnnounced)
      && Count(t.events, PeerCoreCreated) == Count(s.events, PeerCoreCreated)
      && Count(t.events, LinkupTimerStarted) == Count(s.events, LinkupTimerStarted) + n
    decreases n
  {
    if n > 0 {
      var ops := FailedPolls(n);
      assert ops[0] == TimerExpires(true, false) && ops[1..] == FailedPolls(n - 1);
      FailedPollsKeepPolling(Step(s, ops[0]), n - 1);
    }
  }

  /** Replaying a single operation is that operation's step. */
  lemma ReplayOne(s: Snapshot, op: Op)
    ensures Replay(s, [op]) == Step(s, op)
  {
    assert [op][1..] == [];
  }

  /** A give of the monitor's semaphore followed by a wake, replayed. */
  lemma GiveThenWake(s: Snapshot, linkUp: bool)
    ensures Replay(s, [MonitorSignalGiven, MonitorWakes(linkUp)]) == MonitorWake(GiveMonitorSignal(s), linkUp)
  {
    ReplayTwo(s, MonitorSignalGiven, MonitorWakes(linkUp));
  }

  /** Replaying two operations is their two steps. */
  lemma ReplayTwo(s: Snapshot, a: Op, b: Op)
    ensures Replay(s, [a, b]) == Step(Step(s, a), b)
  {
    assert [a, b][1..] == [b];
    ReplayOne(Step(s, a), b);
  }

  /**
   * Link down at boot, n failed polls, then a poll that finds the link up:
   * the wake that follows announces the channel exactly once, on one peer
   * core, and leaves the state LinkedUp with nothing pending.
   */
  lemma LinkupAfterRetries(rpmsgMonitorSet: bool, blockSleepCnt: int, n: nat)
    ensures var linked := Replay(Boot(rpmsgMonitorSet, blockSleepCnt),
                                 [MonitorWakes(false)] + FailedPolls(n) + [TimerExpires(true, true), MonitorWakes(true)]);
      && linked.state == LinkedUp && !linked.monSig && !linked.linkupTimerActive
      && Count(linked.events, ChannelAnnounced) == 1
      && Count(linked.events, PeerCoreCreated) == 1
      && Count(linked.events, LinkupTimerStarted) == n + 1
  {
    var booted := Boot(rpmsgMonitorSet, blockSleepCnt);
    var first := [MonitorWakes(false)];
    var last := [TimerExpires(true, true), MonitorWakes(true)];
    ReplayOne(booted, MonitorWakes(false));
    var polling := MonitorWake(booted, false);
    MonitorWakeInRun(booted, false);
    var retried := Replay(polling, FailedPolls(n));
    FailedPollsKeepPolling(polling, n);
    ReplayAppend(booted, first, FailedPolls(n));
    var up := LinkupTimerCallback(retried, true, true);
    assert up.state == LinkedUp && up.monSig && !up.linkupTimerActive;
    var linked := MonitorWake(up, true);
    MonitorWakeInLinkedUp(up, true);
    assert last[1..] == [MonitorWakes(true)];
    ReplayOne(up, MonitorWakes(true));
    assert Replay(retried, last) == linked;
    ReplayAppend(booted, first + FailedPolls(n), last);
  }

  /**
   * In LinkedUp, a give of the monitor's semaphore followed by a wake
   * announces the channel once more, on a newly created peer core.
   */
  lemma ReannouncedOnSignal(s: Snapshot, linkUp: bool)
    requires s.state == LinkedUp
    ensures var t := Replay(s, [MonitorSignalGiven, MonitorWakes(linkUp)]);
      && t.state == LinkedUp
      && Count(t.events, ChannelAnnounced) == Count(s.events, ChannelAnnounced) + 1
      && Count(t.events, PeerCoreCreated) == Count(s.events, PeerCoreCreated) + 1
  {
    GiveThenWake(s, linkUp);
    MonitorWakeInLinkedUp(GiveMonitorSignal(s), linkUp);
  }

  /**
   * Nothing in the link-up state machine moved from s to t: same state, no
   * token, timer stopped, and no announcement, timer start or transport init
   * in between.
   */
  ghost predicate Quiet(s: Snapshot, t: Snapshot)
  {
    && t.state == s.state && !t.monSig && !t.linkupTimerActive
    && Count(t.events, ChannelAnnounced) == Count(s.events, ChannelAnnounced)
    && Count(t.events, LinkupTimerStarted) == Count(s.events, LinkupTimerStarted)
    && Count(t.events, RemoteInitialised) == Count(s.events, RemoteInitialised)
  }

  /**
   * With no token and the link-up timer stopped, nothing in this file can
   * start either again: without a give from outside, every later operation
   * leaves the state, the token and the timer as they are, and neither
   * announces the channel, starts the timer nor initialises the transport.
   */
  lemma {:induction false} NothingPendingIsQuiet(s: Snapshot, ops: seq<Op>)
    requires !s.monSig && !s.linkupTimerActive
    requires forall i :: 0 <= i < |ops| ==> !ops[i].MonitorSignalGiven?
    ensures Quiet(s, Replay(s, ops))
    decreases |ops|
  {
    if ops != [] {
      StepIsQuiet(s, ops[0]);
      NothingPendingIsQuiet(Step(s, ops[0]), ops[1..]);
    }
  }

  /** One step of NothingPendingIsQuiet: only the audio device and the I2C bus see any activity. */
  lemma StepIsQuiet(s: Snapshot, op: Op)
    requires !s.monSig && !s.linkupTimerActive && !op.MonitorSignalGiven?
    ensures Quiet(s, Step(s, op))
  {
    if op.PowerSuspend? {
      QuietAppend(s.events, [I2cDeinitialised, SdmaDeinitialised]);
      assert Quiet(s, DeinitAudioDevice(s));
    } else if op.PowerResume? {
      ResumeIsQuiet(s);
    } else if op.CodecSend? {
      TransferIsQuiet(s, Write);
    } else if op.CodecReceive? {
      TransferIsQuiet(s, Read);
    }
  }

  lemma ResumeIsQuiet(s: Snapshot)
    requires !s.monSig && !s.linkupTimerActive
    ensures Quiet(s, InitAudioDevice(s))
  {
    QuietAppend(s.events, [SdmaInitialised, I2cInitialised] + (if s.powerOnAudioBoard then [] else [AudioBoardPowered]));
  }

  lemma TransferIsQuiet(s: Snapshot, dir: Direction)
    requires !s.monSig && !s.linkupTimerActive
    ensures Quiet(s, I2cTransfer(s, dir))
  {
    QuietAppend(s.events, [I2cTransferred(dir, s.blockSleepCnt + 1)]);
  }

  /** Appending events that are neither announcements, timer starts nor transport inits leaves their counts. */
  lemma QuietAppend(log: seq<Event>, added: seq<Event>)
    requires ChannelAnnounced !in added && LinkupTimerStarted !in added && RemoteInitialised !in added
    ensures Count(log + added, ChannelAnnounced) == Count(log, ChannelAnnounced)
    ensures Count(log + added, LinkupTimerStarted) == Count(log, LinkupTimerStarted)
    ensures Count(log + added, RemoteInitialised) == Count(log, RemoteInitialised)
  {
    assert multiset(log + added) == multiset(log) + multiset(added);
  }

  /**
   * A timer expiry whose PollLinkup procedure cannot be allocated ends the
   * polling for good: the one-shot timer is not restarted, and without a give
   * from outside this file the state stays Run and the channel is never
   * announced, whether or not the link comes up.
   */
  lemma FailedAllocationEndsPolling(s: Snapshot, linkUp: bool, ops: seq<Op>)
    requires s.state == Run && s.linkupTimerActive && !s.monSig
    requires forall i :: 0 <= i < |ops| ==> !ops[i].MonitorSignalGiven?
    ensures var t := Replay(s, [TimerExpires(false, linkUp)] + ops);
      && t.state == Run && !t.linkupTimerActive
      && Count(t.events, ChannelAnnounced) == Count(s.events, ChannelAnnounced)
  {
    var expired := LinkupTimerCallback(s, false, linkUp);
    ReplayOne(s, TimerExpires(false, linkUp));
    ReplayAppend(s, [TimerExpires(false, linkUp)], ops);
    NothingPendingIsQuiet(expired, ops);
  }

  /**
   * When the link is already up at the first wake after boot, the channel is
   * announced at once but srtmState stays Run, and without a give from
   * outside this file no later operation moves it to LinkedUp.
   */
  lemma LinkedUpAtFirstWakeStaysRun(rpmsgMonitorSet: bool, blockSleepCnt: int, ops: seq<Op>)
    requires forall i :: 0 <= i < |ops| ==> !ops[i].MonitorSignalGiven?
    ensures var t := Replay(Boot(rpmsgMonitorSet, blockSleepCnt), [MonitorWakes(true)] + ops);
      && t.state == Run && !t.monSig && !t.linkupTimerActive
      && Count(t.events, ChannelAnnounced) == 1
  {
    var booted := Boot(rpmsgMonitorSet, blockSleepCnt);
    var woke := MonitorWake(booted, true);
    MonitorWakeInRun(booted, true);
    ReplayOne(booted, MonitorWakes(true));
    ReplayAppend(booted, [MonitorWakes(true)], ops);
    NothingPendingIsQuiet(woke, ops);
  }

  /**
   * In Run, a give of the monitor's semaphore followed by a wake initialises
   * the transport once more (rather than only announcing the channel), and
   * the state stays Run.
   */
  lemma ReinitialisedOnSignalInRun(s: Snapshot, linkUp: bool)
    requires s.state == Run
    ensures var t := Replay(s, [MonitorSignalGiven, MonitorWakes(linkUp)]);
      && t.state == Run
      && Count(t.events, RemoteInitialised) == Count(s.events, RemoteInitialised) + 1
      && Count(t.events, ChannelAnnounced) == Count(s.events, ChannelAnnounced) + (if linkUp then 1 else 0)
  {
    GiveThenWake(s, linkUp);
    MonitorWakeInRun(GiveMonitorSignal(s), linkUp);
  }
}
