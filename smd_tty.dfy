/** The SMD tty driver's per-channel state machine: one object per slot of
    the device table, updated in place by the transport's event callback, the
    tty operations, the read tasklet, the retry timer, port activation and
    port shutdown. Each handler runs atomically (the spinlocks and the global
    mutex only serialise them). */
module SmdTty {
  import opened SmdConfig
  import opened ResetState
  import opened ReadPump
  import opened PortLifecycle

  /** The transport channel pointer of a slot: NULL, or an open channel. */
  datatype Handle = NoChannel | ChannelHandle(id: nat)

  /** The subsystem pointer of a slot: never set, an error pointer, or a
      reference (left in place, dangling, after it is put). */
  datatype Pil = NoPil | PilError(errno: Errno) | PilRef(id: nat)

  /** One request to change the channel's signal lines. */
  datatype SignalRequest = SignalRequest(setBits: bv32, clearBits: bv32)

  /** Return value of the tty write operation: -ENETRESET while the remote
      side is down, otherwise the number of bytes accepted, which is as many
      as the channel has room for. */
  function WriteReturn(inReset: bool, space: nat, len: nat): (r: int)
    ensures r == -ENETRESET <==> inReset
    ensures !inReset ==> 0 <= r <= len && r <= space
    ensures !inReset ==> r == len || r == space
  {
    if inReset then -ENETRESET
    else if space == 0 then 0
    else if len > space then space
    else len
  }

  /** The tty side of a port, as far as the driver touches it: the items
      pushed to the line discipline, the number of times writers were woken,
      and the driver_data pointer that activation sets. */
  class Tty {
    const index: nat
    var driverData: Channel?
    var received: seq<FlipItem>
    var writeWakeups: nat

    constructor (index: nat)
      ensures this.index == index && driverData == null && received == [] && writeWakeups == 0
    {
      this.index := index;
      driverData := null;
      received := [];
      writeWakeups := 0;
    }
  }

  /** One slot of the device table (struct smd_tty_info), with the state of
      the shared-memory channel behind it: the bytes the remote side has made
      available (`rx`), the room for writing (`txSpace`), what was written
      (`tx`), whether the read interrupt is enabled and the signal lines. */
  class Channel {
    /** The slot's device index in the table. */
    const index: nat
    const config: Option<ChannelConfig>
    var ch: Handle
    var pil: Pil
    var isOpen: bool
    var inReset: bool
    var inResetUpdated: bool
    var openWait: nat
    var chAllocated: bool
    var taskletScheduled: bool
    var retryTimerArmed: bool
    var raWakeLockHeld: bool
    var wakeLockArmed: bool
    /** Every subsystem reference, read resource and transport handle this
        slot has acquired or released, in order. */
    ghost var ledger: seq<ResOp>

    var rx: seq<byte>
    var txSpace: nat
    var tx: seq<byte>
    var readIntrEnabled: bool
    var lineSignals: ModemBits
    var signalRequests: seq<SignalRequest>

    /** The tty attached to the port, if any. */
    var tty: Tty?

    /** The channel invariant: a slot whose remote side is down is not
        open. */
    ghost predicate Valid()
      reads this
    {
      ResetImpliesClosed(FlagsOf())
    }

    /** The tty attached to the slot's port, if any, is the tty of the
        slot's device index. */
    ghost predicate Attached()
      reads this
    {
      tty != null ==> tty.index == index
    }

    function FlagsOf(): Flags
      reads this
    {
      Flags(isOpen, inReset, inResetUpdated)
    }

    /** A slot as initialisation leaves it: not open, nothing held. */
    constructor (index: nat, config: Option<ChannelConfig>, openWait: nat)
      ensures Valid() && Attached() && this.index == index && this.config == config && this.openWait == openWait
      ensures FlagsOf() == Initial && ch == NoChannel && pil == NoPil && ledger == []
      ensures !chAllocated && !taskletScheduled && !retryTimerArmed && !raWakeLockHeld && !wakeLockArmed
      ensures rx == [] && tx == [] && txSpace == 0 && tty == null
    {
      this.index := index;
      this.config := config;
      this.openWait := openWait;
      ch, pil := NoChannel, NoPil;
      isOpen, inReset, inResetUpdated := false, false, false;
      chAllocated, taskletScheduled, retryTimerArmed := false, false, false;
      raWakeLockHeld, wakeLockArmed := false, false;
      ledger := [];
      rx, txSpace, tx, readIntrEnabled := [], 0, [], true;
      lineSignals, signalRequests := 0, [];
      tty := null;
    }

    /** is_in_reset: the remote side of the channel is down. */
    function IsInReset(): (r: bool)
      reads this
      ensures r <==> FlagsOf().inReset
    {
      inReset
    }

    /** The transport's event callback. DATA on an open channel turns the
        read interrupt off and wakes writers when there is room to write, and
        takes the read wake lock and schedules the read tasklet when there are
        bytes to read; DATA on a closed channel changes nothing. OPEN, CLOSE
        and REOPEN_READY update the reset flags; CLOSE also schedules the read
        tasklet (so that it sends BREAK) and, on the loopback port, the
        loopback re-request, reported in `rearmLoopback`. */
    method Notify(e: Event) returns (rearmLoopback: bool)
      requires Valid() && Attached()
      requires e == CloseEvent ==> tty != null
      modifies this`isOpen, this`inReset, this`inResetUpdated, this`readIntrEnabled,
               this`raWakeLockHeld, this`taskletScheduled, tty
      ensures Valid()
      ensures FlagsOf() == AfterEvent(old(FlagsOf()), e)
      ensures e == DataEvent ==>
                readIntrEnabled == (old(readIntrEnabled) && !(old(isOpen) && txSpace != 0))
                && raWakeLockHeld == (old(raWakeLockHeld) || (old(isOpen) && |rx| != 0))
                && taskletScheduled == (old(taskletScheduled) || (old(isOpen) && |rx| != 0))
      ensures e == DataEvent && tty != null ==>
                tty.writeWakeups == old(tty.writeWakeups) + (if old(isOpen) && txSpace != 0 then 1 else 0)
      ensures e != DataEvent ==>
                readIntrEnabled == old(readIntrEnabled) && raWakeLockHeld == old(raWakeLockHeld)
                && (tty != null ==> tty.writeWakeups == old(tty.writeWakeups))
      ensures e == CloseEvent ==> taskletScheduled
      ensures e == OpenEvent || e == ReopenReadyEvent ==> taskletScheduled == old(taskletScheduled)
      ensures rearmLoopback <==> e == CloseEvent && index == LoopbackIdx
      ensures tty != null ==> tty.received == old(tty.received) && tty.driverData == old(tty.driverData)
    {
      rearmLoopback := false;
      match e
      case DataEvent =>
        if !isOpen {
          return;
        }
        if txSpace != 0 {
          readIntrEnabled := false;
          if tty != null {
            tty.writeWakeups := tty.writeWakeups + 1;
          }
        }
        if |rx| != 0 {
          raWakeLockHeld := true;
          taskletScheduled := true;
        }
      case OpenEvent =>
        inReset, inResetUpdated, isOpen := false, true, true;
      case CloseEvent =>
        inReset, inResetUpdated, isOpen := true, true, false;
        taskletScheduled := true;
        rearmLoopback := tty.index == LoopbackIdx;
      case ReopenReadyEvent =>
        inReset, inResetUpdated, isOpen := true, true, false;
    }

    /** The tty write operation: refused with -ENETRESET while in reset
        without touching the channel; with no room it enables the read
        interrupt (so that the next DATA event wakes the writer) and accepts
        nothing; otherwise it forwards the first min(len, room) bytes. */
    method Write(buf: seq<byte>) returns (r: int)
      modifies this`tx, this`txSpace, this`readIntrEnabled
      ensures r == WriteReturn(old(inReset), old(txSpace), |buf|)
      ensures old(inReset) || old(txSpace) == 0 ==> tx == old(tx) && txSpace == old(txSpace)
      ensures readIntrEnabled == (old(readIntrEnabled) || (!old(inReset) && old(txSpace) == 0))
      ensures !old(inReset) && old(txSpace) != 0 ==>
                tx == old(tx) + buf[..r] && txSpace == old(txSpace) - r
    {
      if IsInReset() {
        return -ENETRESET;
      }
      var avail := txSpace;
      if avail == 0 {
        readIntrEnabled := true;
        return 0;
      }
      var len := |buf|;
      if len > avail {
        len := avail;
      }
      tx := tx + buf[..len];
      txSpace := txSpace - len;
      r := len;
    }

    /** tiocmget: the transport's signal bits, with TIOCM_OUT1 set when in
        reset and TIOCM_OUT2 set when the reset status changed since the last
        query, which this query consumes. */
    method TiocmGet() returns (r: bv32)
      requires Valid()
      modifies this`inResetUpdated
      ensures Valid()
      ensures r == StatusBits(lineSignals, old(FlagsOf()))
      ensures r & TiocmOut1 != 0 <==> inReset
      ensures r & TiocmOut2 != 0 <==> old(inResetUpdated)
      ensures FlagsOf() == AfterStep(old(FlagsOf()), QueryStatus)
    {
      r := StatusBits(lineSignals, FlagsOf());
      if inResetUpdated {
        inResetUpdated := false;
      }
    }

    /** tiocmset: refused with -ENETRESET while in reset, without touching
        the channel; otherwise the request is passed to the transport and its
        answer `transportResult` returned. */
    method TiocmSet(setBits: bv32, clearBits: bv32, transportResult: int) returns (r: int)
      modifies this`signalRequests
      ensures inReset ==> r == -ENETRESET && signalRequests == old(signalRequests)
      ensures !inReset ==> r == transportResult && signalRequests == old(signalRequests) + [SignalRequest(setBits, clearBits)]
    {
      if inReset {
        return -ENETRESET;
      }
      signalRequests := signalRequests + [SignalRequest(setBits, clearBits)];
      r := transportResult;
    }

    /** The retry timer fires: reschedule the read tasklet, but only while
        the channel is open. */
    method BufReqRetry()
      modifies this`taskletScheduled, this`retryTimerArmed
      ensures !retryTimerArmed
      ensures taskletScheduled == (old(taskletScheduled) || isOpen)
    {
      retryTimerArmed := false;
      if isOpen {
        taskletScheduled := true;
      }
    }

    /** The line discipline lifted throttling: reschedule the read tasklet,
        but only while the channel is open. */
    method Unthrottle()
      modifies this`taskletScheduled
      ensures taskletScheduled == (old(taskletScheduled) || isOpen)
    {
      if isOpen {
        taskletScheduled := true;
      }
    }

    /** The read tasklet runs. Without a tty it does nothing. Otherwise it
        moves bytes as Pump describes (Drain) and then wakes writers, except
        when it stopped for want of a staging buffer. */
    method Read(ldisc: seq<LdiscStep>)
      requires Valid()
      modifies this`rx, this`taskletScheduled, this`retryTimerArmed, this`raWakeLockHeld,
               this`wakeLockArmed, tty
      ensures Valid()
      ensures !taskletScheduled
      ensures tty == null ==>
                rx == old(rx) && retryTimerArmed == old(retryTimerArmed)
                && raWakeLockHeld == old(raWakeLockHeld) && wakeLockArmed == old(wakeLockArmed)
      ensures tty != null ==>
                var p := Pump(inReset, old(rx), ldisc);
                rx == old(rx)[p.consumed..]
                && tty.received == old(tty.received) + p.delivered
                && retryTimerArmed == (old(retryTimerArmed) || p.exit == NoBuffer)
                && raWakeLockHeld == (old(raWakeLockHeld) && p.exit != Drained)
                && wakeLockArmed == (old(wakeLockArmed) || p.consumed > 0)
                && tty.writeWakeups == old(tty.writeWakeups) + (if p.exit == NoBuffer then 0 else 1)
                && tty.driverData == old(tty.driverData)
    {
      taskletScheduled := false;
      var t := tty;
      if t == null {
        return;
      }
      var exit := Drain(t, ldisc);
      if exit != NoBuffer {
        t.writeWakeups := t.writeWakeups + 1;
      }
    }

    /** The loop of the read tasklet: one BREAK when in reset; nothing more
        once throttled; the read wake lock released when the channel is
        drained; the retry timer armed when no staging buffer is granted, in
        which case the tasklet returns at once; the timed wake lock armed for
        every chunk moved. */
    method Drain(t: Tty, ldisc: seq<LdiscStep>) returns (exit: PumpExit)
      modifies this`rx, this`retryTimerArmed, this`raWakeLockHeld, this`wakeLockArmed, t`received
      ensures exit == Pump(inReset, old(rx), ldisc).exit
      ensures RanAs(Pump(inReset, old(rx), ldisc), old(rx), rx, old(t.received), t.received,
                    old(wakeLockArmed), wakeLockArmed)
      ensures retryTimerArmed == (old(retryTimerArmed) || exit == NoBuffer)
      ensures raWakeLockHeld == (old(raWakeLockHeld) && exit != Drained)
    {
      var answers := ldisc;
      ghost var rx0, recv0 := rx, t.received;
      ghost var target := Pump(inReset, rx, ldisc);
      ghost var reset := inReset;
      ghost var done: seq<byte> := [];
      ghost var chunks: seq<nat> := [];
      ghost var before := recv0;
      ghost var extra: seq<FlipItem> := [];
      assert recv0 + AsItems([]) == recv0;
      while true
        invariant PumpedSoFar(target, reset, rx0, recv0, done, chunks, rx, answers, t.received)
        invariant wakeLockArmed == (old(wakeLockArmed) || |done| > 0)
        modifies this`rx, this`wakeLockArmed, t`received
        decreases |rx|
      {
        before := t.received;
        if IsInReset() {
          t.received := t.received + [Break];
          exit, extra := BreakSent, [Break];
          break;
        }
        var step := Head(answers);
        if step.throttled {
          exit := Throttled;
          break;
        }
        var avail: nat := |rx|;
        if avail == 0 {
          exit := Drained;
          break;
        }
        if avail > MaxTtyBufSize {
          avail := MaxTtyBufSize;
        }
        avail := Min(step.grant, avail);
        if avail == 0 {
          exit := NoBuffer;
          break;
        }
        var data := rx[..avail];
        DrainStep(target, reset, rx0, recv0, done, chunks, rx, answers, t.received, avail);
        rx := rx[avail..];
        answers := Tail(answers);
        wakeLockArmed := true;
        t.received := t.received + AsItems(data);
        done, chunks := done + data, chunks + [avail];
      }
      DrainExit(target, reset, rx0, recv0, done, chunks, rx, answers, before, extra, exit,
                old(wakeLockArmed), wakeLockArmed);
      if exit == Drained {
        raWakeLockHeld := false;
      } else if exit == NoBuffer {
        retryTimerArmed := true;
      }
    }

    /** The open sequence of port activation, run under the mutex: take a
        subsystem reference (failing at once when that fails), run the read
        stage, and put the reference again when the read stage fails (label
        release_pil). The subsystem pointer stays in the slot either way.
        `gotRef` reports that the reference was taken. */
    method OpenPort(o: Outcomes) returns (res: int, gotRef: bool)
      requires Valid()
      modifies this`pil, this`ledger, this`chAllocated, this`taskletScheduled, this`raWakeLockHeld, this`wakeLockArmed,
               this`ch, this`isOpen, this`inReset, this`inResetUpdated, this`readIntrEnabled
      ensures Valid()
      ensures var a := PortLifecycle.Activate(Slot(true, openWait, old(chAllocated), old(isOpen)), o);
              res == a.res && ledger == old(ledger) + a.ops
      ensures gotRef <==> o.get.GotRef?
      ensures chAllocated == (old(chAllocated) || (o.get.GotRef? && openWait != 0 && o.allocWait == Signalled))
      ensures pil == (if o.get.GotRef? then PilRef(o.get.id) else PilError(o.get.errno))
      ensures o.get.GotRef? ==> OpenedAsReadStage(old(FlagsOf()), old(ch), old(taskletScheduled),
                                                   old(raWakeLockHeld), old(wakeLockArmed), res, o)
      ensures o.get.GetFailed? ==>
                FlagsOf() == old(FlagsOf()) && ch == old(ch) && readIntrEnabled == old(readIntrEnabled)
                && chAllocated == old(chAllocated)
                && taskletScheduled == old(taskletScheduled) && raWakeLockHeld == old(raWakeLockHeld)
                && wakeLockArmed == old(wakeLockArmed)
    {
      match o.get {
        case GetFailed(e) =>
          pil := PilError(e);
          return -(e as int), false;
        case GotRef(id) =>
          pil := PilRef(id);
          ledger := ledger + [Acquire(SubsystemRef)];
      }
      gotRef := true;
      res := OpenReadSide(o);
      if res != 0 {
        ledger := ledger + [Release(SubsystemRef)];
      }
      ghost var r := ReadStage(Slot(true, openWait, old(chAllocated), old(isOpen)), o);
      ghost var tail: seq<ResOp> := if r.res == 0 then [] else [Release(SubsystemRef)];
      ConcatAssociates(old(ledger), [Acquire(SubsystemRef)], r.ops);
      ConcatAssociates(old(ledger), [Acquire(SubsystemRef)] + r.ops, tail);
    }

    /** What the read stage leaves in the slot, from the flags, handle and
        deferred-read state before it: on success, the channel handle opened,
        the read interrupt off and the channel open (marked so by the OPEN
        event if it was not already); on failure, the flags as they were and
        a handle that was opened closed again; the tasklet and wake locks
        fresh whenever the stage got past the allocation wait; and the
        channel-allocated completion signalled for good once a wait on it
        succeeded. */
    twostate predicate OpenedAsReadStage(flags0: Flags, ch0: Handle, tasklet0: bool, ra0: bool, wl0: bool,
                                         res: int, o: Outcomes)
      reads this
    {
      var passed := openWait == 0 || old(chAllocated) || o.allocWait == Signalled;
      (res == 0 ==>
         o.open.Opened? && ch == ChannelHandle(o.open.handle) && !readIntrEnabled && isOpen
         && FlagsOf() == (if flags0.isOpen then flags0 else AfterEvent(flags0, OpenEvent)))
      && (res != 0 ==> FlagsOf() == flags0 && readIntrEnabled == old(readIntrEnabled))
      && (res != 0 ==> ch == (if passed && o.open.Opened? then NoChannel else ch0))
      && (passed ==> !taskletScheduled && !raWakeLockHeld && !wakeLockArmed)
      && (!passed ==> taskletScheduled == tasklet0 && raWakeLockHeld == ra0 && wakeLockArmed == wl0)
      && chAllocated == (old(chAllocated) || (openWait != 0 && o.allocWait == Signalled))
    }

    /** The read stage: if open_wait is set, wait for the channel to be
        allocated (no wait once it is; a successful wait leaves the
        completion signalled, since the probe completes it for all waiters); set up the read tasklet and wake
        locks; run the transport stage; kill the tasklet and destroy the wake
        locks again when the transport stage fails (label release_wl_tl). */
    method OpenReadSide(o: Outcomes) returns (res: int)
      requires Valid()
      modifies this`ledger, this`chAllocated, this`taskletScheduled, this`raWakeLockHeld, this`wakeLockArmed,
               this`ch, this`isOpen, this`inReset, this`inResetUpdated, this`readIntrEnabled
      ensures Valid()
      ensures var a := ReadStage(Slot(true, openWait, old(chAllocated), old(isOpen)), o);
              res == a.res && ledger == old(ledger) + a.ops
      ensures OpenedAsReadStage(old(FlagsOf()), old(ch), old(taskletScheduled), old(raWakeLockHeld),
                                old(wakeLockArmed), res, o)
    {
      if openWait != 0 {
        var w := if chAllocated then Signalled else o.allocWait;
        if w != Signalled {
          return WaitError(w);
        }
        chAllocated := true;
      }
      taskletScheduled, raWakeLockHeld, wakeLockArmed := false, false, false;
      ledger := ledger + [Acquire(ReadWork)];
      res := OpenTransport(o);
      if res != 0 {
        taskletScheduled, raWakeLockHeld, wakeLockArmed := false, false, false;
        ledger := ledger + [Release(ReadWork)];
      }
      ghost var t := TransportStage(old(isOpen), o);
      ghost var tail: seq<ResOp> := if t.res == 0 then [] else [Release(ReadWork)];
      ConcatAssociates(old(ledger), [Acquire(ReadWork)], t.ops);
      ConcatAssociates(old(ledger), [Acquire(ReadWork)] + t.ops, tail);
    }

    /** The transport stage: open the channel on its edge; unless the channel
        is already marked open, wait for the remote OPEN (which the event
        callback reports); on success turn the read interrupt off. A failed
        wait closes the channel and clears the handle (label close_ch). */
    method OpenTransport(o: Outcomes) returns (res: int)
      requires Valid()
      modifies this`ledger, this`ch, this`isOpen, this`inReset, this`inResetUpdated, this`readIntrEnabled
      ensures Valid()
      ensures var a := TransportStage(old(isOpen), o);
              res == a.res && ledger == old(ledger) + a.ops
      ensures res == 0 ==>
                ch == ChannelHandle(o.open.handle) && !readIntrEnabled && isOpen
                && FlagsOf() == (if old(isOpen) then old(FlagsOf()) else AfterEvent(old(FlagsOf()), OpenEvent))
      ensures res != 0 ==> FlagsOf() == old(FlagsOf()) && readIntrEnabled == old(readIntrEnabled)
      ensures res != 0 ==> ch == (if o.open.Opened? then NoChannel else old(ch))
    {
      match o.open {
        case OpenFailed(e) =>
          return -(e as int);
        case Opened(h) =>
          ch := ChannelHandle(h);
          ledger := ledger + [Acquire(TransportHandle)];
      }
      if !isOpen {
        if o.ackWait == Signalled {
          inReset, inResetUpdated, isOpen := false, true, true;
        } else {
          res := WaitError(o.ackWait);
          ch := NoChannel;
          ledger := ledger + [Release(TransportHandle)];
          return;
        }
      }
      readIntrEnabled := false;
      res := 0;
    }

    /** The body of port shutdown: clear is_open, kill the tasklet and the
        wake locks, cancel the retry timer and close the transport handle. */
    method Teardown()
      requires Valid()
      modifies this`isOpen, this`taskletScheduled, this`raWakeLockHeld, this`wakeLockArmed,
               this`retryTimerArmed, this`ch, this`ledger
      ensures Valid()
      ensures FlagsOf() == AfterStep(old(FlagsOf()), ResetState.Shutdown)
      ensures !taskletScheduled && !raWakeLockHeld && !wakeLockArmed && !retryTimerArmed
      ensures ch == NoChannel
      ensures ledger == old(ledger) + ShutdownOps
    {
      isOpen := false;
      taskletScheduled, raWakeLockHeld, wakeLockArmed := false, false, false;
      ledger := ledger + [Release(ReadWork)];
      retryTimerArmed := false;
      ledger := ledger + [Release(TransportHandle)];
      ch := NoChannel;
      ledger := ledger + [Release(SubsystemRef)];
    }
  }

  /** Bytes already moved, with their chunk sizes, before a run `q`. */
  function Combine(done: seq<byte>, chunks: seq<nat>, q: PumpRun): PumpRun
  {
    PumpRun(AsItems(done) + q.delivered, chunks + q.chunks, |done| + q.consumed, q.exit)
  }

  /** Invariant of the read loop: the bytes `done` moved so far, in chunks
      `chunks`, are the channel's first bytes and were pushed to the tty, and
      the run from here on (`rx` left, `answers` to come) completes the whole
      run `target`. */
  ghost predicate PumpedSoFar(target: PumpRun, inReset: bool, rx0: seq<byte>, recv0: seq<FlipItem>,
                              done: seq<byte>, chunks: seq<nat>, rx: seq<byte>, answers: seq<LdiscStep>,
                              received: seq<FlipItem>)
  {
    rx0 == done + rx && received == recv0 + AsItems(done)
    && target == Combine(done, chunks, Pump(inReset, rx, answers))
  }

  /** One chunk of the read loop keeps the invariant. */
  lemma DrainStep(target: PumpRun, inReset: bool, rx0: seq<byte>, recv0: seq<FlipItem>,
                  done: seq<byte>, chunks: seq<nat>, rx: seq<byte>, answers: seq<LdiscStep>,
                  received: seq<FlipItem>, got: nat)
    requires PumpedSoFar(target, inReset, rx0, recv0, done, chunks, rx, answers, received)
    requires !inReset && !Head(answers).throttled && |rx| != 0
    requires got == Min(Head(answers).grant, Min(|rx|, MaxTtyBufSize)) && got != 0
    ensures PumpedSoFar(target, inReset, rx0, recv0, done + rx[..got], chunks + [got], rx[got..],
                        Tail(answers), received + AsItems(rx[..got]))
  {
    var data, rest := rx[..got], rx[got..];
    PumpUnfold(inReset, rx, answers);
    CombinePrepend(done, chunks, data, Pump(inReset, rest, Tail(answers)));
    assert rx == data + rest;
    ConcatAssociates(done, data, rest);
    AsItemsAppend(done, data);
    ConcatAssociates(recv0, AsItems(done), AsItems(data));
  }

  /** What a read run `p` leaves behind: the channel without the bytes it
      consumed, the tty with the items it delivered, and the timed wake lock
      armed once any byte moved. */
  ghost predicate RanAs(p: PumpRun, rx0: seq<byte>, rx: seq<byte>, recv0: seq<FlipItem>, received: seq<FlipItem>,
                        wl0: bool, wl: bool)
  {
    p.consumed <= |rx0| && rx == rx0[p.consumed..] && received == recv0 + p.delivered
    && wl == (wl0 || p.consumed > 0)
  }

  /** Where the read loop stops, for the reason `exit`, after pushing
      `extra`, the whole run is `target`. */
  lemma DrainExit(target: PumpRun, inReset: bool, rx0: seq<byte>, recv0: seq<FlipItem>,
                  done: seq<byte>, chunks: seq<nat>, rx: seq<byte>, answers: seq<LdiscStep>,
                  received: seq<FlipItem>, extra: seq<FlipItem>, exit: PumpExit, wl0: bool, wl: bool)
    requires PumpedSoFar(target, inReset, rx0, recv0, done, chunks, rx, answers, received)
    requires wl == (wl0 || |done| > 0)
    requires exit == BreakSent ==> inReset && extra == [Break]
    requires exit == Throttled ==> !inReset && Head(answers).throttled && extra == []
    requires exit == Drained ==> !inReset && !Head(answers).throttled && |rx| == 0 && extra == []
    requires exit == NoBuffer ==>
               !inReset && !Head(answers).throttled && |rx| != 0
               && Min(Head(answers).grant, Min(|rx|, MaxTtyBufSize)) == 0 && extra == []
    ensures exit == target.exit
    ensures RanAs(target, rx0, rx, recv0, received + extra, wl0, wl)
  {
    PumpUnfold(inReset, rx, answers);
    assert Pump(inReset, rx, answers) == PumpRun(extra, [], 0, exit);
    DropAppended(done, rx);
    ConcatAssociates(recv0, AsItems(done), extra);
  }

  lemma CombinePrepend(done: seq<byte>, chunks: seq<nat>, data: seq<byte>, q: PumpRun)
    ensures Combine(done, chunks, Prepend(data, q)) == Combine(done + data, chunks + [|data|], q)
  {
    AsItemsAppend(done, data);
    ConcatAssociates(AsItems(done), AsItems(data), q.delivered);
    ConcatAssociates(chunks, [|data|], q.chunks);
  }

  lemma ConcatAssociates<T>(a: seq<T>, b: seq<T>, c: seq<T>)
    ensures a + (b + c) == (a + b) + c
  {
  }

  lemma DropAppended<T>(a: seq<T>, b: seq<T>)
    ensures (a + b)[|a|..] == b
  {
  }

  /** The slot a tty's driver data points to, as a frame: none or one. */
  function Slots(c: Channel?): set<Channel>
  {
    if c == null then {} else {c}
  }

  /** The device table (smd_tty[]), the global open/close mutex, the
      channel table the probe matches against, and the number of loopback
      requests sent to the modem. */
  class Registry {
    const infos: seq<Channel>
    const configs: seq<ChannelConfig>
    ghost var mutexHeld: bool
    ghost var mutexAcquisitions: nat
    var loopbackRequests: nat

    /** The table's invariant: one distinct slot per device index, the
        probe's table naming the slot each entry configures, each slot
        knowing its own index, and the mutex free between handlers. */
    ghost predicate Valid()
      reads this
    {
      |infos| == MaxSmdTtys && !mutexHeld
      && (forall j, k :: 0 <= j < k < |infos| ==> infos[j] != infos[k])
      && (forall k :: 0 <= k < |infos| ==> infos[k].index == k)
      && (forall k :: 0 <= k < |configs| ==> configs[k].ttyDevIndex < MaxSmdTtys)
      && (forall k :: 0 <= k < |configs| ==> infos[configs[k].ttyDevIndex].config == Some(configs[k]))
    }

    /** The slot of device index `n`, as a frame: none when out of range. */
    function SlotAt(n: nat): set<Channel>
    {
      if n < |infos| then {infos[n]} else {}
    }

    constructor (infos: seq<Channel>, configs: seq<ChannelConfig>)
      requires |infos| == MaxSmdTtys
      requires forall j, k :: 0 <= j < k < |infos| ==> infos[j] != infos[k]
      requires forall k :: 0 <= k < |infos| ==> infos[k].index == k
      requires forall k :: 0 <= k < |configs| ==> configs[k].ttyDevIndex < MaxSmdTtys
      requires forall k :: 0 <= k < |configs| ==> infos[configs[k].ttyDevIndex].config == Some(configs[k])
      ensures Valid() && this.infos == infos && this.configs == configs
      ensures mutexAcquisitions == 0 && loopbackRequests == 0
    {
      this.infos := infos;
      this.configs := configs;
      mutexHeld := false;
      mutexAcquisitions := 0;
      loopbackRequests := 0;
    }

    /** Port activation for the tty's index. An index out of range or
        without a configured channel fails with -ENODEV before the mutex is
        taken. Otherwise the mutex is taken, the tty's driver data set, the
        slot's open sequence run (OpenPort) and the mutex released on every
        exit. On the loopback port an activation that got its subsystem
        reference also asks the modem for its loopback server. Only the
        fields the open sequence writes change; open_wait, the channel's
        data, the retry timer and the attached tty are kept. */
    method Activate(tty: Tty, o: Outcomes) returns (res: int)
      requires Valid()
      requires tty.index < |infos| ==> infos[tty.index].Valid()
      modifies this`mutexHeld, this`mutexAcquisitions, this`loopbackRequests, tty`driverData,
               SlotAt(tty.index)`pil, SlotAt(tty.index)`ledger, SlotAt(tty.index)`chAllocated,
               SlotAt(tty.index)`taskletScheduled, SlotAt(tty.index)`raWakeLockHeld,
               SlotAt(tty.index)`wakeLockArmed, SlotAt(tty.index)`ch, SlotAt(tty.index)`isOpen,
               SlotAt(tty.index)`inReset, SlotAt(tty.index)`inResetUpdated, SlotAt(tty.index)`readIntrEnabled
      ensures Valid()
      ensures tty.index < |infos| ==> infos[tty.index].Valid()
      ensures tty.index >= MaxSmdTtys || infos[tty.index].config.None? ==>
                res == -ENODEV && mutexAcquisitions == old(mutexAcquisitions)
                && loopbackRequests == old(loopbackRequests) && tty.driverData == old(tty.driverData)
                && (tty.index < |infos| ==> unchanged(infos[tty.index]))
      ensures tty.index < MaxSmdTtys && infos[tty.index].config.Some? ==>
                var info := infos[tty.index];
                var slot := Slot(true, old(info.openWait), old(info.chAllocated), old(info.isOpen));
                res == PortLifecycle.Activate(slot, o).res
                && info.ledger == old(info.ledger) + PortLifecycle.Activate(slot, o).ops
                && mutexAcquisitions == old(mutexAcquisitions) + 1 && tty.driverData == info
                && loopbackRequests
                   == old(loopbackRequests) + (if tty.index == LoopbackIdx && o.get.GotRef? then 1 else 0)
      ensures tty.index < MaxSmdTtys && infos[tty.index].config.Some? ==>
                var info := infos[tty.index];
                info.pil == (if o.get.GotRef? then PilRef(o.get.id) else PilError(o.get.errno))
                && info.chAllocated
                   == (old(info.chAllocated) || (o.get.GotRef? && info.openWait != 0 && o.allocWait == Signalled))
    {
      var n := tty.index;
      if n >= MaxSmdTtys || infos[n].config.None? {
        return -ENODEV;
      }
      var info := infos[n];
      mutexHeld := true;
      mutexAcquisitions := mutexAcquisitions + 1;
      tty.driverData := info;
      var gotRef;
      res, gotRef := info.OpenPort(o);
      if gotRef && n == LoopbackIdx {
        loopbackRequests := loopbackRequests + 1;
      }
      mutexHeld := false;
    }

    /** Port shutdown. A tty without driver data is left alone. Otherwise,
        under the mutex, the slot is torn down (Teardown), the tty's driver
        data cleared, and the subsystem reference put; the pointer itself
        stays in the slot. Shutdown changes only the fields Teardown names:
        the channel-allocated completion, open_wait, the channel's data and
        the attached tty are kept for the next activation. */
    method Shutdown(tty: Tty)
      requires Valid()
      requires tty.driverData != null ==> tty.driverData.Valid()
      modifies this`mutexHeld, this`mutexAcquisitions, tty`driverData,
               Slots(tty.driverData)`isOpen, Slots(tty.driverData)`taskletScheduled,
               Slots(tty.driverData)`raWakeLockHeld, Slots(tty.driverData)`wakeLockArmed,
               Slots(tty.driverData)`retryTimerArmed, Slots(tty.driverData)`ch, Slots(tty.driverData)`ledger
      ensures Valid()
      ensures old(tty.driverData) == null ==>
                tty.driverData == null && mutexAcquisitions == old(mutexAcquisitions)
      ensures old(tty.driverData) != null ==>
                var info := old(tty.driverData);
                info.Valid() && tty.driverData == null
                && mutexAcquisitions == old(mutexAcquisitions) + 1
                && info.FlagsOf() == AfterStep(old(info.FlagsOf()), ResetState.Shutdown)
                && info.ch == NoChannel && info.pil == old(info.pil)
                && !info.taskletScheduled && !info.raWakeLockHeld && !info.wakeLockArmed && !info.retryTimerArmed
                && info.ledger == old(info.ledger) + ShutdownOps
      ensures old(tty.driverData) != null ==>
                var info := old(tty.driverData);
                info.chAllocated == old(info.chAllocated) && info.openWait == old(info.openWait)
                && info.rx == old(info.rx) && info.tx == old(info.tx) && info.txSpace == old(info.txSpace)
                && info.readIntrEnabled == old(info.readIntrEnabled) && info.lineSignals == old(info.lineSignals)
                && info.tty == old(info.tty)
    {
      var info := tty.driverData;
      if info == null {
        return;
      }
      mutexHeld := true;
      mutexAcquisitions := mutexAcquisitions + 1;
      info.Teardown();
      tty.driverData := null;
      mutexHeld := false;
    }

    /** The platform probe for a channel-allocated device: complete the
        channel-allocated signal of the slot of the first matching table
        entry and answer 0, or answer -ENODEV when no entry matches. That
        signal is the only field of the only slot the probe changes. */
    method DummyProbe(pdevId: int, pdevName: string) returns (r: int)
      requires Valid()
      modifies (if ProbeIndex(configs, pdevId, pdevName).Some?
                then {infos[ProbeIndex(configs, pdevId, pdevName).value]} else {})`chAllocated
      ensures r == 0 <==> ProbeIndex(configs, pdevId, pdevName).Some?
      ensures r != 0 ==> r == -ENODEV
      ensures ProbeIndex(configs, pdevId, pdevName).Some? ==>
                var info := infos[ProbeIndex(configs, pdevId, pdevName).value];
                info.config.Some? && info.chAllocated && info.FlagsOf() == old(info.FlagsOf()) && info.ch == old(info.ch)
                && info.ledger == old(info.ledger) && info.pil == old(info.pil) && info.openWait == old(info.openWait)
                && info.rx == old(info.rx) && info.tx == old(info.tx)
                && info.taskletScheduled == old(info.taskletScheduled) && info.retryTimerArmed == old(info.retryTimerArmed)
                && info.raWakeLockHeld == old(info.raWakeLockHeld) && info.wakeLockArmed == old(info.wakeLockArmed)
    {
      var found, idx := FindProbeMatch(configs, pdevId, pdevName);
      if !found {
        return -ENODEV;
      }
      infos[idx].chAllocated := true;
      r := 0;
    }
  }
}
