/** The reset bookkeeping of one channel: the three flags the event callback,
    shutdown and the status query update under the reset spinlock, as values,
    with traces of such updates and the status bits the query reports. */
module ResetState {

  /** is_open, in_reset and in_reset_updated of one channel. */
  datatype Flags = Flags(isOpen: bool, inReset: bool, inResetUpdated: bool)

  /** Events the transport delivers to the channel's callback. REOPEN_READY
      exists only on transports that report a completed close separately. */
  datatype Event = DataEvent | OpenEvent | CloseEvent | ReopenReadyEvent

  /** What touches the flags: an event, shutdown clearing is_open, or a
      status query (tiocmget) consuming the "reset status changed" flag. */
  datatype Step = Notify(e: Event) | Shutdown | QueryStatus

  /** The flags of a channel before its first open. */
  const Initial: Flags := Flags(false, false, false)

  /** Effect of one callback invocation on the flags. */
  function AfterEvent(f: Flags, e: Event): Flags
  {
    match e
    case DataEvent => f
    case OpenEvent => Flags(true, false, true)
    case CloseEvent => Flags(false, true, true)
    case ReopenReadyEvent => Flags(false, true, true)
  }

  function AfterStep(f: Flags, s: Step): Flags
  {
    match s
    case Notify(e) => AfterEvent(f, e)
    case Shutdown => f.(isOpen := false)
    case QueryStatus => f.(inResetUpdated := false)
  }

  /** The flags after the steps, applied in order. */
  function Run(f: Flags, steps: seq<Step>): Flags
    decreases |steps|
  {
    if steps == [] then f else AfterStep(Run(f, steps[..|steps| - 1]), steps[|steps| - 1])
  }

  /** The channel invariant: a channel whose remote side is down is not open. */
  predicate ResetImpliesClosed(f: Flags)
  {
    f.inReset ==> !f.isOpen
  }

  /** Every event, shutdown and status query keeps the invariant, so every
      run from the initial flags does. */
  lemma {:induction false} RunKeepsResetImpliesClosed(f: Flags, steps: seq<Step>)
    requires ResetImpliesClosed(f)
    ensures ResetImpliesClosed(Run(f, steps))
    decreases |steps|
  {
    if steps != [] {
      RunKeepsResetImpliesClosed(f, steps[..|steps| - 1]);
    }
  }

  /** Steps that leave the channel not open. */
  predicate Closes(s: Step)
  {
    s == Notify(CloseEvent) || s == Notify(ReopenReadyEvent) || s == Shutdown
  }

  /** Steps that report a change of the reset status. */
  predicate ChangesResetStatus(s: Step)
  {
    s.Notify? && s.e != DataEvent
  }

  /** Steps that set in_reset (as opposed to clearing it). */
  predicate EntersReset(s: Step)
  {
    s == Notify(CloseEvent) || s == Notify(ReopenReadyEvent)
  }

  /** Reference definition of is_open after a run: an OPEN event occurred and
      nothing closed the channel after it, or the channel was open and
      nothing closed it. */
  ghost predicate OpenAfter(f: Flags, steps: seq<Step>)
  {
    (exists i :: 0 <= i < |steps| && steps[i] == Notify(OpenEvent) && forall j :: i < j < |steps| ==> !Closes(steps[j]))
    || (f.isOpen && forall j :: 0 <= j < |steps| ==> !Closes(steps[j]))
  }

  lemma {:induction false} RunIsOpen(f: Flags, steps: seq<Step>)
    ensures Run(f, steps).isOpen <==> OpenAfter(f, steps)
    decreases |steps|
  {
    if steps != [] {
      var n := |steps|;
      var p, l := steps[..n - 1], steps[n - 1];
      RunIsOpen(f, p);
      assert forall i :: 0 <= i < n - 1 ==> p[i] == steps[i];
      if l == Notify(OpenEvent) {
        assert steps[n - 1] == Notify(OpenEvent);
      } else if Closes(l) {
        assert Closes(steps[n - 1]);
      } else {
        assert Run(f, steps).isOpen == Run(f, p).isOpen;
        if OpenAfter(f, p) {
          if i :| 0 <= i < |p| && p[i] == Notify(OpenEvent) && forall j :: i < j < |p| ==> !Closes(p[j]) {
            assert steps[i] == Notify(OpenEvent) && forall j :: i < j < n ==> !Closes(steps[j]);
          }
        }
        if OpenAfter(f, steps) {
          if i :| 0 <= i < n && steps[i] == Notify(OpenEvent) && forall j :: i < j < n ==> !Closes(steps[j]) {
            assert i < n - 1 && p[i] == Notify(OpenEvent);
          }
        }
      }
    }
  }

  /** Reference definition of in_reset_updated after a run: a reset-status
      event occurred and no status query followed it, or the flag was set and
      no status query happened. */
  ghost predicate ChangePendingAfter(f: Flags, steps: seq<Step>)
  {
    (exists i :: 0 <= i < |steps| && ChangesResetStatus(steps[i]) && forall j :: i < j < |steps| ==> steps[j] != QueryStatus)
    || (f.inResetUpdated && forall j :: 0 <= j < |steps| ==> steps[j] != QueryStatus)
  }

  lemma {:induction false} RunChangePending(f: Flags, steps: seq<Step>)
    ensures Run(f, steps).inResetUpdated <==> ChangePendingAfter(f, steps)
    decreases |steps|
  {
    if steps != [] {
      var n := |steps|;
      var p, l := steps[..n - 1], steps[n - 1];
      RunChangePending(f, p);
      assert forall i :: 0 <= i < n - 1 ==> p[i] == steps[i];
      if ChangesResetStatus(l) {
        assert ChangesResetStatus(steps[n - 1]);
      } else if l == QueryStatus {
        assert steps[n - 1] == QueryStatus;
      } else {
        assert Run(f, steps).inResetUpdated == Run(f, p).inResetUpdated;
        if ChangePendingAfter(f, p) {
          if i :| 0 <= i < |p| && ChangesResetStatus(p[i]) && forall j :: i < j < |p| ==> p[j] != QueryStatus {
            assert ChangesResetStatus(steps[i]) && forall j :: i < j < n ==> steps[j] != QueryStatus;
          }
        }
        if ChangePendingAfter(f, steps) {
          if i :| 0 <= i < n && ChangesResetStatus(steps[i]) && forall j :: i < j < n ==> steps[j] != QueryStatus {
            assert i < n - 1 && ChangesResetStatus(p[i]);
          }
        }
      }
    }
  }

  /** Reference definition of in_reset after a run: the last event that
      changed the reset status was CLOSE or REOPEN_READY, or there was none
      and the channel was in reset. */
  ghost predicate InResetAfter(f: Flags, steps: seq<Step>)
  {
    (exists i :: 0 <= i < |steps| && EntersReset(steps[i]) && forall j :: i < j < |steps| ==> steps[j] != Notify(OpenEvent))
    || (f.inReset && forall j :: 0 <= j < |steps| ==> steps[j] != Notify(OpenEvent))
  }

  lemma {:induction false} RunInReset(f: Flags, steps: seq<Step>)
    ensures Run(f, steps).inReset <==> InResetAfter(f, steps)
    decreases |steps|
  {
    if steps != [] {
      var n := |steps|;
      var p, l := steps[..n - 1], steps[n - 1];
      RunInReset(f, p);
      assert forall i :: 0 <= i < n - 1 ==> p[i] == steps[i];
      if EntersReset(l) {
        assert EntersReset(steps[n - 1]);
      } else if l == Notify(OpenEvent) {
        assert steps[n - 1] == Notify(OpenEvent);
      } else {
        assert Run(f, steps).inReset == Run(f, p).inReset;
        if InResetAfter(f, p) {
          if i :| 0 <= i < |p| && EntersReset(p[i]) && forall j :: i < j < |p| ==> p[j] != Notify(OpenEvent) {
            assert EntersReset(steps[i]) && forall j :: i < j < n ==> steps[j] != Notify(OpenEvent);
          }
        }
        if InResetAfter(f, steps) {
          if i :| 0 <= i < n && EntersReset(steps[i]) && forall j :: i < j < n ==> steps[j] != Notify(OpenEvent) {
            assert i < n - 1 && EntersReset(p[i]);
          }
        }
      }
    }
  }

  /** TIOCM_OUT1 reports "in reset", TIOCM_OUT2 "reset status changed". */
  const TiocmOut1: bv32 := 0x2000
  const TiocmOut2: bv32 := 0x4000

  /** A signal word as the transport reports it: modem lines only, never
      the two bits the driver reserves for its reset state. */
  type ModemBits = b: bv32 | b & TiocmOut1 == 0 && b & TiocmOut2 == 0

  /** The status word tiocmget returns: the transport's signal bits with the
      two synthetic reset bits ORed in. */
  function StatusBits(signals: bv32, f: Flags): (r: bv32)
    ensures r & TiocmOut1 != 0 <==> f.inReset || signals & TiocmOut1 != 0
    ensures r & TiocmOut2 != 0 <==> f.inResetUpdated || signals & TiocmOut2 != 0
    ensures r & !(TiocmOut1 | TiocmOut2) == signals & !(TiocmOut1 | TiocmOut2)
  {
    signals | (if f.inReset then TiocmOut1 else 0) | (if f.inResetUpdated then TiocmOut2 else 0)
  }

  /** Consume on read: once a status query has run, a later query reports
      "changed" only if a reset-status event came in between. */
  lemma {:induction false} QueryConsumesChange(f: Flags, signals: bv32, steps: seq<Step>)
    requires signals & TiocmOut2 == 0
    requires |steps| > 0 && steps[0] == QueryStatus
    requires forall j :: 0 < j < |steps| ==> !ChangesResetStatus(steps[j])
    ensures StatusBits(signals, Run(f, steps)) & TiocmOut2 == 0
  {
    RunChangePending(f, steps);
  }
}
