/** The open sequence (port activate) and shutdown as values: which foreign
    outcomes lead to which return code, and which resources each path
    acquires and releases, in order. */
module PortLifecycle {
  import opened SmdConfig

  /** Resources a channel takes while it is open:
      the reference on the remote subsystem (subsystem_get / subsystem_put),
      the deferred-read resources (the read tasklet and both wake locks,
      initialised together and torn down together), and the transport handle
      (smd_named_open_on_edge / smd_close). */
  datatype Resource = SubsystemRef | ReadWork | TransportHandle

  datatype ResOp = Acquire(r: Resource) | Release(r: Resource)

  /** Result of subsystem_get: a reference, or an error pointer. */
  datatype SubsystemGet = GotRef(id: nat) | GetFailed(errno: Errno)

  /** Result of an interruptible, bounded wait. */
  datatype WaitResult = Signalled | TimedOut | Interrupted

  /** Result of smd_named_open_on_edge. */
  datatype OpenResult = Opened(handle: nat) | OpenFailed(errno: Errno)

  /** The outcomes of the foreign calls and waits of one activation. */
  datatype Outcomes = Outcomes(get: SubsystemGet, allocWait: WaitResult, open: OpenResult, ackWait: WaitResult)

  /** The state of the slot that decides the course of an activation:
      whether the index names a configured slot, its open_wait, whether the
      channel-allocated completion has fired, and whether the channel is
      already marked open when the acknowledgment wait starts. */
  datatype Slot = Slot(configured: bool, openWait: nat, chAllocated: bool, alreadyOpen: bool)

  /** Return code and resource operations of one activation. */
  datatype Activation = Activation(res: int, ops: seq<ResOp>)

  /** Return code of a failed wait: a timeout becomes -ETIMEDOUT, an
      interruption is passed on as -ERESTARTSYS. */
  function WaitError(w: WaitResult): int
  {
    if w == Interrupted then -ERESTARTSYS else -ETIMEDOUT
  }

  /** LIFO discipline: apply the operations to a stack of held resources; a
      release must release the resource taken last. None when it does not. */
  function Nest(held: seq<Resource>, ops: seq<ResOp>): Option<seq<Resource>>
    decreases |ops|
  {
    if ops == [] then Some(held)
    else match ops[0]
      case Acquire(r) => Nest(held + [r], ops[1..])
      case Release(r) =>
        if held != [] && held[|held| - 1] == r then Nest(held[..|held| - 1], ops[1..]) else None
  }

  /** Multiset discipline: the resources held after one operation ... */
  function Apply(held: multiset<Resource>, op: ResOp): multiset<Resource>
  {
    match op
    case Acquire(r) => held + multiset{r}
    case Release(r) => held - multiset{r}
  }

  /** ... and after a sequence of them. */
  function Held(held: multiset<Resource>, ops: seq<ResOp>): multiset<Resource>
    decreases |ops|
  {
    if ops == [] then held else Held(Apply(held, ops[0]), ops[1..])
  }

  /** The activation takes its subsystem reference and gets past the wait
      for the channel to be allocated, so that it sets up the read resources
      and opens the transport channel. */
  predicate ReachesOpen(slot: Slot, o: Outcomes)
  {
    slot.configured && o.get.GotRef? && (slot.openWait == 0 || slot.chAllocated || o.allocWait == Signalled)
  }

  /** Opening the transport channel and waiting for the remote OPEN (unless
      the channel is already marked open): the stage of activation whose
      failure after the open closes the channel again (label close_ch). */
  function TransportStage(alreadyOpen: bool, o: Outcomes): (a: Activation)
    ensures a.res <= 0
  {
    match o.open
    case OpenFailed(e) => Activation(-(e as int), [])
    case Opened(_) =>
      if alreadyOpen || o.ackWait == Signalled then Activation(0, [Acquire(TransportHandle)])
      else Activation(WaitError(o.ackWait), [Acquire(TransportHandle), Release(TransportHandle)])
  }

  /** The wait for the channel to be allocated, then the read resources
      around the transport stage: the stage whose failure after the set-up
      kills the tasklet and destroys the wake locks (label release_wl_tl). */
  function ReadStage(slot: Slot, o: Outcomes): (a: Activation)
    ensures a.res <= 0
  {
    if slot.openWait != 0 && !slot.chAllocated && o.allocWait != Signalled then
      Activation(WaitError(o.allocWait), [])
    else
      var t := TransportStage(slot.alreadyOpen, o);
      Activation(t.res, [Acquire(ReadWork)] + t.ops + (if t.res == 0 then [] else [Release(ReadWork)]))
  }

  /** The course of smd_tty_port_activate for the given slot and outcomes:
      the subsystem reference around the read stage, put again when the read
      stage fails (label release_pil). */
  function Activate(slot: Slot, o: Outcomes): (a: Activation)
    ensures a.res <= 0
    ensures !slot.configured ==> a.res == -ENODEV && a.ops == []
  {
    if !slot.configured then Activation(-ENODEV, [])
    else match o.get
      case GetFailed(e) => Activation(-(e as int), [])
      case GotRef(_) =>
        var r := ReadStage(slot, o);
        Activation(r.res, [Acquire(SubsystemRef)] + r.ops + (if r.res == 0 then [] else [Release(SubsystemRef)]))
  }

  /** Once the channel-allocated completion has fired it stays signalled, so
      the allocation wait of every later activation passes at once: its
      outcome no longer affects the activation. */
  lemma AllocatedWaitPasses(slot: Slot, o: Outcomes, w: WaitResult)
    requires slot.chAllocated
    ensures Activate(slot, o.(allocWait := w)) == Activate(slot, o)
  {
  }

  /** The resource operations of every course of an activation, written out. */
  lemma {:induction false} ActivateCourses(slot: Slot, o: Outcomes)
    requires slot.configured
    ensures o.get.GetFailed? ==> Activate(slot, o).ops == []
    ensures o.get.GotRef? && slot.openWait != 0 && !slot.chAllocated && o.allocWait != Signalled ==>
              Activate(slot, o).ops == [Acquire(SubsystemRef), Release(SubsystemRef)]
    ensures ReachesOpen(slot, o) && o.open.OpenFailed? ==>
              Activate(slot, o).ops == [Acquire(SubsystemRef), Acquire(ReadWork), Release(ReadWork), Release(SubsystemRef)]
    ensures ReachesOpen(slot, o) && o.open.Opened? && Activate(slot, o).res == 0 ==>
              Activate(slot, o).ops == [Acquire(SubsystemRef), Acquire(ReadWork), Acquire(TransportHandle)]
    ensures ReachesOpen(slot, o) && o.open.Opened? && Activate(slot, o).res != 0 ==>
              Activate(slot, o).ops == [Acquire(SubsystemRef), Acquire(ReadWork), Acquire(TransportHandle),
                                        Release(TransportHandle), Release(ReadWork), Release(SubsystemRef)]
  {
    if o.get.GotRef? && ReachesOpen(slot, o) {
      var t := TransportStage(slot.alreadyOpen, o);
      var r := ReadStage(slot, o);
      assert r.ops == [Acquire(ReadWork)] + t.ops + (if t.res == 0 then [] else [Release(ReadWork)]);
      if o.open.OpenFailed? {
        assert r.ops == [Acquire(ReadWork), Release(ReadWork)];
      } else if t.res == 0 {
        assert r.ops == [Acquire(ReadWork), Acquire(TransportHandle)];
      } else {
        assert r.ops == [Acquire(ReadWork), Acquire(TransportHandle), Release(TransportHandle), Release(ReadWork)];
      }
    }
  }

  /** Nesting a concatenation: the second part starts from the stack the
      first part leaves. */
  lemma {:induction false} NestAppend(st: seq<Resource>, a: seq<ResOp>, b: seq<ResOp>)
    ensures Nest(st, a + b) == if Nest(st, a).None? then None else Nest(Nest(st, a).value, b)
    decreases |a|
  {
    if a == [] {
      assert a + b == b;
    } else {
      assert (a + b)[0] == a[0] && (a + b)[1..] == a[1..] + b;
      match a[0]
      case Acquire(r) =>
        NestAppend(st + [r], a[1..], b);
      case Release(r) =>
        if st != [] && st[|st| - 1] == r {
          NestAppend(st[..|st| - 1], a[1..], b);
        }
    }
  }

  /** One acquisition pushes its resource; releasing it again pops it. */
  lemma NestAcquire(st: seq<Resource>, r: Resource)
    ensures Nest(st, [Acquire(r)]) == Some(st + [r])
    ensures Nest(st + [r], [Release(r)]) == Some(st)
  {
    assert [Acquire(r)][1..] == [] && [Release(r)][1..] == [];
    assert (st + [r])[..|st + [r]| - 1] == st;
  }

  /** The transport stage nests: it pushes the handle on success and leaves
      the stack as it found it on failure. */
  lemma TransportNests(st: seq<Resource>, alreadyOpen: bool, o: Outcomes)
    ensures var t := TransportStage(alreadyOpen, o);
            Nest(st, t.ops) == Some(if t.res == 0 then st + [TransportHandle] else st)
  {
    var t := TransportStage(alreadyOpen, o);
    NestAcquire(st, TransportHandle);
    if t.ops == [Acquire(TransportHandle), Release(TransportHandle)] {
      NestAppend(st, [Acquire(TransportHandle)], [Release(TransportHandle)]);
    }
  }

  /** The read stage nests: it pushes the read resources and the handle on
      success and leaves the stack as it found it on failure. */
  lemma ReadNests(st: seq<Resource>, slot: Slot, o: Outcomes)
    ensures var r := ReadStage(slot, o);
            Nest(st, r.ops) == Some(if r.res == 0 then st + [ReadWork, TransportHandle] else st)
  {
    var r := ReadStage(slot, o);
    if r.ops != [] {
      var t := TransportStage(slot.alreadyOpen, o);
      var tail: seq<ResOp> := if t.res == 0 then [] else [Release(ReadWork)];
      var st1 := st + [ReadWork];
      assert r.ops == [Acquire(ReadWork)] + t.ops + tail;
      NestAcquire(st, ReadWork);
      NestAppend(st, [Acquire(ReadWork)], t.ops);
      TransportNests(st1, slot.alreadyOpen, o);
      NestAppend(st, [Acquire(ReadWork)] + t.ops, tail);
      if t.res == 0 {
        assert st1 + [TransportHandle] == st + [ReadWork, TransportHandle];
      }
    }
  }

  /** Every activation releases what it took in the reverse order of taking
      it: a failed one ends holding nothing, a successful one holds the
      subsystem reference, the read resources and the transport handle. */
  lemma ActivateNests(slot: Slot, o: Outcomes)
    ensures Activate(slot, o).res != 0 ==> Nest([], Activate(slot, o).ops) == Some([])
    ensures Activate(slot, o).res == 0 ==> Nest([], Activate(slot, o).ops) == Some([SubsystemRef, ReadWork, TransportHandle])
  {
    var a := Activate(slot, o);
    if slot.configured && o.get.GotRef? {
      var r := ReadStage(slot, o);
      var tail: seq<ResOp> := if r.res == 0 then [] else [Release(SubsystemRef)];
      var st1: seq<Resource> := [SubsystemRef];
      assert a.ops == [Acquire(SubsystemRef)] + r.ops + tail;
      NestAcquire([], SubsystemRef);
      assert [] + [SubsystemRef] == st1;
      NestAppend([], [Acquire(SubsystemRef)], r.ops);
      ReadNests(st1, slot, o);
      NestAppend([], [Acquire(SubsystemRef)] + r.ops, tail);
      if r.res == 0 {
        assert st1 + [ReadWork, TransportHandle] == [SubsystemRef, ReadWork, TransportHandle];
      }
    }
  }

  /** The return codes of an activation: each failure reports the step that
      failed (a timed-out wait as -ETIMEDOUT, an interrupted one as
      -ERESTARTSYS, a failed call with its own error), and it succeeds
      exactly when every step did. */
  lemma ActivateErrors(slot: Slot, o: Outcomes)
    requires slot.configured
    ensures o.get.GetFailed? ==> Activate(slot, o).res == -(o.get.errno as int)
    ensures o.get.GotRef? && slot.openWait != 0 && !slot.chAllocated && o.allocWait == TimedOut ==>
              Activate(slot, o).res == -ETIMEDOUT
    ensures o.get.GotRef? && slot.openWait != 0 && !slot.chAllocated && o.allocWait == Interrupted ==>
              Activate(slot, o).res == -ERESTARTSYS
    ensures ReachesOpen(slot, o) && o.open.OpenFailed? ==> Activate(slot, o).res == -(o.open.errno as int)
    ensures ReachesOpen(slot, o) && o.open.Opened? && !slot.alreadyOpen && o.ackWait != Signalled ==>
              Activate(slot, o).res == WaitError(o.ackWait)
    ensures Activate(slot, o).res == 0 <==>
              ReachesOpen(slot, o) && o.open.Opened? && (slot.alreadyOpen || o.ackWait == Signalled)
  {
  }

  /** What smd_tty_port_shutdown releases, in its order: the deferred-read
      resources, the transport handle, then the subsystem reference. */
  const ShutdownOps: seq<ResOp> := [Release(ReadWork), Release(TransportHandle), Release(SubsystemRef)]

  /** What LIFO nesting guarantees about counting: operations that nest from
      stack `st` to stack `st2` take the held multiset from m + st to m + st2. */
  lemma {:induction false} NestedHeld(m: multiset<Resource>, st: seq<Resource>, ops: seq<ResOp>)
    requires Nest(st, ops).Some?
    ensures Held(m + multiset(st), ops) == m + multiset(Nest(st, ops).value)
    decreases |ops|
  {
    if ops != [] {
      match ops[0]
      case Acquire(r) =>
        assert Apply(m + multiset(st), ops[0]) == m + multiset(st + [r]);
        NestedHeld(m, st + [r], ops[1..]);
      case Release(r) =>
        var st' := st[..|st| - 1];
        assert st == st' + [r];
        assert multiset(st) == multiset(st') + multiset{r};
        assert Apply(m + multiset(st), ops[0]) == m + multiset(st');
        NestedHeld(m, st', ops[1..]);
    }
  }

  lemma {:induction false} HeldAppend(m: multiset<Resource>, a: seq<ResOp>, b: seq<ResOp>)
    ensures Held(m, a + b) == Held(Held(m, a), b)
    decreases |a|
  {
    if a != [] {
      assert (a + b)[0] == a[0] && (a + b)[1..] == a[1..] + b;
      HeldAppend(Apply(m, a[0]), a[1..], b);
      assert Held(m, a + b) == Held(Apply(m, a[0]), a[1..] + b);
      assert Held(m, a) == Held(Apply(m, a[0]), a[1..]);
    } else {
      assert a + b == b;
    }
  }

  /** The operations of one session: an activation and, when it succeeded,
      the shutdown that closes the port again. */
  function SessionOps(slot: Slot, o: Outcomes): seq<ResOp>
  {
    var a := Activate(slot, o);
    if a.res == 0 then a.ops + ShutdownOps else a.ops
  }

  lemma RemoveAdded(m: multiset<Resource>, r: Resource)
    ensures Apply(m + multiset{r}, Release(r)) == m
  {
  }

  /** Each release of the shutdown gives back one resource. */
  lemma ShutdownReleasesInTurn(m: multiset<Resource>)
    ensures Held(m + multiset{SubsystemRef} + multiset{TransportHandle} + multiset{ReadWork}, ShutdownOps) == m
  {
    var m1 := m + multiset{SubsystemRef};
    var m2 := m1 + multiset{TransportHandle};
    RemoveAdded(m, SubsystemRef);
    RemoveAdded(m1, TransportHandle);
    RemoveAdded(m2, ReadWork);
    assert ShutdownOps[1..] == [Release(TransportHandle), Release(SubsystemRef)];
    assert ShutdownOps[1..][1..] == [Release(SubsystemRef)];
  }

  /** Shutdown gives back exactly what a successful activation took. */
  lemma ShutdownReleasesAll(m: multiset<Resource>)
    ensures Held(m + multiset{SubsystemRef, ReadWork, TransportHandle}, ShutdownOps) == m
  {
    assert m + multiset{SubsystemRef, ReadWork, TransportHandle}
           == m + multiset{SubsystemRef} + multiset{TransportHandle} + multiset{ReadWork};
    ShutdownReleasesInTurn(m);
  }

  /** One session, whatever its outcome, gives back everything it took. */
  lemma {:induction false} SessionBalanced(m: multiset<Resource>, slot: Slot, o: Outcomes)
    ensures Held(m, SessionOps(slot, o)) == m
  {
    var a := Activate(slot, o);
    assert m + multiset([]) == m;
    ActivateNests(slot, o);
    NestedHeld(m, [], a.ops);
    if a.res == 0 {
      HeldAppend(m, a.ops, ShutdownOps);
      assert multiset([SubsystemRef, ReadWork, TransportHandle]) == multiset{SubsystemRef, ReadWork, TransportHandle};
      ShutdownReleasesAll(m);
    }
  }

  /** The operations of a series of sessions on one port. */
  function Sessions(slots: seq<Slot>, os: seq<Outcomes>): seq<ResOp>
    requires |slots| == |os|
    decreases |slots|
  {
    if slots == [] then [] else SessionOps(slots[0], os[0]) + Sessions(slots[1..], os[1..])
  }

  /** Any number of activations, each followed by shutdown when it
      succeeded, leak nothing: no subsystem reference, read resource or
      transport handle is left held. */
  lemma {:induction false} SessionsLeakNothing(m: multiset<Resource>, slots: seq<Slot>, os: seq<Outcomes>)
    requires |slots| == |os|
    ensures Held(m, Sessions(slots, os)) == m
    decreases |slots|
  {
    if slots != [] {
      HeldAppend(m, SessionOps(slots[0], os[0]), Sessions(slots[1..], os[1..]));
      SessionBalanced(m, slots[0], os[0]);
      SessionsLeakNothing(m, slots[1..], os[1..]);
    }
  }
}
