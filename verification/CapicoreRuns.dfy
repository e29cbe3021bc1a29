/** What holds in every interleaving of threads that use the registry. */
module CapicoreRuns {
  import opened Capicore
  import opened CapicoreSteps

  lemma DeviceStep(s: State, t: Tid, x: Step)
    requires Inv(s) && Can(s, t, x)
    requires x.Alloc? || x.ExtGet? || x.ExtPut? || x.StartBind? || x.LockBind? || x.LockBindFull?
    ensures Inv(Do(s, t, x))
  {
    match x
    case Alloc(d) => KeepAlloc(s, d);
    case ExtGet(d) => KeepExtGet(s, d);
    case ExtPut(d) => KeepExtPut(s, d);
    case StartBind(d) => KeepStartBind(s, t, d);
    case LockBind(slot) => KeepLockBind(s, t, slot);
    case LockBindFull => KeepLockBindFull(s, t);
  }

  lemma ListStep(s: State, t: Tid, x: Step)
    requires Inv(s) && Can(s, t, x) && (x.EnterAppl? || x.Publish? || x.ListAdd? || x.Unlist? || x.Quiesce?)
    ensures Inv(Do(s, t, x))
  {
    match x
    case EnterAppl(a) => KeepEnterAppl(s, t, a);
    case Publish => KeepPublish(s, t);
    case ListAdd => KeepListAdd(s, t);
    case Unlist(d) => KeepUnlist(s, t, d);
    case Quiesce => KeepQuiesce(s, t);
  }

  lemma RegisterStep(s: State, t: Tid, x: Step)
    requires Inv(s) && Can(s, t, x)
    requires x.StartRegister? || x.EnterDev? || x.LeaveReg? || x.TakeRef? || x.EndRegister?
    ensures Inv(Do(s, t, x))
  {
    match x
    case StartRegister(a) => KeepStartRegister(s, t, a);
    case EnterDev(d) => KeepEnterDev(s, t, d);
    case LeaveReg(ok) =>
      if !ok { KeepLeaveFail(s, t); }
      else if At(s.pcs, t).caller.FromAppl? { KeepSetBitReading(s, t); }
      else { KeepSetBitWriting(s, t); }
    case TakeRef =>
      if At(s.pcs, t).caller.FromAppl? { KeepTakeRefReading(s, t); } else { KeepTakeRefWriting(s, t); }
    case EndRegister => KeepEndRegister(s, t);
  }

  lemma ReleaseStep(s: State, t: Tid, x: Step)
    requires Inv(s) && Can(s, t, x)
    requires x.StartRelease? || x.RelSlot? || x.LeaveRel? || x.DropRef? || x.EndRelease?
    ensures Inv(Do(s, t, x))
  {
    match x
    case StartRelease(a) => KeepStartRelease(s, t, a);
    case RelSlot(slot) => KeepRelSlot(s, t, slot);
    case LeaveRel => KeepLeaveRel(s, t);
    case DropRef => KeepDropRef(s, t);
    case EndRelease => KeepEndRelease(s, t);
  }

  lemma MessageStep(s: State, t: Tid, x: Step)
    requires Inv(s) && Can(s, t, x)
    requires x.StartPut? || x.PutRead? || x.PutTry? || x.EndPut? || x.TryGet? || x.EndQuery?
    ensures Inv(Do(s, t, x))
  {
    match x
    case StartPut(a, slot) => if slot in Ap(s.core.apps, a).bits { KeepStartPut(s, t, a, slot); }
    case PutRead => KeepPutRead(s, t);
    case PutTry(got) => KeepPutTry(s, t, got);
    case EndPut => KeepEndRead(s, t);
    case TryGet(slot) => KeepTryGet(s, t, slot);
    case EndQuery => KeepEndRead(s, t);
  }

  lemma StepKeeps(s: State, t: Tid, x: Step)
    requires Inv(s) && Can(s, t, x)
    ensures Inv(Do(s, t, x))
  {
    if x.StartRegister? || x.EnterDev? || x.LeaveReg? || x.TakeRef? || x.EndRegister? { RegisterStep(s, t, x); }
    else if x.StartRelease? || x.RelSlot? || x.LeaveRel? || x.DropRef? || x.EndRelease? { ReleaseStep(s, t, x); }
    else if x.EnterAppl? || x.Publish? || x.ListAdd? || x.Unlist? || x.Quiesce? { ListStep(s, t, x); }
    else if x.StartPut? || x.PutRead? || x.PutTry? || x.EndPut? || x.TryGet? || x.EndQuery? { MessageStep(s, t, x); }
    else { DeviceStep(s, t, x); }
  }

  // ----- runs -----

  ghost predicate Possible(s: State, run: seq<(Tid, Step)>)
    decreases |run|
  {
    run != [] ==> Can(s, run[0].0, run[0].1) && Possible(Do(s, run[0].0, run[0].1), run[1..])
  }

  ghost function After(s: State, run: seq<(Tid, Step)>): State
    requires Possible(s, run)
    decreases |run|
  {
    if run == [] then s else After(Do(s, run[0].0, run[0].1), run[1..])
  }

  lemma {:induction false} RunKeeps(s: State, run: seq<(Tid, Step)>)
    requires Inv(s) && Possible(s, run)
    ensures Inv(After(s, run))
    decreases |run|
  {
    if run != [] {
      StepKeeps(s, run[0].0, run[0].1);
      RunKeeps(Do(s, run[0].0, run[0].1), run[1..]);
    }
  }

  /** Every reachable state is in order: in particular no BUG_ON fires and no freed device is used. */
  lemma Reachable(maxDevs: nat, run: seq<(Tid, Step)>)
    requires Possible(Init(maxDevs), run)
    ensures Inv(After(Init(maxDevs), run)) && !After(Init(maxDevs), run).core.bug
  {
    InitInv(maxDevs);
    RunKeeps(Init(maxDevs), run);
  }

  // ----- quiescence -----

  /** The thread is inside one of the three driver operations of d. */
  predicate Inside(pc: Pc, d: Dev) {
    (pc.Enter? || pc.RelOp? || pc.PutOp?) && pc.d == d
  }

  /** capi_device_unregister has returned for d. */
  predicate Over(s: State, d: Dev) {
    Dv(s.core.devs, d).phase.Over()
  }

  lemma NobodyInside(s: State, d: Dev, t: Tid)
    requires Inv(s) && Over(s, d)
    ensures !Inside(At(s.pcs, t), d)
  {
    var c := s.core;
    assert ThreadOk(c, t, At(s.pcs, t)) && ReaderOk(Dv(c.devs, d).readers, t, d, At(s.pcs, t));
    assert DevOk(Dv(c.devs, d), d, Id(c.ids, d), c.table, c.listed, c.pub);
  }

  /** Nothing a thread does brings the device back. */
  lemma OverStays(s: State, t: Tid, x: Step, d: Dev)
    requires Inv(s) && Can(s, t, x) && Over(s, d)
    ensures Over(Do(s, t, x), d)
  {
    var c, pc := s.core, At(s.pcs, t);
    if x.ExtPut? { ExtPutOver(c, x.d, d); }
    else if x.DropRef? { DropRefOver(c, pc.a, pc.slot, pc.d, d); }
    else { OtherOver(s, t, x, d); }
  }

  lemma ExtPutOver(c: Core, d: Dev, e: Dev)
    requires Dv(c.devs, e).phase.Over()
    ensures Dv(DoExtPut(c, d).devs, e).phase.Over()
  {
  }

  lemma DropRefOver(c: Core, a: App, slot: nat, d: Dev, e: Dev)
    requires Dv(c.devs, e).phase.Over()
    ensures Dv(DoDropRef(c, a, slot, d).devs, e).phase.Over()
  {
  }

  lemma OtherOver(s: State, t: Tid, x: Step, d: Dev)
    requires Inv(s) && Can(s, t, x) && Over(s, d) && !x.ExtPut? && !x.DropRef?
    ensures Over(Do(s, t, x), d)
  {
    assert ThreadOk(s.core, t, At(s.pcs, t));
  }

  /** Once capi_device_unregister has returned for a device, no thread is and none will ever be executing in
      a call to one of its driver operations. */
  lemma {:induction false} Quiescence(s: State, d: Dev, run: seq<(Tid, Step)>)
    requires Inv(s) && Over(s, d) && Possible(s, run)
    ensures Over(After(s, run), d) && forall t :: !Inside(At(After(s, run).pcs, t), d)
    decreases |run|
  {
    if run == [] {
      forall t ensures !Inside(At(s.pcs, t), d) { NobodyInside(s, d, t); }
    } else {
      StepKeeps(s, run[0].0, run[0].1);
      OverStays(s, run[0].0, run[0].1, d);
      Quiescence(Do(s, run[0].0, run[0].1), d, run[1..]);
    }
  }

  /** A run passes through the states after its parts. */
  lemma {:induction false} Parts(s: State, run: seq<(Tid, Step)>, k: nat, j: nat)
    requires Possible(s, run) && k <= j <= |run|
    ensures Possible(s, run[..k]) && Possible(s, run[..j]) && Possible(After(s, run[..k]), run[k..j])
    ensures After(s, run[..j]) == After(After(s, run[..k]), run[k..j])
    decreases |run|
  {
    if k == 0 {
      assert run[..0] == [] && run[0..j] == run[..j];
      Prefix(s, run, j);
    } else {
      var n, rest := Do(s, run[0].0, run[0].1), run[1..];
      Parts(n, rest, k - 1, j - 1);
      assert run[..k][0] == run[0] && run[..k][1..] == rest[..k - 1];
      assert run[..j][0] == run[0] && run[..j][1..] == rest[..j - 1];
      assert run[k..j] == rest[k - 1..j - 1];
    }
  }

  lemma {:induction false} Prefix(s: State, run: seq<(Tid, Step)>, j: nat)
    requires Possible(s, run) && j <= |run|
    ensures Possible(s, run[..j])
    decreases |run|
  {
    if j > 0 {
      Prefix(Do(s, run[0].0, run[0].1), run[1..], j - 1);
      assert run[..j][0] == run[0] && run[..j][1..] == run[1..][..j - 1];
    }
  }

  /** From the empty registry on, in every schedule of any threads: if unregistering has returned for d after k
      steps, no thread is inside an operation of d after any later step. */
  lemma EverySchedule(maxDevs: nat, run: seq<(Tid, Step)>, k: nat, j: nat, d: Dev)
    requires Possible(Init(maxDevs), run) && k <= j <= |run|
    ensures Possible(Init(maxDevs), run[..k]) && Possible(Init(maxDevs), run[..j])
    ensures Over(After(Init(maxDevs), run[..k]), d) ==>
      var s := After(Init(maxDevs), run[..j]); Over(s, d) && forall t :: !Inside(At(s.pcs, t), d)
  {
    Parts(Init(maxDevs), run, k, j);
    Reachable(maxDevs, run[..k]);
    if Over(After(Init(maxDevs), run[..k]), d) { Quiescence(After(Init(maxDevs), run[..k]), d, run[k..j]); }
  }

  // ----- numbers, references, messages -----

  /** If a bit is set for a registered application, the table holds the very device it was registered with,
      under that number and alive, and nobody else can be given the number. */
  lemma BitsBacked(s: State, a: App, slot: nat)
    requires Inv(s) && Ap(s.core.apps, a).stage == Registered && slot in Ap(s.core.apps, a).bits
    ensures slot in s.core.table && s.core.table[slot] == Ap(s.core.apps, a).bits[slot]
    ensures Id(s.core.ids, s.core.table[slot]) == slot + 1 && Dv(s.core.devs, s.core.table[slot]).refs > 0
    ensures !FirstFree(s.core, slot)
  {
    BitInTable(s, a, slot);
    var d := s.core.table[slot];
    assert DevOk(Dv(s.core.devs, d), d, Id(s.core.ids, d), s.core.table, s.core.listed, s.core.pub);
  }

  /** The reference counter is what is held outside plus one for each application whose bit is set, up to a
      reference that is just being taken; a device is freed exactly when it is zero. */
  lemma RefCount(s: State, d: Dev)
    requires Inv(s)
    ensures var r := Dv(s.core.devs, d);
      && r.refs == r.ext + |r.holders| && (r.refs == 0 <==> r.phase == Unborn || r.phase == Freed)
      && forall a :: a in r.holders <==>
           Bit(Ap(s.core.apps, a), s.core.ids, d) && Slot(s.core.ids, d) in Ap(s.core.apps, a).held
    ensures s.core.lockW == s.core.lockR == {} ==>
      forall a :: Ap(s.core.apps, a).stage == Registered ==>
        (a in Dv(s.core.devs, d).holders <==> Bit(Ap(s.core.apps, a), s.core.ids, d))
  {
    var c := s.core;
    assert DevOk(Dv(c.devs, d), d, Id(c.ids, d), c.table, c.listed, c.pub);
    forall a
      ensures a in Dv(c.devs, d).holders <==> Bit(Ap(c.apps, a), c.ids, d) && Slot(c.ids, d) in Ap(c.apps, a).held
    {
      assert CallsOk(Ap(c.apps, a), a, Dv(c.devs, d).holders, d, c.ids, c.listed, c.reg[(a, d)], c.rel[(a, d)]);
    }
    forall a | c.lockW == c.lockR == {} && Ap(c.apps, a).stage == Registered
      ensures a in Dv(c.devs, d).holders <==> Bit(Ap(c.apps, a), c.ids, d)
    {
      assert AppOk(Ap(c.apps, a), a, c.ids, c.appls, c.lockW);
    }
  }

  /** A message goes to the device the application was registered with under that number, while the device
      is published and its unregistering has not returned. */
  lemma NoMisdelivery(s: State, t: Tid)
    requires Inv(s) && At(s.pcs, t).PutOp?
    ensures var pc := At(s.pcs, t);
      && pc.slot in Ap(s.core.apps, pc.a).bits && Ap(s.core.apps, pc.a).bits[pc.slot] == pc.d
      && Id(s.core.ids, pc.d) == pc.slot + 1
      && Dv(s.core.devs, pc.d).phase.Usable()
  {
    var c, pc := s.core, At(s.pcs, t);
    assert ThreadOk(c, t, pc) && ReaderOk(Dv(c.devs, pc.d).readers, t, pc.d, pc);
    assert DevOk(Dv(c.devs, pc.d), pc.d, Id(c.ids, pc.d), c.table, c.listed, c.pub);
    BitInTable(s, pc.a, pc.slot);
  }

  // ----- driver calls -----

  /** Whenever the list lock is free, each registered application and each listed device have had exactly one
      capi_register call, whichever came first; no pair ever has more. */
  lemma RegisteredOnce(s: State, a: App, d: Dev)
    requires Inv(s)
    ensures s.core.reg[(a, d)] <= 1
    ensures Ap(s.core.apps, a).stage == Registered && d in s.core.listed ==> s.core.reg[(a, d)] == 1
    ensures s.core.lockW == s.core.lockR == {} && a in s.core.appls ==> Ap(s.core.apps, a).stage == Registered
  {
    var c := s.core;
    assert CallsOk(Ap(c.apps, a), a, Dv(c.devs, d).holders, d, c.ids, c.listed, c.reg[(a, d)], c.rel[(a, d)]);
    if c.lockW == c.lockR == {} {
      assert AppOk(Ap(c.apps, a), a, c.ids, c.appls, c.lockW);
      Unclaimed(s, a);
    }
  }

  /** When capi_release has worked through the bits, it has called capi_release of exactly the listed devices
      the application had been registered with, once each, and holds no reference any more. */
  lemma ReleasedOnce(s: State, t: Tid, d: Dev)
    requires Inv(s) && At(s.pcs, t).RelLoop? && At(s.pcs, t).slots == {}
    ensures var (c, a) := (s.core, At(s.pcs, t).a);
      && c.rel[(a, d)] == (if Bit(Ap(c.apps, a), c.ids, d) && d in c.listed then 1 else 0)
      && a !in Dv(c.devs, d).holders && c.rel[(a, d)] <= c.reg[(a, d)]
  {
    var (c, a) := (s.core, At(s.pcs, t).a);
    assert ThreadOk(c, t, At(s.pcs, t));
    assert CallsOk(Ap(c.apps, a), a, Dv(c.devs, d).holders, d, c.ids, c.listed, c.reg[(a, d)], c.rel[(a, d)]);
  }
  /** The two counters count exactly the entries of threads into the two driver operations. */
  lemma CountedInside(s: State, t: Tid, x: Step)
    requires Can(s, t, x)
    ensures var (was, n) := (At(s.pcs, t), Do(s, t, x));
      var pc := At(n.pcs, t);
      && n.core.reg == (if pc.Enter? && !was.Enter? then s.core.reg + multiset{(pc.a, pc.d)} else s.core.reg)
      && n.core.rel == (if pc.RelOp? && !was.RelOp? then s.core.rel + multiset{(pc.a, pc.d)} else s.core.rel)
  {
    if x.StartRegister? || x.EnterDev? || x.LeaveReg? || x.TakeRef? || x.EndRegister? || x.EnterAppl? {
      CountedRegister(s, t, x);
    } else if x.StartRelease? || x.RelSlot? || x.LeaveRel? || x.DropRef? || x.EndRelease? {
      CountedRelease(s, t, x);
    } else {
      CountedOther(s, t, x);
    }
  }

  lemma CountedRegister(s: State, t: Tid, x: Step)
    requires Can(s, t, x)
    requires x.StartRegister? || x.EnterDev? || x.LeaveReg? || x.TakeRef? || x.EndRegister? || x.EnterAppl?
    ensures var (was, n) := (At(s.pcs, t), Do(s, t, x));
      var pc := At(n.pcs, t);
      && n.core.reg == (if pc.Enter? && !was.Enter? then s.core.reg + multiset{(pc.a, pc.d)} else s.core.reg)
      && n.core.rel == s.core.rel && !pc.RelOp?
  {
  }

  lemma CountedRelease(s: State, t: Tid, x: Step)
    requires Can(s, t, x) && (x.StartRelease? || x.RelSlot? || x.LeaveRel? || x.DropRef? || x.EndRelease?)
    ensures var (was, n) := (At(s.pcs, t), Do(s, t, x));
      var pc := At(n.pcs, t);
      && n.core.rel == (if pc.RelOp? && !was.RelOp? then s.core.rel + multiset{(pc.a, pc.d)} else s.core.rel)
      && n.core.reg == s.core.reg && !pc.Enter?
  {
  }

  lemma CountedOther(s: State, t: Tid, x: Step)
    requires Can(s, t, x) && !x.StartRegister? && !x.EnterDev? && !x.LeaveReg? && !x.TakeRef? && !x.EndRegister?
    requires !x.EnterAppl? && !x.StartRelease? && !x.RelSlot? && !x.LeaveRel? && !x.DropRef? && !x.EndRelease?
    ensures var n := Do(s, t, x);
      && n.core.reg == s.core.reg && n.core.rel == s.core.rel
      && (At(n.pcs, t) == At(s.pcs, t) || (!At(n.pcs, t).Enter? && !At(n.pcs, t).RelOp?))
  {
  }

  // ----- messages reach their device -----

  /** The call of drv->capi_put_message that thread t makes when it takes step x: application and device. */
  ghost function Hands(s: State, t: Tid, x: Step): seq<(App, Dev)>
    requires Can(s, t, x)
  {
    var pc := At(Do(s, t, x).pcs, t);
    if pc.PutOp? && !At(s.pcs, t).PutOp? then [(pc.a, pc.d)] else []
  }

  /** All such calls in a run, in order. */
  ghost function Handed(s: State, run: seq<(Tid, Step)>): seq<(App, Dev)>
    requires Possible(s, run)
    decreases |run|
  {
    if run == [] then [] else Hands(s, run[0].0, run[0].1) + Handed(Do(s, run[0].0, run[0].1), run[1..])
  }

  lemma {:induction false} RunAppend(s: State, run: seq<(Tid, Step)>, t: Tid, x: Step)
    requires Possible(s, run) && Can(After(s, run), t, x)
    ensures Possible(s, run + [(t, x)]) && After(s, run + [(t, x)]) == Do(After(s, run), t, x)
    ensures Handed(s, run + [(t, x)]) == Handed(s, run) + Hands(After(s, run), t, x)
    decreases |run|
  {
    var longer := run + [(t, x)];
    if run == [] {
      assert longer == [(t, x)] && longer[1..] == [];
    } else {
      assert longer[0] == run[0] && longer[1..] == run[1..] + [(t, x)];
      RunAppend(Do(s, run[0].0, run[0].1), run[1..], t, x);
    }
  }

  /** Three steps of one thread. */
  lemma RunOfThree(s: State, t: Tid, x: Step, y: Step, z: Step)
    requires Can(s, t, x) && Can(Do(s, t, x), t, y) && Can(Do(Do(s, t, x), t, y), t, z)
    ensures var (m, n, run) := (Do(s, t, x), Do(Do(s, t, x), t, y), [(t, x), (t, y), (t, z)]);
      && Possible(s, run) && After(s, run) == Do(n, t, z)
      && Handed(s, run) == Hands(s, t, x) + Hands(m, t, y) + Hands(n, t, z)
  {
    var r0, r1, r2 := [], [(t, x)], [(t, x), (t, y)];
    assert Possible(s, r0) && After(s, r0) == s && Handed(s, r0) == [];
    assert r0 + [(t, x)] == r1 && r1 + [(t, y)] == r2 && r2 + [(t, z)] == [(t, x), (t, y), (t, z)];
    RunAppend(s, r0, t, x);
    RunAppend(s, r1, t, y);
    RunAppend(s, r2, t, z);
  }

  function PutRun(t: Tid, a: App, slot: nat): seq<(Tid, Step)> {
    [(t, StartPut(a, slot)), (t, PutRead), (t, PutTry(true))]
  }

  /** Whatever the other threads are doing, a thread that sends a message for a registered application to a
      device that has accepted it and is in use gets into the driver of that very device, by itself. */
  lemma PutReaches(s: State, t: Tid, a: App, slot: nat)
    requires Inv(s) && At(s.pcs, t) == Idle && Ap(s.core.apps, a).stage == Registered
    requires slot in Ap(s.core.apps, a).bits && Dv(s.core.devs, Ap(s.core.apps, a).bits[slot]).phase.Usable()
    ensures Possible(s, PutRun(t, a, slot))
    ensures var d := Ap(s.core.apps, a).bits[slot];
      && At(After(s, PutRun(t, a, slot)).pcs, t) == PutOp(a, slot, d)
      && Handed(s, PutRun(t, a, slot)) == [(a, d)]
  {
    var c, d := s.core, Ap(s.core.apps, a).bits[slot];
    BitInTable(s, a, slot);
    assert DevOk(Dv(c.devs, d), d, Id(c.ids, d), c.table, c.listed, c.pub);
    PutSteps(s, t, a, slot, d);
  }

  lemma PutSteps(s: State, t: Tid, a: App, slot: nat, d: Dev)
    requires At(s.pcs, t) == Idle && Ap(s.core.apps, a).stage == Registered && slot in Ap(s.core.apps, a).bits
    requires slot in s.core.table && s.core.table[slot] == d && !Dv(s.core.devs, d).writer
    ensures Possible(s, PutRun(t, a, slot)) && At(After(s, PutRun(t, a, slot)).pcs, t) == PutOp(a, slot, d)
    ensures Handed(s, PutRun(t, a, slot)) == [(a, d)]
  {
    var c := s.core;
    var m := Go(s, c, t, PutBit(a, slot));
    var n := Go(m, c, t, PutLock(a, slot, d));
    assert Do(s, t, StartPut(a, slot)) == m && Do(m, t, PutRead) == n;
    assert Hands(s, t, StartPut(a, slot)) == [] && Hands(m, t, PutRead) == [] && Hands(n, t, PutTry(true)) == [(a, d)];
    RunOfThree(s, t, StartPut(a, slot), PutRead, PutTry(true));
  }

  /** A query finds the device with a number exactly if it is in use, and leaves no trace. */
  lemma QueryReaches(s: State, t: Tid, slot: nat)
    requires Inv(s) && At(s.pcs, t) == Idle && slot in s.core.table
    ensures Can(s, t, TryGet(slot)) <==> Dv(s.core.devs, s.core.table[slot]).phase.Usable()
    ensures Can(s, t, TryGet(slot)) ==>
      var n := Do(s, t, TryGet(slot));
      && At(n.pcs, t) == Query(s.core.table[slot]) && t in Dv(n.core.devs, s.core.table[slot]).readers
      && Can(n, t, EndQuery) && Do(n, t, EndQuery).core == s.core && At(Do(n, t, EndQuery).pcs, t) == Idle
  {
    var c, d := s.core, s.core.table[slot];
    assert DevOk(Dv(c.devs, d), d, Id(c.ids, d), c.table, c.listed, c.pub);
    assert SlotOk(slot, d, c.maxDevs, c.ids, c.devs) && ReaderOk(Dv(c.devs, d).readers, t, d, At(s.pcs, t));
    if Can(s, t, TryGet(slot)) { QueryEnds(s, t, d); }
  }

  lemma QueryEnds(s: State, t: Tid, d: Dev)
    requires d in s.core.devs && t !in s.core.devs[d].readers && s.core.devs[d].phase != Freed
    ensures var n := Go(s, DownRead(s.core, t, d), t, Query(d));
      Can(n, t, EndQuery) && Do(n, t, EndQuery).core == s.core && At(Do(n, t, EndQuery).pcs, t) == Idle
  {
    ReadUnread(s.core, t, d);
  }

  lemma ReadUnread(c: Core, t: Tid, d: Dev)
    requires d in c.devs && t !in c.devs[d].readers && c.devs[d].phase != Freed
    ensures UpRead(DownRead(c, t, d), t, d) == c
  {
    var r := c.devs[d];
    var m := r.(readers := r.readers + {t});
    assert m.(readers := m.readers - {t}) == r;
    assert c.devs[d := m][d := r] == c.devs;
  }

  // ----- references -----

  /** A new device has one reference, its owner's, and giving that back frees it. */
  lemma AllocOwned(s: State, t: Tid, d: Dev)
    requires Inv(s) && Dv(s.core.devs, d).phase == Unborn
    ensures var n := Do(s, t, Alloc(d));
      && Dv(n.core.devs, d).phase == Raw && Dv(n.core.devs, d).refs == 1 && Can(n, t, ExtPut(d))
      && Dv(Do(n, t, ExtPut(d)).core.devs, d).phase == Freed
  {
    assert DevOk(Dv(s.core.devs, d), d, Id(s.core.ids, d), s.core.table, s.core.listed, s.core.pub);
  }

  /** capi_device_get adds one reference, and capi_device_put takes it away again. */
  lemma GetPut(s: State, t: Tid, d: Dev)
    requires Inv(s) && Can(s, t, ExtGet(d))
    ensures var n := Do(s, t, ExtGet(d));
      Dv(n.core.devs, d).refs == Dv(s.core.devs, d).refs + 1 && Can(n, t, ExtPut(d)) && Do(n, t, ExtPut(d)) == s
  {
    var c, r := s.core, Dv(s.core.devs, d);
    assert DevOk(r, d, Id(c.ids, d), c.table, c.listed, c.pub);
    var m := r.(refs := r.refs + 1, ext := r.ext + 1);
    assert c.devs[d := m][d := r] == c.devs;
  }

  /** capi_device_put frees the device exactly if it gives back the last reference, and with it its number. */
  lemma LastPutFrees(s: State, t: Tid, d: Dev)
    requires Inv(s) && Can(s, t, ExtPut(d))
    ensures var n := Do(s, t, ExtPut(d));
      && (Dv(n.core.devs, d).phase == Freed <==> Dv(s.core.devs, d).refs == 1)
      && Dv(n.core.devs, d).refs == Dv(s.core.devs, d).refs - 1
      && forall i :: i in n.core.table <==>
           i in s.core.table && !(Dv(s.core.devs, d).refs == 1 && s.core.table[i] == d)
  {
    var c, n := s.core, Do(s, t, ExtPut(d));
    assert DevOk(Dv(c.devs, d), d, Id(c.ids, d), c.table, c.listed, c.pub);
    forall i
      ensures i in n.core.table <==> i in c.table && !(Dv(c.devs, d).refs == 1 && c.table[i] == d)
    {
      if i in c.table { assert SlotOk(i, c.table[i], c.maxDevs, c.ids, c.devs); }
    }
  }
}
