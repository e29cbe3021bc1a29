/** Every step of the registry keeps its invariant. */
module CapicoreSteps {
  import opened Capicore

  // ----- changing one object -----

  lemma DevsWith(c: Core, d: Dev, r: Device)
    requires Devs(c.devs, c.ids, c.table, c.listed, c.pub) && DevOk(r, d, Id(c.ids, d), c.table, c.listed, c.pub)
    ensures Devs(c.devs[d := r], c.ids, c.table, c.listed, c.pub)
  {
    var devs := c.devs[d := r];
    forall e ensures DevOk(Dv(devs, e), e, Id(c.ids, e), c.table, c.listed, c.pub) {
      assert DevOk(Dv(c.devs, e), e, Id(c.ids, e), c.table, c.listed, c.pub);
    }
  }

  lemma SlotsWith(c: Core, d: Dev, r: Device)
    requires Slots(c.table, c.maxDevs, c.ids, c.devs) && r.phase != Freed
    ensures Slots(c.table, c.maxDevs, c.ids, c.devs[d := r])
  {
    forall i | i in c.table ensures SlotOk(i, c.table[i], c.maxDevs, c.ids, c.devs[d := r]) {
      assert SlotOk(i, c.table[i], c.maxDevs, c.ids, c.devs);
    }
  }

  lemma CallsWithDev(c: Core, d: Dev, r: Device)
    requires Calls(c.apps, c.devs, c.ids, c.listed, c.reg, c.rel) && r.holders == Dv(c.devs, d).holders
    ensures Calls(c.apps, c.devs[d := r], c.ids, c.listed, c.reg, c.rel)
  {
    var devs := c.devs[d := r];
    forall a, e
      ensures CallsOk(Ap(c.apps, a), a, Dv(devs, e).holders, e, c.ids, c.listed, c.reg[(a, e)], c.rel[(a, e)])
    {
      assert CallsOk(Ap(c.apps, a), a, Dv(c.devs, e).holders, e, c.ids, c.listed, c.reg[(a, e)], c.rel[(a, e)]);
    }
  }

  lemma ReadersWith(devs: map<Dev, Device>, pcs: map<Tid, Pc>, d: Dev, r: Device)
    requires Readers(devs, pcs) && r.readers == Dv(devs, d).readers
    ensures Readers(devs[d := r], pcs)
  {
    var now := devs[d := r];
    forall t, e ensures ReaderOk(Dv(now, e).readers, t, e, At(pcs, t)) {
      assert ReaderOk(Dv(devs, e).readers, t, e, At(pcs, t));
    }
  }

  /** A device changes that keeps its holders and stays what it is for the others. */
  lemma ObjectsWith(c: Core, d: Dev, r: Device)
    requires Objects(c) && DevOk(r, d, Id(c.ids, d), c.table, c.listed, c.pub)
    requires r.phase != Freed && r.holders == Dv(c.devs, d).holders
    ensures Objects(WithDev(c, d, r))
  {
    DevsWith(c, d, r);
    SlotsWith(c, d, r);
    CallsWithDev(c, d, r);
  }

  lemma AppsWith(c: Core, a: App, p: Appl, appls: set<App>)
    requires Apps(c.apps, c.ids, c.appls, c.lockW) && AppOk(p, a, c.ids, appls, c.lockW)
    requires forall b :: b != a ==> (b in appls <==> b in c.appls)
    ensures Apps(c.apps[a := p], c.ids, appls, c.lockW)
  {
    var apps := c.apps[a := p];
    forall b ensures AppOk(Ap(apps, b), b, c.ids, appls, c.lockW) {
      assert AppOk(Ap(c.apps, b), b, c.ids, c.appls, c.lockW);
    }
  }

  // ----- moving one thread -----

  lemma LocksGo(lockW: set<Tid>, lockR: set<Tid>, pcs: map<Tid, Pc>, t: Tid, pc: Pc)
    requires Locks(lockW, lockR, pcs) && Reads(pc) == Reads(At(pcs, t)) && Writes(pc) == Writes(At(pcs, t))
    ensures Locks(lockW, lockR, pcs[t := pc])
  {
    var now := pcs[t := pc];
    forall u ensures LockOk(lockW, lockR, u, At(now, u)) { assert LockOk(lockW, lockR, u, At(pcs, u)); }
  }

  predicate InOp(pc: Pc) { pc.PutOp? || pc.Query? }

  lemma ReadersGo(devs: map<Dev, Device>, pcs: map<Tid, Pc>, t: Tid, pc: Pc)
    requires Readers(devs, pcs) && !InOp(pc) && !InOp(At(pcs, t))
    ensures Readers(devs, pcs[t := pc])
  {
    var now := pcs[t := pc];
    forall u, d ensures ReaderOk(Dv(devs, d).readers, u, d, At(now, u)) {
      assert ReaderOk(Dv(devs, d).readers, u, d, At(pcs, u));
    }
  }

  lemma ThreadsGo(c: Core, pcs: map<Tid, Pc>, t: Tid, pc: Pc)
    requires ThreadOk(c, t, pc) && forall u :: u != t ==> ThreadOk(c, u, At(pcs, u))
    ensures Threads(c, pcs[t := pc])
  {
    var now := pcs[t := pc];
    forall u ensures ThreadOk(c, u, At(now, u)) { assert u != t ==> ThreadOk(c, u, At(pcs, u)); }
  }

  /** Thread t moves to pc; applications it works on stay its own, and it claims no other. */
  lemma OwnersGo(apps: map<App, Appl>, pcs: map<Tid, Pc>, now: map<App, Appl>, t: Tid, pc: Pc)
    requires Owners(apps, pcs)
    requires forall a {:trigger Ap(now, a)} :: 
      || (OwnerOk(Ap(now, a), a, pc) && Ap(now, a).busy == t)
      || (Ap(now, a) == Ap(apps, a) && (Reads(At(pcs, t)) && About(At(pcs, t), a) ==> Reads(pc) && About(pc, a)))
    ensures Owners(now, pcs[t := pc])
  {
    var after := pcs[t := pc];
    forall a ensures OwnerOk(Ap(now, a), a, At(after, Ap(now, a).busy)) {
      assert OwnerOk(Ap(apps, a), a, At(pcs, Ap(apps, a).busy));
    }
  }

  /** Nothing shared changes, and the locks stay as they are. */
  lemma GoKeeps(s: State, t: Tid, pc: Pc)
    requires Inv(s) && ThreadOk(s.core, t, pc) && !InOp(pc) && !InOp(At(s.pcs, t))
    requires Reads(pc) == Reads(At(s.pcs, t)) && Writes(pc) == Writes(At(s.pcs, t))
    requires Reads(pc) ==> forall a :: About(At(s.pcs, t), a) ==> About(pc, a)
    ensures Inv(Go(s, s.core, t, pc))
  {
    OwnersGo(s.core.apps, s.pcs, s.core.apps, t, pc);
    LocksGo(s.core.lockW, s.core.lockR, s.pcs, t, pc);
    ReadersGo(s.core.devs, s.pcs, t, pc);
    ThreadsGo(s.core, s.pcs, t, pc);
  }

  // ----- what other threads see -----

  /** Devices change, but not the phase of those somebody is binding or unregistering. */
  lemma ThreadSameDevs(c: Core, devs: map<Dev, Device>, table: map<nat, Dev>, t: Tid, pc: Pc)
    requires ThreadOk(c, t, pc)
    requires forall d :: (Dv(c.devs, d).phase == Binding || Dv(c.devs, d).phase == Unlisted) ==>
      Dv(devs, d).phase == Dv(c.devs, d).phase && Dv(devs, d).busy == Dv(c.devs, d).busy
    ensures ThreadOk(c.(devs := devs, table := table), t, pc)
  {
  }

  /** Only application a changes, with its own calls, and pc is not about a. */
  lemma ThreadOtherApp(c: Core, n: Core, a: App, t: Tid, pc: Pc)
    requires ThreadOk(c, t, pc) && !Writes(pc) && !About(pc, a)
    requires n.listed == c.listed && n.ids == c.ids
    requires forall b :: b != a ==> Ap(n.apps, b) == Ap(c.apps, b)
    requires forall b, d :: b != a ==> n.reg[(b, d)] == c.reg[(b, d)] && n.rel[(b, d)] == c.rel[(b, d)]
    requires forall d :: (Dv(c.devs, d).phase == Binding || Dv(c.devs, d).phase == Unlisted) ==>
      Dv(n.devs, d).phase == Dv(c.devs, d).phase && Dv(n.devs, d).busy == Dv(c.devs, d).busy
    ensures ThreadOk(n, t, pc)
  {
  }

  /** A thread that does not hold capi_devs_list_sem, while its holder changes something. */
  lemma ThreadUnlocked(c: Core, n: Core, t: Tid, pc: Pc)
    requires ThreadOk(c, t, pc) && !Writes(pc) && !Reads(pc)
    requires pc.BindStart? || pc.UnregWait? ==>
      && Dv(n.devs, pc.d).phase == Dv(c.devs, pc.d).phase && Dv(n.devs, pc.d).busy == Dv(c.devs, pc.d).busy
      && Id(n.ids, pc.d) == Id(c.ids, pc.d)
    requires pc.PutBit? || pc.PutLock? || pc.PutOp? ==>
      && Ap(n.apps, pc.a).stage == Ap(c.apps, pc.a).stage
      && forall i <- Ap(c.apps, pc.a).bits ::
           i in Ap(n.apps, pc.a).bits && Ap(n.apps, pc.a).bits[i] == Ap(c.apps, pc.a).bits[i]
    ensures ThreadOk(n, t, pc)
  {
  }

  lemma CallsWithApp(c: Core, a: App, p: Appl)
    requires Calls(c.apps, c.devs, c.ids, c.listed, c.reg, c.rel)
    requires forall d :: CallsOk(p, a, Dv(c.devs, d).holders, d, c.ids, c.listed, c.reg[(a, d)], c.rel[(a, d)])
    ensures Calls(c.apps[a := p], c.devs, c.ids, c.listed, c.reg, c.rel)
  {
    var apps := c.apps[a := p];
    forall b, d
      ensures CallsOk(Ap(apps, b), b, Dv(c.devs, d).holders, d, c.ids, c.listed, c.reg[(b, d)], c.rel[(b, d)])
    {
      assert CallsOk(Ap(c.apps, b), b, Dv(c.devs, d).holders, d, c.ids, c.listed, c.reg[(b, d)], c.rel[(b, d)]);
    }
  }

  lemma LocksIn(lockR: set<Tid>, pcs: map<Tid, Pc>, t: Tid, pc: Pc)
    requires Locks({}, lockR, pcs) && At(pcs, t) == Idle && Reads(pc) && !Writes(pc)
    ensures Locks({}, lockR + {t}, pcs[t := pc])
  {
    var now := pcs[t := pc];
    forall u ensures LockOk({}, lockR + {t}, u, At(now, u)) { assert LockOk({}, lockR, u, At(pcs, u)); }
  }

  lemma LocksOut(lockW: set<Tid>, lockR: set<Tid>, pcs: map<Tid, Pc>, t: Tid)
    requires Locks(lockW, lockR, pcs) && Reads(At(pcs, t))
    ensures lockW == {} && Locks(lockW, lockR - {t}, pcs[t := Idle])
  {
    assert LockOk(lockW, lockR, t, At(pcs, t));
    forall u ensures u !in lockW { assert LockOk(lockW, lockR, u, At(pcs, u)); }
    var now := pcs[t := Idle];
    forall u ensures LockOk(lockW, lockR - {t}, u, At(now, u)) { assert LockOk(lockW, lockR, u, At(pcs, u)); }
  }

  /** Nobody but the reader t is walking a. */
  lemma OthersElsewhere(s: State, t: Tid, a: App, u: Tid)
    requires Inv(s) && u != t && s.core.lockW == {}
    requires Ap(s.core.apps, a).stage == New
      || (Ap(s.core.apps, a).stage.Claimed() && Ap(s.core.apps, a).busy == t)
    ensures !Writes(At(s.pcs, u)) && !About(At(s.pcs, u), a)
  {
    assert LockOk(s.core.lockW, s.core.lockR, u, At(s.pcs, u));
    assert ThreadOk(s.core, u, At(s.pcs, u));
  }

  // ----- devices -----

  /** A device changes in a way that concerns nobody else. */
  lemma DevKeeps(s: State, d: Dev, r: Device)
    requires Inv(s) && DevOk(r, d, Id(s.core.ids, d), s.core.table, s.core.listed, s.core.pub)
    requires var q := Dv(s.core.devs, d);
      && r.phase != Freed && r.holders == q.holders && r.readers == q.readers
      && ((q.phase == Binding || q.phase == Unlisted) ==> r.phase == q.phase && r.busy == q.busy)
    ensures Inv(s.(core := WithDev(s.core, d, r)))
  {
    var c := s.core;
    ObjectsWith(c, d, r);
    ReadersWith(c.devs, s.pcs, d, r);
    forall u ensures ThreadOk(WithDev(c, d, r), u, At(s.pcs, u)) {
      assert ThreadOk(c, u, At(s.pcs, u));
      ThreadSameDevs(c, c.devs[d := r], c.table, u, At(s.pcs, u));
    }
  }

  lemma KeepAlloc(s: State, d: Dev)
    requires Inv(s) && Dv(s.core.devs, d).phase == Unborn
    ensures Inv(s.(core := DoAlloc(s.core, d)))
  {
    assert DevOk(Dv(s.core.devs, d), d, Id(s.core.ids, d), s.core.table, s.core.listed, s.core.pub);
    DevKeeps(s, d, Device(Raw, 1, 1, {}, false, {}, 0));
  }

  lemma KeepExtGet(s: State, d: Dev)
    requires Inv(s) && Dv(s.core.devs, d).ext > 0
    ensures Inv(s.(core := DoExtGet(s.core, d)))
  {
    var r := Dv(s.core.devs, d);
    assert DevOk(r, d, Id(s.core.ids, d), s.core.table, s.core.listed, s.core.pub);
    var q := r.(refs := r.refs + 1, ext := r.ext + 1);
    assert DevOk(q, d, Id(s.core.ids, d), s.core.table, s.core.listed, s.core.pub);
    DevKeeps(s, d, q);
  }

  /** The last reference goes: the device and its number are free. */
  lemma DevsFree(c: Core, d: Dev, r: Device)
    requires Devs(c.devs, c.ids, c.table, c.listed, c.pub) && Slots(c.table, c.maxDevs, c.ids, c.devs)
    requires Dv(c.devs, d).phase == Raw || Dv(c.devs, d).phase == Gone
    requires r.phase == Freed && r.refs == r.ext == 0 && r.holders == {}
    requires r.readers == Dv(c.devs, d).readers
    ensures var n := Put(c, d, r);
      Devs(n.devs, c.ids, n.table, c.listed, c.pub) && Slots(n.table, c.maxDevs, c.ids, n.devs)
  {
    var n := Put(c, d, r);
    assert DevOk(Dv(c.devs, d), d, Id(c.ids, d), c.table, c.listed, c.pub);
    forall e ensures DevOk(Dv(n.devs, e), e, Id(c.ids, e), n.table, c.listed, c.pub) {
      assert DevOk(Dv(c.devs, e), e, Id(c.ids, e), c.table, c.listed, c.pub);
    }
    forall i | i in n.table ensures SlotOk(i, n.table[i], c.maxDevs, c.ids, n.devs) {
      assert SlotOk(i, c.table[i], c.maxDevs, c.ids, c.devs);
    }
  }

  lemma KeepExtPut(s: State, d: Dev)
    requires Inv(s) && CanExtPut(s.core, d)
    ensures Inv(s.(core := DoExtPut(s.core, d)))
  {
    var c, q := s.core, Dv(s.core.devs, d);
    var r := q.(refs := Pred(q.refs), ext := Pred(q.ext));
    assert DevOk(q, d, Id(c.ids, d), c.table, c.listed, c.pub);
    assert Touch(c, d) == c;
    if r.refs > 0 {
      DevKeeps(s, d, r);
    } else {
      var f := r.(phase := Freed);
      DevsFree(c, d, f);
      CallsWithDev(c, d, f);
      ReadersWith(c.devs, s.pcs, d, f);
      var n := Put(c, d, r);
      forall u ensures ThreadOk(n, u, At(s.pcs, u)) {
        assert ThreadOk(c, u, At(s.pcs, u));
        ThreadSameDevs(c, n.devs, n.table, u, At(s.pcs, u));
      }
    }
  }

  // ----- registering an application -----

  lemma KeepStartRegister(s: State, t: Tid, a: App)
    requires Inv(s) && At(s.pcs, t) == Idle && s.core.lockW == {} && Ap(s.core.apps, a).stage == New
    ensures Inv(Go(s, DoStartRegister(s.core, t, a), t, RegLoop(a, s.core.listed)))
  {
    var c, pc := s.core, RegLoop(a, s.core.listed);
    var p, n := Ap(c.apps, a).(stage := Registering, busy := t), DoStartRegister(c, t, a);
    assert AppOk(Ap(c.apps, a), a, c.ids, c.appls, c.lockW);
    LocksIn(c.lockR, s.pcs, t, pc);
    ReadersGo(c.devs, s.pcs, t, pc);
    OwnersGo(c.apps, s.pcs, n.apps, t, pc);
    AppsWith(c, a, p, n.appls);
    forall d ensures CallsOk(p, a, Dv(c.devs, d).holders, d, c.ids, c.listed, c.reg[(a, d)], c.rel[(a, d)]) {
      assert CallsOk(Ap(c.apps, a), a, Dv(c.devs, d).holders, d, c.ids, c.listed, c.reg[(a, d)], c.rel[(a, d)]);
    }
    CallsWithApp(c, a, p);
    assert WalkOk(n, t, a, c.listed, {}) by {
      forall d | d in c.listed ensures c.reg[(a, d)] == 0 {
        assert CallsOk(Ap(c.apps, a), a, Dv(c.devs, d).holders, d, c.ids, c.listed, c.reg[(a, d)], c.rel[(a, d)]);
      }
    }
    forall u | u != t ensures ThreadOk(n, u, At(s.pcs, u)) {
      OthersElsewhere(s, t, a, u);
      assert ThreadOk(c, u, At(s.pcs, u));
      ThreadOtherApp(c, n, a, u, At(s.pcs, u));
    }
    ThreadsGo(n, s.pcs, t, pc);
  }

  /** Thread t, reading, has changed only application a and its calls, and goes on reading at pc. */
  lemma AppKeeps(s: State, t: Tid, a: App, n: Core, pc: Pc)
    requires Inv(s) && Objects(n) && Reads(At(s.pcs, t)) && Reads(pc) && !Writes(pc) && ThreadOk(n, t, pc)
    requires Ap(s.core.apps, a).stage.Claimed() && Ap(s.core.apps, a).busy == t
    requires About(At(s.pcs, t), a) && About(pc, a) && Ap(n.apps, a).busy == t
    requires n.lockW == s.core.lockW && n.lockR == s.core.lockR && n.listed == s.core.listed && n.ids == s.core.ids
    requires forall b :: b != a ==> Ap(n.apps, b) == Ap(s.core.apps, b)
    requires forall b, d :: b != a ==> n.reg[(b, d)] == s.core.reg[(b, d)] && n.rel[(b, d)] == s.core.rel[(b, d)]
    requires forall d :: Dv(n.devs, d).readers == Dv(s.core.devs, d).readers
    requires forall d :: (Dv(s.core.devs, d).phase == Binding || Dv(s.core.devs, d).phase == Unlisted) ==>
      Dv(n.devs, d).phase == Dv(s.core.devs, d).phase && Dv(n.devs, d).busy == Dv(s.core.devs, d).busy
    ensures Inv(Go(s, n, t, pc))
  {
    var c := s.core;
    LocksOut(c.lockW, c.lockR, s.pcs, t);
    assert LockOk(c.lockW, c.lockR, t, At(s.pcs, t));
    LocksGo(c.lockW, c.lockR, s.pcs, t, pc);
    forall u, d ensures ReaderOk(Dv(n.devs, d).readers, u, d, At(s.pcs, u)) {
      assert ReaderOk(Dv(c.devs, d).readers, u, d, At(s.pcs, u));
    }
    ReadersGo(n.devs, s.pcs, t, pc);
    OwnersGo(c.apps, s.pcs, n.apps, t, pc);
    forall u | u != t ensures ThreadOk(n, u, At(s.pcs, u)) {
      OthersElsewhere(s, t, a, u);
      assert ThreadOk(c, u, At(s.pcs, u));
      ThreadOtherApp(c, n, a, u, At(s.pcs, u));
    }
    ThreadsGo(n, s.pcs, t, pc);
  }

  lemma KeepEnterDev(s: State, t: Tid, d: Dev)
    requires Inv(s) && At(s.pcs, t).RegLoop? && d in At(s.pcs, t).devs
    ensures var pc := At(s.pcs, t);
      Inv(Go(s, DoEnter(s.core, pc.a, d), t, Enter(pc.a, d, FromAppl(pc.devs - {d}))))
  {
    var (c, pc) := (s.core, At(s.pcs, t));
    var a := pc.a;
    assert ThreadOk(c, t, pc);
    assert DevOk(Dv(c.devs, d), d, Id(c.ids, d), c.table, c.listed, c.pub);
    assert CallsOk(Ap(c.apps, a), a, Dv(c.devs, d).holders, d, c.ids, c.listed, c.reg[(a, d)], c.rel[(a, d)]);
    CallsEnter(c, a, d);
    AppKeeps(s, t, a, DoEnter(c, a, d), Enter(a, d, FromAppl(pc.devs - {d})));
  }

  /** The first call of capi_register for a pair both of whose sides have begun. */
  lemma CallsEnter(c: Core, a: App, d: Dev)
    requires Calls(c.apps, c.devs, c.ids, c.listed, c.reg, c.rel) && c.reg[(a, d)] == 0
    requires Ap(c.apps, a).stage != New && Id(c.ids, d) > 0
    ensures Calls(c.apps, c.devs, c.ids, c.listed, c.reg + multiset{(a, d)}, c.rel)
  {
    var reg := c.reg + multiset{(a, d)};
    forall b, e
      ensures CallsOk(Ap(c.apps, b), b, Dv(c.devs, e).holders, e, c.ids, c.listed, reg[(b, e)], c.rel[(b, e)])
    {
      assert CallsOk(Ap(c.apps, b), b, Dv(c.devs, e).holders, e, c.ids, c.listed, c.reg[(b, e)], c.rel[(b, e)]);
    }
  }

  /** A bit that is set belongs to the device with that number. */
  lemma BitFree(c: Core, a: App, d: Dev)
    requires Objects(c) && Ap(c.apps, a).stage.Active()
    requires Ap(c.apps, a).pend == {} && Id(c.ids, d) > 0 && Dv(c.devs, d).phase != Freed
    requires Slot(c.ids, d) in Ap(c.apps, a).bits
    ensures Bit(Ap(c.apps, a), c.ids, d)
  {
    var e := Ap(c.apps, a).bits[Slot(c.ids, d)];
    assert AppOk(Ap(c.apps, a), a, c.ids, c.appls, c.lockW);
    assert DevOk(Dv(c.devs, d), d, Id(c.ids, d), c.table, c.listed, c.pub);
    assert DevOk(Dv(c.devs, e), e, Id(c.ids, e), c.table, c.listed, c.pub);
    assert CallsOk(Ap(c.apps, a), a, Dv(c.devs, e).holders, e, c.ids, c.listed, c.reg[(a, e)], c.rel[(a, e)]);
  }

  /** set_bit in register_capi_appl. */
  lemma ObjectsSetBit(c: Core, a: App, d: Dev)
    requires Objects(c) && Ap(c.apps, a).stage.Active()
    requires !Bit(Ap(c.apps, a), c.ids, d) && c.reg[(a, d)] == 1
    requires Ap(c.apps, a).stage == Registered ==> c.lockW != {}
    requires Ap(c.apps, a).pend == {} && Id(c.ids, d) > 0 && Dv(c.devs, d).phase != Freed
    ensures Objects(DoSetBit(c, a, d)) && Slot(c.ids, d) !in Ap(c.apps, a).bits
  {
    var p, slot := Ap(c.apps, a), Slot(c.ids, d);
    var q := p.(bits := p.bits[slot := d], pend := p.pend + {slot});
    if slot in p.bits { BitFree(c, a, d); }
    assert AppOk(p, a, c.ids, c.appls, c.lockW);
    assert AppOk(q, a, c.ids, c.appls, c.lockW);
    AppsWith(c, a, q, c.appls);
    forall e ensures CallsOk(q, a, Dv(c.devs, e).holders, e, c.ids, c.listed, c.reg[(a, e)], c.rel[(a, e)]) {
      assert CallsOk(p, a, Dv(c.devs, e).holders, e, c.ids, c.listed, c.reg[(a, e)], c.rel[(a, e)]);
    }
    CallsWithApp(c, a, q);
  }

  lemma KeepSetBitReading(s: State, t: Tid)
    requires Inv(s) && At(s.pcs, t).Enter? && At(s.pcs, t).caller.FromAppl?
    ensures var pc := At(s.pcs, t);
      Inv(Go(s, DoSetBit(Touch(s.core, pc.d), pc.a, pc.d), t, GetRef(pc.a, pc.d, pc.caller)))
  {
    var (c, pc) := (s.core, At(s.pcs, t));
    var a, d := pc.a, pc.d;
    assert ThreadOk(c, t, pc);
    assert DevOk(Dv(c.devs, d), d, Id(c.ids, d), c.table, c.listed, c.pub);
    assert Touch(c, d) == c;
    ObjectsSetBit(c, a, d);
    AppKeeps(s, t, a, DoSetBit(c, a, d), GetRef(a, d, pc.caller));
  }

  lemma AppTakesRef(p: Appl, a: App, slot: nat, ids: map<Dev, nat>, appls: set<App>, lockW: set<Tid>)
    requires AppOk(p, a, ids, appls, lockW) && p.pend == {slot}
    ensures AppOk(p.(held := p.held + {slot}, pend := p.pend - {slot}), a, ids, appls, lockW) && slot !in p.held
  {
    assert p.pend - {slot} == {};
  }

  /** capi_device_get in register_capi_appl. */
  lemma ObjectsTakeRef(c: Core, a: App, d: Dev)
    requires Objects(c) && Dv(c.devs, d).phase != Freed && Dv(c.devs, d).phase != Unborn
    requires Bit(Ap(c.apps, a), c.ids, d) && Ap(c.apps, a).pend == {Slot(c.ids, d)}
    ensures Objects(DoTakeRef(c, a, d))
  {
    var p, r, slot := Ap(c.apps, a), Dv(c.devs, d), Slot(c.ids, d);
    var q := p.(held := p.held + {slot}, pend := p.pend - {slot});
    var w := r.(refs := r.refs + 1, holders := r.holders + {a});
    assert AppOk(p, a, c.ids, c.appls, c.lockW);
    AppTakesRef(p, a, slot, c.ids, c.appls, c.lockW);
    assert DevOk(r, d, Id(c.ids, d), c.table, c.listed, c.pub);
    assert CallsOk(p, a, r.holders, d, c.ids, c.listed, c.reg[(a, d)], c.rel[(a, d)]);
    assert DevOk(w, d, Id(c.ids, d), c.table, c.listed, c.pub);
    DevsWith(c, d, w);
    SlotsWith(c, d, w);
    AppsWith(c, a, q, c.appls);
    CallsPair(c, a, q, d, w);
  }

  /** An application and a device change together, and the calls of both are still in order. */
  lemma CallsPair(c: Core, a: App, q: Appl, d: Dev, w: Device)
    requires Calls(c.apps, c.devs, c.ids, c.listed, c.reg, c.rel)
    requires q.stage == Ap(c.apps, a).stage && q.bits == Ap(c.apps, a).bits
    requires forall i :: i != Slot(c.ids, d) ==> (i in q.held <==> i in Ap(c.apps, a).held)
    requires forall b :: b != a ==> (b in w.holders <==> b in Dv(c.devs, d).holders)
    requires Bit(q, c.ids, d) && (a in w.holders <==> Slot(c.ids, d) in q.held)
    ensures Calls(c.apps[a := q], c.devs[d := w], c.ids, c.listed, c.reg, c.rel)
  {
    var apps, devs := c.apps[a := q], c.devs[d := w];
    forall b, e
      ensures CallsOk(Ap(apps, b), b, Dv(devs, e).holders, e, c.ids, c.listed, c.reg[(b, e)], c.rel[(b, e)])
    {
      assert CallsOk(Ap(c.apps, b), b, Dv(c.devs, e).holders, e, c.ids, c.listed, c.reg[(b, e)], c.rel[(b, e)]);
    }
  }

  lemma KeepTakeRefReading(s: State, t: Tid)
    requires Inv(s) && At(s.pcs, t).GetRef? && At(s.pcs, t).caller.FromAppl?
    ensures var pc := At(s.pcs, t);
      Inv(Go(s, DoTakeRef(s.core, pc.a, pc.d), t, Back(pc.a, pc.d, pc.caller)))
  {
    var (c, pc) := (s.core, At(s.pcs, t));
    var a, d := pc.a, pc.d;
    assert ThreadOk(c, t, pc);
    assert DevOk(Dv(c.devs, d), d, Id(c.ids, d), c.table, c.listed, c.pub);
    ObjectsTakeRef(c, a, d);
    AppKeeps(s, t, a, DoTakeRef(c, a, d), Back(a, d, pc.caller));
  }

  /** Thread t drops the lock, leaving a as q. */
  lemma OutKeeps(s: State, t: Tid, a: App, q: Appl, appls: set<App>)
    requires Inv(s) && (At(s.pcs, t).RegLoop? || At(s.pcs, t).RelLoop?)
    requires Ap(s.core.apps, a).stage.Claimed() && Ap(s.core.apps, a).busy == t
    requires Objects(WithApp(s.core.(lockR := s.core.lockR - {t}, appls := appls), a, q))
    requires About(At(s.pcs, t), a) && q.busy == t && !q.stage.Claimed()
    ensures Inv(Go(s, WithApp(s.core.(lockR := s.core.lockR - {t}, appls := appls), a, q), t, Idle))
  {
    var c, n := s.core, WithApp(s.core.(lockR := s.core.lockR - {t}, appls := appls), a, q);
    LocksOut(c.lockW, c.lockR, s.pcs, t);
    ReadersGo(c.devs, s.pcs, t, Idle);
    OwnersGo(c.apps, s.pcs, n.apps, t, Idle);
    forall u | u != t ensures ThreadOk(n, u, At(s.pcs, u)) {
      OthersElsewhere(s, t, a, u);
      assert ThreadOk(c, u, At(s.pcs, u));
      ThreadOtherApp(c, n, a, u, At(s.pcs, u));
    }
    ThreadsGo(n, s.pcs, t, Idle);
  }

  lemma KeepEndRegister(s: State, t: Tid)
    requires Inv(s) && At(s.pcs, t).RegLoop? && At(s.pcs, t).devs == {}
    ensures Inv(Go(s, DoEndRegister(s.core, t, At(s.pcs, t).a), t, Idle))
  {
    var (c, a) := (s.core, At(s.pcs, t).a);
    var p, q := Ap(c.apps, a), Ap(c.apps, a).(stage := Registered);
    assert ThreadOk(c, t, At(s.pcs, t));
    assert AppOk(p, a, c.ids, c.appls, c.lockW);
    AppsWith(c, a, q, c.appls);
    forall d ensures CallsOk(q, a, Dv(c.devs, d).holders, d, c.ids, c.listed, c.reg[(a, d)], c.rel[(a, d)]) {
      assert CallsOk(p, a, Dv(c.devs, d).holders, d, c.ids, c.listed, c.reg[(a, d)], c.rel[(a, d)]);
    }
    CallsWithApp(c, a, q);
    OutKeeps(s, t, a, q, c.appls);
  }

  // ----- binding a device -----

  /** Thread t, writing, goes on at pc; the others do not hold the lock. */
  lemma WriterKeeps(s: State, t: Tid, n: Core, pc: Pc)
    requires Inv(s) && Objects(n) && t in s.core.lockW && Writes(pc) && !Reads(pc) && ThreadOk(n, t, pc)
    requires n.lockW == s.core.lockW && n.lockR == s.core.lockR && n.ids == s.core.ids
    requires forall d :: Dv(n.devs, d).readers == Dv(s.core.devs, d).readers
    requires forall d :: Awaited(s.core, d) ==>
      Dv(n.devs, d).phase == Dv(s.core.devs, d).phase && Dv(n.devs, d).busy == Dv(s.core.devs, d).busy
    requires forall a {:trigger Ap(n.apps, a)} :: BitsGrow(Ap(s.core.apps, a), Ap(n.apps, a))
    ensures Inv(Go(s, n, t, pc))
  {
    var c := s.core;
    assert LockOk(c.lockW, c.lockR, t, At(s.pcs, t));
    LocksGo(c.lockW, c.lockR, s.pcs, t, pc);
    forall u, d ensures ReaderOk(Dv(n.devs, d).readers, u, d, At(s.pcs, u)) {
      assert ReaderOk(Dv(c.devs, d).readers, u, d, At(s.pcs, u));
    }
    ReadersGo(n.devs, s.pcs, t, pc);
    OwnersIdle(c, n.apps, s.pcs, t, pc);
    forall u | u != t ensures ThreadOk(n, u, At(s.pcs, u)) {
      assert ThreadOk(c, u, At(s.pcs, u)) && LockOk(c.lockW, c.lockR, u, At(s.pcs, u));
      ThreadUnlocked(c, n, u, At(s.pcs, u));
    }
    ThreadsGo(n, s.pcs, t, pc);
  }

  /** A thread that works on no application moves. */
  lemma OwnersIdle(c: Core, apps: map<App, Appl>, pcs: map<Tid, Pc>, t: Tid, pc: Pc)
    requires Owners(c.apps, pcs) && !Reads(At(pcs, t))
    requires forall a {:trigger Ap(apps, a)} ::
      Ap(apps, a).stage == Ap(c.apps, a).stage && Ap(apps, a).busy == Ap(c.apps, a).busy
    ensures Owners(apps, pcs[t := pc])
  {
    var after := pcs[t := pc];
    forall a ensures OwnerOk(Ap(apps, a), a, At(after, Ap(apps, a).busy)) {
      assert OwnerOk(Ap(c.apps, a), a, At(pcs, Ap(c.apps, a).busy));
    }
  }

  /** Some thread waits to go on with d. */
  predicate Awaited(c: Core, d: Dev) {
    Dv(c.devs, d).phase == Unlisted || (Dv(c.devs, d).phase == Binding && Id(c.ids, d) == 0)
  }

  ghost predicate BitsGrow(p: Appl, q: Appl) {
    q.stage == p.stage && q.busy == p.busy && forall i <- p.bits :: i in q.bits && q.bits[i] == p.bits[i]
  }

  lemma KeepStartBind(s: State, t: Tid, d: Dev)
    requires Inv(s) && At(s.pcs, t) == Idle && Dv(s.core.devs, d).phase == Raw
    ensures Inv(Go(s, DoStartBind(s.core, t, d), t, BindStart(d)))
  {
    var c, r := s.core, Dv(s.core.devs, d).(phase := Binding, writer := true, busy := t);
    assert DevOk(Dv(c.devs, d), d, Id(c.ids, d), c.table, c.listed, c.pub);
    DevKeeps(s, d, r);
    GoKeeps(s.(core := WithDev(c, d, r)), t, BindStart(d));
  }

  lemma DevsNumber(c: Core, t: Tid, d: Dev, slot: nat)
    requires Objects(c) && Dv(c.devs, d).phase == Binding && Id(c.ids, d) == 0
    requires slot !in c.table && slot < c.maxDevs
    ensures var n := DoLockBind(c, t, d, slot);
      Devs(n.devs, n.ids, n.table, n.listed, n.pub) && Slots(n.table, n.maxDevs, n.ids, n.devs)
  {
    var n := DoLockBind(c, t, d, slot);
    forall e ensures DevOk(Dv(n.devs, e), e, Id(n.ids, e), n.table, n.listed, n.pub) {
      assert DevOk(Dv(c.devs, e), e, Id(c.ids, e), c.table, c.listed, c.pub);
    }
    forall i | i in n.table ensures SlotOk(i, n.table[i], n.maxDevs, n.ids, n.devs) {
      if i != slot { assert SlotOk(i, c.table[i], c.maxDevs, c.ids, c.devs); }
    }
  }

  lemma AppsNumber(c: Core, t: Tid, d: Dev, slot: nat)
    requires Apps(c.apps, c.ids, c.appls, c.lockW) && c.lockW == {} && Id(c.ids, d) == 0
    ensures Apps(c.apps, c.ids[d := slot + 1], c.appls, {t})
  {
    var ids := c.ids[d := slot + 1];
    forall a ensures AppOk(Ap(c.apps, a), a, ids, c.appls, {t}) {
      assert AppOk(Ap(c.apps, a), a, c.ids, c.appls, c.lockW);
    }
  }

  /** A device without a number has no bit anywhere. */
  lemma BitNumber(c: Core, d: Dev, slot: nat, a: App, e: Dev)
    requires Objects(c) && Id(c.ids, d) == 0
    ensures Bit(Ap(c.apps, a), c.ids[d := slot + 1], e) == Bit(Ap(c.apps, a), c.ids, e)
    ensures !Bit(Ap(c.apps, a), c.ids, d)
  {
    assert AppOk(Ap(c.apps, a), a, c.ids, c.appls, c.lockW);
  }

  lemma CallsNumber(c: Core, d: Dev, slot: nat)
    requires Objects(c) && Id(c.ids, d) == 0
    ensures Calls(c.apps, c.devs, c.ids[d := slot + 1], c.listed, c.reg, c.rel)
  {
    var ids := c.ids[d := slot + 1];
    forall a, e
      ensures CallsOk(Ap(c.apps, a), a, Dv(c.devs, e).holders, e, ids, c.listed, c.reg[(a, e)], c.rel[(a, e)])
    {
      BitNumber(c, d, slot, a, e);
      assert CallsOk(Ap(c.apps, a), a, Dv(c.devs, e).holders, e, c.ids, c.listed, c.reg[(a, e)], c.rel[(a, e)]);
    }
  }

  /** Nobody reads or writes under a free lock. */
  lemma Free(s: State, u: Tid)
    requires Inv(s) && s.core.lockW == s.core.lockR == {}
    ensures !Reads(At(s.pcs, u)) && !Writes(At(s.pcs, u))
  {
    assert LockOk(s.core.lockW, s.core.lockR, u, At(s.pcs, u));
  }

  lemma LocksTake(pcs: map<Tid, Pc>, t: Tid, pc: Pc)
    requires Locks({}, {}, pcs) && Writes(pc) && !Reads(pc)
    ensures Locks({t}, {}, pcs[t := pc])
  {
    var now := pcs[t := pc];
    forall u ensures LockOk({t}, {}, u, At(now, u)) { assert LockOk({}, {}, u, At(pcs, u)); }
  }

  lemma LocksDrop(lockW: set<Tid>, lockR: set<Tid>, pcs: map<Tid, Pc>, t: Tid)
    requires Locks(lockW, lockR, pcs) && t in lockW
    ensures lockW == {t} && lockR == {} && Locks({}, {}, pcs[t := Idle])
  {
    assert LockOk(lockW, lockR, t, At(pcs, t));
    var now := pcs[t := Idle];
    forall u ensures LockOk({}, {}, u, At(now, u)) { assert LockOk(lockW, lockR, u, At(pcs, u)); }
  }

  /** capi_device_register gets the lock and the first free number. */
  lemma KeepLockBind(s: State, t: Tid, slot: nat)
    requires Inv(s) && At(s.pcs, t).BindStart? && s.core.lockW == s.core.lockR == {}
    requires slot !in s.core.table && slot < s.core.maxDevs
    ensures Inv(Go(s, DoLockBind(s.core, t, At(s.pcs, t).d, slot), t, BindLoop(At(s.pcs, t).d, s.core.appls)))
  {
    var (c, d) := (s.core, At(s.pcs, t).d);
    var n, pc := DoLockBind(c, t, d, slot), BindLoop(d, c.appls);
    assert ThreadOk(c, t, At(s.pcs, t));
    DevsNumber(c, t, d, slot);
    AppsNumber(c, t, d, slot);
    CallsNumber(c, d, slot);
    LocksTake(s.pcs, t, pc);
    ReadersGo(c.devs, s.pcs, t, pc);
    OwnersIdle(c, c.apps, s.pcs, t, pc);
    forall u | u != t ensures ThreadOk(n, u, At(s.pcs, u)) {
      Free(s, u);
      assert ThreadOk(c, u, At(s.pcs, u));
      ThreadUnlocked(c, n, u, At(s.pcs, u));
    }
    NumberThread(s, t, d, slot);
    ThreadsGo(n, s.pcs, t, pc);
  }

  /** Under a free lock no application is being registered or released. */
  lemma Unclaimed(s: State, a: App)
    requires Inv(s) && s.core.lockR == {}
    ensures !Ap(s.core.apps, a).stage.Claimed()
  {
    var t := Ap(s.core.apps, a).busy;
    assert OwnerOk(Ap(s.core.apps, a), a, At(s.pcs, t)) && LockOk(s.core.lockW, s.core.lockR, t, At(s.pcs, t));
  }

  lemma NumberThread(s: State, t: Tid, d: Dev, slot: nat)
    requires Inv(s) && s.core.lockW == s.core.lockR == {}
    requires Dv(s.core.devs, d).phase == Binding && Id(s.core.ids, d) == 0
    ensures ThreadOk(DoLockBind(s.core, t, d, slot), t, BindLoop(d, s.core.appls))
  {
    var c := s.core;
    forall a | a in c.appls ensures c.reg[(a, d)] == 0 && Ap(c.apps, a).pend == {} {
      assert CallsOk(Ap(c.apps, a), a, Dv(c.devs, d).holders, d, c.ids, c.listed, c.reg[(a, d)], c.rel[(a, d)]);
      assert AppOk(Ap(c.apps, a), a, c.ids, c.appls, c.lockW);
      Unclaimed(s, a);
    }
  }

  lemma KeepLockBindFull(s: State, t: Tid)
    requires Inv(s) && At(s.pcs, t).BindStart?
    ensures Inv(Go(s, DoLockBindFull(s.core, At(s.pcs, t).d), t, Idle))
  {
    var (c, d) := (s.core, At(s.pcs, t).d);
    assert ThreadOk(c, t, At(s.pcs, t));
    assert DevOk(Dv(c.devs, d), d, Id(c.ids, d), c.table, c.listed, c.pub);
    OwnDevKeeps(s, t, d, Dv(c.devs, d).(phase := Gone), Idle);
  }

  /** The thread that waits to go on with d changes it and goes on. */
  lemma OwnDevKeeps(s: State, t: Tid, d: Dev, r: Device, pc: Pc)
    requires Inv(s) && (At(s.pcs, t).BindStart? || At(s.pcs, t).UnregWait?) && At(s.pcs, t).d == d
    requires DevOk(r, d, Id(s.core.ids, d), s.core.table, s.core.listed, s.core.pub) && pc == Idle
    requires var q := Dv(s.core.devs, d); r.phase != Freed && r.holders == q.holders && r.readers == q.readers
    ensures Inv(Go(s, WithDev(s.core, d, r), t, pc))
  {
    var c, n := s.core, WithDev(s.core, d, r);
    assert ThreadOk(c, t, At(s.pcs, t));
    ObjectsWith(c, d, r);
    LocksGo(c.lockW, c.lockR, s.pcs, t, pc);
    ReadersWith(c.devs, s.pcs, d, r);
    ReadersGo(n.devs, s.pcs, t, pc);
    OwnersIdle(c, c.apps, s.pcs, t, pc);
    forall u | u != t ensures ThreadOk(n, u, At(s.pcs, u)) {
      assert ThreadOk(c, u, At(s.pcs, u));
      OtherDev(c, t, d, r, u, At(s.pcs, u));
    }
    ThreadsGo(n, s.pcs, t, pc);
  }

  lemma OtherDev(c: Core, t: Tid, d: Dev, r: Device, u: Tid, pc: Pc)
    requires ThreadOk(c, u, pc) && u != t && Awaited(c, d) && Dv(c.devs, d).busy == t
    ensures ThreadOk(WithDev(c, d, r), u, pc)
  {
  }

  lemma KeepEnterAppl(s: State, t: Tid, a: App)
    requires Inv(s) && At(s.pcs, t).BindLoop? && a in At(s.pcs, t).appls
    ensures var pc := At(s.pcs, t);
      Inv(Go(s, DoEnter(s.core, a, pc.d), t, Enter(a, pc.d, FromDev(pc.appls - {a}))))
  {
    var (c, pc) := (s.core, At(s.pcs, t));
    var d := pc.d;
    assert ThreadOk(c, t, pc) && LockOk(c.lockW, c.lockR, t, pc);
    assert AppOk(Ap(c.apps, a), a, c.ids, c.appls, c.lockW);
    assert CallsOk(Ap(c.apps, a), a, Dv(c.devs, d).holders, d, c.ids, c.listed, c.reg[(a, d)], c.rel[(a, d)]);
    CallsEnter(c, a, d);
    WriterKeeps(s, t, DoEnter(c, a, d), Enter(a, d, FromDev(pc.appls - {a})));
  }

  /** While a device is being bound, the listed applications are registered ones. */
  lemma ListedRegistered(s: State, t: Tid, a: App)
    requires Inv(s) && t in s.core.lockW && a in s.core.appls
    ensures Ap(s.core.apps, a).stage == Registered
  {
    assert LockOk(s.core.lockW, s.core.lockR, t, At(s.pcs, t));
    assert AppOk(Ap(s.core.apps, a), a, s.core.ids, s.core.appls, s.core.lockW);
    Unclaimed(s, a);
  }

  lemma PendingOnly(c: Core, n: Core, a: App, but: set<App>, now: set<App>)
    requires NonePending(c, but) && n.appls == c.appls && but <= {a} && (a !in now ==> Ap(n.apps, a).pend == {})
    requires n.apps == c.apps[a := Ap(n.apps, a)]
    ensures NonePending(n, now)
  {
    forall b | b in n.appls && b !in now ensures Ap(n.apps, b).pend == {} {
      if b != a { assert Ap(n.apps, b) == Ap(c.apps, b) && b !in but; }
    }
  }

  lemma KeepSetBitWriting(s: State, t: Tid)
    requires Inv(s) && At(s.pcs, t).Enter? && At(s.pcs, t).caller.FromDev?
    ensures var pc := At(s.pcs, t);
      Inv(Go(s, DoSetBit(Touch(s.core, pc.d), pc.a, pc.d), t, GetRef(pc.a, pc.d, pc.caller)))
  {
    var (c, pc) := (s.core, At(s.pcs, t));
    var a, d := pc.a, pc.d;
    assert ThreadOk(c, t, pc) && LockOk(c.lockW, c.lockR, t, pc);
    ListedRegistered(s, t, a);
    assert Touch(c, d) == c;
    ObjectsSetBit(c, a, d);
    PendingOnly(c, DoSetBit(c, a, d), a, {}, {a});
    WriterKeeps(s, t, DoSetBit(c, a, d), GetRef(a, d, pc.caller));
  }

  lemma KeepTakeRefWriting(s: State, t: Tid)
    requires Inv(s) && At(s.pcs, t).GetRef? && At(s.pcs, t).caller.FromDev?
    ensures var pc := At(s.pcs, t);
      Inv(Go(s, DoTakeRef(s.core, pc.a, pc.d), t, Back(pc.a, pc.d, pc.caller)))
  {
    var (c, pc) := (s.core, At(s.pcs, t));
    var a, d := pc.a, pc.d;
    assert ThreadOk(c, t, pc) && LockOk(c.lockW, c.lockR, t, pc);
    ListedRegistered(s, t, a);
    ObjectsTakeRef(c, a, d);
    PendingOnly(c, DoTakeRef(c, a, d), a, {a}, {});
    WriterKeeps(s, t, DoTakeRef(c, a, d), Back(a, d, pc.caller));
  }

  lemma KeepLeaveFail(s: State, t: Tid)
    requires Inv(s) && At(s.pcs, t).Enter?
    ensures var pc := At(s.pcs, t); Inv(Go(s, s.core, t, Back(pc.a, pc.d, pc.caller)))
  {
    var pc := At(s.pcs, t);
    assert ThreadOk(s.core, t, pc);
    if pc.caller.FromDev? { WriterMoves(s, t, Back(pc.a, pc.d, pc.caller)); }
    else { GoKeeps(s, t, Back(pc.a, pc.d, pc.caller)); }
  }

  lemma WriterMoves(s: State, t: Tid, pc: Pc)
    requires Inv(s) && Writes(At(s.pcs, t)) && Writes(pc) && !Reads(pc) && ThreadOk(s.core, t, pc)
    ensures Inv(Go(s, s.core, t, pc))
  {
    assert LockOk(s.core.lockW, s.core.lockR, t, At(s.pcs, t));
    WriterKeeps(s, t, s.core, pc);
  }

  /** up_write(&dev->sem): from here on the device can be used. */
  lemma KeepPublish(s: State, t: Tid)
    requires Inv(s) && At(s.pcs, t).BindLoop? && At(s.pcs, t).appls == {}
    ensures Inv(Go(s, DoPublish(s.core, At(s.pcs, t).d), t, BindUp(At(s.pcs, t).d)))
  {
    var (c, d) := (s.core, At(s.pcs, t).d);
    var r, n := Dv(c.devs, d).(phase := Bound, writer := false), DoPublish(c, d);
    assert DevOk(Dv(c.devs, d), d, Id(c.ids, d), c.table, c.listed, c.pub);
    assert ThreadOk(c, t, At(s.pcs, t)) && LockOk(c.lockW, c.lockR, t, At(s.pcs, t));
    forall e ensures DevOk(Dv(n.devs, e), e, Id(n.ids, e), n.table, n.listed, n.pub) {
      assert DevOk(Dv(c.devs, e), e, Id(c.ids, e), c.table, c.listed, c.pub);
    }
    SlotsWith(c, d, r);
    CallsWithDev(c, d, r);
    WriterKeeps(s, t, n, BindUp(d));
  }

  /** The device joins the list, and the lock is dropped. */
  lemma KeepListAdd(s: State, t: Tid)
    requires Inv(s) && At(s.pcs, t).BindUp?
    ensures Inv(Go(s, DoListAdd(s.core, At(s.pcs, t).d), t, Idle))
  {
    var (c, d) := (s.core, At(s.pcs, t).d);
    var n := DoListAdd(c, d);
    assert ThreadOk(c, t, At(s.pcs, t)) && LockOk(c.lockW, c.lockR, t, At(s.pcs, t));
    forall e ensures DevOk(Dv(n.devs, e), e, Id(n.ids, e), n.table, n.listed, n.pub) {
      assert DevOk(Dv(c.devs, e), e, Id(c.ids, e), c.table, c.listed, c.pub);
    }
    forall a ensures AppOk(Ap(n.apps, a), a, n.ids, n.appls, n.lockW) {
      assert AppOk(Ap(c.apps, a), a, c.ids, c.appls, c.lockW);
    }
    forall a, e
      ensures CallsOk(Ap(n.apps, a), a, Dv(n.devs, e).holders, e, n.ids, n.listed, n.reg[(a, e)], n.rel[(a, e)])
    {
      assert AppOk(Ap(c.apps, a), a, c.ids, c.appls, c.lockW);
      assert CallsOk(Ap(c.apps, a), a, Dv(c.devs, e).holders, e, c.ids, c.listed, c.reg[(a, e)], c.rel[(a, e)]);
    }
    LocksDrop(c.lockW, c.lockR, s.pcs, t);
    ReadersGo(c.devs, s.pcs, t, Idle);
    OwnersIdle(c, c.apps, s.pcs, t, Idle);
    forall u | u != t ensures ThreadOk(n, u, At(s.pcs, u)) {
      assert ThreadOk(c, u, At(s.pcs, u)) && LockOk(c.lockW, c.lockR, u, At(s.pcs, u));
      ThreadUnlocked(c, n, u, At(s.pcs, u));
    }
    ThreadsGo(n, s.pcs, t, Idle);
  }

  // ----- unregistering a device -----

  /** list_del_init in unregister_capi_device. */
  lemma ObjectsUnlist(c: Core, t: Tid, d: Dev)
    requires Objects(c) && c.lockW == {} && Dv(c.devs, d).phase == Bound
    ensures Objects(DoUnlist(c, t, d))
  {
    var n := DoUnlist(c, t, d);
    forall e ensures DevOk(Dv(n.devs, e), e, Id(n.ids, e), n.table, n.listed, n.pub) {
      assert DevOk(Dv(c.devs, e), e, Id(c.ids, e), c.table, c.listed, c.pub);
    }
    SlotsWith(c, d, Dv(n.devs, d));
    forall a, e
      ensures CallsOk(Ap(n.apps, a), a, Dv(n.devs, e).holders, e, n.ids, n.listed, n.reg[(a, e)], n.rel[(a, e)])
    {
      assert CallsOk(Ap(c.apps, a), a, Dv(c.devs, e).holders, e, c.ids, c.listed, c.reg[(a, e)], c.rel[(a, e)]);
    }
  }

  lemma KeepUnlist(s: State, t: Tid, d: Dev)
    requires Inv(s) && At(s.pcs, t) == Idle && s.core.lockW == s.core.lockR == {} && Dv(s.core.devs, d).phase == Bound
    ensures Inv(Go(s, DoUnlist(s.core, t, d), t, UnregWait(d)))
  {
    var c, n, pc := s.core, DoUnlist(s.core, t, d), UnregWait(d);
    var r := Dv(c.devs, d).(phase := Unlisted, busy := t);
    ObjectsUnlist(c, t, d);
    LocksGo(c.lockW, c.lockR, s.pcs, t, pc);
    ReadersWith(c.devs, s.pcs, d, r);
    ReadersGo(n.devs, s.pcs, t, pc);
    OwnersIdle(c, c.apps, s.pcs, t, pc);
    forall u | u != t ensures ThreadOk(n, u, At(s.pcs, u)) {
      Free(s, u);
      assert ThreadOk(c, u, At(s.pcs, u));
      ThreadUnlocked(c, n, u, At(s.pcs, u));
    }
    ThreadsGo(n, s.pcs, t, pc);
  }

  /** down_write(&dev->sem) in unregister_capi_device; it is never released. */
  lemma KeepQuiesce(s: State, t: Tid)
    requires Inv(s) && At(s.pcs, t).UnregWait? && Dv(s.core.devs, At(s.pcs, t).d).readers == {}
    ensures Inv(Go(s, DoQuiesce(s.core, At(s.pcs, t).d), t, Idle))
  {
    var (c, d) := (s.core, At(s.pcs, t).d);
    assert ThreadOk(c, t, At(s.pcs, t));
    assert DevOk(Dv(c.devs, d), d, Id(c.ids, d), c.table, c.listed, c.pub);
    OwnDevKeeps(s, t, d, Dv(c.devs, d).(phase := Gone, writer := true), Idle);
  }

  // ----- releasing an application -----

  lemma KeepStartRelease(s: State, t: Tid, a: App)
    requires Inv(s) && At(s.pcs, t) == Idle && s.core.lockW == {} && Ap(s.core.apps, a).stage == Registered
    requires forall u :: !Putting(At(s.pcs, u), a)
    ensures Inv(Go(s, DoStartRelease(s.core, t, a), t, RelLoop(a, Ap(s.core.apps, a).bits.Keys)))
  {
    var c, p := s.core, Ap(s.core.apps, a);
    var q, n, pc := p.(stage := Releasing, busy := t), DoStartRelease(c, t, a), RelLoop(a, p.bits.Keys);
    assert AppOk(p, a, c.ids, c.appls, c.lockW);
    LocksIn(c.lockR, s.pcs, t, pc);
    ReadersGo(c.devs, s.pcs, t, pc);
    OwnersGo(c.apps, s.pcs, n.apps, t, pc);
    AppsWith(c, a, q, c.appls);
    forall d ensures CallsOk(q, a, Dv(c.devs, d).holders, d, c.ids, c.listed, c.reg[(a, d)], c.rel[(a, d)])
      && c.rel[(a, d)] == 0
    {
      assert CallsOk(p, a, Dv(c.devs, d).holders, d, c.ids, c.listed, c.reg[(a, d)], c.rel[(a, d)]);
    }
    CallsWithApp(c, a, q);
    assert FreeOk(n, t, a, p.bits.Keys, p.bits.Keys);
    forall u | u != t ensures ThreadOk(n, u, At(s.pcs, u)) {
      assert LockOk(c.lockW, c.lockR, u, At(s.pcs, u)) && ThreadOk(c, u, At(s.pcs, u));
      assert !Putting(At(s.pcs, u), a);
      ThreadOtherApp(c, n, a, u, At(s.pcs, u));
    }
    ThreadsGo(n, s.pcs, t, pc);
  }

  /** While an application holds a reference, its device is alive under its number. */
  lemma HeldInTable(c: Core, a: App, slot: nat)
    requires Objects(c) && slot in Ap(c.apps, a).held
    ensures slot in Ap(c.apps, a).bits && slot in c.table && c.table[slot] == Ap(c.apps, a).bits[slot]
    ensures var d := c.table[slot];
      Dv(c.devs, d).phase != Freed && Id(c.ids, d) == slot + 1 && a in Dv(c.devs, d).holders
  {
    assert AppOk(Ap(c.apps, a), a, c.ids, c.appls, c.lockW);
    var d := Ap(c.apps, a).bits[slot];
    assert DevOk(Dv(c.devs, d), d, Id(c.ids, d), c.table, c.listed, c.pub);
    assert CallsOk(Ap(c.apps, a), a, Dv(c.devs, d).holders, d, c.ids, c.listed, c.reg[(a, d)], c.rel[(a, d)]);
  }

  lemma KeepRelSlot(s: State, t: Tid, slot: nat)
    requires Inv(s) && At(s.pcs, t).RelLoop? && slot in At(s.pcs, t).slots
    ensures var pc := At(s.pcs, t);
      Inv(Go(s, DoRelSlot(s.core, pc.a, slot), t, RelSlotPc(s.core, pc.a, slot, pc.slots)))
  {
    var (c, pc) := (s.core, At(s.pcs, t));
    var a := pc.a;
    assert ThreadOk(c, t, pc);
    HeldInTable(c, a, slot);
    var d, rest := c.table[slot], pc.slots - {slot};
    assert pc.slots == rest + {slot} && Touch(c, d) == c;
    if d in c.listed {
      CallsLeave(c, a, d);
      RelThread(c, t, a, slot, pc.slots);
      AppKeeps(s, t, a, DoRelSlot(c, a, slot), RelOp(a, slot, d, rest));
    } else {
      RelThread(c, t, a, slot, pc.slots);
      GoKeeps(s, t, RelPut(a, slot, d, rest));
    }
  }

  lemma CallsLeave(c: Core, a: App, d: Dev)
    requires Calls(c.apps, c.devs, c.ids, c.listed, c.reg, c.rel) && Ap(c.apps, a).stage == Releasing
    ensures Calls(c.apps, c.devs, c.ids, c.listed, c.reg, c.rel + multiset{(a, d)})
  {
    var rel := c.rel + multiset{(a, d)};
    forall b, e
      ensures CallsOk(Ap(c.apps, b), b, Dv(c.devs, e).holders, e, c.ids, c.listed, c.reg[(b, e)], rel[(b, e)])
    {
      assert CallsOk(Ap(c.apps, b), b, Dv(c.devs, e).holders, e, c.ids, c.listed, c.reg[(b, e)], c.rel[(b, e)]);
    }
  }

  /** capi_release goes on to the device with the next bit, and calls it if it is listed. */
  lemma RelThread(c: Core, t: Tid, a: App, slot: nat, slots: set<nat>)
    requires FreeOk(c, t, a, slots, slots) && slot in slots && slot in c.table && BitIs(c, a, slot, c.table[slot])
    requires Id(c.ids, c.table[slot]) == slot + 1
    ensures var d, rest := c.table[slot], slots - {slot};
      ThreadOk(if d in c.listed then c.(rel := c.rel + multiset{(a, d)}) else c, t,
               if d in c.listed then RelOp(a, slot, d, rest) else RelPut(a, slot, d, rest))
  {
    var d, rest := c.table[slot], slots - {slot};
    assert slots == rest + {slot};
    var p := Ap(c.apps, a);
    var rel := if d in c.listed then c.rel + multiset{(a, d)} else c.rel;
    forall e ensures rel[(a, e)] == if Bit(p, c.ids, e) && Slot(c.ids, e) !in rest && e in c.listed then 1 else 0 {
      assert c.rel[(a, e)] == if Bit(p, c.ids, e) && Slot(c.ids, e) !in slots && e in c.listed then 1 else 0;
    }
  }

  lemma KeepLeaveRel(s: State, t: Tid)
    requires Inv(s) && At(s.pcs, t).RelOp?
    ensures var pc := At(s.pcs, t); Inv(Go(s, s.core, t, RelPut(pc.a, pc.slot, pc.d, pc.slots)))
  {
    var pc := At(s.pcs, t);
    assert ThreadOk(s.core, t, pc);
    GoKeeps(s, t, RelPut(pc.a, pc.slot, pc.d, pc.slots));
  }

  /** capi_device_put in capi_release. */
  lemma KeepDropRef(s: State, t: Tid)
    requires Inv(s) && At(s.pcs, t).RelPut?
    ensures var pc := At(s.pcs, t);
      Inv(Go(s, DoDropRef(s.core, pc.a, pc.slot, pc.d), t, RelLoop(pc.a, pc.slots)))
  {
    var (c, pc) := (s.core, At(s.pcs, t));
    var a, slot, d := pc.a, pc.slot, pc.d;
    assert ThreadOk(c, t, pc);
    HeldInTable(c, a, slot);
    assert DevOk(Dv(c.devs, d), d, Id(c.ids, d), c.table, c.listed, c.pub);
    ObjectsDropRef(c, a, slot, d);
    var n := DoDropRef(c, a, slot, d);
    assert pc.slots + {slot} - {slot} == pc.slots;
    DropThread(c, n, t, a, slot, d, pc.slots);
    AppKeeps(s, t, a, n, RelLoop(a, pc.slots));
  }

  lemma DropThread(c: Core, n: Core, t: Tid, a: App, slot: nat, d: Dev, slots: set<nat>)
    requires FreeOk(c, t, a, slots, slots + {slot}) && slot !in slots
    requires Ap(n.apps, a) == Ap(c.apps, a).(held := Ap(c.apps, a).held - {slot})
    requires n.ids == c.ids && n.listed == c.listed && n.rel == c.rel
    ensures ThreadOk(n, t, RelLoop(a, slots))
  {
    assert slots + {slot} - {slot} == slots;
    forall e ensures n.rel[(a, e)] ==
      if Bit(Ap(n.apps, a), n.ids, e) && Slot(n.ids, e) !in slots && e in n.listed then 1 else 0
    {
      assert c.rel[(a, e)] ==
        if Bit(Ap(c.apps, a), c.ids, e) && Slot(c.ids, e) !in slots && e in c.listed then 1 else 0;
    }
  }

  lemma ObjectsDropRef(c: Core, a: App, slot: nat, d: Dev)
    requires Objects(c) && slot in Ap(c.apps, a).held && BitIs(c, a, slot, d) && Ap(c.apps, a).stage == Releasing
    requires Dv(c.devs, d).phase != Freed && Id(c.ids, d) == slot + 1 && a in Dv(c.devs, d).holders
    ensures Objects(DoDropRef(c, a, slot, d))
    ensures forall e :: Dv(DoDropRef(c, a, slot, d).devs, e).readers == Dv(c.devs, e).readers
    ensures forall e :: Dv(c.devs, e).phase == Binding || Dv(c.devs, e).phase == Unlisted ==>
      Dv(DoDropRef(c, a, slot, d).devs, e).phase == Dv(c.devs, e).phase
  {
    var p, r := Ap(c.apps, a), Dv(c.devs, d);
    var q, w := p.(held := p.held - {slot}), r.(refs := Pred(r.refs), holders := r.holders - {a});
    var v := if w.refs == 0 then w.(phase := Freed) else w;
    assert AppOk(p, a, c.ids, c.appls, c.lockW);
    assert DevOk(r, d, Id(c.ids, d), c.table, c.listed, c.pub);
    assert AppOk(q, a, c.ids, c.appls, c.lockW);
    AppsWith(c, a, q, c.appls);
    CallsPair(c, a, q, d, v);
    assert |w.holders| == |r.holders| - 1;
    if w.refs == 0 {
      DevsFree(c, d, v);
    } else {
      DevsWith(c, d, w);
      SlotsWith(c, d, w);
    }
  }

  lemma KeepEndRelease(s: State, t: Tid)
    requires Inv(s) && At(s.pcs, t).RelLoop? && At(s.pcs, t).slots == {}
    ensures Inv(Go(s, DoEndRelease(s.core, t, At(s.pcs, t).a), t, Idle))
  {
    var (c, a) := (s.core, At(s.pcs, t).a);
    var p, q := Ap(c.apps, a), Ap(c.apps, a).(stage := Released);
    assert ThreadOk(c, t, At(s.pcs, t));
    assert AppOk(p, a, c.ids, c.appls, c.lockW);
    AppsWith(c, a, q, c.appls - {a});
    forall d ensures CallsOk(q, a, Dv(c.devs, d).holders, d, c.ids, c.listed, c.reg[(a, d)], c.rel[(a, d)]) {
      assert CallsOk(p, a, Dv(c.devs, d).holders, d, c.ids, c.listed, c.reg[(a, d)], c.rel[(a, d)]);
    }
    CallsWithApp(c, a, q);
    OutKeeps(s, t, a, q, c.appls - {a});
  }

  // ----- sending and querying -----

  /** A bit that is set in a registered application is backed: its device is alive and in the table. */
  lemma BitInTable(s: State, a: App, slot: nat)
    requires Inv(s) && Ap(s.core.apps, a).stage == Registered && slot in Ap(s.core.apps, a).bits
    ensures slot in s.core.table && s.core.table[slot] == Ap(s.core.apps, a).bits[slot]
    ensures var d := s.core.table[slot]; Dv(s.core.devs, d).phase != Freed && Id(s.core.ids, d) == slot + 1
  {
    var c, p := s.core, Ap(s.core.apps, a);
    assert AppOk(p, a, c.ids, c.appls, c.lockW);
    if slot in p.held {
      HeldInTable(c, a, slot);
    } else {
      PendingIs(s, a, slot);
      var d := p.bits[slot];
      assert DevOk(Dv(c.devs, d), d, Id(c.ids, d), c.table, c.listed, c.pub);
    }
  }

  /** A reference that is still to be taken is about to be taken by the thread that binds the device. */
  lemma PendingIs(s: State, a: App, slot: nat)
    requires Inv(s) && Ap(s.core.apps, a).stage == Registered && slot in Ap(s.core.apps, a).pend
    ensures slot in Ap(s.core.apps, a).bits && Dv(s.core.devs, Ap(s.core.apps, a).bits[slot]).phase == Binding
    ensures Id(s.core.ids, Ap(s.core.apps, a).bits[slot]) == slot + 1
  {
    var c := s.core;
    assert AppOk(Ap(c.apps, a), a, c.ids, c.appls, c.lockW);
    var t :| t in c.lockW;
    assert LockOk(c.lockW, c.lockR, t, At(s.pcs, t)) && ThreadOk(c, t, At(s.pcs, t));
    assert a in c.appls;
  }

  lemma KeepStartPut(s: State, t: Tid, a: App, slot: nat)
    requires Inv(s) && At(s.pcs, t) == Idle && Ap(s.core.apps, a).stage == Registered && slot in Ap(s.core.apps, a).bits
    ensures Inv(Go(s, s.core, t, PutBit(a, slot)))
  {
    GoKeeps(s, t, PutBit(a, slot));
  }

  lemma KeepPutRead(s: State, t: Tid)
    requires Inv(s) && At(s.pcs, t).PutBit?
    ensures var pc := At(s.pcs, t);
      pc.slot in s.core.table && Inv(Go(s, s.core, t, PutLock(pc.a, pc.slot, s.core.table[pc.slot])))
  {
    var pc := At(s.pcs, t);
    assert ThreadOk(s.core, t, pc);
    BitInTable(s, pc.a, pc.slot);
    GoKeeps(s, t, PutLock(pc.a, pc.slot, s.core.table[pc.slot]));
  }

  /** down_read_trylock(&dev->sem) succeeds. */
  lemma DownKeeps(s: State, t: Tid, d: Dev, pc: Pc)
    requires Inv(s) && !Reads(At(s.pcs, t)) && !Writes(At(s.pcs, t)) && !InOp(At(s.pcs, t))
    requires ThreadOk(s.core, t, pc) && (pc.PutOp? || pc.Query?) && pc.d == d
    requires Id(s.core.ids, d) > 0 && Dv(s.core.devs, d).phase != Freed && !Dv(s.core.devs, d).writer
    ensures Inv(Go(s, DownRead(s.core, t, d), t, pc))
  {
    var c, q := s.core, Dv(s.core.devs, d);
    var r := q.(readers := q.readers + {t});
    assert DevOk(q, d, Id(c.ids, d), c.table, c.listed, c.pub);
    assert DownRead(c, t, d) == WithDev(c, d, r);
    ReaderKeeps(s, t, d, r, pc);
  }

  /** up_read(&dev->sem). */
  lemma KeepEndRead(s: State, t: Tid)
    requires Inv(s) && (At(s.pcs, t).PutOp? || At(s.pcs, t).Query?)
    ensures Inv(Go(s, UpRead(s.core, t, At(s.pcs, t).d), t, Idle))
  {
    var (c, d) := (s.core, At(s.pcs, t).d);
    var q := Dv(c.devs, d);
    var r := q.(readers := q.readers - {t});
    assert ReaderOk(q.readers, t, d, At(s.pcs, t));
    assert DevOk(q, d, Id(c.ids, d), c.table, c.listed, c.pub);
    assert UpRead(c, t, d) == WithDev(c, d, r);
    ReaderKeeps(s, t, d, r, Idle);
  }

  lemma ReadersMove(devs: map<Dev, Device>, pcs: map<Tid, Pc>, t: Tid, d: Dev, r: Device, pc: Pc)
    requires Readers(devs, pcs) && forall u :: u != t ==> (u in r.readers <==> u in Dv(devs, d).readers)
    requires (t in r.readers <==> InOp(pc)) && (InOp(pc) ==> pc.d == d)
    requires InOp(At(pcs, t)) ==> At(pcs, t).d == d
    ensures Readers(devs[d := r], pcs[t := pc])
  {
    var now, after := devs[d := r], pcs[t := pc];
    forall u, e ensures ReaderOk(Dv(now, e).readers, u, e, At(after, u)) {
      assert ReaderOk(Dv(devs, e).readers, u, e, At(pcs, u));
    }
  }

  lemma ReaderKeeps(s: State, t: Tid, d: Dev, r: Device, pc: Pc)
    requires Inv(s) && !Reads(At(s.pcs, t)) && !Writes(At(s.pcs, t)) && !Reads(pc) && !Writes(pc)
    requires ThreadOk(s.core, t, pc) && DevOk(r, d, Id(s.core.ids, d), s.core.table, s.core.listed, s.core.pub)
    requires var q := Dv(s.core.devs, d);
      r == q.(readers := r.readers) && r.phase != Freed && forall u :: u != t ==> (u in r.readers <==> u in q.readers)
    requires (t in r.readers <==> InOp(pc)) && (InOp(pc) ==> pc.d == d)
    requires InOp(At(s.pcs, t)) ==> At(s.pcs, t).d == d
    ensures Inv(Go(s, WithDev(s.core, d, r), t, pc))
  {
    var c, n := s.core, WithDev(s.core, d, r);
    ObjectsWith(c, d, r);
    LocksGo(c.lockW, c.lockR, s.pcs, t, pc);
    OwnersIdle(c, c.apps, s.pcs, t, pc);
    ReadersMove(c.devs, s.pcs, t, d, r, pc);
    forall u | u != t ensures ThreadOk(n, u, At(s.pcs, u)) {
      assert ThreadOk(c, u, At(s.pcs, u));
      ThreadSameDevs(c, n.devs, n.table, u, At(s.pcs, u));
    }
    ThreadSameDevs(c, n.devs, n.table, t, pc);
    ThreadsGo(n, s.pcs, t, pc);
  }

  lemma KeepPutTry(s: State, t: Tid, got: bool)
    requires Inv(s) && At(s.pcs, t).PutLock? && (got ==> !Dv(s.core.devs, At(s.pcs, t).d).writer)
    ensures var pc := At(s.pcs, t);
      Inv(if got then Go(s, DownRead(s.core, t, pc.d), t, PutOp(pc.a, pc.slot, pc.d))
          else Go(s, Touch(s.core, pc.d), t, Idle))
  {
    var pc := At(s.pcs, t);
    assert ThreadOk(s.core, t, pc);
    BitInTable(s, pc.a, pc.slot);
    assert Touch(s.core, pc.d) == s.core;
    if got { DownKeeps(s, t, pc.d, PutOp(pc.a, pc.slot, pc.d)); } else { GoKeeps(s, t, Idle); }
  }

  lemma KeepTryGet(s: State, t: Tid, slot: nat)
    requires Inv(s) && At(s.pcs, t) == Idle && slot in s.core.table && !Dv(s.core.devs, s.core.table[slot]).writer
    ensures Inv(Go(s, DownRead(s.core, t, s.core.table[slot]), t, Query(s.core.table[slot])))
  {
    var d := s.core.table[slot];
    assert SlotOk(slot, d, s.core.maxDevs, s.core.ids, s.core.devs);
    DownKeeps(s, t, d, Query(d));
  }
}
