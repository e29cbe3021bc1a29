/** The functions of core.c, run by one thread while no other is at work in the core: each is a run of the
    machine of Capicore, so that it keeps the invariant, and its whole effect is stated beside that. */
module Registry {
  import opened Capicore
  import opened CapicoreSteps
  import opened CapicoreRuns

  // ----- runs of one thread -----

  /** Some run of the machine leads from s to n. */
  ghost predicate Leads(s: State, n: State) {
    exists run :: Possible(s, run) && After(s, run) == n
  }

  /** Some run leads from s to n, and calls capi_put_message of drivers exactly as listed in handed. */
  ghost predicate LeadsHanding(s: State, n: State, handed: seq<(App, Dev)>) {
    exists run :: Possible(s, run) && After(s, run) == n && Handed(s, run) == handed
  }

  lemma HandingLeads(s: State, n: State, handed: seq<(App, Dev)>)
    requires LeadsHanding(s, n, handed)
    ensures Leads(s, n)
  {
    var run :| Possible(s, run) && After(s, run) == n && Handed(s, run) == handed;
  }

  lemma Here(s: State)
    ensures Leads(s, s)
  {
    assert Possible(s, []) && After(s, []) == s;
  }

  lemma Then(s: State, m: State, t: Tid, x: Step)
    requires Leads(s, m) && Inv(m) && Can(m, t, x)
    ensures Leads(s, Do(m, t, x)) && Inv(Do(m, t, x))
  {
    var run :| Possible(s, run) && After(s, run) == m;
    RunAppend(s, run, t, x);
    StepKeeps(m, t, x);
  }

  lemma HereHanding(s: State)
    ensures LeadsHanding(s, s, [])
  {
    assert Possible(s, []) && After(s, []) == s && Handed(s, []) == [];
  }

  lemma ThenHanding(s: State, m: State, handed: seq<(App, Dev)>, t: Tid, x: Step)
    requires LeadsHanding(s, m, handed) && Inv(m) && Can(m, t, x)
    ensures LeadsHanding(s, Do(m, t, x), handed + Hands(m, t, x)) && Inv(Do(m, t, x))
  {
    var run :| Possible(s, run) && After(s, run) == m && Handed(s, run) == handed;
    RunAppend(s, run, t, x);
    StepKeeps(m, t, x);
  }

  /** No thread is at work in the core. */
  ghost predicate Quiet(s: State) {
    forall u :: At(s.pcs, u) == Idle
  }

  lemma QuietUnlocked(s: State)
    requires Inv(s) && Quiet(s)
    ensures s.core.lockW == s.core.lockR == {} && s.core.pub == {}
  {
    forall u ensures u !in s.core.lockW && u !in s.core.lockR {
      assert LockOk(s.core.lockW, s.core.lockR, u, At(s.pcs, u));
    }
  }

  // ----- what the functions do to one object -----

  /** A device that a holds a reference of. */
  function Granted(r: Device, a: App): Device { r.(refs := r.refs + 1, holders := r.holders + {a}) }

  /** A device that a has dropped its reference of. */
  function Dropped(r: Device, a: App): Device {
    r.(refs := Pred(r.refs), holders := r.holders - {a}, phase := if Pred(r.refs) == 0 then Freed else r.phase)
  }

  function Marked(p: Appl, slot: nat, d: Dev): Appl {
    p.(bits := p.bits[slot := d], held := p.held + {slot})
  }

  /** The driver of d has accepted a: the bit is set and a holds a reference. */
  function Accepted(c: Core, a: App, d: Dev): Core {
    c.(devs := c.devs[d := Granted(Dv(c.devs, d), a)], apps := c.apps[a := Marked(Ap(c.apps, a), Slot(c.ids, d), d)])
  }

  // ----- register_capi_appl -----

  /** Where thread t calls register_capi_appl from. */
  predicate Calls(pc: Pc, a: App, d: Dev, caller: Caller) {
    match caller
    case FromAppl(devs) => d !in devs && pc == RegLoop(a, devs + {d})
    case FromDev(appls) => a !in appls && pc == BindLoop(d, appls + {a})
  }

  /** The driver has been called, the bit is set, the reference is taken. */
  function Entered(s: State, t: Tid, a: App, d: Dev, caller: Caller): State {
    Go(s, DoEnter(s.core, a, d), t, Enter(a, d, caller))
  }

  function Failed(s: State, t: Tid, a: App, d: Dev, caller: Caller): State { Go(s, s.core, t, Back(a, d, caller)) }

  function BitSet(s: State, t: Tid, a: App, d: Dev, caller: Caller): State {
    Go(s, DoSetBit(Touch(s.core, d), a, d), t, GetRef(a, d, caller))
  }

  function RefTaken(s: State, t: Tid, a: App, d: Dev, caller: Caller): State {
    Go(s, DoTakeRef(s.core, a, d), t, Back(a, d, caller))
  }

  function AfterRegister(s: State, t: Tid, a: App, d: Dev, ok: bool, caller: Caller): State {
    var n := Entered(s, t, a, d, caller);
    if ok then RefTaken(BitSet(n, t, a, d, caller), t, a, d, caller) else Failed(n, t, a, d, caller)
  }

  lemma EnterLeads(from: State, s: State, t: Tid, a: App, d: Dev, caller: Caller)
    requires Inv(s) && Leads(from, s) && Calls(At(s.pcs, t), a, d, caller)
    ensures Inv(Entered(s, t, a, d, caller)) && Leads(from, Entered(s, t, a, d, caller))
  {
    match caller
    case FromAppl(devs) =>
      assert devs + {d} - {d} == devs;
      Then(from, s, t, EnterDev(d));
    case FromDev(appls) =>
      assert appls + {a} - {a} == appls;
      Then(from, s, t, EnterAppl(a));
  }

  lemma RegisterLeads(from: State, s: State, t: Tid, a: App, d: Dev, ok: bool, caller: Caller)
    requires Inv(s) && Leads(from, s) && Calls(At(s.pcs, t), a, d, caller)
    ensures Inv(AfterRegister(s, t, a, d, ok, caller)) && Leads(from, AfterRegister(s, t, a, d, ok, caller))
  {
    EnterLeads(from, s, t, a, d, caller);
    var n := Entered(s, t, a, d, caller);
    Then(from, n, t, LeaveReg(ok));
    if ok { Then(from, BitSet(n, t, a, d, caller), t, TakeRef); }
  }

  /** The device is alive and nothing is pending for the application. */
  lemma CallsMeans(s: State, t: Tid, a: App, d: Dev, caller: Caller)
    requires Inv(s) && Calls(At(s.pcs, t), a, d, caller)
    ensures Dv(s.core.devs, d).phase != Freed && Ap(s.core.apps, a).pend == {}
  {
    var c := s.core;
    assert ThreadOk(c, t, At(s.pcs, t));
    assert DevOk(Dv(c.devs, d), d, Id(c.ids, d), c.table, c.listed, c.pub);
  }

  lemma MarkedIs(c: Core, a: App, d: Dev)
    requires Ap(c.apps, a).pend == {} && Dv(c.devs, d).phase != Freed
    ensures DoTakeRef(DoSetBit(Touch(c, d), a, d), a, d) == Accepted(c, a, d)
  {
    var p, slot := Ap(c.apps, a), Slot(c.ids, d);
    assert p.pend + {slot} - {slot} == p.pend;
    var q := p.(bits := p.bits[slot := d], pend := p.pend + {slot});
    assert c.apps[a := q][a := Marked(p, slot, d)] == c.apps[a := Marked(p, slot, d)];
  }

  /** What register_capi_appl does, when nobody interferes. */
  lemma RegisterEffect(s: State, t: Tid, a: App, d: Dev, ok: bool, caller: Caller)
    requires Inv(s) && Calls(At(s.pcs, t), a, d, caller)
    ensures var c := s.core.(reg := s.core.reg + multiset{(a, d)});
      AfterRegister(s, t, a, d, ok, caller).core == if ok then Accepted(c, a, d) else c
  {
    CallsMeans(s, t, a, d, caller);
    var c := s.core.(reg := s.core.reg + multiset{(a, d)});
    assert DoEnter(s.core, a, d) == c;
    MarkedIs(c, a, d);
  }

  // ----- capi_register -----

  ghost predicate OnlyBusy(s: State, t: Tid) {
    forall u :: u != t ==> At(s.pcs, u) == Idle
  }

  ghost predicate DevsGranted(was: map<Dev, Device>, now: map<Dev, Device>, a: App, to: set<Dev>) {
    forall d {:trigger Dv(now, d)} :: Dv(now, d) == if d in to then Granted(Dv(was, d), a) else Dv(was, d)
  }

  ghost predicate CalledFor(was: multiset<(App, Dev)>, now: multiset<(App, Dev)>, appls: set<App>, devs: set<Dev>) {
    forall a, d {:trigger now[(a, d)]} :: now[(a, d)] == was[(a, d)] + if a in appls && d in devs then 1 else 0
  }

  ghost predicate BitsFor(p: Appl, ids: map<Dev, nat>, to: set<Dev>) {
    forall d {:trigger Bit(p, ids, d)} :: Bit(p, ids, d) <==> d in to
  }

  ghost predicate OtherApps(was: map<App, Appl>, now: map<App, Appl>, a: App) {
    forall b {:trigger Ap(now, b)} :: b != a ==> Ap(now, b) == Ap(was, b)
  }

  /** From c to n, application a has been registered with the devices done; those in accepts have accepted it. */
  ghost predicate RegisteredWith(c: Core, n: Core, a: App, accepts: set<Dev>, done: set<Dev>) {
    && n.table == c.table && n.ids == c.ids && n.listed == c.listed && n.rel == c.rel && n.appls == c.appls + {a}
    && DevsGranted(c.devs, n.devs, a, done * accepts) && CalledFor(c.reg, n.reg, {a}, done)
    && OtherApps(c.apps, n.apps, a) && BitsFor(Ap(n.apps, a), c.ids, done * accepts)
  }

  lemma SlotsDiffer(c: Core, d: Dev, e: Dev)
    requires Objects(c) && d in c.listed && e in c.listed && d != e
    ensures Slot(c.ids, d) != Slot(c.ids, e) && Id(c.ids, d) > 0
  {
    assert DevOk(Dv(c.devs, d), d, Id(c.ids, d), c.table, c.listed, c.pub);
    assert DevOk(Dv(c.devs, e), e, Id(c.ids, e), c.table, c.listed, c.pub);
  }

  lemma BitsMarked(c: Core, p: Appl, d: Dev, to: set<Dev>)
    requires Objects(c) && d in c.listed && to <= c.listed && BitsFor(p, c.ids, to)
    ensures BitsFor(Marked(p, Slot(c.ids, d), d), c.ids, to + {d})
  {
    var q := Marked(p, Slot(c.ids, d), d);
    forall e ensures Bit(q, c.ids, e) <==> e in to + {d} {
      assert Bit(p, c.ids, e) <==> e in to;
      if e in to && e != d { SlotsDiffer(c, d, e); }
      if e == d { assert DevOk(Dv(c.devs, d), d, Id(c.ids, d), c.table, c.listed, c.pub); }
    }
  }

  lemma OneMore(done: set<Dev>, accepts: set<Dev>, d: Dev)
    ensures (done + {d}) * accepts == if d in accepts then done * accepts + {d} else done * accepts
  {
  }

  lemma GrantedMore(was: map<Dev, Device>, now: map<Dev, Device>, a: App, to: set<Dev>, d: Dev)
    requires DevsGranted(was, now, a, to) && d !in to
    ensures DevsGranted(was, now[d := Granted(Dv(now, d), a)], a, to + {d})
  {
    var later := now[d := Granted(Dv(now, d), a)];
    forall e ensures Dv(later, e) == if e in to + {d} then Granted(Dv(was, e), a) else Dv(was, e) {
      assert Dv(now, e) == if e in to then Granted(Dv(was, e), a) else Dv(was, e);
    }
  }

  lemma CalledMore(was: multiset<(App, Dev)>, now: multiset<(App, Dev)>, a: App, devs: set<Dev>, d: Dev)
    requires CalledFor(was, now, {a}, devs) && d !in devs
    ensures CalledFor(was, now + multiset{(a, d)}, {a}, devs + {d})
  {
    var later := now + multiset{(a, d)};
    forall b, e ensures later[(b, e)] == was[(b, e)] + if b in {a} && e in devs + {d} then 1 else 0 {
      assert now[(b, e)] == was[(b, e)] + if b in {a} && e in devs then 1 else 0;
    }
  }

  lemma OthersMore(was: map<App, Appl>, now: map<App, Appl>, a: App, p: Appl)
    requires OtherApps(was, now, a)
    ensures OtherApps(was, now[a := p], a)
  {
    forall b | b != a ensures Ap(now[a := p], b) == Ap(was, b) { assert Ap(now, b) == Ap(was, b); }
  }

  lemma RegisteredOne(c: Core, n: Core, a: App, accepts: set<Dev>, done: set<Dev>, d: Dev)
    requires Objects(n) && RegisteredWith(c, n, a, accepts, done) && d in n.listed && d !in done && done <= n.listed
    ensures var m := n.(reg := n.reg + multiset{(a, d)});
      RegisteredWith(c, if d in accepts then Accepted(m, a, d) else m, a, accepts, done + {d})
  {
    OneMore(done, accepts, d);
    CalledMore(c.reg, n.reg, a, done, d);
    if d in accepts {
      GrantedMore(c.devs, n.devs, a, done * accepts, d);
      BitsMarked(n, Ap(n.apps, a), d, done * accepts);
      OthersMore(c.apps, n.apps, a, Marked(Ap(n.apps, a), Slot(n.ids, d), d));
    }
  }

  /** Thread t, and no other, is in capi_register for a; the devices todo are still to come. */
  ghost predicate InRegister(s0: State, s: State, t: Tid, a: App, accepts: set<Dev>, todo: set<Dev>) {
    && Inv(s) && Leads(s0, s) && OnlyBusy(s, t) && At(s.pcs, t) == RegLoop(a, todo)
    && todo <= s.core.listed && RegisteredWith(s0.core, s.core, a, accepts, s.core.listed - todo)
  }

  lemma OnlyBusyGo(s: State, c: Core, t: Tid, pc: Pc)
    requires OnlyBusy(s, t)
    ensures OnlyBusy(Go(s, c, t, pc), t) && (pc == Idle ==> Quiet(Go(s, c, t, pc)))
  {
    var n := Go(s, c, t, pc);
    forall u ensures u != t || pc == Idle ==> At(n.pcs, u) == Idle { assert u != t ==> At(s.pcs, u) == Idle; }
  }

  lemma RegisterRound(s0: State, s: State, t: Tid, a: App, accepts: set<Dev>, todo: set<Dev>, d: Dev)
    requires InRegister(s0, s, t, a, accepts, todo) && d in todo
    ensures InRegister(s0, AfterRegister(s, t, a, d, d in accepts, FromAppl(todo - {d})), t, a, accepts, todo - {d})
  {
    var rest, done := todo - {d}, s.core.listed - todo;
    var n := AfterRegister(s, t, a, d, d in accepts, FromAppl(rest));
    assert rest + {d} == todo;
    RegisterLeads(s0, s, t, a, d, d in accepts, FromAppl(rest));
    RegisterEffect(s, t, a, d, d in accepts, FromAppl(rest));
    RegisteredOne(s0.core, s.core, a, accepts, done, d);
    assert s.core.listed - rest == done + {d};
    RegisterBusy(s, t, a, d, d in accepts, FromAppl(rest));
  }

  lemma RegisterBusy(s: State, t: Tid, a: App, d: Dev, ok: bool, caller: Caller)
    requires OnlyBusy(s, t)
    ensures var n := AfterRegister(s, t, a, d, ok, caller); OnlyBusy(n, t) && At(n.pcs, t) == Back(a, d, caller)
  {
    forall u | u != t ensures At(AfterRegister(s, t, a, d, ok, caller).pcs, u) == Idle { assert At(s.pcs, u) == Idle; }
  }

  lemma RegisterBegun(s: State, t: Tid, a: App, accepts: set<Dev>)
    requires Inv(s) && Quiet(s) && Ap(s.core.apps, a).stage == New
    ensures var n := Go(s, DoStartRegister(s.core, t, a), t, RegLoop(a, s.core.listed));
      InRegister(s, n, t, a, accepts, s.core.listed)
  {
    QuietUnlocked(s);
    Here(s);
    Then(s, s, t, StartRegister(a));
    assert AppOk(Ap(s.core.apps, a), a, s.core.ids, s.core.appls, s.core.lockW);
    OnlyBusyGo(s, DoStartRegister(s.core, t, a), t, RegLoop(a, s.core.listed));
    assert s.core.listed - s.core.listed == {};
    NoneYet(s.core, t, a, accepts);
  }

  lemma NoneYet(c: Core, t: Tid, a: App, accepts: set<Dev>)
    requires Ap(c.apps, a).bits == map[]
    ensures RegisteredWith(c, DoStartRegister(c, t, a), a, accepts, {})
  {
  }

  lemma RegisterEnded(s0: State, s: State, t: Tid, a: App, accepts: set<Dev>)
    requires InRegister(s0, s, t, a, accepts, {})
    ensures var n := Go(s, DoEndRegister(s.core, t, a), t, Idle);
      Inv(n) && Leads(s0, n) && Quiet(n) && RegisteredWith(s0.core, n.core, a, accepts, s0.core.listed)
  {
    Then(s0, s, t, EndRegister);
    OnlyBusyGo(s, DoEndRegister(s.core, t, a), t, Idle);
    assert s.core.listed - {} == s0.core.listed;
    BitsStay(s.core, t, a, accepts);
    OthersMore(s0.core.apps, s.core.apps, a, Ap(s.core.apps, a).(stage := Registered));
  }

  lemma BitsStay(c: Core, t: Tid, a: App, to: set<Dev>)
    requires BitsFor(Ap(c.apps, a), c.ids, c.listed * to)
    ensures BitsFor(Ap(DoEndRegister(c, t, a).apps, a), c.ids, c.listed * to)
  {
    var p := Ap(c.apps, a);
    forall d ensures Bit(p.(stage := Registered), c.ids, d) <==> d in c.listed * to {
      assert Bit(p, c.ids, d) <==> d in c.listed * to;
    }
  }

  // ----- capi_device_register -----

  ghost predicate OtherDevs(was: map<Dev, Device>, now: map<Dev, Device>, d: Dev) {
    forall e {:trigger Dv(now, e)} :: e != d ==> Dv(now, e) == Dv(was, e)
  }

  ghost predicate AppsMarked(was: map<App, Appl>, now: map<App, Appl>, slot: nat, d: Dev, to: set<App>) {
    forall a {:trigger Ap(now, a)} :: Ap(now, a) == if a in to then Marked(Ap(was, a), slot, d) else Ap(was, a)
  }

  /** From c to n, device d has got number slot + 1 and the applications done have been registered with it;
      it has accepted those in accepts. */
  ghost predicate BoundTo(c: Core, n: Core, d: Dev, slot: nat, accepts: set<App>, done: set<App>) {
    && n.table == c.table[slot := d] && n.ids == c.ids[d := slot + 1] && n.appls == c.appls && n.rel == c.rel
    && OtherDevs(c.devs, n.devs, d) && Dv(n.devs, d).holders == done * accepts && Dv(n.devs, d).ext == Dv(c.devs, d).ext
    && CalledFor(c.reg, n.reg, done, {d}) && AppsMarked(c.apps, n.apps, slot, d, done * accepts)
  }

  lemma CalledAlso(was: multiset<(App, Dev)>, now: multiset<(App, Dev)>, d: Dev, appls: set<App>, a: App)
    requires CalledFor(was, now, appls, {d}) && a !in appls
    ensures CalledFor(was, now + multiset{(a, d)}, appls + {a}, {d})
  {
    var later := now + multiset{(a, d)};
    forall b, e ensures later[(b, e)] == was[(b, e)] + if b in appls + {a} && e in {d} then 1 else 0 {
      assert now[(b, e)] == was[(b, e)] + if b in appls && e in {d} then 1 else 0;
    }
  }

  lemma MarkedMore(was: map<App, Appl>, now: map<App, Appl>, slot: nat, d: Dev, to: set<App>, a: App)
    requires AppsMarked(was, now, slot, d, to) && a !in to
    ensures AppsMarked(was, now[a := Marked(Ap(now, a), slot, d)], slot, d, to + {a})
  {
    var later := now[a := Marked(Ap(now, a), slot, d)];
    forall b ensures Ap(later, b) == if b in to + {a} then Marked(Ap(was, b), slot, d) else Ap(was, b) {
      assert Ap(now, b) == if b in to then Marked(Ap(was, b), slot, d) else Ap(was, b);
    }
  }

  lemma OtherDevsMore(was: map<Dev, Device>, now: map<Dev, Device>, d: Dev, r: Device)
    requires OtherDevs(was, now, d)
    ensures OtherDevs(was, now[d := r], d)
  {
    forall e | e != d ensures Dv(now[d := r], e) == Dv(was, e) { assert Dv(now, e) == Dv(was, e); }
  }

  lemma OneMoreAppl(done: set<App>, accepts: set<App>, a: App)
    ensures (done + {a}) * accepts == if a in accepts then done * accepts + {a} else done * accepts
  {
  }

  lemma BoundOne(c: Core, n: Core, d: Dev, slot: nat, accepts: set<App>, done: set<App>, a: App)
    requires BoundTo(c, n, d, slot, accepts, done) && a !in done
    ensures var m := n.(reg := n.reg + multiset{(a, d)});
      BoundTo(c, if a in accepts then Accepted(m, a, d) else m, d, slot, accepts, done + {a})
  {
    OneMoreAppl(done, accepts, a);
    CalledAlso(c.reg, n.reg, d, done, a);
    if a in accepts {
      MarkedMore(c.apps, n.apps, slot, d, done * accepts, a);
      OtherDevsMore(c.devs, n.devs, d, Granted(Dv(n.devs, d), a));
    }
  }

  /** Thread t, and no other, is in capi_device_register for d; the applications todo are still to come. */
  ghost predicate InBind(s0: State, s: State, t: Tid, d: Dev, slot: nat, accepts: set<App>, todo: set<App>) {
    && Inv(s) && Leads(s0, s) && OnlyBusy(s, t) && At(s.pcs, t) == BindLoop(d, todo)
    && s.core.listed == s0.core.listed && todo <= s.core.appls
    && BoundTo(s0.core, s.core, d, slot, accepts, s.core.appls - todo)
  }

  lemma BindRound(s0: State, s: State, t: Tid, d: Dev, slot: nat, accepts: set<App>, todo: set<App>, a: App)
    requires InBind(s0, s, t, d, slot, accepts, todo) && a in todo
    ensures InBind(s0, AfterRegister(s, t, a, d, a in accepts, FromDev(todo - {a})), t, d, slot, accepts, todo - {a})
  {
    var rest, done := todo - {a}, s.core.appls - todo;
    assert rest + {a} == todo;
    RegisterLeads(s0, s, t, a, d, a in accepts, FromDev(rest));
    RegisterEffect(s, t, a, d, a in accepts, FromDev(rest));
    BoundOne(s0.core, s.core, d, slot, accepts, done, a);
    assert s.core.appls - rest == done + {a};
    RegisterBusy(s, t, a, d, a in accepts, FromDev(rest));
  }

  /** A thread that is alone and neither reads nor writes finds the lock free. */
  lemma AloneUnlocked(s: State, t: Tid)
    requires Inv(s) && OnlyBusy(s, t) && !Reads(At(s.pcs, t)) && !Writes(At(s.pcs, t))
    ensures s.core.lockW == s.core.lockR == {}
  {
    forall u ensures u !in s.core.lockW && u !in s.core.lockR {
      assert u != t ==> At(s.pcs, u) == Idle;
      assert LockOk(s.core.lockW, s.core.lockR, u, At(s.pcs, u));
    }
  }

  function BindStarted(s: State, t: Tid, d: Dev): State { Go(s, DoStartBind(s.core, t, d), t, BindStart(d)) }

  function BindLocked(s: State, t: Tid, d: Dev, slot: nat): State {
    Go(s, DoLockBind(s.core, t, d, slot), t, BindLoop(d, s.core.appls))
  }

  lemma BindBegun(s: State, t: Tid, d: Dev)
    requires Inv(s) && Quiet(s) && Dv(s.core.devs, d).phase == Raw
    ensures var n := BindStarted(s, t, d);
      Inv(n) && Leads(s, n) && OnlyBusy(n, t) && At(n.pcs, t) == BindStart(d) && n.core.lockW == n.core.lockR == {}
  {
    Here(s);
    Then(s, s, t, StartBind(d));
    OnlyBusyGo(s, DoStartBind(s.core, t, d), t, BindStart(d));
    AloneUnlocked(BindStarted(s, t, d), t);
  }

  lemma BindNumbered(s: State, t: Tid, d: Dev, slot: nat, accepts: set<App>)
    requires Inv(s) && Quiet(s) && Dv(s.core.devs, d).phase == Raw && FirstFree(s.core, slot)
    ensures InBind(s, BindLocked(BindStarted(s, t, d), t, d, slot), t, d, slot, accepts, s.core.appls)
  {
    var m := BindStarted(s, t, d);
    BindBegun(s, t, d);
    Then(s, m, t, LockBind(slot));
    OnlyBusyGo(m, DoLockBind(m.core, t, d, slot), t, BindLoop(d, m.core.appls));
    assert DevOk(Dv(s.core.devs, d), d, Id(s.core.ids, d), s.core.table, s.core.listed, s.core.pub);
    assert s.core.appls - s.core.appls == {};
    BoundNone(s.core, t, d, slot, accepts);
  }

  lemma BoundNone(c: Core, t: Tid, d: Dev, slot: nat, accepts: set<App>)
    requires Dv(c.devs, d).holders == {}
    ensures BoundTo(c, DoLockBind(DoStartBind(c, t, d), t, d, slot), d, slot, accepts, {})
  {
  }

  /** All numbers are used. */
  lemma BindRefused(s: State, t: Tid, d: Dev)
    requires Inv(s) && Quiet(s) && Dv(s.core.devs, d).phase == Raw
    requires forall i :: 0 <= i < s.core.maxDevs ==> i in s.core.table
    ensures var m := BindStarted(s, t, d);
      var n := Go(m, DoLockBindFull(m.core, d), t, Idle);
      && Inv(n) && Leads(s, n) && Quiet(n)
      && n.core == s.core.(devs := n.core.devs) && OtherDevs(s.core.devs, n.core.devs, d)
      && Dv(n.core.devs, d) == Dv(s.core.devs, d).(phase := Gone, writer := true, busy := t)
  {
    var m := BindStarted(s, t, d);
    BindBegun(s, t, d);
    Then(s, m, t, LockBindFull);
    OnlyBusyGo(m, DoLockBindFull(m.core, d), t, Idle);
  }

  function BindEnded(s: State, t: Tid, d: Dev): State {
    var n := Go(s, DoPublish(s.core, d), t, BindUp(d));
    Go(n, DoListAdd(n.core, d), t, Idle)
  }

  lemma BindDone(s0: State, s: State, t: Tid, d: Dev, slot: nat, accepts: set<App>)
    requires InBind(s0, s, t, d, slot, accepts, {})
    ensures var n := BindEnded(s, t, d);
      && Inv(n) && Leads(s0, n) && Quiet(n) && n.core.listed == s0.core.listed + {d}
      && BoundTo(s0.core, n.core, d, slot, accepts, s0.core.appls)
  {
    var n := Go(s, DoPublish(s.core, d), t, BindUp(d));
    Then(s0, s, t, Publish);
    OnlyBusyGo(s, DoPublish(s.core, d), t, BindUp(d));
    Then(s0, n, t, ListAdd);
    OnlyBusyGo(n, DoListAdd(n.core, d), t, Idle);
    assert s.core.appls - {} == s0.core.appls;
    OtherDevsMore(s0.core.devs, s.core.devs, d, Dv(s.core.devs, d).(phase := Bound, writer := false));
  }

  // ----- capi_device_unregister -----

  function Unregistered(s: State, t: Tid, d: Dev): State {
    var n := Go(s, DoUnlist(s.core, t, d), t, UnregWait(d));
    Go(n, DoQuiesce(n.core, d), t, Idle)
  }

  lemma UnregisterLeads(s: State, t: Tid, d: Dev)
    requires Inv(s) && Quiet(s) && Dv(s.core.devs, d).phase == Bound
    ensures var n := Unregistered(s, t, d);
      && Inv(n) && Leads(s, n) && Quiet(n) && Over(n, d)
      && n.core == s.core.(listed := s.core.listed - {d}, devs := n.core.devs) && OtherDevs(s.core.devs, n.core.devs, d)
      && Dv(n.core.devs, d) == Dv(s.core.devs, d).(phase := Gone, writer := true, busy := t)
  {
    QuietUnlocked(s);
    Here(s);
    Then(s, s, t, Unlist(d));
    var n := Go(s, DoUnlist(s.core, t, d), t, UnregWait(d));
    OnlyBusyGo(s, DoUnlist(s.core, t, d), t, UnregWait(d));
    forall u ensures u !in Dv(n.core.devs, d).readers {
      assert ReaderOk(Dv(n.core.devs, d).readers, u, d, At(n.pcs, u));
      assert u != t ==> At(n.pcs, u) == Idle;
    }
    Then(s, n, t, Quiesce);
    OnlyBusyGo(n, DoQuiesce(n.core, d), t, Idle);
  }

  // ----- capi_release -----

  /** From c to n, application a has given back its references for the numbers done. */
  ghost predicate GivenBack(c: Core, n: Core, a: App, done: set<nat>) {
    && n.ids == c.ids && n.listed == c.listed && n.reg == c.reg && OtherApps(c.apps, n.apps, a)
    && Ap(n.apps, a).bits == Ap(c.apps, a).bits
    && DevsGiven(c.devs, n.devs, a, Ap(c.apps, a), c.ids, done) && OtherCalls(c.rel, n.rel, a)
  }

  ghost predicate DevsGiven(was: map<Dev, Device>, now: map<Dev, Device>, a: App, p: Appl, ids: map<Dev, nat>,
      done: set<nat>) {
    forall d {:trigger Dv(now, d)} ::
      Dv(now, d) == if Bit(p, ids, d) && Slot(ids, d) in done then Dropped(Dv(was, d), a) else Dv(was, d)
  }

  ghost predicate OtherCalls(was: multiset<(App, Dev)>, now: multiset<(App, Dev)>, a: App) {
    forall b, d {:trigger now[(b, d)]} :: b != a ==> now[(b, d)] == was[(b, d)]
  }

  lemma GivenMore(was: map<Dev, Device>, now: map<Dev, Device>, a: App, p: Appl, ids: map<Dev, nat>,
      done: set<nat>, d: Dev)
    requires DevsGiven(was, now, a, p, ids, done) && Bit(p, ids, d) && Slot(ids, d) !in done
    ensures DevsGiven(was, now[d := Dropped(Dv(now, d), a)], a, p, ids, done + {Slot(ids, d)})
  {
    var later := now[d := Dropped(Dv(now, d), a)];
    forall e ensures Dv(later, e) ==
      if Bit(p, ids, e) && Slot(ids, e) in done + {Slot(ids, d)} then Dropped(Dv(was, e), a) else Dv(was, e)
    {
      assert Dv(now, e) == if Bit(p, ids, e) && Slot(ids, e) in done then Dropped(Dv(was, e), a) else Dv(was, e);
    }
  }

  lemma OtherCallsMore(was: multiset<(App, Dev)>, now: multiset<(App, Dev)>, a: App, d: Dev)
    requires OtherCalls(was, now, a)
    ensures OtherCalls(was, now + multiset{(a, d)}, a)
  {
    var later := now + multiset{(a, d)};
    forall b, e | b != a ensures later[(b, e)] == was[(b, e)] { assert now[(b, e)] == was[(b, e)]; }
  }

  /** The step over one set bit: the driver is called if the device is listed, and the reference dropped. */
  function SlotLooked(s: State, t: Tid, a: App, slot: nat, todo: set<nat>): State {
    Go(s, DoRelSlot(s.core, a, slot), t, RelSlotPc(s.core, a, slot, todo))
  }

  function SlotCalled(s: State, t: Tid, a: App, slot: nat, d: Dev, todo: set<nat>): State {
    var n := SlotLooked(s, t, a, slot, todo);
    if d in s.core.listed then Go(n, n.core, t, RelPut(a, slot, d, todo - {slot})) else n
  }

  function SlotDropped(s: State, t: Tid, a: App, slot: nat, d: Dev, todo: set<nat>): State {
    var n := SlotCalled(s, t, a, slot, d, todo);
    Go(n, DoDropRef(n.core, a, slot, d), t, RelLoop(a, todo - {slot}))
  }

  /** Thread t, and no other, is in capi_release for a; the numbers todo are still to come. */
  ghost predicate InRelease(s0: State, s: State, t: Tid, a: App, todo: set<nat>) {
    && Inv(s) && Leads(s0, s) && OnlyBusy(s, t) && At(s.pcs, t) == RelLoop(a, todo)
    && todo <= Ap(s0.core.apps, a).bits.Keys && s.core.appls == s0.core.appls && s.core.maxDevs == s0.core.maxDevs
    && GivenBack(s0.core, s.core, a, Ap(s0.core.apps, a).bits.Keys - todo)
  }

  lemma SlotHeld(s: State, t: Tid, a: App, todo: set<nat>, slot: nat)
    requires Inv(s) && At(s.pcs, t) == RelLoop(a, todo) && slot in todo
    ensures slot in s.core.table && slot in Ap(s.core.apps, a).bits
    ensures var d := s.core.table[slot];
      && Bit(Ap(s.core.apps, a), s.core.ids, d) && Slot(s.core.ids, d) == slot && Dv(s.core.devs, d).phase != Freed
  {
    assert ThreadOk(s.core, t, At(s.pcs, t));
    HeldInTable(s.core, a, slot);
  }

  lemma SlotLeads(s0: State, s: State, t: Tid, a: App, todo: set<nat>, slot: nat, d: Dev)
    requires Inv(s) && Leads(s0, s) && At(s.pcs, t) == RelLoop(a, todo) && slot in todo
    requires slot in s.core.table && d == s.core.table[slot]
    ensures Inv(SlotDropped(s, t, a, slot, d, todo)) && Leads(s0, SlotDropped(s, t, a, slot, d, todo))
  {
    SlotReached(s0, s, t, a, todo, slot, d);
    Then(s0, SlotCalled(s, t, a, slot, d, todo), t, DropRef);
  }

  lemma SlotReached(s0: State, s: State, t: Tid, a: App, todo: set<nat>, slot: nat, d: Dev)
    requires Inv(s) && Leads(s0, s) && At(s.pcs, t) == RelLoop(a, todo) && slot in todo
    requires slot in s.core.table && d == s.core.table[slot]
    ensures var n := SlotCalled(s, t, a, slot, d, todo);
      Inv(n) && Leads(s0, n) && At(n.pcs, t) == RelPut(a, slot, d, todo - {slot})
  {
    Then(s0, s, t, RelSlot(slot));
    if d in s.core.listed { Then(s0, SlotLooked(s, t, a, slot, todo), t, LeaveRel); }
  }

  /** What that step does. */
  lemma SlotEffect(s: State, t: Tid, a: App, todo: set<nat>, slot: nat, d: Dev)
    requires Inv(s) && At(s.pcs, t) == RelLoop(a, todo) && slot in todo
    requires slot in s.core.table && d == s.core.table[slot]
    ensures var (c, n) := (s.core, SlotDropped(s, t, a, slot, d, todo).core);
      && n == c.(table := n.table, devs := c.devs[d := Dropped(Dv(c.devs, d), a)],
                 apps := c.apps[a := Ap(c.apps, a).(held := Ap(c.apps, a).held - {slot})],
                 rel := if d in c.listed then c.rel + multiset{(a, d)} else c.rel)
  {
    var c := s.core;
    SlotHeld(s, t, a, todo, slot);
    var m := SlotCalled(s, t, a, slot, d, todo).core;
    assert m == c.(rel := if d in c.listed then c.rel + multiset{(a, d)} else c.rel);
    DroppedIs(m, a, slot, d);
  }

  lemma DroppedIs(c: Core, a: App, slot: nat, d: Dev)
    requires Dv(c.devs, d).phase != Freed
    ensures var n := DoDropRef(c, a, slot, d);
      n == c.(table := n.table, devs := c.devs[d := Dropped(Dv(c.devs, d), a)],
              apps := c.apps[a := Ap(c.apps, a).(held := Ap(c.apps, a).held - {slot})])
  {
  }

  lemma SlotBusy(s: State, t: Tid, a: App, slot: nat, d: Dev, todo: set<nat>)
    requires OnlyBusy(s, t)
    ensures var n := SlotDropped(s, t, a, slot, d, todo); OnlyBusy(n, t) && At(n.pcs, t) == RelLoop(a, todo - {slot})
  {
    forall u | u != t ensures At(SlotDropped(s, t, a, slot, d, todo).pcs, u) == Idle { assert At(s.pcs, u) == Idle; }
  }

  lemma ReleaseRound(s0: State, s: State, t: Tid, a: App, todo: set<nat>, slot: nat)
    requires InRelease(s0, s, t, a, todo) && slot in todo
    ensures slot in s.core.table
    ensures InRelease(s0, SlotDropped(s, t, a, slot, s.core.table[slot], todo), t, a, todo - {slot})
  {
    var c, p := s0.core, Ap(s0.core.apps, a);
    SlotHeld(s, t, a, todo, slot);
    var d := s.core.table[slot];
    SlotLeads(s0, s, t, a, todo, slot, d);
    SlotEffect(s, t, a, todo, slot, d);
    SlotBusy(s, t, a, slot, d, todo);
    var done := p.bits.Keys - todo;
    assert p.bits.Keys - (todo - {slot}) == done + {slot};
    GivenMore(c.devs, s.core.devs, a, p, c.ids, done, d);
    OtherCallsMore(c.rel, s.core.rel, a, d);
    OthersMore(c.apps, s.core.apps, a, Ap(s.core.apps, a).(held := Ap(s.core.apps, a).held - {slot}));
  }

  lemma ReleaseBegun(s: State, t: Tid, a: App)
    requires Inv(s) && Quiet(s) && Ap(s.core.apps, a).stage == Registered
    ensures var todo := Ap(s.core.apps, a).bits.Keys;
      InRelease(s, Go(s, DoStartRelease(s.core, t, a), t, RelLoop(a, todo)), t, a, todo)
  {
    var todo := Ap(s.core.apps, a).bits.Keys;
    QuietUnlocked(s);
    Here(s);
    Then(s, s, t, StartRelease(a));
    OnlyBusyGo(s, DoStartRelease(s.core, t, a), t, RelLoop(a, todo));
    assert todo - todo == {};
    GivenNone(s.core, t, a);
  }

  lemma GivenNone(c: Core, t: Tid, a: App)
    ensures GivenBack(c, DoStartRelease(c, t, a), a, {})
  {
  }

  /** The numbers of set bits are below CAPI_MAX_DEVS. */
  lemma SlotBound(s0: State, s: State, t: Tid, a: App, todo: set<nat>, slot: nat)
    requires InRelease(s0, s, t, a, todo) && slot in todo
    ensures slot < s.core.maxDevs
  {
    assert ThreadOk(s.core, t, At(s.pcs, t));
    HeldInTable(s.core, a, slot);
    assert SlotOk(slot, s.core.table[slot], s.core.maxDevs, s.core.ids, s.core.devs);
  }

  function From(bits: set<nat>, i: nat): set<nat> { set k | k in bits && i <= k }

  lemma FromFirst(bits: set<nat>)
    ensures From(bits, 0) == bits
  {
  }

  lemma FromNext(bits: set<nat>, i: nat)
    ensures i in bits <==> i in From(bits, i)
    ensures From(bits, i + 1) == if i in bits then From(bits, i) - {i} else From(bits, i)
  {
  }

  lemma FromLast(s0: State, s: State, t: Tid, a: App, bits: set<nat>)
    requires InRelease(s0, s, t, a, From(bits, s.core.maxDevs))
    ensures From(bits, s.core.maxDevs) == {}
  {
    forall k ensures k !in From(bits, s.core.maxDevs) {
      if k in From(bits, s.core.maxDevs) { SlotBound(s0, s, t, a, From(bits, s.core.maxDevs), k); }
    }
  }

  /** At the end the driver has been called for exactly the listed devices that had accepted a. */
  ghost predicate Called(c: Core, n: Core, a: App) {
    forall d {:trigger n.rel[(a, d)]} ::
      n.rel[(a, d)] == if Bit(Ap(c.apps, a), c.ids, d) && d in c.listed then 1 else 0
  }

  lemma ReleaseEnded(s0: State, s: State, t: Tid, a: App)
    requires InRelease(s0, s, t, a, {})
    ensures var n := Go(s, DoEndRelease(s.core, t, a), t, Idle);
      && Inv(n) && Leads(s0, n) && Quiet(n) && Called(s0.core, n.core, a) && n.core.appls == s0.core.appls - {a}
      && GivenBack(s0.core, n.core, a, Ap(s0.core.apps, a).bits.Keys) && Ap(n.core.apps, a).stage == Released
  {
    Then(s0, s, t, EndRelease);
    OnlyBusyGo(s, DoEndRelease(s.core, t, a), t, Idle);
    forall d
      ensures s.core.rel[(a, d)] == if Bit(Ap(s0.core.apps, a), s0.core.ids, d) && d in s0.core.listed then 1 else 0
    {
      ReleasedOnce(s, t, d);
      assert Bit(Ap(s0.core.apps, a), s0.core.ids, d) == Bit(Ap(s.core.apps, a), s.core.ids, d);
    }
    OthersMore(s0.core.apps, s.core.apps, a, Ap(s.core.apps, a).(stage := Released));
    assert Ap(s0.core.apps, a).bits.Keys - {} == Ap(s0.core.apps, a).bits.Keys;
  }

  /** An application that is released right after it was registered leaves all devices as they were. */
  lemma ReleaseUndoes(c: Core, m: Core, n: Core, a: App, accepts: set<Dev>)
    requires Objects(c) && Ap(c.apps, a).stage == New
    requires RegisteredWith(c, m, a, accepts, c.listed) && GivenBack(m, n, a, Ap(m.apps, a).bits.Keys)
    ensures forall d :: Dv(n.devs, d) == Dv(c.devs, d)
  {
    forall d ensures Dv(n.devs, d) == Dv(c.devs, d) {
      assert Bit(Ap(m.apps, a), m.ids, d) <==> d in c.listed * accepts;
      assert Dv(m.devs, d) == if d in c.listed * accepts then Granted(Dv(c.devs, d), a) else Dv(c.devs, d);
      if d in c.listed * accepts { GrantDrop(c, a, d); }
    }
  }

  lemma GrantDrop(c: Core, a: App, d: Dev)
    requires Objects(c) && Ap(c.apps, a).stage == New && d in c.listed
    ensures Dropped(Granted(Dv(c.devs, d), a), a) == Dv(c.devs, d)
  {
    var r := Dv(c.devs, d);
    assert DevOk(r, d, Id(c.ids, d), c.table, c.listed, c.pub);
    assert AppOk(Ap(c.apps, a), a, c.ids, c.appls, c.lockW);
    assert CallsOk(Ap(c.apps, a), a, r.holders, d, c.ids, c.listed, c.reg[(a, d)], c.rel[(a, d)]);
    assert r.holders + {a} - {a} == r.holders;
  }

  // ----- capi_put_message -----

  function PutLocked(s: State, t: Tid, a: App, slot: nat, d: Dev): State {
    Go(Go(s, s.core, t, PutBit(a, slot)), s.core, t, PutLock(a, slot, d))
  }

  /** The message is handed over, or the device does not take it any more; nothing is changed by either. */
  function PutOver(s: State, t: Tid, a: App, slot: nat, d: Dev): State {
    if Dv(s.core.devs, d).writer then Go(s, s.core, t, Idle)
    else Go(Go(s, DownRead(s.core, t, d), t, PutOp(a, slot, d)), s.core, t, Idle)
  }

  lemma BitMeans(s: State, a: App, slot: nat)
    requires Inv(s) && Quiet(s) && Ap(s.core.apps, a).stage == Registered && slot in Ap(s.core.apps, a).bits
    ensures slot in s.core.table && s.core.table[slot] == Ap(s.core.apps, a).bits[slot]
    ensures var r := Dv(s.core.devs, s.core.table[slot]);
      r.readers == {} && (r.writer <==> !r.phase.Usable()) && r.phase != Freed && s.core.table[slot] in s.core.devs
  {
    BitInTable(s, a, slot);
    var d := s.core.table[slot];
    assert DevOk(Dv(s.core.devs, d), d, Id(s.core.ids, d), s.core.table, s.core.listed, s.core.pub);
    forall u ensures u !in Dv(s.core.devs, d).readers {
      assert ReaderOk(Dv(s.core.devs, d).readers, u, d, At(s.pcs, u)) && At(s.pcs, u) == Idle;
    }
  }

  lemma PutReads(s: State, t: Tid, a: App, slot: nat, d: Dev)
    requires Inv(s) && Quiet(s) && Ap(s.core.apps, a).stage == Registered && slot in Ap(s.core.apps, a).bits
    requires slot in s.core.table && d == s.core.table[slot]
    ensures Inv(PutLocked(s, t, a, slot, d)) && LeadsHanding(s, PutLocked(s, t, a, slot, d), [])
    ensures OnlyBusy(PutLocked(s, t, a, slot, d), t)
  {
    HereHanding(s);
    ThenHanding(s, s, [], t, StartPut(a, slot));
    var n := Go(s, s.core, t, PutBit(a, slot));
    ThenHanding(s, n, [], t, PutRead);
    OnlyBusyGo(s, s.core, t, PutBit(a, slot));
    OnlyBusyGo(n, s.core, t, PutLock(a, slot, d));
  }

  lemma PutEnds(s0: State, s: State, t: Tid, a: App, slot: nat, d: Dev)
    requires Inv(s) && LeadsHanding(s0, s, []) && At(s.pcs, t) == PutLock(a, slot, d)
    requires Dv(s.core.devs, d).phase != Freed && d in s.core.devs && Dv(s.core.devs, d).readers == {} && OnlyBusy(s, t)
    ensures Inv(PutOver(s, t, a, slot, d)) && Quiet(PutOver(s, t, a, slot, d))
    ensures LeadsHanding(s0, PutOver(s, t, a, slot, d), if Dv(s.core.devs, d).writer then [] else [(a, d)])
  {
    if Dv(s.core.devs, d).writer {
      ThenHanding(s0, s, [], t, PutTry(false));
      OnlyBusyGo(s, s.core, t, Idle);
    } else {
      PutEntered(s0, s, t, a, slot, d);
    }
  }

  lemma PutEntered(s0: State, s: State, t: Tid, a: App, slot: nat, d: Dev)
    requires Inv(s) && LeadsHanding(s0, s, []) && At(s.pcs, t) == PutLock(a, slot, d)
    requires Dv(s.core.devs, d).phase != Freed && d in s.core.devs && Dv(s.core.devs, d).readers == {} && OnlyBusy(s, t)
    requires !Dv(s.core.devs, d).writer
    ensures Inv(PutOver(s, t, a, slot, d)) && Quiet(PutOver(s, t, a, slot, d))
    ensures LeadsHanding(s0, PutOver(s, t, a, slot, d), [(a, d)])
  {
    var m := Go(s, DownRead(s.core, t, d), t, PutOp(a, slot, d));
    ThenHanding(s0, s, [], t, PutTry(true));
    ThenHanding(s0, m, [(a, d)], t, EndPut);
    PutLeaves(s, t, a, slot, d);
  }

  lemma PutLeaves(s: State, t: Tid, a: App, slot: nat, d: Dev)
    requires d in s.core.devs && s.core.devs[d].readers == {} && s.core.devs[d].phase != Freed && OnlyBusy(s, t)
    ensures var m := Go(s, DownRead(s.core, t, d), t, PutOp(a, slot, d));
      UpRead(m.core, t, d) == s.core && Quiet(Go(m, s.core, t, Idle))
  {
    var m := Go(s, DownRead(s.core, t, d), t, PutOp(a, slot, d));
    ReadUnread(s.core, t, d);
    OnlyBusyGo(s, m.core, t, PutOp(a, slot, d));
    OnlyBusyGo(m, s.core, t, Idle);
  }

  class Registrar {
    const maxDevs: nat
    var table: map<nat, Dev>
    var ids: map<Dev, nat>
    var devs: map<Dev, Device>
    var listed: set<Dev>
    var appls: set<App>
    var apps: map<App, Appl>
    ghost var pub: set<Dev>
    ghost var lockW: set<Tid>
    ghost var lockR: set<Tid>
    ghost var reg: multiset<(App, Dev)>
    ghost var rel: multiset<(App, Dev)>
    ghost var bug: bool
    ghost var pcs: map<Tid, Pc>

    ghost function Shared(): Core
      reads this
    {
      Core(maxDevs, table, ids, devs, listed, pub, appls, apps, lockW, lockR, reg, rel, bug)
    }

    ghost function Now(): State
      reads this
    {
      State(Shared(), pcs)
    }

    constructor (maxDevs: nat)
      ensures Now() == Init(maxDevs)
    {
      this.maxDevs := maxDevs;
      table, ids, devs, listed, appls, apps := map[], map[], map[], {}, {}, map[];
      pub, lockW, lockR, reg, rel, bug, pcs := {}, {}, {}, multiset{}, multiset{}, false, map[];
    }

    ghost method Goes(t: Tid, pc: Pc)
      modifies this`pcs
      ensures pcs == old(pcs)[t := pc]
    {
      pcs := pcs[t := pc];
    }

    ghost method Touches(d: Dev)
      modifies this`bug
      ensures Shared() == Touch(old(Shared()), d)
    {
      bug := bug || Dv(devs, d).phase == Freed;
    }

    /** drv->capi_register. */
    method DrvRegister(a: App, d: Dev)
      modifies this`reg, this`bug
      ensures Shared() == DoEnter(old(Shared()), a, d)
    {
      Touches(d);
      reg := reg + multiset{(a, d)};
    }

    method SetBit(a: App, d: Dev)
      modifies this`apps, this`bug
      ensures Shared() == DoSetBit(Touch(old(Shared()), d), a, d)
    {
      Touches(d);
      var p, slot := Ap(apps, a), Slot(ids, d);
      apps := apps[a := p.(bits := p.bits[slot := d], pend := p.pend + {slot})];
    }

    method CapiDeviceGet(a: App, d: Dev)
      modifies this`apps, this`devs, this`bug
      ensures Shared() == DoTakeRef(old(Shared()), a, d)
    {
      Touches(d);
      var p, slot := Ap(apps, a), Slot(ids, d);
      apps := apps[a := p.(held := p.held + {slot}, pend := p.pend - {slot})];
      devs := devs[d := Dv(devs, d).(refs := Dv(devs, d).refs + 1, holders := Dv(devs, d).holders + {a})];
    }

    /** drv->capi_register, then the bit and the reference, unless the driver refuses. */
    method RegisterCapiAppl(t: Tid, a: App, d: Dev, ok: bool, ghost caller: Caller)
      modifies this`apps, this`devs, this`reg, this`bug, this`pcs
      ensures Now() == AfterRegister(old(Now()), t, a, d, ok, caller)
    {
      DrvRegister(a, d);
      Goes(t, Enter(a, d, caller));
      if !ok {
        Goes(t, Back(a, d, caller));
        return;
      }
      SetBit(a, d);
      Goes(t, GetRef(a, d, caller));
      CapiDeviceGet(a, d);
      Goes(t, Back(a, d, caller));
    }

    method FinishRegister(t: Tid, a: App)
      modifies this`apps, this`lockR, this`pcs
      ensures Now() == Go(old(Now()), DoEndRegister(old(Shared()), t, a), t, Idle)
    {
      apps := apps[a := Ap(apps, a).(stage := Registered)];
      lockR := lockR - {t};
      pcs := pcs[t := Idle];
    }

    method BeginRegister(t: Tid, a: App)
      modifies this`apps, this`appls, this`lockR, this`pcs
      ensures Now() == Go(old(Now()), DoStartRegister(old(Shared()), t, a), t, RegLoop(a, listed))
    {
      lockR := lockR + {t};
      appls := appls + {a};
      apps := apps[a := Ap(apps, a).(stage := Registering, busy := t)];
      pcs := pcs[t := RegLoop(a, listed)];
    }

    /** capi_register: a is entered, and registered with each listed device in turn. */
    method CapiRegister(t: Tid, a: App, accepts: set<Dev>)
      requires Inv(Now()) && Quiet(Now()) && Ap(apps, a).stage == New
      modifies this
      ensures Inv(Now()) && Quiet(Now()) && Leads(old(Now()), Now())
      ensures RegisteredWith(old(Shared()), Shared(), a, accepts, old(listed)) && Ap(apps, a).stage == Registered
    {
      ghost var s0 := Now();
      RegisterBegun(s0, t, a, accepts);
      BeginRegister(t, a);
      var todo := listed;
      while todo != {}
        invariant InRegister(s0, Now(), t, a, accepts, todo)
      {
        var d :| d in todo;
        RegisterRound(s0, Now(), t, a, accepts, todo, d);
        todo := todo - {d};
        RegisterCapiAppl(t, a, d, d in accepts, FromAppl(todo));
      }
      RegisterEnded(s0, Now(), t, a, accepts);
      FinishRegister(t, a);
    }

    // ----- capi_device_register -----

    method DownWrite(t: Tid, d: Dev)
      modifies this`devs, this`pcs
      ensures Now() == BindStarted(old(Now()), t, d)
    {
      devs := devs[d := Dv(devs, d).(phase := Binding, writer := true, busy := t)];
      pcs := pcs[t := BindStart(d)];
    }

    /** add_capi_device: the first empty slot is taken; 0 if there is none. */
    method AddCapiDevice(t: Tid, d: Dev) returns (id: nat)
      modifies this`table, this`ids, this`lockW, this`devs, this`pcs
      ensures id == 0 ==> forall i :: 0 <= i < maxDevs ==> i in old(table)
      ensures id == 0 ==> Now() == Go(old(Now()), DoLockBindFull(old(Shared()), d), t, Idle)
      ensures id > 0 ==> FirstFree(old(Shared()), id - 1) && Now() == BindLocked(old(Now()), t, d, id - 1)
    {
      var i := 0;
      while i < maxDevs && i in table
        invariant i <= maxDevs && forall j :: 0 <= j < i ==> j in table
      {
        i := i + 1;
      }
      if i == maxDevs {
        devs := devs[d := Dv(devs, d).(phase := Gone)];
        pcs := pcs[t := Idle];
        return 0;
      }
      table := table[i := d];
      ids := ids[d := i + 1];
      lockW := {t};
      pcs := pcs[t := BindLoop(d, appls)];
      return i + 1;
    }

    method UpWrite(t: Tid, d: Dev)
      modifies this`devs, this`pub, this`pcs
      ensures Now() == Go(old(Now()), DoPublish(old(Shared()), d), t, BindUp(d))
    {
      devs := devs[d := Dv(devs, d).(phase := Bound, writer := false)];
      pub := {d};
      pcs := pcs[t := BindUp(d)];
    }

    method ListAddTail(t: Tid, d: Dev)
      modifies this`listed, this`pub, this`lockW, this`pcs
      ensures Now() == Go(old(Now()), DoListAdd(old(Shared()), d), t, Idle)
    {
      listed := listed + {d};
      pub, lockW := {}, {};
      pcs := pcs[t := Idle];
    }

    /** All applications are registered with d in turn. */
    method BindAppls(ghost s0: State, t: Tid, d: Dev, ghost slot: nat, accepts: set<App>)
      requires InBind(s0, Now(), t, d, slot, accepts, appls)
      modifies this`apps, this`devs, this`reg, this`bug, this`pcs
      ensures InBind(s0, Now(), t, d, slot, accepts, {})
    {
      var todo := appls;
      while todo != {}
        invariant InBind(s0, Now(), t, d, slot, accepts, todo)
      {
        var a :| a in todo;
        BindRound(s0, Now(), t, d, slot, accepts, todo, a);
        todo := todo - {a};
        RegisterCapiAppl(t, a, d, a in accepts, FromDev(todo));
      }
    }

    /** capi_device_register up to the registration with sysfs. */
    method CapiDeviceRegister(t: Tid, d: Dev, accepts: set<App>) returns (id: nat)
      requires Inv(Now()) && Quiet(Now()) && Dv(devs, d).phase == Raw
      modifies this
      ensures Inv(Now()) && Quiet(Now()) && Leads(old(Now()), Now())
      ensures id == 0 <==> forall i :: 0 <= i < maxDevs ==> i in old(table)
      ensures id == 0 ==> Shared() == old(Shared()).(devs := devs) && OtherDevs(old(devs), devs, d)
      ensures id == 0 ==> Dv(devs, d) == Dv(old(devs), d).(phase := Gone, writer := true, busy := t)
      ensures id > 0 ==> FirstFree(old(Shared()), id - 1) && listed == old(listed) + {d}
      ensures id > 0 ==> BoundTo(old(Shared()), Shared(), d, id - 1, accepts, old(appls))
    {
      ghost var s0 := Now();
      BindBegun(s0, t, d);
      DownWrite(t, d);
      id := AddCapiDevice(t, d);
      if id == 0 {
        BindRefused(s0, t, d);
        return;
      }
      BindNumbered(s0, t, d, id - 1, accepts);
      BindAppls(s0, t, d, id - 1, accepts);
      BindDone(s0, Now(), t, d, id - 1, accepts);
      UpWrite(t, d);
      ListAddTail(t, d);
    }

    // ----- capi_device_unregister -----

    method CapiDeviceUnregister(t: Tid, d: Dev)
      requires Inv(Now()) && Quiet(Now()) && Dv(devs, d).phase == Bound
      modifies this
      ensures Inv(Now()) && Quiet(Now()) && Leads(old(Now()), Now()) && Over(Now(), d)
      ensures Shared() == old(Shared()).(listed := old(listed) - {d}, devs := devs) && OtherDevs(old(devs), devs, d)
      ensures Dv(devs, d) == Dv(old(devs), d).(phase := Gone, writer := true, busy := t)
    {
      UnregisterLeads(Now(), t, d);
      listed := listed - {d};
      devs := devs[d := Dv(devs, d).(phase := Unlisted, busy := t)];
      pcs := pcs[t := UnregWait(d)];
      devs := devs[d := Dv(devs, d).(phase := Gone, writer := true)];
      pcs := pcs[t := Idle];
    }

    // ----- capi_release -----

    method BeginRelease(t: Tid, a: App)
      modifies this`apps, this`lockR, this`pcs
      ensures Now() == Go(old(Now()), DoStartRelease(old(Shared()), t, a), t, RelLoop(a, Ap(old(apps), a).bits.Keys))
    {
      lockR := lockR + {t};
      pcs := pcs[t := RelLoop(a, Ap(apps, a).bits.Keys)];
      apps := apps[a := Ap(apps, a).(stage := Releasing, busy := t)];
    }

    /** drv->capi_release. */
    ghost method DrvRelease(t: Tid, a: App, slot: nat, d: Dev, todo: set<nat>)
      requires slot in table && table[slot] == d
      modifies this`rel, this`bug, this`pcs
      ensures Now() == SlotCalled(old(Now()), t, a, slot, d, todo)
    {
      Touches(d);
      if d in listed { rel := rel + multiset{(a, d)}; }
      pcs := if d in listed then pcs[t := RelOp(a, slot, d, todo - {slot})] else pcs;
      pcs := pcs[t := RelPut(a, slot, d, todo - {slot})];
    }

    /** The last reference frees the device and its place in the table. */
    method CapiDevicePut(t: Tid, a: App, slot: nat, d: Dev, ghost todo: set<nat>)
      modifies this`apps, this`devs, this`table, this`bug, this`pcs
      ensures Now() == Go(old(Now()), DoDropRef(old(Shared()), a, slot, d), t, RelLoop(a, todo - {slot}))
    {
      Touches(d);
      apps := apps[a := Ap(apps, a).(held := Ap(apps, a).held - {slot})];
      var r := Dv(devs, d);
      r := r.(refs := Pred(r.refs), holders := r.holders - {a});
      if r.refs == 0 {
        r := r.(phase := Freed);
        if Id(ids, d) > 0 {
          ghost var was := table;
          table := table - {Slot(ids, d)};
          assert table == map i | i in was && i != Slot(ids, d) :: was[i];
        }
      }
      devs := devs[d := r];
      pcs := pcs[t := RelLoop(a, todo - {slot})];
    }

    method EndRelease(t: Tid, a: App)
      modifies this`apps, this`appls, this`lockR, this`pcs
      ensures Now() == Go(old(Now()), DoEndRelease(old(Shared()), t, a), t, Idle)
    {
      appls := appls - {a};
      lockR := lockR - {t};
      apps := apps[a := Ap(apps, a).(stage := Released)];
      pcs := pcs[t := Idle];
    }

    method ReleaseFrom(t: Tid, a: App, slot: nat, d: Dev, ghost todo: set<nat>)
      requires slot in table && table[slot] == d
      modifies this`apps, this`devs, this`table, this`rel, this`bug, this`pcs
      ensures Now() == SlotDropped(old(Now()), t, a, slot, d, todo)
    {
      DrvRelease(t, a, slot, d, todo);
      CapiDevicePut(t, a, slot, d, todo);
    }

    /** The step over one set bit. */
    method ReleaseSlot(ghost s0: State, t: Tid, a: App, slot: nat, ghost todo: set<nat>)
      requires InRelease(s0, Now(), t, a, todo) && slot in todo
      modifies this`apps, this`devs, this`table, this`rel, this`bug, this`pcs
      ensures InRelease(s0, Now(), t, a, todo - {slot})
    {
      ReleaseRound(s0, Now(), t, a, todo, slot);
      ReleaseFrom(t, a, slot, table[slot], todo);
    }

    /** The walk over the set bits, in increasing order. */
    method ReleaseAll(ghost s0: State, t: Tid, a: App, bits: set<nat>)
      requires InRelease(s0, Now(), t, a, bits)
      modifies this`apps, this`devs, this`table, this`rel, this`bug, this`pcs
      ensures InRelease(s0, Now(), t, a, {})
    {
      FromFirst(bits);
      for i := 0 to maxDevs
        invariant InRelease(s0, Now(), t, a, From(bits, i))
      {
        FromNext(bits, i);
        if i in bits { ReleaseSlot(s0, t, a, i, From(bits, i)); }
      }
      FromLast(s0, Now(), t, a, bits);
    }

    /** capi_release: the set bits in increasing order. */
    method CapiRelease(t: Tid, a: App)
      requires Inv(Now()) && Quiet(Now()) && Ap(apps, a).stage == Registered
      modifies this
      ensures Inv(Now()) && Quiet(Now()) && Leads(old(Now()), Now())
      ensures GivenBack(old(Shared()), Shared(), a, Ap(old(apps), a).bits.Keys) && Called(old(Shared()), Shared(), a)
      ensures appls == old(appls) - {a} && Ap(apps, a).stage == Released
    {
      ghost var s0 := Now();
      ReleaseBegun(s0, t, a);
      var bits := Ap(apps, a).bits.Keys;
      BeginRelease(t, a);
      ReleaseAll(s0, t, a, bits);
      ReleaseEnded(s0, Now(), t, a);
      EndRelease(t, a);
    }

    // ----- capi_put_message -----

    ghost method LocksFor(t: Tid, a: App, slot: nat, d: Dev)
      modifies this`pcs
      ensures Now() == PutLocked(old(Now()), t, a, slot, d)
    {
      pcs := pcs[t := PutBit(a, slot)];
      pcs := pcs[t := PutLock(a, slot, d)];
    }

    /** down_read_trylock, the driver's capi_put_message, up_read. */
    method Hand(t: Tid, a: App, slot: nat, d: Dev) returns (delivered: bool)
      requires d in devs && devs[d].readers == {}
      modifies this`pcs, this`devs
      ensures Now() == PutOver(old(Now()), t, a, slot, d) && delivered == !old(devs[d].writer)
    {
      delivered := !devs[d].writer;
      if delivered {
        ghost var was := devs;
        var r := devs[d];
        devs := devs[d := r.(readers := r.readers + {t})];
        pcs := pcs[t := PutOp(a, slot, d)];
        devs := devs[d := devs[d].(readers := devs[d].readers - {t})];
        assert devs[d] == r && devs == was;
      }
      pcs := pcs[t := Idle];
    }

    /** The message reaches the driver exactly if the bit is set and the device has not been unregistered: then
        the driver of that device is called once for the application, otherwise none is.  The core is as
        before. */
    method CapiPutMessage(t: Tid, a: App, slot: nat) returns (delivered: bool)
      requires Inv(Now()) && Quiet(Now()) && Ap(apps, a).stage == Registered
      modifies this`pcs, this`devs
      ensures Inv(Now()) && Quiet(Now()) && Leads(old(Now()), Now()) && Shared() == old(Shared())
      ensures var p := Ap(apps, a); delivered <==> slot in p.bits && Dv(devs, p.bits[slot]).phase.Usable()
      ensures LeadsHanding(old(Now()), Now(), if delivered then [(a, Ap(apps, a).bits[slot])] else [])
    {
      ghost var s0 := Now();
      if slot !in Ap(apps, a).bits {
        HereHanding(s0);
        HandingLeads(s0, s0, []);
        return false;
      }
      BitMeans(s0, a, slot);
      var d := table[slot];
      PutReads(s0, t, a, slot, d);
      LocksFor(t, a, slot, d);
      PutEnds(s0, Now(), t, a, slot, d);
      delivered := Hand(t, a, slot, d);
      HandingLeads(s0, Now(), if delivered then [(a, d)] else []);
    }
  }
}
