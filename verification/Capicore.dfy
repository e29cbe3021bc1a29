/** The registry of core.c as interleaved steps of threads that register, release, send messages, query,
    bind and unregister devices.  A step is what one thread does between two points where others can see
    a difference: it takes or drops a lock, enters or leaves a driver operation, or changes shared data. */
module Capicore {

  type Tid = nat
  type App = nat
  type Dev = nat

  // ----- state -----

  /** Raw: allocated.  Binding: capi_device_register has begun and holds dev->sem for writing.  Bound:
      dev->sem is readable.  Unlisted: capi_device_unregister has taken the device off the list.  Gone:
      capi_device_unregister has returned, or no number was free.  Freed: the last reference is gone. */
  datatype Phase = Unborn | Raw | Binding | Bound | Unlisted | Gone | Freed {
    /** The owner still needs the device. */
    predicate Kept() { this == Binding || this == Bound || this == Unlisted }

    /** Some thread may use the device. */
    predicate Usable() { this == Bound || this == Unlisted }

    /** dev->sem is held for writing. */
    predicate Shut() { this == Binding || this == Gone }

    predicate Over() { this == Gone || this == Freed }
  }

  /** refs is the reference counter; ext are the references the owner and others outside the core hold,
      holders the applications register_capi_appl took one for. */
  datatype Device = Device(phase: Phase, refs: nat, ext: nat, holders: set<App>,
                           writer: bool, readers: set<Tid>, busy: Tid)

  datatype Stage = New | Registering | Registered | Releasing | Released {
    predicate Active() { this == Registering || this == Registered }

    /** A thread is at work on the application. */
    predicate Claimed() { this == Registering || this == Releasing }
  }

  /** bits: the numbers set in appl->devs, less one, each with the device it was set for.  A reference is
      held for those in held, and about to be taken for those in pend. */
  datatype Appl = Appl(stage: Stage, bits: map<nat, Dev>, held: set<nat>, pend: set<nat>, busy: Tid)

  /** Who called register_capi_appl, and what is left to do there. */
  datatype Caller = FromAppl(devs: set<Dev>) | FromDev(appls: set<App>)

  datatype Pc =
    | Idle
    | RegLoop(a: App, devs: set<Dev>)
    | Enter(a: App, d: Dev, caller: Caller)   // inside drv->capi_register
    | GetRef(a: App, d: Dev, caller: Caller)  // the bit is set, the reference not yet taken
    | BindStart(d: Dev)
    | BindLoop(d: Dev, appls: set<App>)
    | BindUp(d: Dev)
    | UnregWait(d: Dev)
    | RelLoop(a: App, slots: set<nat>)
    | RelOp(a: App, slot: nat, d: Dev, slots: set<nat>)  // inside drv->capi_release
    | RelPut(a: App, slot: nat, d: Dev, slots: set<nat>)
    | PutBit(a: App, slot: nat)
    | PutLock(a: App, slot: nat, d: Dev)
    | PutOp(a: App, slot: nat, d: Dev)        // inside drv->capi_put_message
    | Query(d: Dev)

  /** What the threads share.  table is capi_devs_table, ids the numbers in the devices, listed
      capi_devs_list, appls capi_appls_list; lockW and lockR are the holders of capi_devs_list_sem.  pub is
      the device that is readable but not yet listed.  reg and rel count the driver calls; bug is a BUG_ON
      that fired or a freed device that was used. */
  datatype Core = Core(
    maxDevs: nat, table: map<nat, Dev>, ids: map<Dev, nat>, devs: map<Dev, Device>, listed: set<Dev>, pub: set<Dev>,
    appls: set<App>, apps: map<App, Appl>, lockW: set<Tid>, lockR: set<Tid>,
    reg: multiset<(App, Dev)>, rel: multiset<(App, Dev)>, bug: bool)

  datatype State = State(core: Core, pcs: map<Tid, Pc>)

  function Dv(devs: map<Dev, Device>, d: Dev): Device {
    if d in devs then devs[d] else Device(Unborn, 0, 0, {}, false, {}, 0)
  }

  function Ap(apps: map<App, Appl>, a: App): Appl {
    if a in apps then apps[a] else Appl(New, map[], {}, {}, 0)
  }

  function Id(ids: map<Dev, nat>, d: Dev): nat { if d in ids then ids[d] else 0 }

  function Slot(ids: map<Dev, nat>, d: Dev): nat { if Id(ids, d) > 0 then Id(ids, d) - 1 else 0 }

  function At(pcs: map<Tid, Pc>, t: Tid): Pc { if t in pcs then pcs[t] else Idle }

  /** The bit for device d is set in application p. */
  predicate Bit(p: Appl, ids: map<Dev, nat>, d: Dev) {
    Id(ids, d) > 0 && Slot(ids, d) in p.bits && p.bits[Slot(ids, d)] == d
  }

  function Init(maxDevs: nat): State {
    State(Core(maxDevs, map[], map[], map[], {}, {}, {}, map[], {}, {}, multiset{}, multiset{}, false), map[])
  }

  // ----- steps -----

  datatype Step =
    | Alloc(d: Dev)
    | ExtGet(d: Dev)
    | ExtPut(d: Dev)
    | StartRegister(a: App)
    | EnterDev(d: Dev)
    | LeaveReg(ok: bool)
    | TakeRef
    | EndRegister
    | StartBind(d: Dev)
    | LockBind(slot: nat)
    | LockBindFull
    | EnterAppl(a: App)
    | Publish
    | ListAdd
    | Unlist(d: Dev)
    | Quiesce
    | StartRelease(a: App)
    | RelSlot(slot: nat)
    | LeaveRel
    | DropRef
    | EndRelease
    | StartPut(a: App, slot: nat)
    | PutRead
    | PutTry(got: bool)
    | EndPut
    | TryGet(slot: nat)
    | EndQuery

  /** The thread runs inside a call of capi_put_message for a. */
  predicate Putting(pc: Pc, a: App) {
    (pc.PutBit? || pc.PutLock? || pc.PutOp?) && pc.a == a
  }

  /** When thread t, at pc, can take step x.  The conditions are those of the code and its locks, and what
      the documentation asks of callers: a device is registered and unregistered once, its owner keeps a
      reference until unregistering has returned, an application is registered once, sends messages only
      while it is registered, and is not released while a message is being sent for it. */
  ghost predicate Can(s: State, t: Tid, x: Step) {
    var (c, pc) := (s.core, At(s.pcs, t));
    match x
    case Alloc(d) => Dv(c.devs, d).phase == Unborn
    case ExtGet(d) => Dv(c.devs, d).ext > 0
    case ExtPut(d) => CanExtPut(c, d)
    case StartRegister(a) => pc == Idle && c.lockW == {} && Ap(c.apps, a).stage == New
    case EnterDev(d) => pc.RegLoop? && d in pc.devs
    case LeaveReg(_) => pc.Enter?
    case TakeRef => pc.GetRef?
    case EndRegister => pc.RegLoop? && pc.devs == {}
    case StartBind(d) => pc == Idle && Dv(c.devs, d).phase == Raw
    case LockBind(slot) => pc.BindStart? && c.lockW == c.lockR == {} && FirstFree(c, slot)
    case LockBindFull => pc.BindStart? && c.lockW == c.lockR == {} && forall i :: 0 <= i < c.maxDevs ==> i in c.table
    case EnterAppl(a) => pc.BindLoop? && a in pc.appls
    case Publish => pc.BindLoop? && pc.appls == {}
    case ListAdd => pc.BindUp?
    case Unlist(d) => pc == Idle && c.lockW == c.lockR == {} && Dv(c.devs, d).phase == Bound
    case Quiesce => pc.UnregWait? && Dv(c.devs, pc.d).readers == {}
    case StartRelease(a) =>
      pc == Idle && c.lockW == {} && Ap(c.apps, a).stage == Registered && forall u :: !Putting(At(s.pcs, u), a)
    case RelSlot(slot) => pc.RelLoop? && slot in pc.slots
    case LeaveRel => pc.RelOp?
    case DropRef => pc.RelPut?
    case EndRelease => pc.RelLoop? && pc.slots == {}
    case StartPut(a, _) => pc == Idle && Ap(c.apps, a).stage == Registered
    case PutRead => pc.PutBit?
    case PutTry(got) => pc.PutLock? && (got ==> !Dv(c.devs, pc.d).writer)
    case EndPut => pc.PutOp?
    case TryGet(slot) => pc == Idle && slot in c.table && !Dv(c.devs, c.table[slot]).writer
    case EndQuery => pc.Query?
  }

  predicate CanExtPut(c: Core, d: Dev) {
    Dv(c.devs, d).ext > if Dv(c.devs, d).phase.Kept() then 1 else 0
  }

  predicate FirstFree(c: Core, slot: nat) {
    slot < c.maxDevs && slot !in c.table && forall i :: 0 <= i < slot ==> i in c.table
  }

  function WithDev(c: Core, d: Dev, r: Device): Core { c.(devs := c.devs[d := r]) }

  function WithApp(c: Core, a: App, p: Appl): Core { c.(apps := c.apps[a := p]) }

  /** Some field of d is used. */
  function Touch(c: Core, d: Dev): Core {
    c.(bug := c.bug || Dv(c.devs, d).phase == Freed)
  }

  /** capi_device_put, where r is the device without the reference: the last one frees it and its number. */
  function Put(c: Core, d: Dev, r: Device): Core {
    if r.refs == 0 then
      c.(devs := c.devs[d := r.(phase := Freed)],
         table := if Id(c.ids, d) > 0 then map i | i in c.table && i != Slot(c.ids, d) :: c.table[i] else c.table)
    else WithDev(c, d, r)
  }

  function Pred(n: nat): nat { if n > 0 then n - 1 else 0 }

  function DoAlloc(c: Core, d: Dev): Core { WithDev(c, d, Device(Raw, 1, 1, {}, false, {}, 0)) }

  function DoExtGet(c: Core, d: Dev): Core {
    var r := Dv(c.devs, d);
    WithDev(c, d, r.(refs := r.refs + 1, ext := r.ext + 1))
  }

  function DoExtPut(c: Core, d: Dev): Core {
    var r := Dv(c.devs, d);
    Put(Touch(c, d), d, r.(refs := Pred(r.refs), ext := Pred(r.ext)))
  }

  function DoStartRegister(c: Core, t: Tid, a: App): Core {
    WithApp(c.(lockR := c.lockR + {t}, appls := c.appls + {a}), a, Ap(c.apps, a).(stage := Registering, busy := t))
  }

  /** The call of drv->capi_register for a and d. */
  function DoEnter(c: Core, a: App, d: Dev): Core {
    Touch(c, d).(reg := c.reg + multiset{(a, d)})
  }

  function DoSetBit(c: Core, a: App, d: Dev): Core {
    var (p, slot) := (Ap(c.apps, a), Slot(c.ids, d));
    WithApp(c, a, p.(bits := p.bits[slot := d], pend := p.pend + {slot}))
  }

  function DoTakeRef(c: Core, a: App, d: Dev): Core {
    var (p, r, slot) := (Ap(c.apps, a), Dv(c.devs, d), Slot(c.ids, d));
    WithDev(WithApp(Touch(c, d), a, p.(held := p.held + {slot}, pend := p.pend - {slot})),
            d, r.(refs := r.refs + 1, holders := r.holders + {a}))
  }

  function Back(a: App, d: Dev, caller: Caller): Pc {
    match caller
    case FromAppl(devs) => RegLoop(a, devs)
    case FromDev(appls) => BindLoop(d, appls)
  }

  function DoEndRegister(c: Core, t: Tid, a: App): Core {
    WithApp(c.(lockR := c.lockR - {t}), a, Ap(c.apps, a).(stage := Registered))
  }

  function DoStartBind(c: Core, t: Tid, d: Dev): Core {
    WithDev(c, d, Dv(c.devs, d).(phase := Binding, writer := true, busy := t))
  }

  function DoLockBind(c: Core, t: Tid, d: Dev, slot: nat): Core {
    c.(lockW := {t}, table := c.table[slot := d], ids := c.ids[d := slot + 1])
  }

  function DoLockBindFull(c: Core, d: Dev): Core { WithDev(c, d, Dv(c.devs, d).(phase := Gone)) }

  function DoPublish(c: Core, d: Dev): Core {
    WithDev(c.(pub := {d}), d, Dv(c.devs, d).(phase := Bound, writer := false))
  }

  function DoListAdd(c: Core, d: Dev): Core { c.(lockW := {}, listed := c.listed + {d}, pub := {}) }

  function DoUnlist(c: Core, t: Tid, d: Dev): Core {
    WithDev(c.(listed := c.listed - {d}), d, Dv(c.devs, d).(phase := Unlisted, busy := t))
  }

  function DoQuiesce(c: Core, d: Dev): Core {
    WithDev(c, d, Dv(c.devs, d).(phase := Gone, writer := true))
  }

  function DoStartRelease(c: Core, t: Tid, a: App): Core {
    WithApp(c.(lockR := c.lockR + {t}), a, Ap(c.apps, a).(stage := Releasing, busy := t))
  }

  function DoRelSlot(c: Core, a: App, slot: nat): Core {
    if slot !in c.table then c.(bug := true)
    else
      var d := c.table[slot];
      if d in c.listed then Touch(c, d).(rel := c.rel + multiset{(a, d)}) else Touch(c, d)
  }

  function RelSlotPc(c: Core, a: App, slot: nat, slots: set<nat>): Pc {
    if slot !in c.table then RelLoop(a, slots)
    else
      var d := c.table[slot];
      if d in c.listed then RelOp(a, slot, d, slots - {slot}) else RelPut(a, slot, d, slots - {slot})
  }

  function DoDropRef(c: Core, a: App, slot: nat, d: Dev): Core {
    var (p, r) := (Ap(c.apps, a), Dv(c.devs, d));
    Put(WithApp(Touch(c, d), a, p.(held := p.held - {slot})), d, r.(refs := Pred(r.refs), holders := r.holders - {a}))
  }

  function DoEndRelease(c: Core, t: Tid, a: App): Core {
    WithApp(c.(lockR := c.lockR - {t}, appls := c.appls - {a}), a, Ap(c.apps, a).(stage := Released))
  }

  function DownRead(c: Core, t: Tid, d: Dev): Core {
    WithDev(Touch(c, d), d, Dv(c.devs, d).(readers := Dv(c.devs, d).readers + {t}))
  }

  function UpRead(c: Core, t: Tid, d: Dev): Core {
    WithDev(Touch(c, d), d, Dv(c.devs, d).(readers := Dv(c.devs, d).readers - {t}))
  }

  /** Thread t goes on at pc, having changed what is shared to c. */
  function Go(s: State, c: Core, t: Tid, pc: Pc): State { State(c, s.pcs[t := pc]) }

  ghost function Do(s: State, t: Tid, x: Step): State
    requires Can(s, t, x)
  {
    var (c, pc) := (s.core, At(s.pcs, t));
    match x
    case Alloc(d) => s.(core := DoAlloc(c, d))
    case ExtGet(d) => s.(core := DoExtGet(c, d))
    case ExtPut(d) => s.(core := DoExtPut(c, d))
    case StartRegister(a) => Go(s, DoStartRegister(c, t, a), t, RegLoop(a, c.listed))
    case EnterDev(d) => Go(s, DoEnter(c, pc.a, d), t, Enter(pc.a, d, FromAppl(pc.devs - {d})))
    case LeaveReg(ok) =>
      if ok then Go(s, DoSetBit(Touch(c, pc.d), pc.a, pc.d), t, GetRef(pc.a, pc.d, pc.caller))
      else Go(s, c, t, Back(pc.a, pc.d, pc.caller))
    case TakeRef => Go(s, DoTakeRef(c, pc.a, pc.d), t, Back(pc.a, pc.d, pc.caller))
    case EndRegister => Go(s, DoEndRegister(c, t, pc.a), t, Idle)
    case StartBind(d) => Go(s, DoStartBind(c, t, d), t, BindStart(d))
    case LockBind(slot) => Go(s, DoLockBind(c, t, pc.d, slot), t, BindLoop(pc.d, c.appls))
    case LockBindFull => Go(s, DoLockBindFull(c, pc.d), t, Idle)
    case EnterAppl(a) => Go(s, DoEnter(c, a, pc.d), t, Enter(a, pc.d, FromDev(pc.appls - {a})))
    case Publish => Go(s, DoPublish(c, pc.d), t, BindUp(pc.d))
    case ListAdd => Go(s, DoListAdd(c, pc.d), t, Idle)
    case Unlist(d) => Go(s, DoUnlist(c, t, d), t, UnregWait(d))
    case Quiesce => Go(s, DoQuiesce(c, pc.d), t, Idle)
    case StartRelease(a) => Go(s, DoStartRelease(c, t, a), t, RelLoop(a, Ap(c.apps, a).bits.Keys))
    case RelSlot(slot) => Go(s, DoRelSlot(c, pc.a, slot), t, RelSlotPc(c, pc.a, slot, pc.slots))
    case LeaveRel => Go(s, c, t, RelPut(pc.a, pc.slot, pc.d, pc.slots))
    case DropRef => Go(s, DoDropRef(c, pc.a, pc.slot, pc.d), t, RelLoop(pc.a, pc.slots))
    case EndRelease => Go(s, DoEndRelease(c, t, pc.a), t, Idle)
    case StartPut(a, slot) => if slot in Ap(c.apps, a).bits then Go(s, c, t, PutBit(a, slot)) else s
    case PutRead =>
      if pc.slot in c.table then Go(s, c, t, PutLock(pc.a, pc.slot, c.table[pc.slot]))
      else s.(core := c.(bug := true))
    case PutTry(got) =>
      if got then Go(s, DownRead(c, t, pc.d), t, PutOp(pc.a, pc.slot, pc.d)) else Go(s, Touch(c, pc.d), t, Idle)
    case EndPut => Go(s, UpRead(c, t, pc.d), t, Idle)
    case TryGet(slot) => Go(s, DownRead(c, t, c.table[slot]), t, Query(c.table[slot]))
    case EndQuery => Go(s, UpRead(c, t, pc.d), t, Idle)
  }

  // ----- what every step keeps -----

  predicate Reads(pc: Pc) {
    pc.RegLoop? || pc.RelLoop? || pc.RelOp? || pc.RelPut? || ((pc.Enter? || pc.GetRef?) && pc.caller.FromAppl?)
  }

  predicate Writes(pc: Pc) {
    pc.BindLoop? || pc.BindUp? || ((pc.Enter? || pc.GetRef?) && pc.caller.FromDev?)
  }

  /** capi_devs_list_sem is held by the threads that are where it is held, by one writer or by readers. */
  ghost predicate LockOk(lockW: set<Tid>, lockR: set<Tid>, t: Tid, pc: Pc) {
    && (t in lockR <==> Reads(pc)) && (t in lockW <==> Writes(pc))
    && (t in lockW ==> lockR == {} && lockW == {t})
  }

  /** dev->sem is held for reading by the threads inside capi_put_message or a query for it. */
  ghost predicate ReaderOk(readers: set<Tid>, t: Tid, d: Dev, pc: Pc) {
    t in readers <==> (pc.PutOp? || pc.Query?) && pc.d == d
  }

  ghost predicate DevOk(r: Device, d: Dev, id: nat, table: map<nat, Dev>, listed: set<Dev>, pub: set<Dev>) {
    && (d in listed || d in pub <==> r.phase == Bound)
    && (r.phase.Shut() ==> r.writer) && (r.phase == Raw || r.phase.Usable() ==> !r.writer)
    && (r.readers != {} ==> r.phase.Usable())
    && (r.phase.Kept() ==> r.ext >= 1)
    && (r.phase.Usable() ==> id > 0) && (r.phase == Unborn || r.phase == Raw ==> id == 0)
    && r.refs == r.ext + |r.holders| && (r.refs == 0 <==> r.phase == Unborn || r.phase == Freed)
    && (id > 0 && r.phase != Freed ==> id - 1 in table && table[id - 1] == d)
    && (id == 0 ==> r.holders == {})
  }

  ghost predicate SlotOk(i: nat, d: Dev, maxDevs: nat, ids: map<Dev, nat>, devs: map<Dev, Device>) {
    i < maxDevs && Id(ids, d) == i + 1 && Dv(devs, d).phase != Freed
  }

  ghost predicate AppOk(p: Appl, a: App, ids: map<Dev, nat>, appls: set<App>, lockW: set<Tid>) {
    && (a in appls <==> p.stage.Active() || p.stage == Releasing)
    && (p.stage == New ==> p.bits == map[]) && p.bits.Keys >= p.held + p.pend && p.held !! p.pend
    && (p.stage.Active() ==> p.bits.Keys == p.held + p.pend)
    && (p.stage == Releasing || p.stage == Released ==> p.pend == {}) && (p.stage == Released ==> p.held == {})
    && (p.stage == Registered && lockW == {} ==> p.pend == {})
    && forall i <- p.bits :: Id(ids, p.bits[i]) == i + 1
  }

  /** The driver calls for a pair: at most one capi_register, none before either side has begun, exactly one
      once both are there.  And a device counts the applications that hold it. */
  ghost predicate CallsOk(p: Appl, a: App, holders: set<App>, d: Dev, ids: map<Dev, nat>, listed: set<Dev>,
                          reg: nat, rel: nat) {
    && reg <= 1
    && (p.stage == New || Id(ids, d) == 0 ==> reg == 0)
    && (p.stage == Registered && d in listed ==> reg == 1)
    && (Bit(p, ids, d) ==> reg == 1)
    && (a in holders <==> Bit(p, ids, d) && Slot(ids, d) in p.held)
    && (p.stage == New || p.stage.Active() ==> rel == 0)
  }

  /** The thread walking the device list for a: what it still has to do has not been done. */
  ghost predicate WalkOk(c: Core, t: Tid, a: App, todo: set<Dev>, pend: set<nat>) {
    && Ap(c.apps, a).stage == Registering && Ap(c.apps, a).busy == t && Ap(c.apps, a).pend == pend && todo <= c.listed
    && forall d <- c.listed :: c.reg[(a, d)] == if d in todo then 0 else 1
  }

  /** The thread walking the application list for d. */
  ghost predicate BindOk(c: Core, d: Dev, todo: set<App>) {
    && Dv(c.devs, d).phase == Binding && Id(c.ids, d) > 0 && todo <= c.appls && c.pub == {}
    && forall a <- c.appls :: c.reg[(a, d)] == if a in todo then 0 else 1
  }

  ghost predicate NonePending(c: Core, but: set<App>) {
    forall a {:trigger Ap(c.apps, a)} :: a in c.appls && a !in but ==> Ap(c.apps, a).pend == {}
  }

  /** The thread releasing a: references are held exactly for what is left, and capi_release has been called
      exactly for what is done, was registered and is listed. */
  ghost predicate FreeOk(c: Core, t: Tid, a: App, todo: set<nat>, left: set<nat>) {
    var p := Ap(c.apps, a);
    && p.stage == Releasing && p.busy == t && p.held == left
    && forall d :: c.rel[(a, d)] == if Bit(p, c.ids, d) && Slot(c.ids, d) !in todo && d in c.listed then 1 else 0
  }

  /** The bit for slot is set, and was set for d. */
  ghost predicate BitIs(c: Core, a: App, slot: nat, d: Dev) {
    slot in Ap(c.apps, a).bits && Ap(c.apps, a).bits[slot] == d
  }

  ghost predicate ThreadOk(c: Core, t: Tid, pc: Pc) {
    match pc
    case Idle => true
    case RegLoop(a, devs) => WalkOk(c, t, a, devs, {})
    case Enter(a, d, FromAppl(devs)) =>
      WalkOk(c, t, a, devs, {}) && d in c.listed && d !in devs && !Bit(Ap(c.apps, a), c.ids, d)
    case GetRef(a, d, FromAppl(devs)) =>
      WalkOk(c, t, a, devs, {Slot(c.ids, d)}) && d in c.listed && d !in devs && Bit(Ap(c.apps, a), c.ids, d)
    case BindStart(d) => Dv(c.devs, d).phase == Binding && Id(c.ids, d) == 0 && Dv(c.devs, d).busy == t
    case BindLoop(d, appls) => BindOk(c, d, appls) && NonePending(c, {})
    case Enter(a, d, FromDev(appls)) =>
      && BindOk(c, d, appls) && NonePending(c, {}) && a in c.appls && a !in appls && !Bit(Ap(c.apps, a), c.ids, d)
    case GetRef(a, d, FromDev(appls)) =>
      && BindOk(c, d, appls) && NonePending(c, {a}) && a in c.appls && a !in appls && Bit(Ap(c.apps, a), c.ids, d)
      && Ap(c.apps, a).pend == {Slot(c.ids, d)}
    case BindUp(d) => c.pub == {d} && d !in c.listed && NonePending(c, {}) && forall a <- c.appls :: c.reg[(a, d)] == 1
    case UnregWait(d) => Dv(c.devs, d).phase == Unlisted && Dv(c.devs, d).busy == t
    case RelLoop(a, slots) => FreeOk(c, t, a, slots, slots)
    case RelOp(a, slot, d, slots) =>
      FreeOk(c, t, a, slots, slots + {slot}) && slot !in slots && BitIs(c, a, slot, d) && d in c.listed
    case RelPut(a, slot, d, slots) =>
      FreeOk(c, t, a, slots, slots + {slot}) && slot !in slots && BitIs(c, a, slot, d)
    case PutBit(a, slot) => Ap(c.apps, a).stage == Registered && slot in Ap(c.apps, a).bits
    case PutLock(a, slot, d) => Ap(c.apps, a).stage == Registered && BitIs(c, a, slot, d)
    case PutOp(a, slot, d) => Ap(c.apps, a).stage == Registered && BitIs(c, a, slot, d)
    case Query(d) => true
  }

  ghost predicate Locks(lockW: set<Tid>, lockR: set<Tid>, pcs: map<Tid, Pc>) {
    forall t {:trigger LockOk(lockW, lockR, t, At(pcs, t))} :: LockOk(lockW, lockR, t, At(pcs, t))
  }

  ghost predicate Readers(devs: map<Dev, Device>, pcs: map<Tid, Pc>) {
    forall t, d {:trigger ReaderOk(Dv(devs, d).readers, t, d, At(pcs, t))} ::
      ReaderOk(Dv(devs, d).readers, t, d, At(pcs, t))
  }

  ghost predicate Devs(devs: map<Dev, Device>, ids: map<Dev, nat>, table: map<nat, Dev>,
                       listed: set<Dev>, pub: set<Dev>) {
    forall d {:trigger DevOk(Dv(devs, d), d, Id(ids, d), table, listed, pub)} ::
      DevOk(Dv(devs, d), d, Id(ids, d), table, listed, pub)
  }

  ghost predicate Slots(table: map<nat, Dev>, maxDevs: nat, ids: map<Dev, nat>, devs: map<Dev, Device>) {
    forall i {:trigger SlotOk(i, table[i], maxDevs, ids, devs)} ::
      i in table ==> SlotOk(i, table[i], maxDevs, ids, devs)
  }

  ghost predicate Apps(apps: map<App, Appl>, ids: map<Dev, nat>, appls: set<App>, lockW: set<Tid>) {
    forall a {:trigger AppOk(Ap(apps, a), a, ids, appls, lockW)} :: AppOk(Ap(apps, a), a, ids, appls, lockW)
  }

  ghost predicate Calls(apps: map<App, Appl>, devs: map<Dev, Device>, ids: map<Dev, nat>, listed: set<Dev>,
                        reg: multiset<(App, Dev)>, rel: multiset<(App, Dev)>) {
    forall a, d
      {:trigger CallsOk(Ap(apps, a), a, Dv(devs, d).holders, d, ids, listed, reg[(a, d)], rel[(a, d)])} ::
      CallsOk(Ap(apps, a), a, Dv(devs, d).holders, d, ids, listed, reg[(a, d)], rel[(a, d)])
  }

  ghost predicate Threads(c: Core, pcs: map<Tid, Pc>) {
    forall t {:trigger ThreadOk(c, t, At(pcs, t))} :: ThreadOk(c, t, At(pcs, t))
  }

  predicate About(pc: Pc, a: App) {
    && (pc.RegLoop? || pc.Enter? || pc.GetRef? || pc.RelLoop? || pc.RelOp? || pc.RelPut?
        || pc.PutBit? || pc.PutLock? || pc.PutOp?)
    && pc.a == a
  }

  /** An application that is registering or being released is worked on by a thread. */
  ghost predicate OwnerOk(p: Appl, a: App, pc: Pc) {
    p.stage.Claimed() ==> Reads(pc) && About(pc, a)
  }

  ghost predicate Owners(apps: map<App, Appl>, pcs: map<Tid, Pc>) {
    forall a {:trigger OwnerOk(Ap(apps, a), a, At(pcs, Ap(apps, a).busy))} ::
      OwnerOk(Ap(apps, a), a, At(pcs, Ap(apps, a).busy))
  }

  ghost predicate Objects(c: Core) {
    && !c.bug && (c.lockW == {} ==> c.pub == {})
    && Devs(c.devs, c.ids, c.table, c.listed, c.pub) && Slots(c.table, c.maxDevs, c.ids, c.devs)
    && Apps(c.apps, c.ids, c.appls, c.lockW) && Calls(c.apps, c.devs, c.ids, c.listed, c.reg, c.rel)
  }

  ghost predicate Inv(s: State) {
    && Objects(s.core) && Threads(s.core, s.pcs)
    && Locks(s.core.lockW, s.core.lockR, s.pcs) && Readers(s.core.devs, s.pcs)
    && Owners(s.core.apps, s.pcs)
  }

  lemma InitInv(maxDevs: nat)
    ensures Inv(Init(maxDevs))
  {
  }
}
