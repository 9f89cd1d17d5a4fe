/** Registration rundown: a count of tracked handles, a table of wakers, any number of
    guards being dropped and any number of `WaitIdle` futures being polled. Every
    atomic operation and every critical section is one step. */
module Rundown {
  import opened Options

  /** The waker cloned by one poll of one waiter. */
  datatype Ticket = Ticket(waiter: nat, poll: nat)

  /** A native handle: not open yet; open, owned by the native side and only borrowed by a
      listener callback; open, a value of its own beside its guard; open, in one struct
      with it; closed. */
  datatype Handle = Unopened | Borrowed | Loose | Wrapped | Shut

  /** The unit of its guard: none reserved yet, held, given back by whoever has to drain,
      drained and waking, dropped for good. */
  datatype Stage = Bare | Holding | MustDrain | Waking(batch: set<Ticket>) | Gone

  /** One native handle and the guard for it. A handle that the native side handed to a
      callback of a listener names that listener in `host`; `over` says that this callback
      has returned. */
  datatype Guard = Guard(handle: Handle, stage: Stage, host: Option<nat>, over: bool)
  {
    predicate Open() { handle.Borrowed? || handle.Loose? || handle.Wrapped? }
    /** The guard of a handle that the adapter opens itself. */
    static function Fresh(): Guard { Guard(Unopened, Holding, None, true) }
  }

  datatype Pc = Resting | Loading | Registering | Rechecking | Leaving | Parked | Ready | Dropped

  datatype Waiter = Waiter(pc: Pc, key: Option<nat>, poll: nat, woken: bool)

  datatype World = World(
    active: int,
    next: nat,
    table: map<nat, Ticket>,
    guards: seq<Guard>,
    waiters: seq<Waiter>)

  const INIT: World := World(0, 0, map[], [], [])

  datatype Label =
    | Reserve
    | Arrive(listener: nat)
    | ReserveFor(g: nat)
    | OpenHandle(g: nat)
    | TakeHandle(g: nat)
    | WrapHandle(g: nat)
    | CloseHandle(g: nat)
    | Release(g: nat)
    | ReleaseBorrowed(g: nat)
    | ReleaseLoose(g: nat)
    | CallbackOver(g: nat)
    | NativeCloses(g: nat)
    | Drain(g: nat)
    | Wake(g: nat, ticket: Ticket)
    | Finish(g: nat)
    | NewWaiter
    | StartPoll(i: nat)
    | FastLoad(i: nat)
    | Register(i: nat)
    | Recheck(i: nat)
    | Deregister(i: nat)
    | DropWaiter(i: nat)

  predicate OfGuard(l: Label) {
    || OfHandle(l) || l.ReserveFor? || l.Release? || l.ReleaseBorrowed? || l.ReleaseLoose?
    || l.Drain? || l.Wake? || l.Finish?
  }

  /** Steps that touch the handle or its callback, not the unit. */
  predicate OfHandle(l: Label) {
    l.OpenHandle? || l.TakeHandle? || l.WrapHandle? || l.CloseHandle? || l.CallbackOver? || l.NativeCloses?
  }

  predicate OfWaiter(l: Label) {
    l.StartPoll? || l.FastLoad? || l.Register? || l.Recheck? || l.Deregister? || l.DropWaiter?
  }

  /** A wrapped handle is closed before its guard lets go, and so is one that the adapter
      opened itself: there the guard is the older value. A handle that `attach` was given
      as a parameter may be closed before or after its guard is dropped, whichever way the
      frame is left. A callback that never takes its handle drops the guard, if it got to
      reserve one, and the native side closes the handle after the callback returned. */
  predicate GuardEnabled(u: Guard, l: Label)
    requires OfGuard(l)
  {
    match l
    case ReserveFor(_) => u.stage.Bare? && !u.over
    case OpenHandle(_) => u.handle.Unopened? && u.stage.Holding?
    case TakeHandle(_) => u.handle.Borrowed? && u.stage.Holding?
    case WrapHandle(_) => u.handle.Loose? && u.stage.Holding?
    case CloseHandle(_) =>
      ((u.handle.Loose? || u.handle.Wrapped?) && u.stage.Holding?) || (u.handle.Loose? && u.stage.Gone?)
    case Release(_) => u.stage.Holding? && !u.Open()
    case ReleaseBorrowed(_) => u.stage.Holding? && u.handle.Borrowed?
    case ReleaseLoose(_) => u.stage.Holding? && u.handle.Loose? && u.host.Some?
    case CallbackOver(_) => !u.over && CallbackDone(u)
    case NativeCloses(_) => u.over && u.handle.Borrowed?
    case Drain(_) => u.stage.MustDrain?
    case Wake(_, t) => u.stage.Waking? && t in u.stage.batch
    case Finish(_) => u.stage.Waking? && u.stage.batch == {}
  }

  /** The callback took its handle and wrapped or closed it, or left it alone. Whoever
      received a delivered connection may already be dropping it. */
  predicate CallbackDone(u: Guard) {
    || u.handle.Wrapped? || u.handle.Shut?
    || (u.handle.Borrowed? && (u.stage.Bare? || u.stage.Gone?))
  }

  /** A future may be polled again at any time, also without having been woken. */
  predicate WaiterEnabled(x: Waiter, l: Label)
    requires OfWaiter(l)
  {
    match l
    case StartPoll(_) => x.pc.Resting? || x.pc.Parked? || x.pc.Ready?
    case FastLoad(_) => x.pc.Loading?
    case Register(_) => x.pc.Registering?
    case Recheck(_) => x.pc.Rechecking?
    case Deregister(_) => x.pc.Leaving?
    case DropWaiter(_) => x.pc.Resting? || x.pc.Parked? || x.pc.Ready?
  }

  predicate Enabled(w: World, l: Label) {
    if OfGuard(l) then l.g < |w.guards| && GuardEnabled(w.guards[l.g], l)
    else if OfWaiter(l) then l.i < |w.waiters| && WaiterEnabled(w.waiters[l.i], l)
    else l.Arrive? ==> l.listener < |w.guards| && w.guards[l.listener].handle.Wrapped?
  }

  function SetGuard(w: World, g: nat, u: Guard): World
    requires g < |w.guards|
  {
    w.(guards := w.guards[g := u])
  }

  function SetStage(w: World, g: nat, stage: Stage): World
    requires g < |w.guards|
  {
    SetGuard(w, g, w.guards[g].(stage := stage))
  }

  function SetHandle(w: World, g: nat, handle: Handle): World
    requires g < |w.guards|
  {
    SetGuard(w, g, w.guards[g].(handle := handle))
  }

  function SetWaiter(w: World, i: nat, x: Waiter): World
    requires i < |w.waiters|
  {
    w.(waiters := w.waiters[i := x])
  }

  /** `fetch_sub`: whoever takes the count from one to zero has to drain. */
  function ReleaseGuard(w: World, g: nat): World
    requires g < |w.guards|
  {
    SetStage(w, g, if w.active == 1 then MustDrain else Gone).(active := w.active - 1)
  }

  function DrainTable(w: World, g: nat): World
    requires g < |w.guards|
  {
    SetStage(w, g, Waking(w.table.Values)).(table := map[])
  }

  function WakeOne(w: World, g: nat, t: Ticket): World
    requires g < |w.guards| && w.guards[g].stage.Waking?
  {
    var v := SetStage(w, g, Waking(w.guards[g].stage.batch - {t}));
    if t.waiter < |w.waiters| && w.waiters[t.waiter].poll == t.poll
    then SetWaiter(v, t.waiter, w.waiters[t.waiter].(woken := true))
    else v
  }

  function RegisterWaker(w: World, i: nat): World
    requires i < |w.waiters|
  {
    var x := w.waiters[i];
    var k := if x.key.Some? then x.key.value else w.next;
    SetWaiter(w, i, x.(pc := Rechecking, key := Some(k)))
      .(table := w.table[k := Ticket(i, x.poll)], next := if x.key.Some? then w.next else w.next + 1)
  }

  function RemoveKey(w: World, i: nat, pc: Pc): World
    requires i < |w.waiters|
  {
    var x := w.waiters[i];
    SetWaiter(w, i, x.(pc := pc, key := None))
      .(table := if x.key.Some? then w.table - {x.key.value} else w.table)
  }

  function Do(w: World, l: Label): World
    requires Enabled(w, l)
  {
    match l
    case Reserve => w.(active := w.active + 1, guards := w.guards + [Guard.Fresh()])
    case Arrive(listener) => w.(guards := w.guards + [Guard(Borrowed, Bare, Some(listener), false)])
    case ReserveFor(g) => SetStage(w, g, Holding).(active := w.active + 1)
    case OpenHandle(g) => SetHandle(w, g, Loose)
    case TakeHandle(g) => SetHandle(w, g, Loose)
    case WrapHandle(g) => SetHandle(w, g, Wrapped)
    case CloseHandle(g) => SetHandle(w, g, Shut)
    case Release(g) => ReleaseGuard(w, g)
    case ReleaseBorrowed(g) => ReleaseGuard(w, g)
    case ReleaseLoose(g) => ReleaseGuard(w, g)
    case CallbackOver(g) => SetGuard(w, g, w.guards[g].(over := true))
    case NativeCloses(g) => SetHandle(w, g, Shut)
    case Drain(g) => DrainTable(w, g)
    case Wake(g, t) => WakeOne(w, g, t)
    case Finish(g) => SetStage(w, g, Gone)
    case NewWaiter => w.(waiters := w.waiters + [Waiter(Resting, None, 0, false)])
    case StartPoll(i) =>
      SetWaiter(w, i, w.waiters[i].(pc := Loading, poll := w.waiters[i].poll + 1, woken := false))
    case FastLoad(i) => SetWaiter(w, i, w.waiters[i].(pc := if w.active == 0 then Leaving else Registering))
    case Register(i) => RegisterWaker(w, i)
    case Recheck(i) => SetWaiter(w, i, w.waiters[i].(pc := if w.active == 0 then Leaving else Parked))
    case Deregister(i) => RemoveKey(w, i, Ready)
    case DropWaiter(i) => RemoveKey(w, i, Dropped)
  }

  function After(w: World, ls: seq<Label>): Option<World> {
    if ls == [] then Some(w)
    else
      var m := After(w, ls[..|ls| - 1]);
      var l := ls[|ls| - 1];
      if m.Some? && Enabled(m.value, l) then Some(Do(m.value, l)) else None
  }

  lemma Append(w0: World, ls: seq<Label>, w: World, l: Label)
    requires After(w0, ls) == Some(w) && Enabled(w, l)
    ensures After(w0, ls + [l]) == Some(Do(w, l))
  {
    assert (ls + [l])[..|ls|] == ls;
  }

  lemma Follow(w0: World, ls: seq<Label>, w: World, l: Label) returns (more: seq<Label>, v: World)
    requires After(w0, ls) == Some(w) && Enabled(w, l)
    ensures more == ls + [l] && v == Do(w, l) && After(w0, more) == Some(v)
  {
    Append(w0, ls, w, l);
    more, v := ls + [l], Do(w, l);
  }

  // ------------------------------------------------------------------ the count

  predicate Holds(u: Guard) { u.stage.Holding? }

  function UnitsHeld(us: seq<Guard>): nat {
    if us == [] then 0 else UnitsHeld(us[..|us| - 1]) + (if Holds(us[|us| - 1]) then 1 else 0)
  }

  lemma {:induction false} UnitsHeldUpdate(us: seq<Guard>, g: nat, u: Guard)
    requires g < |us|
    ensures UnitsHeld(us[g := u]) == UnitsHeld(us) - (if Holds(us[g]) then 1 else 0) + (if Holds(u) then 1 else 0)
  {
    var n := |us| - 1;
    if g == n {
      assert us[g := u][..n] == us[..n];
    } else {
      assert us[g := u][..n] == us[..n][g := u];
      UnitsHeldUpdate(us[..n], g, u);
    }
  }

  lemma {:induction false} HeldIsCounted(us: seq<Guard>, g: nat)
    requires g < |us| && Holds(us[g])
    ensures UnitsHeld(us) > 0
  {
    if g < |us| - 1 {
      HeldIsCounted(us[..|us| - 1], g);
    }
  }

  predicate InvCount(w: World) { w.active == UnitsHeld(w.guards) }

  lemma CountKept(w: World, l: Label)
    requires Enabled(w, l) && InvCount(w)
    ensures InvCount(Do(w, l))
  {
    if OfGuard(l) {
      UnitsHeldUpdate(w.guards, l.g, Do(w, l).guards[l.g]);
    } else if l.Reserve? || l.Arrive? {
      assert Do(w, l).guards[..|w.guards|] == w.guards;
    }
  }

  // ------------------------------------------------------------------ the table

  /** Each entry belongs to the one waiter that holds its key. */
  predicate InvTable(w: World) {
    && (forall k :: k in w.table ==> Owned(w, k))
    && (forall i :: 0 <= i < |w.waiters| && w.waiters[i].key.Some? ==> w.waiters[i].key.value < w.next)
  }

  predicate Owned(w: World, k: nat)
    requires k in w.table
  {
    var t := w.table[k];
    t.waiter < |w.waiters| && w.waiters[t.waiter].key == Some(k)
  }

  predicate KeysDistinct(w: World) {
    forall i, j :: 0 <= i < j < |w.waiters| && w.waiters[i].key.Some? ==> w.waiters[i].key != w.waiters[j].key
  }

  /** A future that finished or was dropped holds no key. */
  predicate InvGone(w: World) {
    forall i :: 0 <= i < |w.waiters| && (w.waiters[i].pc.Ready? || w.waiters[i].pc.Dropped?) ==> w.waiters[i].key.None?
  }

  lemma RegisterKeepsTable(w: World, i: nat)
    requires i < |w.waiters| && InvTable(w) && KeysDistinct(w)
    ensures InvTable(RegisterWaker(w, i)) && KeysDistinct(RegisterWaker(w, i))
  {
    var v := RegisterWaker(w, i);
    forall k | k in v.table ensures Owned(v, k) {
      if v.waiters[i].key != Some(k) {
        assert Owned(w, k);
      }
    }
  }

  lemma RemoveKeepsTable(w: World, i: nat, pc: Pc)
    requires i < |w.waiters| && InvTable(w) && KeysDistinct(w)
    ensures InvTable(RemoveKey(w, i, pc)) && KeysDistinct(RemoveKey(w, i, pc))
  {
    var v := RemoveKey(w, i, pc);
    forall k | k in v.table ensures Owned(v, k) {
      assert Owned(w, k);
    }
  }

  /** Steps that leave keys alone and add no entry. */
  predicate SameKeys(w: World, v: World) {
    && v.next == w.next && |w.waiters| <= |v.waiters|
    && (forall k :: k in v.table ==> k in w.table && v.table[k] == w.table[k])
    && (forall i :: 0 <= i < |w.waiters| ==> v.waiters[i].key == w.waiters[i].key)
    && (forall i :: |w.waiters| <= i < |v.waiters| ==> v.waiters[i].key.None?)
  }

  lemma SameKeysKeepsTable(w: World, v: World)
    requires SameKeys(w, v) && InvTable(w) && KeysDistinct(w)
    ensures InvTable(v) && KeysDistinct(v)
  {
    forall k | k in v.table ensures Owned(v, k) {
      assert Owned(w, k);
    }
  }

  lemma OtherStepsKeepKeys(w: World, l: Label)
    requires Enabled(w, l) && !l.Register? && !l.Deregister? && !l.DropWaiter?
    ensures SameKeys(w, Do(w, l))
  {
  }

  lemma TableKept(w: World, l: Label)
    requires Enabled(w, l) && InvTable(w) && KeysDistinct(w)
    ensures InvTable(Do(w, l)) && KeysDistinct(Do(w, l))
  {
    match l {
      case Register(i) => RegisterKeepsTable(w, i);
      case Deregister(i) => RemoveKeepsTable(w, i, Ready);
      case DropWaiter(i) => RemoveKeepsTable(w, i, Dropped);
      case _ => OtherStepsKeepKeys(w, l); SameKeysKeepsTable(w, Do(w, l));
    }
  }

  lemma GoneKept(w: World, l: Label)
    requires Enabled(w, l) && InvGone(w)
    ensures InvGone(Do(w, l))
  {
  }

  // ------------------------------------------------------------------ wakeups

  predicate Registered(w: World, i: nat)
    requires i < |w.waiters|
  {
    var x := w.waiters[i];
    x.key.Some? && x.key.value in w.table && w.table[x.key.value] == Ticket(i, x.poll)
  }

  predicate DrainDue(w: World) { exists g :: 0 <= g < |w.guards| && w.guards[g].stage.MustDrain? }

  predicate AboutToWake(w: World, t: Ticket) {
    exists g :: 0 <= g < |w.guards| && w.guards[g].stage.Waking? && t in w.guards[g].stage.batch
  }

  /** The waker of the latest poll is in the table, on its way, or was called. */
  predicate Reachable(w: World, i: nat)
    requires i < |w.waiters|
  {
    w.waiters[i].woken || Registered(w, i) || AboutToWake(w, Ticket(i, w.waiters[i].poll))
  }

  /** What keeps a parked waiter from being stranded. */
  predicate Covered(w: World, i: nat)
    requires i < |w.waiters|
  {
    || w.waiters[i].woken
    || (Registered(w, i) && (w.active > 0 || DrainDue(w)))
    || AboutToWake(w, Ticket(i, w.waiters[i].poll))
  }

  predicate Safe(w: World, i: nat)
    requires i < |w.waiters|
  {
    (w.waiters[i].pc.Rechecking? ==> Reachable(w, i)) && (w.waiters[i].pc.Parked? ==> Covered(w, i))
  }

  predicate InvWake(w: World) { forall i :: 0 <= i < |w.waiters| ==> Safe(w, i) }

  predicate Inv(w: World) {
    InvCount(w) && InvTable(w) && KeysDistinct(w) && InvGone(w) && InvWake(w)
  }

  /** Batches and drains owed only move from guard to guard when nobody touches them. */
  lemma GuardFrame(w: World, g: nat, u: Guard)
    requires g < |w.guards|
    ensures DrainDue(w) && !w.guards[g].stage.MustDrain? ==> DrainDue(SetGuard(w, g, u))
    ensures u.stage.MustDrain? ==> DrainDue(SetGuard(w, g, u))
    ensures forall t ::
      AboutToWake(w, t) && (InBatch(w.guards[g], t) ==> InBatch(u, t)) ==> AboutToWake(SetGuard(w, g, u), t)
    ensures forall t :: InBatch(u, t) ==> AboutToWake(SetGuard(w, g, u), t)
  {
    var v := SetGuard(w, g, u);
    if DrainDue(w) && !w.guards[g].stage.MustDrain? {
      var h :| 0 <= h < |w.guards| && w.guards[h].stage.MustDrain?;
      assert v.guards[h].stage.MustDrain?;
    }
    assert v.guards[g] == u;
    forall t | AboutToWake(w, t) && (InBatch(w.guards[g], t) ==> InBatch(u, t))
      ensures AboutToWake(v, t)
    {
      var h :| 0 <= h < |w.guards| && w.guards[h].stage.Waking? && t in w.guards[h].stage.batch;
      assert v.guards[h].stage.Waking? && t in v.guards[h].stage.batch;
    }
  }

  predicate InBatch(u: Guard, t: Ticket) { u.stage.Waking? && t in u.stage.batch }

  lemma ReleaseKeepsWake(w: World, g: nat, i: nat)
    requires g < |w.guards| && w.guards[g].stage.Holding? && InvCount(w) && i < |w.waiters| && Safe(w, i)
    ensures Safe(ReleaseGuard(w, g), i)
  {
    GuardFrame(w, g, w.guards[g].(stage := if w.active == 1 then MustDrain else Gone));
    HeldIsCounted(w.guards, g);
  }

  lemma DrainKeepsWake(w: World, g: nat, i: nat)
    requires Enabled(w, Drain(g)) && i < |w.waiters| && Safe(w, i)
    ensures Safe(Do(w, Drain(g)), i)
  {
    var u := w.guards[g].(stage := Waking(w.table.Values));
    GuardFrame(w, g, u);
    var t := Ticket(i, w.waiters[i].poll);
    if Registered(w, i) {
      assert t in w.table.Values;
    }
    assert AboutToWake(SetGuard(w, g, u), t) ==> AboutToWake(Do(w, Drain(g)), t);
  }

  lemma WakeKeepsWake(w: World, g: nat, t: Ticket, i: nat)
    requires Enabled(w, Wake(g, t)) && i < |w.waiters| && Safe(w, i)
    ensures Safe(Do(w, Wake(g, t)), i)
  {
    GuardFrame(w, g, w.guards[g].(stage := Waking(w.guards[g].stage.batch - {t})));
  }

  lemma HandleKeepsWake(w: World, l: Label, i: nat)
    requires Enabled(w, l) && (OfHandle(l) || l.ReserveFor? || l.Finish?) && InvCount(w)
    requires i < |w.waiters| && Safe(w, i)
    ensures Safe(Do(w, l), i)
  {
    GuardFrame(w, l.g, Do(w, l).guards[l.g]);
  }

  lemma NewGuardKeepsWake(w: World, l: Label, i: nat)
    requires Enabled(w, l) && (l.Reserve? || l.Arrive?) && InvCount(w) && i < |w.waiters| && Safe(w, i)
    ensures Safe(Do(w, l), i)
  {
    var v := Do(w, l);
    assert forall g :: 0 <= g < |w.guards| ==> v.guards[g] == w.guards[g];
  }

  /** Table operations of one waiter leave every other waiter's entry alone. */
  lemma OthersEntryKept(w: World, l: Label, i: nat)
    requires Enabled(w, l) && OfWaiter(l) && i < |w.waiters| && i != l.i
    requires InvTable(w) && KeysDistinct(w)
    ensures Registered(w, i) ==> Registered(Do(w, l), i)
    ensures Do(w, l).waiters[i] == w.waiters[i]
  {
  }

  lemma WaiterKeepsWake(w: World, l: Label, i: nat)
    requires Enabled(w, l) && OfWaiter(l) && i < |w.waiters| && Safe(w, i)
    requires InvCount(w) && InvTable(w) && KeysDistinct(w)
    ensures Safe(Do(w, l), i)
  {
    assert Do(w, l).guards == w.guards && Do(w, l).active == w.active;
    if i != l.i {
      OthersEntryKept(w, l, i);
    }
  }

  lemma GuardKeepsWake(w: World, l: Label, i: nat)
    requires Enabled(w, l) && OfGuard(l) && InvCount(w) && i < |w.waiters| && Safe(w, i)
    ensures Safe(Do(w, l), i)
  {
    if l.Release? || l.ReleaseBorrowed? || l.ReleaseLoose? {
      ReleaseKeepsWake(w, l.g, i);
    } else if l.Drain? {
      DrainKeepsWake(w, l.g, i);
    } else if l.Wake? {
      WakeKeepsWake(w, l.g, l.ticket, i);
    } else {
      HandleKeepsWake(w, l, i);
    }
  }

  lemma WakeKept(w: World, l: Label)
    requires Enabled(w, l) && Inv(w)
    ensures InvWake(Do(w, l))
  {
    var v := Do(w, l);
    forall i | 0 <= i < |v.waiters| ensures Safe(v, i) {
      if i < |w.waiters| {
        assert Safe(w, i);
        if OfGuard(l) {
          GuardKeepsWake(w, l, i);
        } else if OfWaiter(l) {
          WaiterKeepsWake(w, l, i);
        } else if !l.NewWaiter? {
          NewGuardKeepsWake(w, l, i);
        }
      }
    }
  }

  lemma StepKeeps(w: World, l: Label)
    requires Enabled(w, l) && Inv(w)
    ensures Inv(Do(w, l))
  {
    CountKept(w, l);
    TableKept(w, l);
    GoneKept(w, l);
    WakeKept(w, l);
  }

  lemma {:induction false} RunKeeps(ls: seq<Label>)
    requires After(INIT, ls).Some?
    ensures Inv(After(INIT, ls).value)
    decreases |ls|
  {
    if ls != [] {
      RunKeeps(ls[..|ls| - 1]);
      StepKeeps(After(INIT, ls[..|ls| - 1]).value, ls[|ls| - 1]);
    }
  }
}
