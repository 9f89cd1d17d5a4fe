/** What the rundown promises over every run. */
module RundownTheorems {
  import opened Options
  import opened Rundown

  /** No lost wakeup: whoever is parked and was not woken still has its current waker in
      the table while the count is up or a drain is due, or in a batch being woken. */
  lemma NoLostWakeup(ls: seq<Label>, i: nat)
    requires After(INIT, ls).Some?
    requires i < |After(INIT, ls).value.waiters| && After(INIT, ls).value.waiters[i].pc.Parked?
    requires !After(INIT, ls).value.waiters[i].woken
    ensures var w := After(INIT, ls).value;
      || (Registered(w, i) && (w.active > 0 || DrainDue(w)))
      || AboutToWake(w, Ticket(i, w.waiters[i].poll))
  {
    RunKeeps(ls);
    assert Safe(After(INIT, ls).value, i);
  }

  /** When no guard has a step left, no waiter sleeps on. */
  lemma NobodySleepsOn(ls: seq<Label>, i: nat)
    requires After(INIT, ls).Some?
    requires forall l :: OfGuard(l) ==> !Enabled(After(INIT, ls).value, l)
    requires i < |After(INIT, ls).value.waiters| && After(INIT, ls).value.waiters[i].pc.Parked?
    ensures After(INIT, ls).value.waiters[i].woken
  {
    var w := After(INIT, ls).value;
    RunKeeps(ls);
    forall g | 0 <= g < |w.guards|
      ensures !Holds(w.guards[g]) && !w.guards[g].stage.MustDrain? && !w.guards[g].stage.Waking?
    {
      NothingLeft(w, g);
    }
    AllGoneHoldNothing(w.guards);
    assert Safe(w, i);
  }

  lemma NothingLeft(w: World, g: nat)
    requires forall l :: OfGuard(l) ==> !Enabled(w, l)
    requires g < |w.guards|
    ensures !Holds(w.guards[g]) && !w.guards[g].stage.MustDrain? && !w.guards[g].stage.Waking?
  {
    assert !Enabled(w, CloseHandle(g)) && !Enabled(w, Release(g)) && !Enabled(w, Drain(g)) && !Enabled(w, Finish(g));
    assert !Enabled(w, ReleaseBorrowed(g));
    if w.guards[g].stage.Waking? {
      var t :| t in w.guards[g].stage.batch;
      assert Enabled(w, Wake(g, t));
    }
  }

  lemma {:induction false} AllGoneHoldNothing(us: seq<Guard>)
    requires forall g :: 0 <= g < |us| ==> !Holds(us[g])
    ensures UnitsHeld(us) == 0
  {
    if us != [] {
      AllGoneHoldNothing(us[..|us| - 1]);
    }
  }

  /** A poll finds the registration idle exactly when no guard holds a unit. */
  lemma IdleIffAllReleased(ls: seq<Label>, l: Label)
    requires After(INIT, ls).Some? && Enabled(After(INIT, ls).value, l) && (l.FastLoad? || l.Recheck?)
    ensures var w := After(INIT, ls).value;
      Do(w, l).waiters[l.i].pc.Leaving? <==> forall g :: 0 <= g < |w.guards| ==> !Holds(w.guards[g])
  {
    var w := After(INIT, ls).value;
    RunKeeps(ls);
    if w.active == 0 {
      forall g | 0 <= g < |w.guards| ensures !Holds(w.guards[g]) {
        if Holds(w.guards[g]) {
          HeldIsCounted(w.guards, g);
        }
      }
    }
    if forall g :: 0 <= g < |w.guards| ==> !Holds(w.guards[g]) {
      AllGoneHoldNothing(w.guards);
    }
  }

  // ------------------------------------------------ which handles are open when idle

  predicate ReleasedEarly(ls: seq<Label>, g: nat) { ReleaseBorrowed(g) in ls || ReleaseLoose(g) in ls }

  predicate ClosedIn(ls: seq<Label>, g: nat) { CloseHandle(g) in ls || NativeCloses(g) in ls }

  /** The native side handed the handle over and no callback reserved a unit for it. */
  predicate NeverCounted(ls: seq<Label>, u: Guard, g: nat) { u.host.Some? && ReserveFor(g) !in ls }

  /** What a run tells about one guard that is there. */
  predicate Told(ls: seq<Label>, u: Guard, g: nat) {
    && (u.stage.Bare? <==> NeverCounted(ls, u, g))
    && (u.handle.Borrowed? || u.stage.Bare? ==> u.host.Some?)
    && (u.stage.Bare? || ReleaseBorrowed(g) in ls ==> u.handle == if NativeCloses(g) in ls then Shut else Borrowed)
    && (ReleaseLoose(g) in ls ==> u.handle == if CloseHandle(g) in ls then Shut else Loose)
    && (NativeCloses(g) in ls ==> u.handle.Shut? && ReleaseLoose(g) !in ls)
    && (CloseHandle(g) in ls ==> u.handle.Shut? && ReleaseBorrowed(g) !in ls)
    && (u.handle.Unopened? || u.handle.Wrapped? ==> !ReleasedEarly(ls, g))
    && (ReleasedEarly(ls, g) ==> !Holds(u) && !u.stage.Bare?)
    && (!Holds(u) && !u.stage.Bare? && u.handle.Borrowed? ==> ReleaseBorrowed(g) in ls)
    && (!Holds(u) && u.handle.Loose? ==> ReleaseLoose(g) in ls)
    && (u.handle.Wrapped? ==> Holds(u))
  }

  predicate RunTold(ls: seq<Label>, w: World, g: nat) {
    if g < |w.guards| then Told(ls, w.guards[g], g)
    else ReserveFor(g) !in ls && !ReleasedEarly(ls, g) && !ClosedIn(ls, g)
  }

  lemma OwnStepTold(ls: seq<Label>, w: World, l: Label)
    requires Enabled(w, l) && OfGuard(l) && Told(ls, w.guards[l.g], l.g)
    ensures Told(ls + [l], Do(w, l).guards[l.g], l.g)
  {
  }

  lemma OtherStepTold(ls: seq<Label>, w: World, l: Label, g: nat)
    requires Enabled(w, l) && !(OfGuard(l) && l.g == g) && RunTold(ls, w, g)
    ensures RunTold(ls + [l], Do(w, l), g)
  {
  }

  lemma ToldStep(ls: seq<Label>, w: World, l: Label, g: nat)
    requires Enabled(w, l) && RunTold(ls, w, g)
    ensures RunTold(ls + [l], Do(w, l), g)
  {
    if OfGuard(l) && l.g == g {
      OwnStepTold(ls, w, l);
    } else {
      OtherStepTold(ls, w, l, g);
    }
  }

  lemma {:induction false} RunTells(ls: seq<Label>, g: nat)
    requires After(INIT, ls).Some?
    ensures RunTold(ls, After(INIT, ls).value, g)
    decreases |ls|
  {
    if ls != [] {
      var front, l := ls[..|ls| - 1], ls[|ls| - 1];
      RunTells(front, g);
      ToldStep(front, After(INIT, front).value, l, g);
      assert ls == front + [l];
    }
  }

  /** A load by a poll that found the registration idle. */
  predicate FindsIdle(w: World, l: Label) {
    Enabled(w, l) && (l.FastLoad? || l.Recheck?) && Do(w, l).waiters[l.i].pc.Leaving?
  }

  /** Which handles are open when a poll finds idle: those not closed yet whose guard was
      dropped early, because a callback never took the handle or because unwinding out of
      `attach` dropped the guard first, and those for which no unit was ever reserved. */
  lemma OpenWhenIdleIff(ls: seq<Label>, l: Label, g: nat)
    requires After(INIT, ls).Some? && FindsIdle(After(INIT, ls).value, l) && g < |After(INIT, ls).value.guards|
    ensures var u := After(INIT, ls).value.guards[g];
      u.Open() <==> !ClosedIn(ls, g) && (ReleasedEarly(ls, g) || NeverCounted(ls, u, g))
  {
    IdleIffAllReleased(ls, l);
    RunTells(ls, g);
  }

  // --------------------------------------------- when Close of a listener waits

  /** Every callback of this listener has returned. */
  predicate CallbacksOver(w: World, listener: nat) {
    forall g :: 0 <= g < |w.guards| && w.guards[g].host == Some(listener) ==> w.guards[g].over
  }

  /** No Close in the run returned before the callbacks of the closed handle did. */
  predicate ClosesWait(ls: seq<Label>) {
    if ls == [] then true
    else
      var front, l := ls[..|ls| - 1], ls[|ls| - 1];
      && ClosesWait(front)
      && (l.CloseHandle? && After(INIT, front).Some? ==> CallbacksOver(After(INIT, front).value, l.g))
  }

  /** Where the handle of a returned callback can be, and that its listener is still open
      until it returns. */
  predicate Hosted(w: World, u: Guard) {
    && (u.host.Some? && !u.over ==> u.host.value < |w.guards| && w.guards[u.host.value].handle.Wrapped?)
    && (u.host.Some? && u.over ==> u.handle.Wrapped? || u.handle.Shut? || (u.handle.Borrowed? && !Holds(u)))
    && (u.handle.Wrapped? ==> Holds(u))
    && (u.handle.Borrowed? ==> u.host.Some?)
    && (u.handle.Loose? && !Holds(u) ==> u.host.Some?)
  }

  predicate InvHosts(w: World) { forall g :: 0 <= g < |w.guards| ==> Hosted(w, w.guards[g]) }

  /** What one guard's step does to that guard. */
  lemma OwnStepKeepsHosted(w: World, l: Label)
    requires Enabled(w, l) && OfGuard(l) && Hosted(w, w.guards[l.g]) && w.guards[l.g].host != Some(l.g)
    ensures Hosted(Do(w, l), Do(w, l).guards[l.g]) && Do(w, l).guards[l.g].host == w.guards[l.g].host
    ensures w.guards[l.g].over ==> Do(w, l).guards[l.g].over
    ensures w.guards[l.g].handle.Wrapped? && !l.CloseHandle? ==> Do(w, l).guards[l.g].handle.Wrapped?
  {
  }

  /** A listener is older than what its callbacks were handed. */
  predicate InvOlder(w: World) {
    forall g :: 0 <= g < |w.guards| && w.guards[g].host.Some? ==> w.guards[g].host.value < g
  }

  lemma HostsStep(w: World, l: Label)
    requires Enabled(w, l) && InvHosts(w) && InvOlder(w) && (l.CloseHandle? ==> CallbacksOver(w, l.g))
    ensures InvHosts(Do(w, l)) && InvOlder(Do(w, l))
  {
    if OfGuard(l) {
      OwnStepKeepsHosted(w, l);
      GuardStepKeepsHosts(w, l);
    } else {
      OtherStepKeepsHosts(w, l);
    }
  }

  lemma GuardStepKeepsHosts(w: World, l: Label)
    requires Enabled(w, l) && OfGuard(l) && InvHosts(w) && (l.CloseHandle? ==> CallbacksOver(w, l.g))
    requires w.guards[l.g].handle.Wrapped? && !l.CloseHandle? ==> Do(w, l).guards[l.g].handle.Wrapped?
    requires Hosted(Do(w, l), Do(w, l).guards[l.g])
    ensures InvHosts(Do(w, l))
  {
    var v := Do(w, l);
    forall g | 0 <= g < |v.guards|
      ensures Hosted(v, v.guards[g])
    {
      assert Hosted(w, w.guards[g]);
    }
  }

  lemma OtherStepKeepsHosts(w: World, l: Label)
    requires Enabled(w, l) && !OfGuard(l) && InvHosts(w)
    ensures InvHosts(Do(w, l))
  {
  }

  lemma {:induction false} WaitingRunKeeps(ls: seq<Label>)
    requires After(INIT, ls).Some? && ClosesWait(ls)
    ensures InvHosts(After(INIT, ls).value) && InvOlder(After(INIT, ls).value)
    decreases |ls|
  {
    if ls != [] {
      WaitingRunKeeps(ls[..|ls| - 1]);
      HostsStep(After(INIT, ls[..|ls| - 1]).value, ls[|ls| - 1]);
    }
  }

  lemma ListenerStillHolds(w: World, g: nat)
    requires InvHosts(w) && g < |w.guards| && w.guards[g].host.Some? && !w.guards[g].over
    ensures w.guards[g].host.value < |w.guards| && Holds(w.guards[w.guards[g].host.value])
  {
    assert Hosted(w, w.guards[g]);
    assert Hosted(w, w.guards[w.guards[g].host.value]);
  }

  /** If closing a listener waits for its callbacks, its own unit covers them: whenever a
      poll finds idle every callback has returned, and the handles still open are exactly
      those that a callback left to the native side and that it has not closed yet. What
      unwinding out of `attach` releases early cannot be seen then. */
  lemma WaitingCloseHidesCallbacks(ls: seq<Label>, l: Label, g: nat)
    requires After(INIT, ls).Some? && FindsIdle(After(INIT, ls).value, l) && g < |After(INIT, ls).value.guards|
    requires ClosesWait(ls)
    ensures var u := After(INIT, ls).value.guards[g];
      && (u.host.Some? ==> u.over)
      && (u.Open() <==> NativeCloses(g) !in ls && (ReleaseBorrowed(g) in ls || NeverCounted(ls, u, g)))
  {
    var w := After(INIT, ls).value;
    IdleIffAllReleased(ls, l);
    RunTells(ls, g);
    WaitingRunKeeps(ls);
    assert Hosted(w, w.guards[g]);
    if w.guards[g].host.Some? && !w.guards[g].over {
      ListenerStillHolds(w, g);
    }
  }

  /** An open listener whose callback has just been handed a connection and reserved its
      unit. */
  lemma ReachCallback() returns (ls: seq<Label>, w: World)
    ensures After(INIT, ls) == Some(w) && ClosesWait(ls)
    ensures w == World(2, 0, map[], [Guard(Wrapped, Holding, None, true), Guard(Borrowed, Holding, Some(0), false)], [])
  {
    ls, w := [], INIT;
    ls, w := FollowOn(ls, w, Reserve);
    ls, w := FollowOn(ls, w, OpenHandle(0));
    ls, w := FollowOn(ls, w, WrapHandle(0));
    ls, w := FollowOn(ls, w, Arrive(0));
    ls, w := FollowOn(ls, w, ReserveFor(1));
  }

  lemma FollowOn(ls: seq<Label>, w: World, l: Label) returns (more: seq<Label>, v: World)
    requires After(INIT, ls) == Some(w) && Enabled(w, l)
    ensures more == ls + [l] && v == Do(w, l) && After(INIT, more) == Some(v)
    ensures ClosesWait(ls) && (l.CloseHandle? ==> CallbacksOver(w, l.g)) ==> ClosesWait(more)
  {
    more, v := Follow(INIT, ls, w, l);
    assert more[..|ls|] == ls;
  }

  /** Dropping the listener: Close, then its unit. */
  lemma DropListener(ls: seq<Label>, w: World) returns (more: seq<Label>, v: World)
    requires After(INIT, ls) == Some(w) && |w.guards| == 2 && w.waiters == [] && w.active >= 1
    requires w.guards[0] == Guard(Wrapped, Holding, None, true)
    ensures After(INIT, more) == Some(v) && ls <= more && (ClosesWait(ls) && CallbacksOver(w, 0) ==> ClosesWait(more))
    ensures v.active == w.active - 1 && v.waiters == [] && |v.guards| == 2 && v.guards[1] == w.guards[1]
  {
    more, v := FollowOn(ls, w, CloseHandle(0));
    more, v := FollowOn(more, v, Release(0));
  }

  /** A waiter that comes when the count is down finds idle at once. */
  lemma WaiterComes(ls: seq<Label>, w: World) returns (more: seq<Label>, v: World)
    requires After(INIT, ls) == Some(w) && w.waiters == [] && w.active == 0
    ensures After(INIT, more) == Some(v) && ls <= more && (ClosesWait(ls) ==> ClosesWait(more))
    ensures FindsIdle(v, FastLoad(0)) && v.guards == w.guards
  {
    more, v := FollowOn(ls, w, NewWaiter);
    more, v := FollowOn(more, v, StartPoll(0));
  }

  lemma Refuse(ls: seq<Label>, w: World) returns (more: seq<Label>, v: World)
    requires After(INIT, ls) == Some(w) && |w.guards| == 2 && w.active == 2
    requires w.guards[1] == Guard(Borrowed, Holding, Some(0), false)
    ensures After(INIT, more) == Some(v) && ReleaseBorrowed(1) in more && (ClosesWait(ls) ==> ClosesWait(more))
    ensures v == w.(active := 1, guards := w.guards[1 := Guard(Borrowed, Gone, Some(0), true)])
  {
    more, v := FollowOn(ls, w, ReleaseBorrowed(1));
    more, v := FollowOn(more, v, CallbackOver(1));
  }

  /** It does happen, with no panic anywhere and with a Close that waits: the callback
      refuses a connection whose configuration failed, the listener is dropped, and a
      waiter finds idle before the native side has closed the refused handle. */
  lemma IdleWithRefusedHandle() returns (ls: seq<Label>)
    ensures After(INIT, ls).Some? && ClosesWait(ls) && FindsIdle(After(INIT, ls).value, FastLoad(0))
    ensures var w := After(INIT, ls).value; |w.guards| == 2 && w.guards[1].Open() && ReleaseBorrowed(1) in ls
  {
    var w;
    ls, w := ReachCallback();
    ls, w := Refuse(ls, w);
    ls, w := DropListener(ls, w);
    ls, w := WaiterComes(ls, w);
  }

  /** With a Close that does not wait, unwinding out of `attach` shows too. */
  lemma IdleWithOpenHandle() returns (ls: seq<Label>)
    ensures After(INIT, ls).Some? && FindsIdle(After(INIT, ls).value, FastLoad(0))
    ensures var w := After(INIT, ls).value; |w.guards| == 2 && w.guards[1].Open() && ReleaseLoose(1) in ls
  {
    var w;
    ls, w := ReachCallback();
    ls, w := FollowOn(ls, w, TakeHandle(1));
    ls, w := DropListener(ls, w);
    ls, w := FollowOn(ls, w, ReleaseLoose(1));
    ls, w := WaiterComes(ls, w);
  }

  /** The count never goes below zero. */
  lemma CountNeverUnderflows(ls: seq<Label>, l: Label)
    requires After(INIT, ls).Some? && Enabled(After(INIT, ls).value, l)
    requires l.Release? || l.ReleaseBorrowed? || l.ReleaseLoose?
    ensures After(INIT, ls).value.active >= 1
  {
    RunKeeps(ls);
    HeldIsCounted(After(INIT, ls).value.guards, l.g);
  }

  /** Live keys are distinct, and the table holds nothing of a finished future. */
  lemma TableHoldsOnlyLiveWaiters(ls: seq<Label>, k: nat)
    requires After(INIT, ls).Some? && k in After(INIT, ls).value.table
    ensures var w := After(INIT, ls).value;
      exists i ::
        && 0 <= i < |w.waiters| && w.waiters[i].key == Some(k) && w.table[k].waiter == i
        && !w.waiters[i].pc.Ready? && !w.waiters[i].pc.Dropped?
        && (forall j :: 0 <= j < |w.waiters| && w.waiters[j].key == Some(k) ==> j == i)
  {
    var w := After(INIT, ls).value;
    RunKeeps(ls);
    assert Owned(w, k);
    assert w.waiters[w.table[k].waiter].key == Some(k);
  }

  // ------------------------------------------------------------ drops come to an end

  function Weight(u: Guard): nat {
    (match u.handle
     case Unopened => 3
     case Borrowed => 3
     case Loose => 2
     case Wrapped => 1
     case Shut => 0)
    + (if u.over then 0 else 1)
    + match u.stage
      case Bare => 4
      case Holding => 3
      case MustDrain => 2
      case Waking(batch) => 1 + |batch|
      case Gone => 0
  }

  function Weights(us: seq<Guard>): nat {
    if us == [] then 0 else Weights(us[..|us| - 1]) + Weight(us[|us| - 1])
  }

  function Effort(w: World): nat { Weights(w.guards) + |w.table| }

  lemma {:induction false} WeightsUpdate(us: seq<Guard>, g: nat, u: Guard)
    requires g < |us|
    ensures Weights(us[g := u]) == Weights(us) - Weight(us[g]) + Weight(u)
  {
    var n := |us| - 1;
    if g == n {
      assert us[g := u][..n] == us[..n];
    } else {
      assert us[g := u][..n] == us[..n][g := u];
      WeightsUpdate(us[..n], g, u);
    }
  }

  lemma {:induction false} FewValues(m: map<nat, Ticket>)
    ensures |m.Values| <= |m|
    decreases |m|
  {
    if m != map[] {
      var k :| k in m;
      var rest := m - {k};
      FewValues(rest);
      assert m == rest[k := m[k]];
      assert m.Values == rest.Values + {m[k]};
    }
  }

  lemma GuardStepSpends(w: World, l: Label)
    requires Enabled(w, l) && OfGuard(l)
    ensures Effort(Do(w, l)) < Effort(w)
  {
    var u := Do(w, l).guards[l.g];
    WeightsUpdate(w.guards, l.g, u);
    if l.Drain? {
      FewValues(w.table);
    } else {
      LighterGuard(w, l);
    }
  }

  lemma LighterGuard(w: World, l: Label)
    requires Enabled(w, l) && OfGuard(l) && !l.Drain?
    ensures Weight(Do(w, l).guards[l.g]) < Weight(w.guards[l.g]) && Do(w, l).table == w.table
  {
    if OfHandle(l) {
      LighterHandle(w, l);
    } else if l.Wake? {
      var batch := w.guards[l.g].stage.batch;
      assert |batch - {l.ticket}| == |batch| - 1;
    }
  }

  lemma LighterHandle(w: World, l: Label)
    requires Enabled(w, l) && OfHandle(l)
    ensures Weight(Do(w, l).guards[l.g]) < Weight(w.guards[l.g]) && Do(w, l).table == w.table
  {
  }

  /** Left to themselves, the guards are dropped and everyone woken in a bounded number
      of steps, whatever order they take. */
  lemma {:induction false} DropsRunOut(w: World, ls: seq<Label>)
    requires After(w, ls).Some? && forall n :: 0 <= n < |ls| ==> OfGuard(ls[n])
    ensures Effort(After(w, ls).value) + |ls| <= Effort(w)
    decreases |ls|
  {
    if ls != [] {
      DropsRunOut(w, ls[..|ls| - 1]);
      GuardStepSpends(After(w, ls[..|ls| - 1]).value, ls[|ls| - 1]);
    }
  }
}
