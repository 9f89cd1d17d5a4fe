/** Dropping a guard and polling `WaitIdle` as the adapter runs them, with everyone
    else's steps interleaved between two atomic operations. */
module RundownFrontends {
  import opened Options
  import opened Rundown

  datatype Actor = AsGuard(g: nat) | AsWaiter(i: nat)

  predicate Mine(a: Actor, l: Label) {
    if a.AsGuard? then OfGuard(l) && l.g == a.g else OfWaiter(l) && l.i == a.i
  }

  predicate Exists(a: Actor, w: World) {
    if a.AsGuard? then a.g < |w.guards| else a.i < |w.waiters|
  }

  /** What others leave alone: a guard's state, and all of a waiter but its wake bit. */
  predicate Untouched(a: Actor, w: World, v: World)
    requires Exists(a, w)
  {
    && Exists(a, v)
    && (if a.AsGuard? then v.guards[a.g] == w.guards[a.g]
        else v.waiters[a.i].(woken := w.waiters[a.i].woken) == w.waiters[a.i])
  }

  lemma OthersFrame(a: Actor, w: World, l: Label)
    requires Enabled(w, l) && !Mine(a, l) && Exists(a, w)
    ensures Untouched(a, w, Do(w, l))
  {
  }

  /** One actor's own steps, in order. */
  function Own(a: Actor, ls: seq<Label>): seq<Label> {
    if ls == [] then []
    else Own(a, ls[..|ls| - 1]) + (if Mine(a, ls[|ls| - 1]) then [ls[|ls| - 1]] else [])
  }

  /** One more step of the tracked run, and of the actor that took it. */
  lemma Track(w0: World, ls: seq<Label>, w: World, l: Label)
    requires After(w0, ls) == Some(w) && Enabled(w, l)
    ensures After(w0, ls + [l]) == Some(Do(w, l))
    ensures forall a: Actor :: Own(a, ls + [l]) == Own(a, ls) + (if Mine(a, l) then [l] else [])
  {
    Append(w0, ls, w, l);
    assert (ls + [l])[..|ls|] == ls;
  }

  class RundownState {
    var active: int
    var next: nat
    var table: map<nat, Ticket>
    var guards: seq<Guard>
    var waiters: seq<Waiter>

    function View(): World
      reads this
    {
      World(active, next, table, guards, waiters)
    }

    constructor ()
      ensures View() == INIT
    {
      active, next, table, guards, waiters := 0, 0, map[], [], [];
    }

    ghost predicate Tracks(w0: World, ls: seq<Label>)
      reads this
    {
      After(w0, ls) == Some(View())
    }

    /** Any number of steps of all the others. */
    method Interfere(a: Actor, ghost w0: World, ghost ls0: seq<Label>) returns (ghost ls: seq<Label>)
      requires Tracks(w0, ls0) && Exists(a, View())
      modifies this
      ensures Tracks(w0, ls) && Untouched(a, old(View()), View()) && Own(a, ls) == Own(a, ls0)
    {
      ls := ls0;
      var n: nat := *;
      while n > 0
        invariant Tracks(w0, ls) && Untouched(a, old(View()), View()) && Own(a, ls) == Own(a, ls0)
      {
        var l: Label := *;
        if Enabled(View(), l) && !Mine(a, l) {
          Track(w0, ls, View(), l);
          OthersFrame(a, View(), l);
          ls := ls + [l];
          var v := Do(View(), l);
          active, next, table, guards, waiters := v.active, v.next, v.table, v.guards, v.waiters;
        }
        n := n - 1;
      }
    }

    /** A new guard takes its unit at once. */
    method NewGuard() returns (g: nat)
      modifies this
      ensures View() == Do(old(View()), Reserve)
      ensures g == |old(guards)| && guards[g] == Guard.Fresh()
    {
      g := |guards|;
      active := active + 1;
      guards := guards + [Guard.Fresh()];
    }

    /** The unit for a handle that a listener callback was handed. */
    method NewGuardFor(g: nat)
      requires g < |guards| && GuardEnabled(guards[g], ReserveFor(g))
      modifies this
      ensures View() == Do(old(View()), ReserveFor(g)) && |guards| == |old(guards)|
    {
      active := active + 1;
      guards := guards[g := guards[g].(stage := Holding)];
    }

    /** Dropping a guard: give the unit back; on reaching zero take the whole table, then
        wake everyone in it, in any order. */
    method DropGuard(g: nat, ghost w0: World) returns (ghost ls: seq<Label>)
      requires View() == w0 && g < |guards| && guards[g].stage.Holding? && !guards[g].handle.Wrapped?
      requires guards[g].handle.Loose? ==> guards[g].host.Some?
      modifies this
      ensures Tracks(w0, ls) && g < |guards| && guards[g].stage.Gone?
    {
      ls := Interfere(AsGuard(g), w0, []);
      ghost var l := match guards[g].handle
        case Loose => ReleaseLoose(g)
        case Borrowed => ReleaseBorrowed(g)
        case _ => Release(g);
      Track(w0, ls, View(), l);
      ls := ls + [l];
      var was := FetchSub(g);
      if was == 1 {
        ls := Interfere(AsGuard(g), w0, ls);
        Track(w0, ls, View(), Drain(g));
        ls := ls + [Drain(g)];
        var woken := TakeTable(g);
        ls := WakeAll(g, woken, w0, ls);
      }
    }

    method FetchSub(g: nat) returns (was: int)
      requires g < |guards|
      modifies this
      ensures View() == ReleaseGuard(old(View()), g) && was == old(active)
      ensures |guards| == |old(guards)| && guards[g].stage == if was == 1 then MustDrain else Gone
    {
      was := active;
      active := active - 1;
      guards := guards[g := guards[g].(stage := if was == 1 then MustDrain else Gone)];
    }

    method TakeTable(g: nat) returns (woken: set<Ticket>)
      requires g < |guards|
      modifies this
      ensures View() == DrainTable(old(View()), g)
      ensures |guards| == |old(guards)| && guards[g].stage == Waking(woken) && woken == old(table).Values
    {
      woken := table.Values;
      table := map[];
      guards := guards[g := guards[g].(stage := Waking(woken))];
    }

    /** Wake a drained batch outside the lock. */
    method WakeAll(g: nat, woken: set<Ticket>, ghost w0: World, ghost ls0: seq<Label>) returns (ghost ls: seq<Label>)
      requires Tracks(w0, ls0) && g < |guards| && guards[g].stage == Waking(woken)
      modifies this
      ensures Tracks(w0, ls) && g < |guards| && guards[g].stage.Gone?
    {
      ls := ls0;
      var left := woken;
      while left != {}
        invariant Tracks(w0, ls) && g < |guards| && guards[g].stage == Waking(left)
        decreases left
      {
        var t :| t in left;
        ls := Interfere(AsGuard(g), w0, ls);
        Track(w0, ls, View(), Wake(g, t));
        ls := ls + [Wake(g, t)];
        WakeTicket(g, t);
        left := left - {t};
      }
      Track(w0, ls, View(), Finish(g));
      ls := ls + [Finish(g)];
      guards := guards[g := guards[g].(stage := Gone)];
    }

    method WakeTicket(g: nat, t: Ticket)
      requires g < |guards| && guards[g].stage.Waking?
      modifies this
      ensures View() == WakeOne(old(View()), g, t)
      ensures |guards| == |old(guards)| && guards[g].stage == Waking(old(guards)[g].stage.batch - {t})
    {
      guards := guards[g := guards[g].(stage := Waking(guards[g].stage.batch - {t}))];
      if t.waiter < |waiters| && waiters[t.waiter].poll == t.poll {
        waiters := waiters[t.waiter := waiters[t.waiter].(woken := true)];
      }
    }

    /** One poll of a `WaitIdle`: load, register and load again, deregister when idle. */
    method Poll(i: nat, ghost w0: World) returns (ready: bool, ghost registered: bool, ghost ls: seq<Label>)
      requires View() == w0 && i < |waiters| && WaiterEnabled(waiters[i], StartPoll(i))
      modifies this
      ensures Tracks(w0, ls) && i < |waiters| && waiters[i].pc == if ready then Ready else Parked
      ensures waiters[i].poll == old(waiters)[i].poll + 1 && (ready || registered)
      ensures Own(AsWaiter(i), ls) ==
        [StartPoll(i), FastLoad(i)] + (if registered then [Register(i), Recheck(i)] else [])
        + (if ready then [Deregister(i)] else [])
    {
      ready, ls := StartAndLoad(i, w0);
      registered := !ready;
      if !ready {
        ready, ls := RegisterAndRecheck(i, w0, ls);
      }
      if ready {
        ls := Leave(i, w0, ls);
      }
    }

    method StartAndLoad(i: nat, ghost w0: World) returns (idle: bool, ghost ls: seq<Label>)
      requires View() == w0 && i < |waiters| && WaiterEnabled(waiters[i], StartPoll(i))
      modifies this
      ensures Tracks(w0, ls) && i < |waiters| && waiters[i].pc == if idle then Leaving else Registering
      ensures waiters[i].poll == old(waiters)[i].poll + 1
      ensures Own(AsWaiter(i), ls) == [StartPoll(i), FastLoad(i)]
    {
      Track(w0, [], View(), StartPoll(i));
      ls := [] + [StartPoll(i)];
      waiters := waiters[i := waiters[i].(pc := Loading, poll := waiters[i].poll + 1, woken := false)];
      idle, ls := FirstLoad(i, w0, ls);
    }

    method FirstLoad(i: nat, ghost w0: World, ghost ls0: seq<Label>) returns (idle: bool, ghost ls: seq<Label>)
      requires Tracks(w0, ls0) && i < |waiters| && waiters[i].pc.Loading?
      modifies this
      ensures Tracks(w0, ls) && i < |waiters| && waiters[i].pc == if idle then Leaving else Registering
      ensures waiters[i].poll == old(waiters)[i].poll
      ensures Own(AsWaiter(i), ls) == Own(AsWaiter(i), ls0) + [FastLoad(i)]
    {
      ls := Interfere(AsWaiter(i), w0, ls0);
      Track(w0, ls, View(), FastLoad(i));
      ls := ls + [FastLoad(i)];
      idle := Load(i, Registering);
    }

    method Leave(i: nat, ghost w0: World, ghost ls0: seq<Label>) returns (ghost ls: seq<Label>)
      requires Tracks(w0, ls0) && i < |waiters| && waiters[i].pc.Leaving?
      modifies this
      ensures Tracks(w0, ls) && i < |waiters| && waiters[i].pc.Ready? && waiters[i].poll == old(waiters)[i].poll
      ensures Own(AsWaiter(i), ls) == Own(AsWaiter(i), ls0) + [Deregister(i)]
    {
      ls := Interfere(AsWaiter(i), w0, ls0);
      Track(w0, ls, View(), Deregister(i));
      ls := ls + [Deregister(i)];
      RemoveOwnKey(i, Ready);
    }

    method RegisterAndRecheck(i: nat, ghost w0: World, ghost ls0: seq<Label>) returns (idle: bool, ghost ls: seq<Label>)
      requires Tracks(w0, ls0) && i < |waiters| && waiters[i].pc.Registering?
      modifies this
      ensures Tracks(w0, ls) && i < |waiters| && waiters[i].pc == if idle then Leaving else Parked
      ensures waiters[i].poll == old(waiters)[i].poll
      ensures Own(AsWaiter(i), ls) == Own(AsWaiter(i), ls0) + [Register(i), Recheck(i)]
    {
      ls := EnterTable(i, w0, ls0);
      ls := Interfere(AsWaiter(i), w0, ls);
      Track(w0, ls, View(), Recheck(i));
      ls := ls + [Recheck(i)];
      idle := Load(i, Parked);
    }

    method EnterTable(i: nat, ghost w0: World, ghost ls0: seq<Label>) returns (ghost ls: seq<Label>)
      requires Tracks(w0, ls0) && i < |waiters| && waiters[i].pc.Registering?
      modifies this
      ensures Tracks(w0, ls) && i < |waiters| && waiters[i].pc.Rechecking?
      ensures waiters[i].poll == old(waiters)[i].poll
      ensures Own(AsWaiter(i), ls) == Own(AsWaiter(i), ls0) + [Register(i)]
    {
      ls := Interfere(AsWaiter(i), w0, ls0);
      Track(w0, ls, View(), Register(i));
      ls := ls + [Register(i)];
      RegisterOrRefresh(i);
    }

    method Load(i: nat, otherwise: Pc) returns (idle: bool)
      requires i < |waiters|
      modifies this`waiters
      ensures idle == (active == 0)
      ensures waiters == old(waiters)[i := old(waiters)[i].(pc := if idle then Leaving else otherwise)]
    {
      idle := active == 0;
      waiters := waiters[i := waiters[i].(pc := if idle then Leaving else otherwise)];
    }

    method RegisterOrRefresh(i: nat)
      requires i < |waiters|
      modifies this
      ensures View() == RegisterWaker(old(View()), i)
      ensures |waiters| == |old(waiters)| && waiters[i].pc == Rechecking && waiters[i].poll == old(waiters)[i].poll
    {
      var x := waiters[i];
      match x.key {
        case Some(k) =>
          table := table[k := Ticket(i, x.poll)];
          waiters := waiters[i := x.(pc := Rechecking)];
        case None =>
          var k := next;
          next := next + 1;
          table := table[k := Ticket(i, x.poll)];
          waiters := waiters[i := x.(pc := Rechecking, key := Some(k))];
      }
    }

    method RemoveOwnKey(i: nat, pc: Pc)
      requires i < |waiters|
      modifies this
      ensures View() == RemoveKey(old(View()), i, pc)
      ensures |waiters| == |old(waiters)| && waiters[i].pc == pc && waiters[i].poll == old(waiters)[i].poll
    {
      var x := waiters[i];
      if x.key.Some? {
        table := table - {x.key.value};
      }
      waiters := waiters[i := x.(pc := pc, key := None)];
    }
  }
}
