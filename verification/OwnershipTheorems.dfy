/** Exactly one side closes each handle, wherever a panic strikes. */
module OwnershipTheorems {
  import opened Options
  import opened Terminals
  import opened Ownership

  /** A call that was handed a handle answers with an error exactly when the adapter
      never took it, poisoned contexts included. */
  lemma RejectsIffNeverTaken(kind: Kind, ls: seq<Label>, n: nat)
    requires After(Init(kind), ls).Some? && n < |After(Init(kind), ls).value.calls|
    requires var x := After(Init(kind), ls).value.calls[n]; x.event.HandOver? && x.pc.Answered?
    ensures var x := After(Init(kind), ls).value.calls[n]; x.pc.verdict.Rejected? <==> x.owner.Native?
  {
    RunKeeps(kind, ls);
    assert CallOk(After(Init(kind), ls).value.calls[n]);
  }

  /** No handle is ever closed twice, and never by both sides. */
  lemma NeverClosedTwice(kind: Kind, ls: seq<Label>, n: nat)
    requires After(Init(kind), ls).Some? && n < |After(Init(kind), ls).value.calls|
    ensures var x := After(Init(kind), ls).value.calls[n];
      && x.adapterCloses + x.nativeCloses <= 1
      && (x.adapterCloses == 1 ==> x.owner != Native)
      && (x.nativeCloses == 1 ==> x.owner.Native? && x.pc.Answered? && x.pc.verdict.Rejected?)
  {
    RunKeeps(kind, ls);
    assert CallOk(After(Init(kind), ls).value.calls[n]);
  }

  /** A step of invocation `n`, of the native side about it, or of whoever received it. */
  predicate About(l: Label, n: nat) {
    OfCall(l) && l.n == n
  }

  /** Once nothing more can happen to a handed-over handle it was closed exactly once,
      by the side the verdict names, and the rundown unit is back. */
  lemma ClosedExactlyOnce(kind: Kind, ls: seq<Label>, n: nat)
    requires After(Init(kind), ls).Some? && n < |After(Init(kind), ls).value.calls|
    requires After(Init(kind), ls).value.calls[n].event.HandOver?
    requires forall l :: About(l, n) ==> !Enabled(After(Init(kind), ls).value, l)
    ensures var x := After(Init(kind), ls).value.calls[n];
      && x.pc.Answered?
      && (x.pc.verdict.Rejected? ==> x.nativeCloses == 1 && x.adapterCloses == 0)
      && (x.pc.verdict.Fine? ==> x.nativeCloses == 0 && x.adapterCloses == 1)
      && !x.unit.Held?
  {
    RunKeeps(kind, ls);
    var w := After(Init(kind), ls).value;
    assert CallOk(w.calls[n]);
    StuckIsAnswered(w, n);
    StuckIsClosed(w.calls[n], n);
  }

  lemma StuckIsClosed(x: Invocation, n: nat)
    requires CallOk(x) && x.pc.Answered? && x.event.HandOver?
    requires !CallEnabled(x, NativeCloses(n)) && !CallEnabled(x, FrontendDrops(n))
    ensures x.pc.verdict.Rejected? ==> x.nativeCloses == 1 && x.adapterCloses == 0
    ensures x.pc.verdict.Fine? ==> x.nativeCloses == 0 && x.adapterCloses == 1
    ensures !x.unit.Held?
  {
  }

  lemma StuckIsAnswered(w: World, n: nat)
    requires n < |w.calls|
    requires forall l :: About(l, n) ==> !Enabled(w, l)
    ensures w.calls[n].pc.Answered?
    ensures !CallEnabled(w.calls[n], NativeCloses(n)) && !CallEnabled(w.calls[n], FrontendDrops(n))
  {
    assert About(NativeCloses(n), n) && About(FrontendDrops(n), n);
    assert About(Enter(n), n) && About(Panic(n), n) && About(Unwind(n), n);
    assert About(Recover(n), n) && About(Poison(n), n);
    assert About(Act(n), n);
  }

  // ------------------------------------------------------------------ it does end

  function Rank(pc: Pc): nat {
    match pc
    case Arrived => 14
    case Reserving => 13
    case Validating => 12
    case Taking => 11
    case Attaching => 10
    case Wrapped => 9
    case Delivering => 8
    case Discarding => 7
    case Refusing(_) => 7
    case Other => 7
    case Returning(_) => 6
    case Unwinding => 5
    case Recovering => 2
    case Poisoning => 1
    case Answered(_) => 0
  }

  function Work(x: Invocation): nat {
    3 * Rank(x.pc) + |x.todo| + (if x.unit.Held? then 1 else 0) + (if x.closed then 0 else 1)
  }

  lemma StepSpends(c: Ctx, x: Invocation, l: Label)
    requires OfCall(l) && CallEnabled(x, l) && Placed(x) && Truthful(x) && TodoOk(x)
    ensures Work(CallDo(c, x, l)) < Work(x)
  {
  }

  function CountAbout(ls: seq<Label>, n: nat): nat {
    if ls == [] then 0 else CountAbout(ls[..|ls| - 1], n) + (if About(ls[|ls| - 1], n) then 1 else 0)
  }

  /** An invocation and its handle take at most 43 steps, panics and drops included,
      however many others run beside it. */
  lemma {:induction false} InvocationsEnd(kind: Kind, ls: seq<Label>, n: nat)
    requires After(Init(kind), ls).Some?
    ensures var w := After(Init(kind), ls).value;
      if n < |w.calls| then CountAbout(ls, n) + Work(w.calls[n]) <= 43 else CountAbout(ls, n) == 0
    decreases |ls|
  {
    if ls != [] {
      var front := ls[..|ls| - 1];
      InvocationsEnd(kind, front, n);
      RunKeeps(kind, front);
      var w, l := After(Init(kind), front).value, ls[|ls| - 1];
      if About(l, n) {
        assert CallOk(w.calls[n]);
        StepSpends(w.ctx, w.calls[n], l);
      }
    }
  }

  // --------------------------------------------------------------------- poisoning

  /** A poisoned context keeps no waiter. A connection has lost every sender and records
      why; later accepts find that cause. A listener has resolved its shutdown and queued
      one end marker, which ends the accept that reads it; its accept sender stays, so an
      accept made after the marker was read waits again. */
  lemma PoisonLeavesNobodyWaiting(kind: Kind, ls: seq<Label>)
    requires After(Init(kind), ls).Some? && After(Init(kind), ls).value.ctx.poisoned
    ensures var c := After(Init(kind), ls).value.ctx;
      && !c.connected && !c.uni && !c.bidi && !c.shutdown
      && (if kind.ConnectionSite? then c.terminal.terminal.Some? && c.forced else c.endQueued)
  {
    RunKeeps(kind, ls);
  }

  /** An acceptor that finds its sender gone finds a recorded cause in the slot, at
      every point between the single actions of refusals, teardown and recover. */
  lemma WokenAcceptorsFindACause(ls: seq<Label>)
    requires After(Init(ConnectionSite), ls).Some?
    requires var c := After(Init(ConnectionSite), ls).value.ctx; !c.uni || !c.bidi
    ensures After(Init(ConnectionSite), ls).value.ctx.terminal.terminal.Some?
  {
    RunKeeps(ConnectionSite, ls);
  }

  /** Poison is permanent, and whoever enters afterwards leaves the handle alone. */
  lemma PoisonRefusesHandles(kind: Kind, ls: seq<Label>, l: Label)
    requires After(Init(kind), ls).Some? && After(Init(kind), ls).value.ctx.poisoned
    requires Enabled(After(Init(kind), ls).value, l)
    ensures var w := After(Init(kind), ls).value;
      && Do(w, l).ctx.poisoned
      && (l.Enter? && w.calls[l.n].event.HandOver? ==>
            Do(w, l).calls[l.n].pc == Answered(Rejected(InternalError)) && Do(w, l).calls[l.n].owner.Native?)
  {
    RunKeeps(kind, ls);
    var w := After(Init(kind), ls).value;
    if l.Enter? {
      assert CallOk(w.calls[l.n]);
    } else if OfCall(l) {
      PoisonStep(w.ctx, w.calls[l.n], l);
    }
  }

  // ------------------------------------------------------------- the rundown unit

  /** Exactly when a listener's rundown unit comes back while the connection's handle is
      still open: the configuration was refused, a panic struck before the handle was
      taken, or one struck inside `attach` before handle and guard were wrapped. In the
      first two the native side closes afterwards, so these are the handles never taken;
      in every other case Close comes first. */
  lemma UnitComesBackEarlyIff(ls: seq<Label>, n: nat)
    requires After(Init(ListenerSite), ls).Some? && n < |After(Init(ListenerSite), ls).value.calls|
    requires After(Init(ListenerSite), ls).value.calls[n].unit.Given?
    ensures var x := After(Init(ListenerSite), ls).value.calls[n];
      && (x.early <==> WasRefused(x) || LostBeforeTake(x) || x.unwoundFrom == Some(Attaching))
      && (x.early <==> !x.token || x.unwoundFrom == Some(Attaching))
      && (!x.early ==> x.closed)
  {
    RunKeeps(ListenerSite, ls);
    assert OneOk(ListenerSite, After(Init(ListenerSite), ls).value.calls[n]);
  }

  /** No panic is needed: a refused configuration gives the unit back while the handle is
      open and nobody has closed it. */
  lemma RefusalReleasesEarly() returns (ls: seq<Label>)
    ensures After(Init(ListenerSite), ls).Some? && |After(Init(ListenerSite), ls).value.calls| == 1
    ensures var x := After(Init(ListenerSite), ls).value.calls[0];
      x.early && x.unit.Given? && !x.closed && x.owner.Native? && x.unwoundFrom.None?
  {
    var w;
    ls, w := ReachValidation();
    ls, w := Follow(Init(ListenerSite), ls, w, Validate(0, Refused(InternalError)));
    ls, w := Follow(Init(ListenerSite), ls, w, Refuse(0));
  }

  /** The exception is real: one call, one panic inside `attach`. */
  lemma AttachPanicReleasesEarly() returns (ls: seq<Label>)
    ensures After(Init(ListenerSite), ls).Some? && |After(Init(ListenerSite), ls).value.calls| == 1
    ensures var x := After(Init(ListenerSite), ls).value.calls[0];
      x.early && x.unit.Given? && !x.closed && x.owner.Callback?
  {
    var w;
    ls, w := ReachAttach();
    ls, w := Follow(Init(ListenerSite), ls, w, Panic(0));
    ls, w := Follow(Init(ListenerSite), ls, w, Unwind(0));
  }

  lemma ReachAttach() returns (ls: seq<Label>, w: World)
    ensures After(Init(ListenerSite), ls) == Some(w) && |w.calls| == 1
    ensures w.calls[0] == FreshCall(HandOver(false))
      .(pc := Attaching, token := true, answer := Some(Accepted(0)), owner := Callback, unit := Held)
  {
    ls, w := ReachValidation();
    ls, w := Follow(Init(ListenerSite), ls, w, Validate(0, Accepted(0)));
    ls, w := Follow(Init(ListenerSite), ls, w, Take(0));
  }

  lemma ReachValidation() returns (ls: seq<Label>, w: World)
    ensures After(Init(ListenerSite), ls) == Some(w) && w.ctx == Init(ListenerSite).ctx && |w.calls| == 1
    ensures w.calls[0] == FreshCall(HandOver(false)).(pc := Validating, unit := Held)
  {
    ls, w := [], Init(ListenerSite);
    ls, w := Follow(Init(ListenerSite), ls, w, Arrive(HandOver(false)));
    ls, w := Follow(Init(ListenerSite), ls, w, Enter(0));
    ls, w := Follow(Init(ListenerSite), ls, w, Reserve(0));
  }
}
