/** `guard_callback` around the listener's and the connection's callback bodies: the
    body may panic before any of its steps, parallel invocations run in between, and
    recover decides by this invocation's own token. */
module CallbackGuard {
  import opened Options
  import opened Terminals
  import opened Ownership
  import opened OwnershipTheorems

  /** Steps somebody else may take while invocation `n` runs. */
  predicate Foreign(l: Label, n: nat) {
    !About(l, n) || l.FrontendDrops? || l.NativeCloses?
  }

  /** A running invocation is only ever changed from outside once it was delivered. */
  predicate Untouched(x: Invocation, y: Invocation) {
    && y.event == x.event && y.pc == x.pc && y.todo == x.todo && y.token == x.token && y.owner == x.owner
    && y.unwoundFrom == x.unwoundFrom
    && (!x.owner.Frontend? && !x.pc.Answered? ==> y == x)
  }

  lemma ForeignFrame(w: World, l: Label, n: nat)
    requires Enabled(w, l) && Foreign(l, n) && n < |w.calls|
    ensures n < |Do(w, l).calls| && Untouched(w.calls[n], Do(w, l).calls[n]) && Do(w, l).ctx.kind == w.ctx.kind
  {
    if OfCall(l) {
      StepAdvances(w.ctx, w.calls[l.n], l);
    }
  }

  class CallbackSite {
    var ctx: Ctx
    var calls: seq<Invocation>

    function View(): World
      reads this
    {
      World(ctx, calls)
    }

    constructor (kind: Kind)
      ensures View() == Init(kind)
    {
      ctx, calls := Init(kind).ctx, [];
    }

    ghost predicate Tracks(w0: World, ls: seq<Label>)
      reads this
    {
      After(w0, ls) == Some(View())
    }

    /** Invocation `n` is at `pc` of a tracked run. */
    ghost predicate At(w0: World, ls: seq<Label>, n: nat, pc: Pc)
      reads this
    {
      Tracks(w0, ls) && n < |calls| && calls[n].pc == pc
    }

    /** Any number of steps of everybody else. */
    method Interfere(n: nat, ghost w0: World, ghost ls0: seq<Label>) returns (ghost ls: seq<Label>)
      requires Tracks(w0, ls0) && n < |calls|
      modifies this
      ensures Tracks(w0, ls) && n < |calls| && Untouched(old(calls)[n], calls[n]) && ctx.kind == old(ctx).kind
    {
      ls := ls0;
      var left: nat := *;
      while left > 0
        invariant Tracks(w0, ls) && n < |calls| && Untouched(old(calls)[n], calls[n]) && ctx.kind == old(ctx).kind
      {
        var l: Label := *;
        if Enabled(View(), l) && Foreign(l, n) {
          Append(w0, ls, View(), l);
          ForeignFrame(View(), l, n);
          ls := ls + [l];
          var v := Do(View(), l);
          ctx, calls := v.ctx, v.calls;
        }
        left := left - 1;
      }
    }

    /** Before a step of the body: others run, and the body may panic. */
    method PanicPoint(n: nat, ghost w0: World, ghost ls0: seq<Label>) returns (panicked: bool, ghost ls: seq<Label>)
      requires Tracks(w0, ls0) && n < |calls| && InBody(calls[n].pc)
      modifies this
      ensures Tracks(w0, ls) && n < |calls| && ctx.kind == old(ctx).kind && calls[n].event == old(calls)[n].event
      ensures if panicked then calls[n].pc.Unwinding? else Untouched(old(calls)[n], calls[n])
    {
      ls := Interfere(n, w0, ls0);
      panicked := *;
      if panicked {
        Append(w0, ls, View(), Panic(n));
        ls := ls + [Panic(n)];
        calls := calls[n := calls[n].(pc := Unwinding, todo := [], unwoundFrom := Some(calls[n].pc))];
      }
    }

    /** The whole callback as the native side sees it: always answered, never unwound
        into the caller. */
    method GuardCallback(n: nat, ghost w0: World) returns (verdict: Verdict, ghost ls: seq<Label>)
      requires View() == w0 && Inv(w0) && n < |calls| && calls[n].pc.Arrived?
      modifies this
      ensures At(w0, ls, n, Answered(verdict)) && Inv(View())
      ensures calls[n].event.HandOver? ==> (verdict.Rejected? <==> calls[n].owner.Native?)
    {
      verdict, ls := GuardedRun(n, w0);
      RunsKeep(w0, ls);
      assert CallOk(View().calls[n]);
    }

    method GuardedRun(n: nat, ghost w0: World) returns (verdict: Verdict, ghost ls: seq<Label>)
      requires View() == w0 && n < |calls| && calls[n].pc.Arrived?
      modifies this
      ensures At(w0, ls, n, Answered(verdict))
    {
      Append(w0, [], View(), Enter(n));
      ls := [] + [Enter(n)];
      var poisonedResult := PoisonDisposition(calls[n].event);
      var poisoned := ctx.poisoned;
      calls := calls[n := EnterCall(ctx, calls[n])];
      if poisoned {
        return poisonedResult, ls;
      }
      var panicked;
      panicked, verdict, ls := RunBody(n, w0, ls);
      if panicked {
        verdict, ls := UnwindAndRecover(n, w0, ls);
      }
    }

    /** The event dispatch; the last panic point is just before the body returns. */
    method RunBody(n: nat, ghost w0: World, ghost ls0: seq<Label>)
      returns (panicked: bool, verdict: Verdict, ghost ls: seq<Label>)
      requires Tracks(w0, ls0) && n < |calls|
      requires calls[n].pc ==
        if !calls[n].event.HandOver? then Other else if ctx.kind.ListenerSite? then Reserving else Validating
      requires !calls[n].event.HandOver? ==> calls[n].todo == HandlingActs(ctx.kind, calls[n].event)
      modifies this
      ensures At(w0, ls, n, if panicked then Unwinding else Answered(verdict))
    {
      verdict := Fine;
      if !calls[n].event.HandOver? {
        panicked, ls := OtherEvent(n, w0, ls0);
      } else if ctx.kind.ListenerSite? {
        panicked, verdict, ls := NewConnection(n, w0, ls0);
      } else {
        panicked, verdict, ls := ValidateTakeDeliver(n, w0, ls0);
      }
      if !panicked {
        panicked, ls := PanicPoint(n, w0, ls);
        if !panicked {
          Append(w0, ls, View(), Return(n));
          ls := ls + [Return(n)];
          calls := calls[n := calls[n].(pc := Answered(verdict))];
        }
      }
    }

    /** A listener reserves its rundown unit first. */
    method NewConnection(n: nat, ghost w0: World, ghost ls0: seq<Label>)
      returns (panicked: bool, verdict: Verdict, ghost ls: seq<Label>)
      requires At(w0, ls0, n, Reserving)
      modifies this
      ensures At(w0, ls, n, if panicked then Unwinding else Returning(verdict))
    {
      verdict := Fine;
      panicked, ls := PanicPoint(n, w0, ls0);
      if !panicked {
        Append(w0, ls, View(), Reserve(n));
        ls := ls + [Reserve(n)];
        calls := calls[n := calls[n].(pc := Validating, unit := Held)];
        panicked, verdict, ls := ValidateTakeDeliver(n, w0, ls);
      }
    }

    /** Validate while borrowed; only then take, attach and deliver. */
    method ValidateTakeDeliver(n: nat, ghost w0: World, ghost ls0: seq<Label>)
      returns (panicked: bool, verdict: Verdict, ghost ls: seq<Label>)
      requires At(w0, ls0, n, Validating)
      modifies this
      ensures At(w0, ls, n, if panicked then Unwinding else Returning(verdict))
    {
      verdict := Fine;
      var refusal;
      panicked, refusal, ls := ValidateHandle(n, w0, ls0);
      if panicked {
        return;
      }
      if refusal.Some? {
        panicked, ls := RefuseHandle(n, refusal.value, w0, ls);
        verdict := Rejected(refusal.value);
      } else {
        panicked, ls := TakeAndDeliver(n, w0, ls);
      }
    }

    method ValidateHandle(n: nat, ghost w0: World, ghost ls0: seq<Label>)
      returns (panicked: bool, refusal: Option<Status>, ghost ls: seq<Label>)
      requires At(w0, ls0, n, Validating)
      modifies this
      ensures At(w0, ls, n, if panicked then Unwinding else if refusal.Some? then Refusing(refusal.value) else Taking)
    {
      refusal := None;
      panicked, ls := PanicPoint(n, w0, ls0);
      if !panicked {
        var answer: Answer := *;
        Append(w0, ls, View(), Validate(n, answer));
        ls := ls + [Validate(n, answer)];
        refusal := AskNative(n, answer);
      }
    }

    method TakeAndDeliver(n: nat, ghost w0: World, ghost ls0: seq<Label>) returns (panicked: bool, ghost ls: seq<Label>)
      requires At(w0, ls0, n, Taking)
      modifies this
      ensures At(w0, ls, n, if panicked then Unwinding else Returning(Fine))
    {
      panicked, ls := TakeAndAttach(n, w0, ls0);
      if !panicked {
        panicked, ls := DeliverHandle(n, w0, ls);
      }
    }

    /** On a connection a failed stream-id query is an internal fault of the whole
        connection, still to be recorded and told to the acceptors. */
    method AskNative(n: nat, answer: Answer) returns (refusal: Option<Status>)
      requires n < |calls| && calls[n].pc.Validating?
      modifies this
      ensures View() == Do(old(View()), Validate(n, answer))
      ensures |calls| == |old(calls)| && ctx == old(ctx)
      ensures calls[n].pc == if refusal.Some? then Refusing(refusal.value) else Taking
      ensures refusal.Some? ==> calls[n].todo == RefusalActs(ctx.kind, answer)
    {
      if Valid(ctx, answer) {
        refusal := None;
        calls := calls[n := calls[n].(pc := Taking, answer := Some(answer))];
      } else {
        refusal := Some(RefusalOf(answer));
        calls := calls[n := calls[n].(pc := Refusing(RefusalOf(answer)), todo := RefusalActs(ctx.kind, answer),
                                      answer := Some(answer))];
      }
    }

    /** The pending actions one by one, with everybody else in between; in the body a
        panic may strike before each. */
    method TakeActions(n: nat, mayPanic: bool, ghost w0: World, ghost ls0: seq<Label>)
      returns (panicked: bool, ghost ls: seq<Label>)
      requires Tracks(w0, ls0) && n < |calls|
      requires calls[n].pc.Other? || calls[n].pc.Refusing? || calls[n].pc.Recovering?
      requires mayPanic ==> InBody(calls[n].pc)
      modifies this
      ensures Tracks(w0, ls) && n < |calls| && (panicked ==> mayPanic)
      ensures ctx.kind == old(ctx).kind && calls[n].event == old(calls)[n].event
      ensures if panicked then calls[n].pc.Unwinding? else calls[n].pc == old(calls)[n].pc && calls[n].todo == []
    {
      ls := ls0;
      panicked := false;
      while !panicked && calls[n].todo != []
        invariant Tracks(w0, ls) && n < |calls| && (panicked ==> mayPanic)
        invariant ctx.kind == old(ctx).kind && calls[n].event == old(calls)[n].event
        invariant if panicked then calls[n].pc.Unwinding? else calls[n].pc == old(calls)[n].pc
        decreases !panicked, |calls[n].todo|
      {
        if mayPanic {
          panicked, ls := PanicPoint(n, w0, ls);
        } else {
          ls := Interfere(n, w0, ls);
        }
        if !panicked {
          ls := TakeAction(n, w0, ls);
        }
      }
    }

    method TakeAction(n: nat, ghost w0: World, ghost ls0: seq<Label>) returns (ghost ls: seq<Label>)
      requires Tracks(w0, ls0) && n < |calls| && calls[n].todo != []
      modifies this
      ensures Tracks(w0, ls) && |calls| == |old(calls)| && ctx.kind == old(ctx).kind
      ensures calls[n] == old(calls)[n].(todo := old(calls)[n].todo[1..])
    {
      Append(w0, ls0, View(), Act(n));
      ls := ls0 + [Act(n)];
      PerformAction(calls[n].todo[0]);
      calls := calls[n := calls[n].(todo := calls[n].todo[1..])];
    }

    method PerformAction(a: Action)
      modifies this`ctx
      ensures ctx == Perform(old(ctx), a) && ctx.kind == old(ctx).kind
    {
      match a {
        case RecordAct(cause) => ctx := ctx.(terminal := Record(ctx.terminal, cause));
        case TakeConnected => ctx := ctx.(connected := false);
        case TakeUni => ctx := ctx.(uni := false);
        case TakeBidi => ctx := ctx.(bidi := false);
        case TakeShutdown => ctx := ctx.(shutdown := false);
        case QueueEnd => ctx := ctx.(endQueued := true);
        case ForceShutdown => ctx := ctx.(forced := true);
      }
    }

    /** Nothing was taken: the fault is reported, a reserved unit goes back, and the native
        side closes. */
    method RefuseHandle(n: nat, status: Status, ghost w0: World, ghost ls0: seq<Label>)
      returns (panicked: bool, ghost ls: seq<Label>)
      requires At(w0, ls0, n, Refusing(status))
      modifies this
      ensures At(w0, ls, n, if panicked then Unwinding else Returning(Rejected(status)))
    {
      panicked, ls := TakeActions(n, true, w0, ls0);
      if !panicked {
        panicked, ls := PanicPoint(n, w0, ls);
      }
      if !panicked {
        ls := ReleaseReserved(n, status, w0, ls);
        Append(w0, ls, View(), Refuse(n));
        ls := ls + [Refuse(n)];
        calls := calls[n := calls[n].(pc := Returning(Rejected(status)))];
      }
    }

    method ReleaseReserved(n: nat, status: Status, ghost w0: World, ghost ls0: seq<Label>)
      returns (ghost ls: seq<Label>)
      requires At(w0, ls0, n, Refusing(status)) && calls[n].todo == []
      modifies this
      ensures At(w0, ls, n, Refusing(status)) && calls[n].todo == [] && !calls[n].unit.Held?
    {
      ls := ls0;
      if calls[n].unit.Held? {
        Append(w0, ls, View(), Refuse(n));
        ls := ls + [Refuse(n)];
        calls := calls[n := GiveUnit(calls[n])];
      }
    }

    /** Taking the raw handle and setting the token cannot be told apart by a panic. */
    method TakeAndAttach(n: nat, ghost w0: World, ghost ls0: seq<Label>) returns (panicked: bool, ghost ls: seq<Label>)
      requires At(w0, ls0, n, Taking)
      modifies this
      ensures At(w0, ls, n, if panicked then Unwinding else Delivering)
    {
      panicked, ls := PanicPoint(n, w0, ls0);
      if !panicked {
        Append(w0, ls, View(), Take(n));
        ls := ls + [Take(n)];
        TakeHandle(n);
        panicked, ls := WrapAndAttach(n, w0, ls);
      }
    }

    method TakeHandle(n: nat)
      requires n < |calls| && calls[n].pc.Taking?
      modifies this`calls
      ensures View() == Do(old(View()), Take(n)) && |calls| == |old(calls)| && calls[n].pc == Attaching
    {
      calls := calls[n := calls[n].(pc := Attaching, token := true, owner := Callback)];
    }

    /** Handle and guard become one struct; the rest of `attach` may still panic. */
    method WrapAndAttach(n: nat, ghost w0: World, ghost ls0: seq<Label>) returns (panicked: bool, ghost ls: seq<Label>)
      requires At(w0, ls0, n, Attaching)
      modifies this
      ensures At(w0, ls, n, if panicked then Unwinding else Delivering)
    {
      panicked, ls := PanicPoint(n, w0, ls0);
      if !panicked {
        Append(w0, ls, View(), Wrap(n));
        ls := ls + [Wrap(n)];
        MoveTo(n, Wrapped, Wrap(n));
        panicked, ls := FinishAttach(n, w0, ls);
      }
    }

    method FinishAttach(n: nat, ghost w0: World, ghost ls0: seq<Label>) returns (panicked: bool, ghost ls: seq<Label>)
      requires At(w0, ls0, n, Wrapped)
      modifies this
      ensures At(w0, ls, n, if panicked then Unwinding else Delivering)
    {
      panicked, ls := PanicPoint(n, w0, ls0);
      if !panicked {
        Append(w0, ls, View(), Attach(n));
        ls := ls + [Attach(n)];
        MoveTo(n, Delivering, Attach(n));
      }
    }

    /** Steps that only move on. */
    method MoveTo(n: nat, pc: Pc, ghost l: Label)
      requires n < |calls| && Enabled(View(), l)
      requires (l == Wrap(n) && pc == Wrapped) || (l == Attach(n) && pc == Delivering)
      modifies this`calls
      ensures View() == Do(old(View()), l) && |calls| == |old(calls)| && calls[n].pc == pc
    {
      calls := calls[n := calls[n].(pc := pc)];
    }

    /** A handle that finds no receiver is dropped here, and the answer stays Ok. */
    method DeliverHandle(n: nat, ghost w0: World, ghost ls0: seq<Label>) returns (panicked: bool, ghost ls: seq<Label>)
      requires At(w0, ls0, n, Delivering)
      modifies this
      ensures At(w0, ls, n, if panicked then Unwinding else Returning(Fine))
    {
      panicked, ls := PanicPoint(n, w0, ls0);
      if panicked {
        return;
      }
      Append(w0, ls, View(), Deliver(n));
      ls := ls + [Deliver(n)];
      if Receives(ctx, calls[n].event) {
        calls := calls[n := calls[n].(pc := Returning(Fine), owner := Frontend)];
      } else {
        calls := calls[n := calls[n].(pc := Discarding)];
        panicked, ls := DiscardHandle(n, w0, ls);
      }
    }

    method DiscardHandle(n: nat, ghost w0: World, ghost ls0: seq<Label>) returns (panicked: bool, ghost ls: seq<Label>)
      requires At(w0, ls0, n, Discarding)
      modifies this
      ensures At(w0, ls, n, if panicked then Unwinding else Returning(Fine))
    {
      panicked, ls := PanicPoint(n, w0, ls0);
      while !panicked && !(calls[n].closed && !calls[n].unit.Held?)
        invariant At(w0, ls, n, if panicked then Unwinding else Discarding)
        decreases Work(calls[n])
      {
        Append(w0, ls, View(), Discard(n));
        ls := ls + [Discard(n)];
        calls := calls[n := DropWrapped(calls[n])];
      }
      if !panicked {
        Append(w0, ls, View(), Discard(n));
        ls := ls + [Discard(n)];
        calls := calls[n := calls[n].(pc := Returning(Fine))];
      }
    }

    /** The arms that hand nothing over: record, then take the senders, one by one. */
    method OtherEvent(n: nat, ghost w0: World, ghost ls0: seq<Label>) returns (panicked: bool, ghost ls: seq<Label>)
      requires At(w0, ls0, n, Other)
      modifies this
      ensures At(w0, ls, n, if panicked then Unwinding else Returning(Fine))
    {
      panicked, ls := TakeActions(n, true, w0, ls0);
      if !panicked {
        Append(w0, ls, View(), RunOther(n));
        ls := ls + [RunOther(n)];
        calls := calls[n := calls[n].(pc := Returning(Fine))];
      }
    }

    /** A caught panic: the frames' values are dropped, the waiters woken, the context
        poisoned, and the token picks the answer. */
    method UnwindAndRecover(n: nat, ghost w0: World, ghost ls0: seq<Label>)
      returns (verdict: Verdict, ghost ls: seq<Label>)
      requires At(w0, ls0, n, Unwinding)
      modifies this
      ensures At(w0, ls, n, Answered(verdict))
    {
      ls := DropFrames(n, w0, ls0);
      ls := RecoverContext(n, w0, ls);
      ls := Interfere(n, w0, ls);
      verdict, ls := PoisonContext(n, w0, ls);
    }

    method DropFrames(n: nat, ghost w0: World, ghost ls0: seq<Label>) returns (ghost ls: seq<Label>)
      requires At(w0, ls0, n, Unwinding)
      modifies this
      ensures At(w0, ls, n, Recovering)
    {
      ls := ls0;
      while calls[n].pc.Unwinding?
        invariant Tracks(w0, ls) && n < |calls| && (calls[n].pc.Unwinding? || calls[n].pc.Recovering?)
        decreases calls[n].pc.Unwinding?, DropsLeft(calls[n])
      {
        ls := DropOne(n, w0, ls);
      }
    }

    method DropOne(n: nat, ghost w0: World, ghost ls0: seq<Label>) returns (ghost ls: seq<Label>)
      requires At(w0, ls0, n, Unwinding)
      modifies this
      ensures Tracks(w0, ls) && n < |calls|
      ensures calls[n].pc.Recovering? || (calls[n].pc.Unwinding? && DropsLeft(calls[n]) < old(DropsLeft(calls[n])))
    {
      Append(w0, ls0, View(), Unwind(n));
      ls := ls0 + [Unwind(n)];
      UnwindOne(n);
    }

    method UnwindOne(n: nat)
      requires n < |calls| && calls[n].pc.Unwinding?
      modifies this`calls
      ensures View() == Do(old(View()), Unwind(n)) && |calls| == |old(calls)|
      ensures calls[n].pc.Recovering? || (calls[n].pc.Unwinding? && DropsLeft(calls[n]) < old(DropsLeft(calls[n])))
    {
      calls := calls[n := UnwindCall(ctx, calls[n])];
    }

    /** Recover wakes whoever waits before anything is poisoned. */
    method RecoverContext(n: nat, ghost w0: World, ghost ls0: seq<Label>) returns (ghost ls: seq<Label>)
      requires At(w0, ls0, n, Recovering)
      modifies this
      ensures At(w0, ls, n, Poisoning)
    {
      var panicked;
      panicked, ls := TakeActions(n, false, w0, ls0);
      Append(w0, ls, View(), Recover(n));
      ls := ls + [Recover(n)];
      calls := calls[n := calls[n].(pc := Poisoning)];
    }

    method PoisonContext(n: nat, ghost w0: World, ghost ls0: seq<Label>)
      returns (verdict: Verdict, ghost ls: seq<Label>)
      requires At(w0, ls0, n, Poisoning)
      modifies this
      ensures At(w0, ls, n, Answered(verdict)) && ctx.poisoned
      ensures verdict == if calls[n].token then Fine else Rejected(InternalError)
    {
      Append(w0, ls0, View(), Poison(n));
      ls := ls0 + [Poison(n)];
      verdict := if calls[n].token then Fine else Rejected(InternalError);
      calls := calls[n := calls[n].(pc := Answered(verdict))];
      ctx := ctx.(poisoned := true);
    }
  }

  /** Values the unwound frames still own. */
  function DropsLeft(x: Invocation): nat {
    (if x.unit.Held? then 1 else 0) + (if x.closed then 0 else 1)
  }
}
