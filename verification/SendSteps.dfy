/** Every step of every thread keeps the send half's invariant. */
module SendSteps {
  import opened Options
  import opened Terminals
  import opened SendReducer
  import opened SendProtocol
  import opened SendInvariant

  // ------------------------------------------------------------- frontend actions

  /** A read of both slots is complete: the reducer takes its input. */
  function Reduced(w: World): World
    requires w.s.pc.PeekConn?
  {
    w.(s := Reduce(w.s, Fill(w.s.pc.prep, Resolve(w.s.pc.loaded, w.conn.terminal))))
  }

  lemma InvokeKeepsCore(w: World, c: Call)
    requires InvCore(w)
    requires w.s.pc.Idle?
    ensures var v := w.(s := Begin(w.conn, w.s, c));
      InvCore(v)
  {
  }

  lemma InvokeKeepsDone(w: World, c: Call)
    requires InvCore(w) && InvDone(w)
    requires w.s.pc.Idle?
    ensures var v := w.(s := Begin(w.conn, w.s, c));
      InvDone(v)
  {
  }

  lemma InvokeKeepsTold(w: World, c: Call)
    requires InvCore(w) && InvDone(w) && InvTold(w)
    requires w.s.pc.Idle?
    ensures var v := w.(s := Begin(w.conn, w.s, c));
      InvTold(v)
  {
  }

  lemma GuardLoadKeeps(w: World)
    requires InvCore(w) && InvDone(w) && InvTold(w)
    requires w.s.pc.GuardLoad?
    ensures var v := w.(s := w.s.(pc := GuardPeek(w.s.slot)));
      InvCore(v) && InvDone(v) && InvTold(v)
  {
  }

  lemma GuardPeekKeepsCore(w: World)
    requires InvCore(w)
    requires w.s.pc.GuardPeek?
    ensures var v := FrontStep(w, None);
      InvCore(v)
  {
  }

  lemma GuardPeekKeepsDone(w: World)
    requires InvCore(w) && InvDone(w)
    requires w.s.pc.GuardPeek?
    ensures var v := FrontStep(w, None);
      InvDone(v)
  {
  }

  lemma GuardPeekKeepsTold(w: World)
    requires InvCore(w) && InvDone(w) && InvTold(w)
    requires w.s.pc.GuardPeek?
    ensures var v := FrontStep(w, None);
      InvTold(v)
  {
  }

  lemma ReadKeepsCore(w: World)
    requires InvCore(w)
    requires w.s.pc.ReadChannel?
    ensures var v := w.(s := PollChannel(w.conn, w.s));
      InvCore(v)
  {
  }

  lemma ReadKeepsDone(w: World)
    requires InvCore(w) && InvDone(w)
    requires w.s.pc.ReadChannel?
    ensures var v := w.(s := PollChannel(w.conn, w.s));
      InvDone(v)
  {
  }

  lemma ReadKeepsTold(w: World)
    requires InvCore(w) && InvDone(w) && InvTold(w)
    requires w.s.pc.ReadChannel?
    ensures var v := w.(s := PollChannel(w.conn, w.s));
      InvTold(v)
  {
  }

  lemma LoadKeeps(w: World)
    requires InvCore(w) && InvDone(w) && InvTold(w)
    requires w.s.pc.LoadSlot?
    ensures var v := w.(s := w.s.(pc := PeekConn(w.s.pc.prep, w.s.slot)));
      InvCore(v) && InvDone(v) && InvTold(v)
  {
  }

  lemma RequestedStepKeepsShape(w: World)
    requires InvCore(w)
    requires w.s.pc.PeekConn? && w.s.pc.prep.Requested?
    ensures var v := Reduced(w); InvShape(v.s)
  {
  }

  lemma RequestedStepKeepsSlots(w: World)
    requires InvCore(w)
    requires w.s.pc.PeekConn? && w.s.pc.prep.Requested?
    ensures var v := Reduced(w); InvLoaded(v.s) && InvFlight(v) && InvWake(v.s) && InvConn(v)
  {
  }

  lemma RequestedStepKeepsVerbs(w: World)
    requires InvCore(w) && InvVerbs(w.s) && InvSteps(w.s)
    requires w.s.pc.PeekConn? && w.s.pc.prep.Requested?
    ensures var v := Reduced(w); InvVerbs(v.s) && InvSteps(v.s)
  {
  }

  lemma RequestedStepKeepsCancel(w: World)
    requires InvCore(w) && InvMarker(w.s) && InvCancel(w)
    requires w.s.pc.PeekConn? && w.s.pc.prep.Requested?
    ensures var v := Reduced(w); InvMarker(v.s) && InvCancel(v)
  {
  }

  lemma RequestedStepKeepsTold(w: World)
    requires InvCore(w) && InvDone(w) && InvTold(w)
    requires w.s.pc.PeekConn? && w.s.pc.prep.Requested?
    ensures var v := Reduced(w); InvTold(v)
  {
  }

  lemma SubmittedStepKeepsCore(w: World)
    requires InvCore(w)
    requires w.s.pc.PeekConn? && w.s.pc.prep.Submitted?
    ensures var v := Reduced(w); InvCore(v)
  {
  }

  lemma SubmittedStepKeepsDone(w: World)
    requires InvCore(w) && InvDone(w)
    requires w.s.pc.PeekConn? && w.s.pc.prep.Submitted?
    ensures var v := Reduced(w); InvDone(v)
  {
  }

  lemma SubmittedStepKeepsTold(w: World)
    requires InvCore(w) && InvDone(w) && InvTold(w)
    requires w.s.pc.PeekConn? && w.s.pc.prep.Submitted?
    ensures var v := Reduced(w); InvTold(v)
  {
  }

  /** What the reducer makes of a reset: nothing to do, or the reset itself. */
  lemma ResetAskedAnswers(f: SendFlags, code: nat, terminal: SendSlot)
    requires Reserved(f, false, false, false)
    ensures var (g, cmd) := Transition(f, ResetInput(code, terminal));
      (cmd.NoOp? && g == f) || (cmd.SubmitReset? && g == f.(resetSubmitting := true))
  {
  }

  lemma ResetAskedStepKeepsShape(w: World)
    requires InvCore(w)
    requires w.s.pc.PeekConn? && w.s.pc.prep.ResetAsked?
    ensures var v := Reduced(w); InvShape(v.s)
  {
    ResetAskedAnswers(w.s.flags, w.s.pc.prep.code, Resolve(w.s.pc.loaded, w.conn.terminal));
  }

  lemma ResetAskedStepKeepsSlots(w: World)
    requires InvCore(w)
    requires w.s.pc.PeekConn? && w.s.pc.prep.ResetAsked?
    ensures var v := Reduced(w); InvLoaded(v.s) && InvFlight(v) && InvWake(v.s) && InvConn(v)
  {
  }

  lemma ResetAskedStepKeepsDone(w: World)
    requires InvCore(w) && InvDone(w)
    requires w.s.pc.PeekConn? && w.s.pc.prep.ResetAsked?
    ensures var v := Reduced(w); InvDone(v)
  {
  }

  lemma ResetAskedStepKeepsTold(w: World)
    requires InvCore(w) && InvDone(w) && InvTold(w)
    requires w.s.pc.PeekConn? && w.s.pc.prep.ResetAsked?
    ensures var v := Reduced(w); InvTold(v)
  {
  }

  lemma GracefulDoneStepKeepsCore(w: World)
    requires InvCore(w)
    requires w.s.pc.PeekConn? && w.s.pc.prep.GracefulDone?
    ensures var v := Reduced(w); InvCore(v)
  {
  }

  lemma GracefulDoneStepKeepsDone(w: World)
    requires InvCore(w) && InvDone(w)
    requires w.s.pc.PeekConn? && w.s.pc.prep.GracefulDone?
    ensures var v := Reduced(w); InvDone(v)
  {
  }

  lemma GracefulDoneStepKeepsTold(w: World)
    requires InvCore(w) && InvDone(w) && InvTold(w)
    requires w.s.pc.PeekConn? && w.s.pc.prep.GracefulDone?
    ensures var v := Reduced(w); InvTold(v)
  {
  }

  lemma ResetDoneStepKeepsCore(w: World)
    requires InvCore(w)
    requires w.s.pc.PeekConn? && w.s.pc.prep.ResetDone?
    ensures var v := Reduced(w); InvCore(v)
  {
  }

  lemma ResetDoneStepKeepsDone(w: World)
    requires InvCore(w) && InvDone(w)
    requires w.s.pc.PeekConn? && w.s.pc.prep.ResetDone?
    ensures var v := Reduced(w); InvDone(v)
  {
  }

  lemma ResetDoneStepKeepsTold(w: World)
    requires InvCore(w) && InvDone(w) && InvTold(w)
    requires w.s.pc.PeekConn? && w.s.pc.prep.ResetDone?
    ensures var v := Reduced(w); InvTold(v)
  {
  }

  lemma ReadyCompleteStepKeepsShape(w: World)
    requires InvCore(w)
    requires w.s.pc.PeekConn? && w.s.pc.prep.Ready? && w.s.pc.HeldCompletes() == 1
    ensures var v := Reduced(w); InvShape(v.s)
  {
  }

  lemma ReadyCompleteStepKeepsSlots(w: World)
    requires InvCore(w)
    requires w.s.pc.PeekConn? && w.s.pc.prep.Ready? && w.s.pc.HeldCompletes() == 1
    ensures var v := Reduced(w); InvLoaded(v.s) && InvFlight(v) && InvWake(v.s) && InvConn(v)
  {
  }

  lemma ReadyCompleteStepKeepsVerbs(w: World)
    requires InvCore(w) && InvVerbs(w.s) && InvSteps(w.s)
    requires w.s.pc.PeekConn? && w.s.pc.prep.Ready? && w.s.pc.HeldCompletes() == 1
    ensures var v := Reduced(w); InvVerbs(v.s) && InvSteps(v.s)
  {
  }

  lemma ReadyCompleteStepKeepsCancel(w: World)
    requires InvCore(w) && InvMarker(w.s) && InvCancel(w)
    requires w.s.pc.PeekConn? && w.s.pc.prep.Ready? && w.s.pc.HeldCompletes() == 1
    ensures var v := Reduced(w); InvMarker(v.s) && InvCancel(v)
  {
  }

  lemma ReadyCompleteStepKeepsTold(w: World)
    requires InvCore(w) && InvDone(w) && InvTold(w)
    requires w.s.pc.PeekConn? && w.s.pc.prep.Ready? && w.s.pc.HeldCompletes() == 1
    ensures var v := Reduced(w); InvTold(v)
  {
  }

  lemma ReadyEventStepKeepsShape(w: World)
    requires InvShape(w.s) && InvLoaded(w.s) && InvWake(w.s)
    requires w.s.pc.PeekConn? && w.s.pc.prep.Ready? && w.s.pc.HeldCompletes() == 0 && w.s.pc.prep.poll.Event?
    ensures var v := Reduced(w); InvShape(v.s)
  {
  }

  lemma ReadyStepKeepsShape(w: World)
    requires InvShape(w.s) && InvLoaded(w.s)
    requires w.s.pc.PeekConn? && w.s.pc.prep.Ready? && !w.s.pc.prep.poll.Event?
    ensures var v := Reduced(w); InvShape(v.s)
  {
  }

  lemma ReadyStepKeepsSlots(w: World)
    requires InvCore(w)
    requires w.s.pc.PeekConn? && w.s.pc.prep.Ready? && w.s.pc.HeldCompletes() == 0
    ensures var v := Reduced(w); InvLoaded(v.s) && InvFlight(v) && InvWake(v.s) && InvConn(v)
  {
  }

  lemma ReadyStepKeepsVerbs(w: World)
    requires InvCore(w) && InvVerbs(w.s) && InvSteps(w.s)
    requires w.s.pc.PeekConn? && w.s.pc.prep.Ready? && w.s.pc.HeldCompletes() == 0
    ensures var v := Reduced(w); InvVerbs(v.s) && InvSteps(v.s)
  {
  }

  lemma ReadyStepKeepsCancel(w: World)
    requires InvCore(w) && InvMarker(w.s) && InvCancel(w)
    requires w.s.pc.PeekConn? && w.s.pc.prep.Ready? && w.s.pc.HeldCompletes() == 0
    ensures var v := Reduced(w); InvMarker(v.s) && InvCancel(v)
  {
  }

  lemma ReadyStepKeepsTold(w: World)
    requires InvCore(w) && InvDone(w) && InvTold(w)
    requires w.s.pc.PeekConn? && w.s.pc.prep.Ready? && w.s.pc.HeldCompletes() == 0
    ensures var v := Reduced(w); InvTold(v)
  {
  }

  lemma FinishCancelStepKeepsShape(w: World)
    requires InvShape(w.s) && InvLoaded(w.s) && InvFlight(w)
    requires w.s.pc.PeekConn? && w.s.pc.prep == Finish(Event(Complete(true)))
    ensures var v := Reduced(w); InvShape(v.s)
  {
  }

  lemma FinishCompleteStepKeepsShape(w: World)
    requires InvShape(w.s) && InvLoaded(w.s) && InvFlight(w)
    requires w.s.pc.PeekConn? && w.s.pc.prep == Finish(Event(Complete(false)))
    ensures var v := Reduced(w); InvShape(v.s)
  {
  }

  lemma FinishCompleteStepKeepsSlots(w: World)
    requires InvCore(w)
    requires w.s.pc.PeekConn? && w.s.pc.prep.Finish? && w.s.pc.HeldCompletes() == 1
    ensures var v := Reduced(w); InvLoaded(v.s) && InvFlight(v) && InvWake(v.s) && InvConn(v)
  {
  }

  lemma FinishCompleteStepKeepsVerbs(w: World)
    requires InvCore(w) && InvVerbs(w.s) && InvSteps(w.s)
    requires w.s.pc.PeekConn? && w.s.pc.prep.Finish? && w.s.pc.HeldCompletes() == 1
    ensures var v := Reduced(w); InvVerbs(v.s) && InvSteps(v.s)
  {
    if Complete(true) in w.s.chan.queue && CountCompletes(w.s.chan.queue) == 0 {
      CountZero(w.s.chan.queue, Complete(true));
    }
  }

  lemma FinishCompleteStepKeepsCancel(w: World)
    requires InvCore(w) && InvMarker(w.s) && InvCancel(w)
    requires w.s.pc.PeekConn? && w.s.pc.prep.Finish? && w.s.pc.HeldCompletes() == 1
    ensures var v := Reduced(w); InvMarker(v.s) && InvCancel(v)
  {
    if Complete(true) in w.s.chan.queue && CountCompletes(w.s.chan.queue) == 0 {
      CountZero(w.s.chan.queue, Complete(true));
    }
  }

  lemma FinishCompleteStepKeepsTold(w: World)
    requires InvCore(w) && InvDone(w) && InvTold(w)
    requires w.s.pc.PeekConn? && w.s.pc.prep.Finish? && w.s.pc.HeldCompletes() == 1
    ensures var v := Reduced(w); InvTold(v)
  {
  }

  lemma FinishWakeStepKeepsShape(w: World)
    requires InvShape(w.s) && InvLoaded(w.s) && InvWake(w.s)
    requires w.s.pc.PeekConn? && w.s.pc.prep == Finish(Event(TerminalWake))
    ensures var v := Reduced(w); InvShape(v.s)
  {
  }

  lemma FinishReportStepKeepsShape(w: World, graceful: bool)
    requires InvShape(w.s) && InvLoaded(w.s)
    requires w.s.pc.PeekConn? && w.s.pc.prep == Finish(Event(FinishComplete(graceful)))
    ensures var v := Reduced(w); InvShape(v.s)
  {
  }

  lemma FinishStepKeepsShape(w: World)
    requires InvShape(w.s) && InvLoaded(w.s) && InvWake(w.s)
    requires w.s.pc.PeekConn? && w.s.pc.prep.Finish? && !w.s.pc.prep.poll.Event?
    ensures var v := Reduced(w); InvShape(v.s)
  {
  }

  lemma FinishStepKeepsSlots(w: World)
    requires InvCore(w)
    requires w.s.pc.PeekConn? && w.s.pc.prep.Finish? && w.s.pc.HeldCompletes() == 0
    ensures var v := Reduced(w); InvLoaded(v.s) && InvFlight(v) && InvWake(v.s) && InvConn(v)
  {
  }

  lemma FinishStepKeepsVerbs(w: World)
    requires InvCore(w) && InvVerbs(w.s)
    requires w.s.pc.PeekConn? && w.s.pc.prep.Finish? && w.s.pc.HeldCompletes() == 0
    ensures var v := Reduced(w); InvVerbs(v.s)
  {
  }

  lemma FinishStepKeepsSteps(w: World)
    requires InvShape(w.s) && InvFlight(w) && InvWake(w.s) && InvSteps(w.s)
    requires w.s.pc.PeekConn? && w.s.pc.prep.Finish? && w.s.pc.HeldCompletes() == 0
    ensures var v := Reduced(w); InvSteps(v.s)
  {
  }

  lemma FinishStepKeepsMarker(w: World)
    requires InvCore(w) && InvMarker(w.s)
    requires w.s.pc.PeekConn? && w.s.pc.prep.Finish? && w.s.pc.HeldCompletes() == 0
    ensures var v := Reduced(w); InvMarker(v.s)
  {
  }

  lemma FinishStepKeepsCancel(w: World)
    requires InvCore(w) && InvMarker(w.s) && InvCancel(w)
    requires w.s.pc.PeekConn? && w.s.pc.prep.Finish? && w.s.pc.HeldCompletes() == 0
    ensures var v := Reduced(w); InvCancel(v)
  {
    if Complete(true) in w.s.chan.queue && CountCompletes(w.s.chan.queue) == 0 {
      CountZero(w.s.chan.queue, Complete(true));
    }
  }

  lemma FinishStepKeepsPark(w: World)
    requires InvCore(w) && InvDone(w) && InvPark(w.s) && InvOutcome(w)
    requires w.s.pc.PeekConn? && w.s.pc.prep.Finish? && w.s.pc.HeldCompletes() == 0
    ensures var v := Reduced(w); InvPark(v.s) && InvOutcome(v)
  {
  }

  lemma FinishStepKeepsEntry(w: World)
    requires InvCore(w) && InvDone(w) && InvEntry(w.s) && InvClean(w)
    requires w.s.pc.PeekConn? && w.s.pc.prep.Finish? && w.s.pc.HeldCompletes() == 0
    ensures var v := Reduced(w); InvEntry(v.s) && InvClean(v)
  {
  }

  lemma PublishKeepsShape(w: World)
    requires InvCore(w)
    requires w.s.pc.Run? && w.s.pc.cmd.PublishTerminal?
    ensures var v := Execute(w, w.s.pc.cmd, None);
      InvShape(v.s)
  {
  }

  lemma PublishKeepsSlots(w: World)
    requires InvCore(w)
    requires w.s.pc.Run? && w.s.pc.cmd.PublishTerminal?
    ensures var v := Execute(w, w.s.pc.cmd, None);
      InvLoaded(v.s) && InvFlight(v) && InvWake(v.s) && InvConn(v)
  {
  }

  lemma PublishKeepsVerbs(w: World)
    requires InvCore(w) && InvVerbs(w.s) && InvSteps(w.s)
    requires w.s.pc.Run? && w.s.pc.cmd.PublishTerminal?
    ensures var v := Execute(w, w.s.pc.cmd, None);
      InvVerbs(v.s) && InvSteps(v.s)
  {
  }

  lemma PublishKeepsCancel(w: World)
    requires InvCore(w) && InvMarker(w.s) && InvCancel(w)
    requires w.s.pc.Run? && w.s.pc.cmd.PublishTerminal?
    ensures var v := Execute(w, w.s.pc.cmd, None);
      InvMarker(v.s) && InvCancel(v)
  {
  }

  lemma PublishKeepsTold(w: World)
    requires InvCore(w) && InvDone(w) && InvTold(w)
    requires w.s.pc.Run? && w.s.pc.cmd.PublishTerminal?
    ensures var v := Execute(w, w.s.pc.cmd, None);
      InvTold(v)
  {
  }

  /** Commands that only tell the caller something. */
  predicate Tells(cmd: SendCommand) {
    || cmd.ReturnPending? || cmd.NoOp? || cmd.ReturnSent? || cmd.ReturnImmediateError? || cmd.ReturnReady?
    || cmd.ReturnFinished?
  }

  lemma ReturnKeepsCore(w: World)
    requires InvCore(w)
    requires w.s.pc.Run? && Tells(w.s.pc.cmd)
    ensures var v := w.(s := Return(w.s, Answer(w.s.call, w.s.pc.cmd)));
      InvCore(v)
  {
  }

  lemma ReturnKeepsDone(w: World)
    requires InvCore(w) && InvDone(w)
    requires w.s.pc.Run? && Tells(w.s.pc.cmd)
    ensures var v := w.(s := Return(w.s, Answer(w.s.call, w.s.pc.cmd)));
      InvDone(v)
  {
  }

  lemma ReturnKeepsTold(w: World)
    requires InvCore(w) && InvDone(w) && InvTold(w)
    requires w.s.pc.Run? && Tells(w.s.pc.cmd)
    ensures var v := w.(s := Return(w.s, Answer(w.s.call, w.s.pc.cmd)));
      InvTold(v)
  {
  }

  lemma DeliverKeepsCore(w: World)
    requires InvCore(w)
    requires w.s.pc.Run? && w.s.pc.cmd.ReturnError?
    ensures var v := Deliver(w, w.s.pc.cmd.cause);
      InvCore(v)
  {
  }

  lemma DeliverKeepsDone(w: World)
    requires InvCore(w) && InvDone(w)
    requires w.s.pc.Run? && w.s.pc.cmd.ReturnError?
    ensures var v := Deliver(w, w.s.pc.cmd.cause);
      InvDone(v)
  {
  }

  lemma DeliverKeepsTold(w: World)
    requires InvCore(w) && InvDone(w) && InvTold(w)
    requires w.s.pc.Run? && w.s.pc.cmd.ReturnError?
    ensures var v := Deliver(w, w.s.pc.cmd.cause);
      InvTold(v)
  {
  }

  lemma RepollKeeps(w: World)
    requires InvCore(w) && InvDone(w) && InvTold(w)
    requires w.s.pc.Run? && (w.s.pc.cmd.RepollReady? || w.s.pc.cmd.RepollFinish?)
    ensures var v := w.(s := w.s.(pc := ReadChannel));
      InvCore(v) && InvDone(v) && InvTold(v)
  {
  }

  lemma SubmitSendKeepsCore(w: World, r: NativeResult)
    requires InvCore(w)
    requires w.s.pc == Run(SubmitSend) && w.s.bufs.next !in w.s.bufs.outstanding
    ensures var v := w.(s := DoSubmitSend(w.conn, w.s, r));
      InvCore(v)
  {
    var o := w.s.bufs.outstanding;
    assert |o + {w.s.bufs.next}| == |o| + 1;
  }

  lemma SubmitSendKeepsVerbs(w: World, r: NativeResult)
    requires InvCore(w) && InvVerbs(w.s) && InvSteps(w.s)
    requires w.s.pc == Run(SubmitSend) && w.s.bufs.next !in w.s.bufs.outstanding
    ensures var v := w.(s := DoSubmitSend(w.conn, w.s, r));
      InvVerbs(v.s) && InvSteps(v.s)
  {
    assert (w.s.h.verbs + [VSend(r.None?)])[..|w.s.h.verbs|] == w.s.h.verbs;
  }

  lemma SubmitSendKeepsCancel(w: World, r: NativeResult)
    requires InvCore(w) && InvMarker(w.s) && InvCancel(w)
    requires w.s.pc == Run(SubmitSend) && w.s.bufs.next !in w.s.bufs.outstanding
    ensures var v := w.(s := DoSubmitSend(w.conn, w.s, r));
      InvMarker(v.s) && InvCancel(v)
  {
    assert (w.s.h.verbs + [VSend(r.None?)])[..|w.s.h.verbs|] == w.s.h.verbs;
  }

  lemma SubmitSendKeepsTold(w: World, r: NativeResult)
    requires InvCore(w) && InvDone(w) && InvTold(w)
    requires w.s.pc == Run(SubmitSend) && w.s.bufs.next !in w.s.bufs.outstanding
    ensures var v := w.(s := DoSubmitSend(w.conn, w.s, r));
      InvTold(v)
  {
  }

  lemma SubmitGracefulKeepsCore(w: World, r: NativeResult)
    requires InvCore(w)
    requires w.s.pc == Run(SubmitGraceful)
    ensures var v := w.(s := DoSubmitShutdown(w.conn, w.s, GracefulDone(r), VGraceful(r.None?)));
      InvCore(v)
  {
  }

  lemma SubmitGracefulKeepsDone(w: World, r: NativeResult)
    requires InvCore(w) && InvDone(w)
    requires w.s.pc == Run(SubmitGraceful)
    ensures var v := w.(s := DoSubmitShutdown(w.conn, w.s, GracefulDone(r), VGraceful(r.None?)));
      InvDone(v)
  {
    assert (w.s.h.verbs + [VGraceful(r.None?)])[..|w.s.h.verbs|] == w.s.h.verbs;
  }

  lemma SubmitGracefulKeepsTold(w: World, r: NativeResult)
    requires InvCore(w) && InvDone(w) && InvTold(w)
    requires w.s.pc == Run(SubmitGraceful)
    ensures var v := w.(s := DoSubmitShutdown(w.conn, w.s, GracefulDone(r), VGraceful(r.None?)));
      InvTold(v)
  {
  }

  lemma SubmitResetKeepsCore(w: World, r: NativeResult)
    requires InvCore(w)
    requires w.s.pc.Run? && w.s.pc.cmd.SubmitReset?
    ensures var v := w.(s := DoSubmitShutdown(w.conn, w.s, ResetDone(w.s.pc.cmd.code, r), VReset(r.None?)));
      InvCore(v)
  {
  }

  lemma SubmitResetKeepsDone(w: World, r: NativeResult)
    requires InvCore(w) && InvDone(w)
    requires w.s.pc.Run? && w.s.pc.cmd.SubmitReset?
    ensures var v := w.(s := DoSubmitShutdown(w.conn, w.s, ResetDone(w.s.pc.cmd.code, r), VReset(r.None?)));
      InvDone(v)
  {
    assert (w.s.h.verbs + [VReset(r.None?)])[..|w.s.h.verbs|] == w.s.h.verbs;
  }

  lemma SubmitResetKeepsTold(w: World, r: NativeResult)
    requires InvCore(w) && InvDone(w) && InvTold(w)
    requires w.s.pc.Run? && w.s.pc.cmd.SubmitReset?
    ensures var v := w.(s := DoSubmitShutdown(w.conn, w.s, ResetDone(w.s.pc.cmd.code, r), VReset(r.None?)));
      InvTold(v)
  {
  }

  // ------------------------------------------------------ callback and connection

  /** Whatever the others do, what the frontend relies on stays true. */
  lemma OthersKeepFront(w: World, v: World)
    requires InvShape(w.s) && InvLoaded(w.s) && InvDone(w) && InvTold(w) && OtherMove(w, v)
    ensures InvLoaded(v.s) && InvVerbs(v.s) && InvMarker(v.s) && InvSteps(v.s)
    ensures InvEntry(v.s) && InvClean(v) && InvOutcome(v)
  {
  }

  lemma SendCompleteMoves(w: World, ev: NativeEvent)
    requires Sound(w.conn) && ev.SendCompleteEv?
    ensures var v := w.(s := CallbackBegin(w.s, ev));
      OtherMove(w, v)
  {
  }

  lemma SendCompleteKeepsShape(w: World, ev: NativeEvent)
    requires InvShape(w.s) && ev.SendCompleteEv?
    ensures var v := w.(s := CallbackBegin(w.s, ev));
      InvShape(v.s)
  {
  }

  lemma SendCompleteKeepsSlots(w: World, ev: NativeEvent)
    requires InvShape(w.s) && InvLoaded(w.s) && InvWake(w.s) && InvConn(w)
    requires Enabled(w, Native(ev)) && ev.SendCompleteEv?
    ensures var v := w.(s := CallbackBegin(w.s, ev));
      InvLoaded(v.s) && InvWake(v.s) && InvConn(v)
  {
  }

  lemma SendCompleteKeepsFlight(w: World, ev: NativeEvent)
    requires InvFlight(w)
    requires Enabled(w, Native(ev)) && ev.SendCompleteEv?
    ensures InvFlight(w.(s := CallbackBegin(w.s, ev)))
  {
    var o := w.s.bufs.outstanding;
    assert |o - {ev.buffer}| == |o| - 1;
  }

  lemma SendCompleteKeepsCancel(w: World, ev: NativeEvent)
    requires InvCore(w) && InvCancel(w)
    requires Enabled(w, Native(ev)) && ev.SendCompleteEv?
    ensures var v := w.(s := CallbackBegin(w.s, ev));
      InvCancel(v)
  {
  }

  lemma SendCompleteKeepsPark(w: World, ev: NativeEvent)
    requires InvCore(w) && InvPark(w.s)
    requires Enabled(w, Native(ev)) && ev.SendCompleteEv?
    ensures var v := w.(s := CallbackBegin(w.s, ev));
      InvPark(v.s)
  {
  }

  lemma SendShutdownCompleteKeepsCore(w: World, ev: NativeEvent)
    requires InvCore(w)
    requires Enabled(w, Native(ev)) && ev.SendShutdownCompleteEv?
    ensures var v := w.(s := CallbackBegin(w.s, ev));
      OtherMove(w, v) && InvCore(v)
  {
  }

  lemma SendShutdownCompleteKeepsCancel(w: World, ev: NativeEvent)
    requires InvCore(w) && InvCancel(w)
    requires Enabled(w, Native(ev)) && ev.SendShutdownCompleteEv?
    ensures var v := w.(s := CallbackBegin(w.s, ev));
      InvCancel(v)
  {
  }

  lemma SendShutdownCompleteKeepsPark(w: World, ev: NativeEvent)
    requires InvCore(w) && InvPark(w.s)
    requires Enabled(w, Native(ev)) && ev.SendShutdownCompleteEv?
    ensures var v := w.(s := CallbackBegin(w.s, ev));
      InvPark(v.s)
  {
  }

  lemma OtherEventKeepsCore(w: World, ev: NativeEvent)
    requires InvCore(w)
    requires Enabled(w, Native(ev)) && !ev.SendCompleteEv? && !ev.SendShutdownCompleteEv?
    ensures var v := w.(s := CallbackBegin(w.s, ev));
      OtherMove(w, v) && InvCore(v)
  {
  }

  lemma OtherEventKeepsRest(w: World, ev: NativeEvent)
    requires InvCore(w) && InvCancel(w) && InvPark(w.s)
    requires Enabled(w, Native(ev)) && !ev.SendCompleteEv? && !ev.SendShutdownCompleteEv?
    ensures var v := w.(s := CallbackBegin(w.s, ev));
      InvCancel(v) && InvPark(v.s)
  {
  }

  lemma ReclaimKeeps(w: World)
    requires InvCore(w) && InvCancel(w) && InvPark(w.s)
    requires w.s.cb.Reclaiming?
    ensures var v := CallbackStep(w);
      OtherMove(w, v) && InvCore(v) && InvCancel(v) && InvPark(v.s)
  {
  }

  predicate PushesNext(w: World, ev: SendEvent, next: Callback) {
    || (w.s.cb == Pushing(ev) && next == Quiet)
    || (w.s.cb.RecoverWake? && ev.TerminalWake? && next == RecoverClose)
  }

  lemma PushMoves(w: World, ev: SendEvent, next: Callback)
    requires InvCore(w)
    requires PushesNext(w, ev, next)
    ensures var v := w.(s := Push(w.s, ev).(cb := next));
      OtherMove(w, v) && InvShape(v.s) && InvLoaded(v.s) && InvConn(v)
  {
    CountAppend(w.s.chan.queue, ev);
  }

  lemma PushKeepsSlots(w: World, ev: SendEvent, next: Callback)
    requires InvCore(w)
    requires PushesNext(w, ev, next)
    ensures var v := w.(s := Push(w.s, ev).(cb := next));
      InvFlight(v) && InvWake(v.s)
  {
    CountAppend(w.s.chan.queue, ev);
  }

  lemma PushKeepsRest(w: World, ev: SendEvent, next: Callback)
    requires InvCore(w) && InvCancel(w) && InvPark(w.s)
    requires PushesNext(w, ev, next)
    ensures var v := w.(s := Push(w.s, ev).(cb := next));
      InvCancel(v) && InvPark(v.s)
  {
    CountAppend(w.s.chan.queue, ev);
  }

  predicate PublishesNext(w: World, cause: SendTerminal, next: Callback) {
    || (w.s.cb == Publishing(cause) && next == Pushing(TerminalWake))
    || (w.s.cb.MarkingSend? && cause == Connection(w.s.cb.reason) && next == Closing)
    || (w.s.cb.RecoverPublish? && cause == SendTerminal.Internal(CallbackPanicked) && next == RecoverWake)
  }

  lemma CallbackPublishMoves(w: World, cause: SendTerminal, next: Callback)
    requires InvCore(w)
    requires PublishesNext(w, cause, next)
    ensures var v := w.(s := w.s.(slot := Publish(w.s.slot, cause), cb := next));
      OtherMove(w, v) && InvShape(v.s) && InvLoaded(v.s)
  {
  }

  lemma CallbackPublishKeepsSlots(w: World, cause: SendTerminal, next: Callback)
    requires InvCore(w)
    requires PublishesNext(w, cause, next)
    ensures var v := w.(s := w.s.(slot := Publish(w.s.slot, cause), cb := next));
      InvFlight(v) && InvWake(v.s) && InvConn(v)
  {
  }

  lemma CallbackPublishKeepsRest(w: World, cause: SendTerminal, next: Callback)
    requires InvCore(w) && InvCancel(w) && InvPark(w.s)
    requires PublishesNext(w, cause, next)
    ensures var v := w.(s := w.s.(slot := Publish(w.s.slot, cause), cb := next));
      InvCancel(v) && InvPark(v.s)
  {
  }

  lemma RecordMoves(w: World)
    requires InvCore(w)
    requires w.s.cb.Recording? || w.s.cb.MarkingReceive?
    ensures var v := CallbackStep(w);
      OtherMove(w, v) && InvShape(v.s) && InvLoaded(v.s)
  {
  }

  lemma RecordKeepsSlots(w: World)
    requires InvCore(w)
    requires w.s.cb.Recording? || w.s.cb.MarkingReceive?
    ensures var v := CallbackStep(w);
      InvFlight(v) && InvWake(v.s) && InvConn(v)
  {
  }

  lemma RecordKeepsRest(w: World)
    requires InvCore(w) && InvCancel(w) && InvPark(w.s)
    requires w.s.cb.Recording? || w.s.cb.MarkingReceive?
    ensures var v := CallbackStep(w);
      InvCancel(v) && InvPark(v.s)
  {
  }

  lemma CloseKeeps(w: World, next: Callback)
    requires InvCore(w) && InvCancel(w) && InvPark(w.s)
    requires (w.s.cb.Closing? && next == Quiet) || (w.s.cb.RecoverClose? && next == RecoverPoison)
    ensures var v := w.(s := Close(w.s).(cb := next));
      OtherMove(w, v) && InvCore(v) && InvCancel(v) && InvPark(v.s)
  {
  }

  lemma PoisonKeepsCore(w: World)
    requires InvCore(w)
    requires w.s.cb.RecoverPoison?
    ensures var v := CallbackStep(w);
      OtherMove(w, v) && InvCore(v)
  {
  }

  lemma PoisonKeepsRest(w: World)
    requires InvCore(w) && InvCancel(w) && InvPark(w.s)
    requires w.s.cb.RecoverPoison?
    ensures var v := CallbackStep(w);
      InvCancel(v) && InvPark(v.s)
  {
  }

  lemma PanicKeeps(w: World)
    requires InvCore(w) && InvCancel(w) && InvPark(w.s)
    requires Enabled(w, CallbackPanics)
    ensures var v := w.(s := CallbackPanic(w.s));
      OtherMove(w, v) && InvCore(v) && InvCancel(v) && InvPark(v.s)
  {
  }

  lemma ConnectionMoveKeeps(w: World, conn: ConnSlot)
    requires InvCore(w) && InvCancel(w) && InvPark(w.s)
    requires Leads(w.conn, conn) && Sound(conn)
    ensures var v := w.(conn := conn);
      OtherMove(w, v) && InvCore(v) && InvCancel(v) && InvPark(v.s)
  {
  }

  // ---------------------------------------------------------------------- buffers

  lemma FrontLeavesBuffers(w: World, r: NativeResult)
    requires w.s.pc != Run(SubmitSend)
    ensures var v := FrontStep(w, r);
      v.s.bufs == w.s.bufs && v.s.cb == w.s.cb && v.s.poisoned == w.s.poisoned
  {
  }

  lemma SubmitSendKeepsBuffers(w: World, r: NativeResult)
    requires InvBuffers(w.s)
    ensures InvBuffers(DoSubmitSend(w.conn, w.s, r))
    ensures w.s.bufs.next !in w.s.bufs.outstanding
  {
    assert w.s.bufs.next !in Ids(w.s.bufs.next);
  }

  lemma OthersKeepBuffers(w: World, l: Label)
    requires InvBuffers(w.s) && Enabled(w, l) && !l.Front?
    ensures InvBuffers(Do(w, l).s)
  {
  }

  // --------------------------------------------------------------------- all steps

  lemma ReduceReadyKeeps(w: World)
    requires InvCore(w) && InvDone(w) && InvTold(w) && w.s.pc.PeekConn? && w.s.pc.prep.Ready?
    ensures var v := Reduced(w); InvCore(v) && InvDone(v) && InvTold(v)
  {
    var poll := w.s.pc.prep.poll;
    if w.s.pc.HeldCompletes() == 1 {
      ReadyCompleteStepKeepsShape(w);
      ReadyCompleteStepKeepsSlots(w);
      ReadyCompleteStepKeepsVerbs(w);
      ReadyCompleteStepKeepsCancel(w);
      ReadyCompleteStepKeepsTold(w);
    } else {
      if poll.Event? {
        ReadyEventStepKeepsShape(w);
      } else {
        ReadyStepKeepsShape(w);
      }
      ReadyStepKeepsSlots(w);
      ReadyStepKeepsVerbs(w);
      ReadyStepKeepsCancel(w);
      ReadyStepKeepsTold(w);
    }
  }

  lemma ReduceFinishKeeps(w: World)
    requires InvCore(w) && InvDone(w) && InvTold(w) && w.s.pc.PeekConn? && w.s.pc.prep.Finish?
    ensures var v := Reduced(w); InvCore(v) && InvDone(v) && InvTold(v)
  {
    var poll := w.s.pc.prep.poll;
    if w.s.pc.HeldCompletes() == 1 {
      if poll.event.cancelled {
        FinishCancelStepKeepsShape(w);
      } else {
        FinishCompleteStepKeepsShape(w);
      }
      FinishCompleteStepKeepsSlots(w);
      FinishCompleteStepKeepsVerbs(w);
      FinishCompleteStepKeepsCancel(w);
      FinishCompleteStepKeepsTold(w);
    } else {
      match poll {
        case Event(TerminalWake) => FinishWakeStepKeepsShape(w);
        case Event(FinishComplete(graceful)) => FinishReportStepKeepsShape(w, graceful);
        case _ => FinishStepKeepsShape(w);
      }
      FinishStepKeepsSlots(w);
      FinishStepKeepsVerbs(w);
      FinishStepKeepsSteps(w);
      FinishStepKeepsMarker(w);
      FinishStepKeepsCancel(w);
      FinishStepKeepsPark(w);
      FinishStepKeepsEntry(w);
    }
  }

  lemma ReduceKeeps(w: World)
    requires InvCore(w) && InvDone(w) && InvTold(w) && w.s.pc.PeekConn?
    ensures var v := Reduced(w); InvCore(v) && InvDone(v) && InvTold(v)
  {
    match w.s.pc.prep {
      case Requested(_) =>
        RequestedStepKeepsShape(w);
        RequestedStepKeepsSlots(w);
        RequestedStepKeepsVerbs(w);
        RequestedStepKeepsCancel(w);
        RequestedStepKeepsTold(w);
      case Submitted(_) =>
        SubmittedStepKeepsCore(w);
        SubmittedStepKeepsDone(w);
        SubmittedStepKeepsTold(w);
      case ResetAsked(_) =>
        ResetAskedStepKeepsShape(w);
        ResetAskedStepKeepsSlots(w);
        ResetAskedStepKeepsDone(w);
        ResetAskedStepKeepsTold(w);
      case GracefulDone(_) =>
        GracefulDoneStepKeepsCore(w);
        GracefulDoneStepKeepsDone(w);
        GracefulDoneStepKeepsTold(w);
      case ResetDone(_, _) =>
        ResetDoneStepKeepsCore(w);
        ResetDoneStepKeepsDone(w);
        ResetDoneStepKeepsTold(w);
      case Ready(_) => ReduceReadyKeeps(w);
      case Finish(_) => ReduceFinishKeeps(w);
    }
  }

  /** What a pending command amounts to, given that it suits the running call. */
  lemma ExecuteIs(w: World, cmd: SendCommand, r: NativeResult)
    requires CmdOk(w.s.call, cmd, w.s.flags)
    ensures cmd.ReturnError? ==> Execute(w, cmd, r) == Deliver(w, cmd.cause)
    ensures cmd.RepollReady? || cmd.RepollFinish? ==> Execute(w, cmd, r) == w.(s := w.s.(pc := ReadChannel))
    ensures cmd.SubmitSend? ==> Execute(w, cmd, r) == w.(s := DoSubmitSend(w.conn, w.s, r))
    ensures cmd.SubmitGraceful? ==>
      Execute(w, cmd, r) == w.(s := DoSubmitShutdown(w.conn, w.s, GracefulDone(r), VGraceful(r.None?)))
    ensures cmd.SubmitReset? ==>
      Execute(w, cmd, r) == w.(s := DoSubmitShutdown(w.conn, w.s, ResetDone(cmd.code, r), VReset(r.None?)))
    ensures Tells(cmd) ==> Execute(w, cmd, r) == w.(s := Return(w.s, Answer(w.s.call, cmd)))
    ensures cmd.PublishTerminal? ==> Execute(w, cmd, r) == Execute(w, cmd, None)
  {
  }

  lemma ExecuteTellingKeeps(w: World, r: NativeResult)
    requires InvCore(w) && InvDone(w) && InvTold(w)
    requires w.s.pc.Run? && (Tells(w.s.pc.cmd) || w.s.pc.cmd.ReturnError? || w.s.pc.cmd.PublishTerminal?)
    ensures var v := Execute(w, w.s.pc.cmd, r); InvCore(v) && InvDone(v) && InvTold(v)
  {
    ExecuteIs(w, w.s.pc.cmd, r);
    if w.s.pc.cmd.PublishTerminal? {
      PublishKeepsShape(w);
      PublishKeepsSlots(w);
      PublishKeepsVerbs(w);
      PublishKeepsCancel(w);
      PublishKeepsTold(w);
    } else if w.s.pc.cmd.ReturnError? {
      DeliverKeepsCore(w);
      DeliverKeepsDone(w);
      DeliverKeepsTold(w);
    } else {
      ReturnKeepsCore(w);
      ReturnKeepsDone(w);
      ReturnKeepsTold(w);
    }
  }

  lemma ExecuteActingKeeps(w: World, r: NativeResult)
    requires InvCore(w) && InvDone(w) && InvTold(w) && w.s.bufs.next !in w.s.bufs.outstanding
    requires w.s.pc.Run? && !(Tells(w.s.pc.cmd) || w.s.pc.cmd.ReturnError? || w.s.pc.cmd.PublishTerminal?)
    ensures var v := Execute(w, w.s.pc.cmd, r); InvCore(v) && InvDone(v) && InvTold(v)
  {
    ExecuteIs(w, w.s.pc.cmd, r);
    match w.s.pc.cmd {
      case SubmitSend =>
        SubmitSendKeepsCore(w, r);
        SubmitSendKeepsVerbs(w, r);
        SubmitSendKeepsCancel(w, r);
        SubmitSendKeepsTold(w, r);
      case SubmitGraceful =>
        SubmitGracefulKeepsCore(w, r);
        SubmitGracefulKeepsDone(w, r);
        SubmitGracefulKeepsTold(w, r);
      case SubmitReset(_) =>
        SubmitResetKeepsCore(w, r);
        SubmitResetKeepsDone(w, r);
        SubmitResetKeepsTold(w, r);
      case RepollReady => RepollKeeps(w);
      case RepollFinish => RepollKeeps(w);
    }
  }

  lemma FrontReadingKeeps(w: World, r: NativeResult)
    requires InvCore(w) && InvDone(w) && InvTold(w) && !w.s.pc.Idle? && !w.s.pc.Run?
    ensures var v := FrontStep(w, r); InvCore(v) && InvDone(v) && InvTold(v)
  {
    match w.s.pc {
      case GuardLoad => GuardLoadKeeps(w);
      case GuardPeek(_) =>
        GuardPeekKeepsCore(w);
        GuardPeekKeepsDone(w);
        GuardPeekKeepsTold(w);
      case ReadChannel =>
        ReadKeepsCore(w);
        ReadKeepsDone(w);
        ReadKeepsTold(w);
      case LoadSlot(_) => LoadKeeps(w);
      case PeekConn(_, _) => ReduceKeeps(w);
    }
  }

  lemma FrontKeepsBuffers(w: World, r: NativeResult)
    requires PcOk(w.s) && InvBuffers(w.s)
    ensures InvBuffers(FrontStep(w, r).s)
    ensures w.s.bufs.next !in w.s.bufs.outstanding
  {
    SubmitSendKeepsBuffers(w, r);
    if w.s.pc == Run(SubmitSend) {
      ExecuteIs(w, SubmitSend, r);
    } else {
      FrontLeavesBuffers(w, r);
    }
  }

  lemma FrontKeeps(w: World, r: NativeResult)
    requires Inv(w) && !w.s.pc.Idle?
    ensures Inv(FrontStep(w, r))
  {
    FrontKeepsBuffers(w, r);
    if !w.s.pc.Run? {
      FrontReadingKeeps(w, r);
    } else if Tells(w.s.pc.cmd) || w.s.pc.cmd.ReturnError? || w.s.pc.cmd.PublishTerminal? {
      ExecuteTellingKeeps(w, r);
    } else {
      ExecuteActingKeeps(w, r);
    }
  }

  /** A push, whether it ends an arm or is part of recover. */
  lemma PushKeeps(w: World, ev: SendEvent, next: Callback)
    requires InvCore(w) && InvCancel(w) && InvPark(w.s) && PushesNext(w, ev, next)
    ensures var v := w.(s := Push(w.s, ev).(cb := next));
      OtherMove(w, v) && InvCore(v) && InvCancel(v) && InvPark(v.s)
  {
    PushMoves(w, ev, next);
    PushKeepsSlots(w, ev, next);
    PushKeepsRest(w, ev, next);
  }

  lemma CallbackPublishKeeps(w: World, cause: SendTerminal, next: Callback)
    requires InvCore(w) && InvCancel(w) && InvPark(w.s) && PublishesNext(w, cause, next)
    ensures var v := w.(s := w.s.(slot := Publish(w.s.slot, cause), cb := next));
      OtherMove(w, v) && InvCore(v) && InvCancel(v) && InvPark(v.s)
  {
    CallbackPublishMoves(w, cause, next);
    CallbackPublishKeepsSlots(w, cause, next);
    CallbackPublishKeepsRest(w, cause, next);
  }

  lemma RecoverKeeps(w: World)
    requires InvCore(w) && InvCancel(w) && InvPark(w.s) && w.s.cb.Recovering()
    ensures var v := CallbackStep(w); OtherMove(w, v) && InvCore(v) && InvCancel(v) && InvPark(v.s)
  {
    match w.s.cb {
      case RecoverPublish => CallbackPublishKeeps(w, SendTerminal.Internal(CallbackPanicked), RecoverWake);
      case RecoverWake => PushKeeps(w, TerminalWake, RecoverClose);
      case RecoverClose => CloseKeeps(w, RecoverPoison);
      case RecoverPoison =>
        PoisonKeepsCore(w);
        PoisonKeepsRest(w);
    }
  }

  lemma CallbackKeeps(w: World)
    requires InvCore(w) && InvCancel(w) && InvPark(w.s) && !w.s.cb.Quiet?
    ensures var v := CallbackStep(w); OtherMove(w, v) && InvCore(v) && InvCancel(v) && InvPark(v.s)
  {
    match w.s.cb {
      case Reclaiming(_, _) => ReclaimKeeps(w);
      case Pushing(ev) => PushKeeps(w, ev, Quiet);
      case Publishing(cause) => CallbackPublishKeeps(w, cause, Pushing(TerminalWake));
      case Recording(_) =>
        RecordMoves(w);
        RecordKeepsSlots(w);
        RecordKeepsRest(w);
      case MarkingReceive(_) =>
        RecordMoves(w);
        RecordKeepsSlots(w);
        RecordKeepsRest(w);
      case MarkingSend(reason) => CallbackPublishKeeps(w, Connection(reason), Closing);
      case Closing => CloseKeeps(w, Quiet);
      case _ => RecoverKeeps(w);
    }
  }

  lemma NativeKeeps(w: World, ev: NativeEvent)
    requires InvCore(w) && InvCancel(w) && InvPark(w.s) && Enabled(w, Native(ev))
    ensures var v := w.(s := CallbackBegin(w.s, ev)); OtherMove(w, v) && InvCore(v) && InvCancel(v) && InvPark(v.s)
  {
    if ev.SendCompleteEv? {
      SendCompleteMoves(w, ev);
      SendCompleteKeepsShape(w, ev);
      SendCompleteKeepsSlots(w, ev);
      SendCompleteKeepsFlight(w, ev);
      SendCompleteKeepsCancel(w, ev);
      SendCompleteKeepsPark(w, ev);
    } else if ev.SendShutdownCompleteEv? {
      SendShutdownCompleteKeepsCore(w, ev);
      SendShutdownCompleteKeepsCancel(w, ev);
      SendShutdownCompleteKeepsPark(w, ev);
    } else {
      OtherEventKeepsCore(w, ev);
      OtherEventKeepsRest(w, ev);
    }
  }

  lemma OthersKeep(w: World, l: Label)
    requires Inv(w) && Enabled(w, l) && !l.Front? && !l.Invoke?
    ensures OtherMove(w, Do(w, l)) && Inv(Do(w, l))
  {
    match l {
      case Native(ev) => NativeKeeps(w, ev);
      case CallbackRuns => CallbackKeeps(w);
      case CallbackPanics => PanicKeeps(w);
      case ConnectionMoves(conn) => ConnectionMoveKeeps(w, conn);
    }
    OthersKeepFront(w, Do(w, l));
    OthersKeepBuffers(w, l);
  }

  /** The invariant survives every step that any thread can take. */
  lemma StepKeeps(w: World, l: Label)
    requires Inv(w) && Enabled(w, l)
    ensures Inv(Do(w, l))
  {
    match l {
      case Invoke(c) =>
        InvokeKeepsCore(w, c);
        InvokeKeepsDone(w, c);
        InvokeKeepsTold(w, c);
        OthersKeepBuffers(w, l);
      case Front(r) => FrontKeeps(w, r);
      case _ => OthersKeep(w, l);
    }
  }

  lemma InitialInv(w: World)
    requires IsInitial(w)
    ensures Inv(w)
  {
  }

  lemma {:induction false} RunKeeps(w: World, ls: seq<Label>)
    requires Inv(w) && After(w, ls).Some?
    ensures Inv(After(w, ls).value)
    decreases |ls|
  {
    if ls != [] {
      RunKeeps(w, ls[..|ls| - 1]);
      StepKeeps(After(w, ls[..|ls| - 1]).value, ls[|ls| - 1]);
    }
  }

  /** Every reachable state of the send half satisfies the invariant. */
  lemma ReachableInv(w: World)
    requires Reachable(w)
    ensures Inv(w)
  {
    var w0, ls :| IsInitial(w0) && After(w0, ls) == Some(w);
    InitialInv(w0);
    RunKeeps(w0, ls);
  }
}
