/** What the history says about decisions made inside a call: the channel read a
    pending answer rests on, the slot that FIN was decided on, the slot the finish
    guard found, and the abort of a recovered callback. */
module SendNotes {
  import opened Options
  import opened Terminals
  import opened SendReducer
  import opened SendProtocol
  import opened SendInvariant
  import opened SendSteps

  // ------------------------------------------------------------------ the reducer

  /** Pending is answered only to a poll that read a pending channel. */
  lemma PendingNeedsPendingRead(f: SendFlags, input: SendInput)
    requires Transition(f, input).1.ReturnPending?
    ensures (input.PollReadyInput? || input.PollFinishInput?) && input.poll.ChannelPending?
  {
  }

  predicate Finishing(f: SendFlags) { f.finishStarted || f.finishSubmitting }

  /** FIN is the only way to begin finishing, and it is decided once. */
  lemma FinIsDecidedOnce(f: SendFlags, input: SendInput)
    ensures var (g, cmd) := Transition(f, input);
      && (cmd.SubmitGraceful? ==> !Finishing(f) && input.PollFinishInput?)
      && (Finishing(g) && !Finishing(f) ==> cmd.SubmitGraceful?)
  {
  }

  // -------------------------------------------------------------------- invariants

  /** A poll carries the latest read, and an answer of Pending rests on it. */
  predicate InvRead(s: Stream) {
    && (s.pc.Poll().Some? ==> s.h.read == s.pc.Poll())
    && (s.pc == Run(ReturnPending) || (s.pc.Idle? && s.h.last == Some(Parked)) ==> s.h.read == Some(ChannelPending))
  }

  /** FIN was decided over a cancelled send exactly when the marker was read. */
  predicate InvFin(s: Stream) {
    Finishing(s.flags) ==> (s.h.completedCancelled > 0 <==> s.h.finOverMarker)
  }

  /** The state a call found when it was made. */
  predicate FoundMarker(s: Stream) {
    s.call.PollReadyCall? && s.flags.finishStarted && s.h.entry.slot == Some(ProvisionalAbort) && s.h.entry.conn.None?
  }

  /** Nobody but the frontend publishes the marker, so the guard finds the one that was
      there when the call was made. */
  predicate InvGuard(w: World) {
    var s := w.s;
    && (s.h.entry.conn.Some? ==> w.conn.terminal.Some?)
    && (s.pc.GuardLoad? && s.slot == Some(ProvisionalAbort) ==> s.h.entry.slot == s.slot)
    && (s.pc.GuardPeek? && s.pc.loaded == Some(ProvisionalAbort) ==> s.h.entry.slot == s.pc.loaded)
    && (s.pc == Run(ReturnError(ProvisionalAbort)) ==> FoundMarker(s))
    && (s.pc.Idle? && s.h.last == Some(Error(ProvisionalAbort)) ==> FoundMarker(s))
  }

  /** A recovering callback has aborted the stream, once, and leaves a cause behind. */
  predicate InvAbort(s: Stream) {
    && (s.h.abortAt.Some? <==> s.poisoned || s.cb.Recovering())
    && (s.h.abortAt.Some? ==> s.h.abortAt.value <= |s.h.verbs|)
    && (s.poisoned || (s.cb.Recovering() && !s.cb.RecoverPublish?) ==> Authoritative(s.slot))
  }

  /** The running call has issued its verb and will not issue another. */
  predicate VerbIssued(s: Stream) {
    || s.pc.Idle?
    || ((s.pc.LoadSlot? || s.pc.PeekConn?)
        && (s.pc.prep.Submitted? || s.pc.prep.GracefulDone? || s.pc.prep.ResetDone?))
    || (s.call.PollFinishCall? && s.flags.finishStarted && !(s.pc.Run? && Submits(s.pc.cmd)))
    || (s.pc.Run? && Closing(s.pc.cmd))
  }

  predicate Submits(cmd: SendCommand) { cmd.SubmitSend? || cmd.SubmitGraceful? || cmd.SubmitReset? }

  /** A command after which the call only returns. */
  predicate Closing(cmd: SendCommand) {
    Tells(cmd) || cmd.ReturnError? || (cmd.PublishTerminal? && !cmd.candidate.IsProvisional())
  }

  /** A call issues at most one native verb. */
  predicate InvOne(s: Stream) {
    && s.h.entry.verbs <= |s.h.verbs| <= s.h.entry.verbs + 1
    && (|s.h.verbs| > s.h.entry.verbs ==> VerbIssued(s))
  }

  predicate Notes(w: World) { InvRead(w.s) && InvFin(w.s) && InvGuard(w) && InvAbort(w.s) && InvOne(w.s) }

  // --------------------------------------------------------------- frontend actions

  /** What the frontend leaves alone in the history and in the callback. */
  predicate Leaves(s: Stream, t: Stream) {
    && (Authoritative(s.slot) ==> t.slot == s.slot)
    && t.h.completedCancelled == s.h.completedCancelled && t.h.abortAt == s.h.abortAt && t.h.entry == s.h.entry
    && s.h.verbs <= t.h.verbs
    && t.cb == s.cb && t.poisoned == s.poisoned && t.call == s.call
  }

  /** ... and what it leaves alone outside the reducer. */
  predicate LeavesFlags(s: Stream, t: Stream) {
    Leaves(s, t) && t.slot == s.slot && t.flags == s.flags && t.h.finOverMarker == s.h.finOverMarker
  }

  lemma PublishFrame(w: World, cmd: SendCommand, r: NativeResult)
    requires cmd.PublishTerminal?
    ensures Leaves(w.s, Execute(w, cmd, r).s)
  {
  }

  lemma ReturnFrame(s: Stream, o: Outcome)
    ensures LeavesFlags(s, Return(s, o))
  {
  }

  lemma DeliverFrame(w: World, cause: SendTerminal)
    ensures LeavesFlags(w.s, Deliver(w, cause).s)
  {
  }

  lemma SubmitFrame(conn: ConnSlot, s: Stream, r: NativeResult, prep: Prep, verb: Verb)
    ensures LeavesFlags(s, DoSubmitSend(conn, s, r)) && LeavesFlags(s, DoSubmitShutdown(conn, s, prep, verb))
  {
  }

  lemma ActFrame(w: World, cmd: SendCommand, r: NativeResult)
    requires CmdOk(w.s.call, cmd, w.s.flags) && !cmd.PublishTerminal?
    ensures LeavesFlags(w.s, Execute(w, cmd, r).s)
  {
    ExecuteIs(w, cmd, r);
    match cmd {
      case ReturnError(cause) => DeliverFrame(w, cause);
      case SubmitSend => SubmitFrame(w.conn, w.s, r, Submitted(r), VSend(true));
      case SubmitGraceful => SubmitFrame(w.conn, w.s, r, GracefulDone(r), VGraceful(r.None?));
      case SubmitReset(code) => SubmitFrame(w.conn, w.s, r, ResetDone(code, r), VReset(r.None?));
      case RepollReady =>
      case RepollFinish =>
      case _ => ReturnFrame(w.s, Answer(w.s.call, cmd));
    }
  }

  lemma ExecuteFrame(w: World, cmd: SendCommand, r: NativeResult)
    requires CmdOk(w.s.call, cmd, w.s.flags)
    ensures Leaves(w.s, Execute(w, cmd, r).s)
  {
    if cmd.PublishTerminal? {
      PublishFrame(w, cmd, r);
    } else {
      ActFrame(w, cmd, r);
    }
  }

  lemma ReduceKeepsRead(w: World)
    requires w.s.pc.PeekConn? && InvRead(w.s)
    ensures InvRead(Reduced(w).s)
  {
    var input := Fill(w.s.pc.prep, Resolve(w.s.pc.loaded, w.conn.terminal));
    if Reduced(w).s.pc == Run(ReturnPending) {
      PendingNeedsPendingRead(w.s.flags, input);
    }
  }

  lemma PublishKeepsRead(w: World, r: NativeResult)
    requires w.s.pc.Run? && w.s.pc.cmd.PublishTerminal? && InvRead(w.s)
    ensures InvRead(FrontStep(w, r).s)
  {
    var input := TerminalPublished(PublishLocal(w.s, w.s.pc.cmd.candidate).slot.value, w.s.pc.cmd.continuation);
    if Transition(w.s.flags, input).1.ReturnPending? {
      PendingNeedsPendingRead(w.s.flags, input);
    }
  }

  lemma RunKeepsRead(w: World, r: NativeResult)
    requires w.s.pc.Run? && InvShape(w.s) && InvRead(w.s)
    ensures InvRead(FrontStep(w, r).s)
  {
    if w.s.pc.cmd.PublishTerminal? {
      PublishKeepsRead(w, r);
    } else {
      ExecuteIs(w, w.s.pc.cmd, r);
    }
  }

  lemma FrontKeepsRead(w: World, r: NativeResult)
    requires !w.s.pc.Idle? && InvShape(w.s) && InvRead(w.s)
    ensures InvRead(FrontStep(w, r).s)
  {
    if w.s.pc.PeekConn? {
      ReduceKeepsRead(w);
    } else if w.s.pc.Run? {
      RunKeepsRead(w, r);
    }
  }

  /** The reducer decides on FIN over a cancelled send exactly when it sees the marker. */
  lemma FinDecision(w: World)
    requires InvCore(w) && InvCancel(w)
    requires w.s.pc.PeekConn? && w.s.pc.prep.Finish? && Reduced(w).s.pc == Run(SubmitGraceful)
    ensures w.s.h.completedCancelled > 0 <==> w.s.pc.loaded == Some(ProvisionalAbort)
    ensures Reduced(w).s.h.finOverMarker <==> w.s.pc.loaded == Some(ProvisionalAbort)
  {
    if Complete(true) in w.s.chan.queue && CountCompletes(w.s.chan.queue) == 0 {
      CountZero(w.s.chan.queue, Complete(true));
    }
  }

  lemma ReduceKeepsFin(w: World)
    requires w.s.pc.PeekConn? && InvCore(w) && InvCancel(w) && InvFin(w.s)
    ensures InvFin(Reduced(w).s)
  {
    FinIsDecidedOnce(w.s.flags, Fill(w.s.pc.prep, Resolve(w.s.pc.loaded, w.conn.terminal)));
    if Reduced(w).s.pc == Run(SubmitGraceful) {
      FinDecision(w);
    }
  }

  lemma PublishKeepsFin(w: World, r: NativeResult)
    requires w.s.pc.Run? && w.s.pc.cmd.PublishTerminal? && InvFin(w.s)
    ensures InvFin(FrontStep(w, r).s)
  {
    var p := PublishLocal(w.s, w.s.pc.cmd.candidate);
    FinIsDecidedOnce(w.s.flags, TerminalPublished(p.slot.value, w.s.pc.cmd.continuation));
  }

  lemma RunKeepsFin(w: World, r: NativeResult)
    requires w.s.pc.Run? && InvShape(w.s) && InvFin(w.s)
    ensures InvFin(FrontStep(w, r).s)
  {
    if w.s.pc.cmd.PublishTerminal? {
      PublishKeepsFin(w, r);
    } else {
      ActFrame(w, w.s.pc.cmd, r);
    }
  }

  lemma FrontKeepsFin(w: World, r: NativeResult)
    requires !w.s.pc.Idle? && InvCore(w) && InvCancel(w) && InvFin(w.s)
    ensures InvFin(FrontStep(w, r).s)
  {
    if w.s.pc.PeekConn? {
      ReduceKeepsFin(w);
    } else if w.s.pc.Run? {
      RunKeepsFin(w, r);
    }
  }

  lemma ReduceKeepsGuard(w: World)
    requires w.s.pc.PeekConn? && InvShape(w.s) && InvGuard(w) && InvShape(Reduced(w).s)
    ensures InvGuard(Reduced(w))
  {
  }

  lemma PublishKeepsGuard(w: World, r: NativeResult)
    requires w.s.pc.Run? && w.s.pc.cmd.PublishTerminal? && InvGuard(w)
    ensures InvGuard(FrontStep(w, r))
  {
  }

  lemma ActKeepsGuard(w: World, r: NativeResult)
    requires w.s.pc.Run? && !w.s.pc.cmd.PublishTerminal? && !w.s.pc.cmd.ReturnError? && InvShape(w.s) && InvGuard(w)
    ensures InvGuard(FrontStep(w, r))
  {
    ExecuteIs(w, w.s.pc.cmd, r);
    ExecuteFrame(w, w.s.pc.cmd, r);
  }

  lemma DeliverKeepsGuard(w: World, r: NativeResult)
    requires w.s.pc.Run? && w.s.pc.cmd.ReturnError? && InvGuard(w)
    ensures InvGuard(Deliver(w, w.s.pc.cmd.cause))
  {
  }

  lemma RunKeepsGuard(w: World, r: NativeResult)
    requires w.s.pc.Run? && InvShape(w.s) && InvGuard(w)
    ensures InvGuard(FrontStep(w, r))
  {
    if w.s.pc.cmd.PublishTerminal? {
      PublishKeepsGuard(w, r);
    } else if w.s.pc.cmd.ReturnError? {
      ExecuteIs(w, w.s.pc.cmd, r);
      DeliverKeepsGuard(w, r);
    } else {
      ActKeepsGuard(w, r);
    }
  }

  lemma FrontKeepsGuard(w: World, r: NativeResult)
    requires !w.s.pc.Idle? && InvShape(w.s) && InvGuard(w) && InvShape(FrontStep(w, r).s)
    ensures InvGuard(FrontStep(w, r))
  {
    if w.s.pc.PeekConn? {
      ReduceKeepsGuard(w);
    } else if w.s.pc.Run? {
      RunKeepsGuard(w, r);
    }
  }

  /** Only the callback moves the callback. */
  lemma FrontLeavesCallback(w: World, r: NativeResult)
    requires PcOk(w.s)
    ensures FrontStep(w, r).s.cb == w.s.cb && FrontStep(w, r).s.poisoned == w.s.poisoned
  {
    if w.s.pc.Run? {
      ExecuteFrame(w, w.s.pc.cmd, r);
    }
  }

  lemma FrontKeepsAbort(w: World, r: NativeResult)
    requires PcOk(w.s) && InvAbort(w.s)
    ensures InvAbort(FrontStep(w, r).s)
  {
    if w.s.pc.Run? {
      ExecuteFrame(w, w.s.pc.cmd, r);
    }
  }

  /** What the reducer answers once the verb was issued. */
  lemma ReduceKeepsOne(w: World)
    requires w.s.pc.PeekConn? && InvCore(w) && InvOne(w.s)
    ensures InvOne(Reduced(w).s)
  {
    FinIsDecidedOnce(w.s.flags, Fill(w.s.pc.prep, Resolve(w.s.pc.loaded, w.conn.terminal)));
  }

  lemma PublishKeepsOne(w: World, r: NativeResult)
    requires w.s.pc.Run? && w.s.pc.cmd.PublishTerminal? && InvShape(w.s) && InvOne(w.s)
    ensures InvOne(FrontStep(w, r).s)
  {
  }

  lemma SubmitKeepsOne(w: World, r: NativeResult)
    requires w.s.pc.Run? && Submits(w.s.pc.cmd) && InvShape(w.s) && InvOne(w.s)
    ensures InvOne(FrontStep(w, r).s)
  {
    ExecuteIs(w, w.s.pc.cmd, r);
  }

  /** A call that returns issues nothing. */
  lemma ReturnIssuesNothing(w: World, cmd: SendCommand, cause: SendTerminal)
    ensures var t := Return(w.s, Answer(w.s.call, cmd));
      t.pc.Idle? && t.h.verbs == w.s.h.verbs && t.h.entry == w.s.h.entry
    ensures var t := Deliver(w, cause).s; t.pc.Idle? && t.h.verbs == w.s.h.verbs && t.h.entry == w.s.h.entry
  {
  }

  lemma TellKeepsOne(w: World, r: NativeResult)
    requires w.s.pc.Run? && Tells(w.s.pc.cmd) && InvShape(w.s) && InvOne(w.s)
    ensures InvOne(FrontStep(w, r).s)
  {
    ExecuteIs(w, w.s.pc.cmd, r);
    ReturnIssuesNothing(w, w.s.pc.cmd, ProvisionalAbort);
  }

  lemma DeliverKeepsOne(w: World, r: NativeResult)
    requires w.s.pc.Run? && w.s.pc.cmd.ReturnError? && InvShape(w.s) && InvOne(w.s)
    ensures InvOne(FrontStep(w, r).s)
  {
    ExecuteIs(w, w.s.pc.cmd, r);
    ReturnIssuesNothing(w, w.s.pc.cmd, w.s.pc.cmd.cause);
  }

  lemma RepollKeepsOne(w: World, r: NativeResult)
    requires w.s.pc.Run? && (w.s.pc.cmd.RepollReady? || w.s.pc.cmd.RepollFinish?) && InvShape(w.s) && InvOne(w.s)
    ensures InvOne(FrontStep(w, r).s)
  {
    ExecuteIs(w, w.s.pc.cmd, r);
  }

  lemma ActKeepsOne(w: World, r: NativeResult)
    requires w.s.pc.Run? && !w.s.pc.cmd.PublishTerminal? && InvShape(w.s) && InvOne(w.s)
    ensures InvOne(FrontStep(w, r).s)
  {
    if Submits(w.s.pc.cmd) {
      SubmitKeepsOne(w, r);
    } else if w.s.pc.cmd.RepollReady? || w.s.pc.cmd.RepollFinish? {
      RepollKeepsOne(w, r);
    } else if w.s.pc.cmd.ReturnError? {
      DeliverKeepsOne(w, r);
    } else {
      TellKeepsOne(w, r);
    }
  }

  lemma FrontKeepsOne(w: World, r: NativeResult)
    requires !w.s.pc.Idle? && InvCore(w) && InvOne(w.s)
    ensures InvOne(FrontStep(w, r).s)
  {
    if w.s.pc.PeekConn? {
      ReduceKeepsOne(w);
    } else if w.s.pc.Run? {
      if w.s.pc.cmd.PublishTerminal? {
        PublishKeepsOne(w, r);
      } else {
        ActKeepsOne(w, r);
      }
    }
  }

  lemma FrontKeepsNotes(w: World, r: NativeResult)
    requires Inv(w) && Notes(w) && !w.s.pc.Idle?
    ensures Notes(FrontStep(w, r))
  {
    FrontKeeps(w, r);
    FrontKeepsRead(w, r);
    FrontKeepsFin(w, r);
    FrontKeepsGuard(w, r);
    FrontKeepsAbort(w, r);
    FrontKeepsOne(w, r);
  }

  lemma InvokeKeepsNotes(w: World, c: Call)
    requires PcOk(w.s) && Notes(w) && w.s.pc.Idle?
    ensures Notes(w.(s := Begin(w.conn, w.s, c)))
  {
  }

  // ------------------------------------------------------------------- other steps

  /** What the other threads leave of the notes. */
  predicate LeavesFront(s: Stream, t: Stream) {
    && t.flags == s.flags && t.call == s.call && t.pc == s.pc && t.h.read == s.h.read
    && t.h.finOverMarker == s.h.finOverMarker && t.h.last == s.h.last && t.h.entry == s.h.entry
  }

  lemma CallbackFrame(w: World)
    ensures LeavesFront(w.s, CallbackStep(w).s)
  {
  }

  lemma NativeFrame(s: Stream, ev: NativeEvent)
    ensures LeavesFront(s, CallbackBegin(s, ev))
  {
    match ev {
      case SendCompleteEv(_, _) =>
      case SendShutdownCompleteEv(_) =>
      case _ =>
    }
  }

  lemma PanicFrame(s: Stream)
    ensures LeavesFront(s, CallbackPanic(s))
  {
  }

  lemma OthersFrame(w: World, l: Label)
    requires !l.Front? && !l.Invoke?
    ensures LeavesFront(w.s, Do(w, l).s)
  {
    match l {
      case CallbackRuns => CallbackFrame(w);
      case Native(ev) => NativeFrame(w.s, ev);
      case CallbackPanics => PanicFrame(w.s);
      case _ =>
    }
  }

  lemma OthersCancelNothing(w: World, l: Label)
    requires InvCore(w) && Enabled(w, l) && !l.Front? && !l.Invoke? && Finishing(w.s.flags)
    ensures Do(w, l).s.h.completedCancelled == w.s.h.completedCancelled
  {
    assert w.s.bufs.outstanding == {};
  }

  lemma CallbackKeepsAbort(w: World)
    requires InvAbort(w.s)
    ensures InvAbort(CallbackStep(w).s)
  {
  }

  lemma NativeKeepsAbort(s: Stream, ev: NativeEvent)
    requires InvAbort(s) && s.cb.Quiet?
    ensures InvAbort(CallbackBegin(s, ev))
  {
  }

  lemma OthersKeepAbort(w: World, l: Label)
    requires InvAbort(w.s) && Enabled(w, l) && !l.Front?
    ensures InvAbort(Do(w, l).s)
  {
    match l {
      case CallbackRuns => CallbackKeepsAbort(w);
      case Native(ev) => NativeKeepsAbort(w.s, ev);
      case _ =>
    }
  }

  lemma OthersKeepNotes(w: World, l: Label)
    requires Inv(w) && Notes(w) && Enabled(w, l) && !l.Front? && !l.Invoke?
    ensures Notes(Do(w, l))
  {
    OthersKeep(w, l);
    OthersFrame(w, l);
    OthersKeepAbort(w, l);
    if Finishing(w.s.flags) {
      OthersCancelNothing(w, l);
    }
  }

  lemma StepKeepsNotes(w: World, l: Label)
    requires Inv(w) && Notes(w) && Enabled(w, l)
    ensures Notes(Do(w, l))
  {
    match l {
      case Invoke(c) => InvokeKeepsNotes(w, c);
      case Front(r) => FrontKeepsNotes(w, r);
      case _ => OthersKeepNotes(w, l);
    }
  }

  lemma {:induction false} RunKeepsNotes(w: World, ls: seq<Label>)
    requires IsInitial(w) && After(w, ls).Some?
    ensures Notes(After(w, ls).value)
    decreases |ls|
  {
    if ls != [] {
      var front := ls[..|ls| - 1];
      RunKeepsNotes(w, front);
      InitialInv(w);
      RunKeeps(w, front);
      StepKeepsNotes(After(w, front).value, ls[|ls| - 1]);
    }
  }

  /** The notes are right in every reachable state. */
  lemma ReachableNotes(w: World)
    requires Reachable(w)
    ensures Notes(w)
  {
    var w0, ls :| IsInitial(w0) && After(w0, ls) == Some(w);
    RunKeepsNotes(w0, ls);
  }
}
