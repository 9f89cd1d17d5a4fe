/** Runs that show what can happen: why two of the send guarantees name the caller's
    discipline, and that each internal fault not shown dead is live. */
module SendRuns {
  import opened Options
  import opened Terminals
  import opened SendReducer
  import opened SendProtocol
  import opened SendInvariant

  /** No cause is known and nothing is going on. */
  predicate Resting(w: World, f: SendFlags) {
    && w.conn.terminal.None? && w.s.pc.Idle? && !Authoritative(w.s.slot) && w.s.flags == f
    && w.s.cb.Quiet? && !w.s.poisoned && !w.s.chan.closed
  }

  lemma Call(w: World, c: Call) returns (v: World)
    requires Reachable(w) && w.s.pc.Idle?
    ensures v == w.(s := Begin(w.conn, w.s, c)) && Reachable(v)
  {
    v := Extend(w, Invoke(c));
  }

  /** Read both slots and reduce, with nobody in between. */
  lemma Look(w: World) returns (v: World)
    requires Reachable(w) && w.s.pc.LoadSlot?
    ensures v == w.(s := Reduce(w.s, Fill(w.s.pc.prep, Resolve(w.s.slot, w.conn.terminal)))) && Reachable(v)
  {
    v := Extend(w, Front(None));
    v := Extend(v, Front(None));
  }

  /** Read the channel, then both slots, and reduce. */
  lemma Poll(w: World) returns (v: World)
    requires Reachable(w) && w.s.pc.ReadChannel?
    ensures var t := PollChannel(w.conn, w.s);
      v == w.(s := Reduce(t, Fill(t.pc.prep, Resolve(t.slot, w.conn.terminal)))) && Reachable(v)
  {
    v := Extend(w, Front(None));
    v := Look(v);
  }

  lemma Act(w: World) returns (v: World)
    requires Reachable(w) && w.s.pc.Run?
    ensures v == Execute(w, w.s.pc.cmd, None) && Reachable(v)
  {
    v := Extend(w, Front(None));
  }

  lemma SubmitOne(w: World) returns (v: World)
    requires Reachable(w) && Resting(w, FRESH)
    ensures Reachable(v) && Resting(v.(s := v.s.(pc := Idle)), FRESH.(sendSubmitting := true))
    ensures v.s.pc == LoadSlot(Submitted(None)) && v.s.call.SendDataCall?
    ensures v.s.slot == w.s.slot && v.s.chan == w.s.chan && w.s.bufs.next in v.s.bufs.outstanding
    ensures v.s.h.completedCancelled == w.s.h.completedCancelled
  {
    v := Call(w, SendDataCall(NonEmpty(1)));
    v := Look(v);
    assert v.s.pc == Run(SubmitSend);
    v := Act(v);
  }

  lemma AcceptSend(w: World) returns (v: World)
    requires Reachable(w) && Resting(w, FRESH)
    ensures Reachable(v) && Resting(v, FRESH.(sendInprogress := true))
    ensures v.s.slot == w.s.slot && v.s.chan == w.s.chan && w.s.bufs.next in v.s.bufs.outstanding
    ensures v.s.h.completedCancelled == w.s.h.completedCancelled
  {
    v := SubmitOne(w);
    v := Look(v);
    assert v.s.pc == Run(ReturnSent);
    v := Act(v);
  }

  lemma CompleteSend(w: World, id: nat, cancelled: bool) returns (v: World)
    requires Reachable(w) && Resting(w, w.s.flags) && id in w.s.bufs.outstanding
    ensures Reachable(v) && Resting(v, w.s.flags)
    ensures v.s.slot == w.s.slot && v.s.chan.queue == w.s.chan.queue + [Complete(cancelled)]
    ensures v.s.h.completedCancelled == w.s.h.completedCancelled + if cancelled then 1 else 0
  {
    v := Extend(w, Native(SendCompleteEv(id, cancelled)));
    v := Extend(v, CallbackRuns);
    v := Extend(v, CallbackRuns);
  }

  /** A cancelled completion is read and the marker published ... */
  lemma PublishMarker(w: World) returns (v: World)
    requires Reachable(w) && Resting(w, FRESH.(sendInprogress := true))
    requires w.s.slot.None? && w.s.chan.queue == [Complete(true)]
    ensures Reachable(v) && v.s.pc == Run(RepollReady) && v.s.call.PollReadyCall?
    ensures Resting(v.(s := v.s.(pc := Idle)), FRESH)
    ensures v.s.slot == Some(ProvisionalAbort) && v.s.chan.queue == []
    ensures v.s.h.completedCancelled == w.s.h.completedCancelled
  {
    v := Call(w, PollReadyCall);
    v := Poll(v);
    assert v.s.pc == Run(PublishTerminal(ProvisionalAbort, PollReady)) && v.s.chan.queue == [];
    v := Act(v);
  }

  /** ... and with the marker in the slot the poll parks. */
  lemma ParkOnCancelled(w: World) returns (v: World)
    requires Reachable(w) && Resting(w, FRESH.(sendInprogress := true))
    requires w.s.slot.None? && w.s.chan.queue == [Complete(true)]
    ensures Reachable(v) && Resting(v, FRESH)
    ensures v.s.slot == Some(ProvisionalAbort) && v.s.chan.queue == [] && v.s.h.last == Some(Parked)
    ensures v.s.h.completedCancelled == w.s.h.completedCancelled
  {
    v := PublishMarker(w);
    v := Act(v);
    v := Poll(v);
    assert v.s.pc == Run(ReturnPending);
    v := Act(v);
  }

  lemma SubmitFin(w: World) returns (v: World)
    requires Reachable(w) && Resting(w, FRESH.(sendInprogress := true))
    requires w.s.slot == Some(ProvisionalAbort) && w.s.chan.queue == [Complete(false)]
    ensures Reachable(v) && Resting(v.(s := v.s.(pc := Idle)), FRESH.(finishSubmitting := true))
    ensures v.s.pc == LoadSlot(GracefulDone(None)) && v.s.call == PollFinishCall
    ensures v.s.slot == w.s.slot && v.s.chan.queue == [] && VGraceful(true) in v.s.h.verbs
    ensures v.s.h.completedCancelled == w.s.h.completedCancelled
  {
    v := Call(w, PollFinishCall);
    v := Poll(v);
    assert v.s.pc == Run(SubmitGraceful) && v.s.chan.queue == [];
    v := Act(v);
  }

  lemma StartFinish(w: World) returns (v: World)
    requires Reachable(w) && Resting(w, FRESH.(sendInprogress := true))
    requires w.s.slot == Some(ProvisionalAbort) && w.s.chan.queue == [Complete(false)]
    ensures Reachable(v) && Resting(v, FRESH.(finishStarted := true))
    ensures v.s.slot == w.s.slot && v.s.chan.queue == [] && VGraceful(true) in v.s.h.verbs
    ensures v.s.h.completedCancelled == w.s.h.completedCancelled
  {
    v := SubmitFin(w);
    v := Look(v);
    assert v.s.pc == Run(RepollFinish);
    v := Act(v);
    v := Poll(v);
    assert v.s.pc == Run(ReturnPending);
    v := Act(v);
  }

  /** A second send on top of a retained marker, completed, and a finish started. */
  lemma FinishingOverMarker() returns (v: World)
    ensures Reachable(v) && Resting(v, FRESH.(finishStarted := true))
    ensures v.s.slot == Some(ProvisionalAbort) && v.s.chan.queue == [] && VGraceful(true) in v.s.h.verbs
    ensures v.s.h.completedCancelled == 1
  {
    v := World(EMPTY_CONN, FRESH_STREAM);
    assert After(v, []) == Some(v);
    var first := v.s.bufs.next;
    v := AcceptSend(v);
    v := CompleteSend(v, first, true);
    v := ParkOnCancelled(v);
    var second := v.s.bufs.next;
    v := AcceptSend(v);
    v := CompleteSend(v, second, false);
    v := StartFinish(v);
  }

  /** Without discipline `poll_ready` can hand the provisional marker to h3. */
  lemma UndisciplinedCallerSeesMarker() returns (v: World)
    ensures Reachable(v) && v.s.h.last == Some(Error(ProvisionalAbort))
  {
    v := FinishingOverMarker();
    v := Call(v, PollReadyCall);
    v := Extend(v, Front(None));
    v := Extend(v, Front(None));
    v := Act(v);
  }

  /** The native side reports a finish. */
  lemma ReportFinish(w: World, graceful: bool) returns (v: World)
    requires Reachable(w) && Resting(w, w.s.flags) && w.s.chan.queue == []
    requires graceful ==> VGraceful(true) in w.s.h.verbs
    ensures Reachable(v) && Resting(v, w.s.flags) && v.s.slot == w.s.slot
    ensures v.s.chan.queue == [FinishComplete(graceful)] && v.s.h.completedCancelled == w.s.h.completedCancelled
  {
    v := Extend(w, Native(SendShutdownCompleteEv(graceful)));
    v := Extend(v, CallbackRuns);
  }

  /** Without discipline `poll_finish` can report success over a cancelled send. */
  lemma UndisciplinedFinishHidesCancellation() returns (v: World)
    ensures Reachable(v) && v.s.h.last == Some(Finished) && v.s.h.completedCancelled == 1
  {
    v := FinishingOverMarker();
    v := ReportFinish(v, true);
    v := Call(v, PollFinishCall);
    v := Poll(v);
    assert v.s.pc == Run(ReturnFinished);
    v := Act(v);
  }

  // -------------------------------------------------------------------- live faults

  predicate Tells(w: World, fault: Fault) { w.s.h.last == Some(Error(SendTerminal.Internal(fault))) }

  /** A call whose next command publishes a fault returns that fault. */
  lemma FaultIsTold(w: World, fault: Fault, k: Continuation) returns (v: World)
    requires Reachable(w) && w.s.pc == Run(Fail(fault, k)) && !Authoritative(w.s.slot)
    requires !k.Reset? && !w.s.call.ResetCall?
    ensures Reachable(v) && Tells(v, fault)
  {
    v := Act(w);
    assert v.s.pc == Run(ReturnError(SendTerminal.Internal(fault)));
    v := Act(v);
  }

  lemma FreshWorld() returns (v: World)
    ensures Reachable(v) && Resting(v, FRESH) && v.s.slot.None? && v.s.chan == Channel([], false, false, false)
  {
    v := World(EMPTY_CONN, FRESH_STREAM);
    assert After(v, []) == Some(v);
  }

  /** The stream shuts down with its connection alive. */
  lemma ShutDownAlone() returns (v: World)
    ensures Reachable(v) && v.s.pc.Idle? && v.s.flags == FRESH && v.s.slot.None? && v.conn.terminal.None?
    ensures v.s.chan == Channel([], true, false, false)
  {
    v := FreshWorld();
    v := Extend(v, Native(ShutdownCompleteEv(Shutdown(false, false, false, 0, Aborted))));
    v := Extend(v, CallbackRuns);
  }

  lemma ClosedChannelIsLive() returns (v: World)
    ensures Reachable(v) && Tells(v, ChannelClosedWithoutTerminal)
  {
    v := ShutDownAlone();
    v := Call(v, PollReadyCall);
    v := Poll(v);
    assert v.s.pc == Run(Fail(ChannelClosedWithoutTerminal, PollReady));
    v := FaultIsTold(v, ChannelClosedWithoutTerminal, PollReady);
  }

  lemma FinishEventOnPollReadyIsLive() returns (v: World)
    ensures Reachable(v) && Tells(v, FinishEventOnPollReady)
  {
    v := FreshWorld();
    v := ReportFinish(v, false);
    v := Call(v, PollReadyCall);
    v := Poll(v);
    v := FaultIsTold(v, FinishEventOnPollReady, PollReady);
  }

  lemma FinishWithoutStartIsLive() returns (v: World)
    ensures Reachable(v) && Tells(v, FinishCompleteWithoutStart)
  {
    v := FreshWorld();
    v := ReportFinish(v, false);
    v := Call(v, PollFinishCall);
    v := Poll(v);
    v := FaultIsTold(v, FinishCompleteWithoutStart, PollFinish);
  }

  /** An authoritative cause is in the slot and its wake in the channel. */
  lemma CauseIsTold(w: World, fault: Fault) returns (v: World)
    requires Reachable(w) && w.s.pc.Idle? && w.s.flags == FRESH && w.conn.terminal.None?
    requires w.s.slot == Some(SendTerminal.Internal(fault)) && w.s.chan.queue == [TerminalWake]
    ensures Reachable(v) && Tells(v, fault)
  {
    v := Call(w, PollReadyCall);
    v := Poll(v);
    v := Act(v);
  }

  lemma MissingContextIsLive() returns (v: World)
    ensures Reachable(v) && Tells(v, MissingClientContext)
  {
    v := FreshWorld();
    v := Extend(v, Native(SendCompleteNullEv(false)));
    v := Extend(v, CallbackRuns);
    assert v.s.cb == Pushing(TerminalWake);
    v := Extend(v, CallbackRuns);
    assert v.s.chan.queue == [TerminalWake];
    v := CauseIsTold(v, MissingClientContext);
  }

  predicate Recovering(w: World, cb: Callback) {
    && w.s.pc.Idle? && w.s.flags == FRESH && w.conn.terminal.None? && w.s.cb == cb && w.s.chan.queue == []
    && !w.s.chan.closed
  }

  lemma PanicFresh() returns (v: World)
    ensures Reachable(v) && Recovering(v, RecoverPublish) && v.s.slot.None?
  {
    v := FreshWorld();
    v := Extend(v, CallbackPanics);
  }

  lemma PublishPanic(w: World) returns (v: World)
    requires Reachable(w) && Recovering(w, RecoverPublish) && w.s.slot.None?
    ensures Reachable(v) && Recovering(v, RecoverWake) && v.s.slot == Some(SendTerminal.Internal(CallbackPanicked))
  {
    v := Extend(w, CallbackRuns);
  }

  lemma PanicIsLive() returns (v: World)
    ensures Reachable(v) && Tells(v, CallbackPanicked)
  {
    v := PanicFresh();
    v := PublishPanic(v);
    v := Extend(v, CallbackRuns);
    assert v.s.chan.queue == [TerminalWake];
    v := CauseIsTold(v, CallbackPanicked);
  }

  /** FIN is accepted on a stream that sent nothing ... */
  lemma FinFresh() returns (v: World)
    ensures Reachable(v) && Resting(v.(s := v.s.(pc := Idle)), FRESH.(finishStarted := true)) && v.s.slot.None?
    ensures v.s.pc == Run(RepollFinish) && v.s.call == PollFinishCall && v.s.chan.queue == []
  {
    v := FreshWorld();
    v := Call(v, PollFinishCall);
    v := Poll(v);
    assert v.s.pc == Run(SubmitGraceful);
    v := Act(v);
    v := Look(v);
  }

  /** ... and its finish waits. */
  lemma FinishFresh() returns (v: World)
    ensures Reachable(v) && Resting(v, FRESH.(finishStarted := true)) && v.s.slot.None?
  {
    v := FinFresh();
    v := Act(v);
    v := Poll(v);
    assert v.s.pc == Run(ReturnPending);
    v := Act(v);
  }

  lemma PollReadyAfterFinishIsLive() returns (v: World)
    ensures Reachable(v) && Tells(v, PollReadyAfterFinish)
  {
    v := FinishFresh();
    v := Call(v, PollReadyCall);
    v := Extend(v, Front(None));
    v := Extend(v, Front(None));
    v := Act(v);
  }

  /** The faults not shown dead are exactly the ones some run returns. */
  lemma EveryLiveFaultIsTold(fault: Fault) returns (v: World)
    requires LiveFault(fault)
    ensures Reachable(v) && Tells(v, fault)
  {
    match fault {
      case ChannelClosedWithoutTerminal => v := ClosedChannelIsLive();
      case FinishEventOnPollReady => v := FinishEventOnPollReadyIsLive();
      case FinishCompleteWithoutStart => v := FinishWithoutStartIsLive();
      case PollReadyAfterFinish => v := PollReadyAfterFinishIsLive();
      case MissingClientContext => v := MissingContextIsLive();
      case CallbackPanicked => v := PanicIsLive();
    }
  }
}
