/** What the send half guarantees in every run. */
module SendTheorems {
  import opened Options
  import opened Terminals
  import opened SendReducer
  import opened SendProtocol
  import opened SendInvariant
  import opened SendSteps
  import opened SendNotes

  // ------------------------------------------------------------------- dead arms

  /** The adapter-fault arms of the reducer and the frontends' catch-alls are never
      taken: a fault that is published, about to be published, or returned is one of
      the live ones, and a terminal wake is only ever read with its cause visible. */
  lemma FaultArmsAreDead(w: World)
    requires Reachable(w)
    ensures w.s.slot.Some? && w.s.slot.value.Internal? ==> LiveFault(w.s.slot.value.fault)
    ensures w.s.pc.Run? && w.s.pc.cmd.PublishTerminal? && w.s.pc.cmd.candidate.Internal? ==>
      LiveFault(w.s.pc.cmd.candidate.fault)
    ensures w.s.h.last.Some? && w.s.h.last.value.Error? && w.s.h.last.value.cause.Internal? ==>
      LiveFault(w.s.h.last.value.cause.fault)
    ensures w.s.h.last != Some(Unexpected)
    ensures w.s.pc.PeekConn? && w.s.pc.Holds(TerminalWake) ==> Authoritative(Resolve(w.s.pc.loaded, w.conn.terminal))
  {
    ReachableInv(w);
  }

  // ------------------------------------------------------------------ verb order

  predicate AllSends(v: seq<Verb>) { forall i :: 0 <= i < |v| ==> v[i].VSend? }

  /** `send* (graceful reset?)?` or `send* reset`. */
  ghost predicate LegalVerbs(v: seq<Verb>) {
    exists n: nat :: n <= |v| && AllSends(v[..n]) && LegalTail(v[n..])
  }

  predicate LegalTail(t: seq<Verb>) {
    || t == []
    || (|t| == 1 && (t[0].VGraceful? || t[0].VReset?))
    || (|t| == 2 && t[0].VGraceful? && t[1].VReset?)
  }

  /** Verb sequences accepted by the sending-state automaton are legal, and in them no
      verb follows a failed one or a reset. */
  lemma {:induction false} AutomatonAcceptsLegal(v: seq<Verb>)
    requires SendingAfter(v).Some?
    ensures SendingAfter(v) == Some(Open) ==> AllSends(v)
    ensures SendingAfter(v) == Some(FinSent) ==> AllSends(v[..|v| - 1]) && v[|v| - 1].VGraceful?
    ensures SendingAfter(v) == Some(ResetSent) ==> v[|v| - 1].VReset?
    ensures LegalVerbs(v)
    ensures forall i :: 0 <= i < |v| - 1 ==> v[i].ok && !v[i].VReset?
  {
    if v == [] {
      assert AllSends(v[..0]) && LegalTail(v[0..]);
    } else {
      var m := |v| - 1;
      var u := v[..m];
      AutomatonAcceptsLegal(u);
      if SendingAfter(u) == Some(Open) {
        if v[m].VSend? {
          assert v[..|v|] == v && AllSends(v[..|v|]) && LegalTail(v[|v|..]);
        } else {
          assert AllSends(v[..m]) && v[m..] == [v[m]] && LegalTail(v[m..]);
        }
      } else {
        assert v[..m - 1] == u[..m - 1] && v[m - 1..] == [v[m - 1], v[m]] && v[m - 1] == u[m - 1];
        assert AllSends(v[..m - 1]) && LegalTail(v[m - 1..]);
      }
    }
  }

  /** Everything issued on the native stream, in order: the frontends' verbs, and the
      abort of a recovered callback where it fell. */
  datatype NativeVerb = ByFrontend(verb: Verb) | Abort

  function Lift(v: seq<Verb>): (r: seq<NativeVerb>)
    ensures |r| == |v| && forall i :: 0 <= i < |v| ==> r[i] == ByFrontend(v[i])
  {
    seq(|v|, i requires 0 <= i < |v| => ByFrontend(v[i]))
  }

  function NativeOrder(h: History): seq<NativeVerb> {
    if h.abortAt.Some? && h.abortAt.value <= |h.verbs| then
      Lift(h.verbs[..h.abortAt.value]) + [Abort] + Lift(h.verbs[h.abortAt.value..])
    else Lift(h.verbs)
  }

  /** One abort, put anywhere into a legal sequence, or none. */
  ghost predicate LegalOrder(n: seq<NativeVerb>) {
    exists v: seq<Verb>, k: nat ::
      LegalVerbs(v) && k <= |v| && (n == Lift(v) || n == Lift(v[..k]) + [Abort] + Lift(v[k..]))
  }

  /** Over every run what is issued on the native stream is a legal sequence with at most
      one abort of a recovered callback in it; among the frontends' verbs none follows a
      failed one or a reset, and there are never two sends outstanding. */
  lemma VerbOrder(w: World)
    requires Reachable(w)
    ensures LegalVerbs(w.s.h.verbs) && LegalOrder(NativeOrder(w.s.h))
    ensures Abort in NativeOrder(w.s.h) <==> w.s.poisoned || w.s.cb.Recovering()
    ensures forall i :: 0 <= i < |w.s.h.verbs| - 1 ==> w.s.h.verbs[i].ok && !w.s.h.verbs[i].VReset?
    ensures |w.s.bufs.outstanding| <= 1
  {
    ReachableInv(w);
    ReachableNotes(w);
    AutomatonAcceptsLegal(w.s.h.verbs);
    OrderIsLegal(w.s.h);
  }

  lemma OrderIsLegal(h: History)
    requires LegalVerbs(h.verbs) && (h.abortAt.Some? ==> h.abortAt.value <= |h.verbs|)
    ensures LegalOrder(NativeOrder(h)) && (Abort in NativeOrder(h) <==> h.abortAt.Some?)
  {
    var k := if h.abortAt.Some? then h.abortAt.value else 0;
    assert k <= |h.verbs|;
    if h.abortAt.Some? {
      assert NativeOrder(h)[k] == Abort;
    }
  }

  /** Once a recovered callback has poisoned its context a cause is in the slot ... */
  lemma PoisonedHasCause(w: World)
    requires Reachable(w) && w.s.poisoned
    ensures Authoritative(w.s.slot)
  {
    ReachableNotes(w);
  }

  /** ... and after any cause at most one verb is issued, whatever is called: the one
      that a call still running had decided on. Between calls it is none. */
  lemma {:induction false} OneVerbAfterCause(w: World, ls: seq<Label>)
    requires Reachable(w) && Authoritative(w.s.slot) && After(w, ls).Some?
    ensures var v := After(w, ls).value;
      && Reachable(v) && v.s.slot == w.s.slot && |v.s.h.verbs| <= |w.s.h.verbs| + 1
      && (w.s.pc.Idle? ==> v.s.h.verbs == w.s.h.verbs)
      && (Authoritative(v.s.h.entry.slot) || (v.s.h.entry == w.s.h.entry && (w.s.pc.Idle? ==> v.s.pc.Idle?)))
    decreases |ls|
  {
    if ls == [] {
      return;
    }
    var u, l := After(w, ls[..|ls| - 1]).value, ls[|ls| - 1];
    OneVerbAfterCause(w, ls[..|ls| - 1]);
    ReachableGoesOn(w, ls);
    CauseIsFinal(u, l);
    VerbsOfStep(u, l);
    ReachableNotes(w);
  }

  /** A step's verbs: none in a call that began with a cause, and at most one in any. */
  lemma VerbsOfStep(w: World, l: Label)
    requires Reachable(w) && Enabled(w, l)
    ensures var v := Do(w, l);
      && w.s.h.verbs <= v.s.h.verbs && |v.s.h.verbs| <= v.s.h.entry.verbs + 1
      && (Authoritative(w.s.h.entry.slot) || w.s.pc.Idle? ==> v.s.h.verbs == w.s.h.verbs)
      && (!l.Invoke? ==> v.s.h.entry == w.s.h.entry) && (l.Invoke? ==> v.s.h.entry.slot == w.s.slot)
      && (!l.Invoke? && w.s.pc.Idle? ==> v.s.pc.Idle?)
  {
    var v := Extend(w, l);
    ReachableInv(w);
    ReachableInv(v);
    ReachableNotes(v);
    if l.Front? {
      FrontFrame(w, l.result);
    } else if !l.Invoke? {
      OthersKeep(w, l);
    }
  }

  lemma FrontFrame(w: World, r: NativeResult)
    requires PcOk(w.s)
    ensures w.s.h.verbs <= FrontStep(w, r).s.h.verbs && FrontStep(w, r).s.h.entry == w.s.h.entry
  {
    if w.s.pc.Run? {
      ExecuteFrame(w, w.s.pc.cmd, r);
    }
  }

  // --------------------------------------------------------------- finish means sent

  /** With a disciplined caller, `poll_finish` returning Ok means that every accepted
      send completed and none was cancelled, that a FIN was accepted, and that the
      native side reported it graceful. */
  lemma FinishedMeansDelivered(w: World)
    requires Reachable(w)
    requires w.s.h.disciplined && w.s.h.last == Some(Finished)
    ensures w.s.h.accepted == w.s.h.completedOk && w.s.h.completedCancelled == 0
    ensures w.s.bufs.outstanding == {}
    ensures VGraceful(true) in w.s.h.verbs && w.s.h.finishReported
    ensures forall i, j :: 0 <= i < j < |w.s.h.verbs| ==> !(w.s.h.verbs[i].VGraceful? && w.s.h.verbs[j].VGraceful?)
  {
    ReachableInv(w);
    OneGraceful(w.s.h.verbs);
  }

  /** Whatever the caller does, a stream that `poll_finish` reported finished had a
      cancelled send exactly when FIN was decided by a poll that read the marker. */
  lemma FinishedOverCancellationIff(w: World)
    requires Reachable(w) && w.s.h.last == Some(Finished)
    ensures w.s.h.completedCancelled > 0 <==> w.s.h.finOverMarker
  {
    ReachableInv(w);
    ReachableNotes(w);
  }

  /** That note is taken where FIN is decided: the poll's own read of the slot. */
  lemma FinIgnoresCancellationIff(w: World)
    requires Reachable(w) && w.s.pc.PeekConn? && w.s.pc.prep.Finish? && Reduced(w).s.pc == Run(SubmitGraceful)
    ensures w.s.h.completedCancelled > 0 <==> w.s.pc.loaded == Some(ProvisionalAbort)
    ensures Reduced(w).s.h.finOverMarker <==> w.s.pc.loaded == Some(ProvisionalAbort)
  {
    ReachableInv(w);
    FinDecision(w);
  }

  /** From that decision on no further send can be cancelled. */
  lemma NothingIsCancelledAfterFin(w: World, l: Label)
    requires Reachable(w) && Enabled(w, l) && Finishing(w.s.flags)
    ensures Do(w, l).s.h.completedCancelled == w.s.h.completedCancelled
  {
    ReachableInv(w);
    if l.Front? {
      if w.s.pc.Run? {
        ExecuteFrame(w, w.s.pc.cmd, l.result);
      }
    } else if !l.Invoke? {
      OthersCancelNothing(w, l);
    }
  }

  lemma {:induction false} OneGraceful(v: seq<Verb>)
    requires SendingAfter(v).Some?
    ensures forall i, j :: 0 <= i < j < |v| ==> !(v[i].VGraceful? && v[j].VGraceful?)
    ensures SendingAfter(v) == Some(Open) ==> forall i :: 0 <= i < |v| ==> !v[i].VGraceful?
  {
    if v != [] {
      OneGraceful(v[..|v| - 1]);
    }
  }

  /** The FIN is only ever submitted with no send buffer outstanding. */
  lemma FinNeedsNoOutstandingSend(w: World)
    requires Reachable(w) && w.s.pc == Run(SubmitGraceful)
    ensures w.s.bufs.outstanding == {} && InFlight(w.s) == 0
  {
    ReachableInv(w);
  }

  // ------------------------------------------------------------- a settled cause

  /** No step replaces an authoritative cause in the send slot. */
  lemma CauseIsFinal(w: World, l: Label)
    requires Enabled(w, l) && Authoritative(w.s.slot)
    ensures Do(w, l).s.slot == w.s.slot
  {
  }

  /** A call that started with an authoritative cause in the slot issued no native
      verb, and reported that cause; the only other answer is a completed finish. A
      connection marker is reported as the frozen connection cause. */
  lemma SettledCallReportsCause(w: World)
    requires Reachable(w) && w.s.pc.Idle? && Authoritative(w.s.h.entry.slot)
    ensures |w.s.h.verbs| == w.s.h.entry.verbs
    ensures w.s.h.last.Some?
    ensures match w.s.h.last.value
      case Error(Connection(reason)) =>
        w.s.h.entry.slot.value.Connection? && w.conn.observed && w.conn.terminal == Some(reason)
      case Error(t) => w.s.h.entry.slot == Some(t)
      case Finished => w.s.flags.finishComplete && w.s.h.finishReported
      case o => o.ResetReturned?
  {
    ReachableInv(w);
  }

  // ----------------------------------------------------------- provisional marker

  /** A disciplined caller is never handed the provisional marker, and while the
      marker is retained there is neither a send nor a finish in progress. */
  lemma MarkerStaysHidden(w: World)
    requires Reachable(w) && w.s.h.disciplined
    ensures w.s.h.last != Some(Error(ProvisionalAbort))
    ensures w.s.slot == Some(ProvisionalAbort) ==>
      !w.s.flags.sendInprogress && !w.s.flags.sendSubmitting && !w.s.flags.finishStarted && !w.s.flags.finishSubmitting
  {
    ReachableInv(w);
  }

  /** Whatever the caller does, the marker is handed out only by the finish guard of
      `poll_ready`, and only if the call was made with a finish started, the marker in
      the slot and no connection cause ... */
  lemma MarkerHandedOutOnlyIf(w: World)
    requires Reachable(w) && w.s.pc.Idle? && w.s.h.last == Some(Error(ProvisionalAbort))
    ensures w.s.call.PollReadyCall? && w.s.flags.finishStarted && !w.s.h.disciplined
    ensures w.s.h.entry.slot == Some(ProvisionalAbort) && w.s.h.entry.conn.None?
  {
    ReachableInv(w);
    ReachableNotes(w);
  }

  /** `poll_ready` with nobody in between. */
  const GUARDED_POLL: seq<Label> := [Invoke(PollReadyCall), Front(None), Front(None), Front(None)]

  /** ... and a call made in such a state does hand it out. */
  lemma MarkerHandedOutIf(w: World)
    requires w.s.pc.Idle? && w.s.flags.finishStarted && w.s.slot == Some(ProvisionalAbort) && w.conn.terminal.None?
    ensures After(w, GUARDED_POLL).Some?
    ensures var v := After(w, GUARDED_POLL).value; v.s.pc.Idle? && v.s.h.last == Some(Error(ProvisionalAbort))
  {
    var w1 := w.(s := Begin(w.conn, w.s, PollReadyCall));
    var w2 := FrontStep(w1, None);
    var w3 := FrontStep(w2, None);
    assert GUARDED_POLL[..3][..2] == GUARDED_POLL[..2] && GUARDED_POLL[..2][..1] == GUARDED_POLL[..1];
    assert GUARDED_POLL[..1][..0] == [];
    assert After(w, GUARDED_POLL[..1]) == Some(w1);
    assert After(w, GUARDED_POLL[..2]) == Some(w2);
    assert After(w, GUARDED_POLL[..3]) == Some(w3) && w3.s.pc == Run(ReturnError(ProvisionalAbort));
  }

  // ------------------------------------------------- a cancellation masks nothing

  /** A native failure or synthesized abort is delivered only if neither slot held a
      cause when its downcall returned or its closure event was read. */
  lemma FailureMasksNothing(w: World)
    requires Reachable(w)
    ensures w.s.slot.Some? && w.s.slot.value.Failed? ==> w.s.h.failedClean
    ensures w.s.h.last.Some? && w.s.h.last.value.Error? && w.s.h.last.value.cause.Failed? ==>
      w.s.slot == Some(w.s.h.last.value.cause) && w.s.h.failedClean
  {
    ReachableInv(w);
  }

  // ---------------------------------------------------------------------- buffers

  lemma {:induction false} IdsCount(n: nat)
    ensures |Ids(n)| == n
  {
    if n > 0 {
      IdsCount(n - 1);
      assert n - 1 !in Ids(n - 1);
    }
  }

  /** Every buffer ever handed to the native side has exactly one fate. */
  lemma BuffersAreConserved(w: World)
    requires Reachable(w)
    ensures var b := w.s.bufs;
      b.next == |b.freedOnFailure| + |b.freedOnComplete| + |b.outstanding| + |b.leaked|
                + (if w.s.cb.Reclaiming? then 1 else 0)
    ensures w.s.bufs.outstanding !! w.s.bufs.freedOnFailure !! w.s.bufs.freedOnComplete !! w.s.bufs.leaked
    ensures |w.s.bufs.outstanding| <= 1
    ensures !w.s.poisoned && !w.s.cb.Recovering() ==> w.s.bufs.leaked == {}
    ensures !w.s.poisoned && w.s.cb.Quiet? && w.s.bufs.outstanding == {} ==>
      w.s.bufs.freedOnFailure + w.s.bufs.freedOnComplete == Ids(w.s.bufs.next)
  {
    ReachableInv(w);
    var b := w.s.bufs;
    IdsCount(b.next);
    var held := if w.s.cb.Reclaiming? then {w.s.cb.buffer} else {};
    assert |b.outstanding + b.freedOnFailure| == |b.outstanding| + |b.freedOnFailure|;
    assert |b.outstanding + b.freedOnFailure + b.freedOnComplete|
        == |b.outstanding + b.freedOnFailure| + |b.freedOnComplete|;
    assert |b.outstanding + b.freedOnFailure + b.freedOnComplete + b.leaked|
        == |b.outstanding + b.freedOnFailure + b.freedOnComplete| + |b.leaked|;
    assert |b.outstanding + b.freedOnFailure + b.freedOnComplete + b.leaked + held|
        == |b.outstanding + b.freedOnFailure + b.freedOnComplete + b.leaked| + |held|;
  }

  // ------------------------------------------------------------------ termination

  /** An upper bound on the atomic actions the running call can still take. */
  function Left(s: Stream): nat {
    4 * Budget(s.call, s.pc, s.flags) +
    match s.pc
    case Idle => 0
    case GuardLoad => 6
    case GuardPeek(_) => 5
    case ReadChannel => 3
    case LoadSlot(_) => 2
    case PeekConn(_, _) => 1
    case Run(_) => 4
  }

  lemma ReadySpends(w: World)
    requires InvCore(w) && w.s.pc.PeekConn? && w.s.pc.prep.Ready?
    ensures var t := FrontStep(w, None).s; Budget(t.call, t.pc, t.flags) < Budget(w.s.call, w.s.pc, w.s.flags)
  {
  }

  lemma FinishSpends(w: World)
    requires InvCore(w) && w.s.pc.PeekConn? && w.s.pc.prep.Finish?
    ensures var t := FrontStep(w, None).s; Budget(t.call, t.pc, t.flags) < Budget(w.s.call, w.s.pc, w.s.flags)
  {
  }

  lemma OtherSpends(w: World)
    requires InvCore(w) && w.s.pc.PeekConn? && !w.s.pc.prep.Ready? && !w.s.pc.prep.Finish?
    ensures var t := FrontStep(w, None).s; Budget(t.call, t.pc, t.flags) < Budget(w.s.call, w.s.pc, w.s.flags)
  {
  }

  lemma RunSpends(w: World, r: NativeResult)
    requires InvCore(w) && w.s.pc.Run?
    ensures Left(FrontStep(w, r).s) < Left(w.s)
  {
    ExecuteIs(w, w.s.pc.cmd, r);
  }

  lemma FrontSpends(w: World, r: NativeResult)
    requires InvCore(w) && !w.s.pc.Idle?
    ensures Left(FrontStep(w, r).s) < Left(w.s)
  {
    if w.s.pc.Run? {
      RunSpends(w, r);
    } else if w.s.pc.PeekConn? {
      if w.s.pc.prep.Ready? {
        ReadySpends(w);
      } else if w.s.pc.prep.Finish? {
        FinishSpends(w);
      } else {
        OtherSpends(w);
      }
    }
  }

  /** Every call ends: whatever interleaves, each frontend action uses up the bound,
      and no other thread's step changes it. */
  lemma CallsTerminate(w: World, l: Label)
    requires Reachable(w) && Enabled(w, l)
    ensures l.Front? ==> Left(Do(w, l).s) < Left(w.s)
    ensures !l.Front? && !l.Invoke? ==> Left(Do(w, l).s) == Left(w.s)
  {
    ReachableInv(w);
    if l.Front? {
      FrontSpends(w, l.result);
    } else if !l.Invoke? {
      OthersKeep(w, l);
    }
  }

  /** A call takes at most 27 atomic actions and six reducer steps, and between calls
      no reservation is held. */
  lemma CallsAreShort(w: World, c: Call)
    requires Reachable(w)
    ensures w.s.pc.Idle? ==> Left(Begin(w.conn, w.s, c)) <= 27
    ensures w.s.h.steps <= 6
    ensures w.s.pc.Idle? ==> !w.s.flags.SubmissionReserved()
  {
    ReachableInv(w);
  }

  // ----------------------------------------------------------------- no lost wake

  /** Pending is answered only to a poll whose latest channel read was pending; until
      it is woken its waker stays armed on an empty, open channel; and once a cause is
      in the slot it has been woken, or the publishing callback has still to signal. */
  lemma ParkedIsWoken(w: World)
    requires Reachable(w) && w.s.pc.Idle? && w.s.h.last == Some(Parked)
    ensures w.s.h.read == Some(ChannelPending)
    ensures w.s.chan.woken || (w.s.chan.armed && w.s.chan.queue == [] && !w.s.chan.closed)
    ensures Authoritative(w.s.slot) ==> w.s.chan.woken || w.s.cb.WillSignal()
  {
    ReachableInv(w);
    ReachableNotes(w);
  }

  /** What a callback that has still to signal does: a push or a close wakes an armed
      poll. */
  lemma SignalWakes(w: World)
    requires w.s.chan.armed && !w.s.chan.closed
    requires w.s.cb == Pushing(TerminalWake) || w.s.cb.Closing? || w.s.cb.RecoverWake? || w.s.cb.RecoverClose?
    ensures CallbackStep(w).s.chan.woken
  {
  }

  /** No call that starts after the channel was closed parks, and the channel is
      closed once the callback has handled the stream's shutdown or recovered. */
  lemma ClosedNeverParks(w: World)
    requires Reachable(w) && w.s.h.entry.closed
    ensures !(w.s.pc.Idle? && w.s.h.last == Some(Parked))
    ensures w.s.pc != Run(ReturnPending)
  {
    ReachableInv(w);
  }

  lemma ShutdownCloses(w: World)
    requires w.s.cb.Closing? || w.s.cb.RecoverClose?
    ensures CallbackStep(w).s.chan.closed
  {
  }

  lemma ClosedStaysClosed(w: World, l: Label)
    requires w.s.chan.closed
    ensures Do(w, l).s.chan.closed
    ensures l.Invoke? ==> Do(w, l).s.h.entry.closed
  {
  }
}
