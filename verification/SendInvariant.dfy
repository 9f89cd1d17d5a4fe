/** The invariant of the send half, kept by every step of every thread. */
module SendInvariant {
  import opened Options
  import opened Terminals
  import opened SendReducer
  import opened SendProtocol

  // ------------------------------------------------------------------ ingredients

  /** A cause that every later frontend read will see. */
  predicate Dead(w: World) { Authoritative(w.s.slot) || w.conn.terminal.Some? }

  /** ... including the read that is half done. */
  predicate DeadSeen(w: World) {
    Dead(w) && (w.s.pc.PeekConn? ==> Authoritative(w.s.pc.loaded) || w.conn.terminal.Some?)
  }

  function CountCompletes(q: seq<SendEvent>): nat {
    if q == [] then 0 else (if q[0].Complete? then 1 else 0) + CountCompletes(q[1..])
  }

  lemma {:induction false} CountAppend(q: seq<SendEvent>, e: SendEvent)
    ensures CountCompletes(q + [e]) == CountCompletes(q) + (if e.Complete? then 1 else 0)
  {
    if q == [] {
      assert [e][1..] == [];
    } else {
      CountAppend(q[1..], e);
      assert (q + [e])[1..] == q[1..] + [e];
    }
  }

  lemma {:induction false} CountZero(q: seq<SendEvent>, e: SendEvent)
    requires CountCompletes(q) == 0 && e in q
    ensures !e.Complete?
  {
    if e != q[0] {
      CountZero(q[1..], e);
    }
  }

  /** Accepted sends whose completion the reducer has not consumed yet. */
  function InFlight(s: Stream): nat {
    |s.bufs.outstanding| + s.cb.Completes() + CountCompletes(s.chan.queue) + s.pc.HeldCompletes() + s.h.lost
  }

  predicate LiveFault(f: Fault) {
    || f.ChannelClosedWithoutTerminal? || f.FinishEventOnPollReady? || f.FinishCompleteWithoutStart?
    || f.PollReadyAfterFinish? || f.MissingClientContext? || f.CallbackPanicked?
  }

  predicate LiveCause(t: SendTerminal) { t.Internal? ==> LiveFault(t.fault) }

  // ------------------------------------------------------- control shape and faults

  predicate Reserved(f: SendFlags, send: bool, finish: bool, reset: bool) {
    f.sendSubmitting == send && f.finishSubmitting == finish && f.resetSubmitting == reset
  }

  predicate PrepOk(call: Call, p: Prep, f: SendFlags) {
    match p
    case Requested(_) => call.SendDataCall? && Reserved(f, false, false, false)
    case Submitted(_) => call.SendDataCall? && Reserved(f, true, false, false) && !f.finishStarted
    case Ready(_) => call.PollReadyCall? && Reserved(f, false, false, false) && !f.finishStarted
    case Finish(_) => call.PollFinishCall? && Reserved(f, false, false, false)
    case ResetAsked(_) => call.ResetCall? && Reserved(f, false, false, false)
    case GracefulDone(_) => call.PollFinishCall? && Reserved(f, false, true, false) && !f.finishStarted
    case ResetDone(_, _) => call.ResetCall? && Reserved(f, false, false, true)
  }

  function ContinuationOf(call: Call): Continuation {
    match call
    case SendDataCall(_) => SendData
    case PollReadyCall => PollReady
    case PollFinishCall => PollFinish
    case ResetCall(_) => Reset
  }

  predicate CmdOk(call: Call, cmd: SendCommand, f: SendFlags) {
    && Reserved(f, cmd.SubmitSend?, cmd.SubmitGraceful?, cmd.SubmitReset?)
    && (cmd.PublishTerminal? ==> cmd.continuation == ContinuationOf(call) && LiveCause(cmd.candidate))
    && (cmd.ReturnError? ==> LiveCause(cmd.cause))
    && match call
       case SendDataCall(_) =>
         || cmd.ReturnSent? || cmd.ReturnImmediateError? || (cmd.SubmitSend? && !f.finishStarted)
         || (cmd.ReturnError? && !cmd.cause.IsProvisional())
         || (cmd.PublishTerminal? && !cmd.candidate.IsProvisional())
       case PollReadyCall =>
         || (cmd.ReturnPending? && !f.finishStarted)
         || (cmd.ReturnReady? && !f.sendInprogress && !f.finishStarted)
         || (cmd.RepollReady? && !f.finishStarted && !f.sendInprogress)
         || (cmd.ReturnError? && (cmd.cause.IsProvisional() ==> f.finishStarted))
         || (cmd.PublishTerminal? && !f.finishStarted && (cmd.candidate.IsProvisional() ==> !f.sendInprogress))
       case PollFinishCall =>
         || cmd.ReturnPending? || (cmd.ReturnFinished? && f.finishComplete)
         || (cmd.SubmitGraceful? && !f.finishStarted)
         || (cmd.RepollFinish? && !f.finishComplete && !f.sendInprogress)
         || (cmd.ReturnError? && !cmd.cause.IsProvisional())
         || (cmd.PublishTerminal? && !f.finishComplete
             && (cmd.candidate.IsProvisional() ==> !f.sendInprogress && !f.finishStarted))
       case ResetCall(_) =>
         || cmd.NoOp? || cmd.SubmitReset?
         || (cmd.PublishTerminal? && !cmd.candidate.IsProvisional())
  }

  predicate PcOk(s: Stream) {
    match s.pc
    case Idle => Reserved(s.flags, false, false, false)
    case GuardLoad => s.call.PollReadyCall? && s.flags.finishStarted && Reserved(s.flags, false, false, false)
    case GuardPeek(_) => s.call.PollReadyCall? && s.flags.finishStarted && Reserved(s.flags, false, false, false)
    case ReadChannel =>
      && Reserved(s.flags, false, false, false)
      && (s.call.PollFinishCall? || (s.call.PollReadyCall? && !s.flags.finishStarted))
    case LoadSlot(p) => PrepOk(s.call, p, s.flags)
    case PeekConn(p, _) => PrepOk(s.call, p, s.flags)
    case Run(cmd) => CmdOk(s.call, cmd, s.flags)
  }

  /** Program counter, reservations and pending command fit together, and only
      live faults are ever about to be published or returned. */
  predicate InvShape(s: Stream) {
    && PcOk(s)
    && (s.slot.Some? ==> LiveCause(s.slot.value))
    && (s.cb.Publishing? ==> LiveCause(s.cb.cause) && !s.cb.cause.IsProvisional() && !s.cb.cause.Failed?)
    && (s.flags.finishComplete ==> s.flags.finishStarted)
  }

  /** A read in progress holds the slot's value, or an older one that was refined since. */
  predicate InvLoaded(s: Stream) {
    s.pc.PeekConn? || s.pc.GuardPeek? ==>
      && (Authoritative(s.pc.loaded) ==> s.slot == s.pc.loaded)
      && (s.slot == Some(ProvisionalAbort) ==> s.pc.loaded == s.slot)
      && (s.pc.loaded.Some? ==> s.slot.Some?)
  }

  // --------------------------------------------------------------------- the rest

  /** At most one send is in flight, and forgetting it means a cause is visible. */
  predicate InvFlight(w: World) {
    var s := w.s;
    var n := InFlight(s);
    && n <= 1
    && (s.flags.sendInprogress ==> n == 1)
    && (s.pc.SendAccepted() ==> n == 1 && !s.flags.sendInprogress)
    && (s.flags.sendSubmitting && !s.pc.SendAccepted() ==> n == 0)
    && (s.flags.finishStarted || s.flags.finishSubmitting ==> n == 0)
    && (n == 1 && !s.flags.sendInprogress && !s.pc.SendAccepted() ==> DeadSeen(w))
  }

  /** A terminal wake is preceded by the cause it announces. */
  predicate InvWake(s: Stream) {
    && (TerminalWake in s.chan.queue ==> Authoritative(s.slot))
    && (s.cb == Pushing(TerminalWake) || s.cb.RecoverWake? ==> Authoritative(s.slot))
    && (s.pc.Holds(TerminalWake) ==> Authoritative(s.slot) && (s.pc.PeekConn? ==> Authoritative(s.pc.loaded)))
  }

  predicate IsConnection(s: SendSlot) { s.Some? && s.value.Connection? }

  /** Wherever a connection marker is, the connection slot holds a cause. */
  predicate InvConn(w: World) {
    var s := w.s;
    && Sound(w.conn)
    && (w.conn.terminal.None? ==>
        && !IsConnection(s.slot)
        && (s.pc.PeekConn? || s.pc.GuardPeek? ==> !IsConnection(s.pc.loaded))
        && (s.pc.Run? && s.pc.cmd.ReturnError? ==> !s.pc.cmd.cause.Connection?)
        && (s.pc.Run? && s.pc.cmd.PublishTerminal? ==> !s.pc.cmd.candidate.Connection?)
        && !s.cb.MarkingReceive? && !s.cb.MarkingSend?
        && (s.cb.Publishing? ==> !s.cb.cause.Connection?))
  }

  /** The last verb left nothing to do: it failed, or it was a reset. */
  predicate Spent(v: seq<Verb>) { v != [] && (v[|v| - 1].VReset? || !v[|v| - 1].ok) }

  /** The sending states of section 3.1 of RFC 9000 that native verbs move through. */
  datatype Sending = Open | FinSent | ResetSent

  function SendingAfter(v: seq<Verb>): Option<Sending> {
    if v == [] then Some(Open)
    else
      var u := v[..|v| - 1];
      var p := SendingAfter(u);
      if p.None? || Spent(u) then None
      else match v[|v| - 1]
        case VSend(_) => if p.value.Open? then p else None
        case VGraceful(_) => if p.value.Open? then Some(FinSent) else None
        case VReset(_) => Some(ResetSent)
  }

  /** A spent verb's cause is on its way into the slot. */
  predicate CauseUnderway(pc: Pc) {
    || ((pc.LoadSlot? || pc.PeekConn?)
        && (pc.prep.ResetDone? || ((pc.prep.Submitted? || pc.prep.GracefulDone?) && pc.prep.result.Some?)))
    || (pc.Run? && pc.cmd.PublishTerminal? && !pc.cmd.candidate.IsProvisional())
  }

  predicate GracefulAccepted(pc: Pc) { (pc.LoadSlot? || pc.PeekConn?) && pc.prep == GracefulDone(None) }

  predicate InvVerbs(s: Stream) {
    var v := s.h.verbs;
    var p := SendingAfter(v);
    && p.Some?
    && (Spent(v) ==>
        || CauseUnderway(s.pc)
        || (Authoritative(s.slot) && (s.pc.PeekConn? ==> Authoritative(s.pc.loaded))))
    && (!Spent(v) ==> !p.value.ResetSent? && (p.value.FinSent? <==> s.flags.finishStarted || GracefulAccepted(s.pc)))
    && (s.flags.finishStarted || GracefulAccepted(s.pc) ==> VGraceful(true) in v)
    && (s.pc.Run? && (s.pc.cmd.SubmitSend? || s.pc.cmd.SubmitGraceful?) ==> !Spent(v) && p.value.Open?)
    && (s.pc.Run? && s.pc.cmd.SubmitReset? ==> !Spent(v))
    && (CauseUnderway(s.pc) && !s.pc.Run? ==> Spent(v))
    && (s.pc.SendAccepted() || GracefulAccepted(s.pc) ==> !Spent(v))
  }

  /** The provisional marker is somewhere. */
  predicate Marker(s: Stream) {
    || s.slot == Some(ProvisionalAbort)
    || (s.pc.PeekConn? && s.pc.loaded == Some(ProvisionalAbort))
    || (s.pc.Run? && s.pc.cmd.PublishTerminal? && s.pc.cmd.candidate.IsProvisional())
  }

  /** With a disciplined caller the marker excludes a send and a finish. */
  predicate InvMarker(s: Stream) {
    s.h.disciplined ==>
      && (s.h.canSend ==> !s.flags.sendInprogress && !s.flags.sendSubmitting && (s.pc.Idle? || !s.call.SendDataCall?))
      && (Marker(s) ==>
          && !s.flags.sendInprogress && !s.flags.sendSubmitting && !s.h.canSend
          && !s.flags.finishStarted && !s.flags.finishSubmitting
          && (s.pc.Idle? || !s.call.SendDataCall?))
      && !(s.pc.GuardPeek? && s.pc.loaded == Some(ProvisionalAbort))
      && (s.pc.Run? && s.pc.cmd.ReturnError? ==> !s.pc.cmd.cause.IsProvisional())
      && (s.pc.Run? && s.pc.cmd.ReturnReady? ==> !Marker(s))
  }

  /** A cancelled completion is on its way to the reducer. */
  predicate CancelOnItsWay(s: Stream) {
    || (s.cb.Reclaiming? && s.cb.cancelled) || s.cb == Pushing(Complete(true))
    || Complete(true) in s.chan.queue || s.pc.Holds(Complete(true))
  }

  predicate CancelInFlight(s: Stream) { CancelOnItsWay(s) || s.h.lost > 0 }

  /** Sends are counted, and a cancelled one blocks every finish. */
  predicate InvCancel(w: World) {
    var s := w.s;
    && s.h.accepted == s.h.completedOk + s.h.completedCancelled + |s.bufs.outstanding|
    && (s.h.completedCancelled > 0 ==> CancelInFlight(s) || Marker(s) || DeadSeen(w))
    && (Marker(s) || CancelOnItsWay(s) ==> s.h.completedCancelled > 0)
    && (s.h.disciplined && (s.flags.finishStarted || s.flags.finishSubmitting) ==> s.h.completedCancelled == 0)
    && (s.flags.finishComplete ==> s.h.finishReported)
    && (FinishComplete(true) in s.chan.queue ==> s.h.finishReported)
    && (s.pc.Holds(FinishComplete(true)) || s.cb == Pushing(FinishComplete(true)) ==> s.h.finishReported)
  }

  /** A poll that saw an empty channel, up to and including having parked. */
  predicate SawPending(s: Stream) {
    || s.pc.Poll() == Some(ChannelPending)
    || s.pc == Run(ReturnPending)
    || (s.pc.Idle? && s.h.last == Some(Parked))
  }

  predicate InvPark(s: Stream) {
    && (s.pc.Poll() == Some(ChannelPending) || s.pc == Run(ReturnPending) ==> !s.h.entry.closed)
    && (s.h.entry.closed ==> s.chan.closed)
    && (s.pc.Idle? && s.h.last == Some(Parked) ==> !s.h.entry.closed)
    && (SawPending(s) ==> s.chan.woken || (s.chan.armed && s.chan.queue == [] && !s.chan.closed))
    && (SawPending(s) && Authoritative(s.slot) ==>
        || s.chan.woken || s.cb.WillSignal() || s.pc.LoadSlot?
        || (s.pc.PeekConn? && Authoritative(s.pc.loaded)))
  }

  predicate SameCause(t: SendTerminal, slot: SendSlot) { slot == Some(t) || (t.Connection? && IsConnection(slot)) }

  /** A call that started with an authoritative cause in the slot can only report it. */
  predicate InvEntry(s: Stream) {
    Authoritative(s.h.entry.slot) ==>
      && s.slot == s.h.entry.slot
      && |s.h.verbs| == s.h.entry.verbs
      && match s.pc
         case Idle =>
           s.h.last.Some? &&
           (match s.h.last.value
            case Error(t) => SameCause(t, s.slot)
            case Finished => s.flags.finishComplete
            case ResetReturned => true
            case _ => false)
         case GuardLoad => true
         case GuardPeek(loaded) => loaded == s.slot
         case ReadChannel => true
         case LoadSlot(p) => p.Requested? || p.Ready? || p.Finish? || p.ResetAsked?
         case PeekConn(p, loaded) => (p.Requested? || p.Ready? || p.Finish? || p.ResetAsked?) && loaded == s.slot
         case Run(cmd) =>
           || (cmd.ReturnError? && SameCause(cmd.cause, s.slot))
           || (cmd.ReturnFinished? && s.flags.finishComplete) || cmd.NoOp?
           || (cmd.PublishTerminal? && s.call.PollFinishCall?)
  }

  /** A native failure becomes the cause only if no cause was there when it was read. */
  predicate InvClean(w: World) {
    var s := w.s;
    && ((s.pc.LoadSlot? || s.pc.PeekConn?) && !s.pc.prep.Requested? && !s.pc.prep.ResetAsked? && !s.h.clean ==>
        Dead(w) && (s.pc.PeekConn? ==> Authoritative(s.pc.loaded) || w.conn.terminal.Some?))
    && (s.pc.Run? && s.pc.cmd.PublishTerminal? && s.pc.cmd.candidate.Failed? ==>
        s.h.clean || s.slot == Some(s.pc.cmd.candidate))
    && (s.pc.Run? && s.pc.cmd.ReturnError? && s.pc.cmd.cause.Failed? ==> s.slot == Some(s.pc.cmd.cause))
    && (s.slot.Some? && s.slot.value.Failed? ==> s.h.failedClean)
  }

  /** What the caller was told last. */
  predicate InvOutcome(w: World) {
    var s := w.s;
    s.h.last.Some? ==>
      match s.h.last.value
      case Unexpected => false
      case Finished => s.flags.finishComplete
      case Error(t) =>
        && LiveCause(t)
        && (t.IsProvisional() ==> !s.h.disciplined)
        && (t.Connection? ==> w.conn.observed && w.conn.terminal == Some(t.reason))
        && (t.Failed? ==> s.slot == Some(t))
      case _ => true
  }

  /** How many reducer steps the running call can still take. */
  function Budget(call: Call, pc: Pc, f: SendFlags): nat {
    match pc
    case Idle => 0
    case GuardLoad => 0
    case GuardPeek(_) => 0
    case ReadChannel => PollBudget(call, f)
    case LoadSlot(p) => PrepBudget(call, p, f)
    case PeekConn(p, _) => PrepBudget(call, p, f)
    case Run(cmd) =>
      if cmd.PublishTerminal? then
        if cmd.candidate.IsProvisional() then 1 + PollBudget(call, f) else 1
      else if cmd.RepollReady? || cmd.RepollFinish? then PollBudget(call, f)
      else if cmd.SubmitSend? || cmd.SubmitReset? then 2
      else if cmd.SubmitGraceful? then 3
      else 0
  }

  function PollBudget(call: Call, f: SendFlags): nat {
    if call.PollFinishCall? && !f.finishStarted then if f.sendInprogress then 6 else 4
    else if f.sendInprogress then 4 else 2
  }

  function PrepBudget(call: Call, p: Prep, f: SendFlags): nat {
    match p
    case Requested(_) => 3
    case Submitted(_) => 2
    case Ready(_) => PollBudget(call, f)
    case Finish(_) => PollBudget(call, f)
    case ResetAsked(_) => 3
    case GracefulDone(_) => 3
    case ResetDone(_, _) => 2
  }

  predicate InvSteps(s: Stream) {
    s.h.steps + Budget(s.call, s.pc, s.flags) <= 6
  }

  function Ids(n: nat): (r: set<nat>)
    ensures forall i: nat :: i in r <==> i < n
  {
    if n == 0 then {} else Ids(n - 1) + {n - 1}
  }

  /** Every buffer handed out has exactly one owner. */
  predicate InvBuffers(s: Stream) {
    var b := s.bufs;
    var held := if s.cb.Reclaiming? then {s.cb.buffer} else {};
    && b.outstanding + b.freedOnFailure + b.freedOnComplete + b.leaked + held == Ids(b.next)
    && b.outstanding !! b.freedOnFailure !! b.freedOnComplete !! b.leaked !! held
    && (!s.poisoned && !s.cb.Recovering() ==> b.leaked == {})
  }

  /** What the callback and the rest of the connection may do behind the frontend's
      back: put an authoritative cause in the slot, and advance the connection slot. */
  predicate OtherMove(w: World, v: World) {
    var s, t := w.s, v.s;
    && t.flags == s.flags && t.call == s.call && t.pc == s.pc
    && t.h.verbs == s.h.verbs && t.h.steps == s.h.steps && t.h.entry == s.h.entry && t.h.last == s.h.last
    && t.h.canSend == s.h.canSend && t.h.disciplined == s.h.disciplined
    && t.h.clean == s.h.clean && t.h.failedClean == s.h.failedClean
    && (t.slot == s.slot || (Authoritative(t.slot) && !Authoritative(s.slot) && !t.slot.value.Failed?))
    && Leads(w.conn, v.conn) && Sound(v.conn)
  }

  /** Control flow, slots and the send in flight. */
  predicate InvCore(w: World) {
    InvShape(w.s) && InvLoaded(w.s) && InvFlight(w) && InvWake(w.s) && InvConn(w)
  }

  /** What was done: verbs, cancellations, reducer steps. */
  predicate InvDone(w: World) {
    InvVerbs(w.s) && InvMarker(w.s) && InvCancel(w) && InvSteps(w.s)
  }

  /** What was told: parked polls and delivered errors. */
  predicate InvTold(w: World) {
    InvPark(w.s) && InvEntry(w.s) && InvClean(w) && InvOutcome(w)
  }

  predicate Inv(w: World) { InvCore(w) && InvDone(w) && InvTold(w) && InvBuffers(w.s) }
}
