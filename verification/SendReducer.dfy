/** The send-side reducer: one bookkeeping record, one input, one command out. */
module SendReducer {
  import opened Options
  import opened Terminals

  datatype SendEvent = Complete(cancelled: bool) | TerminalWake | FinishComplete(graceful: bool)

  datatype SendFlags = SendFlags(
    sendSubmitting: bool,
    sendInprogress: bool,
    finishSubmitting: bool,
    finishStarted: bool,
    finishComplete: bool,
    resetSubmitting: bool)
  {
    predicate SubmissionReserved() { sendSubmitting || finishSubmitting || resetSubmitting }
  }

  const FRESH: SendFlags := SendFlags(false, false, false, false, false, false)

  datatype Continuation = SendData | PollReady | PollFinish | Reset

  datatype SendPoll = ChannelPending | Event(event: SendEvent) | ChannelClosed

  datatype SendPayload = Empty | NonEmpty(len: nat) | Oversized(len: nat, ceiling: nat)

  datatype SendOperationError = OversizedSend(len: nat, ceiling: nat) | Misuse

  /** Result of a native downcall: `None` is success. */
  type NativeResult = Option<Status>

  datatype SendInput =
    | SendRequested(payload: SendPayload, terminal: SendSlot)
    | SendSubmitted(result: NativeResult, terminal: SendSlot)
    | PollReadyInput(poll: SendPoll, terminal: SendSlot)
    | PollFinishInput(poll: SendPoll, terminal: SendSlot)
    | ResetInput(code: nat, terminal: SendSlot)
    | GracefulSubmitted(result: NativeResult, terminal: SendSlot)
    | ResetSubmitted(code: nat, result: NativeResult, terminal: SendSlot)
    | TerminalPublished(winner: SendTerminal, continuation: Continuation)

  datatype SendCommand =
    | ReturnPending
    | NoOp
    | ReturnSent
    | SubmitSend
    | SubmitGraceful
    | SubmitReset(code: nat)
    | RepollFinish
    | RepollReady
    | PublishTerminal(candidate: SendTerminal, continuation: Continuation)
    | ReturnImmediateError(error: SendOperationError)
    | ReturnReady
    | ReturnFinished
    | ReturnError(cause: SendTerminal)

  function Definitive(terminal: SendSlot): SendSlot {
    if Authoritative(terminal) then terminal else None
  }

  predicate ProvisionalPending(terminal: SendSlot) { terminal.Some? && terminal.value.IsProvisional() }

  function DefinitiveOr(terminal: SendSlot, fallback: SendTerminal): SendTerminal {
    if Authoritative(terminal) then terminal.value else fallback
  }

  function AbortedCause(): SendTerminal { Failed(Aborted) }

  function Fail(fault: Fault, k: Continuation): SendCommand { PublishTerminal(SendTerminal.Internal(fault), k) }

  /** What one input does to the flags and which command it yields. */
  function Transition(f: SendFlags, input: SendInput): (SendFlags, SendCommand) {
    match input
    case SendSubmitted(result, terminal) =>
      if !f.sendSubmitting then (f, Fail(SendSubmittedWithoutReservation, SendData))
      else
        var g := f.(sendSubmitting := false);
        if result.None? then
          (g.(sendInprogress := true), if Authoritative(terminal) then ReturnError(terminal.value) else ReturnSent)
        else
          (g, PublishTerminal(DefinitiveOr(terminal, Failed(result.value)), SendData))
    case GracefulSubmitted(result, terminal) =>
      if !f.finishSubmitting then (f, Fail(GracefulSubmittedWithoutReservation, PollFinish))
      else
        var g := f.(finishSubmitting := false);
        if result.None? then (g.(finishStarted := true), RepollFinish)
        else (g, PublishTerminal(DefinitiveOr(terminal, Failed(result.value)), PollFinish))
    case ResetSubmitted(code, result, terminal) =>
      if !f.resetSubmitting then (f, Fail(ResetSubmittedWithoutReservation, Reset))
      else
        var fallback := if result.None? then LocalReset(code) else Failed(result.value);
        (f.(resetSubmitting := false), PublishTerminal(DefinitiveOr(terminal, fallback), Reset))
    case TerminalPublished(winner, continuation) =>
      if winner.IsProvisional() then
        (f, match continuation
            case PollReady => RepollReady
            case PollFinish => RepollFinish
            case _ => NoOp)
      else (f, if continuation.Reset? then NoOp else ReturnError(winner))
    case SendRequested(payload, terminal) =>
      if Authoritative(terminal) then (f, ReturnError(terminal.value))
      else if f.sendInprogress || f.sendSubmitting || f.finishSubmitting || f.finishStarted || f.finishComplete then
        (f, ReturnImmediateError(Misuse))
      else (match payload
        case Empty => (f, ReturnSent)
        case Oversized(len, ceiling) => (f, ReturnImmediateError(OversizedSend(len, ceiling)))
        case NonEmpty(_) => (f.(sendSubmitting := true), SubmitSend))
    case ResetInput(code, terminal) =>
      if f.finishComplete || Authoritative(terminal) then (f, NoOp)
      else if f.SubmissionReserved() then (f, Fail(ResetDuringReservation, Reset))
      else (f.(resetSubmitting := true), SubmitReset(code))
    case PollReadyInput(poll, terminal) => TransitionReady(f, poll, terminal)
    case PollFinishInput(poll, terminal) => TransitionFinish(f, poll, terminal)
  }

  function TransitionReady(f: SendFlags, poll: SendPoll, terminal: SendSlot): (SendFlags, SendCommand) {
    if f.SubmissionReserved() then (f, Fail(PollReadyDuringReservation, PollReady))
    else if Authoritative(terminal) then (f.(sendInprogress := false), ReturnError(terminal.value))
    else if f.finishStarted then (f, ReturnError(SendTerminal.Internal(PollReadyAfterFinish)))
    else
      var provisional := ProvisionalPending(terminal);
      match poll
      case ChannelClosed =>
        (f, if provisional then PublishTerminal(AbortedCause(), PollReady)
            else Fail(ChannelClosedWithoutTerminal, PollReady))
      case Event(Complete(cancelled)) =>
        if !f.sendInprogress then
          (f, Fail(if cancelled then CancelledCompleteWithoutSend else CompleteWithoutSend, PollReady))
        else
          (f.(sendInprogress := false), if cancelled then PublishTerminal(ProvisionalAbort, PollReady) else ReturnReady)
      case Event(TerminalWake) =>
        (f, if provisional then PublishTerminal(AbortedCause(), PollReady) else Fail(WakeWithoutTerminal, PollReady))
      case Event(FinishComplete(_)) => (f, Fail(FinishEventOnPollReady, PollReady))
      case ChannelPending => (f, if f.sendInprogress || provisional then ReturnPending else ReturnReady)
  }

  function TransitionFinish(f: SendFlags, poll: SendPoll, terminal: SendSlot): (SendFlags, SendCommand) {
    if f.finishComplete then (f, ReturnFinished)
    else if f.SubmissionReserved() then (f, Fail(PollFinishDuringReservation, PollFinish))
    else if poll.Event? && poll.event.FinishComplete? then
      if !f.finishStarted then (f, Fail(FinishCompleteWithoutStart, PollFinish))
      else if poll.event.graceful then (f.(finishComplete := true), ReturnFinished)
      else (f, PublishTerminal(DefinitiveOr(terminal, AbortedCause()), PollFinish))
    else if Authoritative(terminal) then (f.(sendInprogress := false), ReturnError(terminal.value))
    else
      var provisional := ProvisionalPending(terminal);
      match poll
      case ChannelClosed =>
        (f, if provisional then PublishTerminal(AbortedCause(), PollFinish)
            else Fail(ChannelClosedWithoutTerminal, PollFinish))
      case Event(TerminalWake) =>
        (f, if provisional then PublishTerminal(AbortedCause(), PollFinish) else Fail(WakeWithoutTerminal, PollFinish))
      case Event(Complete(cancelled)) =>
        if f.finishStarted then (f, Fail(ImpossibleFinishEvent, PollFinish))
        else if !f.sendInprogress then
          (f, Fail(if cancelled then CancelledCompleteWithoutSend else CompleteWithoutSend, PollFinish))
        else if cancelled then (f.(sendInprogress := false), PublishTerminal(ProvisionalAbort, PollFinish))
        else (f.(sendInprogress := false, finishSubmitting := true), SubmitGraceful)
      case Event(FinishComplete(_)) => (f, Fail(ImpossibleFinishEvent, PollFinish))
      case ChannelPending =>
        if f.finishStarted || f.sendInprogress || provisional then (f, ReturnPending)
        else (f.(finishSubmitting := true), SubmitGraceful)
  }

  /** The reducer as the frontends own it: six flags overwritten in place. */
  class SendState {
    var sendSubmitting: bool
    var sendInprogress: bool
    var finishSubmitting: bool
    var finishStarted: bool
    var finishComplete: bool
    var resetSubmitting: bool

    function Flags(): SendFlags
      reads this
    {
      SendFlags(sendSubmitting, sendInprogress, finishSubmitting, finishStarted, finishComplete, resetSubmitting)
    }

    constructor ()
      ensures Flags() == FRESH
    {
      sendSubmitting, sendInprogress, finishSubmitting := false, false, false;
      finishStarted, finishComplete, resetSubmitting := false, false, false;
    }

    method Apply(input: SendInput) returns (cmd: SendCommand)
      modifies this
      ensures Flags() == Transition(old(Flags()), input).0
      ensures cmd == Transition(old(Flags()), input).1
    {
      match input {
        case SendSubmitted(_, _) => cmd := ApplySubmitted(input);
        case GracefulSubmitted(_, _) => cmd := ApplySubmitted(input);
        case ResetSubmitted(_, _, _) => cmd := ApplySubmitted(input);
        case TerminalPublished(winner, continuation) =>
          if winner.IsProvisional() {
            match continuation {
              case PollReady => cmd := RepollReady;
              case PollFinish => cmd := RepollFinish;
              case _ => cmd := NoOp;
            }
          } else if continuation.Reset? {
            cmd := NoOp;
          } else {
            cmd := ReturnError(winner);
          }
        case SendRequested(payload, terminal) =>
          var winner := Definitive(terminal);
          if winner.Some? {
            return ReturnError(winner.value);
          }
          if sendInprogress || sendSubmitting || finishSubmitting || finishStarted || finishComplete {
            return ReturnImmediateError(Misuse);
          }
          match payload {
            case Empty => cmd := ReturnSent;
            case Oversized(len, ceiling) => cmd := ReturnImmediateError(OversizedSend(len, ceiling));
            case NonEmpty(_) =>
              sendSubmitting := true;
              cmd := SubmitSend;
          }
        case ResetInput(code, terminal) =>
          if finishComplete || Definitive(terminal).Some? {
            return NoOp;
          }
          if Flags().SubmissionReserved() {
            return Fail(ResetDuringReservation, Reset);
          }
          resetSubmitting := true;
          cmd := SubmitReset(code);
        case PollReadyInput(poll, terminal) =>
          cmd := ApplyPollReady(poll, terminal);
        case PollFinishInput(poll, terminal) =>
          cmd := ApplyPollFinish(poll, terminal);
      }
    }

    /** The immediate result of a native downcall: its reservation is cleared
        before any winner is applied. */
    method ApplySubmitted(input: SendInput) returns (cmd: SendCommand)
      requires input.SendSubmitted? || input.GracefulSubmitted? || input.ResetSubmitted?
      modifies this
      ensures Flags() == Transition(old(Flags()), input).0
      ensures cmd == Transition(old(Flags()), input).1
    {
      match input {
        case SendSubmitted(result, terminal) =>
          if !sendSubmitting {
            return Fail(SendSubmittedWithoutReservation, SendData);
          }
          sendSubmitting := false;
          match result {
            case None =>
              sendInprogress := true;
              var winner := Definitive(terminal);
              cmd := if winner.Some? then ReturnError(winner.value) else ReturnSent;
            case Some(status) =>
              cmd := PublishTerminal(DefinitiveOr(terminal, Failed(status)), SendData);
          }
        case GracefulSubmitted(result, terminal) =>
          if !finishSubmitting {
            return Fail(GracefulSubmittedWithoutReservation, PollFinish);
          }
          finishSubmitting := false;
          match result {
            case None =>
              finishStarted := true;
              cmd := RepollFinish;
            case Some(status) =>
              cmd := PublishTerminal(DefinitiveOr(terminal, Failed(status)), PollFinish);
          }
        case ResetSubmitted(code, result, terminal) =>
          if !resetSubmitting {
            return Fail(ResetSubmittedWithoutReservation, Reset);
          }
          resetSubmitting := false;
          var candidate;
          match result {
            case None => candidate := DefinitiveOr(terminal, LocalReset(code));
            case Some(status) => candidate := DefinitiveOr(terminal, Failed(status));
          }
          cmd := PublishTerminal(candidate, Reset);
      }
    }

    method ApplyPollReady(poll: SendPoll, terminal: SendSlot) returns (cmd: SendCommand)
      modifies this
      ensures Flags() == TransitionReady(old(Flags()), poll, terminal).0
      ensures cmd == TransitionReady(old(Flags()), poll, terminal).1
    {
      if Flags().SubmissionReserved() {
        return Fail(PollReadyDuringReservation, PollReady);
      }
      var winner := Definitive(terminal);
      if winner.Some? {
        sendInprogress := false;
        return ReturnError(winner.value);
      }
      if finishStarted {
        return ReturnError(SendTerminal.Internal(PollReadyAfterFinish));
      }
      var provisional := ProvisionalPending(terminal);
      match poll {
        case ChannelClosed =>
          if provisional {
            return PublishTerminal(AbortedCause(), PollReady);
          }
          cmd := Fail(ChannelClosedWithoutTerminal, PollReady);
        case Event(Complete(cancelled)) =>
          if !sendInprogress {
            return Fail(if cancelled then CancelledCompleteWithoutSend else CompleteWithoutSend, PollReady);
          }
          sendInprogress := false;
          cmd := if cancelled then PublishTerminal(ProvisionalAbort, PollReady) else ReturnReady;
        case Event(TerminalWake) =>
          if provisional {
            return PublishTerminal(AbortedCause(), PollReady);
          }
          cmd := Fail(WakeWithoutTerminal, PollReady);
        case Event(FinishComplete(_)) =>
          cmd := Fail(FinishEventOnPollReady, PollReady);
        case ChannelPending =>
          if sendInprogress {
            cmd := ReturnPending;
          } else if provisional {
            cmd := ReturnPending;
          } else {
            cmd := ReturnReady;
          }
      }
    }

    method ApplyPollFinish(poll: SendPoll, terminal: SendSlot) returns (cmd: SendCommand)
      modifies this
      ensures Flags() == TransitionFinish(old(Flags()), poll, terminal).0
      ensures cmd == TransitionFinish(old(Flags()), poll, terminal).1
    {
      if finishComplete {
        return ReturnFinished;
      }
      if Flags().SubmissionReserved() {
        return Fail(PollFinishDuringReservation, PollFinish);
      }
      if poll.Event? && poll.event.FinishComplete? {
        if !finishStarted {
          return Fail(FinishCompleteWithoutStart, PollFinish);
        }
        if poll.event.graceful {
          finishComplete := true;
          return ReturnFinished;
        }
        return PublishTerminal(DefinitiveOr(terminal, AbortedCause()), PollFinish);
      }
      var winner := Definitive(terminal);
      if winner.Some? {
        sendInprogress := false;
        return ReturnError(winner.value);
      }
      var provisional := ProvisionalPending(terminal);
      if poll.ChannelClosed? {
        cmd := if provisional then PublishTerminal(AbortedCause(), PollFinish)
               else Fail(ChannelClosedWithoutTerminal, PollFinish);
      } else if poll.Event? && poll.event.Complete? && !finishStarted {
        if !sendInprogress {
          return Fail(if poll.event.cancelled then CancelledCompleteWithoutSend else CompleteWithoutSend, PollFinish);
        }
        sendInprogress := false;
        if poll.event.cancelled {
          return PublishTerminal(ProvisionalAbort, PollFinish);
        }
        finishSubmitting := true;
        cmd := SubmitGraceful;
      } else if poll.Event? && poll.event.TerminalWake? {
        cmd := if provisional then PublishTerminal(AbortedCause(), PollFinish)
               else Fail(WakeWithoutTerminal, PollFinish);
      } else if poll.ChannelPending? {
        if finishStarted || sendInprogress || provisional {
          return ReturnPending;
        }
        finishSubmitting := true;
        cmd := SubmitGraceful;
      } else {
        cmd := Fail(ImpossibleFinishEvent, PollFinish);
      }
    }
  }
}
