/** The four send frontends as the adapter runs them: loops that feed the reducer,
    run the command it returns and feed the result back, while the stream callback
    and the rest of the connection interleave between any two atomic actions. */
module SendFrontends {
  import opened Options
  import opened Terminals
  import opened SendReducer
  import opened SendProtocol
  import opened SendInvariant
  import opened SendSteps
  import opened SendTheorems

  // ------------------------------------------------------------------------ traces

  /** The trace of one call and of everything that interleaved with it. */
  ghost predicate OneCall(ls: seq<Label>, c: Call) {
    ls != [] && ls[0] == Invoke(c) && forall i :: 0 < i < |ls| ==> !ls[i].Invoke?
  }

  /** How far the call whose trace is `ls` is from its end. */
  ghost function Bound(w0: World, ls: seq<Label>): nat {
    var g := After(w0, ls);
    if g.Some? then Left(g.value.s) else 0
  }

  lemma FirstStep(w: World, c: Call)
    requires w.s.pc.Idle?
    ensures After(w, [Invoke(c)]) == Some(w.(s := Begin(w.conn, w.s, c)))
  {
    Append(w, [], w, Invoke(c));
    assert [] + [Invoke(c)] == [Invoke(c)];
  }

  lemma OtherFrame(w: World, l: Label)
    requires !l.Invoke? && !l.Front?
    ensures var v := Do(w, l); v.s.flags == w.s.flags && v.s.call == w.s.call && v.s.pc == w.s.pc
  {
  }

  /** Every action of a call that started in a reachable state uses up its bound. */
  lemma ActionSpends(w: World, ls: seq<Label>)
    requires Reachable(w) && After(w, ls).Some? && !After(w, ls).value.s.pc.Idle?
    ensures Left(FrontStep(After(w, ls).value, None).s) < Bound(w, ls)
  {
    ReachableGoesOn(w, ls);
    ReachableInv(After(w, ls).value);
    FrontSpends(After(w, ls).value, None);
  }

  /** A finished call leaves a reachable state, no reservation and no catch-all answer. */
  lemma CallEnds(w: World, ls: seq<Label>)
    requires Reachable(w) && After(w, ls).Some? && After(w, ls).value.s.pc.Idle?
    ensures var v := After(w, ls).value;
      Reachable(v) && v.s.h.last != Some(Unexpected) && !v.s.flags.SubmissionReserved()
  {
    ReachableGoesOn(w, ls);
    ReachableInv(After(w, ls).value);
  }

  /** In state `g` the reducer is due; the frontend stands at `a` with its input. */
  predicate FedBy(g: World, a: World, input: SendInput) {
    || (g.s.pc.PeekConn? && a == g && input == Fill(g.s.pc.prep, Resolve(g.s.pc.loaded, g.conn.terminal)))
    || (g.s.pc.Run? && g.s.pc.cmd.PublishTerminal?
        && a == g.(s := PublishLocal(g.s, g.s.pc.cmd.candidate))
        && input == TerminalPublished(Publish(g.s.slot, g.s.pc.cmd.candidate).value, g.s.pc.cmd.continuation))
  }

  lemma FeedingIsOneStep(g: World, a: World, input: SendInput)
    requires FedBy(g, a, input)
    ensures FrontStep(g, None) == a.(s := Reduce(a.s, input)) && Enabled(g, Front(None))
  {
  }

  // -------------------------------------------------------------------- the object

  class H3SendStream {
    const reducer: SendState
    const sendTerminal: SendTerminalCell
    /** Shared with every other frontend of the connection. */
    const connTerminal: ConnTerminalState
    var send: Channel
    var call: Call
    /** The callback thread, the native side and the record of what happened. */
    var cb: Callback
    var poisoned: bool
    var bufs: Buffers
    var h: History

    constructor (conn: ConnTerminalState)
      requires Sound(conn.View())
      ensures IsInitial(At(Idle)) && connTerminal == conn && fresh(reducer) && fresh(sendTerminal)
    {
      reducer := new SendState();
      sendTerminal := new SendTerminalCell();
      connTerminal, send := conn, FRESH_STREAM.chan;
      call, cb, poisoned, bufs, h := FRESH_STREAM.call, Quiet, false, FRESH_STREAM.bufs, FRESH_STREAM.h;
    }

    /** The protocol state this object is in when its frontend stands at `pc`. */
    function At(pc: Pc): World
      reads this, reducer, sendTerminal, connTerminal
    {
      World(connTerminal.View(), Stream(reducer.Flags(), call, pc, sendTerminal.slot, send, cb, poisoned, bufs, h))
    }

    ghost predicate Tracks(w0: World, ls: seq<Label>, pc: Pc)
      reads this, reducer, sendTerminal, connTerminal
    {
      After(w0, ls) == Some(At(pc)) && OneCall(ls, call)
    }

    /** The call is over; the object is back in a reachable state of the protocol. */
    ghost predicate Ended(w0: World, ls: seq<Label>, outcome: Outcome)
      reads this, reducer, sendTerminal, connTerminal
    {
      && Tracks(w0, ls, Idle) && Reachable(At(Idle))
      && h.last == Some(outcome) && outcome != Unexpected && !reducer.Flags().SubmissionReserved()
    }

    /** The next reducer input is ready: both slots were read, or a winner was published. */
    ghost predicate Feeds(w0: World, ls: seq<Label>, input: SendInput)
      reads this, reducer, sendTerminal, connTerminal
    {
      && After(w0, ls).Some? && OneCall(ls, call)
      && var g := After(w0, ls).value; FedBy(g, At(g.s.pc), input)
    }

    /** Any number of steps of the other threads, in any order. */
    method Interfere(pc: Pc, ghost w0: World, ghost ls0: seq<Label>) returns (ghost ls: seq<Label>)
      requires Tracks(w0, ls0, pc)
      modifies this, sendTerminal, connTerminal
      ensures Tracks(w0, ls, pc) && Bound(w0, ls) <= Bound(w0, ls0) && call == old(call)
    {
      ls := ls0;
      var n: nat := *;
      while n > 0
        invariant Tracks(w0, ls, pc) && Bound(w0, ls) <= Bound(w0, ls0) && call == old(call)
      {
        var l: Label := *;
        if Enabled(At(pc), l) && !l.Invoke? && !l.Front? {
          Append(w0, ls, At(pc), l);
          OtherFrame(At(pc), l);
          ls := ls + [l];
          var v := Do(At(pc), l);
          sendTerminal.slot, connTerminal.terminal, connTerminal.observed := v.s.slot, v.conn.terminal, v.conn.observed;
          send := v.s.chan;
          cb, poisoned, bufs, h := v.s.cb, v.s.poisoned, v.s.bufs, v.s.h;
        }
        n := n - 1;
      }
    }

    method BeginCall(c: Call, pc: Pc, ghost w0: World) returns (ghost ls: seq<Label>)
      requires At(Idle) == w0 && Begin(w0.conn, w0.s, c).pc == pc
      modifies this, sendTerminal, connTerminal
      ensures Tracks(w0, ls, pc) && call == c
    {
      ls := [Invoke(c)];
      FirstStep(w0, c);
      h := Begin(connTerminal.View(), At(Idle).s, c).h;
      call := c;
    }

    /** The channel read; the waker is registered when there is nothing to read. */
    method PollSendChannel(ghost w0: World, ghost ls0: seq<Label>) returns (poll: SendPoll, ghost ls: seq<Label>)
      requires Tracks(w0, ls0, ReadChannel) && (call.PollReadyCall? || call.PollFinishCall?)
      modifies this, sendTerminal, connTerminal
      ensures Tracks(w0, ls, LoadSlot(if call.PollReadyCall? then Ready(poll) else Finish(poll)))
      ensures Bound(w0, ls) <= Bound(w0, ls0) && call == old(call)
    {
      ls := Interfere(ReadChannel, w0, ls0);
      Append(w0, ls, At(ReadChannel), Front(None));
      ls := ls + [Front(None)];
      poll := ReadEvent();
    }

    method ReadEvent() returns (poll: SendPoll)
      requires call.PollReadyCall? || call.PollFinishCall?
      modifies this`send, this`h
      ensures var prep := if call.PollReadyCall? then Ready(poll) else Finish(poll);
        At(LoadSlot(prep)) == FrontStep(old(At(ReadChannel)), None)
    {
      if send.queue != [] {
        poll := Event(send.queue[0]);
        send := send.(queue := send.queue[1..]);
      } else if send.closed {
        poll := ChannelClosed;
      } else {
        poll := ChannelPending;
        send := send.(armed := true, woken := false);
      }
      h := h.(clean := connTerminal.terminal.None? && !Authoritative(sendTerminal.slot), read := Some(poll));
    }

    /** The non-freezing read of the winner: send slot first, then connection slot. */
    method ResolveTerminal(prep: Prep, ghost w0: World, ghost ls0: seq<Label>)
      returns (terminal: SendSlot, ghost loaded: SendSlot, ghost ls: seq<Label>)
      requires Tracks(w0, ls0, LoadSlot(prep))
      modifies this, sendTerminal, connTerminal
      ensures Tracks(w0, ls, PeekConn(prep, loaded)) && terminal == Resolve(loaded, connTerminal.terminal)
      ensures Bound(w0, ls) <= Bound(w0, ls0) && call == old(call)
    {
      ls := Interfere(LoadSlot(prep), w0, ls0);
      var winner := sendTerminal.slot;
      loaded := winner;
      Append(w0, ls, At(LoadSlot(prep)), Front(None));
      ls := ls + [Front(None)];
      ls := Interfere(PeekConn(prep, winner), w0, ls);
      var peeked := connTerminal.terminal;
      match winner {
        case Some(Connection(fallback)) =>
          terminal := Some(Connection(if peeked.Some? then peeked.value else fallback));
        case Some(ProvisionalAbort) =>
          terminal := if peeked.Some? then Some(Connection(peeked.value)) else winner;
        case None =>
          terminal := if peeked.Some? then Some(Connection(peeked.value)) else None;
        case _ =>
          terminal := winner;
      }
    }

    method RunReducer(input: SendInput, ghost w0: World, ghost ls0: seq<Label>)
      returns (cmd: SendCommand, ghost ls: seq<Label>)
      requires Reachable(w0) && Feeds(w0, ls0, input)
      modifies this, reducer, sendTerminal, connTerminal
      ensures Tracks(w0, ls, Run(cmd)) && Bound(w0, ls) < Bound(w0, ls0) && call == old(call)
    {
      ghost var g := After(w0, ls0).value;
      FeedingIsOneStep(g, At(g.s.pc), input);
      Append(w0, ls0, g, Front(None));
      ActionSpends(w0, ls0);
      ls := ls0 + [Front(None)];
      cmd := ApplyInput(input, g.s.pc);
      ls := Interfere(Run(cmd), w0, ls);
    }

    /** One reducer step, noted in the history. */
    method ApplyInput(input: SendInput, ghost pc: Pc) returns (cmd: SendCommand)
      modifies this, reducer
      ensures reducer.Flags() == Transition(old(reducer.Flags()), input).0
      ensures cmd == Transition(old(reducer.Flags()), input).1
      ensures At(Run(cmd)) == old(At(pc)).(s := Took(old(At(pc)).s, input, reducer.Flags(), cmd)) && call == old(call)
    {
      cmd := reducer.Apply(input);
      NoteStep(input, cmd, pc);
    }

    method NoteStep(input: SendInput, cmd: SendCommand, ghost pc: Pc)
      modifies this`h
      ensures At(Run(cmd)) == old(At(pc)).(s := Took(old(At(pc)).s, input, reducer.Flags(), cmd))
    {
      h := h.(steps := h.steps + 1,
              finOverMarker := if cmd.SubmitGraceful? then SeesMarker(input) else h.finOverMarker);
    }

    method PublishLocalTerminal(candidate: SendTerminal, continuation: Continuation,
                                ghost w0: World, ghost ls: seq<Label>)
      returns (winner: SendTerminal)
      requires Tracks(w0, ls, Run(PublishTerminal(candidate, continuation)))
      modifies this, sendTerminal, connTerminal
      ensures Feeds(w0, ls, TerminalPublished(winner, continuation)) && call == old(call)
    {
      var before := sendTerminal.slot;
      winner := sendTerminal.PublishSend(candidate);
      if sendTerminal.slot != before && candidate.Failed? {
        h := h.(failedClean := h.clean);
      }
    }

    /** One owned buffer goes to the native send; a refusal frees it on the spot. */
    method SubmitOwnedSend(ghost w0: World, ghost ls0: seq<Label>) returns (result: NativeResult, ghost ls: seq<Label>)
      requires Tracks(w0, ls0, Run(SubmitSend)) && call.SendDataCall?
      modifies this, sendTerminal, connTerminal
      ensures Tracks(w0, ls, LoadSlot(Submitted(result))) && Bound(w0, ls) <= Bound(w0, ls0) && call == old(call)
    {
      result := *;
      Append(w0, ls0, At(Run(SubmitSend)), Front(result));
      ls := ls0 + [Front(result)];
      HandOver(result);
    }

    method HandOver(result: NativeResult)
      modifies this`bufs, this`h
      ensures At(LoadSlot(Submitted(result))) ==
        old(At(Run(SubmitSend))).(s := DoSubmitSend(connTerminal.View(), old(At(Run(SubmitSend))).s, result))
    {
      var buffer := bufs.next;
      h := h.(verbs := h.verbs + [VSend(result.None?)],
              clean := connTerminal.terminal.None? && !Authoritative(sendTerminal.slot));
      bufs := bufs.(next := buffer + 1);
      if result.None? {
        bufs := bufs.(outstanding := bufs.outstanding + {buffer});
        h := h.(accepted := h.accepted + 1);
      } else {
        bufs := bufs.(freedOnFailure := bufs.freedOnFailure + {buffer});
      }
    }

    method SubmitData(ghost w0: World, ghost ls0: seq<Label>) returns (input: SendInput, ghost ls: seq<Label>)
      requires Tracks(w0, ls0, Run(SubmitSend)) && call.SendDataCall?
      modifies this, sendTerminal, connTerminal
      ensures Feeds(w0, ls, input) && Bound(w0, ls) <= Bound(w0, ls0) && call == old(call)
    {
      var result, terminal;
      ghost var loaded;
      result, ls := SubmitOwnedSend(w0, ls0);
      terminal, loaded, ls := ResolveTerminal(Submitted(result), w0, ls);
      input := SendSubmitted(result, terminal);
    }

    method SubmitGracefulShutdown(ghost w0: World, ghost ls0: seq<Label>)
      returns (result: NativeResult, ghost ls: seq<Label>)
      requires Tracks(w0, ls0, Run(SubmitGraceful)) && call.PollFinishCall?
      modifies this, sendTerminal, connTerminal
      ensures Tracks(w0, ls, LoadSlot(GracefulDone(result))) && Bound(w0, ls) <= Bound(w0, ls0) && call == old(call)
    {
      result := *;
      Append(w0, ls0, At(Run(SubmitGraceful)), Front(result));
      ls := ls0 + [Front(result)];
      h := h.(verbs := h.verbs + [VGraceful(result.None?)],
              clean := connTerminal.terminal.None? && !Authoritative(sendTerminal.slot));
    }

    method SubmitFin(ghost w0: World, ghost ls0: seq<Label>) returns (input: SendInput, ghost ls: seq<Label>)
      requires Tracks(w0, ls0, Run(SubmitGraceful)) && call.PollFinishCall?
      modifies this, sendTerminal, connTerminal
      ensures Feeds(w0, ls, input) && Bound(w0, ls) <= Bound(w0, ls0) && call == old(call)
    {
      var result, terminal;
      ghost var loaded;
      result, ls := SubmitGracefulShutdown(w0, ls0);
      terminal, loaded, ls := ResolveTerminal(GracefulDone(result), w0, ls);
      input := GracefulSubmitted(result, terminal);
    }

    method SubmitResetShutdown(code: nat, ghost w0: World, ghost ls0: seq<Label>)
      returns (result: NativeResult, ghost ls: seq<Label>)
      requires Tracks(w0, ls0, Run(SubmitReset(code))) && call.ResetCall?
      modifies this, sendTerminal, connTerminal
      ensures Tracks(w0, ls, LoadSlot(ResetDone(code, result))) && Bound(w0, ls) <= Bound(w0, ls0) && call == old(call)
    {
      result := *;
      Append(w0, ls0, At(Run(SubmitReset(code))), Front(result));
      ls := ls0 + [Front(result)];
      h := h.(verbs := h.verbs + [VReset(result.None?)],
              clean := connTerminal.terminal.None? && !Authoritative(sendTerminal.slot));
    }

    method SubmitAbort(code: nat, ghost w0: World, ghost ls0: seq<Label>)
      returns (input: SendInput, ghost ls: seq<Label>)
      requires Tracks(w0, ls0, Run(SubmitReset(code))) && call.ResetCall?
      modifies this, sendTerminal, connTerminal
      ensures Feeds(w0, ls, input) && Bound(w0, ls) <= Bound(w0, ls0) && call == old(call)
    {
      var result, terminal;
      ghost var loaded;
      result, ls := SubmitResetShutdown(code, w0, ls0);
      terminal, loaded, ls := ResolveTerminal(ResetDone(code, result), w0, ls);
      input := ResetSubmitted(code, result, terminal);
    }

    method EndCall(cmd: SendCommand, ghost w0: World, ghost ls0: seq<Label>)
      returns (outcome: Outcome, ghost ls: seq<Label>)
      requires Reachable(w0) && Tracks(w0, ls0, Run(cmd))
      requires Execute(At(Run(cmd)), cmd, None).s == Return(At(Run(cmd)).s, Answer(call, cmd))
      requires Execute(At(Run(cmd)), cmd, None).conn == connTerminal.View()
      modifies this, sendTerminal, connTerminal
      ensures Ended(w0, ls, outcome) && call == old(call) && outcome == Answer(call, cmd)
    {
      Append(w0, ls0, At(Run(cmd)), Front(None));
      ls := ls0 + [Front(None)];
      outcome := Answer(call, cmd);
      h := h.(last := Some(outcome), canSend := h.canSend || (call.PollReadyCall? && outcome.BecameReady?));
      CallEnds(w0, ls);
    }

    /** Delivery point: a connection cause is committed as it is handed out. */
    method CommitSendWinner(winner: SendTerminal, ghost w0: World, ghost ls0: seq<Label>)
      returns (outcome: Outcome, ghost ls: seq<Label>)
      requires Reachable(w0) && Tracks(w0, ls0, Run(ReturnError(winner))) && !call.ResetCall?
      modifies this, sendTerminal, connTerminal
      ensures Ended(w0, ls, outcome) && call == old(call) && outcome.Error?
    {
      Append(w0, ls0, At(Run(ReturnError(winner))), Front(None));
      ls := ls0 + [Front(None)];
      var delivered := winner;
      if winner.Connection? {
        var committed := connTerminal.CommitCause();
        delivered := Connection(if committed.Some? then committed.value else winner.reason);
      }
      outcome := Error(delivered);
      h := h.(last := Some(outcome));
      CallEnds(w0, ls);
    }

    /** One poll input: the channel is read before the slots. */
    method PollInput(ghost w0: World, ghost ls0: seq<Label>) returns (input: SendInput, ghost ls: seq<Label>)
      requires Tracks(w0, ls0, ReadChannel) && (call.PollReadyCall? || call.PollFinishCall?)
      modifies this, sendTerminal, connTerminal
      ensures Feeds(w0, ls, input) && Bound(w0, ls) <= Bound(w0, ls0) && call == old(call)
    {
      var poll, terminal;
      ghost var loaded;
      poll, ls := PollSendChannel(w0, ls0);
      if call.PollReadyCall? {
        terminal, loaded, ls := ResolveTerminal(Ready(poll), w0, ls);
        input := PollReadyInput(poll, terminal);
      } else {
        terminal, loaded, ls := ResolveTerminal(SendProtocol.Finish(poll), w0, ls);
        input := PollFinishInput(poll, terminal);
      }
    }

    method Repoll(cmd: SendCommand, ghost w0: World, ghost ls0: seq<Label>) returns (ghost ls: seq<Label>)
      requires Tracks(w0, ls0, Run(cmd))
      requires (cmd.RepollReady? && call.PollReadyCall?) || (cmd.RepollFinish? && call.PollFinishCall?)
      ensures Tracks(w0, ls, ReadChannel) && Bound(w0, ls) <= Bound(w0, ls0)
    {
      Append(w0, ls0, At(Run(cmd)), Front(None));
      ls := ls0 + [Front(None)];
    }

    // ------------------------------------------------------------- the frontends

    /** `poll_ready` after a finish started: resolved without consuming the channel. */
    method FinishGuard(ghost w0: World) returns (outcome: Outcome, ghost ls: seq<Label>)
      requires Reachable(w0) && At(Idle) == w0 && reducer.finishStarted
      modifies this, sendTerminal, connTerminal
      ensures Ended(w0, ls, outcome) && call.PollReadyCall?
    {
      ls := BeginCall(PollReadyCall, GuardLoad, w0);
      ls := Interfere(GuardLoad, w0, ls);
      var loaded := sendTerminal.slot;
      Append(w0, ls, At(GuardLoad), Front(None));
      ls := ls + [Front(None)];
      ls := Interfere(GuardPeek(loaded), w0, ls);
      var terminal := Resolve(loaded, connTerminal.terminal);
      Append(w0, ls, At(GuardPeek(loaded)), Front(None));
      ls := ls + [Front(None)];
      var cause := if terminal.Some? then terminal.value else SendTerminal.Internal(PollReadyAfterFinish);
      ls := Interfere(Run(ReturnError(cause)), w0, ls);
      outcome, ls := CommitSendWinner(cause, w0, ls);
    }

    method PollReady() returns (outcome: Outcome, ghost ls: seq<Label>)
      requires Reachable(At(Idle))
      modifies this, reducer, sendTerminal, connTerminal
      ensures Ended(old(At(Idle)), ls, outcome) && call == PollReadyCall
    {
      ghost var w0 := At(Idle);
      if reducer.finishStarted {
        outcome, ls := FinishGuard(w0);
        return;
      }
      ls := BeginCall(PollReadyCall, ReadChannel, w0);
      var input;
      input, ls := PollInput(w0, ls);
      while true
        invariant Feeds(w0, ls, input) && call.PollReadyCall?
        decreases Bound(w0, ls)
      {
        var cmd;
        cmd, ls := RunReducer(input, w0, ls);
        if cmd.ReturnError? {
          outcome, ls := CommitSendWinner(cmd.cause, w0, ls);
          return;
        } else if cmd.RepollReady? {
          ls := Repoll(cmd, w0, ls);
          input, ls := PollInput(w0, ls);
        } else if cmd.PublishTerminal? {
          var winner := PublishLocalTerminal(cmd.candidate, cmd.continuation, w0, ls);
          input := TerminalPublished(winner, cmd.continuation);
        } else {
          outcome, ls := EndCall(cmd, w0, ls);
          return;
        }
      }
    }

    method SendDataBytes(payload: SendPayload) returns (outcome: Outcome, ghost ls: seq<Label>)
      requires Reachable(At(Idle))
      modifies this, reducer, sendTerminal, connTerminal
      ensures Ended(old(At(Idle)), ls, outcome) && call == SendDataCall(payload)
    {
      ghost var w0 := At(Idle);
      ls := BeginCall(SendDataCall(payload), LoadSlot(Requested(payload)), w0);
      var terminal;
      ghost var loaded;
      terminal, loaded, ls := ResolveTerminal(Requested(payload), w0, ls);
      var input := SendRequested(payload, terminal);
      while true
        invariant Feeds(w0, ls, input) && call == SendDataCall(payload)
        decreases Bound(w0, ls)
      {
        var cmd;
        cmd, ls := RunReducer(input, w0, ls);
        if cmd.ReturnError? {
          outcome, ls := CommitSendWinner(cmd.cause, w0, ls);
          return;
        } else if cmd.SubmitSend? {
          input, ls := SubmitData(w0, ls);
        } else if cmd.PublishTerminal? {
          var winner := PublishLocalTerminal(cmd.candidate, cmd.continuation, w0, ls);
          input := TerminalPublished(winner, cmd.continuation);
        } else {
          outcome, ls := EndCall(cmd, w0, ls);
          return;
        }
      }
    }

    method PollFinish() returns (outcome: Outcome, ghost ls: seq<Label>)
      requires Reachable(At(Idle))
      modifies this, reducer, sendTerminal, connTerminal
      ensures Ended(old(At(Idle)), ls, outcome) && call == PollFinishCall
    {
      ghost var w0 := At(Idle);
      ls := BeginCall(PollFinishCall, ReadChannel, w0);
      var input;
      input, ls := PollInput(w0, ls);
      while true
        invariant Feeds(w0, ls, input) && call.PollFinishCall?
        decreases Bound(w0, ls)
      {
        var cmd;
        cmd, ls := RunReducer(input, w0, ls);
        if cmd.ReturnError? {
          outcome, ls := CommitSendWinner(cmd.cause, w0, ls);
          return;
        } else if cmd.SubmitGraceful? {
          input, ls := SubmitFin(w0, ls);
        } else if cmd.RepollFinish? {
          ls := Repoll(cmd, w0, ls);
          input, ls := PollInput(w0, ls);
        } else if cmd.PublishTerminal? {
          var winner := PublishLocalTerminal(cmd.candidate, cmd.continuation, w0, ls);
          input := TerminalPublished(winner, cmd.continuation);
        } else {
          outcome, ls := EndCall(cmd, w0, ls);
          return;
        }
      }
    }

    method ResetStream(code: nat) returns (outcome: Outcome, ghost ls: seq<Label>)
      requires Reachable(At(Idle))
      modifies this, reducer, sendTerminal, connTerminal
      ensures Ended(old(At(Idle)), ls, outcome) && call == ResetCall(code)
    {
      ghost var w0 := At(Idle);
      ls := BeginCall(ResetCall(code), LoadSlot(ResetAsked(Clamp(code))), w0);
      var terminal;
      ghost var loaded;
      terminal, loaded, ls := ResolveTerminal(ResetAsked(Clamp(code)), w0, ls);
      var input := ResetInput(Clamp(code), terminal);
      while true
        invariant Feeds(w0, ls, input) && call == ResetCall(code)
        decreases Bound(w0, ls)
      {
        var cmd;
        cmd, ls := RunReducer(input, w0, ls);
        if cmd.SubmitReset? {
          input, ls := SubmitAbort(cmd.code, w0, ls);
        } else if cmd.PublishTerminal? {
          var winner := PublishLocalTerminal(cmd.candidate, cmd.continuation, w0, ls);
          input := TerminalPublished(winner, cmd.continuation);
        } else {
          outcome, ls := EndCall(cmd, w0, ls);
          return;
        }
      }
    }
  }
}
