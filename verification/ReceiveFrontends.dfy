/** The receive half as the adapter runs it: `poll_data` on the reader's side and the
    receive arm of the stream callback, each with the other interleaved. */
module ReceiveFrontends {
  import opened Options
  import opened Terminals
  import opened ReceiveBudget
  import opened ReceiveProtocol

  /** One more step of the tracked run, and of the side that took it. */
  lemma Track(w0: World, ls: seq<Label>, w: World, l: Label)
    requires After(w0, ls) == Some(w) && Enabled(w, l)
    ensures After(w0, ls + [l]) == Some(Do(w, l))
    ensures forall callbackSide: bool ::
      Steps(ls + [l], callbackSide) == Steps(ls, callbackSide) + (if Mine(l, callbackSide) then [l] else [])
  {
    Append(w0, ls, w, l);
    assert (ls + [l])[..|ls|] == ls;
  }

  /** A step of the callback, or of the reader. The rest of the connection is neither. */
  predicate Mine(l: Label, callbackSide: bool) {
    if callbackSide then l.Indicate? || (OfTerminal(l) && !l.ConnectionMoves?)
    else l.Polls? || l.Accounts? || l.Completes? || l.StopsSending? || l.ReaderDropped?
  }

  /** The steps of one side, in order. */
  function Steps(ls: seq<Label>, callbackSide: bool): seq<Label> {
    if ls == [] then []
    else
      var l := ls[|ls| - 1];
      Steps(ls[..|ls| - 1], callbackSide) + (if Mine(l, callbackSide) then [l] else [])
  }

  class H3RecvStream {
    const budget: RecvBudget
    /** Shared with every other frontend of the connection. */
    const connTerminal: ConnTerminalState
    var receive: seq<ReceiveEvent>
    var senderOpen: bool
    var receiveTerminalSent: bool
    var readerAlive: bool
    var cb: Callback
    var poisoned: bool
    var start: Start
    var reader: Reader
    var terminal: Option<Sticky>
    var receiveClosed: bool
    var log: Log

    constructor (caps: Caps, conn: ConnTerminalState)
      ensures View() == Init(caps).(conn := conn.View()) && fresh(budget) && connTerminal == conn
    {
      budget := new RecvBudget(caps);
      connTerminal := conn;
      receive, senderOpen, receiveTerminalSent, readerAlive := [], true, false, true;
      cb, poisoned, start, reader, terminal, receiveClosed := Quiet, false, Unresolved, Waiting, None, false;
      log := Init(caps).log;
    }

    function View(): World
      reads this, budget, connTerminal
    {
      World(connTerminal.View(), budget.caps, budget.View(), receive, senderOpen, receiveTerminalSent, readerAlive,
            cb, poisoned, start, reader, terminal, receiveClosed, log)
    }

    ghost predicate Tracks(w0: World, ls: seq<Label>)
      reads this, budget, connTerminal
    {
      After(w0, ls) == Some(View())
    }

    /** Any number of steps of the other side and of the rest of the connection. */
    method Interfere(callbackSide: bool, ghost w0: World, ghost ls0: seq<Label>) returns (ghost ls: seq<Label>)
      requires Tracks(w0, ls0)
      modifies this, budget, connTerminal
      ensures Tracks(w0, ls) && OwnFields(callbackSide, old(View()), View())
      ensures Steps(ls, !callbackSide) == Steps(ls0, !callbackSide)
    {
      ls := ls0;
      var n: nat := *;
      while n > 0
        invariant Tracks(w0, ls) && OwnFields(callbackSide, old(View()), View())
        invariant Steps(ls, !callbackSide) == Steps(ls0, !callbackSide)
      {
        var l: Label := *;
        if Enabled(View(), l) && !Mine(l, !callbackSide) {
          Track(w0, ls, View(), l);
          SideFrame(View(), l, callbackSide);
          ls := ls + [l];
          Set(Do(View(), l));
        }
        n := n - 1;
      }
    }

    method Set(w: World)
      requires w.caps == budget.caps
      modifies this, budget, connTerminal
      ensures View() == w
    {
      budget.buffered, budget.units := w.st.buffered, w.st.units;
      budget.pendOutstanding, budget.pendingIndicationLen := w.st.pendOutstanding, w.st.pendingLen;
      budget.peak, budget.peakUnits := w.st.peak, w.st.peakUnits;
      receive, senderOpen, receiveTerminalSent, readerAlive := w.queue, w.senderOpen, w.terminalSent, w.readerAlive;
      cb, poisoned, start, reader := w.cb, w.poisoned, w.start, w.reader;
      terminal, receiveClosed, log := w.stored, w.closedLocally, w.log;
      connTerminal.terminal, connTerminal.observed := w.conn.terminal, w.conn.observed;
    }

    /** One `poll_data`: at most one event leaves the queue, a data event is accounted
        for, and a freed pause is completed with its full saved length. */
    method PollData(ghost w0: World) returns (answer: Answer, ghost ls: seq<Label>)
      requires View() == w0 && reader.Waiting? && readerAlive
      modifies this, budget, connTerminal
      ensures Tracks(w0, ls) && reader.Waiting? && log.last == Some(answer)
      ensures log.handed == old(log.handed) + (if answer.Chunk? then answer.bytes else [])
      ensures Steps(ls, false) ==
        if !answer.Chunk? then [Polls]
        else if log.completes == old(log.completes) then [Polls, Accounts]
        else [Polls, Accounts, Completes]
    {
      answer, ls := PollChannel(w0);
      if answer.Chunk? {
        ls := Interfere(true, w0, ls);
        ls := Account(answer.bytes, w0, ls);
      }
    }

    method PollChannel(ghost w0: World) returns (answer: Answer, ghost ls: seq<Label>)
      requires View() == w0 && reader.Waiting? && readerAlive
      modifies this, budget, connTerminal
      ensures Tracks(w0, ls) && Steps(ls, false) == [Polls]
      ensures log.handed == old(log.handed) && log.completes == old(log.completes)
      ensures if answer.Chunk? then reader == Popped(answer.bytes) else reader.Waiting? && log.last == Some(answer)
    {
      ls := Interfere(true, w0, []);
      Track(w0, ls, View(), Polls);
      ls := ls + [Polls];
      answer := PollEvent();
    }

    /** Account for a popped chunk, then return it, completing the freed pause first. */
    method Account(bytes: Bytes, ghost w0: World, ghost ls0: seq<Label>) returns (ghost ls: seq<Label>)
      requires Tracks(w0, ls0) && reader == Popped(bytes)
      modifies this, budget, connTerminal
      ensures Tracks(w0, ls) && reader.Waiting? && log.last == Some(Chunk(bytes))
      ensures log.handed == old(log.handed) + bytes
      ensures Steps(ls, false) ==
        Steps(ls0, false) + (if log.completes == old(log.completes) then [Accounts] else [Accounts, Completes])
    {
      Track(w0, ls0, View(), Accounts);
      ls := ls0 + [Accounts];
      var complete := Drain(bytes);
      if complete.Some? {
        ls := Complete(complete.value, bytes, w0, ls);
      }
    }

    method Drain(bytes: Bytes) returns (complete: Option<nat>)
      modifies this, budget
      ensures View() == ReceiveProtocol.Account(old(View()), bytes)
      ensures if complete.Some? then reader == Completing(complete.value, bytes)
              else reader.Waiting? && log.last == Some(Chunk(bytes)) && log.handed == old(log.handed) + bytes
      ensures log.completes == old(log.completes) && (complete.Some? ==> log.handed == old(log.handed))
    {
      complete := budget.OnDrained(|bytes|);
      if complete.Some? {
        reader := Completing(complete.value, bytes);
      } else {
        HandOut(bytes);
      }
    }

    /** The native `receive_complete`, then the chunk. */
    method Complete(len: nat, bytes: Bytes, ghost w0: World, ghost ls0: seq<Label>) returns (ghost ls: seq<Label>)
      requires Tracks(w0, ls0) && reader == Completing(len, bytes)
      modifies this, budget, connTerminal
      ensures Tracks(w0, ls) && reader.Waiting? && log.last == Some(Chunk(bytes))
      ensures log.handed == old(log.handed) + bytes && log.completes == old(log.completes) + [len]
      ensures Steps(ls, false) == Steps(ls0, false) + [Completes]
    {
      ls := Interfere(true, w0, ls0);
      Track(w0, ls, View(), Completes);
      ls := ls + [Completes];
      ReceiveComplete(len, bytes);
    }

    method ReceiveComplete(len: nat, bytes: Bytes)
      requires reader == Completing(len, bytes)
      modifies this
      ensures View() == Do(old(View()), Completes) && reader.Waiting? && log.last == Some(Chunk(bytes))
      ensures log.handed == old(log.handed) + bytes && log.completes == old(log.completes) + [len]
    {
      log := log.(completes := log.completes + [len]);
      HandOut(bytes);
    }

    method HandOut(bytes: Bytes)
      modifies this`reader, this`log
      ensures View() == Tell(old(View()), Chunk(bytes))
    {
      reader := Waiting;
      log := log.(last := Some(Chunk(bytes)), handed := log.handed + bytes);
    }

    /** The next event: a local end and a sticky terminal come before the channel. */
    method PollEvent() returns (answer: Answer)
      requires reader.Waiting?
      modifies this, connTerminal
      ensures View() == Poll(old(View()))
      ensures log == old(log).(last := log.last)
      ensures if answer.Chunk? then reader == Popped(answer.bytes) else reader.Waiting? && log.last == Some(answer)
    {
      if receiveClosed {
        answer := LocalEnd;
      } else if terminal.Some? {
        answer := Convert(terminal.value);
      } else if receive != [] {
        answer := NextEvent();
        return;
      } else if senderOpen {
        answer := PendingPoll;
      } else {
        terminal := Some(NoReason);
        answer := Convert(NoReason);
      }
      log := log.(last := Some(answer));
    }

    /** The head of the channel; a connection marker observes the shared cause. */
    method NextEvent() returns (answer: Answer)
      requires reader.Waiting? && receive != []
      modifies this, connTerminal
      ensures View() == TakeEvent(old(View()))
      ensures log == old(log).(last := log.last)
      ensures if answer.Chunk? then reader == Popped(answer.bytes) else reader.Waiting? && log.last == Some(answer)
    {
      var ev := receive[0];
      receive := receive[1..];
      if ev.Data? {
        reader := Popped(ev.bytes);
        return Chunk(ev.bytes);
      }
      var t := ev;
      if ev.Connection? {
        var winner := connTerminal.ObserveCause();
        t := ReceiveEvent.Connection(if winner.Some? then winner.value else ev.reason);
      }
      answer := StoreAndConvert(t);
    }

    method StoreAndConvert(t: ReceiveEvent) returns (answer: Answer)
      requires reader.Waiting?
      modifies this`terminal, this`log
      ensures View() == Store(old(View()), t) && answer == Convert(Ended(t)) && log.last == Some(answer)
      ensures log == old(log).(last := log.last)
    {
      terminal := Some(Ended(t));
      answer := Convert(Ended(t));
      log := log.(last := Some(answer));
    }

    /** The receive arm of the callback; `pending` is the status that pauses the stream. */
    method ReceiveCallback(buffers: seq<Bytes>, fin: bool, ghost w0: World)
      returns (pending: bool, ghost ls: seq<Label>)
      requires View() == w0 && cb.Quiet? && !poisoned
      modifies this, budget, connTerminal
      ensures Tracks(w0, ls) && cb.Quiet? && Steps(ls, true) == [Indicate(buffers, fin), CallbackRuns]
      ensures pending <==> log.pauses != old(log.pauses)
    {
      pending, ls := Admit(buffers, fin, w0);
      ls := FinishReceive(fin, w0, ls);
    }

    method Admit(buffers: seq<Bytes>, fin: bool, ghost w0: World) returns (pending: bool, ghost ls: seq<Label>)
      requires View() == w0 && cb.Quiet? && !poisoned
      modifies this, budget, connTerminal
      ensures Tracks(w0, ls) && cb == Finishing(fin) && Steps(ls, true) == [Indicate(buffers, fin)]
      ensures pending <==> log.pauses != old(log.pauses)
    {
      ls := Interfere(false, w0, []);
      Track(w0, ls, View(), Indicate(buffers, fin));
      ls := ls + [Indicate(buffers, fin)];
      pending := AdmitIndication(buffers, fin);
    }

    method AdmitIndication(buffers: seq<Bytes>, fin: bool) returns (pending: bool)
      requires !poisoned
      modifies this, budget
      ensures View() == Indication(old(View()), Flatten(buffers), fin) && cb == Finishing(fin)
      ensures pending <==> log.pauses != old(log.pauses)
    {
      pending := false;
      if !receiveTerminalSent && senderOpen {
        pending := AdmitBuffers(buffers);
      }
      cb := Finishing(fin);
    }

    method FinishReceive(fin: bool, ghost w0: World, ghost ls0: seq<Label>) returns (ghost ls: seq<Label>)
      requires Tracks(w0, ls0) && cb == Finishing(fin)
      modifies this, budget, connTerminal
      ensures Tracks(w0, ls) && cb.Quiet? && log.pauses == old(log.pauses)
      ensures Steps(ls, true) == Steps(ls0, true) + [CallbackRuns]
    {
      ls := Interfere(false, w0, ls0);
      Track(w0, ls, View(), CallbackRuns);
      ls := ls + [CallbackRuns];
      PublishFin(fin);
    }

    method PublishFin(fin: bool)
      requires cb == Finishing(fin)
      modifies this
      ensures View() == Continue(old(View())) && cb.Quiet? && log == old(log)
    {
      cb := Quiet;
      if fin {
        PublishReceiveTerminal(Fin);
      }
    }

    /** The first terminal takes the sender with it. */
    method PublishReceiveTerminal(ev: ReceiveEvent)
      modifies this`receive, this`receiveTerminalSent, this`senderOpen
      ensures View() == PublishTerminal(old(View()), ev)
    {
      if !receiveTerminalSent {
        if senderOpen && readerAlive {
          receive := receive + [ev];
        }
        receiveTerminalSent, senderOpen := true, false;
      }
    }

    /** The shutdown arm: a connection cause is classified and recorded in the shared
        cell, then marked in the queue; then the sender and the start one-shot go. */
    method ShutdownCallback(e: Shutdown, ghost w0: World) returns (ghost ls: seq<Label>)
      requires View() == w0 && cb.Quiet? && !poisoned
      modifies this, budget, connTerminal
      ensures Tracks(w0, ls) && cb.Quiet? && !senderOpen && !start.Unresolved?
      ensures Steps(ls, true) ==
        [ShutdownComplete(e)] + (if e.connection then [CallbackRuns, CallbackRuns] else [CallbackRuns])
    {
      ls := Interfere(false, w0, []);
      Track(w0, ls, View(), ShutdownComplete(e));
      ls := ls + [ShutdownComplete(e)];
      var cause := RecordShutdown(e);
      if cause.Some? {
        ls := MarkReceive(cause.value, w0, ls);
      }
      ls := CloseChannels(w0, ls);
    }

    method RecordShutdown(e: Shutdown) returns (cause: Option<ConnectionTerminal>)
      modifies this`cb, connTerminal
      ensures View() == BeginShutdown(old(View()), ShutdownCause(e)) && cause == ShutdownCause(e)
      ensures cb == if cause.Some? then Marking(cause.value) else Closing
    {
      if e.connection {
        cause := Some(ClassifyConnShutdown(e));
        connTerminal.RecordCause(cause.value);
        cb := Marking(cause.value);
      } else {
        cause := None;
        cb := Closing;
      }
    }

    method MarkReceive(reason: ConnectionTerminal, ghost w0: World, ghost ls0: seq<Label>)
      returns (ghost ls: seq<Label>)
      requires Tracks(w0, ls0) && cb == Marking(reason)
      modifies this, budget, connTerminal
      ensures Tracks(w0, ls) && cb == Closing && Steps(ls, true) == Steps(ls0, true) + [CallbackRuns]
    {
      ls := Interfere(false, w0, ls0);
      Track(w0, ls, View(), CallbackRuns);
      ls := ls + [CallbackRuns];
      PublishMarker(reason);
    }

    method PublishMarker(reason: ConnectionTerminal)
      requires cb == Marking(reason)
      modifies this
      ensures View() == Continue(old(View())) && cb == Closing
    {
      cb := Closing;
      PublishReceiveTerminal(ReceiveEvent.Connection(reason));
    }

    method CloseChannels(ghost w0: World, ghost ls0: seq<Label>) returns (ghost ls: seq<Label>)
      requires Tracks(w0, ls0) && cb == Closing
      modifies this, budget, connTerminal
      ensures Tracks(w0, ls) && cb.Quiet? && !senderOpen && !start.Unresolved?
      ensures Steps(ls, true) == Steps(ls0, true) + [CallbackRuns]
    {
      ls := Interfere(false, w0, ls0);
      Track(w0, ls, View(), CallbackRuns);
      ls := ls + [CallbackRuns];
      DropSenders();
    }

    method DropSenders()
      requires cb == Closing
      modifies this
      ensures View() == Continue(old(View())) && cb.Quiet? && !senderOpen && !start.Unresolved?
    {
      cb, senderOpen := Quiet, false;
      if start.Unresolved? {
        start := Cancelled;
      }
    }

    /** Copy, account, publish: one critical section of the budget. */
    method AdmitBuffers(buffers: seq<Bytes>) returns (pend: bool)
      requires !receiveTerminalSent && senderOpen && !poisoned
      modifies this, budget
      ensures View() == Indication(old(View()), Flatten(buffers), false).(cb := old(cb))
      ensures pend <==> log.pauses != old(log.pauses)
    {
      var total, bytes := CopyIndication(buffers);
      var published := bytes == [] || readerAlive;
      if published && bytes != [] {
        receive := receive + [Data(bytes)];
      }
      var admit := budget.AdmitIndication(total, bytes != [], published);
      pend := admit.Pend?;
      if admit.PublishFailed? {
        senderOpen := false;
      } else {
        log := log.(accepted := log.accepted + bytes,
                    pauses := if pend then log.pauses + [total] else log.pauses,
                    honoured := log.honoured && |log.pauses| == |log.completes|,
                    lastTotal := total, largest := Max(log.largest, total),
                    shortest := if bytes == [] then log.shortest
                                else if log.shortest.None? || total < log.shortest.value then Some(total)
                                else log.shortest);
      }
    }
  }

  /** What a step of the other side leaves alone. */
  predicate OwnFields(callbackSide: bool, w: World, v: World) {
    && v.caps == w.caps
    && (if callbackSide then
          && v.reader == w.reader && v.stored == w.stored
          && v.closedLocally == w.closedLocally && v.readerAlive == w.readerAlive
          && v.log.handed == w.log.handed && v.log.completes == w.log.completes && v.log.last == w.log.last
        else
          v.cb == w.cb && v.poisoned == w.poisoned && v.senderOpen == w.senderOpen && v.terminalSent == w.terminalSent
          && v.log.pauses == w.log.pauses)
  }

  lemma TerminalFrame(w: World, l: Label)
    requires OfTerminal(l)
    ensures OwnFields(true, w, Do(w, l))
  {
    TerminalStepIs(w, l);
  }

  lemma IndicationFrame(w: World, bytes: Bytes, fin: bool)
    ensures OwnFields(true, w, Indication(w, bytes, fin))
  {
  }

  lemma TakeFrame(w: World)
    requires w.queue != []
    ensures OwnFields(false, w, TakeEvent(w))
  {
  }

  lemma PollFrame(w: World)
    ensures OwnFields(false, w, Poll(w))
  {
    if !w.closedLocally && w.stored.None? && w.queue != [] {
      TakeFrame(w);
    }
  }

  lemma AccountFrame(w: World, bytes: Bytes)
    ensures OwnFields(false, w, ReceiveProtocol.Account(w, bytes))
  {
  }

  lemma ReaderFrame(w: World, l: Label)
    requires Mine(l, false)
    ensures OwnFields(false, w, Do(w, l))
  {
    if l.Polls? {
      PollFrame(w);
    } else if l.Accounts? && w.reader.Popped? {
      AccountFrame(w, w.reader.bytes);
    }
  }

  /** The reader and the callback each keep to their own fields, and the rest of the
      connection keeps out of both. */
  lemma SideFrame(w: World, l: Label, callbackSide: bool)
    requires !Mine(l, !callbackSide)
    ensures OwnFields(callbackSide, w, Do(w, l))
  {
    if l.Indicate? {
      IndicationFrame(w, Flatten(l.buffers), l.fin);
    } else if OfTerminal(l) && callbackSide {
      TerminalFrame(w, l);
    } else if Mine(l, false) {
      ReaderFrame(w, l);
    }
  }
}
