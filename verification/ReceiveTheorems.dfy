/** What the receive half guarantees in every run. */
module ReceiveTheorems {
  import opened Options
  import opened Terminals
  import opened ReceiveBudget
  import opened ReceiveProtocol

  /** Accounting is exact in every interleaving: the counters are the bytes and data
      events queued plus the chunk popped but not accounted, no subtraction in a drain
      saturates, and a pause is outstanding exactly while a budget is used up. */
  lemma AccountingIsExact(caps: Caps, ls: seq<Label>)
    requires caps.Valid() && After(Init(caps), ls).Some?
    ensures var w := After(Init(caps), ls).value;
      && w.st.buffered == |Content(w.queue)| + |PoppedBytes(w)|
      && w.st.units == DataCount(w.queue) + (if w.reader.Popped? then 1 else 0)
      && (w.reader.Popped? ==> w.st.buffered >= |w.reader.bytes| && w.st.units >= 1)
      && (w.st.pendOutstanding <==> w.st.buffered >= caps.maxBytes || w.st.units >= caps.maxUnits)
  {
    RunKeeps(caps, ls);
  }

  /** When the native side honours PENDING, the adapter holds less than the byte cap
      plus the last indication and never more units than the unit cap, at the peak as
      well as now. */
  lemma MemoryIsBounded(caps: Caps, ls: seq<Label>)
    requires caps.Valid() && After(Init(caps), ls).Some? && After(Init(caps), ls).value.log.honoured
    ensures var w := After(Init(caps), ls).value;
      && w.st.buffered < caps.maxBytes + w.log.lastTotal && w.st.units <= caps.maxUnits
      && w.st.peak < caps.maxBytes + w.log.largest && w.st.peakUnits <= caps.maxUnits
  {
    RunKeeps(caps, ls);
  }

  /** Completions are, in order, the full lengths of the paused indications, one behind
      exactly while a pause is outstanding or its completion is about to be submitted. */
  lemma OneRearmPerPause(caps: Caps, ls: seq<Label>)
    requires caps.Valid() && After(Init(caps), ls).Some? && After(Init(caps), ls).value.log.honoured
    ensures var w := After(Init(caps), ls).value;
      && w.log.completes <= w.log.pauses
      && |w.log.pauses| == |w.log.completes| + (if w.st.pendOutstanding || w.reader.Completing? then 1 else 0)
  {
    RunKeeps(caps, ls);
  }

  /** What h3 was handed is a prefix of what was accepted, only the last queued event
      can be a terminal, and a clean end of stream that the caller did not ask for
      comes only after every byte. */
  lemma BytesInOrder(caps: Caps, ls: seq<Label>)
    requires caps.Valid() && After(Init(caps), ls).Some?
    ensures var w := After(Init(caps), ls).value;
      && w.log.handed <= w.log.accepted
      && (forall i :: 0 <= i < |w.queue| - 1 ==> w.queue[i].Data?)
      && (w.log.last == Some(EndOfStream) ==> w.log.handed == w.log.accepted)
  {
    RunKeeps(caps, ls);
  }

  /** After a terminal was stored no byte is accepted any more. */
  lemma StoredIsFinal(w: World, l: Label)
    requires Inv(w) && Enabled(w, l) && w.stored.Some?
    ensures Do(w, l).stored == w.stored
    ensures Do(w, l).log.accepted == w.log.accepted && Do(w, l).log.handed == w.log.handed
  {
    if OfTerminal(l) {
      TerminalStepIs(w, l);
    }
  }

  /** A connection cause told by a poll is the shared one, frozen; the reason carried by
      the marker is never needed. */
  lemma ToldCauseIsShared(caps: Caps, ls: seq<Label>)
    requires caps.Valid() && After(Init(caps), ls).Some?
    ensures var w := After(Init(caps), ls).value;
      && (w.stored.Some? && w.stored.value.Ended? && w.stored.value.event.Connection? ==>
          w.conn == ConnSlot(Some(w.stored.value.event.reason), true))
      && (forall i :: 0 <= i < |w.queue| && w.queue[i].Connection? ==> w.conn.terminal.Some?)
  {
    RunKeeps(caps, ls);
    MarkersAreExplained(After(Init(caps), ls).value);
  }

  lemma MarkersAreExplained(w: World)
    requires InvOrder(w) && InvCause(w)
    ensures forall i :: 0 <= i < |w.queue| && w.queue[i].Connection? ==> w.conn.terminal.Some?
  {
  }

  // ------------------------------------------------------------------- no stranding

  lemma {:induction false} NoDataNoBytes(q: seq<ReceiveEvent>)
    requires DataCount(q) == 0
    ensures Content(q) == []
  {
    if q != [] {
      NoDataNoBytes(q[1..]);
    }
  }

  /** A paused stream always has data left to drain. */
  lemma PausedHasData(caps: Caps, ls: seq<Label>)
    requires caps.Valid() && After(Init(caps), ls).Some? && After(Init(caps), ls).value.st.pendOutstanding
    ensures var w := After(Init(caps), ls).value; DataCount(w.queue) > 0 || w.reader.Popped?
  {
    RunKeeps(caps, ls);
    var w := After(Init(caps), ls).value;
    if DataCount(w.queue) == 0 {
      NoDataNoBytes(w.queue);
    }
  }

  /** Data events still to be drained. */
  function Undrained(w: World): nat {
    DataCount(w.queue) + match w.reader case Waiting => 0 case Popped(_) => 1 case Completing(_, _) => 0
  }

  lemma OthersAddNoData(w: World, l: Label)
    requires Inv(w) && Enabled(w, l) && !l.Polls? && !l.Accounts? && !l.Completes?
    requires w.log.honoured && Do(w, l).log.honoured && w.st.pendOutstanding
    ensures DataCount(Do(w, l).queue) == DataCount(w.queue) && Do(w, l).reader == w.reader
  {
    if OfTerminal(l) {
      TerminalStepIs(w, l);
      if TerminalOf(w, l).Some? {
        QueueAppend(w.queue, TerminalOf(w, l).value);
      }
    }
  }

  /** A poll of a paused stream pops a data event, unless the reader called
      `stop_sending` ... */
  lemma PausedPollPops(w: World)
    requires Inv(w) && Enabled(w, Polls) && w.st.pendOutstanding
    ensures Poll(w).reader.Popped? <==> !w.closedLocally
    ensures !w.closedLocally ==> Undrained(Poll(w)) == Undrained(w)
  {
    PausedIsUndrained(w);
    FirstIsData(w);
  }

  /** ... accounting for it leaves one fewer, and accounting for the last one re-arms. */
  lemma AccountingDrains(w: World)
    requires Inv(w) && w.reader.Popped?
    ensures var v := Account(w, w.reader.bytes);
      && Undrained(v) == Undrained(w) - 1
      && (w.st.pendOutstanding && Undrained(w) == 1 ==>
            !v.st.pendOutstanding && v.reader == Completing(w.st.pendingLen, w.reader.bytes))
  {
    if DataCount(w.queue) == 0 {
      NoDataNoBytes(w.queue);
    }
  }

  /** Paused, with a reader that did not end the stream itself. */
  predicate Draining(w: World, len: nat) {
    w.log.honoured && w.st.pendOutstanding && w.st.pendingLen == len && !w.closedLocally && !w.reader.Completing?
  }

  predicate Rearmed(w: World, len: nat) { !w.st.pendOutstanding && w.reader.Completing? && w.reader.len == len }

  predicate DrainsOn(w: World, v: World, accounted: nat) {
    || Rearmed(v, w.st.pendingLen)
    || (Draining(v, w.st.pendingLen) && Undrained(v) + accounted <= Undrained(w))
  }

  lemma DrainingPoll(w: World)
    requires Inv(w) && Enabled(w, Polls) && Draining(w, w.st.pendingLen)
    ensures DrainsOn(w, Poll(w), 0)
  {
    PausedPollPops(w);
    PoppingFrame(w);
  }

  lemma PoppingFrame(w: World)
    requires Poll(w).reader.Popped? && w.reader.Waiting?
    ensures Poll(w).st == w.st && Poll(w).log == w.log && Poll(w).closedLocally == w.closedLocally
    ensures Poll(w).readerAlive == w.readerAlive
  {
    assert Poll(w) == TakeEvent(w) == w.(queue := w.queue[1..], reader := Popped(w.queue[0].bytes));
  }

  lemma DrainingAccount(w: World)
    requires Inv(w) && w.reader.Popped? && Draining(w, w.st.pendingLen)
    ensures DrainsOn(w, Account(w, w.reader.bytes), 1)
  {
    AccountingDrains(w);
    PausedHasMore(w);
  }

  lemma DrainingOther(w: World, l: Label)
    requires Inv(w) && Enabled(w, l) && Draining(w, w.st.pendingLen) && Do(w, l).log.honoured
    requires !l.Polls? && !l.Accounts? && !l.StopsSending?
    ensures DrainsOn(w, Do(w, l), 0)
  {
    OthersAddNoData(w, l);
    OthersKeepPause(w, l);
  }

  lemma PausedIsUndrained(w: World)
    requires Inv(w) && w.st.pendOutstanding
    ensures Undrained(w) > 0
  {
    if DataCount(w.queue) == 0 {
      NoDataNoBytes(w.queue);
    }
  }

  /** One step of a draining stream: it is re-armed with the paused indication's full
      length, or goes on draining with nothing added. */
  lemma DrainingStep(w: World, l: Label)
    requires Inv(w) && Enabled(w, l) && Draining(w, w.st.pendingLen) && Do(w, l).log.honoured && !l.StopsSending?
    ensures DrainsOn(w, Do(w, l), if l.Accounts? then 1 else 0)
  {
    if l.Polls? {
      DrainingPoll(w);
    } else if l.Accounts? {
      DrainingAccount(w);
    } else {
      DrainingOther(w, l);
    }
  }

  lemma OthersKeepPause(w: World, l: Label)
    requires Inv(w) && Enabled(w, l) && !l.Polls? && !l.Accounts? && !l.Completes? && !l.StopsSending?
    requires w.st.pendOutstanding && w.log.honoured && Do(w, l).log.honoured
    ensures var v := Do(w, l); v.st == w.st && v.closedLocally == w.closedLocally && v.reader == w.reader
  {
    if OfTerminal(l) {
      TerminalStepIs(w, l);
      ClosedIsTheReaders(w, l);
    }
  }

  lemma ClosedIsTheReaders(w: World, l: Label)
    requires OfTerminal(l)
    ensures Do(w, l).closedLocally == w.closedLocally
  {
  }

  function AccountsIn(ls: seq<Label>): nat {
    if ls == [] then 0 else AccountsIn(ls[..|ls| - 1]) + (if ls[|ls| - 1].Accounts? then 1 else 0)
  }

  /** Somewhere along the run the stream was re-armed with that length. */
  ghost predicate RearmedAlong(w: World, ls: seq<Label>, len: nat) {
    exists k :: 0 <= k <= |ls| && After(w, ls[..k]).Some? && Rearmed(After(w, ls[..k]).value, len)
  }

  lemma RearmedBefore(w: World, ls: seq<Label>, n: nat, len: nat)
    requires n <= |ls| && RearmedAlong(w, ls[..n], len)
    ensures RearmedAlong(w, ls, len)
  {
    var front := ls[..n];
    var k :| 0 <= k <= |front| && After(w, front[..k]).Some? && Rearmed(After(w, front[..k]).value, len);
    assert ls[..k] == front[..k];
  }

  lemma RearmedNow(w: World, ls: seq<Label>, v: World, len: nat)
    requires After(w, ls) == Some(v) && Rearmed(v, len)
    ensures RearmedAlong(w, ls, len)
  {
    assert ls[..|ls|] == ls;
  }

  /** A run without a local stop either re-armed the stream at some point or has still
      fewer chunks accounted for than there were to drain. */
  lemma {:induction false} DrainingRun(w: World, ls: seq<Label>, v: World)
    requires Inv(w) && Draining(w, w.st.pendingLen) && After(w, ls) == Some(v) && v.log.honoured
    requires forall n :: 0 <= n < |ls| ==> !ls[n].StopsSending?
    ensures RearmedAlong(w, ls, w.st.pendingLen)
      || (Draining(v, w.st.pendingLen) && Undrained(v) + AccountsIn(ls) <= Undrained(w))
    decreases |ls|
  {
    if ls != [] {
      var front, l := ls[..|ls| - 1], ls[|ls| - 1];
      var u := After(w, front).value;
      RunsKeep(w, front);
      StepCharges(u, l);
      DrainingRun(w, front, u);
      if RearmedAlong(w, front, w.st.pendingLen) {
        RearmedBefore(w, ls, |ls| - 1, w.st.pendingLen);
      } else {
        DrainingStep(u, l);
        if Rearmed(v, w.st.pendingLen) {
          RearmedNow(w, ls, v, w.st.pendingLen);
        }
      }
    }
  }

  /** From every paused state whose reader did not call `stop_sending`, every run that
      honours PENDING, keeps free of `stop_sending` and accounts for as many chunks as
      are left to drain passes through the re-arming completion. */
  lemma DrainingRearms(w: World, ls: seq<Label>)
    requires Inv(w) && Draining(w, w.st.pendingLen) && After(w, ls).Some? && After(w, ls).value.log.honoured
    requires forall n :: 0 <= n < |ls| ==> !ls[n].StopsSending?
    requires AccountsIn(ls) >= Undrained(w)
    ensures RearmedAlong(w, ls, w.st.pendingLen)
  {
    var v := After(w, ls).value;
    DrainingRun(w, ls, v);
    RunsKeep(w, ls);
    if v.st.pendOutstanding {
      PausedIsUndrained(v);
    }
  }

  // ------------------------------------------------- stop_sending strands the pause

  /** The reader ended the stream itself while a pause was outstanding. */
  predicate Stranded(w: World) { w.closedLocally && w.st.pendOutstanding && w.reader.Waiting? }

  lemma StrandedStep(w: World, l: Label)
    requires Inv(w) && Enabled(w, l) && Stranded(w)
    ensures Stranded(Do(w, l)) && Do(w, l).log.completes == w.log.completes
  {
    if OfTerminal(l) {
      TerminalStepIs(w, l);
      ClosedIsTheReaders(w, l);
    }
  }

  /** After a local `stop_sending` no poll pops, so an outstanding pause is never
      completed, in any run and however often the reader polls. */
  lemma {:induction false} StoppedPauseIsForever(w: World, ls: seq<Label>)
    requires Inv(w) && Stranded(w) && After(w, ls).Some?
    ensures Stranded(After(w, ls).value) && After(w, ls).value.log.completes == w.log.completes
    decreases |ls|
  {
    if ls != [] {
      var front := ls[..|ls| - 1];
      StoppedPauseIsForever(w, front);
      RunsKeep(w, front);
      StrandedStep(After(w, front).value, ls[|ls| - 1]);
    }
  }

  /** Such a state is reached with any budget: one indication that fills it, then a stop. */
  lemma StoppedPauseIsReached(caps: Caps) returns (ls: seq<Label>)
    requires caps.Valid()
    ensures After(Init(caps), ls).Some? && Stranded(After(Init(caps), ls).value)
    ensures |After(Init(caps), ls).value.log.pauses| == 1 && After(Init(caps), ls).value.log.completes == []
  {
    var bytes: Bytes := seq(caps.maxBytes, i => 0);
    var buffers: seq<Bytes> := [bytes];
    assert buffers[..0] == [];
    assert Flatten(buffers) == bytes;
    var w := Init(caps);
    ls := [];
    ls, w := Follow(Init(caps), ls, w, Indicate(buffers, false));
    ls, w := Follow(Init(caps), ls, w, CallbackRuns);
    ls, w := Follow(Init(caps), ls, w, StopsSending);
  }

  /** One poll of a reader that only drains. */
  lemma DrainLap(w: World) returns (ls: seq<Label>, v: World)
    requires Inv(w) && w.st.pendOutstanding && w.reader.Waiting? && w.readerAlive && !w.closedLocally
    ensures After(w, ls) == Some(v) && Inv(v) && v.log.completes == w.log.completes
    ensures v.reader.Completing? || (v.st.pendOutstanding && v.reader.Waiting? && v.readerAlive && !v.closedLocally)
    ensures Undrained(v) < Undrained(w)
  {
    PausedPollPops(w);
    PoppingFrame(w);
    ls, v := Follow(w, [], w, Polls);
    StepKeeps(w, Polls);
    AccountingDrains(v);
    PausedHasMore(v);
    StepKeeps(v, Accounts);
    ls, v := Follow(w, ls, v, Accounts);
  }

  lemma {:induction false} DrainToRearm(w: World) returns (ls: seq<Label>)
    requires Inv(w) && w.st.pendOutstanding && w.reader.Waiting? && w.readerAlive && !w.closedLocally
    ensures After(w, ls).Some? && |After(w, ls).value.log.completes| > |w.log.completes|
    decreases Undrained(w)
  {
    var v;
    ls, v := DrainLap(w);
    if v.reader.Completing? {
      ls, v := Follow(w, ls, v, Completes);
    } else {
      var rest := DrainToRearm(v);
      Concat(w, ls, v, rest, After(v, rest).value);
      ls := ls + rest;
    }
  }

  /** Accounting for one chunk re-arms the stream or leaves it as it was, minus one. */
  lemma PausedHasMore(w: World)
    requires w.reader.Popped? && w.st.pendOutstanding
    ensures var v := Account(w, w.reader.bytes);
      && v.log.completes == w.log.completes && v.readerAlive == w.readerAlive && v.closedLocally == w.closedLocally
      && (if v.st.pendOutstanding then v.reader.Waiting? else v.reader.Completing?)
  {
  }

  /** Exactly when a paused stream can still be re-armed: a live reader that did not call
      `stop_sending`. */
  lemma RearmableIff(w: World)
    requires Inv(w) && w.st.pendOutstanding && w.reader.Waiting? && w.readerAlive
    ensures !w.closedLocally <==>
      exists ls :: After(w, ls).Some? && |After(w, ls).value.log.completes| > |w.log.completes|
  {
    if w.closedLocally {
      forall ls | After(w, ls).Some?
        ensures After(w, ls).value.log.completes == w.log.completes
      {
        StoppedPauseIsForever(w, ls);
      }
    } else {
      var ls := DrainToRearm(w);
    }
  }

  lemma FirstIsData(w: World)
    requires InvOrder(w) && DataCount(w.queue) > 0
    ensures w.queue[0].Data?
  {
    if |w.queue| == 1 {
      assert w.queue[1..] == [];
    }
  }

  // ------------------------------------------------------------------- never pending

  /** Once the callback handled the shutdown or recovered from a panic, neither a data
      poll nor a pending start is left waiting, ever. */
  predicate Closed(w: World) { !w.senderOpen && !w.start.Unresolved? }

  lemma ShutdownCloses(w: World, l: Label)
    requires Inv(w) && Enabled(w, l) && ((l.CallbackRuns? && w.cb.Closing?) || l.Panics?)
    ensures Closed(Do(w, l))
  {
  }

  lemma ClosedPollAnswers(w: World)
    requires Enabled(w, Polls) && !w.senderOpen
    ensures Poll(w).reader.Waiting? ==> Poll(w).log.last != Some(PendingPoll)
    ensures Poll(w).senderOpen == w.senderOpen && Poll(w).start == w.start
  {
  }

  lemma ClosedNeverPends(w: World, l: Label)
    requires Inv(w) && Enabled(w, l) && Closed(w)
    ensures Closed(Do(w, l))
    ensures l.Polls? && Do(w, l).reader.Waiting? ==> Do(w, l).log.last != Some(PendingPoll)
  {
    if l.Polls? {
      ClosedPollAnswers(w);
    } else if l.Accounts? {
      AccountLeavesSender(w, w.reader.bytes);
    }
  }

  lemma AccountLeavesSender(w: World, bytes: Bytes)
    ensures Account(w, bytes).senderOpen == w.senderOpen && Account(w, bytes).start == w.start
  {
  }

  // -------------------------------------------------------------------- the unit cap

  /** Every chunk the adapter holds is at least as long as the shortest indication. */
  predicate InvShortest(w: World) {
    && (forall i :: 0 <= i < |w.queue| && w.queue[i].Data? ==>
          w.log.shortest.Some? && w.log.shortest.value <= |w.queue[i].bytes|)
    && (w.reader.Popped? ==> w.log.shortest.Some? && w.log.shortest.value <= |w.reader.bytes|)
  }

  lemma {:induction false} ChunksFillBytes(q: seq<ReceiveEvent>, f: nat)
    requires forall i :: 0 <= i < |q| && q[i].Data? ==> f <= |q[i].bytes|
    ensures DataCount(q) * f <= |Content(q)|
  {
    if q != [] {
      ChunksFillBytes(q[1..], f);
      assert q[0].Data? ==> f <= |q[0].bytes|;
      Distribute(DataCount(q[1..]), f);
    }
  }

  lemma Distribute(n: nat, f: nat)
    ensures (n + 1) * f == n * f + f
  {
  }

  lemma IndicationKeepsShortest(w: World, bytes: Bytes, fin: bool)
    requires InvShortest(w)
    ensures InvShortest(Indication(w, bytes, fin))
  {
  }

  lemma TakeKeepsShortest(w: World)
    requires InvShortest(w) && w.queue != []
    ensures InvShortest(TakeEvent(w))
  {
    QueueHead(w.queue);
    if !w.queue[0].Data? {
      TakeTerminalFrame(w);
    }
  }

  lemma PollKeepsShortest(w: World)
    requires InvShortest(w)
    ensures InvShortest(Poll(w))
  {
    if !w.closedLocally && w.stored.None? && w.queue != [] {
      TakeKeepsShortest(w);
    }
  }

  lemma DrainKeepsShortest(w: World, l: Label)
    requires InvShortest(w) && (l.Accounts? || l.Completes?)
    ensures InvShortest(Do(w, l))
  {
  }

  lemma OthersKeepShortest(w: World, l: Label)
    requires InvShortest(w) && !l.Indicate? && !l.Polls? && !l.Accounts? && !l.Completes?
    requires l.PeerEnds? ==> !l.terminal.Data?
    ensures InvShortest(Do(w, l))
  {
    if OfTerminal(l) {
      TerminalStepIs(w, l);
    }
  }

  lemma ShortestKept(w: World, l: Label)
    requires InvShortest(w) && Enabled(w, l)
    ensures InvShortest(Do(w, l))
  {
    match l {
      case Indicate(buffers, fin) => IndicationKeepsShortest(w, Flatten(buffers), fin);
      case Polls => PollKeepsShortest(w);
      case Accounts => DrainKeepsShortest(w, l);
      case Completes => DrainKeepsShortest(w, l);
      case _ => OthersKeepShortest(w, l);
    }
  }

  /** Before the last unit was charged the bytes had room for one more. */
  predicate InvUnits(w: World, f: nat) {
    w.log.honoured && (w.log.shortest.Some? ==> f <= w.log.shortest.value) ==>
      w.st.units == 0 || (w.st.units - 1) * f < w.caps.maxBytes
  }

  lemma UnitsFitBytes(w: World, f: nat)
    requires InvAccount(w) && InvShortest(w) && (w.log.shortest.Some? ==> f <= w.log.shortest.value)
    ensures w.st.units * f <= w.st.buffered
  {
    ChunksFillBytes(w.queue, f);
    Distribute(DataCount(w.queue), f);
  }

  /** What a step may do to units, caps and the log's lower bound. */
  predicate UnitsGrow(w: World, v: World) {
    && (v.log.honoured ==> w.log.honoured) && v.caps == w.caps
    && (v.log.shortest.None? ==> w.log.shortest.None?)
    && (v.log.shortest.Some? && w.log.shortest.Some? ==> v.log.shortest.value <= w.log.shortest.value)
    && (v.st.units <= w.st.units
        || (v.st.units == w.st.units + 1 && (v.log.honoured ==> w.st.buffered < w.caps.maxBytes)))
  }

  /** A unit is charged only by an indication, and then the stream was not paused. */
  lemma ChargingNeedsRoom(w: World, bytes: Bytes, fin: bool)
    requires InvAccount(w) && InvPause(w)
    ensures UnitsGrow(w, Indication(w, bytes, fin))
  {
  }

  lemma PollChargesNothing(w: World)
    ensures UnitsGrow(w, Poll(w))
  {
  }

  lemma AccountChargesNothing(w: World, bytes: Bytes)
    ensures UnitsGrow(w, Account(w, bytes))
  {
  }

  lemma StepCharges(w: World, l: Label)
    requires InvAccount(w) && InvPause(w) && Enabled(w, l)
    ensures UnitsGrow(w, Do(w, l))
  {
    match l {
      case Indicate(buffers, fin) => ChargingNeedsRoom(w, Flatten(buffers), fin);
      case Polls => PollChargesNothing(w);
      case Accounts => AccountChargesNothing(w, w.reader.bytes);
      case _ =>
        if OfTerminal(l) {
          TerminalStepIs(w, l);
        }
    }
  }

  lemma UnitsKept(w: World, v: World, f: nat)
    requires InvAccount(w) && InvShortest(w) && InvUnits(w, f)
    requires UnitsGrow(w, v)
    ensures InvUnits(v, f)
  {
    if v.log.honoured && (v.log.shortest.Some? ==> f <= v.log.shortest.value) && v.st.units > 0 {
      if v.st.units > w.st.units {
        UnitsFitBytes(w, f);
      } else {
        Shrinks(v.st.units - 1, w.st.units - 1, f);
      }
    }
  }

  lemma Shrinks(a: nat, b: nat, f: nat)
    requires a <= b
    ensures a * f <= b * f
  {
  }

  lemma {:induction false} UnitsInRuns(caps: Caps, ls: seq<Label>, f: nat)
    requires caps.Valid() && After(Init(caps), ls).Some?
    ensures InvShortest(After(Init(caps), ls).value) && InvUnits(After(Init(caps), ls).value, f)
    decreases |ls|
  {
    if ls != [] {
      var front, l := ls[..|ls| - 1], ls[|ls| - 1];
      UnitsInRuns(caps, front, f);
      RunKeeps(caps, front);
      var w := After(Init(caps), front).value;
      ShortestKept(w, l);
      StepCharges(w, l);
      UnitsKept(w, Do(w, l), f);
    }
  }

  lemma UnitsBounded(units: nat, maxBytes: nat, f: nat)
    requires f > 0 && maxBytes > 0 && (units == 0 || (units - 1) * f < maxBytes)
    ensures units <= (maxBytes - 1) / f + 1
  {
    if units > 0 {
      QuotientBound(units - 1, f, maxBytes - 1);
    }
  }

  /** If every non-empty indication has at least `f` bytes and the byte budget divided
      by `f` stays below the unit cap, the unit cap never binds. */
  lemma UnitCapNeverBinds(caps: Caps, ls: seq<Label>, w: World, f: nat)
    requires caps.Valid() && f > 0 && (caps.maxBytes - 1) / f + 1 < caps.maxUnits
    requires After(Init(caps), ls) == Some(w)
    requires w.log.honoured && (w.log.shortest.Some? ==> f <= w.log.shortest.value)
    ensures w.st.units <= (caps.maxBytes - 1) / f + 1 < caps.maxUnits
  {
    CapsOfRun(caps, ls);
    UnitsInRuns(caps, ls, f);
    UnitsStayBelow(w, f);
  }

  lemma CapsOfRun(caps: Caps, ls: seq<Label>)
    requires caps.Valid() && After(Init(caps), ls).Some?
    ensures After(Init(caps), ls).value.caps == caps
  {
    RunKeeps(caps, ls);
  }

  lemma UnitsStayBelow(w: World, f: nat)
    requires w.caps.Valid() && f > 0 && InvUnits(w, f)
    requires w.log.honoured && (w.log.shortest.Some? ==> f <= w.log.shortest.value)
    ensures w.st.units <= (w.caps.maxBytes - 1) / f + 1
  {
    UnitsBounded(w.st.units, w.caps.maxBytes, f);
  }

  lemma QuotientBound(n: nat, f: nat, m: nat)
    requires f > 0 && n * f <= m
    ensures n <= m / f
  {
    assert m / f * f + m % f == m;
    Distribute(m / f, f);
    if n > m / f {
      Shrinks(m / f + 1, n, f);
    }
  }

  const DEFAULT_CAPS: Caps := Caps(1024 * 1024, 16384)

  /** With the default budgets and frames of at least 128 bytes no more than 8192 units
      are ever buffered: the byte budget binds first. */
  lemma DefaultsBindOnBytes(ls: seq<Label>, w: World)
    requires After(Init(DEFAULT_CAPS), ls) == Some(w)
    requires w.log.honoured && (w.log.shortest.Some? ==> 128 <= w.log.shortest.value)
    ensures w.st.units <= 8192 < DEFAULT_CAPS.maxUnits
  {
    UnitCapNeverBinds(DEFAULT_CAPS, ls, w, 128);
  }
}
