/** One stream's receive half: the callback admits indications and queues terminals
    while the reader drains in two steps, and the native side is held back by PENDING. */
module ReceiveProtocol {
  import opened Options
  import opened Terminals
  import opened ReceiveBudget

  datatype ReceiveEvent =
    | Data(bytes: Bytes)
    | Fin
    | Reset(code: nat)
    | Connection(reason: ConnectionTerminal)
    | Internal(fault: Fault)

  /** The terminal a poll stores and replays; `NoReason` is the closed-channel fault. */
  datatype Sticky = Ended(event: ReceiveEvent) | NoReason

  /** The reader between two atomic actions of `poll_data`. */
  datatype Reader = Waiting | Popped(bytes: Bytes) | Completing(len: nat, bytes: Bytes)

  /** The callback between two of its actions: a FIN to publish after the data, a
      recorded connection cause to mark, channels to close. */
  datatype Callback = Quiet | Finishing(fin: bool) | Marking(reason: ConnectionTerminal) | Closing

  datatype Answer = PendingPoll | Chunk(bytes: Bytes) | EndOfStream | LocalEnd | Broken(why: Sticky)

  /** The one-shot that a pending stream start waits on. */
  datatype Start = Unresolved | Resolved(ok: bool) | Cancelled

  datatype Log = Log(
    accepted: Bytes,
    handed: Bytes,
    pauses: seq<nat>,
    completes: seq<nat>,
    honoured: bool,
    lastTotal: nat,
    largest: nat,
    shortest: Option<nat>,
    last: Option<Answer>)

  datatype World = World(
    conn: ConnSlot,
    caps: Caps,
    st: RecvState,
    queue: seq<ReceiveEvent>,
    senderOpen: bool,
    terminalSent: bool,
    readerAlive: bool,
    cb: Callback,
    poisoned: bool,
    start: Start,
    reader: Reader,
    stored: Option<Sticky>,
    closedLocally: bool,
    log: Log)

  function Init(caps: Caps): World {
    World(EMPTY_CONN, caps, DRAINED, [], true, false, true, Quiet, false, Unresolved, Waiting, None, false,
          Log([], [], [], [], true, 0, 0, None, None))
  }

  datatype Label =
    | Indicate(buffers: seq<Bytes>, fin: bool)
    | CallbackRuns
    | PeerEnds(terminal: ReceiveEvent)
    | StartCompletes(ok: bool)
    | ShutdownComplete(shutdown: Shutdown)
    | Panics
    | ConnectionMoves(conn: ConnSlot)
    | Polls
    | Accounts
    | Completes
    | StopsSending
    | ReaderDropped

  predicate Enabled(w: World, l: Label) {
    match l
    case Indicate(_, _) => w.cb.Quiet?
    case CallbackRuns => !w.cb.Quiet?
    case PeerEnds(t) => w.cb.Quiet? && (t.Fin? || t.Reset?)
    case StartCompletes(_) => w.cb.Quiet?
    case ShutdownComplete(_) => w.cb.Quiet?
    case Panics => !w.poisoned
    case ConnectionMoves(conn) => Leads(w.conn, conn) && Sound(conn)
    case Polls => w.reader.Waiting? && w.readerAlive
    case Accounts => w.reader.Popped?
    case Completes => w.reader.Completing?
    case StopsSending => w.reader.Waiting? && w.readerAlive
    case ReaderDropped => w.reader.Waiting?
  }

  /** First writer wins; afterwards the sender is gone. */
  function PublishTerminal(w: World, ev: ReceiveEvent): World {
    if w.terminalSent then w
    else w.(queue := if w.senderOpen && w.readerAlive then w.queue + [ev] else w.queue,
            terminalSent := true, senderOpen := false)
  }

  function Indication(w: World, bytes: Bytes, fin: bool): World {
    if w.poisoned then w
    else if w.terminalSent || !w.senderOpen then w.(cb := Finishing(fin))
    else
      var total := |bytes|;
      var published := bytes == [] || w.readerAlive;
      var (st, admit) := AdmitStep(w.caps, w.st, total, bytes != [], published);
      var log := w.log;
      if admit.PublishFailed? then w.(senderOpen := false, cb := Finishing(fin))
      else
        w.(st := st, cb := Finishing(fin),
           queue := if bytes == [] then w.queue else w.queue + [Data(bytes)],
           log := log.(accepted := log.accepted + bytes,
                       pauses := if admit.Pend? then log.pauses + [total] else log.pauses,
                       honoured := log.honoured && |log.pauses| == |log.completes|,
                       lastTotal := total,
                       largest := Max(log.largest, total),
                       shortest := if bytes == [] then log.shortest
                                   else if log.shortest.None? || total < log.shortest.value then Some(total)
                                   else log.shortest))
  }

  function Tell(w: World, a: Answer): World {
    w.(reader := Waiting,
       log := w.log.(last := Some(a), handed := if a.Chunk? then w.log.handed + a.bytes else w.log.handed))
  }

  function Convert(t: Sticky): Answer { if t.Ended? && t.event.Fin? then EndOfStream else Broken(t) }

  /** The cause behind a connection marker: the shared one, else the one it carries. */
  function MarkedCause(conn: ConnSlot, fallback: ConnectionTerminal): ReceiveEvent {
    ReceiveEvent.Connection(if conn.terminal.Some? then conn.terminal.value else fallback)
  }

  /** `poll_event`: at most one event leaves the queue; a connection marker freezes the
      shared cause as it is read. */
  function Poll(w: World): World {
    if w.closedLocally then Tell(w, LocalEnd)
    else if w.stored.Some? then Tell(w, Convert(w.stored.value))
    else if w.queue == [] then
      if w.senderOpen then Tell(w, PendingPoll)
      else Tell(w.(stored := Some(NoReason)), Convert(NoReason))
    else TakeEvent(w)
  }

  function TakeEvent(w: World): World
    requires w.queue != []
  {
    var ev := w.queue[0];
    var v := w.(queue := w.queue[1..]);
    match ev
    case Data(bytes) => v.(reader := Popped(bytes))
    case Connection(fallback) => Store(v.(conn := Observe(w.conn)), MarkedCause(w.conn, fallback))
    case _ => Store(v, ev)
  }

  /** A terminal becomes sticky as it is told. */
  function Store(w: World, t: ReceiveEvent): World { Tell(w.(stored := Some(Ended(t))), Convert(Ended(t))) }

  function Account(w: World, bytes: Bytes): World {
    var (st, complete) := DrainStep(w.caps, w.st, |bytes|);
    var v := w.(st := st);
    if complete.Some? then v.(reader := Completing(complete.value, bytes)) else Tell(v, Chunk(bytes))
  }

  /** A connection-caused shutdown records its cause before anything is marked. */
  function BeginShutdown(w: World, cause: Option<ConnectionTerminal>): World {
    if cause.Some? then w.(conn := Record(w.conn, cause.value), cb := Marking(cause.value)) else w.(cb := Closing)
  }

  /** The callback's next action. */
  function Continue(w: World): World {
    match w.cb
    case Quiet => w
    case Finishing(fin) => if fin then PublishTerminal(w.(cb := Quiet), Fin) else w.(cb := Quiet)
    case Marking(reason) => PublishTerminal(w.(cb := Closing), ReceiveEvent.Connection(reason))
    case Closing =>
      w.(cb := Quiet, senderOpen := false, start := if w.start.Unresolved? then Cancelled else w.start)
  }

  function Do(w: World, l: Label): World {
    match l
    case Indicate(buffers, fin) => Indication(w, Flatten(buffers), fin)
    case CallbackRuns => Continue(w)
    case PeerEnds(t) => if w.poisoned then w else PublishTerminal(w, t)
    case StartCompletes(ok) =>
      if w.poisoned || !w.start.Unresolved? then w else w.(start := Resolved(ok))
    case ShutdownComplete(e) => if w.poisoned then w else BeginShutdown(w, ShutdownCause(e))
    case Panics =>
      PublishTerminal(w, ReceiveEvent.Internal(CallbackPanicked))
        .(poisoned := true, cb := Quiet, start := if w.start.Unresolved? then Resolved(false) else w.start)
    case ConnectionMoves(conn) => w.(conn := conn)
    case Polls => Poll(w)
    case Accounts => if w.reader.Popped? then Account(w, w.reader.bytes) else w
    case Completes =>
      if w.reader.Completing? then
        Tell(w.(log := w.log.(completes := w.log.completes + [w.reader.len])), Chunk(w.reader.bytes))
      else w
    case StopsSending => w.(closedLocally := true)
    case ReaderDropped => w.(readerAlive := false)
  }

  /** The state after a sequence of steps, or None when some step was not enabled. */
  function After(w: World, ls: seq<Label>): Option<World> {
    if ls == [] then Some(w)
    else
      var m := After(w, ls[..|ls| - 1]);
      var l := ls[|ls| - 1];
      if m.Some? && Enabled(m.value, l) then Some(Do(m.value, l)) else None
  }

  lemma Append(w0: World, ls: seq<Label>, w: World, l: Label)
    requires After(w0, ls) == Some(w) && Enabled(w, l)
    ensures After(w0, ls + [l]) == Some(Do(w, l))
  {
    assert (ls + [l])[..|ls|] == ls;
  }

  lemma Follow(w0: World, ls: seq<Label>, w: World, l: Label) returns (more: seq<Label>, v: World)
    requires After(w0, ls) == Some(w) && Enabled(w, l)
    ensures more == ls + [l] && v == Do(w, l) && After(w0, more) == Some(v)
  {
    Append(w0, ls, w, l);
    more, v := ls + [l], Do(w, l);
  }

  lemma LastStep(w: World, ls: seq<Label>)
    requires ls != [] && After(w, ls).Some?
    ensures var n := |ls| - 1;
      && After(w, ls[..n]).Some? && Enabled(After(w, ls[..n]).value, ls[n])
      && After(w, ls) == Some(Do(After(w, ls[..n]).value, ls[n]))
  {
  }

  lemma AppendAfter(w0: World, ls: seq<Label>, more: seq<Label>, w: World, l: Label)
    requires After(w0, ls + more) == Some(w) && Enabled(w, l)
    ensures After(w0, ls + (more + [l])) == Some(Do(w, l))
  {
    Append(w0, ls + more, w, l);
    assert ls + more + [l] == ls + (more + [l]);
  }

  lemma {:induction false} Concat(w0: World, ls: seq<Label>, w: World, more: seq<Label>, v: World)
    requires After(w0, ls) == Some(w) && After(w, more) == Some(v)
    ensures After(w0, ls + more) == Some(v)
    decreases |more|
  {
    if more == [] {
      assert ls + more == ls;
    } else {
      var front, l := more[..|more| - 1], more[|more| - 1];
      LastStep(w, more);
      Concat(w0, ls, w, front, After(w, front).value);
      AppendAfter(w0, ls, front, After(w, front).value, l);
      assert more == front + [l];
    }
  }

  // ---------------------------------------------------------------------- contents

  /** The bytes of the queued data events, in order. */
  function Content(q: seq<ReceiveEvent>): Bytes {
    if q == [] then [] else (if q[0].Data? then q[0].bytes else []) + Content(q[1..])
  }

  function DataCount(q: seq<ReceiveEvent>): nat {
    if q == [] then 0 else (if q[0].Data? then 1 else 0) + DataCount(q[1..])
  }

  lemma {:induction false} QueueAppend(q: seq<ReceiveEvent>, e: ReceiveEvent)
    ensures Content(q + [e]) == Content(q) + (if e.Data? then e.bytes else [])
    ensures DataCount(q + [e]) == DataCount(q) + (if e.Data? then 1 else 0)
  {
    if q == [] {
      assert [e][1..] == [];
    } else {
      QueueAppend(q[1..], e);
      assert (q + [e])[1..] == q[1..] + [e];
    }
  }

  function PoppedBytes(w: World): Bytes { if w.reader.Popped? then w.reader.bytes else [] }

  /** Bytes popped but not yet returned to h3. */
  function InHand(w: World): Bytes { if w.reader.Waiting? then [] else w.reader.bytes }

  // --------------------------------------------------------------------- invariant

  /** Accounting is exact while callback and drain race. */
  predicate InvAccount(w: World) {
    && w.caps.Valid()
    && w.st.buffered == |Content(w.queue)| + |PoppedBytes(w)|
    && w.st.units == DataCount(w.queue) + (if w.reader.Popped? then 1 else 0)
    && PendExact(w.caps, w.st)
    && (forall i :: 0 <= i < |w.queue| && w.queue[i].Data? ==> w.queue[i].bytes != [])
    && (!w.reader.Waiting? ==> w.reader.bytes != [])
  }

  /** Only the last queued event can be a terminal. */
  predicate InvOrder(w: World) {
    && (forall i :: 0 <= i < |w.queue| - 1 ==> w.queue[i].Data?)
    && (w.senderOpen ==> !w.terminalSent && w.stored.None?)
    && (w.queue != [] && !w.queue[|w.queue| - 1].Data? ==> !w.senderOpen && w.terminalSent)
    && (w.stored.Some? ==> w.queue == [] && !w.senderOpen && w.reader.Waiting?)
    && (w.stored.Some? && w.stored.value.Ended? ==> !w.stored.value.event.Data?)
  }

  /** Nothing is lost, duplicated or reordered. */
  predicate InvBytes(w: World) {
    && w.log.accepted == w.log.handed + InHand(w) + Content(w.queue)
    && (w.log.last == Some(EndOfStream) ==> w.stored == Some(Ended(Fin)))
  }

  /** Pauses and completions pair up when the native side honours PENDING. */
  predicate InvPause(w: World) {
    w.log.honoured ==>
      && w.log.pauses == w.log.completes + (if w.st.pendOutstanding then [w.st.pendingLen]
                                            else if w.reader.Completing? then [w.reader.len] else [])
      && !(w.st.pendOutstanding && w.reader.Completing?)
      && w.st.buffered < w.caps.maxBytes + w.log.lastTotal
      && w.st.units <= w.caps.maxUnits
  }

  predicate InvPeak(w: World) {
    && w.log.lastTotal <= w.log.largest
    && (w.log.honoured ==> w.st.peak < w.caps.maxBytes + w.log.largest && w.st.peakUnits <= w.caps.maxUnits)
  }

  predicate InvData(w: World) { InvAccount(w) && InvOrder(w) && InvBytes(w) && InvPause(w) && InvPeak(w) }

  /** Wherever a connection marker is, the shared slot holds a cause, and a stored one is
      the frozen one. */
  predicate InvCause(w: World) {
    && Sound(w.conn)
    && (w.cb.Marking? ==> w.conn.terminal.Some?)
    && (w.queue != [] && w.queue[|w.queue| - 1].Connection? ==> w.conn.terminal.Some?)
    && (w.stored.Some? && w.stored.value.Ended? && w.stored.value.event.Connection? ==>
        w.conn == ConnSlot(Some(w.stored.value.event.reason), true))
  }

  predicate Inv(w: World) { InvData(w) && InvCause(w) }

  lemma IndicationKeepsAccount(w: World, bytes: Bytes, fin: bool)
    requires InvAccount(w) && w.cb.Quiet?
    ensures InvAccount(Indication(w, bytes, fin))
  {
    QueueAppend(w.queue, Data(bytes));
    PendStaysExact(w.caps, w.st, |bytes|, bytes != [], bytes == [] || w.readerAlive);
  }

  lemma IndicationKeepsOrder(w: World, bytes: Bytes, fin: bool)
    requires InvOrder(w)
    ensures InvOrder(Indication(w, bytes, fin))
  {
  }

  lemma Regroup(a: Bytes, b: Bytes, c: Bytes, d: Bytes)
    ensures a + b + c + d == a + b + (c + d)
  {
  }

  lemma IndicationKeepsBytes(w: World, bytes: Bytes, fin: bool)
    requires InvBytes(w)
    ensures InvBytes(Indication(w, bytes, fin))
  {
    QueueAppend(w.queue, Data(bytes));
    Regroup(w.log.handed, InHand(w), Content(w.queue), bytes);
  }

  lemma IndicationKeepsPause(w: World, bytes: Bytes, fin: bool)
    requires InvAccount(w) && InvPause(w) && InvPeak(w)
    ensures InvPause(Indication(w, bytes, fin)) && InvPeak(Indication(w, bytes, fin))
  {
  }

  lemma TerminalKeeps(w: World, ev: ReceiveEvent)
    requires InvData(w) && !ev.Data?
    ensures InvData(PublishTerminal(w, ev))
  {
    QueueAppend(w.queue, ev);
  }

  lemma QueueHead(q: seq<ReceiveEvent>)
    requires q != []
    ensures Content(q) == (if q[0].Data? then q[0].bytes else []) + Content(q[1..])
    ensures DataCount(q) == (if q[0].Data? then 1 else 0) + DataCount(q[1..])
    ensures forall i :: 0 <= i < |q| - 1 ==> q[1..][i] == q[i + 1]
  {
  }

  lemma TakeDataKeepsAccount(w: World)
    requires InvAccount(w) && w.reader.Waiting? && w.queue != [] && w.queue[0].Data?
    ensures InvAccount(TakeEvent(w))
  {
    QueueHead(w.queue);
  }

  /** Taking a terminal leaves accounting and pauses alone. */
  lemma TakeTerminalFrame(w: World)
    requires w.queue != [] && !w.queue[0].Data?
    ensures var v := TakeEvent(w);
      && v.caps == w.caps && v.st == w.st && v.queue == w.queue[1..] && v.reader.Waiting?
      && v.log == w.log.(last := v.log.last)
  {
  }

  lemma TakeTerminalKeepsAccount(w: World)
    requires InvAccount(w) && w.reader.Waiting? && w.queue != [] && !w.queue[0].Data?
    ensures InvAccount(TakeEvent(w))
  {
    TakeTerminalFrame(w);
    QueueHead(w.queue);
  }

  lemma TakeKeepsAccount(w: World)
    requires InvAccount(w) && w.reader.Waiting? && w.queue != []
    ensures InvAccount(TakeEvent(w))
  {
    if w.queue[0].Data? {
      TakeDataKeepsAccount(w);
    } else {
      TakeTerminalKeepsAccount(w);
    }
  }

  lemma TakeDataKeepsBytes(w: World)
    requires InvBytes(w) && w.reader.Waiting? && w.queue != [] && w.queue[0].Data?
    ensures InvBytes(TakeEvent(w))
  {
    QueueHead(w.queue);
    assert w.log.handed + [] + Content(w.queue) == w.log.handed + w.queue[0].bytes + Content(w.queue[1..]);
  }

  lemma TakeTerminalKeepsBytes(w: World)
    requires InvOrder(w) && InvBytes(w) && w.reader.Waiting? && w.stored.None? && w.queue != [] && !w.queue[0].Data?
    ensures InvBytes(TakeEvent(w))
  {
    QueueHead(w.queue);
    TakeTerminalFrame(w);
    assert TakeEvent(w).log.last == Some(EndOfStream) ==> w.queue[0].Fin?;
  }

  lemma TakeKeepsBytes(w: World)
    requires InvOrder(w) && InvBytes(w) && w.reader.Waiting? && w.stored.None? && w.queue != []
    ensures InvBytes(TakeEvent(w))
  {
    if w.queue[0].Data? {
      TakeDataKeepsBytes(w);
    } else {
      TakeTerminalKeepsBytes(w);
    }
  }

  lemma TakeKeepsPause(w: World)
    requires InvPause(w) && InvPeak(w) && w.reader.Waiting? && w.queue != []
    ensures InvPause(TakeEvent(w)) && InvPeak(TakeEvent(w))
  {
    if !w.queue[0].Data? {
      TakeTerminalFrame(w);
    }
  }

  lemma TakeKeepsOrder(w: World)
    requires InvOrder(w) && w.reader.Waiting? && w.queue != []
    ensures InvOrder(TakeEvent(w))
  {
  }

  /** A poll that takes nothing changes at most the sticky terminal. */
  lemma IdlePollKeeps(w: World)
    requires InvData(w) && Enabled(w, Polls) && (w.closedLocally || w.stored.Some? || w.queue == [])
    ensures InvData(Poll(w))
  {
  }

  lemma PollKeeps(w: World)
    requires InvData(w) && Enabled(w, Polls)
    ensures InvData(Poll(w))
  {
    if w.closedLocally || w.stored.Some? || w.queue == [] {
      IdlePollKeeps(w);
    } else {
      TakeKeepsAccount(w);
      TakeKeepsOrder(w);
      TakeKeepsBytes(w);
      TakeKeepsPause(w);
    }
  }

  lemma AccountKeeps(w: World)
    requires InvAccount(w) && w.reader.Popped?
    ensures InvAccount(Account(w, w.reader.bytes))
  {
    PendStaysExact(w.caps, w.st, |w.reader.bytes|, true, true);
  }

  lemma AccountKeepsOrder(w: World)
    requires InvOrder(w) && w.reader.Popped?
    ensures InvOrder(Account(w, w.reader.bytes))
  {
  }

  lemma AccountKeepsBytes(w: World)
    requires InvBytes(w) && InvOrder(w) && w.reader.Popped?
    ensures InvBytes(Account(w, w.reader.bytes))
  {
    var b := w.reader.bytes;
    assert w.log.handed + b + Content(w.queue) == (w.log.handed + b) + [] + Content(w.queue);
  }

  lemma AccountKeepsPeak(w: World)
    requires InvPeak(w) && w.reader.Popped?
    ensures InvPeak(Account(w, w.reader.bytes))
  {
  }

  lemma AccountKeepsPause(w: World)
    requires InvPause(w) && w.reader.Popped?
    ensures InvPause(Account(w, w.reader.bytes))
  {
  }

  lemma CompleteKeeps(w: World)
    requires InvData(w) && w.reader.Completing?
    ensures InvData(Do(w, Completes))
  {
  }

  /** Flags around the queue may change, as long as the sender does not come back. */
  predicate SameContents(w: World, v: World) {
    && v.caps == w.caps && v.st == w.st && v.queue == w.queue && v.terminalSent == w.terminalSent
    && v.reader == w.reader && v.stored == w.stored && v.log == w.log && (v.senderOpen ==> w.senderOpen)
  }

  lemma SameContentsKeeps(w: World, v: World)
    requires InvData(w) && SameContents(w, v)
    ensures InvData(v)
  {
  }

  /** Steps of the callback other than an indication, and of the rest of the connection. */
  predicate OfTerminal(l: Label) {
    l.CallbackRuns? || l.PeerEnds? || l.StartCompletes? || l.ShutdownComplete? || l.Panics? || l.ConnectionMoves?
  }

  /** The terminal a running callback publishes next. */
  function Owed(cb: Callback): Option<ReceiveEvent> {
    match cb
    case Finishing(fin) => if fin then Some(Fin) else None
    case Marking(reason) => Some(ReceiveEvent.Connection(reason))
    case _ => None
  }

  /** The terminal that such a step publishes. */
  function TerminalOf(w: World, l: Label): Option<ReceiveEvent> {
    match l
    case CallbackRuns => Owed(w.cb)
    case PeerEnds(t) => if w.poisoned then None else Some(t)
    case Panics => Some(ReceiveEvent.Internal(CallbackPanicked))
    case _ => None
  }

  function Published(w: World, t: Option<ReceiveEvent>): World {
    if t.Some? then PublishTerminal(w, t.value) else w
  }

  lemma ContinueIs(w: World)
    ensures SameContents(Published(w, Owed(w.cb)), Continue(w))
  {
    match w.cb {
      case Finishing(_) => PublishIgnoresCallback(w, Quiet, Fin);
      case Marking(reason) => PublishIgnoresCallback(w, Closing, ReceiveEvent.Connection(reason));
      case _ =>
    }
  }

  lemma PublishIgnoresCallback(w: World, cb: Callback, ev: ReceiveEvent)
    ensures PublishTerminal(w.(cb := cb), ev) == PublishTerminal(w, ev).(cb := cb)
  {
  }

  lemma TerminalStepIs(w: World, l: Label)
    requires OfTerminal(l)
    ensures SameContents(Published(w, TerminalOf(w, l)), Do(w, l))
  {
    if l.CallbackRuns? {
      ContinueIs(w);
    }
  }

  lemma TerminalStepKeeps(w: World, l: Label)
    requires InvData(w) && Enabled(w, l) && OfTerminal(l)
    ensures InvData(Do(w, l))
  {
    var t := TerminalOf(w, l);
    if t.Some? {
      TerminalKeeps(w, t.value);
    }
    TerminalStepIs(w, l);
    SameContentsKeeps(Published(w, t), Do(w, l));
  }

  lemma IndicationKeeps(w: World, bytes: Bytes, fin: bool)
    requires InvData(w) && w.cb.Quiet?
    ensures InvData(Indication(w, bytes, fin))
  {
    IndicationKeepsAccount(w, bytes, fin);
    IndicationKeepsOrder(w, bytes, fin);
    IndicationKeepsBytes(w, bytes, fin);
    IndicationKeepsPause(w, bytes, fin);
  }

  lemma ReaderKeeps(w: World, l: Label)
    requires InvData(w) && Enabled(w, l) && (l.Polls? || l.Accounts? || l.Completes?)
    ensures InvData(Do(w, l))
  {
    if l.Polls? {
      PollKeeps(w);
    } else if l.Accounts? {
      AccountKeeps(w);
      AccountKeepsOrder(w);
      AccountKeepsBytes(w);
      AccountKeepsPause(w);
      AccountKeepsPeak(w);
    } else {
      CompleteKeeps(w);
    }
  }

  lemma DataStepKeeps(w: World, l: Label)
    requires InvData(w) && Enabled(w, l)
    ensures InvData(Do(w, l))
  {
    match l {
      case Indicate(buffers, fin) => IndicationKeeps(w, Flatten(buffers), fin);
      case StopsSending => SameContentsKeeps(w, w.(closedLocally := true));
      case ReaderDropped => SameContentsKeeps(w, w.(readerAlive := false));
      case Polls => ReaderKeeps(w, l);
      case Accounts => ReaderKeeps(w, l);
      case Completes => ReaderKeeps(w, l);
      case _ => TerminalStepKeeps(w, l);
    }
  }

  lemma TakeKeepsCause(w: World)
    requires InvOrder(w) && InvCause(w) && w.queue != []
    ensures InvCause(TakeEvent(w))
  {
  }

  lemma PollKeepsCause(w: World)
    requires InvOrder(w) && InvCause(w)
    ensures InvCause(Poll(w))
  {
    if !w.closedLocally && w.stored.None? && w.queue != [] {
      TakeKeepsCause(w);
    }
  }

  lemma IndicationKeepsCause(w: World, bytes: Bytes, fin: bool)
    requires InvCause(w)
    ensures InvCause(Indication(w, bytes, fin))
  {
  }

  lemma PublishKeepsCause(w: World, ev: ReceiveEvent)
    requires InvCause(w) && (ev.Connection? ==> w.conn.terminal.Some?)
    ensures InvCause(PublishTerminal(w, ev))
  {
  }

  lemma CallbackAloneKeepsCause(w: World, cb: Callback)
    requires InvCause(w) && !cb.Marking?
    ensures InvCause(w.(cb := cb))
  {
  }

  lemma MarkingKeepsCause(w: World)
    requires InvCause(w) && w.cb.Marking?
    ensures InvCause(Continue(w))
  {
    CallbackAloneKeepsCause(w, Closing);
    PublishKeepsCause(w.(cb := Closing), ReceiveEvent.Connection(w.cb.reason));
  }

  lemma FinishingKeepsCause(w: World)
    requires InvCause(w) && w.cb.Finishing?
    ensures InvCause(Continue(w))
  {
    CallbackAloneKeepsCause(w, Quiet);
    PublishKeepsCause(w.(cb := Quiet), Fin);
  }

  lemma ContinueKeepsCause(w: World)
    requires InvCause(w)
    ensures InvCause(Continue(w))
  {
    if w.cb.Marking? {
      MarkingKeepsCause(w);
    } else if w.cb.Finishing? {
      FinishingKeepsCause(w);
    }
  }

  lemma AccountKeepsCause(w: World, bytes: Bytes)
    requires InvCause(w)
    ensures InvCause(Account(w, bytes))
  {
  }

  lemma ReaderKeepsCause(w: World, l: Label)
    requires InvCause(w) && (l.Accounts? || l.Completes? || l.StopsSending? || l.ReaderDropped?)
    ensures InvCause(Do(w, l))
  {
    if l.Accounts? && w.reader.Popped? {
      AccountKeepsCause(w, w.reader.bytes);
    }
  }

  lemma OthersKeepCause(w: World, l: Label)
    requires InvCause(w) && Enabled(w, l) && OfTerminal(l) && !l.CallbackRuns?
    ensures InvCause(Do(w, l))
  {
  }

  lemma CauseStepKeeps(w: World, l: Label)
    requires InvOrder(w) && InvCause(w) && Enabled(w, l)
    ensures InvCause(Do(w, l))
  {
    match l {
      case Polls => PollKeepsCause(w);
      case Indicate(buffers, fin) => IndicationKeepsCause(w, Flatten(buffers), fin);
      case CallbackRuns => ContinueKeepsCause(w);
      case _ =>
        if OfTerminal(l) {
          OthersKeepCause(w, l);
        } else {
          ReaderKeepsCause(w, l);
        }
    }
  }

  lemma CapsStay(w: World, l: Label)
    ensures Do(w, l).caps == w.caps
  {
    match l {
      case Indicate(buffers, fin) => assert Indication(w, Flatten(buffers), fin).caps == w.caps;
      case Polls => assert Poll(w).caps == w.caps;
      case Accounts => assert w.reader.Popped? ==> Account(w, w.reader.bytes).caps == w.caps;
      case _ =>
        if OfTerminal(l) {
          TerminalStepIs(w, l);
        }
    }
  }

  lemma StepKeeps(w: World, l: Label)
    requires Inv(w) && Enabled(w, l)
    ensures Inv(Do(w, l)) && Do(w, l).caps == w.caps
  {
    DataStepKeeps(w, l);
    CauseStepKeeps(w, l);
    CapsStay(w, l);
  }

  lemma InitialInv(caps: Caps)
    requires caps.Valid()
    ensures Inv(Init(caps))
  {
  }

  lemma {:induction false} RunsKeep(w: World, ls: seq<Label>)
    requires Inv(w) && After(w, ls).Some?
    ensures Inv(After(w, ls).value) && After(w, ls).value.caps == w.caps
    decreases |ls|
  {
    if ls != [] {
      RunsKeep(w, ls[..|ls| - 1]);
      StepKeeps(After(w, ls[..|ls| - 1]).value, ls[|ls| - 1]);
    }
  }

  lemma RunKeeps(caps: Caps, ls: seq<Label>)
    requires caps.Valid() && After(Init(caps), ls).Some?
    ensures Inv(After(Init(caps), ls).value) && After(Init(caps), ls).value.caps == caps
  {
    InitialInv(caps);
    RunsKeep(Init(caps), ls);
  }

  ghost predicate Reachable(w: World) {
    exists caps: Caps, ls: seq<Label> :: caps.Valid() && After(Init(caps), ls) == Some(w)
  }

  lemma ReachableInv(w: World)
    requires Reachable(w)
    ensures Inv(w)
  {
    var caps: Caps, ls :| caps.Valid() && After(Init(caps), ls) == Some(w);
    RunKeeps(caps, ls);
  }

  lemma Extend(w: World, l: Label) returns (v: World)
    requires Reachable(w) && Enabled(w, l)
    ensures v == Do(w, l) && Reachable(v)
  {
    var caps: Caps, ls :| caps.Valid() && After(Init(caps), ls) == Some(w);
    v := Do(w, l);
    Append(Init(caps), ls, w, l);
  }

  lemma FreshIsReachable(caps: Caps)
    requires caps.Valid()
    ensures Reachable(Init(caps))
  {
    assert After(Init(caps), []) == Some(Init(caps));
  }
}
