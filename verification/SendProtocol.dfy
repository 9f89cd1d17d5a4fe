/** One stream's send half as a state machine: the serial h3 caller, the stream
    callback and the rest of the connection interleave at every lock, channel
    operation and native downcall. */
module SendProtocol {
  import opened Options
  import opened Terminals
  import opened SendReducer

  // ------------------------------------------------------------------ the caller

  datatype Call = SendDataCall(payload: SendPayload) | PollReadyCall | PollFinishCall | ResetCall(code: nat)

  /** The part of a reducer input that is known before the slots are read. */
  datatype Prep =
    | Requested(payload: SendPayload)
    | Submitted(result: NativeResult)
    | Ready(poll: SendPoll)
    | Finish(poll: SendPoll)
    | ResetAsked(code: nat)
    | GracefulDone(result: NativeResult)
    | ResetDone(code: nat, result: NativeResult)

  function Fill(p: Prep, terminal: SendSlot): SendInput {
    match p
    case Requested(payload) => SendRequested(payload, terminal)
    case Submitted(result) => SendSubmitted(result, terminal)
    case Ready(poll) => PollReadyInput(poll, terminal)
    case Finish(poll) => PollFinishInput(poll, terminal)
    case ResetAsked(code) => ResetInput(code, terminal)
    case GracefulDone(result) => GracefulSubmitted(result, terminal)
    case ResetDone(code, result) => ResetSubmitted(code, result, terminal)
  }

  /** Where the frontend stands between two atomic actions. */
  datatype Pc =
    | Idle
    | GuardLoad
    | GuardPeek(loaded: SendSlot)
    | ReadChannel
    | LoadSlot(prep: Prep)
    | PeekConn(prep: Prep, loaded: SendSlot)
    | Run(cmd: SendCommand)
  {
    /** The channel read that the next reducer input will carry, if any. */
    function Poll(): Option<SendPoll> {
      if !(LoadSlot? || PeekConn?) then None
      else if prep.Ready? || prep.Finish? then Some(prep.poll)
      else None
    }
    predicate Holds(ev: SendEvent) { Poll() == Some(Event(ev)) }
    function HeldCompletes(): nat { if Holds(Complete(true)) || Holds(Complete(false)) then 1 else 0 }
    predicate SendAccepted() { (LoadSlot? || PeekConn?) && prep == Submitted(None) }
  }

  datatype Outcome =
    | Parked
    | BecameReady
    | Finished
    | Sent
    | Refused(error: SendOperationError)
    | Error(cause: SendTerminal)
    | ResetReturned
    | Unexpected

  // -------------------------------------------------------- callback and native

  datatype NativeEvent =
    | SendCompleteEv(buffer: nat, cancelled: bool)
    | SendCompleteNullEv(cancelled: bool)
    | PeerReceiveAbortedEv(code: nat)
    | SendShutdownCompleteEv(graceful: bool)
    | ShutdownCompleteEv(shutdown: Shutdown)

  /** Where the stream callback stands between two atomic actions. */
  datatype Callback =
    | Quiet
    | Reclaiming(buffer: nat, cancelled: bool)
    | Pushing(ev: SendEvent)
    | Publishing(cause: SendTerminal)
    | Recording(reason: ConnectionTerminal)
    | MarkingReceive(reason: ConnectionTerminal)
    | MarkingSend(reason: ConnectionTerminal)
    | Closing
    | RecoverPublish
    | RecoverWake
    | RecoverClose
    | RecoverPoison
  {
    predicate Recovering() { RecoverPublish? || RecoverWake? || RecoverClose? || RecoverPoison? }
    /** The callback has an event to push or a channel to close before it returns. */
    predicate WillSignal() {
      this == Pushing(TerminalWake) || Closing? || RecoverPublish? || RecoverWake? || RecoverClose?
    }
    function Completes(): nat { if Reclaiming? || (Pushing? && ev.Complete?) then 1 else 0 }
  }

  datatype Verb = VSend(ok: bool) | VGraceful(ok: bool) | VReset(ok: bool)

  /** Owned send buffers by owner. */
  datatype Buffers = Buffers(
    next: nat,
    outstanding: set<nat>,
    freedOnFailure: set<nat>,
    freedOnComplete: set<nat>,
    leaked: set<nat>)

  /** The ordered send-event channel with its waker. */
  datatype Channel = Channel(queue: seq<SendEvent>, closed: bool, armed: bool, woken: bool)

  /** Snapshot taken when a frontend call starts. */
  datatype Entry = Entry(conn: Option<ConnectionTerminal>, slot: SendSlot, closed: bool, verbs: nat)

  /** Bookkeeping of what happened, read by the properties only. */
  datatype History = History(
    verbs: seq<Verb>,
    accepted: nat,
    completedOk: nat,
    completedCancelled: nat,
    lost: nat,
    finishReported: bool,
    canSend: bool,
    disciplined: bool,
    steps: nat,
    clean: bool,
    failedClean: bool,
    read: Option<SendPoll>,
    finOverMarker: bool,
    abortAt: Option<nat>,
    entry: Entry,
    last: Option<Outcome>)

  datatype Stream = Stream(
    flags: SendFlags,
    call: Call,
    pc: Pc,
    slot: SendSlot,
    chan: Channel,
    cb: Callback,
    poisoned: bool,
    bufs: Buffers,
    h: History)

  datatype World = World(conn: ConnSlot, s: Stream)

  const FRESH_STREAM: Stream :=
    Stream(FRESH, PollReadyCall, Idle, None, Channel([], false, false, false), Quiet, false,
           Buffers(0, {}, {}, {}, {}),
           History([], 0, 0, 0, 0, false, true, true, 0, false, false, None, false, None,
                   Entry(None, None, false, 0), None))

  predicate IsInitial(w: World) { Sound(w.conn) && w.s == FRESH_STREAM }

  // ------------------------------------------------------------- atomic actions

  /** The non-freezing read of the current send winner, connection cause included. */
  function Resolve(loaded: SendSlot, conn: Option<ConnectionTerminal>): SendSlot {
    match loaded
    case Some(Connection(fallback)) => Some(Connection(if conn.Some? then conn.value else fallback))
    case Some(ProvisionalAbort) => if conn.Some? then Some(Connection(conn.value)) else loaded
    case None => if conn.Some? then Some(Connection(conn.value)) else None
    case _ => loaded
  }

  function Push(s: Stream, ev: SendEvent): Stream {
    if s.chan.closed then
      if ev.Complete? then s.(h := s.h.(lost := s.h.lost + 1)) else s
    else
      s.(chan := Channel(s.chan.queue + [ev], false, false, s.chan.woken || s.chan.armed))
  }

  function Close(s: Stream): Stream {
    s.(chan := Channel(s.chan.queue, true, false, s.chan.woken || s.chan.armed))
  }

  function Begin(conn: ConnSlot, s: Stream, c: Call): Stream {
    var pc := match c
      case SendDataCall(payload) => LoadSlot(Requested(payload))
      case PollReadyCall => if s.flags.finishStarted then GuardLoad else ReadChannel
      case PollFinishCall => ReadChannel
      case ResetCall(code) => LoadSlot(ResetAsked(Clamp(code)));
    s.(call := c, pc := pc,
       h := s.h.(steps := 0,
                 disciplined := s.h.disciplined && (c.SendDataCall? ==> s.h.canSend),
                 canSend := s.h.canSend && !c.SendDataCall?,
                 read := None,
                 entry := Entry(conn.terminal, s.slot, s.chan.closed, |s.h.verbs|)))
  }

  function Return(s: Stream, o: Outcome): Stream {
    s.(pc := Idle,
       h := s.h.(last := Some(o), canSend := s.h.canSend || (s.call.PollReadyCall? && o.BecameReady?)))
  }

  /** Neither slot holds a cause: the moment a native failure may become the cause. */
  predicate NoCause(conn: ConnSlot, s: Stream) { conn.terminal.None? && !Authoritative(s.slot) }

  function PollChannel(conn: ConnSlot, s: Stream): Stream {
    var poll := if s.chan.queue != [] then Event(s.chan.queue[0])
                else if s.chan.closed then ChannelClosed else ChannelPending;
    var prep := if s.call.PollReadyCall? then Ready(poll) else Finish(poll);
    s.(pc := LoadSlot(prep),
       chan := if s.chan.queue != [] then s.chan.(queue := s.chan.queue[1..])
               else if s.chan.closed then s.chan
               else Channel([], false, true, false),
       h := s.h.(clean := NoCause(conn, s), read := Some(poll)))
  }

  /** The poll that decides on FIN read the provisional marker. */
  predicate SeesMarker(input: SendInput) { input.PollFinishInput? && ProvisionalPending(input.terminal) }

  function Reduce(s: Stream, input: SendInput): Stream {
    var (flags, cmd) := Transition(s.flags, input);
    Took(s, input, flags, cmd)
  }

  /** The frontend after a reducer step that yielded these flags and this command. */
  function Took(s: Stream, input: SendInput, flags: SendFlags, cmd: SendCommand): Stream {
    s.(flags := flags, pc := Run(cmd),
       h := s.h.(steps := s.h.steps + 1,
                 finOverMarker := if cmd.SubmitGraceful? then SeesMarker(input) else s.h.finOverMarker))
  }

  function PublishLocal(s: Stream, candidate: SendTerminal): Stream {
    var slot := Publish(s.slot, candidate);
    s.(slot := slot,
       h := s.h.(failedClean := if slot != s.slot && candidate.Failed? then s.h.clean else s.h.failedClean))
  }

  function DoSubmitSend(conn: ConnSlot, s: Stream, result: NativeResult): Stream {
    var id := s.bufs.next;
    var ok := result.None?;
    s.(pc := LoadSlot(Submitted(result)),
       bufs := if ok then s.bufs.(next := id + 1, outstanding := s.bufs.outstanding + {id})
               else s.bufs.(next := id + 1, freedOnFailure := s.bufs.freedOnFailure + {id}),
       h := s.h.(verbs := s.h.verbs + [VSend(ok)],
                 accepted := if ok then s.h.accepted + 1 else s.h.accepted,
                 clean := NoCause(conn, s)))
  }

  function DoSubmitShutdown(conn: ConnSlot, s: Stream, prep: Prep, verb: Verb): Stream {
    s.(pc := LoadSlot(prep), h := s.h.(verbs := s.h.verbs + [verb], clean := NoCause(conn, s)))
  }

  /** Delivery of an error: a connection cause is committed on the way out. */
  function Deliver(w: World, cause: SendTerminal): World {
    match cause
    case Connection(fallback) =>
      var reason := if w.conn.terminal.Some? then w.conn.terminal.value else fallback;
      World(Commit(w.conn), Return(w.s, Error(Connection(reason))))
    case _ => w.(s := Return(w.s, Error(cause)))
  }

  /** What a frontend tells its caller for a command that ends the call; a command
      its match does not name falls into its catch-all arm. */
  function Answer(call: Call, cmd: SendCommand): Outcome {
    match call
    case SendDataCall(_) =>
      if cmd.ReturnSent? then Sent else if cmd.ReturnImmediateError? then Refused(cmd.error) else Unexpected
    case PollReadyCall => if cmd.ReturnPending? then Parked else if cmd.ReturnReady? then BecameReady else Unexpected
    case PollFinishCall => if cmd.ReturnPending? then Parked else if cmd.ReturnFinished? then Finished else Unexpected
    case ResetCall(_) => if cmd.NoOp? then ResetReturned else Unexpected
  }

  /** One pass of a frontend's command match, for the frontend that is running. */
  function Execute(w: World, cmd: SendCommand, result: NativeResult): World {
    var s := w.s;
    if cmd.PublishTerminal? then
      var p := PublishLocal(s, cmd.candidate);
      w.(s := Reduce(p, TerminalPublished(p.slot.value, cmd.continuation)))
    else if cmd.ReturnError? && !s.call.ResetCall? then Deliver(w, cmd.cause)
    else if (cmd.RepollReady? && s.call.PollReadyCall?) || (cmd.RepollFinish? && s.call.PollFinishCall?) then
      w.(s := s.(pc := ReadChannel))
    else if cmd.SubmitSend? && s.call.SendDataCall? then w.(s := DoSubmitSend(w.conn, s, result))
    else if cmd.SubmitGraceful? && s.call.PollFinishCall? then
      w.(s := DoSubmitShutdown(w.conn, s, GracefulDone(result), VGraceful(result.None?)))
    else if cmd.SubmitReset? && s.call.ResetCall? then
      w.(s := DoSubmitShutdown(w.conn, s, ResetDone(cmd.code, result), VReset(result.None?)))
    else w.(s := Return(s, Answer(s.call, cmd)))
  }

  /** The frontend's next atomic action; `result` is what a native downcall returns. */
  function FrontStep(w: World, result: NativeResult): World {
    var s := w.s;
    match s.pc
    case Idle => w
    case GuardLoad => w.(s := s.(pc := GuardPeek(s.slot)))
    case GuardPeek(loaded) =>
      var t := Resolve(loaded, w.conn.terminal);
      w.(s := s.(pc := Run(ReturnError(if t.Some? then t.value else SendTerminal.Internal(PollReadyAfterFinish)))))
    case ReadChannel => w.(s := PollChannel(w.conn, s))
    case LoadSlot(prep) => w.(s := s.(pc := PeekConn(prep, s.slot)))
    case PeekConn(prep, loaded) => w.(s := Reduce(s, Fill(prep, Resolve(loaded, w.conn.terminal))))
    case Run(cmd) => Execute(w, cmd, result)
  }

  /** What the callback sets out to do with a native event. */
  function CallbackBegin(s: Stream, ev: NativeEvent): Stream {
    match ev
    case SendCompleteEv(id, cancelled) =>
      var t := s.(bufs := s.bufs.(outstanding := s.bufs.outstanding - {id}),
                  h := if cancelled then s.h.(completedCancelled := s.h.completedCancelled + 1)
                       else s.h.(completedOk := s.h.completedOk + 1));
      if s.poisoned then t.(bufs := t.bufs.(leaked := t.bufs.leaked + {id}), h := t.h.(lost := t.h.lost + 1))
      else t.(cb := Reclaiming(id, cancelled))
    case SendCompleteNullEv(_) =>
      if s.poisoned then s else s.(cb := Publishing(SendTerminal.Internal(MissingClientContext)))
    case PeerReceiveAbortedEv(code) => if s.poisoned then s else s.(cb := Publishing(Stopped(code)))
    case SendShutdownCompleteEv(graceful) =>
      var t := s.(h := s.h.(finishReported := s.h.finishReported || graceful));
      if s.poisoned then t else t.(cb := Pushing(FinishComplete(graceful)))
    case ShutdownCompleteEv(e) =>
      if s.poisoned then s else s.(cb := if e.connection then Recording(ClassifyConnShutdown(e)) else Closing)
  }

  function CallbackStep(w: World): World {
    var s := w.s;
    match s.cb
    case Quiet => w
    case Reclaiming(id, cancelled) =>
      w.(s := s.(bufs := s.bufs.(freedOnComplete := s.bufs.freedOnComplete + {id}), cb := Pushing(Complete(cancelled))))
    case Pushing(ev) => w.(s := Push(s, ev).(cb := Quiet))
    case Publishing(cause) => w.(s := s.(slot := Publish(s.slot, cause), cb := Pushing(TerminalWake)))
    case Recording(reason) => World(Record(w.conn, reason), s.(cb := MarkingReceive(reason)))
    case MarkingReceive(reason) => w.(s := s.(cb := MarkingSend(reason)))
    case MarkingSend(reason) => w.(s := s.(slot := Publish(s.slot, Connection(reason)), cb := Closing))
    case Closing => w.(s := Close(s).(cb := Quiet))
    case RecoverPublish =>
      w.(s := s.(slot := Publish(s.slot, SendTerminal.Internal(CallbackPanicked)), cb := RecoverWake))
    case RecoverWake => w.(s := Push(s, TerminalWake).(cb := RecoverClose))
    case RecoverClose => w.(s := Close(s).(cb := RecoverPoison))
    case RecoverPoison => w.(s := s.(poisoned := true, cb := Quiet))
  }

  /** A panic in the callback body; the guard's recovery takes over and aborts the
      stream. A buffer not yet reclaimed leaks, and a completion not yet pushed is
      never delivered. */
  function CallbackPanic(s: Stream): Stream {
    s.(bufs := if s.cb.Reclaiming? then s.bufs.(leaked := s.bufs.leaked + {s.cb.buffer}) else s.bufs,
       h := s.h.(lost := s.h.lost + s.cb.Completes(), abortAt := Some(|s.h.verbs|)),
       cb := RecoverPublish)
  }

  datatype Label =
    | Invoke(call: Call)
    | Front(result: NativeResult)
    | Native(event: NativeEvent)
    | CallbackRuns
    | CallbackPanics
    | ConnectionMoves(conn: ConnSlot)

  /** The native side completes each accepted buffer at most once, reports a graceful
      finish only for an accepted FIN, and runs the callbacks of one stream serially;
      the caller serialises its calls. The rest of the connection only ever records
      causes and freezes a recorded one. */
  predicate Enabled(w: World, l: Label) {
    match l
    case Invoke(_) => w.s.pc.Idle?
    case Front(_) => !w.s.pc.Idle?
    case Native(ev) =>
      && w.s.cb.Quiet?
      && (ev.SendCompleteEv? ==> ev.buffer in w.s.bufs.outstanding)
      && (ev.SendShutdownCompleteEv? && ev.graceful ==> VGraceful(true) in w.s.h.verbs)
    case CallbackRuns => !w.s.cb.Quiet?
    case CallbackPanics => !w.s.poisoned && !w.s.cb.Recovering()
    case ConnectionMoves(conn) => Leads(w.conn, conn) && Sound(conn)
  }

  function Do(w: World, l: Label): World {
    match l
    case Invoke(c) => w.(s := Begin(w.conn, w.s, c))
    case Front(result) => FrontStep(w, result)
    case Native(ev) => w.(s := CallbackBegin(w.s, ev))
    case CallbackRuns => CallbackStep(w)
    case CallbackPanics => w.(s := CallbackPanic(w.s))
    case ConnectionMoves(conn) => w.(conn := conn)
  }

  /** The state after a sequence of steps, or None when some step was not enabled. */
  function After(w: World, ls: seq<Label>): Option<World> {
    if ls == [] then Some(w)
    else
      var m := After(w, ls[..|ls| - 1]);
      var l := ls[|ls| - 1];
      if m.Some? && Enabled(m.value, l) then Some(Do(m.value, l)) else None
  }

  lemma Append(w0: World, ls: seq<Label>, w: World, l: Label)
    requires After(w0, ls) == Some(w) && Enabled(w, l)
    ensures After(w0, ls + [l]) == Some(Do(w, l))
  {
    assert (ls + [l])[..|ls|] == ls;
  }

  lemma LastStep(w: World, ls: seq<Label>)
    requires ls != [] && After(w, ls).Some?
    ensures var n := |ls| - 1;
      && After(w, ls[..n]).Some? && Enabled(After(w, ls[..n]).value, ls[n])
      && After(w, ls) == Some(Do(After(w, ls[..n]).value, ls[n]))
  {
  }

  lemma AppendAfter(w0: World, ls: seq<Label>, more: seq<Label>, w: World, l: Label)
    requires After(w0, ls + more) == Some(w) && Enabled(w, l)
    ensures After(w0, ls + (more + [l])) == Some(Do(w, l))
  {
    Append(w0, ls + more, w, l);
    assert ls + more + [l] == ls + (more + [l]);
  }

  lemma {:induction false} Concat(w0: World, ls: seq<Label>, w: World, more: seq<Label>, v: World)
    requires After(w0, ls) == Some(w) && After(w, more) == Some(v)
    ensures After(w0, ls + more) == Some(v)
    decreases |more|
  {
    if more == [] {
      assert ls + more == ls;
    } else {
      var front, l := more[..|more| - 1], more[|more| - 1];
      LastStep(w, more);
      Concat(w0, ls, w, front, After(w, front).value);
      AppendAfter(w0, ls, front, After(w, front).value, l);
      assert more == front + [l];
    }
  }

  ghost predicate Reachable(w: World) {
    exists w0: World, ls: seq<Label> :: IsInitial(w0) && After(w0, ls) == Some(w)
  }

  /** What is reached stays reachable. */
  lemma Extend(w: World, l: Label) returns (v: World)
    requires Reachable(w) && Enabled(w, l)
    ensures v == Do(w, l) && Reachable(v)
  {
    var w0, ls :| IsInitial(w0) && After(w0, ls) == Some(w);
    v := Do(w, l);
    Append(w0, ls, w, l);
  }

  lemma ReachableGoesOn(w: World, ls: seq<Label>)
    requires Reachable(w) && After(w, ls).Some?
    ensures Reachable(After(w, ls).value)
  {
    var w0, first :| IsInitial(w0) && After(w0, first) == Some(w);
    Concat(w0, first, w, ls, After(w, ls).value);
  }
}
