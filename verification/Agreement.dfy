/** One connection: any number of streams with both their halves, the accept and open
    frontends and the connection callback share one terminal slot. Every frontend that
    hands a connection cause to h3 hands out the same one. */
module Agreement {
  import opened Options
  import opened Terminals
  import opened ReceiveBudget
  import opened SendReducer
  import opened SendProtocol
  import opened SendInvariant
  import opened SendSteps
  import opened SendNotes
  import Receiving = ReceiveProtocol
  import Callbacks = Ownership

  /** A stream: its send half, its receive half, and the shutdown that its callback was
      last told of. The receive half reads the connection's slot, not a copy of its own. */
  datatype Both = Both(send: Stream, recv: Receiving.World, shutdown: Shutdown)

  datatype Frontend = Accept | Open | Receive(stream: nat) | Send(stream: nat)

  datatype Note = Recorded(cause: ConnectionTerminal) | Delivered(who: Frontend, cause: ConnectionTerminal)

  /** `site` is the connection's callback context with its invocations; `uni` and `bidi`
      are the invocations whose stream was delivered and not accepted yet. */
  datatype Net = Net(
    conn: ConnSlot,
    streams: map<nat, Both>,
    site: Callbacks.World,
    uni: seq<nat>,
    bidi: seq<nat>,
    log: seq<Note>)

  const UNCONNECTED: Net := Net(EMPTY_CONN, map[], Callbacks.Init(Callbacks.ConnectionSite), [], [], [])

  /** The receive half and the callback context as they see the shared slot. */
  function Half(conn: ConnSlot, b: Both): Receiving.World { b.recv.(conn := conn) }

  function Site(conn: ConnSlot, site: Callbacks.World): Callbacks.World {
    site.(ctx := site.ctx.(terminal := conn))
  }

  datatype Move =
    | NewStream(id: nat, caps: Caps)
    | StreamMoves(id: nat, l: Label)
    | ReceiveMoves(id: nat, r: Receiving.Label)
    | SiteMoves(c: Callbacks.Label)
    | AcceptPops(oneWay: bool)
    | CauseRecorded(cause: ConnectionTerminal)
    | AcceptFailsFast
    | CauseAsked(who: Frontend)

  /** The callbacks of one stream are serial, whichever half they are about. */
  predicate Can(n: Net, m: Move) {
    match m
    case NewStream(id, caps) => id !in n.streams && caps.Valid()
    case StreamMoves(id, l) =>
      && id in n.streams && !l.ConnectionMoves? && Enabled(World(n.conn, n.streams[id].send), l)
      && (l.Native? ==> n.streams[id].recv.cb.Quiet?)
    case ReceiveMoves(id, r) =>
      id in n.streams && Receiving.Enabled(Half(n.conn, n.streams[id]), r) && Alone(n.streams[id], r)
    case SiteMoves(c) => !c.CauseMoves? && Callbacks.Enabled(Site(n.conn, n.site), c)
    case AcceptPops(oneWay) => Queue(n, oneWay) != []
    case CauseRecorded(_) => true
    case AcceptFailsFast => true
    case CauseAsked(who) => who.Accept? || who.Open?
  }

  /** Steps of the receive half that the send half has no part in. */
  predicate Alone(b: Both, r: Receiving.Label) {
    match r
    case Indicate(_, _) => b.send.cb.Quiet?
    case PeerEnds(_) => b.send.cb.Quiet?
    case StartCompletes(_) => b.send.cb.Quiet?
    case CallbackRuns => b.send.cb.Quiet? && b.recv.cb.Finishing?
    case ShutdownComplete(_) => false
    case Panics => false
    case ConnectionMoves(_) => false
    case _ => true
  }

  /** The receive half's part in a step of the callback they share: a shutdown is recorded,
      marked and closed on both halves, and recover ends with the receive terminal. */
  function Joint(b: Both, l: Label): Option<Receiving.Label> {
    if l.Native? && l.event.ShutdownCompleteEv? && !l.event.shutdown.connection then
      Some(Receiving.ShutdownComplete(l.event.shutdown))
    else if !l.CallbackRuns? then None
    else match b.send.cb
      case Recording(_) => Some(Receiving.ShutdownComplete(b.shutdown))
      case MarkingReceive(_) => Some(Receiving.CallbackRuns)
      case Closing => Some(Receiving.CallbackRuns)
      case RecoverPoison => Some(Receiving.Panics)
      case _ => None
  }

  function JointDo(conn: ConnSlot, b: Both, l: Label): Receiving.World {
    var r := Joint(b, l);
    if r.Some? then Receiving.Do(Half(conn, b), r.value) else b.recv
  }

  function LastShutdown(b: Both, l: Label): Shutdown {
    if l.Native? && l.event.ShutdownCompleteEv? then l.event.shutdown else b.shutdown
  }

  function Deliver(n: Net, who: Frontend, cause: ConnectionTerminal): Net {
    n.(log := n.log + [Delivered(who, cause)])
  }

  /** A step of one stream: the shared slot moves with it, and what matters is noted. */
  function StreamDoes(n: Net, id: nat, l: Label): Net
    requires id in n.streams
  {
    var b := n.streams[id];
    var w := World(n.conn, b.send);
    var v := Do(w, l);
    var log := if l.CallbackRuns? && w.s.cb.Recording? then n.log + [Recorded(w.s.cb.reason)]
               else if Delivers(w, l) && v.s.h.last.Some? && v.s.h.last.value.Error?
                       && v.s.h.last.value.cause.Connection?
               then n.log + [Delivered(Send(id), v.s.h.last.value.cause.reason)] else n.log;
    n.(conn := v.conn, streams := n.streams[id := Both(v.s, JointDo(n.conn, b, l), LastShutdown(b, l))], log := log)
  }

  /** The step returns a connection error to h3. */
  predicate Delivers(w: World, l: Label) {
    l.Front? && w.s.pc.Run? && w.s.pc.cmd.ReturnError? && w.s.pc.cmd.cause.Connection? && !w.s.call.ResetCall?
  }

  /** The connection cause that a poll of the receive half has just told. */
  function PollTold(v: Receiving.World, r: Receiving.Label): Option<ConnectionTerminal> {
    if r.Polls? && v.reader.Waiting? && v.log.last.Some? && v.log.last.value.Broken?
       && v.log.last.value.why.Ended? && v.log.last.value.why.event.Connection?
    then Some(v.log.last.value.why.event.reason) else None
  }

  function ReceiveDoes(n: Net, id: nat, r: Receiving.Label): Net
    requires id in n.streams
  {
    var v := Receiving.Do(Half(n.conn, n.streams[id]), r);
    var told := PollTold(v, r);
    n.(conn := v.conn, streams := n.streams[id := n.streams[id].(recv := v)],
       log := if told.Some? then n.log + [Delivered(Receive(id), told.value)] else n.log)
  }

  predicate Arrives(site: Callbacks.World, c: Callbacks.Label, oneWay: bool) {
    && c.Deliver? && c.n < |site.calls| && site.calls[c.n].event.HandOver? && site.calls[c.n].event.uni == oneWay
    && Callbacks.Receives(site.ctx, site.calls[c.n].event)
  }

  function Queue(n: Net, oneWay: bool): seq<nat> { if oneWay then n.uni else n.bidi }

  /** The accept sender of that direction is still in place. */
  predicate SenderOpen(n: Net, oneWay: bool) { if oneWay then n.site.ctx.uni else n.site.ctx.bidi }

  /** The cause that this step of the connection callback records. */
  function Records(site: Callbacks.World, c: Callbacks.Label): Option<ConnectionTerminal> {
    if c.Act? && c.n < |site.calls| && site.calls[c.n].todo != [] && site.calls[c.n].todo[0].RecordAct?
    then Some(site.calls[c.n].todo[0].cause) else None
  }

  /** A step of the connection callback; a delivered stream joins its queue. */
  function SiteDoes(n: Net, c: Callbacks.Label): Net
    requires Callbacks.Enabled(Site(n.conn, n.site), c)
  {
    var v := Callbacks.Do(Site(n.conn, n.site), c);
    var cause := Records(n.site, c);
    n.(conn := v.ctx.terminal, site := v,
       uni := if Arrives(n.site, c, true) then n.uni + [c.n] else n.uni,
       bidi := if Arrives(n.site, c, false) then n.bidi + [c.n] else n.bidi,
       log := if cause.Some? then n.log + [Recorded(cause.value)] else n.log)
  }

  function Make(n: Net, m: Move): Net
    requires Can(n, m)
  {
    match m
    case NewStream(id, caps) =>
      n.(streams := n.streams[id := Both(FRESH_STREAM, Receiving.Init(caps), NO_SHUTDOWN)])
    case StreamMoves(id, l) => StreamDoes(n, id, l)
    case ReceiveMoves(id, r) => ReceiveDoes(n, id, r)
    case SiteMoves(c) => SiteDoes(n, c)
    case AcceptPops(oneWay) => if oneWay then n.(uni := n.uni[1..]) else n.(bidi := n.bidi[1..])
    case CauseRecorded(cause) => n.(conn := Record(n.conn, cause), log := n.log + [Recorded(cause)])
    case AcceptFailsFast =>
      if n.conn.terminal.Some? && n.conn.terminal.value.Internal?
      then Deliver(n.(conn := Observe(n.conn)), Accept, n.conn.terminal.value) else n
    case CauseAsked(who) =>
      if n.conn.terminal.Some? then Deliver(n.(conn := Commit(n.conn)), who, n.conn.terminal.value) else n
  }

  const NO_SHUTDOWN: Shutdown := Shutdown(false, false, false, 0, Aborted)

  function Play(ms: seq<Move>): Option<Net> {
    if ms == [] then Some(UNCONNECTED)
    else
      var n := Play(ms[..|ms| - 1]);
      if n.Some? && Can(n.value, ms[|ms| - 1]) then Some(Make(n.value, ms[|ms| - 1])) else None
  }

  // --------------------------------------------------------------------- the log

  predicate HasDelivery(log: seq<Note>) { exists i :: 0 <= i < |log| && log[i].Delivered? }

  /** The causes recorded before the first delivery, in order. */
  function Before(log: seq<Note>): seq<ConnectionTerminal> {
    if log == [] then []
    else
      var front, last := log[..|log| - 1], log[|log| - 1];
      if last.Recorded? && !HasDelivery(front) then Before(front) + [last.cause] else Before(front)
  }

  lemma LogGrows(log: seq<Note>, note: Note)
    ensures HasDelivery(log + [note]) <==> HasDelivery(log) || note.Delivered?
    ensures Before(log + [note]) ==
      if note.Recorded? && !HasDelivery(log) then Before(log) + [note.cause] else Before(log)
  {
    var more := log + [note];
    assert more[..|log|] == log;
    if HasDelivery(log) {
      var i :| 0 <= i < |log| && log[i].Delivered?;
      assert more[i].Delivered?;
    }
    if note.Delivered? {
      assert more[|log|].Delivered?;
    }
  }

  /** The slot is the log's winner, and everything delivered is what it holds. */
  ghost predicate LogAgrees(conn: ConnSlot, log: seq<Note>) {
    && conn.terminal == Winner(Before(log))
    && (conn.observed <==> HasDelivery(log))
    && forall i :: 0 <= i < |log| && log[i].Delivered? ==> conn.terminal == Some(log[i].cause)
  }

  lemma RecordingAgrees(conn: ConnSlot, log: seq<Note>, cause: ConnectionTerminal)
    requires LogAgrees(conn, log)
    ensures LogAgrees(Record(conn, cause), log + [Recorded(cause)])
  {
    LogGrows(log, Recorded(cause));
    if !conn.observed {
      assert (Before(log) + [cause])[..|Before(log)|] == Before(log);
    }
  }

  lemma DeliveringAgrees(conn: ConnSlot, log: seq<Note>, who: Frontend)
    requires LogAgrees(conn, log) && conn.terminal.Some?
    ensures LogAgrees(Observe(conn), log + [Delivered(who, conn.terminal.value)])
  {
    LogGrows(log, Delivered(who, conn.terminal.value));
  }

  // ------------------------------------------------------------------- invariant

  /** The two halves agree on where their callback stands. */
  predicate Coupled(b: Both) {
    && b.recv.poisoned == b.send.poisoned && (!b.send.cb.Quiet? ==> !b.send.poisoned)
    && match b.send.cb
       case Quiet => b.recv.cb.Quiet? || b.recv.cb.Finishing?
       case Recording(reason) =>
         b.recv.cb.Quiet? && b.shutdown.connection && reason == ClassifyConnShutdown(b.shutdown)
       case MarkingReceive(reason) => b.recv.cb == Receiving.Marking(reason)
       case MarkingSend(_) => b.recv.cb.Closing?
       case Closing => b.recv.cb.Closing?
       case Reclaiming(_, _) => b.recv.cb.Quiet?
       case Pushing(_) => b.recv.cb.Quiet?
       case Publishing(_) => b.recv.cb.Quiet?
       case _ => true
  }

  ghost predicate StreamOk(conn: ConnSlot, b: Both) {
    Reachable(World(conn, b.send)) && Receiving.Reachable(Half(conn, b)) && Coupled(b)
  }

  /** The connection callback keeps its own invariant over the shared slot, and what is
      queued was delivered. */
  predicate SiteOk(n: Net) {
    && Callbacks.Inv(Site(n.conn, n.site)) && n.site.ctx.kind.ConnectionSite?
    && AllQueued(n.site, n.uni, true) && AllQueued(n.site, n.bidi, false)
  }

  predicate AllQueued(site: Callbacks.World, q: seq<nat>, oneWay: bool) {
    forall i :: 0 <= i < |q| ==> Queued(site, q[i], oneWay)
  }

  /** The callback handed that stream over, and it went in this direction. */
  predicate Queued(site: Callbacks.World, k: nat, oneWay: bool) {
    k < |site.calls| && site.calls[k].owner.Frontend? && site.calls[k].event == Callbacks.HandOver(oneWay)
  }

  ghost predicate NetOk(n: Net) {
    && Sound(n.conn) && LogAgrees(n.conn, n.log) && SiteOk(n)
    && forall id :: id in n.streams ==> StreamOk(n.conn, n.streams[id])
  }

  /** Whatever moved the shared slot, every stream is still in reachable states of its own
      two protocols. */
  lemma StreamRidesAlong(before: ConnSlot, after: ConnSlot, b: Both)
    requires StreamOk(before, b) && Leads(before, after) && Sound(after)
    ensures StreamOk(after, b)
  {
    var w := Extend(World(before, b.send), ConnectionMoves(after));
    var r := Receiving.Extend(Half(before, b), Receiving.ConnectionMoves(after));
  }

  /** ... and so is the connection callback. */
  lemma SiteRidesAlong(n: Net, v: Net)
    requires SiteOk(n) && Leads(n.conn, v.conn) && Sound(v.conn)
    requires v.site == n.site && v.uni == n.uni && v.bidi == n.bidi
    ensures SiteOk(v)
  {
    Callbacks.StepKeeps(Site(n.conn, n.site), Callbacks.CauseMoves(v.conn));
  }

  /** How a frontend's action treats the shared slot: only a delivery freezes it. */
  lemma FrontOnSlot(w: World, r: NativeResult)
    requires InvShape(w.s) && InvConn(w)
    ensures var v := FrontStep(w, r);
      if Delivers(w, Front(r)) then
        && w.conn.terminal.Some? && v.conn == Observe(w.conn)
        && v.s.h.last == Some(Error(Connection(w.conn.terminal.value)))
      else v.conn == w.conn
  {
  }

  /** How a stream's step treats the shared slot. */
  lemma StepOnSlot(w: World, l: Label)
    requires Reachable(w) && Enabled(w, l) && !l.ConnectionMoves?
    ensures var v := Do(w, l);
      && (l.CallbackRuns? && w.s.cb.Recording? ==> v.conn == Record(w.conn, w.s.cb.reason))
      && (Delivers(w, l) ==>
          && w.conn.terminal.Some? && v.conn == Observe(w.conn)
          && v.s.h.last == Some(Error(Connection(w.conn.terminal.value))))
      && (!(l.CallbackRuns? && w.s.cb.Recording?) && !Delivers(w, l) ==> v.conn == w.conn)
  {
    ReachableInv(w);
    if l.Front? {
      FrontOnSlot(w, l.result);
    }
  }

  /** The receive half's part is always possible, records what the send half records, and
      leaves the two callbacks in step. */
  lemma JointStep(conn: ConnSlot, b: Both, l: Label)
    requires Coupled(b) && Enabled(World(conn, b.send), l) && !l.ConnectionMoves? && (l.Native? ==> b.recv.cb.Quiet?)
    requires Joint(b, l).Some?
    ensures Receiving.Enabled(Half(conn, b), Joint(b, l).value)
    ensures JointDo(conn, b, l).conn == Do(World(conn, b.send), l).conn
    ensures Coupled(Both(Do(World(conn, b.send), l).s, JointDo(conn, b, l), LastShutdown(b, l)))
  {
  }

  lemma SoloStep(conn: ConnSlot, b: Both, l: Label)
    requires Coupled(b) && Enabled(World(conn, b.send), l) && !l.ConnectionMoves? && (l.Native? ==> b.recv.cb.Quiet?)
    requires Joint(b, l).None? && PcOk(b.send)
    ensures Coupled(Both(Do(World(conn, b.send), l).s, b.recv, LastShutdown(b, l)))
  {
    if l.Front? {
      FrontLeavesCallback(World(conn, b.send), l.result);
    }
  }

  /** One stream's step on both halves. */
  lemma HalvesStep(conn: ConnSlot, b: Both, l: Label)
    requires StreamOk(conn, b) && Enabled(World(conn, b.send), l) && !l.ConnectionMoves?
    requires l.Native? ==> b.recv.cb.Quiet?
    requires Leads(conn, Do(World(conn, b.send), l).conn) && Sound(Do(World(conn, b.send), l).conn)
    ensures var v := Do(World(conn, b.send), l);
      StreamOk(v.conn, Both(v.s, JointDo(conn, b, l), LastShutdown(b, l)))
  {
    var v := Extend(World(conn, b.send), l);
    if Joint(b, l).Some? {
      JointStep(conn, b, l);
      var r := Receiving.Extend(Half(conn, b), Joint(b, l).value);
    } else {
      PcIsOk(World(conn, b.send));
      SoloStep(conn, b, l);
      var r := Receiving.Extend(Half(conn, b), Receiving.ConnectionMoves(v.conn));
    }
  }

  lemma PcIsOk(w: World)
    requires Reachable(w)
    ensures PcOk(w.s)
  {
    ReachableInv(w);
  }

  /** The other streams after a move that changed the slot and at most one stream. */
  lemma OthersRideAlong(n: Net, v: Net, id: nat)
    requires NetOk(n) && Leads(n.conn, v.conn) && Sound(v.conn)
    requires forall i :: i in v.streams && i != id ==> i in n.streams && v.streams[i] == n.streams[i]
    requires id in v.streams ==> StreamOk(v.conn, v.streams[id])
    ensures forall i :: i in v.streams ==> StreamOk(v.conn, v.streams[i])
  {
    forall i | i in v.streams && i != id
      ensures StreamOk(v.conn, v.streams[i])
    {
      StreamRidesAlong(n.conn, v.conn, n.streams[i]);
    }
  }

  lemma AllRideAlong(n: Net, v: Net)
    requires NetOk(n) && Leads(n.conn, v.conn) && Sound(v.conn) && v.streams == n.streams
    ensures forall i :: i in v.streams ==> StreamOk(v.conn, v.streams[i])
  {
    forall i | i in v.streams
      ensures StreamOk(v.conn, v.streams[i])
    {
      StreamRidesAlong(n.conn, v.conn, n.streams[i]);
    }
  }

  /** What a stream's step notes is what it does to the slot. */
  lemma StreamMoveAgrees(n: Net, id: nat, l: Label)
    requires Sound(n.conn) && LogAgrees(n.conn, n.log) && Can(n, StreamMoves(id, l))
    requires Reachable(World(n.conn, n.streams[id].send))
    ensures var v := StreamDoes(n, id, l); Leads(n.conn, v.conn) && Sound(v.conn) && LogAgrees(v.conn, v.log)
  {
    var w := World(n.conn, n.streams[id].send);
    StepOnSlot(w, l);
    if l.CallbackRuns? && w.s.cb.Recording? {
      OperationsLead(n.conn, w.s.cb.reason);
      RecordingAgrees(n.conn, n.log, w.s.cb.reason);
    } else if Delivers(w, l) {
      DeliveringAgrees(n.conn, n.log, Send(id));
    }
  }

  /** A move that touched the slot, the log and one stream. */
  lemma OneStreamMoved(n: Net, v: Net, id: nat, b: Both)
    requires NetOk(n) && v == n.(conn := v.conn, streams := n.streams[id := b], log := v.log)
    requires Leads(n.conn, v.conn) && Sound(v.conn) && LogAgrees(v.conn, v.log) && StreamOk(v.conn, b)
    ensures NetOk(v)
  {
    SiteRidesAlong(n, v);
    OthersRideAlong(n, v, id);
  }

  lemma StreamMoveKeeps(n: Net, id: nat, l: Label)
    requires NetOk(n) && Can(n, StreamMoves(id, l))
    ensures NetOk(StreamDoes(n, id, l)) && Leads(n.conn, StreamDoes(n, id, l).conn)
  {
    var v := StreamDoes(n, id, l);
    assert StreamOk(n.conn, n.streams[id]);
    StreamMoveAgrees(n, id, l);
    HalvesStep(n.conn, n.streams[id], l);
    OneStreamMoved(n, v, id, v.streams[id]);
  }

  /** How a step of the receive half treats the slot: a poll that tells a connection cause
      has frozen that very cause; nothing else moves it. */
  lemma ReceiveOnSlot(w: Receiving.World, r: Receiving.Label)
    requires Receiving.Inv(w) && Receiving.Enabled(w, r)
    requires !r.ShutdownComplete? && !r.ConnectionMoves?
    ensures var v := Receiving.Do(w, r);
      var told := PollTold(v, r);
      if told.Some? then w.conn.terminal == told && v.conn == Observe(w.conn) else v.conn == w.conn
  {
    if r.Polls? {
      PollOnSlot(w);
    } else if Receiving.OfTerminal(r) {
      TerminalOnSlot(w, r);
    }
  }

  lemma PollOnSlot(w: Receiving.World)
    requires Receiving.Inv(w) && Receiving.Enabled(w, Receiving.Polls)
    ensures var v := Receiving.Poll(w);
      var told := PollTold(v, Receiving.Polls);
      if told.Some? then w.conn.terminal == told && v.conn == Observe(w.conn) else v.conn == w.conn
  {
  }

  lemma TerminalOnSlot(w: Receiving.World, r: Receiving.Label)
    requires Receiving.OfTerminal(r) && !r.ShutdownComplete? && !r.ConnectionMoves?
    ensures Receiving.Do(w, r).conn == w.conn
  {
  }

  /** The receive half's own steps leave the callbacks in step. */
  lemma AloneStep(conn: ConnSlot, b: Both, r: Receiving.Label)
    requires Coupled(b) && Receiving.Enabled(Half(conn, b), r) && Alone(b, r)
    ensures Coupled(b.(recv := Receiving.Do(Half(conn, b), r)))
  {
    if !Receiving.OfTerminal(r) && !r.Indicate? {
      ReaderLeavesCallback(Half(conn, b), r);
    }
  }

  lemma PollLeavesCallback(w: Receiving.World)
    ensures Receiving.Poll(w).cb == w.cb && Receiving.Poll(w).poisoned == w.poisoned
  {
  }

  lemma AccountLeavesCallback(w: Receiving.World, bytes: Bytes)
    ensures Receiving.Account(w, bytes).cb == w.cb && Receiving.Account(w, bytes).poisoned == w.poisoned
  {
  }

  lemma ReaderLeavesCallback(w: Receiving.World, r: Receiving.Label)
    requires !Receiving.OfTerminal(r) && !r.Indicate?
    ensures Receiving.Do(w, r).cb == w.cb && Receiving.Do(w, r).poisoned == w.poisoned
  {
    if r.Polls? {
      PollLeavesCallback(w);
    } else if r.Accounts? && w.reader.Popped? {
      AccountLeavesCallback(w, w.reader.bytes);
    }
  }

  lemma ReceiveTells(w: Receiving.World, r: Receiving.Label)
    requires Receiving.Reachable(w) && Receiving.Enabled(w, r) && !r.ShutdownComplete? && !r.ConnectionMoves?
    ensures var v := Receiving.Do(w, r);
      && Leads(w.conn, v.conn) && Sound(v.conn)
      && v.conn == (if PollTold(v, r).Some? then Observe(w.conn) else w.conn)
      && (PollTold(v, r).Some? ==> w.conn.terminal == PollTold(v, r))
  {
    Receiving.ReachableInv(w);
    ReceiveOnSlot(w, r);
  }

  /** A step of the receive half alone, on both halves. */
  lemma ReceiveHalvesStep(conn: ConnSlot, b: Both, r: Receiving.Label)
    requires StreamOk(conn, b) && Receiving.Enabled(Half(conn, b), r) && Alone(b, r)
    requires var v := Receiving.Do(Half(conn, b), r); Leads(conn, v.conn) && Sound(v.conn)
    ensures var v := Receiving.Do(Half(conn, b), r); StreamOk(v.conn, b.(recv := v))
  {
    AloneStep(conn, b, r);
    var u := Receiving.Extend(Half(conn, b), r);
    SlotReached(conn, u.conn, b.send);
  }

  lemma SlotReached(before: ConnSlot, after: ConnSlot, s: Stream)
    requires Reachable(World(before, s)) && Leads(before, after) && Sound(after)
    ensures Reachable(World(after, s))
  {
    var w := Extend(World(before, s), ConnectionMoves(after));
  }

  lemma ReceiveMoveAgrees(n: Net, id: nat, r: Receiving.Label)
    requires LogAgrees(n.conn, n.log) && Can(n, ReceiveMoves(id, r)) && Receiving.Reachable(Half(n.conn, n.streams[id]))
    ensures var v := ReceiveDoes(n, id, r); Leads(n.conn, v.conn) && Sound(v.conn) && LogAgrees(v.conn, v.log)
  {
    ReceiveTells(Half(n.conn, n.streams[id]), r);
    if ReceiveDoes(n, id, r).log != n.log {
      DeliveringAgrees(n.conn, n.log, Receive(id));
    }
  }

  lemma ReceiveMoveKeeps(n: Net, id: nat, r: Receiving.Label)
    requires NetOk(n) && Can(n, ReceiveMoves(id, r))
    ensures NetOk(ReceiveDoes(n, id, r)) && Leads(n.conn, ReceiveDoes(n, id, r).conn)
  {
    var v := ReceiveDoes(n, id, r);
    assert StreamOk(n.conn, n.streams[id]);
    ReceiveMoveAgrees(n, id, r);
    ReceiveHalvesStep(n.conn, n.streams[id], r);
    OneStreamMoved(n, v, id, v.streams[id]);
  }

  /** What a step of the connection callback does to the slot ... */
  lemma SiteOnSlot(w: Callbacks.World, c: Callbacks.Label)
    requires Callbacks.Enabled(w, c) && !c.CauseMoves?
    ensures var cause := Records(w, c);
      Callbacks.Do(w, c).ctx.terminal == if cause.Some? then Record(w.ctx.terminal, cause.value) else w.ctx.terminal
  {
    if c.Act? {
      Callbacks.PerformActs(w.ctx, w.calls[c.n].todo[0]);
    }
  }

  /** ... and to what was delivered. */
  lemma QueuedStays(w: Callbacks.World, c: Callbacks.Label, k: nat, oneWay: bool)
    requires Callbacks.Inv(w) && Callbacks.Enabled(w, c) && Queued(w, k, oneWay)
    ensures Queued(Callbacks.Do(w, c), k, oneWay)
  {
    if Callbacks.OfCall(c) {
      assert Callbacks.OneOk(w.ctx.kind, w.calls[c.n]);
      DeliveredStays(w.ctx, w.calls[c.n], c);
    }
  }

  lemma ArrivalIsQueued(w: Callbacks.World, c: Callbacks.Label, oneWay: bool)
    requires Callbacks.Enabled(w, c) && Arrives(w, c, oneWay)
    ensures Queued(Callbacks.Do(w, c), c.n, oneWay)
  {
  }

  lemma QueueKept(w: Callbacks.World, c: Callbacks.Label, q: seq<nat>, oneWay: bool)
    requires Callbacks.Inv(w) && Callbacks.Enabled(w, c) && AllQueued(w, q, oneWay)
    ensures AllQueued(Callbacks.Do(w, c), q, oneWay)
    ensures Arrives(w, c, oneWay) ==> AllQueued(Callbacks.Do(w, c), q + [c.n], oneWay)
  {
    var v := Callbacks.Do(w, c);
    forall i | 0 <= i < |q|
      ensures Queued(v, q[i], oneWay)
    {
      QueuedStays(w, c, q[i], oneWay);
    }
    if Arrives(w, c, oneWay) {
      ArrivalIsQueued(w, c, oneWay);
    }
  }

  lemma DeliveredStays(c: Callbacks.Ctx, x: Callbacks.Invocation, l: Callbacks.Label)
    requires Callbacks.OfCall(l) && Callbacks.CallEnabled(x, l) && Callbacks.Placed(x)
    ensures var y := Callbacks.CallDo(c, x, l);
      && y.event == x.event && (x.owner.Frontend? ==> y.owner.Frontend?)
      && (l.Deliver? && Callbacks.Receives(c, x.event) ==> y.owner.Frontend?)
  {
  }

  /** The callback's invariant and its deliveries. */
  lemma SiteMoveKeepsSite(n: Net, c: Callbacks.Label)
    requires SiteOk(n) && Can(n, SiteMoves(c))
    ensures SiteOk(SiteDoes(n, c))
  {
    var w := Site(n.conn, n.site);
    SiteInvKept(n, c);
    assert AllQueued(w, n.uni, true) && AllQueued(w, n.bidi, false);
    QueueKept(w, c, n.uni, true);
    QueueKept(w, c, n.bidi, false);
    ArrivesSameWay(n, c);
  }

  /** Whether a stream arrives does not depend on the slot. */
  lemma ArrivesSameWay(n: Net, c: Callbacks.Label)
    ensures forall oneWay :: Arrives(Site(n.conn, n.site), c, oneWay) <==> Arrives(n.site, c, oneWay)
  {
  }

  lemma SiteInvKept(n: Net, c: Callbacks.Label)
    requires SiteOk(n) && Can(n, SiteMoves(c))
    ensures var v := SiteDoes(n, c); Callbacks.Inv(Site(v.conn, v.site)) && v.site.ctx.kind.ConnectionSite?
  {
    var v := SiteDoes(n, c);
    Callbacks.StepKeeps(Site(n.conn, n.site), c);
    assert Site(v.conn, v.site) == v.site;
  }

  lemma SiteMoveAgrees(n: Net, c: Callbacks.Label)
    requires SiteOk(n) && Sound(n.conn) && LogAgrees(n.conn, n.log) && Can(n, SiteMoves(c))
    ensures var v := SiteDoes(n, c); Leads(n.conn, v.conn) && Sound(v.conn) && LogAgrees(v.conn, v.log)
  {
    SiteOnSlot(Site(n.conn, n.site), c);
    if Records(n.site, c).Some? {
      OperationsLead(n.conn, Records(n.site, c).value);
      RecordingAgrees(n.conn, n.log, Records(n.site, c).value);
    }
  }

  lemma SiteMoveKeeps(n: Net, c: Callbacks.Label)
    requires NetOk(n) && Can(n, SiteMoves(c))
    ensures NetOk(SiteDoes(n, c)) && Leads(n.conn, SiteDoes(n, c).conn)
  {
    SiteMoveKeepsSite(n, c);
    SiteMoveAgrees(n, c);
    AllRideAlong(n, SiteDoes(n, c));
  }

  lemma FreshStreamIsOk(conn: ConnSlot, caps: Caps)
    requires Sound(conn) && caps.Valid()
    ensures StreamOk(conn, Both(FRESH_STREAM, Receiving.Init(caps), NO_SHUTDOWN))
  {
    assert IsInitial(World(conn, FRESH_STREAM));
    assert After(World(conn, FRESH_STREAM), []) == Some(World(conn, FRESH_STREAM));
    Receiving.FreshIsReachable(caps);
    var r := Receiving.Extend(Receiving.Init(caps), Receiving.ConnectionMoves(conn));
  }

  lemma NewStreamKeeps(n: Net, id: nat, caps: Caps)
    requires NetOk(n) && Can(n, NewStream(id, caps))
    ensures NetOk(Make(n, NewStream(id, caps)))
  {
    FreshStreamIsOk(n.conn, caps);
    OneStreamMoved(n, Make(n, NewStream(id, caps)), id, Both(FRESH_STREAM, Receiving.Init(caps), NO_SHUTDOWN));
  }

  /** Every move of any party keeps the agreement, and the slot only ever moves forward. */
  lemma MoveKeeps(n: Net, m: Move)
    requires NetOk(n) && Can(n, m)
    ensures NetOk(Make(n, m)) && Leads(n.conn, Make(n, m).conn)
  {
    var v := Make(n, m);
    match m {
      case NewStream(id, caps) => NewStreamKeeps(n, id, caps);
      case StreamMoves(id, l) => StreamMoveKeeps(n, id, l);
      case ReceiveMoves(id, r) => ReceiveMoveKeeps(n, id, r);
      case SiteMoves(c) => SiteMoveKeeps(n, c);
      case AcceptPops(_) =>
      case CauseRecorded(cause) =>
        OperationsLead(n.conn, cause);
        RecordingAgrees(n.conn, n.log, cause);
        SlotMoveKeeps(n, v);
      case AcceptFailsFast =>
        if v != n {
          DeliveringAgrees(n.conn, n.log, Accept);
          SlotMoveKeeps(n, v);
        }
      case CauseAsked(who) =>
        if v != n {
          DeliveringAgrees(n.conn, n.log, who);
          SlotMoveKeeps(n, v);
        }
    }
  }

  lemma SlotMoveKeeps(n: Net, v: Net)
    requires NetOk(n) && v == n.(conn := v.conn, log := v.log)
    requires Leads(n.conn, v.conn) && Sound(v.conn) && LogAgrees(v.conn, v.log)
    ensures NetOk(v)
  {
    SiteRidesAlong(n, v);
    AllRideAlong(n, v);
  }

  lemma {:induction false} PlayKeeps(ms: seq<Move>)
    requires Play(ms).Some?
    ensures NetOk(Play(ms).value)
  {
    if ms == [] {
      NothingYet();
    } else {
      PlayKeeps(ms[..|ms| - 1]);
      MoveKeeps(Play(ms[..|ms| - 1]).value, ms[|ms| - 1]);
    }
  }

  lemma NothingYet()
    ensures NetOk(UNCONNECTED)
  {
  }

  // -------------------------------------------------------------------- theorems

  predicate IsFirstSpecific(causes: seq<ConnectionTerminal>, k: nat)
    requires k < |causes|
  {
    !causes[k].IsProvisional() && forall j :: 0 <= j < k ==> causes[j].IsProvisional()
  }

  /** In every interleaving all connection causes handed to h3 by accept, open,
      receive and send are one value: the first specific cause recorded before the
      first delivery, or LocalClose when only provisional ones were. */
  lemma AllFrontendsAgree(ms: seq<Move>, i: nat)
    requires Play(ms).Some? && i < |Play(ms).value.log| && Play(ms).value.log[i].Delivered?
    ensures var n := Play(ms).value;
      && n.conn.observed && n.conn.terminal == Some(n.log[i].cause)
      && Winner(Before(n.log)) == Some(n.log[i].cause)
      && (forall j :: 0 <= j < |n.log| && n.log[j].Delivered? ==> n.log[j].cause == n.log[i].cause)
    ensures var causes := Before(Play(ms).value.log);
      var c := Play(ms).value.log[i].cause;
      || (c == LocalClose && forall j :: 0 <= j < |causes| ==> causes[j].IsProvisional())
      || (exists k :: 0 <= k < |causes| && causes[k] == c && IsFirstSpecific(causes, k))
  {
    PlayKeeps(ms);
    var n := Play(ms).value;
    assert n.log[i].Delivered?;
    WinnerIsFirstSpecific(Before(n.log));
  }

  /** The slot is never frozen empty, and the carried fallbacks are never used: where
      a connection marker is queued, loaded or about to be returned, the slot holds a
      cause. */
  lemma FallbacksAreDead(ms: seq<Move>, id: nat)
    requires Play(ms).Some? && id in Play(ms).value.streams
    ensures Sound(Play(ms).value.conn)
    ensures var n := Play(ms).value; var b := n.streams[id];
      || n.conn.terminal.Some?
      || (&& !b.recv.cb.Marking? && (forall i :: 0 <= i < |b.recv.queue| ==> !b.recv.queue[i].Connection?)
          && !IsConnection(b.send.slot)
          && (b.send.pc.PeekConn? || b.send.pc.GuardPeek? ==> !IsConnection(b.send.pc.loaded))
          && (b.send.pc.Run? && b.send.pc.cmd.ReturnError? ==> !b.send.pc.cmd.cause.Connection?))
  {
    PlayKeeps(ms);
    var n := Play(ms).value;
    assert StreamOk(n.conn, n.streams[id]);
    if n.conn.terminal.None? {
      SendMarkersHaveCause(World(n.conn, n.streams[id].send));
      ReceiveMarkersHaveCause(Half(n.conn, n.streams[id]));
    }
  }

  lemma SendMarkersHaveCause(w: World)
    requires Reachable(w) && w.conn.terminal.None?
    ensures !IsConnection(w.s.slot)
    ensures w.s.pc.PeekConn? || w.s.pc.GuardPeek? ==> !IsConnection(w.s.pc.loaded)
    ensures w.s.pc.Run? && w.s.pc.cmd.ReturnError? ==> !w.s.pc.cmd.cause.Connection?
  {
    ReachableInv(w);
  }

  lemma ReceiveMarkersHaveCause(w: Receiving.World)
    requires Receiving.Reachable(w) && w.conn.terminal.None?
    ensures !w.cb.Marking? && forall i :: 0 <= i < |w.queue| ==> !w.queue[i].Connection?
  {
    Receiving.ReachableInv(w);
    MarkersHaveCause(w);
  }

  lemma MarkersHaveCause(w: Receiving.World)
    requires Receiving.InvOrder(w) && Receiving.InvCause(w) && w.conn.terminal.None?
    ensures !w.cb.Marking? && forall i :: 0 <= i < |w.queue| ==> !w.queue[i].Connection?
  {
  }

  /** Every stream of a connection runs both protocols: each theorem about a reachable
      send half and a reachable receive half holds of each stream, whatever its siblings
      and the connection callback do. */
  lemma EveryStreamFollowsProtocol(ms: seq<Move>, id: nat)
    requires Play(ms).Some? && id in Play(ms).value.streams
    ensures var n := Play(ms).value; var b := n.streams[id];
      Reachable(World(n.conn, b.send)) && Receiving.Reachable(Half(n.conn, b))
  {
    PlayKeeps(ms);
    assert StreamOk(Play(ms).value.conn, Play(ms).value.streams[id]);
  }

  /** An accept sender that is gone left a cause in the shared slot, so accept never has
      to answer that the connection closed without a reason. */
  lemma ClosedAcceptHasCause(ms: seq<Move>, oneWay: bool)
    requires Play(ms).Some? && !SenderOpen(Play(ms).value, oneWay)
    ensures Play(ms).value.conn.terminal.Some?
  {
    PlayKeeps(ms);
    assert SiteOk(Play(ms).value);
  }
}
