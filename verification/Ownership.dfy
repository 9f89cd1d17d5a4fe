/** Who closes a native handle that a callback hands over. One callback context, any
    number of invocations in parallel, a panic possible at every step of the body. */
module Ownership {
  import opened Options
  import opened Terminals

  /** A listener hands over connections, a connection hands over peer streams. */
  datatype Kind = ListenerSite | ConnectionSite

  datatype Event =
    | HandOver(uni: bool)
    | Teardown
    | Signal(cause: Option<ConnectionTerminal>)

  datatype Verdict = Fine | Rejected(status: Status)

  /** What the native side said while the handle was only borrowed. */
  datatype Answer = Accepted(rawId: nat) | Refused(status: Status)

  datatype Pc =
    | Arrived
    | Reserving
    | Validating
    | Refusing(status: Status)
    | Taking
    | Attaching
    | Wrapped
    | Delivering
    | Discarding
    | Other
    | Returning(verdict: Verdict)
    | Unwinding
    | Recovering
    | Poisoning
    | Answered(verdict: Verdict)

  datatype Owner = Native | Callback | Frontend

  datatype GuardUnit = NoUnit | Held | Given

  /** The single actions that reporting, teardown and recovery consist of. */
  datatype Action =
    | RecordAct(cause: ConnectionTerminal)
    | TakeConnected
    | TakeUni
    | TakeBidi
    | TakeShutdown
    | QueueEnd
    | ForceShutdown

  /** One invocation. `todo` are the actions it has still to take before it goes on,
      `token` is its own ownership cell, `answer` what the native side said about the
      borrowed handle, `early` remembers that the rundown unit went back while the
      handle was still open, and `unwoundFrom` where a panic struck. */
  datatype Invocation = Invocation(
    event: Event,
    pc: Pc,
    todo: seq<Action>,
    token: bool,
    answer: Option<Answer>,
    owner: Owner,
    closed: bool,
    unit: GuardUnit,
    adapterCloses: nat,
    nativeCloses: nat,
    early: bool,
    unwoundFrom: Option<Pc>)

  /** The shared context: each flag says that a waiter's sender is still in place. */
  datatype Ctx = Ctx(
    kind: Kind,
    poisoned: bool,
    connected: bool,
    uni: bool,
    bidi: bool,
    shutdown: bool,
    receiver: bool,
    endQueued: bool,
    forced: bool,
    terminal: ConnSlot)

  datatype World = World(ctx: Ctx, calls: seq<Invocation>)

  function Init(kind: Kind): World {
    var peer := kind.ConnectionSite?;
    World(Ctx(kind, false, peer, peer, peer, true, true, false, false, EMPTY_CONN), [])
  }

  datatype Label =
    | Arrive(event: Event)
    | Enter(n: nat)
    | Reserve(n: nat)
    | Validate(n: nat, answer: Answer)
    | Refuse(n: nat)
    | Take(n: nat)
    | Wrap(n: nat)
    | Attach(n: nat)
    | Act(n: nat)
    | Deliver(n: nat)
    | Discard(n: nat)
    | RunOther(n: nat)
    | Return(n: nat)
    | Panic(n: nat)
    | Unwind(n: nat)
    | Recover(n: nat)
    | Poison(n: nat)
    | NativeCloses(n: nat)
    | FrontendDrops(n: nat)
    | ReceiverDropped
    | CauseMoves(terminal: ConnSlot)

  /** A step about one invocation. */
  predicate OfCall(l: Label) { !l.Arrive? && !l.ReceiverDropped? && !l.CauseMoves? }

  predicate InBody(pc: Pc) {
    || pc.Reserving? || pc.Validating? || pc.Refusing? || pc.Taking? || pc.Attaching? || pc.Wrapped?
    || pc.Delivering? || pc.Discarding? || pc.Other? || pc.Returning?
  }

  predicate CallEnabled(x: Invocation, l: Label)
    requires OfCall(l)
  {
    match l
    case Enter(_) => x.pc.Arrived?
    case Reserve(_) => x.pc.Reserving?
    case Validate(_, _) => x.pc.Validating?
    case Refuse(_) => x.pc.Refusing? && x.todo == []
    case Take(_) => x.pc.Taking?
    case Wrap(_) => x.pc.Attaching?
    case Attach(_) => x.pc.Wrapped?
    case Act(_) => x.todo != []
    case Deliver(_) => x.pc.Delivering?
    case Discard(_) => x.pc.Discarding?
    case RunOther(_) => x.pc.Other? && x.todo == []
    case Return(_) => x.pc.Returning?
    case Panic(_) => InBody(x.pc)
    case Unwind(_) => x.pc.Unwinding?
    case Recover(_) => x.pc.Recovering? && x.todo == []
    case Poison(_) => x.pc.Poisoning?
    case NativeCloses(_) => x.event.HandOver? && x.pc.Answered? && x.pc.verdict.Rejected? && x.nativeCloses == 0
    case FrontendDrops(_) => x.owner.Frontend? && (!x.closed || x.unit.Held?)
  }

  predicate Enabled(w: World, l: Label) {
    match l
    case Arrive(ev) => ev.Signal? ==> w.ctx.kind.ConnectionSite?
    case ReceiverDropped => true
    case CauseMoves(t) => Leads(w.ctx.terminal, t) && Sound(t)
    case _ => l.n < |w.calls| && CallEnabled(w.calls[l.n], l)
  }

  // ---------------------------------------------------------- one invocation's step

  function FreshCall(ev: Event): Invocation {
    Invocation(ev, Arrived, [], false, None, Native, false, NoUnit, 0, 0, false, None)
  }

  function PoisonDisposition(ev: Event): Verdict {
    if ev.Teardown? then Fine else Rejected(InternalError)
  }

  /** What the callback body does with an event that hands nothing over, in order. */
  function HandlingActs(kind: Kind, ev: Event): seq<Action> {
    match ev
    case HandOver(_) => []
    case Teardown =>
      if kind.ListenerSite? then [QueueEnd, TakeShutdown]
      else [RecordAct(LocalClose), TakeConnected, TakeUni, TakeBidi, TakeShutdown]
    case Signal(cause) => if cause.Some? then [RecordAct(cause.value), TakeConnected] else [TakeConnected]
  }

  /** What recover does before it poisons the context, in order. */
  function RecoverActs(kind: Kind): seq<Action> {
    if kind.ListenerSite? then [QueueEnd, TakeShutdown]
    else [ForceShutdown, RecordAct(ConnectionTerminal.Internal(CallbackPanicked)), TakeConnected, TakeUni, TakeBidi,
          TakeShutdown]
  }

  /** What a refused peer stream means for its connection, in order. */
  function RefusalActs(kind: Kind, a: Answer): seq<Action> {
    if kind.ListenerSite? then []
    else [RecordAct(ConnectionTerminal.Internal(if a.Refused? then AcceptedIdQueryFailed else AcceptedIdInvalid)),
          TakeUni, TakeBidi]
  }

  /** `guard_callback`: a poisoned context answers at once. */
  function EnterCall(c: Ctx, x: Invocation): Invocation {
    if c.poisoned then x.(pc := Answered(PoisonDisposition(x.event)))
    else if !x.event.HandOver? then x.(pc := Other, todo := HandlingActs(c.kind, x.event))
    else x.(pc := if c.kind.ListenerSite? then Reserving else Validating)
  }

  /** Stream ids are 62-bit; a listener only looks at the status. */
  predicate Valid(c: Ctx, a: Answer) {
    a.Accepted? && (c.kind.ConnectionSite? ==> a.rawId <= MAX_VARINT)
  }

  function RefusalOf(a: Answer): Status { if a.Refused? then a.status else InternalError }

  /** The handle is still borrowed: a refusal closes nothing on this side. */
  function ValidateCall(c: Ctx, x: Invocation, a: Answer): Invocation {
    if Valid(c, a) then x.(pc := Taking, answer := Some(a))
    else x.(pc := Refusing(RefusalOf(a)), todo := RefusalActs(c.kind, a), answer := Some(a))
  }

  function CloseOwned(x: Invocation): Invocation {
    x.(closed := true, adapterCloses := x.adapterCloses + 1)
  }

  function GiveUnit(x: Invocation): Invocation {
    x.(unit := Given, early := x.early || !x.closed)
  }

  /** Drop what the unwound frames own, one value at a time. Until `attach` has wrapped
      them, handle and guard are two parameters, dropped in reverse order. */
  function UnwindCall(c: Ctx, x: Invocation): Invocation {
    var unitFirst := x.unwoundFrom == Some(Attaching);
    if unitFirst && x.unit.Held? then GiveUnit(x)
    else if x.owner.Callback? && !x.closed then CloseOwned(x)
    else if x.owner != Frontend && x.unit.Held? then GiveUnit(x)
    else x.(pc := Recovering, todo := RecoverActs(c.kind))
  }

  /** Dropping a delivered handle, or one that could not be delivered: Close first. */
  function DropWrapped(x: Invocation): Invocation {
    if !x.closed then CloseOwned(x) else if x.unit.Held? then GiveUnit(x) else x
  }

  /** The sender a delivery goes through is there, and its receiver too. */
  predicate Receives(c: Ctx, ev: Event) {
    c.receiver && (c.kind.ListenerSite? || (ev.HandOver? && if ev.uni then c.uni else c.bidi))
  }

  function CallDo(c: Ctx, x: Invocation, l: Label): Invocation
    requires OfCall(l) && CallEnabled(x, l)
  {
    match l
    case Enter(_) => EnterCall(c, x)
    case Reserve(_) => x.(pc := Validating, unit := Held)
    case Validate(_, a) => ValidateCall(c, x, a)
    case Refuse(_) =>
      if x.unit.Held? then GiveUnit(x) else x.(pc := Returning(Rejected(x.pc.status)))
    case Take(_) => x.(pc := Attaching, token := true, owner := Callback)
    case Wrap(_) => x.(pc := Wrapped)
    case Attach(_) => x.(pc := Delivering)
    case Act(_) => x.(todo := x.todo[1..])
    case Deliver(_) =>
      if Receives(c, x.event) then x.(pc := Returning(Fine), owner := Frontend) else x.(pc := Discarding)
    case Discard(_) =>
      if x.closed && !x.unit.Held? then x.(pc := Returning(Fine)) else DropWrapped(x)
    case RunOther(_) => x.(pc := Returning(Fine))
    case Return(_) => x.(pc := Answered(x.pc.verdict))
    case Panic(_) => x.(pc := Unwinding, todo := [], unwoundFrom := Some(x.pc))
    case Unwind(_) => UnwindCall(c, x)
    case Recover(_) => x.(pc := Poisoning)
    case Poison(_) => x.(pc := Answered(if x.token then Fine else Rejected(InternalError)))
    case NativeCloses(_) => x.(closed := true, nativeCloses := x.nativeCloses + 1)
    case FrontendDrops(_) => DropWrapped(x)
  }

  // ------------------------------------------------------------------ the context

  /** One action on the shared context. */
  function Perform(c: Ctx, a: Action): Ctx {
    match a
    case RecordAct(cause) => c.(terminal := Record(c.terminal, cause))
    case TakeConnected => c.(connected := false)
    case TakeUni => c.(uni := false)
    case TakeBidi => c.(bidi := false)
    case TakeShutdown => c.(shutdown := false)
    case QueueEnd => c.(endQueued := true)
    case ForceShutdown => c.(forced := true)
  }

  function CtxDo(c: Ctx, x: Invocation, l: Label): Ctx
    requires OfCall(l) && CallEnabled(x, l)
  {
    match l
    case Act(_) => Perform(c, x.todo[0])
    case Poison(_) => c.(poisoned := true)
    case _ => c
  }

  function Do(w: World, l: Label): World
    requires Enabled(w, l)
  {
    match l
    case Arrive(ev) => w.(calls := w.calls + [FreshCall(ev)])
    case ReceiverDropped => w.(ctx := w.ctx.(receiver := false))
    case CauseMoves(t) => w.(ctx := w.ctx.(terminal := t))
    case _ =>
      World(CtxDo(w.ctx, w.calls[l.n], l), w.calls[l.n := CallDo(w.ctx, w.calls[l.n], l)])
  }

  function After(w: World, ls: seq<Label>): Option<World> {
    if ls == [] then Some(w)
    else
      var m := After(w, ls[..|ls| - 1]);
      var l := ls[|ls| - 1];
      if m.Some? && Enabled(m.value, l) then Some(Do(m.value, l)) else None
  }

  lemma Append(w0: World, ls: seq<Label>, w: World, l: Label)
    requires After(w0, ls) == Some(w) && Enabled(w, l)
    ensures After(w0, ls + [l]) == Some(Do(w, l))
  {
    assert (ls + [l])[..|ls|] == ls;
  }

  lemma Follow(w0: World, ls: seq<Label>, w: World, l: Label) returns (more: seq<Label>, v: World)
    requires After(w0, ls) == Some(w) && Enabled(w, l)
    ensures more == ls + [l] && v == Do(w, l) && After(w0, more) == Some(v)
  {
    Append(w0, ls, w, l);
    more, v := ls + [l], Do(w, l);
  }

  // -------------------------------------------------------------------- invariant

  /** The body owns the handle here. */
  predicate Holds(pc: Pc) { pc.Attaching? || pc.Wrapped? || pc.Delivering? || pc.Discarding? }

  /** Where a handle is at each point, and whose closes are behind it. */
  predicate Placed(x: Invocation) {
    && (x.token <==> x.owner != Native)
    && x.adapterCloses == (if x.closed && x.token then 1 else 0)
    && x.nativeCloses == (if x.closed && !x.token then 1 else 0)
    && (x.pc.Attaching? || x.pc.Wrapped? || x.pc.Delivering? ==> x.owner.Callback? && !x.closed)
    && (x.pc.Discarding? ==> x.owner.Callback?)
    && (InBody(x.pc) && !Holds(x.pc) && !x.pc.Returning? ==> x.owner.Native?)
    && (x.pc.Arrived? ==> x.owner.Native? && x.unit.NoUnit?)
    && (!x.event.HandOver? ==> x.owner.Native? && x.unit.NoUnit?)
    && (InBody(x.pc) && !x.pc.Returning? ==> (x.event.HandOver? <==> !x.pc.Other?))
  }

  /** The verdict tells the truth about ownership. */
  predicate Truthful(x: Invocation) {
    && (x.pc.Returning? && x.event.HandOver? ==> (x.pc.verdict.Rejected? <==> !x.token))
    && (x.pc.Answered? && x.event.HandOver? ==> (x.pc.verdict.Rejected? <==> !x.token))
    && (x.owner.Native? && x.closed ==> x.pc.Answered? && x.event.HandOver?)
    && (x.pc.Returning? || x.pc.Recovering? || x.pc.Poisoning? || x.pc.Answered? ==> x.owner.Callback? ==> x.closed)
    && (x.pc.Unwinding? || x.pc.Recovering? || x.pc.Poisoning? ==> x.unwoundFrom.Some?)
  }

  /** The rundown unit: taken once by a listener, given back once. */
  predicate Counted(x: Invocation) {
    && (x.pc.Reserving? ==> x.unit.NoUnit?)
    && (x.pc.Validating? || x.pc.Taking? || (Holds(x.pc) && !x.pc.Discarding?) ==> !x.unit.Given?)
    && (x.owner.Frontend? ==> (x.unit.Given? ==> x.closed))
    && (x.owner != Frontend && (x.pc.Returning? || x.pc.Recovering? || x.pc.Poisoning? || x.pc.Answered?) ==>
          !x.unit.Held?)
    && (InBody(x.pc) || x.pc.Arrived? ==> x.unwoundFrom.None?)
  }

  /** The unit went back before Close exactly when the handle was never taken or a panic
      struck inside `attach`. */
  predicate EarlyIff(x: Invocation) {
    && (x.early ==> x.unit.Given?)
    && (x.unit.Given? ==> (x.early <==> !x.token || x.unwoundFrom == Some(Attaching)))
    && (x.unit.Given? && !x.early ==> x.closed)
    && (x.unit.Held? && !x.token ==> !x.closed)
    && (x.unwoundFrom == Some(Attaching) ==> x.owner.Callback? && (x.unit.Held? ==> !x.closed))
  }

  /** The native side refused the borrowed handle. */
  predicate WasRefused(x: Invocation) { x.answer.Some? && x.answer.value.Refused? }

  /** A panic struck after the unit was reserved and before the handle was taken. */
  predicate LostBeforeTake(x: Invocation) { x.unwoundFrom == Some(Validating) || x.unwoundFrom == Some(Taking) }

  /** Why a listener callback did not take a handle that it had reserved a unit for. */
  predicate Explained(kind: Kind, x: Invocation) {
    kind.ListenerSite? ==>
      && (x.pc.Refusing? ==> WasRefused(x))
      && (x.token || x.pc.Taking? ==> !WasRefused(x))
      && (LostBeforeTake(x) ==> !x.token && !InBody(x.pc))
      && (!x.token && (x.unit.Given? || (x.pc.Unwinding? && x.unit.Held?)) ==> WasRefused(x) || LostBeforeTake(x))
  }

  /** Only a listener reserves rundown units, and always before it takes a handle. */
  predicate ByKind(kind: Kind, x: Invocation) {
    && (kind.ConnectionSite? ==> x.unit.NoUnit?)
    && (kind.ListenerSite? && (x.pc.Validating? || x.pc.Taking? || x.token) ==> !x.unit.NoUnit?)
    && (kind.ConnectionSite? ==> !x.pc.Reserving?)
  }

  predicate CallOk(x: Invocation) { Placed(x) && Truthful(x) && Counted(x) && EarlyIff(x) }

  /** Actions are pending only where the body, a refusal or recover takes them. */
  predicate TodoOk(x: Invocation) {
    x.todo != [] ==> x.pc.Other? || x.pc.Refusing? || x.pc.Recovering?
  }

  /** Accept senders go away only after a cause was recorded. */
  predicate SendersExplained(c: Ctx) {
    && Sound(c.terminal)
    && (if c.kind.ConnectionSite? then !c.uni || !c.bidi ==> c.terminal.terminal.Some?
        else !c.connected && !c.uni && !c.bidi)
  }

  /** Nobody is left waiting on the context. */
  predicate Woken(c: Ctx) {
    && !c.connected && !c.uni && !c.bidi && !c.shutdown
    && (if c.kind.ConnectionSite? then c.terminal.terminal.Some? && c.forced else c.endQueued)
  }

  /** A cause is recorded before anything else that matters. */
  predicate RecordDue(todo: seq<Action>) {
    || (|todo| > 0 && todo[0].RecordAct?)
    || (|todo| > 1 && todo[0].ForceShutdown? && todo[1].RecordAct?)
  }

  predicate Justified(c: Ctx, todo: seq<Action>) {
    TakeUni in todo || TakeBidi in todo ==> RecordDue(todo) || c.terminal.terminal.Some?
  }

  /** Whoever still waits will be woken by the actions left to recover. */
  predicate Remaining(c: Ctx, todo: seq<Action>) {
    && (c.connected ==> TakeConnected in todo) && (c.uni ==> TakeUni in todo) && (c.bidi ==> TakeBidi in todo)
    && (c.shutdown ==> TakeShutdown in todo)
    && (if c.kind.ConnectionSite? then
          && (c.terminal.terminal.Some? || RecordDue(todo))
          && (c.forced || (|todo| > 0 && todo[0].ForceShutdown?))
        else c.endQueued || QueueEnd in todo)
  }

  /** How far an invocation's actions on the context have come. */
  predicate CallCtx(c: Ctx, x: Invocation) {
    && Justified(c, x.todo)
    && (x.pc.Recovering? ==> Remaining(c, x.todo))
    && (x.pc.Poisoning? ==> Woken(c))
  }

  predicate CtxOk(w: World) {
    && SendersExplained(w.ctx) && (w.ctx.poisoned ==> Woken(w.ctx))
    && (forall n :: 0 <= n < |w.calls| ==> CallCtx(w.ctx, w.calls[n]))
  }

  predicate Inv(w: World) {
    && CtxOk(w)
    && (forall n :: 0 <= n < |w.calls| ==> OneOk(w.ctx.kind, w.calls[n]))
  }

  /** Steps that close a handle or give a unit back. */
  predicate Drops(l: Label) { l.Refuse? || l.Discard? || l.Unwind? || l.NativeCloses? || l.FrontendDrops? }

  lemma PlaceDropKeeps(c: Ctx, x: Invocation, l: Label)
    requires OfCall(l) && CallEnabled(x, l) && Placed(x) && Truthful(x) && Drops(l)
    ensures Placed(CallDo(c, x, l))
  {
  }

  lemma PlaceStepKeeps(c: Ctx, x: Invocation, l: Label)
    requires OfCall(l) && CallEnabled(x, l) && Placed(x) && Truthful(x)
    ensures Placed(CallDo(c, x, l))
  {
    if Drops(l) {
      PlaceDropKeeps(c, x, l);
    }
  }

  lemma TruthStepKeeps(c: Ctx, x: Invocation, l: Label)
    requires OfCall(l) && CallEnabled(x, l) && Placed(x) && Truthful(x)
    ensures Truthful(CallDo(c, x, l))
  {
  }

  lemma UnitStepKeeps(c: Ctx, x: Invocation, l: Label)
    requires OfCall(l) && CallEnabled(x, l) && CallOk(x)
    ensures Counted(CallDo(c, x, l))
  {
  }

  lemma EarlyStepKeeps(c: Ctx, x: Invocation, l: Label)
    requires OfCall(l) && CallEnabled(x, l) && CallOk(x)
    ensures EarlyIff(CallDo(c, x, l))
  {
  }

  lemma CallStepKeeps(c: Ctx, x: Invocation, l: Label)
    requires OfCall(l) && CallEnabled(x, l) && CallOk(x)
    ensures CallOk(CallDo(c, x, l))
  {
    PlaceStepKeeps(c, x, l);
    TruthStepKeeps(c, x, l);
    UnitStepKeeps(c, x, l);
    EarlyStepKeeps(c, x, l);
  }

  lemma KindStepKeeps(c: Ctx, x: Invocation, l: Label)
    requires OfCall(l) && CallEnabled(x, l) && ByKind(c.kind, x) && TodoOk(x)
    ensures ByKind(c.kind, CallDo(c, x, l)) && TodoOk(CallDo(c, x, l))
  {
  }

  lemma ExplainStepKeeps(c: Ctx, x: Invocation, l: Label)
    requires OfCall(l) && CallEnabled(x, l) && CallOk(x) && ByKind(c.kind, x) && Explained(c.kind, x)
    ensures Explained(c.kind, CallDo(c, x, l))
  {
  }

  // ------------------------------------------------------- the context over all steps

  /** Senders only ever go away, and what was recorded or signalled stays. */
  predicate Advances(c: Ctx, d: Ctx) {
    && d.kind == c.kind && (c.poisoned ==> d.poisoned)
    && (d.connected ==> c.connected) && (d.uni ==> c.uni) && (d.bidi ==> c.bidi) && (d.shutdown ==> c.shutdown)
    && (c.endQueued ==> d.endQueued) && (c.forced ==> d.forced)
    && (c.terminal.terminal.Some? ==> d.terminal.terminal.Some?)
  }

  /** What an action does, field by field. */
  predicate Acted(c: Ctx, a: Action, d: Ctx) {
    && d.kind == c.kind && d.poisoned == c.poisoned
    && d.connected == (c.connected && a != TakeConnected) && d.shutdown == (c.shutdown && a != TakeShutdown)
    && d.uni == (c.uni && a != TakeUni) && d.bidi == (c.bidi && a != TakeBidi)
    && d.endQueued == (c.endQueued || a == QueueEnd) && d.forced == (c.forced || a == ForceShutdown)
    && d.terminal == if a.RecordAct? then Record(c.terminal, a.cause) else c.terminal
  }

  lemma PerformActs(c: Ctx, a: Action)
    ensures Acted(c, a, Perform(c, a))
  {
    match a {
      case RecordAct(_) =>
      case TakeConnected =>
      case TakeUni =>
      case TakeBidi =>
      case TakeShutdown =>
      case QueueEnd =>
      case ForceShutdown =>
    }
  }

  lemma ActingAdvances(c: Ctx, a: Action, d: Ctx)
    requires Acted(c, a, d)
    ensures Advances(c, d)
  {
  }

  lemma StepAdvances(c: Ctx, x: Invocation, l: Label)
    requires OfCall(l) && CallEnabled(x, l)
    ensures Advances(c, CtxDo(c, x, l))
  {
    if l.Act? {
      PerformActs(c, x.todo[0]);
      ActingAdvances(c, x.todo[0], Perform(c, x.todo[0]));
    }
  }

  /** What one invocation was promised survives everybody else's steps. */
  lemma AdvancingKeeps(c: Ctx, d: Ctx, x: Invocation)
    requires Advances(c, d) && CallCtx(c, x)
    ensures CallCtx(d, x) && (Woken(c) ==> Woken(d))
  {
  }

  lemma HeadAndTail(todo: seq<Action>, a: Action)
    requires todo != []
    ensures a in todo <==> a == todo[0] || a in todo[1..]
  {
    assert todo == [todo[0]] + todo[1..];
  }

  lemma RecordComesDue(c: Ctx, todo: seq<Action>, d: Ctx)
    requires todo != [] && Acted(c, todo[0], d) && Sound(c.terminal)
    requires RecordDue(todo) || c.terminal.terminal.Some?
    ensures RecordDue(todo[1..]) || d.terminal.terminal.Some?
  {
  }

  lemma ActKeepsContext(c: Ctx, todo: seq<Action>, d: Ctx)
    requires todo != [] && Acted(c, todo[0], d) && SendersExplained(c) && Justified(c, todo)
    ensures SendersExplained(d) && Justified(d, todo[1..])
  {
    HeadAndTail(todo, TakeUni);
    HeadAndTail(todo, TakeBidi);
    if RecordDue(todo) || c.terminal.terminal.Some? {
      RecordComesDue(c, todo, d);
    }
  }

  lemma ActKeepsRemaining(c: Ctx, todo: seq<Action>, d: Ctx)
    requires todo != [] && Acted(c, todo[0], d) && Sound(c.terminal) && Remaining(c, todo)
    ensures Remaining(d, todo[1..])
  {
    HeadAndTail(todo, TakeConnected);
    HeadAndTail(todo, TakeUni);
    HeadAndTail(todo, TakeBidi);
    HeadAndTail(todo, TakeShutdown);
    HeadAndTail(todo, QueueEnd);
    if c.kind.ConnectionSite? {
      RecordComesDue(c, todo, d);
    }
  }

  /** The lists start with what has to come first and leave nobody out. */
  lemma RecoverCovers(c: Ctx)
    requires SendersExplained(c)
    ensures Justified(c, RecoverActs(c.kind)) && Remaining(c, RecoverActs(c.kind))
  {
    var acts := RecoverActs(c.kind);
    if c.kind.ConnectionSite? {
      assert acts[2] == TakeConnected && acts[3] == TakeUni && acts[4] == TakeBidi && acts[5] == TakeShutdown;
    } else {
      assert acts[0] == QueueEnd && acts[1] == TakeShutdown;
    }
  }

  lemma BodyActsAreJustified(c: Ctx, ev: Event, a: Answer)
    ensures Justified(c, HandlingActs(c.kind, ev)) && Justified(c, RefusalActs(c.kind, a))
  {
  }

  lemma FreshTodos(c: Ctx, x: Invocation, l: Label)
    requires OfCall(l) && CallEnabled(x, l) && !l.Act? && SendersExplained(c) && TodoOk(x) && CallCtx(c, x)
    ensures CallCtx(c, CallDo(c, x, l))
  {
    match l {
      case Enter(_) => BodyActsAreJustified(c, x.event, Accepted(0));
      case Validate(_, a) => BodyActsAreJustified(c, x.event, a);
      case Unwind(_) => RecoverCovers(c);
      case _ =>
    }
  }

  lemma OwnStepKeeps(c: Ctx, x: Invocation, l: Label)
    requires OfCall(l) && CallEnabled(x, l) && SendersExplained(c) && TodoOk(x) && CallCtx(c, x)
    ensures CallCtx(CtxDo(c, x, l), CallDo(c, x, l)) && SendersExplained(CtxDo(c, x, l))
    ensures l.Poison? ==> Woken(c)
  {
    if l.Act? {
      var d := Perform(c, x.todo[0]);
      PerformActs(c, x.todo[0]);
      ActKeepsContext(c, x.todo, d);
      if x.pc.Recovering? {
        ActKeepsRemaining(c, x.todo, d);
      }
    } else {
      FreshTodos(c, x, l);
      StepAdvances(c, x, l);
      AdvancingKeeps(c, CtxDo(c, x, l), CallDo(c, x, l));
    }
  }

  lemma CallCtxStep(w: World, l: Label)
    requires Enabled(w, l) && OfCall(l) && CtxOk(w) && TodoOk(w.calls[l.n])
    ensures CtxOk(Do(w, l)) && Do(w, l).ctx.kind == w.ctx.kind
  {
    var x := w.calls[l.n];
    OwnStepKeeps(w.ctx, x, l);
    StepAdvances(w.ctx, x, l);
    PoisonStep(w.ctx, x, l);
    AdvancingKeeps(w.ctx, CtxDo(w.ctx, x, l), x);
    OthersAdvance(w, CtxDo(w.ctx, x, l));
  }

  lemma PoisonStep(c: Ctx, x: Invocation, l: Label)
    requires OfCall(l) && CallEnabled(x, l)
    ensures CtxDo(c, x, l).poisoned <==> c.poisoned || l.Poison?
  {
    if l.Act? {
      PerformActs(c, x.todo[0]);
    }
  }

  lemma OthersAdvance(w: World, d: Ctx)
    requires CtxOk(w) && Advances(w.ctx, d)
    ensures forall n :: 0 <= n < |w.calls| ==> CallCtx(d, w.calls[n])
  {
    forall n | 0 <= n < |w.calls|
      ensures CallCtx(d, w.calls[n])
    {
      AdvancingKeeps(w.ctx, d, w.calls[n]);
    }
  }

  lemma OtherCtxStep(w: World, l: Label)
    requires Enabled(w, l) && !OfCall(l) && CtxOk(w)
    ensures CtxOk(Do(w, l)) && Do(w, l).ctx.kind == w.ctx.kind
  {
    OthersAdvance(w, Do(w, l).ctx);
  }

  /** What is known of one invocation, whatever the others do. */
  predicate OneOk(kind: Kind, x: Invocation) { CallOk(x) && TodoOk(x) && ByKind(kind, x) && Explained(kind, x) }

  lemma OneStepKeeps(c: Ctx, x: Invocation, l: Label)
    requires OfCall(l) && CallEnabled(x, l) && OneOk(c.kind, x)
    ensures OneOk(c.kind, CallDo(c, x, l))
  {
    CallStepKeeps(c, x, l);
    KindStepKeeps(c, x, l);
    ExplainStepKeeps(c, x, l);
  }

  lemma StepKeeps(w: World, l: Label)
    requires Enabled(w, l) && Inv(w)
    ensures Inv(Do(w, l)) && Do(w, l).ctx.kind == w.ctx.kind
  {
    if OfCall(l) {
      CallCtxStep(w, l);
      OneStepKeeps(w.ctx, w.calls[l.n], l);
    } else {
      OtherCtxStep(w, l);
    }
  }

  lemma {:induction false} RunsKeep(w: World, ls: seq<Label>)
    requires Inv(w) && After(w, ls).Some?
    ensures Inv(After(w, ls).value) && After(w, ls).value.ctx.kind == w.ctx.kind
    decreases |ls|
  {
    if ls != [] {
      RunsKeep(w, ls[..|ls| - 1]);
      StepKeeps(After(w, ls[..|ls| - 1]).value, ls[|ls| - 1]);
    }
  }

  lemma RunKeeps(kind: Kind, ls: seq<Label>)
    requires After(Init(kind), ls).Some?
    ensures Inv(After(Init(kind), ls).value) && After(Init(kind), ls).value.ctx.kind == kind
  {
    RunsKeep(Init(kind), ls);
  }
}
