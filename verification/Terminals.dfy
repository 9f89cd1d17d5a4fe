/** The terminal-cause vocabulary and the two shared slots that record why a
    connection or a send half ended. A slot is a first-writer cell in which one
    provisional value may still be refined to a specific one. */
module Terminals {
  import opened Options

  datatype Status = Aborted | ConnectionTimeout | ConnectionIdle | InternalError | Pending | OtherStatus(code: int)

  /** The adapter's internal-fault messages, one constructor per message. */
  datatype Fault =
    | SendSubmittedWithoutReservation
    | GracefulSubmittedWithoutReservation
    | ResetSubmittedWithoutReservation
    | ResetDuringReservation
    | PollReadyDuringReservation
    | PollFinishDuringReservation
    | CompleteWithoutSend
    | CancelledCompleteWithoutSend
    | WakeWithoutTerminal
    | ImpossibleFinishEvent
    | ChannelClosedWithoutTerminal
    | FinishEventOnPollReady
    | FinishCompleteWithoutStart
    | PollReadyAfterFinish
    | MissingClientContext
    | CallbackPanicked
    | AcceptedIdQueryFailed
    | AcceptedIdInvalid

  datatype ConnectionTerminal =
    | PeerApplication(code: nat)
    | Timeout
    | Transport(status: Status, errorCode: nat)
    | LocalClose
    | Internal(fault: Fault)
  {
    predicate IsProvisional() { LocalClose? }
  }

  datatype SendTerminal =
    | Stopped(code: nat)
    | Connection(reason: ConnectionTerminal)
    | LocalReset(code: nat)
    | Failed(status: Status)
    | ProvisionalAbort
    | Internal(fault: Fault)
  {
    predicate IsProvisional() { ProvisionalAbort? }
  }

  /** QUIC variable-length integers hold 62 bits (section 16 of RFC 9000). */
  const MAX_VARINT: nat := 0x3fff_ffff_ffff_ffff

  function Clamp(code: nat): nat { if code < MAX_VARINT then code else MAX_VARINT }

  // ---------------------------------------------------------------- classifiers

  function ClassifyTransport(status: Status, errorCode: nat): ConnectionTerminal {
    if status.ConnectionTimeout? || status.ConnectionIdle? then Timeout else Transport(status, errorCode)
  }

  /** What a stream's `ShutdownComplete` says about its connection. */
  datatype Shutdown = Shutdown(
    connection: bool,
    byApp: bool,
    closedRemotely: bool,
    errorCode: nat,
    status: Status)

  function ClassifyConnShutdown(e: Shutdown): ConnectionTerminal {
    if e.byApp then
      if e.closedRemotely then PeerApplication(e.errorCode) else LocalClose
    else
      ClassifyTransport(e.status, e.errorCode)
  }

  /** A stream-local shutdown names no connection cause. */
  function ShutdownCause(e: Shutdown): Option<ConnectionTerminal> {
    if e.connection then Some(ClassifyConnShutdown(e)) else None
  }

  // ------------------------------------------------------------ connection slot

  datatype ConnSlot = ConnSlot(terminal: Option<ConnectionTerminal>, observed: bool)

  const EMPTY_CONN: ConnSlot := ConnSlot(None, false)

  function Record(s: ConnSlot, candidate: ConnectionTerminal): ConnSlot {
    if s.observed then s
    else match s.terminal
      case None => s.(terminal := Some(candidate))
      case Some(existing) =>
        if existing.IsProvisional() && !candidate.IsProvisional() then s.(terminal := Some(candidate)) else s
  }

  function Observe(s: ConnSlot): ConnSlot { s.(observed := true) }

  function Commit(s: ConnSlot): ConnSlot { if s.terminal.Some? then Observe(s) else s }

  /** A slot frozen without a cause can never be produced by the delivery points. */
  predicate Sound(s: ConnSlot) { s.observed ==> s.terminal.Some? }

  /** `after` is a possible later content of a slot that held `before`. */
  predicate Leads(before: ConnSlot, after: ConnSlot) {
    && (before.observed ==> after == before)
    && (before.terminal.Some? ==> after.terminal.Some?)
    && (before.terminal.Some? && !before.terminal.value.IsProvisional() ==> after.terminal == before.terminal)
  }

  lemma OperationsLead(s: ConnSlot, candidate: ConnectionTerminal)
    ensures Leads(s, Record(s, candidate)) && Leads(s, Observe(s)) && Leads(s, Commit(s))
    ensures Sound(s) ==> Sound(Record(s, candidate)) && Sound(Commit(s))
    ensures Sound(s) && s.terminal.Some? ==> Sound(Observe(s))
  {
  }

  /** The reference meaning of the recording rule: the first specific cause, or
      else the provisional one if anything was recorded at all. */
  function Winner(causes: seq<ConnectionTerminal>): Option<ConnectionTerminal> {
    if causes == [] then None
    else
      var w := Winner(causes[..|causes| - 1]);
      var c := causes[|causes| - 1];
      if w.None? || (w.value.IsProvisional() && !c.IsProvisional()) then Some(c) else w
  }

  /** `Winner` really is the first specific cause, or LocalClose when there is none. */
  lemma {:induction false} WinnerIsFirstSpecific(causes: seq<ConnectionTerminal>)
    ensures causes == [] <==> Winner(causes).None?
    ensures (exists i :: 0 <= i < |causes| && !causes[i].IsProvisional()) ==>
      exists i :: 0 <= i < |causes| && !causes[i].IsProvisional() && Winner(causes) == Some(causes[i])
        && forall j :: 0 <= j < i ==> causes[j].IsProvisional()
    ensures causes != [] && (forall i :: 0 <= i < |causes| ==> causes[i].IsProvisional()) ==>
      Winner(causes) == Some(LocalClose)
  {
    if causes != [] {
      var front := causes[..|causes| - 1];
      WinnerIsFirstSpecific(front);
      if exists i :: 0 <= i < |front| && !front[i].IsProvisional() {
        var i :| 0 <= i < |front| && !front[i].IsProvisional() && Winner(front) == Some(front[i])
          && forall j :: 0 <= j < i ==> front[j].IsProvisional();
        assert Winner(causes) == Some(causes[i]);
        assert forall j :: 0 <= j < i ==> causes[j] == front[j];
      } else {
        var n := |causes| - 1;
        assert forall j :: 0 <= j < n ==> causes[j] == front[j];
        if !causes[n].IsProvisional() {
          assert Winner(causes) == Some(causes[n]);
        }
      }
    }
  }

  // ------------------------------------------------------------------ send slot

  type SendSlot = Option<SendTerminal>

  /** An authoritative cause: the only kind that is ever surfaced to the caller. */
  predicate Authoritative(s: SendSlot) { s.Some? && !s.value.IsProvisional() }

  function Publish(s: SendSlot, candidate: SendTerminal): (r: SendSlot)
    ensures r.Some?
    ensures Authoritative(s) ==> r == s
    ensures !candidate.IsProvisional() ==> Authoritative(r)
  {
    match s
    case None => Some(candidate)
    case Some(existing) =>
      if existing.IsProvisional() && !candidate.IsProvisional() then Some(candidate) else s
  }

  function PublishAll(s: SendSlot, candidates: seq<SendTerminal>): SendSlot {
    if candidates == [] then s
    else Publish(PublishAll(s, candidates[..|candidates| - 1]), candidates[|candidates| - 1])
  }

  /** Whatever order callback and frontend publish in, an empty slot ends up with
      the first authoritative candidate, or with the marker when there is none. */
  lemma {:induction false} SlotKeepsFirstAuthoritative(candidates: seq<SendTerminal>)
    ensures (exists i :: 0 <= i < |candidates| && !candidates[i].IsProvisional()) ==>
      exists i :: 0 <= i < |candidates| && !candidates[i].IsProvisional()
        && PublishAll(None, candidates) == Some(candidates[i])
        && forall j :: 0 <= j < i ==> candidates[j].IsProvisional()
    ensures (forall i :: 0 <= i < |candidates| ==> candidates[i].IsProvisional()) ==>
      PublishAll(None, candidates) == if candidates == [] then None else Some(ProvisionalAbort)
  {
    if candidates != [] {
      var n := |candidates| - 1;
      var front := candidates[..n];
      SlotKeepsFirstAuthoritative(front);
      assert forall j :: 0 <= j < n ==> candidates[j] == front[j];
      if exists i :: 0 <= i < |front| && !front[i].IsProvisional() {
        var i :| 0 <= i < |front| && !front[i].IsProvisional() && PublishAll(None, front) == Some(front[i])
          && forall j :: 0 <= j < i ==> front[j].IsProvisional();
        assert PublishAll(None, candidates) == Some(candidates[i]);
      } else if !candidates[n].IsProvisional() {
        assert PublishAll(None, candidates) == Some(candidates[n]);
      }
    }
  }

  // ------------------------------------------------- the cells, as they are used

  /** The connection's terminal cell. Every method is one critical section. */
  class ConnTerminalState {
    var terminal: Option<ConnectionTerminal>
    var observed: bool

    function View(): ConnSlot
      reads this
    {
      ConnSlot(terminal, observed)
    }

    constructor ()
      ensures View() == EMPTY_CONN
    {
      terminal, observed := None, false;
    }

    method RecordCause(candidate: ConnectionTerminal)
      modifies this
      ensures View() == Record(old(View()), candidate)
    {
      if observed {
        return;
      }
      match terminal {
        case None => terminal := Some(candidate);
        case Some(existing) =>
          if existing.IsProvisional() && !candidate.IsProvisional() {
            terminal := Some(candidate);
          }
      }
    }

    method ObserveCause() returns (r: Option<ConnectionTerminal>)
      modifies this
      ensures View() == Observe(old(View())) && r == old(terminal)
    {
      observed := true;
      r := terminal;
    }

    /** Freezes and hands out the cause only when there is one. */
    method CommitCause() returns (r: Option<ConnectionTerminal>)
      modifies this
      ensures View() == Commit(old(View())) && r == old(terminal)
      ensures r.None? ==> unchanged(this)
    {
      if terminal.Some? {
        r := ObserveCause();
      } else {
        r := None;
      }
    }

    /** The accept frontends' fail-fast read: only an internal cause is delivered. */
    method FailFast() returns (r: Option<ConnectionTerminal>)
      modifies this
      ensures r.Some? <==> old(terminal).Some? && old(terminal).value.Internal?
      ensures if r.Some? then r == old(terminal) && View() == Observe(old(View())) else unchanged(this)
    {
      if terminal.Some? && terminal.value.Internal? {
        r := ObserveCause();
      } else {
        r := None;
      }
    }
  }

  /** The send half's terminal cell. */
  class SendTerminalCell {
    var slot: SendSlot

    constructor ()
      ensures slot == None
    {
      slot := None;
    }

    method PublishSend(candidate: SendTerminal) returns (winner: SendTerminal)
      modifies this
      ensures slot == Publish(old(slot), candidate) == Some(winner)
    {
      match slot {
        case None =>
          slot := Some(candidate);
          winner := candidate;
        case Some(existing) =>
          if existing.IsProvisional() && !candidate.IsProvisional() {
            slot := Some(candidate);
            winner := candidate;
          } else {
            winner := existing;
          }
      }
    }
  }
}
