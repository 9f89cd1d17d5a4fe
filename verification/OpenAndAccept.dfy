/** The open and accept frontends of one connection. They share the terminal slot with
    every stream, and any move of the connection may fall between two of their steps. */
module OpenAndAccept {
  import opened Options
  import opened Terminals
  import opened Agreement
  import Callbacks = Ownership

  datatype NativeOpen = Submitted | OpenFailed(status: Status)

  /** The `StartComplete` one-shot as a poll finds it. */
  datatype StartPoll = NotYet | Started(rawId: nat) | StartFailed(status: Status) | Cancelled

  datatype Outcome =
    | PendingOpen
    | Opened(id: nat)
    | Caused(cause: ConnectionTerminal)
    | NoReason
    | Unknown(status: Status)
    | InvalidLocalId

  datatype AcceptOutcome =
    | PendingAccept
    | AcceptedStream(id: nat)
    | AcceptCaused(cause: ConnectionTerminal)
    | AcceptNoReason

  predicate IsPrefix(xs: seq<Move>, ys: seq<Move>) { |xs| <= |ys| && ys[..|xs|] == xs }

  lemma PlayOn(ms: seq<Move>, n: Net, m: Move)
    requires Play(ms) == Some(n) && Can(n, m)
    ensures Play(ms + [m]) == Some(Make(n, m)) && IsPrefix(ms, ms + [m])
  {
    assert (ms + [m])[..|ms|] == ms;
  }

  lemma SlotIsSound(ms: seq<Move>, n: Net)
    requires Play(ms) == Some(n)
    ensures Sound(n.conn)
  {
    PlayKeeps(ms);
  }

  lemma PrefixIsTransitive(a: seq<Move>, b: seq<Move>, c: seq<Move>)
    requires IsPrefix(a, b) && IsPrefix(b, c)
    ensures IsPrefix(a, c)
  {
    assert c[..|a|] == c[..|b|][..|a|];
  }

  /** What the other parties leave of a connection that an accept poll works on: a recorded
      cause stays, queues only grow, and a queue without a sender stays as it is. */
  predicate Onward(a: Net, b: Net) {
    && (a.conn.terminal.Some? ==> b.conn.terminal.Some?)
    && (forall oneWay :: Queue(a, oneWay) <= Queue(b, oneWay))
    && (forall oneWay :: !SenderOpen(a, oneWay) ==> !SenderOpen(b, oneWay) && Queue(b, oneWay) == Queue(a, oneWay))
  }

  lemma SiteOnward(n: Net, c: Callbacks.Label, oneWay: bool)
    requires SiteOk(n) && Can(n, SiteMoves(c))
    ensures var v := SiteDoes(n, c);
      && Queue(n, oneWay) <= Queue(v, oneWay)
      && (!SenderOpen(n, oneWay) ==> !SenderOpen(v, oneWay) && Queue(v, oneWay) == Queue(n, oneWay))
  {
    if Callbacks.OfCall(c) {
      var w := Site(n.conn, n.site);
      Callbacks.StepAdvances(w.ctx, w.calls[c.n], c);
    }
  }

  lemma QueuesGrow(n: Net, m: Move, oneWay: bool)
    requires SiteOk(n) && Can(n, m) && !m.AcceptPops?
    ensures var v := Make(n, m);
      && Queue(n, oneWay) <= Queue(v, oneWay)
      && (!SenderOpen(n, oneWay) ==> !SenderOpen(v, oneWay) && Queue(v, oneWay) == Queue(n, oneWay))
  {
    if m.SiteMoves? {
      SiteOnward(n, m.c, oneWay);
    }
  }

  lemma MovesOnward(ms: seq<Move>, n: Net, m: Move)
    requires Play(ms) == Some(n) && Can(n, m) && !m.AcceptPops?
    ensures Onward(n, Make(n, m))
  {
    PlayKeeps(ms);
    MoveKeeps(n, m);
    QueuesGrow(n, m, true);
    QueuesGrow(n, m, false);
  }

  lemma FirstWasDelivered(ms: seq<Move>, n: Net, oneWay: bool)
    requires Play(ms) == Some(n) && Queue(n, oneWay) != []
    ensures Queued(n.site, Queue(n, oneWay)[0], oneWay)
  {
    PlayKeeps(ms);
    assert SiteOk(n);
  }

  /** What a queue gained. */
  function Gained(before: seq<nat>, after: seq<nat>): (late: seq<nat>)
    requires before <= after
    ensures before + late == after
  {
    after[|before|..]
  }

  /** Two gains in a row, and at most one stream taken from the front. */
  lemma GainsAddUp(q0: seq<nat>, gain: seq<nat>, q1: seq<nat>, late: seq<nat>, taken: seq<nat>, q2: seq<nat>)
    requires q0 + gain == q1 && q1 + late == taken + q2
    ensures q0 + (gain + late) == taken + q2
  {
    assert q0 + (gain + late) == q0 + gain + late;
  }

  function Taken(outcome: AcceptOutcome): seq<nat> { if outcome.AcceptedStream? then [outcome.id] else [] }

  class Frontends {
    /** The terminal cell shared with every stream of the connection. */
    const conn: ConnTerminalState
    var streams: map<nat, Both>
    var log: seq<Note>
    /** The connection callback's context, with its accept senders and its invocations. */
    var site: Callbacks.World
    /** Streams delivered and not accepted yet, per direction. */
    var uni: seq<nat>
    var bidi: seq<nat>
    var holder: bool
    var nativeOpens: nat

    constructor ()
      ensures Now() == UNCONNECTED && !holder && nativeOpens == 0 && fresh(conn)
    {
      conn := new ConnTerminalState();
      streams, log, site, uni, bidi := map[], [], UNCONNECTED.site, [], [];
      holder, nativeOpens := false, 0;
    }

    function Now(): Net
      reads this, conn
    {
      Net(conn.View(), streams, site, uni, bidi, log)
    }

    ghost predicate Tracks(ms: seq<Move>)
      reads this, conn
    {
      Play(ms) == Some(Now())
    }

    /** The shared slot was seen empty at this point of the run. */
    ghost predicate SawEmpty(ms: seq<Move>, asked: seq<Move>)
    {
      IsPrefix(asked, ms) && Play(asked).Some? && Play(asked).value.conn.terminal.None?
    }

    method Interfere(ghost ms0: seq<Move>) returns (ghost ms: seq<Move>)
      requires Tracks(ms0)
      modifies conn, this`streams, this`site, this`uni, this`bidi, this`log
      ensures Tracks(ms) && IsPrefix(ms0, ms) && Onward(old(Now()), Now())
    {
      ms := ms0;
      var left: nat := *;
      while left > 0
        invariant Tracks(ms) && IsPrefix(ms0, ms) && Onward(old(Now()), Now())
      {
        var m: Move := *;
        if Can(Now(), m) && !m.AcceptPops? {
          PlayOn(ms, Now(), m);
          MovesOnward(ms, Now(), m);
          PrefixIsTransitive(ms0, ms, ms + [m]);
          ms := ms + [m];
          var v := Make(Now(), m);
          conn.terminal, conn.observed := v.conn.terminal, v.conn.observed;
          streams, site, uni, bidi, log := v.streams, v.site, v.uni, v.bidi, v.log;
        }
        left := left - 1;
      }
    }

    /** `commit_conn` for the open or the accept side, after others had their turn. */
    method AskCause(who: Frontend, ghost ms0: seq<Move>) returns (r: Option<ConnectionTerminal>, ghost ms: seq<Move>)
      requires Tracks(ms0) && (who.Accept? || who.Open?)
      modifies conn, this`streams, this`site, this`uni, this`bidi, this`log
      ensures Tracks(ms) && IsPrefix(ms0, ms) && |ms| > |ms0|
      ensures r == conn.terminal && (r.Some? ==> Told(who, r.value)) && Onward(old(Now()), Now())
    {
      ms := Interfere(ms0);
      PlayOn(ms, Now(), CauseAsked(who));
      PrefixIsTransitive(ms0, ms, ms + [CauseAsked(who)]);
      ms := ms + [CauseAsked(who)];
      r := conn.CommitCause();
      if r.Some? {
        log := log + [Delivered(who, r.value)];
      }
    }

    /** The cause was just handed out: frozen in the slot, and noted as delivered. */
    predicate Told(who: Frontend, cause: ConnectionTerminal)
      reads this, conn
    {
      && conn.View() == ConnSlot(Some(cause), true)
      && |log| > 0 && log[|log| - 1] == Delivered(who, cause)
    }

    /** One `poll_open_inner`. A connection cause is always the shared, frozen one; any
        other failure is reported only if the slot was found empty after the failure
        (`asked` extends `seen`), and an opening stream is kept exactly while pending. */
    method PollOpen(ghost ms0: seq<Move>)
      returns (outcome: Outcome, ghost seen: seq<Move>, ghost asked: seq<Move>, ghost ms: seq<Move>)
      requires Tracks(ms0)
      modifies conn, this`streams, this`site, this`uni, this`bidi, this`log, this`holder, this`nativeOpens
      ensures Tracks(ms) && IsPrefix(ms0, seen) && IsPrefix(seen, asked) && IsPrefix(asked, ms)
      ensures if outcome.Caused? then Told(Open, outcome.cause) else SawEmpty(ms, asked)
      ensures outcome.Unknown? || outcome.NoReason? ==> |asked| > |seen| > |ms0|
      ensures holder <==> outcome.PendingOpen?
      ensures nativeOpens <= old(nativeOpens) + (if old(holder) then 0 else 1)
      ensures outcome.Opened? ==> outcome.id <= MAX_VARINT
    {
      seen := ms0;
      var cause;
      cause, asked := AskCause(Open, ms0);
      ms := asked;
      if cause.Some? {
        holder := false;
        return Caused(cause.value), seen, asked, ms;
      }
      if !holder {
        var opening: NativeOpen := *;
        nativeOpens := nativeOpens + 1;
        if opening.OpenFailed? {
          outcome, seen, asked, ms := FailedOpen(Unknown(opening.status), ms0, ms);
          return;
        }
        holder := true;
      }
      outcome, seen, asked, ms := AwaitStart(ms0, ms);
    }

    /** The third and fourth stage: the start one-shot, then its classification. */
    method AwaitStart(ghost ms0: seq<Move>, ghost asked0: seq<Move>)
      returns (outcome: Outcome, ghost seen: seq<Move>, ghost asked: seq<Move>, ghost ms: seq<Move>)
      requires Tracks(asked0) && IsPrefix(ms0, asked0) && |asked0| > |ms0| && conn.terminal.None? && holder
      modifies conn, this`streams, this`site, this`uni, this`bidi, this`log, this`holder
      ensures Tracks(ms) && IsPrefix(ms0, seen) && IsPrefix(seen, asked) && IsPrefix(asked, ms)
      ensures if outcome.Caused? then Told(Open, outcome.cause) else SawEmpty(ms, asked)
      ensures outcome.Unknown? || outcome.NoReason? ==> |asked| > |seen| > |ms0|
      ensures holder <==> outcome.PendingOpen?
      ensures outcome.Opened? ==> outcome.id <= MAX_VARINT
    {
      seen, asked := ms0, asked0;
      ms := Interfere(asked0);
      var start: StartPoll := *;
      match start {
        case NotYet => outcome := PendingOpen;
        case Cancelled =>
          holder := false;
          PrefixIsTransitive(ms0, asked0, ms);
          outcome, seen, asked, ms := FailedOpen(NoReason, ms0, ms);
        case StartFailed(status) =>
          holder := false;
          PrefixIsTransitive(ms0, asked0, ms);
          outcome, seen, asked, ms := FailedOpen(Unknown(status), ms0, ms);
        case Started(rawId) =>
          holder := false;
          outcome := if rawId <= MAX_VARINT then Opened(rawId) else InvalidLocalId;
      }
    }

    /** A failed open prefers a cause that was recorded meanwhile. */
    method FailedOpen(otherwise: Outcome, ghost ms0: seq<Move>, ghost seen0: seq<Move>)
      returns (outcome: Outcome, ghost seen: seq<Move>, ghost asked: seq<Move>, ghost ms: seq<Move>)
      requires Tracks(seen0) && IsPrefix(ms0, seen0) && |seen0| > |ms0| && (otherwise.Unknown? || otherwise.NoReason?)
      modifies conn, this`streams, this`site, this`uni, this`bidi, this`log
      ensures Tracks(ms) && ms == asked && seen == seen0 && IsPrefix(seen, asked) && |asked| > |seen|
      ensures outcome == if conn.terminal.Some? then Caused(conn.terminal.value) else otherwise
      ensures outcome.Caused? ==> Told(Open, outcome.cause)
    {
      seen := seen0;
      var cause;
      cause, ms := AskCause(Open, seen0);
      asked := ms;
      outcome := if cause.Some? then Caused(cause.value) else otherwise;
    }

    /** One accept poll, for streams of one direction: an internal cause overtakes queued
        streams; any other cause is told only once the queue is empty and its sender gone.
        Then there is one: the answer without a reason is never given. */
    method PollAccept(oneWay: bool, ghost ms0: seq<Move>)
      returns (outcome: AcceptOutcome, ghost late: seq<nat>, ghost ms: seq<Move>)
      requires Tracks(ms0)
      modifies conn, this`streams, this`site, this`uni, this`bidi, this`log
      ensures Tracks(ms) && IsPrefix(ms0, ms)
      ensures !outcome.AcceptNoReason?
      ensures outcome.AcceptCaused? ==> Told(Accept, outcome.cause)
      ensures outcome.AcceptCaused? && !outcome.cause.Internal? ==>
        Queue(Now(), oneWay) == [] && !SenderOpen(Now(), oneWay)
      ensures outcome.PendingAccept? ==> Queue(Now(), oneWay) == [] && SenderOpen(Now(), oneWay)
      ensures outcome.AcceptedStream? ==> Queued(site, outcome.id, oneWay)
      ensures old(Queue(Now(), oneWay)) + late == Taken(outcome) + Queue(Now(), oneWay)
    {
      ghost var q0 := Queue(Now(), oneWay);
      var internal;
      ghost var asked;
      internal, asked := FailFastCause(ms0);
      ghost var q1 := Queue(Now(), oneWay);
      if internal.Some? {
        return AcceptCaused(internal.value), Gained(q0, q1), asked;
      }
      outcome, late, ms := ReadQueue(oneWay, asked);
      GainsAddUp(q0, Gained(q0, q1), q1, late, Taken(outcome), Queue(Now(), oneWay));
      late := Gained(q0, q1) + late;
      PrefixIsTransitive(ms0, asked, ms);
    }

    /** The accept channel as a poll finds it: a stream, nothing yet, or closed. */
    method ReadQueue(oneWay: bool, ghost ms0: seq<Move>)
      returns (outcome: AcceptOutcome, ghost late: seq<nat>, ghost ms: seq<Move>)
      requires Tracks(ms0)
      modifies conn, this`streams, this`site, this`uni, this`bidi, this`log
      ensures Tracks(ms) && IsPrefix(ms0, ms)
      ensures !outcome.AcceptNoReason?
      ensures outcome.AcceptCaused? ==>
        Told(Accept, outcome.cause) && Queue(Now(), oneWay) == [] && !SenderOpen(Now(), oneWay)
      ensures outcome.PendingAccept? ==> Queue(Now(), oneWay) == [] && SenderOpen(Now(), oneWay)
      ensures outcome.AcceptedStream? ==> Queued(site, outcome.id, oneWay)
      ensures old(Queue(Now(), oneWay)) + late == Taken(outcome) + Queue(Now(), oneWay)
    {
      ghost var q0 := Queue(Now(), oneWay);
      ghost var read := Interfere(ms0);
      late := Gained(q0, Queue(Now(), oneWay));
      if Queue(Now(), oneWay) != [] {
        var id;
        id, ms := PopStream(oneWay, read);
        outcome := AcceptedStream(id);
      } else if SenderOpen(Now(), oneWay) {
        outcome, ms := PendingAccept, read;
      } else {
        outcome, ms := ClosedQueue(oneWay, read);
      }
      PrefixIsTransitive(ms0, read, ms);
    }

    /** The next delivered stream leaves its queue. */
    method PopStream(oneWay: bool, ghost ms0: seq<Move>) returns (id: nat, ghost ms: seq<Move>)
      requires Tracks(ms0) && Queue(Now(), oneWay) != []
      modifies this`uni, this`bidi
      ensures Tracks(ms) && IsPrefix(ms0, ms) && Queued(site, id, oneWay)
      ensures old(Queue(Now(), oneWay)) == [id] + Queue(Now(), oneWay)
    {
      FirstWasDelivered(ms0, Now(), oneWay);
      PlayOn(ms0, Now(), AcceptPops(oneWay));
      ms := ms0 + [AcceptPops(oneWay)];
      id := Queue(Now(), oneWay)[0];
      if oneWay {
        uni := uni[1..];
      } else {
        bidi := bidi[1..];
      }
    }

    /** Nothing is queued and nothing will be: the recorded cause is told. */
    method ClosedQueue(oneWay: bool, ghost ms0: seq<Move>) returns (outcome: AcceptOutcome, ghost ms: seq<Move>)
      requires Tracks(ms0) && Queue(Now(), oneWay) == [] && !SenderOpen(Now(), oneWay)
      modifies conn, this`streams, this`site, this`uni, this`bidi, this`log
      ensures Tracks(ms) && IsPrefix(ms0, ms) && Queue(Now(), oneWay) == [] && !SenderOpen(Now(), oneWay)
      ensures outcome.AcceptCaused? && Told(Accept, outcome.cause)
    {
      ClosedAcceptHasCause(ms0, oneWay);
      var cause;
      cause, ms := AskCause(Accept, ms0);
      outcome := if cause.Some? then AcceptCaused(cause.value) else AcceptNoReason;
    }

    method FailFastCause(ghost ms0: seq<Move>) returns (r: Option<ConnectionTerminal>, ghost ms: seq<Move>)
      requires Tracks(ms0)
      modifies conn, this`streams, this`site, this`uni, this`bidi, this`log
      ensures Tracks(ms) && IsPrefix(ms0, ms)
      ensures r.Some? <==> conn.terminal.Some? && conn.terminal.value.Internal?
      ensures r.Some? ==> Told(Accept, r.value)
      ensures Onward(old(Now()), Now())
    {
      ms := Interfere(ms0);
      PlayOn(ms, Now(), AcceptFailsFast);
      PrefixIsTransitive(ms0, ms, ms + [AcceptFailsFast]);
      ms := ms + [AcceptFailsFast];
      r := conn.FailFast();
      if r.Some? {
        log := log + [Delivered(Accept, r.value)];
      }
    }

    /** A local close is recorded before the native shutdown, with a 62-bit code. */
    method Close(code: nat, ghost ms0: seq<Move>) returns (wireCode: nat, ghost ms: seq<Move>)
      requires Tracks(ms0)
      modifies conn, this`streams, this`site, this`uni, this`bidi, this`log
      ensures Tracks(ms) && IsPrefix(ms0, ms) && conn.terminal.Some?
      ensures wireCode <= MAX_VARINT && (code <= MAX_VARINT ==> wireCode == code)
    {
      ms := Interfere(ms0);
      SlotIsSound(ms, Now());
      PlayOn(ms, Now(), CauseRecorded(LocalClose));
      PrefixIsTransitive(ms0, ms, ms + [CauseRecorded(LocalClose)]);
      ms := ms + [CauseRecorded(LocalClose)];
      conn.RecordCause(LocalClose);
      log := log + [Recorded(LocalClose)];
      wireCode := Clamp(code);
    }
  }
}
