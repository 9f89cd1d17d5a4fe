/** Per-stream receive accounting: bytes and units buffered by the adapter, and the
    pause that holds the native side back while either budget is used up. */
module ReceiveBudget {
  import opened Options
  import opened Terminals

  datatype Caps = Caps(maxBytes: nat, maxUnits: nat)
  {
    predicate Valid() { maxBytes > 0 && maxUnits > 0 }
  }

  datatype RecvState = RecvState(
    buffered: nat,
    units: nat,
    pendOutstanding: bool,
    pendingLen: nat,
    peak: nat,
    peakUnits: nat)

  const DRAINED: RecvState := RecvState(0, 0, false, 0, 0, 0)

  datatype Admit = Accepted | Pend | PublishFailed

  function Max(a: nat, b: nat): nat { if a < b then b else a }

  function SaturatingSub(a: nat, b: nat): nat { if a < b then 0 else a - b }

  predicate Over(c: Caps, st: RecvState) { st.buffered >= c.maxBytes || st.units >= c.maxUnits }

  /** The accounting of one indication that was handed to the queue. */
  function Charge(c: Caps, st: RecvState, total: nat, chargeUnit: bool): RecvState {
    var buffered := st.buffered + total;
    var units := if chargeUnit then st.units + 1 else st.units;
    var t := st.(buffered := buffered, units := units, peak := Max(st.peak, buffered),
                 peakUnits := if chargeUnit then Max(st.peakUnits, units) else st.peakUnits);
    if Over(c, t) then t.(pendOutstanding := true, pendingLen := total) else t
  }

  function AdmitStep(c: Caps, st: RecvState, total: nat, chargeUnit: bool, published: bool): (RecvState, Admit) {
    if !published then (st, PublishFailed)
    else
      var t := Charge(c, st, total, chargeUnit);
      (t, if Over(c, t) then Pend else Accepted)
  }

  function DrainStep(c: Caps, st: RecvState, len: nat): (RecvState, Option<nat>) {
    var t := st.(buffered := SaturatingSub(st.buffered, len), units := SaturatingSub(st.units, 1));
    if t.pendOutstanding && !Over(c, t) then (t.(pendOutstanding := false, pendingLen := 0), Some(t.pendingLen))
    else (t, None)
  }

  /** A pause is outstanding exactly while a budget is used up. */
  predicate PendExact(c: Caps, st: RecvState) { st.pendOutstanding <==> Over(c, st) }

  lemma PendStaysExact(c: Caps, st: RecvState, total: nat, chargeUnit: bool, published: bool)
    requires PendExact(c, st)
    ensures PendExact(c, AdmitStep(c, st, total, chargeUnit, published).0)
    ensures PendExact(c, DrainStep(c, st, total).0)
    ensures AdmitStep(c, st, total, chargeUnit, published).1 == Pend <==>
      published && AdmitStep(c, st, total, chargeUnit, published).0.pendOutstanding
    ensures DrainStep(c, st, total).1.Some? <==> st.pendOutstanding && !DrainStep(c, st, total).0.pendOutstanding
  {
  }

  /** The budget behind its lock; each method is one critical section. */
  class RecvBudget {
    const caps: Caps
    var buffered: nat
    var units: nat
    var pendOutstanding: bool
    var pendingIndicationLen: nat
    var peak: nat
    var peakUnits: nat

    function View(): RecvState
      reads this
    {
      RecvState(buffered, units, pendOutstanding, pendingIndicationLen, peak, peakUnits)
    }

    constructor (caps: Caps)
      ensures this.caps == caps && View() == DRAINED
    {
      this.caps := caps;
      buffered, units, pendOutstanding, pendingIndicationLen, peak, peakUnits := 0, 0, false, 0, 0, 0;
    }

    /** `published` is what the hand-off to the queue, the last step under the lock,
        came to; when it failed the whole transition is rolled back. */
    method AdmitIndication(total: nat, chargeUnit: bool, published: bool) returns (r: Admit)
      modifies this
      ensures View() == AdmitStep(caps, old(View()), total, chargeUnit, published).0
      ensures r == AdmitStep(caps, old(View()), total, chargeUnit, published).1
    {
      var prevBuffered, prevUnits, prevPeak, prevPeakUnits := buffered, units, peak, peakUnits;
      var prevPend, prevLen := pendOutstanding, pendingIndicationLen;
      buffered := buffered + total;
      if buffered > peak {
        peak := buffered;
      }
      if chargeUnit {
        units := units + 1;
        if units > peakUnits {
          peakUnits := units;
        }
      }
      var pend := buffered >= caps.maxBytes || units >= caps.maxUnits;
      if pend {
        pendOutstanding := true;
        pendingIndicationLen := total;
      }
      if published {
        r := if pend then Pend else Accepted;
      } else {
        buffered, units, peak, peakUnits := prevBuffered, prevUnits, prevPeak, prevPeakUnits;
        pendOutstanding, pendingIndicationLen := prevPend, prevLen;
        r := PublishFailed;
      }
    }

    method OnDrained(len: nat) returns (complete: Option<nat>)
      modifies this
      ensures View() == DrainStep(caps, old(View()), len).0
      ensures complete == DrainStep(caps, old(View()), len).1
    {
      buffered := SaturatingSub(buffered, len);
      units := SaturatingSub(units, 1);
      if pendOutstanding && buffered < caps.maxBytes && units < caps.maxUnits {
        pendOutstanding := false;
        complete := Some(pendingIndicationLen);
        pendingIndicationLen := 0;
      } else {
        complete := None;
      }
    }
  }

  // ------------------------------------------------------------ copying an indication

  type Bytes = seq<nat>

  function Flatten(buffers: seq<Bytes>): Bytes {
    if buffers == [] then [] else Flatten(buffers[..|buffers| - 1]) + buffers[|buffers| - 1]
  }

  /** The full indication is always copied: lengths are summed first, then every
      non-empty buffer is appended in order. */
  method CopyIndication(buffers: seq<Bytes>) returns (total: nat, bytes: Bytes)
    ensures bytes == Flatten(buffers) && total == |bytes|
  {
    total := 0;
    for i := 0 to |buffers|
      invariant total == |Flatten(buffers[..i])|
    {
      assert buffers[..i + 1][..i] == buffers[..i];
      total := total + |buffers[i]|;
    }
    bytes := [];
    for i := 0 to |buffers|
      invariant bytes == Flatten(buffers[..i])
    {
      assert buffers[..i + 1][..i] == buffers[..i];
      if buffers[i] != [] {
        bytes := bytes + buffers[i];
      }
    }
    assert buffers[..|buffers|] == buffers;
  }
}
