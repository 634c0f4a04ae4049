/** Refund locktimes (swap-daemon/src/utils.rs) and the checks that read them: the daemon's own window
    check, the Bitcoin and Cardano ledgers and the Plutus script. Machine arithmetic wraps as a
    release build does; each locktime lemma says exactly when the wrapped value is the true one. */
module Timelocks {
  import opened Ring

  const U32: nat := 0x1_0000_0000
  const U64: nat := 0x1_0000_0000_0000_0000

  type Word32 = x: nat | x < U32
  type Word64 = x: nat | x < U64

  /** Where the swap began on each chain, and the refund window per hop in seconds. */
  datatype Anchors = Anchors(startBlock: Word32, startSlot: Word64, window: Word64)

  /** The product, by repeated addition. */
  function Multiple(d: nat, w: nat): nat { if d == 0 then 0 else Multiple(d - 1, w) + w }

  lemma {:induction false} MultipleIs(d: nat, w: nat)
    ensures Multiple(d, w) == d * w
  {
    if d > 0 {
      MultipleIs(d - 1, w);
      assert d * w == (d - 1) * w + w;
    }
  }

  // ---------- Bitcoin ----------

  /** Blocks in one window, rounded up: the mathematical value. */
  function CeilBlocks(window: nat): (c: nat)
    ensures 600 * c >= window && 600 * c < window + 600
  {
    (window + 599) / 600
  }

  /** `((refund_window_secs + 599) / 600) as u32`. */
  function BlocksPerWindow(window: Word64): Word32 {
    ((window + 599) % U64 / 600) % U32
  }

  function RefundLocktimeBtc(ps: Participants, leader: Pid, a: Anchors, p: Pid): Word32
    requires IsRing(ps) && leader in ps && p in ps
  {
    (a.startBlock + Multiple(Distance(ps, leader, p), BlocksPerWindow(a.window)) % U32) % U32
  }

  /** The 32-bit locktime is the intended one exactly when the intended one fits in 32 bits. */
  lemma BtcLocktimeExact(ps: Participants, leader: Pid, a: Anchors, p: Pid)
    requires IsRing(ps) && leader in ps && p in ps
    ensures RefundLocktimeBtc(ps, leader, a, p) == a.startBlock + Distance(ps, leader, p) * CeilBlocks(a.window)
       <==> a.startBlock + Distance(ps, leader, p) * CeilBlocks(a.window) < U32
  {
    hide IsRing, Distance;
    MultipleIs(Distance(ps, leader, p), BlocksPerWindow(a.window));
    BlockWords(a.startBlock, Distance(ps, leader, p), a.window);
  }

  lemma BlockWords(startBlock: Word32, d: nat, window: Word64)
    requires 1 <= d
    ensures (startBlock + (d * BlocksPerWindow(window)) % U32) % U32 == startBlock + d * CeilBlocks(window)
       <==> startBlock + d * CeilBlocks(window) < U32
  {
    var c := CeilBlocks(window);
    if startBlock + d * c < U32 {
      ProductBound(d, c);
      SmallWindow(window);
      NoWrap(startBlock, d * c);
    } else {
      assert (startBlock + (d * BlocksPerWindow(window)) % U32) % U32 < U32;
    }
  }

  lemma SmallWindow(window: Word64)
    requires CeilBlocks(window) < U32
    ensures BlocksPerWindow(window) == CeilBlocks(window)
  {
    assert window + 599 < U64;
  }

  lemma NoWrap(start: nat, m: nat)
    requires start + m < U32
    ensures (start + m % U32) % U32 == start + m
  {
  }

  lemma ProductBound(d: nat, c: nat)
    requires 1 <= d
    ensures c <= d * c
  {
    assert d * c == c + (d - 1) * c;
    assert (d - 1) * c >= 0;
  }

  lemma ProductMonotone(d: nat, e: nat, c: nat)
    requires d <= e
    ensures d * c <= e * c
  {
    assert e * c == d * c + (e - d) * c;
    assert (e - d) * c >= 0;
  }

  lemma NextMultiple(d: nat, c: nat)
    ensures (d + 1) * c == d * c + c
  {
  }

  /** Every locktime of the session fits in 32 bits. */
  ghost predicate BtcFits(ps: Participants, a: Anchors) {
    a.startBlock + |ps| * CeilBlocks(a.window) < U32
  }

  lemma BtcLocktimeValue(ps: Participants, leader: Pid, a: Anchors, p: Pid)
    requires IsRing(ps) && leader in ps && p in ps && BtcFits(ps, a)
    ensures RefundLocktimeBtc(ps, leader, a, p) == a.startBlock + Distance(ps, leader, p) * CeilBlocks(a.window)
  {
    ProductMonotone(Distance(ps, leader, p), |ps|, CeilBlocks(a.window));
    BtcLocktimeExact(ps, leader, a, p);
  }

  /** A non-leader's target may refund exactly one window after the non-leader itself. */
  lemma BtcStagger(ps: Participants, leader: Pid, a: Anchors, p: Pid)
    requires IsRing(ps) && leader in ps && p in ps && p != leader && BtcFits(ps, a)
    ensures ps[p].target in ps
    ensures RefundLocktimeBtc(ps, leader, a, ps[p].target)
         == RefundLocktimeBtc(ps, leader, a, p) + CeilBlocks(a.window)
  {
    TargetIsNext(ps, leader, p);
    var d := Distance(ps, leader, p);
    BtcLocktimeValue(ps, leader, a, p);
    BtcLocktimeValue(ps, leader, a, ps[p].target);
    NextMultiple(d, CeilBlocks(a.window));
  }

  /** `nLockTime` values below this bound are block heights. */
  const LOCKTIME_THRESHOLD: nat := 500_000_000

  /** All locktimes are read as block heights exactly when the leader's, the last one, is. */
  lemma BtcLocktimesAreHeights(ps: Participants, leader: Pid, a: Anchors)
    requires IsRing(ps) && leader in ps && BtcFits(ps, a)
    ensures (forall p :: p in ps ==> RefundLocktimeBtc(ps, leader, a, p) < LOCKTIME_THRESHOLD)
       <==> a.startBlock + |ps| * CeilBlocks(a.window) < LOCKTIME_THRESHOLD
  {
    hide IsRing, Distance;
    LeaderIsLast(ps, leader);
    forall p | p in ps
      ensures RefundLocktimeBtc(ps, leader, a, p) <= a.startBlock + |ps| * CeilBlocks(a.window)
    {
      BtcLocktimeValue(ps, leader, a, p);
      ProductMonotone(Distance(ps, leader, p), |ps|, CeilBlocks(a.window));
    }
    BtcLocktimeValue(ps, leader, a, leader);
  }

  // ---------- Cardano ----------

  function RefundLocktimeCardano(ps: Participants, leader: Pid, a: Anchors, p: Pid): Word64
    requires IsRing(ps) && leader in ps && p in ps
  {
    (a.startSlot + Multiple(Distance(ps, leader, p), a.window) % U64) % U64
  }

  /** The deadline in the datum, in POSIX milliseconds; no system start is a panic. */
  function RefundDeadlineMs(ps: Participants, leader: Pid, a: Anchors, systemStart: Word64, p: Pid): Option<Word64>
    requires IsRing(ps) && leader in ps && p in ps
  {
    if systemStart == 0 then None
    else Some(((systemStart + RefundLocktimeCardano(ps, leader, a, p)) % U64 * 1000) % U64)
  }

  function TrueSlot(ps: Participants, leader: Pid, a: Anchors, p: Pid): nat
    requires IsRing(ps) && leader in ps && p in ps
  {
    a.startSlot + Distance(ps, leader, p) * a.window
  }

  /** The datum holds the intended deadline exactly when that deadline fits in 64 bits. */
  lemma DeadlineExact(ps: Participants, leader: Pid, a: Anchors, systemStart: Word64, p: Pid)
    requires IsRing(ps) && leader in ps && p in ps && 0 < systemStart
    ensures RefundDeadlineMs(ps, leader, a, systemStart, p) == Some((systemStart + TrueSlot(ps, leader, a, p)) * 1000)
       <==> (systemStart + TrueSlot(ps, leader, a, p)) * 1000 < U64
  {
    hide IsRing, Distance;
    MultipleIs(Distance(ps, leader, p), a.window);
    DeadlineWords(systemStart, a.startSlot, Distance(ps, leader, p) * a.window);
  }

  lemma DeadlineWords(systemStart: nat, startSlot: nat, hops: nat)
    ensures ((systemStart + (startSlot + hops % U64) % U64) % U64 * 1000) % U64 == (systemStart + (startSlot + hops)) * 1000
       <==> (systemStart + (startSlot + hops)) * 1000 < U64
  {
    if (systemStart + (startSlot + hops)) * 1000 < U64 {
      assert hops < U64 && startSlot + hops < U64 && systemStart + (startSlot + hops) < U64;
    }
  }

  /** All deadlines of the session fit in 64 bits. */
  ghost predicate CardanoFits(ps: Participants, a: Anchors, systemStart: Word64) {
    0 < systemStart && (systemStart + a.startSlot + |ps| * a.window) * 1000 < U64
  }

  lemma SlotFits(systemStart: nat, startSlot: nat, hops: nat, most: nat)
    requires hops <= most && (systemStart + startSlot + most) * 1000 < U64
    ensures (startSlot + hops % U64) % U64 == startSlot + hops && (systemStart + (startSlot + hops)) * 1000 < U64
  {
  }

  lemma CardanoValues(ps: Participants, leader: Pid, a: Anchors, systemStart: Word64, p: Pid)
    requires IsRing(ps) && leader in ps && p in ps && CardanoFits(ps, a, systemStart)
    ensures RefundLocktimeCardano(ps, leader, a, p) == TrueSlot(ps, leader, a, p)
    ensures RefundDeadlineMs(ps, leader, a, systemStart, p) == Some((systemStart + TrueSlot(ps, leader, a, p)) * 1000)
  {
    hide IsRing, Distance;
    var hops := Distance(ps, leader, p) * a.window;
    MultipleIs(Distance(ps, leader, p), a.window);
    ProductMonotone(Distance(ps, leader, p), |ps|, a.window);
    SlotFits(systemStart, a.startSlot, hops, |ps| * a.window);
    DeadlineExact(ps, leader, a, systemStart, p);
  }

  /** Slots and datum deadlines both keep the stagger of the ring. */
  lemma CardanoStagger(ps: Participants, leader: Pid, a: Anchors, systemStart: Word64, p: Pid)
    requires IsRing(ps) && leader in ps && p in ps && p != leader && CardanoFits(ps, a, systemStart)
    ensures ps[p].target in ps
    ensures RefundLocktimeCardano(ps, leader, a, ps[p].target) == RefundLocktimeCardano(ps, leader, a, p) + a.window
    ensures RefundDeadlineMs(ps, leader, a, systemStart, ps[p].target).Some?
         && RefundDeadlineMs(ps, leader, a, systemStart, p).Some?
         && RefundDeadlineMs(ps, leader, a, systemStart, ps[p].target).value
         == RefundDeadlineMs(ps, leader, a, systemStart, p).value + 1000 * a.window
  {
    TargetIsNext(ps, leader, p);
    CardanoValues(ps, leader, a, systemStart, p);
    CardanoValues(ps, leader, a, systemStart, ps[p].target);
    NextMultiple(Distance(ps, leader, p), a.window);
  }

  // ---------- who accepts a refund when ----------

  /** What the chain tips say: a block height and a slot. */
  datatype Tip = Tip(height: nat, slot: nat)

  /** `check_refund_window_open`. */
  ghost predicate DaemonSaysOpen(ps: Participants, leader: Pid, a: Anchors, p: Pid, tip: Tip) {
    && IsRing(ps) && leader in ps && p in ps
    && match ps[p].blockchain
    case Bitcoin => tip.height >= RefundLocktimeBtc(ps, leader, a, p)
    case Cardano => tip.slot > RefundLocktimeCardano(ps, leader, a, p)
  }

  /** The declared start of validity of a Cardano transaction must have been reached. */
  predicate LedgerAccepts(lower: Option<nat>, slot: nat) {
    lower.Some? ==> lower.value <= slot
  }

  /** The script sees the declared start as POSIX milliseconds and wants a finite one. */
  predicate ScriptAccepts(lower: Option<nat>, systemStart: nat, deadlineMs: nat) {
    lower.Some? && (systemStart + lower.value) * 1000 >= deadlineMs
  }

  /** Whatever start of validity a refund declares, ledger and script together accept it only once
      the participant's refund slot has been reached; from then on some declaration is accepted. */
  lemma TwoUnitTimelock(ps: Participants, leader: Pid, a: Anchors, systemStart: Word64, p: Pid, slot: nat)
    requires IsRing(ps) && leader in ps && p in ps && CardanoFits(ps, a, systemStart)
    ensures (exists lower: Option<nat> :: LedgerAccepts(lower, slot)
               && ScriptAccepts(lower, systemStart, RefundDeadlineMs(ps, leader, a, systemStart, p).value))
       <==> RefundLocktimeCardano(ps, leader, a, p) <= slot
  {
    CardanoValues(ps, leader, a, systemStart, p);
    var deadline := RefundDeadlineMs(ps, leader, a, systemStart, p).value;
    var refundSlot := RefundLocktimeCardano(ps, leader, a, p);
    if refundSlot <= slot {
      var lower: Option<nat> := Some(refundSlot);
      assert LedgerAccepts(lower, slot) && ScriptAccepts(lower, systemStart, deadline);
    }
  }

  /** The earliest tip at which the chain of `p` accepts a refund of `p`'s lock from anyone. */
  ghost predicate ChainAcceptsRefund(ps: Participants, leader: Pid, a: Anchors, p: Pid, tip: Tip) {
    && IsRing(ps) && leader in ps && p in ps
    && match ps[p].blockchain
    case Bitcoin => tip.height >= RefundLocktimeBtc(ps, leader, a, p)
    case Cardano => tip.slot >= RefundLocktimeCardano(ps, leader, a, p)
  }

  // ---------- mixed chains on a nominal clock ----------

  /** The tips `t` seconds after the anchors, at one block per 600 seconds and one slot per second. */
  function NominalTip(a: Anchors, t: nat): Tip {
    Tip(a.startBlock + t / 600, a.startSlot + t)
  }

  /** Seconds after the anchors at which the window at distance `d` opens. */
  function OpensAt(chain: Blockchain, window: nat, d: nat): nat {
    match chain
    case Bitcoin => 600 * (d * CeilBlocks(window))
    case Cardano => d * window
  }

  /** On the nominal clock the chain accepts a refund from exactly that second on. */
  lemma NominalOpening(ps: Participants, leader: Pid, a: Anchors, systemStart: Word64, p: Pid, t: nat)
    requires IsRing(ps) && leader in ps && p in ps && BtcFits(ps, a) && CardanoFits(ps, a, systemStart)
    ensures ChainAcceptsRefund(ps, leader, a, p, NominalTip(a, t))
       <==> OpensAt(ps[p].blockchain, a.window, Distance(ps, leader, p)) <= t
  {
    BtcLocktimeValue(ps, leader, a, p);
    CardanoValues(ps, leader, a, systemStart, p);
  }

  /** A Bitcoin window at distance `d` opens at most `d * 599` seconds after the exact multiple. */
  lemma BtcDrift(window: nat, d: nat)
    ensures d * window <= OpensAt(Bitcoin, window, d) <= d * (window + 599)
  {
    var c := CeilBlocks(window);
    assert 600 * (d * c) == d * (600 * c);
    ProductMonotone(window, 600 * c, d);
    ProductMonotone(600 * c, window + 599, d);
    assert window * d == d * window && 600 * c * d == d * (600 * c) && (window + 599) * d == d * (window + 599);
  }

  /** Windows further from the leader open strictly later, whatever the two chains are. */
  ghost predicate Ordered(n: nat, window: nat) {
    forall c1: Blockchain, c2: Blockchain, d: nat, e: nat {:trigger OpensAt(c1, window, d), OpensAt(c2, window, e)} ::
      1 <= d < e <= n ==> OpensAt(c1, window, d) < OpensAt(c2, window, e)
  }

  /** Seconds by which rounding up to whole blocks lengthens one window. */
  function Excess(window: nat): (x: nat)
    ensures x <= 599
  {
    600 * CeilBlocks(window) - window
  }

  /** The windows keep their order on every mix of chains exactly when the rounding of N-1 windows
      stays below one window. */
  lemma MixedChainOrder(n: nat, window: nat)
    requires 2 <= n
    ensures Ordered(n, window) <==> (n - 1) * Excess(window) < window
  {
    var x := Excess(window);
    if Ordered(n, window) {
      assert OpensAt(Bitcoin, window, n - 1) < OpensAt(Cardano, window, n);
      BtcOpening(window, n - 1);
      assert n * window == (n - 1) * window + window;
    }
    if (n - 1) * x < window {
      forall c1: Blockchain, c2: Blockchain, d: nat, e: nat | 1 <= d < e <= n
        ensures OpensAt(c1, window, d) < OpensAt(c2, window, e)
      {
        LaterOpensLater(n, window, c1, c2, d, e);
      }
    }
  }

  lemma BtcOpening(window: nat, d: nat)
    ensures OpensAt(Bitcoin, window, d) == d * window + d * Excess(window)
  {
    var c := CeilBlocks(window);
    assert 600 * (d * c) == d * (600 * c) == d * (window + Excess(window));
  }

  lemma LaterOpensLater(n: nat, window: nat, c1: Blockchain, c2: Blockchain, d: nat, e: nat)
    requires 1 <= d < e <= n && (n - 1) * Excess(window) < window
    ensures OpensAt(c1, window, d) < OpensAt(c2, window, e)
  {
    BtcOpening(window, d);
    BtcOpening(window, e);
    ProductMonotone(d, n - 1, Excess(window));
    ProductMonotone(d + 1, e, window);
    assert (d + 1) * window == d * window + window;
    assert e * Excess(window) >= 0;
  }

  /** Seven-day windows: no excess, so the gaps are exactly one window on any mix of chains. */
  lemma DefaultWindowIsExact(n: nat, d: nat)
    requires 2 <= n
    ensures Ordered(n, 604_800)
    ensures OpensAt(Bitcoin, 604_800, d) == OpensAt(Cardano, 604_800, d) == d * 604_800
  {
    BtcOpening(604_800, d);
    MixedChainOrder(n, 604_800);
  }

  /** A window of more than (N-1) * 599 seconds is always long enough. */
  lemma LongWindowsAreOrdered(n: nat, window: nat)
    requires 2 <= n && (n - 1) * 599 < window
    ensures Ordered(n, window)
  {
    ProductMonotone(Excess(window), 599, n - 1);
    assert (n - 1) * Excess(window) <= (n - 1) * 599;
    MixedChainOrder(n, window);
  }

  // ---------- the ring order of the windows ----------

  /** Whenever the window of a participant is open, so are all the windows before it. */
  ghost predicate WindowsInRingOrder(ps: Participants, leader: Pid, a: Anchors, tip: Tip)
    requires IsRing(ps) && leader in ps
  {
    forall p, q :: p in ps && q in ps ==>
      Distance(ps, leader, p) < Distance(ps, leader, q) && ChainAcceptsRefund(ps, leader, a, q, tip) ==>
      DaemonSaysOpen(ps, leader, a, p, tip)
  }

  /** Ordered windows open in ring order at every moment of the nominal clock. */
  lemma NominalRingOrder(ps: Participants, leader: Pid, a: Anchors, systemStart: Word64, t: nat)
    requires IsRing(ps) && leader in ps && BtcFits(ps, a) && CardanoFits(ps, a, systemStart)
    requires Ordered(|ps|, a.window)
    ensures WindowsInRingOrder(ps, leader, a, NominalTip(a, t))
  {
    var tip := NominalTip(a, t);
    forall p, q | p in ps && q in ps && Distance(ps, leader, p) < Distance(ps, leader, q)
      && ChainAcceptsRefund(ps, leader, a, q, tip)
      ensures DaemonSaysOpen(ps, leader, a, p, tip)
    {
      NominalOpening(ps, leader, a, systemStart, q, t);
      NominalOpening(ps, leader, a, systemStart, p, t);
      CardanoValues(ps, leader, a, systemStart, p);
      assert OpensAt(ps[p].blockchain, a.window, Distance(ps, leader, p))
           < OpensAt(ps[q].blockchain, a.window, Distance(ps, leader, q));
    }
  }

  /** Seconds the daemon waits beyond the first acceptable moment: on Cardano it wants the slot passed. */
  function DaemonMargin(chain: Blockchain): nat { if chain.Cardano? then 1 else 0 }

  lemma DaemonOpening(ps: Participants, leader: Pid, a: Anchors, systemStart: Word64, p: Pid, t: nat)
    requires IsRing(ps) && leader in ps && p in ps && BtcFits(ps, a) && CardanoFits(ps, a, systemStart)
    ensures DaemonSaysOpen(ps, leader, a, p, NominalTip(a, t))
       <==> OpensAt(ps[p].blockchain, a.window, Distance(ps, leader, p)) + DaemonMargin(ps[p].blockchain) <= t
  {
    hide IsRing, Distance;
    NominalOpening(ps, leader, a, systemStart, p, t);
    CardanoValues(ps, leader, a, systemStart, p);
  }

  /** The target's window opens later than the daemon of `p` acts on the own one. */
  predicate OpensEarlier(ps: Participants, leader: Pid, a: Anchors, p: Pid)
    requires IsRing(ps) && leader in ps && p in ps && ps[p].target in ps
  {
    OpensAt(ps[p].blockchain, a.window, Distance(ps, leader, p)) + DaemonMargin(ps[p].blockchain)
    < OpensAt(ps[ps[p].target].blockchain, a.window, Distance(ps, leader, ps[p].target))
  }

  ghost predicate CanServe(ps: Participants, leader: Pid, a: Anchors, p: Pid, t: nat)
    requires IsRing(ps) && leader in ps && p in ps && ps[p].target in ps
  {
    && DaemonSaysOpen(ps, leader, a, p, NominalTip(a, t))
    && !ChainAcceptsRefund(ps, leader, a, ps[p].target, NominalTip(a, t))
  }

  /** On the nominal clock there is a moment at which the own window is open while the target's is still
      closed, exactly when the two openings are further apart than the daemon's margin. */
  lemma MomentToServe(ps: Participants, leader: Pid, a: Anchors, systemStart: Word64, p: Pid)
    requires IsRing(ps) && leader in ps && p in ps && ps[p].target in ps && BtcFits(ps, a) && CardanoFits(ps, a, systemStart)
    ensures (exists t: nat :: CanServe(ps, leader, a, p, t)) <==> OpensEarlier(ps, leader, a, p)
  {
    hide IsRing, Distance, OpensAt, DaemonSaysOpen, ChainAcceptsRefund;
    var q := ps[p].target;
    var own := OpensAt(ps[p].blockchain, a.window, Distance(ps, leader, p)) + DaemonMargin(ps[p].blockchain);
    var next := OpensAt(ps[q].blockchain, a.window, Distance(ps, leader, q));
    DaemonOpening(ps, leader, a, systemStart, p, own);
    NominalOpening(ps, leader, a, systemStart, q, own);
    if t: nat :| CanServe(ps, leader, a, p, t) {
      DaemonOpening(ps, leader, a, systemStart, p, t);
      NominalOpening(ps, leader, a, systemStart, q, t);
    }
    assert own < next ==> CanServe(ps, leader, a, p, own);
  }
}
