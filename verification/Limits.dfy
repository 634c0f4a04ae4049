/** Exactly which honest parties cannot lose, in time and not hurt, when somebody misbehaves: what they can
    check before they lock. */
module Limits {
  import opened Ring
  import opened Timelocks
  import opened Protocol
  import opened Chain
  import opened ChainSafety
  import opened ChainTheorems
  import opened Losses

  /** The same swap, with the party honest and somebody else not. */
  ghost predicate SameSwap(x: Setting, x': Setting, p: Pid) {
    && x'.env == x.env && x'.leader == x.leader && x'.point == x.point && x'.secret == x.secret
    && ValidSetting(x') && p in x'.honest && x'.honest != x'.env.ring.Keys
  }

  /** In time and not hurt, and with those pre-signatures once it has locked. */
  ghost predicate InOrder(w: World, p: Pid, sigs: map<TxRole, SigningInputs>) {
    p !in w.late && p !in w.hurt && (p in w.party ==> w.Party(p).adaptorSigs == sigs)
  }

  ghost predicate CannotLose(x: Setting, p: Pid, sigs: map<TxRole, SigningInputs>) {
    forall x', w {:trigger SameSwap(x, x', p), Reachable(x', w)} ::
      SameSwap(x, x', p) && Reachable(x', w) && InOrder(w, p, sigs) ==> !HasLost(x', w, p)
  }

  /** A tick with the own lock confirmed and the own window open. */
  ghost predicate TicksInTime(x: Setting, w: World, p: Pid) {
    && ValidSetting(x) && Shaped(x, w) && p in w.party && p in w.Party(p).locksConfirmed && p in x.env.ring && WindowOpen(x, p, w.tip)
    && Target(x, x.leader) in w.ledger
  }

  ghost predicate TickSettled(x: Setting, w: World, p: Pid) {
    && TicksInTime(x, w, p)
    && CoversTarget(x, TickOf(x, w, p).ledger, p) && Settled(x, TickOf(x, w, p).ledger, p)
  }

  ghost predicate EveryTickSettles(x: Setting, p: Pid, sigs: map<TxRole, SigningInputs>) {
    forall x', w {:trigger SameSwap(x, x', p), Reachable(x', w)} ::
      SameSwap(x, x', p) && Reachable(x', w) && InOrder(w, p, sigs) && TicksInTime(x', w, p) ==> TickSettled(x', w, p)
  }

  /** What a non-leader can see before it locks: its claim is over the point of the leader's, and both its own
      lock and its target's are on Bitcoin. */
  ghost predicate OutOfReach(x: Setting, p: Pid, s: Session) {
    && p in x.env.ring
    && SignedOver(s, Spend(p), x.point) && !OnCardano(x, p) && !OnCardano(x, Target(x, p))
  }

  lemma SafeInAll(x: Setting, p: Pid, s: Session, x': Setting, w: World)
    requires p in x.env.ring && p != x.leader && OutOfReach(x, p, s)
    requires SameSwap(x, x', p) && Reachable(x', w) && InOrder(w, p, s.adaptorSigs)
    ensures !HasLost(x', w, p)
    ensures TicksInTime(x', w, p) ==> TickSettled(x', w, p)
  {
    hide IsRing, Reachable, PartiesOk, LedgerInv, WatchInv, WindowOpen, TickOf, Settled, Lost;
    assert !Exposed(x', p);
    if p in w.party {
      SameOver(s, w.Party(p), Spend(p), x.point);
    }
    assert Matched(x', w, p);
    if HasLost(x', w, p) {
      NoLoss(x', w, p);
    }
    if TicksInTime(x', w, p) {
      ReachableOk(x', w);
      OneTickSettles(x', w, p, TickOf(x', w, p));
    }
  }

  lemma OnlyOne(x: Setting, p: Pid)
    requires ValidSetting(x) && x.honest == {p} && p in x.env.ring
    ensures SameSwap(x, x, p)
  {
    hide Distance;
    var q := ClaimantOf(x, p);
    assert q in x.env.ring.Keys && q !in x.honest;
  }

  /** One of the three things wrong, and the party can lose. */
  lemma CanGoWrong(x: Setting, p: Pid, s: Session, tip: Tip, tip1: Tip, tip2: Tip) returns (w: World, w': World)
    requires Alone(x, p, s) && p in x.env.ring && Times(x, p, tip1, tip2) && tip.height <= tip1.height && tip.slot <= tip1.slot
    requires !OutOfReach(x, p, s)
    ensures GoesWrong(x, p, s, w, w')
  {
    hide IsRing, Prepared, Times, SignedOver, GoesWrong;
    OnlyOne(x, p);
    if !SignedOver(s, Spend(p), x.point) {
      w, w' := CrossedLoses(x, p, s, tip, tip1, tip2);
    } else if OnCardano(x, p) {
      w, w' := OwnTakenLoses(x, p, s, tip, tip1, tip2);
    } else {
      w, w' := TargetTakenLoses(x, p, s, tip, tip1, tip2);
    }
  }

  lemma WrongIsWrong(x: Setting, p: Pid, s: Session, w: World, w': World)
    requires GoesWrong(x, p, s, w, w') && SameSwap(x, x, p)
    ensures !CannotLose(x, p, s.adaptorSigs) && !EveryTickSettles(x, p, s.adaptorSigs)
  {
    hide IsRing, Reachable, WindowOpen, TickOf, Settled, HasLost;
    assert TicksInTime(x, w, p) && !TickSettled(x, w, p) && InOrder(w, p, s.adaptorSigs);
    assert InOrder(w', p, s.adaptorSigs) && HasLost(x, w', p);
  }

  /** For every ring: an honest non-leader that has just locked and whose windows leave it a moment cannot lose
      in time and unhurt, whoever else misbehaves, if and only if its claim is over the point of the leader's and
      both locks it depends on are on Bitcoin; and the same decides whether every tick settles it. */
  lemma SafeExactly(x: Setting, p: Pid, s: Session, tip: Tip, tip1: Tip, tip2: Tip)
    requires Alone(x, p, s) && p in x.env.ring && Times(x, p, tip1, tip2) && tip.height <= tip1.height && tip.slot <= tip1.slot
    ensures CannotLose(x, p, s.adaptorSigs) <==> OutOfReach(x, p, s)
    ensures EveryTickSettles(x, p, s.adaptorSigs) <==> OutOfReach(x, p, s)
  {
    hide IsRing, Prepared, Times, OutOfReach, GoesWrong, Reachable, InOrder, HasLost, TicksInTime, CannotLose, EveryTickSettles;
    OnlyOne(x, p);
    if OutOfReach(x, p, s) {
      BothHold(x, p, s);
    } else {
      var w, w' := CanGoWrong(x, p, s, tip, tip1, tip2);
      WrongIsWrong(x, p, s, w, w');
    }
  }

  lemma BothHold(x: Setting, p: Pid, s: Session)
    requires p in x.env.ring && p != x.leader && OutOfReach(x, p, s)
    ensures CannotLose(x, p, s.adaptorSigs) && EveryTickSettles(x, p, s.adaptorSigs)
  {
    hide IsRing, Reachable, OutOfReach, InOrder, HasLost, TicksInTime, TickSettled, SameSwap;
    forall x', w {:trigger SameSwap(x, x', p), Reachable(x', w)} | SameSwap(x, x', p) && Reachable(x', w) && InOrder(w, p, s.adaptorSigs)
      ensures !HasLost(x', w, p) && (TicksInTime(x', w, p) ==> TickSettled(x', w, p))
    {
      SafeInAll(x, p, s, x', w);
    }
  }

  // ---------- the leader ----------

  ghost predicate LeaderCannotLose(x: Setting) {
    forall x', w {:trigger SameSwap(x, x', x.leader), Reachable(x', w)} ::
      SameSwap(x, x', x.leader) && Reachable(x', w) ==> !HasLost(x', w, x.leader)
  }

  /** The leader's own lock is taken once its timelock has passed, and its target's is returned. */
  lemma LeaderTakenLoses(x: Setting, s: Session, tip: Tip, tip2: Tip) returns (w: World)
    requires Solo(x, x.leader, s) && tip.height <= tip2.height && tip.slot <= tip2.slot && OnCardano(x, x.leader)
    requires RefundAcceptable(x, x.leader, tip2) && Target(x, x.leader) in x.env.ring && RefundAcceptable(x, Target(x, x.leader), tip2)
    ensures Reachable(x, w) && HasLost(x, w, x.leader) && x.leader !in w.late && w.hurt == {}
  {
    hide IsRing, Reachable, Prepared, RefundAcceptable, SignedOver;
    var p, t := x.leader, Target(x, x.leader);
    OnlyOne(x, p);
    var w0 := AllLocked(x, p, s, tip);
    assert t != p by { TargetIsOther(x, p); }
    var w1 := w0.(tip := tip2, late := w0.late + LateAt(x, w0.served, tip2));
    TimePasses(x, w0, tip2, w1);
    assert At(w1.ledger, t) == Locked && At(w1.ledger, p) == Locked;
    var w2 := w1.(ledger := w1.ledger[t := Returned]);
    ForeignReturns(x, w1, t, w2);
    w := w2.(ledger := w2.ledger[p := Taken]);
    Takes(x, w2, p, w);
  }

  lemma TargetIsOther(x: Setting, p: Pid)
    requires ValidSetting(x) && p in x.env.ring
    ensures Target(x, p) != p
  {
    hide Reaches, Distance;
    if Target(x, p) == p {
      SelfLoopIsNoRing(x.env.ring, p);
    }
  }

  /** An honest leader cannot lose, late or hurt as it may be, if and only if its own lock is on Bitcoin. */
  lemma LeaderSafeExactly(x: Setting, s: Session, tip: Tip, tip2: Tip)
    requires Solo(x, x.leader, s) && tip.height <= tip2.height && tip.slot <= tip2.slot
    requires RefundAcceptable(x, x.leader, tip2) && Target(x, x.leader) in x.env.ring && RefundAcceptable(x, Target(x, x.leader), tip2)
    ensures LeaderCannotLose(x) <==> !OnCardano(x, x.leader)
  {
    hide IsRing, Prepared, Reachable, HasLost, RefundAcceptable, SignedOver;
    OnlyOne(x, x.leader);
    if OnCardano(x, x.leader) {
      var w := LeaderTakenLoses(x, s, tip, tip2);
    } else {
      forall x', w {:trigger SameSwap(x, x', x.leader), Reachable(x', w)} | SameSwap(x, x', x.leader) && Reachable(x', w)
        ensures !HasLost(x', w, x.leader)
      {
        LeaderIsSafe(x, x', w);
      }
    }
  }

  lemma LeaderIsSafe(x: Setting, x': Setting, w: World)
    requires x.leader in x.env.ring && SameSwap(x, x', x.leader) && Reachable(x', w) && !OnCardano(x, x.leader)
    ensures !HasLost(x', w, x.leader)
  {
    hide IsRing, Reachable, Lost;
    if HasLost(x', w, x.leader) {
      LeaderNeverLoses(x', w);
    }
  }
}
