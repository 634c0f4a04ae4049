/** What the premises of the chain's theorems are for: runs, for every ring and every honest non-leader alone
    among others, in which one premise fails and the party loses. */
module Losses {
  import opened Ring
  import opened Timelocks
  import opened Protocol
  import opened Effects
  import opened FundedSessions
  import opened Chain
  import opened ChainSessions
  import opened ChainSafety
  import opened ChainTheorems

  /** One honest party, about to lock. */
  ghost predicate Solo(x: Setting, p: Pid, s: Session) {
    && ValidSetting(x) && x.honest == {p} && Prepared(x, p, s) && SignedOver(s, Spend(x.leader), x.point)
    && s.state == AwaitingLockConfirmations && p !in s.locksConfirmed && s.locksConfirmed <= x.env.ring.Keys
  }

  /** That is not the leader. */
  ghost predicate Alone(x: Setting, p: Pid, s: Session) { Solo(x, p, s) && p != x.leader }

  /** At `tip1` the party's window is open and its target's is not; at `tip2` the target's is. */
  ghost predicate Times(x: Setting, p: Pid, tip1: Tip, tip2: Tip) {
    && ValidSetting(x) && p in x.env.ring && Target(x, p) in x.env.ring
    && WindowOpen(x, p, tip1) && !RefundAcceptable(x, Target(x, p), tip1)
    && tip1.height <= tip2.height && tip1.slot <= tip2.slot && RefundAcceptable(x, Target(x, p), tip2)
  }

  // ---------- all locks on chain ----------

  ghost function Nothing(x: Setting, tip: Tip): World {
    World(map[], map y | y in x.env.ring :: Absent, tip, {}, {}, LateAt(x, {}, tip), {}, {})
  }

  /** The given locks are on chain and unspent, the others are not there yet. */
  ghost predicate LockedSoFar(x: Setting, ledger: Ledger, locked: set<Pid>) {
    ledger.Keys == x.env.ring.Keys
    && forall y {:trigger At(ledger, y)} :: y in x.env.ring ==> At(ledger, y) == if y in locked then Locked else Absent
  }

  ghost predicate Early(x: Setting, w: World, tip: Tip) {
    && ValidSetting(x) && w.tip == tip && w.served == {} && w.late == LateAt(x, {}, tip) && w.hurt == {} && w.crashed == {}
  }

  lemma ConfirmOne(x: Setting, w: World, y: Pid, locked: set<Pid>, w': World)
    requires ValidSetting(x) && Reachable(x, w) && LockedSoFar(x, w.ledger, locked) && y in x.env.ring && y !in locked
    requires y in x.honest ==> y in w.party
    requires w' == w.(ledger := w.ledger[y := Locked])
    ensures Reachable(x, w') && LockedSoFar(x, w'.ledger, locked + {y})
  {
    hide IsRing, Reachable, WorldInv, LateAt, Covers;
    ReachableOk(x, w);
    InvShape(x, w);
    assert At(w.ledger, y) == Absent;
    assert w' == Step(x, w, Confirm(y));
    ReachableNext(x, w, Confirm(y), w');
    forall z {:trigger At(w'.ledger, z)} | z in x.env.ring
      ensures At(w'.ledger, z) == if z in locked + {y} then Locked else Absent
    {
      assert z != y ==> At(w'.ledger, z) == At(w.ledger, z);
    }
  }

  lemma InvShape(x: Setting, w: World)
    requires WorldInv(x, w)
    ensures ValidSetting(x) && Shaped(x, w) && Covers(x, w.ledger) && Target(x, x.leader) in w.ledger
  {
    hide IsRing, PartiesOk, LedgerInv, WatchInv;
  }

  lemma {:induction false} ConfirmMany(x: Setting, w: World, todo: set<Pid>, locked: set<Pid>) returns (w': World)
    requires ValidSetting(x) && Reachable(x, w) && LockedSoFar(x, w.ledger, locked)
    requires todo <= x.env.ring.Keys && todo !! locked && todo !! x.honest
    ensures Reachable(x, w') && LockedSoFar(x, w'.ledger, locked + todo) && w' == w.(ledger := w'.ledger)
    decreases |todo|
  {
    hide IsRing, Reachable, LockedSoFar;
    if todo == {} {
      w' := w;
      assert locked + todo == locked;
    } else {
      var y :| y in todo;
      var w1 := w.(ledger := w.ledger[y := Locked]);
      ConfirmOne(x, w, y, locked, w1);
      w' := ConfirmMany(x, w1, todo - {y}, locked + {y});
      assert locked + {y} + (todo - {y}) == locked + todo;
    }
  }

  lemma NothingBegins(x: Setting, tip: Tip)
    requires ValidSetting(x)
    ensures Reachable(x, Nothing(x, tip)) && LockedSoFar(x, Nothing(x, tip).ledger, {}) && Early(x, Nothing(x, tip), tip)
  {
    hide IsRing, Reachable, LateAt;
    BeginsReachable(x, Nothing(x, tip));
  }

  /** Everybody's lock on chain, the honest party's last. */
  lemma AllLocked(x: Setting, p: Pid, s: Session, tip: Tip) returns (w: World)
    requires Solo(x, p, s) && p in x.env.ring
    ensures Reachable(x, w) && LockedSoFar(x, w.ledger, x.env.ring.Keys) && Early(x, w, tip) && w.party == map[p := s]
  {
    hide IsRing, Reachable, LockedSoFar, LateAt, Prepared, WorldInv, Covers;
    NothingBegins(x, tip);
    var others := x.env.ring.Keys - {p};
    var w1 := ConfirmMany(x, Nothing(x, tip), others, {});
    assert {} + others == others;
    var w2 := w1.(party := map[p := s]);
    JoinNext(x, p, s, w1, others, w2);
    w := w2.(ledger := w2.ledger[p := Locked]);
    ConfirmOne(x, w2, p, others, w);
    assert others + {p} == x.env.ring.Keys;
  }

  lemma JoinNext(x: Setting, p: Pid, s: Session, w: World, others: set<Pid>, w': World)
    requires Solo(x, p, s) && p in x.env.ring && Reachable(x, w) && others == x.env.ring.Keys - {p}
    requires LockedSoFar(x, w.ledger, others) && w.party == map[] && w' == w.(party := map[p := s])
    ensures Reachable(x, w')
  {
    hide IsRing, Reachable, LateAt, Prepared, WorldInv, Covers;
    ReachableOk(x, w);
    InvShape(x, w);
    assert At(w.ledger, p).Absent?;
    forall q {:trigger q in s.locksConfirmed} | q in s.locksConfirmed
      ensures q in w.ledger && !At(w.ledger, q).Absent?
    {
      assert q in x.env.ring.Keys && q != p;
      assert At(w.ledger, q) == Locked;
    }
    assert JustFunded(x, w.ledger, p, s);
    assert w' == Step(x, w, Join(p, s));
    ReachableNext(x, w, Join(p, s), w');
  }

  // ---------- all locks seen, the secret out ----------

  /** A non-leader polls for locks; with the last one its secret is out and it waits. */
  ghost predicate Looking(x: Setting, p: Pid, s: Session, seen: set<Pid>, sigs: map<TxRole, SigningInputs>, revealed: bool) {
    && Prepared(x, p, s) && seen <= s.locksConfirmed && s.adaptorSigs == sigs
    && (s.state.AwaitingLockConfirmations? || s.state.AwaitingLeaderSpend?)
    && (x.env.ring.Keys <= s.locksConfirmed ==> revealed && s.state.AwaitingLeaderSpend?)
  }

  lemma PollOne(x: Setting, w: World, p: Pid, y: Pid, seen: set<Pid>, sigs: map<TxRole, SigningInputs>) returns (w': World)
    requires ValidSetting(x) && p != x.leader && Reachable(x, w) && y in x.env.ring && y in w.ledger && !At(w.ledger, y).Absent?
    requires Runs(w, p) && Looking(x, p, w.Party(p), seen, sigs, p in w.revealed)
    ensures Reachable(x, w') && w'.party.Keys == w.party.Keys && Runs(w', p)
    ensures Looking(x, p, w'.Party(p), seen + {y}, sigs, p in w'.revealed)
    ensures w' == w.(party := w'.party, revealed := w'.revealed)
  {
    hide IsRing, Reachable, WorldInv, Covers, Prepared, OnLockPoll, Reveals;
    ReachableOk(x, w);
    InvShape(x, w);
    var s := w.Party(p);
    var o := OnLockPoll(x.env, s, y, true);
    LockPollAny(x, p, s, y, true, o);
    LockPollState(x.env, s, y, o);
    PreparedMe(x, p, s);
    SettleOne(x, w.ledger, w.tip, o.submitted);
    w' := Put(x, w, p, o);
    assert w' == Step(x, w, PollLock(p, y, true));
    ReachableNext(x, w, PollLock(p, y, true), w');
  }

  predicate PolledState(s: Session, next: SwapState) {
    next == s.state || next.AwaitingLeaderSpend? || (next.AwaitingSecrets? && s.leader == Some(s.me))
  }

  /** With the last lock confirmed a non-leader waits, and its secret is out. */
  ghost predicate PolledOutcome(ring: Participants, s: Session, o: Outcome) {
    o.Ok? ==>
      && PolledState(s, o.session.state)
      && (s.leader != Some(s.me) && ring.Keys <= o.session.locksConfirmed && !(ring.Keys <= s.locksConfirmed) ==>
            o.session.state.AwaitingLeaderSpend? && Reveals(o.out))
  }

  lemma PolledOn(ring: Participants, s: Session, t: Session, secret: Secret)
    requires t.state == s.state
    ensures t.locksConfirmed == s.locksConfirmed || !(ring.Keys <= t.locksConfirmed) ==> PolledOutcome(ring, s, Ok(t, [], []))
    ensures PolledOutcome(ring, s, Ok(t.TransitionTo(AwaitingLeaderSpend), [SecretReveal(secret)], []))
  {
    assert SecretReveal(secret) in [SecretReveal(secret)];
  }

  lemma PolledLeader(ring: Participants, s: Session, t: Session)
    requires s.leader == Some(s.me)
    ensures PolledOutcome(ring, s, Ok(t.TransitionTo(AwaitingSecrets), [], []))
  {
    hide Reveals;
  }

  lemma LockPollOutcome(env: Env, s: Session, owner: Pid)
    ensures PolledOutcome(env.ring, s, OnLockPoll(env, s, owner, true))
  {
    hide AllConfirmed, PolledOutcome;
    var o := OnLockPoll(env, s, owner, true);
    var s1 := s.(locksConfirmed := s.locksConfirmed + {owner});
    ConfirmedIsAll(env.ring, s1);
    PolledOn(env.ring, s, s, 0);
    PolledOn(env.ring, s, s1, 0);
    if owner in s.locksConfirmed {
      assert o == Ok(s, [], []);
    } else if o.Ok? {
      if !AllConfirmed(env.ring, s1) {
        assert o == Ok(s1, [], []);
      } else if s.leader != Some(s.me) {
        PolledOn(env.ring, s, s1, s.secrets[s.me]);
        assert o == Ok(s1.TransitionTo(AwaitingLeaderSpend), [SecretReveal(s.secrets[s.me])], []);
      } else {
        PolledLeader(env.ring, s, s1);
        assert o == Ok(s1.TransitionTo(AwaitingSecrets), [], []);
      }
    } else {
      PanicPolled(env.ring, s);
    }
  }

  lemma PanicPolled(ring: Participants, s: Session)
    ensures PolledOutcome(ring, s, Panic)
  {
  }

  lemma LockPollState(env: Env, s: Session, owner: Pid, o: Outcome)
    requires o == OnLockPoll(env, s, owner, true) && o.Ok?
    ensures o.session.locksConfirmed == s.locksConfirmed + {owner}
    ensures PolledOutcome(env.ring, s, o)
  {
    hide OnLockPoll, Reveals;
    LockPollEffect(env, s, owner, true);
    LockPollOutcome(env, s, owner);
  }

  lemma {:induction false} PollMany(x: Setting, w: World, p: Pid, todo: set<Pid>, seen: set<Pid>, sigs: map<TxRole, SigningInputs>)
    returns (w': World)
    requires ValidSetting(x) && p != x.leader && Reachable(x, w) && todo <= x.env.ring.Keys && LockedSoFar(x, w.ledger, x.env.ring.Keys)
    requires Runs(w, p) && Looking(x, p, w.Party(p), seen, sigs, p in w.revealed)
    ensures Reachable(x, w') && w'.party.Keys == w.party.Keys && Runs(w', p)
    ensures Looking(x, p, w'.Party(p), seen + todo, sigs, p in w'.revealed)
    ensures w' == w.(party := w'.party, revealed := w'.revealed)
    decreases |todo|
  {
    hide IsRing, Reachable, Looking;
    if todo == {} {
      w' := w;
      assert seen + todo == seen;
    } else {
      var y :| y in todo;
      assert At(w.ledger, y) == Locked;
      var w1 := PollOne(x, w, p, y, seen, sigs);
      w' := PollMany(x, w1, p, todo - {y}, seen + {y}, sigs);
      assert seen + {y} + (todo - {y}) == seen + todo;
    }
  }

  /** The party has revealed its secret and waits for the leader's spend; all locks are unspent. */
  ghost predicate Waits(x: Setting, w: World, p: Pid, tip: Tip, sigs: map<TxRole, SigningInputs>) {
    && Reachable(x, w) && LockedSoFar(x, w.ledger, x.env.ring.Keys) && Early(x, w, tip)
    && w.party.Keys == {p} && w.Party(p).state.AwaitingLeaderSpend? && p in w.Party(p).locksConfirmed && p in w.revealed
    && w.Party(p).adaptorSigs == sigs
  }

  lemma ItWaits(x: Setting, p: Pid, s: Session, tip: Tip) returns (w: World)
    requires Alone(x, p, s) && p in x.env.ring
    ensures Waits(x, w, p, tip, s.adaptorSigs)
  {
    hide IsRing, Reachable, Prepared, LateAt, WorldInv;
    var w0 := AllLocked(x, p, s, tip);
    assert p in x.env.ring.Keys;
    w := PollMany(x, w0, p, x.env.ring.Keys, {}, s.adaptorSigs);
  }

  // ---------- what the others can do ----------

  /** The claimant of a lock. */
  lemma ClaimantOf(x: Setting, p: Pid) returns (q: Pid)
    requires ValidSetting(x) && p in x.env.ring
    ensures q in x.env.ring && Target(x, q) == p && q != p
  {
    hide Reaches, Distance;
    var d := Distance(x.env.ring, x.leader, p);
    DistanceIs(x.env.ring, x.leader, p);
    q := Hop(x.env.ring, x.leader, d - 1);
    assert Hop(x.env.ring, x.leader, d) == x.env.ring[q].target;
    if q == p {
      SelfLoopIsNoRing(x.env.ring, p);
    }
  }

  lemma TargetsDiffer(x: Setting, p: Pid, q: Pid)
    requires ValidSetting(x) && p in x.env.ring && q in x.env.ring && p != q
    ensures Target(x, p) != Target(x, q) && Target(x, p) != p && Target(x, p) in x.env.ring
  {
    hide Distance;
    if Target(x, p) == Target(x, q) {
      ClaimantIsUnique(x.env.ring, p, q);
    }
    if Target(x, p) == p {
      SelfLoopIsNoRing(x.env.ring, p);
    }
    assert x.env.ring[p].target in x.env.ring;
  }

  /** Only these locks have changed, and nothing else in the world. */
  ghost predicate OnlyLedger(w: World, w': World) { w' == w.(ledger := w'.ledger) }

  lemma ForeignClaims(x: Setting, w: World, q: Pid, w': World)
    requires Reachable(x, w) && ValidSetting(x) && Shaped(x, w)
    requires q in x.env.ring && q !in w.party && Target(x, q) in w.ledger && At(w.ledger, Target(x, q)).Locked? && MayClaim(x, w, q)
    requires w' == w.(ledger := w.ledger[Target(x, q) := Claimed])
    ensures Reachable(x, w')
  {
    hide IsRing, Reachable, WorldInv, Covers, MayClaim;
    ReachableOk(x, w);
    InvShape(x, w);
    assert w' == Step(x, w, ForeignClaim(q));
    ReachableNext(x, w, ForeignClaim(q), w');
  }

  /** With the party's secret out, the leader claims, and then the party's own claimant. */
  lemma OwnLockIsClaimed(x: Setting, w: World, p: Pid) returns (w': World)
    requires ValidSetting(x) && x.honest == {p} && p != x.leader && p in x.env.ring && w.ledger.Keys == x.env.ring.Keys
    requires Shaped(x, w) && w.party.Keys == {p} && p in w.revealed
    requires forall y {:trigger At(w.ledger, y)} :: y in x.env.ring && y != Target(x, p) ==> At(w.ledger, y).Locked?
    requires Reachable(x, w)
    ensures w'.ledger.Keys == x.env.ring.Keys && At(w'.ledger, p).Claimed? && OnlyLedger(w, w')
    ensures Target(x, p) in x.env.ring && At(w'.ledger, Target(x, p)) == At(w.ledger, Target(x, p))
    ensures Target(x, x.leader) in w'.ledger && Published(x, w'.ledger)
    ensures Reachable(x, w')
  {
    hide IsRing, Reachable;
    var q := ClaimantOf(x, p);
    var l := Target(x, x.leader);
    TargetsDiffer(x, p, x.leader);
    TargetsDiffer(x, x.leader, p);
    TargetsDiffer(x, p, q);
    assert At(w.ledger, l).Locked?;
    var w1 := w.(ledger := w.ledger[l := Claimed]);
    ForeignClaims(x, w, x.leader, w1);
    if q == x.leader {
      w' := w1;
    } else {
      assert l != p by { if l == p { ClaimantIsUnique(x.env.ring, q, x.leader); } }
      assert At(w1.ledger, p) == At(w.ledger, p);
      w' := w1.(ledger := w1.ledger[p := Claimed]);
      ForeignClaims(x, w1, q, w');
    }
  }

  lemma ForeignReturns(x: Setting, w: World, y: Pid, w': World)
    requires Reachable(x, w) && ValidSetting(x)
    requires y in x.env.ring && y !in x.honest && y in w.ledger && At(w.ledger, y).Locked? && RefundAcceptable(x, y, w.tip)
    requires w' == w.(ledger := w.ledger[y := Returned])
    ensures Reachable(x, w')
  {
    hide IsRing, Reachable, WorldInv, Covers, RefundAcceptable;
    ReachableOk(x, w);
    InvShape(x, w);
    assert w' == Step(x, w, ForeignRefund(y));
    ReachableNext(x, w, ForeignRefund(y), w');
  }

  lemma TimePasses(x: Setting, w: World, tip: Tip, w': World)
    requires Reachable(x, w) && ValidSetting(x) && w.tip.height <= tip.height && w.tip.slot <= tip.slot
    requires w' == w.(tip := tip, late := w.late + LateAt(x, w.served, tip))
    ensures Reachable(x, w')
  {
    hide IsRing, Reachable, WorldInv, Covers, LateAt;
    ReachableOk(x, w);
    InvShape(x, w);
    assert w' == Step(x, w, Advance(tip));
    ReachableNext(x, w, Advance(tip), w');
  }

  // ---------- too late ----------

  ghost predicate HasLost(x: Setting, w: World, p: Pid) {
    CoversTarget(x, w.ledger, p) && Lost(x, w.ledger, p)
  }

  /** In every ring: an honest party that waits for the leader's spend, and has not looked at the chain by
      the time its target's refund is acceptable, can lose. */
  lemma LateLoses(x: Setting, p: Pid, s: Session, tip: Tip, tip2: Tip) returns (w: World)
    requires Alone(x, p, s) && p in x.env.ring && Target(x, p) in x.env.ring
    requires tip.height <= tip2.height && tip.slot <= tip2.slot && RefundAcceptable(x, Target(x, p), tip2)
    ensures Reachable(x, w) && p in x.honest && p in w.late && p !in w.hurt && HasLost(x, w, p)
    ensures p in w.party && w.Party(p).adaptorSigs == s.adaptorSigs
  {
    hide IsRing, Reachable, Prepared, RefundAcceptable, MayClaim;
    var t := Target(x, p);
    TargetsDiffer(x, p, x.leader);
    var w0 := ItWaits(x, p, s, tip);
    var w1 := w0.(tip := tip2, late := w0.late + LateAt(x, w0.served, tip2));
    TimePasses(x, w0, tip2, w1);
    assert p in LateAt(x, {}, tip2);
    var w2 := w1.(ledger := w1.ledger[t := Returned]);
    assert At(w1.ledger, t) == Locked;
    ForeignReturns(x, w1, t, w2);
    ReachableOk(x, w2);
    forall y {:trigger At(w2.ledger, y)} | y in x.env.ring && y != t
      ensures At(w2.ledger, y).Locked?
    {
      assert At(w1.ledger, y).Locked?;
    }
    w := OwnLockIsClaimed(x, w2, p);
  }

  // ---------- in time, and lost all the same ----------

  /** The own lock is gone, the target's is not claimed, and the party cannot claim it any more. */
  ghost predicate Stuck(x: Setting, w: World, p: Pid, tip: Tip) {
    && ValidSetting(x) && Shaped(x, w) && Covers(x, w.ledger) && w.tip == tip && p in x.env.ring && Target(x, p) in x.env.ring
    && w.party.Keys == {p} && x.honest == {p} && Prepared(x, p, w.Party(p)) && p in w.Party(p).locksConfirmed
    && p !in w.crashed && Target(x, x.leader) in w.ledger && p !in w.late && w.served == {}
    && (At(w.ledger, p).Claimed? || At(w.ledger, p).Taken?) && (At(w.ledger, Target(x, p)).Locked? || At(w.ledger, Target(x, p)).Taken?)
    && CannotClaim(x, w, p)
  }

  ghost predicate CannotClaim(x: Setting, w: World, p: Pid) {
    && p in w.party && p in x.env.ring && Target(x, p) in w.ledger && x.leader in x.env.ring && Target(x, x.leader) in w.ledger
    && var s := w.Party(p);
    || !s.state.AwaitingLeaderSpend? || Found(x, w.ledger, s).None? || At(w.ledger, Target(x, p)).Taken?
    || !SignedOver(s, Spend(p), x.point)
  }

  lemma NotYetLate(x: Setting, p: Pid, tip: Tip, tip': Tip)
    requires ValidSetting(x) && p in x.env.ring && Target(x, p) in x.env.ring && !RefundAcceptable(x, Target(x, p), tip')
    requires tip.height <= tip'.height && tip.slot <= tip'.slot
    ensures p !in LateAt(x, {}, tip) && p !in LateAt(x, {}, tip')
  {
    hide IsRing, RefundAcceptable;
    if RefundAcceptable(x, Target(x, p), tip) {
      AcceptableLater(x, Target(x, p), tip, tip');
    }
  }

  /** A tick in the right order and in time: served, and nothing got. */
  lemma TickInVain(x: Setting, w: World, p: Pid, tip: Tip) returns (w': World)
    requires Stuck(x, w, p, tip) && WindowOpen(x, p, tip)
    ensures Enabled(x, w, Tick(p)) && Target(x, x.leader) in w.ledger && w' == Step(x, w, Tick(p))
    ensures w' == w.(party := w'.party, served := {p}) && w'.party.Keys == {p} && w'.Party(p).adaptorSigs == w.Party(p).adaptorSigs
  {
    hide IsRing, WindowOpen, Prepared, Reveals, RefundAcceptable, Covers, OnLeaderSpendPoll, OnRefundPoll, SettleAll, SignedOver, Put,
         RefundTaken;
    CoversAll(x, w.ledger);
    var s := w.Party(p);
    var o := OnLeaderSpendPoll(s, x.leader, Found(x, w.ledger, s));
    var w1 := Put(x, w, p, o);
    PutIs(x, w, p, o, w1);
    SpendPollAny(x, w.ledger, tip, p, s, o, w1.ledger);
    NothingOut();
    assert w1 == w.(party := w.party[p := o.session]);
    var o2 := OnRefundPoll(o.session, WindowOpen(x, p, tip), false);
    var w2 := Put(x, w1, p, o2);
    PutIs(x, w1, p, o2, w2);
    RefundTakenIs(x, w.ledger, tip, p, o.session);
    RefundPollAny(x, w.ledger, tip, p, o.session, false, o2, w2.ledger);
    assert w2 == w.(party := w.party[p := o2.session]);
    w' := Step(x, w, Tick(p));
    assert {} + {p} == {p};
  }

  lemma PutIs(x: Setting, w: World, p: Pid, o: Outcome, w': World)
    requires ValidSetting(x) && Shaped(x, w) && p in w.party && w' == Put(x, w, p, o)
    ensures o.Ok? ==> w'.ledger == SettleAll(x, w.ledger, w.tip, o.submitted)
    ensures o.Ok? && !Reveals(o.out) ==>
              w' == w.(party := w.party[p := o.session], ledger := SettleAll(x, w.ledger, w.tip, o.submitted))
  {
    hide IsRing, SettleAll, Reveals;
  }

  lemma NoClaim(s: Session, leader: Pid, found: Option<Secret>)
    requires s.state != AwaitingLeaderSpend || found.None?
    ensures OnLeaderSpendPoll(s, leader, found) == Ok(s, [], [])
  {
  }

  lemma NothingOut()
    ensures !Reveals([])
  {
    var none: seq<WireMessage> := [];
    assert !Reveals(none);
  }

  lemma PutNothing(x: Setting, w: World, p: Pid)
    requires ValidSetting(x) && Shaped(x, w) && p in w.party
    ensures Put(x, w, p, Ok(w.Party(p), [], [])) == w
  {
    hide IsRing;
    assert w.party[p := w.Party(p)] == w.party;
    NothingOut();
  }

  /** From there on the target's owner takes its lock back. */
  lemma TargetReturns(x: Setting, w: World, p: Pid, tip2: Tip) returns (w1: World, w2: World)
    requires ValidSetting(x) && Shaped(x, w) && Covers(x, w.ledger) && p in x.env.ring && Target(x, p) in x.env.ring
    requires x.honest == {p} && Target(x, p) != p && (At(w.ledger, p).Claimed? || At(w.ledger, p).Taken?) && At(w.ledger, Target(x, p)).Locked?
    requires p !in w.late && w.served == {p} && w.tip.height <= tip2.height && w.tip.slot <= tip2.slot
    requires RefundAcceptable(x, Target(x, p), tip2)
    ensures Follows(x, w, Advance(tip2), w1) && Follows(x, w1, ForeignRefund(Target(x, p)), w2)
    ensures p !in w2.late && HasLost(x, w2, p) && w2.hurt == w.hurt && w2.party == w.party
  {
    hide IsRing, RefundAcceptable;
    CoversAll(x, w.ledger);
    var t := Target(x, p);
    w1 := w.(tip := tip2, late := w.late + LateAt(x, w.served, tip2));
    w2 := w1.(ledger := w1.ledger[t := Returned]);
  }

  /** A reachable party that is stuck with its window open is served by a tick that settles nothing, and has
      lost in the end. */
  lemma StuckLoses(x: Setting, w: World, p: Pid, tip1: Tip, tip2: Tip) returns (w': World)
    requires Reachable(x, w) && Stuck(x, w, p, tip1) && Times(x, p, tip1, tip2) && Target(x, p) != p
    ensures Reachable(x, w') && p !in w'.late && w'.hurt == w.hurt && HasLost(x, w', p)
    ensures p in w'.party && w'.Party(p).adaptorSigs == w.Party(p).adaptorSigs
    ensures var after := TickOf(x, w, p); CoversTarget(x, after.ledger, p) && !Settled(x, after.ledger, p)
  {
    hide IsRing, Reachable, Prepared, WindowOpen, RefundAcceptable, LateAt, CannotClaim;
    var w1 := TickInVain(x, w, p, tip1);
    assert w1 == TickOf(x, w, p);
    ReachableNext(x, w, Tick(p), w1);
    if At(w1.ledger, Target(x, p)).Taken? {
      w' := w1;
    } else {
      ReachableOk(x, w1);
      var w2, w3 := TargetReturns(x, w1, p, tip2);
      ReachableNext(x, w1, Advance(tip2), w2);
      ReachableNext(x, w2, ForeignRefund(Target(x, p)), w3);
      w' := w3;
    }
  }

  /** A late commitment takes the waiting party back to the election. */
  lemma CommitmentArrives(x: Setting, w: World, p: Pid, from: Pid, commitment: Bytes32, draw: Draw) returns (w': World)
    requires Reachable(x, w) && ValidSetting(x) && Runs(w, p) && w.Party(p).state.AwaitingLeaderSpend?
    ensures Reachable(x, w') && w' == w.(party := w'.party, hurt := w.hurt + {p}) && w'.party.Keys == w.party.Keys && Runs(w', p)
    ensures w'.Party(p).state.AwaitingLeaderElectionNonces? && w'.Party(p).locksConfirmed == w.Party(p).locksConfirmed
    ensures w'.Party(p).adaptorSigs == w.Party(p).adaptorSigs
  {
    hide IsRing, Reachable, WorldInv, Covers, Prepared, FundedSession, HandleMessage, Reveals, MaySubmit;
    ReachableOk(x, w);
    InvShape(x, w);
    PreparedParty(x, w, p);
    var s, msg := w.Party(p), LeaderElectionCommitment(commitment);
    var o := HandleMessage(x.env, s, msg, from, draw, true);
    CommitmentHandled(x.env, s, commitment, from, draw);
    PreparedFunded(x, p, s);
    CommitmentSetsBack(x.env, s, commitment, from, draw);
    CommitmentSameSigs(x.env, s, commitment, from, draw);
    AnyMessage(x, p, s, msg, from, draw, true, o);
    ConfirmedSame(x.env, s, msg, from, draw, true);
    SettleOne(x, w.ledger, w.tip, o.submitted);
    NoSecrets(x, w, p, from, msg);
    w' := DeliverTo(x, w, p, from, msg, draw, true);
    assert w' == Step(x, w, Deliver(p, from, msg, draw, true));
    ReachableNext(x, w, Deliver(p, from, msg, draw, true), w');
  }

  lemma NoSecrets(x: Setting, w: World, p: Pid, from: Pid, msg: WireMessage)
    requires ValidSetting(x) && p in w.party && !msg.SecretReveal?
    ensures Unguessed(x, w, p, from, msg)
  {
    hide IsRing;
    var none: map<Pid, Secret> := map[];
    assert x.leader in x.env.ring && x.leader !in none;
  }

  lemma CommitmentHandled(env: Env, s: Session, commitment: Bytes32, from: Pid, draw: Draw)
    requires IsRing(env.ring) && !s.state.Terminal()
    ensures HandleMessage(env, s, LeaderElectionCommitment(commitment), from, draw, true) == OnCommitment(env, s, commitment, from, draw)
    ensures OnCommitment(env, s, commitment, from, draw).Ok? ==> OnCommitment(env, s, commitment, from, draw).submitted == []
  {
    hide IsRing, HasAll;
  }

  /** The own lock claimed, the target's not, nothing open yet. */
  ghost predicate Claimed1(x: Setting, w: World, p: Pid, tip: Tip, sigs: map<TxRole, SigningInputs>) {
    && Reachable(x, w) && Early(x, w, tip) && w.ledger.Keys == x.env.ring.Keys && p in x.env.ring && Target(x, p) in x.env.ring
    && At(w.ledger, p).Claimed? && At(w.ledger, Target(x, p)).Locked? && Target(x, x.leader) in w.ledger && Published(x, w.ledger)
    && w.party.Keys == {p} && w.Party(p).state.AwaitingLeaderSpend? && p in w.Party(p).locksConfirmed
    && w.Party(p).adaptorSigs == sigs
  }

  lemma ItIsClaimed(x: Setting, p: Pid, s: Session, tip: Tip) returns (w: World)
    requires Alone(x, p, s) && p in x.env.ring
    ensures Claimed1(x, w, p, tip, s.adaptorSigs) && Target(x, p) != p
  {
    hide IsRing, Reachable, Prepared, MayClaim, LateAt;
    var w0 := ItWaits(x, p, s, tip);
    TargetsDiffer(x, p, x.leader);
    ReachableOk(x, w0);
    assert At(w0.ledger, Target(x, p)) == Locked;
    w := OwnLockIsClaimed(x, w0, p);
  }

  /** Time goes by until the own window is open, and the own lock is already gone. */
  lemma ItIsStuck(x: Setting, w: World, p: Pid, tip: Tip, tip1: Tip, tip2: Tip) returns (w': World)
    requires Reachable(x, w) && w.tip == tip && w.served == {} && w.late == LateAt(x, {}, tip) && w.crashed == {}
    requires ValidSetting(x) && Shaped(x, w) && Covers(x, w.ledger) && p in x.env.ring && w.party.Keys == {p} && x.honest == {p}
    requires Times(x, p, tip1, tip2) && tip.height <= tip1.height && tip.slot <= tip1.slot && p in w.Party(p).locksConfirmed
    requires At(w.ledger, p).Claimed? || At(w.ledger, p).Taken?
    requires At(w.ledger, Target(x, p)).Locked? || At(w.ledger, Target(x, p)).Taken?
    requires Target(x, x.leader) in w.ledger && CannotClaim(x, w, p)
    ensures Reachable(x, w') && Stuck(x, w', p, tip1) && w'.hurt == w.hurt && w'.party == w.party
  {
    hide IsRing, Reachable, Prepared, WindowOpen, RefundAcceptable, LateAt, SignedOver;
    ReachableOk(x, w);
    PreparedParty(x, w, p);
    NotYetLate(x, p, tip, tip1);
    w' := w.(tip := tip1, late := w.late + LateAt(x, w.served, tip1));
    TimePasses(x, w, tip1, w');
  }

  /** In every ring: served in time, and lost, because of one late commitment. */
  lemma HurtLoses(x: Setting, p: Pid, s: Session, tip: Tip, tip1: Tip, tip2: Tip, from: Pid, commitment: Bytes32, draw: Draw)
    returns (w: World)
    requires Alone(x, p, s) && p in x.env.ring && Times(x, p, tip1, tip2) && tip.height <= tip1.height && tip.slot <= tip1.slot
    ensures Reachable(x, w) && p in x.honest && p !in w.late && p in w.hurt && HasLost(x, w, p)
    ensures p in w.party && w.Party(p).adaptorSigs == s.adaptorSigs
  {
    hide IsRing, Reachable, Prepared, WindowOpen, RefundAcceptable, LateAt, PartiesOk, LedgerInv, WatchInv, SignedOver;
    var w0 := ItIsClaimed(x, p, s, tip);
    ReachableOk(x, w0);
    var w1 := CommitmentArrives(x, w0, p, from, commitment, draw);
    ReachableOk(x, w1);
    var w2 := ItIsStuck(x, w1, p, tip, tip1, tip2);
    w := StuckLoses(x, w2, p, tip1, tip2);
  }

  // ---------- a claim over another point ----------

  /** What goes wrong for a party that is neither late nor hurt: its lock is confirmed and its window open, one
      tick does not settle it, and in the end it has lost. */
  ghost predicate GoesWrong(x: Setting, p: Pid, s: Session, w: World, w': World) {
    && ValidSetting(x) && Shaped(x, w) && p in x.honest && p in x.env.ring && p in w.party && Target(x, x.leader) in w.ledger
    && p in w.Party(p).locksConfirmed && WindowOpen(x, p, w.tip) && w.Party(p).adaptorSigs == s.adaptorSigs
    && p !in w.late && p !in w.hurt
    && p in w'.party && w'.Party(p).adaptorSigs == s.adaptorSigs && p !in w'.late && p !in w'.hurt && HasLost(x, w', p)
    && CoversTarget(x, TickOf(x, w, p).ledger, p) && !Settled(x, TickOf(x, w, p).ledger, p)
    && Reachable(x, w) && Reachable(x, w')
  }

  lemma ThatGoesWrong(x: Setting, p: Pid, s: Session, w: World, tip1: Tip, tip2: Tip) returns (w': World)
    requires Reachable(x, w) && Stuck(x, w, p, tip1) && Times(x, p, tip1, tip2) && Target(x, p) != p
    requires p !in w.hurt && w.Party(p).adaptorSigs == s.adaptorSigs
    ensures GoesWrong(x, p, s, w, w')
  {
    hide IsRing, Reachable, Prepared, WindowOpen, RefundAcceptable, LateAt, CannotClaim, TickOf, Covers, Settled;
    w' := StuckLoses(x, w, p, tip1, tip2);
  }

  /** In every ring: a party whose claim is over another point than the leader's completes on a spend that the
      chain refuses, in time, and loses. */
  lemma CrossedLoses(x: Setting, p: Pid, s: Session, tip: Tip, tip1: Tip, tip2: Tip) returns (w: World, w': World)
    requires Alone(x, p, s) && p in x.env.ring && Times(x, p, tip1, tip2) && tip.height <= tip1.height && tip.slot <= tip1.slot
    requires !SignedOver(s, Spend(p), x.point)
    ensures GoesWrong(x, p, s, w, w')
  {
    hide IsRing, Reachable, Prepared, WindowOpen, RefundAcceptable, LateAt, PartiesOk, LedgerInv, WatchInv, GoesWrong;
    var w0 := ItIsClaimed(x, p, s, tip);
    ReachableOk(x, w0);
    w := ItIsStuck(x, w0, p, tip, tip1, tip2);
    w' := ThatGoesWrong(x, p, s, w, tip1, tip2);
  }

  // ---------- a Cardano lock taken by somebody else ----------

  lemma Takes(x: Setting, w: World, y: Pid, w': World)
    requires Reachable(x, w) && ValidSetting(x) && y in x.env.ring && y in w.ledger && At(w.ledger, y).Locked?
    requires Target(x, x.leader) in w.ledger && MayTake(x, w.ledger, w.tip, y)
    requires w' == w.(ledger := w.ledger[y := Taken])
    ensures Reachable(x, w')
  {
    hide IsRing, Reachable, WorldInv, Covers, MayTake;
    ReachableOk(x, w);
    InvShape(x, w);
    assert w' == Step(x, w, Take(y));
    ReachableNext(x, w, Take(y), w');
  }

  /** The own lock is on Cardano: once its timelock has passed somebody else can be first. */
  lemma OwnTakenLoses(x: Setting, p: Pid, s: Session, tip: Tip, tip1: Tip, tip2: Tip) returns (w: World, w': World)
    requires Alone(x, p, s) && p in x.env.ring && Times(x, p, tip1, tip2) && tip.height <= tip1.height && tip.slot <= tip1.slot
    requires Stealable(x, p)
    ensures GoesWrong(x, p, s, w, w')
  {
    hide IsRing, Reachable, Prepared, WindowOpen, RefundAcceptable, LateAt, PartiesOk, LedgerInv, WatchInv, GoesWrong, SignedOver;
    var w0 := ItWaits(x, p, s, tip);
    TargetsDiffer(x, p, x.leader);
    ReachableOk(x, w0);
    var w1 := w0.(tip := tip1, late := w0.late + LateAt(x, w0.served, tip1));
    TimePasses(x, w0, tip1, w1);
    NotYetLate(x, p, tip, tip1);
    OpenIsAcceptable(x, p, tip1);
    assert At(w1.ledger, p) == Locked && At(w1.ledger, Target(x, p)) == Locked;
    assert At(w1.ledger, Target(x, x.leader)) == Locked;
    w := w1.(ledger := w1.ledger[p := Taken]);
    Takes(x, w1, p, w);
    ReachableOk(x, w);
    PreparedParty(x, w, p);
    w' := ThatGoesWrong(x, p, s, w, tip1, tip2);
  }

  /** The target's lock is on Cardano: with the leader's spend published somebody else can be first. */
  lemma TargetTakenLoses(x: Setting, p: Pid, s: Session, tip: Tip, tip1: Tip, tip2: Tip) returns (w: World, w': World)
    requires Alone(x, p, s) && p in x.env.ring && Times(x, p, tip1, tip2) && tip.height <= tip1.height && tip.slot <= tip1.slot
    requires Stealable(x, Target(x, p))
    ensures GoesWrong(x, p, s, w, w')
  {
    hide IsRing, Reachable, Prepared, WindowOpen, RefundAcceptable, LateAt, PartiesOk, LedgerInv, WatchInv, GoesWrong, SignedOver;
    var w0 := ItIsClaimed(x, p, s, tip);
    TargetsDiffer(x, p, x.leader);
    ReachableOk(x, w0);
    var w1 := w0.(ledger := w0.ledger[Target(x, p) := Taken]);
    Takes(x, w0, Target(x, p), w1);
    ReachableOk(x, w1);
    w := ItIsStuck(x, w1, p, tip, tip1, tip2);
    w' := ThatGoesWrong(x, p, s, w, tip1, tip2);
  }

  // ---------- the order within a tick ----------

  /** A tick that checks the refund window first. */
  ghost function WindowFirst(x: Setting, w: World, p: Pid): World
    requires ValidSetting(x) && Shaped(x, w) && p in w.party && Target(x, x.leader) in w.ledger
  {
    var w1 := PollRefund(x, w, p);
    if Shaped(x, w1) && p in w1.party && Target(x, x.leader) in w1.ledger then
      PollLeaderSpend(x, w1, p).(served := w.served + {p})
    else w1
  }

  lemma WindowFirstTick(x: Setting, w: World, p: Pid, tip: Tip)
    requires ValidSetting(x) && Shaped(x, w) && Covers(x, w.ledger) && w.tip == tip && Target(x, x.leader) in w.ledger
    requires p in w.party && Prepared(x, p, w.Party(p)) && p in x.env.ring && p in w.Party(p).locksConfirmed
    requires !w.Party(p).state.Terminal() && At(w.ledger, p).Claimed? && WindowOpen(x, p, tip)
    ensures var w' := WindowFirst(x, w, p);
            w' == w.(party := w'.party, served := w.served + {p}) && w'.party.Keys == w.party.Keys
  {
    hide IsRing, WindowOpen, Prepared, Reveals, RefundAcceptable, RefundSubmission;
    PreparedMe(x, p, w.Party(p));
    var s := w.Party(p);
    var o := OnRefundPoll(s, true, false);
    SettleRefund(x, w.ledger, tip, s, p);
    NothingOut();
    var w1 := PollRefund(x, w, p);
    assert w1 == w.(party := w.party[p := s.TransitionTo(Failed)]);
    NoClaim(w1.Party(p), x.leader, Found(x, w1.ledger, w1.Party(p)));
    PutNothing(x, w1, p);
  }

  lemma SameOver(s: Session, t: Session, role: TxRole, point: Point)
    requires t.adaptorSigs == s.adaptorSigs
    ensures SignedOver(t, role, point) == SignedOver(s, role, point)
  {
  }

  /** In every ring: looking at the window first loses what looking for the leader's spend first gains. */
  lemma WindowFirstLoses(x: Setting, p: Pid, s: Session, tip: Tip, tip1: Tip, tip2: Tip) returns (w: World, w1: World, w2: World, w3: World)
    requires Alone(x, p, s) && p in x.env.ring && Times(x, p, tip1, tip2) && tip.height <= tip1.height && tip.slot <= tip1.slot
    requires SignedOver(s, Spend(p), x.point) && !Exposed(x, p)
    ensures Reachable(x, w) && Shaped(x, w) && p in w.party && Target(x, x.leader) in w.ledger && p !in w.hurt
    ensures w1 == WindowFirst(x, w, p)
    ensures Follows(x, w1, Advance(tip2), w2) && Follows(x, w2, ForeignRefund(Target(x, p)), w3)
    ensures p !in w3.late && p !in w3.hurt && HasLost(x, w3, p)
    ensures var right := TickOf(x, w, p); CoversTarget(x, right.ledger, p) && Settled(x, right.ledger, p)
  {
    hide IsRing, Reachable, Prepared, WindowOpen, RefundAcceptable, LateAt, PartiesOk, LedgerInv, WatchInv, WindowFirst, TickOf,
         Settled, CoversTarget, SignedOver, Exposed;
    var w0 := ItIsClaimed(x, p, s, tip);
    NotYetLate(x, p, tip, tip1);
    w := w0.(tip := tip1, late := w0.late + LateAt(x, w0.served, tip1));
    TimePasses(x, w0, tip1, w);
    ReachableOk(x, w);
    PreparedParty(x, w, p);
    w1 := WindowFirst(x, w, p);
    WindowFirstTick(x, w, p, tip1);
    assert Matched(x, w, p) by { SameOver(s, w.Party(p), Spend(p), x.point); }
    OneTickSettles(x, w, p, TickOf(x, w, p));
    w2, w3 := TargetReturns(x, w1, p, tip2);
  }

  // ---------- the secret handed on off chain ----------

  lemma OffChainClaim(x: Setting, w: World, p: Pid, q: Pid, tip: Tip, tip1: Tip, sigs: map<TxRole, SigningInputs>)
    returns (w1: World, w2: World)
    requires Waits(x, w, p, tip, sigs) && x.honest == {p} && p in x.env.ring && p != x.leader && Target(x, p) in x.env.ring
    requires tip.height <= tip1.height && tip.slot <= tip1.slot && !RefundAcceptable(x, Target(x, p), tip1)
    requires q in x.env.ring && q != x.leader && Target(x, q) == p
    ensures Shaped(x, w) && !Enabled(x, w, ForeignClaim(q)) && p in w.ledger && At(w.ledger, p).Locked?
    ensures w1 == w.(ledger := w.ledger[p := Claimed]) && Follows(x, w1, Advance(tip1), w2) && Stuck(x, w2, p, tip1)
    ensures Target(x, p) != p && w2.hurt == {}
  {
    hide IsRing, Reachable, Prepared, RefundAcceptable, PartiesOk, LedgerInv, WatchInv;
    ReachableOk(x, w);
    PreparedParty(x, w, p);
    NotYetLate(x, p, tip, tip1);
    TargetsDiffer(x, p, x.leader);
    TargetsDiffer(x, x.leader, q);
    assert At(w.ledger, p) == Locked && At(w.ledger, Target(x, p)) == Locked && At(w.ledger, Target(x, x.leader)) == Locked;
    w1 := w.(ledger := w.ledger[p := Claimed]);
    RingCovers(x, w1.ledger);
    w2 := w1.(tip := tip1, late := w1.late + LateAt(x, w1.served, tip1));
  }

  /** In every ring: if the claimant of the party's lock, not the leader, gets the aggregate secret without
      the leader's spend on chain, the party is served in time and loses. */
  lemma OffChainLoses(x: Setting, p: Pid, s: Session, q: Pid, tip: Tip, tip1: Tip, tip2: Tip)
    returns (w: World, w1: World, w2: World, w3: World, w4: World, w5: World)
    requires Alone(x, p, s) && p in x.env.ring && Times(x, p, tip1, tip2) && tip.height <= tip1.height && tip.slot <= tip1.slot
    requires q in x.env.ring && q != x.leader && Target(x, q) == p
    ensures Reachable(x, w) && Shaped(x, w) && !Enabled(x, w, ForeignClaim(q)) && p in w.ledger && At(w.ledger, p).Locked?
    ensures w1 == w.(ledger := w.ledger[p := Claimed])
    ensures Follows(x, w1, Advance(tip1), w2) && Follows(x, w2, Tick(p), w3)
    ensures Follows(x, w3, Advance(tip2), w4) && Follows(x, w4, ForeignRefund(Target(x, p)), w5)
    ensures p !in w5.late && p !in w5.hurt && HasLost(x, w5, p)
  {
    hide IsRing, Reachable, Prepared, WindowOpen, RefundAcceptable, PartiesOk, LedgerInv, WatchInv;
    w := ItWaits(x, p, s, tip);
    w1, w2 := OffChainClaim(x, w, p, q, tip, tip1, s.adaptorSigs);
    w3 := TickInVain(x, w2, p, tip1);
    TargetsDiffer(x, p, q);
    assert At(w.ledger, Target(x, p)).Locked? && At(w1.ledger, p) == Claimed && w3.ledger == w1.ledger;
    w4, w5 := TargetReturns(x, w3, p, tip2);
  }
}
