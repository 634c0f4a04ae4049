/** The outcomes of the swap on chain, for every ring, every set of misbehaving parties and every run. */
module ChainTheorems {
  import opened Ring
  import opened Timelocks
  import opened Protocol
  import opened FundedSessions
  import opened Chain
  import opened ChainSessions
  import opened ChainSafety

  // ---------- runs ----------

  /** Nobody has locked yet. */
  ghost predicate Begins(x: Setting, w: World) {
    && ValidSetting(x) && Shaped(x, w) && w.party == map[]
    && w.revealed == {} && w.served == {} && w.late == LateAt(x, {}, w.tip) && w.hurt == {} && w.crashed == {}
    && (forall y {:trigger At(w.ledger, y)} :: y in x.env.ring ==> At(w.ledger, y).Absent?)
  }

  ghost predicate Follows(x: Setting, w: World, e: Event, w': World) {
    && ValidSetting(x) && Shaped(x, w) && Covers(x, w.ledger) && Enabled(x, w, e) && w' == Step(x, w, e)
  }

  ghost predicate IsRun(x: Setting, ws: seq<World>, es: seq<Event>) {
    && |ws| == |es| + 1 && Begins(x, ws[0])
    && forall i {:trigger es[i]} :: 0 <= i < |es| ==> Follows(x, ws[i], es[i], ws[i + 1])
  }

  ghost predicate Reachable(x: Setting, w: World) {
    exists ws, es :: IsRun(x, ws, es) && ws[|es|] == w
  }

  lemma RingCovers(x: Setting, ledger: Ledger)
    requires ValidSetting(x) && ledger.Keys == x.env.ring.Keys
    ensures Covers(x, ledger)
  {
    hide Reaches, Hop;
    forall p {:trigger Target(x, p)} | p in x.env.ring
      ensures Target(x, p) in ledger
    {
      assert x.env.ring[p].target in x.env.ring;
    }
  }

  lemma BeginsOk(x: Setting, w: World)
    requires Begins(x, w)
    ensures WorldInv(x, w)
  {
    hide IsRing, RefundAcceptable, Prepared, Unsound, Stealable;
    RingCovers(x, w.ledger);
    CoversAll(x, w.ledger);
    assert x.leader in x.env.ring && At(w.ledger, Target(x, x.leader)).Absent?;
  }

  lemma StepKeeps(x: Setting, w: World, e: Event)
    requires ValidSetting(x) && Shaped(x, w) && Covers(x, w.ledger) && Enabled(x, w, e)
    requires WorldInv(x, w)
    ensures WorldInv(x, Step(x, w, e))
  {
    hide IsRing, WorldInv, Enabled, HandleMessage, OnLockPoll, TickOf, DeliverTo, Put, Covers, LateAt;
    CoversAll(x, w.ledger);
    var w' := Step(x, w, e);
    match e {
      case Join(p, s) => JoinKeeps(x, w, p, s, w');
      case Confirm(owner) => ConfirmKeeps(x, w, owner, w');
      case Deliver(p, from, msg, draw, accepted) =>
        DeliverParty(x, w, e);
        DeliverKeeps(x, w, e, HandleMessage(x.env, w.Party(p), msg, from, draw, accepted), w');
      case PollLock(p, owner, onChain) =>
        DeliverParty(x, w, e);
        PollLockKeeps(x, w, e, OnLockPoll(x.env, w.Party(p), owner, onChain), w');
      case Tick(p) =>
        DeliverParty(x, w, e);
        TickKeeps(x, w, p, w');
      case Advance(tip) => AdvanceKeeps(x, w, tip, w');
      case ForeignRefund(owner) => ForeignRefundKeeps(x, w, owner, w');
      case ForeignClaim(q) => ForeignClaimKeeps(x, w, q, w');
      case Take(owner) => TakeKeeps(x, w, owner, w');
    }
  }

  lemma DeliverParty(x: Setting, w: World, e: Event)
    requires ValidSetting(x) && Shaped(x, w) && Enabled(x, w, e)
    ensures e.Deliver? || e.PollLock? || e.Tick? ==> e.p in x.honest && e.p in w.party && e.p !in w.crashed
  {
    hide IsRing;
  }

  lemma {:induction false} RunOk(x: Setting, ws: seq<World>, es: seq<Event>, i: nat)
    requires IsRun(x, ws, es) && i < |ws|
    ensures WorldInv(x, ws[i])
  {
    hide Begins, WorldInv, Step, Enabled, Covers, Shaped, ValidSetting;
    if i == 0 {
      BeginsOk(x, ws[0]);
    } else {
      RunOk(x, ws, es, i - 1);
      assert Follows(x, ws[i - 1], es[i - 1], ws[i]);
      StepKeeps(x, ws[i - 1], es[i - 1]);
    }
  }

  lemma ReachableOk(x: Setting, w: World)
    requires Reachable(x, w)
    ensures WorldInv(x, w)
  {
    hide Begins, WorldInv, Follows;
    var ws, es :| IsRun(x, ws, es) && ws[|es|] == w;
    RunOk(x, ws, es, |es|);
  }

  /** A run can go on with whatever is possible. */
  lemma ReachableNext(x: Setting, w: World, e: Event, w': World)
    requires Follows(x, w, e, w')
    requires Reachable(x, w)
    ensures Reachable(x, w')
  {
    hide Follows, Begins;
    var ws, es :| IsRun(x, ws, es) && ws[|es|] == w;
    var ws', es' := ws + [w'], es + [e];
    forall i {:trigger es'[i]} | 0 <= i < |es'|
      ensures Follows(x, ws'[i], es'[i], ws'[i + 1])
    {
      if i < |es| {
        assert es'[i] == es[i];
      }
    }
    assert ws'[0] == ws[0];
    assert IsRun(x, ws', es') && ws'[|es'|] == w';
  }

  lemma BeginsReachable(x: Setting, w: World)
    requires Begins(x, w)
    ensures Reachable(x, w)
  {
    hide Begins, Follows;
    var none: seq<Event> := [];
    assert IsRun(x, [w], none) && [w][|none|] == w;
  }

  // ---------- no loss ----------

  /** The own lock is gone, and so is the lock one was to claim. */
  predicate Lost(x: Setting, ledger: Ledger, p: Pid) {
    && CoversTarget(x, ledger, p)
    && ((At(ledger, p).Claimed? || At(ledger, p).Taken?) && (At(ledger, Target(x, p)).Returned? || At(ledger, Target(x, p)).Taken?))
  }

  /** The pre-signature of the party's claim, once it has locked, is over the point of the leader's. */
  predicate Matched(x: Setting, w: World, p: Pid) { p in w.party ==> SignedOver(w.Party(p), Spend(p), x.point) }

  lemma MatchedIsSound(x: Setting, w: World, p: Pid)
    requires WorldInv(x, w) && p in x.honest && p !in w.late && p !in w.hurt && !Exposed(x, p) && Matched(x, w, p)
    ensures p !in Excused(x, w)
  {
    hide IsRing, LedgerInv, WatchInv, Prepared, PartiesOk, Exposed;
    if p in w.party {
      PartyAt(x, w, p);
    }
  }

  /** Whoever is honest, in time and not hurt, has its claim over the point and both locks out of the reach of
      others, never loses: for every ring, every set of others and whatever these send. */
  lemma NoLoss(x: Setting, w: World, p: Pid)
    requires p in x.honest && CoversTarget(x, w.ledger, p) && !Exposed(x, p) && Matched(x, w, p)
    requires Reachable(x, w) && p !in w.late && p !in w.hurt
    ensures !Lost(x, w.ledger, p)
  {
    hide IsRing, Reachable, PartiesOk, LedgerInv, WatchInv, RefundAcceptable, Stealable, Excused;
    ReachableOk(x, w);
    CoversAll(x, w.ledger);
    MatchedIsSound(x, w, p);
    var t := Target(x, p);
    OwnClaimPublished(x, w.ledger, w.tip, w.revealed, p);
    OwnClaimPublished(x, w.ledger, w.tip, w.revealed, t);
    if p != x.leader {
      InTime(x, w.ledger, w.tip, w.served, Excused(x, w), p);
    }
  }

  lemma InTime(x: Setting, ledger: Ledger, tip: Tip, served: set<Pid>, late: set<Pid>, p: Pid)
    requires ValidSetting(x) && Covers(x, ledger) && p in Others(x) && p !in late && CoversTarget(x, ledger, p)
          && Target(x, p) in x.env.ring
    requires WatchInv(x, ledger, tip, served, late)
    ensures RefundAcceptable(x, Target(x, p), tip) ==> Settled(x, ledger, p)
  {
    hide IsRing, RefundAcceptable;
  }

  /** Whoever the leader is, its lock is claimed only when it got its own target; so whether late or hurt, it
      loses only a lock that others can take. */
  lemma LeaderNeverLoses(x: Setting, w: World)
    requires x.leader in x.env.ring && CoversTarget(x, w.ledger, x.leader)
    requires Reachable(x, w)
    ensures At(w.ledger, x.leader).Claimed? ==> At(w.ledger, Target(x, x.leader)).Claimed?
    ensures !Stealable(x, x.leader) ==> !Lost(x, w.ledger, x.leader)
  {
    hide IsRing, Reachable, PartiesOk, LedgerInv, WatchInv, Stealable;
    ReachableOk(x, w);
    OwnClaimPublished(x, w.ledger, w.tip, w.revealed, x.leader);
  }

  /** A non-leader of that kind, with its lock confirmed and with its window open, has after one tick its lock
      back or its target claimed. */
  lemma OneTickSettles(x: Setting, w: World, p: Pid, w': World)
    requires ValidSetting(x) && Shaped(x, w) && Covers(x, w.ledger) && p in Others(x) && p in w.party
    requires w' == TickOf(x, w, p) && p in w.Party(p).locksConfirmed && WindowOpen(x, p, w.tip)
    requires !Exposed(x, p) && Matched(x, w, p)
    requires Reachable(x, w) && p !in w.late && p !in w.hurt
    ensures CoversTarget(x, w'.ledger, p) && Settled(x, w'.ledger, p)
  {
    hide IsRing, Reachable, PartiesOk, LedgerInv, WatchInv, WindowOpen, TickOf, Settled, Excused, Exposed, SignedOver;
    ReachableOk(x, w);
    MatchedIsSound(x, w, p);
    TickKeeps(x, w, p, w');
  }

  // ---------- atomicity ----------

  /** The party that claims a lock beyond the first. */
  lemma ClaimantBefore(x: Setting, z: Pid) returns (q: Pid)
    requires ValidSetting(x) && z in x.env.ring && Distance(x.env.ring, x.leader, z) > 1
    ensures q in x.env.ring && q != x.leader && Target(x, q) == z
    ensures Distance(x.env.ring, x.leader, z) == Distance(x.env.ring, x.leader, q) + 1
  {
    hide Reaches, Distance;
    var ps, d := x.env.ring, Distance(x.env.ring, x.leader, z);
    DistanceIs(ps, x.leader, z);
    q := Hop(ps, x.leader, d - 1);
    assert Hop(ps, x.leader, d) == ps[q].target;
    assert Hop(ps, x.leader, 1) == ps[Hop(ps, x.leader, 0)].target;
    LeaderIsLast(ps, x.leader);
    TargetIsNext(ps, x.leader, q);
  }

  /** If anything is returned while everybody is honest and in time, the first lock is returned. */
  lemma {:induction false} ReturnsBeginFirst(x: Setting, ledger: Ledger, tip: Tip, w: World, z: Pid)
    requires ValidSetting(x) && Covers(x, ledger) && x.honest == x.env.ring.Keys && Excused(x, w) == {} && z in x.env.ring
    requires LedgerInv(x, ledger, tip, w.revealed) && WatchInv(x, ledger, tip, w.served, Excused(x, w))
    requires Target(x, x.leader) in ledger && At(ledger, z).Returned?
    ensures At(ledger, Target(x, x.leader)).Returned?
    decreases Distance(x.env.ring, x.leader, z)
  {
    hide IsRing, Distance, RefundAcceptable, LedgerInv, WatchInv, Excused;
    var ps := x.env.ring;
    CoversAll(x, ledger);
    if Distance(ps, x.leader, z) == 1 {
      FirstIsTarget(x, z);
    } else {
      var q := ClaimantBefore(x, z);
      OwnClaimPublished(x, ledger, tip, w.revealed, z);
      InTime(x, ledger, tip, w.served, Excused(x, w), q);
      ReturnsBeginFirst(x, ledger, tip, w, q);
    }
  }

  lemma FirstIsTarget(x: Setting, z: Pid)
    requires ValidSetting(x) && z in x.env.ring && Distance(x.env.ring, x.leader, z) == 1
    ensures z == Target(x, x.leader)
  {
    hide Reaches;
    assert Hop(x.env.ring, x.leader, 1) == x.env.ring[Hop(x.env.ring, x.leader, 0)].target;
  }

  lemma NobodyExcused(x: Setting, w: World)
    requires WorldInv(x, w) && x.honest == x.env.ring.Keys && w.late == {} && w.hurt == {}
    requires forall p {:trigger Matched(x, w, p)} :: p in w.party ==> Matched(x, w, p)
    ensures Excused(x, w) == {}
  {
    hide IsRing, LedgerInv, WatchInv, PartiesOk, Sound;
    forall p | p in x.honest
      ensures p !in Excused(x, w)
    {
      assert p in w.party ==> w.Party(p) == w.Party(p) && Matched(x, w, p);
      MatchedIsSound(x, w, p);
    }
  }

  /** All honest, in time and not hurt, with their claims over the point: no lock is claimed while another one
      is returned. */
  lemma Atomicity(x: Setting, w: World, y: Pid, z: Pid)
    requires x.honest == x.env.ring.Keys && y in w.ledger && z in w.ledger
    requires forall p {:trigger Matched(x, w, p)} :: p in w.party ==> Matched(x, w, p)
    requires Reachable(x, w) && w.late == {} && w.hurt == {}
    ensures !(At(w.ledger, y).Claimed? && At(w.ledger, z).Returned?)
  {
    hide IsRing, Reachable, PartiesOk, LedgerInv, WatchInv, RefundAcceptable, Matched, Excused;
    ReachableOk(x, w);
    CoversAll(x, w.ledger);
    NobodyExcused(x, w);
    if At(w.ledger, z).Returned? {
      ReturnsBeginFirst(x, w.ledger, w.tip, w, z);
      OwnClaimPublished(x, w.ledger, w.tip, w.revealed, y);
    }
  }

  // ---------- the leader ----------

  /** The message that gives an honest leader the last secret. */
  ghost predicate LastSecret(x: Setting, w: World, e: Event) {
    && e.Deliver? && e.p == x.leader && e.p in w.party && e.msg.SecretReveal? && !w.Party(e.p).state.Terminal()
    && HasAll(x.env.ring, w.Party(e.p).secrets[e.from := e.msg.secret])
  }

  lemma LastSecretSubmits(x: Setting, w: World, e: Event, o: Outcome)
    requires IsRing(x.env.ring) && x.leader in x.env.ring
    requires LastSecret(x, w, e) && Prepared(x, x.leader, w.Party(e.p))
    requires o == HandleMessage(x.env, w.Party(e.p), e.msg, e.from, e.draw, e.accepted)
    ensures o.Ok? && o.submitted != [] && !o.submitted[0].SubmitLock? && o.session.state.Completed?
  {
    ReadyToClaim(x, x.leader, w.Party(e.p));
    PreparedMe(x, x.leader, w.Party(e.p));
    hide IsRing, ClaimWith, HasAll, OnAdaptorPoint, OnCommitment, OnLeaderNonce, OnSchnorrNonce, OnPartialSignature,
         Prepared, FundedSession;
    var s := w.Party(e.p);
    var s1 := s.(secrets := s.secrets[e.from := e.msg.secret]);
    assert o == OnSecretReveal(x.env, s, e.msg.secret, e.from);
    assert o == ClaimWith(s1, x.env.sumSecrets(s1.secrets), [SpendTxBroadcast]);
    ClaimIs(s1, x.env.sumSecrets(s1.secrets), [SpendTxBroadcast]);
  }

  lemma PreparedParty(x: Setting, w: World, p: Pid)
    requires WorldInv(x, w) && p in w.party
    ensures Prepared(x, p, w.Party(p)) && p in x.env.ring
  {
    hide IsRing, LedgerInv, WatchInv, Prepared, PartiesOk;
    PreparedAt(x, w, p);
  }

  /** An honest leader, hurt or not, that gets the last secret while its target's lock is on chain and the
      first window is still closed has its claim exactly when the secrets add up and its pre-signature is over
      the point, which it is unless the leader is hurt; the session completes either way. */
  lemma LeaderGetsItsClaim(x: Setting, w: World, e: Event, w': World)
    requires ValidSetting(x) && Shaped(x, w) && Covers(x, w.ledger) && Enabled(x, w, e) && LastSecret(x, w, e)
    requires w' == Step(x, w, e) && Target(x, x.leader) in x.env.ring
    requires !At(w.ledger, Target(x, x.leader)).Absent? && !At(w.ledger, Target(x, x.leader)).Claimed?
    requires !RefundAcceptable(x, Target(x, x.leader), w.tip)
    requires Reachable(x, w)
    ensures ClaimsIfRight(x, w, e, w')
  {
    hide IsRing, Reachable, WorldInv, HandleMessage, Put, RefundAcceptable, Unguessed, HasAll, Tolerated, MaySubmit,
         LeaderSpends;
    ReachableOk(x, w);
    DeliverParty(x, w, e);
    var o := HandleMessage(x.env, w.Party(e.p), e.msg, e.from, e.draw, e.accepted);
    PreparedParty(x, w, x.leader);
    LastSecretSubmits(x, w, e, o);
    AnyMessage(x, e.p, w.Party(e.p), e.msg, e.from, e.draw, e.accepted, o);
    PutSession(x, w, e.p, o, Put(x, w, e.p, o));
    DeliveredLedger(x, w, e, o, w'.ledger);
    NotReturned(x, w, Target(x, x.leader));
    SpendsExactly(x, w.Party(e.p), w.ledger, w'.ledger, x.env.sumSecrets(w.Party(e.p).secrets[e.from := e.msg.secret]));
    if x.leader !in w.hurt {
      UnhurtLeads(x, w, x.leader);
    }
  }

  lemma UnhurtLeads(x: Setting, w: World, p: Pid)
    requires WorldInv(x, w) && p in w.party && p !in w.hurt
    ensures SignedOver(w.Party(p), Spend(x.leader), x.point)
  {
    hide IsRing, LedgerInv, WatchInv, PartiesOk, Prepared, Sound, SignedOver;
    PartyAt(x, w, p);
  }

  lemma SpendsExactly(x: Setting, s: Session, ledger: Ledger, ledger': Ledger, secret: Secret)
    requires Covers(x, ledger) && LeaderSpends(x, s, ledger, ledger', secret) && At(ledger, Target(x, x.leader)).Locked?
    ensures Target(x, x.leader) in ledger'
    ensures At(ledger', Target(x, x.leader)).Claimed? <==> SignedOver(s, Spend(x.leader), x.point) && secret == x.secret
  {
    hide SignedOver;
  }

  ghost predicate ClaimsIfRight(x: Setting, w: World, e: Event, w': World) {
    && LastSecret(x, w, e)
    && x.leader in w'.party && w'.Party(x.leader).state.Completed? && x.leader in x.env.ring && Target(x, x.leader) in w'.ledger
    && (At(w'.ledger, Target(x, x.leader)).Claimed?
        <==> SignedOver(w.Party(x.leader), Spend(x.leader), x.point)
             && x.env.sumSecrets(w.Party(e.p).secrets[e.from := e.msg.secret]) == x.secret)
    && (x.leader !in w.hurt ==> SignedOver(w.Party(x.leader), Spend(x.leader), x.point))
  }

  lemma NotReturned(x: Setting, w: World, y: Pid)
    requires WorldInv(x, w) && y in x.env.ring
    ensures y in w.ledger && (At(w.ledger, y).Returned? ==> RefundAcceptable(x, y, w.tip))
    ensures At(w.ledger, y).Taken? ==> Target(x, x.leader) in w.ledger && (Published(x, w.ledger) || RefundAcceptable(x, y, w.tip))
  {
    hide IsRing, PartiesOk, WatchInv, RefundAcceptable, LedgerInv, Stealable;
    OwnClaimPublished(x, w.ledger, w.tip, w.revealed, y);
  }

  lemma PutSession(x: Setting, w: World, p: Pid, o: Outcome, w': World)
    requires ValidSetting(x) && Shaped(x, w) && p in w.party && w' == Put(x, w, p, o) && o.Ok?
    ensures p in w'.party && w'.Party(p) == o.session && w'.ledger == SettleAll(x, w.ledger, w.tip, o.submitted)
  {
    hide IsRing, SettleAll, Reveals;
  }
}
