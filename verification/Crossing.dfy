/** A peer that sends a second adaptor point between two roles: the session ends up with pre-signatures over two
    different points, and funds. */
module Crossing {
  import opened Ring
  import opened Timelocks
  import opened Protocol
  import opened PartyInvariant
  import opened PartySteps
  import opened FundingSteps
  import opened Effects
  import opened NonceUse
  import opened Disorder
  import AnySetup
  import C = Chain
  import Losses
  import LossWitness

  // ---------- before the second point ----------

  /** The peer's public nonce for the party's own spend is held back, and so are all partial signatures for
      that role. */
  ghost function HeldForClaim(c: Conf, me: Pid, q: Pid): set<(Pid, Kind)> {
    {(q, KSchnorr(Spend(me)))} + (set o | o in c.env.ring :: (o, KPartial(Spend(me))))
  }

  lemma HeldForClaimIs(c: Conf, me: Pid, q: Pid, p: Pid, k: Kind)
    ensures (p, k) in HeldForClaim(c, me, q)
       <==> (p == q && k == KSchnorr(Spend(me))) || (p in c.env.ring && k == KPartial(Spend(me)))
  {
  }

  lemma HeldForClaimIsClosed(c: Conf, me: Pid, q: Pid)
    requires q in c.env.ring
    ensures ClosedAbove(c, HeldForClaim(c, me, q))
  {
    hide HeldForClaim, RoleInRing;
    forall p: Pid, j: Kind, k: Kind {:trigger (p, j) in HeldForClaim(c, me, q), (p, k) in HeldForClaim(c, me, q)}
      | (p, j) in HeldForClaim(c, me, q) && ValidKind(c, k) && Before(j, k) && Rank(k) <= 4
      ensures (p, k) in HeldForClaim(c, me, q)
    {
      HeldForClaimIs(c, me, q, p, j);
      HeldForClaimIs(c, me, q, p, k);
    }
  }

  /** Everything but the own spend is signed. */
  ghost predicate AtTheGap(c: Conf, s: Session, q: Pid) {
    && ValidConf(c)
    && var role := Spend(s.me);
    && s.me in c.env.ring && q in c.env.ring && q != s.me && s.state == RefundAndSpendTxsSigning
    && s.points == AllPoints(c) && s.leader == Some(c.plan.leader)
    && role in s.musig && s.musig[role] == RoundOne(c.plan.msg(role), c.plan.tweak(role), c.plan.sec(s.me, role))
    && (forall p {:trigger (p, role) in s.nonces} :: p in c.env.ring ==>
          ((p, role) in s.nonces <==> p != q) && (p != q ==> s.nonces[(p, role)] == PubNonce(c.plan.sec(p, role))))
    && (forall p: Pid {:trigger (p, role) in s.partials} :: (p, role) !in s.partials)
    && (forall p: Pid, id {:trigger (p, Refund(id)) in s.partials} :: p in c.env.ring && id in c.env.ring && p != s.me ==>
          (p, Refund(id)) in s.partials)
    && role !in s.adaptorSigs
    && (forall id {:trigger Spend(id)} :: id in c.env.ring && id != s.me ==>
          C.SignedOver(s, Spend(id), c.env.sumPoints(AllPoints(c))))
    && s.me in s.lockTxs && Refund(s.me) in s.signedTxs
    && s.me !in s.locksConfirmed && s.locksConfirmed <= c.env.ring.Keys && FundingCount(s.history) == 0
  }

  lemma GapOpened(c: Conf, me: Pid, q: Pid, got: Handled)
    requires me in c.env.ring && q in c.env.ring && q != me && UpTo(c, me, HeldForClaim(c, me, q), 5, got)
    ensures Opened(c, me, got.nonces)
    ensures forall p {:trigger p in got.points} :: p in c.env.ring && p != me ==> p in got.points
    ensures !Signs(c, me, got.schnorr, Spend(me)) && (q, Spend(me)) !in got.schnorr
    ensures forall p {:trigger (p, Spend(me)) in got.schnorr} :: p in c.env.ring && p != me && p != q ==> (p, Spend(me)) in got.schnorr
    ensures forall p: Pid {:trigger (p, Spend(me)) in got.partials} :: (p, Spend(me)) !in got.partials
    ensures forall role {:trigger Finalized(c, me, got.partials, role)} ::
              RoleInRing(c.env, role) && role != Spend(me) ==> Finalized(c, me, got.partials, role)
  {
    hide HeldForClaim;
    OwnRoles(c, me);
    forall p: Pid, k: Kind {:trigger Has(got, p, k)}
      ensures Has(got, p, k) <==> Belongs(c, me, p, k) && Rank(k) < 5
                                  && !((p == q && k == KSchnorr(Spend(me))) || k == KPartial(Spend(me)))
    {
      HeldForClaimIs(c, me, q, p, k);
    }
    forall p {:trigger p in got.nonces} {:trigger p in got.points} | p in c.env.ring && p != me
      ensures p in got.nonces && p in got.points
    {
      assert Has(got, p, KNonce) && Has(got, p, KPoint);
    }
    assert !Has(got, q, KSchnorr(Spend(me)));
    forall p {:trigger (p, Spend(me)) in got.schnorr} | p in c.env.ring && p != me && p != q
      ensures (p, Spend(me)) in got.schnorr
    {
      assert Has(got, p, KSchnorr(Spend(me)));
    }
    forall p: Pid {:trigger (p, Spend(me)) in got.partials}
      ensures (p, Spend(me)) !in got.partials
    {
      assert !Has(got, p, KPartial(Spend(me)));
    }
    forall role {:trigger Finalized(c, me, got.partials, role)} | RoleInRing(c.env, role) && role != Spend(me)
      ensures Finalized(c, me, got.partials, role)
    {
      forall p {:trigger (p, role) in got.partials} | p in c.env.ring && p != me
        ensures (p, role) in got.partials
      {
        assert Has(got, p, KPartial(role));
      }
    }
  }

  lemma GapUnfunded(c: Conf, s: Session, sent: Sent, got: Handled, q: Pid)
    requires ValidConf(c) && PartyInv(c, s, sent, got) && UpTo(c, s.me, HeldForClaim(c, s.me, q), 5, got)
    requires q in c.env.ring && q != s.me
    ensures !Funded(c, s.me, got.partials) && s.state == RefundAndSpendTxsSigning && FundingCount(s.history) == 0
    ensures s.me !in s.locksConfirmed && s.locksConfirmed <= c.env.ring.Keys
  {
    hide IsRing, Fifo, Funded, PointsInv, ElectionInv, RevealInv, OpeningInv, MusigInv, NoncesInv, PartialsInv, RefundsInv,
         SpendsInv, LeaderInv, Opened, Finalized, FundingCount, HeldForClaim, UpTo;
    GapOpened(c, s.me, q, got);
    OwnRoles(c, s.me);
    NotAllYet(c, s.me, got.partials, q, Spend(s.me));
    TerminalIsFunded(s.state, s.history, Stage(sent.point, sent.commitment, sent.nonce, Opened(c, s.me, got.nonces)),
                     Funded(c, s.me, got.partials), sent.lock);
    NetworkSafety.CountZero(s.history);
    forall o | o in s.locksConfirmed
      ensures o in c.env.ring.Keys && o != s.me
    {
      assert o in s.locksBroadcast;
    }
  }

  lemma AllPointsIn(c: Conf, me: Pid, points: map<Pid, Point>, gotPoints: set<Pid>)
    requires ValidConf(c) && me in c.env.ring && PointsInv(c, me, points, gotPoints)
    requires forall p {:trigger p in gotPoints} :: p in c.env.ring && p != me ==> p in gotPoints
    ensures points == AllPoints(c)
  {
    hide IsRing;
    forall p {:trigger p in points}
      ensures p in points <==> p in c.env.ring
      ensures p in points ==> points[p] == c.tape(p).point
    {
      assert p in c.env.ring && p != me ==> p in gotPoints;
    }
  }

  lemma AllNoncesButOne(c: Conf, me: Pid, q: Pid, role: TxRole, nonces: map<(Pid, TxRole), PubNonce>,
        open: bool, got: set<(Pid, TxRole)>)
    requires NoncesInv(c, me, nonces, open, got) && open && RoleInRing(c.env, role) && q != me && (q, role) !in got
    requires forall p {:trigger (p, role) in got} :: p in c.env.ring && p != me && p != q ==> (p, role) in got
    ensures forall p {:trigger (p, role) in nonces} :: p in c.env.ring ==>
              ((p, role) in nonces <==> p != q) && (p != q ==> nonces[(p, role)] == PubNonce(c.plan.sec(p, role)))
  {
    forall p {:trigger (p, role) in nonces} | p in c.env.ring
      ensures ((p, role) in nonces <==> p != q) && (p != q ==> nonces[(p, role)] == PubNonce(c.plan.sec(p, role)))
    {
      assert p != me ==> ((p, role) in nonces <==> (p, role) in got);
      assert p == me ==> (p, role) in nonces;
    }
  }

  lemma GapRounds(c: Conf, s: Session, sent: Sent, got: Handled, q: Pid)
    requires ValidConf(c) && PartyInv(c, s, sent, got) && UpTo(c, s.me, HeldForClaim(c, s.me, q), 5, got)
    requires q in c.env.ring && q != s.me
    ensures s.points == AllPoints(c) && s.leader == Some(c.plan.leader) && s.me in s.lockTxs
    ensures
      var role := Spend(s.me);
      && role in s.musig && s.musig[role] == RoundOne(c.plan.msg(role), c.plan.tweak(role), c.plan.sec(s.me, role))
      && (forall p {:trigger (p, role) in s.nonces} :: p in c.env.ring ==>
            ((p, role) in s.nonces <==> p != q) && (p != q ==> s.nonces[(p, role)] == PubNonce(c.plan.sec(p, role))))
  {
    hide IsRing, Fifo, Funded, PointsInv, ElectionInv, RevealInv, NoncesInv, PartialsInv, RefundsInv, SpendsInv,
         PhaseInv, ClaimInv,
         LeaderInv, Opened, Finalized, HeldForClaim, UpTo, Signs;
    GapOpened(c, s.me, q, got);
    OwnRoles(c, s.me);
    var role := Spend(s.me);
    AllPointsIn(c, s.me, s.points, got.points);
    AllNoncesButOne(c, s.me, q, role, s.nonces, Opened(c, s.me, got.nonces), got.schnorr);
    assert role in s.musig.Keys && s.musig[role] == TheRuntime(c, s.me, role, false);
  }

  lemma GapPartials(c: Conf, s: Session, sent: Sent, got: Handled, q: Pid)
    requires ValidConf(c) && PartyInv(c, s, sent, got) && UpTo(c, s.me, HeldForClaim(c, s.me, q), 5, got)
    requires q in c.env.ring && q != s.me
    ensures forall p: Pid {:trigger (p, Spend(s.me)) in s.partials} :: (p, Spend(s.me)) !in s.partials
    ensures forall p: Pid, id {:trigger (p, Refund(id)) in s.partials} :: p in c.env.ring && id in c.env.ring && p != s.me ==>
              (p, Refund(id)) in s.partials
  {
    hide IsRing, Fifo, Funded, PointsInv, ElectionInv, RevealInv, OpeningInv, MusigInv, NoncesInv, RefundsInv, SpendsInv,
         PhaseInv, ClaimInv, LeaderInv, Opened, HeldForClaim, UpTo, Signs, ThePartial;
    GapOpened(c, s.me, q, got);
    forall p: Pid, id {:trigger (p, Refund(id)) in s.partials} | p in c.env.ring && id in c.env.ring && p != s.me
      ensures (p, Refund(id)) in s.partials
    {
      assert RoleInRing(c.env, Refund(id));
      assert Finalized(c, s.me, got.partials, Refund(id));
      assert (p, Refund(id)) in got.partials;
    }
  }

  lemma GapSigned(c: Conf, s: Session, sent: Sent, got: Handled, q: Pid)
    requires ValidConf(c) && InputsFit(c) && PartyInv(c, s, sent, got) && UpTo(c, s.me, HeldForClaim(c, s.me, q), 5, got)
    requires q in c.env.ring && q != s.me
    ensures Spend(s.me) !in s.adaptorSigs && Refund(s.me) in s.signedTxs
    ensures forall id {:trigger Spend(id)} :: id in c.env.ring && id != s.me ==>
              C.SignedOver(s, Spend(id), c.env.sumPoints(AllPoints(c)))
  {
    hide IsRing, Fifo, Funded, PointsInv, ElectionInv, RevealInv, OpeningInv, MusigInv, NoncesInv, PartialsInv, PhaseInv,
         ClaimInv, LeaderInv, Opened, HeldForClaim, UpTo, Signs;
    GapOpened(c, s.me, q, got);
    assert (q, Spend(s.me)) !in got.partials;
    assert !Finalized(c, s.me, got.partials, Spend(s.me));
    assert RoleInRing(c.env, Refund(s.me));
    forall id {:trigger Spend(id)} | id in c.env.ring && id != s.me
      ensures C.SignedOver(s, Spend(id), c.env.sumPoints(AllPoints(c)))
    {
      assert RoleInRing(c.env, Spend(id));
      assert Finalized(c, s.me, got.partials, Spend(id));
      assert c.plan.inputs(Spend(id)).adaptor == Some(c.env.sumPoints(AllPoints(c)));
    }
  }

  lemma GapReached(c: Conf, me: Pid, q: Pid) returns (a: Stand)
    requires ValidConf(c) && PlanFits(c) && me in c.env.ring && q in c.env.ring && q != me
    ensures AtTheGap(c, a.s, q) && a.s.me == me && LockSubmissions(a.submitted) == 0 && InOrder(c, me, a)
    ensures PerformAll(c.env, Begin(c, me), a.calls) == Ok(a.s, a.out, a.submitted)
  {
    hide IsRing, PlanFits, InputsFit, PartyInv, HeldForClaim, UpTo, PerformAll, Begin, Once, FundingCount,
         LockSubmissions, ClosedAbove,
         C.SignedOver;
    HeldForClaimIsClosed(c, me, q);
    a := FeedRanks(c, me, HeldForClaim(c, me, q), 5);
    PlanGivesInputs(c);
    GapUnfunded(c, a.s, a.sent, a.got, q);
    GapRounds(c, a.s, a.sent, a.got, q);
    GapPartials(c, a.s, a.sent, a.got, q);
    GapSigned(c, a.s, a.sent, a.got, q);
  }

  // ---------- from the second point on ----------

  function TheNonce(c: Conf, me: Pid, q: Pid): WireMessage { SchnorrNonce(Spend(me), PubNonce(c.plan.sec(q, Spend(me)))) }

  /** What everybody signs for the role once the second point is in. */
  function SignedBy(c: Conf, me: Pid, o: Pid, inputs: SigningInputs): WireMessage {
    PartialSignature(Spend(me), PartialSig(o, c.plan.sec(o, Spend(me)), inputs))
  }

  /** The partial signatures for the own spend are those of the own party and of these, and refunds have all. */
  ghost predicate PartialsFrom(c: Conf, s: Session, partials: map<(Pid, TxRole), PartialSig>, inputs: SigningInputs, from: set<Pid>) {
    && (forall p: Pid {:trigger (p, Spend(s.me)) in partials} ::
          && ((p, Spend(s.me)) in partials <==> p in from)
          && ((p, Spend(s.me)) in partials ==> partials[(p, Spend(s.me))] == PartialSig(p, c.plan.sec(p, Spend(s.me)), inputs)))
    && (forall p: Pid, id {:trigger (p, Refund(id)) in partials} :: p in c.env.ring && id in c.env.ring && p != s.me ==>
          (p, Refund(id)) in partials)
  }

  /** The session after the second point and the late nonce, with the partial signatures of some. */
  ghost predicate Signing(c: Conf, s: Session, t: Session, inputs: SigningInputs, done: set<Pid>) {
    var role := Spend(s.me);
    && t.me == s.me && t.state == s.state && t.history == s.history && t.leader == s.leader && t.adaptorSigs == s.adaptorSigs
    && t.signedTxs == s.signedTxs && t.lockTxs == s.lockTxs && t.locksConfirmed == s.locksConfirmed
    && role in t.musig && t.musig[role].RoundTwo? && GatheredInputs(c.env, t, role) == inputs
    && (forall p {:trigger (p, role) in t.nonces} :: p in c.env.ring ==>
          (p, role) in t.nonces && t.nonces[(p, role)] == PubNonce(c.plan.sec(p, role)))
    && PartialsFrom(c, s, t.partials, inputs, done + {s.me})
  }

  lemma SecondPoint(c: Conf, s: Session, q: Pid, point: Point, draw: Draw)
    requires ValidConf(c) && AtTheGap(c, s, q)
    ensures HandleMessage(c.env, s, AdaptorPoint(point), q, draw, true) == Ok(s.(points := s.points[q := point]), [], [])
  {
    hide IsRing, HasAll, C.SignedOver, FundingCount;
  }

  /** The inputs depend on the nonces, the points and what the runtime says of message and tweak. */
  lemma InputsOf(env: Env, s: Session, t: Session, role: TxRole)
    requires role in s.musig && role in t.musig && t.nonces == s.nonces && t.points == s.points
    requires t.musig[role].msg == s.musig[role].msg && t.musig[role].taprootTweak == s.musig[role].taprootTweak
    ensures GatheredInputs(env, t, role) == GatheredInputs(env, s, role)
  {
  }

  lemma RoundTwoIs(env: Env, s: Session, role: TxRole, sig: PartialSig, t: Session)
    requires role in s.musig && s.musig[role].RoundOne? && sig == PartialSig(s.me, s.musig[role].sec, GatheredInputs(env, s, role))
    requires t == s.(partials := s.partials[(s.me, role) := sig],
                     musig := s.musig[role := RoundTwo(s.musig[role].msg, s.musig[role].taprootTweak)])
    ensures EnterRoundTwo(env, s, role) == Ok(t, [PartialSignature(role, sig)], [])
    ensures GatheredInputs(env, t, role) == GatheredInputs(env, s, role)
  {
    InputsOf(env, s, t, role);
    hide GatheredInputs;
  }

  lemma NonceTurns(env: Env, s1: Session, role: TxRole, pub: PubNonce, q: Pid, draw: Draw, s2: Session)
    requires IsRing(env.ring) && !s1.state.Terminal() && s2 == s1.(nonces := s1.nonces[(q, role) := pub])
    requires AllOthersHave(env.ring, s1.me, s2.nonces, role)
    ensures HandleMessage(env, s1, SchnorrNonce(role, pub), q, draw, true) == EnterRoundTwo(env, s2, role)
  {
    hide IsRing, EnterRoundTwo, AllOthersHave;
  }

  lemma LateNonce(c: Conf, s: Session, q: Pid, point: Point, s1: Session, draw: Draw)
    returns (t: Session, inputs: SigningInputs, out: seq<WireMessage>)
    requires ValidConf(c) && AtTheGap(c, s, q) && s1 == s.(points := s.points[q := point])
    ensures HandleMessage(c.env, s1, TheNonce(c, s.me, q), q, draw, true) == Ok(t, out, [])
    ensures Signing(c, s, t, inputs, {}) && inputs.adaptor == Some(c.env.sumPoints(AllPoints(c)[q := point]))
  {
    hide IsRing, C.SignedOver, FundingCount, HandleMessage, AllOthersHave;
    var role := Spend(s.me);
    var s2 := s1.(nonces := s1.nonces[(q, role) := PubNonce(c.plan.sec(q, role))]);
    NonceCompletes(c, s, q, s2);
    NonceTurns(c.env, s1, role, PubNonce(c.plan.sec(q, role)), q, draw, s2);
    inputs := GatheredInputs(c.env, s2, role);
    t := TurnsToSigning(c, s, q, s2, inputs);
    out := [PartialSignature(role, PartialSig(s.me, c.plan.sec(s.me, role), inputs))];
  }

  lemma TurnsToSigning(c: Conf, s: Session, q: Pid, s2: Session, inputs: SigningInputs) returns (t: Session)
    requires ValidConf(c) && AtTheGap(c, s, q)
    requires s2 == s.(points := s2.points, nonces := s.nonces[(q, Spend(s.me)) := PubNonce(c.plan.sec(q, Spend(s.me)))])
    requires inputs == GatheredInputs(c.env, s2, Spend(s.me))
    ensures EnterRoundTwo(c.env, s2, Spend(s.me))
         == Ok(t, [PartialSignature(Spend(s.me), PartialSig(s.me, c.plan.sec(s.me, Spend(s.me)), inputs))], [])
    ensures Signing(c, s, t, inputs, {})
  {
    hide IsRing, C.SignedOver, FundingCount, GatheredInputs, Signing, EnterRoundTwo;
    var role := Spend(s.me);
    var sig := PartialSig(s.me, c.plan.sec(s.me, role), inputs);
    t := s2.(partials := s2.partials[(s.me, role) := sig], musig := s2.musig[role := RoundTwo(c.plan.msg(role), c.plan.tweak(role))]);
    RoundTwoIs(c.env, s2, role, sig, t);
    NowSigning(c, s, q, s2, t, sig);
  }

  lemma NonceCompletes(c: Conf, s: Session, q: Pid, s2: Session)
    requires ValidConf(c) && AtTheGap(c, s, q)
    requires s2.me == s.me && s2.nonces == s.nonces[(q, Spend(s.me)) := PubNonce(c.plan.sec(q, Spend(s.me)))]
    ensures AllOthersHave(c.env.ring, s.me, s2.nonces, Spend(s.me))
    ensures forall p {:trigger (p, Spend(s.me)) in s2.nonces} :: p in c.env.ring ==>
              (p, Spend(s.me)) in s2.nonces && s2.nonces[(p, Spend(s.me))] == PubNonce(c.plan.sec(p, Spend(s.me)))
  {
    hide IsRing, C.SignedOver, FundingCount;
  }

  lemma NowSigning(c: Conf, s: Session, q: Pid, s2: Session, t: Session, sig: PartialSig)
    requires ValidConf(c) && AtTheGap(c, s, q)
    requires s2 == s.(points := s2.points, nonces := s.nonces[(q, Spend(s.me)) := PubNonce(c.plan.sec(q, Spend(s.me)))])
    requires sig == PartialSig(s.me, c.plan.sec(s.me, Spend(s.me)), sig.inputs)
    requires t == s2.(partials := s2.partials[(s.me, Spend(s.me)) := sig], musig := t.musig)
    requires Spend(s.me) in t.musig && t.musig[Spend(s.me)].RoundTwo? && GatheredInputs(c.env, t, Spend(s.me)) == sig.inputs
    ensures Signing(c, s, t, sig.inputs, {})
  {
    hide IsRing, C.SignedOver, FundingCount, GatheredInputs;
    NonceCompletes(c, s, q, s2);
    StoredFor(c, s, s.partials, t.partials, {}, s.me, sig);
  }

  lemma StoredFor(c: Conf, s: Session, partials: map<(Pid, TxRole), PartialSig>, partials': map<(Pid, TxRole), PartialSig>,
        from: set<Pid>, o: Pid, sig: PartialSig)
    requires PartialsFrom(c, s, partials, sig.inputs, from) && sig == PartialSig(o, c.plan.sec(o, Spend(s.me)), sig.inputs)
    requires partials' == partials[(o, Spend(s.me)) := sig]
    ensures PartialsFrom(c, s, partials', sig.inputs, from + {o})
  {
  }

  lemma Stored(c: Conf, s: Session, t: Session, inputs: SigningInputs, done: set<Pid>, o: Pid, t1: Session)
    requires Signing(c, s, t, inputs, done) && o != s.me
    requires t1 == t.(partials := t.partials[(o, Spend(s.me)) := PartialSig(o, c.plan.sec(o, Spend(s.me)), inputs)])
    ensures Signing(c, s, t1, inputs, done + {o})
  {
    InputsOf(c.env, t, t1, Spend(s.me));
    hide GatheredInputs, PartialsFrom;
    StoredFor(c, s, t.partials, t1.partials, done + {s.me}, o, PartialSig(o, c.plan.sec(o, Spend(s.me)), inputs));
    assert done + {s.me} + {o} == done + {o} + {s.me};
  }

  lemma OneMore(c: Conf, s: Session, t: Session, inputs: SigningInputs, done: set<Pid>, o: Pid, draw: Draw)
    returns (t1: Session)
    requires ValidConf(c) && s.me in c.env.ring && s.state == RefundAndSpendTxsSigning && Spend(s.me) !in s.adaptorSigs
    requires o in c.env.ring && o != s.me && !(c.env.ring.Keys - {s.me} <= done + {o})
    requires Signing(c, s, t, inputs, done)
    ensures HandleMessage(c.env, t, SignedBy(c, s.me, o, inputs), o, draw, true) == Ok(t1, [], [])
    ensures Signing(c, s, t1, inputs, done + {o})
  {
    hide IsRing;
    var role := Spend(s.me);
    t1 := t.(partials := t.partials[(o, role) := PartialSig(o, c.plan.sec(o, role), inputs)]);
    Stored(c, s, t, inputs, done, o, t1);
    hide GatheredInputs, FinalizeRole;
    var missing :| missing in c.env.ring.Keys - {s.me} && missing !in done + {o};
    assert (missing, role) !in t1.partials;
    assert !AllOthersHave(c.env.ring, s.me, t1.partials, role);
    assert !AllSigned(c.env.ring, t1) by { assert Spend(s.me) !in t1.adaptorSigs; }
  }

  /** All have signed over the new point, and everything is signed. */
  lemma AllThere(c: Conf, s: Session, t1: Session, inputs: SigningInputs, done: set<Pid>)
    requires ValidConf(c) && s.me in c.env.ring && c.env.ring.Keys - {s.me} <= done <= c.env.ring.Keys
    requires Signing(c, s, t1, inputs, done)
    ensures AllOthersHave(c.env.ring, s.me, t1.partials, Spend(s.me))
    ensures FinalizeRole(c.env, t1, Spend(s.me)) == Ok(t1.(adaptorSigs := t1.adaptorSigs[Spend(s.me) := inputs]), [], [])
  {
    hide IsRing, GatheredInputs;
    var role := Spend(s.me);
    forall p {:trigger (p, role) in t1.partials} | p in c.env.ring
      ensures (p, role) in t1.partials && t1.partials[(p, role)] == PartialSig(p, c.plan.sec(p, role), inputs)
      ensures (p, role) in t1.nonces && t1.nonces[(p, role)] == PubNonce(c.plan.sec(p, role))
    {
      assert p in c.env.ring.Keys;
    }
    var stored := ForRole(t1.partials, role);
    assert stored.Keys == c.env.ring.Keys by {
      forall p
        ensures p in stored <==> p in c.env.ring
      {
        assert (p, role) in t1.partials <==> p == s.me || p in done;
      }
    }
    assert AddsUp(c.env, t1, role, inputs);
  }

  lemma LastOne(c: Conf, s: Session, q: Pid, t: Session, inputs: SigningInputs, done: set<Pid>, o: Pid, draw: Draw)
    returns (r: Outcome)
    requires ValidConf(c) && AtTheGap(c, s, q) && o in c.env.ring && o != s.me
    requires c.env.ring.Keys - {s.me} <= done + {o} && done <= c.env.ring.Keys
    requires Signing(c, s, t, inputs, done)
    ensures r == HandleMessage(c.env, t, SignedBy(c, s.me, o, inputs), o, draw, true) && FundsCrossed(s, inputs, r)
  {
    hide IsRing, FundingCount, FinalizeRole, GatheredInputs, C.SignedOver;
    var role := Spend(s.me);
    var t1 := t.(partials := t.partials[(o, role) := PartialSig(o, c.plan.sec(o, role), inputs)]);
    Stored(c, s, t, inputs, done, o, t1);
    AllThere(c, s, t1, inputs, done + {o});
    var t2 := t1.(adaptorSigs := t1.adaptorSigs[role := inputs]);
    GapAllSigned(c, s, q, t1, inputs, done + {o}, t2);
    r := HandleMessage(c.env, t, SignedBy(c, s.me, o, inputs), o, draw, true);
    assert r == Fund(c.env, t2, true);
    FundOutcome(c.env, t2, true);
    AfterFundIs(t2);
    LockSubmitted();
  }

  ghost predicate FundsCrossed(s: Session, inputs: SigningInputs, r: Outcome) {
    && r.Ok? && LockSubmissions(r.submitted) == 1 && r.session.me == s.me && r.session.state == AwaitingLockConfirmations
    && Funding in r.session.history && r.session.leader == s.leader && r.session.signedTxs == s.signedTxs
    && r.session.locksConfirmed == s.locksConfirmed && r.session.adaptorSigs == s.adaptorSigs[Spend(s.me) := inputs]
  }

  lemma GapAllSigned(c: Conf, s: Session, q: Pid, t1: Session, inputs: SigningInputs, done: set<Pid>, t2: Session)
    requires ValidConf(c) && AtTheGap(c, s, q) && Signing(c, s, t1, inputs, done)
    requires t2 == t1.(adaptorSigs := t1.adaptorSigs[Spend(s.me) := inputs])
    ensures AllSigned(c.env.ring, t2)
  {
    hide IsRing, FundingCount, GatheredInputs;
    forall id {:trigger Refund(id)} | id in c.env.ring
      ensures AllOthersHave(c.env.ring, t2.me, t2.partials, Refund(id))
    {
      assert forall p {:trigger (p, Refund(id)) in t2.partials} :: p in c.env.ring && p != s.me ==> (p, Refund(id)) in t2.partials;
    }
    forall id {:trigger Spend(id)} | id in c.env.ring
      ensures Spend(id) in t2.adaptorSigs
    {
      assert id != s.me ==> C.SignedOver(s, Spend(id), c.env.sumPoints(AllPoints(c)));
    }
  }

  // ---------- the whole sequence ----------

  /** The peers' partial signatures for the own spend over the given inputs. */
  ghost predicate PeersSign(c: Conf, me: Pid, inputs: SigningInputs, calls: seq<Call>) {
    && me in c.env.ring
    && forall i {:trigger calls[i]} :: 0 <= i < |calls| ==>
      && calls[i].Message? && calls[i].from in c.env.ring && calls[i].from != me
      && calls[i] == Message(SignedBy(c, me, calls[i].from, inputs), calls[i].from, c.tape(me).draw, true)
  }

  lemma OneMoreCall(c: Conf, s: Session, q: Pid, inputs: SigningInputs, done: set<Pid>, calls: seq<Call>,
        o: Outcome, o1: Pid, call: Call)
    returns (o': Outcome)
    requires ValidConf(c) && s.me in c.env.ring && AtTheGap(c, s, q) && o1 in c.env.ring.Keys - {s.me}
    requires !(c.env.ring.Keys - {s.me} <= done + {o1})
    requires o == PerformAll(c.env, Begin(c, s.me), calls) && o.Ok? && Signing(c, s, o.session, inputs, done)
    requires LockSubmissions(o.submitted) == 0
    requires call == Message(SignedBy(c, s.me, o1, inputs), o1, c.tape(s.me).draw, true)
    ensures o' == PerformAll(c.env, Begin(c, s.me), calls + [call]) && o'.Ok? && Signing(c, s, o'.session, inputs, done + {o1})
    ensures LockSubmissions(o'.submitted) == 0
  {
    hide IsRing, FundingCount, GatheredInputs, C.SignedOver, Signing, HandleMessage, PerformAll, LockSubmissions,
         Begin, HasAll;
    var t1 := OneMore(c, s, o.session, inputs, done, o1, c.tape(s.me).draw);
    PerformMore(c.env, Begin(c, s.me), calls, call, o, Ok(t1, [], []));
    NothingMore(o.submitted);
    o' := Ok(t1, o.out + [], o.submitted + []);
  }

  /** The rest of the peers sign, in some order, and with the last one the session funds. */
  lemma {:induction false} AllSign(c: Conf, s: Session, q: Pid, inputs: SigningInputs, done: set<Pid>,
        calls: seq<Call>, o: Outcome)
    returns (more: seq<Call>, o': Outcome)
    requires ValidConf(c) && s.me in c.env.ring && AtTheGap(c, s, q) && done < c.env.ring.Keys - {s.me}
    requires o == PerformAll(c.env, Begin(c, s.me), calls) && o.Ok? && Signing(c, s, o.session, inputs, done)
    requires LockSubmissions(o.submitted) == 0
    ensures PeersSign(c, s.me, inputs, more)
    ensures o' == PerformAll(c.env, Begin(c, s.me), calls + more) && FundsCrossed(s, inputs, o')
    decreases |c.env.ring.Keys - {s.me} - done|
  {
    hide IsRing, AtTheGap, FundingCount, GatheredInputs, C.SignedOver, Signing, HandleMessage, PerformAll,
         LockSubmissions, Begin, HasAll;
    var o1 :| o1 in c.env.ring.Keys - {s.me} && o1 !in done;
    var draw := c.tape(s.me).draw;
    var call := Message(SignedBy(c, s.me, o1, inputs), o1, draw, true);
    if c.env.ring.Keys - {s.me} <= done + {o1} {
      var r := LastOne(c, s, q, o.session, inputs, done, o1, draw);
      PerformMore(c.env, Begin(c, s.me), calls, call, o, r);
      SubmissionsAdd(o.submitted, r.submitted);
      more, o' := [call], Ok(r.session, o.out + r.out, o.submitted + r.submitted);
    } else {
      var o2 := OneMoreCall(c, s, q, inputs, done, calls, o, o1, call);
      FewerLeft(c.env.ring.Keys - {s.me}, done, o1);
      more, o' := AllSign(c, s, q, inputs, done + {o1}, calls + [call], o2);
      assert calls + [call] + more == calls + ([call] + more);
      more := [call] + more;
    }
  }

  lemma NothingMore(a: seq<Submission>)
    ensures a + [] == a
  {
  }

  lemma FewerLeft(all: set<Pid>, done: set<Pid>, o: Pid)
    requires o in all && o !in done
    ensures |all - (done + {o})| < |all - done|
  {
    assert all - (done + {o}) == (all - done) - {o};
  }

  /** The second point, then the public nonce held back. */
  function PointThenNonce(c: Conf, me: Pid, q: Pid, point: Point): seq<Call> {
    [Message(AdaptorPoint(point), q, c.tape(me).draw, true), Message(TheNonce(c, me, q), q, c.tape(me).draw, true)]
  }

  /** What a session comes to that has handled a second point between two of its roles. */
  ghost predicate Crossed(c: Conf, me: Pid, q: Pid, point: Point, o: Outcome)
  {
    && o.Ok? && LockSubmissions(o.submitted) == 1 && o.session.me == me && o.session.state == AwaitingLockConfirmations
    && Funding in o.session.history && o.session.leader == Some(c.plan.leader) && Refund(me) in o.session.signedTxs
    && me !in o.session.locksConfirmed && o.session.locksConfirmed <= c.env.ring.Keys
    && C.SignedOver(o.session, Spend(me), c.env.sumPoints(AllPoints(c)[q := point]))
    && forall id {:trigger Spend(id)} :: id in c.env.ring && id != me ==>
         C.SignedOver(o.session, Spend(id), c.env.sumPoints(AllPoints(c)))
  }

  /** For every ring, every party and every peer: let the setup go on as it should, but let the peer keep its
      public nonce for the party's spend until everything else is signed, and send another adaptor point before
      it. All sign over the points as they now are, and the party funds: with its own spend pre-signed over
      the new sum of points, and everybody else's over the old one. */
  lemma PointChangesBetween(c: Conf, me: Pid, q: Pid, point: Point)
    returns (before: Stand, inputs: SigningInputs, after: seq<Call>, o: Outcome)
    requires ValidConf(c) && PlanFits(c) && me in c.env.ring && q in c.env.ring && q != me
    ensures InOrder(c, me, before) && PeersSign(c, me, inputs, after)
    ensures inputs.adaptor == Some(c.env.sumPoints(AllPoints(c)[q := point]))
    ensures o == PerformAll(c.env, Begin(c, me), before.calls + PointThenNonce(c, me, q, point) + after) && Crossed(c, me, q, point, o)
  {
    hide IsRing, PlanFits, InOrder, AtTheGap, PerformAll, Begin, Once, FundingCount, LockSubmissions, HandleMessage, Signing,
         C.SignedOver, FundsCrossed, HasAll;
    before := GapReached(c, me, q);
    var draw := c.tape(me).draw;
    var s1 := before.s.(points := before.s.points[q := point]);
    SecondPoint(c, before.s, q, point, draw);
    PerformMore(c.env, Begin(c, me), before.calls, PointThenNonce(c, me, q, point)[0],
                Ok(before.s, before.out, before.submitted), Ok(s1, [], []));
    NothingMore(before.submitted);
    var t, in1, out := LateNonce(c, before.s, q, point, s1, draw);
    inputs := in1;
    PerformMore(c.env, Begin(c, me), before.calls + [PointThenNonce(c, me, q, point)[0]], PointThenNonce(c, me, q, point)[1],
                Ok(s1, before.out + [], before.submitted + []), Ok(t, out, []));
    NothingMore(before.submitted + []);
    assert before.calls + [PointThenNonce(c, me, q, point)[0]] + [PointThenNonce(c, me, q, point)[1]]
        == before.calls + PointThenNonce(c, me, q, point);
    assert q in c.env.ring.Keys - {me};
    var none: set<Pid> := {};
    after, o := AllSign(c, before.s, q, inputs, none, before.calls + PointThenNonce(c, me, q, point),
                        Ok(t, before.out + [] + out, before.submitted + [] + []));
    CrossedOver(c, before.s, q, point, inputs, o);
  }

  lemma CrossedOver(c: Conf, s: Session, q: Pid, point: Point, inputs: SigningInputs, o: Outcome)
    requires ValidConf(c) && AtTheGap(c, s, q) && FundsCrossed(s, inputs, o)
    requires inputs.adaptor == Some(c.env.sumPoints(AllPoints(c)[q := point]))
    ensures Crossed(c, s.me, q, point, o)
  {
    hide IsRing, FundingCount, LockSubmissions, HasAll;
    forall id {:trigger Spend(id)} | id in c.env.ring && id != s.me
      ensures C.SignedOver(o.session, Spend(id), c.env.sumPoints(AllPoints(c)))
    {
      assert C.SignedOver(s, Spend(id), c.env.sumPoints(AllPoints(c)));
    }
  }

  /** A non-leader that has been led there loses: with windows further apart than the daemon's margin it can be
      in time and not hurt, and its own lock is claimed while its target's goes back. */
  lemma CrossedSessionLoses(c: Conf, me: Pid, q: Pid, point: Point, secret: Secret)
    returns (calls: seq<Call>, x: C.Setting, s: Session, w: C.World, w': C.World)
    requires ValidConf(c) && PlanFits(c) && me in c.env.ring && q in c.env.ring && q != me && me != c.plan.leader
    requires c.env.sumPoints(AllPoints(c)[q := point]) != c.env.sumPoints(AllPoints(c))
    requires BtcFits(c.env.ring, c.env.anchors) && CardanoFits(c.env.ring, c.env.anchors, c.env.systemStart)
    requires OpensEarlier(c.env.ring, c.plan.leader, c.env.anchors, me)
    ensures PerformAll(c.env, Begin(c, me), calls).Ok? && PerformAll(c.env, Begin(c, me), calls).session == s
    ensures x == C.Setting(c.env, c.plan.leader, {me}, c.env.sumPoints(AllPoints(c)), secret)
    ensures Losses.Alone(x, me, s) && Losses.GoesWrong(x, me, s, w, w')
  {
    hide IsRing, PlanFits, InOrder, PerformAll, LockSubmissions, C.SignedOver, C.Prepared, BtcFits, CardanoFits,
         OpensEarlier,
         Losses.GoesWrong, Losses.Times, HasAll;
    var before, inputs, after, o := PointChangesBetween(c, me, q, point);
    calls := before.calls + PointThenNonce(c, me, q, point) + after;
    x, s := C.Setting(c.env, c.plan.leader, {me}, c.env.sumPoints(AllPoints(c)), secret), o.session;
    AnySetup.SetupYields(x, me, c.tape(me).secret, c.tape(me).point, calls, o);
    assert C.SignedOver(s, Spend(x.leader), x.point);
    OneSum(s, Spend(me), c.env.sumPoints(AllPoints(c)[q := point]), x.point);
    LossWitness.TargetInRing(x, me);
    var tip1, tip2 := LossWitness.SuchTimes(x, me);
    w, w' := Losses.CrossedLoses(x, me, s, tip1, tip1, tip2);
  }

  lemma OneSum(s: Session, role: TxRole, a: Point, b: Point)
    requires C.SignedOver(s, role, a) && a != b
    ensures !C.SignedOver(s, role, b)
  {
  }
}
