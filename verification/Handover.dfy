/** Where the setup of honest parties meets the chain: an honest party that has handled the whole setup has
    everything the chain phase asks of one that joins, its claim over the sum of all points included. */
module Handover {
  import opened Ring
  import opened Protocol
  import opened Contents
  import opened PartyInvariant
  import opened PartySteps
  import opened FundingSteps
  import opened ClaimSteps
  import opened FundedSessions
  import C = Chain

  // ---------- one party ----------

  lemma FundedHasElection(c: Conf, s: Session, sent: Sent, got: Handled)
    requires ValidConf(c) && PartyInv(c, s, sent, got) && Funded(c, s.me, got.partials)
    ensures HasAll(c.env.ring, s.leaderCommitments) && s.me in s.leaderNonces && Opened(c, s.me, got.nonces)
  {
    hide IsRing, Funded, PointsInv, OpeningInv, MusigInv, NoncesInv, PartialsInv, RefundsInv, SpendsInv, PhaseInv,
         ClaimInv, LeaderInv, Opened;
    FundedIsOpened(c, s.me, got);
    NoCommitmentYet(c, s.me, sent, got);
    forall q {:trigger q in s.leaderCommitments} | q in c.env.ring
      ensures q in s.leaderCommitments
    {
      if q != s.me {
        FundedHasSetup(c, s.me, got, q, KCommitment);
      }
    }
  }

  lemma FundedHasRounds(c: Conf, s: Session, sent: Sent, got: Handled)
    requires ValidConf(c) && PartyInv(c, s, sent, got) && Opened(c, s.me, got.nonces)
    ensures s.musig != map[] && Spend(s.me) in s.unsignedTxs && c.env.ring.Keys <= s.lockTxs.Keys && s.leader == Some(c.plan.leader)
  {
    hide IsRing, Fifo, Funded, PointsInv, ElectionInv, RevealInv, MusigInv, NoncesInv, PartialsInv, RefundsInv, SpendsInv,
         PhaseInv, ClaimInv, LeaderInv, Opened;
    assert RoleInRing(c.env, Spend(s.me));
    assert Spend(s.me) in s.musig.Keys;
  }

  lemma OpenedIsRight(c: Conf, s: Session, sent: Sent, got: Handled)
    requires ValidConf(c) && PlanFits(c) && PartyInv(c, s, sent, got) && Opened(c, s.me, got.nonces)
    ensures OwnRight(c.env, c.plan.leader, s.me, s.lockTxs, s.unsignedTxs, s.signedTxs)
  {
    hide IsRing, Fifo, Funded, PointsInv, ElectionInv, RevealInv, MusigInv, NoncesInv, PartialsInv, SpendsInv, Finalized,
         PhaseInv, ClaimInv, LeaderInv, Opened, PlanFits, LockRight, RefundRight, SpendRight;
    PlanIsRight(c, Refund(s.me));
    PlanIsRight(c, Spend(s.me));
    assert RoleInRing(c.env, Spend(s.me)) && RoleInRing(c.env, Refund(s.me));
    assert Spend(s.me) in s.unsignedTxs && Refund(s.me) in s.unsignedTxs;
  }

  lemma FundedIsPrepared(c: Conf, x: C.Setting, s: Session, sent: Sent, got: Handled)
    requires ValidConf(c) && PartyInv(c, s, sent, got) && Funded(c, s.me, got.partials) && s.me in s.secrets
    requires x.env == c.env && x.leader == c.plan.leader && PlanFits(c)
    ensures C.Prepared(x, s.me, s)
  {
    hide IsRing, PartyInv, Funded, AllSigned, PlanFits, OwnRight;
    FundedHasElection(c, s, sent, got);
    FundedHasRounds(c, s, sent, got);
    OpenedIsRight(c, s, sent, got);
    OwnSpendIsReady(c, s, sent, got);
    FundedSigned(c, s, sent, got);
    MeInRing(c, s, sent, got);
  }

  lemma FundedSigned(c: Conf, s: Session, sent: Sent, got: Handled)
    requires ValidConf(c) && PartyInv(c, s, sent, got) && Funded(c, s.me, got.partials)
    ensures AllSigned(c.env.ring, s)
  {
    hide IsRing, Fifo, Funded, PointsInv, ElectionInv, RevealInv, OpeningInv, MusigInv, NoncesInv, PartialsInv,
         RefundsInv, SpendsInv, PhaseInv, ClaimInv, LeaderInv, AllSigned;
    AllSignedIsFunded(c, s, sent.partials, got.schnorr, got.partials);
  }

  /** Both pre-signatures are over the sum of all points. */
  lemma FundedIsEquipped(c: Conf, x: C.Setting, s: Session, sent: Sent, got: Handled)
    requires ValidConf(c) && PartyInv(c, s, sent, got) && Funded(c, s.me, got.partials) && s.me in s.secrets
    requires x.env == c.env && x.leader == c.plan.leader && x.point == c.env.sumPoints(AllPoints(c)) && PlanFits(c)
    ensures C.Equipped(x, s.me, s)
  {
    assert InputsFit(c);
    hide IsRing, PartyInv, Funded, C.Prepared, InputsFit, C.SignedOver, PlanFits;
    FundedIsPrepared(c, x, s, sent, got);
    MeInRing(c, s, sent, got);
    FundedOver(c, s, sent, got, s.me, x.point);
    FundedOver(c, s, sent, got, x.leader, x.point);
  }

  lemma FundedOver(c: Conf, s: Session, sent: Sent, got: Handled, id: Pid, point: Point)
    requires ValidConf(c) && PartyInv(c, s, sent, got) && Funded(c, s.me, got.partials) && id in c.env.ring
    requires point == c.env.sumPoints(AllPoints(c)) && InputsFit(c)
    ensures C.SignedOver(s, Spend(id), point)
  {
    hide IsRing, Fifo, Finalized, PointsInv, ElectionInv, RevealInv, OpeningInv, MusigInv, NoncesInv, PartialsInv,
         RefundsInv, PhaseInv, ClaimInv, LeaderInv;
    assert RoleInRing(c.env, Spend(id));
    assert Finalized(c, s.me, got.partials, Spend(id));
    assert c.plan.inputs(Spend(id)).adaptor == Some(point);
  }
}
