/** One party against honest peers: whatever message comes next, the handler does not panic, keeps the
    party invariant and broadcasts only what may follow. */
module Handling {
  import opened Ring
  import opened Protocol
  import opened PartyInvariant
  import opened PartySteps
  import opened SigningSteps
  import opened FundingSteps
  import opened ClaimSteps

  /** Two things the order of one link does not give: commitments come when the own point is out, and
      secrets when the own lock is. */
  predicate Timely(sent: Sent, k: Kind) {
    && (k.KCommitment? ==> sent.point)
    && (k.KSecret? ==> sent.lock)
  }

  lemma TerminalOnlyAfterFunding(c: Conf, s: Session, sent: Sent, got: Handled, from: Pid, k: Kind)
    requires Delivers(c, s, sent, got, from, k) && Rank(k) <= 4
    ensures !s.state.Terminal()
  {
    hide PointsInv, RevealInv, OpeningInv, MusigInv, NoncesInv, PartialsInv, RefundsInv, SpendsInv, PhaseInv,
         ElectionInv, LeaderInv, ClaimInv, Opened, Signs, Funded, Fifo, IsRing, PartyInv;
    NotFundedBefore(c, s, sent, got, from, k);
  }

  lemma StepMessage(c: Conf, s: Session, sent: Sent, got: Handled, from: Pid, k: Kind, accepted: bool)
    requires Delivers(c, s, sent, got, from, k) && PlanFits(c) && Timely(sent, k)
    ensures GoodStep(c, s, sent, With(got, from, k),
                     HandleMessage(c.env, s, TheMessage(c, from, k), from, c.tape(s.me).draw, accepted))
  {
    hide GoodStep, PartyInv, Fifo, IsRing, PlanFits, InputsFit, OnAdaptorPoint, OnCommitment, OnLeaderNonce,
         OnSchnorrNonce, OnPartialSignature, OnSecretReveal, With, Has, ThePartial;
    if Rank(k) <= 4 {
      TerminalOnlyAfterFunding(c, s, sent, got, from, k);
    }
    match k {
      case KPoint => StepPoint(c, s, sent, got, from);
      case KCommitment => StepCommitment(c, s, sent, got, from);
      case KNonce => StepLeaderNonce(c, s, sent, got, from);
      case KSchnorr(role) => StepSchnorr(c, s, sent, got, from, role);
      case KPartial(role) => StepPartial(c, s, sent, got, from, role, accepted);
      case KLock => StepLock(c, s, sent, got, from);
      case KSecret => StepSecret(c, s, sent, got, from);
      case KSpend => StepSpend(c, s, sent, got, from);
    }
  }
}
