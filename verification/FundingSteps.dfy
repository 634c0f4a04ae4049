/** The partial signatures: the last one for a role finalizes that role, and the last one of all makes
    the party submit its lock. */
module FundingSteps {
  import opened Ring
  import opened Protocol
  import opened PartyInvariant
  import opened PartySteps
  import opened SigningSteps

  ghost function WithPartial(c: Conf, s: Session, from: Pid, role: TxRole): Session {
    s.(partials := s.partials[(from, role) := ThePartial(c, from, role)])
  }

  lemma PartialArrives(c: Conf, s: Session, sent: Sent, got: Handled, from: Pid, role: TxRole)
    requires Delivers(c, s, sent, got, from, KPartial(role))
    ensures PartialsInv(c, s.me, WithPartial(c, s, from, role).partials, sent.partials, got.schnorr, With(got, from,
          KPartial(role)).partials)
    ensures !Finalized(c, s.me, got.partials, role)
    ensures forall other {:trigger Finalized(c, s.me, With(got, from, KPartial(role)).partials, other)} :: other != role ==>
              (Finalized(c, s.me, With(got, from, KPartial(role)).partials, other) <==> Finalized(c, s.me, got.partials, other))
  {
    hide PointsInv, ElectionInv, RevealInv, OpeningInv, MusigInv, NoncesInv, RefundsInv, SpendsInv, ClaimInv,
         LeaderInv, PhaseInv, Opened, Signs, Funded, Fifo, IsRing, ThePartial;
    assert (from, role) !in got.partials;
    var partials' := With(got, from, KPartial(role)).partials;
    forall other {:trigger Finalized(c, s.me, partials', other)} | other != role
      ensures Finalized(c, s.me, partials', other) <==> Finalized(c, s.me, got.partials, other)
    {
      assert forall q {:trigger (q, other) in got.partials} :: (q, other) in partials' <==> (q, other) in got.partials;
    }
  }

  /** A role is complete for the source exactly when all others have been handled. */
  lemma PartialsComplete(c: Conf, me: Pid, partials: map<(Pid, TxRole), PartialSig>, sent: set<TxRole>,
                         gotSchnorr: set<(Pid, TxRole)>, gotPartials: set<(Pid, TxRole)>, role: TxRole)
    requires ValidConf(c) && RoleInRing(c.env, role) && PartialsInv(c, me, partials, sent, gotSchnorr, gotPartials)
    ensures AllOthersHave(c.env.ring, me, partials, role) <==> Finalized(c, me, gotPartials, role)
  {
    hide IsRing, Signs, ThePartial;
    assert forall q {:trigger (q, role) in gotPartials} ::
             q in c.env.ring && q != me ==> ((q, role) in gotPartials <==> (q, role) in partials);
  }

  /** The last partial signature of a role finds everything of the earlier rounds of that role. */
  lemma FinalizedIsSigned(c: Conf, me: Pid, got: Handled, role: TxRole)
    requires Fifo(c, me, got) && Finalized(c, me, got.partials, role)
    ensures Opened(c, me, got.nonces) && Signs(c, me, got.schnorr, role)
  {
    hide IsRing;
    forall q {:trigger q in got.nonces} {:trigger (q, role) in got.schnorr} | q in c.env.ring && q != me
      ensures q in got.nonces && (q, role) in got.schnorr
    {
      assert (q, role) in got.partials;
    }
  }

  lemma PartialsAddUp(c: Conf, s: Session, sent: set<TxRole>, gotSchnorr: set<(Pid, TxRole)>, gotPartials: set<(Pid, TxRole)>, role: TxRole)
    requires ValidConf(c) && s.me in c.env.ring && RoleInRing(c.env, role)
    requires PartialsInv(c, s.me, s.partials, sent, gotSchnorr, gotPartials) && NoncesInv(c, s.me, s.nonces, true, gotSchnorr)
    requires Signs(c, s.me, gotSchnorr, role) && Finalized(c, s.me, gotPartials, role)
    ensures AddsUp(c.env, s, role, c.plan.inputs(role))
  {
    hide IsRing;
    var stored := ForRole(s.partials, role);
    forall q
      ensures q in stored <==> q in c.env.ring
    {
      assert (q, role) in s.partials <==> q in c.env.ring;
    }
    forall p {:trigger (p, role) in s.partials} | p in c.env.ring
      ensures (p, role) in s.nonces && s.nonces[(p, role)] == PubNonce(c.plan.sec(p, role))
    {
      if p != s.me {
        assert (p, role) in gotSchnorr;
      }
    }
  }

  /** The session once the partial signature has been handled, before any funding. */
  ghost function Settled(c: Conf, s: Session, from: Pid, role: TxRole): Session {
    var partials := s.partials[(from, role) := ThePartial(c, from, role)];
    var done := Finalized(c, s.me, partials.Keys, role);
    s.(partials := partials,
       adaptorSigs := if done && role.Spend? then s.adaptorSigs[role := c.plan.inputs(role)] else s.adaptorSigs,
       signedTxs := if done && role.Refund? then s.signedTxs[role := TheRefund(c, role)] else s.signedTxs)
  }

  function TheRefund(c: Conf, role: TxRole): SignedTx { SignedTx(c.plan.unsigned(role), Plain(c.plan.inputs(role))) }

  lemma StoredAreHandled(c: Conf, me: Pid, partials: map<(Pid, TxRole), PartialSig>, sent: set<TxRole>,
                         gotSchnorr: set<(Pid, TxRole)>, gotPartials: set<(Pid, TxRole)>, role: TxRole)
    requires ValidConf(c) && RoleInRing(c.env, role) && PartialsInv(c, me, partials, sent, gotSchnorr, gotPartials)
    ensures Finalized(c, me, partials.Keys, role) <==> Finalized(c, me, gotPartials, role)
  {
    hide IsRing, Signs, ThePartial;
    assert forall q {:trigger (q, role) in gotPartials} ::
             q in c.env.ring && q != me ==> ((q, role) in gotPartials <==> (q, role) in partials);
  }

  lemma RoleFinalizes(c: Conf, s: Session, sent: Sent, got: Handled, from: Pid, role: TxRole)
    requires Delivers(c, s, sent, got, from, KPartial(role)) && Finalized(c, s.me, With(got, from, KPartial(role)).partials, role)
    ensures FinalizeRole(c.env, WithPartial(c, s, from, role), role) == Ok(Settled(c, s, from, role), [], [])
  {
    hide ElectionInv, RevealInv, RefundsInv, SpendsInv, ClaimInv, LeaderInv, PhaseInv, Opened, Funded, Fifo, Signs,
         Finalized, NoncesInv, PointsInv, PartialsInv, InputsFit, GatheredInputs, AddsUp, IsRing;
    var s1, got' := WithPartial(c, s, from, role), With(got, from, KPartial(role));
    FinalizedIsSigned(c, s.me, got', role);
    PartialArrives(c, s, sent, got, from, role);
    assert role in s.musig && s.musig[role] == TheRuntime(c, s.me, role, true);
    InputsArePlanned(c, s1, sent, got', role);
    PartialsAddUp(c, s1, sent.partials, got.schnorr, got'.partials, role);
    StoredAreHandled(c, s.me, s1.partials, sent.partials, got.schnorr, got'.partials, role);
    if role.Spend? {} else {}
  }

  lemma SettledSignatures(c: Conf, s: Session, sent: Sent, got: Handled, from: Pid, role: TxRole)
    requires Delivers(c, s, sent, got, from, KPartial(role))
    ensures RefundsInv(c, s.me, Settled(c, s, from, role).signedTxs, With(got, from, KPartial(role)).partials)
    ensures SpendsInv(c, s.me, Settled(c, s, from, role).adaptorSigs, With(got, from, KPartial(role)).partials)
  {
    hide PointsInv, ElectionInv, RevealInv, OpeningInv, MusigInv, NoncesInv, PartialsInv, ClaimInv, LeaderInv,
         PhaseInv, Opened, Signs, Funded, Finalized, Fifo, IsRing, ThePartial;
    PartialArrives(c, s, sent, got, from, role);
    StoredAreHandled(c, s.me, WithPartial(c, s, from, role).partials, sent.partials, got.schnorr, With(got, from,
          KPartial(role)).partials, role);
  }

  /** The source's funding check is exact: it passes when all 2N roles are finalized. */
  lemma AllSignedIsFunded(c: Conf, s: Session, sent: set<TxRole>, gotSchnorr: set<(Pid, TxRole)>, gotPartials: set<(Pid, TxRole)>)
    requires ValidConf(c) && PartialsInv(c, s.me, s.partials, sent, gotSchnorr, gotPartials)
    requires SpendsInv(c, s.me, s.adaptorSigs, gotPartials)
    ensures AllSigned(c.env.ring, s) <==> Funded(c, s.me, gotPartials)
  {
    hide IsRing, PartialsInv, Finalized, AllOthersHave;
    forall id {:trigger Refund(id)} | id in c.env.ring
      ensures AllOthersHave(c.env.ring, s.me, s.partials, Refund(id)) <==> Finalized(c, s.me, gotPartials, Refund(id))
    {
      PartialsComplete(c, s.me, s.partials, sent, gotSchnorr, gotPartials, Refund(id));
    }
    if Funded(c, s.me, gotPartials) {
      forall id | id in c.env.ring
        ensures Finalized(c, s.me, gotPartials, Refund(id)) && Finalized(c, s.me, gotPartials, Spend(id))
      {
        assert RoleInRing(c.env, Refund(id)) && RoleInRing(c.env, Spend(id));
      }
    }
    if AllSigned(c.env.ring, s) {
      forall role {:trigger Finalized(c, s.me, gotPartials, role)} | RoleInRing(c.env, role)
        ensures Finalized(c, s.me, gotPartials, role)
      {
        if role.Refund? {
          assert role == Refund(role.id);
        } else {
          assert role == Spend(role.id);
        }
      }
    }
  }

  /** Until all roles are finalized, nothing else changes. */
  lemma SettledKeeps(c: Conf, s: Session, sent: Sent, got: Handled, from: Pid, role: TxRole)
    requires Delivers(c, s, sent, got, from, KPartial(role)) && !Funded(c, s.me, With(got, from, KPartial(role)).partials)
    ensures PartyInv(c, Settled(c, s, from, role), sent, With(got, from, KPartial(role)))
  {
    hide PointsInv, ElectionInv, RevealInv, OpeningInv, MusigInv, NoncesInv, PartialsInv, RefundsInv, SpendsInv,
         ClaimInv, LeaderInv, PhaseInv, Opened, Signs, Funded, Finalized, Fifo, IsRing, ThePartial, MayFollow;
    NotFundedBefore(c, s, sent, got, from, KPartial(role));
    PartialArrives(c, s, sent, got, from, role);
    SettledSignatures(c, s, sent, got, from, role);
  }

  /** The session after funding, with the chain's answer. */
  ghost function AfterFund(s: Session, accepted: bool): Session {
    var last := if accepted then AwaitingLockConfirmations else Failed;
    s.(state := last, history := s.history + [Funding] + [last],
       locksBroadcast := if accepted then s.locksBroadcast + {s.me} else s.locksBroadcast)
  }

  lemma PhaseFunds(s: Session, accepted: bool)
    requires s.history != [] && PhaseInv(s.state, s.history, 5, false, false)
    ensures PhaseInv(AfterFund(s, accepted).state, AfterFund(s, accepted).history, 5, true, accepted)
  {
    var h := AfterFund(s, accepted).history;
    assert h[..6] == s.history + [Funding];
    assert SETUP_PATH == SETUP_PATH[..5] + [Funding];
  }

  ghost function LockSent(sent: Sent, accepted: bool): Sent { if accepted then Add(sent, KLock) else sent }

  lemma FundKeepsClaim(c: Conf, s: Session, sent: Sent, got: Handled, accepted: bool)
    requires ValidConf(c) && s.me in c.env.ring && !sent.lock
    requires ClaimInv(c, s.me, s.secrets, s.locksBroadcast, s.locksConfirmed, sent.lock, sent.secret, sent.spend, got.locks, got.secrets)
    ensures ClaimInv(c, s.me, s.secrets, AfterFund(s, accepted).locksBroadcast, s.locksConfirmed, accepted,
          sent.secret, sent.spend, got.locks, got.secrets)
  {
    hide IsRing;
  }

  lemma LockMayFollow(c: Conf, s: Session, sent: Sent, got: Handled)
    requires ValidConf(c) && s.me in c.env.ring && !sent.lock
    requires Fifo(c, s.me, got) && Funded(c, s.me, got.partials)
    requires RevealInv(c, s.me, sent.point, sent.commitment, sent.nonce, got.commitments)
    requires OpeningInv(c, s.leader, s.lockTxs, s.musig.Keys, s.unsignedTxs, sent.schnorr, Opened(c, s.me, got.nonces))
    requires PartialsInv(c, s.me, s.partials, sent.partials, got.schnorr, got.partials)
    ensures MayFollow(c, s.me, sent, LockTxBroadcast)
  {
    hide IsRing, Funded, Signs, Opened, Fifo;
    FundedIsOpened(c, s.me, got);
    NoCommitmentYet(c, s.me, sent, got);
  }

  /** Everything is there for funding, and funding has not happened. */
  ghost predicate ReadyToFund(c: Conf, s: Session, sent: Sent, got: Handled) {
    && ValidConf(c)
    && s.me in c.env.ring && Funded(c, s.me, got.partials) && s.history != [] && !sent.lock
    && Fifo(c, s.me, got)
    && PointsInv(c, s.me, s.points, got.points)
    && ElectionInv(c, s.me, s.leaderCommitments, s.leaderNonces, sent.commitment, got.commitments, got.nonces)
    && RevealInv(c, s.me, sent.point, sent.commitment, sent.nonce, got.commitments)
    && OpeningInv(c, s.leader, s.lockTxs, s.musig.Keys, s.unsignedTxs, sent.schnorr, Opened(c, s.me, got.nonces))
    && MusigInv(c, s.me, s.musig, got.schnorr)
    && NoncesInv(c, s.me, s.nonces, Opened(c, s.me, got.nonces), got.schnorr)
    && PartialsInv(c, s.me, s.partials, sent.partials, got.schnorr, got.partials)
    && RefundsInv(c, s.me, s.signedTxs, got.partials)
    && SpendsInv(c, s.me, s.adaptorSigs, got.partials)
    && PhaseInv(s.state, s.history, 5, false, false)
    && ClaimInv(c, s.me, s.secrets, s.locksBroadcast, s.locksConfirmed, sent.lock, sent.secret, sent.spend, got.locks, got.secrets)
    && LeaderInv(c, s.me, s.history, got.secrets)
  }

  lemma SettledIsReady(c: Conf, s: Session, sent: Sent, got: Handled, from: Pid, role: TxRole)
    requires Delivers(c, s, sent, got, from, KPartial(role)) && Funded(c, s.me, With(got, from, KPartial(role)).partials)
    ensures ReadyToFund(c, Settled(c, s, from, role), sent, With(got, from, KPartial(role)))
    ensures Settled(c, s, from, role).me == s.me
  {
    hide PointsInv, ElectionInv, RevealInv, OpeningInv, MusigInv, NoncesInv, PartialsInv, RefundsInv, SpendsInv,
         ClaimInv, LeaderInv, PhaseInv, Opened, Signs, Funded, Finalized, Fifo, IsRing, ThePartial;
    NotFundedBefore(c, s, sent, got, from, KPartial(role));
    PartialArrives(c, s, sent, got, from, role);
    SettledSignatures(c, s, sent, got, from, role);
    FundedIsOpened(c, s.me, With(got, from, KPartial(role)));
    NotFundedNoLock(c, s, sent, got);
  }

  lemma OwnLockIsBuilt(c: Conf, s: Session, schnorr: set<TxRole>)
    requires ValidConf(c) && s.me in c.env.ring
    requires OpeningInv(c, s.leader, s.lockTxs, s.musig.Keys, s.unsignedTxs, schnorr, true)
    ensures s.me in s.lockTxs
  {
    hide IsRing;
  }

  lemma FundKeepsLeader(c: Conf, s: Session, accepted: bool, gotSecrets: set<Pid>)
    requires LeaderInv(c, s.me, s.history, gotSecrets)
    ensures LeaderInv(c, s.me, AfterFund(s, accepted).history, gotSecrets)
  {
    hide AllOthers;
  }

  lemma FundOutcome(env: Env, s: Session, accepted: bool)
    requires s.me in s.lockTxs
    ensures Fund(env, s, accepted) == Ok(AfterFund(s, accepted), if accepted then [LockTxBroadcast] else [], [SubmitLock(s.lockTxs[s.me])])
  {
    if accepted {} else {}
  }

  /** Funding keeps the invariant, whatever the chain answers. */
  lemma ReadyFunds(c: Conf, s: Session, sent: Sent, got: Handled, accepted: bool)
    requires ValidConf(c) && ReadyToFund(c, s, sent, got)
    ensures PartyInv(c, AfterFund(s, accepted), LockSent(sent, accepted), got)
    ensures s.me in s.lockTxs && MayFollow(c, s.me, sent, LockTxBroadcast)
  {
    hide PointsInv, ElectionInv, RevealInv, OpeningInv, MusigInv, NoncesInv, PartialsInv, RefundsInv, SpendsInv,
         ClaimInv, LeaderInv, PhaseInv, Opened, Signs, Funded, Finalized, Fifo, IsRing, ThePartial, MayFollow;
    FundedIsOpened(c, s.me, got);
    OwnLockIsBuilt(c, s, sent.schnorr);
    PhaseFunds(s, accepted);
    FundKeepsClaim(c, s, sent, got, accepted);
    FundKeepsLeader(c, s, accepted, got.secrets);
    LockMayFollow(c, s, sent, got);
    if accepted {} else {}
  }

  lemma NotFundedNoLock(c: Conf, s: Session, sent: Sent, got: Handled)
    requires ValidConf(c) && PartyInv(c, s, sent, got) && !Funded(c, s.me, got.partials)
    ensures !sent.lock && s.history != []
  {
    hide PointsInv, ElectionInv, RevealInv, OpeningInv, MusigInv, NoncesInv, PartialsInv, RefundsInv, SpendsInv,
         ClaimInv, LeaderInv, Opened, Signs, Funded, Finalized, Fifo, IsRing;
  }

  /** What the handler does comes down to whether all 2N roles are finalized now. */
  lemma PartialOutcome(c: Conf, s: Session, sent: Sent, got: Handled, from: Pid, role: TxRole, accepted: bool)
    requires Delivers(c, s, sent, got, from, KPartial(role))
    ensures OnPartialSignature(c.env, s, role, ThePartial(c, from, role), from, accepted)
         == if Funded(c, s.me, With(got, from, KPartial(role)).partials) then Fund(c.env, Settled(c, s, from, role), accepted)
            else Ok(Settled(c, s, from, role), [], [])
  {
    hide PointsInv, ElectionInv, RevealInv, OpeningInv, MusigInv, NoncesInv, PartialsInv, RefundsInv, SpendsInv,
         ClaimInv, LeaderInv, PhaseInv, Opened, Signs, Funded, Finalized, Fifo, IsRing, ThePartial, AllOthersHave,
         FinalizeRole, AllSigned, Fund, InputsFit;
    var s1, got' := WithPartial(c, s, from, role), With(got, from, KPartial(role));
    PartialArrives(c, s, sent, got, from, role);
    PartialsComplete(c, s.me, s1.partials, sent.partials, got.schnorr, got'.partials, role);
    StoredAreHandled(c, s.me, s1.partials, sent.partials, got.schnorr, got'.partials, role);
    SettledSignatures(c, s, sent, got, from, role);
    AllSignedIsFunded(c, Settled(c, s, from, role), sent.partials, got.schnorr, got'.partials);
    if Finalized(c, s.me, got'.partials, role) {
      RoleFinalizes(c, s, sent, got, from, role);
    } else {
      assert Settled(c, s, from, role) == s1;
    }
  }

  lemma StepPartial(c: Conf, s: Session, sent: Sent, got: Handled, from: Pid, role: TxRole, accepted: bool)
    requires Delivers(c, s, sent, got, from, KPartial(role))
    ensures GoodStep(c, s, sent, With(got, from, KPartial(role)),
                     OnPartialSignature(c.env, s, role, ThePartial(c, from, role), from, accepted))
  {
    hide PartyInv, Funded, Fifo, IsRing, ThePartial, OnPartialSignature, Fund, MayEmit, MayFollow, After, InputsFit,
         Settled, ReadyToFund, AfterFund;
    var s2, got' := Settled(c, s, from, role), With(got, from, KPartial(role));
    MeInRing(c, s, sent, got);
    PartialOutcome(c, s, sent, got, from, role, accepted);
    SettledIsMe(c, s, from, role);
    NothingEmitted(c, s.me, sent);
    if Funded(c, s.me, got'.partials) {
      SettledIsReady(c, s, sent, got, from, role);
      ReadyFunds(c, s2, sent, got', accepted);
      FundOutcome(c.env, s2, accepted);
      FundIsMe(s2, accepted);
      if accepted {
        EmitOne(c, s.me, sent, LockTxBroadcast);
      }
    } else {
      SettledKeeps(c, s, sent, got, from, role);
    }
  }

  lemma SettledIsMe(c: Conf, s: Session, from: Pid, role: TxRole)
    ensures Settled(c, s, from, role).me == s.me
  {
  }

  lemma FundIsMe(s: Session, accepted: bool)
    ensures AfterFund(s, accepted).me == s.me
  {
  }
}
