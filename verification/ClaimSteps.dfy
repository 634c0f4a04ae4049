/** The steps after funding: lock announcements, secrets, and the three chain polls; and the start. */
module ClaimSteps {
  import opened Ring
  import opened Protocol
  import opened PartyInvariant
  import opened PartySteps
  import opened SigningSteps

  lemma StepStart(c: Conf, s: Session, sent: Sent, got: Handled)
    requires ValidConf(c) && PartyInv(c, s, sent, got) && !sent.point
    ensures s.state == Initialized
    ensures GoodStep(c, s, sent, got, Start(s))
  {
    hide MusigInv, NoncesInv, PartialsInv, RefundsInv, SpendsInv, ClaimInv, ElectionInv, Opened, Signs, Funded, Fifo,
         IsRing;
    NoCommitmentYet(c, s.me, sent, got);
    NotYetFunded(c, s, sent, got);
    NextState(s.history, 1);
    EmitOne(c, s.me, sent, TheMessage(c, s.me, KPoint));
  }

  lemma NotYetFunded(c: Conf, s: Session, sent: Sent, got: Handled)
    requires ValidConf(c) && PartyInv(c, s, sent, got) && !Opened(c, s.me, got.nonces)
    ensures !Funded(c, s.me, got.partials) && !sent.lock && s.history != []
    ensures s.state == SETUP_PATH[Stage(sent.point, sent.commitment, sent.nonce, false) - 1]
    ensures PhaseInv(s.state, s.history, Stage(sent.point, sent.commitment, sent.nonce, false), false, false)
  {
    hide PointsInv, RevealInv, OpeningInv, MusigInv, NoncesInv, PartialsInv, RefundsInv, SpendsInv, ClaimInv,
         LeaderInv, ElectionInv, Opened, Signs, Funded, Fifo, IsRing;
    if Funded(c, s.me, got.partials) {
      FundedIsOpened(c, s.me, got);
    }
  }

  // ---------- lock announcements ----------

  lemma LockAnnounced(c: Conf, s: Session, sent: Sent, got: Handled, from: Pid)
    requires Delivers(c, s, sent, got, from, KLock)
    ensures ClaimInv(c, s.me, s.secrets, s.locksBroadcast, s.locksConfirmed, sent.lock, sent.secret, sent.spend,
          With(got, from, KLock).locks, got.secrets)
    ensures ClaimInv(c, s.me, s.secrets, s.locksBroadcast + {from}, s.locksConfirmed, sent.lock, sent.secret,
          sent.spend, With(got, from, KLock).locks, got.secrets)
  {
    hide PointsInv, RevealInv, OpeningInv, MusigInv, NoncesInv, PartialsInv, RefundsInv, SpendsInv, PhaseInv,
         LeaderInv, ElectionInv, Opened, Signs, Funded, Fifo, IsRing, AllOthers;
  }

  lemma StepLock(c: Conf, s: Session, sent: Sent, got: Handled, from: Pid)
    requires Delivers(c, s, sent, got, from, KLock)
    ensures GoodStep(c, s, sent, With(got, from, KLock), Ok(s.(locksBroadcast := s.locksBroadcast + {from}), [], []))
    ensures GoodStep(c, s, sent, With(got, from, KLock), Ok(s, [], []))
  {
    hide PointsInv, RevealInv, OpeningInv, MusigInv, NoncesInv, PartialsInv, RefundsInv, SpendsInv, PhaseInv,
         LeaderInv, ElectionInv, ClaimInv, Opened, Signs, Funded, Fifo, IsRing, MayEmit;
    LockAnnounced(c, s, sent, got, from);
    NothingEmitted(c, s.me, sent);
  }

  lemma StepSpend(c: Conf, s: Session, sent: Sent, got: Handled, from: Pid)
    requires Delivers(c, s, sent, got, from, KSpend)
    ensures GoodStep(c, s, sent, With(got, from, KSpend), Ok(s, [], []))
  {
    hide PointsInv, RevealInv, OpeningInv, MusigInv, NoncesInv, PartialsInv, RefundsInv, SpendsInv, PhaseInv,
         LeaderInv, ElectionInv, ClaimInv, Opened, Signs, Funded, Fifo, IsRing, MayEmit;
    NothingEmitted(c, s.me, sent);
  }

  // ---------- secrets ----------

  lemma PhaseAdds(history: seq<SwapState>, stage: nat, next: SwapState)
    requires stage <= 5 && history != [] && PhaseInv(history[|history| - 1], history, stage, true, true) && AfterFunding(next)
    ensures PhaseInv(next, history + [next], stage, true, true)
  {
  }

  lemma StateIsLast(state: SwapState, history: seq<SwapState>, stage: nat, funded: bool, lock: bool)
    requires stage <= 5 && PhaseInv(state, history, stage, funded, lock)
    ensures history != [] && state == history[|history| - 1] && state in history
    ensures lock ==> funded
  {
  }

  lemma SecretArrives(c: Conf, s: Session, sent: Sent, got: Handled, from: Pid)
    requires Delivers(c, s, sent, got, from, KSecret)
    ensures ClaimInv(c, s.me, s.secrets, s.locksBroadcast, s.locksConfirmed, sent.lock, sent.secret, sent.spend,
          got.locks, With(got, from, KSecret).secrets)
    ensures ClaimInv(c, s.me, s.secrets[from := c.tape(from).secret], s.locksBroadcast, s.locksConfirmed, sent.lock,
          sent.secret, sent.spend, got.locks, With(got, from, KSecret).secrets)
    ensures LeaderInv(c, s.me, s.history, With(got, from, KSecret).secrets)
    ensures s.me == c.plan.leader ==> !sent.spend
    ensures s.me == c.plan.leader && HasAll(c.env.ring, s.secrets[from := c.tape(from).secret]) ==> AllOthers(c,
          s.me, With(got, from, KSecret).secrets)
  {
    hide PointsInv, RevealInv, OpeningInv, MusigInv, NoncesInv, PartialsInv, RefundsInv, SpendsInv, PhaseInv,
         ElectionInv, Opened, Signs, Funded, Fifo, IsRing;
    assert from !in got.secrets;
    if s.me == c.plan.leader && HasAll(c.env.ring, s.secrets[from := c.tape(from).secret]) {
      forall q {:trigger q in With(got, from, KSecret).secrets} | q in c.env.ring && q != s.me
        ensures q in With(got, from, KSecret).secrets
      {
        assert q in s.secrets[from := c.tape(from).secret];
      }
    }
  }

  lemma OwnSpendIsReady(c: Conf, s: Session, sent: Sent, got: Handled)
    requires ValidConf(c) && PartyInv(c, s, sent, got) && Funded(c, s.me, got.partials)
    ensures Spend(s.me) in s.adaptorSigs && s.adaptorSigs[Spend(s.me)] == c.plan.inputs(Spend(s.me))
    ensures Spend(s.me) in s.unsignedTxs && s.unsignedTxs[Spend(s.me)] == c.plan.unsigned(Spend(s.me))
    ensures Refund(s.me) in s.signedTxs && s.signedTxs[Refund(s.me)] == SignedTx(c.plan.unsigned(Refund(s.me)),
          Plain(c.plan.inputs(Refund(s.me))))
    ensures s.leader == Some(c.plan.leader) && s.lockTxs == c.plan.locks
    ensures LowerRanksSent(c, sent, 5)
  {
    hide PointsInv, ElectionInv, MusigInv, NoncesInv, PhaseInv, ClaimInv, LeaderInv, Opened, Signs, Finalized, Fifo,
         IsRing;
    FundedIsOpened(c, s.me, got);
    NoCommitmentYet(c, s.me, sent, got);
    assert Finalized(c, s.me, got.partials, Spend(s.me)) && Finalized(c, s.me, got.partials, Refund(s.me));
  }

  /** Signing the own spend touches no refund. */
  lemma RefundsUntouched(c: Conf, me: Pid, signed: map<TxRole, SignedTx>, gotPartials: set<(Pid, TxRole)>, id: Pid, tx: SignedTx)
    requires RefundsInv(c, me, signed, gotPartials)
    ensures RefundsInv(c, me, signed[Spend(id) := tx], gotPartials)
  {
    hide Finalized;
  }

  /** The own spend signed with a secret, the session completed. */
  ghost function Claimed(c: Conf, s: Session, secret: Secret): Session {
    s.(signedTxs := s.signedTxs[Spend(s.me) := TheSpend(c, s.me, secret)]).TransitionTo(Claiming).TransitionTo(Completed)
  }

  /** The planned spend of a party, adapted with a secret. */
  function TheSpend(c: Conf, p: Pid, secret: Secret): SignedTx {
    SignedTx(c.plan.unsigned(Spend(p)), Adapted(c.plan.inputs(Spend(p)), secret))
  }

  lemma ClaimOutcome(c: Conf, s: Session, secret: Secret, out: seq<WireMessage>)
    requires Spend(s.me) in s.adaptorSigs && s.adaptorSigs[Spend(s.me)] == c.plan.inputs(Spend(s.me))
    requires Spend(s.me) in s.unsignedTxs && s.unsignedTxs[Spend(s.me)] == c.plan.unsigned(Spend(s.me))
    ensures ClaimWith(s, secret, out) == Ok(Claimed(c, s, secret), out, [SubmitTx(Spend(s.me), TheSpend(c, s.me, secret))])
  {
  }

  lemma LeaderClaims(c: Conf, s: Session, sent: Sent, got: Handled, from: Pid, s1: Session, secret: Secret)
    requires Delivers(c, s, sent, got, from, KSecret) && sent.lock && Funded(c, s.me, got.partials)
    requires s1 == s.(secrets := s.secrets[from := c.tape(from).secret])
    requires s.me == c.plan.leader && HasAll(c.env.ring, s1.secrets)
    ensures ClaimWith(s1, secret, [SpendTxBroadcast]) == Ok(Claimed(c, s1, secret), [SpendTxBroadcast],
          [SubmitTx(Spend(s.me), TheSpend(c, s.me, secret))])
    ensures PartyInv(c, Claimed(c, s1, secret), Add(sent, KSpend), With(got, from, KSecret))
    ensures MayFollow(c, s.me, sent, SpendTxBroadcast)
  {
    hide PointsInv, RevealInv, OpeningInv, MusigInv, NoncesInv, PartialsInv, RefundsInv, SpendsInv, PhaseInv,
         ElectionInv, Opened, Signs, Funded, Fifo, IsRing, HasAll, AllOthers, ClaimWith;
    SecretArrives(c, s, sent, got, from);
    OwnSpendIsReady(c, s, sent, got);
    ClaimOutcome(c, s1, secret, [SpendTxBroadcast]);
    RefundsUntouched(c, s.me, s.signedTxs, got.partials, s.me, TheSpend(c, s.me, secret));
    var stage := Stage(sent.point, sent.commitment, sent.nonce, Opened(c, s.me, got.nonces));
    StateIsLast(s.state, s.history, stage, true, true);
    PhaseAdds(s.history, stage, Claiming);
    PhaseAdds(s.history + [Claiming], stage, Completed);
  }

  /** A secret that does not make the party claim. */
  lemma SecretWaits(c: Conf, s: Session, sent: Sent, got: Handled, from: Pid)
    requires Delivers(c, s, sent, got, from, KSecret) && sent.lock
    ensures PartyInv(c, s.(secrets := s.secrets[from := c.tape(from).secret]), sent, With(got, from, KSecret))
    ensures PartyInv(c, s, sent, With(got, from, KSecret))
    ensures s.me != c.plan.leader ==>
              PartyInv(c, s.(secrets := s.secrets[from := c.tape(from).secret]).TransitionTo(AwaitingLeaderSpend),
                    sent, With(got, from, KSecret))
  {
    hide PointsInv, RevealInv, OpeningInv, MusigInv, NoncesInv, PartialsInv, RefundsInv, SpendsInv, PhaseInv,
         ElectionInv, ClaimInv, Opened, Signs, Funded, Fifo, IsRing, HasAll, AllOthers;
    SecretArrives(c, s, sent, got, from);
    var stage := Stage(sent.point, sent.commitment, sent.nonce, Opened(c, s.me, got.nonces));
    StateIsLast(s.state, s.history, stage, Funded(c, s.me, got.partials), true);
    PhaseAdds(s.history, stage, AwaitingLeaderSpend);
  }

  /** What the handler does: the leader claims with the last secret, everybody else waits. */
  lemma SecretOutcome(c: Conf, s: Session, from: Pid, secret: Secret, s1: Session)
    requires s1 == s.(secrets := s.secrets[from := secret]) && s.leader == Some(c.plan.leader)
    ensures OnSecretReveal(c.env, s, secret, from)
         == if !HasAll(c.env.ring, s1.secrets) then Ok(s1, [], [])
            else if s.me == c.plan.leader then ClaimWith(s1, c.env.sumSecrets(s1.secrets), [SpendTxBroadcast])
            else Ok(s1.TransitionTo(AwaitingLeaderSpend), [], [])
  {
    hide HasAll, ClaimWith;
  }

  lemma StepSecret(c: Conf, s: Session, sent: Sent, got: Handled, from: Pid)
    requires Delivers(c, s, sent, got, from, KSecret) && sent.lock
    ensures !s.state.Terminal() ==> GoodStep(c, s, sent, With(got, from, KSecret), OnSecretReveal(c.env, s, c.tape(from).secret, from))
    ensures GoodStep(c, s, sent, With(got, from, KSecret), Ok(s, [], []))
  {
    hide PartyInv, IsRing, HasAll, MayFollow, MayEmit, ClaimWith, OnSecretReveal, Fifo, With, InputsFit, After;
    MeInRing(c, s, sent, got);
    NothingEmitted(c, s.me, sent);
    LockImpliesFunded(c, s, sent, got);
    OwnSpendIsReady(c, s, sent, got);
    SecretWaits(c, s, sent, got, from);
    var s1 := s.(secrets := s.secrets[from := c.tape(from).secret]);
    SecretOutcome(c, s, from, c.tape(from).secret, s1);
    if !HasAll(c.env.ring, s1.secrets) {
    } else if s.me == c.plan.leader {
      LeaderClaims(c, s, sent, got, from, s1, c.env.sumSecrets(s1.secrets));
      EmitOne(c, s.me, sent, SpendTxBroadcast);
    } else {
    }
  }

  lemma LockImpliesFunded(c: Conf, s: Session, sent: Sent, got: Handled)
    requires ValidConf(c) && PartyInv(c, s, sent, got) && sent.lock
    ensures Funded(c, s.me, got.partials)
  {
    hide IsRing, Fifo, Opened, Funded, PointsInv, ElectionInv, RevealInv, OpeningInv, MusigInv, NoncesInv,
         PartialsInv, RefundsInv, SpendsInv, LeaderInv, ClaimInv;
  }

  // ---------- chain polls ----------

  lemma ConfirmedLock(c: Conf, s: Session, sent: Sent, got: Handled, p: Pid)
    requires ValidConf(c) && PartyInv(c, s, sent, got) && p in s.locksBroadcast && p !in s.locksConfirmed
    ensures p in c.env.ring && s.me in s.secrets && s.secrets[s.me] == c.tape(s.me).secret && !sent.secret
    ensures
      var confirmed := s.locksConfirmed + {p};
      if AllConfirmed(c.env.ring, s.(locksConfirmed := confirmed)) then
        && sent.lock
        && ClaimInv(c, s.me, s.secrets, s.locksBroadcast, confirmed, sent.lock, s.me != c.plan.leader, sent.spend, got.locks, got.secrets)
      else ClaimInv(c, s.me, s.secrets, s.locksBroadcast, confirmed, sent.lock, sent.secret, sent.spend, got.locks, got.secrets)
    ensures !AllConfirmed(c.env.ring, s)
  {
    hide PointsInv, RevealInv, OpeningInv, MusigInv, NoncesInv, PartialsInv, RefundsInv, SpendsInv, PhaseInv,
         ElectionInv, LeaderInv, Opened, Signs, Funded, Fifo, IsRing, AllOthers;
    var s1 := s.(locksConfirmed := s.locksConfirmed + {p});
    assert AllConfirmed(c.env.ring, s1) <==> c.env.ring.Keys <= s1.locksConfirmed;
    assert !(c.env.ring.Keys <= s.locksConfirmed);
    if AllConfirmed(c.env.ring, s1) {
      assert s.me in s1.locksConfirmed;
      assert s.me in s.locksBroadcast;
    }
  }

  lemma LockKnown(c: Conf, s: Session, sent: Sent, got: Handled, p: Pid)
    requires ValidConf(c) && PartyInv(c, s, sent, got) && Opened(c, s.me, got.nonces) && p in c.env.ring
    ensures p in s.lockTxs && s.leader == Some(c.plan.leader)
  {
    hide PointsInv, RevealInv, ClaimInv, MusigInv, NoncesInv, PartialsInv, RefundsInv, SpendsInv, PhaseInv,
         ElectionInv, LeaderInv, Opened, Signs, Funded, Fifo, IsRing, AllOthers;
  }

  /** What a poll does for a lock that has not been confirmed yet. */
  lemma LockPollOutcome(c: Conf, s: Session, p: Pid, onChain: bool, s1: Session)
    requires p in c.env.ring && p in s.lockTxs && p !in s.locksConfirmed && !AllConfirmed(c.env.ring, s)
    requires s.leader == Some(c.plan.leader) && s.me in s.secrets
    requires s1 == s.(locksConfirmed := s.locksConfirmed + {p})
    ensures OnLockPoll(c.env, s, p, onChain)
         == if !onChain then Ok(s, [], [])
            else if !AllConfirmed(c.env.ring, s1) then Ok(s1, [], [])
            else if s.me != c.plan.leader then Ok(s1.TransitionTo(AwaitingLeaderSpend), [SecretReveal(s.secrets[s.me])], [])
            else Ok(s1.TransitionTo(AwaitingSecrets), [], [])
  {
    hide AllConfirmed;
    if onChain {
      if s.me != c.plan.leader {} else {}
    } else {
    }
  }

  lemma LockIsConfirmed(c: Conf, s: Session, sent: Sent, got: Handled, p: Pid, s1: Session)
    requires ValidConf(c) && PartyInv(c, s, sent, got) && p in s.locksBroadcast && p !in s.locksConfirmed
    requires s1 == s.(locksConfirmed := s.locksConfirmed + {p}) && !AllConfirmed(c.env.ring, s1)
    ensures GoodStep(c, s, sent, got, Ok(s1, [], []))
  {
    hide PointsInv, RevealInv, OpeningInv, MusigInv, NoncesInv, PartialsInv, RefundsInv, SpendsInv, PhaseInv,
         ElectionInv, ClaimInv, LeaderInv, Opened, Signs, Funded, Fifo, IsRing, AllConfirmed;
    NothingEmitted(c, s.me, sent);
    ConfirmedLock(c, s, sent, got, p);
  }

  lemma LastConfirmed(c: Conf, s: Session, sent: Sent, got: Handled, p: Pid, s1: Session, next: SwapState, sent': Sent)
    requires ValidConf(c) && PartyInv(c, s, sent, got) && p in s.locksBroadcast && p !in s.locksConfirmed
    requires s1 == s.(locksConfirmed := s.locksConfirmed + {p}) && AllConfirmed(c.env.ring, s1)
    requires next == if s.me == c.plan.leader then AwaitingSecrets else AwaitingLeaderSpend
    requires sent' == sent.(secret := s.me != c.plan.leader)
    ensures PartyInv(c, s1.TransitionTo(next), sent', got)
    ensures s1.TransitionTo(next).me == s.me && sent.lock && !sent.secret
  {
    hide PointsInv, RevealInv, OpeningInv, MusigInv, NoncesInv, PartialsInv, RefundsInv, SpendsInv, PhaseInv,
         ElectionInv, ClaimInv, LeaderInv, Opened, Signs, Funded, Fifo, IsRing, AllConfirmed, MayFollow;
    ConfirmedLock(c, s, sent, got, p);
    LastLockConfirmed(c, s, sent, got);
  }

  lemma LeaderAwaits(c: Conf, s: Session, sent: Sent, got: Handled, p: Pid, s1: Session)
    requires ValidConf(c) && PartyInv(c, s, sent, got) && p in s.locksBroadcast && p !in s.locksConfirmed
    requires s1 == s.(locksConfirmed := s.locksConfirmed + {p}) && AllConfirmed(c.env.ring, s1)
    requires s.me == c.plan.leader && s.me in c.env.ring
    ensures GoodStep(c, s, sent, got, Ok(s1.TransitionTo(AwaitingSecrets), [], []))
  {
    hide PartyInv, IsRing, AllConfirmed, MayEmit, MayFollow, After;
    ConfirmedLock(c, s, sent, got, p);
    LastConfirmed(c, s, sent, got, p, s1, AwaitingSecrets, sent);
    NothingEmitted(c, s.me, sent);
  }

  lemma NonLeaderReveals(c: Conf, s: Session, sent: Sent, got: Handled, p: Pid, s1: Session, m: WireMessage)
    requires ValidConf(c) && PartyInv(c, s, sent, got) && p in s.locksBroadcast && p !in s.locksConfirmed
    requires s1 == s.(locksConfirmed := s.locksConfirmed + {p}) && AllConfirmed(c.env.ring, s1)
    requires s.me != c.plan.leader && s.me in c.env.ring && m == TheMessage(c, s.me, KSecret)
    ensures GoodStep(c, s, sent, got, Ok(s1.TransitionTo(AwaitingLeaderSpend), [m], []))
  {
    hide PartyInv, IsRing, AllConfirmed, MayEmit, MayFollow, After, TheMessage;
    ConfirmedLock(c, s, sent, got, p);
    LastConfirmed(c, s, sent, got, p, s1, AwaitingLeaderSpend, sent.(secret := true));
    LastLockConfirmed(c, s, sent, got);
    EmitOne(c, s.me, sent, m);
    assert KindOf(m) == KSecret by { KindOfSecret(c, s.me); }
  }

  lemma KindOfSecret(c: Conf, p: Pid)
    requires ValidConf(c) && p in c.env.ring
    ensures KindOf(TheMessage(c, p, KSecret)) == KSecret
  {
    hide IsRing;
  }

  lemma NothingHappens(c: Conf, s: Session, sent: Sent, got: Handled)
    requires ValidConf(c) && PartyInv(c, s, sent, got)
    ensures s.me in c.env.ring && GoodStep(c, s, sent, got, Ok(s, [], []))
  {
    hide IsRing, PointsInv, RevealInv, OpeningInv, MusigInv, NoncesInv, PartialsInv, RefundsInv, SpendsInv, PhaseInv,
         ElectionInv, ClaimInv, LeaderInv, Opened, Signs, Funded, Fifo;
    NothingEmitted(c, s.me, sent);
  }

  lemma StepLockPoll(c: Conf, s: Session, sent: Sent, got: Handled, p: Pid, onChain: bool)
    requires ValidConf(c) && PartyInv(c, s, sent, got)
    requires p in s.locksBroadcast && Opened(c, s.me, got.nonces)
    ensures GoodStep(c, s, sent, got, OnLockPoll(c.env, s, p, onChain))
  {
    hide PartyInv, Opened, IsRing, AllConfirmed, OnLockPoll, GoodStep;
    NothingHappens(c, s, sent, got);
    if p in s.locksConfirmed {
      ConfirmedPoll(c.env, s, p, onChain);
    } else {
      ConfirmedLock(c, s, sent, got, p);
      LockKnown(c, s, sent, got, p);
      var s1 := s.(locksConfirmed := s.locksConfirmed + {p});
      LockPollOutcome(c, s, p, onChain, s1);
      if onChain && !AllConfirmed(c.env.ring, s1) {
        LockIsConfirmed(c, s, sent, got, p, s1);
      } else if onChain {
        if s.me != c.plan.leader {
          NonLeaderReveals(c, s, sent, got, p, s1, SecretReveal(s.secrets[s.me]));
        } else {
          LeaderAwaits(c, s, sent, got, p, s1);
        }
      } else {
      }
    }
  }

  lemma ConfirmedPoll(env: Env, s: Session, p: Pid, onChain: bool)
    requires p in s.locksConfirmed
    ensures OnLockPoll(env, s, p, onChain) == Ok(s, [], [])
  {
  }

  lemma LastLockConfirmed(c: Conf, s: Session, sent: Sent, got: Handled)
    requires ValidConf(c) && PartyInv(c, s, sent, got) && sent.lock && !sent.secret
    ensures
      var next := if s.me == c.plan.leader then AwaitingSecrets else AwaitingLeaderSpend;
      && LeaderInv(c, s.me, s.history + [next], got.secrets)
      && PhaseInv(next, s.history + [next], Stage(sent.point, sent.commitment, sent.nonce, Opened(c, s.me,
            got.nonces)), Funded(c, s.me, got.partials), true)
    ensures s.me != c.plan.leader ==> MayFollow(c, s.me, sent, TheMessage(c, s.me, KSecret))
  {
    hide PointsInv, RevealInv, OpeningInv, MusigInv, NoncesInv, PartialsInv, RefundsInv, SpendsInv, PhaseInv,
         ElectionInv, ClaimInv, Opened, Signs, Funded, Fifo, IsRing;
    var stage := Stage(sent.point, sent.commitment, sent.nonce, Opened(c, s.me, got.nonces));
    StateIsLast(s.state, s.history, stage, Funded(c, s.me, got.partials), true);
    OwnSpendIsReady(c, s, sent, got);
    PhaseAdds(s.history, stage, if s.me == c.plan.leader then AwaitingSecrets else AwaitingLeaderSpend);
  }

  /** A session that is past funding has funded and sent its lock, unless it failed there. */
  lemma AwaitingIsFunded(state: SwapState, history: seq<SwapState>, stage: nat, funded: bool, lock: bool)
    requires stage <= 5 && PhaseInv(state, history, stage, funded, lock)
    ensures state.AwaitingLeaderSpend? ==> funded && lock
  {
  }

  lemma FoundSecretClaims(c: Conf, s: Session, sent: Sent, got: Handled, secret: Secret, s1: Session)
    requires ValidConf(c) && PartyInv(c, s, sent, got) && s.state == AwaitingLeaderSpend
    requires s1 == s.(secrets := s.secrets[c.plan.leader := secret])
    ensures ClaimWith(s1, secret, []) == Ok(Claimed(c, s1, secret), [], [SubmitTx(Spend(s.me), TheSpend(c, s.me, secret))])
    ensures PartyInv(c, Claimed(c, s1, secret), sent, got)
  {
    hide PointsInv, RevealInv, OpeningInv, MusigInv, NoncesInv, PartialsInv, RefundsInv, SpendsInv, PhaseInv,
         ElectionInv, Opened, Signs, Funded, Fifo, IsRing, AllOthers, ClaimWith;
    var stage := Stage(sent.point, sent.commitment, sent.nonce, Opened(c, s.me, got.nonces));
    StateIsLast(s.state, s.history, stage, Funded(c, s.me, got.partials), sent.lock);
    AwaitingIsFunded(s.state, s.history, stage, Funded(c, s.me, got.partials), sent.lock);
    OwnSpendIsReady(c, s, sent, got);
    ClaimOutcome(c, s1, secret, []);
    RefundsUntouched(c, s.me, s.signedTxs, got.partials, s.me, TheSpend(c, s.me, secret));
    PhaseAdds(s.history, stage, Claiming);
    PhaseAdds(s.history + [Claiming], stage, Completed);
  }

  lemma StepLeaderSpendPoll(c: Conf, s: Session, sent: Sent, got: Handled, found: Option<Secret>)
    requires ValidConf(c) && PartyInv(c, s, sent, got)
    ensures GoodStep(c, s, sent, got, OnLeaderSpendPoll(s, c.plan.leader, found))
  {
    hide PartyInv, IsRing, MayEmit, ClaimWith, After;
    MeInRing(c, s, sent, got);
    NothingEmitted(c, s.me, sent);
    if s.state == AwaitingLeaderSpend && found.Some? {
      FoundSecretClaims(c, s, sent, got, found.value, s.(secrets := s.secrets[c.plan.leader := found.value]));
    } else {
    }
  }

  lemma StepRefundPoll(c: Conf, s: Session, sent: Sent, got: Handled, open: bool, accepted: bool)
    requires ValidConf(c) && PartyInv(c, s, sent, got) && s.me in s.locksConfirmed
    ensures GoodStep(c, s, sent, got, OnRefundPoll(s, open, accepted))
  {
    hide PointsInv, RevealInv, OpeningInv, MusigInv, NoncesInv, PartialsInv, RefundsInv, SpendsInv, PhaseInv,
         ElectionInv, Opened, Signs, Funded, Fifo, IsRing, AllOthers, MayEmit;
    NothingEmitted(c, s.me, sent);
    assert sent.lock;
    var stage := Stage(sent.point, sent.commitment, sent.nonce, Opened(c, s.me, got.nonces));
    StateIsLast(s.state, s.history, stage, Funded(c, s.me, got.partials), sent.lock);
    OwnSpendIsReady(c, s, sent, got);
    PhaseAdds(s.history, stage, Refunded);
    PhaseAdds(s.history, stage, Failed);
  }
}
