/** The good case at one party: as long as no submission is refused and no refund window is found open,
    the session stays on its way to the claim. */
module GoodCase {
  import opened Ring
  import opened Protocol
  import opened PartyInvariant
  import opened PartySteps
  import opened FundingSteps
  import opened ClaimSteps
  import opened Handling
  import opened Effects

  /** The leader has claimed exactly when it has handled everybody's secret. (It may still confirm its
      last lock after that, which takes it back to waiting for secrets.) */
  ghost predicate LeaderOnTrack(c: Conf, me: Pid, state: SwapState, history: seq<SwapState>, secrets: set<Pid>, gotSecrets: set<Pid>) {
    && (AllOthers(c, me, gotSecrets) <==> Claiming in history)
    && (state.Terminal() ==> Claiming in history)
    && gotSecrets <= secrets
  }

  function AllSecrets(c: Conf): map<Pid, Secret>
  {
    map p | p in c.env.ring :: c.tape(p).secret
  }

  ghost predicate KnowsSecrets(c: Conf, secrets: map<Pid, Secret>) {
    forall q {:trigger q in secrets} :: q in secrets ==> q in c.env.ring && secrets[q] == c.tape(q).secret
  }

  /** A claim is the party's planned spend, adapted with the sum of the secrets of all N. */
  ghost predicate ClaimsWithAll(c: Conf, me: Pid, history: seq<SwapState>, signed: map<TxRole, SignedTx>) {
    Claiming in history ==>
      && Spend(me) in signed && signed[Spend(me)] == TheSpend(c, me, c.env.sumSecrets(AllSecrets(c)))
  }

  /** Everybody else waits for the leader's spend, or has completed, exactly when it has revealed its
      secret. */
  ghost predicate FollowerOnTrack(c: Conf, state: SwapState, history: seq<SwapState>, secrets: set<Pid>, secret: bool) {
    && (state.Completed? ==> Claiming in history)
    && (secret <==> state.AwaitingLeaderSpend? || state.Completed?)
    && (c.plan.leader in secrets ==> state.Completed?)
  }

  ghost predicate OnTrack(c: Conf, s: Session, sent: Sent, got: Handled) {
    && !s.state.Refunded? && !s.state.Failed?
    && (Funded(c, s.me, got.partials) ==> sent.lock)
    && (sent.lock ==> s.me in s.locksBroadcast)
    && got.locks <= s.locksBroadcast
    && ClaimsWithAll(c, s.me, s.history, s.signedTxs)
    && (s.me == c.plan.leader ==>
          LeaderOnTrack(c, s.me, s.state, s.history, s.secrets.Keys, got.secrets) && KnowsSecrets(c, s.secrets))
    && (s.me != c.plan.leader ==> FollowerOnTrack(c, s.state, s.history, s.secrets.Keys, sent.secret))
  }

  // ---------- before funding ----------

  lemma AllSecretsMeansFunded(c: Conf, me: Pid, got: Handled)
    requires Fifo(c, me, got) && AllOthers(c, me, got.secrets)
    ensures Funded(c, me, got.partials)
  {
    forall role {:trigger Finalized(c, me, got.partials, role)} | RoleInRing(c.env, role)
      ensures Finalized(c, me, got.partials, role)
    {
      forall q {:trigger (q, role) in got.partials} | q in c.env.ring && q != me
        ensures (q, role) in got.partials
      {
        assert q in got.secrets && q in got.locks;
      }
    }
  }

  lemma SetupState(state: SwapState, history: seq<SwapState>, stage: nat, lock: bool)
    requires 1 <= stage <= 5 && PhaseInv(state, history, stage, false, lock)
    ensures !state.AwaitingLeaderSpend? && !state.Terminal() && Claiming !in history && !lock
  {
  }

  /** An unfunded party is on track if it keeps what little it has. */
  lemma UnfundedOnTrack(c: Conf, s: Session, sent: Sent, got: Handled)
    requires ValidConf(c) && PartyInv(c, s, sent, got) && !Funded(c, s.me, got.partials)
    requires UnfundedSecrets(c, s, got)
    ensures OnTrack(c, s, sent, got)
  {
    hide PointsInv, ElectionInv, RevealInv, OpeningInv, MusigInv, NoncesInv, PartialsInv, RefundsInv, SpendsInv,
         PhaseInv, LeaderInv, Opened, Signs, Funded, Fifo, IsRing, AllOthers;
    SetupState(s.state, s.history, Stage(sent.point, sent.commitment, sent.nonce, Opened(c, s.me, got.nonces)), sent.lock);
    if AllOthers(c, s.me, got.secrets) {
      AllSecretsMeansFunded(c, s.me, got);
    }
  }

  /** The little an unfunded party has. */
  ghost predicate UnfundedSecrets(c: Conf, s: Session, got: Handled) {
    && got.locks <= s.locksBroadcast
    && if s.me == c.plan.leader then got.secrets <= s.secrets.Keys && KnowsSecrets(c, s.secrets) else c.plan.leader !in s.secrets
  }

  /** A step that touches neither secrets nor announced locks. */
  ghost predicate KeepsClaims(s: Session, o: Outcome) {
    o.Ok? ==> o.session.me == s.me && o.session.secrets == s.secrets && o.session.locksBroadcast == s.locksBroadcast
  }

  lemma UnfundedStep(c: Conf, s: Session, sent: Sent, got: Handled, got': Handled, o: Outcome)
    requires ValidConf(c) && s.me in c.env.ring && !Funded(c, s.me, got.partials) && !Funded(c, s.me, got'.partials)
    requires KeepsClaims(s, o) && got'.locks == got.locks && got'.secrets == got.secrets
    requires GoodStep(c, s, sent, got', o)
    requires PartyInv(c, s, sent, got) && UnfundedSecrets(c, s, got)
    ensures OnTrack(c, o.session, After(sent, o.out), got')
  {
    hide PartyInv, Funded, IsRing, MayEmit, After, OnTrack;
    UnfundedOnTrack(c, o.session, After(sent, o.out), got');
  }

  lemma OnTrackUnfunded(c: Conf, s: Session, sent: Sent, got: Handled)
    requires ValidConf(c) && PartyInv(c, s, sent, got) && OnTrack(c, s, sent, got) && !Funded(c, s.me, got.partials)
    ensures UnfundedSecrets(c, s, got)
  {
    hide PointsInv, ElectionInv, RevealInv, OpeningInv, MusigInv, NoncesInv, PartialsInv, RefundsInv, SpendsInv,
         PhaseInv, LeaderInv, ClaimInv, Opened, Signs, Funded, IsRing, AllOthers, Fifo;
    SetupState(s.state, s.history, Stage(sent.point, sent.commitment, sent.nonce, Opened(c, s.me, got.nonces)), sent.lock);
  }

  // ---------- the setup messages touch neither secrets nor announced locks ----------

  lemma {:induction false} BeginSigningClaims(env: Env, leader: Pid, s: Session, draw: Draw, roles: seq<TxRole>)
    requires IsRing(env.ring) && leader in env.ring && LocksBuildable(env)
    requires forall r :: r in roles ==> RoleInRing(env, r)
    ensures
      var t := BeginSigning(env, leader, s, draw, roles);
      t.me == s.me && t.secrets == s.secrets && t.locksBroadcast == s.locksBroadcast
  {
    hide IsRing, LocksBuildable, UnsignedFor, MessageFor, TweakFor, NewNonce;
    if roles != [] {
      var n := |roles| - 1;
      assert roles[n] in roles && forall r :: r in roles[..n] ==> r in roles;
      BeginSigningClaims(env, leader, s, draw, roles[..n]);
    }
  }

  lemma BeginSessionClaims(env: Env, s: Session, draw: Draw)
    requires IsRing(env.ring)
    ensures KeepsClaims(s, BeginSession(env, s, draw))
  {
    hide IsRing, LocksBuildable, ElectedLeader, BeginSigning, NonceMessages, Locks, AllRoles;
    if LocksBuildable(env) {
      assert 0 < |env.ring| by { hide *; RingHasMembers(env.ring); }
      var leader := ElectedLeader(env, s.leaderNonces);
      var s2 := s.(leader := Some(leader)).TransitionTo(RefundAndSpendTxsSigning);
      BeginSigningClaims(env, leader, s2.(lockTxs := s2.lockTxs + Locks(env, leader)), draw, AllRoles(env));
    }
  }

  lemma RingHasMembers(ps: Participants)
    requires IsRing(ps)
    ensures 0 < |ps|
  {
  }

  lemma PointClaims(env: Env, s: Session, point: Point, from: Pid, draw: Draw)
    ensures KeepsClaims(s, OnAdaptorPoint(env, s, point, from, draw))
  {
    hide HasAll;
  }

  lemma CommitmentClaims(env: Env, s: Session, commitment: Bytes32, from: Pid, draw: Draw)
    ensures KeepsClaims(s, OnCommitment(env, s, commitment, from, draw))
  {
    hide AddCommitment;
    if s.me !in s.leaderCommitments {
      var s1 := StartElection(env, s, draw).TransitionTo(AwaitingLeaderElectionCommitments);
      AddCommitmentClaims(env, s1, [LeaderElectionCommitment(env.sha256(draw.leaderNonce))], commitment, from);
    } else {
      AddCommitmentClaims(env, s, [], commitment, from);
    }
  }

  lemma AddCommitmentClaims(env: Env, s: Session, out: seq<WireMessage>, commitment: Bytes32, from: Pid)
    ensures KeepsClaims(s, AddCommitment(env, s, out, commitment, from))
  {
    hide HasAll;
  }

  lemma NonceClaims(env: Env, s: Session, nonce: Bytes32, from: Pid, draw: Draw)
    requires IsRing(env.ring)
    ensures KeepsClaims(s, OnLeaderNonce(env, s, nonce, from, draw))
  {
    hide HasAll, BeginSession, IsRing;
    BeginSessionClaims(env, s.(leaderNonces := s.leaderNonces[from := nonce]), draw);
  }

  lemma SchnorrClaims(env: Env, s: Session, role: TxRole, pub: PubNonce, from: Pid)
    ensures KeepsClaims(s, OnSchnorrNonce(env, s, role, pub, from))
  {
    hide AllOthersHave, GatheredInputs;
  }

  /** The messages before the partial signatures. */
  lemma SetupMessageKeeps(c: Conf, s: Session, sent: Sent, got: Handled, from: Pid, k: Kind, o: Outcome)
    requires Delivers(c, s, sent, got, from, k) && Rank(k) <= 3 && OnTrack(c, s, sent, got)
    requires o == HandleMessage(c.env, s, TheMessage(c, from, k), from, c.tape(s.me).draw, true)
    requires GoodStep(c, s, sent, With(got, from, k), o)
    ensures OnTrack(c, o.session, After(sent, o.out), With(got, from, k))
  {
    hide PartyInv, Funded, IsRing, OnTrack, After, GoodStep, Fifo, InputsFit, OnAdaptorPoint, OnCommitment,
         OnLeaderNonce, OnSchnorrNonce, UnfundedSecrets;
    MeInRing(c, s, sent, got);
    NotFundedBefore(c, s, sent, got, from, k);
    OnTrackUnfunded(c, s, sent, got);
    match k {
      case KPoint => PointClaims(c.env, s, c.tape(from).point, from, c.tape(s.me).draw);
      case KCommitment => CommitmentClaims(c.env, s, c.env.sha256(c.tape(from).draw.leaderNonce), from, c.tape(s.me).draw);
      case KNonce => NonceClaims(c.env, s, c.tape(from).draw.leaderNonce, from, c.tape(s.me).draw);
      case KSchnorr(role) => SchnorrClaims(c.env, s, role, PubNonce(c.plan.sec(from, role)), from);
    }
    UnfundedStep(c, s, sent, got, With(got, from, k), o);
  }

  // ---------- funding ----------

  lemma SettledClaims(c: Conf, s: Session, from: Pid, role: TxRole)
    ensures KeepsClaims(s, Ok(Settled(c, s, from, role), [], []))
    ensures Settled(c, s, from, role).state == s.state && Settled(c, s, from, role).history == s.history
  {
  }

  lemma FundedOnTrack(c: Conf, s: Session, sent: Sent, got: Handled)
    requires !sent.lock && !sent.secret && UnfundedSecrets(c, s, got) && Claiming !in s.history && !AllOthers(c, s.me, got.secrets)
    ensures OnTrack(c, AfterFund(s, true), Add(sent, KLock), got)
  {
    hide AllOthers, Funded;
    var t := AfterFund(s, true);
    assert Claiming !in t.history;
  }

  lemma PartialKeeps(c: Conf, s: Session, sent: Sent, got: Handled, from: Pid, role: TxRole, o: Outcome)
    requires Delivers(c, s, sent, got, from, KPartial(role)) && OnTrack(c, s, sent, got)
    requires o == HandleMessage(c.env, s, TheMessage(c, from, KPartial(role)), from, c.tape(s.me).draw, true)
    requires GoodStep(c, s, sent, With(got, from, KPartial(role)), o)
    ensures OnTrack(c, o.session, After(sent, o.out), With(got, from, KPartial(role)))
  {
    hide PartyInv, Funded, IsRing, OnTrack, After, GoodStep, Fifo, InputsFit, OnPartialSignature, UnfundedSecrets,
         Settled, AfterFund, ReadyToFund, Fund;
    var got' := With(got, from, KPartial(role));
    NotFundedBefore(c, s, sent, got, from, KPartial(role));
    OnTrackUnfunded(c, s, sent, got);
    MeInRing(c, s, sent, got);
    PartialOutcome(c, s, sent, got, from, role, true);
    SettledClaims(c, s, from, role);
    var s2 := Settled(c, s, from, role);
    if Funded(c, s.me, got'.partials) {
      SettledIsReady(c, s, sent, got, from, role);
      ReadyFunds(c, s2, sent, got', true);
      FundOutcome(c.env, s2, true);
      EmitOne(c, s.me, sent, LockTxBroadcast);
      UnfundedHistory(c, s, sent, got);
      SameUnfunded(c, s, s2, got, got');
      FundedOnTrack(c, s2, sent, got');
    } else {
      UnfundedStep(c, s, sent, got, got', o);
    }
  }

  lemma SameUnfunded(c: Conf, s: Session, s2: Session, got: Handled, got': Handled)
    requires UnfundedSecrets(c, s, got) && KeepsClaims(s, Ok(s2, [], [])) && got'.locks == got.locks && got'.secrets == got.secrets
    ensures UnfundedSecrets(c, s2, got')
  {
  }

  lemma UnfundedHistory(c: Conf, s: Session, sent: Sent, got: Handled)
    requires ValidConf(c) && PartyInv(c, s, sent, got) && !Funded(c, s.me, got.partials)
    ensures Claiming !in s.history && !sent.lock && !sent.secret && !AllOthers(c, s.me, got.secrets)
  {
    hide PointsInv, ElectionInv, RevealInv, OpeningInv, MusigInv, NoncesInv, PartialsInv, RefundsInv, SpendsInv,
         PhaseInv, LeaderInv, Opened, Signs, Funded, IsRing, AllOthers, Fifo;
    SetupState(s.state, s.history, Stage(sent.point, sent.commitment, sent.nonce, Opened(c, s.me, got.nonces)), sent.lock);
    if AllOthers(c, s.me, got.secrets) {
      AllSecretsMeansFunded(c, s.me, got);
    }
  }

  // ---------- announcements and secrets ----------

  /** A session that has ended has nothing left to hear about locks. */
  lemma EndedHasLocks(c: Conf, s: Session, sent: Sent, got: Handled, q: Pid)
    requires ValidConf(c) && PartyInv(c, s, sent, got) && OnTrack(c, s, sent, got) && s.state.Terminal()
    requires q in c.env.ring && q != s.me
    ensures q in got.locks || q in s.locksBroadcast
  {
    hide PointsInv, ElectionInv, RevealInv, OpeningInv, MusigInv, NoncesInv, PartialsInv, RefundsInv, SpendsInv,
         PhaseInv, LeaderInv, Opened, Signs, Funded, IsRing;
    if s.me == c.plan.leader {
      assert q in got.secrets;
    } else {
      assert sent.secret && q in s.locksConfirmed;
    }
  }

  lemma LockKeeps(c: Conf, s: Session, sent: Sent, got: Handled, from: Pid, o: Outcome)
    requires Delivers(c, s, sent, got, from, KLock) && OnTrack(c, s, sent, got)
    requires o == HandleMessage(c.env, s, LockTxBroadcast, from, c.tape(s.me).draw, true)
    ensures o.Ok? && OnTrack(c, o.session, After(sent, o.out), With(got, from, KLock))
  {
    hide PartyInv, Funded, IsRing, Fifo, InputsFit, AllOthers, After;
    NothingAfter(sent);
    if s.state.Terminal() {
      assert from in s.locksBroadcast by {
        hide OnTrack;
        EndedHasLocks(c, s, sent, got, from);
      }
      assert o == Ok(s, [], []);
    } else {
      assert o == Ok(s.(locksBroadcast := s.locksBroadcast + {from}), [], []);
    }
  }

  lemma NothingAfter(sent: Sent)
    ensures After(sent, []) == sent
  {
  }

  lemma SecretKeeps(c: Conf, s: Session, sent: Sent, got: Handled, from: Pid, o: Outcome)
    requires Delivers(c, s, sent, got, from, KSecret) && sent.lock && from != c.plan.leader && OnTrack(c, s, sent, got)
    requires o == HandleMessage(c.env, s, SecretReveal(c.tape(from).secret), from, c.tape(s.me).draw, true)
    ensures o.Ok? && OnTrack(c, o.session, After(sent, o.out), With(got, from, KSecret))
  {
    hide PartyInv, Funded, IsRing, Fifo, InputsFit, HasAll, AllOthers, After, OnSecretReveal, LeaderOnTrack, ClaimWith;
    var secret := c.tape(from).secret;
    var s1 := s.(secrets := s.secrets[from := secret]);
    NothingAfter(sent);
    if s.me == c.plan.leader {
      LeaderHears(c, s, sent, got, from, o);
    } else if s.state.Terminal() {
      assert o == Ok(s, [], []);
    } else {
      LockImpliesFunded(c, s, sent, got);
      OwnSpendIsReady(c, s, sent, got);
      SecretOutcome(c, s, from, secret, s1);
      assert !HasAll(c.env.ring, s1.secrets) by { LacksOne(c.env.ring, s1.secrets, c.plan.leader); }
      assert o == Ok(s1, [], []);
    }
  }

  lemma LacksOne(ring: Participants, secrets: map<Pid, Secret>, p: Pid)
    requires p in ring && p !in secrets
    ensures !HasAll(ring, secrets)
  {
  }

  lemma HasEverySecret(c: Conf, me: Pid, secrets: map<Pid, Secret>, gotSecrets: set<Pid>)
    requires me in secrets && gotSecrets <= secrets.Keys && AllOthers(c, me, gotSecrets)
    ensures HasAll(c.env.ring, secrets)
  {
  }

  lemma TheseAreAll(c: Conf, secrets: map<Pid, Secret>)
    requires KnowsSecrets(c, secrets) && HasAll(c.env.ring, secrets)
    ensures secrets == AllSecrets(c)
  {
    assert secrets.Keys == c.env.ring.Keys;
  }

  lemma LeaderHears(c: Conf, s: Session, sent: Sent, got: Handled, from: Pid, o: Outcome)
    requires Delivers(c, s, sent, got, from, KSecret) && sent.lock && OnTrack(c, s, sent, got) && s.me == c.plan.leader
    requires o == HandleMessage(c.env, s, SecretReveal(c.tape(from).secret), from, c.tape(s.me).draw, true)
    ensures o.Ok? && OnTrack(c, o.session, After(sent, o.out), With(got, from, KSecret))
  {
    hide PartyInv, Funded, IsRing, Fifo, InputsFit, HasAll, AllOthers, After, OnSecretReveal, ClaimWith, Claimed,
         KnowsSecrets;
    var secret := c.tape(from).secret;
    var s1, got' := s.(secrets := s.secrets[from := secret]), With(got, from, KSecret);
    assert !AllOthers(c, s.me, got.secrets) by { NotYetAll(c, s.me, got.secrets, from); }
    LockImpliesFunded(c, s, sent, got);
    OwnSpendIsReady(c, s, sent, got);
    SecretOutcome(c, s, from, secret, s1);
    NothingAfter(sent);
    OwnSecret(c, s, sent, got);
    if HasAll(c.env.ring, s1.secrets) {
      SecretArrives(c, s, sent, got, from);
      LeaderClaims(c, s, sent, got, from, s1, c.env.sumSecrets(s1.secrets));
      EmitOne(c, s.me, sent, SpendTxBroadcast);
      assert o == Ok(Claimed(c, s1, c.env.sumSecrets(s1.secrets)), [SpendTxBroadcast], o.submitted);
      LeaderClaimsOnTrack(c, s, sent, got, from, s1);
    } else {
      assert o == Ok(s1, [], []);
      if AllOthers(c, s.me, got'.secrets) {
        assert got'.secrets <= s1.secrets.Keys;
        HasEverySecret(c, s.me, s1.secrets, got'.secrets);
      }
      StoredSecret(c, s.secrets, from);
    }
  }

  lemma StoredSecret(c: Conf, secrets: map<Pid, Secret>, from: Pid)
    requires from in c.env.ring && KnowsSecrets(c, secrets)
    ensures KnowsSecrets(c, secrets[from := c.tape(from).secret])
  {
  }

  lemma LeaderClaimsOnTrack(c: Conf, s: Session, sent: Sent, got: Handled, from: Pid, s1: Session)
    requires ValidConf(c) && from in c.env.ring && OnTrack(c, s, sent, got) && s.me == c.plan.leader && sent.lock
    requires s1 == s.(secrets := s.secrets[from := c.tape(from).secret])
    requires HasAll(c.env.ring, s1.secrets) && AllOthers(c, s.me, With(got, from, KSecret).secrets)
    ensures OnTrack(c, Claimed(c, s1, c.env.sumSecrets(s1.secrets)), Add(sent, KSpend), With(got, from, KSecret))
  {
    hide IsRing, AllOthers, HasAll, Funded, KnowsSecrets;
    StoredSecret(c, s.secrets, from);
    TheseAreAll(c, s1.secrets);
    assert Claiming in s.history + [Claiming] + [Completed];
  }

  lemma NotYetAll(c: Conf, me: Pid, got: set<Pid>, q: Pid)
    requires q in c.env.ring && q != me && q !in got
    ensures !AllOthers(c, me, got)
  {
  }

  lemma OwnSecret(c: Conf, s: Session, sent: Sent, got: Handled)
    requires ValidConf(c) && PartyInv(c, s, sent, got)
    ensures s.me in s.secrets && s.me in c.env.ring
  {
    hide PointsInv, ElectionInv, RevealInv, OpeningInv, MusigInv, NoncesInv, PartialsInv, RefundsInv, SpendsInv,
         PhaseInv, LeaderInv, Opened, Signs, Funded, IsRing, Fifo;
  }

  lemma SpendKeeps(c: Conf, s: Session, sent: Sent, got: Handled, from: Pid, o: Outcome)
    requires OnTrack(c, s, sent, got) && IsRing(c.env.ring) && s.me in c.env.ring
    requires o == HandleMessage(c.env, s, SpendTxBroadcast, from, c.tape(s.me).draw, true)
    ensures o.Ok? && OnTrack(c, o.session, After(sent, o.out), With(got, from, KSpend))
  {
    hide Funded, IsRing, AllOthers, After;
    NothingAfter(sent);
    assert o == Ok(s, [], []);
  }

  lemma MessageKeeps(c: Conf, s: Session, sent: Sent, got: Handled, from: Pid, k: Kind, o: Outcome)
    requires Delivers(c, s, sent, got, from, k) && PlanFits(c) && Timely(sent, k) && OnTrack(c, s, sent, got)
    requires k.KSecret? ==> from != c.plan.leader
    requires o == HandleMessage(c.env, s, TheMessage(c, from, k), from, c.tape(s.me).draw, true)
    ensures o.Ok? && OnTrack(c, o.session, After(sent, o.out), With(got, from, k))
  {
    hide PartyInv, Funded, IsRing, Fifo, InputsFit, PlanFits, OnTrack, After, HandleMessage, With, ThePartial;
    StepMessage(c, s, sent, got, from, k, true);
    assert o.Ok?;
    MeInRing(c, s, sent, got);
    match k {
      case KPartial(role) => PartialKeeps(c, s, sent, got, from, role, o);
      case KLock => LockKeeps(c, s, sent, got, from, o);
      case KSecret => SecretKeeps(c, s, sent, got, from, o);
      case KSpend => SpendKeeps(c, s, sent, got, from, o);
      case _ => SetupMessageKeeps(c, s, sent, got, from, k, o);
    }
  }

  // ---------- start and polls ----------

  lemma StartKeeps(c: Conf, s: Session, sent: Sent, got: Handled, o: Outcome)
    requires ValidConf(c) && PartyInv(c, s, sent, got) && OnTrack(c, s, sent, got) && !sent.point
    requires o == Start(s) && GoodStep(c, s, sent, got, o)
    ensures OnTrack(c, o.session, After(sent, o.out), got)
  {
    hide PartyInv, Funded, IsRing, Fifo, OnTrack, After, GoodStep, UnfundedSecrets, Protocol.Start;
    StartClaims(s);
    UnstartedIsUnfunded(c, s, sent, got);
    OnTrackUnfunded(c, s, sent, got);
    UnfundedStep(c, s, sent, got, got, o);
  }

  lemma StartClaims(s: Session)
    ensures KeepsClaims(s, Start(s))
  {
    if s.me in s.points && s.state == Initialized {} else {}
  }

  lemma UnstartedIsUnfunded(c: Conf, s: Session, sent: Sent, got: Handled)
    requires ValidConf(c) && PartyInv(c, s, sent, got) && !sent.point
    ensures !Funded(c, s.me, got.partials) && s.me in c.env.ring
  {
    hide MusigInv, NoncesInv, PartialsInv, RefundsInv, SpendsInv, ClaimInv, ElectionInv, Opened, Signs, Funded, Fifo,
         IsRing;
    NoCommitmentYet(c, s.me, sent, got);
    NotYetFunded(c, s, sent, got);
  }

  lemma LockPollKeeps(c: Conf, s: Session, sent: Sent, got: Handled, p: Pid, onChain: bool, o: Outcome)
    requires ValidConf(c) && PartyInv(c, s, sent, got) && OnTrack(c, s, sent, got)
    requires p in s.locksBroadcast && Opened(c, s.me, got.nonces)
    requires o == OnLockPoll(c.env, s, p, onChain)
    ensures o.Ok? && OnTrack(c, o.session, After(sent, o.out), got)
  {
    hide PartyInv, Opened, IsRing, AllConfirmed, OnLockPoll, GoodStep, OnTrack, After, Funded;
    NothingAfter(sent);
    MeInRing(c, s, sent, got);
    if p in s.locksConfirmed {
      ConfirmedPoll(c.env, s, p, onChain);
    } else {
      ConfirmedLock(c, s, sent, got, p);
      LockKnown(c, s, sent, got, p);
      var s1 := s.(locksConfirmed := s.locksConfirmed + {p});
      LockPollOutcome(c, s, p, onChain, s1);
      if !onChain {
        assert o == Ok(s, [], []);
      } else if !AllConfirmed(c.env.ring, s1) {
        assert o == Ok(s1, [], []);
        ConfirmedOnTrack(c, s, sent, got, s1);
      } else if s.me == c.plan.leader {
        assert o == Ok(s1.TransitionTo(AwaitingSecrets), [], []);
        LeaderAwaitsOnTrack(c, s, sent, got, s1);
      } else {
        assert o == Ok(s1.TransitionTo(AwaitingLeaderSpend), [SecretReveal(s.secrets[s.me])], []);
        SecretAfter(sent, SecretReveal(s.secrets[s.me]));
        FollowerRevealsOnTrack(c, s, sent, got, s1);
      }
    }
  }

  lemma ConfirmedOnTrack(c: Conf, s: Session, sent: Sent, got: Handled, s1: Session)
    requires OnTrack(c, s, sent, got) && s1 == s.(locksConfirmed := s1.locksConfirmed)
    ensures OnTrack(c, s1, sent, got)
  {
    hide Funded, AllOthers;
  }

  lemma LeaderAwaitsOnTrack(c: Conf, s: Session, sent: Sent, got: Handled, s1: Session)
    requires OnTrack(c, s, sent, got) && s1 == s.(locksConfirmed := s1.locksConfirmed) && s.me == c.plan.leader
    ensures OnTrack(c, s1.TransitionTo(AwaitingSecrets), sent, got)
  {
    hide Funded, AllOthers;
    assert Claiming in s.history + [AwaitingSecrets] <==> Claiming in s.history;
  }

  lemma FollowerRevealsOnTrack(c: Conf, s: Session, sent: Sent, got: Handled, s1: Session)
    requires OnTrack(c, s, sent, got) && s1 == s.(locksConfirmed := s1.locksConfirmed) && s.me != c.plan.leader && !sent.secret
    ensures OnTrack(c, s1.TransitionTo(AwaitingLeaderSpend), sent.(secret := true), got)
  {
    hide Funded, AllOthers;
  }

  lemma SecretAfter(sent: Sent, m: WireMessage)
    requires m.SecretReveal?
    ensures After(sent, [m]) == sent.(secret := true)
  {
    assert [m][..0] == [];
  }

  lemma LeaderSpendPollKeeps(c: Conf, s: Session, sent: Sent, got: Handled, found: Option<Secret>, o: Outcome)
    requires ValidConf(c) && PartyInv(c, s, sent, got) && OnTrack(c, s, sent, got) && s.state == AwaitingLeaderSpend
    requires found.Some? ==> found.value == c.env.sumSecrets(AllSecrets(c))
    requires o == OnLeaderSpendPoll(s, c.plan.leader, found)
    ensures o.Ok? && OnTrack(c, o.session, After(sent, o.out), got)
  {
    hide PartyInv, IsRing, AllOthers, After, Funded, ClaimWith;
    NothingAfter(sent);
    LeaderDoesNotWait(c, s, sent, got);
    if found.Some? {
      var s1 := s.(secrets := s.secrets[c.plan.leader := found.value]);
      FoundSecretClaims(c, s, sent, got, found.value, s1);
      assert o.session == Claimed(c, s1, found.value);
    } else {
      assert o == Ok(s, [], []);
    }
  }

  lemma LeaderDoesNotWait(c: Conf, s: Session, sent: Sent, got: Handled)
    requires ValidConf(c) && PartyInv(c, s, sent, got) && s.state == AwaitingLeaderSpend
    ensures s.me != c.plan.leader
  {
    hide PointsInv, ElectionInv, RevealInv, OpeningInv, MusigInv, NoncesInv, PartialsInv, RefundsInv, SpendsInv,
         ClaimInv, Opened, Signs, Funded, IsRing, Fifo;
    StateIsLast(s.state, s.history, Stage(sent.point, sent.commitment, sent.nonce, Opened(c, s.me, got.nonces)),
          Funded(c, s.me, got.partials), sent.lock);
  }

  // ---------- claims are submitted ----------

  /** The step on which a session first claims submits its signed spend. */
  ghost predicate ClaimIsSubmitted(s: Session, o: Outcome) {
    o.Ok? && Claiming in o.session.history && Claiming !in s.history && Spend(s.me) in o.session.signedTxs ==>
      SubmitTx(Spend(s.me), o.session.signedTxs[Spend(s.me)]) in o.submitted
  }

  lemma PointNoClaim(env: Env, s: Session, point: Point, from: Pid, draw: Draw)
    ensures ClaimIsSubmitted(s, OnAdaptorPoint(env, s, point, from, draw))
  {
    hide HasAll;
  }

  lemma AddCommitmentNoClaim(env: Env, s: Session, out: seq<WireMessage>, commitment: Bytes32, from: Pid)
    ensures ClaimIsSubmitted(s, AddCommitment(env, s, out, commitment, from))
  {
    hide HasAll;
  }

  lemma CommitmentNoClaim(env: Env, s: Session, commitment: Bytes32, from: Pid, draw: Draw)
    ensures ClaimIsSubmitted(s, OnCommitment(env, s, commitment, from, draw))
  {
    hide AddCommitment;
    if s.me !in s.leaderCommitments {
      var s1 := StartElection(env, s, draw).TransitionTo(AwaitingLeaderElectionCommitments);
      AddCommitmentNoClaim(env, s1, [LeaderElectionCommitment(env.sha256(draw.leaderNonce))], commitment, from);
      AddCommitmentMe(env, s1, [LeaderElectionCommitment(env.sha256(draw.leaderNonce))], commitment, from);
    } else {
      AddCommitmentNoClaim(env, s, [], commitment, from);
    }
  }

  lemma AddCommitmentMe(env: Env, s: Session, out: seq<WireMessage>, commitment: Bytes32, from: Pid)
    ensures AddCommitment(env, s, out, commitment, from).Ok? ==> AddCommitment(env, s, out, commitment, from).session.me == s.me
  {
    hide HasAll;
  }

  lemma NonceNoClaim(env: Env, s: Session, nonce: Bytes32, from: Pid, draw: Draw)
    requires IsRing(env.ring)
    ensures ClaimIsSubmitted(s, OnLeaderNonce(env, s, nonce, from, draw))
  {
    hide IsRing, HasAll, BeginSession;
    var s1 := s.(leaderNonces := s.leaderNonces[from := nonce]);
    BeginSessionNoClaim(env, s1, draw);
  }

  lemma BeginSessionNoClaim(env: Env, s: Session, draw: Draw)
    requires IsRing(env.ring)
    ensures BeginSession(env, s, draw).Ok? && Claiming in BeginSession(env, s, draw).session.history ==> Claiming in s.history
  {
    hide IsRing, LocksBuildable, ElectedLeader, BeginSigning, NonceMessages, Locks, AllRoles;
    if LocksBuildable(env) {
      assert 0 < |env.ring| by { hide *; RingHasMembers(env.ring); }
      var leader := ElectedLeader(env, s.leaderNonces);
      var s2 := s.(leader := Some(leader)).TransitionTo(RefundAndSpendTxsSigning);
      BeginSigningFrame(env, leader, s2.(lockTxs := s2.lockTxs + Locks(env, leader)), draw, AllRoles(env));
    }
  }

  lemma SchnorrNoClaim(env: Env, s: Session, role: TxRole, pub: PubNonce, from: Pid)
    ensures ClaimIsSubmitted(s, OnSchnorrNonce(env, s, role, pub, from))
  {
    hide AllOthersHave, GatheredInputs;
  }

  lemma FundNoClaim(env: Env, s: Session, accepted: bool)
    ensures Fund(env, s, accepted).Ok? && Claiming in Fund(env, s, accepted).session.history ==> Claiming in s.history
  {
    var o := Fund(env, s, accepted);
    if o.Ok? {
      assert o.session.history == s.history + [Funding] + [if accepted then AwaitingLockConfirmations else Failed];
    }
  }

  lemma PartialNoClaim(env: Env, s: Session, role: TxRole, sig: PartialSig, from: Pid, accepted: bool)
    ensures ClaimIsSubmitted(s, OnPartialSignature(env, s, role, sig, from, accepted))
  {
    hide AllOthersHave, AllSigned, FinalizeRole, Fund;
    var s1 := s.(partials := s.partials[(from, role) := sig]);
    var f := if AllOthersHave(env.ring, s.me, s1.partials, role) then FinalizeRole(env, s1, role) else Ok(s1, [], []);
    if f.Ok? {
      FinalizeMakesMore(env, s1, role);
      FundNoClaim(env, f.session, accepted);
    }
  }

  lemma ClaimSubmitted(s: Session, secret: Secret, out: seq<WireMessage>)
    ensures ClaimIsSubmitted(s, ClaimWith(s, secret, out))
  {
    hide AdaptMySpend;
    AdaptFrame(s, secret);
    var a, o := AdaptMySpend(s, secret), ClaimWith(s, secret, out);
    if a.Ok? {
      assert o == Ok(a.session.TransitionTo(Claiming).TransitionTo(Completed), out, SpendSubmission(a.session));
    }
  }

  lemma SecretSubmitted(env: Env, s: Session, secret: Secret, from: Pid)
    ensures ClaimIsSubmitted(s, OnSecretReveal(env, s, secret, from))
  {
    hide HasAll, ClaimWith;
    var s1 := s.(secrets := s.secrets[from := secret]);
    var o := OnSecretReveal(env, s, secret, from);
    ClaimSubmitted(s1, env.sumSecrets(s1.secrets), [SpendTxBroadcast]);
    if !HasAll(env.ring, s1.secrets) {
      assert o == Ok(s1, [], []);
    } else if s.leader.Some? && s.me != s.leader.value {
      assert o == Ok(s1.TransitionTo(AwaitingLeaderSpend), [], []);
    }
  }

  lemma MessageSubmitted(env: Env, s: Session, msg: WireMessage, from: Pid, draw: Draw, accepted: bool)
    requires IsRing(env.ring)
    ensures ClaimIsSubmitted(s, HandleMessage(env, s, msg, from, draw, accepted))
  {
    hide IsRing, OnAdaptorPoint, OnCommitment, OnLeaderNonce, OnSchnorrNonce, OnPartialSignature, OnSecretReveal;
    if !s.state.Terminal() {
      match msg {
        case AdaptorPoint(point) => PointNoClaim(env, s, point, from, draw);
        case LeaderElectionCommitment(commitment) => CommitmentNoClaim(env, s, commitment, from, draw);
        case LeaderElectionNonce(nonce) => NonceNoClaim(env, s, nonce, from, draw);
        case SchnorrNonce(role, pub) => SchnorrNoClaim(env, s, role, pub, from);
        case PartialSignature(role, sig) => PartialNoClaim(env, s, role, sig, from, accepted);
        case SecretReveal(secret) => SecretSubmitted(env, s, secret, from);
        case _ =>
      }
    }
  }

  lemma NoClaimIn(s: Session, t: Session, next: SwapState, out: seq<WireMessage>)
    requires t.history == s.history && next != Claiming
    ensures ClaimIsSubmitted(s, Ok(t, out, [])) && ClaimIsSubmitted(s, Ok(t.TransitionTo(next), out, []))
  {
  }

  lemma LockPollNoClaim(env: Env, s: Session, owner: Pid, onChain: bool)
    ensures ClaimIsSubmitted(s, OnLockPoll(env, s, owner, onChain))
  {
    hide AllConfirmed, ClaimIsSubmitted;
    var o := OnLockPoll(env, s, owner, onChain);
    var s1 := if onChain then s.(locksConfirmed := s.locksConfirmed + {owner}) else s;
    NoClaimIn(s, s, AwaitingSecrets, []);
    NoClaimIn(s, s1, AwaitingSecrets, []);
    PanicClaims(s);
    if owner in s.locksConfirmed {
      assert o == Ok(s, [], []);
    } else if o.Ok? {
      if !AllConfirmed(env.ring, s1) {
        assert o == Ok(s1, [], []);
      } else if s.leader != Some(s.me) {
        NoClaimIn(s, s1, AwaitingLeaderSpend, [SecretReveal(s.secrets[s.me])]);
        assert o == Ok(s1.TransitionTo(AwaitingLeaderSpend), [SecretReveal(s.secrets[s.me])], []);
      } else {
        assert o == Ok(s1.TransitionTo(AwaitingSecrets), [], []);
      }
    }
  }

  lemma PanicClaims(s: Session)
    ensures ClaimIsSubmitted(s, Panic)
  {
  }

  lemma SpendPollSubmitted(s: Session, leader: Pid, found: Option<Secret>)
    ensures ClaimIsSubmitted(s, OnLeaderSpendPoll(s, leader, found))
  {
    hide ClaimWith;
    if found.Some? {
      ClaimSubmitted(s.(secrets := s.secrets[leader := found.value]), found.value, []);
    }
  }

  lemma RefundPollNoClaim(s: Session, open: bool, accepted: bool)
    ensures ClaimIsSubmitted(s, OnRefundPoll(s, open, accepted))
  {
  }

  lemma StartNoClaim(s: Session)
    ensures ClaimIsSubmitted(s, Start(s))
  {
  }
}
