/** What the handlers of the chain phase keep of an honest party's session: of one that has not been hurt,
    all that the chain's safety needs; of any other, what nothing can take away. */
module ChainSessions {
  import opened Ring
  import opened Timelocks
  import opened Protocol
  import opened Contents
  import opened Effects
  import opened FundedSessions
  import opened Chain

  /** A non-leader has revealed its secret exactly when it has seen all locks confirmed, and from then
      on waits for the leader's spend unless it is done. */
  ghost predicate RevealOk(x: Setting, p: Pid, state: SwapState, confirmed: set<Pid>, revealed: bool) {
    if p == x.leader then !revealed
    else
      && (revealed <==> x.env.ring.Keys <= confirmed)
      && (revealed ==> state.AwaitingLeaderSpend? || state.Terminal())
  }

  /** A non-leader completes only by claiming, and is refunded or failed only with its own lock returned. */
  ghost predicate EndOk(x: Setting, ledger: Ledger, p: Pid, state: SwapState) {
    && x.leader in x.env.ring && Target(x, x.leader) in ledger && p in ledger && p in x.env.ring && Target(x, p) in ledger
    && (p != x.leader ==>
      && (state.Completed? ==> Published(x, ledger) && At(ledger, Target(x, p)).Spent())
      && (state.Refunded? || state.Failed? ==> At(ledger, p).Returned?))
  }

  /** The ledger speaks of every participant, and targets are participants. */
  ghost predicate Covers(x: Setting, ledger: Ledger) {
    && x.leader in x.env.ring && ledger.Keys == x.env.ring.Keys
    && forall p {:trigger Target(x, p)} :: p in x.env.ring ==> Target(x, p) in ledger
  }

  /** Locked or later. */
  predicate PastSetup(state: SwapState) {
    state.AwaitingLockConfirmations? || state.AwaitingSecrets? || state.AwaitingLeaderSpend? || state.Claiming? || state.Terminal()
  }

  ghost predicate PartyOk(x: Setting, ledger: Ledger, revealed: bool, p: Pid, s: Session) {
    && Covers(x, ledger) && p in x.env.ring
    && Equipped(x, p, s) && SeenOnChain(s.locksConfirmed, ledger) && PastSetup(s.state)
    && RevealOk(x, p, s.state, s.locksConfirmed, revealed) && EndOk(x, ledger, p, s.state)
  }

  lemma EquippedKept(x: Setting, p: Pid, s: Session, s1: Session)
    requires Prepared(x, p, s1) && s1.adaptorSigs == s.adaptorSigs && Equipped(x, p, s)
    ensures Equipped(x, p, s1)
  {
    hide FundedSession;
  }

  lemma EquippedIs(x: Setting, p: Pid, s: Session)
    requires Equipped(x, p, s)
    ensures Prepared(x, p, s) && SignedOver(s, Spend(p), x.point) && SignedOver(s, Spend(x.leader), x.point)
  {
    hide Prepared;
  }

  lemma PreparedKept(x: Setting, p: Pid, s: Session, s1: Session)
    requires Prepared(x, p, s) && Keeps(s, s1)
    ensures Prepared(x, p, s1)
  {
    hide FundedSession;
    assert x.env == x.env;
    KeepsFunded(x.env, s, s1);
  }

  // ---------- messages ----------

  ghost predicate LeaderClaim(x: Setting, p: Pid, s: Session, subs: seq<Submission>, secret: Secret) {
    && p == x.leader && |subs| == 1 && subs[0].SubmitTx? && subs[0].role == Spend(p)
    && subs[0].tx.auth.Adapted? && subs[0].tx.auth.secret == secret
    && Spend(p) in s.adaptorSigs && subs[0].tx.auth.inputs == s.adaptorSigs[Spend(p)]
    && Spend(p) in s.unsignedTxs && subs[0].tx.tx == s.unsignedTxs[Spend(p)]
  }

  lemma ClaimIs(s: Session, secret: Secret, out: seq<WireMessage>)
    requires Spend(s.me) in s.adaptorSigs && Spend(s.me) in s.unsignedTxs
    ensures
      var o := ClaimWith(s, secret, out);
      && o.Ok? && o.out == out && |o.submitted| == 1
      && o.submitted[0].SubmitTx? && o.submitted[0].role == Spend(s.me)
      && o.submitted[0].tx.auth.Adapted? && o.submitted[0].tx.auth.secret == secret
      && o.submitted[0].tx.auth.inputs == s.adaptorSigs[Spend(s.me)] && o.submitted[0].tx.tx == s.unsignedTxs[Spend(s.me)]
      && o.session == s.(state := Completed, history := s.history + [Claiming] + [Completed], signedTxs := o.session.signedTxs)
      && s.signedTxs.Keys <= o.session.signedTxs.Keys
  {
  }

  /** All that a message can make a prepared party submit: its lock once more, or the leader's claim. */
  ghost predicate MaySubmit(x: Setting, p: Pid, s: Session, msg: WireMessage, from: Pid, subs: seq<Submission>) {
    || subs == []
    || (|subs| == 1 && subs[0].SubmitLock?)
    || (msg.SecretReveal? && HasAll(x.env.ring, s.secrets[from := msg.secret])
        && LeaderClaim(x, p, s, subs, x.env.sumSecrets(s.secrets[from := msg.secret])))
  }

  lemma SecretOk(x: Setting, ledger: Ledger, revealed: bool, p: Pid, s: Session, secret: Secret, from: Pid, o: Outcome)
    requires Covers(x, ledger) && p in x.env.ring && PartyOk(x, ledger, revealed, p, s)
    requires !s.state.Terminal() && o == OnSecretReveal(x.env, s, secret, from)
    ensures o.Ok? ==> PastSetup(o.session.state) && o.session.locksConfirmed == s.locksConfirmed
    ensures o.Ok? ==> RevealOk(x, p, o.session.state, s.locksConfirmed, revealed) && EndOk(x, ledger, p, o.session.state)
  {
    hide HasAll, ClaimWith, SeenOnChain, FundedSession;
    var s1 := s.(secrets := s.secrets[from := secret]);
    if !HasAll(x.env.ring, s1.secrets) {
      assert o == Ok(s1, [], []);
    } else if p == x.leader {
      assert o == ClaimWith(s1, x.env.sumSecrets(s1.secrets), [SpendTxBroadcast]);
      ReadyToClaim(x, p, s);
      ClaimIs(s1, x.env.sumSecrets(s1.secrets), [SpendTxBroadcast]);
    } else {
      assert o == Ok(s1.TransitionTo(AwaitingLeaderSpend), [], []);
    }
  }

  lemma ReadyToClaim(x: Setting, p: Pid, s: Session)
    requires Prepared(x, p, s)
    ensures Spend(p) in s.adaptorSigs && Spend(p) in s.unsignedTxs && p in x.env.ring && s.musig != map[]
    ensures p in s.secrets && x.env.ring.Keys <= s.lockTxs.Keys
    ensures SpendRight(x.env, x.leader, p, s.unsignedTxs[Spend(p)])
  {
    hide SpendRight, RefundRight, LockRight;
    SpendIsPrepared(x.env, s);
  }

  lemma SecretSubmits(x: Setting, p: Pid, s: Session, secret: Secret, from: Pid, o: Outcome)
    requires Prepared(x, p, s) && o == OnSecretReveal(x.env, s, secret, from)
    ensures o.Ok? && MaySubmit(x, p, s, SecretReveal(secret), from, o.submitted) && !Reveals(o.out)
  {
    hide HasAll, ClaimWith, FundedSession;
    ReadyToClaim(x, p, s);
    var s1 := s.(secrets := s.secrets[from := secret]);
    if !HasAll(x.env.ring, s1.secrets) {
      assert o == Ok(s1, [], []);
    } else if p == x.leader {
      assert o == ClaimWith(s1, x.env.sumSecrets(s1.secrets), [SpendTxBroadcast]);
      ClaimIs(s1, x.env.sumSecrets(s1.secrets), [SpendTxBroadcast]);
    } else {
      assert o == Ok(s1.TransitionTo(AwaitingLeaderSpend), [], []);
    }
  }

  /** Nothing but the own lock is submitted, no secret is broadcast, and whoever announces its lock waits for the
      confirmations. */
  ghost predicate FundsAtMost(o: Outcome) {
    o.Ok? ==>
      && !Reveals(o.out)
      && (o.submitted == [] || (o.session.me in o.session.lockTxs && o.submitted == [SubmitLock(o.session.lockTxs[o.session.me])]))
      && (LockTxBroadcast in o.out ==> o.session.state == AwaitingLockConfirmations)
  }

  lemma PointFunds(env: Env, s: Session, point: Point, from: Pid, draw: Draw)
    ensures FundsAtMost(OnAdaptorPoint(env, s, point, from, draw))
  {
    hide HasAll, ElectOnce, FundsAtMost;
    var s1 := s.(points := s.points[from := point]);
    ElectFunds(env, s1.TransitionTo(AwaitingLeaderElectionCommitments), draw);
    NothingFunds(s1);
  }

  lemma ElectFunds(env: Env, s: Session, draw: Draw)
    ensures FundsAtMost(ElectOnce(env, s, draw))
  {
    hide StartElection;
    if s.me !in s.leaderCommitments {
      var own := [LeaderElectionCommitment(env.sha256(draw.leaderNonce))];
      assert ElectOnce(env, s, draw) == Ok(StartElection(env, s, draw), own, []);
      assert !Reveals(own);
    } else {
      NothingFunds(s);
    }
  }

  lemma AddCommitmentFunds(env: Env, s: Session, out: seq<WireMessage>, commitment: Bytes32, from: Pid)
    requires !Reveals(out) && LockTxBroadcast !in out
    ensures FundsAtMost(AddCommitment(env, s, out, commitment, from))
  {
    hide HasAll;
    var o := AddCommitment(env, s, out, commitment, from);
    if o.Ok? && o.out != out {
      forall m {:trigger m in o.out} | m in o.out
        ensures !m.SecretReveal? && !m.LockTxBroadcast?
      {
        assert m in out || m.LeaderElectionNonce?;
      }
    }
  }

  lemma CommitmentFunds(env: Env, s: Session, commitment: Bytes32, from: Pid, draw: Draw)
    ensures FundsAtMost(OnCommitment(env, s, commitment, from, draw))
  {
    hide AddCommitment;
    var none: seq<WireMessage>, own := [], [LeaderElectionCommitment(env.sha256(draw.leaderNonce))];
    assert !Reveals(none) && !Reveals(own);
    if s.me !in s.leaderCommitments {
      AddCommitmentFunds(env, StartElection(env, s, draw).TransitionTo(AwaitingLeaderElectionCommitments), own, commitment, from);
    } else {
      AddCommitmentFunds(env, s, none, commitment, from);
    }
  }

  lemma BeginSessionFunds(env: Env, s: Session, draw: Draw)
    requires IsRing(env.ring)
    ensures FundsAtMost(BeginSession(env, s, draw))
  {
    hide IsRing, LocksBuildable, ElectedLeader, BeginSigning, NonceMessages, Locks, AllRoles;
    if LocksBuildable(env) {
      assert 0 < |env.ring| by { hide *; RingIsNotEmpty(env.ring); }
      var leader := ElectedLeader(env, s.leaderNonces);
      var out := NonceMessages(env, leader, s.me, draw, AllRoles(env));
      forall m {:trigger m in out} | m in out
        ensures m.SchnorrNonce?
      {
        var i :| 0 <= i < |out| && out[i] == m;
        NonceMessageAt(env, leader, s.me, draw, AllRoles(env), i);
      }
    }
  }

  lemma RingIsNotEmpty(ps: Participants)
    requires IsRing(ps)
    ensures 0 < |ps|
  {
  }

  lemma NonceFunds(env: Env, s: Session, nonce: Bytes32, from: Pid, draw: Draw)
    requires IsRing(env.ring)
    ensures FundsAtMost(OnLeaderNonce(env, s, nonce, from, draw))
  {
    hide IsRing, BeginSession, HasAll, FundsAtMost;
    var s1 := s.(leaderNonces := s.leaderNonces[from := nonce]);
    BeginSessionFunds(env, s1, draw);
    NothingFunds(s1);
    assert FundsAtMost(Panic) by { PanicFunds(); }
  }

  lemma NothingFunds(s: Session)
    ensures FundsAtMost(Ok(s, [], []))
  {
  }

  lemma PanicFunds()
    ensures FundsAtMost(Panic)
  {
  }

  lemma SchnorrFunds(env: Env, s: Session, role: TxRole, pub: PubNonce, from: Pid)
    ensures FundsAtMost(OnSchnorrNonce(env, s, role, pub, from))
  {
    hide AllOthersHave, GatheredInputs;
  }

  lemma PartialFunds(env: Env, s: Session, role: TxRole, sig: PartialSig, from: Pid, accepted: bool)
    ensures FundsAtMost(OnPartialSignature(env, s, role, sig, from, accepted))
  {
    hide AllOthersHave, AllSigned, FinalizeRole;
  }

  /** No message but a secret makes a session submit anything else than its lock. */
  lemma MessageFunds(env: Env, s: Session, msg: WireMessage, from: Pid, draw: Draw, accepted: bool)
    requires IsRing(env.ring) && !msg.SecretReveal?
    ensures FundsAtMost(HandleMessage(env, s, msg, from, draw, accepted))
  {
    hide IsRing, FundsAtMost, OnAdaptorPoint, OnCommitment, OnLeaderNonce, OnSchnorrNonce, OnPartialSignature;
    NothingFunds(s);
    if !s.state.Terminal() {
      match msg {
        case AdaptorPoint(point) => PointFunds(env, s, point, from, draw);
        case LeaderElectionCommitment(commitment) => CommitmentFunds(env, s, commitment, from, draw);
        case LeaderElectionNonce(nonce) => NonceFunds(env, s, nonce, from, draw);
        case SchnorrNonce(role, pub) => SchnorrFunds(env, s, role, pub, from);
        case PartialSignature(role, sig) => PartialFunds(env, s, role, sig, from, accepted);
        case LockTxBroadcast => NothingFunds(s.(locksBroadcast := s.locksBroadcast + {from}));
        case SpendTxBroadcast =>
      }
    }
  }

  lemma MessageSubmits(x: Setting, p: Pid, s: Session, msg: WireMessage, from: Pid, draw: Draw, accepted: bool, o: Outcome)
    requires IsRing(x.env.ring) && Prepared(x, p, s) && o == HandleMessage(x.env, s, msg, from, draw, accepted)
    ensures o.Ok? ==> !Reveals(o.out) && MaySubmit(x, p, s, msg, from, o.submitted)
  {
    hide IsRing, Prepared, LeaderClaim, HasAll, HandleMessage, Reveals;
    if msg.SecretReveal? {
      SecretHandled(x.env, s, msg.secret, from, draw, accepted);
      SecretSubmits(x, p, s, msg.secret, from, OnSecretReveal(x.env, s, msg.secret, from));
      assert !Reveals([]) by { NothingFunds(s); }
    } else {
      MessageFunds(x.env, s, msg, from, draw, accepted);
    }
  }

  lemma SecretHandled(env: Env, s: Session, secret: Secret, from: Pid, draw: Draw, accepted: bool)
    requires IsRing(env.ring)
    ensures HandleMessage(env, s, SecretReveal(secret), from, draw, accepted)
         == if s.state.Terminal() then Ok(s, [], []) else OnSecretReveal(env, s, secret, from)
  {
    hide IsRing, OnSecretReveal;
    if s.state.Terminal() {} else {}
  }

  /** Whatever message reaches a prepared party: it stays prepared unless it panics, broadcasts no secret,
      and submits no more than that. */
  lemma AnyMessage(x: Setting, p: Pid, s: Session, msg: WireMessage, from: Pid, draw: Draw, accepted: bool, o: Outcome)
    requires IsRing(x.env.ring) && Prepared(x, p, s) && o == HandleMessage(x.env, s, msg, from, draw, accepted)
    ensures o.Ok? ==> Prepared(x, p, o.session) && !Reveals(o.out) && MaySubmit(x, p, s, msg, from, o.submitted)
  {
    ReadyToClaim(x, p, s);
    hide IsRing, Prepared, FundedSession, Keeps, MaySubmit, HandleMessage;
    MessageKeeps(x.env, s, msg, from, draw, accepted);
    MessageSubmits(x, p, s, msg, from, draw, accepted, o);
    if o.Ok? {
      PreparedKept(x, p, s, o.session);
    }
  }

  lemma ConfirmedSame(env: Env, s: Session, msg: WireMessage, from: Pid, draw: Draw, accepted: bool)
    requires IsRing(env.ring)
    ensures KeepsConfirmed(s, HandleMessage(env, s, msg, from, draw, accepted))
  {
    hide IsRing, HandleMessage, FundsInStep;
    MessageEffect(env, s, msg, from, draw, accepted);
  }

  /** And changes no pre-signature. */
  lemma ToleratedSame(env: Env, s: Session, msg: WireMessage, from: Pid, draw: Draw, accepted: bool)
    requires IsRing(env.ring) && FundedSession(env, s) && Tolerated(env, s, msg, from)
    ensures SameSigs(s, HandleMessage(env, s, msg, from, draw, accepted))
  {
    assert s.musig != map[];
    hide IsRing, FundedSession, OnAdaptorPoint, OnCommitment, OnLeaderNonce, OnSchnorrNonce, OnPartialSignature, OnSecretReveal;
    if !s.state.Terminal() {
      MessageSameSigs(env, s, msg, from, draw, accepted);
    }
  }

  /** A message a funded session stands keeps all that safety needs. */
  lemma MessageOk(x: Setting, ledger: Ledger, revealed: bool, p: Pid, s: Session, msg: WireMessage, from: Pid, draw: Draw,
        accepted: bool, o: Outcome)
    requires IsRing(x.env.ring)
    requires Covers(x, ledger) && p in x.env.ring && PartyOk(x, ledger, revealed, p, s) && Tolerated(x.env, s, msg, from)
    requires o == HandleMessage(x.env, s, msg, from, draw, accepted)
    ensures o.Ok? && PartyOk(x, ledger, revealed, p, o.session)
  {
    assert FundedSession(x.env, s);
    ToleratedSame(x.env, s, msg, from, draw, accepted);
    hide IsRing, OnSecretReveal, SeenOnChain, RevealOk, EndOk, Covers, FundedSession, MaySubmit, Tolerated,
         OnAdaptorPoint, OnCommitment, OnLeaderNonce, OnSchnorrNonce, OnPartialSignature;
    ToleratedExactly(x.env, s, msg, from, draw, accepted, o);
    AnyMessage(x, p, s, msg, from, draw, accepted, o);
    EquippedKept(x, p, s, o.session);
    ConfirmedSame(x.env, s, msg, from, draw, accepted);
    if msg.SecretReveal? && !s.state.Terminal() {
      assert o == OnSecretReveal(x.env, s, msg.secret, from);
      SecretOk(x, ledger, revealed, p, s, msg.secret, from, o);
    } else if s.state.Terminal() {
      assert o == Ok(s, [], []);
    }
  }

  // ---------- polls ----------

  lemma LockPollAny(x: Setting, p: Pid, s: Session, owner: Pid, onChain: bool, o: Outcome)
    requires Prepared(x, p, s) && owner in x.env.ring && o == OnLockPoll(x.env, s, owner, onChain)
    ensures o.Ok? && o.submitted == [] && Prepared(x, p, o.session) && o.session.adaptorSigs == s.adaptorSigs
  {
    ReadyToClaim(x, p, s);
    hide AllConfirmed, Prepared, FundedSession, Keeps;
    var s1 := if onChain then s.(locksConfirmed := s.locksConfirmed + {owner}) else s;
    LockPollKeeps(x.env, s, owner, onChain);
    PollsSameSigs(x.env, s, owner, onChain, x.leader, None, false, false);
    assert o.Ok? && o.submitted == [] by { PreparedMe(x, p, s); }
    PreparedKept(x, p, s, o.session);
  }

  lemma PreparedMe(x: Setting, p: Pid, s: Session)
    requires Prepared(x, p, s)
    ensures s.me == p && s.leader == Some(x.leader) && Refund(p) in s.signedTxs
  {
  }

  lemma LockPollOk(x: Setting, ledger: Ledger, revealed: bool, p: Pid, s: Session, owner: Pid, onChain: bool, o: Outcome)
    requires Covers(x, ledger) && p in x.env.ring && PartyOk(x, ledger, revealed, p, s)
    requires owner in x.env.ring && (onChain ==> !At(ledger, owner).Absent?) && o == OnLockPoll(x.env, s, owner, onChain)
    ensures o.Ok? && PartyOk(x, ledger, revealed || Reveals(o.out), p, o.session)
    ensures Reveals(o.out) ==> p != x.leader
  {
    EquippedIs(x, p, s);
    LockPollAny(x, p, s, owner, onChain, o);
    ReadyToClaim(x, p, s);
    PreparedMe(x, p, s);
    EquippedKept(x, p, s, o.session);
    hide AllConfirmed, Prepared, FundedSession, Equipped;
    var s1 := if onChain then s.(locksConfirmed := s.locksConfirmed + {owner}) else s;
    if owner in s.locksConfirmed {
      assert o == Ok(s, [], []);
    } else {
      ConfirmedIsAll(x.env.ring, s1);
      ConfirmedIsAll(x.env.ring, s);
      if !AllConfirmed(x.env.ring, s1) {
        assert o == Ok(s1, [], []);
      } else if p != x.leader {
        var m := SecretReveal(s.secrets[p]);
        assert o == Ok(s1.TransitionTo(AwaitingLeaderSpend), [m], []);
        assert m in o.out;
      } else {
        assert o == Ok(s1.TransitionTo(AwaitingSecrets), [], []);
      }
    }
  }

  lemma ConfirmedIsAll(ring: Participants, s: Session)
    ensures AllConfirmed(ring, s) <==> ring.Keys <= s.locksConfirmed
  {
    if AllConfirmed(ring, s) {
      assert forall p :: p in ring.Keys ==> p in s.locksConfirmed;
    }
  }

  lemma SettleOne(x: Setting, ledger: Ledger, tip: Tip, subs: seq<Submission>)
    requires IsRing(x.env.ring) && Covers(x, ledger) && |subs| <= 1
    ensures subs == [] ==> SettleAll(x, ledger, tip, subs) == ledger
    ensures subs != [] ==> SettleAll(x, ledger, tip, subs) == Settle(x, ledger, tip, subs[0])
  {
    hide IsRing, Settle;
    if subs != [] {
      assert subs[..|subs| - 1] == [];
    }
  }

  /** What a valid claim of `p` does to the ledger. */
  lemma SettleClaim(x: Setting, ledger: Ledger, tip: Tip, subs: seq<Submission>, p: Pid)
    requires IsRing(x.env.ring) && Covers(x, ledger) && p in x.env.ring
    requires |subs| == 1 && subs[0].SubmitTx? && subs[0].role == Spend(p) && subs[0].tx.auth.Adapted?
    requires SpendRight(x.env, x.leader, p, subs[0].tx.tx)
    ensures SettleAll(x, ledger, tip, subs)
         == if At(ledger, Target(x, p)).Locked? && subs[0].tx.auth.inputs.adaptor == Some(x.point) && subs[0].tx.auth.secret == x.secret
            then ledger[Target(x, p) := Claimed] else ledger
  {
    hide IsRing, SpendRight;
    SettleOne(x, ledger, tip, subs);
  }

  lemma RefundHeld(x: Setting, p: Pid, s: Session)
    requires Prepared(x, p, s)
    ensures s.me == p && Refund(p) in s.signedTxs && RefundRight(x.env, x.leader, p, s.signedTxs[Refund(p)].tx)
  {
    hide IsRing, SpendRight, RefundRight, LockRight, AllSigned, HasAll;
  }

  /** The chain takes the refund of a prepared party exactly while its lock is there and from its refund height or
      slot on. */
  lemma RefundTakenIs(x: Setting, ledger: Ledger, tip: Tip, p: Pid, s: Session)
    requires IsRing(x.env.ring) && ledger.Keys == x.env.ring.Keys && x.leader in x.env.ring && p in x.env.ring && Prepared(x, p, s)
    ensures RefundTaken(x, ledger, tip, s) <==> At(ledger, p).Locked? && RefundAcceptable(x, p, tip)
  {
    RefundHeld(x, p, s);
    hide IsRing, RefundRight, TimelockPassed, ChainAcceptsRefund, Prepared;
    TimelockIs(x.env, x.leader, p, s.signedTxs[Refund(p)].tx, tip);
  }

  lemma SettleRefund(x: Setting, ledger: Ledger, tip: Tip, s: Session, p: Pid)
    requires IsRing(x.env.ring) && Covers(x, ledger) && p in x.env.ring && Prepared(x, p, s)
    ensures SettleAll(x, ledger, tip, RefundSubmission(s))
         == if At(ledger, p).Locked? && RefundAcceptable(x, p, tip) then ledger[p := Returned] else ledger
  {
    RefundHeld(x, p, s);
    RefundTakenIs(x, ledger, tip, p, s);
    hide IsRing, RefundAcceptable, Prepared, Accepts;
    SettleOne(x, ledger, tip, RefundSubmission(s));
  }

  lemma FoundClaims(x: Setting, ledger: Ledger, tip: Tip, p: Pid, s: Session, o: Outcome, ledger': Ledger)
    requires IsRing(x.env.ring) && Covers(x, ledger) && p in x.env.ring && s.me == p && Spend(p) in s.adaptorSigs && Spend(p) in s.unsignedTxs
          && SpendRight(x.env, x.leader, p, s.unsignedTxs[Spend(p)])
    requires s.state == AwaitingLeaderSpend && Found(x, ledger, s).Some?
    requires o == OnLeaderSpendPoll(s, x.leader, Found(x, ledger, s)) && (o.Ok? ==> ledger' == SettleAll(x, ledger, tip, o.submitted))
    ensures o.Ok? && o.out == [] && o.session.locksConfirmed == s.locksConfirmed && o.session.state == Completed
    ensures Target(x, p) in ledger
    ensures ledger' == if At(ledger, Target(x, p)).Locked? && SignedOver(s, Spend(p), x.point) then ledger[Target(x, p) := Claimed] else ledger
  {
    hide IsRing, ClaimWith, SettleAll, SpendRight;
    var s1 := s.(secrets := s.secrets[x.leader := x.secret]);
    assert o == ClaimWith(s1, x.secret, []);
    ClaimIs(s1, x.secret, []);
    SettleClaim(x, ledger, tip, o.submitted, p);
  }

  /** Looking for the leader's spend: it claims, if the spend is there, the party waits for it and can read it;
      the chain takes the claim if the own pre-signature is over the point. */
  lemma SpendPollAny(x: Setting, ledger: Ledger, tip: Tip, p: Pid, s: Session, o: Outcome, ledger': Ledger)
    requires IsRing(x.env.ring) && Covers(x, ledger) && p in x.env.ring && Prepared(x, p, s)
    requires o == OnLeaderSpendPoll(s, x.leader, Found(x, ledger, s))
    requires o.Ok? ==> ledger' == SettleAll(x, ledger, tip, o.submitted)
    ensures o.Ok? && o.out == [] && o.session.locksConfirmed == s.locksConfirmed && Prepared(x, p, o.session)
    ensures Target(x, p) in ledger && o.session.adaptorSigs == s.adaptorSigs
    ensures if s.state == AwaitingLeaderSpend && Found(x, ledger, s).Some? then
              && o.session.state == Completed
              && ledger' == if At(ledger, Target(x, p)).Locked? && SignedOver(s, Spend(p), x.point) then ledger[Target(x, p) := Claimed]
                            else ledger
            else o.session == s && ledger' == ledger
  {
    ReadyToClaim(x, p, s);
    PreparedMe(x, p, s);
    hide IsRing, ClaimWith, Prepared, FundedSession, Keeps, SignedOver, SettleAll;
    SpendPollKeeps(s, x.leader, Found(x, ledger, s));
    PollsSameSigs(x.env, s, p, false, x.leader, Found(x, ledger, s), false, false);
    if s.state == AwaitingLeaderSpend && Found(x, ledger, s).Some? {
      FoundClaims(x, ledger, tip, p, s, o, ledger');
    } else {
      assert o == Ok(s, [], []);
      var none: seq<Submission> := [];
      SettleOne(x, ledger, tip, none);
    }
    PreparedKept(x, p, s, o.session);
  }

  lemma SpendPollOk(x: Setting, ledger: Ledger, tip: Tip, revealed: bool, p: Pid, s: Session, o: Outcome, ledger': Ledger)
    requires IsRing(x.env.ring) && Covers(x, ledger) && p in x.env.ring && PartyOk(x, ledger, revealed, p, s)
    requires o == OnLeaderSpendPoll(s, x.leader, Found(x, ledger, s)) && (o.Ok? ==> ledger' == SettleAll(x, ledger, tip, o.submitted))
    requires p != x.leader && Published(x, ledger) ==> revealed
    ensures o.Ok? && Covers(x, ledger') && PartyOk(x, ledger', revealed, p, o.session)
    ensures p != x.leader && Published(x, ledger) ==> o.session.state.Terminal()
  {
    hide IsRing, OnLeaderSpendPoll, Prepared, SettleAll, Equipped, SignedOver;
    EquippedIs(x, p, s);
    SpendPollAny(x, ledger, tip, p, s, o, ledger');
    EquippedKept(x, p, s, o.session);
    if s.state == AwaitingLeaderSpend && Published(x, ledger) {
      var t := Target(x, p);
      assert p != x.leader ==> t in s.locksConfirmed;
      assert ledger' == ledger || (At(ledger, t).Locked? && ledger' == ledger[t := Claimed]);
      ClaimSeen(x, ledger, ledger', t, p, s.locksConfirmed);
    } else {
      assert o.session == s;
    }
  }

  /** A claim leaves confirmed what was confirmed, and published what was published. */
  lemma ClaimSeen(x: Setting, ledger: Ledger, ledger': Ledger, t: Pid, p: Pid, confirmed: set<Pid>)
    requires Covers(x, ledger) && t in x.env.ring && SeenOnChain(confirmed, ledger) && Published(x, ledger)
    requires ledger' == ledger || (At(ledger, t).Locked? && ledger' == ledger[t := Claimed])
    ensures Covers(x, ledger') && SeenOnChain(confirmed, ledger') && Published(x, ledger')
    ensures t in confirmed && (ledger' == ledger ==> !At(ledger, t).Locked?) ==> At(ledger', t).Spent()
  {
  }

  lemma ReturnSeen(x: Setting, ledger: Ledger, p: Pid, confirmed: set<Pid>)
    requires Covers(x, ledger) && p in x.env.ring && SeenOnChain(confirmed, ledger) && At(ledger, p).Locked?
    ensures Covers(x, ledger[p := Returned]) && SeenOnChain(confirmed, ledger[p := Returned])
    ensures Published(x, ledger) ==> Published(x, ledger[p := Returned])
  {
  }

  lemma RefundPollAny(x: Setting, ledger: Ledger, tip: Tip, p: Pid, s: Session, accepted: bool, o: Outcome, ledger': Ledger)
    requires IsRing(x.env.ring) && Covers(x, ledger) && p in x.env.ring && Prepared(x, p, s)
    requires accepted == RefundTaken(x, ledger, tip, s)
    requires o == OnRefundPoll(s, WindowOpen(x, p, tip), accepted) && (o.Ok? ==> ledger' == SettleAll(x, ledger, tip, o.submitted))
    ensures o.Ok? && o.out == [] && o.session.locksConfirmed == s.locksConfirmed && Prepared(x, p, o.session)
    ensures o.session.adaptorSigs == s.adaptorSigs
    ensures if s.state.Terminal() || !WindowOpen(x, p, tip) then o.session == s && ledger' == ledger
            else
              && RefundAcceptable(x, p, tip)
              && o.session.state == (if At(ledger, p).Locked? then Refunded else Failed)
              && ledger' == if At(ledger, p).Locked? then ledger[p := Returned] else ledger
  {
    ReadyToClaim(x, p, s);
    PreparedMe(x, p, s);
    RefundTakenIs(x, ledger, tip, p, s);
    hide IsRing, RefundSubmission, RefundAcceptable, WindowOpen, Prepared, FundedSession, Keeps, RefundTaken;
    RefundPollKeeps(s, WindowOpen(x, p, tip), accepted);
    PollsSameSigs(x.env, s, p, false, x.leader, None, WindowOpen(x, p, tip), accepted);
    var none: seq<Submission> := [];
    SettleOne(x, ledger, tip, none);
    if s.state.Terminal() || !WindowOpen(x, p, tip) {
      assert o == Ok(s, [], []);
    } else {
      var next := if accepted then Refunded else Failed;
      assert o == Ok(s.TransitionTo(next), [], RefundSubmission(s));
      SettleRefund(x, ledger, tip, s, p);
      OpenIsAcceptable(x, p, tip);
    }
    PreparedKept(x, p, s, o.session);
  }

  /** The window poll returns the own lock, unless the party is done or the lock is spent. */
  lemma RefundPollOk(x: Setting, ledger: Ledger, tip: Tip, revealed: bool, p: Pid, s: Session, accepted: bool, o: Outcome, ledger': Ledger)
    requires IsRing(x.env.ring) && Covers(x, ledger) && p in x.env.ring && PartyOk(x, ledger, revealed, p, s)
    requires p in s.locksConfirmed && accepted == RefundTaken(x, ledger, tip, s)
    requires o == OnRefundPoll(s, WindowOpen(x, p, tip), accepted) && (o.Ok? ==> ledger' == SettleAll(x, ledger, tip, o.submitted))
    requires p != x.leader && Published(x, ledger) ==> s.state.Terminal()
    requires (At(ledger, p).Claimed? ==> Published(x, ledger)) && !At(ledger, p).Taken?
    ensures Covers(x, ledger') && PartyOk(x, ledger', revealed, p, o.session)
    ensures p != x.leader && WindowOpen(x, p, tip) && !s.state.Terminal() ==> At(ledger', p).Returned?
  {
    hide IsRing, RefundAcceptable, WindowOpen, Prepared, Equipped, OnRefundPoll, SettleAll, SignedOver, RefundTaken;
    EquippedIs(x, p, s);
    RefundPollAny(x, ledger, tip, p, s, accepted, o, ledger');
    EquippedKept(x, p, s, o.session);
    if s.state.Terminal() || !WindowOpen(x, p, tip) {
      assert o.session == s;
    } else {
      assert !At(ledger, p).Absent?;
      if At(ledger, p).Locked? {
        ReturnSeen(x, ledger, p, s.locksConfirmed);
      }
    }
  }

  /** Whatever the daemon calls open, the chain accepts. */
  lemma OpenIsAcceptable(x: Setting, p: Pid, tip: Tip)
    requires IsRing(x.env.ring) && x.leader in x.env.ring && p in x.env.ring && WindowOpen(x, p, tip)
    ensures RefundAcceptable(x, p, tip)
  {
    hide IsRing, RefundLocktimeBtc, RefundLocktimeCardano;
  }
}
