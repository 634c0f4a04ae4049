/** What the handlers do to a session whatever the session and whatever the message: these facts need
    no honest peer and no order of messages. */
module Effects {
  import opened Ring
  import opened Protocol

  function FundingCount(history: seq<SwapState>): nat {
    if history == [] then 0
    else FundingCount(history[..|history| - 1]) + if history[|history| - 1] == Funding then 1 else 0
  }

  function LockSubmissions(submitted: seq<Submission>): nat {
    if submitted == [] then 0
    else LockSubmissions(submitted[..|submitted| - 1]) + if submitted[|submitted| - 1].SubmitLock? then 1 else 0
  }

  lemma CountLast(history: seq<SwapState>, next: SwapState)
    ensures FundingCount(history + [next]) == FundingCount(history) + if next == Funding then 1 else 0
  {
    assert (history + [next])[..|history|] == history;
  }

  lemma CountLastTwo(history: seq<SwapState>, next: SwapState, after: SwapState)
    ensures FundingCount(history + [next] + [after]) == FundingCount(history + [next]) + if after == Funding then 1 else 0
  {
    CountLast(history + [next], after);
  }

  lemma {:induction false} SubmissionsAdd(a: seq<Submission>, b: seq<Submission>)
    ensures LockSubmissions(a + b) == LockSubmissions(a) + LockSubmissions(b)
  {
    if b == [] {
      assert a + b == a;
    } else {
      assert (a + b)[..|a + b| - 1] == a + b[..|b| - 1];
      SubmissionsAdd(a, b[..|b| - 1]);
    }
  }

  lemma OneSubmission(x: Submission)
    ensures LockSubmissions([x]) == (if x.SubmitLock? then 1 else 0) && LockSubmissions([]) == 0
  {
    assert [x][..0] == [];
  }

  lemma LockSubmitted()
    ensures LockSubmissions([]) == 0
    ensures forall lock: LockTx {:trigger SubmitLock(lock)} :: LockSubmissions([SubmitLock(lock)]) == 1
  {
    forall lock: LockTx {:trigger SubmitLock(lock)}
      ensures LockSubmissions([SubmitLock(lock)]) == 1
    {
      OneSubmission(SubmitLock(lock));
    }
  }

  /** The party stays the same, and the lock is submitted exactly when `Funding` is recorded. */
  ghost predicate FundsInStep(s: Session, o: Outcome) {
    o.Ok? ==>
      && o.session.me == s.me
      && FundingCount(o.session.history) == FundingCount(s.history) + LockSubmissions(o.submitted)
  }

  /** Messages never confirm a lock: that takes a poll. */
  ghost predicate KeepsConfirmed(s: Session, o: Outcome) {
    o.Ok? ==> o.session.locksConfirmed == s.locksConfirmed
  }

  lemma {:induction false} BeginSigningFrame(env: Env, leader: Pid, s: Session, draw: Draw, roles: seq<TxRole>)
    requires IsRing(env.ring) && leader in env.ring && LocksBuildable(env)
    requires forall r :: r in roles ==> RoleInRing(env, r)
    ensures
      var t := BeginSigning(env, leader, s, draw, roles);
      t.me == s.me && t.history == s.history && t.locksConfirmed == s.locksConfirmed
  {
    hide IsRing, LocksBuildable, UnsignedFor, MessageFor, TweakFor, NewNonce;
    if roles != [] {
      var n := |roles| - 1;
      assert roles[n] in roles && forall r :: r in roles[..n] ==> r in roles;
      BeginSigningFrame(env, leader, s, draw, roles[..n]);
    }
  }

  lemma BeginSessionEffect(env: Env, s: Session, draw: Draw)
    requires IsRing(env.ring)
    ensures FundsInStep(s, BeginSession(env, s, draw)) && KeepsConfirmed(s, BeginSession(env, s, draw))
  {
    hide IsRing, LocksBuildable, ElectedLeader, BeginSigning, NonceMessages, Locks, AllRoles, FundingCount;
    if LocksBuildable(env) {
      assert 0 < |env.ring| by { RingHasSome(env.ring); }
      var leader := ElectedLeader(env, s.leaderNonces);
      var s2 := s.(leader := Some(leader)).TransitionTo(RefundAndSpendTxsSigning);
      BeginSigningFrame(env, leader, s2.(lockTxs := s2.lockTxs + Locks(env, leader)), draw, AllRoles(env));
      CountLast(s.history, RefundAndSpendTxsSigning);
    }
  }

  lemma RingHasSome(ps: Participants)
    requires IsRing(ps)
    ensures 0 < |ps|
  {
  }

  lemma PointEffect(env: Env, s: Session, point: Point, from: Pid, draw: Draw)
    ensures FundsInStep(s, OnAdaptorPoint(env, s, point, from, draw)) && KeepsConfirmed(s, OnAdaptorPoint(env, s, point, from, draw))
  {
    hide FundingCount, HasAll;
    CountLast(s.history, AwaitingLeaderElectionCommitments);
  }

  lemma AddCommitmentEffect(env: Env, s: Session, out: seq<WireMessage>, commitment: Bytes32, from: Pid)
    ensures FundsInStep(s, AddCommitment(env, s, out, commitment, from)) && KeepsConfirmed(s, AddCommitment(env, s, out, commitment, from))
  {
    hide FundingCount, HasAll, LockSubmissions;
    LockSubmitted();
    CountLast(s.history, AwaitingLeaderElectionNonces);
    var commitments := s.leaderCommitments[from := commitment];
    if !HasAll(env.ring, commitments) || s.state == AwaitingLeaderElectionNonces {
    } else if s.me !in s.leaderNonces {
    } else {
    }
  }

  lemma CommitmentEffect(env: Env, s: Session, commitment: Bytes32, from: Pid, draw: Draw)
    ensures FundsInStep(s, OnCommitment(env, s, commitment, from, draw)) && KeepsConfirmed(s, OnCommitment(env, s, commitment, from, draw))
  {
    hide FundingCount, HasAll, LockSubmissions, AddCommitment;
    if s.me !in s.leaderCommitments {
      CountLast(s.history, AwaitingLeaderElectionCommitments);
      var s1 := StartElection(env, s, draw).TransitionTo(AwaitingLeaderElectionCommitments);
      AddCommitmentEffect(env, s1, [LeaderElectionCommitment(env.sha256(draw.leaderNonce))], commitment, from);
    } else {
      AddCommitmentEffect(env, s, [], commitment, from);
    }
  }

  lemma NonceEffect(env: Env, s: Session, nonce: Bytes32, from: Pid, draw: Draw)
    requires IsRing(env.ring)
    ensures FundsInStep(s, OnLeaderNonce(env, s, nonce, from, draw)) && KeepsConfirmed(s, OnLeaderNonce(env, s, nonce, from, draw))
  {
    hide FundingCount, HasAll, BeginSession, IsRing;
    BeginSessionEffect(env, s.(leaderNonces := s.leaderNonces[from := nonce]), draw);
  }

  lemma SchnorrEffect(env: Env, s: Session, role: TxRole, pub: PubNonce, from: Pid)
    ensures FundsInStep(s, OnSchnorrNonce(env, s, role, pub, from)) && KeepsConfirmed(s, OnSchnorrNonce(env, s, role, pub, from))
  {
    hide FundingCount, AllOthersHave, GatheredInputs;
  }

  lemma FundEffect(env: Env, s: Session, accepted: bool)
    ensures FundsInStep(s, Fund(env, s, accepted)) && KeepsConfirmed(s, Fund(env, s, accepted))
  {
    hide FundingCount, LockSubmissions;
    CountLast(s.history, Funding);
    CountLastTwo(s.history, Funding, AwaitingLockConfirmations);
    CountLastTwo(s.history, Funding, Failed);
    LockSubmitted();
  }

  lemma PartialEffect(env: Env, s: Session, role: TxRole, sig: PartialSig, from: Pid, accepted: bool)
    ensures FundsInStep(s, OnPartialSignature(env, s, role, sig, from, accepted))
    ensures KeepsConfirmed(s, OnPartialSignature(env, s, role, sig, from, accepted))
  {
    hide FundingCount, AllOthersHave, AddsUp, AllSigned, GatheredInputs, Fund;
    var s1 := s.(partials := s.partials[(from, role) := sig]);
    var f := if AllOthersHave(env.ring, s.me, s1.partials, role) then FinalizeRole(env, s1, role) else Ok(s1, [], []);
    if f.Ok? {
      FundEffect(env, f.session, accepted);
    }
  }

  lemma AdaptFrame(s: Session, secret: Secret)
    ensures
      var o := AdaptMySpend(s, secret);
      o.Ok? ==> o.session == s.(signedTxs := o.session.signedTxs)
  {
  }

  lemma SpendIsNoLock(s: Session)
    ensures LockSubmissions(SpendSubmission(s)) == 0
  {
    hide LockSubmissions;
    LockSubmitted();
    if Spend(s.me) in s.signedTxs {
      OneSubmission(SubmitTx(Spend(s.me), s.signedTxs[Spend(s.me)]));
    }
  }

  lemma ClaimEffect(s: Session, secret: Secret, out: seq<WireMessage>)
    ensures FundsInStep(s, ClaimWith(s, secret, out)) && KeepsConfirmed(s, ClaimWith(s, secret, out))
  {
    hide FundingCount, LockSubmissions, AdaptMySpend, SpendSubmission;
    AdaptFrame(s, secret);
    var o := AdaptMySpend(s, secret);
    if o.Ok? {
      CountLast(s.history, Claiming);
      CountLastTwo(s.history, Claiming, Completed);
      SpendIsNoLock(o.session);
    }
  }

  lemma SecretEffect(env: Env, s: Session, secret: Secret, from: Pid)
    ensures FundsInStep(s, OnSecretReveal(env, s, secret, from)) && KeepsConfirmed(s, OnSecretReveal(env, s, secret, from))
  {
    hide FundingCount, HasAll, LockSubmissions, ClaimWith;
    var s1 := s.(secrets := s.secrets[from := secret]);
    ClaimEffect(s1, env.sumSecrets(s1.secrets), [SpendTxBroadcast]);
    CountLast(s.history, AwaitingLeaderSpend);
    LockSubmitted();
    if HasAll(env.ring, s1.secrets) {
      match s1.leader {
        case None =>
        case Some(leader) => if s.me == leader {} else {}
      }
    } else {
    }
  }

  lemma MessageEffect(env: Env, s: Session, msg: WireMessage, from: Pid, draw: Draw, accepted: bool)
    requires IsRing(env.ring)
    ensures FundsInStep(s, HandleMessage(env, s, msg, from, draw, accepted))
    ensures KeepsConfirmed(s, HandleMessage(env, s, msg, from, draw, accepted))
  {
    hide IsRing, FundingCount, OnAdaptorPoint, OnCommitment, OnLeaderNonce, OnSchnorrNonce, OnPartialSignature,
         OnSecretReveal;
    match msg {
      case AdaptorPoint(point) => PointEffect(env, s, point, from, draw);
      case LeaderElectionCommitment(commitment) => CommitmentEffect(env, s, commitment, from, draw);
      case LeaderElectionNonce(nonce) => NonceEffect(env, s, nonce, from, draw);
      case SchnorrNonce(role, pub) => SchnorrEffect(env, s, role, pub, from);
      case PartialSignature(role, sig) => PartialEffect(env, s, role, sig, from, accepted);
      case LockTxBroadcast =>
      case SecretReveal(secret) => SecretEffect(env, s, secret, from);
      case SpendTxBroadcast =>
    }
  }

  lemma LockPollEffect(env: Env, s: Session, p: Pid, onChain: bool)
    ensures FundsInStep(s, OnLockPoll(env, s, p, onChain))
    ensures OnLockPoll(env, s, p, onChain).Ok? ==>
              OnLockPoll(env, s, p, onChain).session.locksConfirmed == if onChain then s.locksConfirmed + {p} else s.locksConfirmed
  {
    hide FundingCount, AllConfirmed, LockSubmissions;
    LockSubmitted();
    CountLast(s.history, AwaitingLeaderSpend);
    CountLast(s.history, AwaitingSecrets);
    if s.leader != Some(s.me) {} else {}
  }

  lemma LeaderSpendPollEffect(s: Session, leader: Pid, found: Option<Secret>)
    ensures FundsInStep(s, OnLeaderSpendPoll(s, leader, found)) && KeepsConfirmed(s, OnLeaderSpendPoll(s, leader, found))
  {
    hide FundingCount, LockSubmissions, ClaimWith;
    LockSubmitted();
    if s.state == AwaitingLeaderSpend && found.Some? {
      ClaimEffect(s.(secrets := s.secrets[leader := found.value]), found.value, []);
    } else {
    }
  }

  lemma RefundIsNoLock(s: Session)
    ensures LockSubmissions(RefundSubmission(s)) == 0
  {
    hide LockSubmissions;
    LockSubmitted();
    if Refund(s.me) in s.signedTxs {
      OneSubmission(SubmitTx(Refund(s.me), s.signedTxs[Refund(s.me)]));
    }
  }

  lemma RefundPollEffect(s: Session, open: bool, accepted: bool)
    ensures FundsInStep(s, OnRefundPoll(s, open, accepted)) && KeepsConfirmed(s, OnRefundPoll(s, open, accepted))
  {
    hide FundingCount, LockSubmissions, RefundSubmission;
    CountLast(s.history, Refunded);
    CountLast(s.history, Failed);
    LockSubmitted();
    RefundIsNoLock(s);
    var o := OnRefundPoll(s, open, accepted);
    if s.state.Terminal() || !open {
      assert o == Ok(s, [], []);
    } else {
      assert o.Ok? && o.session == s.TransitionTo(o.session.state);
    }
  }

  lemma StartEffect(s: Session)
    ensures FundsInStep(s, Start(s)) && KeepsConfirmed(s, Start(s))
  {
    hide FundingCount, LockSubmissions;
    CountLast(s.history, AwaitingAdaptorPoints);
    LockSubmitted();
    if s.me !in s.points {
    } else if s.state == Initialized {
    } else {
    }
  }

  // ---------- what order and single delivery are for ----------

  /** The guard before funding looks at the partial signatures of the refunds, not at the signed refund. So
      when the one that completes it is for the own refund, the party funds in any case, and has its
      refund exactly when that role was in its second round. */
  lemma RefundGuardIsBlind(env: Env, s: Session, sig: PartialSig, from: Pid, accepted: bool, s1: Session, o: Outcome)
    requires s1 == s.(partials := s.partials[(from, Refund(s.me)) := sig]) && s.me in env.ring
    requires AllSigned(env.ring, s1) && Refund(s.me) !in s.signedTxs
    requires o == OnPartialSignature(env, s, Refund(s.me), sig, from, accepted) && o.Ok?
    ensures FundingCount(o.session.history) == FundingCount(s.history) + 1
    ensures Refund(s.me) in o.session.signedTxs <==> Refund(s.me) in s.musig && s.musig[Refund(s.me)].RoundTwo?
  {
    var role := Refund(s.me);
    assert AllOthersHave(env.ring, s.me, s1.partials, role);
    var finalized := FinalizeRole(env, s1, role);
    assert finalized.Ok?;
    var s2 := finalized.session;
    if role in s.musig && s.musig[role].RoundTwo? {
      assert s2 == s1.(signedTxs := s2.signedTxs) && role in s2.signedTxs;
    } else {
      assert s2 == s1;
    }
    assert AllSigned(env.ring, s2);
    assert o == Fund(env, s2, accepted);
    FundCounts(env, s2, accepted);
  }

  lemma FundCounts(env: Env, s: Session, accepted: bool)
    ensures
      var o := Fund(env, s, accepted);
      o.Ok? ==> FundingCount(o.session.history) == FundingCount(s.history) + 1 && o.session.signedTxs == s.signedTxs
  {
    hide FundingCount;
    CountLast(s.history, Funding);
    CountLastTwo(s.history, Funding, AwaitingLockConfirmations);
    CountLastTwo(s.history, Funding, Failed);
    var o := Fund(env, s, accepted);
    if s.me !in s.lockTxs {
      assert o == Panic;
    } else if accepted {
      assert o.Ok? && o.session.history == s.history + [Funding] + [AwaitingLockConfirmations];
    } else {
      assert o.Ok? && o.session.history == s.history + [Funding] + [Failed];
    }
  }

  /** A partial signature handled twice, once everything is signed, submits the lock twice. */
  lemma RepeatFundsAgain(env: Env, s: Session, role: TxRole, from: Pid, draw: Draw, accepted: bool, o: Outcome)
    requires IsRing(env.ring) && AllSigned(env.ring, s) && !s.state.Terminal()
    requires (from, role) in s.partials
    requires o == HandleMessage(env, s, PartialSignature(role, s.partials[(from, role)]), from, draw, accepted) && o.Ok?
    ensures LockSubmissions(o.submitted) == 1 && FundingCount(o.session.history) == FundingCount(s.history) + 1
  {
    hide IsRing;
    var s1 := s.(partials := s.partials[(from, role) := s.partials[(from, role)]]);
    assert s1.partials == s.partials;
    assert s1 == s;
    var finalized := if AllOthersHave(env.ring, s.me, s.partials, role) then FinalizeRole(env, s, role) else Ok(s, [], []);
    assert finalized.Ok?;
    var s2 := finalized.session;
    FinalizeMakesMore(env, s, role);
    assert AllSigned(env.ring, s2);
    assert o == Fund(env, s2, accepted);
    FundCounts(env, s2, accepted);
    FundEffect(env, s2, accepted);
  }

  lemma FinalizeMakesMore(env: Env, s: Session, role: TxRole)
    ensures
      var o := FinalizeRole(env, s, role);
      o.Ok? ==> o.session.history == s.history && o.session.me == s.me && o.session.partials == s.partials
                && s.adaptorSigs.Keys <= o.session.adaptorSigs.Keys
  {
    var o := FinalizeRole(env, s, role);
    if role in s.musig && s.musig[role].RoundTwo? && o.Ok? {
      if role.Spend? {
        assert o == Ok(s.(adaptorSigs := s.adaptorSigs[role := GatheredInputs(env, s, role)]), [], []);
      } else {
        assert o.session == s.(signedTxs := o.session.signedTxs);
      }
    } else if !(role in s.musig && s.musig[role].RoundTwo?) {
      assert o == Ok(s, [], []);
    }
  }
}
