/** A session that has funded, and everything that may still arrive: which messages leave it alone, which
    ones do not, and what no message takes away. Peers may send anything, in any order. */
module FundedSessions {
  import opened Ring
  import opened Protocol
  import opened Contents
  import opened Effects

  /** What a session has once it has funded, whoever its peers are. */
  ghost predicate FundedSession(env: Env, s: Session) {
    && s.me in env.ring && s.me in s.secrets && s.leader.Some? && s.musig != map[]
    && HasAll(env.ring, s.leaderCommitments) && s.me in s.leaderNonces
    && AllSigned(env.ring, s) && env.ring.Keys <= s.lockTxs.Keys
    && OwnRight(env, s.leader.value, s.me, s.lockTxs, s.unsignedTxs, s.signedTxs)
  }

  /** The own lock, refund and spend say what they should. */
  ghost predicate OwnRight(env: Env, leader: Pid, me: Pid, locks: map<Pid, LockTx>, unsigned: map<TxRole, UnsignedTx>,
                           signed: map<TxRole, SignedTx>) {
    && me in locks && LockRight(env, leader, me, locks[me])
    && Spend(me) in unsigned && SpendRight(env, leader, me, unsigned[Spend(me)])
    && Refund(me) in unsigned && RefundRight(env, leader, me, unsigned[Refund(me)])
    && (Refund(me) in signed ==> RefundRight(env, leader, me, signed[Refund(me)].tx))
  }

  // ---------- which messages a funded session stands ----------

  /** The messages that do no harm to a funded session: checked on the session as it is, before handling. */
  predicate Tolerated(env: Env, s: Session, msg: WireMessage, from: Pid) {
    s.state.Terminal() ||
    match msg
    case AdaptorPoint(point) => !s.state.AwaitingAdaptorPoints? || !HasAll(env.ring, s.points[from := point])
    case LeaderElectionCommitment(_) => s.state.AwaitingLeaderElectionNonces?
    case LeaderElectionNonce(nonce) => from in s.leaderCommitments && env.sha256(nonce) == s.leaderCommitments[from]
    case PartialSignature(_, _) => false
    case _ => true
  }

  /** No panic, no other state except through a secret, and no second submission of the lock. */
  ghost predicate Harmless(s: Session, msg: WireMessage, o: Outcome) {
    && o.Ok? && LockSubmissions(o.submitted) == 0
    && (!msg.SecretReveal? ==> o.session.state == s.state && o.session.history == s.history)
  }

  /** The tolerated messages are exactly the harmless ones. */
  lemma ToleratedExactly(env: Env, s: Session, msg: WireMessage, from: Pid, draw: Draw, accepted: bool, o: Outcome)
    requires IsRing(env.ring) && FundedSession(env, s)
    requires o == HandleMessage(env, s, msg, from, draw, accepted)
    ensures Harmless(s, msg, o) <==> Tolerated(env, s, msg, from)
  {
    assert s.musig != map[];
    hide IsRing, FundedSession, Harmless, OnAdaptorPoint, OnCommitment, OnLeaderNonce, OnSchnorrNonce,
         OnPartialSignature, OnSecretReveal, HasAll;
    Nothing(s, msg);
    if s.state.Terminal() {
      assert o == Ok(s, [], []);
    } else {
      match msg {
        case AdaptorPoint(point) => PointMayMoveOn(env, s, point, from, draw);
        case LeaderElectionCommitment(commitment) => CommitmentSetsBack(env, s, commitment, from, draw);
        case LeaderElectionNonce(nonce) => NonceMayPanic(env, s, nonce, from, draw);
        case SchnorrNonce(role, pub) => SchnorrIsHarmless(env, s, role, pub, from);
        case PartialSignature(role, sig) => PartialHurts(env, s, role, sig, from, accepted);
        case LockTxBroadcast => NothingBut(s, s.(locksBroadcast := s.locksBroadcast + {from}), msg);
        case SecretReveal(secret) => SecretIsHarmless(env, s, secret, from);
        case SpendTxBroadcast =>
      }
    }
  }

  lemma Nothing(s: Session, msg: WireMessage)
    ensures Harmless(s, msg, Ok(s, [], []))
  {
  }

  lemma NothingBut(s: Session, s1: Session, msg: WireMessage)
    requires s1.state == s.state && s1.history == s.history
    ensures Harmless(s, msg, Ok(s1, [], []))
  {
  }

  lemma PointMayMoveOn(env: Env, s: Session, point: Point, from: Pid, draw: Draw)
    requires FundedSession(env, s)
    ensures Harmless(s, AdaptorPoint(point), OnAdaptorPoint(env, s, point, from, draw))
       <==> !s.state.AwaitingAdaptorPoints? || !HasAll(env.ring, s.points[from := point])
  {
    assert s.me in s.leaderCommitments;
    hide HasAll, AllSigned, LockSubmissions;
    NoSubmission();
    var s1 := s.(points := s.points[from := point]);
    var o := OnAdaptorPoint(env, s, point, from, draw);
    if s.state.AwaitingAdaptorPoints? && HasAll(env.ring, s1.points) {
      assert o == Ok(s1.TransitionTo(AwaitingLeaderElectionCommitments), [], []);
    } else {
      assert o == Ok(s1, [], []);
    }
  }

  /** A commitment takes a funded session back to the election, unless it is back there already. */
  lemma CommitmentSetsBack(env: Env, s: Session, commitment: Bytes32, from: Pid, draw: Draw)
    requires FundedSession(env, s)
    ensures var o := OnCommitment(env, s, commitment, from, draw);
            && o.Ok? && o.session.state == AwaitingLeaderElectionNonces
            && (Harmless(s, LeaderElectionCommitment(commitment), o) <==> s.state.AwaitingLeaderElectionNonces?)
  {
    hide AllSigned, LockSubmissions;
    var o := OnCommitment(env, s, commitment, from, draw);
    var s1 := s.(leaderCommitments := s.leaderCommitments[from := commitment]);
    assert s.me in s.leaderCommitments;
    assert HasAll(env.ring, s1.leaderCommitments);
    NoSubmission();
    if s.state == AwaitingLeaderElectionNonces {
      assert o == Ok(s1, [], []);
    } else {
      assert o == Ok(s1.TransitionTo(AwaitingLeaderElectionNonces), [LeaderElectionNonce(s1.leaderNonces[s.me])], []);
    }
  }

  lemma NoSubmission()
    ensures LockSubmissions([]) == 0
  {
  }

  /** A nonce panics exactly when it does not match a stored commitment. */
  lemma NonceMayPanic(env: Env, s: Session, nonce: Bytes32, from: Pid, draw: Draw)
    requires IsRing(env.ring) && s.musig != map[]
    ensures var o := OnLeaderNonce(env, s, nonce, from, draw);
            var matches := from in s.leaderCommitments && env.sha256(nonce) == s.leaderCommitments[from];
            && (o.Panic? <==> !matches)
            && (Harmless(s, LeaderElectionNonce(nonce), o) <==> matches)
  {
    hide IsRing, BeginSession, HasAll;
    var o := OnLeaderNonce(env, s, nonce, from, draw);
    if from in s.leaderCommitments && env.sha256(nonce) == s.leaderCommitments[from] {
      assert o == Ok(s.(leaderNonces := s.leaderNonces[from := nonce]), [], []);
    } else {
      assert o == Panic;
    }
  }

  lemma SchnorrIsHarmless(env: Env, s: Session, role: TxRole, pub: PubNonce, from: Pid)
    ensures Harmless(s, SchnorrNonce(role, pub), OnSchnorrNonce(env, s, role, pub, from))
  {
    hide AllOthersHave, GatheredInputs;
    var s1 := s.(nonces := s.nonces[(from, role) := pub]);
    var o := OnSchnorrNonce(env, s, role, pub, from);
    NoSubmission();
    if AllOthersHave(env.ring, s.me, s1.nonces, role) && role in s1.musig && s1.musig[role].RoundOne? {
      assert o == EnterRoundTwo(env, s1, role);
    } else {
      assert o == Ok(s1, [], []);
    }
  }

  /** A partial signature for a funded session panics or submits the lock once more; when that is refused,
      the session has failed. */
  lemma PartialHurts(env: Env, s: Session, role: TxRole, sig: PartialSig, from: Pid, accepted: bool)
    requires FundedSession(env, s)
    ensures var o := OnPartialSignature(env, s, role, sig, from, accepted);
            && !Harmless(s, PartialSignature(role, sig), o)
            && (o.Ok? ==> LockSubmissions(o.submitted) == 1
                          && o.session.state == if accepted then AwaitingLockConfirmations else Failed)
  {
    hide AllOthersHave, AllSigned, FinalizeRole, LockSubmissions;
    var s1 := s.(partials := s.partials[(from, role) := sig]);
    MoreIsSigned(env.ring, s, s1);
    var f := if AllOthersHave(env.ring, s.me, s1.partials, role) then FinalizeRole(env, s1, role) else Ok(s1, [], []);
    if f.Ok? {
      FinalizeMakesMore(env, s1, role);
      FinalizeKeeps(env, s1, role);
      MoreIsSigned(env.ring, s1, f.session);
      assert OnPartialSignature(env, s, role, sig, from, accepted) == Fund(env, f.session, accepted);
      FundSubmits(env, f.session, accepted);
    }
  }

  lemma MoreIsSigned(ring: Participants, s: Session, s1: Session)
    requires s1.me == s.me && s.partials.Keys <= s1.partials.Keys && s.adaptorSigs.Keys <= s1.adaptorSigs.Keys
    requires AllSigned(ring, s)
    ensures AllSigned(ring, s1)
  {
    forall id {:trigger Refund(id)} | id in ring
      ensures AllOthersHave(ring, s1.me, s1.partials, Refund(id))
    {
      assert AllOthersHave(ring, s.me, s.partials, Refund(id));
      assert forall p {:trigger (p, Refund(id)) in s1.partials} | p in ring ::
               p != s.me ==> (p, Refund(id)) in s.partials && (p, Refund(id)) in s1.partials;
    }
    forall id {:trigger Spend(id)} | id in ring
      ensures Spend(id) in s1.adaptorSigs
    {
      assert Spend(id) in s.adaptorSigs;
    }
  }

  lemma FundSubmits(env: Env, s: Session, accepted: bool)
    requires s.me in s.lockTxs
    ensures var o := Fund(env, s, accepted);
            o.Ok? && LockSubmissions(o.submitted) == 1 && o.session.state == if accepted then AwaitingLockConfirmations else Failed
  {
    LockSubmitted();
  }

  lemma FinalizeKeeps(env: Env, s: Session, role: TxRole)
    ensures var o := FinalizeRole(env, s, role);
            o.Ok? ==> && o.session.lockTxs == s.lockTxs && o.session.secrets == s.secrets && o.session.leader == s.leader
                      && o.session.musig == s.musig && o.session.leaderCommitments == s.leaderCommitments
                      && o.session.leaderNonces == s.leaderNonces && o.session.unsignedTxs == s.unsignedTxs
                      && s.signedTxs.Keys <= o.session.signedTxs.Keys && o.session.state == s.state
                      && SignedFrom(s.unsignedTxs, s.signedTxs, o.session.signedTxs)
  {
    hide AddsUp, GatheredInputs;
    var o := FinalizeRole(env, s, role);
    if role in s.musig && s.musig[role].RoundTwo? && o.Ok? {
      if role.Spend? {
        assert o.session == s.(adaptorSigs := o.session.adaptorSigs);
      } else {
        assert o.session == s.(signedTxs := o.session.signedTxs);
      }
    } else if !(role in s.musig && s.musig[role].RoundTwo?) {
      assert o == Ok(s, [], []);
    }
  }

  lemma SecretIsHarmless(env: Env, s: Session, secret: Secret, from: Pid)
    requires FundedSession(env, s)
    ensures Harmless(s, SecretReveal(secret), OnSecretReveal(env, s, secret, from))
  {
    hide HasAll, ClaimWith, LockSubmissions;
    var s1 := s.(secrets := s.secrets[from := secret]);
    var o := OnSecretReveal(env, s, secret, from);
    NoSubmission();
    if !HasAll(env.ring, s1.secrets) {
      assert o == Ok(s1, [], []);
    } else if s.me == s.leader.value {
      assert o == ClaimWith(s1, env.sumSecrets(s1.secrets), [SpendTxBroadcast]);
      SpendIsPrepared(env, s);
      ClaimSubmits(s1, env.sumSecrets(s1.secrets), [SpendTxBroadcast]);
    } else {
      assert o == Ok(s1.TransitionTo(AwaitingLeaderSpend), [], []);
    }
  }

  lemma SpendIsPrepared(env: Env, s: Session)
    requires FundedSession(env, s)
    ensures Spend(s.me) in s.adaptorSigs && Spend(s.me) in s.unsignedTxs
  {
  }

  lemma ClaimSubmits(s: Session, secret: Secret, out: seq<WireMessage>)
    requires Spend(s.me) in s.adaptorSigs && Spend(s.me) in s.unsignedTxs
    ensures ClaimWith(s, secret, out).Ok? && LockSubmissions(ClaimWith(s, secret, out).submitted) == 0
  {
    hide SpendSubmission, LockSubmissions;
    var o := AdaptMySpend(s, secret);
    assert o.Ok?;
    SpendIsNoLock(o.session);
  }

  // ---------- pre-signatures and refunds ----------

  /** The inputs that a pre-signature or a signed refund is over. */
  function Held(s: Session, role: TxRole): Option<SigningInputs> {
    if role.Spend? then if role in s.adaptorSigs then Some(s.adaptorSigs[role]) else None
    else if role in s.signedTxs then Some(s.signedTxs[role].auth.inputs) else None
  }

  /** Rounds, partial signatures, pre-signatures, leader and refunds are as they were. */
  ghost predicate LeavesSigs(s: Session, o: Outcome) {
    o.Ok? ==>
      && o.session.musig == s.musig && o.session.partials == s.partials && o.session.adaptorSigs == s.adaptorSigs
      && o.session.leader == s.leader && SameRefunds(s, o.session)
  }

  ghost predicate SameRefunds(s: Session, t: Session) {
    forall role: TxRole {:trigger t.signedTxs[role]} {:trigger s.signedTxs[role]} :: role.Refund? ==>
      (role in t.signedTxs <==> role in s.signedTxs) && (role in s.signedTxs ==> t.signedTxs[role] == s.signedTxs[role])
  }

  lemma LeavesOnward(s: Session, t: Session, next: SwapState)
    requires LeavesSigs(s, Ok(t, [], []))
    ensures LeavesSigs(s, Ok(t.TransitionTo(next), [], []))
  {
  }

  lemma LeavesElection(env: Env, s: Session, t: Session, draw: Draw)
    requires LeavesSigs(s, Ok(t, [], []))
    ensures LeavesSigs(s, Ok(StartElection(env, t, draw), [], []))
  {
  }

  lemma PointLeaves(env: Env, s: Session, point: Point, from: Pid, draw: Draw)
    ensures LeavesSigs(s, OnAdaptorPoint(env, s, point, from, draw))
  {
    hide HasAll, StartElection;
    var o := OnAdaptorPoint(env, s, point, from, draw);
    var s1 := s.(points := s.points[from := point]);
    var s2 := s1.TransitionTo(AwaitingLeaderElectionCommitments);
    LeavesOnward(s, s1, AwaitingLeaderElectionCommitments);
    LeavesElection(env, s, s2, draw);
    hide SameRefunds;
    if HasAll(env.ring, s1.points) && s1.state == AwaitingAdaptorPoints {
      if s.me in s.leaderCommitments {
        assert o == Ok(s2, [], []);
      } else {
        assert o.Ok? && o.session == StartElection(env, s2, draw);
      }
    } else {
      assert o == Ok(s1, [], []);
    }
  }

  lemma AddCommitmentLeaves(env: Env, s: Session, out: seq<WireMessage>, commitment: Bytes32, from: Pid)
    ensures LeavesSigs(s, AddCommitment(env, s, out, commitment, from))
  {
    hide HasAll;
    var o := AddCommitment(env, s, out, commitment, from);
    var s1 := s.(leaderCommitments := s.leaderCommitments[from := commitment]);
    if o.Ok? {
      assert o.session == s1 || o.session == s1.TransitionTo(AwaitingLeaderElectionNonces);
    }
  }

  lemma CommitmentLeaves(env: Env, s: Session, commitment: Bytes32, from: Pid, draw: Draw)
    ensures LeavesSigs(s, OnCommitment(env, s, commitment, from, draw))
  {
    hide AddCommitment;
    if s.me !in s.leaderCommitments {
      var s1 := StartElection(env, s, draw).TransitionTo(AwaitingLeaderElectionCommitments);
      AddCommitmentLeaves(env, s1, [LeaderElectionCommitment(env.sha256(draw.leaderNonce))], commitment, from);
    } else {
      AddCommitmentLeaves(env, s, [], commitment, from);
    }
  }

  lemma FundLeaves(env: Env, s: Session, accepted: bool)
    ensures LeavesSigs(s, Fund(env, s, accepted))
  {
    var o := Fund(env, s, accepted);
    var s1 := s.TransitionTo(Funding);
    if o.Ok? {
      assert o.session == s1.(locksBroadcast := s1.locksBroadcast + {s.me}).TransitionTo(AwaitingLockConfirmations)
          || o.session == s1.TransitionTo(Failed);
    }
  }

  lemma AdaptLeaves(s: Session, secret: Secret)
    ensures LeavesSigs(s, AdaptMySpend(s, secret))
  {
    var o := AdaptMySpend(s, secret);
    if Spend(s.me) !in s.adaptorSigs {
      assert o == Ok(s, [], []);
    } else if o.Ok? {
      assert o.session == s.(signedTxs := s.signedTxs[Spend(s.me) := o.session.signedTxs[Spend(s.me)]]);
    }
  }

  lemma ClaimLeaves(s: Session, secret: Secret, out: seq<WireMessage>)
    ensures LeavesSigs(s, ClaimWith(s, secret, out))
  {
    hide SpendSubmission, AdaptMySpend;
    AdaptLeaves(s, secret);
    var a, o := AdaptMySpend(s, secret), ClaimWith(s, secret, out);
    if a.Ok? {
      assert o.session == a.session.TransitionTo(Claiming).TransitionTo(Completed);
    }
  }

  lemma SecretLeaves(env: Env, s: Session, secret: Secret, from: Pid)
    ensures LeavesSigs(s, OnSecretReveal(env, s, secret, from))
  {
    hide HasAll, ClaimWith;
    var s1 := s.(secrets := s.secrets[from := secret]);
    ClaimLeaves(s1, env.sumSecrets(s1.secrets), [SpendTxBroadcast]);
    var o := OnSecretReveal(env, s, secret, from);
    if !HasAll(env.ring, s1.secrets) {
      assert o == Ok(s1, [], []);
    } else if s1.leader.Some? && s.me != s1.leader.value {
      assert o == Ok(s1.TransitionTo(AwaitingLeaderSpend), [], []);
    }
  }

  lemma LockPollLeaves(env: Env, s: Session, owner: Pid, onChain: bool)
    ensures LeavesSigs(s, OnLockPoll(env, s, owner, onChain))
  {
    hide AllConfirmed;
    var o := OnLockPoll(env, s, owner, onChain);
    var s1 := if onChain then s.(locksConfirmed := s.locksConfirmed + {owner}) else s;
    if o.Ok? {
      assert o.session == s || o.session == s1 || o.session == s1.TransitionTo(AwaitingLeaderSpend)
          || o.session == s1.TransitionTo(AwaitingSecrets);
    }
  }

  lemma SpendPollLeaves(s: Session, leader: Pid, found: Option<Secret>)
    ensures LeavesSigs(s, OnLeaderSpendPoll(s, leader, found))
  {
    hide ClaimWith;
    if s.state == AwaitingLeaderSpend && found.Some? {
      ClaimLeaves(s.(secrets := s.secrets[leader := found.value]), found.value, []);
    }
  }

  lemma RefundPollLeaves(s: Session, open: bool, accepted: bool)
    ensures LeavesSigs(s, OnRefundPoll(s, open, accepted))
  {
    hide RefundSubmission;
    var o := OnRefundPoll(s, open, accepted);
    assert o.session == s || o.session == s.TransitionTo(o.session.state);
  }

  lemma StartLeaves(s: Session)
    ensures LeavesSigs(s, Start(s))
  {
    var o := Start(s);
    if o.Ok? {
      assert o.session == s || o.session == s.TransitionTo(AwaitingAdaptorPoints);
    }
  }

  lemma NonceLeaves(env: Env, s: Session, nonce: Bytes32, from: Pid, draw: Draw)
    requires IsRing(env.ring) && s.musig != map[]
    ensures LeavesSigs(s, OnLeaderNonce(env, s, nonce, from, draw))
  {
    hide IsRing, BeginSession, HasAll;
    var o := OnLeaderNonce(env, s, nonce, from, draw);
    if o.Ok? {
      assert o.session == s.(leaderNonces := s.leaderNonces[from := nonce]);
    }
  }

  /** Pre-signatures are as they were, whatever becomes of the rounds. */
  ghost predicate SameSigs(s: Session, o: Outcome) { o.Ok? ==> o.session.adaptorSigs == s.adaptorSigs }

  /** And so are refunds. */
  ghost predicate SameSigned(s: Session, o: Outcome) { SameSigs(s, o) && (o.Ok? ==> SameRefunds(s, o.session)) }

  lemma LeavesSigned(s: Session, o: Outcome)
    requires LeavesSigs(s, o)
    ensures SameSigned(s, o)
  {
  }

  lemma SchnorrSameSigned(env: Env, s: Session, role: TxRole, pub: PubNonce, from: Pid)
    ensures SameSigned(s, OnSchnorrNonce(env, s, role, pub, from))
  {
    hide AllOthersHave, GatheredInputs;
    var o := OnSchnorrNonce(env, s, role, pub, from);
    var s1 := s.(nonces := s.nonces[(from, role) := pub]);
    assert o.Ok? && (o.session == s1 || o.session == s1.(partials := o.session.partials, musig := o.session.musig));
  }

  /** Once the rounds are open only a partial signature can change a pre-signature or a refund. */
  lemma MessageSameSigned(env: Env, s: Session, msg: WireMessage, from: Pid, draw: Draw, accepted: bool)
    requires IsRing(env.ring) && s.musig != map[] && !msg.PartialSignature?
    ensures SameSigned(s, HandleMessage(env, s, msg, from, draw, accepted))
  {
    hide IsRing, OnAdaptorPoint, OnCommitment, OnLeaderNonce, OnSchnorrNonce, OnPartialSignature, OnSecretReveal, LeavesSigs;
    var o := HandleMessage(env, s, msg, from, draw, accepted);
    if !s.state.Terminal() {
      match msg {
        case AdaptorPoint(point) => PointLeaves(env, s, point, from, draw); LeavesSigned(s, o);
        case LeaderElectionCommitment(commitment) => CommitmentLeaves(env, s, commitment, from, draw); LeavesSigned(s, o);
        case LeaderElectionNonce(nonce) => NonceLeaves(env, s, nonce, from, draw); LeavesSigned(s, o);
        case SchnorrNonce(role, pub) => SchnorrSameSigned(env, s, role, pub, from);
        case SecretReveal(secret) => SecretLeaves(env, s, secret, from); LeavesSigned(s, o);
        case _ =>
      }
    }
  }

  lemma MessageSameSigs(env: Env, s: Session, msg: WireMessage, from: Pid, draw: Draw, accepted: bool)
    requires IsRing(env.ring) && s.musig != map[] && !msg.PartialSignature?
    ensures SameSigs(s, HandleMessage(env, s, msg, from, draw, accepted))
  {
    hide IsRing, HandleMessage, SameSigs;
    MessageSameSigned(env, s, msg, from, draw, accepted);
  }

  lemma CommitmentSameSigs(env: Env, s: Session, commitment: Bytes32, from: Pid, draw: Draw)
    ensures SameSigs(s, OnCommitment(env, s, commitment, from, draw))
  {
    hide OnCommitment, SameRefunds;
    CommitmentLeaves(env, s, commitment, from, draw);
  }

  lemma PollsSameSigs(env: Env, s: Session, owner: Pid, onChain: bool, leader: Pid, found: Option<Secret>, open: bool, accepted: bool)
    ensures SameSigs(s, OnLockPoll(env, s, owner, onChain))
    ensures SameSigs(s, OnLeaderSpendPoll(s, leader, found)) && SameSigs(s, OnRefundPoll(s, open, accepted))
  {
    hide OnLockPoll, OnLeaderSpendPoll, OnRefundPoll, SameRefunds;
    LockPollLeaves(env, s, owner, onChain);
    SpendPollLeaves(s, leader, found);
    RefundPollLeaves(s, open, accepted);
  }

  /** What the session holds for any role is kept, but for the role of a partial signature that has come in. */
  ghost predicate KeepsHeld(s: Session, msg: WireMessage, o: Outcome) {
    o.Ok? ==> forall role {:trigger Held(s, role)} ::
      Held(s, role).Some? && !(msg.PartialSignature? && msg.role == role) ==> Held(o.session, role) == Held(s, role)
  }

  lemma SameKeepsHeld(s: Session, msg: WireMessage, o: Outcome)
    requires SameSigned(s, o)
    ensures KeepsHeld(s, msg, o)
  {
    if o.Ok? {
      forall role {:trigger Held(s, role)} | Held(s, role).Some?
        ensures Held(o.session, role) == Held(s, role)
      {
        assert role.Refund? ==> o.session.signedTxs[role] == s.signedTxs[role];
      }
    }
  }

  lemma FinalizeHeld(env: Env, s: Session, role: TxRole, sig: PartialSig)
    ensures KeepsHeld(s, PartialSignature(role, sig), FinalizeRole(env, s, role))
  {
    hide AddsUp, GatheredInputs;
    var o := FinalizeRole(env, s, role);
    if role in s.musig && s.musig[role].RoundTwo? && o.Ok? {
      if role.Spend? {
        assert o.session == s.(adaptorSigs := s.adaptorSigs[role := GatheredInputs(env, s, role)]);
      } else {
        assert o.session == s.(signedTxs := s.signedTxs[role := o.session.signedTxs[role]]);
      }
    } else if o.Ok? {
      assert o.session == s;
    }
  }

  lemma PartialHeld(env: Env, s: Session, role: TxRole, sig: PartialSig, from: Pid, accepted: bool)
    ensures KeepsHeld(s, PartialSignature(role, sig), OnPartialSignature(env, s, role, sig, from, accepted))
  {
    hide AllOthersHave, AllSigned, FinalizeRole, Fund;
    var s1 := s.(partials := s.partials[(from, role) := sig]);
    FinalizeHeld(env, s1, role, sig);
    assert forall r {:trigger Held(s, r)} :: Held(s1, r) == Held(s, r);
    var f := if AllOthersHave(env.ring, s.me, s1.partials, role) then FinalizeRole(env, s1, role) else Ok(s1, [], []);
    if f.Ok? {
      FundLeaves(env, f.session, accepted);
      LeavesSigned(f.session, Fund(env, f.session, accepted));
      SameKeepsHeld(f.session, PartialSignature(role, sig), Fund(env, f.session, accepted));
    }
  }

  /** No message replaces a pre-signature or a refund but a partial signature for the same role. */
  lemma MessageKeepsHeld(env: Env, s: Session, msg: WireMessage, from: Pid, draw: Draw, accepted: bool)
    requires IsRing(env.ring) && s.musig != map[]
    ensures KeepsHeld(s, msg, HandleMessage(env, s, msg, from, draw, accepted))
  {
    hide IsRing, OnAdaptorPoint, OnCommitment, OnLeaderNonce, OnSchnorrNonce, OnPartialSignature, OnSecretReveal, Held, SameSigned;
    if !msg.PartialSignature? {
      MessageSameSigned(env, s, msg, from, draw, accepted);
      SameKeepsHeld(s, msg, HandleMessage(env, s, msg, from, draw, accepted));
    } else if !s.state.Terminal() {
      PartialHeld(env, s, msg.role, msg.sig, from, accepted);
    }
  }

  // ---------- what nothing takes away ----------

  /** Everything a session has gathered is kept, and its leader too. */
  ghost predicate Keeps(s: Session, s1: Session) {
    && s1.me == s.me && s1.leader == s.leader && s1.musig != map[]
    && s.secrets.Keys <= s1.secrets.Keys && s.leaderCommitments.Keys <= s1.leaderCommitments.Keys
    && s.leaderNonces.Keys <= s1.leaderNonces.Keys && s.partials.Keys <= s1.partials.Keys
    && s.adaptorSigs.Keys <= s1.adaptorSigs.Keys && s1.unsignedTxs == s.unsignedTxs && s1.lockTxs == s.lockTxs
    && s.signedTxs.Keys <= s1.signedTxs.Keys && SignedFrom(s.unsignedTxs, s.signedTxs, s1.signedTxs)
  }

  /** Nothing is signed but the unsigned transaction of the role. */
  ghost predicate SignedFrom(unsigned: map<TxRole, UnsignedTx>, was: map<TxRole, SignedTx>, now: map<TxRole, SignedTx>) {
    forall role: TxRole {:trigger now[role]} :: role in now ==>
      (role in was && now[role].tx == was[role].tx) || (role in unsigned && now[role].tx == unsigned[role])
  }

  ghost predicate KeepsAll(s: Session, o: Outcome) { o.Ok? ==> Keeps(s, o.session) }

  lemma KeepsFunded(env: Env, s: Session, s1: Session)
    requires FundedSession(env, s) && Keeps(s, s1)
    ensures FundedSession(env, s1)
  {
    hide AllSigned, LockRight, SpendRight, RefundRight;
    MoreIsSigned(env.ring, s, s1);
    forall p {:trigger p in s1.leaderCommitments} | p in env.ring
      ensures p in s1.leaderCommitments
    {
      assert p in s.leaderCommitments;
    }
  }

  lemma KeepsOnward(s: Session, s1: Session, next: SwapState)
    requires Keeps(s, s1)
    ensures Keeps(s, s1.TransitionTo(next))
  {
  }

  lemma KeepsPoints(s: Session, points: map<Pid, Point>)
    requires s.musig != map[]
    ensures Keeps(s, s.(points := points))
  {
  }

  lemma KeepsElection(env: Env, s: Session, s1: Session, draw: Draw)
    requires Keeps(s, s1)
    ensures Keeps(s, StartElection(env, s1, draw))
  {
  }

  lemma KeepsConfirmations(s: Session, confirmed: set<Pid>)
    requires s.musig != map[]
    ensures Keeps(s, s.(locksConfirmed := confirmed))
  {
  }

  lemma KeepsSecrets(s: Session, secrets: map<Pid, Secret>)
    requires s.musig != map[] && s.secrets.Keys <= secrets.Keys
    ensures Keeps(s, s.(secrets := secrets))
  {
  }

  lemma KeepsTwice(s: Session, s1: Session, s2: Session)
    requires Keeps(s, s1) && Keeps(s1, s2)
    ensures Keeps(s, s2)
  {
  }

  lemma PointKeeps(env: Env, s: Session, point: Point, from: Pid, draw: Draw)
    requires s.musig != map[]
    ensures KeepsAll(s, OnAdaptorPoint(env, s, point, from, draw))
  {
    hide HasAll, Keeps;
    var o := OnAdaptorPoint(env, s, point, from, draw);
    var s1 := s.(points := s.points[from := point]);
    var s2 := s1.TransitionTo(AwaitingLeaderElectionCommitments);
    KeepsPoints(s, s1.points);
    KeepsOnward(s, s1, AwaitingLeaderElectionCommitments);
    KeepsElection(env, s, s2, draw);
    if HasAll(env.ring, s1.points) && s1.state == AwaitingAdaptorPoints {
      if s.me in s.leaderCommitments {
        assert o == Ok(s2, [], []);
      } else {
        assert o.session == StartElection(env, s2, draw);
      }
    } else {
      assert o == Ok(s1, [], []);
    }
  }

  lemma AddCommitmentKeeps(env: Env, s: Session, out: seq<WireMessage>, commitment: Bytes32, from: Pid)
    requires s.musig != map[]
    ensures KeepsAll(s, AddCommitment(env, s, out, commitment, from))
  {
    hide HasAll;
    var o := AddCommitment(env, s, out, commitment, from);
    var s1 := s.(leaderCommitments := s.leaderCommitments[from := commitment]);
    if !HasAll(env.ring, s1.leaderCommitments) || s1.state == AwaitingLeaderElectionNonces {
      assert o == Ok(s1, out, []);
    } else if o.Ok? {
      assert o.session == s1.TransitionTo(AwaitingLeaderElectionNonces);
    }
  }

  lemma CommitmentKeeps(env: Env, s: Session, commitment: Bytes32, from: Pid, draw: Draw)
    requires s.musig != map[]
    ensures KeepsAll(s, OnCommitment(env, s, commitment, from, draw))
  {
    hide AddCommitment;
    if s.me !in s.leaderCommitments {
      var s1 := StartElection(env, s, draw).TransitionTo(AwaitingLeaderElectionCommitments);
      var out := [LeaderElectionCommitment(env.sha256(draw.leaderNonce))];
      AddCommitmentKeeps(env, s1, out, commitment, from);
      assert OnCommitment(env, s, commitment, from, draw) == AddCommitment(env, s1, out, commitment, from);
    } else {
      AddCommitmentKeeps(env, s, [], commitment, from);
      assert OnCommitment(env, s, commitment, from, draw) == AddCommitment(env, s, [], commitment, from);
    }
  }

  lemma NonceKeeps(env: Env, s: Session, nonce: Bytes32, from: Pid, draw: Draw)
    requires IsRing(env.ring) && s.musig != map[]
    ensures KeepsAll(s, OnLeaderNonce(env, s, nonce, from, draw))
  {
    hide IsRing, BeginSession, HasAll;
    var o := OnLeaderNonce(env, s, nonce, from, draw);
    if o.Ok? {
      assert o == Ok(s.(leaderNonces := s.leaderNonces[from := nonce]), [], []);
    }
  }

  lemma SchnorrKeeps(env: Env, s: Session, role: TxRole, pub: PubNonce, from: Pid)
    requires s.musig != map[]
    ensures KeepsAll(s, OnSchnorrNonce(env, s, role, pub, from))
  {
    hide AllOthersHave, GatheredInputs;
    var s1 := s.(nonces := s.nonces[(from, role) := pub]);
    var o := OnSchnorrNonce(env, s, role, pub, from);
    if AllOthersHave(env.ring, s.me, s1.nonces, role) && role in s1.musig && s1.musig[role].RoundOne? {
      var r := s1.musig[role];
      assert o.session == s1.(partials := o.session.partials, musig := s1.musig[role := RoundTwo(r.msg, r.taprootTweak)]);
      assert role in o.session.musig;
    } else {
      assert o == Ok(s1, [], []);
    }
  }

  lemma FundKeeps(env: Env, s: Session, accepted: bool)
    requires s.musig != map[]
    ensures KeepsAll(s, Fund(env, s, accepted))
  {
    var o := Fund(env, s, accepted);
    if s.me in s.lockTxs {
      var s1 := s.TransitionTo(Funding);
      if accepted {
        assert o.session == s1.(locksBroadcast := s1.locksBroadcast + {s.me}).TransitionTo(AwaitingLockConfirmations);
      } else {
        assert o.session == s1.TransitionTo(Failed);
      }
    }
  }

  lemma PartialKeeps(env: Env, s: Session, role: TxRole, sig: PartialSig, from: Pid, accepted: bool)
    requires s.musig != map[]
    ensures KeepsAll(s, OnPartialSignature(env, s, role, sig, from, accepted))
  {
    hide AllOthersHave, AllSigned, FinalizeRole, Fund;
    var s1 := s.(partials := s.partials[(from, role) := sig]);
    var f := if AllOthersHave(env.ring, s.me, s1.partials, role) then FinalizeRole(env, s1, role) else Ok(s1, [], []);
    if f.Ok? {
      FinalizeMakesMore(env, s1, role);
      FinalizeKeeps(env, s1, role);
      FundKeeps(env, f.session, accepted);
    }
  }

  lemma ClaimKeeps(s: Session, secret: Secret, out: seq<WireMessage>)
    requires s.musig != map[]
    ensures KeepsAll(s, ClaimWith(s, secret, out))
  {
    hide SpendSubmission, AdaptMySpend;
    AdaptFrame(s, secret);
    AdaptGrows(s, secret);
    var a, o := AdaptMySpend(s, secret), ClaimWith(s, secret, out);
    if a.Ok? {
      assert o.session == a.session.TransitionTo(Claiming).TransitionTo(Completed);
    }
  }

  lemma AdaptGrows(s: Session, secret: Secret)
    ensures AdaptMySpend(s, secret).Ok? ==>
              && s.signedTxs.Keys <= AdaptMySpend(s, secret).session.signedTxs.Keys
              && SignedFrom(s.unsignedTxs, s.signedTxs, AdaptMySpend(s, secret).session.signedTxs)
  {
  }

  lemma SecretKeeps(env: Env, s: Session, secret: Secret, from: Pid)
    requires s.musig != map[]
    ensures KeepsAll(s, OnSecretReveal(env, s, secret, from))
  {
    hide HasAll, ClaimWith, Keeps;
    var s1 := s.(secrets := s.secrets[from := secret]);
    var o := OnSecretReveal(env, s, secret, from);
    KeepsSecrets(s, s1.secrets);
    KeepsOnward(s, s1, AwaitingLeaderSpend);
    if !HasAll(env.ring, s1.secrets) {
      assert o == Ok(s1, [], []);
    } else if s.leader.Some? {
      if s.me == s.leader.value {
        assert o == ClaimWith(s1, env.sumSecrets(s1.secrets), [SpendTxBroadcast]);
        ClaimKeeps(s1, env.sumSecrets(s1.secrets), [SpendTxBroadcast]);
        if o.Ok? {
          KeepsTwice(s, s1, o.session);
        }
      } else {
        assert o == Ok(s1.TransitionTo(AwaitingLeaderSpend), [], []);
      }
    }
  }

  /** No message, from whomever and of whatever kind, takes anything away once the rounds are open. */
  lemma MessageKeeps(env: Env, s: Session, msg: WireMessage, from: Pid, draw: Draw, accepted: bool)
    requires IsRing(env.ring) && s.musig != map[]
    ensures KeepsAll(s, HandleMessage(env, s, msg, from, draw, accepted))
  {
    hide IsRing, OnAdaptorPoint, OnCommitment, OnLeaderNonce, OnSchnorrNonce, OnPartialSignature, OnSecretReveal;
    if !s.state.Terminal() {
      match msg {
        case AdaptorPoint(point) => PointKeeps(env, s, point, from, draw);
        case LeaderElectionCommitment(commitment) => CommitmentKeeps(env, s, commitment, from, draw);
        case LeaderElectionNonce(nonce) => NonceKeeps(env, s, nonce, from, draw);
        case SchnorrNonce(role, pub) => SchnorrKeeps(env, s, role, pub, from);
        case PartialSignature(role, sig) => PartialKeeps(env, s, role, sig, from, accepted);
        case SecretReveal(secret) => SecretKeeps(env, s, secret, from);
        case _ =>
      }
    }
  }

  lemma LockPollKeeps(env: Env, s: Session, owner: Pid, onChain: bool)
    requires s.musig != map[]
    ensures KeepsAll(s, OnLockPoll(env, s, owner, onChain))
  {
    hide AllConfirmed, Keeps;
    var o := OnLockPoll(env, s, owner, onChain);
    var s1 := if onChain then s.(locksConfirmed := s.locksConfirmed + {owner}) else s;
    KeepsConfirmations(s, s1.locksConfirmed);
    KeepsConfirmations(s, s.locksConfirmed);
    assert s1 == s.(locksConfirmed := s1.locksConfirmed);
    KeepsOnward(s, s1, AwaitingLeaderSpend);
    KeepsOnward(s, s1, AwaitingSecrets);
    if owner in s.locksConfirmed {
      assert o == Ok(s, [], []);
    } else if o.Ok? {
      if !AllConfirmed(env.ring, s1) {
        assert o.session == s1;
      } else if s.leader != Some(s.me) {
        assert o.session == s1.TransitionTo(AwaitingLeaderSpend);
      } else {
        assert o.session == s1.TransitionTo(AwaitingSecrets);
      }
    }
  }

  lemma SpendPollKeeps(s: Session, leader: Pid, found: Option<Secret>)
    requires s.musig != map[]
    ensures KeepsAll(s, OnLeaderSpendPoll(s, leader, found))
  {
    hide ClaimWith;
    if s.state == AwaitingLeaderSpend && found.Some? {
      ClaimKeeps(s.(secrets := s.secrets[leader := found.value]), found.value, []);
    } else {
      assert OnLeaderSpendPoll(s, leader, found) == Ok(s, [], []);
    }
  }

  lemma RefundPollKeeps(s: Session, open: bool, accepted: bool)
    requires s.musig != map[]
    ensures KeepsAll(s, OnRefundPoll(s, open, accepted))
  {
    var o := OnRefundPoll(s, open, accepted);
    assert o.session == s || o.session == s.TransitionTo(o.session.state);
  }
}
