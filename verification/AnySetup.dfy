/** Setups with any peers at all: whatever calls a session has seen, once it has funded it is a funded
    session, and what it may still lack is its own refund, the others' leader and their adaptor point. */
module AnySetup {
  import opened Ring
  import opened Protocol
  import opened Contents
  import opened Effects
  import opened FundedSessions
  import opened NonceUse
  import opened ChainSessions
  import C = Chain

  // ---------- what every call keeps ----------

  /** Before the rounds are open nothing is pre-signed, and every nonce has its commitment. */
  ghost predicate Unopened(s: Session) {
    && s.adaptorSigs == map[] && s.leaderNonces.Keys <= s.leaderCommitments.Keys && Funding !in s.history
    && s.lockTxs == map[] && s.unsignedTxs == map[] && s.signedTxs == map[]
  }

  /** Every lock and every transaction, signed or not, says what it should. */
  ghost predicate AllRight(env: Env, leader: Pid, locks: map<Pid, LockTx>, unsigned: map<TxRole, UnsignedTx>,
                           signed: map<TxRole, SignedTx>) {
    && (forall p {:trigger locks[p]} :: p in locks ==> LockRight(env, leader, p, locks[p]))
    && (forall role: TxRole {:trigger unsigned[role]} :: role in unsigned ==> TxRight(env, leader, role, unsigned[role]))
    && (forall role: TxRole {:trigger signed[role]} :: role in signed ==> TxRight(env, leader, role, signed[role].tx))
  }

  /** From then on the election is complete, and the own spend and all locks are built. */
  ghost predicate OpenedUp(env: Env, s: Session) {
    && s.leader.Some? && s.me in s.leaderNonces && HasAll(env.ring, s.leaderCommitments)
    && Spend(s.me) in s.unsignedTxs && Refund(s.me) in s.unsignedTxs && env.ring.Keys <= s.lockTxs.Keys
    && AllRight(env, s.leader.value, s.lockTxs, s.unsignedTxs, s.signedTxs)
    && (Funding in s.history ==> AllSigned(env.ring, s))
  }

  ghost predicate CallInv(env: Env, s: Session) {
    && s.me in env.ring && s.me in s.secrets
    && if s.musig == map[] then Unopened(s) else OpenedUp(env, s)
  }

  ghost predicate KeepsInv(env: Env, o: Outcome) { o.Ok? ==> CallInv(env, o.session) }

  // ---------- with the rounds open ----------

  /** New states are not `Funding`, or come when everything is signed. */
  ghost predicate FundsSigned(env: Env, s: Session, o: Outcome) {
    o.Ok? && Funding in o.session.history && Funding !in s.history ==> AllSigned(env.ring, o.session)
  }

  lemma OpenStays(env: Env, s: Session, o: Outcome)
    requires CallInv(env, s) && s.musig != map[] && KeepsAll(s, o) && FundsSigned(env, s, o)
    ensures KeepsInv(env, o)
  {
    hide AllSigned, AllRight;
    if o.Ok? {
      RightStays(env, s.leader.value, s.lockTxs, s.unsignedTxs, s.signedTxs, o.session.signedTxs);
      forall p {:trigger p in o.session.leaderCommitments} | p in env.ring
        ensures p in o.session.leaderCommitments
      {
        assert p in s.leaderCommitments;
      }
      if Funding in s.history {
        MoreIsSigned(env.ring, s, o.session);
      }
    }
  }

  lemma RightStays(env: Env, leader: Pid, locks: map<Pid, LockTx>, unsigned: map<TxRole, UnsignedTx>, was: map<TxRole, SignedTx>,
        now: map<TxRole, SignedTx>)
    requires AllRight(env, leader, locks, unsigned, was) && SignedFrom(unsigned, was, now)
    ensures AllRight(env, leader, locks, unsigned, now)
  {
    hide LockRight, TxRight;
  }

  ghost predicate AddsNoFunding(s: Session, o: Outcome) {
    o.Ok? ==> (Funding in o.session.history ==> Funding in s.history)
  }

  lemma PointAdds(env: Env, s: Session, point: Point, from: Pid, draw: Draw)
    ensures AddsNoFunding(s, OnAdaptorPoint(env, s, point, from, draw))
  {
    hide HasAll;
  }

  lemma AddCommitmentAdds(env: Env, s: Session, out: seq<WireMessage>, commitment: Bytes32, from: Pid)
    ensures AddsNoFunding(s, AddCommitment(env, s, out, commitment, from))
  {
    hide HasAll;
  }

  lemma CommitmentAdds(env: Env, s: Session, commitment: Bytes32, from: Pid, draw: Draw)
    ensures AddsNoFunding(s, OnCommitment(env, s, commitment, from, draw))
  {
    hide AddCommitment;
    if s.me !in s.leaderCommitments {
      var s1 := StartElection(env, s, draw).TransitionTo(AwaitingLeaderElectionCommitments);
      AddCommitmentAdds(env, s1, [LeaderElectionCommitment(env.sha256(draw.leaderNonce))], commitment, from);
    } else {
      AddCommitmentAdds(env, s, [], commitment, from);
    }
  }

  lemma NonceAdds(env: Env, s: Session, nonce: Bytes32, from: Pid, draw: Draw)
    requires IsRing(env.ring) && s.musig != map[]
    ensures AddsNoFunding(s, OnLeaderNonce(env, s, nonce, from, draw))
  {
    hide IsRing, HasAll, BeginSession;
  }

  lemma SchnorrAdds(env: Env, s: Session, role: TxRole, pub: PubNonce, from: Pid)
    ensures AddsNoFunding(s, OnSchnorrNonce(env, s, role, pub, from))
  {
    hide AllOthersHave, GatheredInputs;
  }

  lemma FundAdds(env: Env, s: Session, accepted: bool)
    requires AllSigned(env.ring, s)
    ensures Fund(env, s, accepted).Ok? ==> AllSigned(env.ring, Fund(env, s, accepted).session)
  {
    hide AllSigned;
    var o := Fund(env, s, accepted);
    if o.Ok? {
      MoreIsSigned(env.ring, s, o.session);
    }
  }

  lemma PartialAdds(env: Env, s: Session, role: TxRole, sig: PartialSig, from: Pid, accepted: bool)
    ensures FundsSigned(env, s, OnPartialSignature(env, s, role, sig, from, accepted))
  {
    hide AllOthersHave, AllSigned, FinalizeRole, Fund;
    var s1 := s.(partials := s.partials[(from, role) := sig]);
    var f := if AllOthersHave(env.ring, s.me, s1.partials, role) then FinalizeRole(env, s1, role) else Ok(s1, [], []);
    if f.Ok? {
      FinalizeMakesMore(env, s1, role);
      if AllSigned(env.ring, f.session) {
        FundAdds(env, f.session, accepted);
      }
    }
  }

  lemma ClaimAdds(s: Session, secret: Secret, out: seq<WireMessage>)
    ensures AddsNoFunding(s, ClaimWith(s, secret, out))
  {
    hide SpendSubmission, AdaptMySpend;
    AdaptFrame(s, secret);
  }

  lemma SecretAdds(env: Env, s: Session, secret: Secret, from: Pid)
    ensures AddsNoFunding(s, OnSecretReveal(env, s, secret, from))
  {
    hide HasAll, ClaimWith;
    var s1 := s.(secrets := s.secrets[from := secret]);
    ClaimAdds(s1, env.sumSecrets(s1.secrets), [SpendTxBroadcast]);
  }

  /** A lock poll changes the confirmations and the state, no more. */
  ghost predicate PollSame(s: Session, t: Session) {
    && t.me == s.me && t.secrets == s.secrets && t.musig == s.musig && t.adaptorSigs == s.adaptorSigs
    && t.leaderNonces == s.leaderNonces && t.leaderCommitments == s.leaderCommitments
    && t.lockTxs == s.lockTxs && t.unsignedTxs == s.unsignedTxs && t.signedTxs == s.signedTxs
    && (Funding in t.history ==> Funding in s.history)
  }

  lemma SameConfirmed(s: Session, confirmed: set<Pid>)
    ensures PollSame(s, s.(locksConfirmed := confirmed)) && PollSame(s, s)
  {
  }

  lemma SameOnward(s: Session, t: Session, next: SwapState)
    requires PollSame(s, t) && next != Funding
    ensures PollSame(s, t.TransitionTo(next))
  {
  }

  lemma LockPollSame(env: Env, s: Session, owner: Pid, onChain: bool)
    ensures OnLockPoll(env, s, owner, onChain).Ok? ==> PollSame(s, OnLockPoll(env, s, owner, onChain).session)
  {
    hide AllConfirmed, PollSame;
    var o := OnLockPoll(env, s, owner, onChain);
    var confirmed := if onChain then s.locksConfirmed + {owner} else s.locksConfirmed;
    var s1 := s.(locksConfirmed := confirmed);
    SameConfirmed(s, confirmed);
    SameOnward(s, s1, AwaitingLeaderSpend);
    SameOnward(s, s1, AwaitingSecrets);
    if owner in s.locksConfirmed {
      assert o == Ok(s, [], []);
    } else if o.Ok? {
      if !AllConfirmed(env.ring, s1) {
        assert o.session == s1;
      } else if s.leader != Some(s.me) {
        assert o.session == s1.TransitionTo(AwaitingLeaderSpend);
      } else {
        assert o.session == s1.TransitionTo(AwaitingSecrets);
      }
    }
  }

  lemma LockPollAdds(env: Env, s: Session, owner: Pid, onChain: bool)
    ensures AddsNoFunding(s, OnLockPoll(env, s, owner, onChain))
  {
    hide OnLockPoll;
    LockPollSame(env, s, owner, onChain);
  }

  lemma SpendPollAdds(s: Session, leader: Pid, found: Option<Secret>)
    ensures AddsNoFunding(s, OnLeaderSpendPoll(s, leader, found))
  {
    hide ClaimWith;
    if found.Some? {
      ClaimAdds(s.(secrets := s.secrets[leader := found.value]), found.value, []);
    }
  }

  lemma RefundPollAdds(s: Session, open: bool, accepted: bool)
    ensures AddsNoFunding(s, OnRefundPoll(s, open, accepted))
  {
  }

  lemma StartAdds(s: Session)
    ensures AddsNoFunding(s, Start(s))
    ensures s.musig != map[] ==> KeepsAll(s, Start(s))
  {
    var o := Start(s);
    if o.Ok? {
      assert o.session == s || o.session == s.TransitionTo(AwaitingAdaptorPoints);
    }
  }

  lemma MessageStays(env: Env, s: Session, msg: WireMessage, from: Pid, draw: Draw, accepted: bool)
    requires IsRing(env.ring) && s.musig != map[]
    ensures FundsSigned(env, s, HandleMessage(env, s, msg, from, draw, accepted))
  {
    hide IsRing, OnAdaptorPoint, OnCommitment, OnLeaderNonce, OnSchnorrNonce, OnPartialSignature, OnSecretReveal, AllSigned;
    if !s.state.Terminal() {
      match msg {
        case AdaptorPoint(point) => PointAdds(env, s, point, from, draw);
        case LeaderElectionCommitment(commitment) => CommitmentAdds(env, s, commitment, from, draw);
        case LeaderElectionNonce(nonce) => NonceAdds(env, s, nonce, from, draw);
        case SchnorrNonce(role, pub) => SchnorrAdds(env, s, role, pub, from);
        case PartialSignature(role, sig) => PartialAdds(env, s, role, sig, from, accepted);
        case SecretReveal(secret) => SecretAdds(env, s, secret, from);
        case _ =>
      }
    }
  }

  lemma OpenCall(env: Env, s: Session, call: Call)
    requires IsRing(env.ring) && CallInv(env, s) && s.musig != map[]
    ensures KeepsInv(env, Perform(env, s, call))
  {
    hide IsRing, CallInv, HandleMessage, OnLockPoll, OnLeaderSpendPoll, OnRefundPoll, Protocol.Start, Keeps, AllSigned;
    match call {
      case StartCall => StartAdds(s);
      case Message(msg, from, draw, accepted) =>
        MessageKeeps(env, s, msg, from, draw, accepted);
        MessageStays(env, s, msg, from, draw, accepted);
      case LockPoll(owner, onChain) =>
        LockPollKeeps(env, s, owner, onChain);
        LockPollAdds(env, s, owner, onChain);
      case LeaderSpendPoll(leader, found) =>
        SpendPollKeeps(s, leader, found);
        SpendPollAdds(s, leader, found);
      case RefundPoll(open, accepted) =>
        RefundPollKeeps(s, open, accepted);
        RefundPollAdds(s, open, accepted);
    }
    OpenStays(env, s, Perform(env, s, call));
  }

  // ---------- before the rounds are open ----------

  /** What a call that opens no rounds may change. */
  ghost predicate StaysUnopened(s: Session, o: Outcome) {
    o.Ok? ==>
      && o.session.me == s.me && o.session.musig == map[] && s.secrets.Keys <= o.session.secrets.Keys
      && o.session.adaptorSigs == s.adaptorSigs && (Funding in o.session.history ==> Funding in s.history)
      && o.session.leaderNonces.Keys <= o.session.leaderCommitments.Keys
      && o.session.lockTxs == s.lockTxs && o.session.unsignedTxs == s.unsignedTxs && o.session.signedTxs == s.signedTxs
  }

  lemma UnopenedStays(env: Env, s: Session, o: Outcome)
    requires CallInv(env, s) && s.musig == map[] && StaysUnopened(s, o)
    ensures KeepsInv(env, o)
  {
  }

  lemma PointEarly(env: Env, s: Session, point: Point, from: Pid, draw: Draw)
    requires s.musig == map[] && Unopened(s)
    ensures StaysUnopened(s, OnAdaptorPoint(env, s, point, from, draw))
  {
    hide HasAll;
    var o := OnAdaptorPoint(env, s, point, from, draw);
    var s1 := s.(points := s.points[from := point]);
    var s2 := s1.TransitionTo(AwaitingLeaderElectionCommitments);
    if HasAll(env.ring, s1.points) && s1.state == AwaitingAdaptorPoints {
      if s.me in s.leaderCommitments {
        assert o == Ok(s2, [], []);
      } else {
        assert o.session == StartElection(env, s2, draw);
      }
    } else {
      assert o == Ok(s1, [], []);
    }
  }

  lemma AddCommitmentEarly(env: Env, s: Session, out: seq<WireMessage>, commitment: Bytes32, from: Pid)
    requires s.musig == map[] && Unopened(s)
    ensures StaysUnopened(s, AddCommitment(env, s, out, commitment, from))
  {
    hide HasAll;
  }

  lemma CommitmentEarly(env: Env, s: Session, commitment: Bytes32, from: Pid, draw: Draw)
    requires s.musig == map[] && Unopened(s)
    ensures StaysUnopened(s, OnCommitment(env, s, commitment, from, draw))
  {
    hide AddCommitment;
    if s.me !in s.leaderCommitments {
      var s1 := StartElection(env, s, draw).TransitionTo(AwaitingLeaderElectionCommitments);
      assert Unopened(s1);
      AddCommitmentEarly(env, s1, [LeaderElectionCommitment(env.sha256(draw.leaderNonce))], commitment, from);
    } else {
      AddCommitmentEarly(env, s, [], commitment, from);
    }
  }

  ghost predicate UnsignedRight(env: Env, leader: Pid, was: map<TxRole, UnsignedTx>, now: map<TxRole, UnsignedTx>) {
    forall role: TxRole {:trigger now[role]} :: role in now ==>
      (role in was && now[role] == was[role]) || TxRight(env, leader, role, now[role])
  }

  lemma {:induction false} SigningBuilds(env: Env, leader: Pid, s: Session, draw: Draw, roles: seq<TxRole>)
    requires IsRing(env.ring) && leader in env.ring && LocksBuildable(env)
    requires forall r :: r in roles ==> RoleInRing(env, r)
    ensures
      var t := BeginSigning(env, leader, s, draw, roles);
      && t.me == s.me && t.leader == s.leader && t.secrets == s.secrets && t.history == s.history && t.lockTxs == s.lockTxs
      && t.leaderNonces == s.leaderNonces && t.leaderCommitments == s.leaderCommitments
      && (forall r :: r in roles ==> r in t.musig && r in t.unsignedTxs)
      && t.signedTxs == s.signedTxs && UnsignedRight(env, leader, s.unsignedTxs, t.unsignedTxs)
  {
    hide IsRing, LocksBuildable, UnsignedFor, MessageFor, TweakFor, NewNonce, TxRight, RoleInRing;
    if roles != [] {
      var n := |roles| - 1;
      assert roles[n] in roles && forall r :: r in roles[..n] ==> r in roles;
      SigningBuilds(env, leader, s, draw, roles[..n]);
      UnsignedIsRight(env, leader, roles[n], UnsignedFor(env, leader, roles[n]));
      var b := BeginSigning(env, leader, s, draw, roles[..n]);
      assert BeginSigning(env, leader, s, draw, roles) == BeginRole(env, leader, b, draw, roles[n]);
      forall r | r in roles
        ensures r in BeginRole(env, leader, b, draw, roles[n]).musig && r in BeginRole(env, leader, b, draw, roles[n]).unsignedTxs
      {
        assert roles == roles[..n] + [roles[n]];
        assert r in roles[..n] || r == roles[n];
      }
    }
  }

  /** Opening the rounds leaves nothing out. */
  lemma BeginSessionOpens(env: Env, s: Session, draw: Draw)
    requires IsRing(env.ring) && s.me in env.ring && s.me in s.secrets && Unopened(s) && HasAll(env.ring, s.leaderNonces)
    ensures KeepsInv(env, BeginSession(env, s, draw))
  {
    hide IsRing, LocksBuildable, ElectedLeader, BeginSigning, NonceMessages, Locks, AllRoles, CallInv, HasAll, Unopened;
    if LocksBuildable(env) {
      assert 0 < |env.ring| by { hide *; RingHasOne(env.ring); }
      var leader := ElectedLeader(env, s.leaderNonces);
      var s1 := s.(leader := Some(leader)).TransitionTo(RefundAndSpendTxsSigning);
      var s2 := s1.(lockTxs := s1.lockTxs + Locks(env, leader));
      OpenedSession(env, leader, s, s2, draw);
    }
  }

  lemma OpenedSession(env: Env, leader: Pid, s: Session, s2: Session, draw: Draw)
    requires IsRing(env.ring) && leader in env.ring && LocksBuildable(env)
    requires s.me in env.ring && s.me in s.secrets && Unopened(s) && HasAll(env.ring, s.leaderNonces)
    requires s2 == s.(leader := Some(leader), state := s2.state, history := s.history + [RefundAndSpendTxsSigning], lockTxs := s2.lockTxs)
    requires s2.lockTxs == s.lockTxs + Locks(env, leader)
    ensures CallInv(env, BeginSigning(env, leader, s2, draw, AllRoles(env)))
  {
    hide IsRing, LocksBuildable, BeginSigning, AllRoles, AllSigned, Locks, LockRight, TxRight;
    LocksOfAll(env, leader);
    SigningBuilds(env, leader, s2, draw, AllRoles(env));
    var t := BeginSigning(env, leader, s2, draw, AllRoles(env));
    assert RoleInRing(env, Spend(s.me)) && Spend(s.me) in AllRoles(env);
    assert RoleInRing(env, Refund(s.me)) && Refund(s.me) in AllRoles(env);
    forall p {:trigger p in t.leaderCommitments} | p in env.ring
      ensures p in t.leaderCommitments
    {
      assert p in s.leaderNonces;
    }
    assert s.me in s.leaderNonces;
  }

  lemma RingHasOne(ps: Participants)
    requires IsRing(ps)
    ensures 0 < |ps|
  {
  }

  lemma LocksOfAll(env: Env, leader: Pid)
    requires IsRing(env.ring) && leader in env.ring && LocksBuildable(env)
    ensures Locks(env, leader).Keys == env.ring.Keys
    ensures forall p {:trigger Locks(env, leader)[p]} :: p in env.ring ==> LockRight(env, leader, p, Locks(env, leader)[p])
  {
    hide IsRing, LocksBuildable, LockRight, LockFor;
    forall p {:trigger Locks(env, leader)[p]} | p in env.ring
      ensures LockRight(env, leader, p, Locks(env, leader)[p])
    {
      LocksAreRight(env, leader, p);
    }
  }

  lemma NonceEarly(env: Env, s: Session, nonce: Bytes32, from: Pid, draw: Draw)
    requires IsRing(env.ring) && s.musig == map[] && CallInv(env, s)
    ensures KeepsInv(env, OnLeaderNonce(env, s, nonce, from, draw))
  {
    hide IsRing, BeginSession;
    var s1 := s.(leaderNonces := s.leaderNonces[from := nonce]);
    if from in s.leaderCommitments && env.sha256(nonce) == s.leaderCommitments[from] {
      assert Unopened(s1);
      if HasAll(env.ring, s1.leaderNonces) {
        BeginSessionOpens(env, s1, draw);
      }
    }
  }

  lemma PartialEarly(env: Env, s: Session, role: TxRole, sig: PartialSig, from: Pid, accepted: bool)
    requires s.musig == map[] && Unopened(s) && s.me in env.ring
    ensures StaysUnopened(s, OnPartialSignature(env, s, role, sig, from, accepted))
  {
    hide AllOthersHave, Fund;
    var s1 := s.(partials := s.partials[(from, role) := sig]);
    assert FinalizeRole(env, s1, role) == Ok(s1, [], []);
    assert !AllSigned(env.ring, s1) by { assert Spend(s.me) !in s1.adaptorSigs; }
  }

  lemma ClaimEarly(s: Session, secret: Secret, out: seq<WireMessage>)
    requires s.musig == map[] && Unopened(s)
    ensures StaysUnopened(s, ClaimWith(s, secret, out))
  {
    assert AdaptMySpend(s, secret) == Ok(s, [], []);
    hide SpendSubmission;
  }

  lemma EarlySecret(s: Session, secrets: map<Pid, Secret>, next: SwapState)
    requires s.musig == map[] && Unopened(s) && s.secrets.Keys <= secrets.Keys && next != Funding
    ensures StaysUnopened(s, Ok(s.(secrets := secrets), [], [])) && StaysUnopened(s, Ok(s.(secrets := secrets).TransitionTo(next), [], []))
    ensures Unopened(s.(secrets := secrets))
  {
  }

  lemma EarlyTwice(s: Session, s1: Session, o: Outcome)
    requires StaysUnopened(s, Ok(s1, [], [])) && StaysUnopened(s1, o)
    ensures StaysUnopened(s, o)
  {
  }

  lemma SecretEarly(env: Env, s: Session, secret: Secret, from: Pid)
    requires s.musig == map[] && Unopened(s)
    ensures StaysUnopened(s, OnSecretReveal(env, s, secret, from))
  {
    hide HasAll, ClaimWith, StaysUnopened, Unopened;
    var s1 := s.(secrets := s.secrets[from := secret]);
    var o := OnSecretReveal(env, s, secret, from);
    EarlySecret(s, s1.secrets, AwaitingLeaderSpend);
    ClaimEarly(s1, env.sumSecrets(s1.secrets), [SpendTxBroadcast]);
    EarlyTwice(s, s1, ClaimWith(s1, env.sumSecrets(s1.secrets), [SpendTxBroadcast]));
    if !HasAll(env.ring, s1.secrets) {
      assert o == Ok(s1, [], []);
    } else if s.leader.None? {
      assert o == Panic;
      PanicEarly(s);
    } else if s.me == s.leader.value {
      assert o == ClaimWith(s1, env.sumSecrets(s1.secrets), [SpendTxBroadcast]);
    } else {
      assert o == Ok(s1.TransitionTo(AwaitingLeaderSpend), [], []);
    }
  }

  lemma PanicEarly(s: Session)
    ensures StaysUnopened(s, Panic)
  {
  }

  lemma EarlyCall(env: Env, s: Session, call: Call)
    requires IsRing(env.ring) && CallInv(env, s) && s.musig == map[]
    ensures KeepsInv(env, Perform(env, s, call))
  {
    hide IsRing, OnAdaptorPoint, OnCommitment, OnLeaderNonce, OnSchnorrNonce, OnPartialSignature, OnSecretReveal, ClaimWith,
         StaysUnopened, AllOthersHave, AllConfirmed, HasAll, AllSigned;
    match call {
      case Message(msg, from, draw, accepted) =>
        EarlyMessage(env, s, msg, from, draw, accepted);
      case StartCall =>
      case LockPoll(owner, onChain) => EarlyPoll(env, s, owner, onChain);
      case LeaderSpendPoll(leader, found) =>
        if found.Some? {
          var s1 := s.(secrets := s.secrets[leader := found.value]);
          ClaimEarly(s1, found.value, []);
          UnopenedStays(env, s1, ClaimWith(s1, found.value, []));
        }
      case RefundPoll(open, accepted) =>
    }
  }

  lemma EarlyPoll(env: Env, s: Session, owner: Pid, onChain: bool)
    requires CallInv(env, s) && s.musig == map[]
    ensures KeepsInv(env, OnLockPoll(env, s, owner, onChain))
  {
    hide OnLockPoll, AllSigned, HasAll;
    LockPollSame(env, s, owner, onChain);
  }

  lemma EarlyMessage(env: Env, s: Session, msg: WireMessage, from: Pid, draw: Draw, accepted: bool)
    requires IsRing(env.ring) && CallInv(env, s) && s.musig == map[]
    ensures KeepsInv(env, HandleMessage(env, s, msg, from, draw, accepted))
  {
    hide IsRing, OnAdaptorPoint, OnCommitment, OnLeaderNonce, OnPartialSignature, OnSecretReveal, AllOthersHave, HasAll, AllSigned;
    var o := HandleMessage(env, s, msg, from, draw, accepted);
    if !s.state.Terminal() && !msg.LeaderElectionNonce? {
      match msg {
        case AdaptorPoint(point) => PointEarly(env, s, point, from, draw);
        case LeaderElectionCommitment(commitment) => CommitmentEarly(env, s, commitment, from, draw);
        case PartialSignature(role, sig) => PartialEarly(env, s, role, sig, from, accepted);
        case SecretReveal(secret) => SecretEarly(env, s, secret, from);
        case _ =>
      }
      UnopenedStays(env, s, o);
    } else if !s.state.Terminal() {
      NonceEarly(env, s, msg.nonce, from, draw);
    }
  }

  lemma {:induction false} CallsKeep(env: Env, s: Session, calls: seq<Call>)
    requires IsRing(env.ring) && CallInv(env, s)
    ensures KeepsInv(env, PerformAll(env, s, calls))
  {
    hide IsRing, CallInv, Perform;
    if calls != [] {
      var before := calls[..|calls| - 1];
      CallsKeep(env, s, before);
      var o := PerformAll(env, s, before);
      if o.Ok? {
        if o.session.musig == map[] {
          EarlyCall(env, o.session, calls[|calls| - 1]);
        } else {
          OpenCall(env, o.session, calls[|calls| - 1]);
        }
      }
    }
  }

  // ---------- the theorem ----------

  /** Whoever the peers are and whatever they send: a session that has been in `Funding` is a funded session;
      and it is prepared for the chain exactly if its leader is the common one and its own refund is signed, and
      equipped to claim exactly if moreover its own spend and the leader's are pre-signed over the point. */
  lemma SetupYields(x: C.Setting, me: Pid, secret: Secret, point: Point, calls: seq<Call>, o: Outcome)
    requires IsRing(x.env.ring) && me in x.env.ring
    requires o == PerformAll(x.env, NewSession(me, secret, point), calls) && o.Ok? && Funding in o.session.history
    ensures FundedSession(x.env, o.session)
    ensures C.Prepared(x, o.session.me, o.session)
       <==> o.session.leader == Some(x.leader) && Refund(o.session.me) in o.session.signedTxs
    ensures C.Equipped(x, o.session.me, o.session)
       <==> && o.session.leader == Some(x.leader) && Refund(o.session.me) in o.session.signedTxs
            && C.SignedOver(o.session, Spend(o.session.me), x.point) && C.SignedOver(o.session, Spend(x.leader), x.point)
  {
    hide IsRing, PerformAll, AllSigned;
    var s := NewSession(me, secret, point);
    assert CallInv(x.env, s);
    CallsKeep(x.env, s, calls);
  }

  // ---------- what is submitted ----------

  /** What was submitted is held: the own lock, or a signed transaction of its role. */
  ghost predicate SubmitsHeld(o: Outcome) {
    o.Ok? ==> forall sub: Submission {:trigger sub in o.submitted} :: sub in o.submitted ==> IsHeld(o.session, sub)
  }

  predicate IsHeld(s: Session, sub: Submission) {
    match sub
    case SubmitLock(lock) => s.me in s.lockTxs && lock == s.lockTxs[s.me]
    case SubmitTx(role, tx) => role in s.signedTxs && tx == s.signedTxs[role]
  }

  lemma FundsHeld(o: Outcome)
    requires FundsAtMost(o)
    ensures SubmitsHeld(o)
  {
    hide C.Reveals;
  }

  lemma ClaimHeld(s: Session, secret: Secret, out: seq<WireMessage>)
    ensures SubmitsHeld(ClaimWith(s, secret, out))
  {
    hide AdaptMySpend;
    AdaptFrame(s, secret);
    var a, o := AdaptMySpend(s, secret), ClaimWith(s, secret, out);
    if a.Ok? {
      assert o == Ok(a.session.TransitionTo(Claiming).TransitionTo(Completed), out, SpendSubmission(a.session));
    }
  }

  lemma SecretHeld(env: Env, s: Session, secret: Secret, from: Pid)
    ensures SubmitsHeld(OnSecretReveal(env, s, secret, from))
  {
    hide HasAll, ClaimWith;
    var s1 := s.(secrets := s.secrets[from := secret]);
    var o := OnSecretReveal(env, s, secret, from);
    ClaimHeld(s1, env.sumSecrets(s1.secrets), [SpendTxBroadcast]);
    if !HasAll(env.ring, s1.secrets) {
      assert o == Ok(s1, [], []);
    } else if s1.leader.Some? && s.me != s1.leader.value {
      assert o == Ok(s1.TransitionTo(AwaitingLeaderSpend), [], []);
    }
  }

  lemma PollsHeld(env: Env, s: Session, owner: Pid, onChain: bool, leader: Pid, found: Option<Secret>, open: bool, accepted: bool)
    ensures SubmitsHeld(OnLockPoll(env, s, owner, onChain)) && SubmitsHeld(OnLeaderSpendPoll(s, leader, found))
    ensures SubmitsHeld(OnRefundPoll(s, open, accepted)) && SubmitsHeld(Start(s))
  {
    hide AllConfirmed, ClaimWith;
    if s.state == AwaitingLeaderSpend && found.Some? {
      ClaimHeld(s.(secrets := s.secrets[leader := found.value]), found.value, []);
    }
  }

  lemma CallHeld(env: Env, s: Session, call: Call)
    requires IsRing(env.ring)
    ensures SubmitsHeld(Perform(env, s, call))
  {
    hide IsRing, SubmitsHeld, HandleMessage, OnLockPoll, OnLeaderSpendPoll, OnRefundPoll, Protocol.Start;
    match call {
      case StartCall => PollsHeld(env, s, s.me, false, s.me, None, false, false);
      case Message(msg, from, draw, accepted) =>
        if msg.SecretReveal? {
          SecretHandled(env, s, msg.secret, from, draw, accepted);
          SecretHeld(env, s, msg.secret, from);
          FundsHeld(Ok(s, [], [])) by { NothingFunds(s); }
        } else {
          MessageFunds(env, s, msg, from, draw, accepted);
          FundsHeld(HandleMessage(env, s, msg, from, draw, accepted));
        }
      case LockPoll(owner, onChain) => PollsHeld(env, s, owner, onChain, s.me, None, false, false);
      case LeaderSpendPoll(leader, found) => PollsHeld(env, s, s.me, false, leader, found, false, false);
      case RefundPoll(open, accepted) => PollsHeld(env, s, s.me, false, s.me, None, open, accepted);
    }
  }

  /** Everything the session holds says what it should, for the leader it has elected; before the election it holds
      nothing. */
  ghost predicate HoldsRight(env: Env, s: Session) {
    if s.leader.Some? then AllRight(env, s.leader.value, s.lockTxs, s.unsignedTxs, s.signedTxs)
    else s.lockTxs == map[] && s.unsignedTxs == map[] && s.signedTxs == map[]
  }

  ghost predicate SubmissionRight(env: Env, s: Session, sub: Submission) {
    && s.leader.Some?
    && match sub
       case SubmitLock(lock) => LockRight(env, s.leader.value, s.me, lock)
       case SubmitTx(role, tx) => TxRight(env, s.leader.value, role, tx.tx)
  }

  lemma InvHoldsRight(env: Env, s: Session)
    requires CallInv(env, s)
    ensures HoldsRight(env, s)
  {
    hide LockRight, TxRight, AllSigned, HasAll;
  }

  lemma HeldIsRight(env: Env, s: Session, sub: Submission)
    requires HoldsRight(env, s) && IsHeld(s, sub)
    ensures SubmissionRight(env, s, sub)
  {
    hide LockRight, TxRight;
  }

  /** Whoever the peers are and whatever they send: every lock and every transaction a session holds, and everything
      it submits in its last call, says what it should. */
  lemma EverythingRight(env: Env, me: Pid, secret: Secret, point: Point, calls: seq<Call>, call: Call, before: Session, o: Outcome)
    requires IsRing(env.ring) && me in env.ring
    requires PerformAll(env, NewSession(me, secret, point), calls).Ok? && before == PerformAll(env, NewSession(me, secret, point), calls).session
    requires o == Perform(env, before, call)
    ensures HoldsRight(env, before)
    ensures o.Ok? ==> forall sub: Submission {:trigger sub in o.submitted} :: sub in o.submitted ==> SubmissionRight(env, o.session, sub)
  {
    var s := NewSession(me, secret, point);
    assert CallInv(env, s);
    hide IsRing, CallInv, PerformAll, Perform, HoldsRight, SubmissionRight, IsHeld;
    CallsKeep(env, s, calls);
    InvHoldsRight(env, before);
    if before.musig == map[] {
      EarlyCall(env, before, call);
    } else {
      OpenCall(env, before, call);
    }
    CallHeld(env, before, call);
    if o.Ok? {
      InvHoldsRight(env, o.session);
      forall sub: Submission {:trigger sub in o.submitted} | sub in o.submitted
        ensures SubmissionRight(env, o.session, sub)
      {
        HeldIsRight(env, o.session, sub);
      }
    }
  }
}
