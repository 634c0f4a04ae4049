/** A secret nonce is made once per role and signs at most once, always the message it was made for:
    for any sequence of calls whatever, with messages from anybody, repeated or out of order. */
module NonceUse {
  import opened Ring
  import opened Protocol
  import opened Effects

  /** Any call the daemon makes on a session, with the randomness the call would draw. */
  datatype Call =
    | StartCall
    | Message(msg: WireMessage, from: Pid, draw: Draw, accepted: bool)
    | LockPoll(owner: Pid, onChain: bool)
    | LeaderSpendPoll(leader: Pid, found: Option<Secret>)
    | RefundPoll(open: bool, accepted: bool)

  ghost function Perform(env: Env, s: Session, call: Call): Outcome {
    match call
    case StartCall => Start(s)
    case Message(msg, from, draw, accepted) => HandleMessage(env, s, msg, from, draw, accepted)
    case LockPoll(owner, onChain) => OnLockPoll(env, s, owner, onChain)
    case LeaderSpendPoll(leader, found) => OnLeaderSpendPoll(s, leader, found)
    case RefundPoll(open, accepted) => OnRefundPoll(s, open, accepted)
  }

  /** All calls in a row; a panic ends the session. The broadcasts of all calls are kept. */
  ghost function PerformAll(env: Env, s: Session, calls: seq<Call>): Outcome {
    if calls == [] then Ok(s, [], [])
    else match PerformAll(env, s, calls[..|calls| - 1])
      case Panic => Panic
      case Ok(s1, out1, submitted1) =>
        match Perform(env, s1, calls[|calls| - 1])
        case Panic => Panic
        case Ok(s2, out2, submitted2) => Ok(s2, out1 + out2, submitted1 + submitted2)
  }

  // ---------- counting ----------

  predicate IsNonce(m: WireMessage, role: TxRole) { m.SchnorrNonce? && m.role == role }
  predicate IsPartial(m: WireMessage, role: TxRole) { m.PartialSignature? && m.role == role }

  /** How often the party announced a nonce for a role. */
  function NonceCount(out: seq<WireMessage>, role: TxRole): nat {
    if out == [] then 0
    else NonceCount(out[..|out| - 1], role) + if IsNonce(out[|out| - 1], role) then 1 else 0
  }

  /** How often the party signed for a role. */
  function SignCount(out: seq<WireMessage>, role: TxRole): nat {
    if out == [] then 0
    else SignCount(out[..|out| - 1], role) + if IsPartial(out[|out| - 1], role) then 1 else 0
  }

  lemma {:induction false} CountsAdd(a: seq<WireMessage>, b: seq<WireMessage>, role: TxRole)
    ensures NonceCount(a + b, role) == NonceCount(a, role) + NonceCount(b, role)
    ensures SignCount(a + b, role) == SignCount(a, role) + SignCount(b, role)
  {
    if b == [] {
      assert a + b == a;
    } else {
      var n := |b| - 1;
      assert (a + b)[..|a| + n] == a + b[..n];
      CountsAdd(a, b[..n], role);
    }
  }

  lemma {:induction false} NoneCounted(out: seq<WireMessage>, role: TxRole)
    requires AllQuiet(out)
    ensures NonceCount(out, role) == 0 && SignCount(out, role) == 0
  {
    if out != [] {
      var n := |out| - 1;
      assert out[n] in out;
      assert forall m {:trigger m in out[..n]} :: m in out[..n] ==> m in out && Quiet(m);
      NoneCounted(out[..n], role);
    }
  }

  // ---------- the invariant of one role ----------

  /** What the runtime of a role says about what was broadcast for it. */
  ghost predicate RoleUse(me: Pid, musig: map<TxRole, MusigRuntime>, out: seq<WireMessage>, role: TxRole) {
    && NonceCount(out, role) == (if role in musig then 1 else 0)
    && SignCount(out, role) == (if role in musig && musig[role].RoundTwo? then 1 else 0)
    && forall m {:trigger m in out} :: m in out ==>
         && (IsNonce(m, role) ==>
               && m.pub.of.signer == me && role in musig && m.pub.of.msg == musig[role].msg
               && (musig[role].RoundOne? ==> m.pub.of == musig[role].sec))
         && (IsPartial(m, role) ==>
               && m.sig.signer == me && m.sig.inputs.msg == m.sig.sec.msg
               && SchnorrNonce(role, PubNonce(m.sig.sec)) in out)
  }

  predicate Quiet(m: WireMessage) { !m.SchnorrNonce? && !m.PartialSignature? }

  ghost predicate AllQuiet(out: seq<WireMessage>) {
    forall m {:trigger m in out} :: m in out ==> Quiet(m)
  }

  /** Neither announces a nonce nor signs. */
  ghost predicate Neutral(s: Session, o: Outcome) {
    KeepsMe(s, o) && KeepsRounds(s, o) && StaysQuiet(o)
  }

  ghost predicate KeepsMe(s: Session, o: Outcome) { o.Ok? ==> o.session.me == s.me }
  ghost predicate KeepsRounds(s: Session, o: Outcome) { o.Ok? ==> o.session.musig == s.musig }
  ghost predicate StaysQuiet(o: Outcome) { o.Ok? ==> AllQuiet(o.out) }

  lemma QuietOne(m: WireMessage)
    requires Quiet(m)
    ensures AllQuiet([m]) && AllQuiet([])
  {
  }

  lemma QuietMore(out: seq<WireMessage>, m: WireMessage)
    requires AllQuiet(out) && Quiet(m)
    ensures AllQuiet(out + [m])
  {
  }

  lemma NeutralKeeps(me: Pid, musig: map<TxRole, MusigRuntime>, out: seq<WireMessage>, more: seq<WireMessage>, role: TxRole)
    requires RoleUse(me, musig, out, role)
    requires AllQuiet(more)
    ensures RoleUse(me, musig, out + more, role)
  {
    CountsAdd(out, more, role);
    NoneCounted(more, role);
    forall m {:trigger m in out + more} | m in out + more
      ensures m in out || (m in more && Quiet(m))
    {
    }
  }

  // ---------- the first round ----------

  /** A runtime with its nonce still unused, as `begin_refund_signing` and `begin_spend_signing` make it. */
  ghost predicate FreshRounds(me: Pid, musig: map<TxRole, MusigRuntime>, out: seq<WireMessage>, roles: seq<TxRole>) {
    && (forall r {:trigger r in musig} :: r in musig <==> r in roles)
    && (forall r {:trigger musig[r]} :: r in musig ==> musig[r].RoundOne? && musig[r].sec.signer == me && musig[r].sec.msg == musig[r].msg)
    && |out| == |roles|
    && forall i {:trigger out[i]} :: 0 <= i < |out| ==>
         && roles[i] in musig && musig[roles[i]].RoundOne?
         && out[i] == SchnorrNonce(roles[i], PubNonce(musig[roles[i]].sec))
  }

  lemma {:induction false} FreshCount(musig: map<TxRole, MusigRuntime>, out: seq<WireMessage>, roles: seq<TxRole>, role: TxRole)
    requires |out| == |roles|
    requires forall i {:trigger out[i]} :: 0 <= i < |out| ==> out[i].SchnorrNonce? && out[i].role == roles[i]
    requires forall i, j :: 0 <= i < j < |roles| ==> roles[i] != roles[j]
    ensures NonceCount(out, role) == (if role in roles then 1 else 0) && SignCount(out, role) == 0
  {
    if roles != [] {
      var n := |roles| - 1;
      assert roles == roles[..n] + [roles[n]];
      FreshCount(musig, out[..n], roles[..n], role);
      assert roles[n] !in roles[..n];
    }
  }

  lemma FreshIsUsed(me: Pid, musig: map<TxRole, MusigRuntime>, out: seq<WireMessage>, roles: seq<TxRole>, role: TxRole)
    requires FreshRounds(me, musig, out, roles)
    requires forall i, j :: 0 <= i < j < |roles| ==> roles[i] != roles[j]
    ensures RoleUse(me, musig, out, role)
  {
    FreshCount(musig, out, roles, role);
  }

  lemma FreshGrows(me: Pid, musig: map<TxRole, MusigRuntime>, out: seq<WireMessage>, roles: seq<TxRole>, role: TxRole, first: MusigRuntime)
    requires FreshRounds(me, musig, out, roles) && role !in roles
    requires first.RoundOne? && first.sec.signer == me && first.sec.msg == first.msg
    ensures FreshRounds(me, musig[role := first], out + [SchnorrNonce(role, PubNonce(first.sec))], roles + [role])
  {
    assert forall i {:trigger roles[i]} :: 0 <= i < |roles| ==> roles[i] in roles;
  }

  lemma FirstRound(env: Env, leader: Pid, s: Session, draw: Draw, role: TxRole) returns (first: MusigRuntime)
    requires IsRing(env.ring) && leader in env.ring && LocksBuildable(env) && RoleInRing(env, role)
    ensures first.RoundOne? && first.sec.signer == s.me && first.sec.msg == first.msg
    ensures BeginRole(env, leader, s, draw, role).musig == s.musig[role := first] && BeginRole(env, leader, s, draw, role).me == s.me
    ensures first.sec == NewNonce(env, leader, s.me, draw, role)
  {
    hide IsRing, LocksBuildable, UnsignedFor, MessageFor, TweakFor;
    first := RoundOne(MessageFor(env, leader, role), TweakFor(env, role), NewNonce(env, leader, s.me, draw, role));
  }

  lemma {:induction false} BeginSigningFresh(env: Env, leader: Pid, s: Session, draw: Draw, roles: seq<TxRole>)
    requires IsRing(env.ring) && leader in env.ring && LocksBuildable(env) && s.musig == map[]
    requires forall r :: r in roles ==> RoleInRing(env, r)
    requires forall i, j :: 0 <= i < j < |roles| ==> roles[i] != roles[j]
    ensures FreshRounds(s.me, BeginSigning(env, leader, s, draw, roles).musig, NonceMessages(env, leader, s.me, draw, roles), roles)
    ensures BeginSigning(env, leader, s, draw, roles).me == s.me
  {
    hide IsRing, LocksBuildable, UnsignedFor, MessageFor, TweakFor, NewNonce, BeginRole;
    if roles == [] {
    } else {
      hide FreshRounds;
      var n := |roles| - 1;
      assert roles[n] in roles && forall r :: r in roles[..n] ==> r in roles;
      assert roles == roles[..n] + [roles[n]];
      BeginSigningFresh(env, leader, s, draw, roles[..n]);
      assert roles[n] !in roles[..n];
      var t := BeginSigning(env, leader, s, draw, roles[..n]);
      var first := FirstRound(env, leader, t, draw, roles[n]);
      FreshGrows(s.me, t.musig, NonceMessages(env, leader, s.me, draw, roles[..n]), roles[..n], roles[n], first);
    }
  }

  // ---------- each call ----------

  ghost predicate AllUses(s: Session, out: seq<WireMessage>) {
    forall role: TxRole {:trigger RoleUse(s.me, s.musig, out, role)} :: RoleUse(s.me, s.musig, out, role)
  }

  /** A step that keeps the use of all roles as it should be. */
  ghost predicate UsesWell(s: Session, out: seq<WireMessage>, o: Outcome) {
    o.Ok? ==> o.session.me == s.me && AllUses(o.session, out + o.out)
  }

  lemma NeutralUses(s: Session, out: seq<WireMessage>, o: Outcome)
    requires AllUses(s, out) && Neutral(s, o)
    ensures UsesWell(s, out, o)
  {
    hide RoleUse;
    if o.Ok? {
      forall role: TxRole
        ensures RoleUse(s.me, o.session.musig, out + o.out, role)
      {
        assert RoleUse(s.me, s.musig, out, role);
        NeutralKeeps(s.me, s.musig, out, o.out, role);
      }
    }
  }

  lemma {:induction false} NothingYet(out: seq<WireMessage>, role: TxRole)
    requires NonceCount(out, role) == 0 && SignCount(out, role) == 0
    ensures forall m {:trigger m in out} :: m in out ==> !IsNonce(m, role) && !IsPartial(m, role)
  {
    if out != [] {
      var n := |out| - 1;
      NothingYet(out[..n], role);
      assert out == out[..n] + [out[n]];
    }
  }

  /** The rounds are opened only while there are none, which is once. */
  lemma OpeningUses(me: Pid, out: seq<WireMessage>, musig: map<TxRole, MusigRuntime>, more: seq<WireMessage>,
        roles: seq<TxRole>, role: TxRole)
    requires RoleUse(me, map[], out, role)
    requires forall m {:trigger m in out} :: m in out ==> !IsNonce(m, role) && !IsPartial(m, role)
    requires FreshRounds(me, musig, more, roles)
    requires forall i, j :: 0 <= i < j < |roles| ==> roles[i] != roles[j]
    ensures RoleUse(me, musig, out + more, role)
  {
    CountsAdd(out, more, role);
    FreshIsUsed(me, musig, more, roles, role);
    forall m {:trigger m in out + more} | m in out + more && (IsNonce(m, role) || IsPartial(m, role))
      ensures m in more
    {
    }
  }

  lemma NoRounds(me: Pid, out: seq<WireMessage>, role: TxRole)
    requires RoleUse(me, map[], out, role)
    ensures NonceCount(out, role) == 0 && SignCount(out, role) == 0
  {
  }

  lemma BeginSessionUses(env: Env, s: Session, draw: Draw, out: seq<WireMessage>)
    requires IsRing(env.ring) && s.musig == map[] && AllUses(s, out)
    ensures UsesWell(s, out, BeginSession(env, s, draw))
  {
    hide IsRing, LocksBuildable, ElectedLeader, BeginSigning, NonceMessages, Locks, AllRoles, RoleUse, FreshRounds;
    if LocksBuildable(env) {
      assert 0 < |env.ring| by { RingHasSome(env.ring); }
      var leader := ElectedLeader(env, s.leaderNonces);
      var s2 := s.(leader := Some(leader)).TransitionTo(RefundAndSpendTxsSigning);
      var s3 := s2.(lockTxs := s2.lockTxs + Locks(env, leader));
      var roles := AllRoles(env);
      BeginSigningFresh(env, leader, s3, draw, roles);
      var musig := BeginSigning(env, leader, s3, draw, roles).musig;
      forall role: TxRole
        ensures RoleUse(s.me, musig, out + NonceMessages(env, leader, s.me, draw, roles), role)
      {
        assert RoleUse(s.me, s.musig, out, role);
        NoRounds(s.me, out, role);
        NothingYet(out, role);
        OpeningUses(s.me, out, musig, NonceMessages(env, leader, s.me, draw, roles), roles, role);
      }
    }
  }

  /** Signing moves the runtime on, so the nonce cannot sign again. */
  lemma SigningUses(me: Pid, musig: map<TxRole, MusigRuntime>, out: seq<WireMessage>, signed: TxRole, sig: PartialSig, role: TxRole)
    requires RoleUse(me, musig, out, role) && RoleUse(me, musig, out, signed)
    requires signed in musig && musig[signed].RoundOne?
    requires sig.signer == me && sig.sec == musig[signed].sec && sig.inputs.msg == musig[signed].msg
    ensures RoleUse(me, musig[signed := RoundTwo(musig[signed].msg, musig[signed].taprootTweak)],
          out + [PartialSignature(signed, sig)], role)
  {
    var m := PartialSignature(signed, sig);
    var announced := AnnouncedNonce(me, musig, out, signed);
    CountsAdd(out, [m], role);
    OneCounted(m, role);
  }

  lemma OneCounted(m: WireMessage, role: TxRole)
    ensures NonceCount([m], role) == (if IsNonce(m, role) then 1 else 0) && SignCount([m], role) == (if IsPartial(m, role) then 1 else 0)
  {
    assert [m][..0] == [];
  }

  lemma {:induction false} CountedIsThere(out: seq<WireMessage>, role: TxRole) returns (m: WireMessage)
    requires NonceCount(out, role) > 0
    ensures m in out && IsNonce(m, role)
  {
    var n := |out| - 1;
    if IsNonce(out[n], role) {
      m := out[n];
    } else {
      m := CountedIsThere(out[..n], role);
    }
  }

  lemma AnnouncedNonce(me: Pid, musig: map<TxRole, MusigRuntime>, out: seq<WireMessage>, role: TxRole) returns (m: WireMessage)
    requires RoleUse(me, musig, out, role) && role in musig && musig[role].RoundOne?
    ensures m == SchnorrNonce(role, PubNonce(musig[role].sec)) && m in out && musig[role].sec.msg == musig[role].msg
  {
    m := CountedIsThere(out, role);
  }

  lemma RoundTwoUses(env: Env, s: Session, role: TxRole, out: seq<WireMessage>)
    requires AllUses(s, out)
    ensures UsesWell(s, out, EnterRoundTwo(env, s, role))
  {
    hide RoleUse;
    if role in s.musig && s.musig[role].RoundOne? {
      var sig := PartialSig(s.me, s.musig[role].sec, GatheredInputs(env, s, role));
      var musig := s.musig[role := RoundTwo(s.musig[role].msg, s.musig[role].taprootTweak)];
      var out' := out + [PartialSignature(role, sig)];
      forall other: TxRole
        ensures RoleUse(s.me, musig, out', other)
      {
        assert RoleUse(s.me, s.musig, out, other) && RoleUse(s.me, s.musig, out, role);
        SigningUses(s.me, s.musig, out, role, sig, other);
      }
    } else {
      assert out + [] == out;
    }
  }

  // ---------- the handlers that neither announce nor sign ----------

  lemma PointFrame(env: Env, s: Session, point: Point, from: Pid, draw: Draw)
    ensures KeepsMe(s, OnAdaptorPoint(env, s, point, from, draw))
    ensures KeepsRounds(s, OnAdaptorPoint(env, s, point, from, draw))
  {
    hide HasAll;
    var o := OnAdaptorPoint(env, s, point, from, draw);
    var s1 := s.(points := s.points[from := point]);
    if HasAll(env.ring, s1.points) && s1.state == AwaitingAdaptorPoints {
      var s2 := s1.TransitionTo(AwaitingLeaderElectionCommitments);
      if s.me in s.leaderCommitments {
        assert o == Ok(s2, [], []);
      } else {
        assert o.Ok? && o.session == StartElection(env, s2, draw);
      }
    } else {
      assert o == Ok(s1, [], []);
    }
  }

  lemma PointNeutral(env: Env, s: Session, point: Point, from: Pid, draw: Draw)
    ensures Neutral(s, OnAdaptorPoint(env, s, point, from, draw))
  {
    hide HasAll, AllQuiet, KeepsMe, KeepsRounds;
    PointFrame(env, s, point, from, draw);
    QuietOne(LeaderElectionCommitment(env.sha256(draw.leaderNonce)));
    if HasAll(env.ring, s.points[from := point]) && s.state == AwaitingAdaptorPoints {
      if s.me in s.leaderCommitments {} else {}
    } else {
    }
  }

  lemma AddCommitmentFrame(env: Env, s: Session, out: seq<WireMessage>, commitment: Bytes32, from: Pid)
    ensures KeepsMe(s, AddCommitment(env, s, out, commitment, from))
    ensures KeepsRounds(s, AddCommitment(env, s, out, commitment, from))
  {
    hide HasAll;
    if !HasAll(env.ring, s.leaderCommitments[from := commitment]) || s.state == AwaitingLeaderElectionNonces {
    } else if s.me !in s.leaderNonces {
    } else {
    }
  }

  lemma AddCommitmentNeutral(env: Env, s: Session, out: seq<WireMessage>, commitment: Bytes32, from: Pid)
    requires AllQuiet(out)
    ensures Neutral(s, AddCommitment(env, s, out, commitment, from))
  {
    hide HasAll, AllQuiet, KeepsMe, KeepsRounds;
    AddCommitmentFrame(env, s, out, commitment, from);
    if !HasAll(env.ring, s.leaderCommitments[from := commitment]) || s.state == AwaitingLeaderElectionNonces {
    } else if s.me !in s.leaderNonces {
    } else {
      QuietMore(out, LeaderElectionNonce(s.leaderNonces[s.me]));
    }
  }

  lemma CommitmentNeutral(env: Env, s: Session, commitment: Bytes32, from: Pid, draw: Draw)
    ensures Neutral(s, OnCommitment(env, s, commitment, from, draw))
  {
    hide AddCommitment, AllQuiet;
    QuietOne(LeaderElectionCommitment(env.sha256(draw.leaderNonce)));
    if s.me !in s.leaderCommitments {
      var s1 := StartElection(env, s, draw).TransitionTo(AwaitingLeaderElectionCommitments);
      AddCommitmentNeutral(env, s1, [LeaderElectionCommitment(env.sha256(draw.leaderNonce))], commitment, from);
    } else {
      AddCommitmentNeutral(env, s, [], commitment, from);
    }
  }

  lemma FundFrame(env: Env, s: Session, accepted: bool)
    ensures KeepsMe(s, Fund(env, s, accepted))
    ensures KeepsRounds(s, Fund(env, s, accepted))
  {
    var o := Fund(env, s, accepted);
    var s1 := s.TransitionTo(Funding);
    if s.me !in s.lockTxs {
      assert o == Panic;
    } else if accepted {
      assert o.Ok? && o.session == s1.(locksBroadcast := s1.locksBroadcast + {s.me}).TransitionTo(AwaitingLockConfirmations);
    } else {
      assert o.Ok? && o.session == s1.TransitionTo(Failed);
    }
  }

  lemma FundNeutral(env: Env, s: Session, accepted: bool)
    ensures Neutral(s, Fund(env, s, accepted))
  {
    hide AllQuiet, KeepsMe, KeepsRounds;
    FundFrame(env, s, accepted);
    QuietOne(LockTxBroadcast);
    if s.me !in s.lockTxs {
    } else if accepted {
    } else {
    }
  }

  lemma FinalizeFrame(env: Env, s: Session, role: TxRole)
    ensures
      var o := FinalizeRole(env, s, role);
      o.Ok? ==> o.session.musig == s.musig && o.session.me == s.me && o.out == []
  {
    hide AddsUp, GatheredInputs;
  }

  lemma PartialNeutral(env: Env, s: Session, role: TxRole, sig: PartialSig, from: Pid, accepted: bool)
    ensures Neutral(s, OnPartialSignature(env, s, role, sig, from, accepted))
  {
    hide AllOthersHave, AllSigned, Fund, FinalizeRole, AllQuiet;
    QuietOne(LockTxBroadcast);
    var s1 := s.(partials := s.partials[(from, role) := sig]);
    FinalizeFrame(env, s1, role);
    var f := if AllOthersHave(env.ring, s.me, s1.partials, role) then FinalizeRole(env, s1, role) else Ok(s1, [], []);
    if f.Ok? {
      FundNeutral(env, f.session, accepted);
      if AllSigned(env.ring, f.session) {} else {}
    } else {
    }
  }

  lemma ClaimNeutral(s: Session, secret: Secret, out: seq<WireMessage>)
    requires AllQuiet(out)
    ensures Neutral(s, ClaimWith(s, secret, out))
  {
    hide AdaptMySpend, SpendSubmission, AllQuiet;
    AdaptFrame(s, secret);
    if AdaptMySpend(s, secret).Ok? {} else {}
  }

  lemma SecretNeutral(env: Env, s: Session, secret: Secret, from: Pid)
    ensures Neutral(s, OnSecretReveal(env, s, secret, from))
  {
    hide HasAll, ClaimWith, AllQuiet;
    QuietOne(SpendTxBroadcast);
    var s1 := s.(secrets := s.secrets[from := secret]);
    ClaimNeutral(s1, env.sumSecrets(s1.secrets), [SpendTxBroadcast]);
    if HasAll(env.ring, s1.secrets) {
      match s1.leader {
        case None =>
        case Some(leader) => if s.me == leader {} else {}
      }
    } else {
    }
  }

  lemma LockPollFrame(env: Env, s: Session, p: Pid, onChain: bool)
    ensures KeepsMe(s, OnLockPoll(env, s, p, onChain))
    ensures KeepsRounds(s, OnLockPoll(env, s, p, onChain))
  {
    hide AllConfirmed;
    if s.leader != Some(s.me) {} else {}
  }

  lemma LockPollNeutral(env: Env, s: Session, p: Pid, onChain: bool)
    ensures Neutral(s, OnLockPoll(env, s, p, onChain))
  {
    hide AllConfirmed, AllQuiet, KeepsMe, KeepsRounds;
    LockPollFrame(env, s, p, onChain);
    QuietOne(SpendTxBroadcast);
    if s.me in s.secrets {
      QuietOne(SecretReveal(s.secrets[s.me]));
    }
    if s.leader != Some(s.me) {} else {}
  }

  lemma LeaderSpendPollNeutral(s: Session, leader: Pid, found: Option<Secret>)
    ensures Neutral(s, OnLeaderSpendPoll(s, leader, found))
  {
    hide ClaimWith, AllQuiet;
    QuietOne(SpendTxBroadcast);
    if s.state == AwaitingLeaderSpend && found.Some? {
      ClaimNeutral(s.(secrets := s.secrets[leader := found.value]), found.value, []);
    } else {
    }
  }

  lemma RefundPollFrame(s: Session, open: bool, accepted: bool)
    ensures KeepsMe(s, OnRefundPoll(s, open, accepted))
    ensures KeepsRounds(s, OnRefundPoll(s, open, accepted))
  {
    hide RefundSubmission;
    var o := OnRefundPoll(s, open, accepted);
    if s.state.Terminal() || !open {
      assert o == Ok(s, [], []);
    } else {
      assert o.Ok? && o.session == s.TransitionTo(o.session.state);
    }
  }

  lemma RefundPollNeutral(s: Session, open: bool, accepted: bool)
    ensures Neutral(s, OnRefundPoll(s, open, accepted))
  {
    hide AllQuiet, KeepsMe, KeepsRounds;
    RefundPollFrame(s, open, accepted);
    QuietOne(SpendTxBroadcast);
    if s.state.Terminal() || !open {
    } else if Refund(s.me) in s.signedTxs {
    } else {
    }
  }

  lemma StartNeutral(s: Session)
    ensures Neutral(s, Start(s))
  {
    hide AllQuiet;
    if s.me in s.points {
      QuietOne(AdaptorPoint(s.points[s.me]));
    }
    if s.me !in s.points {
    } else if s.state == Initialized {
    } else {
    }
  }

  // ---------- the theorem ----------

  lemma NonceUses(env: Env, s: Session, nonce: Bytes32, from: Pid, draw: Draw, out: seq<WireMessage>)
    requires IsRing(env.ring) && AllUses(s, out)
    ensures UsesWell(s, out, OnLeaderNonce(env, s, nonce, from, draw))
  {
    hide IsRing, HasAll, BeginSession, RoleUse;
    var s1 := s.(leaderNonces := s.leaderNonces[from := nonce]);
    NeutralUses(s, out, Ok(s1, [], []));
    if s.musig == map[] {
      BeginSessionUses(env, s1, draw, out);
    }
  }

  lemma SchnorrUses(env: Env, s: Session, role: TxRole, pub: PubNonce, from: Pid, out: seq<WireMessage>)
    requires AllUses(s, out)
    ensures UsesWell(s, out, OnSchnorrNonce(env, s, role, pub, from))
  {
    hide AllOthersHave, EnterRoundTwo, RoleUse;
    var s1 := s.(nonces := s.nonces[(from, role) := pub]);
    NeutralUses(s, out, Ok(s1, [], []));
    RoundTwoUses(env, s1, role, out);
  }

  lemma MessageUses(env: Env, s: Session, msg: WireMessage, from: Pid, draw: Draw, accepted: bool, out: seq<WireMessage>)
    requires IsRing(env.ring) && AllUses(s, out)
    ensures UsesWell(s, out, HandleMessage(env, s, msg, from, draw, accepted))
  {
    hide IsRing, OnAdaptorPoint, OnCommitment, OnLeaderNonce, OnSchnorrNonce, OnPartialSignature, OnSecretReveal,
         UsesWell, AllUses;
    match msg {
      case AdaptorPoint(point) =>
        PointNeutral(env, s, point, from, draw);
        NeutralUses(s, out, OnAdaptorPoint(env, s, point, from, draw));
      case LeaderElectionCommitment(commitment) =>
        CommitmentNeutral(env, s, commitment, from, draw);
        NeutralUses(s, out, OnCommitment(env, s, commitment, from, draw));
      case LeaderElectionNonce(nonce) => NonceUses(env, s, nonce, from, draw, out);
      case SchnorrNonce(role, pub) => SchnorrUses(env, s, role, pub, from, out);
      case PartialSignature(role, sig) =>
        PartialNeutral(env, s, role, sig, from, accepted);
        NeutralUses(s, out, OnPartialSignature(env, s, role, sig, from, accepted));
      case LockTxBroadcast => NeutralUses(s, out, Ok(s.(locksBroadcast := s.locksBroadcast + {from}), [], []));
      case SecretReveal(secret) =>
        SecretNeutral(env, s, secret, from);
        NeutralUses(s, out, OnSecretReveal(env, s, secret, from));
      case SpendTxBroadcast =>
    }
    NeutralUses(s, out, Ok(s, [], []));
  }

  lemma CallUses(env: Env, s: Session, call: Call, out: seq<WireMessage>)
    requires IsRing(env.ring) && AllUses(s, out)
    ensures UsesWell(s, out, Perform(env, s, call))
  {
    hide IsRing, HandleMessage, OnLockPoll, OnLeaderSpendPoll, OnRefundPoll, Start, UsesWell, AllUses, Neutral;
    match call {
      case StartCall =>
        StartNeutral(s);
        NeutralUses(s, out, Start(s));
      case Message(msg, from, draw, accepted) => MessageUses(env, s, msg, from, draw, accepted, out);
      case LockPoll(owner, onChain) =>
        LockPollNeutral(env, s, owner, onChain);
        NeutralUses(s, out, OnLockPoll(env, s, owner, onChain));
      case LeaderSpendPoll(leader, found) =>
        LeaderSpendPollNeutral(s, leader, found);
        NeutralUses(s, out, OnLeaderSpendPoll(s, leader, found));
      case RefundPoll(open, accepted) =>
        RefundPollNeutral(s, open, accepted);
        NeutralUses(s, out, OnRefundPoll(s, open, accepted));
    }
  }

  lemma {:induction false} CallsUse(env: Env, s: Session, calls: seq<Call>)
    requires IsRing(env.ring) && s.musig == map[]
    ensures UsesWell(s, [], PerformAll(env, s, calls))
  {
    hide IsRing, Perform, AllUses;
    if calls == [] {
      NothingUsed(s);
      var none: seq<WireMessage> := [];
      assert none + none == none;
    } else {
      var n := |calls| - 1;
      CallsUse(env, s, calls[..n]);
      match PerformAll(env, s, calls[..n]) {
        case Panic =>
        case Ok(s1, out1, _) =>
          assert [] + out1 == out1;
          CallUses(env, s1, calls[n], out1);
          match Perform(env, s1, calls[n]) {
            case Panic =>
            case Ok(_, out2, _) => assert [] + (out1 + out2) == out1 + out2;
          }
      }
    }
  }

  lemma NothingUsed(s: Session)
    requires s.musig == map[]
    ensures AllUses(s, [])
  {
  }

  /** Per role the party announces one nonce at most and signs once at most, with that nonce and for
      the message the nonce was made for. */
  ghost predicate NonceUsedOnce(me: Pid, out: seq<WireMessage>) {
    && (forall role: TxRole {:trigger NonceCount(out, role)} :: NonceCount(out, role) <= 1)
    && (forall role: TxRole {:trigger SignCount(out, role)} :: SignCount(out, role) <= 1)
    && (forall m {:trigger m in out} :: m in out && m.PartialSignature? ==>
          && m.sig.signer == me && m.sig.inputs.msg == m.sig.sec.msg
          && SchnorrNonce(m.role, PubNonce(m.sig.sec)) in out)
  }

  /** Whatever is called on a new session, in whatever order and however often. */
  lemma NonceSingleUse(env: Env, me: Pid, secret: Secret, point: Point, calls: seq<Call>)
    requires IsRing(env.ring)
    ensures
      var o := PerformAll(env, NewSession(me, secret, point), calls);
      o.Ok? ==> NonceUsedOnce(me, o.out)
  {
    hide IsRing, Perform, PerformAll;
    var s := NewSession(me, secret, point);
    CallsUse(env, s, calls);
    var o := PerformAll(env, s, calls);
    if o.Ok? {
      assert [] + o.out == o.out;
      UsedOnce(me, o.session, o.out);
    }
  }

  lemma UsedOnce(me: Pid, s: Session, out: seq<WireMessage>)
    requires s.me == me && AllUses(s, out)
    ensures NonceUsedOnce(me, out)
  {
    forall role: TxRole
      ensures NonceCount(out, role) <= 1 && SignCount(out, role) <= 1
    {
      assert RoleUse(me, s.musig, out, role);
    }
    forall m {:trigger m in out} | m in out && m.PartialSignature?
      ensures m.sig.signer == me && m.sig.inputs.msg == m.sig.sec.msg && SchnorrNonce(m.role, PubNonce(m.sig.sec)) in out
    {
      assert RoleUse(me, s.musig, out, m.role) && IsPartial(m, m.role);
    }
  }
}
