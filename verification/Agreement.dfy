/** What two honest parties agree on, whatever the others send them and each other's links do, as long as
    nobody forges their partial signatures: one leader, and one set of inputs for each spend both hold. */
module Agreement {
  import opened Ring
  import opened Timelocks
  import opened Protocol
  import opened NonceUse
  import AnySetup
  import opened FundedSessions
  import C = Chain

  // ---------- where signatures come from ----------

  /** The partial signatures that the calls hand over. */
  ghost function Came(calls: seq<Call>): set<PartialSig> {
    set call | call in calls && call.Message? && call.msg.PartialSignature? :: call.msg.sig
  }

  /** The own partial signatures. */
  ghost function Went(out: seq<WireMessage>): set<PartialSig> {
    set m | m in out && m.PartialSignature? :: m.sig
  }

  /** Everybody has signed with the inputs. */
  ghost predicate SignedByAll(env: Env, inputs: SigningInputs, known: set<PartialSig>) {
    forall p {:trigger p in env.ring} :: p in env.ring ==> SignedBy(p, inputs, known)
  }

  ghost predicate SignedBy(p: Pid, inputs: SigningInputs, known: set<PartialSig>) {
    exists sig {:trigger sig in known} :: sig in known && sig.signer == p && sig.inputs == inputs
  }

  /** The inputs are for the message of the role. */
  predicate MadeFor(musig: map<TxRole, MusigRuntime>, role: TxRole, inputs: SigningInputs) {
    role in musig && inputs.msg == musig[role].msg
  }

  ghost predicate StoredKnown(partials: map<(Pid, TxRole), PartialSig>, known: set<PartialSig>) {
    forall e {:trigger partials[e]} :: e in partials ==> partials[e] in known
  }

  /** Every pre-signature is made of known partial signatures of all. */
  ghost predicate SpendsKnown(env: Env, musig: map<TxRole, MusigRuntime>, sigs: map<TxRole, SigningInputs>, known: set<PartialSig>) {
    forall role: TxRole {:trigger sigs[role]} :: role in sigs ==>
      role.Spend? && sigs[role].adaptor.Some? && MadeFor(musig, role, sigs[role]) && SignedByAll(env, sigs[role], known)
  }

  /** And so is every signed refund. */
  ghost predicate RefundsKnown(env: Env, musig: map<TxRole, MusigRuntime>, signed: map<TxRole, SignedTx>, known: set<PartialSig>) {
    forall role: TxRole {:trigger signed[role]} :: role.Refund? && role in signed ==>
      signed[role].auth.Plain? && MadeFor(musig, role, signed[role].auth.inputs) && SignedByAll(env, signed[role].auth.inputs, known)
  }

  /** The rounds are for the transactions that follow from the leader. */
  ghost predicate RoundsFit(env: Env, leader: Option<Pid>, musig: map<TxRole, MusigRuntime>) {
    && IsRing(env.ring)
    && forall role {:trigger musig[role]} :: role in musig ==>
      && leader.Some? && leader.value in env.ring && LocksBuildable(env) && RoleInRing(env, role)
      && musig[role].msg == MessageFor(env, leader.value, role)
  }

  ghost predicate SigsInv(env: Env, s: Session, known: set<PartialSig>) {
    && IsRing(env.ring)
    && StoredKnown(s.partials, known) && SpendsKnown(env, s.musig, s.adaptorSigs, known)
    && RefundsKnown(env, s.musig, s.signedTxs, known) && RoundsFit(env, s.leader, s.musig)
  }

  ghost predicate KeepsSigs(env: Env, o: Outcome, known: set<PartialSig>) {
    && IsRing(env.ring)
    && (o.Ok? ==> SigsInv(env, o.session, known + Went(o.out)))
  }

  lemma MoreKnown(env: Env, s: Session, known: set<PartialSig>, more: set<PartialSig>)
    requires IsRing(env.ring) && SigsInv(env, s, known) && known <= more
    ensures SigsInv(env, s, more)
  {
    hide IsRing, RoundsFit, MadeFor, SignedByAll;
    forall role {:trigger s.adaptorSigs[role]} | role in s.adaptorSigs
      ensures SignedByAll(env, s.adaptorSigs[role], more)
    {
      MoreSigned(env, s.adaptorSigs[role], known, more);
    }
    forall role: TxRole {:trigger s.signedTxs[role]} | role.Refund? && role in s.signedTxs
      ensures SignedByAll(env, s.signedTxs[role].auth.inputs, more)
    {
      MoreSigned(env, s.signedTxs[role].auth.inputs, known, more);
    }
  }

  lemma MoreSigned(env: Env, inputs: SigningInputs, known: set<PartialSig>, more: set<PartialSig>)
    requires SignedByAll(env, inputs, known) && known <= more
    ensures SignedByAll(env, inputs, more)
  {
    forall p {:trigger p in env.ring} | p in env.ring
      ensures SignedBy(p, inputs, more)
    {
      assert SignedBy(p, inputs, known);
    }
  }

  lemma LeavesInv(env: Env, s: Session, o: Outcome, known: set<PartialSig>)
    requires IsRing(env.ring) && SigsInv(env, s, known) && LeavesSigs(s, o)
    ensures KeepsSigs(env, o, known)
  {
    hide IsRing, RoundsFit, SpendsKnown, StoredKnown, MadeFor, SignedByAll;
    if o.Ok? {
      MoreKnown(env, o.session, known, known + Went(o.out));
    }
  }

  // ---------- opening the rounds ----------

  lemma {:induction false} SigningFits(env: Env, leader: Pid, s: Session, draw: Draw, roles: seq<TxRole>)
    requires IsRing(env.ring) && leader in env.ring && LocksBuildable(env)
    requires forall r :: r in roles ==> RoleInRing(env, r)
    requires s.leader == Some(leader) && RoundsFit(env, s.leader, s.musig)
    ensures
      var t := BeginSigning(env, leader, s, draw, roles);
      && t.leader == s.leader && t.partials == s.partials && t.adaptorSigs == s.adaptorSigs && t.signedTxs == s.signedTxs
      && RoundsFit(env, t.leader, t.musig)
  {
    hide IsRing, LocksBuildable, UnsignedFor, MessageFor, TweakFor, NewNonce;
    if roles != [] {
      var n := |roles| - 1;
      assert roles[n] in roles && forall r :: r in roles[..n] ==> r in roles;
      SigningFits(env, leader, s, draw, roles[..n]);
      var b := BeginSigning(env, leader, s, draw, roles[..n]);
      assert BeginSigning(env, leader, s, draw, roles) == BeginRole(env, leader, b, draw, roles[n]);
    }
  }

  /** The rounds are opened while nothing is signed. */
  lemma BeginSessionKeeps(env: Env, s: Session, draw: Draw, known: set<PartialSig>)
    requires IsRing(env.ring) && SigsInv(env, s, known) && s.musig == map[]
    ensures KeepsSigs(env, BeginSession(env, s, draw), known)
  {
    hide IsRing, LocksBuildable, ElectedLeader, BeginSigning, NonceMessages, Locks, AllRoles, StoredKnown, SignedByAll, Went;
    if LocksBuildable(env) {
      assert 0 < |env.ring| by { AnySetup.RingHasOne(env.ring); }
      var leader := ElectedLeader(env, s.leaderNonces);
      var s1 := s.(leader := Some(leader)).TransitionTo(RefundAndSpendTxsSigning);
      var s2 := s1.(lockTxs := s1.lockTxs + Locks(env, leader));
      SigningFits(env, leader, s2, draw, AllRoles(env));
      var t := BeginSigning(env, leader, s2, draw, AllRoles(env));
      NothingSigned(env, s, t.musig, known);
      assert SigsInv(env, t, known);
      var o := BeginSession(env, s, draw);
      assert o.Ok? && o.session == t;
      MoreKnown(env, t, known, known + Went(o.out));
    }
  }

  lemma NothingSigned(env: Env, s: Session, musig: map<TxRole, MusigRuntime>, known: set<PartialSig>)
    requires IsRing(env.ring) && SigsInv(env, s, known) && s.musig == map[]
    ensures SpendsKnown(env, musig, s.adaptorSigs, known) && RefundsKnown(env, musig, s.signedTxs, known)
  {
    hide IsRing, StoredKnown, SignedByAll;
  }

  lemma NonceKeeps(env: Env, s: Session, nonce: Bytes32, from: Pid, draw: Draw, known: set<PartialSig>)
    requires IsRing(env.ring) && SigsInv(env, s, known)
    ensures KeepsSigs(env, OnLeaderNonce(env, s, nonce, from, draw), known)
  {
    hide IsRing, HasAll, BeginSession, SigsInv;
    var s1 := s.(leaderNonces := s.leaderNonces[from := nonce]);
    assert LeavesSigs(s, Ok(s1, [], []));
    LeavesInv(env, s, Ok(s1, [], []), known);
    NoneWent();
    assert known + {} == known;
    if s.musig == map[] {
      BeginSessionKeeps(env, s1, draw, known);
    }
  }

  lemma NoneWent()
    ensures Went([]) == {}
  {
    var none: seq<WireMessage> := [];
    assert Went(none) == {};
  }

  // ---------- signing ----------

  /** A runtime that moves on keeps its message. */
  lemma RoundsMoveOn(env: Env, s: Session, role: TxRole, known: set<PartialSig>, musig: map<TxRole, MusigRuntime>)
    requires IsRing(env.ring) && SigsInv(env, s, known) && role in s.musig
    requires musig == s.musig[role := RoundTwo(s.musig[role].msg, s.musig[role].taprootTweak)]
    ensures SpendsKnown(env, musig, s.adaptorSigs, known) && RefundsKnown(env, musig, s.signedTxs, known)
    ensures RoundsFit(env, s.leader, musig)
  {
    hide IsRing, StoredKnown, SignedByAll, MessageFor, LocksBuildable;
  }

  lemma StoresOne(partials: map<(Pid, TxRole), PartialSig>, known: set<PartialSig>, e: (Pid, TxRole), sig: PartialSig)
    requires StoredKnown(partials, known)
    ensures StoredKnown(partials[e := sig], known + {sig})
  {
  }

  lemma OneWent(role: TxRole, sig: PartialSig)
    ensures Went([PartialSignature(role, sig)]) == {sig}
  {
    var m := PartialSignature(role, sig);
    assert m in [m];
  }

  lemma RoundTwoKeeps(env: Env, s: Session, role: TxRole, known: set<PartialSig>)
    requires IsRing(env.ring) && SigsInv(env, s, known)
    ensures KeepsSigs(env, EnterRoundTwo(env, s, role), known)
  {
    hide IsRing, GatheredInputs, Went;
    if role in s.musig && s.musig[role].RoundOne? {
      var sig := PartialSig(s.me, s.musig[role].sec, GatheredInputs(env, s, role));
      var musig := s.musig[role := RoundTwo(s.musig[role].msg, s.musig[role].taprootTweak)];
      RoundsMoveOn(env, s, role, known, musig);
      hide SpendsKnown, RefundsKnown, RoundsFit, StoredKnown;
      OneWent(role, sig);
      var t := s.(musig := musig);
      assert SigsInv(env, t, known);
      MoreKnown(env, t, known, known + {sig});
      StoresOne(s.partials, known, (s.me, role), sig);
      assert EnterRoundTwo(env, s, role)
          == Ok(s.(partials := s.partials[(s.me, role) := sig], musig := musig), [PartialSignature(role, sig)], []);
    } else {
      assert EnterRoundTwo(env, s, role) == Ok(s, [], []);
      NoneWent();
      assert known + {} == known;
    }
  }

  lemma SchnorrKeeps(env: Env, s: Session, role: TxRole, pub: PubNonce, from: Pid, known: set<PartialSig>)
    requires IsRing(env.ring) && SigsInv(env, s, known)
    ensures KeepsSigs(env, OnSchnorrNonce(env, s, role, pub, from), known)
  {
    hide IsRing, AllOthersHave, EnterRoundTwo, SigsInv;
    var s1 := s.(nonces := s.nonces[(from, role) := pub]);
    LeavesInv(env, s, Ok(s1, [], []), known);
    NoneWent();
    assert known + {} == known;
    RoundTwoKeeps(env, s1, role, known);
  }

  /** What adds up was signed by all, over the gathered inputs. */
  lemma AddedUp(env: Env, s: Session, role: TxRole, inputs: SigningInputs, known: set<PartialSig>)
    requires StoredKnown(s.partials, known) && AddsUp(env, s, role, inputs)
    ensures SignedByAll(env, inputs, known)
  {
    forall p {:trigger p in env.ring} | p in env.ring
      ensures SignedBy(p, inputs, known)
    {
      assert (p, role) in s.partials && s.partials[(p, role)] in known;
    }
  }

  lemma FinalizeSigs(env: Env, s: Session, role: TxRole, known: set<PartialSig>)
    requires IsRing(env.ring) && SigsInv(env, s, known)
    ensures FinalizeRole(env, s, role).Ok? ==> SigsInv(env, FinalizeRole(env, s, role).session, known)
  {
    hide IsRing, AddsUp, RoundsFit, StoredKnown, SignedByAll;
    var o := FinalizeRole(env, s, role);
    if role in s.musig && s.musig[role].RoundTwo? && o.Ok? {
      var inputs := GatheredInputs(env, s, role);
      AddedUp(env, s, role, inputs, known);
      if role.Spend? {
        assert o.session == s.(adaptorSigs := s.adaptorSigs[role := inputs]);
      } else {
        assert o.session == s.(signedTxs := s.signedTxs[role := SignedTx(s.unsignedTxs[role], Plain(inputs))]);
      }
    } else if o.Ok? {
      assert o.session == s;
    }
  }

  lemma StoresPartial(env: Env, s: Session, e: (Pid, TxRole), sig: PartialSig, s1: Session, known: set<PartialSig>)
    requires IsRing(env.ring) && SigsInv(env, s, known) && s1 == s.(partials := s.partials[e := sig])
    ensures SigsInv(env, s1, known + {sig})
  {
    MoreKnown(env, s, known, known + {sig});
    StoresOne(s.partials, known, e, sig);
    hide IsRing, SpendsKnown, RefundsKnown, RoundsFit, StoredKnown;
  }

  lemma PartialKeeps(env: Env, s: Session, role: TxRole, sig: PartialSig, from: Pid, accepted: bool, known: set<PartialSig>)
    requires IsRing(env.ring) && SigsInv(env, s, known)
    ensures KeepsSigs(env, OnPartialSignature(env, s, role, sig, from, accepted), known + {sig})
  {
    hide IsRing, AllOthersHave, AllSigned, FinalizeRole, Fund, SigsInv, Went;
    var s1 := s.(partials := s.partials[(from, role) := sig]);
    StoresPartial(env, s, (from, role), sig, s1, known);
    FinalizeSigs(env, s1, role, known + {sig});
    NoneWent();
    assert known + {sig} + {} == known + {sig};
    var f := if AllOthersHave(env.ring, s.me, s1.partials, role) then FinalizeRole(env, s1, role) else Ok(s1, [], []);
    if f.Ok? {
      FundLeaves(env, f.session, accepted);
      LeavesInv(env, f.session, Fund(env, f.session, accepted), known + {sig});
    }
  }

  // ---------- any sequence of calls ----------

  ghost function CameWith(msg: WireMessage): set<PartialSig> { if msg.PartialSignature? then {msg.sig} else {} }

  lemma MessageKeepsSigs(env: Env, s: Session, msg: WireMessage, from: Pid, draw: Draw, accepted: bool,
        known: set<PartialSig>)
    requires IsRing(env.ring) && SigsInv(env, s, known)
    ensures KeepsSigs(env, HandleMessage(env, s, msg, from, draw, accepted), known + CameWith(msg))
  {
    hide IsRing, OnAdaptorPoint, OnCommitment, OnLeaderNonce, OnSchnorrNonce, OnPartialSignature, OnSecretReveal,
         SigsInv, Went;
    assert msg.PartialSignature? || known + CameWith(msg) == known;
    MoreKnown(env, s, known, known + CameWith(msg));
    LeavesInv(env, s, Ok(s, [], []), known + CameWith(msg));
    if !s.state.Terminal() {
      var o := HandleMessage(env, s, msg, from, draw, accepted);
      match msg {
        case AdaptorPoint(point) => PointLeaves(env, s, point, from, draw); LeavesInv(env, s, o, known);
        case LeaderElectionCommitment(commitment) => CommitmentLeaves(env, s, commitment, from, draw); LeavesInv(env, s, o, known);
        case LeaderElectionNonce(nonce) => NonceKeeps(env, s, nonce, from, draw, known);
        case SchnorrNonce(role, pub) => SchnorrKeeps(env, s, role, pub, from, known);
        case PartialSignature(role, sig) => PartialKeeps(env, s, role, sig, from, accepted, known);
        case LockTxBroadcast => LeavesInv(env, s, Ok(s.(locksBroadcast := s.locksBroadcast + {from}), [], []), known);
        case SecretReveal(secret) => SecretLeaves(env, s, secret, from); LeavesInv(env, s, o, known);
        case SpendTxBroadcast =>
      }
    }
  }

  lemma CallKeepsSigs(env: Env, s: Session, call: Call, known: set<PartialSig>)
    requires IsRing(env.ring) && SigsInv(env, s, known)
    ensures KeepsSigs(env, Perform(env, s, call), known + if call.Message? then CameWith(call.msg) else {})
  {
    hide IsRing, HandleMessage, OnLockPoll, OnLeaderSpendPoll, OnRefundPoll, Protocol.Start, SigsInv, Went,
         KeepsSigs, LeavesSigs, CameWith;
    assert known + {} == known;
    var o := Perform(env, s, call);
    match call {
      case StartCall => StartLeaves(s); LeavesInv(env, s, o, known);
      case Message(msg, from, draw, accepted) => MessageKeepsSigs(env, s, msg, from, draw, accepted, known);
      case LockPoll(owner, onChain) => LockPollLeaves(env, s, owner, onChain); LeavesInv(env, s, o, known);
      case LeaderSpendPoll(leader, found) => SpendPollLeaves(s, leader, found); LeavesInv(env, s, o, known);
      case RefundPoll(open, accepted) => RefundPollLeaves(s, open, accepted); LeavesInv(env, s, o, known);
    }
  }

  lemma CameMore(calls: seq<Call>, call: Call)
    ensures Came(calls) + (if call.Message? then CameWith(call.msg) else {}) == Came(calls + [call])
  {
    forall sig
      ensures sig in Came(calls + [call]) <==> sig in Came(calls) || (call.Message? && sig in CameWith(call.msg))
    {
      if sig in Came(calls) {
        var c :| c in calls && c.Message? && c.msg.PartialSignature? && c.msg.sig == sig;
        assert c in calls + [call];
      }
      if call.Message? && sig in CameWith(call.msg) {
        assert call in calls + [call];
      }
    }
  }

  lemma WentMore(out: seq<WireMessage>, more: seq<WireMessage>)
    ensures Went(out + more) == Went(out) + Went(more)
  {
    forall sig
      ensures sig in Went(out + more) <==> sig in Went(out) || sig in Went(more)
    {
      if sig in Went(out) {
        var m :| m in out && m.PartialSignature? && m.sig == sig;
        assert m in out + more;
      }
      if sig in Went(more) {
        var m :| m in more && m.PartialSignature? && m.sig == sig;
        assert m in out + more;
      }
    }
  }

  /** Whatever is called on a new session: its pre-signatures and its refund are made of partial signatures that
      have come in or gone out, one of everybody, over the inputs that follow from its leader. */
  lemma {:induction false} CallsKeepSigs(env: Env, me: Pid, secret: Secret, point: Point, calls: seq<Call>)
    requires IsRing(env.ring)
    ensures
      var o := PerformAll(env, NewSession(me, secret, point), calls);
      o.Ok? ==> SigsInv(env, o.session, Came(calls) + Went(o.out))
  {
    hide IsRing, Perform, Came, Went;
    if calls == [] {
      var none: map<TxRole, SignedTx> := map[];
      assert NewSession(me, secret, point).signedTxs == none;
    } else {
      hide SigsInv;
      var n := |calls| - 1;
      CallsKeepSigs(env, me, secret, point, calls[..n]);
      assert calls == calls[..n] + [calls[n]];
      match PerformAll(env, NewSession(me, secret, point), calls[..n]) {
        case Panic =>
        case Ok(s1, out1, _) =>
          var known := Came(calls[..n]) + Went(out1);
          CallKeepsSigs(env, s1, calls[n], known);
          CameMore(calls[..n], calls[n]);
          match Perform(env, s1, calls[n]) {
            case Panic =>
            case Ok(s2, out2, _) =>
              WentMore(out1, out2);
              var with := if calls[n].Message? then CameWith(calls[n].msg) else {};
              assert known + with + Went(out2) == Came(calls) + Went(out1 + out2);
          }
      }
    }
  }

  // ---------- messages tell roles and leaders apart ----------

  lemma LockIsOwners(env: Env, leader: Pid, p: Pid)
    requires IsRing(env.ring) && leader in env.ring && LocksBuildable(env) && p in env.ring
    ensures Locks(env, leader)[p].owner == p && (Locks(env, leader)[p].BitcoinLock? <==> env.ring[p].blockchain.Bitcoin?)
  {
    hide IsRing, Distance;
    LocksAreBuilt(env, leader);
  }

  /** No two roles have the same message, whoever leads. */
  lemma RolesApart(env: Env, a: Pid, b: Pid, r: TxRole, q: TxRole)
    requires IsRing(env.ring) && a in env.ring && b in env.ring && LocksBuildable(env) && RoleInRing(env, r) && RoleInRing(env, q)
    requires MessageFor(env, a, r) == MessageFor(env, b, q)
    ensures r == q
  {
    LockIsOwners(env, a, LockOwner(env, r));
    LockIsOwners(env, b, LockOwner(env, q));
    hide Locks, LocksBuildable;
    if r.Spend? && q.Spend? && r.id != q.id && env.ring[r.id].target == env.ring[q.id].target {
      ClaimantIsUnique(env.ring, r.id, q.id);
    }
  }

  lemma {:induction false} HopApart(ps: Participants, a: Pid, b: Pid, k: nat)
    requires IsRing(ps) && a in ps && b in ps && Hop(ps, a, k) == Hop(ps, b, k)
    ensures a == b
  {
    if k > 0 {
      ClaimantIsUnique(ps, Hop(ps, a, k - 1), Hop(ps, b, k - 1));
      HopApart(ps, a, b, k - 1);
    }
  }

  /** The locktimes of the party's chain are the intended ones, and windows have a length. */
  ghost predicate WindowsTell(env: Env, p: Pid) {
    && p in env.ring
    && 0 < env.anchors.window
    && match env.ring[p].blockchain
       case Bitcoin => BtcFits(env.ring, env.anchors)
       case Cardano => CardanoFits(env.ring, env.anchors, env.systemStart)
  }

  lemma SameMultiple(d: nat, e: nat, c: nat)
    requires 0 < c && d * c == e * c
    ensures d == e
  {
    if d < e {
      ProductMonotone(d + 1, e, c);
      NextMultiple(d, c);
    } else if e < d {
      ProductMonotone(e + 1, d, c);
      NextMultiple(e, c);
    }
  }

  /** What the message of a refund says of its locktime. */
  ghost predicate Says(env: Env, a: Pid, p: Pid, m: SigMessage) {
    && IsRing(env.ring) && a in env.ring && p in env.ring
    && match env.ring[p].blockchain
    case Bitcoin => m.Sighash? && m.tx.RefundTx? && m.tx.locktime == RefundLocktimeBtc(env.ring, a, env.anchors, p)
    case Cardano =>
      && m.PrefixedLockId? && m.lock.CardanoLock?
      && RefundDeadlineMs(env.ring, a, env.anchors, env.systemStart, p) == Some(m.lock.deadlineMs)
  }

  lemma RefundSays(env: Env, a: Pid, p: Pid)
    requires IsRing(env.ring) && a in env.ring && LocksBuildable(env) && p in env.ring
    ensures Says(env, a, p, MessageFor(env, a, Refund(p)))
  {
    hide IsRing, Distance, RefundLocktimeBtc, RefundLocktimeCardano;
    LocksAreBuilt(env, a);
    assert LockFor(env, a, p).Some?;
  }

  lemma RefundTells(env: Env, a: Pid, b: Pid, p: Pid, m: SigMessage)
    requires IsRing(env.ring) && a in env.ring && b in env.ring && p in env.ring && WindowsTell(env, p)
    requires Says(env, a, p, m) && Says(env, b, p, m)
    ensures Distance(env.ring, a, p) == Distance(env.ring, b, p)
  {
    hide IsRing, Distance, RefundLocktimeBtc, RefundDeadlineMs, CeilBlocks, BtcFits, CardanoFits, RefundLocktimeCardano;
    var d, e := Distance(env.ring, a, p), Distance(env.ring, b, p);
    if env.ring[p].blockchain.Bitcoin? {
      BtcLocktimeValue(env.ring, a, env.anchors, p);
      BtcLocktimeValue(env.ring, b, env.anchors, p);
      SameBlocks(env.anchors.startBlock, d, e, env.anchors.window);
    } else {
      CardanoValues(env.ring, a, env.anchors, env.systemStart, p);
      CardanoValues(env.ring, b, env.anchors, env.systemStart, p);
      SameDeadline(env.systemStart, env.anchors.startSlot, d, e, env.anchors.window);
    }
  }

  lemma SameBlocks(start: nat, d: nat, e: nat, window: nat)
    requires 0 < window && start + d * CeilBlocks(window) == start + e * CeilBlocks(window)
    ensures d == e
  {
    SameMultiple(d, e, CeilBlocks(window));
  }

  lemma SameDeadline(start: nat, slot: nat, d: nat, e: nat, window: nat)
    requires 0 < window && (start + (slot + d * window)) * 1000 == (start + (slot + e * window)) * 1000
    ensures d == e
  {
    SameMultiple(d, e, window);
  }

  /** A refund has the locktime of its distance from the leader, so it tells who leads. */
  lemma LeadersApart(env: Env, a: Pid, b: Pid, p: Pid)
    requires IsRing(env.ring) && a in env.ring && b in env.ring && LocksBuildable(env) && p in env.ring && WindowsTell(env, p)
    requires MessageFor(env, a, Refund(p)) == MessageFor(env, b, Refund(p))
    ensures a == b
  {
    RefundSays(env, a, p);
    RefundSays(env, b, p);
    hide MessageFor, Says;
    RefundTells(env, a, b, p, MessageFor(env, a, Refund(p)));
    DistanceIs(env.ring, a, p);
    DistanceIs(env.ring, b, p);
    HopApart(env.ring, a, b, Distance(env.ring, a, p));
  }

  // ---------- two honest parties ----------

  /** A party from its new session on, with everything that was called on it. */
  datatype Life = Life(me: Pid, secret: Secret, point: Point, calls: seq<Call>)

  ghost function Comes(env: Env, l: Life): Outcome {
    PerformAll(env, NewSession(l.me, l.secret, l.point), l.calls)
  }

  /** No partial signature of the party has come in that it did not send. */
  ghost predicate Unforged(calls: seq<Call>, b: Pid, out: seq<WireMessage>) {
    forall sig {:trigger sig in Came(calls)} :: sig in Came(calls) && sig.signer == b ==> sig in Went(out)
  }

  /** A session of the party with what it has sent, and what is known of both. */
  ghost predicate Lived(env: Env, l: Life, s: Session, out: seq<WireMessage>) {
    && IsRing(env.ring)
    && s.me == l.me && SigsInv(env, s, Came(l.calls) + Went(out)) && AllUses(s, out)
  }

  lemma LivesSo(env: Env, l: Life, o: Outcome)
    requires IsRing(env.ring) && o == Comes(env, l) && o.Ok?
    ensures Lived(env, l, o.session, o.out)
  {
    hide IsRing, PerformAll, SigsInv, AllUses, Came, Went;
    CallsKeepSigs(env, l.me, l.secret, l.point, l.calls);
    CallsUse(env, NewSession(l.me, l.secret, l.point), l.calls);
    assert [] + o.out == o.out;
  }

  /** What a party signs is for its own leader. */
  lemma OwnSays(env: Env, l: Life, s: Session, out: seq<WireMessage>, sig: PartialSig) returns (role: TxRole)
    requires IsRing(env.ring) && Lived(env, l, s, out) && sig in Went(out)
    ensures sig.signer == l.me && s.leader.Some? && s.leader.value in env.ring && LocksBuildable(env) && RoleInRing(env, role)
    ensures sig.inputs.msg == MessageFor(env, s.leader.value, role) && PartialSignature(role, sig) in out
  {
    hide IsRing, StoredKnown, SpendsKnown, RefundsKnown, MessageFor, LocksBuildable, NonceCount, SignCount, Came;
    var m :| m in out && m.PartialSignature? && m.sig == sig;
    role := m.role;
    assert m == PartialSignature(role, sig);
    assert RoleUse(s.me, s.musig, out, role);
    assert IsPartial(m, role);
    var nonce := SchnorrNonce(role, PubNonce(sig.sec));
    assert nonce in out && IsNonce(nonce, role);
  }

  /** What is held is over the message of the role, and everybody has signed it. */
  lemma HeldSays(env: Env, l: Life, s: Session, out: seq<WireMessage>, role: TxRole, p: Pid) returns (sig: PartialSig)
    requires IsRing(env.ring) && Lived(env, l, s, out) && Held(s, role).Some? && p in env.ring
    ensures sig in Came(l.calls) + Went(out) && sig.signer == p && sig.inputs == Held(s, role).value
    ensures s.leader.Some? && s.leader.value in env.ring && LocksBuildable(env) && RoleInRing(env, role)
    ensures sig.inputs.msg == MessageFor(env, s.leader.value, role)
  {
    hide IsRing, StoredKnown, MessageFor, LocksBuildable, AllUses, Came, Went;
    var inputs := Held(s, role).value;
    assert MadeFor(s.musig, role, inputs) && SignedByAll(env, inputs, Came(l.calls) + Went(out));
    assert SignedBy(p, inputs, Came(l.calls) + Went(out));
    sig :| sig in Came(l.calls) + Went(out) && sig.signer == p && sig.inputs == inputs;
  }

  /** What one party holds, another one has signed itself, for the same role. */
  lemma SignedThere(env: Env, a: Life, s: Session, outA: seq<WireMessage>, b: Life, t: Session,
        outB: seq<WireMessage>, role: TxRole)
    returns (sig: PartialSig)
    requires IsRing(env.ring) && Lived(env, a, s, outA) && Lived(env, b, t, outB) && b.me in env.ring
    requires Held(s, role).Some? && Unforged(a.calls, b.me, outB) && (a.me == b.me ==> outA == outB)
    ensures PartialSignature(role, sig) in outB && sig.inputs == Held(s, role).value
    ensures s.leader.Some? && t.leader.Some? && s.leader.value in env.ring && t.leader.value in env.ring && LocksBuildable(env)
    ensures RoleInRing(env, role) && MessageFor(env, s.leader.value, role) == MessageFor(env, t.leader.value, role)
  {
    hide IsRing, SigsInv, AllUses, Came, Went, MessageFor, LocksBuildable, Held;
    sig := HeldSays(env, a, s, outA, role, b.me);
    if sig in Went(outA) {
      var r := OwnSays(env, a, s, outA, sig);
    }
    assert sig in Went(outB);
    var r := OwnSays(env, b, t, outB, sig);
    RolesApart(env, s.leader.value, t.leader.value, role, r);
  }

  /** One leader: whoever holds a signed refund has the leader of every party whose signatures nobody forges. */
  lemma OneLeader(env: Env, a: Life, o: Outcome, b: Life, o': Outcome, p: Pid)
    requires IsRing(env.ring) && o == Comes(env, a) && o' == Comes(env, b) && o.Ok? && o'.Ok? && a.me != b.me && b.me in env.ring
    requires Refund(p) in o.session.signedTxs && p in env.ring && WindowsTell(env, p)
    requires Unforged(a.calls, b.me, o'.out)
    ensures o.session.leader.Some? && o'.session.leader == o.session.leader
  {
    hide IsRing, PerformAll, SigsInv, AllUses, Came, Went, MessageFor, LocksBuildable, WindowsTell, Unforged, Lived;
    LivesSo(env, a, o);
    LivesSo(env, b, o');
    assert Held(o.session, Refund(p)).Some?;
    var sig := SignedThere(env, a, o.session, o.out, b, o'.session, o'.out, Refund(p));
    LeadersApart(env, o.session.leader.value, o'.session.leader.value, p);
  }

  /** A party signs once per role. */
  lemma {:induction false} OneSigned(out: seq<WireMessage>, role: TxRole, one: PartialSig, two: PartialSig)
    requires SignCount(out, role) <= 1 && PartialSignature(role, one) in out && PartialSignature(role, two) in out
    ensures one == two
  {
    var n := |out| - 1;
    if IsPartial(out[n], role) {
      NotSigned(out[..n], role);
      assert out == out[..n] + [out[n]];
    } else {
      assert out == out[..n] + [out[n]];
      OneSigned(out[..n], role, one, two);
    }
  }

  lemma {:induction false} NotSigned(out: seq<WireMessage>, role: TxRole)
    requires SignCount(out, role) == 0
    ensures forall m {:trigger m in out} :: m in out ==> !IsPartial(m, role)
  {
    if out != [] {
      var n := |out| - 1;
      NotSigned(out[..n], role);
      assert out == out[..n] + [out[n]];
    }
  }

  lemma SignsOnce(env: Env, l: Life, s: Session, out: seq<WireMessage>, role: TxRole)
    requires IsRing(env.ring) && Lived(env, l, s, out)
    ensures SignCount(out, role) <= 1
  {
    hide IsRing, SigsInv, NonceCount, SignCount;
    assert RoleUse(s.me, s.musig, out, role);
  }

  /** One set of inputs: what two parties hold for a role is over the same message, nonces and adaptor point. */
  lemma SameHeld(env: Env, a: Life, o: Outcome, b: Life, o': Outcome, role: TxRole)
    requires IsRing(env.ring) && o == Comes(env, a) && o' == Comes(env, b) && o.Ok? && o'.Ok? && a.me != b.me && b.me in env.ring
    requires Held(o.session, role).Some? && Held(o'.session, role).Some?
    requires Unforged(a.calls, b.me, o'.out) && Unforged(b.calls, b.me, o'.out)
    ensures Held(o.session, role) == Held(o'.session, role)
  {
    hide IsRing, PerformAll, SigsInv, AllUses, Came, Went, MessageFor, LocksBuildable, WindowsTell, Unforged, Lived, Held;
    LivesSo(env, a, o);
    LivesSo(env, b, o');
    var one := SignedThere(env, a, o.session, o.out, b, o'.session, o'.out, role);
    var two := SignedThere(env, b, o'.session, o'.out, b, o'.session, o'.out, role);
    SignsOnce(env, b, o'.session, o'.out, role);
    OneSigned(o'.out, role, one, two);
  }

  // ---------- one party, later on ----------

  lemma CallKeeps(env: Env, s: Session, call: Call)
    requires IsRing(env.ring) && s.musig != map[]
    ensures FundedSessions.KeepsAll(s, Perform(env, s, call))
  {
    hide IsRing, HandleMessage, OnLockPoll, OnLeaderSpendPoll, OnRefundPoll, Protocol.Start, FundedSessions.KeepsAll;
    match call {
      case StartCall => AnySetup.StartAdds(s);
      case Message(msg, from, draw, accepted) => FundedSessions.MessageKeeps(env, s, msg, from, draw, accepted);
      case LockPoll(owner, onChain) => FundedSessions.LockPollKeeps(env, s, owner, onChain);
      case LeaderSpendPoll(leader, found) => FundedSessions.SpendPollKeeps(s, leader, found);
      case RefundPoll(open, accepted) => FundedSessions.RefundPollKeeps(s, open, accepted);
    }
  }

  /** Something is held, and only in sessions with open rounds. */
  lemma HeldIsOpen(env: Env, l: Life, s: Session, out: seq<WireMessage>, role: TxRole)
    requires IsRing(env.ring) && Lived(env, l, s, out) && Held(s, role).Some?
    ensures s.musig != map[]
  {
    hide IsRing, StoredKnown, SignedByAll, AllUses, Came, Went, RoundsFit;
    assert MadeFor(s.musig, role, Held(s, role).value);
  }

  lemma {:induction false} StillHeld(env: Env, l: Life, more: seq<Call>, role: TxRole)
    requires IsRing(env.ring) && Comes(env, l.(calls := l.calls + more)).Ok?
    ensures Comes(env, l).Ok? && Comes(env, l).out <= Comes(env, l.(calls := l.calls + more)).out
    ensures Held(Comes(env, l).session, role).Some? ==> Held(Comes(env, l.(calls := l.calls + more)).session, role).Some?
  {
    hide IsRing, Perform, Lived;
    if more == [] {
      assert l.calls + more == l.calls;
    } else {
      var n := |more| - 1;
      var before := l.(calls := l.calls + more[..n]);
      assert (l.calls + more)[..|l.calls + more| - 1] == before.calls && (l.calls + more)[|l.calls + more| - 1] == more[n];
      StillHeld(env, l, more[..n], role);
      var o := Comes(env, before);
      if Held(o.session, role).Some? {
        LivesSo(env, before, o);
        HeldIsOpen(env, before, o.session, o.out, role);
        CallKeeps(env, o.session, more[n]);
      }
    }
  }

  lemma CameBefore(calls: seq<Call>, more: seq<Call>)
    ensures Came(calls) <= Came(calls + more)
  {
    forall sig | sig in Came(calls)
      ensures sig in Came(calls + more)
    {
      var c :| c in calls && c.Message? && c.msg.PartialSignature? && c.msg.sig == sig;
      assert c in calls + more;
    }
  }

  lemma WentBefore(out: seq<WireMessage>, more: seq<WireMessage>)
    requires out <= more
    ensures Went(out) <= Went(more)
  {
    assert more == out + more[|out|..];
    WentMore(out, more[|out|..]);
  }

  /** Nothing that a party holds is replaced any more, unless its own partial signatures are forged. */
  lemma HeldStays(env: Env, l: Life, o: Outcome, more: seq<Call>, o': Outcome, role: TxRole)
    requires IsRing(env.ring) && l.me in env.ring && o == Comes(env, l) && o' == Comes(env, l.(calls := l.calls + more)) && o'.Ok?
    requires Unforged(l.calls + more, l.me, o'.out)
    ensures o.Ok? && (Held(o.session, role).Some? ==> Held(o'.session, role) == Held(o.session, role))
  {
    hide IsRing, PerformAll, SigsInv, AllUses, Came, Went, MessageFor, LocksBuildable, Lived, Held;
    StillHeld(env, l, more, role);
    if Held(o.session, role).Some? {
      var l' := l.(calls := l.calls + more);
      LivesSo(env, l, o);
      LivesSo(env, l', o');
      CameBefore(l.calls, more);
      WentBefore(o.out, o'.out);
      var one := HeldSays(env, l, o.session, o.out, role, l.me);
      var two := SignedThere(env, l', o'.session, o'.out, l', o'.session, o'.out, role);
      assert one in Went(o'.out);
      var r := OwnSays(env, l', o'.session, o'.out, one);
      RolesApart(env, o.session.leader.value, o'.session.leader.value, role, r);
      SignsOnce(env, l', o'.session, o'.out, role);
      OneSigned(o'.out, role, one, two);
    }
  }

  // ---------- all honest parties ----------

  /** Sessions under way, of these parties, whose partial signatures nobody forges. */
  ghost predicate NobodyForges(env: Env, lives: map<Pid, Life>) {
    && IsRing(env.ring)
    && (forall p {:trigger lives[p]} :: p in lives ==> p in env.ring && lives[p].me == p && Comes(env, lives[p]).Ok?)
    && (forall p, q {:trigger lives[p], lives[q]} :: p in lives && q in lives ==>
          Unforged(lives[p].calls, q, Comes(env, lives[q]).out))
  }

  /** The party has funded, and can be refunded. */
  ghost predicate HasFunded(env: Env, l: Life) {
    && IsRing(env.ring)
    && Comes(env, l).Ok? && Funding in Comes(env, l).session.history && Refund(l.me) in Comes(env, l).session.signedTxs
  }

  /** It has what the chain phase asks of one that joins: prepared, and the leader's spend pre-signed over the point. */
  ghost predicate CanJoin(x: C.Setting, l: Life) {
    && IsRing(x.env.ring)
    && Comes(x.env, l).Ok? && C.Prepared(x, l.me, Comes(x.env, l).session)
    && C.SignedOver(Comes(x.env, l).session, Spend(x.leader), x.point)
  }

  lemma FundedHolds(env: Env, l: Life, leader: Pid)
    requires IsRing(env.ring) && l.me in env.ring && HasFunded(env, l) && leader in env.ring
    ensures Held(Comes(env, l).session, Spend(leader)).Some? && Held(Comes(env, l).session, Spend(leader)).value.adaptor.Some?
    ensures FundedSessions.FundedSession(env, Comes(env, l).session) && Comes(env, l).session.me == l.me
  {
    hide IsRing, PerformAll, SignedByAll, MadeFor, AllUses, Came, Went, RoundsFit;
    var x := C.Setting(env, leader, {}, 0, 0);
    var o := Comes(env, l);
    AnySetup.SetupYields(x, l.me, l.secret, l.point, l.calls, o);
    LivesSo(env, l, o);
    assert Spend(leader) in o.session.adaptorSigs;
  }

  lemma LedSo(env: Env, lives: map<Pid, Life>, p: Pid, q: Pid, leader: Pid)
    requires IsRing(env.ring) && NobodyForges(env, lives) && p in lives && q in lives && HasFunded(env, lives[p])
    requires WindowsTell(env, p)
    requires Comes(env, lives[p]).session.leader == Some(leader)
    ensures Comes(env, lives[q]).session.leader == Some(leader)
  {
    hide IsRing, PerformAll, WindowsTell, Unforged;
    if p != q {
      OneLeader(env, lives[p], Comes(env, lives[p]), lives[q], Comes(env, lives[q]), p);
    }
  }

  lemma JoinsToo(x: C.Setting, lives: map<Pid, Life>, p: Pid, q: Pid)
    requires IsRing(x.env.ring) && NobodyForges(x.env, lives) && x.leader in x.env.ring && p in lives && q in lives
    requires HasFunded(x.env, lives[p]) && HasFunded(x.env, lives[q]) && WindowsTell(x.env, p)
    requires Comes(x.env, lives[p]).session.leader == Some(x.leader)
    requires Held(Comes(x.env, lives[p]).session, Spend(x.leader)).Some?
    requires Held(Comes(x.env, lives[p]).session, Spend(x.leader)).value.adaptor == Some(x.point)
    ensures CanJoin(x, lives[q])
  {
    hide IsRing, PerformAll, WindowsTell, Unforged, FundedSessions.FundedSession;
    LedSo(x.env, lives, p, q, x.leader);
    FundedHolds(x.env, lives[q], x.leader);
    if p != q {
      SameHeld(x.env, lives[p], Comes(x.env, lives[p]), lives[q], Comes(x.env, lives[q]), Spend(x.leader));
    }
  }

  /** For every ring and every set of honest parties: whatever the others send, as long as nobody forges a
      partial signature of an honest party there is one leader and one adaptor point with which every honest
      party that has funded and can be refunded joins the chain phase. */
  lemma OneSetting(env: Env, lives: map<Pid, Life>, secret: Secret) returns (x: C.Setting)
    requires IsRing(env.ring) && NobodyForges(env, lives)
    requires forall p {:trigger p in lives} :: p in lives && p in env.ring ==> WindowsTell(env, p)
    ensures x.env == env && x.honest == lives.Keys && x.secret == secret && C.ValidSetting(x)
    ensures forall q {:trigger lives[q]} :: q in lives && HasFunded(env, lives[q]) ==> CanJoin(x, lives[q])
  {
    hide IsRing, PerformAll, WindowsTell, NobodyForges, HasFunded, CanJoin;
    assert lives.Keys <= env.ring.Keys by { KeysInRing(env, lives); }
    if p :| p in lives && HasFunded(env, lives[p]) {
      x := FirstSetting(env, lives, p, secret);
      forall q {:trigger lives[q]} | q in lives && HasFunded(env, lives[q])
        ensures CanJoin(x, lives[q])
      {
        JoinsToo(x, lives, p, q);
      }
    } else {
      var leader :| leader in env.ring by { AnySetup.RingHasOne(env.ring); SomeKey(env.ring); }
      x := C.Setting(env, leader, lives.Keys, 0, secret);
    }
  }

  lemma SomeKey(ps: Participants)
    requires 0 < |ps|
    ensures exists p :: p in ps
  {
    var p :| p in ps.Keys;
  }

  lemma KeysInRing(env: Env, lives: map<Pid, Life>)
    requires IsRing(env.ring) && NobodyForges(env, lives)
    ensures lives.Keys <= env.ring.Keys
  {
    forall p | p in lives.Keys
      ensures p in env.ring.Keys
    {
      assert lives[p].me == p;
    }
  }

  lemma FirstSetting(env: Env, lives: map<Pid, Life>, p: Pid, secret: Secret) returns (x: C.Setting)
    requires IsRing(env.ring) && NobodyForges(env, lives) && p in lives && HasFunded(env, lives[p])
    ensures x.env == env && x.honest == lives.Keys && x.secret == secret && C.ValidSetting(x)
    ensures Comes(env, lives[p]).session.leader == Some(x.leader) && Held(Comes(env, lives[p]).session, Spend(x.leader)).Some?
    ensures Held(Comes(env, lives[p]).session, Spend(x.leader)).value.adaptor == Some(x.point)
  {
    hide IsRing, PerformAll, Unforged, Lived, Held, FundedSessions.FundedSession;
    var o := Comes(env, lives[p]);
    LivesSo(env, lives[p], o);
    LeaderInRing(env, lives[p], o.session, o.out);
    var leader := o.session.leader.value;
    FundedHolds(env, lives[p], leader);
    KeysInRing(env, lives);
    x := C.Setting(env, leader, lives.Keys, Held(o.session, Spend(leader)).value.adaptor.value, secret);
  }

  lemma LeaderInRing(env: Env, l: Life, s: Session, out: seq<WireMessage>)
    requires IsRing(env.ring) && Lived(env, l, s, out) && Refund(l.me) in s.signedTxs
    ensures s.leader.Some? && s.leader.value in env.ring
  {
    hide IsRing, StoredKnown, SignedByAll, AllUses, Came, Went;
    assert MadeFor(s.musig, Refund(l.me), s.signedTxs[Refund(l.me)].auth.inputs);
  }
}
