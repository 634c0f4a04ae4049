/** The session object (swap-daemon/src/protocol/session.rs and the functions it calls): methods that
    update its maps and sets in place, each proved to do what the step function of the same name does
    to the value of the session. */
module SessionObject {
  import opened Ring
  import opened Protocol
  import opened Contents

  /** What a call broadcast and submitted, or that it panicked. */
  datatype Reply = Done(out: seq<WireMessage>, submitted: seq<Submission>) | Aborted

  /** A call did what the step function says; after a panic nothing is promised. */
  ghost predicate Matches(after: Session, r: Reply, o: Outcome) {
    match o
    case Panic => r.Aborted?
    case Ok(s, out, submitted) => r == Done(out, submitted) && after == s
  }

  lemma {:induction false} ConcatenatedSnoc(m: map<Pid, Bytes32>, keys: seq<Pid>, last: Pid)
    requires last in m && forall p :: p in keys ==> p in m
    ensures forall p :: p in keys + [last] ==> p in m
    ensures Concatenated(m, keys + [last]) == Concatenated(m, keys) + m[last]
  {
    if keys == [] {
      assert keys + [last] == [last] && [last][1..] == [];
    } else {
      assert (keys + [last])[1..] == keys[1..] + [last];
      ConcatenatedSnoc(m, keys[1..], last);
    }
  }

  /** All nonces one after the other, in the order of their keys: what `compute_leader` hashes. */
  method NonceBytes(m: map<Pid, Bytes32>) returns (input: seq<Byte>)
    ensures input == Concatenated(m, SortedKeys(m.Keys))
  {
    var keys := SortedKeys(m.Keys);
    input := [];
    var i := 0;
    while i < |keys|
      invariant 0 <= i <= |keys|
      invariant forall p :: p in keys[..i] ==> p in m
      invariant input == Concatenated(m, keys[..i])
    {
      assert keys[i] in keys;
      assert keys[..i + 1] == keys[..i] + [keys[i]];
      ConcatenatedSnoc(m, keys[..i], keys[i]);
      input := input + m[keys[i]];
      i := i + 1;
    }
    assert keys[..i] == keys;
  }

  /** The participant a seed picks: in ascending order of the ids, the one at the index that the seed's first eight
      bytes give modulo N. */
  method Elected(env: Env, seed: Bytes32) returns (id: Pid)
    requires 0 < |env.ring|
    ensures id == KeyAt(env.ring.Keys, LeaderIndex(seed, |env.ring|)) && id in env.ring
    ensures FirstWord(seed) % |env.ring| < |SortedKeys(env.ring.Keys)| && id == SortedKeys(env.ring.Keys)[FirstWord(seed) % |env.ring|]
  {
    hide FirstWord, LeaderIndex;
    Unfolded(seed, |env.ring|);
    SortedKeysLength(env.ring.Keys);
    var ids := SortedKeys(env.ring.Keys);
    id := ids[LeaderIndex(seed, |env.ring|)];
  }

  lemma RolesOfBoth(env: Env, a: seq<TxRole>, b: seq<TxRole>)
    requires forall r :: r in a + b ==> RoleInRing(env, r)
    ensures forall r :: r in a ==> RoleInRing(env, r)
    ensures forall r :: r in b ==> RoleInRing(env, r)
  {
    assert forall r :: r in a ==> r in a + b;
    assert forall r :: r in b ==> r in a + b;
  }

  /** Beginning some roles and then others is beginning them all. */
  lemma {:induction false} BeginSigningAppends(env: Env, leader: Pid, s: Session, draw: Draw, a: seq<TxRole>, b: seq<TxRole>)
    requires IsRing(env.ring) && leader in env.ring && LocksBuildable(env)
    requires forall r :: r in a + b ==> RoleInRing(env, r)
    requires forall r :: r in a ==> RoleInRing(env, r)
    requires forall r :: r in b ==> RoleInRing(env, r)
    ensures BeginSigning(env, leader, BeginSigning(env, leader, s, draw, a), draw, b) == BeginSigning(env, leader, s, draw, a + b)
  {
    hide IsRing, LocksBuildable, BeginRole, NewNonce, RoleInRing;
    if b == [] {
      assert a + b == a;
    } else {
      var n := |b| - 1;
      assert (a + b)[..|a + b| - 1] == a + b[..n];
      assert forall r :: r in a + b[..n] ==> r in a + b;
      BeginSigningAppends(env, leader, s, draw, a, b[..n]);
    }
  }

  lemma {:induction false} NonceMessagesAppend(env: Env, leader: Pid, me: Pid, draw: Draw, a: seq<TxRole>, b: seq<TxRole>)
    requires IsRing(env.ring) && leader in env.ring && LocksBuildable(env)
    requires forall r :: r in a + b ==> RoleInRing(env, r)
    requires forall r :: r in a ==> RoleInRing(env, r)
    requires forall r :: r in b ==> RoleInRing(env, r)
    ensures NonceMessages(env, leader, me, draw, a) + NonceMessages(env, leader, me, draw, b) == NonceMessages(env, leader, me, draw, a + b)
  {
    hide IsRing, LocksBuildable, NewNonce, RoleInRing;
    if b == [] {
      assert a + b == a;
    } else {
      var n := |b| - 1;
      assert (a + b)[..|a + b| - 1] == a + b[..n];
      assert forall r :: r in a + b[..n] ==> r in a + b;
      NonceMessagesAppend(env, leader, me, draw, a, b[..n]);
    }
  }

  lemma BeginOne(env: Env, leader: Pid, s: Session, draw: Draw, role: TxRole)
    requires IsRing(env.ring) && leader in env.ring && LocksBuildable(env) && RoleInRing(env, role)
    ensures BeginSigning(env, leader, s, draw, [role]) == BeginRole(env, leader, s, draw, role)
    ensures NonceMessages(env, leader, s.me, draw, [role]) == [SchnorrNonce(role, PubNonce(NewNonce(env, leader, s.me, draw, role)))]
  {
    hide IsRing, LocksBuildable, BeginRole, NewNonce, RoleInRing;
    assert [role][..0] == [];
  }

  lemma {:induction false} BeginKeepsMe(env: Env, leader: Pid, s: Session, draw: Draw, roles: seq<TxRole>)
    requires IsRing(env.ring) && leader in env.ring && LocksBuildable(env)
    requires forall r :: r in roles ==> RoleInRing(env, r)
    ensures BeginSigning(env, leader, s, draw, roles).me == s.me && BeginSigning(env, leader, s, draw, roles).leader == s.leader
  {
    hide IsRing, LocksBuildable, NewNonce, RoleInRing, UnsignedFor, MessageFor, TweakFor;
    if roles != [] {
      var n := |roles| - 1;
      assert roles[n] in roles && forall r :: r in roles[..n] ==> r in roles;
      BeginKeepsMe(env, leader, s, draw, roles[..n]);
    }
  }

  class SwapSession {
    const env: Env
    const me: Pid
    var state: SwapState
    var history: seq<SwapState>
    var leaderNonces: map<Pid, Bytes32>
    var leaderCommitments: map<Pid, Bytes32>
    var leader: Option<Pid>
    var musig: map<TxRole, MusigRuntime>
    var nonces: map<(Pid, TxRole), PubNonce>
    var partials: map<(Pid, TxRole), PartialSig>
    var lockTxs: map<Pid, LockTx>
    var unsignedTxs: map<TxRole, UnsignedTx>
    var signedTxs: map<TxRole, SignedTx>
    var adaptorSigs: map<TxRole, SigningInputs>
    var locksBroadcast: set<Pid>
    var locksConfirmed: set<Pid>
    var secrets: map<Pid, Secret>
    var points: map<Pid, Point>

    /** The value of the session, which the step functions are about. */
    ghost function View(): Session
      reads this
    {
      Session(me, state, history, leaderNonces, leaderCommitments, leader, musig, nonces, partials, lockTxs, unsignedTxs,
              signedTxs, adaptorSigs, locksBroadcast, locksConfirmed, secrets, points)
    }

    lemma Fields()
      ensures View().me == me && View().state == state && View().leader == leader && View().locksConfirmed == locksConfirmed
    {
    }

    constructor (env: Env, me: Pid, secret: Secret, point: Point)
      ensures View() == NewSession(me, secret, point) && this.env == env
    {
      this.env := env;
      this.me := me;
      state := Initialized;
      history := [Initialized];
      leaderNonces := map[];
      leaderCommitments := map[];
      leader := None;
      musig := map[];
      nonces := map[];
      partials := map[];
      lockTxs := map[];
      unsignedTxs := map[];
      signedTxs := map[];
      adaptorSigs := map[];
      locksBroadcast := {};
      locksConfirmed := {};
      secrets := map[me := secret];
      points := map[me := point];
    }

    method TransitionTo(next: SwapState)
      modifies this`state, this`history
      ensures View() == old(View()).TransitionTo(next)
    {
      history := history + [next];
      state := next;
    }

    // ---------- leader election ----------

    method StartLeaderElection(draw: Draw) returns (out: seq<WireMessage>)
      modifies this`leaderNonces, this`leaderCommitments
      ensures View() == StartElection(env, old(View()), draw)
      ensures out == [LeaderElectionCommitment(env.sha256(draw.leaderNonce))]
    {
      var commitment := env.sha256(draw.leaderNonce);
      leaderNonces := leaderNonces[me := draw.leaderNonce];
      leaderCommitments := leaderCommitments[me := commitment];
      out := [LeaderElectionCommitment(commitment)];
    }

    /** `compute_leader`. */
    method ComputeLeader()
      requires 0 < |env.ring|
      modifies this`leader
      ensures View() == old(View()).(leader := Some(ElectedLeader(env, leaderNonces)))
    {
      var input := NonceBytes(leaderNonces);
      var id := Elected(env, env.sha256(input));
      leader := Some(id);
    }

    // ---------- locks and signing rounds ----------

    /** `build_lock_txs`: one lock per participant, of its own amount on its own chain; a Cardano lock without a system start is a panic. */
    method BuildLockTxs() returns (ok: bool)
      requires IsRing(env.ring) && leader.Some? && leader.value in env.ring
      modifies this`lockTxs
      ensures ok <==> LocksBuildable(env)
      ensures ok ==> View() == old(View()).(lockTxs := old(lockTxs) + Locks(env, leader.value))
      ensures ok ==> env.ring.Keys <= lockTxs.Keys
      ensures ok ==> forall p {:trigger lockTxs[p]} :: p in env.ring ==> LockRight(env, leader.value, p, lockTxs[p])
    {
      hide IsRing, LocksBuildable, LockFor, LocksSoFar, Locks, LockRight;
      ghost var before := lockTxs;
      NoLocksYet(env, leader.value, before);
      var keys := SortedKeys(env.ring.Keys);
      var i := 0;
      while i < |keys|
        invariant 0 <= i <= |keys|
        invariant LocksSoFar(env, leader.value, before, lockTxs, keys[..i])
      {
        var p := keys[i];
        assert p in keys;
        match LockFor(env, leader.value, p) {
          case None =>
            MissingStart(env, leader.value, p);
            return false;
          case Some(tx) =>
            LocksNext(env, leader.value, before, lockTxs, keys[..i], p, tx);
            lockTxs := lockTxs[p := tx];
            assert keys[..i + 1] == keys[..i] + [p];
            i := i + 1;
        }
      }
      assert keys[..i] == keys;
      AllLocks(env, leader.value, before, lockTxs, keys);
      BuiltRight(env, leader.value, before, lockTxs);
      ok := true;
    }

    /** One turn of the loops below: the unsigned transaction, the nonce and the first round of a role. */
    method BeginRoleSigning(role: TxRole, draw: Draw) returns (m: WireMessage)
      requires IsRing(env.ring) && leader.Some? && leader.value in env.ring && LocksBuildable(env) && RoleInRing(env, role)
      modifies this`unsignedTxs, this`nonces, this`musig
      ensures View() == BeginRole(env, leader.value, old(View()), draw, role)
      ensures m == SchnorrNonce(role, PubNonce(NewNonce(env, leader.value, me, draw, role)))
    {
      hide IsRing, LocksBuildable, UnsignedFor, MessageFor, TweakFor, NewNonce;
      var sec := NewNonce(env, leader.value, me, draw, role);
      unsignedTxs := unsignedTxs[role := UnsignedFor(env, leader.value, role)];
      nonces := nonces[(me, role) := PubNonce(sec)];
      musig := musig[role := RoundOne(MessageFor(env, leader.value, role), TweakFor(env, role), sec)];
      m := SchnorrNonce(role, PubNonce(sec));
    }

    /** The loop of `begin_refund_signing` and of `begin_spend_signing`, over the roles of either. */
    method BeginSigningRoles(roles: seq<TxRole>, draw: Draw) returns (out: seq<WireMessage>)
      requires IsRing(env.ring) && leader.Some? && leader.value in env.ring && LocksBuildable(env)
      requires forall r :: r in roles ==> RoleInRing(env, r)
      modifies this`unsignedTxs, this`nonces, this`musig
      ensures View() == BeginSigning(env, leader.value, old(View()), draw, roles)
      ensures out == NonceMessages(env, leader.value, me, draw, roles)
      ensures forall r {:trigger r in roles} :: r in roles ==> RoleBegun(env, leader.value, View(), draw, r)
    {
      hide IsRing, LocksBuildable, BeginRole, NewNonce, RoleInRing, BeginSigning, NonceMessages, RoleBegun;
      ghost var s := View();
      out := [];
      var i := 0;
      BeginNone(env, leader.value, s, draw);
      assert roles[..0] == [];
      while i < |roles|
        invariant 0 <= i <= |roles|
        invariant forall r :: r in roles[..i] ==> RoleInRing(env, r)
        invariant View() == BeginSigning(env, leader.value, s, draw, roles[..i])
        invariant out == NonceMessages(env, leader.value, me, draw, roles[..i])
      {
        var role := roles[i];
        assert role in roles && roles[..i + 1] == roles[..i] + [role];
        assert forall r :: r in roles[..i + 1] ==> r in roles;
        BeginSigningAppends(env, leader.value, s, draw, roles[..i], [role]);
        NonceMessagesAppend(env, leader.value, me, draw, roles[..i], [role]);
        BeginOne(env, leader.value, View(), draw, role);
        var m := BeginRoleSigning(role, draw);
        out := out + [m];
        i := i + 1;
      }
      assert roles[..i] == roles;
      RolesBegun(env, leader.value, s, draw, roles);
    }

    /** `transition_to_round_two`. */
    method TransitionToRoundTwo(role: TxRole) returns (out: seq<WireMessage>)
      modifies this`partials, this`musig
      ensures Matches(View(), Done(out, []), EnterRoundTwo(env, old(View()), role))
    {
      hide GatheredInputs;
      ghost var s := View();
      ghost var o := EnterRoundTwo(env, s, role);
      out := [];
      if role in musig && musig[role].RoundOne? {
        var r := musig[role];
        var sig := PartialSig(me, r.sec, InputsFor(role));
        assert o == Ok(s.(partials := s.partials[(me, role) := sig], musig := s.musig[role := RoundTwo(r.msg, r.taprootTweak)]),
                       [PartialSignature(role, sig)], []);
        partials := partials[(me, role) := sig];
        musig := musig[role := RoundTwo(r.msg, r.taprootTweak)];
        out := [PartialSignature(role, sig)];
      } else {
        assert o == Ok(s, [], []);
      }
    }

    /** The inputs gathered from the maps of the session. */
    function InputsFor(role: TxRole): (inputs: SigningInputs)
      requires role in musig
      reads this
      ensures inputs == GatheredInputs(env, View(), role)
    {
      SigningInputs(musig[role].msg, musig[role].taprootTweak, env.sumNonces(ForRole(nonces, role)),
                    if role.Spend? then Some(env.sumPoints(points)) else None)
    }

    /** `finalize_role`; the library refuses partial signatures that do not add up. */
    method FinalizeTheRole(role: TxRole) returns (ok: bool)
      modifies this`adaptorSigs, this`signedTxs
      ensures Matches(View(), if ok then Done([], []) else Aborted, FinalizeRole(env, old(View()), role))
    {
      hide GatheredInputs, AddsUp;
      ok := true;
      ghost var s := View();
      if role in musig && musig[role].RoundTwo? {
        var inputs := InputsFor(role);
        ghost var o := FinalizeRole(env, s, role);
        if !PartialsAddUp(role, inputs) {
          ok := false;
        } else if role.Spend? {
          adaptorSigs := adaptorSigs[role := inputs];
          assert o == Ok(s.(adaptorSigs := s.adaptorSigs[role := inputs]), [], []);
        } else if role !in unsignedTxs {
          ok := false;
        } else {
          signedTxs := signedTxs[role := SignedTx(unsignedTxs[role], Plain(inputs))];
          assert o == Ok(s.(signedTxs := s.signedTxs[role := SignedTx(s.unsignedTxs[role], Plain(inputs))]), [], []);
        }
      }
    }

    predicate PartialsAddUp(role: TxRole, inputs: SigningInputs)
      reads this
      ensures PartialsAddUp(role, inputs) <==> AddsUp(env, View(), role, inputs)
    {
      && ForRole(partials, role).Keys == env.ring.Keys
      && forall p {:trigger (p, role) in partials} | p in env.ring ::
           && (p, role) in nonces && (p, role) in partials && partials[(p, role)].signer == p
           && PubNonce(partials[(p, role)].sec) == nonces[(p, role)] && partials[(p, role)].inputs == inputs
    }

    // ---------- handle_session_message, arm by arm ----------

    method StartOnce(draw: Draw) returns (r: Reply)
      modifies this
      ensures Matches(View(), r, ElectOnce(env, old(View()), draw))
    {
      ghost var s := View();
      ghost var o := ElectOnce(env, s, draw);
      if me !in leaderCommitments {
        assert o == Ok(StartElection(env, s, draw), [LeaderElectionCommitment(env.sha256(draw.leaderNonce))], []);
        var out := StartLeaderElection(draw);
        r := Done(out, []);
      } else {
        assert o == Ok(s, [], []);
        r := Done([], []);
      }
    }

    method OnPoint(point: Point, from: Pid, draw: Draw) returns (r: Reply)
      modifies this
      ensures Matches(View(), r, OnAdaptorPoint(env, old(View()), point, from, draw))
    {
      hide HasAll, ElectOnce;
      ghost var o := OnAdaptorPoint(env, View(), point, from, draw);
      points := points[from := point];
      ghost var s1 := View();
      if HasAll(env.ring, points) && state == AwaitingAdaptorPoints {
        assert o == ElectOnce(env, s1.TransitionTo(AwaitingLeaderElectionCommitments), draw);
        TransitionTo(AwaitingLeaderElectionCommitments);
        r := StartOnce(draw);
      } else {
        assert o == Ok(s1, [], []);
        r := Done([], []);
      }
    }

    method OnLeaderCommitment(commitment: Bytes32, from: Pid, draw: Draw) returns (r: Reply)
      modifies this
      ensures Matches(View(), r, OnCommitment(env, old(View()), commitment, from, draw))
    {
      hide HasAll, AddCommitment;
      var out: seq<WireMessage> := [];
      if me !in leaderCommitments {
        out := StartLeaderElection(draw);
        TransitionTo(AwaitingLeaderElectionCommitments);
      }
      r := StoreCommitment(out, commitment, from);
    }

    method StoreCommitment(out: seq<WireMessage>, commitment: Bytes32, from: Pid) returns (r: Reply)
      modifies this
      ensures Matches(View(), r, AddCommitment(env, old(View()), out, commitment, from))
    {
      hide HasAll;
      ghost var o := AddCommitment(env, View(), out, commitment, from);
      leaderCommitments := leaderCommitments[from := commitment];
      ghost var s1 := View();
      if HasAll(env.ring, leaderCommitments) && state != AwaitingLeaderElectionNonces {
        if me !in leaderNonces {
          return Aborted;
        }
        r := Done(out + [LeaderElectionNonce(leaderNonces[me])], []);
        TransitionTo(AwaitingLeaderElectionNonces);
        assert o == Ok(s1.TransitionTo(AwaitingLeaderElectionNonces), out + [LeaderElectionNonce(s1.leaderNonces[me])], []);
      } else {
        r := Done(out, []);
        assert o == Ok(s1, out, []);
      }
    }

    /** `received_leader_nonce`: a nonce without a commitment, or not matching it, is a panic. */
    method ReceivedLeaderNonce(nonce: Bytes32, from: Pid) returns (ok: bool)
      modifies this`leaderNonces
      ensures ok <==> from in leaderCommitments && env.sha256(nonce) == leaderCommitments[from]
      ensures ok ==> View() == old(View()).(leaderNonces := old(leaderNonces)[from := nonce])
    {
      if from !in leaderCommitments || env.sha256(nonce) != leaderCommitments[from] {
        return false;
      }
      leaderNonces := leaderNonces[from := nonce];
      ok := true;
    }

    /** With all nonces in: the leader, the locks, and the first rounds of all refunds and spends. */
    method BeginTheSession(draw: Draw) returns (r: Reply)
      requires IsRing(env.ring)
      modifies this
      ensures Matches(View(), r, BeginSession(env, old(View()), draw))
    {
      hide IsRing, LocksBuildable, ElectedLeader, Locks, RoleInRing, BeginSigning, NonceMessages, RoleBegun, LockRight;
      assert 0 < |env.ring| by { RingNotEmpty(env.ring); }
      ghost var s := View();
      ghost var o := BeginSession(env, s, draw);
      ComputeLeader();
      TransitionTo(RefundAndSpendTxsSigning);
      var ok := BuildLockTxs();
      if !ok {
        return Aborted;
      }
      ghost var s3 := View();
      RolesInRing(env);
      RolesOfBoth(env, RefundRoles(env), SpendRoles(env));
      BeginKeepsMe(env, leader.value, s3, draw, RefundRoles(env));
      BeginSigningAppends(env, leader.value, s3, draw, RefundRoles(env), SpendRoles(env));
      NonceMessagesAppend(env, leader.value, me, draw, RefundRoles(env), SpendRoles(env));
      var refunds := BeginSigningRoles(RefundRoles(env), draw);
      var spends := BeginSigningRoles(SpendRoles(env), draw);
      r := Done(refunds + spends, []);
    }

    method OnNonce(nonce: Bytes32, from: Pid, draw: Draw) returns (r: Reply)
      requires IsRing(env.ring)
      modifies this
      ensures Matches(View(), r, OnLeaderNonce(env, old(View()), nonce, from, draw))
    {
      hide IsRing, HasAll, BeginSession;
      ghost var o := OnLeaderNonce(env, View(), nonce, from, draw);
      var ok := ReceivedLeaderNonce(nonce, from);
      if !ok {
        return Aborted;
      }
      ghost var s1 := View();
      if HasAll(env.ring, leaderNonces) && musig == map[] {
        assert o == BeginSession(env, s1, draw);
        r := BeginTheSession(draw);
      } else {
        assert o == Ok(s1, [], []);
        r := Done([], []);
      }
    }

    method OnSchnorr(role: TxRole, pub: PubNonce, from: Pid) returns (r: Reply)
      modifies this
      ensures Matches(View(), r, OnSchnorrNonce(env, old(View()), role, pub, from))
    {
      hide AllOthersHave, EnterRoundTwo;
      ghost var o := OnSchnorrNonce(env, View(), role, pub, from);
      nonces := nonces[(from, role) := pub];
      ghost var s1 := View();
      if AllOthersHave(env.ring, me, nonces, role) {
        assert o == EnterRoundTwo(env, s1, role);
        var out := TransitionToRoundTwo(role);
        r := Done(out, []);
      } else {
        assert o == Ok(s1, [], []);
        r := Done([], []);
      }
    }

    /** `broadcast_my_lock_tx` between its two transitions; `accepted` is the chain's answer. */
    method FundNow(accepted: bool) returns (r: Reply)
      modifies this
      ensures Matches(View(), r, Fund(env, old(View()), accepted))
    {
      ghost var s := View();
      ghost var o := Fund(env, s, accepted);
      TransitionTo(Funding);
      ghost var s1 := View();
      if me !in lockTxs {
        assert o == Panic;
        return Aborted;
      }
      if accepted {
        locksBroadcast := locksBroadcast + {me};
        TransitionTo(AwaitingLockConfirmations);
        assert o == Ok(s1.(locksBroadcast := s1.locksBroadcast + {me}).TransitionTo(AwaitingLockConfirmations),
              [LockTxBroadcast], [SubmitLock(lockTxs[me])]);
        r := Done([LockTxBroadcast], [SubmitLock(lockTxs[me])]);
      } else {
        TransitionTo(Failed);
        assert o == Ok(s1.TransitionTo(Failed), [], [SubmitLock(lockTxs[me])]);
        r := Done([], [SubmitLock(lockTxs[me])]);
      }
    }

    method OnPartial(role: TxRole, sig: PartialSig, from: Pid, accepted: bool) returns (r: Reply)
      modifies this
      ensures Matches(View(), r, OnPartialSignature(env, old(View()), role, sig, from, accepted))
    {
      hide AllOthersHave, FinalizeRole, AllSigned, Fund;
      ghost var o := OnPartialSignature(env, View(), role, sig, from, accepted);
      partials := partials[(from, role) := sig];
      ghost var s1 := View();
      if AllOthersHave(env.ring, me, partials, role) {
        ghost var f := FinalizeRole(env, s1, role);
        var ok := FinalizeTheRole(role);
        if !ok {
          assert f == Panic;
          return Aborted;
        }
        assert f == Ok(View(), [], []);
      }
      ghost var s2 := View();
      if EverythingSigned() {
        assert o == Fund(env, s2, accepted);
        r := FundNow(accepted);
      } else {
        assert o == Ok(s2, [], []);
        r := Done([], []);
      }
    }

    predicate EverythingSigned()
      reads this
      ensures EverythingSigned() <==> AllSigned(env.ring, View())
    {
      && (forall id {:trigger Refund(id)} | id in env.ring :: AllOthersHave(env.ring, me, partials, Refund(id)))
      && (forall id {:trigger Spend(id)} | id in env.ring :: Spend(id) in adaptorSigs)
    }

    /** `adapt_role_with` for the own spend, and `broadcast_my_spend_tx`, around the two transitions. */
    method Claim(secret: Secret, out: seq<WireMessage>) returns (r: Reply)
      modifies this
      ensures Matches(View(), r, ClaimWith(old(View()), secret, out))
    {
      ghost var s := View();
      ghost var o := ClaimWith(s, secret, out);
      var role := Spend(me);
      if role in adaptorSigs {
        if role !in unsignedTxs {
          assert o == Panic;
          return Aborted;
        }
        signedTxs := signedTxs[role := SignedTx(unsignedTxs[role], Adapted(adaptorSigs[role], secret))];
      }
      ghost var s1 := View();
      assert AdaptMySpend(s, secret) == Ok(s1, [], []);
      var submitted := if role in signedTxs then [SubmitTx(role, signedTxs[role])] else [];
      assert o == Ok(s1.TransitionTo(Claiming).TransitionTo(Completed), out, submitted);
      TransitionTo(Claiming);
      TransitionTo(Completed);
      r := Done(out, submitted);
    }

    method OnSecret(secret: Secret, from: Pid) returns (r: Reply)
      modifies this
      ensures Matches(View(), r, OnSecretReveal(env, old(View()), secret, from))
    {
      hide HasAll, ClaimWith;
      ghost var o := OnSecretReveal(env, View(), secret, from);
      secrets := secrets[from := secret];
      ghost var s1 := View();
      if HasAll(env.ring, secrets) {
        if leader.None? {
          assert o == Panic;
          return Aborted;
        }
        if me == leader.value {
          assert o == ClaimWith(s1, env.sumSecrets(s1.secrets), [SpendTxBroadcast]);
          r := Claim(env.sumSecrets(secrets), [SpendTxBroadcast]);
        } else {
          assert o == Ok(s1.TransitionTo(AwaitingLeaderSpend), [], []);
          TransitionTo(AwaitingLeaderSpend);
          r := Done([], []);
        }
      } else {
        assert o == Ok(s1, [], []);
        r := Done([], []);
      }
    }

    /** `handle_session_message`. */
    method HandleSessionMessage(msg: WireMessage, from: Pid, draw: Draw, accepted: bool) returns (r: Reply)
      requires IsRing(env.ring)
      modifies this
      ensures Matches(View(), r, HandleMessage(env, old(View()), msg, from, draw, accepted))
    {
      hide IsRing, OnAdaptorPoint, OnCommitment, OnLeaderNonce, OnSchnorrNonce, OnPartialSignature, OnSecretReveal;
      if state.Completed? || state.Refunded? || state.Failed? {
        return Done([], []);
      }
      match msg {
        case AdaptorPoint(point) => r := OnPoint(point, from, draw);
        case LeaderElectionCommitment(commitment) => r := OnLeaderCommitment(commitment, from, draw);
        case LeaderElectionNonce(nonce) => r := OnNonce(nonce, from, draw);
        case SchnorrNonce(role, pub) => r := OnSchnorr(role, pub, from);
        case PartialSignature(role, sig) => r := OnPartial(role, sig, from, accepted);
        case LockTxBroadcast =>
          locksBroadcast := locksBroadcast + {from};
          r := Done([], []);
        case SecretReveal(secret) => r := OnSecret(secret, from);
        case SpendTxBroadcast => r := Done([], []);
      }
    }

    // ---------- start and polls ----------

    /** `start_swap_session` after the funding outputs have been validated: the point goes out first. */
    method StartSwapSession() returns (r: Reply)
      modifies this
      ensures Matches(View(), r, Start(old(View())))
    {
      if me !in points {
        return Aborted;
      }
      r := Done([AdaptorPoint(points[me])], []);
      if state == Initialized {
        TransitionTo(AwaitingAdaptorPoints);
      }
    }

    /** The `LockTx` arm of the chain polls, with `check_lock_tx_confirmed` answered by the chain. */
    method PollLockTx(owner: Pid, onChain: bool) returns (r: Reply)
      modifies this
      ensures Matches(View(), r, OnLockPoll(env, old(View()), owner, onChain))
    {
      hide AllConfirmed;
      ghost var o := OnLockPoll(env, View(), owner, onChain);
      if owner in locksConfirmed {
        return Done([], []);
      }
      if owner !in env.ring || owner !in lockTxs {
        return Aborted;
      }
      if onChain {
        locksConfirmed := locksConfirmed + {owner};
      }
      ghost var s1 := View();
      if EverythingConfirmed() {
        if me !in secrets {
          return Aborted;
        }
        if leader != Some(me) {
          assert o == Ok(s1.TransitionTo(AwaitingLeaderSpend), [SecretReveal(secrets[me])], []);
          r := Done([SecretReveal(secrets[me])], []);
          TransitionTo(AwaitingLeaderSpend);
        } else {
          assert o == Ok(s1.TransitionTo(AwaitingSecrets), [], []);
          r := Done([], []);
          TransitionTo(AwaitingSecrets);
        }
      } else {
        assert o == Ok(s1, [], []);
        r := Done([], []);
      }
    }

    predicate EverythingConfirmed()
      reads this
      ensures EverythingConfirmed() <==> AllConfirmed(env.ring, View())
    {
      forall p {:trigger p in locksConfirmed} | p in env.ring :: p in locksConfirmed
    }

    /** The locks this party knows to be announced and has not seen confirmed, in the order of the keys. */
    method UnconfirmedLocks() returns (owners: seq<Pid>)
      ensures forall p :: p in owners <==> p in env.ring && p in locksBroadcast && p !in locksConfirmed
    {
      var keys := SortedKeys(env.ring.Keys);
      owners := [];
      var i := 0;
      while i < |keys|
        invariant 0 <= i <= |keys|
        invariant forall p :: p in owners <==> p in keys[..i] && p in locksBroadcast && p !in locksConfirmed
      {
        assert keys[..i + 1] == keys[..i] + [keys[i]];
        if keys[i] in locksBroadcast && keys[i] !in locksConfirmed {
          owners := owners + [keys[i]];
        }
        i := i + 1;
      }
      assert keys[..i] == keys;
    }

    /** The `LeaderSpendTx` arm, with the extracted secret if there is one. */
    method PollLeaderSpend(leaderId: Pid, found: Option<Secret>) returns (r: Reply)
      modifies this
      ensures Matches(View(), r, OnLeaderSpendPoll(old(View()), leaderId, found))
    {
      hide ClaimWith;
      ghost var o := OnLeaderSpendPoll(View(), leaderId, found);
      if state == AwaitingLeaderSpend && found.Some? {
        secrets := secrets[leaderId := found.value];
        assert o == ClaimWith(View(), found.value, []);
        r := Claim(found.value, []);
      } else {
        r := Done([], []);
      }
    }

    /** The `RefundWindow` arm, with the chain's answers. */
    method PollRefundWindow(open: bool, accepted: bool) returns (r: Reply)
      modifies this
      ensures Matches(View(), r, OnRefundPoll(old(View()), open, accepted))
    {
      ghost var s := View();
      ghost var o := OnRefundPoll(s, open, accepted);
      if state.Completed? || state.Refunded? || state.Failed? || !open {
        assert o == Ok(s, [], []);
        return Done([], []);
      }
      var signed := Refund(me) in signedTxs;
      var submitted := if signed then [SubmitTx(Refund(me), signedTxs[Refund(me)])] else [];
      var next := if signed && accepted then Refunded else Failed;
      assert o == Ok(s.TransitionTo(next), [], submitted);
      TransitionTo(next);
      r := Done([], submitted);
    }
  }

  lemma RingNotEmpty(ps: Participants)
    requires IsRing(ps)
    ensures 0 < |ps|
  {
  }

  lemma BeginNone(env: Env, leader: Pid, s: Session, draw: Draw)
    requires IsRing(env.ring) && leader in env.ring && LocksBuildable(env)
    ensures BeginSigning(env, leader, s, draw, []) == s && NonceMessages(env, leader, s.me, draw, []) == []
  {
    hide IsRing, LocksBuildable;
  }

  /** The locks of the given participants have been put in place. */
  ghost predicate LocksSoFar(env: Env, leader: Pid, before: map<Pid, LockTx>, now: map<Pid, LockTx>, done: seq<Pid>) {
    && IsRing(env.ring) && leader in env.ring
    && (forall p {:trigger p in now} :: p in now <==> p in before || p in done)
    && (forall p {:trigger p in done} :: p in done ==> p in env.ring && p in now && LockFor(env, leader, p) == Some(now[p]))
    && (forall p {:trigger now[p]} :: p in now && p !in done ==> now[p] == before[p])
  }

  lemma NoLocksYet(env: Env, leader: Pid, before: map<Pid, LockTx>)
    requires IsRing(env.ring) && leader in env.ring
    ensures forall keys: seq<Pid> {:trigger keys[..0]} :: LocksSoFar(env, leader, before, before, keys[..0])
  {
    hide IsRing;
  }

  lemma LocksNext(env: Env, leader: Pid, before: map<Pid, LockTx>, now: map<Pid, LockTx>, done: seq<Pid>, p: Pid, tx: LockTx)
    requires IsRing(env.ring) && leader in env.ring && LocksSoFar(env, leader, before, now, done)
    requires p in env.ring && LockFor(env, leader, p) == Some(tx)
    ensures LocksSoFar(env, leader, before, now[p := tx], done + [p])
  {
    hide IsRing, LockFor;
  }

  lemma AllLocks(env: Env, leader: Pid, before: map<Pid, LockTx>, now: map<Pid, LockTx>, keys: seq<Pid>)
    requires IsRing(env.ring) && leader in env.ring && LocksSoFar(env, leader, before, now, keys)
    requires forall p :: p in keys <==> p in env.ring
    ensures LocksBuildable(env) && now == before + Locks(env, leader)
  {
    hide IsRing;
    if env.systemStart == 0 {
      forall p {:trigger env.ring[p]} | p in env.ring
        ensures env.ring[p].blockchain.Bitcoin?
      {
        assert p in keys;
      }
    }
    forall p | p in now
      ensures p in before + Locks(env, leader) && now[p] == (before + Locks(env, leader))[p]
    {
    }
  }

  lemma BuiltRight(env: Env, leader: Pid, before: map<Pid, LockTx>, now: map<Pid, LockTx>)
    requires IsRing(env.ring) && leader in env.ring && LocksBuildable(env) && now == before + Locks(env, leader)
    ensures env.ring.Keys <= now.Keys
    ensures forall p {:trigger now[p]} :: p in env.ring ==> LockRight(env, leader, p, now[p])
  {
    hide IsRing, LocksBuildable, Locks, LockRight;
    var built := Locks(env, leader);
    forall p | p in env.ring
      ensures p in now && LockRight(env, leader, p, now[p])
    {
      LocksAreRight(env, leader, p);
      assert (before + built)[p] == built[p];
    }
  }

  lemma MissingStart(env: Env, leader: Pid, p: Pid)
    requires IsRing(env.ring) && leader in env.ring && p in env.ring && LockFor(env, leader, p).None?
    ensures !LocksBuildable(env)
  {
    hide IsRing;
    assert !env.ring[p].blockchain.Bitcoin?;
  }
}
