/** The steps of one party as functions on the value of its session: what each wire message and each
    chain poll does to the session, what it broadcasts and what it submits. Signatures are symbolic:
    a partial signature records everything the signer put into it. */
module Protocol {
  import opened Ring
  import opened Timelocks

  // ---------- data ----------

  datatype SwapState =
    | Initialized
    | AwaitingAdaptorPoints
    | AwaitingLeaderElectionCommitments
    | AwaitingLeaderElectionNonces
    | RefundAndSpendTxsSigning
    | Funding
    | AwaitingLockConfirmations
    | AwaitingSecrets
    | AwaitingLeaderSpend
    | Claiming
    | Completed
    | Refunded
    | Failed
  {
    predicate Terminal() { Completed? || Refunded? || Failed? }
  }

  datatype TxRole = Refund(id: Pid) | Spend(id: Pid)

  type Byte = b: int | 0 <= b < 256
  type Bytes32 = s: seq<Byte> | |s| == 32 witness seq(32, i => 0)
  type Point = int
  type Secret = int

  /** A lock transaction; a Cardano lock carries the refund deadline in its datum. */
  datatype LockTx = BitcoinLock(owner: Pid, amount: nat) | CardanoLock(owner: Pid, amount: nat, deadlineMs: nat)

  datatype UnsignedTx = RefundTx(lock: LockTx, owner: Pid, locktime: nat) | SpendTx(lock: LockTx, claimant: Pid)

  /** What is signed: the Bitcoin sighash of the transaction, or on Cardano the lock transaction id,
      with a prefix for refunds. */
  datatype SigMessage = Sighash(tx: UnsignedTx) | PrefixedLockId(lock: LockTx) | LockId(lock: LockTx)

  datatype SecNonce = SecNonce(seed: nat, signer: Pid, msg: SigMessage)
  datatype PubNonce = PubNonce(of: SecNonce)

  /** Everything signers must agree on for their partial signatures to add up. */
  datatype SigningInputs = SigningInputs(msg: SigMessage, taprootTweak: bool, aggNonce: nat, adaptor: Option<Point>)

  datatype PartialSig = PartialSig(signer: Pid, sec: SecNonce, inputs: SigningInputs)

  /** The first round holds the secret nonce; the second no longer does. */
  datatype MusigRuntime =
    | RoundOne(msg: SigMessage, taprootTweak: bool, sec: SecNonce)
    | RoundTwo(msg: SigMessage, taprootTweak: bool)

  datatype Witness = Plain(inputs: SigningInputs) | Adapted(inputs: SigningInputs, secret: Secret)
  datatype SignedTx = SignedTx(tx: UnsignedTx, auth: Witness)

  datatype WireMessage =
    | AdaptorPoint(point: Point)
    | LeaderElectionCommitment(commitment: Bytes32)
    | LeaderElectionNonce(nonce: Bytes32)
    | SchnorrNonce(role: TxRole, pub: PubNonce)
    | PartialSignature(role: TxRole, sig: PartialSig)
    | LockTxBroadcast
    | SecretReveal(secret: Secret)
    | SpendTxBroadcast

  datatype Submission = SubmitLock(lock: LockTx) | SubmitTx(role: TxRole, tx: SignedTx)

  /** The session parameters all parties share, with the hash function and the three aggregations
      (each a function of a whole map, see the Adaptor module) left arbitrary. */
  datatype Env = Env(
    ring: Participants,
    sha256: seq<Byte> -> Bytes32,
    anchors: Anchors,
    systemStart: Word64,
    sumNonces: map<Pid, PubNonce> -> nat,
    sumPoints: map<Pid, Point> -> Point,
    sumSecrets: map<Pid, Secret> -> Secret)

  /** The random values one call may draw. */
  datatype Draw = Draw(leaderNonce: Bytes32, seed: TxRole -> nat)

  /** The mutable part of a swap session. The two-level maps keyed by participant and then by role
      are keyed by pairs here. */
  datatype Session = Session(
    me: Pid,
    state: SwapState,
    history: seq<SwapState>,
    leaderNonces: map<Pid, Bytes32>,
    leaderCommitments: map<Pid, Bytes32>,
    leader: Option<Pid>,
    musig: map<TxRole, MusigRuntime>,
    nonces: map<(Pid, TxRole), PubNonce>,
    partials: map<(Pid, TxRole), PartialSig>,
    lockTxs: map<Pid, LockTx>,
    unsignedTxs: map<TxRole, UnsignedTx>,
    signedTxs: map<TxRole, SignedTx>,
    adaptorSigs: map<TxRole, SigningInputs>,
    locksBroadcast: set<Pid>,
    locksConfirmed: set<Pid>,
    secrets: map<Pid, Secret>,
    points: map<Pid, Point>)
  {
    function TransitionTo(next: SwapState): Session {
      this.(state := next, history := history + [next])
    }
  }

  /** What a step does: the new session with what was broadcast and submitted, or a panic. */
  datatype Outcome = Ok(session: Session, out: seq<WireMessage>, submitted: seq<Submission>) | Panic

  /** `SwapSession::new`. */
  function NewSession(me: Pid, secret: Secret, point: Point): Session {
    Session(me, Initialized, [Initialized], map[], map[], None, map[], map[], map[], map[], map[],
            map[], map[], {}, {}, map[me := secret], map[me := point])
  }

  // ---------- completeness checks (utils.rs) ----------

  predicate HasAll<V>(ring: Participants, m: map<Pid, V>) {
    forall p {:trigger p in m} | p in ring :: p in m
  }

  predicate AllOthersHave<V>(ring: Participants, me: Pid, m: map<(Pid, TxRole), V>, role: TxRole) {
    forall p {:trigger (p, role) in m} | p in ring :: p != me ==> (p, role) in m
  }

  /** For the refunds the partial signatures must be there, for the spends the pre-signatures. */
  predicate AllSigned(ring: Participants, s: Session) {
    && (forall id {:trigger Refund(id)} | id in ring :: AllOthersHave(ring, s.me, s.partials, Refund(id)))
    && (forall id {:trigger Spend(id)} | id in ring :: Spend(id) in s.adaptorSigs)
  }

  predicate AllConfirmed(ring: Participants, s: Session) {
    forall p {:trigger p in s.locksConfirmed} | p in ring :: p in s.locksConfirmed
  }

  // ---------- leader election ----------

  function StartElection(env: Env, s: Session, draw: Draw): Session {
    s.(leaderNonces := s.leaderNonces[s.me := draw.leaderNonce],
       leaderCommitments := s.leaderCommitments[s.me := env.sha256(draw.leaderNonce)])
  }

  function BigEndian(bytes: seq<Byte>): nat {
    if bytes == [] then 0 else 256 * BigEndian(bytes[..|bytes| - 1]) + bytes[|bytes| - 1]
  }

  /** The remainder, by taking the divisor away as often as it goes in. */
  function Remainder(a: nat, n: nat): (r: nat)
    requires 0 < n
    ensures r < n
  {
    if a < n then a else Remainder(a - n, n)
  }

  /** `leader_index`: the first eight bytes of the hash, as a number, modulo the number of participants. */
  function LeaderIndex(seed: Bytes32, n: nat): (i: nat)
    requires 0 < n
    ensures i < n
  {
    Remainder(BigEndian(seed[..8]), n)
  }

  function Concatenated(m: map<Pid, Bytes32>, keys: seq<Pid>): seq<Byte>
    requires forall p :: p in keys ==> p in m
  {
    if keys == [] then [] else m[keys[0]] + Concatenated(m, keys[1..])
  }

  function KeyAt(s: set<Pid>, i: nat): (p: Pid)
    requires i < |s|
    ensures p in s
  {
    SortedKeysLength(s);
    var keys := SortedKeys(s);
    assert keys[i] in keys;
    keys[i]
  }

  /** `compute_leader`: the hash of all nonces in key order picks an index into the sorted keys. */
  function ElectedLeader(env: Env, leaderNonces: map<Pid, Bytes32>): (l: Pid)
    requires 0 < |env.ring|
    ensures l in env.ring
  {
    var seed := env.sha256(Concatenated(leaderNonces, SortedKeys(leaderNonces.Keys)));
    KeyAt(env.ring.Keys, LeaderIndex(seed, |env.ring|))
  }

  // ---------- transactions to be signed ----------

  function LockFor(env: Env, leader: Pid, p: Pid): Option<LockTx>
    requires IsRing(env.ring) && leader in env.ring && p in env.ring
  {
    match env.ring[p].blockchain
    case Bitcoin => Some(BitcoinLock(p, env.ring[p].amountLocking))
    case Cardano =>
      match RefundDeadlineMs(env.ring, leader, env.anchors, env.systemStart, p)
      case None => None
      case Some(deadline) => Some(CardanoLock(p, env.ring[p].amountLocking, deadline))
  }

  predicate LocksBuildable(env: Env) {
    env.systemStart == 0 ==> forall p {:trigger env.ring[p]} | p in env.ring :: env.ring[p].blockchain.Bitcoin?
  }

  lemma LocksAreBuilt(env: Env, leader: Pid)
    requires IsRing(env.ring) && leader in env.ring && LocksBuildable(env)
    ensures forall p {:trigger LockFor(env, leader, p)} :: p in env.ring ==> LockFor(env, leader, p).Some?
  {
  }

  /** `build_lock_txs`. */
  function Locks(env: Env, leader: Pid): map<Pid, LockTx>
    requires IsRing(env.ring) && leader in env.ring && LocksBuildable(env)
  {
    LocksAreBuilt(env, leader);
    map p | p in env.ring :: LockFor(env, leader, p).value
  }

  predicate RoleInRing(env: Env, role: TxRole) { role.id in env.ring }

  /** Whose lock the transaction of a role spends. */
  function LockOwner(env: Env, role: TxRole): Pid
    requires IsRing(env.ring) && RoleInRing(env, role)
  {
    match role case Refund(p) => p case Spend(p) => env.ring[p].target
  }

  function UnsignedFor(env: Env, leader: Pid, role: TxRole): UnsignedTx
    requires IsRing(env.ring) && leader in env.ring && LocksBuildable(env) && RoleInRing(env, role)
  {
    var lock := Locks(env, leader)[LockOwner(env, role)];
    match role
    case Refund(p) =>
      var locktime := match env.ring[p].blockchain
        case Bitcoin => RefundLocktimeBtc(env.ring, leader, env.anchors, p) as nat
        case Cardano => RefundLocktimeCardano(env.ring, leader, env.anchors, p) as nat;
      RefundTx(lock, p, locktime)
    case Spend(p) => SpendTx(lock, p)
  }

  function MessageFor(env: Env, leader: Pid, role: TxRole): SigMessage
    requires IsRing(env.ring) && leader in env.ring && LocksBuildable(env) && RoleInRing(env, role)
  {
    var tx := UnsignedFor(env, leader, role);
    match env.ring[LockOwner(env, role)].blockchain
    case Bitcoin => Sighash(tx)
    case Cardano => if role.Refund? then PrefixedLockId(tx.lock) else LockId(tx.lock)
  }

  function TweakFor(env: Env, role: TxRole): bool
    requires IsRing(env.ring) && RoleInRing(env, role)
  {
    env.ring[LockOwner(env, role)].blockchain.Bitcoin?
  }

  // ---------- the two signing rounds ----------

  function RefundRoles(env: Env): (r: seq<TxRole>)
    ensures |r| == |SortedKeys(env.ring.Keys)|
    ensures forall i :: 0 <= i < |r| ==> r[i] == Refund(SortedKeys(env.ring.Keys)[i])
  {
    var keys := SortedKeys(env.ring.Keys);
    seq(|keys|, i requires 0 <= i < |keys| => Refund(keys[i]))
  }

  function SpendRoles(env: Env): (r: seq<TxRole>)
    ensures |r| == |SortedKeys(env.ring.Keys)|
    ensures forall i :: 0 <= i < |r| ==> r[i] == Spend(SortedKeys(env.ring.Keys)[i])
  {
    var keys := SortedKeys(env.ring.Keys);
    seq(|keys|, i requires 0 <= i < |keys| => Spend(keys[i]))
  }

  function NewNonce(env: Env, leader: Pid, me: Pid, draw: Draw, role: TxRole): SecNonce
    requires IsRing(env.ring) && leader in env.ring && LocksBuildable(env) && RoleInRing(env, role)
  {
    SecNonce(draw.seed(role), me, MessageFor(env, leader, role))
  }

  /** One turn of the loops in `begin_refund_signing` and `begin_spend_signing`. */
  function BeginRole(env: Env, leader: Pid, s: Session, draw: Draw, role: TxRole): Session
    requires IsRing(env.ring) && leader in env.ring && LocksBuildable(env) && RoleInRing(env, role)
  {
    var sec := NewNonce(env, leader, s.me, draw, role);
    s.(unsignedTxs := s.unsignedTxs[role := UnsignedFor(env, leader, role)],
       nonces := s.nonces[(s.me, role) := PubNonce(sec)],
       musig := s.musig[role := RoundOne(MessageFor(env, leader, role), TweakFor(env, role), sec)])
  }

  function BeginSigning(env: Env, leader: Pid, s: Session, draw: Draw, roles: seq<TxRole>): Session
    requires IsRing(env.ring) && leader in env.ring && LocksBuildable(env)
    requires forall r :: r in roles ==> RoleInRing(env, r)
  {
    if roles == [] then s
    else
      var n := |roles| - 1;
      assert roles[n] in roles && forall r :: r in roles[..n] ==> r in roles;
      BeginRole(env, leader, BeginSigning(env, leader, s, draw, roles[..n]), draw, roles[n])
  }

  function NonceMessages(env: Env, leader: Pid, me: Pid, draw: Draw, roles: seq<TxRole>): (out: seq<WireMessage>)
    requires IsRing(env.ring) && leader in env.ring && LocksBuildable(env)
    requires forall r :: r in roles ==> RoleInRing(env, r)
    ensures |out| == |roles|
  {
    if roles == [] then []
    else
      var n := |roles| - 1;
      assert roles[n] in roles && forall r :: r in roles[..n] ==> r in roles;
      NonceMessages(env, leader, me, draw, roles[..n]) + [SchnorrNonce(roles[n], PubNonce(NewNonce(env, leader, me, draw, roles[n])))]
  }

  /** The nonces go out role by role, in the order of the roles. */
  lemma {:induction false} NonceMessageAt(env: Env, leader: Pid, me: Pid, draw: Draw, roles: seq<TxRole>, i: nat)
    requires IsRing(env.ring) && leader in env.ring && LocksBuildable(env)
    requires forall r :: r in roles ==> RoleInRing(env, r)
    requires i < |roles|
    ensures roles[i] in roles
    ensures NonceMessages(env, leader, me, draw, roles)[i] == SchnorrNonce(roles[i], PubNonce(NewNonce(env, leader, me, draw, roles[i])))
  {
    hide IsRing, LocksBuildable, NewNonce, RoleInRing;
    var n := |roles| - 1;
    if i < n {
      assert roles[n] in roles && forall r :: r in roles[..n] ==> r in roles;
      NonceMessageAt(env, leader, me, draw, roles[..n], i);
    }
  }

  /** All 2N roles, refunds first. */
  function AllRoles(env: Env): (r: seq<TxRole>)
    ensures forall role :: role in r <==> RoleInRing(env, role)
    ensures forall i, j :: 0 <= i < j < |r| ==> r[i] != r[j]
  {
    RolesInRing(env);
    RefundRoles(env) + SpendRoles(env)
  }

  lemma RolesInRing(env: Env)
    ensures forall r :: r in RefundRoles(env) + SpendRoles(env) <==> RoleInRing(env, r)
    ensures forall i, j :: 0 <= i < j < |RefundRoles(env) + SpendRoles(env)| ==>
              (RefundRoles(env) + SpendRoles(env))[i] != (RefundRoles(env) + SpendRoles(env))[j]
  {
    forall r | RoleInRing(env, r)
      ensures r in RefundRoles(env) + SpendRoles(env)
    {
      RoleListed(env, r);
    }
    var keys := SortedKeys(env.ring.Keys);
    assert forall i :: 0 <= i < |keys| ==> keys[i] in keys;
  }

  lemma RoleListed(env: Env, r: TxRole)
    requires RoleInRing(env, r)
    ensures r in RefundRoles(env) + SpendRoles(env)
  {
    var keys := SortedKeys(env.ring.Keys);
    assert r.id in keys;
    var i :| 0 <= i < |keys| && keys[i] == r.id;
    assert RefundRoles(env)[i] == Refund(r.id) && SpendRoles(env)[i] == Spend(r.id);
    assert if r.Refund? then r in RefundRoles(env) else r in SpendRoles(env);
  }

  /** The nonces (or partial signatures) stored for a role, by sender. */
  function ForRole<V>(m: map<(Pid, TxRole), V>, role: TxRole): map<Pid, V> {
    map p: Pid | 0 <= p < 256 && (p, role) in m :: m[(p, role)]
  }

  /** The inputs `transition_to_round_two` and `finalize_role` gather for a role. */
  function GatheredInputs(env: Env, s: Session, role: TxRole): SigningInputs
    requires role in s.musig
  {
    SigningInputs(s.musig[role].msg, s.musig[role].taprootTweak, env.sumNonces(ForRole(s.nonces, role)),
                  if role.Spend? then Some(env.sumPoints(s.points)) else None)
  }

  /** `transition_to_round_two`. */
  function EnterRoundTwo(env: Env, s: Session, role: TxRole): Outcome {
    if role in s.musig && s.musig[role].RoundOne? then
      var r := s.musig[role];
      var sig := PartialSig(s.me, r.sec, GatheredInputs(env, s, role));
      Ok(s.(partials := s.partials[(s.me, role) := sig],
            musig := s.musig[role := RoundTwo(r.msg, r.taprootTweak)]),
         [PartialSignature(role, sig)], [])
    else Ok(s, [], [])
  }

  /** Partial signatures add up exactly when every participant contributed one, for the public nonce
      it announced and over the same inputs. */
  predicate AddsUp(env: Env, s: Session, role: TxRole, inputs: SigningInputs) {
    && ForRole(s.partials, role).Keys == env.ring.Keys
    && forall p {:trigger (p, role) in s.partials} | p in env.ring ::
         && (p, role) in s.nonces
         && (p, role) in s.partials
         && s.partials[(p, role)].signer == p
         && PubNonce(s.partials[(p, role)].sec) == s.nonces[(p, role)]
         && s.partials[(p, role)].inputs == inputs
  }

  /** `finalize_role`. */
  function FinalizeRole(env: Env, s: Session, role: TxRole): Outcome {
    if role in s.musig && s.musig[role].RoundTwo? then
      var inputs := GatheredInputs(env, s, role);
      if !AddsUp(env, s, role, inputs) then Panic
      else if role.Spend? then Ok(s.(adaptorSigs := s.adaptorSigs[role := inputs]), [], [])
      else if role !in s.unsignedTxs then Panic
      else Ok(s.(signedTxs := s.signedTxs[role := SignedTx(s.unsignedTxs[role], Plain(inputs))]), [], [])
    else Ok(s, [], [])
  }

  // ---------- wire messages ----------

  /** Starting the own election, unless it has been started. */
  function ElectOnce(env: Env, s: Session, draw: Draw): Outcome {
    if s.me in s.leaderCommitments then Ok(s, [], [])
    else Ok(StartElection(env, s, draw), [LeaderElectionCommitment(env.sha256(draw.leaderNonce))], [])
  }

  function OnAdaptorPoint(env: Env, s: Session, point: Point, from: Pid, draw: Draw): Outcome {
    var s1 := s.(points := s.points[from := point]);
    if HasAll(env.ring, s1.points) && s1.state == AwaitingAdaptorPoints then
      ElectOnce(env, s1.TransitionTo(AwaitingLeaderElectionCommitments), draw)
    else Ok(s1, [], [])
  }

  function OnCommitment(env: Env, s: Session, commitment: Bytes32, from: Pid, draw: Draw): Outcome {
    if s.me !in s.leaderCommitments then
      var s1 := StartElection(env, s, draw).TransitionTo(AwaitingLeaderElectionCommitments);
      AddCommitment(env, s1, [LeaderElectionCommitment(env.sha256(draw.leaderNonce))], commitment, from)
    else AddCommitment(env, s, [], commitment, from)
  }

  /** Storing a commitment; the last one reveals the own nonce. */
  function AddCommitment(env: Env, s: Session, out: seq<WireMessage>, commitment: Bytes32, from: Pid): Outcome {
    var s1 := s.(leaderCommitments := s.leaderCommitments[from := commitment]);
    if !HasAll(env.ring, s1.leaderCommitments) || s1.state == AwaitingLeaderElectionNonces then Ok(s1, out, [])
    else if s.me !in s1.leaderNonces then Panic
    else Ok(s1.TransitionTo(AwaitingLeaderElectionNonces), out + [LeaderElectionNonce(s1.leaderNonces[s.me])], [])
  }

  /** Building the locks and opening the first round for the given roles. */
  function OpenRoundOne(env: Env, leader: Pid, s: Session, draw: Draw, roles: seq<TxRole>): Outcome
    requires IsRing(env.ring) && leader in env.ring && LocksBuildable(env)
    requires forall r :: r in roles ==> RoleInRing(env, r)
  {
    var s1 := s.(leader := Some(leader)).TransitionTo(RefundAndSpendTxsSigning);
    var s2 := s1.(lockTxs := s1.lockTxs + Locks(env, leader));
    Ok(BeginSigning(env, leader, s2, draw, roles), NonceMessages(env, leader, s.me, draw, roles), [])
  }

  /** Electing the leader, then locks and first rounds for all 2N roles. Sessions are only begun over a ring, which was
      checked before; for any other map nothing is meant by the result. */
  ghost function BeginSession(env: Env, s: Session, draw: Draw): Outcome {
    if !IsRing(env.ring) || !LocksBuildable(env) then Panic
    else OpenRoundOne(env, ElectedLeader(env, s.leaderNonces), s, draw, AllRoles(env))
  }

  ghost function OnLeaderNonce(env: Env, s: Session, nonce: Bytes32, from: Pid, draw: Draw): Outcome {
    if from !in s.leaderCommitments || env.sha256(nonce) != s.leaderCommitments[from] then Panic
    else
      var s1 := s.(leaderNonces := s.leaderNonces[from := nonce]);
      if HasAll(env.ring, s1.leaderNonces) && s1.musig == map[] then BeginSession(env, s1, draw)
      else Ok(s1, [], [])
  }

  function OnSchnorrNonce(env: Env, s: Session, role: TxRole, pub: PubNonce, from: Pid): Outcome {
    var s1 := s.(nonces := s.nonces[(from, role) := pub]);
    if AllOthersHave(env.ring, s.me, s1.nonces, role) then EnterRoundTwo(env, s1, role)
    else Ok(s1, [], [])
  }

  /** `broadcast_my_lock_tx` and the two transitions around it. */
  function Fund(env: Env, s: Session, accepted: bool): Outcome {
    if s.me !in s.lockTxs then Panic
    else
      var s1 := s.TransitionTo(Funding);
      if accepted then
        Ok(s1.(locksBroadcast := s1.locksBroadcast + {s.me}).TransitionTo(AwaitingLockConfirmations),
           [LockTxBroadcast], [SubmitLock(s.lockTxs[s.me])])
      else Ok(s1.TransitionTo(Failed), [], [SubmitLock(s.lockTxs[s.me])])
  }

  function OnPartialSignature(env: Env, s: Session, role: TxRole, sig: PartialSig, from: Pid, accepted: bool): Outcome {
    var s1 := s.(partials := s.partials[(from, role) := sig]);
    var finalized := if AllOthersHave(env.ring, s.me, s1.partials, role) then FinalizeRole(env, s1, role) else Ok(s1, [], []);
    match finalized
    case Panic => Panic
    case Ok(s2, _, _) => if AllSigned(env.ring, s2) then Fund(env, s2, accepted) else Ok(s2, [], [])
  }

  /** Submitting the own spend, if it has been signed. */
  function SpendSubmission(s: Session): seq<Submission> {
    if Spend(s.me) in s.signedTxs then [SubmitTx(Spend(s.me), s.signedTxs[Spend(s.me)])] else []
  }

  /** `adapt_role_with`, for the own spend. */
  function AdaptMySpend(s: Session, secret: Secret): Outcome {
    var role := Spend(s.me);
    if role !in s.adaptorSigs then Ok(s, [], [])
    else if role !in s.unsignedTxs then Panic
    else Ok(s.(signedTxs := s.signedTxs[role := SignedTx(s.unsignedTxs[role], Adapted(s.adaptorSigs[role], secret))]), [], [])
  }

  /** Adapting and submitting the own spend, which completes the session. */
  function ClaimWith(s: Session, secret: Secret, out: seq<WireMessage>): Outcome {
    match AdaptMySpend(s, secret)
    case Panic => Panic
    case Ok(s1, _, _) => Ok(s1.TransitionTo(Claiming).TransitionTo(Completed), out, SpendSubmission(s1))
  }

  function OnSecretReveal(env: Env, s: Session, secret: Secret, from: Pid): Outcome {
    var s1 := s.(secrets := s.secrets[from := secret]);
    if !HasAll(env.ring, s1.secrets) then Ok(s1, [], [])
    else match s1.leader
      case None => Panic
      case Some(leader) =>
        if s.me == leader then ClaimWith(s1, env.sumSecrets(s1.secrets), [SpendTxBroadcast])
        else Ok(s1.TransitionTo(AwaitingLeaderSpend), [], [])
  }

  /** `handle_session_message`; `accepted` is the chain's answer if the call submits the lock. */
  ghost function HandleMessage(env: Env, s: Session, msg: WireMessage, from: Pid, draw: Draw, accepted: bool): Outcome {
    if s.state.Terminal() then Ok(s, [], [])
    else match msg
      case AdaptorPoint(point) => OnAdaptorPoint(env, s, point, from, draw)
      case LeaderElectionCommitment(c) => OnCommitment(env, s, c, from, draw)
      case LeaderElectionNonce(nonce) => OnLeaderNonce(env, s, nonce, from, draw)
      case SchnorrNonce(role, pub) => OnSchnorrNonce(env, s, role, pub, from)
      case PartialSignature(role, sig) => OnPartialSignature(env, s, role, sig, from, accepted)
      case LockTxBroadcast => Ok(s.(locksBroadcast := s.locksBroadcast + {from}), [], [])
      case SecretReveal(secret) => OnSecretReveal(env, s, secret, from)
      case SpendTxBroadcast => Ok(s, [], [])
  }

  // ---------- start and chain polls (daemon.rs) ----------

  /** `start_swap_session` once the funding outputs have been validated. */
  function Start(s: Session): Outcome {
    if s.me !in s.points then Panic
    else
      Ok(if s.state == Initialized then s.TransitionTo(AwaitingAdaptorPoints) else s,
         [AdaptorPoint(s.points[s.me])], [])
  }

  /** A `LockTx` poll that finds the lock of `p` on chain or not. There is no check of the state. */
  function OnLockPoll(env: Env, s: Session, p: Pid, onChain: bool): Outcome {
    if p in s.locksConfirmed then Ok(s, [], [])
    else if p !in env.ring || p !in s.lockTxs then Panic
    else
      var s1 := if onChain then s.(locksConfirmed := s.locksConfirmed + {p}) else s;
      if !AllConfirmed(env.ring, s1) then Ok(s1, [], [])
      else if s.me !in s.secrets then Panic
      else if s.leader != Some(s.me) then
        Ok(s1.TransitionTo(AwaitingLeaderSpend), [SecretReveal(s.secrets[s.me])], [])
      else Ok(s1.TransitionTo(AwaitingSecrets), [], [])
  }

  /** A `LeaderSpendTx` poll; `found` is the secret extracted from the leader's spend, if that spend
      is what consumed the lock. */
  function OnLeaderSpendPoll(s: Session, leader: Pid, found: Option<Secret>): Outcome {
    if s.state == AwaitingLeaderSpend && found.Some? then
      ClaimWith(s.(secrets := s.secrets[leader := found.value]), found.value, [])
    else Ok(s, [], [])
  }

  /** Submitting the own refund, if it has been signed. */
  function RefundSubmission(s: Session): seq<Submission> {
    if Refund(s.me) in s.signedTxs then [SubmitTx(Refund(s.me), s.signedTxs[Refund(s.me)])] else []
  }

  /** A `RefundWindow` poll; `accepted` is the chain's answer if the refund is submitted. */
  function OnRefundPoll(s: Session, open: bool, accepted: bool): Outcome {
    if s.state.Terminal() || !open then Ok(s, [], [])
    else
      var next := if Refund(s.me) in s.signedTxs && accepted then Refunded else Failed;
      Ok(s.TransitionTo(next), [], RefundSubmission(s))
  }
}
