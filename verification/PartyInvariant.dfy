/** What one honest party's session must look like, given which kinds of messages it has broadcast
    and which it has handled from every peer. Each handler keeps this invariant; that uses the order
    in which peers send (lower-ranked messages first), never how deliveries interleave. */
module PartyInvariant {
  import opened Ring
  import opened Protocol
  import opened Contents

  // ---------- the run's constants ----------

  /** The random tape of a party, and the secret and point made by its session constructor. */
  datatype Tape = Tape(draw: Draw, secret: Secret, point: Point)

  /** What everybody is to compute from all tapes: the leader, the locks and, for each role, the
      transaction, the message and its tweak, each party's secret nonce, and the signing inputs. */
  datatype Plan = Plan(
    leader: Pid,
    locks: map<Pid, LockTx>,
    unsigned: TxRole -> UnsignedTx,
    msg: TxRole -> SigMessage,
    tweak: TxRole -> bool,
    sec: (Pid, TxRole) -> SecNonce,
    inputs: TxRole -> SigningInputs)

  datatype Conf = Conf(env: Env, tape: Pid -> Tape, plan: Plan)

  ghost predicate ValidConf(c: Conf) {
    && IsRing(c.env.ring)
    && c.plan.leader in c.env.ring && c.plan.locks.Keys == c.env.ring.Keys
  }

  function AllLeaderNonces(c: Conf): map<Pid, Bytes32>
  {
    map p | p in c.env.ring :: c.tape(p).draw.leaderNonce
  }

  function AllPoints(c: Conf): map<Pid, Point>
  {
    map p | p in c.env.ring :: c.tape(p).point
  }

  /** The public nonces of all N participants for a role. */
  function AllNonces(c: Conf, role: TxRole): map<Pid, PubNonce> {
    map p | p in c.env.ring :: PubNonce(c.plan.sec(p, role))
  }

  /** The planned inputs of a role cover all N nonces and, for a spend, all N adaptor points. */
  ghost predicate InputsFit(c: Conf)
  {
    forall role {:trigger c.plan.inputs(role)} :: RoleInRing(c.env, role) ==>
      c.plan.inputs(role) == SigningInputs(c.plan.msg(role), c.plan.tweak(role), c.env.sumNonces(AllNonces(c, role)),
                                           if role.Spend? then Some(c.env.sumPoints(AllPoints(c))) else None)
  }

  /** The plan really is what the source computes. */
  ghost predicate PlanFits(c: Conf) {
    && ValidConf(c) && LocksBuildable(c.env) && InputsFit(c)
    && c.plan.leader == ElectedLeader(c.env, AllLeaderNonces(c))
    && LocksPlanned(c)
    && forall role {:trigger PlannedRole(c, role)} :: RoleInRing(c.env, role) ==> PlannedRole(c, role)
  }

  ghost predicate LocksPlanned(c: Conf) {
    && ValidConf(c)
    && forall p {:trigger LockFor(c.env, c.plan.leader, p)} :: p in c.env.ring ==>
      LockFor(c.env, c.plan.leader, p) == Some(c.plan.locks[p])
  }

  lemma PlanLocks(c: Conf)
    requires PlanFits(c)
    ensures Locks(c.env, c.plan.leader) == c.plan.locks
  {
    hide IsRing, InputsFit, LockFor, ElectedLeader, PlannedRole;
    forall p | p in c.env.ring
      ensures Locks(c.env, c.plan.leader)[p] == c.plan.locks[p]
    {
      assert LockFor(c.env, c.plan.leader, p) == Some(c.plan.locks[p]);
    }
  }

  ghost predicate PlannedRole(c: Conf, role: TxRole) {
    && ValidConf(c) && LocksBuildable(c.env) && RoleInRing(c.env, role)
    && c.plan.unsigned(role) == UnsignedFor(c.env, c.plan.leader, role)
    && c.plan.msg(role) == MessageFor(c.env, c.plan.leader, role)
    && c.plan.tweak(role) == TweakFor(c.env, role)
    && forall p {:trigger c.plan.sec(p, role)} :: p in c.env.ring ==>
         c.plan.sec(p, role) == NewNonce(c.env, c.plan.leader, p, c.tape(p).draw, role)
  }

  /** What the plan says of locks and transactions is what they should say. */
  lemma PlanIsRight(c: Conf, role: TxRole)
    requires PlanFits(c) && RoleInRing(c.env, role)
    ensures LockRight(c.env, c.plan.leader, role.id, c.plan.locks[role.id])
    ensures TxRight(c.env, c.plan.leader, role, c.plan.unsigned(role))
  {
    hide IsRing, InputsFit, LockFor, ElectedLeader, LocksBuildable, UnsignedFor, MessageFor, TweakFor, NewNonce, LockRight, TxRight;
    assert LockFor(c.env, c.plan.leader, role.id) == Some(c.plan.locks[role.id]);
    LockIsRight(c.env, c.plan.leader, role.id, c.plan.locks[role.id]);
    assert PlannedRole(c, role);
    UnsignedIsRight(c.env, c.plan.leader, role, c.plan.unsigned(role));
  }

  /** Who is elected: the member at the index that the first eight bytes of the hash give. */
  lemma PlanElects(c: Conf)
    requires ValidConf(c) && PlanFits(c)
    ensures var nonces := AllLeaderNonces(c);
            var k := FirstWord(c.env.sha256(Concatenated(nonces, SortedKeys(nonces.Keys)))) % |c.env.ring|;
            k < |SortedKeys(c.env.ring.Keys)| && c.plan.leader == SortedKeys(c.env.ring.Keys)[k]
  {
    assert 0 < |c.env.ring|;
    hide IsRing, InputsFit, LocksPlanned, PlannedRole, ElectedLeader, AllLeaderNonces, LocksBuildable, FirstWord, SortedKeys, Concatenated;
    ElectedIs(c.env, AllLeaderNonces(c));
  }

  function ThePartial(c: Conf, p: Pid, role: TxRole): PartialSig {
    PartialSig(p, c.plan.sec(p, role), c.plan.inputs(role))
  }

  // ---------- kinds of messages ----------

  datatype Kind =
    | KPoint | KCommitment | KNonce
    | KSchnorr(role: TxRole) | KPartial(role: TxRole)
    | KLock | KSecret | KSpend

  function KindOf(m: WireMessage): Kind {
    match m
    case AdaptorPoint(_) => KPoint
    case LeaderElectionCommitment(_) => KCommitment
    case LeaderElectionNonce(_) => KNonce
    case SchnorrNonce(role, _) => KSchnorr(role)
    case PartialSignature(role, _) => KPartial(role)
    case LockTxBroadcast => KLock
    case SecretReveal(_) => KSecret
    case SpendTxBroadcast => KSpend
  }

  function Rank(k: Kind): nat {
    match k
    case KPoint => 0
    case KCommitment => 1
    case KNonce => 2
    case KSchnorr(_) => 3
    case KPartial(_) => 4
    case KLock => 5
    case KSecret => 6
    case KSpend => 6
  }

  predicate ValidKind(c: Conf, k: Kind) {
    k.KSchnorr? || k.KPartial? ==> RoleInRing(c.env, k.role)
  }

  /** The only message of a kind that party `p` ever broadcasts. */
  function TheMessage(c: Conf, p: Pid, k: Kind): WireMessage {
    match k
    case KPoint => AdaptorPoint(c.tape(p).point)
    case KCommitment => LeaderElectionCommitment(c.env.sha256(c.tape(p).draw.leaderNonce))
    case KNonce => LeaderElectionNonce(c.tape(p).draw.leaderNonce)
    case KSchnorr(role) => SchnorrNonce(role, PubNonce(c.plan.sec(p, role)))
    case KPartial(role) => PartialSignature(role, ThePartial(c, p, role))
    case KLock => LockTxBroadcast
    case KSecret => SecretReveal(c.tape(p).secret)
    case KSpend => SpendTxBroadcast
  }

  // ---------- what has been handled and what has been sent ----------

  /** Whose messages of each kind have been handled. */
  datatype Handled = Handled(
    points: set<Pid>, commitments: set<Pid>, nonces: set<Pid>,
    schnorr: set<(Pid, TxRole)>, partials: set<(Pid, TxRole)>,
    locks: set<Pid>, secrets: set<Pid>, spends: set<Pid>)

  const NOTHING_HANDLED: Handled := Handled({}, {}, {}, {}, {}, {}, {}, {})

  predicate Has(got: Handled, q: Pid, k: Kind) {
    match k
    case KPoint => q in got.points
    case KCommitment => q in got.commitments
    case KNonce => q in got.nonces
    case KSchnorr(role) => (q, role) in got.schnorr
    case KPartial(role) => (q, role) in got.partials
    case KLock => q in got.locks
    case KSecret => q in got.secrets
    case KSpend => q in got.spends
  }

  function With(got: Handled, q: Pid, k: Kind): Handled {
    match k
    case KPoint => got.(points := got.points + {q})
    case KCommitment => got.(commitments := got.commitments + {q})
    case KNonce => got.(nonces := got.nonces + {q})
    case KSchnorr(role) => got.(schnorr := got.schnorr + {(q, role)})
    case KPartial(role) => got.(partials := got.partials + {(q, role)})
    case KLock => got.(locks := got.locks + {q})
    case KSecret => got.(secrets := got.secrets + {q})
    case KSpend => got.(spends := got.spends + {q})
  }

  /** Which kinds of messages a party has broadcast. */
  datatype Sent = Sent(
    point: bool, commitment: bool, nonce: bool,
    schnorr: set<TxRole>, partials: set<TxRole>,
    lock: bool, secret: bool, spend: bool)

  const NOTHING_SENT: Sent := Sent(false, false, false, {}, {}, false, false, false)

  predicate In(sent: Sent, k: Kind) {
    match k
    case KPoint => sent.point
    case KCommitment => sent.commitment
    case KNonce => sent.nonce
    case KSchnorr(role) => role in sent.schnorr
    case KPartial(role) => role in sent.partials
    case KLock => sent.lock
    case KSecret => sent.secret
    case KSpend => sent.spend
  }

  function Add(sent: Sent, k: Kind): Sent {
    match k
    case KPoint => sent.(point := true)
    case KCommitment => sent.(commitment := true)
    case KNonce => sent.(nonce := true)
    case KSchnorr(role) => sent.(schnorr := sent.schnorr + {role})
    case KPartial(role) => sent.(partials := sent.partials + {role})
    case KLock => sent.(lock := true)
    case KSecret => sent.(secret := true)
    case KSpend => sent.(spend := true)
  }

  /** What has been sent after the messages of a log. */
  function After(sent: Sent, log: seq<WireMessage>): Sent {
    if log == [] then sent else Add(After(sent, log[..|log| - 1]), KindOf(log[|log| - 1]))
  }

  ghost predicate AllOthers(c: Conf, me: Pid, s: set<Pid>) {
    forall q {:trigger q in s} :: q in c.env.ring && q != me ==> q in s
  }

  ghost predicate AllOthersFor(c: Conf, me: Pid, s: set<(Pid, TxRole)>, role: TxRole) {
    forall q {:trigger (q, role) in s} :: q in c.env.ring && q != me ==> (q, role) in s
  }

  /** Every peer sends its point, commitment and nonce first, in this order, then per role the public nonce
      before the partial signature, and what follows the setup after all of that. */
  ghost predicate Fifo(c: Conf, me: Pid, got: Handled) {
    && (forall q {:trigger q in got.points} :: q in got.points ==> q in c.env.ring && q != me)
    && (forall q {:trigger q in got.commitments} :: q in got.commitments ==> q in got.points)
    && (forall q {:trigger q in got.nonces} :: q in got.nonces ==> q in got.commitments)
    && (forall q, role {:trigger (q, role) in got.schnorr} :: (q, role) in got.schnorr ==> q in got.nonces && RoleInRing(c.env, role))
    && (forall q, role {:trigger (q, role) in got.partials} :: (q, role) in got.partials ==> (q, role) in got.schnorr)
    && (forall q, role {:trigger (q, role) in got.partials} :: (q, role) in got.partials ==> q in got.nonces && RoleInRing(c.env, role))
    && (forall q, role {:trigger q in got.locks, (q, role) in got.partials} ::
          q in got.locks && RoleInRing(c.env, role) ==> (q, role) in got.partials)
    && (forall q {:trigger q in got.locks} :: q in got.locks ==> q in got.nonces)
    && (forall q {:trigger q in got.secrets} :: q in got.secrets ==> q in got.locks)
    && (forall q {:trigger q in got.spends} :: q in got.spends ==> q in got.locks)
  }

  ghost predicate Opened(c: Conf, me: Pid, gotNonces: set<Pid>) { AllOthers(c, me, gotNonces) }
  ghost predicate Signs(c: Conf, me: Pid, gotSchnorr: set<(Pid, TxRole)>, role: TxRole) { AllOthersFor(c, me, gotSchnorr, role) }
  ghost predicate Finalized(c: Conf, me: Pid, gotPartials: set<(Pid, TxRole)>, role: TxRole) { AllOthersFor(c, me, gotPartials, role) }
  ghost predicate Funded(c: Conf, me: Pid, gotPartials: set<(Pid, TxRole)>) {
    forall role {:trigger Finalized(c, me, gotPartials, role)} :: RoleInRing(c.env, role) ==> Finalized(c, me, gotPartials, role)
  }

  // ---------- the invariant, in groups of fields ----------

  ghost predicate PointsInv(c: Conf, me: Pid, points: map<Pid, Point>, got: set<Pid>) {
    && ValidConf(c)
    && forall q {:trigger q in points} ::
      && (q in points <==> q in c.env.ring && (q == me || q in got))
      && (q in points ==> points[q] == c.tape(q).point)
  }

  /** Commitments and leader nonces are those of their senders. */
  ghost predicate ElectionInv(c: Conf, me: Pid, commitments: map<Pid, Bytes32>, nonces: map<Pid, Bytes32>,
                              own: bool, gotCommitments: set<Pid>, gotNonces: set<Pid>)
  {
    && ValidConf(c)
    && (forall q {:trigger q in commitments} ::
          && (q in commitments <==> q in c.env.ring && (if q == me then own else q in gotCommitments))
          && (q in commitments ==> commitments[q] == c.env.sha256(c.tape(q).draw.leaderNonce)))
    && (forall q {:trigger q in nonces} ::
          && (q in nonces <==> q in c.env.ring && (if q == me then own else q in gotNonces))
          && (q in nonces ==> nonces[q] == c.tape(q).draw.leaderNonce))
  }

  /** The own nonce is revealed exactly when all commitments are in; the own commitment follows the
      first one handled, and the own point. */
  ghost predicate RevealInv(c: Conf, me: Pid, point: bool, commitment: bool, nonce: bool, gotCommitments: set<Pid>) {
    && (nonce <==> commitment && AllOthers(c, me, gotCommitments))
    && (gotCommitments != {} ==> commitment)
    && (commitment ==> point)
  }

  ghost predicate OpeningInv(c: Conf, leader: Option<Pid>, lockTxs: map<Pid, LockTx>, musig: set<TxRole>,
                             unsigned: map<TxRole, UnsignedTx>, schnorr: set<TxRole>, open: bool) {
    && leader == (if open then Some(c.plan.leader) else None)
    && lockTxs == (if open then c.plan.locks else map[])
    && (forall role {:trigger role in musig} :: role in musig <==> RoleInRing(c.env, role) && open)
    && (forall role {:trigger role in unsigned} ::
          && (role in unsigned <==> RoleInRing(c.env, role) && open)
          && (role in unsigned ==> unsigned[role] == c.plan.unsigned(role)))
    && (forall role {:trigger role in schnorr} :: role in schnorr <==> RoleInRing(c.env, role) && open)
  }

  function TheRuntime(c: Conf, p: Pid, role: TxRole, second: bool): MusigRuntime {
    if second then RoundTwo(c.plan.msg(role), c.plan.tweak(role))
    else RoundOne(c.plan.msg(role), c.plan.tweak(role), c.plan.sec(p, role))
  }

  ghost predicate MusigInv(c: Conf, me: Pid, musig: map<TxRole, MusigRuntime>, gotSchnorr: set<(Pid, TxRole)>) {
    forall role {:trigger musig[role]} :: role in musig ==>
      musig[role] == TheRuntime(c, me, role, Signs(c, me, gotSchnorr, role))
  }

  ghost predicate NoncesInv(c: Conf, me: Pid, nonces: map<(Pid, TxRole), PubNonce>, open: bool, gotSchnorr: set<(Pid, TxRole)>) {
    forall q, role {:trigger (q, role) in nonces} ::
      && ((q, role) in nonces <==>
            q in c.env.ring && RoleInRing(c.env, role) && (if q == me then open else (q, role) in gotSchnorr))
      && ((q, role) in nonces ==> nonces[(q, role)] == PubNonce(c.plan.sec(q, role)))
  }

  ghost predicate PartialsInv(c: Conf, me: Pid, partials: map<(Pid, TxRole), PartialSig>, sent: set<TxRole>,
                              gotSchnorr: set<(Pid, TxRole)>, gotPartials: set<(Pid, TxRole)>) {
    && (forall q, role {:trigger (q, role) in partials} ::
          && ((q, role) in partials <==>
                q in c.env.ring && RoleInRing(c.env, role)
                && (if q == me then Signs(c, me, gotSchnorr, role) else (q, role) in gotPartials))
          && ((q, role) in partials ==> partials[(q, role)] == ThePartial(c, q, role)))
    && (forall role {:trigger role in sent} :: role in sent <==> RoleInRing(c.env, role) && Signs(c, me, gotSchnorr, role))
  }

  ghost predicate RefundsInv(c: Conf, me: Pid, signed: map<TxRole, SignedTx>, gotPartials: set<(Pid, TxRole)>) {
    forall id {:trigger Refund(id)} :: id in c.env.ring ==>
      && (Refund(id) in signed <==> Finalized(c, me, gotPartials, Refund(id)))
      && (Refund(id) in signed ==>
            signed[Refund(id)] == SignedTx(c.plan.unsigned(Refund(id)), Plain(c.plan.inputs(Refund(id)))))
  }

  ghost predicate SpendsInv(c: Conf, me: Pid, adaptorSigs: map<TxRole, SigningInputs>, gotPartials: set<(Pid, TxRole)>) {
    forall id {:trigger Spend(id)} :: id in c.env.ring ==>
      && (Spend(id) in adaptorSigs <==> Finalized(c, me, gotPartials, Spend(id)))
      && (Spend(id) in adaptorSigs ==> adaptorSigs[Spend(id)] == c.plan.inputs(Spend(id)))
  }

  /** The states every session goes through, in this order and without skipping any, up to funding. */
  const SETUP_PATH: seq<SwapState> := [
    Initialized, AwaitingAdaptorPoints, AwaitingLeaderElectionCommitments,
    AwaitingLeaderElectionNonces, RefundAndSpendTxsSigning, Funding]

  /** How many of these states a session has been in before it funds. */
  function Stage(point: bool, commitment: bool, nonce: bool, open: bool): (n: nat)
    ensures 1 <= n <= 5
  {
    if open then 5 else if nonce then 4 else if commitment then 3 else if point then 2 else 1
  }

  predicate AfterFunding(st: SwapState) {
    st.AwaitingSecrets? || st.AwaitingLeaderSpend? || st.Claiming? || st.Terminal()
  }

  ghost predicate PhaseInv(state: SwapState, history: seq<SwapState>, stage: nat, funded: bool, lock: bool) {
    && stage <= 5
    && history != [] && state == history[|history| - 1]
    && (!funded ==> history == SETUP_PATH[..stage] && !lock)
    && (funded ==>
          && 7 <= |history| && history[..6] == SETUP_PATH
          && history[6] == (if lock then AwaitingLockConfirmations else Failed)
          && (!lock ==> |history| == 7)
          && forall i :: 7 <= i < |history| ==> AfterFunding(history[i]))
  }

  /** Secrets, locks and what follows from them. */
  ghost predicate ClaimInv(c: Conf, me: Pid, secrets: map<Pid, Secret>, broadcast: set<Pid>, confirmed: set<Pid>,
                           lock: bool, secret: bool, spend: bool, gotLocks: set<Pid>, gotSecrets: set<Pid>)
  {
    && ValidConf(c) && me in c.env.ring
    && me in secrets && secrets[me] == c.tape(me).secret
    && (forall q {:trigger q in secrets} :: q in secrets && q != me && (q != c.plan.leader || me == c.plan.leader) ==> q in gotSecrets)
    && (forall q {:trigger q in broadcast} :: q in broadcast ==> q in c.env.ring && if q == me then lock else q in gotLocks)
    && confirmed <= broadcast
    && (secret <==> me != c.plan.leader && c.env.ring.Keys <= confirmed)
    && (spend ==> me == c.plan.leader && AllOthers(c, me, gotSecrets))
    && (secret || spend ==> lock)
  }

  /** The leader never waits for a leader's spend, and claims only with all secrets. */
  ghost predicate LeaderInv(c: Conf, me: Pid, history: seq<SwapState>, gotSecrets: set<Pid>) {
    me == c.plan.leader ==>
      && AwaitingLeaderSpend !in history
      && (Claiming in history ==> AllOthers(c, me, gotSecrets))
  }

  ghost predicate PartyInv(c: Conf, s: Session, sent: Sent, got: Handled) {
    && ValidConf(c)
    && s.me in c.env.ring
    && Fifo(c, s.me, got)
    && PointsInv(c, s.me, s.points, got.points)
    && ElectionInv(c, s.me, s.leaderCommitments, s.leaderNonces, sent.commitment, got.commitments, got.nonces)
    && RevealInv(c, s.me, sent.point, sent.commitment, sent.nonce, got.commitments)
    && OpeningInv(c, s.leader, s.lockTxs, s.musig.Keys, s.unsignedTxs, sent.schnorr, Opened(c, s.me, got.nonces))
    && MusigInv(c, s.me, s.musig, got.schnorr)
    && NoncesInv(c, s.me, s.nonces, Opened(c, s.me, got.nonces), got.schnorr)
    && PartialsInv(c, s.me, s.partials, sent.partials, got.schnorr, got.partials)
    && RefundsInv(c, s.me, s.signedTxs, got.partials)
    && SpendsInv(c, s.me, s.adaptorSigs, got.partials)
    && PhaseInv(s.state, s.history, Stage(sent.point, sent.commitment, sent.nonce, Opened(c, s.me, got.nonces)),
                Funded(c, s.me, got.partials), sent.lock)
    && ClaimInv(c, s.me, s.secrets, s.locksBroadcast, s.locksConfirmed, sent.lock, sent.secret, sent.spend, got.locks, got.secrets)
    && LeaderInv(c, s.me, s.history, got.secrets)
  }

  // ---------- what a step may broadcast ----------

  /** A message that may follow what has been sent: the planned one, new, and only after everything
      of a lower rank. */
  ghost predicate MayFollow(c: Conf, p: Pid, sent: Sent, m: WireMessage) {
    && ValidConf(c) && p in c.env.ring
    && ValidKind(c, KindOf(m)) && m == TheMessage(c, p, KindOf(m)) && !In(sent, KindOf(m))
    && LowerRanksSent(c, sent, Rank(KindOf(m)))
  }

  ghost predicate LowerRanksSent(c: Conf, sent: Sent, rank: nat) {
    && (0 < rank ==> sent.point)
    && (1 < rank ==> sent.commitment)
    && (2 < rank ==> sent.nonce)
    && (3 < rank ==> forall role {:trigger role in sent.schnorr} :: RoleInRing(c.env, role) ==> role in sent.schnorr)
    && (4 < rank ==> forall role {:trigger role in sent.partials} :: RoleInRing(c.env, role) ==> role in sent.partials)
    && (5 < rank ==> sent.lock)
  }

  ghost predicate MayEmit(c: Conf, p: Pid, sent: Sent, out: seq<WireMessage>) {
    && ValidConf(c) && p in c.env.ring
    && (out != [] ==>
      && MayEmit(c, p, sent, out[..|out| - 1])
      && MayFollow(c, p, After(sent, out[..|out| - 1]), out[|out| - 1]))
  }

  /** A step that does not panic, keeps the invariant and broadcasts only what may follow. */
  ghost predicate GoodStep(c: Conf, s: Session, sent: Sent, got: Handled, o: Outcome) {
    && ValidConf(c) && s.me in c.env.ring
    && o.Ok? && o.session.me == s.me
    && MayEmit(c, s.me, sent, o.out)
    && PartyInv(c, o.session, After(sent, o.out), got)
  }

  lemma EmitOne(c: Conf, p: Pid, sent: Sent, m: WireMessage)
    requires ValidConf(c) && p in c.env.ring && MayFollow(c, p, sent, m)
    ensures MayEmit(c, p, sent, [m]) && After(sent, [m]) == Add(sent, KindOf(m))
  {
    assert [m][..0] == [];
  }

  lemma EmitTwo(c: Conf, p: Pid, sent: Sent, m1: WireMessage, m2: WireMessage)
    requires ValidConf(c) && p in c.env.ring && MayFollow(c, p, sent, m1) && MayFollow(c, p, Add(sent, KindOf(m1)), m2)
    ensures MayEmit(c, p, sent, [m1] + [m2]) && After(sent, [m1] + [m2]) == Add(Add(sent, KindOf(m1)), KindOf(m2))
  {
    EmitOne(c, p, sent, m1);
    assert ([m1] + [m2])[..1] == [m1];
  }

  lemma OtherParticipant(c: Conf, me: Pid) returns (q: Pid)
    requires ValidConf(c) && me in c.env.ring
    ensures q in c.env.ring && q != me
  {
    var others := c.env.ring.Keys - {me};
    assert |others| == |c.env.ring.Keys| - 1;
    q :| q in others;
  }
}
