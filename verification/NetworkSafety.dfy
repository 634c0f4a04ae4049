/** Safety of the whole network, for every ring size and every schedule of starts, deliveries and polls:
    no panic, one leader, common signing inputs, a safe exit before any lock, and no claim before all
    locks are on chain. */
module NetworkSafety {
  import opened Ring
  import opened Timelocks
  import opened Protocol
  import opened Contents
  import opened PartyInvariant
  import opened PartySteps
  import opened ClaimSteps
  import opened Effects
  import opened Network
  import opened NetworkInvariant
  import opened NetworkSteps

  // ---------- runs ----------

  /** A run: one network after another, each by an event that was possible. */
  ghost predicate IsRun(c: Conf, ns: seq<Net>, es: seq<Event>) {
    && ValidConf(c)
    && |ns| == |es| + 1 && ns[0] == Initial(c)
    && forall i {:trigger es[i]} :: 0 <= i < |es| ==> Follows(c, ns[i], es[i], ns[i + 1])
  }

  ghost predicate Follows(c: Conf, n: Net, e: Event, n': Net) {
    && ValidConf(c)
    && Shaped(c, n) && Enabled(c, n, e) && n' == Step(c, n, e)
  }

  ghost predicate Reachable(c: Conf, n: Net) {
    && ValidConf(c)
    && exists ns, es :: IsRun(c, ns, es) && ns[|es|] == n
  }

  lemma {:induction false} NewPartyInv(c: Conf, p: Pid)
    requires ValidConf(c) && p in c.env.ring
    ensures PartyGood(c, p, NewSession(p, c.tape(p).secret, c.tape(p).point), [], NOTHING_HANDLED)
  {
    hide IsRing;
    var q := OtherParticipant(c, p);
    var nobody: set<Pid>, nothing: set<(Pid, TxRole)> := {}, {};
    assert !AllOthers(c, p, nobody) by { assert q !in nobody; }
    forall role {:trigger Signs(c, p, nothing, role)} {:trigger Finalized(c, p, nothing, role)}
      ensures !Signs(c, p, nothing, role) && !Finalized(c, p, nothing, role)
    {
      assert (q, role) !in nothing;
    }
    assert !Funded(c, p, nothing) by { assert RoleInRing(c.env, Refund(p)) && !Finalized(c, p, nothing, Refund(p)); }
    assert SentIn([]) == NOTHING_SENT;
    assert !(c.env.ring.Keys <= nobody) by { assert p in c.env.ring.Keys; }
    assert SETUP_PATH[..1] == [Initialized];
  }

  lemma InitialInv(c: Conf)
    requires ValidConf(c)
    ensures NetInv(c, Initial(c))
  {
    hide IsRing, PartyInv, Parties, PartyGood, Links, PointsFirst, SomeoneCommits, ChainInv, Fresh;
    var n := Initial(c);
    forall p {:trigger n.Party(p)} | p in c.env.ring
      ensures PartyGood(c, p, n.Party(p), n.Log(p), n.Got(p))
    {
      NewPartyInv(c, p);
    }
    PartiesFrom(c, n);
    InitialIsFresh(c);
    FreshLinks(c, n);
    FreshElection(c, n);
  }

  ghost predicate Fresh(c: Conf, n: Net) {
    && Shaped(c, n) && n.onChain == {}
    && (forall p {:trigger n.Log(p)} :: p in c.env.ring ==> n.Log(p) == [])
    && (forall p {:trigger n.Got(p)} :: p in c.env.ring ==> n.Got(p) == NOTHING_HANDLED)
    && (forall p {:trigger n.Party(p)} :: p in c.env.ring ==> n.Party(p).locksConfirmed == {})
    && (forall p, q {:trigger n.Seen(p, q)} :: p in c.env.ring && q in c.env.ring ==> n.Seen(p, q) == 0)
  }

  lemma NothingSent()
    ensures SentIn([]) == NOTHING_SENT
  {
  }

  lemma FreshLinks(c: Conf, n: Net)
    requires Fresh(c, n)
    ensures Links(c, n)
  {
    hide SentIn, Tracks;
    NothingSent();
    forall p, q {:trigger n.Seen(p, q)} | p in c.env.ring && q in c.env.ring && q != p
      ensures LinkGood(n.Got(p), q, n.Log(q), n.Seen(p, q))
    {
      assert n.Log(q)[..0] == [];
      NothingTracked(q);
    }
  }

  lemma FreshElection(c: Conf, n: Net)
    requires Fresh(c, n) && c.plan.leader in c.env.ring
    ensures PointsFirst(c, n) && SomeoneCommits(c, n) && ChainInv(c, n)
  {
    hide SentIn, AllOthers;
    NothingSent();
    assert n.Log(c.plan.leader) == [];
    assert !HasAllPoints(c, c.plan.leader, n.Log(c.plan.leader), n.Got(c.plan.leader));
  }

  lemma InitialIsFresh(c: Conf)
    requires ValidConf(c)
    ensures Fresh(c, Initial(c))
  {
    hide IsRing;
  }

  lemma NothingTracked(q: Pid)
    ensures Tracks(NOTHING_HANDLED, q, NOTHING_SENT)
  {
  }

  lemma {:induction false} RunInv(c: Conf, ns: seq<Net>, es: seq<Event>, i: nat)
    requires ValidConf(c) && PlanFits(c) && IsRun(c, ns, es) && i < |ns|
    ensures NetInv(c, ns[i])
  {
    hide IsRing, NetInv, PlanFits, Step, Enabled, Initial, Shaped;
    if i == 0 {
      InitialInv(c);
    } else {
      RunInv(c, ns, es, i - 1);
      assert Follows(c, ns[i - 1], es[i - 1], ns[i]);
      StepKeeps(c, ns[i - 1], es[i - 1]);
    }
  }

  lemma ReachableInv(c: Conf, n: Net)
    requires ValidConf(c) && PlanFits(c) && Reachable(c, n)
    ensures NetInv(c, n)
  {
    hide IsRing, NetInv, PlanFits, Follows;
    var ns, es :| IsRun(c, ns, es) && ns[|es|] == n;
    RunInv(c, ns, es, |es|);
  }

  /** No schedule makes a handler panic. */
  lemma NoPanic(c: Conf, n: Net)
    requires ValidConf(c) && PlanFits(c) && Reachable(c, n)
    ensures !n.crashed
  {
    hide IsRing, PlanFits, Reachable, Shaped, Parties, Links, PointsFirst, SomeoneCommits, ChainInv;
    ReachableInv(c, n);
  }

  // ---------- one leader ----------

  lemma PartyKnowsLeader(c: Conf, s: Session, sent: Sent, got: Handled)
    requires ValidConf(c) && PartyInv(c, s, sent, got) && s.leader.Some?
    ensures s.leader.value == c.plan.leader && s.lockTxs == c.plan.locks
  {
    hide IsRing, Fifo, Opened, Funded, PointsInv, ElectionInv, RevealInv, MusigInv, NoncesInv, PartialsInv,
         RefundsInv, SpendsInv, LeaderInv, PhaseInv, ClaimInv;
  }

  lemma PartyOf(c: Conf, n: Net, p: Pid)
    requires ValidConf(c) && Shaped(c, n) && p in c.env.ring && NetInv(c, n)
    ensures PartyGood(c, p, n.Party(p), n.Log(p), n.Got(p))
  {
    hide IsRing, PartyGood, Links, PointsFirst, SomeoneCommits, ChainInv, Parties;
    PartyAt(c, n, p);
  }

  /** Whoever has elected a leader has elected the same participant: the one at the index that the first eight
      bytes of the hash over all nonces give modulo N, in ascending order of the ids. And it has built the same
      locks, each with the amount, the chain and the deadline of its owner. */
  lemma OneLeader(c: Conf, n: Net, p: Pid)
    requires ValidConf(c) && Shaped(c, n) && p in c.env.ring && n.Party(p).leader.Some?
    requires PlanFits(c) && Reachable(c, n)
    ensures var nonces := AllLeaderNonces(c);
            var k := FirstWord(c.env.sha256(Concatenated(nonces, SortedKeys(nonces.Keys)))) % |c.env.ring|;
            k < |SortedKeys(c.env.ring.Keys)| && n.Party(p).leader.value == SortedKeys(c.env.ring.Keys)[k]
    ensures n.Party(p).lockTxs.Keys == c.env.ring.Keys
    ensures forall q {:trigger n.Party(p).lockTxs[q]} :: q in c.env.ring ==>
              LockRight(c.env, n.Party(p).leader.value, q, n.Party(p).lockTxs[q])
  {
    hide IsRing, PartyInv, Reachable, Parties, Links, PointsFirst, SomeoneCommits, ChainInv, ElectedLeader, Locks,
         InputsFit, LocksBuildable, AllLeaderNonces, LockRight, PlanFits, Concatenated, FirstWord, SortedKeys, NetInv;
    ReachableInv(c, n);
    PartyOf(c, n, p);
    PartyKnowsLeader(c, n.Party(p), SentIn(n.Log(p)), n.Got(p));
    PlanElects(c);
    forall q {:trigger n.Party(p).lockTxs[q]} | q in c.env.ring
      ensures LockRight(c.env, n.Party(p).leader.value, q, n.Party(p).lockTxs[q])
    {
      PlanIsRight(c, Refund(q));
    }
  }

  // ---------- commit before reveal ----------

  lemma RevealedHasCommitments(c: Conf, s: Session, sent: Sent, got: Handled)
    requires ValidConf(c) && PartyInv(c, s, sent, got) && sent.nonce
    ensures HasAll(c.env.ring, s.leaderCommitments)
  {
    hide IsRing, Fifo, Opened, Funded, PointsInv, OpeningInv, MusigInv, NoncesInv, PartialsInv, RefundsInv, SpendsInv,
         LeaderInv, PhaseInv, ClaimInv;
    ElectionComplete(c, s.me, s.leaderCommitments, s.leaderNonces, got.commitments, got.nonces);
  }

  lemma NoncesMatchCommitments(c: Conf, s: Session, sent: Sent, got: Handled, q: Pid)
    requires ValidConf(c) && PartyInv(c, s, sent, got) && q in s.leaderNonces
    ensures q in s.leaderCommitments && s.leaderCommitments[q] == c.env.sha256(s.leaderNonces[q])
  {
    hide IsRing, Opened, Funded, PointsInv, OpeningInv, MusigInv, NoncesInv, PartialsInv, RefundsInv, SpendsInv,
         LeaderInv, PhaseInv, ClaimInv;
    if q != s.me {
      assert q in got.nonces;
    }
  }

  lemma LogHas(log: seq<WireMessage>, i: nat)
    requires i < |log|
    ensures In(SentIn(log), KindOf(log[i]))
  {
    hide In, KindOf, SentIn;
    assert log[..i + 1][..i] == log[..i];
    LastSent(log[..i + 1]);
    AddedIn(SentIn(log[..i]), KindOf(log[i]), KindOf(log[i]));
    PrefixSent(log, i + 1, KindOf(log[i]));
  }

  ghost predicate RevealsAfterAll(env: Env, s: Session, log: seq<WireMessage>) {
    forall m {:trigger m in log} :: m in log && m.LeaderElectionNonce? ==> HasAll(env.ring, s.leaderCommitments)
  }

  ghost predicate NoncesAreCommitted(env: Env, s: Session) {
    forall q {:trigger q in s.leaderNonces} :: q in s.leaderNonces ==>
      q in s.leaderCommitments && s.leaderCommitments[q] == env.sha256(s.leaderNonces[q])
  }

  /** A party reveals its nonce only when it holds the commitments of all, and every nonce anybody
      stores is the one its sender committed to. */
  lemma CommitBeforeReveal(c: Conf, n: Net, p: Pid)
    requires ValidConf(c) && Shaped(c, n) && p in c.env.ring
    requires PlanFits(c) && Reachable(c, n)
    ensures RevealsAfterAll(c.env, n.Party(p), n.Log(p))
    ensures NoncesAreCommitted(c.env, n.Party(p))
  {
    hide IsRing, PartyInv, Reachable, Parties, Links, PointsFirst, SomeoneCommits, ChainInv, PlanFits, SentIn, HasAll,
         Grounded;
    ReachableInv(c, n);
    PartyOf(c, n, p);
    forall m {:trigger m in n.Log(p)} | m in n.Log(p) && m.LeaderElectionNonce?
      ensures HasAll(c.env.ring, n.Party(p).leaderCommitments)
    {
      var i :| 0 <= i < |n.Log(p)| && n.Log(p)[i] == m;
      LogHas(n.Log(p), i);
      RevealedHasCommitments(c, n.Party(p), SentIn(n.Log(p)), n.Got(p));
    }
    forall q {:trigger q in n.Party(p).leaderNonces} | q in n.Party(p).leaderNonces
      ensures q in n.Party(p).leaderCommitments
           && n.Party(p).leaderCommitments[q] == c.env.sha256(n.Party(p).leaderNonces[q])
    {
      NoncesMatchCommitments(c, n.Party(p), SentIn(n.Log(p)), n.Got(p), q);
    }
  }

  // ---------- common signing inputs ----------

  /** The inputs everybody must sign for a role: the message derived from the elected leader, the
      aggregate of all N public nonces and, for a spend, of all N adaptor points. */
  ghost function CommonInputs(c: Conf, role: TxRole): SigningInputs
    requires ValidConf(c) && LocksBuildable(c.env) && RoleInRing(c.env, role)
  {
    var leader := ElectedLeader(c.env, AllLeaderNonces(c));
    SigningInputs(
      MessageFor(c.env, leader, role), TweakFor(c.env, role),
      c.env.sumNonces(map p | p in c.env.ring :: PubNonce(NewNonce(c.env, leader, p, c.tape(p).draw, role))),
      if role.Spend? then Some(c.env.sumPoints(AllPoints(c))) else None)
  }

  lemma InputsAreCommon(c: Conf, role: TxRole)
    requires PlanFits(c) && RoleInRing(c.env, role)
    ensures c.plan.inputs(role) == CommonInputs(c, role)
  {
    hide IsRing, LocksBuildable, ElectedLeader, AllLeaderNonces, AllPoints, MessageFor, UnsignedFor, TweakFor,
         NewNonce, Locks;
    assert PlannedRole(c, role);
    var leader := ElectedLeader(c.env, AllLeaderNonces(c));
    assert AllNonces(c, role) == map p | p in c.env.ring :: PubNonce(NewNonce(c.env, leader, p, c.tape(p).draw, role));
  }

  /** A message in a log is the planned one of its kind. */
  lemma LogIsPlanned(c: Conf, p: Pid, log: seq<WireMessage>, i: nat)
    requires ValidConf(c) && p in c.env.ring && MayEmit(c, p, NOTHING_SENT, log) && i < |log|
    ensures log[i] == TheMessage(c, p, KindOf(log[i])) && ValidKind(c, KindOf(log[i]))
  {
    hide IsRing, MayEmit, TheMessage, LowerRanksSent, KindOf, ValidKind;
    LogEntry(c, p, log, i);
  }

  /** All partial signatures for a role, by whomever, are over the same inputs. */
  lemma SameSigningInputs(c: Conf, n: Net, p: Pid, i: nat)
    requires ValidConf(c) && Shaped(c, n) && p in c.env.ring && i < |n.Log(p)| && n.Log(p)[i].PartialSignature?
    requires LocksBuildable(c.env) && PlanFits(c) && Reachable(c, n)
    ensures RoleInRing(c.env, n.Log(p)[i].role)
    ensures n.Log(p)[i].sig.signer == p && n.Log(p)[i].sig.inputs == CommonInputs(c, n.Log(p)[i].role)
  {
    hide IsRing, PartyInv, Reachable, Parties, Links, PointsFirst, SomeoneCommits, ChainInv, PlanFits, SentIn,
         Grounded, CommonInputs, MayEmit;
    ReachableInv(c, n);
    PartyOf(c, n, p);
    LogIsPlanned(c, p, n.Log(p), i);
    InputsAreCommon(c, n.Log(p)[i].role);
  }

  ghost predicate DistinctKinds(log: seq<WireMessage>) {
    forall i, j {:trigger log[i], log[j]} :: 0 <= i < j < |log| ==> KindOf(log[i]) != KindOf(log[j])
  }

  /** Nobody sends two messages of the same kind; in particular one nonce and one partial signature per
      role, and one secret. */
  lemma KindsAreDistinct(c: Conf, n: Net, p: Pid)
    requires ValidConf(c) && Shaped(c, n) && p in c.env.ring
    requires PlanFits(c) && Reachable(c, n)
    ensures DistinctKinds(n.Log(p))
  {
    hide IsRing, PartyInv, Reachable, Parties, Links, PointsFirst, SomeoneCommits, ChainInv, PlanFits, SentIn,
         Grounded, MayEmit, KindOf, In;
    ReachableInv(c, n);
    PartyOf(c, n, p);
    EmittedKinds(c, p, n.Log(p));
  }

  lemma EmittedKinds(c: Conf, p: Pid, log: seq<WireMessage>)
    requires ValidConf(c) && p in c.env.ring && MayEmit(c, p, NOTHING_SENT, log)
    ensures DistinctKinds(log)
  {
    hide IsRing, SentIn, MayEmit, KindOf, In, TheMessage, LowerRanksSent, ValidKind;
    forall i, j | 0 <= i < j < |log|
      ensures KindOf(log[i]) != KindOf(log[j])
    {
      LogEntry(c, p, log, j);
      LogHas(log[..j], i);
    }
  }

  // ---------- the phases, and the safe exit before funding ----------

  /** The states a session is in one after the other: a prefix of the setup path; then either the
      failed submission of the lock, or the wait for the confirmations and only later states. */
  ghost predicate ClimbsPhases(history: seq<SwapState>) {
    || history <= SETUP_PATH
    || history == SETUP_PATH + [Failed]
    || (SETUP_PATH + [AwaitingLockConfirmations] <= history && forall i :: 7 <= i < |history| ==> AfterFunding(history[i]))
  }

  lemma PhasesClimb(state: SwapState, history: seq<SwapState>, stage: nat, funded: bool, lock: bool)
    requires stage <= 5 && PhaseInv(state, history, stage, funded, lock)
    ensures ClimbsPhases(history) && history != [] && state == history[|history| - 1]
    ensures Funding in history <==> funded
    ensures 0 < stage ==> history[0] == Initialized
  {
    if funded {
      assert history[..7] == history[..6] + [history[6]];
      assert history[5] == Funding;
    }
  }

  lemma {:induction false} CountZero(history: seq<SwapState>)
    requires Funding !in history
    ensures FundingCount(history) == 0
  {
    if history != [] {
      var n := |history| - 1;
      assert history[n] in history;
      CountZero(history[..n]);
    }
  }

  lemma {:induction false} FundsOnce(history: seq<SwapState>)
    requires ClimbsPhases(history)
    ensures FundingCount(history) == if Funding in history then 1 else 0
  {
    if Funding in history {
      var n := |history| - 1;
      if n == 5 {
        CountZero(history[..5]);
        assert history[..5] == SETUP_PATH[..5];
      } else {
        assert history[n] != Funding && history[5] == Funding;
        assert history[..n][5] == Funding;
        assert ClimbsPhases(history[..n]) by { PrefixClimbs(history); }
        FundsOnce(history[..n]);
      }
    } else {
      CountZero(history);
    }
  }

  lemma PrefixClimbs(history: seq<SwapState>)
    requires history != [] && ClimbsPhases(history)
    ensures ClimbsPhases(history[..|history| - 1])
  {
  }

  /** From `Initialized` up the phases to the current state. */
  ghost predicate GoodHistory(s: Session) {
    && s.history != [] && s.history[0] == Initialized && s.state == s.history[|s.history| - 1]
    && ClimbsPhases(s.history)
  }

  lemma PartyPhases(c: Conf, s: Session, sent: Sent, got: Handled)
    requires ValidConf(c) && PartyInv(c, s, sent, got)
    ensures GoodHistory(s)
    ensures Funding in s.history <==> Funded(c, s.me, got.partials)
  {
    hide IsRing, Fifo, Opened, Funded, PhaseInv, PointsInv, ElectionInv, OpeningInv, MusigInv, NoncesInv, PartialsInv,
         RefundsInv, SpendsInv, LeaderInv, ClaimInv;
    PhasesClimb(s.state, s.history, Stage(sent.point, sent.commitment, sent.nonce, Opened(c, s.me, got.nonces)),
                Funded(c, s.me, got.partials), sent.lock);
  }

  /** Every history starts at `Initialized`, ends at the current state and climbs the phases. */
  lemma HistoryClimbs(c: Conf, n: Net, p: Pid)
    requires ValidConf(c) && Shaped(c, n) && p in c.env.ring
    requires PlanFits(c) && Reachable(c, n)
    ensures GoodHistory(n.Party(p))
  {
    hide IsRing, PartyInv, Reachable, Parties, Links, PointsFirst, SomeoneCommits, ChainInv, PlanFits, SentIn,
         Grounded, GoodHistory, Funded;
    ReachableInv(c, n);
    PartyOf(c, n, p);
    PartyPhases(c, n.Party(p), SentIn(n.Log(p)), n.Got(p));
  }

  /** What a party needs to leave the swap safely: its own refund, which says what it should, fully signed, and which
      the chain takes whenever the daemon finds the window open; and the pre-signatures of everybody's spend, over
      the common inputs. */
  ghost predicate HasSafeExit(c: Conf, s: Session) {
    ValidConf(c) && LocksBuildable(c.env) && s.me in c.env.ring && HoldsRefund(c, s) && HoldsSpends(c, s)
  }

  ghost predicate HoldsRefund(c: Conf, s: Session) {
    && s.leader == Some(c.plan.leader) && RoleInRing(c.env, Refund(s.me)) && ValidConf(c) && LocksBuildable(c.env)
    && Refund(s.me) in s.signedTxs && RefundLeads(c, s.me, s.signedTxs[Refund(s.me)].tx)
    && s.signedTxs[Refund(s.me)].auth == Plain(CommonInputs(c, Refund(s.me)))
    && CommonInputs(c, Refund(s.me)).msg == SignedMessage(s.signedTxs[Refund(s.me)].tx)
  }

  ghost predicate HoldsSpends(c: Conf, s: Session) {
    && ValidConf(c) && LocksBuildable(c.env)
    && forall id {:trigger Spend(id)} :: id in c.env.ring ==>
         Spend(id) in s.adaptorSigs && s.adaptorSigs[Spend(id)] == CommonInputs(c, Spend(id))
  }

  /** The transaction returns the own lock to the party itself, and its timelock has passed whenever the window is
      found open. */
  ghost predicate RefundLeads(c: Conf, p: Pid, tx: UnsignedTx) {
    && RefundRight(c.env, c.plan.leader, p, tx)
    && forall tip {:trigger TimelockPassed(c.env.systemStart, tx, tip)} ::
         DaemonSaysOpen(c.env.ring, c.plan.leader, c.env.anchors, p, tip) ==> TimelockPassed(c.env.systemStart, tx, tip)
  }

  lemma RightLeads(c: Conf, p: Pid, tx: UnsignedTx)
    requires RefundRight(c.env, c.plan.leader, p, tx)
    ensures RefundLeads(c, p, tx)
  {
    hide IsRing, RefundRight, TimelockPassed, DaemonSaysOpen;
    assert IsRing(c.env.ring) && c.plan.leader in c.env.ring && p in c.env.ring by { RightInRing(c, p, tx); }
    forall tip {:trigger TimelockPassed(c.env.systemStart, tx, tip)} | DaemonSaysOpen(c.env.ring, c.plan.leader, c.env.anchors, p, tip)
      ensures TimelockPassed(c.env.systemStart, tx, tip)
    {
      OwnRefundAccepted(c.env, c.plan.leader, p, tx, tip);
    }
  }

  lemma RightInRing(c: Conf, p: Pid, tx: UnsignedTx)
    requires RefundRight(c.env, c.plan.leader, p, tx)
    ensures IsRing(c.env.ring) && c.plan.leader in c.env.ring && p in c.env.ring
  {
    hide IsRing;
  }

  lemma CommonMessage(c: Conf, role: TxRole)
    requires PlanFits(c) && RoleInRing(c.env, role) && c.plan.leader in c.env.ring
    ensures c.plan.inputs(role).msg == SignedMessage(c.plan.unsigned(role))
  {
    hide IsRing, UnsignedFor, MessageFor, TweakFor, ElectedLeader, LockFor, NewNonce, LocksBuildable, SignedMessage, TxRight;
    assert PlannedRole(c, role);
    RoleIsRight(c.env, c.plan.leader, role.id, c.tape(role.id).draw, role);
  }

  lemma FundedHolds(c: Conf, s: Session, sent: Sent, got: Handled, id: Pid)
    requires ValidConf(c) && PlanFits(c) && PartyInv(c, s, sent, got) && Funded(c, s.me, got.partials) && id in c.env.ring
    ensures LocksBuildable(c.env) && Spend(id) in s.adaptorSigs && s.adaptorSigs[Spend(id)] == CommonInputs(c, Spend(id))
  {
    assert LocksBuildable(c.env);
    hide IsRing, Fifo, Opened, Finalized, PhaseInv, PointsInv, ElectionInv, RevealInv, OpeningInv, MusigInv,
         NoncesInv, PartialsInv, LeaderInv, ClaimInv, RefundsInv, CommonInputs, PlanFits;
    assert Finalized(c, s.me, got.partials, Spend(id));
    InputsAreCommon(c, Spend(id));
  }

  lemma FundedHoldsSpends(c: Conf, s: Session, sent: Sent, got: Handled)
    requires ValidConf(c) && PlanFits(c) && PartyInv(c, s, sent, got) && Funded(c, s.me, got.partials)
    ensures HoldsSpends(c, s)
  {
    assert LocksBuildable(c.env);
    hide IsRing, PartyInv, Funded, CommonInputs, PlanFits, LocksBuildable;
    forall id {:trigger Spend(id)} | id in c.env.ring
      ensures Spend(id) in s.adaptorSigs && s.adaptorSigs[Spend(id)] == CommonInputs(c, Spend(id))
    {
      FundedHolds(c, s, sent, got, id);
    }
  }

  lemma FundedHasExit(c: Conf, s: Session, sent: Sent, got: Handled)
    requires ValidConf(c) && PlanFits(c) && PartyInv(c, s, sent, got) && Funded(c, s.me, got.partials)
    ensures HasSafeExit(c, s)
  {
    assert LocksBuildable(c.env);
    assert s.me in c.env.ring;
    hide IsRing, PartyInv, Funded, CommonInputs, PlanFits, LocksBuildable, RefundLeads, SignedMessage, HoldsSpends, LowerRanksSent;
    OwnSpendIsReady(c, s, sent, got);
    MyRefundLeads(c, s.me);
    CommonMessage(c, Refund(s.me));
    InputsAreCommon(c, Refund(s.me));
    FundedHoldsSpends(c, s, sent, got);
  }

  lemma MyRefundLeads(c: Conf, p: Pid)
    requires ValidConf(c) && PlanFits(c) && p in c.env.ring
    ensures RefundLeads(c, p, c.plan.unsigned(Refund(p)))
  {
    hide IsRing, PlanFits, RefundRight, RefundLeads, LockRight;
    PlanIsRight(c, Refund(p));
    RightLeads(c, p, c.plan.unsigned(Refund(p)));
  }

  /** A party that has been in `Funding` holds its safe exit from then on. */
  lemma SafeExit(c: Conf, n: Net, p: Pid)
    requires ValidConf(c) && Shaped(c, n) && p in c.env.ring && LocksBuildable(c.env)
    requires PlanFits(c) && Reachable(c, n)
    ensures Funding in n.Party(p).history ==> n.Party(p).me == p && HasSafeExit(c, n.Party(p))
  {
    hide IsRing, PartyInv, Reachable, Parties, Links, PointsFirst, SomeoneCommits, ChainInv, PlanFits, SentIn,
         Grounded, GoodHistory, Funded, HasSafeExit, LocksBuildable;
    ReachableInv(c, n);
    PartyOf(c, n, p);
    PartyPhases(c, n.Party(p), SentIn(n.Log(p)), n.Got(p));
    if Funding in n.Party(p).history {
      FundedHasExit(c, n.Party(p), SentIn(n.Log(p)), n.Got(p));
    }
  }

  ghost predicate SubmittedMatches(c: Conf, n: Net) {
    && Shaped(c, n)
    && forall p {:trigger n.Submitted(p)} :: p in c.env.ring ==>
      LockSubmissions(n.Submitted(p)) == FundingCount(n.Party(p).history)
  }

  lemma EventFundsInStep(c: Conf, s: Session, e: Event, o: Outcome)
    requires IsRing(c.env.ring) && e.p in c.env.ring && o == Handle(c, s, e)
    ensures FundsInStep(s, o)
  {
    hide IsRing, HandleMessage, OnLockPoll, OnLeaderSpendPoll, OnRefundPoll, Protocol.Start, FundsInStep;
    match e {
      case Starts(_) => StartEffect(s);
      case Delivery(p, from, msg, accepted) => MessageEffect(c.env, s, msg, from, c.tape(p).draw, accepted);
      case LockPoll(_, owner, onChain) => LockPollEffect(c.env, s, owner, onChain);
      case LeaderSpendPoll(_, found) =>
        if s.leader.Some? {
          LeaderSpendPollEffect(s, s.leader.value, found);
        } else {
          assert FundsInStep(s, Panic) by { PanicFunds(s); }
        }
      case RefundPoll(_, open, accepted) => RefundPollEffect(s, open, accepted);
    }
  }

  lemma PanicFunds(s: Session)
    ensures FundsInStep(s, Panic)
  {
  }

  lemma StepSubmits(c: Conf, n: Net, e: Event)
    requires ValidConf(c) && Shaped(c, n) && Enabled(c, n, e) && Shaped(c, Step(c, n, e))
    requires SubmittedMatches(c, n)
    ensures SubmittedMatches(c, Step(c, n, e))
  {
    hide IsRing, Handle, LockSubmissions, FundingCount, With, FundsInStep;
    var got', o, n' := GotAfter(c, n, e), OutcomeOf(c, n, e), Step(c, n, e);
    EventFundsInStep(c, n.Party(e.p), e, o);
    if o.Ok? {
      StepHappens(c, n, e, got', o, n');
      HappensSubmits(c, n, e, got', o, n');
    } else {
      forall p {:trigger n'.Submitted(p)} | p in c.env.ring
        ensures LockSubmissions(n'.Submitted(p)) == FundingCount(n'.Party(p).history)
      {
        assert LockSubmissions(n.Submitted(p)) == FundingCount(n.Party(p).history);
      }
    }
  }

  lemma HappensSubmits(c: Conf, n: Net, e: Event, got': Handled, o: Outcome, n': Net)
    requires Happens(c, n, e, got', o, n') && SubmittedMatches(c, n) && FundsInStep(n.Party(e.p), o)
    ensures SubmittedMatches(c, n')
  {
    hide LockSubmissions, FundingCount, With;
    SubmissionsAdd(n.Submitted(e.p), o.submitted);
    forall p {:trigger n'.Submitted(p)} | p in c.env.ring
      ensures LockSubmissions(n'.Submitted(p)) == FundingCount(n'.Party(p).history)
    {
      assert LockSubmissions(n.Submitted(p)) == FundingCount(n.Party(p).history);
    }
  }

  lemma {:induction false} RunSubmits(c: Conf, ns: seq<Net>, es: seq<Event>, i: nat)
    requires ValidConf(c) && PlanFits(c) && IsRun(c, ns, es) && i < |ns|
    ensures Shaped(c, ns[i]) && SubmittedMatches(c, ns[i])
  {
    hide IsRing, PlanFits, Step, Enabled, Shaped, SubmittedMatches;
    if i == 0 {
      NothingSubmitted(c);
    } else {
      RunSubmits(c, ns, es, i - 1);
      assert Follows(c, ns[i - 1], es[i - 1], ns[i]);
      RunInv(c, ns, es, i);
      StepSubmits(c, ns[i - 1], es[i - 1]);
    }
  }

  lemma NothingSubmitted(c: Conf)
    requires ValidConf(c)
    ensures SubmittedMatches(c, Initial(c))
  {
    hide IsRing;
    assert [Initialized][..0] == [];
  }

  lemma ReachableSubmits(c: Conf, n: Net)
    requires ValidConf(c) && Shaped(c, n) && PlanFits(c) && Reachable(c, n)
    ensures SubmittedMatches(c, n)
  {
    hide IsRing, Shaped, PlanFits, Follows, SubmittedMatches;
    var ns, es :| IsRun(c, ns, es) && ns[|es|] == n;
    RunSubmits(c, ns, es, |es|);
  }

  /** The lock of a party is submitted at most once, and only in `Funding`. */
  lemma LockSubmittedOnce(c: Conf, n: Net, p: Pid)
    requires ValidConf(c) && Shaped(c, n) && p in c.env.ring
    requires PlanFits(c) && Reachable(c, n)
    ensures LockSubmissions(n.Submitted(p)) == if Funding in n.Party(p).history then 1 else 0
  {
    hide IsRing, PlanFits, Reachable, LockSubmissions, FundingCount, ClimbsPhases;
    ReachableSubmits(c, n);
    HistoryClimbs(c, n, p);
    FundsOnce(n.Party(p).history);
    assert n.Submitted(p) == n.Submitted(p);
  }

  // ---------- no claim before all locks ----------

  lemma ClaimHasSecrets(c: Conf, s: Session, sent: Sent, got: Handled)
    requires ValidConf(c) && PartyInv(c, s, sent, got) && s.me == c.plan.leader && Claiming in s.history
    ensures AllOthers(c, s.me, got.secrets)
  {
    hide IsRing, Fifo, Opened, Funded, PhaseInv, PointsInv, ElectionInv, RevealInv, OpeningInv, MusigInv, NoncesInv,
         PartialsInv, RefundsInv, SpendsInv, ClaimInv, AllOthers;
  }

  /** When the leader has entered `Claiming`, every other party has seen all N locks confirmed, and they
      are on chain. */
  lemma NoClaimBeforeLocks(c: Conf, n: Net, q: Pid)
    requires ValidConf(c) && Shaped(c, n) && q in c.env.ring && q != c.plan.leader
    requires Claiming in n.Party(c.plan.leader).history
    requires PlanFits(c) && Reachable(c, n)
    ensures c.env.ring.Keys <= n.Party(q).locksConfirmed <= n.onChain
  {
    hide IsRing, PartyInv, Reachable, Links, PointsFirst, SomeoneCommits, PlanFits, SentIn, Grounded, AllOthers;
    ReachableInv(c, n);
    var l := c.plan.leader;
    PartyOf(c, n, l);
    ClaimHasSecrets(c, n.Party(l), SentIn(n.Log(l)), n.Got(l));
    assert Has(n.Got(l), q, KSecret) by { OneOfAllOthers(c, l, n.Got(l).secrets, q); }
    HandledWasSent(c, n, l, q, KSecret);
    SecretMeansLocks(c, n, q, q);
    ChainAt(c, n, q);
  }

  lemma OneOfAllOthers(c: Conf, me: Pid, s: set<Pid>, q: Pid)
    requires AllOthers(c, me, s) && q in c.env.ring && q != me
    ensures q in s
  {
  }

  /** Only a non-leader reveals its secret, its own, and only after it has seen all N locks confirmed;
      with distinct kinds, at most once. */
  lemma SecretAfterLocks(c: Conf, n: Net, p: Pid, i: nat)
    requires ValidConf(c) && Shaped(c, n) && p in c.env.ring && i < |n.Log(p)| && n.Log(p)[i].SecretReveal?
    requires PlanFits(c) && Reachable(c, n)
    ensures p != ElectedLeader(c.env, AllLeaderNonces(c)) && n.Log(p)[i].secret == c.tape(p).secret
    ensures c.env.ring.Keys <= n.Party(p).locksConfirmed <= n.onChain
  {
    hide IsRing, PartyInv, Reachable, Links, PointsFirst, SomeoneCommits, InputsFit, LocksBuildable, ElectedLeader,
         AllLeaderNonces, Locks, SentIn, Grounded, MayEmit;
    ReachableInv(c, n);
    PartyOf(c, n, p);
    LogIsPlanned(c, p, n.Log(p), i);
    LogHas(n.Log(p), i);
    SecretMeansLocks(c, n, p, p);
    ChainAt(c, n, p);
  }

  // ---------- the plan exists ----------

  const NO_LOCK: LockTx := BitcoinLock(0, 0)

  ghost function UnsignedOf(env: Env, leader: Pid): (f: TxRole -> UnsignedTx)
    requires IsRing(env.ring) && leader in env.ring && LocksBuildable(env)
    ensures forall r: TxRole {:trigger f(r)} :: RoleInRing(env, r) ==> f(r) == UnsignedFor(env, leader, r)
  {
    (r: TxRole) => if RoleInRing(env, r) then UnsignedFor(env, leader, r) else SpendTx(NO_LOCK, 0)
  }

  ghost function MessageOf(env: Env, leader: Pid): (f: TxRole -> SigMessage)
    requires IsRing(env.ring) && leader in env.ring && LocksBuildable(env)
    ensures forall r: TxRole {:trigger f(r)} :: RoleInRing(env, r) ==> f(r) == MessageFor(env, leader, r)
  {
    (r: TxRole) => if RoleInRing(env, r) then MessageFor(env, leader, r) else LockId(NO_LOCK)
  }

  ghost function TweakOf(env: Env): (f: TxRole -> bool)
    requires IsRing(env.ring)
    ensures forall r: TxRole {:trigger f(r)} :: RoleInRing(env, r) ==> f(r) == TweakFor(env, r)
  {
    (r: TxRole) => RoleInRing(env, r) && TweakFor(env, r)
  }

  ghost function SecretNonceOf(env: Env, leader: Pid, tape: Pid -> Tape): (f: (Pid, TxRole) -> SecNonce)
    requires IsRing(env.ring) && leader in env.ring && LocksBuildable(env)
    ensures forall p: Pid, r: TxRole {:trigger f(p, r)} :: RoleInRing(env, r) ==>
              f(p, r) == NewNonce(env, leader, p, tape(p).draw, r)
  {
    (p: Pid, r: TxRole) =>
      if RoleInRing(env, r) then NewNonce(env, leader, p, tape(p).draw, r) else SecNonce(0, 0, LockId(NO_LOCK))
  }

  ghost function InputsOf(env: Env, points: map<Pid, Point>, msg: TxRole -> SigMessage, tweak: TxRole -> bool,
                          sec: (Pid, TxRole) -> SecNonce): TxRole -> SigningInputs {
    (r: TxRole) =>
      SigningInputs(msg(r), tweak(r), env.sumNonces(map p | p in env.ring :: PubNonce(sec(p, r))),
                    if r.Spend? then Some(env.sumPoints(points)) else None)
  }

  /** What all tapes together determine. */
  ghost function PlanOf(env: Env, tape: Pid -> Tape): Plan
    requires IsRing(env.ring) && LocksBuildable(env)
  {
    var leader := ElectedLeader(env, map p | p in env.ring :: tape(p).draw.leaderNonce);
    var points := map p | p in env.ring :: tape(p).point;
    var msg, tweak, sec := MessageOf(env, leader), TweakOf(env), SecretNonceOf(env, leader, tape);
    Plan(leader, Locks(env, leader), UnsignedOf(env, leader), msg, tweak, sec, InputsOf(env, points, msg, tweak, sec))
  }

  /** Every choice of nonces, secrets and seeds has its plan: the theorems hold for all of them. */
  lemma PlanOfFits(env: Env, tape: Pid -> Tape)
    requires IsRing(env.ring) && LocksBuildable(env)
    ensures PlanFits(Conf(env, tape, PlanOf(env, tape)))
  {
    hide IsRing, LocksBuildable, UnsignedFor, MessageFor, TweakFor, NewNonce, ElectedLeader, UnsignedOf, MessageOf,
         TweakOf, SecretNonceOf, LockFor;
    var c := Conf(env, tape, PlanOf(env, tape));
    assert AllLeaderNonces(c) == map p | p in env.ring :: tape(p).draw.leaderNonce;
    assert AllPoints(c) == map p | p in env.ring :: tape(p).point;
    assert ValidConf(c);
    LocksAreBuilt(env, c.plan.leader);
    forall p {:trigger LockFor(env, c.plan.leader, p)} | p in env.ring
      ensures LockFor(env, c.plan.leader, p) == Some(c.plan.locks[p])
    {
      assert Locks(env, c.plan.leader)[p] == LockFor(env, c.plan.leader, p).value;
    }
    forall role: TxRole {:trigger c.plan.inputs(role)} | RoleInRing(env, role)
      ensures c.plan.inputs(role) == SigningInputs(c.plan.msg(role), c.plan.tweak(role), env.sumNonces(AllNonces(c, role)),
                                                   if role.Spend? then Some(env.sumPoints(AllPoints(c))) else None)
    {
      assert AllNonces(c, role) == map p | p in env.ring :: PubNonce(c.plan.sec(p, role));
    }
    assert InputsFit(c);
  }
}
