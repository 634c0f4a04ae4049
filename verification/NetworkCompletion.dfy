/** The good case of the whole network: when no submission is refused, no refund window is found open and
    nothing is left to do, everybody has got what it came for. */
module NetworkCompletion {
  import opened Ring
  import opened Protocol
  import opened Contents
  import opened PartyInvariant
  import opened ClaimSteps
  import opened Network
  import opened NetworkInvariant
  import opened NetworkSteps
  import opened NetworkSafety
  import opened NetworkProgress
  import opened GoodCase
  import opened Effects

  /** No lock is refused, no refund window is found open, and the leader's spend is found only after the
      leader has claimed, with the sum of all N secrets in it. */
  ghost predicate Happy(c: Conf, n: Net, e: Event) {
    && (e.Delivery? ==> e.accepted) && (e.RefundPoll? ==> !e.open)
    && (e.LeaderSpendPoll? && e.found.Some? ==> SpendIsThere(c, n, e.found.value))
  }

  ghost predicate SpendIsThere(c: Conf, n: Net, secret: Secret) {
    && c.plan.leader in n.party && Claiming in n.Party(c.plan.leader).history
    && secret == c.env.sumSecrets(AllSecrets(c))
  }

  ghost predicate ClaimIn(c: Conf, p: Pid, s: Session, submitted: seq<Submission>) {
    Claiming in s.history ==> SubmitTx(Spend(p), TheSpend(c, p, c.env.sumSecrets(AllSecrets(c)))) in submitted
  }

  /** Whoever has claimed has submitted its claim. */
  ghost predicate ClaimsSubmitted(c: Conf, n: Net) {
    && Shaped(c, n)
    && forall p {:trigger ClaimIn(c, p, n.Party(p), n.Submitted(p))} :: p in c.env.ring ==> ClaimIn(c, p, n.Party(p), n.Submitted(p))
  }

  ghost predicate AllOnTrack(c: Conf, n: Net) {
    && Shaped(c, n)
    && forall p {:trigger OnTrack(c, n.Party(p), SentIn(n.Log(p)), n.Got(p))} :: p in c.env.ring ==>
      OnTrack(c, n.Party(p), SentIn(n.Log(p)), n.Got(p))
  }

  // ---------- one event ----------

  lemma EventKeepsTrack(c: Conf, n: Net, e: Event, got': Handled, o: Outcome)
    requires ValidConf(c) && Shaped(c, n) && Enabled(c, n, e) && Happy(c, n, e)
    requires got' == GotAfter(c, n, e) && o == OutcomeOf(c, n, e)
    requires OnTrack(c, n.Party(e.p), SentIn(n.Log(e.p)), n.Got(e.p))
    requires NetInv(c, n) && PlanFits(c)
    ensures o.Ok? && OnTrack(c, o.session, After(SentIn(n.Log(e.p)), o.out), got')
    ensures ClaimIsSubmitted(n.Party(e.p), o)
  {
    hide ClaimIsSubmitted, OnRefundPoll, IsRing, PartyInv, Fifo, SentIn, Has, PlanFits, InputsFit, GoodStep, HandleMessage, OnLockPoll,
         OnLeaderSpendPoll, Protocol.Start, PointsFirst, SomeoneCommits, ChainInv, Links, Grounded, Parties, MayEmit,
         OnTrack, After;
    var p := e.p;
    var s, sent, got := n.Party(p), SentIn(n.Log(p)), n.Got(p);
    PartyAt(c, n, p);
    EventIsGood(c, n, e, got', o);
    GoodIsOk(c, n, p, got', o);
    match e {
      case Starts(_) =>
        StartKeeps(c, s, sent, got, o);
        StartNoClaim(s);
      case Delivery(_, from, msg, _) =>
        assert InputsFit(c) by { PlanHasInputs(c); }
        NextIsPlanned(c, n, e);
        NextIsTimely(c, n, p, from, KindOf(msg));
        if KindOf(msg).KSecret? {
          SecretMeansLocks(c, n, from, p);
        }
        MessageKeeps(c, s, sent, got, from, KindOf(msg), o);
        MessageSubmitted(c.env, s, msg, from, c.tape(p).draw, true);
      case LockPoll(_, owner, onChain) =>
        BroadcastWasSent(c, n, p, owner);
        LockMeansOpened(c, n, owner, p);
        LockPollKeeps(c, s, sent, got, owner, onChain, o);
        LockPollNoClaim(c.env, s, owner, onChain);
      case LeaderSpendPoll(_, found) =>
        LeaderKnown(c, s, sent, got);
        LeaderSpendPollKeeps(c, s, sent, got, found, o);
        SpendPollSubmitted(s, c.plan.leader, found);
      case RefundPoll(_, open, accepted) =>
        assert o == Ok(s, [], []) by { ClosedWindow(s, accepted); }
        RefundPollNoClaim(s, open, accepted);
        NothingAfter(sent);
    }
  }

  lemma ClosedWindow(s: Session, accepted: bool)
    ensures OnRefundPoll(s, false, accepted) == Ok(s, [], [])
  {
  }

  lemma ClaimGoesIn(c: Conf, p: Pid, s: Session, submitted: seq<Submission>, o: Outcome)
    requires s.me == p && o.Ok? && ClaimIn(c, p, s, submitted)
    requires ClaimIsSubmitted(s, o) && ClaimsWithAll(c, p, o.session.history, o.session.signedTxs)
    ensures ClaimIn(c, p, o.session, submitted + o.submitted)
  {
    hide TheSpend, AllSecrets;
  }

  lemma ClaimsKept(c: Conf, n: Net, e: Event, got': Handled, o: Outcome, n': Net)
    requires ValidConf(c) && Happens(c, n, e, got', o, n') && n.Party(e.p).me == e.p
    requires ClaimIsSubmitted(n.Party(e.p), o) && ClaimsWithAll(c, e.p, o.session.history, o.session.signedTxs)
    requires ClaimsSubmitted(c, n)
    ensures ClaimsSubmitted(c, n')
  {
    hide IsRing, Enabled, With, ClaimIsSubmitted, ClaimsWithAll, ClaimIn;
    ClaimGoesIn(c, e.p, n.Party(e.p), n.Submitted(e.p), o);
    forall p {:trigger ClaimIn(c, p, n'.Party(p), n'.Submitted(p))} | p in c.env.ring
      ensures ClaimIn(c, p, n'.Party(p), n'.Submitted(p))
    {
      assert ClaimIn(c, p, n.Party(p), n.Submitted(p));
    }
  }

  lemma TrackKept(c: Conf, n: Net, e: Event, got': Handled, o: Outcome, n': Net)
    requires ValidConf(c) && Happens(c, n, e, got', o, n')
    requires OnTrack(c, o.session, After(SentIn(n.Log(e.p)), o.out), got')
    requires SentIn(n'.Log(e.p)) == After(SentIn(n.Log(e.p)), o.out)
    requires AllOnTrack(c, n)
    ensures AllOnTrack(c, n')
  {
    hide IsRing, OnTrack, SentIn, After, Enabled, With;
    forall q {:trigger OnTrack(c, n'.Party(q), SentIn(n'.Log(q)), n'.Got(q))} | q in c.env.ring
      ensures OnTrack(c, n'.Party(q), SentIn(n'.Log(q)), n'.Got(q))
    {
      if q != e.p {
        assert OnTrack(c, n.Party(q), SentIn(n.Log(q)), n.Got(q));
      }
    }
  }

  lemma StepKeepsTrack(c: Conf, n: Net, e: Event, n': Net)
    requires ValidConf(c) && Shaped(c, n) && Enabled(c, n, e) && Happy(c, n, e) && n' == Step(c, n, e) && Shaped(c, n')
    requires NetInv(c, n) && PlanFits(c) && AllOnTrack(c, n) && ClaimsSubmitted(c, n)
    ensures AllOnTrack(c, n') && ClaimsSubmitted(c, n')
  {
    hide IsRing, PartyInv, SentIn, With, After, Grounded, PlanFits, InputsFit, Fifo, Links, PointsFirst,
         SomeoneCommits, ChainInv, Handle, AllOthers, Read, Put, PartyGood, Parties, GoodStep, EventGood, Happens,
         OnTrack, AllOnTrack;
    var got', o := GotAfter(c, n, e), OutcomeOf(c, n, e);
    TrackAt(c, n, e.p);
    EventKeepsTrack(c, n, e, got', o);
    StepGrows(c, n, e, got', o, n');
    LogAfter(c, n, e, got', o, n');
    TrackKept(c, n, e, got', o, n');
    NetworkSteps.PartyIsMe(c, n, e.p);
    ClaimsOf(c, o.session, After(SentIn(n.Log(e.p)), o.out), got');
    EventIsGood(c, n, e, got', o);
    GoodIsMe(c, n, e.p, got', o);
    ClaimsKept(c, n, e, got', o, n');
  }

  lemma GoodIsMe(c: Conf, n: Net, p: Pid, got: Handled, o: Outcome)
    requires ValidConf(c) && Shaped(c, n) && p in c.env.ring && EventGood(c, n, p, got, o)
    ensures o.Ok? && o.session.me == p
  {
    hide IsRing, PartyInv, MayEmit, SentIn;
  }

  lemma ClaimsOf(c: Conf, s: Session, sent: Sent, got: Handled)
    requires OnTrack(c, s, sent, got)
    ensures ClaimsWithAll(c, s.me, s.history, s.signedTxs)
  {
  }

  lemma TrackAt(c: Conf, n: Net, p: Pid)
    requires Shaped(c, n) && p in c.env.ring && AllOnTrack(c, n)
    ensures OnTrack(c, n.Party(p), SentIn(n.Log(p)), n.Got(p))
  {
    hide OnTrack, SentIn;
    assert n.Party(p) == n.Party(p);
  }

  lemma InitialOnTrack(c: Conf)
    requires ValidConf(c)
    ensures AllOnTrack(c, Initial(c)) && ClaimsSubmitted(c, Initial(c))
  {
    hide IsRing, OnTrack, PartyInv, Funded, UnfundedSecrets;
    var n := Initial(c);
    forall p {:trigger n.Party(p)} | p in c.env.ring
      ensures OnTrack(c, n.Party(p), SentIn(n.Log(p)), n.Got(p))
    {
      NewPartyOnTrack(c, p);
    }
  }

  lemma NewPartyOnTrack(c: Conf, p: Pid)
    requires ValidConf(c) && p in c.env.ring
    ensures OnTrack(c, NewSession(p, c.tape(p).secret, c.tape(p).point), SentIn([]), NOTHING_HANDLED)
  {
    hide IsRing, OnTrack, PartyInv;
    NewPartyInv(c, p);
    NothingFunded(c, p);
    UnfundedOnTrack(c, NewSession(p, c.tape(p).secret, c.tape(p).point), SentIn([]), NOTHING_HANDLED);
  }

  lemma NothingFunded(c: Conf, p: Pid)
    requires ValidConf(c) && p in c.env.ring
    ensures !Funded(c, p, NOTHING_HANDLED.partials)
  {
    hide IsRing;
    var q := OtherParticipant(c, p);
    assert (q, Spend(p)) !in NOTHING_HANDLED.partials;
    assert !Finalized(c, p, NOTHING_HANDLED.partials, Spend(p));
    assert RoleInRing(c.env, Spend(p));
  }

  ghost predicate HappyRun(c: Conf, ns: seq<Net>, es: seq<Event>) {
    && ValidConf(c)
    && (IsRun(c, ns, es) && forall i {:trigger es[i]} :: 0 <= i < |es| ==> Happy(c, ns[i], es[i]))
  }

  lemma {:induction false} RunOnTrack(c: Conf, ns: seq<Net>, es: seq<Event>, i: nat)
    requires ValidConf(c) && PlanFits(c) && HappyRun(c, ns, es) && i < |ns|
    ensures NetInv(c, ns[i]) && AllOnTrack(c, ns[i]) && ClaimsSubmitted(c, ns[i])
  {
    hide IsRing, PlanFits, Step, Enabled, Initial, Shaped, AllOnTrack, ClaimsSubmitted, Happy, Parties, Links, PointsFirst, SomeoneCommits,
         ChainInv;
    RunInv(c, ns, es, i);
    if i == 0 {
      InitialOnTrack(c);
    } else {
      RunOnTrack(c, ns, es, i - 1);
      assert Follows(c, ns[i - 1], es[i - 1], ns[i]);
      StepKeepsTrack(c, ns[i - 1], es[i - 1], ns[i]);
    }
  }

  // ---------- at rest ----------

  /** Every announced lock on chain has been found there. */
  ghost predicate LocksPolled(c: Conf, n: Net) {
    && Shaped(c, n)
    && forall p, owner {:trigger Enabled(c, n, LockPoll(p, owner, true))} ::
      Enabled(c, n, LockPoll(p, owner, true)) ==> owner in n.Party(p).locksConfirmed
  }

  /** Once the leader has claimed, whoever waited for its spend has found it. */
  ghost predicate SpendPolled(c: Conf, n: Net) {
    && c.plan.leader in n.party
    && (Claiming in n.Party(c.plan.leader).history ==>
      forall p {:trigger n.Party(p)} :: p in n.party ==> n.Party(p).state != AwaitingLeaderSpend)
  }

  /** Nothing is left to start, deliver or find on chain. */
  ghost predicate AtRest(c: Conf, n: Net) {
    ValidConf(c) && Shaped(c, n) && Quiescent(c, n) && LocksPolled(c, n) && SpendPolled(c, n)
  }

  lemma AllLocksSent(c: Conf, n: Net)
    requires ValidConf(c) && Shaped(c, n)
    requires Quiescent(c, n) && PlanFits(c) && Reachable(c, n) && NetInv(c, n) && AllOnTrack(c, n)
    ensures AllSent(c, n, KLock)
  {
    hide IsRing, PartyInv, Quiescent, SentIn, PointsFirst, SomeoneCommits, ChainInv, Links, Parties, Funded, PlanFits,
         Reachable, Grounded, MayEmit, AllOnTrack;
    forall p {:trigger n.Log(p)} | p in c.env.ring
      ensures In(SentIn(n.Log(p)), KLock)
    {
      NobodyStalls(c, n, p);
      PartyOf(c, n, p);
      PartyPhases(c, n.Party(p), SentIn(n.Log(p)), n.Got(p));
      TrackAt(c, n, p);
    }
  }

  /** Everybody has seen all locks confirmed. */
  lemma AllConfirmAll(c: Conf, n: Net, p: Pid)
    requires ValidConf(c) && Shaped(c, n) && p in c.env.ring && AllSent(c, n, KLock)
    requires AtRest(c, n) && NetInv(c, n) && AllOnTrack(c, n)
    ensures c.env.ring.Keys <= n.Party(p).locksConfirmed
  {
    hide IsRing, PartyInv, Quiescent, SentIn, PointsFirst, SomeoneCommits, ChainInv, Links, Parties, Grounded,
         MayEmit, AllOnTrack, Funded, AllOthers, LeaderOnTrack, FollowerOnTrack, KnowsSecrets, ClaimsWithAll;
    TrackAt(c, n, p);
    PartyOf(c, n, p);
    AllOthersRead(c, n, p, KLock);
    forall q | q in c.env.ring
      ensures q in n.Party(p).locksConfirmed
    {
      ChainAt(c, n, q);
      assert In(SentIn(n.Log(q)), KLock) && In(SentIn(n.Log(p)), KLock);
      if q != p {
        assert Has(n.Got(p), q, KLock);
      }
      assert Enabled(c, n, LockPoll(p, q, true));
    }
  }

  lemma ConfirmedReveals(c: Conf, s: Session, sent: Sent, got: Handled)
    requires ValidConf(c) && PartyInv(c, s, sent, got) && s.me != c.plan.leader && c.env.ring.Keys <= s.locksConfirmed
    ensures sent.secret
  {
    hide PointsInv, ElectionInv, RevealInv, OpeningInv, MusigInv, NoncesInv, PartialsInv, RefundsInv, SpendsInv,
         PhaseInv, LeaderInv, Opened, Signs, Funded, IsRing, Fifo;
  }

  lemma FollowersReveal(c: Conf, n: Net, p: Pid)
    requires ValidConf(c) && Shaped(c, n) && p in c.env.ring && p != c.plan.leader && AllSent(c, n, KLock)
    requires AtRest(c, n) && NetInv(c, n) && AllOnTrack(c, n)
    ensures SentIn(n.Log(p)).secret
  {
    hide IsRing, PartyInv, Quiescent, SentIn, PointsFirst, SomeoneCommits, ChainInv, Links, Parties, Grounded,
         MayEmit, AllOnTrack, AtRest, AllSent;
    AllConfirmAll(c, n, p);
    PartyOf(c, n, p);
    ConfirmedReveals(c, n.Party(p), SentIn(n.Log(p)), n.Got(p));
  }

  lemma LeaderHasClaimed(c: Conf, n: Net)
    requires ValidConf(c) && Shaped(c, n) && AllSent(c, n, KLock)
    requires AtRest(c, n) && NetInv(c, n) && AllOnTrack(c, n)
    ensures Claiming in n.Party(c.plan.leader).history
  {
    hide IsRing, PartyInv, Quiescent, SentIn, PointsFirst, SomeoneCommits, ChainInv, Links, Parties, Grounded,
         MayEmit, AllOnTrack, AllSent, Funded, Enabled;
    var leader := c.plan.leader;
    forall q {:trigger q in n.Got(leader).secrets} | q in c.env.ring && q != leader
      ensures q in n.Got(leader).secrets
    {
      FollowersReveal(c, n, q);
      assert In(SentIn(n.Log(q)), KSecret);
      AllRead(c, n, leader, q, KSecret);
    }
    TrackAt(c, n, leader);
    PartyOf(c, n, leader);
  }

  /** The planned spend, adapted with the sum of all N secrets: signed and submitted, and the session of
      anybody but the leader completed. It pays the party all that its target has locked. */
  ghost predicate GotItsClaim(c: Conf, n: Net, p: Pid) {
    && ValidConf(c) && Shaped(c, n) && p in c.env.ring
    && var spend := TheSpend(c, p, c.env.sumSecrets(AllSecrets(c)));
    && Claiming in n.Party(p).history && (p != c.plan.leader ==> n.Party(p).state.Completed?)
    && Spend(p) in n.Party(p).signedTxs && n.Party(p).signedTxs[Spend(p)] == spend
    && SubmitTx(Spend(p), spend) in n.Submitted(p) && PaysOut(c.env, p, spend.tx)
  }

  /** The swap completes: at the end of every run in which no lock is refused and no refund window found
      open, everybody has submitted its claim with the sum of all N secrets, which pays it its target's lock. */
  lemma SwapCompletes(c: Conf, ns: seq<Net>, es: seq<Event>, n: Net, p: Pid)
    requires ValidConf(c) && Shaped(c, n) && p in c.env.ring && |ns| == |es| + 1 && n == ns[|es|] && AtRest(c, n)
    requires PlanFits(c) && HappyRun(c, ns, es)
    ensures GotItsClaim(c, n, p)
  {
    hide IsRing, PartyInv, Quiescent, SentIn, PointsFirst, SomeoneCommits, ChainInv, Links, Parties, Grounded,
         MayEmit, AllOnTrack, AllSent, Funded, Enabled, PlanFits, IsRun, LocksPolled, PaysOut, SpendRight, LockRight;
    PlanIsRight(c, Spend(p));
    SpendSays(c.env, c.plan.leader, p, c.plan.unsigned(Spend(p)));
    RunOnTrack(c, ns, es, |es|);
    assert Reachable(c, n);
    AllLocksSent(c, n);
    LeaderHasClaimed(c, n);
    TrackAt(c, n, p);
    PartyOf(c, n, p);
    assert ClaimIn(c, p, n.Party(p), n.Submitted(p));
    if p != c.plan.leader {
      FollowersReveal(c, n, p);
      assert n.Party(p).state != AwaitingLeaderSpend;
    }
  }

  // ---------- rest can always be reached ----------

  /** The locks that some party has not seen confirmed yet. */
  ghost function Unconfirmed(c: Conf, n: Net): set<(Pid, Pid)> {
    set p, q | p in c.env.ring && p in n.party && q in c.env.ring && q !in n.Party(p).locksConfirmed :: (p, q)
  }

  ghost function Waiting(c: Conf, n: Net): set<Pid> {
    set p | p in c.env.ring && p in n.party && n.Party(p).state == AwaitingLeaderSpend
  }

  lemma ExtendRun(c: Conf, ns: seq<Net>, es: seq<Event>, e: Event, n': Net)
    requires ValidConf(c) && HappyRun(c, ns, es) && Happy(c, ns[|es|], e) && Follows(c, ns[|es|], e, n')
    ensures HappyRun(c, ns + [n'], es + [e])
  {
    hide IsRing, Follows, Initial;
    var ns', es' := ns + [n'], es + [e];
    forall i {:trigger es'[i]} | 0 <= i < |es'|
      ensures Follows(c, ns'[i], es'[i], ns'[i + 1]) && Happy(c, ns'[i], es'[i])
    {
      if i < |es| {
        assert es'[i] == es[i];
      }
    }
  }

  /** What is left to do, whichever it is, can be done next without refusing or refunding anything. */
  lemma SomethingToDo(c: Conf, n: Net) returns (e: Event)
    requires ValidConf(c) && Shaped(c, n) && !AtRest(c, n)
    ensures Enabled(c, n, e) && Happy(c, n, e)
    ensures match e
            case Starts(_) => true
            case Delivery(_, _, _, _) => true
            case LockPoll(p, owner, onChain) => onChain && owner !in n.Party(p).locksConfirmed
            case LeaderSpendPoll(p, found) => found.Some? && n.Party(p).state == AwaitingLeaderSpend
            case RefundPoll(_, _, _) => false
  {
    hide IsRing, SentIn;
    if !Quiescent(c, n) {
      e :| (e.Starts? || e.Delivery?) && Enabled(c, n, e);
      if e.Delivery? {
        e := Delivery(e.p, e.from, e.msg, true);
      }
    } else if !LocksPolled(c, n) {
      var p, owner :| Enabled(c, n, LockPoll(p, owner, true)) && owner !in n.Party(p).locksConfirmed;
      e := LockPoll(p, owner, true);
    } else {
      var p :| p in n.party && n.Party(p).state == AwaitingLeaderSpend;
      e := LeaderSpendPoll(p, Some(c.env.sumSecrets(AllSecrets(c))));
    }
  }

  lemma ConfirmingShrinks(c: Conf, n: Net, n': Net, p: Pid, owner: Pid)
    requires Shaped(c, n) && Shaped(c, n') && p in c.env.ring && owner in c.env.ring
    requires n'.party == n.party[p := n'.Party(p)] && owner !in n.Party(p).locksConfirmed
    requires n'.Party(p).locksConfirmed == n.Party(p).locksConfirmed + {owner}
    ensures Unconfirmed(c, n') < Unconfirmed(c, n)
  {
    assert (p, owner) in Unconfirmed(c, n) && (p, owner) !in Unconfirmed(c, n');
  }

  lemma FindingShrinks(c: Conf, n: Net, n': Net, p: Pid)
    requires Shaped(c, n) && Shaped(c, n') && p in c.env.ring
    requires forall q {:trigger n'.Party(q)} :: q in c.env.ring && q != p ==> n'.Party(q) == n.Party(q)
    requires n.Party(p).state == AwaitingLeaderSpend && n'.Party(p).state != AwaitingLeaderSpend
    ensures Waiting(c, n') < Waiting(c, n)
  {
    assert p in Waiting(c, n) && p !in Waiting(c, n');
    forall q | q in Waiting(c, n')
      ensures q in Waiting(c, n)
    {
      assert n'.Party(q) == n.Party(q);
    }
  }

  lemma SameUnconfirmed(c: Conf, n: Net, n': Net)
    requires Shaped(c, n) && Shaped(c, n')
    requires forall q {:trigger n'.Party(q)} :: q in c.env.ring ==> n'.Party(q).locksConfirmed == n.Party(q).locksConfirmed
    ensures Unconfirmed(c, n') == Unconfirmed(c, n)
  {
  }

  lemma LockPollProgress(c: Conf, n: Net, e: Event, n': Net)
    requires ValidConf(c) && Shaped(c, n) && Shaped(c, n') && Enabled(c, n, e) && n' == Step(c, n, e)
    requires e.LockPoll? && e.onChain && e.owner !in n.Party(e.p).locksConfirmed
    requires PlanFits(c) && NetInv(c, n)
    ensures |Unconfirmed(c, n')| < |Unconfirmed(c, n)|
  {
    hide IsRing, PartyInv, SentIn, MayEmit, PointsFirst, SomeoneCommits, ChainInv, Links, Parties, Grounded, PlanFits,
         OnLockPoll, Grows, Unconfirmed;
    var got', o := GotAfter(c, n, e), OutcomeOf(c, n, e);
    StepGrows(c, n, e, got', o, n');
    BroadcastWasSent(c, n, e.p, e.owner);
    LockPollEffect(c.env, n.Party(e.p), e.owner, true);
    ConfirmingShrinks(c, n, n', e.p, e.owner);
    ProperSubsetIsSmaller(Unconfirmed(c, n'), Unconfirmed(c, n));
  }

  lemma SpendPollProgress(c: Conf, n: Net, e: Event, n': Net)
    requires ValidConf(c) && Shaped(c, n) && Shaped(c, n') && Enabled(c, n, e) && n' == Step(c, n, e)
    requires e.LeaderSpendPoll? && e.found.Some? && n.Party(e.p).state == AwaitingLeaderSpend
    requires PlanFits(c) && NetInv(c, n)
    ensures |Unconfirmed(c, n')| == |Unconfirmed(c, n)| && |Waiting(c, n')| < |Waiting(c, n)|
  {
    hide IsRing, PartyInv, SentIn, MayEmit, PointsFirst, SomeoneCommits, ChainInv, Links, Parties, Grounded, PlanFits,
         OnLeaderSpendPoll, Grows, Unconfirmed, Waiting, Happens;
    var got', o := GotAfter(c, n, e), OutcomeOf(c, n, e);
    StepGrows(c, n, e, got', o, n');
    PartyOf(c, n, e.p);
    LeaderKnown(c, n.Party(e.p), SentIn(n.Log(e.p)), n.Got(e.p));
    FoundEnds(n.Party(e.p), c.plan.leader, e.found, o);
    FoundHappens(c, n, e, got', o, n');
  }

  lemma FoundHappens(c: Conf, n: Net, e: Event, got': Handled, o: Outcome, n': Net)
    requires Happens(c, n, e, got', o, n') && n.Party(e.p).state == AwaitingLeaderSpend
    requires o.session.state == Completed && o.session.locksConfirmed == n.Party(e.p).locksConfirmed
    ensures |Unconfirmed(c, n')| == |Unconfirmed(c, n)| && |Waiting(c, n')| < |Waiting(c, n)|
  {
    hide Enabled, SentIn, With, Unconfirmed, Waiting;
    FindingShrinks(c, n, n', e.p);
    SameUnconfirmed(c, n, n');
    ProperSubsetIsSmaller(Waiting(c, n'), Waiting(c, n));
  }

  lemma FoundEnds(s: Session, leader: Pid, found: Option<Secret>, o: Outcome)
    requires s.state == AwaitingLeaderSpend && found.Some? && o == OnLeaderSpendPoll(s, leader, found) && o.Ok?
    ensures o.session.state == Completed && o.session.locksConfirmed == s.locksConfirmed
  {
    hide ClaimWith;
    var s1 := s.(secrets := s.secrets[leader := found.value]);
    assert o == ClaimWith(s1, found.value, []);
    ClaimEffect(s1, found.value, []);
    ClaimCompletes(s1, found.value);
  }

  lemma ClaimCompletes(s: Session, secret: Secret)
    ensures ClaimWith(s, secret, []).Ok? ==> ClaimWith(s, secret, []).session.state == Completed
  {
    hide AdaptMySpend;
  }

  /** Every undisturbed run, wherever it stands, can go on undisturbed until nothing is left to do; so by
      `SwapCompletes` it can always be completed. */
  lemma {:induction false} RestIsReachable(c: Conf, ns: seq<Net>, es: seq<Event>, n: Net)
    returns (ns': seq<Net>, es': seq<Event>)
    requires ValidConf(c) && PlanFits(c) && |ns| == |es| + 1 && n == ns[|es|] && Shaped(c, n)
    requires HappyRun(c, ns, es)
    ensures HappyRun(c, ns', es') && es <= es' && AtRest(c, ns'[|es'|])
    decreases Work(c, n), |Unconfirmed(c, n)|, |Waiting(c, n)|
  {
    hide IsRing, PlanFits, Step, Enabled, Shaped, Work, Initial, Parties, Links, PointsFirst, SomeoneCommits, ChainInv,
         Unconfirmed, Waiting, HappyRun, AtRest;
    if AtRest(c, n) {
      ns', es' := ns, es;
    } else {
      var e := SomethingToDo(c, n);
      var n' := Step(c, n, e);
      RunInvHappy(c, ns, es);
      ExtendRun(c, ns, es, e, n');
      RunInvHappy(c, ns + [n'], es + [e]);
      StepUsesWork(c, n, e, n');
      if e.LockPoll? {
        LockPollProgress(c, n, e, n');
      } else if e.LeaderSpendPoll? {
        SpendPollProgress(c, n, e, n');
      }
      ns', es' := RestIsReachable(c, ns + [n'], es + [e], n');
    }
  }

  lemma RunInvHappy(c: Conf, ns: seq<Net>, es: seq<Event>)
    requires ValidConf(c) && PlanFits(c) && HappyRun(c, ns, es)
    ensures |ns| == |es| + 1 && NetInv(c, ns[|es|])
  {
    hide IsRing, PlanFits, Follows, Initial, NetInv;
    RunInv(c, ns, es, |es|);
  }
}
