/** The end of an honest swap on the ledger: with no lock refused and no refund window open by then, once nothing
    is left to do every lock is claimed. */
module HonestCompletion {
  import opened Ring
  import opened Timelocks
  import opened Protocol
  import opened Contents
  import opened PartyInvariant
  import opened PartySteps
  import opened ClaimSteps
  import opened GoodCase
  import opened NetworkInvariant
  import opened NetworkSteps
  import opened HonestRuns
  import N = Network
  import NetworkSafety
  import NetworkProgress
  import NetworkCompletion
  import C = Chain
  import ChainSessions
  import ChainTheorems
  import Losses

  /** The logarithm of the sum of all points is the sum of all secrets. */
  ghost predicate SumFits(c: Conf, x: C.Setting) {
    Fits(c, x) && x.secret == c.env.sumSecrets(AllSecrets(c))
  }

  function TheClaim(c: Conf, p: Pid): Submission
  {
    SubmitTx(Spend(p), TheSpend(c, p, c.env.sumSecrets(AllSecrets(c))))
  }

  /** The target's lock is claimed exactly when the spend has been submitted. */
  ghost predicate Meets(c: Conf, x: C.Setting, ledger: C.Ledger, submitted: map<Pid, seq<Submission>>, p: Pid)
  {
    && p in x.env.ring && p in submitted && C.Target(x, p) in ledger
    && (C.At(ledger, C.Target(x, p)).Claimed? <==> TheClaim(c, p) in submitted[p])
  }

  /** Locks are spent by their claimants, and by nobody else. */
  ghost predicate OnlyClaimed(ledger: C.Ledger) {
    forall q {:trigger C.At(ledger, q)} :: q in ledger ==> !C.At(ledger, q).Returned? && !C.At(ledger, q).Taken?
  }

  /** The leader has submitted its spend only with everybody's secret. */
  ghost predicate LedWithAll(c: Conf, submitted: map<Pid, seq<Submission>>, got: map<Pid, Handled>)
  {
    var l := c.plan.leader;
    l in submitted && l in got && (TheClaim(c, l) in submitted[l] ==> AllOthers(c, l, got[l].secrets))
  }

  ghost predicate ClaimsMeet(c: Conf, x: C.Setting, y: Sys) {
    && ChainSessions.Covers(x, y.ledger)
    && (forall p {:trigger Meets(c, x, y.ledger, y.net.submitted, p)} :: p in c.env.ring ==> Meets(c, x, y.ledger, y.net.submitted, p))
    && OnlyClaimed(y.ledger) && LedWithAll(c, y.net.submitted, y.net.got)
  }

  /** The network has come here undisturbed. */
  ghost predicate Undisturbed(c: Conf, n: N.Net) {
    && ValidConf(c)
    && exists ns, es :: |ns| == |es| + 1 && NetworkCompletion.HappyRun(c, ns, es) && ns[|es|] == n
  }

  ghost predicate GoesWell(c: Conf, x: C.Setting, y: Sys) {
    StateInv(c, x, y) && Undisturbed(c, y.net) && ClaimsMeet(c, x, y)
  }

  lemma UndisturbedSays(c: Conf, n: N.Net)
    requires ValidConf(c) && PlanFits(c) && Undisturbed(c, n)
    ensures N.Shaped(c, n) && NetInv(c, n) && NetworkCompletion.AllOnTrack(c, n) && NetworkCompletion.ClaimsSubmitted(c, n)
  {
    hide IsRing, PlanFits, NetInv, N.Initial, NetworkSafety.Follows, NetworkCompletion.AllOnTrack,
         NetworkCompletion.ClaimsSubmitted,
         NetworkCompletion.Happy;
    var ns, es :| |ns| == |es| + 1 && NetworkCompletion.HappyRun(c, ns, es) && ns[|es|] == n;
    NetworkCompletion.RunOnTrack(c, ns, es, |es|);
    ShapeOf(c, n);
  }

  lemma ShapeOf(c: Conf, n: N.Net)
    requires NetInv(c, n)
    ensures N.Shaped(c, n)
  {
    hide IsRing, N.Shaped, Links, PointsFirst, SomeoneCommits, Parties, ChainInv;
  }

  lemma GoesOnUndisturbed(c: Conf, n: N.Net, e: N.Event, n': N.Net)
    requires ValidConf(c) && N.Shaped(c, n) && N.Enabled(c, n, e) && n' == N.Step(c, n, e)
    requires Undisturbed(c, n) && NetworkCompletion.Happy(c, n, e)
    ensures Undisturbed(c, n')
  {
    hide IsRing, N.Enabled, N.Step, N.Shaped, NetworkCompletion.Happy;
    var ns, es :| |ns| == |es| + 1 && NetworkCompletion.HappyRun(c, ns, es) && ns[|es|] == n;
    assert NetworkSafety.Follows(c, n, e, n');
    NetworkCompletion.ExtendRun(c, ns, es, e, n');
    assert (ns + [n'])[|es + [e]|] == n';
  }

  // ---------- what a handler submits ----------

  /** A spend is submitted when a session claims, and completes it; nothing but the lock is submitted otherwise. */
  ghost predicate ClaimShape(s: Session, o: Outcome) {
    o.Ok? ==>
      || o.submitted == []
      || (|o.submitted| == 1 && o.submitted[0].SubmitLock?)
      || (&& Claiming in o.session.history && o.session.state.Completed? && Spend(s.me) in o.session.signedTxs
          && o.session.me == s.me && o.submitted == [SubmitTx(Spend(s.me), o.session.signedTxs[Spend(s.me)])])
  }

  lemma ClaimShaped(s: Session, secret: Secret, out: seq<WireMessage>)
    ensures ClaimShape(s, ClaimWith(s, secret, out))
  {
    hide AdaptMySpend;
    Effects.AdaptFrame(s, secret);
    var a, o := AdaptMySpend(s, secret), ClaimWith(s, secret, out);
    if a.Ok? {
      assert o == Ok(a.session.TransitionTo(Claiming).TransitionTo(Completed), out, SpendSubmission(a.session));
      assert Claiming in a.session.history + [Claiming] + [Completed];
    }
  }

  lemma SecretShaped(env: Env, s: Session, secret: Secret, from: Pid)
    ensures ClaimShape(s, OnSecretReveal(env, s, secret, from))
  {
    hide HasAll, ClaimWith;
    var s1 := s.(secrets := s.secrets[from := secret]);
    ClaimShaped(s1, env.sumSecrets(s1.secrets), [SpendTxBroadcast]);
    var o := OnSecretReveal(env, s, secret, from);
    if !HasAll(env.ring, s1.secrets) {
      assert o == Ok(s1, [], []);
    } else if s1.leader.Some? && s.me != s1.leader.value {
      assert o == Ok(s1.TransitionTo(AwaitingLeaderSpend), [], []);
    }
  }

  lemma SpendPollShaped(s: Session, leader: Pid, found: Option<Secret>)
    ensures ClaimShape(s, OnLeaderSpendPoll(s, leader, found))
  {
    hide ClaimWith;
    if s.state == AwaitingLeaderSpend && found.Some? {
      ClaimShaped(s.(secrets := s.secrets[leader := found.value]), found.value, []);
    }
  }

  lemma EventShaped(c: Conf, n: N.Net, e: N.Event, o: Outcome)
    requires ValidConf(c) && N.Shaped(c, n) && N.Enabled(c, n, e) && o == OutcomeOf(c, n, e) && NetworkCompletion.Happy(c, n, e)
    ensures ClaimShape(n.Party(e.p), o)
  {
    hide IsRing, HandleMessage, OnLockPoll, OnLeaderSpendPoll, Protocol.Start, C.Reveals, ClaimShape,
         NetworkCompletion.SpendIsThere;
    var s := n.Party(e.p);
    match e {
      case Starts(_) => StartFunds(s); FundsIsShaped(s, o);
      case Delivery(p, from, msg, accepted) =>
        if msg.SecretReveal? {
          ChainSessions.SecretHandled(c.env, s, msg.secret, from, c.tape(p).draw, accepted);
          SecretShaped(c.env, s, msg.secret, from);
          NothingIsShaped(s, Ok(s, [], []));
        } else {
          ChainSessions.MessageFunds(c.env, s, msg, from, c.tape(p).draw, accepted);
          FundsIsShaped(s, o);
        }
      case LockPoll(_, owner, onChain) => LockPollFunds(c.env, s, owner, onChain); NothingIsShaped(s, o);
      case LeaderSpendPoll(_, found) =>
        if s.leader.Some? {
          SpendPollShaped(s, s.leader.value, found);
        } else {
          NothingIsShaped(s, o);
        }
      case RefundPoll(_, _, accepted) => NetworkCompletion.ClosedWindow(s, accepted); NothingIsShaped(s, o);
    }
  }

  lemma FundsIsShaped(s: Session, o: Outcome)
    requires ChainSessions.FundsAtMost(o)
    ensures ClaimShape(s, o)
  {
    hide C.Reveals;
  }

  lemma NothingIsShaped(s: Session, o: Outcome)
    requires o.Ok? ==> o.submitted == []
    ensures ClaimShape(s, o)
  {
  }

  // ---------- one event ----------

  /** A party that claims knows that its target's lock has been seen on chain. */
  lemma TargetSeen(c: Conf, x: C.Setting, y: Sys, p: Pid)
    requires N.Shaped(c, y.net) && p in c.env.ring && ChainSessions.Covers(x, y.ledger) && NetworkCompletion.AllOnTrack(c, y.net)
    requires y.net.Party(p).state.Completed? && Claiming in y.net.Party(p).history
    requires StateInv(c, x, y)
    ensures !C.At(y.ledger, C.Target(x, p)).Absent?
  {
    hide IsRing, PartyInv, N.SentIn, Links, PointsFirst, SomeoneCommits, Parties, ChainInv,
         NetworkCompletion.AllOnTrack, AllOthers,
         KnowsSecrets, ClaimsWithAll, Has;
    NetworkCompletion.TrackAt(c, y.net, p);
    var q := p;
    NetworkSafety.PartyOf(c, y.net, p);
    if p == c.plan.leader {
      q := OtherParticipant(c, p);
      HasSecretOf(c, p, y.net.Got(p), q);
      HandledWasSent(c, y.net, p, q, KSecret);
    }
    assert N.SentIn(y.net.Log(q)).secret;
    SecretMeansLocks(c, y.net, q, q);
    assert C.SeenOnChain(y.net.Party(q).locksConfirmed, y.ledger);
    assert C.Target(x, p) in c.env.ring.Keys;
  }

  lemma HasSecretOf(c: Conf, me: Pid, got: Handled, q: Pid)
    requires AllOthers(c, me, got.secrets) && q in c.env.ring && q != me
    ensures Has(got, q, KSecret)
  {
  }

  lemma TargetsApart(x: C.Setting, p: Pid, q: Pid)
    requires C.ValidSetting(x) && p in x.env.ring && q in x.env.ring && p != q
    ensures C.Target(x, p) != C.Target(x, q)
  {
    hide IsRing;
    Losses.TargetsDiffer(x, p, q);
  }

  /** The ledger takes the claim, and nothing else. */
  lemma ClaimTaken(c: Conf, x: C.Setting, ledger: C.Ledger, tip: Tip, p: Pid, ledger': C.Ledger)
    requires SumFits(c, x) && PlanFits(c) && p in c.env.ring && ChainSessions.Covers(x, ledger)
    requires ledger' == C.SettleAll(x, ledger, tip, [TheClaim(c, p)])
    requires !C.At(ledger, C.Target(x, p)).Absent? && !C.At(ledger, C.Target(x, p)).Returned? && !C.At(ledger, C.Target(x, p)).Taken?
    ensures ledger' == ledger[C.Target(x, p) := C.Claimed]
  {
    assert InputsFit(c);
    hide IsRing, C.SettleAll, AllSecrets, PlanFits, SpendRight, LockRight;
    PlanIsRight(c, Spend(p));
    assert c.plan.inputs(Spend(p)).adaptor == Some(x.point);
    ChainSessions.SettleClaim(x, ledger, tip, [TheClaim(c, p)], p);
    if C.At(ledger, C.Target(x, p)).Claimed? {
      assert ledger[C.Target(x, p) := C.Claimed] == ledger;
    }
  }

  lemma LedgerMoves(c: Conf, x: C.Setting, y: Sys, e: N.Event, o: Outcome, y': Sys)
    requires SumFits(c, x) && PlanFits(c) && N.Shaped(c, y'.net) && NetworkCompletion.AllOnTrack(c, y'.net)
    requires ClaimsMeet(c, x, y) && StateInv(c, x, y') && e.p in c.env.ring && e.p in y.net.party && o.Ok?
    requires ClaimShape(y.net.Party(e.p), o) && y.net.Party(e.p).me == e.p
    requires y'.net.Party(e.p) == o.session && y'.ledger == C.SettleAll(x, y.ledger, y.tip, o.submitted)
    ensures ClaimsOn(c, x, y.ledger, e.p, o.submitted, y'.ledger)
    ensures TheClaim(c, e.p) in o.submitted ==> Claiming in o.session.history
  {
    hide IsRing, C.SettleAll, NetInv, OnLedger, NetworkCompletion.AllOnTrack, PlanFits, TheSpend, AllSecrets, N.SentIn;
    if o.submitted == [] || (|o.submitted| == 1 && o.submitted[0].SubmitLock?) {
      LocksSettleNothing(x, y.ledger, y.tip, o.submitted);
    } else {
      NetworkCompletion.TrackAt(c, y'.net, e.p);
      TrackSays(c, y'.net.Party(e.p), N.SentIn(y'.net.Log(e.p)), y'.net.Got(e.p), e.p);
      assert o.submitted == [TheClaim(c, e.p)];
      SettledCovers(x, y.ledger, y'.ledger);
      TargetSeen(c, x, y', e.p);
      SettlingKeepsAbsent(x, y.ledger, y.tip, o.submitted, C.Target(x, e.p));
      assert C.At(y.ledger, C.Target(x, e.p)) == C.At(y.ledger, C.Target(x, e.p));
      ClaimTaken(c, x, y.ledger, y.tip, e.p, y'.ledger);
    }
  }

  lemma SettledCovers(x: C.Setting, ledger: C.Ledger, ledger': C.Ledger)
    requires ChainSessions.Covers(x, ledger) && ledger'.Keys == ledger.Keys
    ensures ChainSessions.Covers(x, ledger')
  {
  }

  lemma TrackSays(c: Conf, s: Session, sent: Sent, got: Handled, p: Pid)
    requires OnTrack(c, s, sent, got) && s.me == p && Claiming in s.history
    ensures Spend(p) in s.signedTxs
    ensures s.signedTxs[Spend(p)] == TheSpend(c, p, c.env.sumSecrets(AllSecrets(c)))
    ensures p == c.plan.leader ==> AllOthers(c, p, got.secrets)
  {
  }

  /** Nothing has changed but that the party's spend was submitted and taken, if it was. */
  ghost predicate ClaimsOn(c: Conf, x: C.Setting, ledger: C.Ledger, p: Pid, subs: seq<Submission>, ledger': C.Ledger)
  {
    && p in x.env.ring
    && ((subs == [TheClaim(c, p)] && ledger' == ledger[C.Target(x, p) := C.Claimed]) || (TheClaim(c, p) !in subs && ledger' == ledger))
  }

  lemma OnlyClaimedAfter(ledger: C.Ledger, y: Pid, now: C.Status)
    requires OnlyClaimed(ledger) && !now.Returned? && !now.Taken?
    ensures OnlyClaimed(ledger[y := now])
  {
    forall q {:trigger C.At(ledger[y := now], q)} | q in ledger[y := now]
      ensures !C.At(ledger[y := now], q).Returned? && !C.At(ledger[y := now], q).Taken?
    {
      assert q != y ==> !C.At(ledger, q).Returned?;
    }
  }

  lemma MeetAgain(c: Conf, x: C.Setting, y: Sys, p: Pid, subs: seq<Submission>, y': Sys)
    requires ClaimsMeet(c, x, y) && C.ValidSetting(x) && x.env == c.env && p in y.net.submitted
    requires y'.net.submitted == y.net.submitted[p := y.net.Submitted(p) + subs]
    requires ClaimsOn(c, x, y.ledger, p, subs, y'.ledger)
    requires LedWithAll(c, y'.net.submitted, y'.net.got)
    ensures ClaimsMeet(c, x, y')
  {
    hide IsRing, AllOthers, TheClaim;
    assert C.Target(x, p) in y.ledger;
    OnlyClaimedAfter(y.ledger, C.Target(x, p), C.Claimed);
    forall q {:trigger Meets(c, x, y'.ledger, y'.net.submitted, q)} | q in c.env.ring
      ensures Meets(c, x, y'.ledger, y'.net.submitted, q)
    {
      assert Meets(c, x, y.ledger, y.net.submitted, q);
      if q != p {
        TargetsApart(x, p, q);
      }
    }
  }

  lemma SecretsStay(c: Conf, me: Pid, got: Handled, from: Pid, k: Kind)
    requires AllOthers(c, me, got.secrets)
    ensures AllOthers(c, me, With(got, from, k).secrets)
  {
  }

  lemma MeOf(c: Conf, n: N.Net, p: Pid)
    requires ValidConf(c) && N.Shaped(c, n) && NetInv(c, n) && p in c.env.ring
    ensures n.Party(p).me == p
  {
    hide IsRing, PartyInv, N.SentIn, Links, PointsFirst, SomeoneCommits, Parties, Grounded, MayEmit, ChainInv;
    NetworkSafety.PartyOf(c, n, p);
  }

  ghost predicate Submits(x: C.Setting, y: Sys, p: Pid, o: Outcome, y': Sys) {
    && C.ValidSetting(x) && y.ledger.Keys == x.env.ring.Keys && o.Ok? && y'.ledger == C.SettleAll(x, y.ledger, y.tip, o.submitted)
    && p in y.net.party && y.net.Party(p).me == p && o.session.me == p && ClaimShape(y.net.Party(p), o)
  }

  ghost predicate NetWent(c: Conf, x: C.Setting, y: Sys, e: N.Event, got': Handled, o: Outcome, y': Sys) {
    && Submits(x, y, e.p, o, y') && Happens(c, y.net, e, got', o, y'.net) && N.Shaped(c, y'.net)
    && ValidConf(c) && NetworkCompletion.AllOnTrack(c, y'.net) && Undisturbed(c, y'.net) && StateInv(c, x, y')
  }

  /** The network's part of an event at one party. */
  lemma NetGoes(c: Conf, x: C.Setting, y: Sys, e: N.Event, y': Sys) returns (got': Handled, o: Outcome)
    requires Fits(c, x) && Shaped(c, y) && N.Enabled(c, y.net, e) && y' == Stepped(c, x, y, e)
    requires e.LockPoll? && e.onChain ==> e.owner in y.ledger && !C.At(y.ledger, e.owner).Absent?
    requires e.p in c.env.ring && PlanFits(c) && StateInv(c, x, y) && Undisturbed(c, y.net) && NetworkCompletion.Happy(c, y.net, e)
    ensures NetWent(c, x, y, e, got', o, y')
  {
    hide IsRing, PlanFits, NetInv, OnLedger, N.SentIn, After, C.SettleAll, Stepped, Undisturbed, NetworkCompletion.Happy,
         NetworkCompletion.AllOnTrack, N.Enabled, ClaimShape, N.Step, N.Shaped, With;
    InParty(c, y.net, e);
    got', o := NetworkStep(c, x, y, e, y');
    LedgerStep(c, x, y, e, got', o, y');
    NetOfStep(c, x, y, e, y');
    GoesOnUndisturbed(c, y.net, e, y'.net);
    UndisturbedSays(c, y'.net);
    EventShaped(c, y.net, e, o);
    MeOf(c, y.net, e.p);
    MeOf(c, y'.net, e.p);
  }

  /** One event at one party. */
  lemma StepMeets(c: Conf, x: C.Setting, y: Sys, e: N.Event, y': Sys)
    requires SumFits(c, x) && Shaped(c, y) && N.Enabled(c, y.net, e) && y' == Stepped(c, x, y, e) && e.p in c.env.ring
    requires e.LockPoll? && e.onChain ==> e.owner in y.ledger && !C.At(y.ledger, e.owner).Absent?
    requires PlanFits(c) && GoesWell(c, x, y) && NetworkCompletion.Happy(c, y.net, e)
    ensures GoesWell(c, x, y')
  {
    hide IsRing, PlanFits, StateInv, C.SettleAll, Stepped, Undisturbed, Happens, InputsFit, NetworkCompletion.Happy,
         NetworkCompletion.AllOnTrack, N.Enabled, ClaimsMeet, ClaimsOn, ClaimShape, TheClaim, N.Shaped, LedWithAll;
    var got', o := NetGoes(c, x, y, e, y');
    HappensSays(c, y.net, e, got', o, y'.net);
    PlanHasInputs(c);
    LedgerMoves(c, x, y, e, o, y');
    LeaderHasAll(c, x, y, e, got', o, y');
    MeetAgain(c, x, y, e.p, o.submitted, y');
  }

  lemma NetOfStep(c: Conf, x: C.Setting, y: Sys, e: N.Event, y': Sys)
    requires C.ValidSetting(x) && y.ledger.Keys == x.env.ring.Keys
    requires ValidConf(c) && N.Shaped(c, y.net) && N.Enabled(c, y.net, e) && y' == Stepped(c, x, y, e)
    ensures y'.net == N.Step(c, y.net, e)
  {
    hide IsRing, N.Step, N.Enabled, N.Shaped, Settles;
  }

  lemma HappensSays(c: Conf, n: N.Net, e: N.Event, got': Handled, o: Outcome, n': N.Net)
    requires Happens(c, n, e, got', o, n') && e.p in c.env.ring
    ensures e.p in n.party && e.p in n.submitted && e.p in n.got && o.Ok?
    ensures n'.party == n.party[e.p := o.session] && n'.got == n.got[e.p := got']
    ensures n'.submitted == n.submitted[e.p := n.Submitted(e.p) + o.submitted]
    ensures got' == n.Got(e.p) || (e.Delivery? && got' == With(n.Got(e.p), e.from, KindOf(e.msg)))
  {
    hide N.Enabled, With;
  }

  lemma LeaderHasAll(c: Conf, x: C.Setting, y: Sys, e: N.Event, got': Handled, o: Outcome, y': Sys)
    requires ClaimsMeet(c, x, y) && e.p in c.env.ring && N.Shaped(c, y'.net) && o.Ok?
    requires e.p in y.net.got && e.p in y.net.submitted
    requires y'.net.got == y.net.got[e.p := got'] && y'.net.submitted == y.net.submitted[e.p := y.net.Submitted(e.p) + o.submitted]
    requires got' == y.net.Got(e.p) || (e.Delivery? && got' == With(y.net.Got(e.p), e.from, KindOf(e.msg)))
    requires NetworkCompletion.AllOnTrack(c, y'.net) && y'.net.Party(e.p) == o.session && o.session.me == e.p
    requires TheClaim(c, e.p) in o.submitted ==> Claiming in o.session.history
    ensures LedWithAll(c, y'.net.submitted, y'.net.got)
  {
    hide IsRing, NetworkCompletion.AllOnTrack, N.SentIn, AllOthers, With, TheClaim, OnTrack;
    if e.p == c.plan.leader && TheClaim(c, e.p) in y'.net.Submitted(e.p) {
      if TheClaim(c, e.p) in o.submitted {
        NetworkCompletion.TrackAt(c, y'.net, e.p);
        TrackSays(c, o.session, N.SentIn(y'.net.Log(e.p)), got', e.p);
      } else if got' != y.net.Got(e.p) {
        SecretsStay(c, e.p, y.net.Got(e.p), e.from, KindOf(e.msg));
      }
    }
  }

  // ---------- every event ----------

  /** Nobody's refund window is open. */
  ghost predicate NoneOpen(c: Conf, x: C.Setting, tip: Tip) {
    && C.ValidSetting(x)
    && forall p {:trigger C.WindowOpen(x, p, tip)} :: p in x.env.ring ==> !C.WindowOpen(x, p, tip)
  }

  /** The lock is not refused. */
  predicate Unrefused(e: Event) { e.Local? && e.e.Delivery? ==> e.e.accepted }

  /** The leader's spend is found only once it has been submitted, with the sum of all secrets. */
  lemma FoundIsThere(c: Conf, x: C.Setting, y: Sys, p: Pid)
    requires SumFits(c, x) && Shaped(c, y) && p in c.env.ring && N.Enabled(c, y.net, SpendPoll(c, x, y, p))
    requires PlanFits(c) && GoesWell(c, x, y)
    ensures NetworkCompletion.Happy(c, y.net, SpendPoll(c, x, y, p))
  {
    hide IsRing, PlanFits, NetInv, OnLedger, NetworkCompletion.AllOnTrack, Undisturbed, N.SentIn, AllSecrets,
         TheClaim, AllOthers, C.SignedOver;
    if Found(c, x, y, p).Some? {
      assert Meets(c, x, y.ledger, y.net.submitted, x.leader);
      assert AllOthers(c, c.plan.leader, y.net.Got(c.plan.leader).secrets);
      UndisturbedSays(c, y.net);
      ShapeOf(c, y.net);
      NetworkCompletion.TrackAt(c, y.net, c.plan.leader);
      MeOf(c, y.net, c.plan.leader);
      LeaderClaimed(c, y.net.Party(c.plan.leader), N.SentIn(y.net.Log(c.plan.leader)), y.net.Got(c.plan.leader));
    }
  }

  lemma LeaderClaimed(c: Conf, s: Session, sent: Sent, got: Handled)
    requires OnTrack(c, s, sent, got) && s.me == c.plan.leader && AllOthers(c, s.me, got.secrets)
    ensures Claiming in s.history
  {
  }

  lemma PollMeets(c: Conf, x: C.Setting, y: Sys, e: N.Event, y': Sys)
    requires SumFits(c, x) && Shaped(c, y) && e.p in c.env.ring && !e.LockPoll? && y' == Polled(c, x, y, e)
    requires N.Enabled(c, y.net, e) ==> NetworkCompletion.Happy(c, y.net, e)
    requires PlanFits(c) && GoesWell(c, x, y)
    ensures GoesWell(c, x, y') && y'.tip == y.tip && Shaped(c, y')
  {
    hide IsRing, PlanFits, GoesWell, N.Enabled, NetworkCompletion.Happy, Stepped, N.Shaped;
    if N.Enabled(c, y.net, e) {
      StepMeets(c, x, y, e, y');
      SteppedTip(c, x, y, e, y');
    }
    WellShaped(c, x, y');
  }

  lemma SteppedTip(c: Conf, x: C.Setting, y: Sys, e: N.Event, y': Sys)
    requires C.ValidSetting(x) && y.ledger.Keys == x.env.ring.Keys
    requires ValidConf(c) && N.Shaped(c, y.net) && N.Enabled(c, y.net, e) && y' == Stepped(c, x, y, e)
    ensures y'.tip == y.tip
  {
    hide IsRing, N.Step, N.Enabled, N.Shaped, Settles;
  }

  lemma WellShaped(c: Conf, x: C.Setting, y: Sys)
    requires GoesWell(c, x, y)
    ensures Shaped(c, y) && ValidConf(c) && N.Shaped(c, y.net)
  {
    hide IsRing, NetInv, OnLedger, N.Shaped, Undisturbed, ClaimsMeet;
  }

  lemma TickMeets(c: Conf, x: C.Setting, y: Sys, p: Pid, y': Sys)
    requires SumFits(c, x) && TickGoes(c, x, y, p, y') && NoneOpen(c, x, y.tip)
    requires PlanFits(c) && GoesWell(c, x, y)
    ensures GoesWell(c, x, y')
  {
    hide IsRing, PlanFits, GoesWell, N.Enabled, NetworkCompletion.SpendIsThere, Polled, N.Shaped, C.WindowOpen,
         C.RefundAcceptable, SpendPoll;
    var y1 := Polled(c, x, y, SpendPoll(c, x, y, p));
    assert !SpendPoll(c, x, y, p).LockPoll? && SpendPoll(c, x, y, p).p == p by { SpendPollIs(c, x, y, p); }
    if N.Enabled(c, y.net, SpendPoll(c, x, y, p)) {
      FoundIsThere(c, x, y, p);
    }
    PollMeets(c, x, y, SpendPoll(c, x, y, p), y1);
    assert !C.WindowOpen(x, p, y1.tip);
    var y2 := Polled(c, x, y1, WindowPoll(c, x, y1, p));
    PollMeets(c, x, y1, WindowPoll(c, x, y1, p), y2);
    ServedWell(c, x, y2, y');
  }

  lemma SpendPollIs(c: Conf, x: C.Setting, y: Sys, p: Pid)
    requires Fits(c, x) && Shaped(c, y)
    ensures SpendPoll(c, x, y, p).LeaderSpendPoll? && SpendPoll(c, x, y, p).p == p
  {
    hide IsRing, Found, N.Shaped;
  }

  lemma ServedWell(c: Conf, x: C.Setting, y: Sys, y': Sys)
    requires GoesWell(c, x, y) && y' == y.(served := y'.served, late := y'.late, tip := y'.tip)
    ensures GoesWell(c, x, y')
  {
    hide IsRing, NetInv, N.Shaped, Undisturbed;
  }

  lemma ConfirmMeets(c: Conf, x: C.Setting, y: Sys, owner: Pid, y': Sys)
    requires Shaped(c, y) && Enabled(c, y, Confirm(owner)) && y' == y.(ledger := y.ledger[owner := C.Locked])
    requires GoesWell(c, x, y)
    ensures GoesWell(c, x, y')
  {
    hide IsRing, NetInv, N.Shaped, Undisturbed, OnLedger, TheClaim;
    ConfirmLedger(c, y, owner, y');
    SettledCovers(x, y.ledger, y'.ledger);
    OnlyClaimedAfter(y.ledger, owner, C.Locked);
    forall p {:trigger Meets(c, x, y'.ledger, y'.net.submitted, p)} | p in c.env.ring
      ensures Meets(c, x, y'.ledger, y'.net.submitted, p)
    {
      assert Meets(c, x, y.ledger, y.net.submitted, p);
    }
  }

  lemma NextMeets(c: Conf, x: C.Setting, y: Sys, e: Event, y': Sys)
    requires SumFits(c, x) && Next(c, x, y, e, y') && Unrefused(e) && NoneOpen(c, x, y.tip)
    requires PlanFits(c) && GoesWell(c, x, y)
    ensures GoesWell(c, x, y')
  {
    hide IsRing, PlanFits, GoesWell, N.Enabled, N.Shaped, Goes, TickGoes, C.LateAt, NoneOpen;
    match e {
      case Local(e) =>
        GoesIs(c, x, y, e, y');
        InParty(c, y.net, e);
        StepMeets(c, x, y, e, y');
      case Tick(p) => TickMeets(c, x, y, p, y');
      case Confirm(owner) => ConfirmMeets(c, x, y, owner, y');
      case Advance(tip) => ServedWell(c, x, y, y');
    }
  }

  // ---------- every run ----------

  lemma OpenLater(x: C.Setting, p: Pid, tip: Tip, tip': Tip)
    requires C.ValidSetting(x) && p in x.env.ring && tip.height <= tip'.height && tip.slot <= tip'.slot && C.WindowOpen(x, p, tip)
    ensures C.WindowOpen(x, p, tip')
  {
    hide IsRing, RefundLocktimeBtc, RefundLocktimeCardano;
  }

  lemma NoneOpenBefore(c: Conf, x: C.Setting, tip: Tip, tip': Tip)
    requires C.ValidSetting(x) && tip.height <= tip'.height && tip.slot <= tip'.slot && NoneOpen(c, x, tip')
    ensures NoneOpen(c, x, tip)
  {
    hide IsRing, C.WindowOpen;
    forall p {:trigger C.WindowOpen(x, p, tip)} | p in x.env.ring
      ensures !C.WindowOpen(x, p, tip)
    {
      if C.WindowOpen(x, p, tip) {
        OpenLater(x, p, tip, tip');
      }
    }
  }

  lemma TipsGrow(c: Conf, x: C.Setting, y: Sys, e: Event, y': Sys)
    requires Next(c, x, y, e, y')
    ensures y.tip.height <= y'.tip.height && y.tip.slot <= y'.tip.slot
  {
    hide IsRing, N.Enabled, N.Shaped, C.LateAt, Stepped, C.WindowOpen, C.RefundAcceptable, SpendPoll, Settles;
    match e {
      case Local(e) => GoesIs(c, x, y, e, y'); SteppedTip(c, x, y, e, y');
      case Tick(p) =>
        var y1 := Polled(c, x, y, SpendPoll(c, x, y, p));
        PolledTip(c, x, y, SpendPoll(c, x, y, p));
        if Shaped(c, y1) {
          PolledTip(c, x, y1, WindowPoll(c, x, y1, p));
        }
      case _ =>
    }
  }

  lemma PolledTip(c: Conf, x: C.Setting, y: Sys, e: N.Event)
    requires Fits(c, x) && Shaped(c, y)
    ensures Polled(c, x, y, e).tip == y.tip
  {
    hide IsRing, N.Enabled, N.Shaped, Stepped;
    if N.Enabled(c, y.net, e) {
      SteppedTip(c, x, y, e, Stepped(c, x, y, e));
    }
  }

  /** By the end no lock has been refused, and no window is open. */
  ghost predicate Calm(c: Conf, x: C.Setting, ys: seq<Sys>, es: seq<Event>) {
    && |ys| == |es| + 1 && (forall i {:trigger es[i]} :: 0 <= i < |es| ==> Unrefused(es[i]))
    && C.ValidSetting(x) && NoneOpen(c, x, ys[|es|].tip) && SumFits(c, x) && IsRun(c, x, ys, es)
  }

  lemma BeginsWell(c: Conf, x: C.Setting, y: Sys)
    requires Begins(c, x, y)
    ensures GoesWell(c, x, y)
  {
    hide IsRing, NetInv, C.LateAt, OnLedger, TheClaim, N.Initial;
    NetworkSafety.InitialInv(c);
    ShapeOf(c, y.net);
    NothingSeen(c, y);
    var none: seq<N.Event> := [];
    assert NetworkCompletion.HappyRun(c, [y.net], none) && [y.net][|none|] == y.net;
    ChainTheorems.RingCovers(x, y.ledger);
    NoSubmissions(c);
    forall p {:trigger Meets(c, x, y.ledger, y.net.submitted, p)} | p in c.env.ring
      ensures Meets(c, x, y.ledger, y.net.submitted, p)
    {
      assert C.Target(x, p) in y.ledger && C.At(y.ledger, C.Target(x, p)).Absent?;
    }
  }

  lemma NoSubmissions(c: Conf)
    ensures forall p {:trigger N.Initial(c).submitted[p]} :: p in c.env.ring ==> N.Initial(c).submitted[p] == []
    ensures N.Initial(c).submitted.Keys == c.env.ring.Keys && N.Initial(c).got.Keys == c.env.ring.Keys
  {
  }

  lemma {:induction false} RunMeets(c: Conf, x: C.Setting, ys: seq<Sys>, es: seq<Event>, i: nat)
    requires PlanFits(c) && i < |ys| && Calm(c, x, ys, es)
    ensures GoesWell(c, x, ys[i])
  {
    hide IsRing, PlanFits, GoesWell, Begins, Next, NoneOpen, SumFits, Unrefused;
    if i == 0 {
      BeginsWell(c, x, ys[0]);
    } else {
      RunMeets(c, x, ys, es, i - 1);
      assert Next(c, x, ys[i - 1], es[i - 1], ys[i]) && Unrefused(es[i - 1]);
      TipsGrowOn(c, x, ys, es, i - 1, |es|, ys[i - 1], ys[|es|]);
      NoneOpenBefore(c, x, ys[i - 1].tip, ys[|es|].tip) by { SumSetting(c, x); }
      NextMeets(c, x, ys[i - 1], es[i - 1], ys[i]) by { SumSetting(c, x); }
    }
  }

  lemma SumSetting(c: Conf, x: C.Setting)
    requires SumFits(c, x)
    ensures C.ValidSetting(x)
  {
    hide IsRing;
  }

  lemma {:induction false} TipsGrowOn(c: Conf, x: C.Setting, ys: seq<Sys>, es: seq<Event>, i: nat, j: nat, y: Sys, y': Sys)
    requires i <= j < |ys| && y == ys[i] && y' == ys[j] && IsRun(c, x, ys, es)
    ensures y.tip.height <= y'.tip.height && y.tip.slot <= y'.tip.slot
  {
    hide Begins, Next;
    if i < j {
      TipsGrowOn(c, x, ys, es, i, j - 1, y, ys[j - 1]);
      assert Next(c, x, ys[j - 1], es[j - 1], ys[j]);
      TipsGrow(c, x, ys[j - 1], es[j - 1], ys[j]);
    }
  }

  // ---------- at rest ----------

  /** Nothing is left to start, deliver, confirm or find on chain. */
  ghost predicate NothingLeft(c: Conf, x: C.Setting, y: Sys) {
    && Shaped(c, y) && ChainSessions.Covers(x, y.ledger)
    && (forall e: N.Event {:trigger LocalEnabled(c, y.net, y.ledger, e)} :: LocalEnabled(c, y.net, y.ledger, e) ==>
          e.p in y.net.party && e.LockPoll? && (e.onChain ==> e.owner in y.net.Party(e.p).locksConfirmed))
    && (forall owner {:trigger C.At(y.ledger, owner)} :: owner in y.net.onChain && owner in y.ledger ==> !C.At(y.ledger, owner).Absent?)
    && (C.Published(x, y.ledger) ==>
          forall p {:trigger y.net.Party(p)} :: p in y.net.party ==> !y.net.Party(p).state.AwaitingLeaderSpend?)
  }

  lemma LeftIsQuiet(c: Conf, x: C.Setting, y: Sys)
    requires ValidConf(c) && N.Shaped(c, y.net) && NetInv(c, y.net) && NothingLeft(c, x, y)
    ensures NetworkProgress.Quiescent(c, y.net) && NetworkCompletion.LocksPolled(c, y.net)
  {
    hide IsRing, NetInv, N.SentIn, C.Published;
    forall e: N.Event {:trigger N.Enabled(c, y.net, e)} | e.Starts? || e.Delivery?
      ensures !N.Enabled(c, y.net, e)
    {
      assert LocalEnabled(c, y.net, y.ledger, e) <==> N.Enabled(c, y.net, e);
    }
    forall p, owner {:trigger N.Enabled(c, y.net, N.LockPoll(p, owner, true))} | N.Enabled(c, y.net, N.LockPoll(p, owner, true))
      ensures owner in y.net.Party(p).locksConfirmed
    {
      OwnerInRing(c, y.net, p, owner);
      assert !C.At(y.ledger, owner).Absent?;
      assert LocalEnabled(c, y.net, y.ledger, N.LockPoll(p, owner, true));
    }
  }

  lemma OwnerInRing(c: Conf, n: N.Net, p: Pid, owner: Pid)
    requires ValidConf(c) && N.Shaped(c, n) && NetInv(c, n) && N.Enabled(c, n, N.LockPoll(p, owner, true))
    ensures owner in c.env.ring && p in n.party
  {
    hide IsRing, N.SentIn, Links, PointsFirst, SomeoneCommits, Parties, ChainInv;
    BroadcastWasSent(c, n, p, owner);
  }

  lemma ClaimIsMet(c: Conf, x: C.Setting, y: Sys, p: Pid)
    requires ClaimsMeet(c, x, y) && p in c.env.ring && p in y.net.submitted && TheClaim(c, p) in y.net.Submitted(p) && p in x.env.ring
    ensures C.Target(x, p) in y.ledger && C.At(y.ledger, C.Target(x, p)).Claimed?
  {
    hide TheClaim;
    assert Meets(c, x, y.ledger, y.net.submitted, p);
  }

  lemma LeftIsRest(c: Conf, x: C.Setting, y: Sys)
    requires NothingLeft(c, x, y) && GoesWell(c, x, y) && PlanFits(c)
    ensures NetworkCompletion.AtRest(c, y.net)
  {
    hide IsRing, NetInv, N.Shaped, OnLedger, ClaimsMeet, NetworkProgress.Quiescent, NetworkCompletion.LocksPolled,
         TheClaim, PlanFits,
         NetworkCompletion.AllOnTrack, NetworkCompletion.ClaimsSubmitted, Undisturbed;
    UndisturbedSays(c, y.net);
    LeftIsQuiet(c, x, y);
    IsIn(c, y.net, c.plan.leader);
    if Claiming in y.net.Party(c.plan.leader).history {
      LeaderSubmitted(c, y.net);
      ClaimIsMet(c, x, y, c.plan.leader);
    }
  }

  lemma LeaderSubmitted(c: Conf, n: N.Net)
    requires ValidConf(c) && N.Shaped(c, n) && NetworkCompletion.ClaimsSubmitted(c, n) && c.plan.leader in n.party
    requires Claiming in n.Party(c.plan.leader).history
    ensures c.plan.leader in n.submitted && TheClaim(c, c.plan.leader) in n.Submitted(c.plan.leader)
  {
    hide IsRing, TheSpend, AllSecrets;
    assert NetworkCompletion.ClaimIn(c, c.plan.leader, n.Party(c.plan.leader), n.Submitted(c.plan.leader));
  }

  lemma IsIn(c: Conf, n: N.Net, p: Pid)
    requires ValidConf(c) && N.Shaped(c, n) && (p in c.env.ring || p == c.plan.leader)
    ensures p in n.party && p in n.submitted && p in c.env.ring
  {
    hide IsRing;
  }

  lemma GotIsClaimed(c: Conf, x: C.Setting, ys: seq<Sys>, es: seq<Event>, y: Sys, p: Pid)
    requires |ys| == |es| + 1 && y == ys[|es|] && x.env == c.env && p in x.env.ring
    requires PlanFits(c) && Calm(c, x, ys, es) && NothingLeft(c, x, y)
    ensures C.Target(x, p) in y.ledger && C.At(y.ledger, C.Target(x, p)).Claimed?
    ensures p in y.net.submitted && TheClaim(c, p) in y.net.Submitted(p)
    ensures PaysOut(c.env, p, TheClaim(c, p).tx.tx)
  {
    hide IsRing, NetInv, N.Shaped, OnLedger, ClaimsMeet, NetworkCompletion.HappyRun, NetworkCompletion.AtRest,
         NothingLeft, PlanFits, IsRun, TheSpend, PaysOut,
         AllSecrets, NoneOpen, SumFits;
    RunMeets(c, x, ys, es, |es|);
    LeftIsRest(c, x, y);
    var ns, nes :| |ns| == |nes| + 1 && NetworkCompletion.HappyRun(c, ns, nes) && ns[|nes|] == y.net;
    ShapeOf(c, y.net);
    NetworkCompletion.SwapCompletes(c, ns, nes, y.net, p);
    IsIn(c, y.net, p);
    ClaimIsMet(c, x, y, p);
  }

  /** For every ring, all random values and every interleaving of signing, confirming and polling: if by the end
      no lock has been refused, no refund window is open and nothing is left to do, every lock is claimed; and the
      claim that was submitted for it pays all that was locked to the one participant that claims from its owner. */
  lemma EverythingClaimed(c: Conf, x: C.Setting, ys: seq<Sys>, es: seq<Event>, y: Sys, q: Pid) returns (p: Pid, tx: SignedTx)
    requires |ys| == |es| + 1 && y == ys[|es|] && q in c.env.ring
    requires PlanFits(c) && Calm(c, x, ys, es) && NothingLeft(c, x, y)
    ensures q in y.ledger && C.At(y.ledger, q).Claimed?
    ensures p in c.env.ring && c.env.ring[p].target == q
    ensures p in y.net.submitted && SubmitTx(Spend(p), tx) in y.net.Submitted(p)
    ensures tx.tx.SpendTx? && tx.tx.claimant == p && tx.tx.lock.owner == q && tx.tx.lock.amount == c.env.ring[q].amountLocking
  {
    hide IsRing, PlanFits, IsRun, NothingLeft, NoneOpen, TheSpend;
    p := Losses.ClaimantOf(x, q);
    GotIsClaimed(c, x, ys, es, y, p);
    tx := TheClaim(c, p).tx;
  }
}
