/** The runs in which a party loses do begin: every honest setup comes to the point where the party has just
    locked, and ordinary windows leave the moments in question. */
module LossWitness {
  import opened Ring
  import opened Timelocks
  import opened Protocol
  import opened PartyInvariant
  import opened NetworkInvariant
  import opened NetworkSteps
  import N = Network
  import NetworkSafety
  import NetworkProgress
  import NetworkCompletion
  import C = Chain
  import ChainTheorems
  import HonestRuns
  import Losses

  // ---------- the moment of locking ----------

  lemma {:induction false} FirstLock(c: Conf, ns: seq<N.Net>, es: seq<N.Event>, p: Pid, k: nat) returns (i: nat)
    requires ValidConf(c) && |ns| == |es| + 1 && k < |ns| && p in ns[k].onChain && p !in ns[0].onChain
    ensures i < |es| && p !in ns[i].onChain && p in ns[i + 1].onChain
  {
    if p in ns[k - 1].onChain {
      i := FirstLock(c, ns, es, p, k - 1);
    } else {
      i := k - 1;
    }
  }

  lemma PollsAnnounceNothing(s: Session, leader: Pid, found: Option<Secret>, open: bool, accepted: bool)
    ensures OnLeaderSpendPoll(s, leader, found).Ok? ==> OnLeaderSpendPoll(s, leader, found).out == []
    ensures OnRefundPoll(s, open, accepted).Ok? ==> OnRefundPoll(s, open, accepted).out == []
  {
    hide AdaptMySpend, SpendSubmission, RefundSubmission;
  }

  /** On the event that puts its lock on chain, a party goes over to waiting, its own lock unseen. */
  lemma JustLocked(c: Conf, n: N.Net, e: N.Event, n': N.Net, p: Pid)
    requires ValidConf(c) && N.Shaped(c, n) && N.Enabled(c, n, e) && n' == N.Step(c, n, e) && N.Shaped(c, n')
    requires p in c.env.ring && p !in n.onChain && p in n'.onChain
    requires PlanFits(c) && NetInv(c, n)
    ensures n'.Party(p).state == AwaitingLockConfirmations && p !in n'.Party(p).locksConfirmed
  {
    hide IsRing, PartyInv, N.SentIn, With, After, Grounded, PlanFits, InputsFit, Fifo, Links, PointsFirst, SomeoneCommits,
         ChainInv, AllOthers, N.Read, N.Put, PartyGood, Parties, GoodStep, EventGood, MayEmit, OnLeaderSpendPoll,
         OnRefundPoll, HandleMessage, OnLockPoll, Protocol.Start;
    var got', o := GotAfter(c, n, e), OutcomeOf(c, n, e);
    PlanHasInputs(c);
    EventIsGood(c, n, e, got', o);
    GoodIsOk(c, n, e.p, got', o);
    StepHappens(c, n, e, got', o, n');
    assert e.p == p && LockTxBroadcast in o.out;
    ConfirmedAfter(c, n, e, o);
    match e {
      case LeaderSpendPoll(_, found) => PollsAnnounceNothing(n.Party(p), n.Party(p).leader.value, found, true, true);
      case RefundPoll(_, open, accepted) => PollsAnnounceNothing(n.Party(p), p, None, open, accepted);
      case Delivery(_, _, _, _) =>
        HonestRuns.NoSecretYet(c, n, e);
        HonestRuns.UnlockedFunds(c, n, e, o);
      case _ => HonestRuns.UnlockedFunds(c, n, e, o);
    }
  }

  /** An undisturbed run to the end, in which everybody has locked. */
  lemma LockingRun(c: Conf, p: Pid) returns (ns: seq<N.Net>, es: seq<N.Event>)
    requires ValidConf(c) && PlanFits(c) && p in c.env.ring
    ensures |ns| == |es| + 1 && NetworkSafety.IsRun(c, ns, es) && p in ns[|es|].onChain
  {
    hide IsRing, PlanFits, N.Initial, N.Step, Parties, Links, PointsFirst, SomeoneCommits, ChainInv, N.Enabled, N.Shaped,
         NetworkCompletion.AllOnTrack, NetworkCompletion.Happy, NetworkProgress.Quiescent, NetworkCompletion.LocksPolled,
         NetworkCompletion.SpendPolled, N.SentIn, NetworkCompletion.ClaimsSubmitted, NetworkSafety.Follows,
         NetworkProgress.AllSent;
    var none: seq<N.Event> := [];
    var first := N.Initial(c);
    NetworkSafety.InitialInv(c);
    assert NetworkCompletion.HappyRun(c, [first], none);
    ns, es := NetworkCompletion.RestIsReachable(c, [first], none, first);
    NetworkCompletion.RunOnTrack(c, ns, es, |es|);
    var last := ns[|es|];
    assert NetworkSafety.Reachable(c, last);
    NetworkCompletion.AllLocksSent(c, last);
    LockOf(c, last, p);
    ChainAt(c, last, p);
  }

  /** In every honest setup, whatever the nonces and secrets, each party can come to lock. */
  lemma SomeoneLocks(c: Conf, p: Pid) returns (n: N.Net)
    requires ValidConf(c) && PlanFits(c) && p in c.env.ring
    ensures N.Shaped(c, n) && NetworkSafety.Reachable(c, n) && NetInv(c, n) && p in n.onChain
    ensures n.Party(p).state == AwaitingLockConfirmations && p !in n.Party(p).locksConfirmed
    ensures n.Party(p).locksConfirmed <= c.env.ring.Keys && Unseen(c, n, p)
  {
    hide IsRing, PlanFits, N.Initial, N.Step, NetInv, N.Enabled, N.Shaped, Unseen;
    var ns, es := LockingRun(c, p);
    assert p !in ns[0].onChain by { NobodyLocked(c); }
    var i := FirstLock(c, ns, es, p, |es|);
    assert NetworkSafety.Follows(c, ns[i], es[i], ns[i + 1]);
    NetworkSafety.RunInv(c, ns, es, i);
    NetworkSafety.RunInv(c, ns, es, i + 1);
    n := ns[i + 1];
    NetShape(c, n);
    JustLocked(c, ns[i], es[i], n, p);
    SeenByNobody(c, ns[i], es[i], n, p);
    RunPrefix(c, ns, es, i + 1);
    SeenInRing(c, n, p);
  }

  /** Nobody has seen the party's lock. */
  ghost predicate Unseen(c: Conf, n: N.Net, p: Pid) {
    forall q {:trigger n.Party(q)} :: q in c.env.ring && q in n.party ==> p !in n.Party(q).locksConfirmed
  }

  lemma SeenByNobody(c: Conf, n: N.Net, e: N.Event, n': N.Net, p: Pid)
    requires ValidConf(c) && N.Shaped(c, n) && N.Enabled(c, n, e) && n' == N.Step(c, n, e) && N.Shaped(c, n')
    requires p in c.env.ring && p !in n.onChain && p in n'.onChain
    requires PlanFits(c) && NetInv(c, n)
    ensures Unseen(c, n', p)
  {
    hide IsRing, PartyInv, N.SentIn, With, After, Grounded, PlanFits, InputsFit, Fifo, Links, PointsFirst, SomeoneCommits,
         ChainInv, AllOthers, N.Read, N.Put, PartyGood, Parties, GoodStep, EventGood, MayEmit, N.Handle;
    var got', o := GotAfter(c, n, e), OutcomeOf(c, n, e);
    PlanHasInputs(c);
    EventIsGood(c, n, e, got', o);
    GoodIsOk(c, n, e.p, got', o);
    StepHappens(c, n, e, got', o, n');
    JustLocked(c, n, e, n', p);
    assert e.p == p;
    forall q {:trigger n'.Party(q)} | q in c.env.ring && q in n'.party
      ensures p !in n'.Party(q).locksConfirmed
    {
      if q != p {
        ChainAt(c, n, q);
      }
    }
  }

  lemma NobodyLocked(c: Conf)
    requires ValidConf(c)
    ensures N.Initial(c).onChain == {}
  {
    hide IsRing;
  }

  lemma LockOf(c: Conf, n: N.Net, p: Pid)
    requires N.Shaped(c, n) && p in c.env.ring && NetworkProgress.AllSent(c, n, KLock)
    ensures N.SentIn(n.Log(p)).lock
  {
    hide N.SentIn;
    assert In(N.SentIn(n.Log(p)), KLock);
  }

  lemma RunPrefix(c: Conf, ns: seq<N.Net>, es: seq<N.Event>, i: nat)
    requires ValidConf(c) && NetworkSafety.IsRun(c, ns, es) && i < |ns|
    ensures NetworkSafety.Reachable(c, ns[i])
  {
    hide IsRing, NetworkSafety.Follows, N.Initial;
    var ns', es' := ns[..i + 1], es[..i];
    assert NetworkSafety.IsRun(c, ns', es') && ns'[|es'|] == ns[i];
  }

  lemma SeenInRing(c: Conf, n: N.Net, p: Pid)
    requires ValidConf(c) && N.Shaped(c, n) && NetInv(c, n) && p in c.env.ring
    ensures n.Party(p).locksConfirmed <= c.env.ring.Keys
  {
    hide IsRing, PartyInv, N.SentIn, Links, PointsFirst, SomeoneCommits, Parties, Grounded, MayEmit, ChainInv;
    NetworkSafety.PartyOf(c, n, p);
    ConfirmedInRing(c, n.Party(p), N.SentIn(n.Log(p)), n.Got(p));
  }

  lemma NetShape(c: Conf, n: N.Net)
    requires NetInv(c, n)
    ensures N.Shaped(c, n)
  {
    hide IsRing, N.Shaped, Links, PointsFirst, SomeoneCommits, Parties, ChainInv;
  }

  lemma ConfirmedInRing(c: Conf, s: Session, sent: Sent, got: Handled)
    requires ValidConf(c) && PartyInv(c, s, sent, got)
    ensures s.locksConfirmed <= c.env.ring.Keys
  {
    hide IsRing, Fifo, Funded, PointsInv, ElectionInv, RevealInv, OpeningInv, MusigInv, NoncesInv, PartialsInv,
         RefundsInv, SpendsInv, PhaseInv, LeaderInv, Opened, AllOthers;
    forall q | q in s.locksConfirmed
      ensures q in c.env.ring.Keys
    {
      assert q in s.locksBroadcast;
    }
  }

  /** So for every ring, every choice of random values and every non-leader the losses have their beginning. */
  lemma SuchASession(c: Conf, p: Pid, secret: Secret) returns (x: C.Setting, s: Session)
    requires ValidConf(c) && PlanFits(c) && p in c.env.ring && p != c.plan.leader
    ensures x == C.Setting(c.env, c.plan.leader, {p}, c.env.sumPoints(AllPoints(c)), secret)
    ensures Losses.Alone(x, p, s) && C.Equipped(x, p, s)
  {
    hide IsRing, PlanFits, NetInv, C.Prepared, Unseen, NetworkSafety.Reachable, C.SignedOver;
    var n := SomeoneLocks(c, p);
    x, s := C.Setting(c.env, c.plan.leader, {p}, c.env.sumPoints(AllPoints(c)), secret), n.Party(p);
    HonestRuns.LockedIsEquipped(c, x, n, p);
  }

  /** And if the windows are further apart than the daemon's margin, the moments are there too. */
  lemma SuchTimes(x: C.Setting, p: Pid) returns (tip1: Tip, tip2: Tip)
    requires C.ValidSetting(x) && p in x.env.ring && C.Target(x, p) in x.env.ring
    requires BtcFits(x.env.ring, x.env.anchors) && CardanoFits(x.env.ring, x.env.anchors, x.env.systemStart)
    requires OpensEarlier(x.env.ring, x.leader, x.env.anchors, p)
    ensures Losses.Times(x, p, tip1, tip2)
  {
    hide IsRing, BtcFits, CardanoFits, OpensEarlier, ChainAcceptsRefund, DaemonSaysOpen, OpensAt;
    MomentToServe(x.env.ring, x.leader, x.env.anchors, x.env.systemStart, p);
    var t: nat :| CanServe(x.env.ring, x.leader, x.env.anchors, p, t);
    var target := C.Target(x, p);
    var later := t + OpensAt(x.env.ring[target].blockchain, x.env.anchors.window, Distance(x.env.ring, x.leader, target));
    NominalOpening(x.env.ring, x.leader, x.env.anchors, x.env.systemStart, target, later);
    tip1, tip2 := NominalTip(x.env.anchors, t), NominalTip(x.env.anchors, later);
  }

  /** Together: with windows further apart than the daemon's margin, every honest setup of every ring can end
      with a non-leader that has lost because it was late, and with one that was in time and has lost because
      of one late commitment. */
  lemma LossesHappen(c: Conf, p: Pid, secret: Secret) returns (x: C.Setting, late: C.World, hurt: C.World)
    requires ValidConf(c) && PlanFits(c) && p in c.env.ring && p != c.plan.leader
    requires BtcFits(c.env.ring, c.env.anchors) && CardanoFits(c.env.ring, c.env.anchors, c.env.systemStart)
    requires OpensEarlier(c.env.ring, c.plan.leader, c.env.anchors, p)
    ensures x == C.Setting(c.env, c.plan.leader, {p}, c.env.sumPoints(AllPoints(c)), secret) && C.ValidSetting(x)
    ensures ChainTheorems.Reachable(x, late) && p in late.late && p !in late.hurt && Losses.HasLost(x, late, p)
    ensures ChainTheorems.Reachable(x, hurt) && p !in hurt.late && p in hurt.hurt && Losses.HasLost(x, hurt, p)
  {
    hide IsRing, PlanFits, C.Prepared, BtcFits, CardanoFits, OpensEarlier, ChainTheorems.Reachable, Losses.HasLost, C.RefundAcceptable,
         C.WindowOpen;
    var s: Session;
    x, s := SuchASession(c, p, secret);
    TargetInRing(x, p);
    var tip1, tip2 := SuchTimes(x, p);
    late := Losses.LateLoses(x, p, s, tip1, tip2);
    var draw := c.tape(p).draw;
    hurt := Losses.HurtLoses(x, p, s, tip1, tip1, tip2, p, draw.leaderNonce, draw);
  }

  lemma TargetInRing(x: C.Setting, p: Pid)
    requires C.ValidSetting(x) && p in x.env.ring
    ensures C.Target(x, p) in x.env.ring
  {
  }
}
