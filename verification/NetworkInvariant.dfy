/** The invariant of the network: every party satisfies its own invariant for exactly the messages it
    has read, and every log is in the order the receivers rely on. Every event keeps it. */
module NetworkInvariant {
  import opened Ring
  import opened Protocol
  import opened PartyInvariant
  import opened PartySteps
  import opened SigningSteps
  import opened ClaimSteps
  import opened Handling
  import opened Network

  /** A commitment needs all points, or somebody else's commitment. */
  ghost predicate Grounded(c: Conf, me: Pid, commitment: bool, points: set<Pid>, commitments: set<Pid>) {
    commitment ==> AllOthers(c, me, points) || commitments != {}
  }

  ghost predicate PartyGood(c: Conf, p: Pid, s: Session, log: seq<WireMessage>, got: Handled) {
    && ValidConf(c) && p in c.env.ring
    && s.me == p && PartyInv(c, s, SentIn(log), got)
    && MayEmit(c, p, NOTHING_SENT, log)
    && Grounded(c, p, SentIn(log).commitment, got.points, got.commitments)
  }

  ghost predicate LinkGood(got: Handled, q: Pid, log: seq<WireMessage>, read: nat) {
    read <= |log| && Tracks(got, q, SentIn(log[..read]))
  }

  ghost predicate Parties(c: Conf, n: Net) {
    && ValidConf(c) && Shaped(c, n)
    && forall p {:trigger PartyGood(c, p, n.Party(p), n.Log(p), n.Got(p))} :: p in c.env.ring ==>
      PartyGood(c, p, n.Party(p), n.Log(p), n.Got(p))
  }

  ghost predicate Links(c: Conf, n: Net) {
    && Shaped(c, n)
    && forall p, q {:trigger n.Seen(p, q)} :: p in c.env.ring && q in c.env.ring && q != p ==>
      LinkGood(n.Got(p), q, n.Log(q), n.Seen(p, q))
  }

  ghost predicate AllPointsOut(c: Conf, n: Net) {
    && Shaped(c, n)
    && forall q {:trigger SentIn(n.Log(q))} :: q in c.env.ring ==> SentIn(n.Log(q)).point
  }

  /** Nobody commits before everybody's point is out. */
  ghost predicate PointsFirst(c: Conf, n: Net) {
    && Shaped(c, n)
    && forall p {:trigger SentIn(n.Log(p))} :: p in c.env.ring && SentIn(n.Log(p)).commitment ==> AllPointsOut(c, n)
  }

  ghost predicate HasAllPoints(c: Conf, p: Pid, log: seq<WireMessage>, got: Handled) {
    SentIn(log).point && AllOthers(c, p, got.points)
  }

  /** Once everybody has all points, somebody has committed. */
  ghost predicate SomeoneCommits(c: Conf, n: Net) {
    && Shaped(c, n)
    && ((forall p {:trigger HasAllPoints(c, p, n.Log(p), n.Got(p))} :: p in c.env.ring ==> HasAllPoints(c, p, n.Log(p), n.Got(p))) ==>
      exists p {:trigger SentIn(n.Log(p))} :: p in c.env.ring && SentIn(n.Log(p)).commitment)
  }

  ghost predicate LockGood(s: Session, log: seq<WireMessage>, p: Pid, onChain: set<Pid>) {
    (p in onChain <==> SentIn(log).lock) && s.locksConfirmed <= onChain
  }

  /** A lock is on chain when its owner has announced it; what is confirmed is on chain. */
  ghost predicate ChainInv(c: Conf, n: Net) {
    && Shaped(c, n)
    && forall p {:trigger LockGood(n.Party(p), n.Log(p), p, n.onChain)} :: p in c.env.ring ==> LockGood(n.Party(p), n.Log(p), p, n.onChain)
  }

  ghost predicate NetInv(c: Conf, n: Net) {
    && ValidConf(c) && Shaped(c, n) && !n.crashed
    && Parties(c, n) && Links(c, n) && PointsFirst(c, n) && SomeoneCommits(c, n) && ChainInv(c, n)
  }

  lemma PartyAt(c: Conf, n: Net, p: Pid)
    requires ValidConf(c) && Shaped(c, n) && p in c.env.ring && Parties(c, n)
    ensures PartyGood(c, p, n.Party(p), n.Log(p), n.Got(p))
  {
    hide IsRing, PartyGood;
  }

  // ---------- what one party's state says about the others ----------

  lemma HandledWasSent(c: Conf, n: Net, p: Pid, q: Pid, k: Kind)
    requires ValidConf(c) && Shaped(c, n) && Links(c, n)
    requires p in c.env.ring && q in c.env.ring && q != p && Has(n.Got(p), q, k)
    ensures In(SentIn(n.Log(q)), k)
  {
    hide IsRing, SentIn, In, Has;
    var read := n.Seen(p, q);
    assert LinkGood(n.Got(p), q, n.Log(q), read);
    PrefixSent(n.Log(q), read, k);
  }

  lemma LockIsFunded(c: Conf, s: Session, sent: Sent, got: Handled)
    requires ValidConf(c) && PartyInv(c, s, sent, got) && sent.lock
    ensures Funded(c, s.me, got.partials) && Fifo(c, s.me, got)
  {
    hide IsRing, Funded, Fifo;
  }

  lemma PartialIsSigned(c: Conf, s: Session, sent: Sent, got: Handled, role: TxRole)
    requires ValidConf(c) && PartyInv(c, s, sent, got) && role in sent.partials
    ensures Signs(c, s.me, got.schnorr, role) && Opened(c, s.me, got.nonces)
  {
    hide IsRing, Fifo, Signs, Opened, PointsInv, ElectionInv, OpeningInv, MusigInv, NoncesInv, RefundsInv, SpendsInv,
         PhaseInv, ClaimInv, LeaderInv;
    SigningIsOpened(c, s.me, got, role);
  }

  /** A funded party has heard from everyone, so everyone has opened the signing rounds. */
  lemma LockMeansOpened(c: Conf, n: Net, x: Pid, p: Pid)
    requires ValidConf(c) && Shaped(c, n) && Parties(c, n) && Links(c, n)
    requires x in c.env.ring && p in c.env.ring && SentIn(n.Log(x)).lock
    ensures Opened(c, p, n.Got(p).nonces)
  {
    hide IsRing, PartyInv, Fifo, Opened, Signs, Funded, SentIn, Links, Parties, Grounded, MayEmit;
    var role := Refund(p);
    PartyAt(c, n, x);
    LockIsFunded(c, n.Party(x), SentIn(n.Log(x)), n.Got(x));
    if p == x {
      FundedIsOpened(c, x, n.Got(x));
    } else {
      FundedHasSetup(c, x, n.Got(x), p, KPartial(role));
      HandledWasSent(c, n, x, p, KPartial(role));
      PartyAt(c, n, p);
      PartialIsSigned(c, n.Party(p), SentIn(n.Log(p)), n.Got(p), role);
    }
  }

  lemma BroadcastKnown(c: Conf, s: Session, sent: Sent, got: Handled, x: Pid)
    requires ValidConf(c) && PartyInv(c, s, sent, got) && x in s.locksBroadcast
    ensures x in c.env.ring && if x == s.me then sent.lock else Has(got, x, KLock)
  {
    hide IsRing, Fifo, PointsInv, ElectionInv, RevealInv, OpeningInv, MusigInv, NoncesInv, PartialsInv, RefundsInv,
         SpendsInv, PhaseInv, LeaderInv, AllOthers;
  }

  /** Whoever has seen a lock announced knows that it was sent; the own one too. */
  lemma BroadcastWasSent(c: Conf, n: Net, p: Pid, x: Pid)
    requires ValidConf(c) && Shaped(c, n) && Parties(c, n) && Links(c, n)
    requires p in c.env.ring && x in n.Party(p).locksBroadcast
    ensures x in c.env.ring && SentIn(n.Log(x)).lock
  {
    hide IsRing, PartyInv, SentIn, Links, Has, Parties, Grounded, MayEmit;
    PartyAt(c, n, p);
    BroadcastKnown(c, n.Party(p), SentIn(n.Log(p)), n.Got(p), x);
    if x != p {
      HandledWasSent(c, n, p, x, KLock);
    }
  }

  /** A secret is sent only when all N locks were seen confirmed. */
  lemma SecretMeansLocks(c: Conf, n: Net, q: Pid, p: Pid)
    requires ValidConf(c) && Shaped(c, n) && Parties(c, n) && Links(c, n)
    requires q in c.env.ring && p in c.env.ring && SentIn(n.Log(q)).secret
    ensures q != c.plan.leader && c.env.ring.Keys <= n.Party(q).locksConfirmed
    ensures SentIn(n.Log(p)).lock
  {
    hide IsRing, Fifo, PointsInv, ElectionInv, RevealInv, OpeningInv, MusigInv, NoncesInv, PartialsInv, RefundsInv,
         SpendsInv, PhaseInv, LeaderInv, SentIn, Links, Parties, Grounded, MayEmit;
    PartyAt(c, n, q);
    assert p in n.Party(q).locksBroadcast;
    BroadcastWasSent(c, n, q, p);
  }

  // ---------- one event, seen by the party it happens at ----------

  ghost predicate PlannedNext(c: Conf, n: Net, p: Pid, from: Pid, msg: WireMessage, k: Kind) {
    && ValidConf(c) && Shaped(c, n) && p in c.env.ring && from in c.env.ring
    && msg == TheMessage(c, from, k)
    && Delivers(c, n.Party(p), SentIn(n.Log(p)), n.Got(p), from, k)
    && In(SentIn(n.Log(from)), k)
  }

  /** The next message on a link is the planned one, and new and in order for its receiver. */
  lemma NextIsPlanned(c: Conf, n: Net, e: Event)
    requires NetInv(c, n) && InputsFit(c) && Enabled(c, n, e) && e.Delivery?
    ensures PlannedNext(c, n, e.p, e.from, e.msg, KindOf(e.msg))
  {
    hide IsRing, PartyInv, Fifo, SentIn, Has, InputsFit, Grounded, PointsFirst, SomeoneCommits, ChainInv, Parties,
         MayEmit;
    var p, from, k := e.p, e.from, KindOf(e.msg);
    var i := n.Seen(p, from);
    PartyAt(c, n, p);
    PartyAt(c, n, from);
    assert LinkGood(n.Got(p), from, n.Log(from), i);
    PartyFifo(c, n.Party(p), SentIn(n.Log(p)), n.Got(p));
    NextInLog(c, p, n.Got(p), from, n.Log(from), i);
  }

  lemma NextInLog(c: Conf, p: Pid, got: Handled, from: Pid, log: seq<WireMessage>, i: nat)
    requires ValidConf(c) && from in c.env.ring && from != p && Fifo(c, p, got) && i < |log|
    requires MayEmit(c, from, NOTHING_SENT, log) && LinkGood(got, from, log, i)
    ensures log[i] == TheMessage(c, from, KindOf(log[i])) && ValidKind(c, KindOf(log[i]))
    ensures !Has(got, from, KindOf(log[i])) && Fifo(c, p, With(got, from, KindOf(log[i])))
    ensures In(SentIn(log), KindOf(log[i]))
  {
    hide IsRing, Fifo, SentIn, Has, In, LowerRanksSent, MayEmit, TheMessage, With, KindOf, ValidKind;
    var k := KindOf(log[i]);
    LogEntry(c, from, log, i);
    FifoNext(c, p, got, from, SentIn(log[..i]), k);
    assert Has(got, from, k) <==> In(SentIn(log[..i]), k);
    assert log[..i + 1][..i] == log[..i];
    LastSent(log[..i + 1]);
    AddedIn(SentIn(log[..i]), k, k);
    PrefixSent(log, i + 1, k);
  }

  lemma PartyFifo(c: Conf, s: Session, sent: Sent, got: Handled)
    requires ValidConf(c) && PartyInv(c, s, sent, got)
    ensures Fifo(c, s.me, got)
  {
  }

  lemma NextIsTimely(c: Conf, n: Net, p: Pid, from: Pid, k: Kind)
    requires NetInv(c, n) && p in c.env.ring && from in c.env.ring && In(SentIn(n.Log(from)), k)
    ensures Timely(SentIn(n.Log(p)), k)
  {
    hide IsRing, PartyInv, Fifo, SentIn, Has, PartyGood, LinkGood, SomeoneCommits, ChainInv, Parties, Links;
    if k.KSecret? {
      SecretMeansLocks(c, n, from, p);
    }
  }

  lemma LeaderKnown(c: Conf, s: Session, sent: Sent, got: Handled)
    requires ValidConf(c) && PartyInv(c, s, sent, got) && s.state == AwaitingLeaderSpend
    ensures s.leader == Some(c.plan.leader)
  {
    hide IsRing, Fifo, Opened, Funded, PointsInv, ElectionInv, RevealInv, MusigInv, NoncesInv, PartialsInv,
         RefundsInv, SpendsInv, PhaseInv, LeaderInv, ClaimInv;
    AwaitingIsFunded(s.state, s.history, Stage(sent.point, sent.commitment, sent.nonce, Opened(c, s.me, got.nonces)),
                     Funded(c, s.me, got.partials), sent.lock);
    FundedIsOpened(c, s.me, got);
  }

  /** The outcome of an event at the party where it happens. */
  ghost function OutcomeOf(c: Conf, n: Net, e: Event): Outcome {
    if e.p in n.party then Handle(c, n.Party(e.p), e) else Panic
  }

  ghost function GotAfter(c: Conf, n: Net, e: Event): Handled {
    if e.p in Read(n, e).got then Read(n, e).Got(e.p) else NOTHING_HANDLED
  }

  ghost predicate EventGood(c: Conf, n: Net, p: Pid, got: Handled, o: Outcome) {
    && ValidConf(c) && Shaped(c, n) && p in c.env.ring
    && n.Party(p).me == p
    && GoodStep(c, n.Party(p), SentIn(n.Log(p)), got, o)
  }

  /** No event panics, and what it does at its party is good. */
  lemma EventIsGood(c: Conf, n: Net, e: Event, got': Handled, o: Outcome)
    requires ValidConf(c) && Shaped(c, n) && Enabled(c, n, e)
    requires got' == GotAfter(c, n, e) && o == OutcomeOf(c, n, e)
    requires NetInv(c, n) && PlanFits(c)
    ensures EventGood(c, n, e.p, got', o)
  {
    hide IsRing, PartyInv, Fifo, SentIn, Has, PlanFits, InputsFit, GoodStep, HandleMessage, OnLockPoll,
         OnLeaderSpendPoll, OnRefundPoll, Protocol.Start, PointsFirst, SomeoneCommits, ChainInv, Links, Grounded,
         Parties, MayEmit;
    var p := e.p;
    var s, sent, got := n.Party(p), SentIn(n.Log(p)), n.Got(p);
    PartyAt(c, n, p);
    match e {
      case Starts(_) => StepStart(c, s, sent, got);
      case Delivery(_, from, msg, accepted) =>
        assert InputsFit(c) by { PlanHasInputs(c); }
        NextIsPlanned(c, n, e);
        NextIsTimely(c, n, p, from, KindOf(msg));
        StepMessage(c, s, sent, got, from, KindOf(msg), accepted);
      case LockPoll(_, owner, onChain) =>
        BroadcastWasSent(c, n, p, owner);
        LockMeansOpened(c, n, owner, p);
        StepLockPoll(c, s, sent, got, owner, onChain);
      case LeaderSpendPoll(_, found) =>
        LeaderKnown(c, s, sent, got);
        StepLeaderSpendPoll(c, s, sent, got, found);
      case RefundPoll(_, open, accepted) => StepRefundPoll(c, s, sent, got, open, accepted);
    }
  }

  lemma PlanHasInputs(c: Conf)
    requires PlanFits(c)
    ensures InputsFit(c)
  {
  }
}
