/** The setup cannot hang: starts and deliveries are bounded in number, and when none is left every
    party has been through `Funding`. */
module NetworkProgress {
  import opened Ring
  import opened Protocol
  import opened PartyInvariant
  import opened Network
  import opened NetworkInvariant
  import opened NetworkSteps
  import opened NetworkSafety

  // ---------- nothing left to do ----------

  /** Everybody has started and every message has been handled. */
  ghost predicate Quiescent(c: Conf, n: Net) {
    && Shaped(c, n)
    && forall e: Event {:trigger Enabled(c, n, e)} :: e.Starts? || e.Delivery? ==> !Enabled(c, n, e)
  }

  ghost predicate AllSent(c: Conf, n: Net, k: Kind) {
    && Shaped(c, n)
    && forall p {:trigger n.Log(p)} :: p in c.env.ring ==> In(SentIn(n.Log(p)), k)
  }

  lemma AllStarted(c: Conf, n: Net)
    requires Shaped(c, n) && Quiescent(c, n)
    ensures AllSent(c, n, KPoint)
  {
    hide SentIn;
    forall p {:trigger n.Log(p)} | p in c.env.ring
      ensures In(SentIn(n.Log(p)), KPoint)
    {
      assert !Enabled(c, n, Starts(p));
    }
  }

  /** Whatever is left on a link can be delivered. */
  lemma NextCanBeRead(c: Conf, n: Net, p: Pid, q: Pid)
    requires Shaped(c, n) && p in c.env.ring && q in c.env.ring && q != p
    ensures n.Seen(p, q) < |n.Log(q)| ==> Enabled(c, n, Delivery(p, q, n.Log(q)[n.Seen(p, q)], true))
  {
  }

  lemma AllRead(c: Conf, n: Net, p: Pid, q: Pid, k: Kind)
    requires Shaped(c, n) && Quiescent(c, n) && Links(c, n)
    requires p in c.env.ring && q in c.env.ring && q != p && In(SentIn(n.Log(q)), k)
    ensures Has(n.Got(p), q, k)
  {
    hide SentIn, In, Has, Enabled;
    var read := n.Seen(p, q);
    NextCanBeRead(c, n, p, q);
    assert LinkGood(n.Got(p), q, n.Log(q), read);
    assert read == |n.Log(q)|;
    assert n.Log(q)[..read] == n.Log(q);
  }

  lemma AllOthersRead(c: Conf, n: Net, p: Pid, k: Kind)
    requires Shaped(c, n) && Quiescent(c, n) && Links(c, n) && p in c.env.ring && AllSent(c, n, k)
    ensures forall q {:trigger Has(n.Got(p), q, k)} :: q in c.env.ring && q != p ==> Has(n.Got(p), q, k)
  {
    hide SentIn, In, Has, Links, Quiescent;
    forall q {:trigger Has(n.Got(p), q, k)} | q in c.env.ring && q != p
      ensures Has(n.Got(p), q, k)
    {
      assert In(SentIn(n.Log(q)), k);
      AllRead(c, n, p, q, k);
    }
  }

  // ---------- one phase after the other ----------

  lemma ReadPoints(c: Conf, me: Pid, got: Handled)
    requires forall q {:trigger Has(got, q, KPoint)} :: q in c.env.ring && q != me ==> Has(got, q, KPoint)
    ensures AllOthers(c, me, got.points)
  {
    forall q {:trigger q in got.points} | q in c.env.ring && q != me ensures q in got.points { assert Has(got, q, KPoint); }
  }

  lemma AllCommit(c: Conf, n: Net)
    requires ValidConf(c) && Shaped(c, n)
    requires Quiescent(c, n) && NetInv(c, n)
    ensures AllSent(c, n, KCommitment)
  {
    hide IsRing, PartyInv, Quiescent, SentIn, PointsFirst, ChainInv, Links, Parties, Has;
    AllStarted(c, n);
    forall p {:trigger n.Log(p)} | p in c.env.ring
      ensures HasAllPoints(c, p, n.Log(p), n.Got(p))
    {
      AllOthersRead(c, n, p, KPoint);
      ReadPoints(c, p, n.Got(p));
      assert In(SentIn(n.Log(p)), KPoint);
    }
    assert EveryoneHasAll(c, n);
    var first :| first in c.env.ring && SentIn(n.Log(first)).commitment;
    forall p {:trigger n.Log(p)} | p in c.env.ring
      ensures In(SentIn(n.Log(p)), KCommitment)
    {
      if p != first {
        AllRead(c, n, p, first, KCommitment);
        PartyOf(c, n, p);
        HeardCommits(c, n.Party(p), SentIn(n.Log(p)), n.Got(p), first);
      }
    }
  }

  lemma HeardCommits(c: Conf, s: Session, sent: Sent, got: Handled, q: Pid)
    requires ValidConf(c) && PartyInv(c, s, sent, got) && Has(got, q, KCommitment)
    ensures sent.commitment
  {
    hide IsRing, Fifo, Opened, Funded, PhaseInv, PointsInv, ElectionInv, OpeningInv, MusigInv, NoncesInv, PartialsInv,
         RefundsInv, SpendsInv, LeaderInv, ClaimInv;
  }

  /** What a party has sent when it has handled a kind from all others. */
  ghost predicate AllOfKind(c: Conf, me: Pid, got: Handled, k: Kind) {
    forall q {:trigger Has(got, q, k)} :: q in c.env.ring && q != me ==> Has(got, q, k)
  }

  lemma CommitmentsThenNonce(c: Conf, s: Session, sent: Sent, got: Handled)
    requires ValidConf(c) && PartyInv(c, s, sent, got) && sent.commitment && AllOfKind(c, s.me, got, KCommitment)
    ensures sent.nonce
  {
    hide IsRing, Fifo, Opened, Funded, PhaseInv, PointsInv, ElectionInv, OpeningInv, MusigInv, NoncesInv, PartialsInv,
         RefundsInv, SpendsInv, LeaderInv, ClaimInv;
    forall q {:trigger q in got.commitments} | q in c.env.ring && q != s.me
      ensures q in got.commitments
    {
      assert Has(got, q, KCommitment);
    }
  }

  lemma NoncesThenSchnorr(c: Conf, s: Session, sent: Sent, got: Handled, role: TxRole)
    requires ValidConf(c) && PartyInv(c, s, sent, got) && RoleInRing(c.env, role) && AllOfKind(c, s.me, got, KNonce)
    ensures role in sent.schnorr
  {
    hide IsRing, Fifo, Funded, PhaseInv, PointsInv, ElectionInv, RevealInv, MusigInv, NoncesInv, PartialsInv,
         RefundsInv, SpendsInv, LeaderInv, ClaimInv;
    forall q {:trigger q in got.nonces} | q in c.env.ring && q != s.me
      ensures q in got.nonces
    {
      assert Has(got, q, KNonce);
    }
  }

  lemma SchnorrThenPartial(c: Conf, s: Session, sent: Sent, got: Handled, role: TxRole)
    requires ValidConf(c) && PartyInv(c, s, sent, got) && RoleInRing(c.env, role) && AllOfKind(c, s.me, got, KSchnorr(role))
    ensures role in sent.partials
  {
    hide IsRing, Fifo, Funded, PhaseInv, PointsInv, ElectionInv, RevealInv, OpeningInv, MusigInv, NoncesInv,
         RefundsInv, SpendsInv, LeaderInv, ClaimInv;
    forall q {:trigger (q, role) in got.schnorr} | q in c.env.ring && q != s.me
      ensures (q, role) in got.schnorr
    {
      assert Has(got, q, KSchnorr(role));
    }
    assert Signs(c, s.me, got.schnorr, role);
  }

  lemma PartialsThenFunded(c: Conf, me: Pid, got: Handled)
    requires forall role {:trigger KPartial(role)} :: RoleInRing(c.env, role) ==> AllOfKind(c, me, got, KPartial(role))
    ensures Funded(c, me, got.partials)
  {
    forall role {:trigger Finalized(c, me, got.partials, role)} | RoleInRing(c.env, role)
      ensures Finalized(c, me, got.partials, role)
    {
      assert AllOfKind(c, me, got, KPartial(role));
      forall q {:trigger (q, role) in got.partials} | q in c.env.ring && q != me
        ensures (q, role) in got.partials
      {
        assert Has(got, q, KPartial(role));
      }
    }
  }

  lemma AllReveal(c: Conf, n: Net)
    requires ValidConf(c) && Shaped(c, n)
    requires Quiescent(c, n) && NetInv(c, n)
    ensures AllSent(c, n, KNonce)
  {
    hide IsRing, PartyInv, Quiescent, SentIn, PointsFirst, SomeoneCommits, ChainInv, Links, Parties, Has, Grounded,
         MayEmit;
    AllCommit(c, n);
    forall p {:trigger n.Log(p)} | p in c.env.ring
      ensures In(SentIn(n.Log(p)), KNonce)
    {
      AllOthersRead(c, n, p, KCommitment);
      PartyOf(c, n, p);
      assert In(SentIn(n.Log(p)), KCommitment);
      CommitmentsThenNonce(c, n.Party(p), SentIn(n.Log(p)), n.Got(p));
    }
  }

  lemma AllSchnorr(c: Conf, n: Net, role: TxRole)
    requires ValidConf(c) && Shaped(c, n) && RoleInRing(c.env, role)
    requires Quiescent(c, n) && NetInv(c, n)
    ensures AllSent(c, n, KSchnorr(role))
  {
    hide IsRing, PartyInv, Quiescent, SentIn, PointsFirst, SomeoneCommits, ChainInv, Links, Parties, Has, Grounded,
         MayEmit;
    AllReveal(c, n);
    forall p {:trigger n.Log(p)} | p in c.env.ring
      ensures In(SentIn(n.Log(p)), KSchnorr(role))
    {
      AllOthersRead(c, n, p, KNonce);
      PartyOf(c, n, p);
      NoncesThenSchnorr(c, n.Party(p), SentIn(n.Log(p)), n.Got(p), role);
    }
  }

  lemma AllPartial(c: Conf, n: Net, role: TxRole)
    requires ValidConf(c) && Shaped(c, n) && RoleInRing(c.env, role)
    requires Quiescent(c, n) && NetInv(c, n)
    ensures AllSent(c, n, KPartial(role))
  {
    hide IsRing, PartyInv, Quiescent, SentIn, PointsFirst, SomeoneCommits, ChainInv, Links, Parties, Has, Grounded,
         MayEmit;
    AllSchnorr(c, n, role);
    forall p {:trigger n.Log(p)} | p in c.env.ring
      ensures In(SentIn(n.Log(p)), KPartial(role))
    {
      AllOthersRead(c, n, p, KSchnorr(role));
      PartyOf(c, n, p);
      SchnorrThenPartial(c, n.Party(p), SentIn(n.Log(p)), n.Got(p), role);
    }
  }

  /** No party stalls: when nothing is left to start or deliver, everybody has funded. */
  lemma NobodyStalls(c: Conf, n: Net, p: Pid)
    requires ValidConf(c) && Shaped(c, n) && p in c.env.ring
    requires Quiescent(c, n) && PlanFits(c) && Reachable(c, n)
    ensures Funding in n.Party(p).history
  {
    hide IsRing, PartyInv, Quiescent, SentIn, PointsFirst, SomeoneCommits, ChainInv, Links, Parties, Has, Grounded,
         MayEmit, Funded, PlanFits, Reachable, AllOfKind, GoodHistory;
    ReachableInv(c, n);
    forall role {:trigger KPartial(role)} | RoleInRing(c.env, role)
      ensures AllOfKind(c, p, n.Got(p), KPartial(role))
    {
      AllPartial(c, n, role);
      OthersOfKind(c, n, p, KPartial(role));
    }
    PartialsThenFunded(c, p, n.Got(p));
    PartyOf(c, n, p);
    PartyPhases(c, n.Party(p), SentIn(n.Log(p)), n.Got(p));
  }

  lemma OthersOfKind(c: Conf, n: Net, p: Pid, k: Kind)
    requires Shaped(c, n) && Quiescent(c, n) && Links(c, n) && p in c.env.ring && AllSent(c, n, k)
    ensures AllOfKind(c, p, n.Got(p), k)
  {
    hide SentIn, In, Has, Links, Quiescent, AllSent;
    AllOthersRead(c, n, p, k);
  }

  // ---------- only finitely much to do ----------

  function B(b: bool): nat { if b then 1 else 0 }

  /** How many kinds have been sent. */
  function Size(sent: Sent): nat {
    Flags(sent) + |sent.schnorr| + |sent.partials|
  }

  function Flags(sent: Sent): nat {
    B(sent.point) + B(sent.commitment) + B(sent.nonce) + B(sent.lock) + B(sent.secret) + B(sent.spend)
  }

  lemma SizeAdds(sent: Sent, k: Kind)
    requires !In(sent, k)
    ensures Size(Add(sent, k)) == Size(sent) + 1
  {
    if k.KSchnorr? || k.KPartial? {
      hide B;
      assert Flags(Add(sent, k)) == Flags(sent);
    } else {
      FlagsAdd(sent, k);
    }
  }

  lemma FlagsAdd(sent: Sent, k: Kind)
    requires !In(sent, k) && !k.KSchnorr? && !k.KPartial?
    ensures Flags(Add(sent, k)) == Flags(sent) + 1
    ensures Add(sent, k).schnorr == sent.schnorr && Add(sent, k).partials == sent.partials
  {
  }

  lemma {:induction false} LogSize(c: Conf, p: Pid, log: seq<WireMessage>)
    requires ValidConf(c) && p in c.env.ring && MayEmit(c, p, NOTHING_SENT, log)
    ensures |log| == Size(SentIn(log))
    ensures forall r {:trigger r in SentIn(log).schnorr} :: r in SentIn(log).schnorr ==> RoleInRing(c.env, r)
    ensures forall r {:trigger r in SentIn(log).partials} :: r in SentIn(log).partials ==> RoleInRing(c.env, r)
  {
    hide IsRing, Size, TheMessage, LowerRanksSent, Add, After, KindOf, In, MayEmit;
    if log == [] {
      NothingHasSize();
      AfterNothing(NOTHING_SENT);
    } else {
      var n := |log| - 1;
      EmitLast(c, p, NOTHING_SENT, log);
      LogSize(c, p, log[..n]);
      AfterLast(NOTHING_SENT, log);
      SizeAdds(SentIn(log[..n]), KindOf(log[n]));
      RolesAdd(c, SentIn(log[..n]), KindOf(log[n]));
    }
  }

  lemma RolesAdd(c: Conf, sent: Sent, k: Kind)
    requires ValidKind(c, k)
    requires forall r {:trigger r in sent.schnorr} :: r in sent.schnorr ==> RoleInRing(c.env, r)
    requires forall r {:trigger r in sent.partials} :: r in sent.partials ==> RoleInRing(c.env, r)
    ensures forall r {:trigger r in Add(sent, k).schnorr} :: r in Add(sent, k).schnorr ==> RoleInRing(c.env, r)
    ensures forall r {:trigger r in Add(sent, k).partials} :: r in Add(sent, k).partials ==> RoleInRing(c.env, r)
  {
  }

  lemma NothingHasSize()
    ensures Size(NOTHING_SENT) == 0
  {
  }

  /** There are 2N roles. */
  lemma RolesCount(c: Conf, roles: set<TxRole>)
    requires forall r {:trigger r in roles} :: r in roles ==> RoleInRing(c.env, r)
    ensures |roles| <= 2 * |c.env.ring|
  {
    var all := AllRoles(c.env);
    var allSet := set r | r in all;
    DistinctLength(all, allSet);
    SortedKeysLength(c.env.ring.Keys);
    assert |c.env.ring.Keys| == |c.env.ring|;
    assert roles <= allSet;
    SubsetIsSmaller(roles, allSet);
  }

  lemma {:induction false} SubsetIsSmaller<T>(a: set<T>, b: set<T>)
    requires a <= b
    ensures |a| <= |b|
  {
    assert |b| == |a| + |b - a|;
  }

  /** At most this many broadcasts per party. */
  function MaxLog(c: Conf): nat { 4 * |c.env.ring| + 5 }

  lemma SecretOrSpend(c: Conf, s: Session, sent: Sent, got: Handled)
    requires ValidConf(c) && PartyInv(c, s, sent, got)
    ensures !(sent.secret && sent.spend)
  {
    hide IsRing, Fifo, Opened, Funded, PhaseInv, PointsInv, ElectionInv, RevealInv, OpeningInv, MusigInv, NoncesInv,
         PartialsInv, RefundsInv, SpendsInv, LeaderInv, AllOthers;
  }

  lemma LogStaysShort(c: Conf, n: Net, p: Pid)
    requires ValidConf(c) && Shaped(c, n) && p in c.env.ring
    requires NetInv(c, n)
    ensures |n.Log(p)| <= MaxLog(c)
  {
    hide IsRing, PartyInv, SentIn, MayEmit, PointsFirst, SomeoneCommits, ChainInv, Links, Parties, Grounded;
    PartyOf(c, n, p);
    LogSize(c, p, n.Log(p));
    SecretOrSpend(c, n.Party(p), SentIn(n.Log(p)), n.Got(p));
    RolesCount(c, SentIn(n.Log(p)).schnorr);
    RolesCount(c, SentIn(n.Log(p)).partials);
  }

  /** Every party broadcasts at most 4N + 5 messages. */
  lemma LogIsBounded(c: Conf, n: Net, p: Pid)
    requires ValidConf(c) && PlanFits(c) && Reachable(c, n) && Shaped(c, n) && p in c.env.ring
    ensures |n.Log(p)| <= 4 * |c.env.ring| + 5
  {
    hide IsRing, Reachable, PlanFits, Parties, Links, PointsFirst, SomeoneCommits, ChainInv, Grounded;
    ReachableInv(c, n);
    LogStaysShort(c, n, p);
  }

  /** The deliveries that may still happen, one per link and position. */
  ghost function Undelivered(c: Conf, n: Net): set<(Pid, Pid, nat)> {
    set p, q, i: nat | p in c.env.ring && q in c.env.ring && q != p && n.Seen(p, q) <= i < MaxLog(c) :: (p, q, i)
  }

  ghost function Unstarted(c: Conf, n: Net): set<Pid> {
    set p | p in c.env.ring && p in n.log && !SentIn(n.Log(p)).point
  }

  /** What is left to start and to deliver. */
  ghost function Work(c: Conf, n: Net): nat {
    |Undelivered(c, n)| + |Unstarted(c, n)|
  }

  lemma ProperSubsetIsSmaller<T>(a: set<T>, b: set<T>)
    requires a < b
    ensures |a| < |b|
  {
    assert |b| == |a| + |b - a|;
    assert b - a != {};
  }

  lemma DeliveryShrinks(c: Conf, n: Net, n': Net, p: Pid, from: Pid)
    requires Shaped(c, n) && Shaped(c, n') && p in c.env.ring && from in c.env.ring && from != p
    requires n'.seen == n.seen[(p, from) := n.Seen(p, from) + 1] && n.Seen(p, from) < MaxLog(c)
    ensures Undelivered(c, n') < Undelivered(c, n)
  {
    hide MaxLog;
    var read := n.Seen(p, from);
    assert (p, from, read) in Undelivered(c, n) && (p, from, read) !in Undelivered(c, n');
  }

  lemma UnstartedShrinks(c: Conf, n: Net, n': Net, p: Pid)
    requires Shaped(c, n) && Shaped(c, n') && Grows(c, n, n', p)
    ensures Unstarted(c, n') <= Unstarted(c, n)
  {
    hide SentIn, Grows;
    forall q | q in Unstarted(c, n')
      ensures q in Unstarted(c, n)
    {
      if SentIn(n.Log(q)).point {
        Monotone(c, n, n', p, q, KPoint);
      }
    }
  }

  lemma StepGrows(c: Conf, n: Net, e: Event, got': Handled, o: Outcome, n': Net)
    requires ValidConf(c) && Shaped(c, n) && Enabled(c, n, e) && Shaped(c, n')
    requires got' == GotAfter(c, n, e) && o == OutcomeOf(c, n, e) && n' == Step(c, n, e)
    requires PlanFits(c) && NetInv(c, n)
    ensures o.Ok? && Happens(c, n, e, got', o, n') && Grows(c, n, n', e.p) && MayEmit(c, e.p, SentIn(n.Log(e.p)), o.out)
  {
    hide IsRing, PartyInv, SentIn, MayEmit, PointsFirst, SomeoneCommits, ChainInv, Links, Parties, Grounded, PlanFits,
         Handle, With, EventGood, Happens;
    EventIsGood(c, n, e, got', o);
    GoodIsOk(c, n, e.p, got', o);
    StepHappens(c, n, e, got', o, n');
    HappensGrows(c, n, e, got', o, n');
  }

  lemma StepUsesWork(c: Conf, n: Net, e: Event, n': Net)
    requires ValidConf(c) && Shaped(c, n) && Enabled(c, n, e) && n' == Step(c, n, e) && Shaped(c, n')
    requires PlanFits(c) && NetInv(c, n)
    ensures Work(c, n') <= Work(c, n)
    ensures e.Starts? || e.Delivery? ==> Work(c, n') < Work(c, n)
  {
    hide IsRing, PartyInv, SentIn, MayEmit, PointsFirst, SomeoneCommits, ChainInv, Links, Parties, Grounded, PlanFits,
         Handle, With, Undelivered, Unstarted, Grows, MaxLog;
    var got', o := GotAfter(c, n, e), OutcomeOf(c, n, e);
    StepGrows(c, n, e, got', o, n');
    UnstartedShrinks(c, n, n', e.p);
    SubsetIsSmaller(Unstarted(c, n'), Unstarted(c, n));
    match e {
      case Delivery(p, from, msg, _) =>
        LogStaysShort(c, n, from);
        DeliveryShrinks(c, n, n', p, from);
        ProperSubsetIsSmaller(Undelivered(c, n'), Undelivered(c, n));
      case Starts(p) =>
        StartShrinks(c, n, e, got', o, n');
        SameUndelivered(c, n, n');
        ProperSubsetIsSmaller(Unstarted(c, n'), Unstarted(c, n));
      case _ => SameUndelivered(c, n, n');
    }
  }

  /** Starts and deliveries use up work; polls never add any. */
  lemma WorkShrinks(c: Conf, n: Net, e: Event, n': Net)
    requires ValidConf(c) && PlanFits(c) && Reachable(c, n)
    requires Shaped(c, n) && Enabled(c, n, e) && n' == Step(c, n, e) && Shaped(c, n')
    ensures Work(c, n') <= Work(c, n)
    ensures e.Starts? || e.Delivery? ==> Work(c, n') < Work(c, n)
  {
    hide IsRing, Reachable, PlanFits, Parties, Links, PointsFirst, SomeoneCommits, ChainInv, Grounded, Step, Enabled, Work;
    ReachableInv(c, n);
    StepUsesWork(c, n, e, n');
  }

  /** The starts and deliveries of a schedule. */
  function SetupEvents(es: seq<Event>): nat {
    if es == [] then 0
    else SetupEvents(es[..|es| - 1]) + B(es[|es| - 1].Starts? || es[|es| - 1].Delivery?)
  }

  /** Positions up to `k` on the links from `b` to `a`. */
  ghost function Positions(a: set<Pid>, b: set<Pid>, k: nat): set<(Pid, Pid, nat)> {
    set p, q, i: nat | p in a && q in b && i < k :: (p, q, i)
  }

  lemma {:induction false} LinkCount(p: Pid, q: Pid, k: nat)
    ensures |Positions({p}, {q}, k)| <= k
  {
    if k == 0 {
      assert Positions({p}, {q}, k) == {};
    } else {
      LinkCount(p, q, k - 1);
      assert Positions({p}, {q}, k) == Positions({p}, {q}, k - 1) + {(p, q, k - 1)};
    }
  }

  lemma {:induction false} ReaderCount(p: Pid, b: set<Pid>, k: nat)
    ensures |Positions({p}, b, k)| <= |b| * k
  {
    if b == {} {
      assert Positions({p}, b, k) == {};
    } else {
      var q :| q in b;
      LinkCount(p, q, k);
      ReaderCount(p, b - {q}, k);
      assert Positions({p}, b, k) == Positions({p}, {q}, k) + Positions({p}, b - {q}, k);
      Distributes(|b - {q}|, k);
    }
  }

  lemma {:induction false} PositionsCount(a: set<Pid>, b: set<Pid>, k: nat)
    ensures |Positions(a, b, k)| <= |a| * (|b| * k)
  {
    if a == {} {
      assert Positions(a, b, k) == {};
    } else {
      var p :| p in a;
      ReaderCount(p, b, k);
      PositionsCount(a - {p}, b, k);
      assert Positions(a, b, k) == Positions({p}, b, k) + Positions(a - {p}, b, k);
      Distributes(|a - {p}|, |b| * k);
    }
  }

  lemma Distributes(x: nat, y: nat)
    ensures (x + 1) * y == y + x * y
  {
  }

  /** The work of a whole setup: N starts, and a log on each link. */
  lemma InitialWork(c: Conf)
    requires ValidConf(c)
    ensures Work(c, Initial(c)) <= |c.env.ring| + |c.env.ring| * (|c.env.ring| * MaxLog(c))
  {
    hide IsRing, SentIn, MaxLog;
    var ring := c.env.ring.Keys;
    PositionsCount(ring, ring, MaxLog(c));
    SubsetIsSmaller(Undelivered(c, Initial(c)), Positions(ring, ring, MaxLog(c)));
    SubsetIsSmaller(Unstarted(c, Initial(c)), ring);
  }

  ghost predicate WithinWork(c: Conf, n: Net, done: nat, total: nat) {
    Shaped(c, n) && done + Work(c, n) <= total
  }

  /** Every run has boundedly many starts and deliveries, whatever polls happen in between: each uses
      up some of the work there was at the beginning. */
  lemma {:induction false} RunIsBounded(c: Conf, ns: seq<Net>, es: seq<Event>, i: nat, total: nat)
    requires ValidConf(c) && total == Work(c, Initial(c)) && i <= |es| && |ns| == |es| + 1
    requires PlanFits(c) && IsRun(c, ns, es)
    ensures WithinWork(c, ns[i], SetupEvents(es[..i]), total)
  {
    hide IsRing, PlanFits, Step, Enabled, Shaped, Work, Initial, Parties, Links, PointsFirst, SomeoneCommits, ChainInv;
    if i == 0 {
      assert es[..0] == [];
    } else {
      RunIsBounded(c, ns, es, i - 1, total);
      assert Follows(c, ns[i - 1], es[i - 1], ns[i]);
      RunInv(c, ns, es, i - 1);
      RunInv(c, ns, es, i);
      StepUsesWork(c, ns[i - 1], es[i - 1], ns[i]);
      assert es[..i][..i - 1] == es[..i - 1];
    }
  }

  /** In whatever order things happen, a run of N parties has at most N + N * N * (4N + 5) starts and
      deliveries. */
  lemma RunIsFinite(c: Conf, ns: seq<Net>, es: seq<Event>)
    requires ValidConf(c) && PlanFits(c) && |ns| == |es| + 1 && IsRun(c, ns, es)
    ensures SetupEvents(es) <= |c.env.ring| + |c.env.ring| * (|c.env.ring| * (4 * |c.env.ring| + 5))
  {
    hide IsRing, PlanFits, Step, IsRun, Work, Initial;
    RunIsBounded(c, ns, es, |es|, Work(c, Initial(c)));
    InitialWork(c);
    assert es[..|es|] == es;
  }

  lemma SameUndelivered(c: Conf, n: Net, n': Net)
    requires Shaped(c, n) && Shaped(c, n') && n'.seen == n.seen
    ensures Undelivered(c, n') == Undelivered(c, n)
  {
  }

  lemma StartShrinks(c: Conf, n: Net, e: Event, got': Handled, o: Outcome, n': Net)
    requires Happens(c, n, e, got', o, n') && Grows(c, n, n', e.p) && e.Starts?
    requires ValidConf(c) && o == OutcomeOf(c, n, e) && NetInv(c, n) && MayEmit(c, e.p, SentIn(n.Log(e.p)), o.out)
    ensures Unstarted(c, n') < Unstarted(c, n)
  {
    hide IsRing, PartyInv, PointsFirst, SomeoneCommits, ChainInv, Links, Grounded, MayEmit, SentIn, Grows, With;
    var p := e.p;
    LogAfter(c, n, e, got', o, n');
    assert o.out == [AdaptorPoint(n.Party(p).points[n.Party(p).me])];
    AfterOne(SentIn(n.Log(p)), o.out[0]);
    UnstartedShrinks(c, n, n', p);
    assert p in Unstarted(c, n) && p !in Unstarted(c, n');
  }
}
