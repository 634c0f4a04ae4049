/** Every event keeps the invariant of the network, so every schedule does. */
module NetworkSteps {
  import opened Ring
  import opened Protocol
  import opened PartyInvariant
  import opened PartySteps
  import opened ClaimSteps
  import opened Handling
  import opened Effects
  import opened Network
  import opened NetworkInvariant

  /** `n'` follows `n` when event `e` has outcome `o` at its party, which has then handled `got'`. */
  ghost predicate Happens(c: Conf, n: Net, e: Event, got': Handled, o: Outcome, n': Net) {
    && Shaped(c, n) && Shaped(c, n') && Enabled(c, n, e) && o.Ok? && n'.crashed == n.crashed
    && n'.party == n.party[e.p := o.session] && n'.log == n.log[e.p := n.Log(e.p) + o.out]
    && n'.got == n.got[e.p := got'] && n'.submitted == n.submitted[e.p := n.Submitted(e.p) + o.submitted]
    && n'.onChain == (if LockTxBroadcast in o.out then n.onChain + {e.p} else n.onChain)
    && (!e.Delivery? ==> got' == n.Got(e.p) && n'.seen == n.seen)
    && (e.Delivery? ==>
          && got' == With(n.Got(e.p), e.from, KindOf(e.msg))
          && n'.seen == n.seen[(e.p, e.from) := n.Seen(e.p, e.from) + 1])
  }

  lemma StepHappens(c: Conf, n: Net, e: Event, got': Handled, o: Outcome, n': Net)
    requires Shaped(c, n) && Enabled(c, n, e) && got' == GotAfter(c, n, e) && o.Ok? && n' == Put(Read(n, e), e.p, o)
    ensures Happens(c, n, e, got', o, n') && Shaped(c, n') && n'.crashed == n.crashed
  {
    hide With;
    assert n.got == n.got[e.p := n.Got(e.p)];
  }

  lemma LinksKept(c: Conf, n: Net, e: Event, got': Handled, o: Outcome, n': Net)
    requires Happens(c, n, e, got', o, n') && Links(c, n)
    ensures Links(c, n')
  {
    hide IsRing, Handle, With, Tracks, SentIn;
    forall x, q {:trigger n'.Seen(x, q)} | x in c.env.ring && q in c.env.ring && q != x
      ensures LinkGood(n'.Got(x), q, n'.Log(q), n'.Seen(x, q))
    {
      var read := n.Seen(x, q);
      assert LinkGood(n.Got(x), q, n.Log(q), read);
      assert n'.Log(q)[..read] == n.Log(q)[..read];
      if e.Delivery? && x == e.p {
        if q == e.from {
          TracksNext(n.Got(x), q, n.Log(q), read);
          assert n'.Log(q) == n.Log(q);
        } else {
          TracksOther(n.Got(x), e.from, KindOf(e.msg), q, SentIn(n.Log(q)[..read]));
        }
      }
    }
  }

  lemma PartiesKept(c: Conf, n: Net, e: Event, got': Handled, o: Outcome, n': Net)
    requires Happens(c, n, e, got', o, n') && ValidConf(c) && EventGood(c, n, e.p, got', o)
    requires Grounded(c, e.p, After(SentIn(n.Log(e.p)), o.out).commitment, got'.points, got'.commitments)
    requires Parties(c, n)
    ensures Parties(c, n')
  {
    hide IsRing, Handle, With, PartyInv, Grounded, After, MayEmit, Parties;
    PartyAt(c, n, e.p);
    LogGrows(c, e.p, n.Log(e.p), o.out);
    forall q {:trigger n'.Party(q)} | q in c.env.ring
      ensures PartyGood(c, q, n'.Party(q), n'.Log(q), n'.Got(q))
    {
      if q != e.p {
        PartyAt(c, n, q);
      }
    }
    PartiesFrom(c, n');
  }

  lemma PartiesFrom(c: Conf, n: Net)
    requires ValidConf(c) && Shaped(c, n)
    requires forall q {:trigger n.Party(q)} :: q in c.env.ring ==> PartyGood(c, q, n.Party(q), n.Log(q), n.Got(q))
    ensures Parties(c, n)
  {
    hide IsRing, PartyGood;
  }

  /** Logs only grow, and only one of them in one event. */
  ghost predicate Grows(c: Conf, n: Net, n': Net, p: Pid) {
    && Shaped(c, n) && Shaped(c, n')
    && forall q {:trigger n'.Log(q)} :: q in c.env.ring ==> n.Log(q) <= n'.Log(q) && (q != p ==> n'.Log(q) == n.Log(q))
  }

  lemma HappensGrows(c: Conf, n: Net, e: Event, got': Handled, o: Outcome, n': Net)
    requires Happens(c, n, e, got', o, n')
    ensures Grows(c, n, n', e.p)
  {
    hide With;
  }

  lemma Monotone(c: Conf, n: Net, n': Net, p: Pid, q: Pid, k: Kind)
    requires Shaped(c, n) && Shaped(c, n') && q in c.env.ring && Grows(c, n, n', p) && In(SentIn(n.Log(q)), k)
    ensures In(SentIn(n'.Log(q)), k)
  {
    hide SentIn, In;
    assert n'.Log(q)[..|n.Log(q)|] == n.Log(q);
    PrefixSent(n'.Log(q), |n.Log(q)|, k);
  }

  lemma PointsStayOut(c: Conf, n: Net, n': Net, p: Pid)
    requires Shaped(c, n) && Shaped(c, n') && Grows(c, n, n', p) && AllPointsOut(c, n)
    ensures AllPointsOut(c, n')
  {
    hide SentIn, Grows;
    forall q {:trigger n'.Log(q)} | q in c.env.ring
      ensures SentIn(n'.Log(q)).point
    {
      assert SentIn(n.Log(q)).point;
      Monotone(c, n, n', p, q, KPoint);
    }
  }

  /** Nobody commits before all points are out, in the next state either. */
  lemma PointsFirstKept(c: Conf, n: Net, n': Net, p: Pid)
    requires Shaped(c, n) && Shaped(c, n') && Grows(c, n, n', p) && p in c.env.ring
    requires ValidConf(c) && PointsFirst(c, n) && Parties(c, n') && Links(c, n')
    ensures PointsFirst(c, n')
  {
    hide IsRing, PartyInv, Parties, PartyGood, Links, AllPointsOut, SentIn;
    forall q {:trigger n'.Log(q)} | q in c.env.ring && SentIn(n'.Log(q)).commitment
      ensures AllPointsOut(c, n')
    {
      if q == p {
        CommitmentMeansPoints(c, n, n', p);
      } else {
        assert SentIn(n.Log(q)).commitment;
        PointsStayOut(c, n, n', p);
      }
    }
  }

  /** Whoever has committed knows the points of all, or a committed peer. */
  lemma CommitmentMeansPoints(c: Conf, n: Net, n': Net, p: Pid)
    requires Shaped(c, n) && Shaped(c, n') && p in c.env.ring && Grows(c, n, n', p)
    requires ValidConf(c) && PointsFirst(c, n) && Parties(c, n') && Links(c, n') && SentIn(n'.Log(p)).commitment
    ensures AllPointsOut(c, n')
  {
    hide IsRing, PartyInv, Links, SentIn, AllPointsOut, Grows, Has, In, AllOthers;
    var got := n'.Got(p);
    assert PartyGood(c, p, n'.Party(p), n'.Log(p), got);
    CommittedHasPoint(c, n'.Party(p), SentIn(n'.Log(p)), got);
    if AllOthers(c, p, got.points) {
      AllHandledPoints(c, n', p);
    } else {
      var q0 :| q0 in got.commitments;
      CommitterSeen(c, n, n', p, q0);
    }
  }

  lemma AllHandledPoints(c: Conf, n: Net, p: Pid)
    requires ValidConf(c) && Shaped(c, n) && p in c.env.ring && Links(c, n)
    requires SentIn(n.Log(p)).point && AllOthers(c, p, n.Got(p).points)
    ensures AllPointsOut(c, n)
  {
    hide IsRing, Links, SentIn;
    forall q {:trigger n.Log(q)} | q in c.env.ring
      ensures SentIn(n.Log(q)).point
    {
      if q != p {
        assert q in n.Got(p).points;
        HandledWasSent(c, n, p, q, KPoint);
      }
    }
  }

  lemma CommitterSeen(c: Conf, n: Net, n': Net, p: Pid, q0: Pid)
    requires Shaped(c, n) && Shaped(c, n') && p in c.env.ring && q0 in c.env.ring && q0 != p && Grows(c, n, n', p)
    requires q0 in n'.Got(p).commitments && ValidConf(c) && Links(c, n') && PointsFirst(c, n)
    ensures AllPointsOut(c, n')
  {
    hide IsRing, Links, SentIn, AllPointsOut;
    HandledWasSent(c, n', p, q0, KCommitment);
    assert n'.Log(q0) == n.Log(q0) && SentIn(n.Log(q0)).commitment;
    PointsStayOut(c, n, n', p);
  }

  lemma CommittedHasPoint(c: Conf, s: Session, sent: Sent, got: Handled)
    requires ValidConf(c) && PartyInv(c, s, sent, got)
    ensures sent.commitment ==> sent.point
    ensures forall q {:trigger q in got.commitments} :: q in got.commitments ==> q in c.env.ring && q != s.me
  {
    hide IsRing, PointsInv, ElectionInv, OpeningInv, MusigInv, NoncesInv, PartialsInv, RefundsInv, SpendsInv,
         PhaseInv, ClaimInv, LeaderInv;
  }

  // ---------- why a party commits ----------

  lemma AfterOne(sent: Sent, m: WireMessage)
    ensures After(sent, [m]) == Add(sent, KindOf(m)) && After(sent, []) == sent
  {
    assert [m][..0] == [];
  }

  lemma PointOut(env: Env, s: Session, point: Point, from: Pid, draw: Draw)
    ensures OnAdaptorPoint(env, s, point, from, draw).Ok?
    ensures OnAdaptorPoint(env, s, point, from, draw).out
         == if HasAll(env.ring, s.points[from := point]) && s.state == AwaitingAdaptorPoints && s.me !in s.leaderCommitments
            then [LeaderElectionCommitment(env.sha256(draw.leaderNonce))] else []
  {
    hide HasAll, StartElection;
    var o := OnAdaptorPoint(env, s, point, from, draw);
    var s1 := s.(points := s.points[from := point]);
    var s2 := s1.TransitionTo(AwaitingLeaderElectionCommitments);
    if HasAll(env.ring, s1.points) && s1.state == AwaitingAdaptorPoints {
      if s.me in s.leaderCommitments {
        assert o == Ok(s2, [], []);
      } else {
        assert o == Ok(StartElection(env, s2, draw), [LeaderElectionCommitment(env.sha256(draw.leaderNonce))], []);
      }
    } else {
      assert o == Ok(s1, [], []);
    }
  }

  /** An adaptor point makes the party commit exactly when it is the last one and the session has
      started. */
  lemma PointCommits(c: Conf, s: Session, sent: Sent, got: Handled, from: Pid, o: Outcome)
    requires Delivers(c, s, sent, got, from, KPoint)
    requires o == OnAdaptorPoint(c.env, s, c.tape(from).point, from, c.tape(s.me).draw)
    ensures o.Ok? && After(sent, o.out).point == sent.point
    ensures After(sent, o.out).commitment <==> sent.commitment || (sent.point && AllOthers(c, s.me, With(got, from, KPoint).points))
  {
    hide MusigInv, NoncesInv, PartialsInv, RefundsInv, SpendsInv, PhaseInv, ClaimInv, LeaderInv, Opened, Funded, Fifo,
         IsRing, OnAdaptorPoint, After, HasAll;
    NotFundedBefore(c, s, sent, got, from, KPoint);
    NoCommitmentYet(c, s.me, sent, got);
    var points, got' := s.points[from := c.tape(from).point], With(got, from, KPoint).points;
    assert PointsInv(c, s.me, points, got');
    PointsComplete(c, s.me, points, got');
    PointOut(c.env, s, c.tape(from).point, from, c.tape(s.me).draw);
    AfterOne(sent, LeaderElectionCommitment(c.env.sha256(c.tape(s.me).draw.leaderNonce)));
  }

  lemma PointsComplete(c: Conf, me: Pid, points: map<Pid, Point>, got: set<Pid>)
    requires ValidConf(c) && me in c.env.ring && PointsInv(c, me, points, got)
    ensures HasAll(c.env.ring, points) <==> AllOthers(c, me, got)
  {
    hide IsRing;
    assert forall q {:trigger q in got} :: q in c.env.ring && q != me ==> (q in got <==> q in points);
  }

  /** Starts and polls do not broadcast commitments, and only a start broadcasts the point. */
  lemma PollsKeepElection(c: Conf, s: Session, e: Event, sent: Sent, o: Outcome)
    requires IsRing(c.env.ring) && e.p in c.env.ring && !e.Delivery? && o == Handle(c, s, e) && o.Ok?
    ensures After(sent, o.out).commitment == sent.commitment
    ensures !e.Starts? ==> After(sent, o.out).point == sent.point
  {
    hide IsRing, After, AllConfirmed, AdaptMySpend, SpendSubmission;
    AfterOne(sent, SpendTxBroadcast);
    match e {
      case Starts(p) =>
        if s.me in s.points {
          AfterOne(sent, AdaptorPoint(s.points[s.me]));
        }
      case LockPoll(p, owner, onChain) =>
        if s.me in s.secrets {
          AfterOne(sent, SecretReveal(s.secrets[s.me]));
        }
        if s.leader != Some(s.me) {} else {}
      case LeaderSpendPoll(p, found) =>
        if s.leader.Some? && found.Some? {
          AdaptFrame(s.(secrets := s.secrets[s.leader.value := found.value]), found.value);
        }
      case RefundPoll(p, open, accepted) =>
    }
  }

  lemma MoreHandled(c: Conf, me: Pid, commitment: bool, got: Handled, from: Pid, k: Kind)
    requires Grounded(c, me, commitment, got.points, got.commitments)
    ensures Grounded(c, me, commitment, With(got, from, k).points, With(got, from, k).commitments)
  {
    if AllOthers(c, me, got.points) {
      forall q {:trigger q in With(got, from, k).points} | q in c.env.ring && q != me
        ensures q in With(got, from, k).points
      {
        assert q in got.points;
      }
    } else if commitment {
      var q :| q in got.commitments;
      assert q in With(got, from, k).commitments;
    }
  }

  lemma LaterMeansCommitted(c: Conf, me: Pid, got: Handled, from: Pid, k: Kind)
    requires Fifo(c, me, With(got, from, k)) && 0 < Rank(k) && ValidKind(c, k)
    ensures from in With(got, from, k).commitments
  {
  }

  /** The commitment of a party after an event still has its reason. */
  lemma GroundedAfter(c: Conf, n: Net, e: Event, got': Handled, o: Outcome)
    requires ValidConf(c) && Shaped(c, n) && Enabled(c, n, e)
    requires got' == GotAfter(c, n, e) && o == OutcomeOf(c, n, e) && o.Ok?
    requires InputsFit(c) && NetInv(c, n)
    ensures Grounded(c, e.p, After(SentIn(n.Log(e.p)), o.out).commitment, got'.points, got'.commitments)
    ensures e.Delivery? && e.msg.AdaptorPoint? && After(SentIn(n.Log(e.p)), o.out).point && AllOthers(c, e.p, got'.points) ==>
              After(SentIn(n.Log(e.p)), o.out).commitment
  {
    hide IsRing, PartyInv, SentIn, With, After, Grounded, InputsFit, Fifo, Links, PointsFirst, SomeoneCommits,
         ChainInv, HandleMessage, OnLockPoll, OnLeaderSpendPoll, OnRefundPoll, Protocol.Start, AllOthers;
    var p := e.p;
    var s, sent, got := n.Party(p), SentIn(n.Log(p)), n.Got(p);
    assert PartyGood(c, p, s, n.Log(p), got);
    if e.Delivery? {
      var k := KindOf(e.msg);
      NextIsPlanned(c, n, e);
      DeliveryGrounds(c, s, sent, got, e.from, e.msg, k, o, e.accepted);
    } else {
      PollsKeepElection(c, s, e, sent, o);
    }
  }

  lemma DeliveryGrounds(c: Conf, s: Session, sent: Sent, got: Handled, from: Pid, msg: WireMessage, k: Kind, o: Outcome, accepted: bool)
    requires Delivers(c, s, sent, got, from, k) && msg == TheMessage(c, from, k) && k == KindOf(msg)
    requires o == HandleMessage(c.env, s, msg, from, c.tape(s.me).draw, accepted) && o.Ok?
    requires Grounded(c, s.me, sent.commitment, got.points, got.commitments)
    ensures Grounded(c, s.me, After(sent, o.out).commitment, With(got, from, k).points, With(got, from, k).commitments)
    ensures k.KPoint? && After(sent, o.out).point && AllOthers(c, s.me, With(got, from, k).points) ==> After(sent, o.out).commitment
  {
    hide IsRing, PartyInv, With, After, Fifo, AllOthers, InputsFit, OnAdaptorPoint, OnCommitment, OnLeaderNonce,
         OnSchnorrNonce, OnPartialSignature, OnSecretReveal, GoodStep;
    if k.KPoint? {
      TerminalOnlyAfterFunding(c, s, sent, got, from, k);
      PointCommits(c, s, sent, got, from, o);
      MoreHandled(c, s.me, sent.commitment, got, from, k);
    } else {
      LaterMeansCommitted(c, s.me, got, from, k);
      assert from in With(got, from, k).commitments;
    }
  }

  ghost predicate SomeCommitment(c: Conf, n: Net) {
    && Shaped(c, n)
    && exists p {:trigger n.Log(p)} :: p in c.env.ring && SentIn(n.Log(p)).commitment
  }

  lemma LockMeansCommitment(c: Conf, s: Session, sent: Sent, got: Handled)
    requires ValidConf(c) && PartyInv(c, s, sent, got) && sent.lock
    ensures sent.commitment
  {
    hide PartyInv, IsRing, Funded;
    LockIsFunded(c, s, sent, got);
    OwnSpendIsReady(c, s, sent, got);
  }

  lemma LockedHasCommitted(c: Conf, n: Net, n': Net, p: Pid, x: Pid)
    requires Shaped(c, n) && Shaped(c, n') && Grows(c, n, n', p) && x in c.env.ring
    requires ValidConf(c) && Parties(c, n) && SentIn(n.Log(x)).lock
    ensures SomeCommitment(c, n')
  {
    hide PartyInv, IsRing, SentIn, Grows, Parties, Grounded, MayEmit;
    PartyAt(c, n, x);
    LockMeansCommitment(c, n.Party(x), SentIn(n.Log(x)), n.Got(x));
    Monotone(c, n, n', p, x, KCommitment);
    assert SentIn(n'.Log(x)).commitment;
  }

  lemma AwaitingHasLock(c: Conf, s: Session, sent: Sent, got: Handled)
    requires ValidConf(c) && PartyInv(c, s, sent, got)
    ensures s.state == AwaitingLeaderSpend ==> sent.lock
    ensures s.me in s.locksConfirmed ==> sent.lock
  {
    hide IsRing, Fifo, Opened, Funded, PointsInv, ElectionInv, RevealInv, OpeningInv, MusigInv, NoncesInv,
         PartialsInv, RefundsInv, SpendsInv, LeaderInv, AllOthers;
  }

  /** A poll can only happen when some lock has been sent, which is long after the election. */
  lemma PollMeansCommitment(c: Conf, n: Net, n': Net, e: Event)
    requires Shaped(c, n) && Shaped(c, n') && Enabled(c, n, e) && Grows(c, n, n', e.p)
    requires ValidConf(c) && Parties(c, n) && Links(c, n) && !e.Delivery? && !e.Starts?
    ensures SomeCommitment(c, n')
  {
    hide PartyInv, IsRing, SentIn, Grows, Links, Parties, Grounded, MayEmit, SomeCommitment;
    var p := e.p;
    PartyAt(c, n, p);
    AwaitingHasLock(c, n.Party(p), SentIn(n.Log(p)), n.Got(p));
    match e {
      case LockPoll(_, owner, _) =>
        BroadcastWasSent(c, n, p, owner);
        LockedHasCommitted(c, n, n', p, owner);
      case _ => LockedHasCommitted(c, n, n', p, p);
    }
  }

  ghost predicate EveryoneHasAll(c: Conf, n: Net) {
    && Shaped(c, n)
    && forall p {:trigger n.Log(p)} :: p in c.env.ring ==> HasAllPoints(c, p, n.Log(p), n.Got(p))
  }

  /** A delivery in order, which makes its party commit if it brings the last point. */
  ghost predicate InOrder(c: Conf, p: Pid, k: Kind, log: seq<WireMessage>, got: Handled) {
    && Fifo(c, p, got) && ValidKind(c, k)
    && (k.KPoint? && HasAllPoints(c, p, log, got) ==> SentIn(log).commitment)
  }

  lemma SomeoneAfterDelivery(c: Conf, n: Net, p: Pid, from: Pid, k: Kind, got: Handled)
    requires Shaped(c, n) && p in c.env.ring && from in c.env.ring && from != p
    requires n.Got(p) == With(got, from, k) && InOrder(c, p, k, n.Log(p), n.Got(p))
    requires ValidConf(c) && Links(c, n) && EveryoneHasAll(c, n)
    ensures SomeCommitment(c, n)
  {
    hide IsRing, SentIn, Links, With, Fifo, HasAllPoints;
    assert HasAllPoints(c, p, n.Log(p), n.Got(p));
    if k.KPoint? {
      assert SentIn(n.Log(p)).commitment;
    } else {
      LaterMeansCommitted(c, p, got, from, k);
      HandledWasSent(c, n, p, from, KCommitment);
      assert SentIn(n.Log(from)).commitment;
    }
  }

  lemma SomeoneKept(c: Conf, n: Net, e: Event, got': Handled, o: Outcome, n': Net)
    requires Happens(c, n, e, got', o, n') && Grows(c, n, n', e.p)
    requires e.Delivery? ==> InOrder(c, e.p, KindOf(e.msg), n'.Log(e.p), got')
    requires ValidConf(c) && Parties(c, n) && Links(c, n) && Links(c, n')
    ensures SomeoneCommits(c, n')
  {
    hide PartyInv, IsRing, SentIn, Grows, Links, Parties, With, InOrder, HasAllPoints;
    if EveryoneHasAll(c, n') {
      match e {
        case Starts(p) => StartIsMissed(c, n, n', p);
        case Delivery(p, from, msg, _) => SomeoneAfterDelivery(c, n', p, from, KindOf(msg), n.Got(p));
        case _ => PollMeansCommitment(c, n, n', e);
      }
    }
  }

  /** Before it starts, nobody has the point of a party. */
  lemma StartIsMissed(c: Conf, n: Net, n': Net, p: Pid)
    requires Shaped(c, n) && Shaped(c, n') && p in c.env.ring && n'.got == n.got[p := n.Got(p)]
    requires ValidConf(c) && Links(c, n) && !SentIn(n.Log(p)).point
    ensures exists q {:trigger n'.Log(q)} :: q in c.env.ring && !HasAllPoints(c, q, n'.Log(q), n'.Got(q))
  {
    hide IsRing, SentIn, Links;
    var q := OtherParticipant(c, p);
    if AllOthers(c, q, n'.Got(q).points) {
      assert p in n.Got(q).points;
      HandledWasSent(c, n, q, p, KPoint);
    }
    assert !HasAllPoints(c, q, n'.Log(q), n'.Got(q));
  }

  // ---------- the chain ----------

  lemma {:induction false} AfterLock(sent: Sent, out: seq<WireMessage>)
    ensures In(After(sent, out), KLock) <==> In(sent, KLock) || LockTxBroadcast in out
  {
    hide After, Add, In;
    if out == [] {
      AfterNothing(sent);
    } else {
      var n := |out| - 1;
      AfterLock(sent, out[..n]);
      assert out == out[..n] + [out[n]];
      AfterLast(sent, out);
      AddedIn(After(sent, out[..n]), KindOf(out[n]), KLock);
    }
  }

  /** Only a poll that found a lock on chain confirms it. */
  lemma ConfirmsOnChain(c: Conf, s: Session, e: Event, o: Outcome, onChain: set<Pid>)
    requires IsRing(c.env.ring) && e.p in c.env.ring && o == Handle(c, s, e) && o.Ok?
    requires s.locksConfirmed <= onChain && (e.LockPoll? && e.onChain ==> e.owner in onChain)
    ensures o.session.locksConfirmed <= onChain
  {
    hide IsRing, HandleMessage, OnLockPoll, OnLeaderSpendPoll, OnRefundPoll, Protocol.Start, FundsInStep;
    match e {
      case Starts(_) => StartEffect(s);
      case Delivery(p, from, msg, accepted) => MessageEffect(c.env, s, msg, from, c.tape(p).draw, accepted);
      case LockPoll(_, owner, onChain) => LockPollEffect(c.env, s, owner, onChain);
      case LeaderSpendPoll(_, found) => LeaderSpendPollEffect(s, s.leader.value, found);
      case RefundPoll(_, open, accepted) => RefundPollEffect(s, open, accepted);
    }
  }

  lemma ChainKept(c: Conf, n: Net, e: Event, got': Handled, o: Outcome, n': Net)
    requires Happens(c, n, e, got', o, n')
    requires o.session.locksConfirmed <= n.onChain && ChainInv(c, n)
    requires SentIn(n'.Log(e.p)) == After(SentIn(n.Log(e.p)), o.out)
    ensures ChainInv(c, n')
  {
    hide SentIn, After, With, ChainInv;
    AfterLock(SentIn(n.Log(e.p)), o.out);
    forall q | q in c.env.ring
      ensures (q in n'.onChain <==> SentIn(n'.Log(q)).lock) && n'.Party(q).locksConfirmed <= n'.onChain
    {
      ChainAt(c, n, q);
      if q == e.p {} else {}
    }
    ChainFrom(c, n');
  }

  lemma ChainAt(c: Conf, n: Net, q: Pid)
    requires Shaped(c, n) && ChainInv(c, n) && q in c.env.ring
    ensures (q in n.onChain <==> SentIn(n.Log(q)).lock) && n.Party(q).locksConfirmed <= n.onChain
  {
    hide SentIn;
    assert LockGood(n.Party(q), n.Log(q), q, n.onChain);
  }

  lemma ChainFrom(c: Conf, n: Net)
    requires Shaped(c, n)
    requires forall q :: q in c.env.ring ==> (q in n.onChain <==> SentIn(n.Log(q)).lock) && n.Party(q).locksConfirmed <= n.onChain
    ensures ChainInv(c, n)
  {
    hide SentIn;
  }

  // ---------- every event, every schedule ----------

  lemma DeliveryInOrder(c: Conf, n: Net, e: Event, got': Handled, o: Outcome, log': seq<WireMessage>)
    requires ValidConf(c) && Shaped(c, n) && Enabled(c, n, e) && e.Delivery?
    requires got' == GotAfter(c, n, e) && o == OutcomeOf(c, n, e) && o.Ok?
    requires SentIn(log') == After(SentIn(n.Log(e.p)), o.out)
    requires InputsFit(c) && NetInv(c, n)
    ensures InOrder(c, e.p, KindOf(e.msg), log', got')
  {
    hide IsRing, PartyInv, SentIn, With, After, Grounded, InputsFit, Fifo, Links, PointsFirst, SomeoneCommits,
         ChainInv, Handle, AllOthers, Parties;
    assert n.Party(e.p).me == e.p by { PartyIsMe(c, n, e.p); }
    NextIsPlanned(c, n, e);
    GroundedAfter(c, n, e, got', o);
  }

  lemma PartyIsMe(c: Conf, n: Net, p: Pid)
    requires ValidConf(c) && Shaped(c, n) && Parties(c, n) && p in c.env.ring
    ensures n.Party(p).me == p
  {
    hide IsRing, PartyInv, SentIn, Grounded;
    assert PartyGood(c, p, n.Party(p), n.Log(p), n.Got(p));
  }

  lemma LogAfter(c: Conf, n: Net, e: Event, got': Handled, o: Outcome, n': Net)
    requires Happens(c, n, e, got', o, n')
    requires ValidConf(c) && Parties(c, n) && MayEmit(c, e.p, SentIn(n.Log(e.p)), o.out)
    ensures SentIn(n'.Log(e.p)) == After(SentIn(n.Log(e.p)), o.out)
  {
    hide IsRing, PartyInv, SentIn, MayEmit, After, With, Grounded, Parties;
    PartyAt(c, n, e.p);
    LogGrows(c, e.p, n.Log(e.p), o.out);
  }

  lemma ConfirmedAfter(c: Conf, n: Net, e: Event, o: Outcome)
    requires ValidConf(c) && Shaped(c, n) && Enabled(c, n, e) && o == OutcomeOf(c, n, e) && o.Ok?
    requires ChainInv(c, n)
    ensures o.session.locksConfirmed <= n.onChain
  {
    hide IsRing, Handle, SentIn;
    ChainAt(c, n, e.p);
    ConfirmsOnChain(c, n.Party(e.p), e, o, n.onChain);
  }

  /** The invariant is inductive. */
  lemma StepKeeps(c: Conf, n: Net, e: Event)
    requires ValidConf(c) && Shaped(c, n) && Enabled(c, n, e)
    requires PlanFits(c) && NetInv(c, n)
    ensures NetInv(c, Step(c, n, e))
  {
    hide IsRing, PartyInv, SentIn, With, After, Grounded, PlanFits, InputsFit, Fifo, Links, PointsFirst,
         SomeoneCommits, ChainInv, Handle, AllOthers, Read, Put, InOrder, PartyGood, Parties, GoodStep, EventGood,
         Happens;
    var got', o, n' := GotAfter(c, n, e), OutcomeOf(c, n, e), Step(c, n, e);
    PlanHasInputs(c);
    EventIsGood(c, n, e, got', o);
    GoodIsOk(c, n, e.p, got', o);
    StepHappens(c, n, e, got', o, n');
    HappensGrows(c, n, e, got', o, n');
    GroundedAfter(c, n, e, got', o);
    LinksKept(c, n, e, got', o, n');
    PartiesKept(c, n, e, got', o, n');
    PointsFirstKept(c, n, n', e.p);
    LogAfter(c, n, e, got', o, n');
    if e.Delivery? {
      DeliveryInOrder(c, n, e, got', o, n'.Log(e.p));
    }
    SomeoneKept(c, n, e, got', o, n');
    ConfirmedAfter(c, n, e, o);
    ChainKept(c, n, e, got', o, n');
  }

  lemma GoodIsOk(c: Conf, n: Net, p: Pid, got: Handled, o: Outcome)
    requires ValidConf(c) && Shaped(c, n) && p in c.env.ring && EventGood(c, n, p, got, o)
    ensures o.Ok? && MayEmit(c, p, SentIn(n.Log(p)), o.out)
  {
    hide IsRing, PartyInv, SentIn, MayEmit, After;
  }
}
