/** An honest leader that is sent one wrong secret: its session completes on a spend that the chain refuses,
    and from then on only others can move its lock. */
module Stranding {
  import opened Ring
  import opened Protocol
  import opened FundedSessions
  import opened Chain
  import opened ChainSessions
  import opened ChainSafety
  import opened ChainTheorems

  /** The leader has completed with all locks seen; its claim is not on chain, and its own lock is left to
      others. */
  ghost predicate Stranded(x: Setting, w: World) {
    && ValidSetting(x) && Shaped(x, w) && Covers(x, w.ledger)
    && x.leader in w.party && w.Party(x.leader).state.Completed? && x.env.ring.Keys <= w.Party(x.leader).locksConfirmed
    && LeftAlone(x, At(w.ledger, x.leader)) && !Published(x, w.ledger)
  }

  /** Unspent, or with somebody misbehaving returned to the leader by whoever holds its refund, or taken if it is
      where others can take it. */
  predicate LeftAlone(x: Setting, status: Status) {
    status.Locked? || (status.Returned? && Misbehaved(x)) || (status.Taken? && Stealable(x, x.leader))
  }

  /** What may happen to the ledger meanwhile: nothing to the leader's lock unless others do it, no claim of
      the leader. */
  ghost predicate LeavesLeader(x: Setting, ledger: Ledger, ledger': Ledger) {
    && Covers(x, ledger) && Covers(x, ledger')
    && (LeftAlone(x, At(ledger, x.leader)) ==> LeftAlone(x, At(ledger', x.leader))) && (Published(x, ledger') ==> Published(x, ledger))
  }

  lemma StillStranded(x: Setting, w: World, w': World)
    requires Stranded(x, w) && Shaped(x, w') && LeavesLeader(x, w.ledger, w'.ledger)
    requires x.leader in w'.party && w'.Party(x.leader) == w.Party(x.leader)
    ensures Stranded(x, w')
  {
    hide IsRing;
  }

  // ---------- the leader itself ----------

  lemma EndedHandles(env: Env, s: Session, msg: WireMessage, from: Pid, draw: Draw, accepted: bool)
    requires IsRing(env.ring) && s.state.Terminal()
    ensures HandleMessage(env, s, msg, from, draw, accepted) == Ok(s, [], [])
  {
    hide IsRing;
  }

  lemma EndedPolls(env: Env, s: Session, owner: Pid, onChain: bool, leader: Pid, found: Option<Secret>,
        open: bool, accepted: bool)
    requires s.state.Terminal() && owner in s.locksConfirmed
    ensures OnLockPoll(env, s, owner, onChain) == Ok(s, [], [])
    ensures OnLeaderSpendPoll(s, leader, found) == Ok(s, [], []) && OnRefundPoll(s, open, accepted) == Ok(s, [], [])
  {
  }

  lemma PutsNothing(x: Setting, w: World, p: Pid)
    requires ValidSetting(x) && Shaped(x, w) && p in w.party
    ensures Put(x, w, p, Ok(w.Party(p), [], [])) == w
  {
    hide IsRing;
    assert w.party[p := w.Party(p)] == w.party;
    var none: seq<WireMessage> := [];
    assert !Reveals(none);
  }

  /** Whatever reaches a stranded leader changes nothing in the world but that it has been served. */
  lemma LeaderIgnores(x: Setting, w: World, e: Event, w': World)
    requires Stranded(x, w) && Follows(x, w, e, w') && (e.Deliver? || e.PollLock? || e.Tick?) && e.p == x.leader
    ensures w' == w.(served := w'.served)
  {
    hide IsRing, HandleMessage, OnLockPoll, OnLeaderSpendPoll, OnRefundPoll, Put, RefundAcceptable, WindowOpen, Unguessed, RefundTaken;
    var p := x.leader;
    var s := w.Party(p);
    PutsNothing(x, w, p);
    assert p in x.env.ring.Keys;
    match e {
      case Deliver(_, from, msg, draw, accepted) => EndedHandles(x.env, s, msg, from, draw, accepted);
      case PollLock(_, owner, onChain) =>
        assert owner in x.env.ring.Keys;
        EndedPolls(x.env, s, owner, onChain, p, None, false, false);
      case Tick(_) =>
        EndedPolls(x.env, s, p, true, p, Found(x, w.ledger, s), WindowOpen(x, p, w.tip), RefundTaken(x, w.ledger, w.tip, s));
    }
  }

  // ---------- everybody else ----------

  lemma SpendLeaves(x: Setting, ledger: Ledger, y: Pid, now: Status)
    requires Covers(x, ledger) && y in x.env.ring && (now.Returned? || now.Taken? || y != Target(x, x.leader))
    requires y != x.leader || (now.Returned? && Misbehaved(x)) || (now.Taken? && Stealable(x, x.leader))
    ensures LeavesLeader(x, ledger, ledger[y := now])
  {
  }

  lemma PutLeaves(x: Setting, w: World, q: Pid, o: Outcome, w': World)
    requires Stranded(x, w) && q in w.party && q != x.leader && o.Ok? && w' == Put(x, w, q, o)
    requires LeavesLeader(x, w.ledger, SettleAll(x, w.ledger, w.tip, o.submitted))
    ensures Stranded(x, w') && q in w'.party
  {
    hide IsRing, SettleAll, Reveals, LeavesLeader;
    StillStranded(x, w, w');
  }

  lemma OtherDelivers(x: Setting, w: World, e: Event, w': World)
    requires Stranded(x, w) && WorldInv(x, w) && Follows(x, w, e, w') && e.Deliver? && e.p != x.leader
    ensures Stranded(x, w')
  {
    hide IsRing, HandleMessage, Prepared, MaySubmit, Put, WorldInv, Tolerated, SettleAll, LeavesLeader;
    PreparedParty(x, w, e.p);
    var o := HandleMessage(x.env, w.Party(e.p), e.msg, e.from, e.draw, e.accepted);
    AnyMessage(x, e.p, w.Party(e.p), e.msg, e.from, e.draw, e.accepted, o);
    var w1 := Put(x, w, e.p, o);
    if o.Ok? {
      DeliveredLedger(x, w, e, o, SettleAll(x, w.ledger, w.tip, o.submitted));
      SameLeaves(x, w.ledger);
      PutLeaves(x, w, e.p, o, w1);
    } else {
      PanicPut(x, w, e.p, o, w1);
    }
    HurtStays(x, w1, w');
  }

  lemma SameLeaves(x: Setting, ledger: Ledger)
    requires Covers(x, ledger)
    ensures LeavesLeader(x, ledger, ledger)
  {
  }

  lemma PanicPut(x: Setting, w: World, p: Pid, o: Outcome, w': World)
    requires Stranded(x, w) && p in w.party && o.Panic? && w' == Put(x, w, p, o)
    ensures Stranded(x, w') && p in w'.party
  {
    hide IsRing;
  }

  lemma HurtStays(x: Setting, w: World, w': World)
    requires Stranded(x, w) && w' == w.(hurt := w'.hurt, served := w'.served) && w.crashed <= w'.hurt <= w.party.Keys
    ensures Stranded(x, w')
  {
    hide IsRing;
  }

  lemma OtherPolls(x: Setting, w: World, e: Event, w': World)
    requires Stranded(x, w) && WorldInv(x, w) && Follows(x, w, e, w') && e.PollLock? && e.p != x.leader
    ensures Stranded(x, w')
  {
    hide IsRing, OnLockPoll, Prepared, Put, WorldInv, SettleAll, LeavesLeader;
    PreparedParty(x, w, e.p);
    var o := OnLockPoll(x.env, w.Party(e.p), e.owner, e.onChain);
    LockPollAny(x, e.p, w.Party(e.p), e.owner, e.onChain, o);
    SettleOne(x, w.ledger, w.tip, o.submitted);
    SameLeaves(x, w.ledger);
    PutLeaves(x, w, e.p, o, w');
  }

  lemma OtherTicks(x: Setting, w: World, e: Event, w': World)
    requires Stranded(x, w) && WorldInv(x, w) && Follows(x, w, e, w') && e.Tick? && e.p != x.leader
    ensures Stranded(x, w')
  {
    hide IsRing, OnLeaderSpendPoll, OnRefundPoll, Prepared, Put, PartiesOk, LedgerInv, WatchInv, SettleAll, LeavesLeader,
         RefundAcceptable, WindowOpen, Published;
    var p := e.p;
    PreparedParty(x, w, p);
    var o := OnLeaderSpendPoll(w.Party(p), x.leader, Found(x, w.ledger, w.Party(p)));
    var w1 := Put(x, w, p, o);
    PutIs(x, w, p, o, w1);
    SpendPollAny(x, w.ledger, w.tip, p, w.Party(p), o, w1.ledger);
    SameLeaves(x, w.ledger);
    PutLeaves(x, w, p, o, w1);
    var w2 := PollRefund(x, w1, p);
    if p in w1.Party(p).locksConfirmed {
      OtherRefunds(x, w1, p, w2);
    }
    HurtStays(x, w2, w');
  }

  lemma PutIs(x: Setting, w: World, p: Pid, o: Outcome, w': World)
    requires ValidSetting(x) && Shaped(x, w) && p in w.party && w' == Put(x, w, p, o)
    ensures o.Ok? ==> w'.ledger == SettleAll(x, w.ledger, w.tip, o.submitted)
    ensures o.Ok? ==> w'.party == w.party[p := o.session] && w'.tip == w.tip
    ensures o.Ok? ==> w'.hurt == w.hurt && w'.crashed == w.crashed && w'.served == w.served
  {
    hide IsRing, SettleAll, Reveals;
  }

  lemma OtherRefunds(x: Setting, w: World, p: Pid, w': World)
    requires Stranded(x, w) && p in w.party && p != x.leader && Prepared(x, p, w.Party(p)) && p in x.env.ring
    requires p in w.Party(p).locksConfirmed && w' == PollRefund(x, w, p)
    ensures Stranded(x, w') && w'.hurt == w.hurt && w'.crashed == w.crashed && w'.served == w.served && w'.party.Keys == w.party.Keys
  {
    hide IsRing, OnRefundPoll, Prepared, Put, SettleAll, LeavesLeader, RefundAcceptable, WindowOpen, Published, RefundTaken;
    var accepted := RefundTaken(x, w.ledger, w.tip, w.Party(p));
    var o := OnRefundPoll(w.Party(p), WindowOpen(x, p, w.tip), accepted);
    RefundOk(w.Party(p), WindowOpen(x, p, w.tip), accepted);
    RefundPollAny(x, w.ledger, w.tip, p, w.Party(p), accepted, o, SettleAll(x, w.ledger, w.tip, o.submitted));
    SameLeaves(x, w.ledger);
    SpendLeaves(x, w.ledger, p, Returned);
    PutLeaves(x, w, p, o, w');
    PutIs(x, w, p, o, w');
  }

  lemma RefundOk(s: Session, open: bool, accepted: bool)
    ensures OnRefundPoll(s, open, accepted).Ok?
  {
  }

  /** Nothing but what others do moves the lock of a stranded leader. */
  lemma StrandedStays(x: Setting, w: World, e: Event, w': World)
    requires Stranded(x, w) && Follows(x, w, e, w')
    requires WorldInv(x, w)
    ensures Stranded(x, w')
  {
    hide IsRing, WorldInv, DeliverTo, TickOf, Put, LateAt, Prepared, RefundAcceptable, SeenOnChain, Unguessed;
    CoversAll(x, w.ledger);
    match e {
      case Deliver(p, _, _, _, _) => if p == x.leader { LeaderIgnores(x, w, e, w'); } else { OtherDelivers(x, w, e, w'); }
      case PollLock(p, _, _) => if p == x.leader { LeaderIgnores(x, w, e, w'); } else { OtherPolls(x, w, e, w'); }
      case Tick(p) => if p == x.leader { LeaderIgnores(x, w, e, w'); } else { OtherTicks(x, w, e, w'); }
      case Confirm(owner) => ConfirmLeaves(x, w.ledger, owner);
      case ForeignRefund(owner) => SpendLeaves(x, w.ledger, owner, Returned);
      case Join(_, _) =>
      case Advance(_) =>
      case ForeignClaim(_) =>
      case Take(owner) => SpendLeaves(x, w.ledger, owner, Taken);
    }
  }

  lemma ConfirmLeaves(x: Setting, ledger: Ledger, owner: Pid)
    requires Covers(x, ledger) && owner in x.env.ring && At(ledger, owner).Absent? && LeftAlone(x, At(ledger, x.leader))
    ensures LeavesLeader(x, ledger, ledger[owner := Locked])
  {
  }

  ghost predicate GoesOn(x: Setting, ws: seq<World>, es: seq<Event>) {
    |ws| == |es| + 1 && forall i {:trigger es[i]} :: 0 <= i < |es| ==> Follows(x, ws[i], es[i], ws[i + 1])
  }

  /** An honest leader with all locks confirmed that gets a wrong last secret in time completes without its
      claim; and however things go on, it stays completed, its lock is not moved but by others, and nothing is
      ever claimed. */
  lemma {:induction false} WrongSecretStrands(x: Setting, w: World, e: Event, ws: seq<World>, es: seq<Event>, i: nat)
    requires ValidSetting(x) && Shaped(x, w) && Covers(x, w.ledger) && Enabled(x, w, e) && LastSecret(x, w, e)
    requires x.env.sumSecrets(w.Party(e.p).secrets[e.from := e.msg.secret]) != x.secret
    requires At(w.ledger, x.leader).Locked? && !Published(x, w.ledger) && x.env.ring.Keys <= w.Party(x.leader).locksConfirmed
    requires GoesOn(x, ws, es) && ws[0] == Step(x, w, e) && i < |ws|
    requires Reachable(x, w)
    ensures Stranded(x, ws[i]) && Reachable(x, ws[i])
  {
    hide IsRing, Reachable, WorldInv, Stranded, Follows, Step, Enabled, LastSecret;
    if i == 0 {
      Strands(x, w, e, ws[0]);
    } else {
      WrongSecretStrands(x, w, e, ws, es, i - 1);
      ReachableOk(x, ws[i - 1]);
      assert Follows(x, ws[i - 1], es[i - 1], ws[i]);
      StrandedStays(x, ws[i - 1], es[i - 1], ws[i]);
      ReachableNext(x, ws[i - 1], es[i - 1], ws[i]);
    }
  }

  lemma Strands(x: Setting, w: World, e: Event, w': World)
    requires ValidSetting(x) && Shaped(x, w) && Covers(x, w.ledger) && Enabled(x, w, e) && LastSecret(x, w, e)
    requires x.env.sumSecrets(w.Party(e.p).secrets[e.from := e.msg.secret]) != x.secret
    requires At(w.ledger, x.leader).Locked? && !Published(x, w.ledger) && x.env.ring.Keys <= w.Party(x.leader).locksConfirmed
    requires w' == Step(x, w, e)
    requires Reachable(x, w)
    ensures Stranded(x, w') && Reachable(x, w')
  {
    hide IsRing, Reachable, WorldInv, HandleMessage, Put, Unguessed, HasAll, Tolerated, MaySubmit, SettleAll;
    ReachableOk(x, w);
    var o := HandleMessage(x.env, w.Party(e.p), e.msg, e.from, e.draw, e.accepted);
    PreparedParty(x, w, x.leader);
    LastSecretSubmits(x, w, e, o);
    AnyMessage(x, e.p, w.Party(e.p), e.msg, e.from, e.draw, e.accepted, o);
    ConfirmedSame(x.env, w.Party(e.p), e.msg, e.from, e.draw, e.accepted);
    PutSession(x, w, e.p, o, Put(x, w, e.p, o));
    DeliveredLedger(x, w, e, o, w'.ledger);
    ReachableNext(x, w, e, w');
  }
}
