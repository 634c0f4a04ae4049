/** Honest swaps from the first message to the last lock: N parties on FIFO links, a ledger and a clock that
    answer their polls truly, every interleaving. The chain phase is not entered by all at once: some locks
    may be confirmed, and windows found open, while other parties still sign. */
module HonestRuns {
  import opened Ring
  import opened Timelocks
  import opened Protocol
  import opened PartyInvariant
  import opened PartySteps
  import opened FundedSessions
  import opened NetworkInvariant
  import opened NetworkSteps
  import N = Network
  import NetworkSafety
  import C = Chain
  import ChainSessions
  import ChainSafety
  import ChainTheorems
  import Handover
  import GoodCase

  /** The network together with what is on chain. */
  datatype Sys = Sys(net: N.Net, ledger: C.Ledger, tip: Tip, served: set<Pid>, late: set<Pid>)

  /** Starts, deliveries and lock polls happen at one party; a tick is its spend poll and its window poll. */
  datatype Event = Local(e: N.Event) | Tick(p: Pid) | Confirm(owner: Pid) | Advance(tip: Tip)

  ghost predicate Fits(c: Conf, x: C.Setting) {
    && ValidConf(c) && C.ValidSetting(x)
    && x.env == c.env && x.leader == c.plan.leader && x.honest == c.env.ring.Keys
    && x.point == c.env.sumPoints(AllPoints(c))
  }

  ghost predicate Shaped(c: Conf, y: Sys) {
    N.Shaped(c, y.net) && y.ledger.Keys == c.env.ring.Keys
  }

  ghost predicate NothingOnChain(c: Conf, ledger: C.Ledger) {
    ledger.Keys == c.env.ring.Keys && forall q {:trigger C.At(ledger, q)} :: q in c.env.ring ==> C.At(ledger, q).Absent?
  }

  ghost predicate FreshNet(c: Conf, net: N.Net) { net == N.Initial(c) }

  ghost predicate Begins(c: Conf, x: C.Setting, y: Sys) {
    && C.ValidSetting(x) && y.served == {} && y.late == C.LateAt(x, {}, y.tip)
    && Fits(c, x) && FreshNet(c, y.net) && NothingOnChain(c, y.ledger)
  }

  // ---------- events ----------

  /** What happens at one party by itself; its polls for locks are answered by the ledger. */
  ghost predicate LocalEnabled(c: Conf, net: N.Net, ledger: C.Ledger, e: N.Event) {
    && N.Shaped(c, net)
    && (e.Starts? || e.Delivery? || e.LockPoll?) && N.Enabled(c, net, e)
    && (e.LockPoll? && e.onChain ==> e.owner in ledger && !C.At(ledger, e.owner).Absent?)
  }

  /** A lock is confirmed after it has been submitted. */
  ghost predicate Enabled(c: Conf, y: Sys, e: Event) {
    && Shaped(c, y)
    && match e
    case Local(e) => LocalEnabled(c, y.net, y.ledger, e)
    case Tick(p) => p in c.env.ring && p in y.net.onChain
    case Confirm(owner) => owner in y.ledger && owner in y.net.onChain && C.At(y.ledger, owner).Absent?
    case Advance(tip) => y.tip.height <= tip.height && y.tip.slot <= tip.slot
  }

  ghost function Settles(x: C.Setting, ledger: C.Ledger, tip: Tip, o: Outcome): C.Ledger {
    if o.Ok? then C.SettleAll(x, ledger, tip, o.submitted) else ledger
  }

  /** An event at one party: the network takes its step, the ledger what was submitted. */
  ghost function Stepped(c: Conf, x: C.Setting, y: Sys, e: N.Event): Sys {
    y.(net := N.Step(c, y.net, e), ledger := Settles(x, y.ledger, y.tip, OutcomeOf(c, y.net, e)))
  }

  ghost function Found(c: Conf, x: C.Setting, y: Sys, p: Pid): Option<Secret> {
    if C.Target(x, x.leader) in y.ledger && p in y.net.party then C.Found(x, y.ledger, y.net.Party(p)) else None
  }

  ghost function SpendPoll(c: Conf, x: C.Setting, y: Sys, p: Pid): N.Event {
    N.LeaderSpendPoll(p, Found(c, x, y, p))
  }

  ghost function WindowPoll(c: Conf, x: C.Setting, y: Sys, p: Pid): N.Event {
    N.RefundPoll(p, C.WindowOpen(x, p, y.tip), p in y.net.party && C.RefundTaken(x, y.ledger, y.tip, y.net.Party(p)))
  }

  /** A poll happens if it has a poller. */
  ghost function Polled(c: Conf, x: C.Setting, y: Sys, e: N.Event): Sys {
    if N.Enabled(c, y.net, e) then Stepped(c, x, y, e) else y
  }

  /** An event at one party: it is possible, its polls are answered truly, and `y'` is what comes out. */
  ghost predicate Goes(c: Conf, x: C.Setting, y: Sys, e: N.Event, y': Sys) {
    && e.p in c.env.ring && (e.LockPoll? && e.onChain ==> e.owner in y.ledger && !C.At(y.ledger, e.owner).Absent?)
    && Shaped(c, y) && N.Enabled(c, y.net, e) && Fits(c, x) && y' == Polled(c, x, y, e)
  }

  ghost function Ticked(c: Conf, x: C.Setting, y: Sys, p: Pid): Sys {
    var y1 := Polled(c, x, y, SpendPoll(c, x, y, p));
    var y2 := if Shaped(c, y1) then Polled(c, x, y1, WindowPoll(c, x, y1, p)) else y1;
    if p in y.net.party && p in y.net.Party(p).locksConfirmed && C.WindowOpen(x, p, y.tip) then y2.(served := y2.served + {p}) else y2
  }

  ghost predicate TickGoes(c: Conf, x: C.Setting, y: Sys, p: Pid, y': Sys) {
    p in c.env.ring && Fits(c, x) && Shaped(c, y) && y' == Ticked(c, x, y, p)
  }

  ghost predicate Next(c: Conf, x: C.Setting, y: Sys, e: Event, y': Sys) {
    && Shaped(c, y) && Enabled(c, y, e)
    && match e
       case Local(e) => Goes(c, x, y, e, y')
       case Tick(p) => TickGoes(c, x, y, p, y')
       case Confirm(owner) => y' == y.(ledger := y.ledger[owner := C.Locked])
       case Advance(tip) => C.ValidSetting(x) && y' == y.(tip := tip, late := y.late + C.LateAt(x, y.served, tip))
  }

  // ---------- the chain's view ----------

  ghost function Joined(net: N.Net): map<Pid, Session> {
    map p | p in net.party && p in net.onChain :: net.Party(p)
  }

  ghost function Revealed(c: Conf, net: N.Net): set<Pid> {
    set p | p in c.env.ring && C.Reveals(net.Log(p))
  }

  /** What the chain phase sees: the parties that have locked, and nobody hurt. */
  ghost function World(c: Conf, y: Sys): C.World
    requires N.Shaped(c, y.net)
  {
    C.World(Joined(y.net), y.ledger, y.tip, Revealed(c, y.net), y.served, y.late, {}, {})
  }

  /** Only submitted locks are on chain, and only what is on chain has been confirmed by anybody. */
  ghost predicate OnLedger(c: Conf, y: Sys) {
    && Shaped(c, y)
    && (forall q {:trigger C.At(y.ledger, q)} :: q in c.env.ring ==> !C.At(y.ledger, q).Absent? ==> q in y.net.onChain)
    && (forall p {:trigger y.net.Party(p)} :: p in c.env.ring ==> C.SeenOnChain(y.net.Party(p).locksConfirmed, y.ledger))
  }

  ghost predicate SysInv(c: Conf, x: C.Setting, y: Sys) {
    && Fits(c, x) && Shaped(c, y) && NetInv(c, y.net) && OnLedger(c, y)
    && ChainTheorems.Reachable(x, World(c, y))
  }

  // ---------- what a locked party may still be sent ----------

  lemma LockedIsFunded(c: Conf, n: N.Net, p: Pid)
    requires ValidConf(c) && N.Shaped(c, n) && NetInv(c, n) && p in c.env.ring && p in n.onChain
    ensures N.SentIn(n.Log(p)).lock && Funded(c, p, n.Got(p).partials) && Fifo(c, p, n.Got(p)) && n.Party(p).me == p
  {
    hide IsRing, PartyInv, N.SentIn, Links, PointsFirst, SomeoneCommits, Parties, Funded, Fifo, Grounded, MayEmit;
    ChainAt(c, n, p);
    NetworkSafety.PartyOf(c, n, p);
    LockIsFunded(c, n.Party(p), N.SentIn(n.Log(p)), n.Got(p));
  }

  /** Once a party has locked, its honest peers have nothing left to send it that it does not stand. */
  lemma LockedTolerates(c: Conf, n: N.Net, e: N.Event)
    requires ValidConf(c) && N.Shaped(c, n) && NetInv(c, n) && InputsFit(c) && N.Enabled(c, n, e) && e.Delivery?
    requires e.p in n.onChain
    ensures e.msg.LockTxBroadcast? || e.msg.SecretReveal? || e.msg.SpendTxBroadcast?
    ensures Tolerated(c.env, n.Party(e.p), e.msg, e.from)
  {
    hide IsRing, PartyInv, N.SentIn, Links, PointsFirst, SomeoneCommits, Parties, Funded, Grounded, MayEmit, InputsFit,
         ChainInv, With, Fifo, Has;
    LockedIsFunded(c, n, e.p);
    NextIsPlanned(c, n, e);
    var k := KindOf(e.msg);
    if Rank(k) <= 4 {
      FundedHasSetup(c, e.p, n.Got(e.p), e.from, k);
    }
  }

  // ---------- one event at a locked party ----------

  lemma {:induction false} AfterSecret(sent: Sent, out: seq<WireMessage>)
    ensures In(After(sent, out), KSecret) <==> In(sent, KSecret) || C.Reveals(out)
  {
    hide After, Add, In;
    if out == [] {
      N.AfterNothing(sent);
    } else {
      var n := |out| - 1;
      AfterSecret(sent, out[..n]);
      assert out == out[..n] + [out[n]];
      N.AfterLast(sent, out);
      N.AddedIn(After(sent, out[..n]), KindOf(out[n]), KSecret);
      RevealsLast(out);
    }
  }

  lemma RevealsLast(out: seq<WireMessage>)
    requires out != []
    ensures C.Reveals(out) <==> C.Reveals(out[..|out| - 1]) || out[|out| - 1].SecretReveal?
  {
    var n := |out| - 1;
    forall m
      ensures m in out <==> m in out[..n] || m == out[n]
    {
      assert out == out[..n] + [out[n]];
    }
    assert out[n] in out;
  }

  lemma JoinedAfter(net: N.Net, net': N.Net, p: Pid, s: Session)
    requires p in net.party && p in net.onChain && net'.party == net.party[p := s] && net'.onChain == net.onChain
    ensures Joined(net') == Joined(net)[p := s]
  {
  }

  lemma RevealedAfter(c: Conf, net: N.Net, net': N.Net, p: Pid, out: seq<WireMessage>)
    requires N.Shaped(c, net) && N.Shaped(c, net') && p in c.env.ring
    requires N.SentIn(net'.Log(p)) == After(N.SentIn(net.Log(p)), out)
    requires forall q {:trigger net'.Log(q)} :: q in c.env.ring && q != p ==> net'.Log(q) == net.Log(q)
    ensures Revealed(c, net') == if C.Reveals(out) then Revealed(c, net) + {p} else Revealed(c, net)
  {
    hide After, N.SentIn, C.Reveals, IsRing, Revealed;
    AfterSecret(N.SentIn(net.Log(p)), out);
    forall q
      ensures q in Revealed(c, net') <==> q in Revealed(c, net) || (q == p && C.Reveals(out))
    {
      RevealedIs(c, net', q);
      RevealedIs(c, net, q);
      if q in c.env.ring && q != p {
        assert net'.Log(q) == net.Log(q);
      }
    }
  }

  lemma RevealedIs(c: Conf, net: N.Net, q: Pid)
    ensures q in Revealed(c, net) <==> q in c.env.ring && N.SentIn(net.Log(q)).secret
  {
    hide After, C.Reveals;
    AfterSecret(NOTHING_SENT, net.Log(q));
  }

  /** At a locked party the chain's view takes the step of the handler. */
  lemma LockedSteps(c: Conf, x: C.Setting, y: Sys, e: N.Event, got': Handled, o: Outcome, y': Sys)
    requires N.Shaped(c, y.net) && C.ValidSetting(x) && C.Shaped(x, World(c, y)) && e.p in y.net.party && e.p in y.net.onChain
    requires Happens(c, y.net, e, got', o, y'.net) && N.SentIn(y'.net.Log(e.p)) == After(N.SentIn(y.net.Log(e.p)), o.out)
    requires y.ledger.Keys == x.env.ring.Keys && y' == y.(net := y'.net, ledger := Settles(x, y.ledger, y.tip, o))
    ensures e.p in World(c, y).party && World(c, y').party.Keys == World(c, y).party.Keys
    ensures World(c, y') == C.Put(x, World(c, y), e.p, o) && y'.net.onChain == y.net.onChain
  {
    hide IsRing, N.SentIn, After, N.Enabled, With, C.SettleAll, C.Reveals;
    JoinedAfter(y.net, y'.net, e.p, o.session);
    RevealedAfter(c, y.net, y'.net, e.p, o.out);
  }

  /** The event is good for the network, and the network takes its step. */
  lemma NetworkStep(c: Conf, x: C.Setting, y: Sys, e: N.Event, y': Sys) returns (got': Handled, o: Outcome)
    requires Fits(c, x) && Shaped(c, y) && N.Enabled(c, y.net, e) && y' == Stepped(c, x, y, e)
    requires NetInv(c, y.net) && PlanFits(c)
    ensures got' == GotAfter(c, y.net, e) && o == OutcomeOf(c, y.net, e) && o.Ok?
    ensures Happens(c, y.net, e, got', o, y'.net) && Shaped(c, y') && NetInv(c, y'.net)
    ensures N.SentIn(y'.net.Log(e.p)) == After(N.SentIn(y.net.Log(e.p)), o.out)
    ensures y' == y.(net := y'.net, ledger := C.SettleAll(x, y.ledger, y.tip, o.submitted))
  {
    hide IsRing, PartyInv, N.SentIn, With, After, Grounded, PlanFits, InputsFit, Fifo, Links, PointsFirst, SomeoneCommits,
         ChainInv, N.Handle, AllOthers, N.Read, N.Put, PartyGood, Parties, GoodStep, EventGood, Happens, C.SettleAll, MayEmit;
    got', o := GotAfter(c, y.net, e), OutcomeOf(c, y.net, e);
    PlanHasInputs(c);
    EventIsGood(c, y.net, e, got', o);
    GoodIsOk(c, y.net, e.p, got', o);
    StepHappens(c, y.net, e, got', o, y'.net);
    StepKeeps(c, y.net, e);
    LogAfter(c, y.net, e, got', o, y'.net);
  }

  lemma WorldIsShaped(c: Conf, x: C.Setting, y: Sys)
    requires SysInv(c, x, y)
    ensures C.Shaped(x, World(c, y)) && ChainSafety.WorldInv(x, World(c, y)) && ChainSessions.Covers(x, y.ledger)
    ensures C.Target(x, x.leader) in y.ledger
  {
    hide IsRing, PartyInv, Links, PointsFirst, SomeoneCommits, ChainInv, Parties, ChainTheorems.Reachable, OnLedger,
         ChainSafety.PartiesOk, ChainSafety.LedgerInv, ChainSafety.WatchInv;
    ChainTheorems.ReachableOk(x, World(c, y));
    assert World(c, y).ledger == y.ledger;
  }

  /** What the ledger settles is never unmade, so what was confirmed stays confirmed. */
  lemma SeenStays(c: Conf, y: Sys, y': Sys, p: Pid, confirmed: set<Pid>)
    requires Shaped(c, y) && Shaped(c, y') && OnLedger(c, y)
    requires p in y'.net.party && y'.net.party == y.net.party[p := y'.net.Party(p)] && y.net.onChain <= y'.net.onChain
    requires forall q {:trigger C.At(y'.ledger, q)} :: q in c.env.ring ==> (C.At(y'.ledger, q).Absent? <==> C.At(y.ledger, q).Absent?)
    requires confirmed == y'.net.Party(p).locksConfirmed && C.SeenOnChain(confirmed, y'.ledger)
    ensures OnLedger(c, y')
  {
    forall q {:trigger C.At(y'.ledger, q)} | q in c.env.ring && !C.At(y'.ledger, q).Absent?
      ensures q in y'.net.onChain
    {
      assert !C.At(y.ledger, q).Absent?;
    }
    forall q {:trigger y'.net.Party(q)} | q in c.env.ring
      ensures C.SeenOnChain(y'.net.Party(q).locksConfirmed, y'.ledger)
    {
      if q != p {
        assert y'.net.Party(q) == y.net.Party(q);
        SameSeen(c, y.ledger, y'.ledger, y.net.Party(q).locksConfirmed);
      }
    }
  }

  lemma SameSeen(c: Conf, ledger: C.Ledger, ledger': C.Ledger, confirmed: set<Pid>)
    requires ledger.Keys == c.env.ring.Keys && ledger'.Keys == c.env.ring.Keys
    requires forall q {:trigger C.At(ledger', q)} :: q in c.env.ring ==> (C.At(ledger', q).Absent? <==> C.At(ledger, q).Absent?)
    requires C.SeenOnChain(confirmed, ledger)
    ensures C.SeenOnChain(confirmed, ledger')
  {
    forall q {:trigger q in confirmed} | q in confirmed
      ensures q in ledger' && !C.At(ledger', q).Absent?
    {
      assert q in ledger && !C.At(ledger, q).Absent?;
      assert C.At(ledger', q).Absent? <==> C.At(ledger, q).Absent?;
    }
  }

  /** Submissions spend locks, and put none on chain. */
  lemma {:induction false} SettlingKeepsAbsent(x: C.Setting, ledger: C.Ledger, tip: Tip, subs: seq<Submission>, q: Pid)
    requires C.ValidSetting(x) && ledger.Keys == x.env.ring.Keys && q in x.env.ring
    ensures C.SettleAll(x, ledger, tip, subs)[q].Absent? <==> C.At(ledger, q).Absent?
  {
    hide IsRing, C.RefundAcceptable;
    if subs != [] {
      SettlingKeepsAbsent(x, ledger, tip, subs[..|subs| - 1], q);
    }
  }

  /** What an event at a party does to what is on the ledger. */
  lemma LedgerStep(c: Conf, x: C.Setting, y: Sys, e: N.Event, got': Handled, o: Outcome, y': Sys)
    requires Fits(c, x) && Shaped(c, y) && Shaped(c, y') && e.p in c.env.ring && OnLedger(c, y)
    requires Happens(c, y.net, e, got', o, y'.net) && o == OutcomeOf(c, y.net, e)
    requires y' == y.(net := y'.net, ledger := C.SettleAll(x, y.ledger, y.tip, o.submitted))
    requires e.LockPoll? && e.onChain ==> e.owner in y.ledger && !C.At(y.ledger, e.owner).Absent?
    ensures OnLedger(c, y')
  {
    hide IsRing, C.SettleAll, N.Handle, With, N.Enabled, OnLedger;
    forall q {:trigger C.At(y'.ledger, q)} | q in c.env.ring
      ensures C.At(y'.ledger, q).Absent? <==> C.At(y.ledger, q).Absent?
    {
      SettlingKeepsAbsent(x, y.ledger, y.tip, o.submitted, q);
    }
    var seen := set q | q in y.ledger && !C.At(y.ledger, q).Absent?;
    PartySeen(c, y, e.p, seen);
    ConfirmsOnChain(c, y.net.Party(e.p), e, o, seen);
    forall q {:trigger q in o.session.locksConfirmed} | q in o.session.locksConfirmed
      ensures q in y'.ledger && !C.At(y'.ledger, q).Absent?
    {
      assert q in seen;
      assert C.At(y'.ledger, q).Absent? <==> C.At(y.ledger, q).Absent?;
    }
    SeenStays(c, y, y', e.p, o.session.locksConfirmed);
  }

  lemma PartySeen(c: Conf, y: Sys, p: Pid, seen: set<Pid>)
    requires Shaped(c, y) && OnLedger(c, y) && p in c.env.ring && seen == set q | q in y.ledger && !C.At(y.ledger, q).Absent?
    ensures y.net.Party(p).locksConfirmed <= seen
  {
    assert C.SeenOnChain(y.net.Party(p).locksConfirmed, y.ledger);
  }

  ghost predicate IsPut(x: C.Setting, w: C.World, p: Pid, o: Outcome, w': C.World) {
    C.ValidSetting(x) && C.Shaped(x, w) && p in w.party && w' == C.Put(x, w, p, o)
  }

  /** All that the invariant says but where the chain's view has come from. */
  ghost predicate StateInv(c: Conf, x: C.Setting, y: Sys) {
    Fits(c, x) && Shaped(c, y) && NetInv(c, y.net) && OnLedger(c, y)
  }

  lemma GoesIs(c: Conf, x: C.Setting, y: Sys, e: N.Event, y': Sys)
    requires Goes(c, x, y, e, y')
    ensures Fits(c, x) && Shaped(c, y) && N.Enabled(c, y.net, e) && y' == Stepped(c, x, y, e)
    ensures e.LockPoll? && e.onChain ==> e.owner in y.ledger && !C.At(y.ledger, e.owner).Absent?
  {
    hide IsRing, Stepped, N.Enabled;
  }

  /** At a locked party system and chain take the same step. */
  lemma LockedMoves(c: Conf, x: C.Setting, y: Sys, e: N.Event, w': C.World, o: Outcome, y': Sys)
    requires N.Shaped(c, y.net) && e.p in y.net.onChain && Goes(c, x, y, e, y')
    requires ValidConf(c) && e.p in c.env.ring && o == OutcomeOf(c, y.net, e)
    requires IsPut(x, World(c, y), e.p, o, w')
    requires PlanFits(c) && StateInv(c, x, y)
    ensures StateInv(c, x, y') && World(c, y') == w' && y'.net.onChain == y.net.onChain
  {
    hide IsRing, OnLedger, C.SettleAll, PlanFits, World, N.Enabled, N.SentIn, After, NetInv, Stepped, With, Goes, Polled,
         Happens, N.Shaped, IsPut;
    GoesIs(c, x, y, e, y');
    assert e.p in y.net.party by { InParty(c, y.net, e); }
    var got', o' := NetworkStep(c, x, y, e, y');
    LockedMoved(c, x, y, e, w', got', o, y');
  }

  lemma LockedMoved(c: Conf, x: C.Setting, y: Sys, e: N.Event, w': C.World, got': Handled, o: Outcome, y': Sys)
    requires N.Shaped(c, y.net) && e.p in y.net.onChain && e.p in y.net.party && e.p in c.env.ring
    requires ValidConf(c) && o == OutcomeOf(c, y.net, e) && IsPut(x, World(c, y), e.p, o, w') && StateInv(c, x, y)
    requires Happens(c, y.net, e, got', o, y'.net) && Shaped(c, y') && NetInv(c, y'.net) && o.Ok?
    requires N.SentIn(y'.net.Log(e.p)) == After(N.SentIn(y.net.Log(e.p)), o.out)
    requires y' == y.(net := y'.net, ledger := C.SettleAll(x, y.ledger, y.tip, o.submitted))
    requires e.LockPoll? && e.onChain ==> e.owner in y.ledger && !C.At(y.ledger, e.owner).Absent?
    ensures StateInv(c, x, y') && World(c, y') == w' && y'.net.onChain == y.net.onChain
  {
    hide IsRing, OnLedger, C.SettleAll, World, N.Enabled, N.SentIn, After, NetInv, With, Happens, N.Shaped, N.Handle;
    LedgerStep(c, x, y, e, got', o, y');
    LockedSteps(c, x, y, e, got', o, y');
  }

  lemma LockedKeeps(c: Conf, x: C.Setting, y: Sys, e: N.Event, ce: C.Event, w': C.World, o: Outcome, y': Sys)
    requires N.Shaped(c, y.net) && e.p in y.net.onChain && Goes(c, x, y, e, y')
    requires ValidConf(c) && e.p in c.env.ring && o == OutcomeOf(c, y.net, e)
    requires ChainTheorems.Follows(x, World(c, y), ce, w') && IsPut(x, World(c, y), e.p, o, w')
    requires PlanFits(c) && SysInv(c, x, y)
    ensures SysInv(c, x, y')
  {
    hide IsRing, OnLedger, PlanFits, World, NetInv, ChainTheorems.Follows, ChainTheorems.Reachable, Goes, Shaped, IsPut;
    LockedMoves(c, x, y, e, w', o, y');
    ChainTheorems.ReachableNext(x, World(c, y), ce, w');
  }

  lemma WorldLedger(c: Conf, y: Sys)
    requires N.Shaped(c, y.net)
    ensures World(c, y).ledger == y.ledger && World(c, y).tip == y.tip && World(c, y).late == y.late
  {
  }

  lemma InParty(c: Conf, n: N.Net, e: N.Event)
    requires N.Shaped(c, n) && N.Enabled(c, n, e)
    ensures e.p in n.party && e.p in c.env.ring
  {
  }

  // ---------- messages and lock polls of a locked party ----------

  lemma SecretsWereSent(c: Conf, s: Session, sent: Sent, got: Handled, from: Pid, q: Pid)
    requires ValidConf(c) && PartyInv(c, s, sent, got) && s.me == c.plan.leader
    requires q in s.secrets && q != s.me
    ensures q in got.secrets
  {
    hide IsRing, Fifo, Funded, PointsInv, ElectionInv, RevealInv, OpeningInv, MusigInv, NoncesInv, PartialsInv,
         RefundsInv, SpendsInv, PhaseInv, LeaderInv, Opened, AllOthers;
  }

  /** An honest leader that holds all secrets got them all from their owners. */
  lemma HonestSecrets(c: Conf, x: C.Setting, y: Sys, e: N.Event)
    requires ValidConf(c) && N.Shaped(c, y.net) && NetInv(c, y.net) && InputsFit(c) && N.Enabled(c, y.net, e) && e.Delivery?
    requires e.p in World(c, y).party && x.env == c.env && x.leader == c.plan.leader && x.honest == c.env.ring.Keys
    ensures C.Unguessed(x, World(c, y), e.p, e.from, e.msg)
  {
    hide IsRing, PartyInv, N.SentIn, Links, PointsFirst, SomeoneCommits, Parties, Grounded, MayEmit, InputsFit,
         ChainInv, With, Fifo;
    var s := y.net.Party(e.p);
    NetworkSafety.PartyOf(c, y.net, e.p);
    NextIsPlanned(c, y.net, e);
    if e.p == x.leader && e.msg.SecretReveal? && HasAll(c.env.ring, s.secrets[e.from := e.msg.secret]) {
      forall q | q in C.Others(x)
        ensures q in Revealed(c, y.net)
      {
        assert q in s.secrets[e.from := e.msg.secret];
        RevealedIs(c, y.net, q);
        if q != e.from {
          SecretsWereSent(c, s, N.SentIn(y.net.Log(e.p)), y.net.Got(e.p), e.from, q);
          assert Has(y.net.Got(e.p), q, KSecret);
          HandledWasSent(c, y.net, e.p, q, KSecret);
        }
      }
    } else if !e.msg.SecretReveal? {
      var none: map<Pid, Secret> := map[];
      assert c.plan.leader in c.env.ring && c.plan.leader !in none;
    }
  }

  lemma JoinedParty(c: Conf, n: N.Net, p: Pid)
    requires N.Shaped(c, n) && p in c.env.ring && p in n.onChain
    ensures p in Joined(n) && Joined(n)[p] == n.Party(p)
  {
  }

  /** A message to a locked party, in the chain's words. */
  lemma DeliverySeen(c: Conf, x: C.Setting, y: Sys, e: N.Event, o: Outcome) returns (ce: C.Event, w': C.World)
    requires ValidConf(c) && N.Shaped(c, y.net) && e.p in c.env.ring && o == OutcomeOf(c, y.net, e)
    requires e.Delivery? && e.p in y.net.onChain && N.Enabled(c, y.net, e) && Fits(c, x)
    requires PlanFits(c) && SysInv(c, x, y)
    ensures ChainTheorems.Follows(x, World(c, y), ce, w') && IsPut(x, World(c, y), e.p, o, w')
  {
    hide IsRing, PartyInv, Links, PointsFirst, SomeoneCommits, ChainInv, Parties, ChainTheorems.Reachable, OnLedger,
         C.SettleAll, PlanFits, N.SentIn, ChainSafety.WorldInv, NetInv, ChainSessions.Covers, C.Unguessed, C.Put,
         HandleMessage, Tolerated, Joined, Revealed;
    var w, p := World(c, y), e.p;
    WorldIsShaped(c, x, y);
    JoinedParty(c, y.net, p);
    PlanHasInputs(c);
    LockedTolerates(c, y.net, e);
    HonestSecrets(c, x, y, e);
    ce := C.Deliver(p, e.from, e.msg, c.tape(p).draw, e.accepted);
    assert C.Enabled(x, w, ce);
    w' := C.Step(x, w, ce);
  }

  lemma LockPollSeen(c: Conf, x: C.Setting, y: Sys, e: N.Event, y': Sys, o: Outcome) returns (ce: C.Event, w': C.World)
    requires ValidConf(c) && N.Shaped(c, y.net) && e.p in c.env.ring && o == OutcomeOf(c, y.net, e)
    requires e.LockPoll? && e.p in y.net.onChain && Goes(c, x, y, e, y')
    requires SysInv(c, x, y)
    ensures ChainTheorems.Follows(x, World(c, y), ce, w') && IsPut(x, World(c, y), e.p, o, w')
  {
    hide IsRing, PartyInv, Links, PointsFirst, SomeoneCommits, ChainInv, Parties, ChainTheorems.Reachable, OnLedger,
         C.SettleAll, N.SentIn, ChainSafety.WorldInv, ChainSessions.Covers, C.Put, OnLockPoll, Joined, Revealed, Goes;
    GoesIs(c, x, y, e, y');
    var w, p := World(c, y), e.p;
    WorldIsShaped(c, x, y);
    JoinedParty(c, y.net, p);
    assert e.owner in c.env.ring by { BroadcastWasSent(c, y.net, p, e.owner); }
    ce := C.PollLock(p, e.owner, e.onChain);
    assert C.Enabled(x, w, ce);
    w' := C.Step(x, w, ce);
  }

  // ---------- one event at a party that has not locked ----------

  lemma StartFunds(s: Session)
    ensures ChainSessions.FundsAtMost(Start(s))
  {
    if s.me in s.points && s.state == Initialized {} else {}
  }

  /** A lock poll submits nothing and announces no lock. */
  lemma LockPollFunds(env: Env, s: Session, owner: Pid, onChain: bool)
    ensures OnLockPoll(env, s, owner, onChain).Ok? ==>
              OnLockPoll(env, s, owner, onChain).submitted == [] && LockTxBroadcast !in OnLockPoll(env, s, owner, onChain).out
  {
    hide AllConfirmed;
  }

  /** Nobody reveals a secret to a party that has not locked. */
  lemma NoSecretYet(c: Conf, n: N.Net, e: N.Event)
    requires ValidConf(c) && N.Shaped(c, n) && NetInv(c, n) && InputsFit(c) && N.Enabled(c, n, e) && e.Delivery?
    requires e.p !in n.onChain
    ensures !e.msg.SecretReveal?
  {
    hide IsRing, PartyInv, N.SentIn, PointsFirst, SomeoneCommits, Grounded, MayEmit, InputsFit, With, Fifo, Has,
         ChainInv, Links, Parties;
    NextIsPlanned(c, n, e);
    if e.msg.SecretReveal? {
      SecretMeansLocks(c, n, e.from, e.p);
      ChainAt(c, n, e.p);
    }
  }

  /** Before its own lock a party submits nothing but that lock. */
  lemma UnlockedFunds(c: Conf, n: N.Net, e: N.Event, o: Outcome)
    requires (e.Delivery? && !e.msg.SecretReveal?) || e.Starts? || e.LockPoll?
    requires o.Ok? && ValidConf(c) && N.Shaped(c, n) && e.p in c.env.ring && o == OutcomeOf(c, n, e)
    ensures o.submitted == [] || (|o.submitted| == 1 && o.submitted[0].SubmitLock?)
    ensures LockTxBroadcast in o.out ==> o.session.state == AwaitingLockConfirmations
  {
    hide IsRing, HandleMessage, OnLockPoll, Protocol.Start, C.Reveals;
    match e {
      case Starts(p) => StartFunds(n.Party(p));
      case LockPoll(p, owner, onChain) => LockPollFunds(c.env, n.Party(p), owner, onChain);
      case Delivery(p, from, msg, accepted) =>
        ChainSessions.MessageFunds(c.env, n.Party(p), msg, from, c.tape(p).draw, accepted);
    }
  }

  lemma LocksSettleNothing(x: C.Setting, ledger: C.Ledger, tip: Tip, subs: seq<Submission>)
    requires C.ValidSetting(x) && ledger.Keys == x.env.ring.Keys
    requires subs == [] || (|subs| == 1 && subs[0].SubmitLock?)
    ensures C.SettleAll(x, ledger, tip, subs) == ledger
  {
    hide IsRing, C.RefundAcceptable;
    if subs != [] {
      assert subs[..|subs| - 1] == [];
    }
  }

  /** Who has not locked, or just did, has revealed nothing. */
  lemma NotRevealed(c: Conf, y: Sys, p: Pid)
    requires ValidConf(c) && Shaped(c, y) && NetInv(c, y.net) && OnLedger(c, y) && p in c.env.ring && C.At(y.ledger, p).Absent?
    ensures p !in Revealed(c, y.net) && p !in y.net.Party(p).locksConfirmed
  {
    hide IsRing, PartyInv, N.SentIn, PointsFirst, SomeoneCommits, Grounded, MayEmit, Links, Parties, ChainInv;
    assert C.SeenOnChain(y.net.Party(p).locksConfirmed, y.ledger);
    RevealedIs(c, y.net, p);
    if N.SentIn(y.net.Log(p)).secret {
      SecretMeansLocks(c, y.net, p, p);
    }
  }

  lemma RevealedSame(c: Conf, net: N.Net, net': N.Net, p: Pid)
    requires N.Shaped(c, net) && N.Shaped(c, net') && p !in Revealed(c, net) && p !in Revealed(c, net')
    requires forall q {:trigger net'.Log(q)} :: q in c.env.ring && q != p ==> net'.Log(q) == net.Log(q)
    ensures Revealed(c, net') == Revealed(c, net)
  {
    hide N.SentIn;
    forall q
      ensures q in Revealed(c, net') <==> q in Revealed(c, net)
    {
      if q in c.env.ring && q != p {
        assert net'.Log(q) == net.Log(q);
      }
    }
  }

  lemma OthersJoined(net: N.Net, net': N.Net, p: Pid, s: Session)
    requires p in net.party && p !in net.onChain && net'.party == net.party[p := s]
    ensures net'.onChain == net.onChain ==> Joined(net') == Joined(net)
    ensures net'.onChain == net.onChain + {p} ==> Joined(net') == Joined(net)[p := s] && p !in Joined(net)
  {
  }

  lemma LockedIsEquipped(c: Conf, x: C.Setting, n: N.Net, p: Pid)
    requires ValidConf(c) && x.env == c.env && x.leader == c.plan.leader && x.point == c.env.sumPoints(AllPoints(c))
    requires N.Shaped(c, n) && p in c.env.ring && p in n.onChain
    requires NetInv(c, n) && PlanFits(c)
    ensures C.Equipped(x, p, n.Party(p))
  {
    hide IsRing, PartyInv, N.SentIn, Links, PointsFirst, SomeoneCommits, Parties, Funded, Fifo, Grounded, MayEmit, C.Prepared,
         C.Equipped, PlanFits, ChainInv;
    LockedIsFunded(c, n, p);
    NetworkSafety.PartyOf(c, n, p);
    GoodCase.OwnSecret(c, n.Party(p), N.SentIn(n.Log(p)), n.Got(p));
    Handover.FundedIsEquipped(c, x, n.Party(p), N.SentIn(n.Log(p)), n.Got(p));
  }

  /** What an event at such a party looks like from the chain: nothing, or a party that joins. */
  lemma UnlockedKeeps(c: Conf, x: C.Setting, y: Sys, e: N.Event, y': Sys)
    requires N.Shaped(c, y.net) && e.p !in y.net.onChain && Goes(c, x, y, e, y') && (e.Starts? || e.Delivery? || e.LockPoll?)
    requires PlanFits(c) && SysInv(c, x, y)
    ensures SysInv(c, x, y')
  {
    hide IsRing, PartyInv, Links, PointsFirst, SomeoneCommits, ChainInv, Parties, ChainTheorems.Reachable, OnLedger,
         Happens, C.SettleAll, PlanFits, N.Enabled, N.SentIn, After, ChainSafety.WorldInv, ChainTheorems.Follows, NetInv,
         Stepped, ChainSessions.Covers, World;
    assert e.p in y.net.party by { InParty(c, y.net, e); }
    var got', o := NetworkStep(c, x, y, e, y');
    LedgerStep(c, x, y, e, got', o, y');
    PlanHasInputs(c);
    if e.Delivery? {
      NoSecretYet(c, y.net, e);
    }
    UnlockedFunds(c, y.net, e, o);
    LocksSettleNothing(x, y.ledger, y.tip, o.submitted);
    NotOnLedger(c, y, e.p);
    NotRevealed(c, y, e.p);
    NotRevealed(c, y', e.p);
    UnlockedWorld(c, x, y, e, got', o, y');
    if LockTxBroadcast in o.out {
      JoinSeen(c, x, y, e.p, o.session, y');
    }
  }

  lemma NotOnLedger(c: Conf, y: Sys, p: Pid)
    requires Shaped(c, y) && OnLedger(c, y) && p in c.env.ring && p !in y.net.onChain
    ensures C.At(y.ledger, p).Absent?
  {
    assert C.At(y.ledger, p) == C.At(y.ledger, p);
  }

  lemma UnlockedWorld(c: Conf, x: C.Setting, y: Sys, e: N.Event, got': Handled, o: Outcome, y': Sys)
    requires N.Shaped(c, y.net) && N.Shaped(c, y'.net) && e.p in y.net.party && e.p !in y.net.onChain
    requires Happens(c, y.net, e, got', o, y'.net) && y' == y.(net := y'.net)
    requires e.p !in Revealed(c, y.net) && e.p !in Revealed(c, y'.net)
    ensures y'.net.Party(e.p) == o.session
    ensures LockTxBroadcast in o.out ==> e.p in y'.net.onChain && e.p !in World(c, y).party
    ensures World(c, y') == if LockTxBroadcast in o.out then World(c, y).(party := World(c, y).party[e.p := o.session]) else World(c, y)
  {
    hide N.SentIn, N.Enabled, With;
    OthersJoined(y.net, y'.net, e.p, o.session);
    RevealedSame(c, y.net, y'.net, e.p);
  }

  lemma ConfirmedSeen(c: Conf, y: Sys, p: Pid)
    requires Shaped(c, y) && OnLedger(c, y) && p in c.env.ring
    ensures C.SeenOnChain(y.net.Party(p).locksConfirmed, y.ledger)
  {
    hide IsRing;
    assert y.net.Party(p) == y.net.Party(p);
  }

  lemma JoinSeen(c: Conf, x: C.Setting, y: Sys, p: Pid, s: Session, y': Sys)
    requires Fits(c, x) && Shaped(c, y') && NetInv(c, y'.net) && p in c.env.ring && p in y'.net.onChain && y'.net.Party(p) == s
    requires s.state == AwaitingLockConfirmations && OnLedger(c, y') && y'.ledger == y.ledger && C.At(y.ledger, p).Absent?
    requires p !in s.locksConfirmed && N.Shaped(c, y.net) && p !in World(c, y).party
    requires World(c, y') == World(c, y).(party := World(c, y).party[p := s])
    requires PlanFits(c) && SysInv(c, x, y)
    ensures ChainTheorems.Reachable(x, World(c, y'))
  {
    hide IsRing, PartyInv, Links, PointsFirst, SomeoneCommits, ChainInv, Parties, ChainTheorems.Reachable, PlanFits, OnLedger,
         ChainSafety.WorldInv, NetInv, ChainSessions.Covers, C.Prepared, World, C.SeenOnChain, C.SignedOver;
    WorldIsShaped(c, x, y);
    WorldLedger(c, y);
    LockedIsEquipped(c, x, y'.net, p);
    ConfirmedSeen(c, y', p);
    JoinFollows(c, x, World(c, y), p, s, World(c, y'));
    ChainTheorems.ReachableNext(x, World(c, y), C.Join(p, s), World(c, y'));
  }

  lemma JoinFollows(c: Conf, x: C.Setting, w: C.World, p: Pid, s: Session, w': C.World)
    requires C.ValidSetting(x) && C.Shaped(x, w) && ChainSessions.Covers(x, w.ledger) && p in x.honest && p in w.ledger
    requires p !in w.party && C.At(w.ledger, p).Absent? && C.JustFunded(x, w.ledger, p, s)
    requires w' == w.(party := w.party[p := s])
    ensures ChainTheorems.Follows(x, w, C.Join(p, s), w')
  {
    hide IsRing, C.JustFunded;
  }

  // ---------- ticks ----------

  lemma PutNothing(x: C.Setting, w: C.World, p: Pid)
    requires C.ValidSetting(x) && C.Shaped(x, w) && p in w.party
    ensures C.Put(x, w, p, Ok(w.Party(p), [], [])) == w
  {
    hide IsRing;
    assert w.party[p := w.Party(p)] == w.party;
    var none: seq<WireMessage> := [];
    assert !C.Reveals(none);
  }

  lemma LeaderKnown(c: Conf, n: N.Net, p: Pid)
    requires ValidConf(c) && N.Shaped(c, n) && NetInv(c, n) && p in c.env.ring && p in n.onChain
    ensures n.Party(p).leader == Some(c.plan.leader) && n.Party(p).me == p
  {
    hide IsRing, PartyInv, N.SentIn, Links, PointsFirst, SomeoneCommits, Parties, Funded, Fifo, Grounded, MayEmit;
    LockedIsFunded(c, n, p);
    NetworkSafety.PartyOf(c, n, p);
    FundedIsOpened(c, p, n.Got(p));
    Handover.FundedHasRounds(c, n.Party(p), N.SentIn(n.Log(p)), n.Got(p));
  }

  /** The spend poll of a locked party, with or without a poller, is the chain's. */
  lemma SpendPollSeen(c: Conf, x: C.Setting, y: Sys, p: Pid, y': Sys)
    requires Fits(c, x) && Shaped(c, y) && p in c.env.ring && p in y.net.onChain && y' == Polled(c, x, y, SpendPoll(c, x, y, p))
    requires C.ValidSetting(x) && C.Shaped(x, World(c, y)) && C.Target(x, x.leader) in y.ledger && p in World(c, y).party
    requires PlanFits(c) && StateInv(c, x, y)
    ensures StateInv(c, x, y') && World(c, y') == C.PollLeaderSpend(x, World(c, y), p) && y'.net.onChain == y.net.onChain
  {
    hide IsRing, PlanFits, NetInv, OnLedger, C.Put, OnLeaderSpendPoll, Joined, Revealed, C.Published, Stepped;
    JoinedParty(c, y.net, p);
    LeaderKnown(c, y.net, p);
    var s, e := y.net.Party(p), SpendPoll(c, x, y, p);
    if s.state == AwaitingLeaderSpend {
      var o := OnLeaderSpendPoll(s, x.leader, C.Found(x, y.ledger, s));
      assert OutcomeOf(c, y.net, e) == o;
      LockedMoves(c, x, y, e, C.Put(x, World(c, y), p, o), o, y');
    } else {
      NoSpendPoll(s, x.leader, C.Found(x, y.ledger, s));
      PutNothing(x, World(c, y), p);
    }
  }

  lemma NoSpendPoll(s: Session, leader: Pid, found: Option<Secret>)
    requires s.state != AwaitingLeaderSpend
    ensures OnLeaderSpendPoll(s, leader, found) == Ok(s, [], [])
  {
  }

  lemma WindowPollSeen(c: Conf, x: C.Setting, y: Sys, p: Pid, y': Sys)
    requires Fits(c, x) && Shaped(c, y) && p in c.env.ring && p in y.net.onChain && y' == Polled(c, x, y, WindowPoll(c, x, y, p))
    requires C.ValidSetting(x) && C.Shaped(x, World(c, y)) && p in World(c, y).party
    requires PlanFits(c) && StateInv(c, x, y)
    ensures StateInv(c, x, y') && World(c, y') == C.PollRefund(x, World(c, y), p)
  {
    hide IsRing, PlanFits, NetInv, OnLedger, C.Put, OnRefundPoll, Joined, Revealed, Stepped, C.RefundAcceptable, C.WindowOpen;
    JoinedParty(c, y.net, p);
    var s, e := y.net.Party(p), WindowPoll(c, x, y, p);
    if p in s.locksConfirmed {
      var o := OnRefundPoll(s, e.open, e.accepted);
      assert OutcomeOf(c, y.net, e) == o;
      LockedMoves(c, x, y, e, C.Put(x, World(c, y), p, o), o, y');
    }
  }

  lemma PollKeepsShape(x: C.Setting, w: C.World, p: Pid, w1: C.World)
    requires C.ValidSetting(x) && C.Shaped(x, w) && p in w.party && C.Target(x, x.leader) in w.ledger
    requires w1 == C.PollLeaderSpend(x, w, p)
    ensures C.Shaped(x, w1) && p in w1.party && w1.tip == w.tip && C.Target(x, x.leader) in w1.ledger
  {
    hide IsRing, OnLeaderSpendPoll, C.SettleAll, C.Reveals;
  }

  lemma TickSteps(c: Conf, x: C.Setting, y: Sys, p: Pid, y': Sys)
    requires TickGoes(c, x, y, p, y') && p in y.net.onChain
    requires PlanFits(c) && SysInv(c, x, y)
    ensures SysInv(c, x, y')
  {
    hide IsRing, PlanFits, NetInv, OnLedger, C.PollLeaderSpend, C.PollRefund, Polled, World, ChainTheorems.Reachable,
         C.WindowOpen, C.RefundAcceptable, ChainSafety.WorldInv, ChainSessions.Covers;
    WorldIsShaped(c, x, y);
    WorldParty(c, y, p);
    var w := World(c, y);
    var y1 := Polled(c, x, y, SpendPoll(c, x, y, p));
    SpendPollSeen(c, x, y, p, y1);
    PollKeepsShape(x, w, p, World(c, y1));
    var y2 := Polled(c, x, y1, WindowPoll(c, x, y1, p));
    WindowPollSeen(c, x, y1, p, y2);
    ServedSeen(c, x, y2, y');
    assert C.Enabled(x, w, C.Tick(p));
    assert World(c, y') == C.Step(x, w, C.Tick(p));
    ChainTheorems.ReachableNext(x, w, C.Tick(p), World(c, y'));
  }

  lemma ServedSeen(c: Conf, x: C.Setting, y: Sys, y': Sys)
    requires N.Shaped(c, y.net) && y' == y.(served := y'.served)
    requires StateInv(c, x, y)
    ensures StateInv(c, x, y') && World(c, y') == World(c, y).(served := y'.served)
    ensures World(c, y).served == y.served
  {
    hide IsRing, NetInv;
  }

  lemma WorldParty(c: Conf, y: Sys, p: Pid)
    requires N.Shaped(c, y.net) && p in c.env.ring && p in y.net.onChain
    ensures p in World(c, y).party && World(c, y).Party(p) == y.net.Party(p) && World(c, y).ledger == y.ledger
    ensures World(c, y).tip == y.tip && World(c, y).crashed == {}
  {
  }

  // ---------- confirmations and the clock ----------

  lemma ConfirmSteps(c: Conf, x: C.Setting, y: Sys, owner: Pid, y': Sys)
    requires Shaped(c, y) && Enabled(c, y, Confirm(owner)) && y' == y.(ledger := y.ledger[owner := C.Locked])
    requires SysInv(c, x, y)
    ensures SysInv(c, x, y')
  {
    hide IsRing, NetInv, ChainTheorems.Reachable, ChainSafety.WorldInv, ChainSessions.Covers, OnLedger, Joined, Revealed;
    WorldIsShaped(c, x, y);
    JoinedParty(c, y.net, owner);
    ConfirmLedger(c, y, owner, y');
    assert World(c, y') == C.Step(x, World(c, y), C.Confirm(owner));
    ChainTheorems.ReachableNext(x, World(c, y), C.Confirm(owner), World(c, y'));
  }

  lemma ConfirmLedger(c: Conf, y: Sys, owner: Pid, y': Sys)
    requires Shaped(c, y) && owner in c.env.ring && owner in y.net.onChain && y' == y.(ledger := y.ledger[owner := C.Locked])
    requires OnLedger(c, y)
    ensures Shaped(c, y') && OnLedger(c, y')
  {
    forall p {:trigger y'.net.Party(p)} | p in c.env.ring
      ensures C.SeenOnChain(y'.net.Party(p).locksConfirmed, y'.ledger)
    {
      assert C.SeenOnChain(y.net.Party(p).locksConfirmed, y.ledger);
    }
    forall q {:trigger C.At(y'.ledger, q)} | q in c.env.ring && !C.At(y'.ledger, q).Absent?
      ensures q in y'.net.onChain
    {
      assert q != owner ==> C.At(y'.ledger, q) == C.At(y.ledger, q);
    }
  }

  lemma AdvanceSteps(c: Conf, x: C.Setting, y: Sys, tip: Tip, y': Sys)
    requires Shaped(c, y) && Enabled(c, y, Advance(tip)) && C.ValidSetting(x)
    requires y' == y.(tip := tip, late := y.late + C.LateAt(x, y.served, tip))
    requires SysInv(c, x, y)
    ensures SysInv(c, x, y')
  {
    hide IsRing, NetInv, ChainTheorems.Reachable, ChainSafety.WorldInv, ChainSessions.Covers, C.LateAt, Joined, Revealed;
    WorldIsShaped(c, x, y);
    assert World(c, y') == C.Step(x, World(c, y), C.Advance(tip));
    ChainTheorems.ReachableNext(x, World(c, y), C.Advance(tip), World(c, y'));
  }

  // ---------- every event, every run ----------

  lemma LocalSteps(c: Conf, x: C.Setting, y: Sys, e: N.Event, y': Sys)
    requires N.Shaped(c, y.net) && Goes(c, x, y, e, y') && (e.Starts? || e.Delivery? || e.LockPoll?)
    requires PlanFits(c) && SysInv(c, x, y)
    ensures SysInv(c, x, y')
  {
    hide IsRing, NetInv, OnLedger, PlanFits, World, ChainTheorems.Reachable, Goes, N.Enabled, IsPut, ChainTheorems.Follows,
         Shaped, N.Shaped, Fits;
    GoesIs(c, x, y, e, y');
    InParty(c, y.net, e);
    if e.p !in y.net.onChain {
      UnlockedKeeps(c, x, y, e, y');
    } else if e.Starts? {
      LockedNeverStarts(c, x, y, e);
    } else {
      LockedLocal(c, x, y, e, y');
    }
  }

  lemma LockedNeverStarts(c: Conf, x: C.Setting, y: Sys, e: N.Event)
    requires N.Shaped(c, y.net) && e.p in y.net.onChain && e.p in c.env.ring && N.Enabled(c, y.net, e)
    requires SysInv(c, x, y)
    ensures !e.Starts?
  {
    hide IsRing, NetInv, OnLedger, ChainTheorems.Reachable, N.Enabled;
    LockedHasStarted(c, y.net, e.p);
    if e.Starts? {
      NoSecondStart(c, y.net, e);
    }
  }

  lemma LockedLocal(c: Conf, x: C.Setting, y: Sys, e: N.Event, y': Sys)
    requires N.Shaped(c, y.net) && e.p in y.net.onChain && e.p in c.env.ring && Goes(c, x, y, e, y') && (e.Delivery? || e.LockPoll?)
    requires PlanFits(c) && SysInv(c, x, y)
    ensures SysInv(c, x, y')
  {
    hide IsRing, NetInv, OnLedger, PlanFits, World, ChainTheorems.Reachable, Goes, N.Enabled, IsPut, ChainTheorems.Follows,
         Shaped, N.Shaped, SysInv;
    GoesIs(c, x, y, e, y');
    if e.Delivery? {
      var ce, w' := DeliverySeen(c, x, y, e, OutcomeOf(c, y.net, e));
      LockedKeeps(c, x, y, e, ce, w', OutcomeOf(c, y.net, e), y');
    } else {
      var ce, w' := LockPollSeen(c, x, y, e, y', OutcomeOf(c, y.net, e));
      LockedKeeps(c, x, y, e, ce, w', OutcomeOf(c, y.net, e), y');
    }
  }

  lemma LockedHasStarted(c: Conf, n: N.Net, p: Pid)
    requires ValidConf(c) && N.Shaped(c, n) && NetInv(c, n) && p in c.env.ring && p in n.onChain
    ensures N.SentIn(n.Log(p)).point
  {
    hide IsRing, PartyInv, N.SentIn, Links, PointsFirst, SomeoneCommits, Parties, Funded, Fifo, Grounded, MayEmit, Opened;
    LockedIsFunded(c, n, p);
    NetworkSafety.PartyOf(c, n, p);
    FundedIsOpened(c, p, n.Got(p));
    OpenedHasStarted(c, n.Party(p), N.SentIn(n.Log(p)), n.Got(p));
  }

  lemma OpenedHasStarted(c: Conf, s: Session, sent: Sent, got: Handled)
    requires ValidConf(c) && PartyInv(c, s, sent, got) && Opened(c, s.me, got.nonces)
    ensures sent.point
  {
    hide IsRing, Funded, PointsInv, ElectionInv, OpeningInv, MusigInv, NoncesInv, PartialsInv, RefundsInv, SpendsInv,
         PhaseInv, ClaimInv, LeaderInv, Opened;
    NoCommitmentYet(c, s.me, sent, got);
  }

  lemma NoSecondStart(c: Conf, n: N.Net, e: N.Event)
    requires N.Shaped(c, n) && N.Enabled(c, n, e) && e.Starts?
    ensures !N.SentIn(n.Log(e.p)).point
  {
  }

  /** Every event keeps the invariant; seen from the chain it is one event of the chain phase, or none. */
  lemma NextKeeps(c: Conf, x: C.Setting, y: Sys, e: Event, y': Sys)
    requires Next(c, x, y, e, y')
    requires PlanFits(c) && SysInv(c, x, y)
    ensures SysInv(c, x, y')
  {
    hide IsRing, NetInv, OnLedger, PlanFits, World, ChainTheorems.Reachable, Goes, N.Enabled, C.LateAt, TickGoes, SysInv;
    match e {
      case Local(e) => LocalSteps(c, x, y, e, y');
      case Tick(p) => TickSteps(c, x, y, p, y');
      case Confirm(owner) => ConfirmSteps(c, x, y, owner, y');
      case Advance(tip) => AdvanceSteps(c, x, y, tip, y');
    }
  }

  ghost predicate IsRun(c: Conf, x: C.Setting, ys: seq<Sys>, es: seq<Event>) {
    && |ys| == |es| + 1 && Begins(c, x, ys[0])
    && forall i {:trigger es[i]} :: 0 <= i < |es| ==> Next(c, x, ys[i], es[i], ys[i + 1])
  }

  ghost predicate Reachable(c: Conf, x: C.Setting, y: Sys) {
    exists ys, es :: IsRun(c, x, ys, es) && ys[|es|] == y
  }

  lemma NothingRevealed(c: Conf, net: N.Net)
    requires FreshNet(c, net) && N.Shaped(c, net)
    ensures Revealed(c, net) == {} && Joined(net) == map[]
  {
    forall p | p in c.env.ring
      ensures !C.Reveals(net.Log(p))
    {
      assert net.Log(p) == [];
    }
  }

  lemma NothingSeen(c: Conf, y: Sys)
    requires Shaped(c, y) && FreshNet(c, y.net) && NothingOnChain(c, y.ledger)
    ensures OnLedger(c, y)
  {
  }

  lemma BeginsOk(c: Conf, x: C.Setting, y: Sys)
    requires Begins(c, x, y)
    ensures SysInv(c, x, y)
  {
    hide IsRing, NetInv, ChainTheorems.Reachable, C.LateAt, N.Initial, OnLedger, Joined, Revealed;
    NetworkSafety.InitialInv(c);
    assert N.Shaped(c, y.net);
    NothingRevealed(c, y.net);
    NothingSeen(c, y);
    ChainTheorems.BeginsReachable(x, World(c, y));
  }

  lemma {:induction false} RunOk(c: Conf, x: C.Setting, ys: seq<Sys>, es: seq<Event>, i: nat)
    requires IsRun(c, x, ys, es) && i < |ys| && PlanFits(c)
    ensures SysInv(c, x, ys[i])
  {
    hide PlanFits, SysInv, Begins, Next;
    if i == 0 {
      BeginsOk(c, x, ys[0]);
    } else {
      RunOk(c, x, ys, es, i - 1);
      assert Next(c, x, ys[i - 1], es[i - 1], ys[i]);
      NextKeeps(c, x, ys[i - 1], es[i - 1], ys[i]);
    }
  }

  lemma ReachableOk(c: Conf, x: C.Setting, y: Sys)
    requires PlanFits(c) && Reachable(c, x, y)
    ensures SysInv(c, x, y)
  {
    hide PlanFits, SysInv, Begins, Next;
    var ys, es :| IsRun(c, x, ys, es) && ys[|es|] == y;
    RunOk(c, x, ys, es, |es|);
  }

  // ---------- the outcomes, from the first message on ----------

  /** Whatever an honest run does is something the chain phase does with nobody hurt; so no handler panics,
      and all that is proved of the chain phase holds. */
  lemma HonestRunsAreChainRuns(c: Conf, x: C.Setting, y: Sys)
    requires N.Shaped(c, y.net)
    requires PlanFits(c) && Reachable(c, x, y)
    ensures ChainTheorems.Reachable(x, World(c, y)) && ChainSafety.WorldInv(x, World(c, y))
    ensures World(c, y).ledger == y.ledger && World(c, y).late == y.late && World(c, y).hurt == {} && !y.net.crashed
  {
    hide PlanFits, Reachable, IsRing, ChainTheorems.Reachable, ChainSafety.WorldInv, OnLedger, Links, PointsFirst,
         SomeoneCommits, ChainInv, Parties;
    ReachableOk(c, x, y);
    WorldIsShaped(c, x, y);
  }

  /** Whoever has locked can claim what it was to claim. */
  lemma AllMatched(c: Conf, x: C.Setting, y: Sys)
    requires Fits(c, x) && N.Shaped(c, y.net)
    requires NetInv(c, y.net) && PlanFits(c)
    ensures forall p {:trigger ChainTheorems.Matched(x, World(c, y), p)} :: p in World(c, y).party ==> ChainTheorems.Matched(x, World(c, y), p)
  {
    hide IsRing, NetInv, PlanFits, Revealed, C.SignedOver, C.Prepared;
    var w := World(c, y);
    assert w.party == Joined(y.net);
    forall p {:trigger ChainTheorems.Matched(x, w, p)} | p in w.party
      ensures ChainTheorems.Matched(x, w, p)
    {
      LockedIsEquipped(c, x, y.net, p);
    }
  }

  /** All or nothing: with everybody served in time no lock is claimed while another one is returned, however
      signing, confirming and polling interleave. */
  lemma HonestAtomicity(c: Conf, x: C.Setting, y: Sys, q: Pid, r: Pid)
    requires q in y.ledger && r in y.ledger && y.late == {}
    requires PlanFits(c) && Reachable(c, x, y)
    ensures !(C.At(y.ledger, q).Claimed? && C.At(y.ledger, r).Returned?)
  {
    hide PlanFits, Reachable, IsRing, ChainTheorems.Reachable, ChainSafety.WorldInv, NetInv, OnLedger, ChainTheorems.Matched;
    ReachableOk(c, x, y);
    HonestRunsAreChainRuns(c, x, y);
    AllMatched(c, x, y);
    ChainTheorems.Atomicity(x, World(c, y), q, r);
  }

  /** And whoever is served in time does not lose, whatever happens to the others. */
  lemma HonestNoLoss(c: Conf, x: C.Setting, y: Sys, p: Pid)
    requires p in c.env.ring && ChainSafety.CoversTarget(x, y.ledger, p) && p !in y.late
    requires PlanFits(c) && Reachable(c, x, y)
    ensures !ChainTheorems.Lost(x, y.ledger, p)
  {
    hide PlanFits, Reachable, IsRing, ChainTheorems.Reachable, ChainSafety.WorldInv, NetInv, OnLedger, ChainTheorems.Lost,
         ChainTheorems.Matched;
    ReachableOk(c, x, y);
    HonestRunsAreChainRuns(c, x, y);
    AllMatched(c, x, y);
    assert ChainTheorems.Matched(x, World(c, y), p) by {
      if p in World(c, y).party {
        assert World(c, y).Party(p) == World(c, y).Party(p);
      } else {
        NotJoined(x, World(c, y), p);
      }
    }
    ChainTheorems.NoLoss(x, World(c, y), p);
  }

  lemma NotJoined(x: C.Setting, w: C.World, p: Pid)
    requires p !in w.party
    ensures ChainTheorems.Matched(x, w, p)
  {
  }
}
