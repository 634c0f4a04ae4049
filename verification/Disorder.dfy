/** What the order of each link and single delivery are for: a session that starts afresh and is sent nothing
    but the messages of honest peers, once with two of them in the wrong order and once with one repeated. */
module Disorder {
  import opened Ring
  import opened Protocol
  import opened PartyInvariant
  import opened PartySteps
  import opened SigningSteps
  import opened FundingSteps
  import opened Handling
  import opened Effects
  import opened NonceUse
  import NetworkSafety

  function Begin(c: Conf, me: Pid): Session {
    NewSession(me, c.tape(me).secret, c.tape(me).point)
  }

  /** The call that hands over the message of a kind from a peer; the chain takes whatever is submitted. */
  function TheCall(c: Conf, me: Pid, from: Pid, k: Kind): Call {
    Message(TheMessage(c, from, k), from, c.tape(me).draw, true)
  }

  ghost predicate Belongs(c: Conf, me: Pid, q: Pid, k: Kind) { q in c.env.ring && q != me && ValidKind(c, k) }

  /** The calls are the start and the messages of peers, as they sent them, and no message comes twice. */
  ghost predicate Once(c: Conf, me: Pid, calls: seq<Call>, got: Handled) {
    && ValidConf(c) && me in c.env.ring
    && (forall i {:trigger calls[i]} :: 0 <= i < |calls| ==> calls[i].StartCall? || Honest(c, me, calls[i], got))
    && (forall i, j {:trigger calls[i], calls[j]} :: 0 <= i < j < |calls| ==> calls[i] != calls[j])
    && (forall q: Pid, k: Kind {:trigger Has(got, q, k)} :: Has(got, q, k) && Belongs(c, me, q, k) ==> TheCall(c, me, q, k) in calls)
  }

  ghost predicate Honest(c: Conf, me: Pid, call: Call, got: Handled) {
    && ValidConf(c) && me in c.env.ring
    && call.Message? && Belongs(c, me, call.from, KindOf(call.msg)) && Has(got, call.from, KindOf(call.msg))
    && call == TheCall(c, me, call.from, KindOf(call.msg))
  }

  /** A session after some calls, with what it has broadcast and submitted; `sent` and `got` are the kinds of
      messages it has sent and handled. */
  datatype Stand = Stand(calls: seq<Call>, s: Session, out: seq<WireMessage>, submitted: seq<Submission>, sent: Sent, got: Handled)

  /** Everything has come in order. */
  ghost predicate InOrder(c: Conf, me: Pid, a: Stand) {
    && ValidConf(c) && me in c.env.ring
    && a.s.me == me && a.sent.point
    && LockSubmissions(a.submitted) == FundingCount(a.s.history)
    && Once(c, me, a.calls, a.got)
    && PartyInv(c, a.s, a.sent, a.got)
    && PerformAll(c.env, Begin(c, me), a.calls) == Ok(a.s, a.out, a.submitted)
  }

  /** A fresh session goes through the calls without a panic and submits its lock so many times. */
  ghost predicate Submits(c: Conf, me: Pid, calls: seq<Call>, times: nat) {
    && ValidConf(c) && me in c.env.ring
    && var o := PerformAll(c.env, Begin(c, me), calls);
    o.Ok? && LockSubmissions(o.submitted) == times
  }

  /** Once by the calls, and a second time by one call more. */
  ghost predicate SubmitsAgain(c: Conf, me: Pid, calls: seq<Call>, call: Call) {
    && ValidConf(c) && me in c.env.ring
    && Submits(c, me, calls, 1) && Submits(c, me, calls + [call], 2)
  }

  // ---------- one call more ----------

  lemma HasWith(got: Handled, from: Pid, k: Kind)
    ensures forall q: Pid, j: Kind {:trigger Has(With(got, from, k), q, j)} ::
              Has(With(got, from, k), q, j) <==> Has(got, q, j) || (q == from && j == k)
  {
  }

  lemma KindIs(c: Conf, p: Pid, k: Kind)
    requires ValidConf(c) && p in c.env.ring
    ensures KindOf(TheMessage(c, p, k)) == k
  {
    hide IsRing;
  }

  lemma OnceMore(c: Conf, me: Pid, calls: seq<Call>, got: Handled, from: Pid, k: Kind)
    requires ValidConf(c) && me in c.env.ring && Once(c, me, calls, got) && Belongs(c, me, from, k) && !Has(got, from, k)
    ensures Once(c, me, calls + [TheCall(c, me, from, k)], With(got, from, k))
  {
    hide IsRing, Has, With, KindOf, TheMessage, ValidKind;
    HasWith(got, from, k);
    KindIs(c, from, k);
    var call := TheCall(c, me, from, k);
    var calls' := calls + [call];
    assert calls'[|calls|] == call;
    forall q: Pid, j: Kind {:trigger Has(With(got, from, k), q, j)} | Has(With(got, from, k), q, j) && Belongs(c, me, q, j)
      ensures TheCall(c, me, q, j) in calls'
    {
      assert Has(got, q, j) ==> TheCall(c, me, q, j) in calls;
    }
    forall i {:trigger calls'[i]} | 0 <= i < |calls'|
      ensures calls'[i].StartCall? || Honest(c, me, calls'[i], With(got, from, k))
      ensures i < |calls| ==> calls'[i] != call
    {
      if i < |calls| {
        assert calls'[i] == calls[i];
      }
    }
  }

  lemma PerformMore(env: Env, s: Session, calls: seq<Call>, call: Call, o: Outcome, o': Outcome)
    requires IsRing(env.ring) && o == PerformAll(env, s, calls) && o.Ok? && o' == Perform(env, o.session, call) && o'.Ok?
    ensures PerformAll(env, s, calls + [call]) == Ok(o'.session, o.out + o'.out, o.submitted + o'.submitted)
  {
    hide IsRing, Perform;
    assert (calls + [call])[..|calls|] == calls;
  }

  lemma {:induction false} StaysOut(sent: Sent, out: seq<WireMessage>)
    requires sent.point
    ensures After(sent, out).point
  {
    if out != [] {
      StaysOut(sent, out[..|out| - 1]);
    }
  }

  /** What a peer has to send first: for a partial signature, of the public nonces only the one of its role. */
  predicate Before(j: Kind, k: Kind) { Rank(j) < Rank(k) && (j.KSchnorr? && k.KPartial? ==> j.role == k.role) }

  /** All of that has come from that peer. */
  ghost predicate Below(c: Conf, got: Handled, q: Pid, k: Kind) {
    forall j {:trigger Has(got, q, j)} :: ValidKind(c, j) && Before(j, k) ==> Has(got, q, j)
  }

  /** The message of a setup kind may come next. */
  ghost predicate Ready(c: Conf, me: Pid, got: Handled, q: Pid, k: Kind) {
    Belongs(c, me, q, k) && Rank(k) <= 4 && !Has(got, q, k) && Below(c, got, q, k)
  }

  lemma ReadyIsFifo(c: Conf, me: Pid, got: Handled, q: Pid, k: Kind)
    requires Fifo(c, me, got) && Ready(c, me, got, q, k)
    ensures Fifo(c, me, With(got, q, k))
  {
    assert 0 < Rank(k) ==> Has(got, q, KPoint);
    assert 1 < Rank(k) ==> Has(got, q, KCommitment);
    assert 2 < Rank(k) ==> Has(got, q, KNonce);
    if k.KPartial? {
      assert Has(got, q, KSchnorr(k.role));
    }
  }

  lemma StillReady(c: Conf, me: Pid, got: Handled, q: Pid, k: Kind, from: Pid, j: Kind)
    requires Ready(c, me, got, q, k) && (q, k) != (from, j)
    ensures Ready(c, me, With(got, from, j), q, k)
  {
    hide Has, With, Belongs;
    HasWith(got, from, j);
  }

  lemma Started(c: Conf, me: Pid) returns (a: Stand)
    requires ValidConf(c) && me in c.env.ring
    ensures InOrder(c, me, a) && a.got == NOTHING_HANDLED
  {
    hide IsRing, PartyInv, MayEmit, FundingCount, LockSubmissions, Protocol.Start;
    var s0 := Begin(c, me);
    NetworkSafety.NewPartyInv(c, me);
    NetworkSafety.NothingSent();
    var none: seq<Call> := [];
    assert PerformAll(c.env, s0, none) == Ok(s0, [], []);
    ClaimSteps.StepStart(c, s0, NOTHING_SENT, NOTHING_HANDLED);
    var o := Protocol.Start(s0);
    StartEffect(s0);
    NewCounts(s0);
    PerformMore(c.env, s0, none, StartCall, Ok(s0, [], []), o);
    StartIs(s0);
    a := Stand([StartCall], o.session, o.out, o.submitted, After(NOTHING_SENT, o.out), NOTHING_HANDLED);
    assert none + [StartCall] == a.calls;
    assert [] + o.out == o.out && [] + o.submitted == o.submitted;
  }

  lemma StartIs(s: Session)
    requires s.me in s.points
    ensures Protocol.Start(s).Ok? && Protocol.Start(s).out == [AdaptorPoint(s.points[s.me])] && Protocol.Start(s).submitted == []
    ensures After(NOTHING_SENT, Protocol.Start(s).out).point
  {
    assert [AdaptorPoint(s.points[s.me])][..0] == [];
  }

  lemma NewCounts(s: Session)
    requires s.history == [Initialized]
    ensures FundingCount(s.history) == 0
  {
    assert [Initialized][..0] == [];
  }

  lemma FeedOne(c: Conf, me: Pid, a: Stand, from: Pid, k: Kind) returns (b: Stand)
    requires ValidConf(c) && me in c.env.ring && PlanFits(c) && InOrder(c, me, a) && Ready(c, me, a.got, from, k)
    ensures InOrder(c, me, b) && b.got == With(a.got, from, k) && b.calls == a.calls + [TheCall(c, me, from, k)]
    ensures Delivers(c, a.s, a.sent, a.got, from, k)
    ensures var o := HandleMessage(c.env, a.s, TheMessage(c, from, k), from, c.tape(me).draw, true);
            o.Ok? && b.s == o.session && b.submitted == a.submitted + o.submitted && b.sent == After(a.sent, o.out)
  {
    hide IsRing, PlanFits, InputsFit, PartyInv, Fifo, MayEmit, FundingCount, LockSubmissions, HandleMessage, With, TheMessage, Ready,
         Has, PerformAll, Once, Rank;
    ReadySays(c, me, a, from, k);
    StepMessage(c, a.s, a.sent, a.got, from, k, true);
    var o := HandleMessage(c.env, a.s, TheMessage(c, from, k), from, c.tape(me).draw, true);
    MessageEffect(c.env, a.s, TheMessage(c, from, k), from, c.tape(me).draw, true);
    SubmissionsAdd(a.submitted, o.submitted);
    PerformMore(c.env, Begin(c, me), a.calls, TheCall(c, me, from, k), Ok(a.s, a.out, a.submitted), o);
    OnceMore(c, me, a.calls, a.got, from, k);
    StaysOut(a.sent, o.out);
    b := Stand(a.calls + [TheCall(c, me, from, k)], o.session, a.out + o.out, a.submitted + o.submitted,
               After(a.sent, o.out), With(a.got, from, k));
  }

  lemma ReadySays(c: Conf, me: Pid, a: Stand, from: Pid, k: Kind)
    requires ValidConf(c) && me in c.env.ring && PlanFits(c) && a.s.me == me && a.sent.point
    requires PartyInv(c, a.s, a.sent, a.got) && Ready(c, me, a.got, from, k)
    ensures Belongs(c, me, from, k) && !Has(a.got, from, k) && Timely(a.sent, k) && Delivers(c, a.s, a.sent, a.got, from, k)
  {
    hide IsRing, PointsInv, ElectionInv, RevealInv, OpeningInv, MusigInv, NoncesInv, PartialsInv, RefundsInv, SpendsInv,
         ClaimInv, LeaderInv, PhaseInv, Opened, Funded, InputsFit, Fifo, With, Has, Below, PlanFits;
    PlanGivesInputs(c);
    ReadyIsFifo(c, me, a.got, from, k);
  }

  // ---------- a whole setup, but for what is held back ----------

  ghost predicate AllReady(c: Conf, me: Pid, got: Handled, todo: set<(Pid, Kind)>, rank: nat) {
    forall q: Pid, k: Kind {:trigger (q, k) in todo} :: (q, k) in todo ==> Rank(k) == rank && Ready(c, me, got, q, k)
  }

  /** What has been handled now: that of before, and `more`. */
  ghost predicate Joined(got: Handled, more: set<(Pid, Kind)>, got': Handled) {
    forall q: Pid, k: Kind {:trigger Has(got', q, k)} :: Has(got', q, k) <==> Has(got, q, k) || (q, k) in more
  }

  lemma RestIsReady(c: Conf, me: Pid, got: Handled, todo: set<(Pid, Kind)>, rank: nat, from: Pid, j: Kind)
    requires AllReady(c, me, got, todo, rank) && (from, j) in todo
    ensures AllReady(c, me, With(got, from, j), todo - {(from, j)}, rank)
  {
    hide Ready, With, Rank;
    forall q: Pid, k: Kind {:trigger (q, k) in todo - {(from, j)}} | (q, k) in todo - {(from, j)}
      ensures Rank(k) == rank && Ready(c, me, With(got, from, j), q, k)
    {
      StillReady(c, me, got, q, k, from, j);
    }
  }

  lemma JoinedFirst(got: Handled, todo: set<(Pid, Kind)>, from: Pid, j: Kind, got': Handled)
    requires (from, j) in todo && Joined(With(got, from, j), todo - {(from, j)}, got')
    ensures Joined(got, todo, got')
  {
    hide Has, With;
    HasWith(got, from, j);
  }

  /** Messages of one rank, in some order. */
  lemma {:induction false} Feed(c: Conf, me: Pid, a: Stand, todo: set<(Pid, Kind)>, rank: nat) returns (b: Stand)
    requires ValidConf(c) && me in c.env.ring && PlanFits(c) && InOrder(c, me, a) && AllReady(c, me, a.got, todo, rank)
    ensures InOrder(c, me, b) && Joined(a.got, todo, b.got)
    decreases |todo|
  {
    hide IsRing, PlanFits, InOrder, Ready, Has, With, HandleMessage, Rank, Delivers;
    if todo == {} {
      b := a;
    } else {
      var x :| x in todo;
      assert (x.0, x.1) in todo;
      var a1 := FeedOne(c, me, a, x.0, x.1);
      RestIsReady(c, me, a.got, todo, rank, x.0, x.1);
      b := Feed(c, me, a1, todo - {(x.0, x.1)}, rank);
      JoinedFirst(a.got, todo, x.0, x.1, b.got);
    }
  }

  /** The setup kinds. */
  ghost function SetupKinds(c: Conf): set<Kind> {
    {KPoint, KCommitment, KNonce} + (set r | r in AllRoles(c.env) :: KSchnorr(r)) + (set r | r in AllRoles(c.env) :: KPartial(r))
  }

  ghost function OfRank(c: Conf, me: Pid, held: set<(Pid, Kind)>, rank: nat): set<(Pid, Kind)> {
    set q: Pid, k: Kind | q in c.env.ring && k in SetupKinds(c) && q != me && Rank(k) == rank && (q, k) !in held :: (q, k)
  }

  /** Exactly the messages below a rank have been handled, but for those held back. */
  ghost predicate UpTo(c: Conf, me: Pid, held: set<(Pid, Kind)>, rank: nat, got: Handled) {
    forall q: Pid, k: Kind {:trigger Has(got, q, k)} :: Has(got, q, k) <==> Belongs(c, me, q, k) && Rank(k) < rank && (q, k) !in held
  }

  /** Exactly the setup messages of all peers have been handled. */
  ghost predicate Whole(c: Conf, me: Pid, got: Handled) {
    forall q: Pid, k: Kind {:trigger Has(got, q, k)} :: Has(got, q, k) <==> Belongs(c, me, q, k) && Rank(k) <= 4
  }

  /** With a message those that it has to precede are held back. */
  ghost predicate ClosedAbove(c: Conf, held: set<(Pid, Kind)>) {
    forall q: Pid, j: Kind, k: Kind {:trigger (q, j) in held, (q, k) in held} ::
      (q, j) in held && ValidKind(c, k) && Before(j, k) && Rank(k) <= 4 ==> (q, k) in held
  }

  lemma SetupKindsAre(c: Conf, k: Kind)
    ensures k in SetupKinds(c) <==> ValidKind(c, k) && Rank(k) <= 4
  {
    hide AllRoles, RoleInRing;
  }

  lemma RankIsReady(c: Conf, me: Pid, held: set<(Pid, Kind)>, rank: nat, got: Handled)
    requires rank <= 4 && UpTo(c, me, held, rank, got) && ClosedAbove(c, held)
    ensures AllReady(c, me, got, OfRank(c, me, held, rank), rank)
  {
    hide Has, SetupKinds, ValidKind, Rank;
    forall q: Pid, k: Kind {:trigger (q, k) in OfRank(c, me, held, rank)} | (q, k) in OfRank(c, me, held, rank)
      ensures Rank(k) == rank && Ready(c, me, got, q, k)
    {
      SetupKindsAre(c, k);
      forall j {:trigger Has(got, q, j)} | ValidKind(c, j) && Before(j, k)
        ensures Has(got, q, j)
      {
        assert (q, j) !in held;
      }
    }
  }

  lemma RankIsIn(c: Conf, me: Pid, held: set<(Pid, Kind)>, rank: nat, got: Handled, got': Handled)
    requires rank <= 4 && UpTo(c, me, held, rank, got) && Joined(got, OfRank(c, me, held, rank), got')
    ensures UpTo(c, me, held, rank + 1, got')
  {
    hide Has, SetupKinds, ValidKind, Rank;
    forall q: Pid, k: Kind {:trigger Has(got', q, k)}
      ensures Has(got', q, k) <==> Belongs(c, me, q, k) && Rank(k) < rank + 1 && (q, k) !in held
    {
      SetupKindsAre(c, k);
      assert (q, k) in OfRank(c, me, held, rank) <==> Belongs(c, me, q, k) && Rank(k) == rank && (q, k) !in held;
    }
  }

  lemma {:induction false} FeedRanks(c: Conf, me: Pid, held: set<(Pid, Kind)>, rank: nat) returns (a: Stand)
    requires ValidConf(c) && me in c.env.ring && PlanFits(c) && ClosedAbove(c, held) && rank <= 5
    ensures InOrder(c, me, a) && UpTo(c, me, held, rank, a.got)
  {
    hide IsRing, PlanFits, InOrder, AllReady, OfRank, ClosedAbove;
    if rank == 0 {
      a := Started(c, me);
    } else {
      var a0 := FeedRanks(c, me, held, rank - 1);
      RankIsReady(c, me, held, rank - 1, a0.got);
      a := Feed(c, me, a0, OfRank(c, me, held, rank - 1), rank - 1);
      RankIsIn(c, me, held, rank - 1, a0.got, a.got);
    }
  }

  // ---------- one message twice ----------

  lemma AllIsFunded(c: Conf, me: Pid, got: Handled)
    requires me in c.env.ring
    requires forall q: Pid, role: TxRole {:trigger (q, role) in got.partials} ::
               q in c.env.ring && q != me && RoleInRing(c.env, role) ==> (q, role) in got.partials
    ensures Funded(c, me, got.partials)
  {
  }

  /** Once everything is signed, a partial signature that is already there is taken once more. */
  lemma RepeatIsTaken(c: Conf, s: Session, sent: Sent, got: Handled, from: Pid, role: TxRole)
    requires ValidConf(c) && InputsFit(c) && PartyInv(c, s, sent, got) && Funded(c, s.me, got.partials)
    requires (from, role) in s.partials && RoleInRing(c.env, role)
    ensures OnPartialSignature(c.env, s, role, s.partials[(from, role)], from, true).Ok? && AllSigned(c.env.ring, s)
  {
    hide IsRing, Fifo, Funded, PointsInv, ElectionInv, RevealInv, NoncesInv, PartialsInv, RefundsInv, SpendsInv, PhaseInv,
         ClaimInv, LeaderInv, Opened, Signs, Finalized, InputsFit, AllOthersHave, AllSigned, GatheredInputs, AddsUp, ThePartial;
    FundedIsOpened(c, s.me, got);
    AllSignedIsFunded(c, s, sent.partials, got.schnorr, got.partials);
    var again := s.(partials := s.partials[(from, role) := s.partials[(from, role)]]);
    assert again.partials == s.partials;
    assert again == s;
    var finalized := if AllOthersHave(c.env.ring, s.me, s.partials, role) then FinalizeRole(c.env, s, role) else Ok(s, [], []);
    assert finalized.Ok? by {
      FundedSays(c, s.me, got.partials, role);
      assert s.musig[role] == TheRuntime(c, s.me, role, true);
      InputsArePlanned(c, s, sent, got, role);
      PartialsAddUp(c, s, sent.partials, got.schnorr, got.partials, role);
    }
    FinalizeKeepsLocks(c.env, s, role);
    OwnLockIsBuilt(c, s, sent.schnorr);
  }

  lemma FundedSays(c: Conf, me: Pid, partials: set<(Pid, TxRole)>, role: TxRole)
    requires Funded(c, me, partials) && RoleInRing(c.env, role)
    ensures Finalized(c, me, partials, role)
  {
    hide Finalized;
  }

  lemma PartialCall(c: Conf, s: Session, from: Pid, role: TxRole, draw: Draw)
    requires ValidConf(c) && from in c.env.ring && !s.state.Terminal()
    ensures HandleMessage(c.env, s, TheMessage(c, from, KPartial(role)), from, draw, true)
         == OnPartialSignature(c.env, s, role, ThePartial(c, from, role), from, true)
  {
    hide IsRing, ThePartial, OnPartialSignature;
  }

  lemma FinalizeKeepsLocks(env: Env, s: Session, role: TxRole)
    ensures FinalizeRole(env, s, role).Ok? ==>
              FinalizeRole(env, s, role).session.lockTxs == s.lockTxs && FinalizeRole(env, s, role).session.me == s.me
  {
    hide AddsUp, GatheredInputs;
  }

  /** The last partial signature of all makes the party submit its lock. */
  lemma LastOneFunds(c: Conf, me: Pid, a: Stand, from: Pid, role: TxRole, b: Stand)
    requires ValidConf(c) && me in c.env.ring && a.s.me == me && from in c.env.ring
    requires Delivers(c, a.s, a.sent, a.got, from, KPartial(role)) && Funded(c, me, With(a.got, from, KPartial(role)).partials)
    requires LockSubmissions(a.submitted) == FundingCount(a.s.history)
    requires var o := HandleMessage(c.env, a.s, TheMessage(c, from, KPartial(role)), from, c.tape(me).draw, true);
             o.Ok? && b.s == o.session && b.submitted == a.submitted + o.submitted
    ensures b.s.state == AwaitingLockConfirmations && LockSubmissions(b.submitted) == 1
  {
    hide IsRing, PartyInv, Funded, Fifo, ThePartial, OnPartialSignature, Fund, InputsFit, Settled, ReadyToFund, LockSubmissions,
         FundingCount, With, HandleMessage, TheMessage, Delivers;
    NoFundingYet(c, a, from, role);
    PartialCall(c, a.s, from, role, c.tape(me).draw);
    PartialOutcome(c, a.s, a.sent, a.got, from, role, true);
    SettledIsReady(c, a.s, a.sent, a.got, from, role);
    ReadyFunds(c, Settled(c, a.s, from, role), a.sent, With(a.got, from, KPartial(role)), true);
    FundOutcome(c.env, Settled(c, a.s, from, role), true);
    LockSubmitted();
    SettledIsMe(c, a.s, from, role);
    SubmissionsAdd(a.submitted, [SubmitLock(Settled(c, a.s, from, role).lockTxs[me])]);
  }

  lemma NoFundingYet(c: Conf, a: Stand, from: Pid, role: TxRole)
    requires Delivers(c, a.s, a.sent, a.got, from, KPartial(role))
    ensures FundingCount(a.s.history) == 0 && !a.s.state.Terminal()
  {
    hide IsRing, Fifo, Funded, PointsInv, ElectionInv, RevealInv, OpeningInv, MusigInv, NoncesInv, PartialsInv, RefundsInv,
         SpendsInv, ClaimInv, LeaderInv, Opened, FundingCount;
    NotFundedBefore(c, a.s, a.sent, a.got, from, KPartial(role));
    NetworkSafety.CountZero(a.s.history);
  }

  /** A party that has handled every setup message, the given partial signature last. */
  lemma WholeSetup(c: Conf, me: Pid, q: Pid, role: TxRole) returns (a: Stand)
    requires ValidConf(c) && PlanFits(c) && me in c.env.ring && q in c.env.ring && q != me && RoleInRing(c.env, role)
    ensures a.calls != [] && a.calls[|a.calls| - 1] == TheCall(c, me, q, KPartial(role))
    ensures LockSubmissions(a.submitted) == 1 && a.s.state == AwaitingLockConfirmations
    ensures Whole(c, me, a.got) && Funded(c, me, a.got.partials) && InOrder(c, me, a)
  {
    hide IsRing, PlanFits, PartyInv, PerformAll, LockSubmissions, FundingCount, Funded, Has, With, Delivers, Once, HandleMessage,
         TheMessage, Ready, UpTo, Whole, Begin, TheCall, ClosedAbove;
    var held := {(q, KPartial(role))};
    assert ClosedAbove(c, held) by { NothingAbove(c, q, role); }
    var a0 := FeedRanks(c, me, held, 5);
    HeldIsReady(c, me, q, role, a0.got);
    a := FeedOne(c, me, a0, q, KPartial(role));
    EverythingIn(c, me, q, role, a0.got, a.got);
    LastOneFunds(c, me, a0, q, role, a);
  }

  /** For every ring and all random values: a party that has handled every setup message of its honest peers,
      in order, has submitted its lock; handling the last of them once more, it submits the lock again. */
  lemma RepeatSubmitsAgain(c: Conf, me: Pid, q: Pid) returns (a: Stand)
    requires ValidConf(c) && PlanFits(c) && me in c.env.ring && q in c.env.ring && q != me
    ensures Whole(c, me, a.got) && InOrder(c, me, a)
    ensures a.calls != [] && SubmitsAgain(c, me, a.calls, a.calls[|a.calls| - 1])
  {
    hide IsRing, PlanFits, InOrder, LockSubmissions, Funded, Whole, SubmitsAgain, TheCall;
    a := WholeSetup(c, me, q, Refund(me));
    OnceMoreFunds(c, me, a, q, Refund(me));
  }

  lemma OnceMoreFunds(c: Conf, me: Pid, a: Stand, q: Pid, role: TxRole)
    requires ValidConf(c) && PlanFits(c) && me in c.env.ring && q in c.env.ring && q != me && RoleInRing(c.env, role)
    requires Funded(c, me, a.got.partials) && !a.s.state.Terminal()
    requires LockSubmissions(a.submitted) == 1 && InOrder(c, me, a)
    ensures SubmitsAgain(c, me, a.calls, TheCall(c, me, q, KPartial(role)))
  {
    hide IsRing, PlanFits, PartyInv, PerformAll, LockSubmissions, FundingCount, Funded, Has, With, Once, OnPartialSignature,
         ThePartial, AllSigned, HandleMessage;
    PlanGivesInputs(c);
    assert Has(a.got, q, KPartial(role)) by { FundedHas(c, me, a.got, q, role); }
    StoredPartial(c, a.s, a.sent, a.got, q, role);
    RepeatIsTaken(c, a.s, a.sent, a.got, q, role);
    PartialCall(c, a.s, q, role, c.tape(me).draw);
    var call := TheCall(c, me, q, KPartial(role));
    var o := Perform(c.env, a.s, call);
    RepeatFundsAgain(c.env, a.s, role, q, c.tape(me).draw, true, o);
    PerformMore(c.env, Begin(c, me), a.calls, call, Ok(a.s, a.out, a.submitted), o);
    SubmissionsAdd(a.submitted, o.submitted);
  }

  lemma PlanGivesInputs(c: Conf)
    requires ValidConf(c) && PlanFits(c)
    ensures InputsFit(c)
  {
    hide IsRing, InputsFit;
  }

  lemma NothingAbove(c: Conf, q: Pid, role: TxRole)
    ensures ClosedAbove(c, {(q, KPartial(role))})
  {
  }

  lemma HeldIsReady(c: Conf, me: Pid, q: Pid, role: TxRole, got: Handled)
    requires me in c.env.ring && q in c.env.ring && q != me && RoleInRing(c.env, role)
    requires UpTo(c, me, {(q, KPartial(role))}, 5, got)
    ensures Ready(c, me, got, q, KPartial(role))
  {
    hide Has;
  }

  lemma EverythingIn(c: Conf, me: Pid, q: Pid, role: TxRole, got: Handled, got': Handled)
    requires me in c.env.ring && Belongs(c, me, q, KPartial(role)) && UpTo(c, me, {(q, KPartial(role))}, 5, got)
    requires got' == With(got, q, KPartial(role))
    ensures Whole(c, me, got') && Funded(c, me, got'.partials)
  {
    HasWith(got, q, KPartial(role));
    hide With;
    forall p: Pid, other: TxRole {:trigger (p, other) in got'.partials} | p in c.env.ring && p != me && RoleInRing(c.env, other)
      ensures (p, other) in got'.partials
    {
      assert Has(got', p, KPartial(other));
    }
    AllIsFunded(c, me, got');
  }

  lemma FundedHas(c: Conf, me: Pid, got: Handled, q: Pid, role: TxRole)
    requires Funded(c, me, got.partials) && q in c.env.ring && q != me && RoleInRing(c.env, role)
    ensures Has(got, q, KPartial(role))
  {
    assert Finalized(c, me, got.partials, role);
    assert (q, role) in got.partials;
  }

  lemma StoredPartial(c: Conf, s: Session, sent: Sent, got: Handled, q: Pid, role: TxRole)
    requires ValidConf(c) && PartyInv(c, s, sent, got) && RoleInRing(c.env, role) && q in c.env.ring && q != s.me
    requires Has(got, q, KPartial(role))
    ensures (q, role) in s.partials && s.partials[(q, role)] == ThePartial(c, q, role)
  {
    hide IsRing, Fifo, Funded, PointsInv, ElectionInv, RevealInv, OpeningInv, MusigInv, NoncesInv, RefundsInv, SpendsInv, PhaseInv,
         ClaimInv, LeaderInv, Opened, Signs, ThePartial;
  }

  // ---------- two messages of one peer the other way round ----------

  /** The party stands as after messages in order, but for one partial signature for its refund that is there
      already. */
  ghost predicate Swapped(c: Conf, me: Pid, q: Pid, b: Stand) {
    && ValidConf(c) && me in c.env.ring
    && b.s.me == me && b.sent.point && !Has(b.got, q, KPartial(Refund(me)))
    && LockSubmissions(b.submitted) == FundingCount(b.s.history)
    && Once(c, me, b.calls, With(b.got, q, KPartial(Refund(me))))
    && PartyInv(c, b.s, b.sent, b.got)
    && PerformAll(c.env, Begin(c, me), b.calls) == Ok(WithPartial(c, b.s, q, Refund(me)), b.out, b.submitted)
  }

  lemma OthersOfRole<V>(ring: Participants, me: Pid, m: map<(Pid, TxRole), V>, e: (Pid, TxRole), v: V, role: TxRole)
    requires e.1 != role
    ensures AllOthersHave(ring, me, m[e := v], role) <==> AllOthersHave(ring, me, m, role)
  {
    assert forall p: Pid {:trigger (p, role) in m} :: (p, role) in m[e := v] <==> (p, role) in m;
  }

  lemma EntersAhead(env: Env, s: Session, e: (Pid, TxRole), sig: PartialSig, role: TxRole, o: Outcome)
    requires e != (s.me, role) && o == EnterRoundTwo(env, s, role)
    ensures o.Ok?
    ensures EnterRoundTwo(env, s.(partials := s.partials[e := sig]), role)
         == Ok(o.session.(partials := o.session.partials[e := sig]), o.out, o.submitted)
  {
    hide GatheredInputs;
    var t := s.(partials := s.partials[e := sig]);
    if role in s.musig && s.musig[role].RoundOne? {
      SameInputs(env, s, t, role);
      var mine := PartialSig(s.me, s.musig[role].sec, GatheredInputs(env, s, role));
      var musig := s.musig[role := RoundTwo(s.musig[role].msg, s.musig[role].taprootTweak)];
      assert s.partials[e := sig][(s.me, role) := mine] == s.partials[(s.me, role) := mine][e := sig];
      assert o == Ok(s.(partials := s.partials[(s.me, role) := mine], musig := musig), [PartialSignature(role, mine)], []);
      assert EnterRoundTwo(env, t, role)
          == Ok(s.(partials := s.partials[(s.me, role) := mine][e := sig], musig := musig), [PartialSignature(role, mine)], []);
    } else {
      assert o == Ok(s, [], []) && EnterRoundTwo(env, t, role) == Ok(t, [], []);
    }
  }

  /** A public nonce does not look at partial signatures. */
  lemma SchnorrAhead(env: Env, s: Session, e: (Pid, TxRole), sig: PartialSig, role: TxRole, pub: PubNonce, from: Pid, o: Outcome)
    requires e != (s.me, role) && o == OnSchnorrNonce(env, s, role, pub, from)
    ensures o.Ok?
    ensures OnSchnorrNonce(env, s.(partials := s.partials[e := sig]), role, pub, from)
         == Ok(o.session.(partials := o.session.partials[e := sig]), o.out, o.submitted)
  {
    hide AllOthersHave, EnterRoundTwo;
    var s1 := s.(nonces := s.nonces[(from, role) := pub]);
    var t := s.(partials := s.partials[e := sig]);
    var t1 := t.(nonces := t.nonces[(from, role) := pub]);
    assert t1 == s1.(partials := s1.partials[e := sig]);
    if AllOthersHave(env.ring, s.me, s1.nonces, role) {
      EntersAhead(env, s1, e, sig, role, o);
    } else {
      assert o == Ok(s1, [], []);
      assert OnSchnorrNonce(env, t, role, pub, from) == Ok(t1, [], []);
    }
  }

  /** And a role does not look at the partial signatures of another. */
  lemma FinalizeAhead(env: Env, s: Session, e: (Pid, TxRole), sig: PartialSig, role: TxRole, o: Outcome)
    requires e.1 != role && o == FinalizeRole(env, s, role) && o.Ok?
    ensures FinalizeRole(env, s.(partials := s.partials[e := sig]), role)
         == Ok(o.session.(partials := o.session.partials[e := sig]), o.out, o.submitted)
  {
    hide GatheredInputs;
    var t := s.(partials := s.partials[e := sig]);
    if role in s.musig && s.musig[role].RoundTwo? {
      assert GatheredInputs(env, t, role) == GatheredInputs(env, s, role) by { SameInputs(env, s, t, role); }
      var inputs := GatheredInputs(env, s, role);
      assert ForRole(t.partials, role) == ForRole(s.partials, role);
      assert AddsUp(env, t, role, inputs) <==> AddsUp(env, s, role, inputs);
    } else {
      assert o == Ok(s, [], []);
    }
  }

  lemma SameInputs(env: Env, s: Session, t: Session, role: TxRole)
    requires role in s.musig && t.musig == s.musig && t.nonces == s.nonces && t.points == s.points
    ensures GatheredInputs(env, t, role) == GatheredInputs(env, s, role)
  {
  }

  lemma PartialAhead(c: Conf, s: Session, sent: Sent, got: Handled, q: Pid, role: TxRole, t: Session)
    requires Delivers(c, s, sent, got, q, KPartial(role)) && role != Refund(s.me)
    requires t == WithPartial(c, Settled(c, s, q, role), q, Refund(s.me))
    ensures OnPartialSignature(c.env, WithPartial(c, s, q, Refund(s.me)), role, ThePartial(c, q, role), q, true)
         == if AllSigned(c.env.ring, t) then Fund(c.env, t, true) else Ok(t, [], [])
  {
    hide PointsInv, ElectionInv, RevealInv, OpeningInv, MusigInv, NoncesInv, PartialsInv, RefundsInv, SpendsInv,
         ClaimInv, LeaderInv, PhaseInv, Opened, Signs, Funded, Finalized, Fifo, IsRing, ThePartial,
         FinalizeRole, AllSigned, Fund, InputsFit;
    var e, sig, got' := (q, Refund(s.me)), ThePartial(c, q, Refund(s.me)), With(got, q, KPartial(role));
    var s1 := WithPartial(c, s, q, role);
    var t1 := WithPartial(c, WithPartial(c, s, q, Refund(s.me)), q, role);
    assert t1.partials == s1.partials[e := sig];
    assert t1 == s1.(partials := s1.partials[e := sig]);
    PartialArrives(c, s, sent, got, q, role);
    PartialsComplete(c, s.me, s1.partials, sent.partials, got.schnorr, got'.partials, role);
    StoredAreHandled(c, s.me, s1.partials, sent.partials, got.schnorr, got'.partials, role);
    OthersOfRole(c.env.ring, s.me, s1.partials, e, sig, role);
    if Finalized(c, s.me, got'.partials, role) {
      RoleFinalizes(c, s, sent, got, q, role);
      FinalizeAhead(c.env, s1, e, sig, role, Ok(Settled(c, s, q, role), [], []));
    } else {
      assert Settled(c, s, q, role) == s1;
    }
  }

  /** The check before funding counts the partial signature that has come early. */
  lemma SignedAhead(c: Conf, s: Session, sent: Sent, got: Handled, q: Pid)
    requires ValidConf(c) && q in c.env.ring && q != s.me && s.me in c.env.ring && !Has(got, q, KPartial(Refund(s.me)))
    requires PartialsInv(c, s.me, s.partials, sent.partials, got.schnorr, got.partials) && SpendsInv(c, s.me, s.adaptorSigs, got.partials)
    ensures AllSigned(c.env.ring, WithPartial(c, s, q, Refund(s.me)))
       <==> Funded(c, s.me, got.partials + {(q, Refund(s.me))})
  {
    hide IsRing, ThePartial, Signs, AllSigned, Funded;
    var t, now := WithPartial(c, s, q, Refund(s.me)), got.partials + {(q, Refund(s.me))};
    assert PartialsInv(c, s.me, t.partials, sent.partials, got.schnorr, now);
    forall id {:trigger Spend(id)} | id in c.env.ring
      ensures Finalized(c, s.me, now, Spend(id)) <==> Finalized(c, s.me, got.partials, Spend(id))
    {
      assert forall p: Pid {:trigger (p, Spend(id)) in now} :: (p, Spend(id)) in now <==> (p, Spend(id)) in got.partials;
    }
    AllSignedIsFunded(c, t, sent.partials, got.schnorr, now);
  }

  lemma WithCommutes(got: Handled, q: Pid, j: Kind, k: Kind)
    ensures With(With(got, q, j), q, k) == With(With(got, q, k), q, j)
  {
    var a, b := With(With(got, q, j), q, k), With(With(got, q, k), q, j);
    assert a.points == b.points && a.commitments == b.commitments && a.nonces == b.nonces;
    assert a.schnorr == b.schnorr && a.partials == b.partials;
    assert a.locks == b.locks && a.secrets == b.secrets && a.spends == b.spends;
  }

  /** A message that both sessions take in the same way keeps them so. */
  lemma SwappedStep(c: Conf, me: Pid, q: Pid, b: Stand, k: Kind, o: Outcome) returns (b': Stand)
    requires ValidConf(c) && me in c.env.ring && q in c.env.ring && q != me && RoleInRing(c.env, Refund(me))
    requires Swapped(c, me, q, b) && Ready(c, me, b.got, q, k) && k != KPartial(Refund(me))
    requires o.Ok? && GoodStep(c, b.s, b.sent, With(b.got, q, k), o)
    requires HandleMessage(c.env, WithPartial(c, b.s, q, Refund(me)), TheMessage(c, q, k), q, c.tape(me).draw, true)
          == Ok(WithPartial(c, o.session, q, Refund(me)), o.out, o.submitted)
    ensures Swapped(c, me, q, b') && b'.got == With(b.got, q, k) && b'.calls == b.calls + [TheCall(c, me, q, k)]
  {
    hide IsRing, PartyInv, MayEmit, FundingCount, LockSubmissions, HandleMessage, With, TheMessage, Has, PerformAll, Once, Rank, Below,
         ThePartial;
    var early := KPartial(Refund(me));
    var t := WithPartial(c, b.s, q, Refund(me));
    MessageEffect(c.env, t, TheMessage(c, q, k), q, c.tape(me).draw, true);
    SubmissionsAdd(b.submitted, o.submitted);
    PerformMore(c.env, Begin(c, me), b.calls, TheCall(c, me, q, k), Ok(t, b.out, b.submitted),
                Ok(WithPartial(c, o.session, q, Refund(me)), o.out, o.submitted));
    HasWith(b.got, q, early);
    HasWith(b.got, q, k);
    OnceMore(c, me, b.calls, With(b.got, q, early), q, k);
    WithCommutes(b.got, q, early, k);
    StaysOut(b.sent, o.out);
    b' := Stand(b.calls + [TheCall(c, me, q, k)], o.session, b.out + o.out, b.submitted + o.submitted,
                After(b.sent, o.out), With(b.got, q, k));
  }

  lemma SwappedDelivers(c: Conf, me: Pid, q: Pid, b: Stand, k: Kind)
    requires ValidConf(c) && me in c.env.ring && PlanFits(c) && Swapped(c, me, q, b) && Ready(c, me, b.got, q, k)
    ensures Delivers(c, b.s, b.sent, b.got, q, k) && Timely(b.sent, k) && !b.s.state.Terminal()
  {
    hide IsRing, PlanFits, PartyInv, Once, PerformAll, Ready, With, Has, TheMessage, FundingCount, LockSubmissions;
    ReadySays(c, me, b, q, k);
    assert Rank(k) <= 4 by { ReadyRank(c, me, b.got, q, k); }
    NotFundedBefore(c, b.s, b.sent, b.got, q, k);
  }

  lemma ReadyRank(c: Conf, me: Pid, got: Handled, q: Pid, k: Kind)
    requires Ready(c, me, got, q, k)
    ensures Rank(k) <= 4 && Belongs(c, me, q, k) && !Has(got, q, k)
  {
  }

  /** The public nonce that should have come before. */
  lemma NonceComesLate(c: Conf, me: Pid, q: Pid, b: Stand) returns (b': Stand)
    requires ValidConf(c) && me in c.env.ring && PlanFits(c) && q in c.env.ring && q != me
    requires Swapped(c, me, q, b) && Ready(c, me, b.got, q, KSchnorr(Refund(me)))
    ensures Swapped(c, me, q, b') && b'.got == With(b.got, q, KSchnorr(Refund(me)))
    ensures b'.calls == b.calls + [TheCall(c, me, q, KSchnorr(Refund(me)))]
  {
    hide IsRing, PlanFits, PartyInv, Swapped, Ready, GoodStep, OnSchnorrNonce, With, ThePartial, Delivers;
    var role := Refund(me);
    SwappedDelivers(c, me, q, b, KSchnorr(role));
    SwappedIsMe(c, me, q, b);
    StepMessage(c, b.s, b.sent, b.got, q, KSchnorr(role), true);
    var o := OnSchnorrNonce(c.env, b.s, role, PubNonce(c.plan.sec(q, role)), q);
    SchnorrAhead(c.env, b.s, (q, role), ThePartial(c, q, role), role, PubNonce(c.plan.sec(q, role)), q, o);
    b' := SwappedStep(c, me, q, b, KSchnorr(role), o);
  }

  lemma SwappedIsMe(c: Conf, me: Pid, q: Pid, b: Stand)
    requires ValidConf(c) && me in c.env.ring && Swapped(c, me, q, b)
    ensures b.s.me == me && !Has(b.got, q, KPartial(Refund(me))) && LockSubmissions(b.submitted) == FundingCount(b.s.history)
    ensures PerformAll(c.env, Begin(c, me), b.calls) == Ok(WithPartial(c, b.s, q, Refund(me)), b.out, b.submitted)
    ensures PartyInv(c, b.s, b.sent, b.got)
  {
    hide PerformAll, PartyInv, Once, Has, WithPartial, IsRing;
  }

  lemma NotAllYet(c: Conf, me: Pid, partials: set<(Pid, TxRole)>, q: Pid, role: TxRole)
    requires q in c.env.ring && q != me && RoleInRing(c.env, role) && (q, role) !in partials
    ensures !Funded(c, me, partials)
  {
    assert !Finalized(c, me, partials, role);
  }

  /** Another partial signature, while one is still missing. */
  lemma PartialComes(c: Conf, me: Pid, q: Pid, b: Stand, role: TxRole, last: TxRole) returns (b': Stand)
    requires ValidConf(c) && me in c.env.ring && PlanFits(c) && q in c.env.ring && q != me
    requires Swapped(c, me, q, b) && Ready(c, me, b.got, q, KPartial(role)) && role != Refund(me)
    requires RoleInRing(c.env, last) && last != Refund(me) && last != role && !Has(b.got, q, KPartial(last))
    ensures Swapped(c, me, q, b') && b'.got == With(b.got, q, KPartial(role))
    ensures b'.calls == b.calls + [TheCall(c, me, q, KPartial(role))]
  {
    hide IsRing, PlanFits, PartyInv, Swapped, Ready, GoodStep, OnPartialSignature, ThePartial, Delivers, Settled, Funded, AllSigned, Fund;
    var got' := With(b.got, q, KPartial(role));
    SwappedDelivers(c, me, q, b, KPartial(role));
    SwappedIsMe(c, me, q, b);
    StepMessage(c, b.s, b.sent, b.got, q, KPartial(role), true);
    PartialOutcome(c, b.s, b.sent, b.got, q, role, true);
    NotAllYet(c, me, got'.partials, q, last);
    NotAllYet(c, me, got'.partials + {(q, Refund(me))}, q, last);
    var s2 := Settled(c, b.s, q, role);
    var t := WithPartial(c, s2, q, Refund(me));
    PartialAhead(c, b.s, b.sent, b.got, q, role, t);
    SettledSignsAhead(c, b.s, b.sent, b.got, q, role);
    SettledIsMe(c, b.s, q, role);
    b' := SwappedStep(c, me, q, b, KPartial(role), Ok(s2, [], []));
  }

  lemma SettledSignsAhead(c: Conf, s: Session, sent: Sent, got: Handled, q: Pid, role: TxRole)
    requires Delivers(c, s, sent, got, q, KPartial(role)) && role != Refund(s.me) && !Has(got, q, KPartial(Refund(s.me)))
    ensures AllSigned(c.env.ring, WithPartial(c, Settled(c, s, q, role), q, Refund(s.me)))
       <==> Funded(c, s.me, With(got, q, KPartial(role)).partials + {(q, Refund(s.me))})
  {
    hide IsRing, Fifo, Funded, PointsInv, ElectionInv, RevealInv, OpeningInv, MusigInv, NoncesInv, PartialsInv, RefundsInv,
         SpendsInv, PhaseInv, ClaimInv, LeaderInv, Opened, Signs, ThePartial, AllSigned, InputsFit, Finalized;
    PartialArrives(c, s, sent, got, q, role);
    SettledSignatures(c, s, sent, got, q, role);
    assert Settled(c, s, q, role).me == s.me && Settled(c, s, q, role).partials == WithPartial(c, s, q, role).partials;
    SignedAhead(c, Settled(c, s, q, role), sent, With(got, q, KPartial(role)), q);
  }

  ghost predicate PartialsBut(me: Pid, q: Pid, todo: set<(Pid, Kind)>, last: TxRole) {
    forall x {:trigger x in todo} :: x in todo ==> x.0 == q && x.1.KPartial? && x.1.role != Refund(me) && x.1.role != last
  }

  /** The partial signatures of a peer, while one more is missing. */
  lemma {:induction false} PartialsCome(c: Conf, me: Pid, q: Pid, b: Stand, todo: set<(Pid, Kind)>, last: TxRole) returns (b': Stand)
    requires ValidConf(c) && me in c.env.ring && PlanFits(c) && q in c.env.ring && q != me
    requires RoleInRing(c.env, last) && last != Refund(me) && !Has(b.got, q, KPartial(last))
    requires PartialsBut(me, q, todo, last) && AllReady(c, me, b.got, todo, 4) && Swapped(c, me, q, b)
    ensures b.calls <= b'.calls && Joined(b.got, todo, b'.got) && Swapped(c, me, q, b')
    decreases |todo|
  {
    hide IsRing, PlanFits, Swapped, Ready, Has, With;
    if todo == {} {
      b' := b;
    } else {
      var x :| x in todo;
      var k := x.1;
      assert x == (q, k);
      var b1 := PartialComes(c, me, q, b, k.role, last);
      RestIsReady(c, me, b.got, todo, 4, q, k);
      HasWith(b.got, q, k);
      b' := PartialsCome(c, me, q, b1, todo - {(q, k)}, last);
      JoinedFirst(b.got, todo, q, k, b'.got);
    }
  }

  /** All others have sent everything, and this one neither its public nonce nor its partial signature for the
      own refund; that signature comes first. */
  lemma ComesEarly(c: Conf, me: Pid, q: Pid, a: Stand) returns (b: Stand)
    requires ValidConf(c) && me in c.env.ring && PlanFits(c) && q in c.env.ring && q != me && RoleInRing(c.env, Refund(me))
    requires InOrder(c, me, a) && Opened(c, me, a.got.nonces)
    requires !Has(a.got, q, KSchnorr(Refund(me))) && !Has(a.got, q, KPartial(Refund(me))) && !Has(a.got, q, KPartial(Spend(me)))
    ensures Swapped(c, me, q, b) && b.got == a.got && b.calls == a.calls + [TheCall(c, me, q, KPartial(Refund(me)))]
  {
    hide IsRing, PlanFits, PartyInv, FundingCount, LockSubmissions, With, PerformAll, Once, OnPartialSignature, ThePartial,
         HandleMessage, Opened;
    var role := Refund(me);
    EarlyIsStored(c, a.s, a.sent, a.got, q);
    PartialCall(c, a.s, q, role, c.tape(me).draw);
    var o := Ok(WithPartial(c, a.s, q, role), [], []);
    PerformMore(c.env, Begin(c, me), a.calls, TheCall(c, me, q, KPartial(role)), Ok(a.s, a.out, a.submitted), o);
    OnceMore(c, me, a.calls, a.got, q, KPartial(role));
    assert a.out + [] == a.out && a.submitted + [] == a.submitted;
    b := Stand(a.calls + [TheCall(c, me, q, KPartial(role))], a.s, a.out, a.submitted, a.sent, a.got);
  }

  /** In the first round of its role it is stored, and that is all. */
  lemma EarlyIsStored(c: Conf, s: Session, sent: Sent, got: Handled, q: Pid)
    requires ValidConf(c) && PartyInv(c, s, sent, got) && q in c.env.ring && q != s.me && Opened(c, s.me, got.nonces)
    requires (q, Refund(s.me)) !in got.schnorr && (q, Refund(s.me)) !in got.partials && (q, Spend(s.me)) !in got.partials
    ensures !s.state.Terminal()
    ensures OnPartialSignature(c.env, s, Refund(s.me), ThePartial(c, q, Refund(s.me)), q, true)
         == Ok(WithPartial(c, s, q, Refund(s.me)), [], [])
  {
    hide IsRing, Fifo, Funded, PointsInv, ElectionInv, RevealInv, NoncesInv, PartialsInv, RefundsInv, SpendsInv, PhaseInv,
         ClaimInv, LeaderInv, Opened, ThePartial, AllOthersHave, AllSigned, GatheredInputs, AddsUp, Finalized;
    var role := Refund(s.me);
    var s1 := WithPartial(c, s, q, role);
    NotAllYet(c, s.me, got.partials, q, Spend(s.me));
    NotAllYet(c, s.me, got.partials + {(q, role)}, q, Spend(s.me));
    TerminalIsFunded(s.state, s.history, Stage(sent.point, sent.commitment, sent.nonce, Opened(c, s.me, got.nonces)),
                     Funded(c, s.me, got.partials), sent.lock);
    SignedAhead(c, s, sent, got, q);
    assert !Signs(c, s.me, got.schnorr, role);
    assert RoleInRing(c.env, role);
    assert role in s.musig.Keys && s.musig[role] == TheRuntime(c, s.me, role, false);
    assert FinalizeRole(c.env, s1, role) == Ok(s1, [], []);
  }

  /** The last partial signature but the one that came early: the party funds, and has no refund. */
  lemma FundsAhead(c: Conf, me: Pid, q: Pid, b: Stand, last: TxRole) returns (calls: seq<Call>)
    requires ValidConf(c) && me in c.env.ring && PlanFits(c) && q in c.env.ring && q != me && RoleInRing(c.env, Refund(me))
    requires RoleInRing(c.env, last) && last != Refund(me)
    requires Funded(c, me, With(b.got, q, KPartial(last)).partials + {(q, Refund(me))}) && Opened(c, me, b.got.nonces)
    requires Swapped(c, me, q, b) && Ready(c, me, b.got, q, KPartial(last))
    ensures calls == b.calls + [TheCall(c, me, q, KPartial(last))]
    ensures Unprotected(c, me, calls)
    ensures Once(c, me, calls, With(With(b.got, q, KPartial(last)), q, KPartial(Refund(me))))
  {
    hide IsRing, PlanFits, PartyInv, Ready, OnPartialSignature, ThePartial, Delivers, Settled, Funded, AllSigned, Fund, PerformAll,
         With, Once, LockSubmissions, FundingCount, AfterFund, HandleMessage, Opened;
    calls := b.calls + [TheCall(c, me, q, KPartial(last))];
    SwappedDelivers(c, me, q, b, KPartial(last));
    var t := WithPartial(c, Settled(c, b.s, q, last), q, Refund(me));
    var before := WithPartial(c, b.s, q, Refund(me));
    SettledSignsAhead(c, b.s, b.sent, b.got, q, last);
    PartialAhead(c, b.s, b.sent, b.got, q, last, t);
    NoRefund(c, b.s, b.sent, b.got, q, last);
    FundOutcome(c.env, t, true);
    PartialCall(c, before, q, last, c.tape(me).draw);
    var o := Ok(AfterFund(t, true), [LockTxBroadcast], [SubmitLock(t.lockTxs[me])]);
    PerformMore(c.env, Begin(c, me), b.calls, TheCall(c, me, q, KPartial(last)), Ok(before, b.out, b.submitted), o);
    NoFundingYet(c, b, q, last);
    LockSubmitted();
    SubmissionsAdd(b.submitted, [SubmitLock(t.lockTxs[me])]);
    AfterFundIs(t);
    ReadyRank(c, me, b.got, q, KPartial(last));
    OnceMoreAfter(c, me, q, b, last);
  }

  lemma OnceMoreAfter(c: Conf, me: Pid, q: Pid, b: Stand, last: TxRole)
    requires ValidConf(c) && me in c.env.ring && Once(c, me, b.calls, With(b.got, q, KPartial(Refund(me))))
    requires Belongs(c, me, q, KPartial(last)) && !Has(b.got, q, KPartial(last)) && last != Refund(me)
    ensures Once(c, me, b.calls + [TheCall(c, me, q, KPartial(last))], With(With(b.got, q, KPartial(last)), q, KPartial(Refund(me))))
  {
    hide IsRing, Once, With, Has, TheMessage;
    HasWith(b.got, q, KPartial(Refund(me)));
    OnceMore(c, me, b.calls, With(b.got, q, KPartial(Refund(me))), q, KPartial(last));
    WithCommutes(b.got, q, KPartial(Refund(me)), KPartial(last));
  }

  lemma AfterFundIs(s: Session)
    ensures Funding in AfterFund(s, true).history && AfterFund(s, true).signedTxs == s.signedTxs && AfterFund(s, true).me == s.me
  {
    var h := s.history + [Funding] + [AwaitingLockConfirmations];
    assert h[|s.history|] == Funding;
  }

  lemma NoRefund(c: Conf, s: Session, sent: Sent, got: Handled, q: Pid, role: TxRole)
    requires Delivers(c, s, sent, got, q, KPartial(role)) && role != Refund(s.me) && !Has(got, q, KPartial(Refund(s.me)))
    requires Opened(c, s.me, got.nonces)
    ensures Refund(s.me) !in Settled(c, s, q, role).signedTxs && s.me in Settled(c, s, q, role).lockTxs
    ensures Settled(c, s, q, role).me == s.me
  {
    hide IsRing, Fifo, Funded, PointsInv, ElectionInv, RevealInv, MusigInv, NoncesInv, PartialsInv, RefundsInv,
         SpendsInv, PhaseInv, ClaimInv, LeaderInv, Signs, ThePartial, InputsFit, Opened;
    SettledSignatures(c, s, sent, got, q, role);
    var got' := With(got, q, KPartial(role));
    assert (q, Refund(s.me)) !in got'.partials;
    assert !Finalized(c, s.me, got'.partials, Refund(s.me));
    RefundsSay(c, s.me, Settled(c, s, q, role).signedTxs, got'.partials);
    OwnLockIsBuilt(c, s, sent.schnorr);
  }

  lemma RefundsSay(c: Conf, me: Pid, signed: map<TxRole, SignedTx>, gotPartials: set<(Pid, TxRole)>)
    requires RefundsInv(c, me, signed, gotPartials) && me in c.env.ring
    ensures Refund(me) in signed <==> Finalized(c, me, gotPartials, Refund(me))
  {
    hide Finalized;
  }

  /** A fresh session goes through the calls, funds, submits its lock once, and has no signed refund. */
  ghost predicate Unprotected(c: Conf, me: Pid, calls: seq<Call>) {
    && ValidConf(c) && me in c.env.ring
    && var o := PerformAll(c.env, Begin(c, me), calls);
    o.Ok? && Funding in o.session.history && Refund(me) !in o.session.signedTxs && LockSubmissions(o.submitted) == 1
  }

  // ---------- the whole sequence ----------

  ghost function HeldBack(c: Conf, me: Pid, q: Pid): set<(Pid, Kind)> {
    {(q, KSchnorr(Refund(me)))} + (set r | r in AllRoles(c.env) :: (q, KPartial(r)))
  }

  ghost function OtherPartials(c: Conf, me: Pid, q: Pid, last: TxRole): set<(Pid, Kind)> {
    set r | r in AllRoles(c.env) && r != Refund(me) && r != last :: (q, KPartial(r))
  }

  lemma HeldBackIs(c: Conf, me: Pid, q: Pid, p: Pid, k: Kind)
    ensures (p, k) in HeldBack(c, me, q) <==> p == q && (k == KSchnorr(Refund(me)) || (k.KPartial? && RoleInRing(c.env, k.role)))
  {
    hide AllRoles, RoleInRing;
  }

  lemma OtherPartialsAre(c: Conf, me: Pid, q: Pid, last: TxRole, p: Pid, k: Kind)
    ensures (p, k) in OtherPartials(c, me, q, last)
       <==> p == q && k.KPartial? && RoleInRing(c.env, k.role) && k.role != Refund(me) && k.role != last
  {
    hide AllRoles, RoleInRing;
  }

  lemma HeldBackIsClosed(c: Conf, me: Pid, q: Pid)
    ensures ClosedAbove(c, HeldBack(c, me, q))
  {
    hide HeldBack, RoleInRing;
    forall p: Pid, j: Kind, k: Kind {:trigger (p, j) in HeldBack(c, me, q), (p, k) in HeldBack(c, me, q)}
      | (p, j) in HeldBack(c, me, q) && ValidKind(c, k) && Rank(j) < Rank(k) <= 4
      ensures (p, k) in HeldBack(c, me, q)
    {
      HeldBackIs(c, me, q, p, j);
      HeldBackIs(c, me, q, p, k);
    }
  }

  lemma BeforeSwap(c: Conf, me: Pid, q: Pid, got: Handled)
    requires me in c.env.ring && q in c.env.ring && q != me && UpTo(c, me, HeldBack(c, me, q), 5, got)
    ensures Opened(c, me, got.nonces) && Ready(c, me, got, q, KSchnorr(Refund(me)))
    ensures forall k: Kind {:trigger Has(got, q, k)} :: k == KSchnorr(Refund(me)) || k.KPartial? ==> !Has(got, q, k)
  {
    hide HeldBack, RoleInRing;
    assert RoleInRing(c.env, Refund(me)) by { OwnRoles(c, me); }
    forall p: Pid, k: Kind {:trigger Has(got, p, k)}
      ensures Has(got, p, k) <==> Belongs(c, me, p, k) && Rank(k) < 5
                                  && !(p == q && (k == KSchnorr(Refund(me)) || (k.KPartial? && RoleInRing(c.env, k.role))))
    {
      HeldBackIs(c, me, q, p, k);
    }
    forall p {:trigger p in got.nonces} | p in c.env.ring && p != me
      ensures p in got.nonces
    {
      assert Has(got, p, KNonce);
    }
  }

  lemma OwnRoles(c: Conf, me: Pid)
    requires me in c.env.ring
    ensures RoleInRing(c.env, Refund(me)) && RoleInRing(c.env, Spend(me))
  {
  }

  lemma NonceIsIn(c: Conf, me: Pid, q: Pid, got: Handled, got': Handled)
    requires me in c.env.ring && q in c.env.ring && q != me && UpTo(c, me, HeldBack(c, me, q), 5, got)
    requires got' == With(got, q, KSchnorr(Refund(me)))
    ensures forall j: Kind {:trigger Has(got', q, j)} :: ValidKind(c, j) && Rank(j) < 4 ==> Has(got', q, j)
    ensures forall k: Kind {:trigger Has(got', q, k)} :: k.KPartial? ==> !Has(got', q, k)
  {
    HasWith(got, q, KSchnorr(Refund(me)));
    BeforeSwap(c, me, q, got);
    hide HeldBack, RoleInRing, With, Has;
    forall j: Kind {:trigger Has(got', q, j)} | ValidKind(c, j) && Rank(j) < 4
      ensures Has(got', q, j)
    {
      HeldBackIs(c, me, q, q, j);
    }
  }

  lemma AfterNonce(c: Conf, me: Pid, q: Pid, got: Handled, got': Handled)
    requires me in c.env.ring && q in c.env.ring && q != me && UpTo(c, me, HeldBack(c, me, q), 5, got)
    requires got' == With(got, q, KSchnorr(Refund(me)))
    ensures AllReady(c, me, got', OtherPartials(c, me, q, Spend(me)), 4) && !Has(got', q, KPartial(Spend(me)))
    ensures PartialsBut(me, q, OtherPartials(c, me, q, Spend(me)), Spend(me))
  {
    hide HeldBack, RoleInRing, OtherPartials, With, Has, UpTo;
    NonceIsIn(c, me, q, got, got');
    forall p: Pid, k: Kind {:trigger (p, k) in OtherPartials(c, me, q, Spend(me))} | (p, k) in OtherPartials(c, me, q, Spend(me))
      ensures Rank(k) == 4 && Ready(c, me, got', p, k)
    {
      OtherPartialsAre(c, me, q, Spend(me), p, k);
    }
    forall x {:trigger x in OtherPartials(c, me, q, Spend(me))} | x in OtherPartials(c, me, q, Spend(me))
      ensures x.0 == q && x.1.KPartial? && x.1.role != Refund(me) && x.1.role != Spend(me)
    {
      assert x == (x.0, x.1);
      OtherPartialsAre(c, me, q, Spend(me), x.0, x.1);
    }
  }

  /** What is there with the last one: everything. */
  lemma AtLast(c: Conf, me: Pid, q: Pid, got: Handled, got1: Handled, got2: Handled, last: TxRole)
    requires me in c.env.ring && q in c.env.ring && q != me && UpTo(c, me, HeldBack(c, me, q), 5, got)
    requires got1 == With(got, q, KSchnorr(Refund(me))) && Joined(got1, OtherPartials(c, me, q, last), got2) && last == Spend(me)
    ensures Ready(c, me, got2, q, KPartial(last)) && Opened(c, me, got2.nonces)
    ensures Whole(c, me, With(With(got2, q, KPartial(last)), q, KPartial(Refund(me))))
  {
    HasWith(got, q, KSchnorr(Refund(me)));
    HasWith(got2, q, KPartial(last));
    HasWith(With(got2, q, KPartial(last)), q, KPartial(Refund(me)));
    hide HeldBack, RoleInRing, OtherPartials, With, Has;
    OwnRoles(c, me);
    var all := With(With(got2, q, KPartial(last)), q, KPartial(Refund(me)));
    forall p: Pid, k: Kind {:trigger Has(got2, p, k)}
      ensures Has(got2, p, k) <==> Belongs(c, me, p, k) && Rank(k) <= 4
                                   && !(p == q && (k == KPartial(Refund(me)) || k == KPartial(last)))
    {
      HeldBackIs(c, me, q, p, k);
      OtherPartialsAre(c, me, q, last, p, k);
    }
    NoncesIn(c, me, got2);
  }

  lemma NoncesIn(c: Conf, me: Pid, got: Handled)
    requires forall p: Pid {:trigger Has(got, p, KNonce)} :: p in c.env.ring && p != me ==> Has(got, p, KNonce)
    ensures Opened(c, me, got.nonces)
  {
    forall p {:trigger p in got.nonces} | p in c.env.ring && p != me
      ensures p in got.nonces
    {
      assert Has(got, p, KNonce);
    }
  }

  lemma WholeFunds(c: Conf, me: Pid, q: Pid, got: Handled, last: TxRole)
    requires me in c.env.ring && Whole(c, me, With(With(got, q, KPartial(last)), q, KPartial(Refund(me))))
    ensures Funded(c, me, With(got, q, KPartial(last)).partials + {(q, Refund(me))})
  {
    var all := With(With(got, q, KPartial(last)), q, KPartial(Refund(me)));
    forall p: Pid, role: TxRole {:trigger (p, role) in all.partials} | p in c.env.ring && p != me && RoleInRing(c.env, role)
      ensures (p, role) in all.partials
    {
      assert Has(all, p, KPartial(role));
    }
    AllIsFunded(c, me, all);
  }

  /** For every ring and all random values: let all messages of the setup come once each and in order, but
      for one peer's partial signature for the own refund, which comes just before its public nonce for it.
      Then the party submits its lock, and has no refund for it. */
  lemma DisorderLosesRefund(c: Conf, me: Pid, q: Pid) returns (before: Stand, after: seq<Call>, got: Handled)
    requires ValidConf(c) && PlanFits(c) && me in c.env.ring && q in c.env.ring && q != me
    ensures InOrder(c, me, before) && Whole(c, me, got)
    ensures
      var calls := before.calls + [TheCall(c, me, q, KPartial(Refund(me))), TheCall(c, me, q, KSchnorr(Refund(me)))] + after;
      Once(c, me, calls, got) && Unprotected(c, me, calls)
  {
    hide IsRing, PlanFits, InOrder, UpTo, Whole, Swapped, Ready, Has, With, Once, Unprotected, ClosedAbove, AllReady, Funded, Opened,
         TheCall, HeldBack, OtherPartials, PartialsBut, Joined;
    OwnRoles(c, me);
    HeldBackIsClosed(c, me, q);
    before := FeedRanks(c, me, HeldBack(c, me, q), 5);
    BeforeSwap(c, me, q, before.got);
    var b := ComesEarly(c, me, q, before);
    var b1 := NonceComesLate(c, me, q, b);
    AfterNonce(c, me, q, before.got, b1.got);
    var b2 := PartialsCome(c, me, q, b1, OtherPartials(c, me, q, Spend(me)), Spend(me));
    AtLast(c, me, q, before.got, b1.got, b2.got, Spend(me));
    WholeFunds(c, me, q, b2.got, Spend(me));
    var calls := FundsAhead(c, me, q, b2, Spend(me));
    got := With(With(b2.got, q, KPartial(Spend(me))), q, KPartial(Refund(me)));
    after := calls[|b1.calls|..];
    assert calls == b1.calls + after;
    assert b1.calls == before.calls + [TheCall(c, me, q, KPartial(Refund(me))), TheCall(c, me, q, KSchnorr(Refund(me)))];
  }
}
