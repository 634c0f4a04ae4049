/** N parties on FIFO, exactly-once links: every message a party broadcasts is appended to its log, and
    each peer reads that log in order. Starts, deliveries and chain polls interleave in any way. */
module Network {
  import opened Ring
  import opened Protocol
  import opened PartyInvariant

  /** `seen[(p, q)]` is how many messages of `q` party `p` has handled, and `got[p]` which ones. */
  datatype Net = Net(
    party: map<Pid, Session>,
    log: map<Pid, seq<WireMessage>>,
    seen: map<(Pid, Pid), nat>,
    got: map<Pid, Handled>,
    submitted: map<Pid, seq<Submission>>,
    onChain: set<Pid>,
    crashed: bool)
  {
    function Party(p: Pid): Session { if p in party then party[p] else NewSession(p, 0, 0) }
    function Log(p: Pid): seq<WireMessage> { if p in log then log[p] else [] }
    function Got(p: Pid): Handled { if p in got then got[p] else NOTHING_HANDLED }
    function Submitted(p: Pid): seq<Submission> { if p in submitted then submitted[p] else [] }
    function Seen(p: Pid, q: Pid): nat { if (p, q) in seen then seen[(p, q)] else 0 }
  }

  /** What can happen next: a start, a delivery of the next message on a link, or a poll. `accepted`,
      `found` and `open` are answers of the chain. */
  datatype Event =
    | Starts(p: Pid)
    | Delivery(p: Pid, from: Pid, msg: WireMessage, accepted: bool)
    | LockPoll(p: Pid, owner: Pid, onChain: bool)
    | LeaderSpendPoll(p: Pid, found: Option<Secret>)
    | RefundPoll(p: Pid, open: bool, accepted: bool)

  ghost predicate Shaped(c: Conf, n: Net) {
    && n.party.Keys == c.env.ring.Keys && n.log.Keys == c.env.ring.Keys
    && n.got.Keys == c.env.ring.Keys && n.submitted.Keys == c.env.ring.Keys
  }

  ghost function Initial(c: Conf): (n: Net)
    ensures Shaped(c, n)
  {
    Net(map p | p in c.env.ring :: NewSession(p, c.tape(p).secret, c.tape(p).point),
        map p | p in c.env.ring :: [], map[],
        map p | p in c.env.ring :: NOTHING_HANDLED, map p | p in c.env.ring :: [], {}, false)
  }

  /** The kinds a log holds. */
  ghost function SentIn(log: seq<WireMessage>): Sent { After(NOTHING_SENT, log) }

  /** A session is started once, which broadcasts the point. A poll target exists for every broadcast
      lock, for an awaited leader's spend, and for the own
      refund once the own lock is confirmed. */
  ghost predicate Enabled(c: Conf, n: Net, e: Event) {
    && Shaped(c, n)
    && e.p in c.env.ring
    && match e
       case Starts(p) => !SentIn(n.Log(p)).point
       case Delivery(p, from, msg, _) =>
         && from in c.env.ring && from != p
         && n.Seen(p, from) < |n.Log(from)| && msg == n.Log(from)[n.Seen(p, from)]
       case LockPoll(p, owner, onChain) => owner in n.Party(p).locksBroadcast && (onChain ==> owner in n.onChain)
       case LeaderSpendPoll(p, _) => n.Party(p).state == AwaitingLeaderSpend
       case RefundPoll(p, _, _) => p in n.Party(p).locksConfirmed
  }

  /** The handler an event runs. */
  ghost function Handle(c: Conf, s: Session, e: Event): Outcome {
    match e
    case Starts(p) => Protocol.Start(s)
    case Delivery(p, from, msg, accepted) => HandleMessage(c.env, s, msg, from, c.tape(p).draw, accepted)
    case LockPoll(p, owner, onChain) => OnLockPoll(c.env, s, owner, onChain)
    case LeaderSpendPoll(p, found) => if s.leader.Some? then OnLeaderSpendPoll(s, s.leader.value, found) else Panic
    case RefundPoll(p, open, accepted) => OnRefundPoll(s, open, accepted)
  }

  /** The bookkeeping of a delivery: the read position and what has been handled. */
  ghost function Read(n: Net, e: Event): Net {
    if !e.Delivery? || e.p !in n.got then n
    else
      n.(seen := n.seen[(e.p, e.from) := n.Seen(e.p, e.from) + 1],
         got := n.got[e.p := With(n.Got(e.p), e.from, KindOf(e.msg))])
  }

  /** The outcome of a handler: a new session, broadcasts, and what the chain took. */
  ghost function Put(n: Net, p: Pid, o: Outcome): Net {
    if o.Panic? then n.(crashed := true)
    else if p !in n.log || p !in n.submitted then n
    else
      n.(party := n.party[p := o.session], log := n.log[p := n.Log(p) + o.out],
         submitted := n.submitted[p := n.Submitted(p) + o.submitted],
         onChain := if LockTxBroadcast in o.out then n.onChain + {p} else n.onChain)
  }

  ghost function Step(c: Conf, n: Net, e: Event): Net {
    if e.p in n.party then Put(Read(n, e), e.p, Handle(c, n.Party(e.p), e)) else n
  }

  // ---------- logs ----------

  lemma {:induction false} LogEntry(c: Conf, p: Pid, log: seq<WireMessage>, i: nat)
    requires ValidConf(c) && p in c.env.ring && MayEmit(c, p, NOTHING_SENT, log) && i < |log|
    ensures MayEmit(c, p, NOTHING_SENT, log[..i]) && MayFollow(c, p, SentIn(log[..i]), log[i])
  {
    hide IsRing, MayFollow;
    var n := |log| - 1;
    if i < n {
      LogEntry(c, p, log[..n], i);
      assert log[..n][..i] == log[..i];
    }
  }

  lemma AfterLast(sent: Sent, out: seq<WireMessage>)
    requires out != []
    ensures After(sent, out) == Add(After(sent, out[..|out| - 1]), KindOf(out[|out| - 1]))
  {
  }

  lemma EmitLast(c: Conf, p: Pid, sent: Sent, out: seq<WireMessage>)
    requires ValidConf(c) && p in c.env.ring && out != []
    ensures MayEmit(c, p, sent, out)
       <==> MayEmit(c, p, sent, out[..|out| - 1]) && MayFollow(c, p, After(sent, out[..|out| - 1]), out[|out| - 1])
  {
    hide IsRing, MayFollow, After;
  }

  lemma {:induction false} LogGrows(c: Conf, p: Pid, log: seq<WireMessage>, out: seq<WireMessage>)
    requires ValidConf(c) && p in c.env.ring && MayEmit(c, p, NOTHING_SENT, log) && MayEmit(c, p, SentIn(log), out)
    ensures MayEmit(c, p, NOTHING_SENT, log + out) && SentIn(log + out) == After(SentIn(log), out)
  {
    hide IsRing, MayFollow, MayEmit, After, Add, KindOf;
    if out == [] {
      assert log + out == log;
      assert After(SentIn(log), []) == SentIn(log) by { AfterNothing(SentIn(log)); }
    } else {
      var n := |out| - 1;
      EmitLast(c, p, SentIn(log), out);
      LogGrows(c, p, log, out[..n]);
      assert (log + out)[..|log| + n] == log + out[..n];
      EmitLast(c, p, NOTHING_SENT, log + out);
      AfterLast(NOTHING_SENT, log + out);
      AfterLast(SentIn(log), out);
    }
  }

  lemma AfterNothing(sent: Sent)
    ensures After(sent, []) == sent
  {
  }

  lemma AddedIn(sent: Sent, k: Kind, k': Kind)
    ensures In(Add(sent, k), k') <==> In(sent, k') || k' == k
  {
  }

  lemma LastSent(log: seq<WireMessage>)
    requires log != []
    ensures SentIn(log) == Add(SentIn(log[..|log| - 1]), KindOf(log[|log| - 1]))
  {
  }

  /** What is in a prefix is in the whole log. */
  lemma {:induction false} PrefixSent(log: seq<WireMessage>, i: nat, k: Kind)
    requires i <= |log| && In(SentIn(log[..i]), k)
    ensures In(SentIn(log), k)
  {
    hide In, Add, After, KindOf, SentIn;
    if i == |log| {
      assert log[..i] == log;
    } else {
      var n := |log| - 1;
      assert log[..n][..i] == log[..i];
      PrefixSent(log[..n], i, k);
      LastSent(log);
      AddedIn(SentIn(log[..n]), KindOf(log[n]), k);
    }
  }

  /** Every kind that was sent is some message of the log. */
  lemma {:induction false} SentSomewhere(log: seq<WireMessage>, k: Kind) returns (i: nat)
    requires In(SentIn(log), k)
    ensures i < |log| && KindOf(log[i]) == k
  {
    hide Add, KindOf;
    var n := |log| - 1;
    LastSent(log);
    AddedIn(SentIn(log[..n]), KindOf(log[n]), k);
    if KindOf(log[n]) == k {
      i := n;
    } else {
      i := SentSomewhere(log[..n], k);
    }
  }

  /** The handled kinds of one peer are exactly those in the part of its log that was read. */
  ghost predicate Tracks(got: Handled, q: Pid, read: Sent) {
    forall k {:trigger Has(got, q, k)} {:trigger In(read, k)} :: Has(got, q, k) <==> In(read, k)
  }

  lemma TracksNext(got: Handled, q: Pid, log: seq<WireMessage>, i: nat)
    requires i < |log| && Tracks(got, q, SentIn(log[..i]))
    ensures Tracks(With(got, q, KindOf(log[i])), q, SentIn(log[..i + 1]))
  {
    hide In, Add, KindOf, SentIn, Has, With;
    var k := KindOf(log[i]);
    LastSent(log[..i + 1]);
    assert log[..i + 1][..i] == log[..i];
    forall k'
      ensures Has(With(got, q, k), q, k') <==> In(Add(SentIn(log[..i]), k), k')
    {
      WithAdds(got, q, k, q, k');
      AddedIn(SentIn(log[..i]), k, k');
    }
  }

  lemma WithAdds(got: Handled, q: Pid, k: Kind, q': Pid, k': Kind)
    ensures Has(With(got, q, k), q', k') <==> Has(got, q', k') || (q' == q && k' == k)
  {
  }

  lemma TracksOther(got: Handled, q: Pid, k: Kind, q': Pid, read: Sent)
    requires q' != q && Tracks(got, q', read)
    ensures Tracks(With(got, q, k), q', read)
  {
    forall k'
      ensures Has(With(got, q, k), q', k') <==> In(read, k')
    {
      WithAdds(got, q, k, q', k');
    }
  }

  /** The order of a link is the order of the ranks. */
  lemma FifoNext(c: Conf, me: Pid, got: Handled, from: Pid, read: Sent, k: Kind)
    requires Fifo(c, me, got) && Tracks(got, from, read) && LowerRanksSent(c, read, Rank(k)) && ValidKind(c, k)
    requires from in c.env.ring && from != me
    ensures Fifo(c, me, With(got, from, k))
  {
    assert 0 < Rank(k) ==> Has(got, from, KPoint);
    assert 1 < Rank(k) ==> Has(got, from, KCommitment);
    assert 2 < Rank(k) ==> Has(got, from, KNonce);
    assert 3 < Rank(k) ==> forall role {:trigger (from, role) in got.schnorr} :: RoleInRing(c.env, role) ==> Has(got, from, KSchnorr(role));
    assert 4 < Rank(k) ==> forall role {:trigger (from, role) in got.partials} :: RoleInRing(c.env, role) ==>
          Has(got, from, KPartial(role));
    assert 5 < Rank(k) ==> Has(got, from, KLock);
  }
}
