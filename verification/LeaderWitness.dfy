/** The run that strands a leader does begin: in every honest setup its lock can be on chain with all others, and the
    last of the secrets it is then sent can be a wrong one. */
module LeaderWitness {
  import opened Ring
  import opened Timelocks
  import opened Protocol
  import opened PartyInvariant
  import opened NetworkInvariant
  import opened Chain
  import opened ChainSessions
  import opened ChainSafety
  import opened ChainTheorems
  import opened Losses
  import N = Network
  import NetworkSafety
  import AnySetup
  import HonestRuns
  import LossWitness
  import Stranding

  // ---------- a leader among its locks ----------

  /** The leader goes on, has seen these locks and holds these secrets; all locks are on chain and unspent. */
  ghost predicate Gathers(x: Setting, w: World, seen: set<Pid>, secrets: map<Pid, Secret>) {
    && Reachable(x, w) && ValidSetting(x) && x.honest == {x.leader} && x.leader in w.party && x.leader !in w.crashed
    && w.late == {} && w.hurt == {}
    && LockedSoFar(x, w.ledger, x.env.ring.Keys) && Holds(x, w.Party(x.leader), seen, secrets)
  }

  ghost predicate Holds(x: Setting, s: Session, seen: set<Pid>, secrets: map<Pid, Secret>) {
    && Prepared(x, x.leader, s) && !s.state.Terminal() && seen <= s.locksConfirmed && s.secrets == secrets
  }

  lemma PollHolds(x: Setting, s: Session, y: Pid, seen: set<Pid>, secrets: map<Pid, Secret>, o: Outcome)
    requires IsRing(x.env.ring) && Holds(x, s, seen, secrets) && y in x.env.ring && o == OnLockPoll(x.env, s, y, true)
    ensures o.Ok? && o.submitted == [] && Holds(x, o.session, seen + {y}, secrets)
  {
    PreparedMe(x, x.leader, s);
    hide IsRing, Prepared, OnLockPoll, Reveals;
    LockPollAny(x, x.leader, s, y, true, o);
    LockPollState(x.env, s, y, o);
    AnySetup.LockPollSame(x.env, s, y, true);
    LockPollSecrets(x.env, s, y);
  }

  lemma LockPollSecrets(env: Env, s: Session, owner: Pid)
    ensures OnLockPoll(env, s, owner, true).Ok? ==> OnLockPoll(env, s, owner, true).session.secrets == s.secrets
  {
    hide AllConfirmed;
    var o := OnLockPoll(env, s, owner, true);
    var s1 := s.(locksConfirmed := s.locksConfirmed + {owner});
    if o.Ok? {
      assert o.session == s || o.session == s1 || o.session == s1.TransitionTo(AwaitingLeaderSpend)
          || o.session == s1.TransitionTo(AwaitingSecrets);
    }
  }

  lemma PollNext(x: Setting, w: World, y: Pid, seen: set<Pid>, secrets: map<Pid, Secret>) returns (w': World)
    requires Gathers(x, w, seen, secrets) && y in x.env.ring
    ensures Gathers(x, w', seen + {y}, secrets)
  {
    hide IsRing, Reachable, WorldInv, Covers, Holds, OnLockPoll, Reveals;
    ReachableOk(x, w);
    InvShape(x, w);
    var o := OnLockPoll(x.env, w.Party(x.leader), y, true);
    PollHolds(x, w.Party(x.leader), y, seen, secrets, o);
    SettleOne(x, w.ledger, w.tip, o.submitted) by { InvCovers(x, w); }
    w' := Put(x, w, x.leader, o);
    assert At(w.ledger, y) == Locked;
    assert w' == Step(x, w, PollLock(x.leader, y, true));
    ReachableNext(x, w, PollLock(x.leader, y, true), w');
  }

  lemma InvCovers(x: Setting, w: World)
    requires WorldInv(x, w)
    ensures Covers(x, w.ledger) && IsRing(x.env.ring)
  {
    hide IsRing, PartiesOk, LedgerInv, WatchInv;
  }

  lemma {:induction false} PollAll(x: Setting, w: World, todo: set<Pid>, seen: set<Pid>, secrets: map<Pid, Secret>)
    returns (w': World)
    requires Gathers(x, w, seen, secrets) && todo <= x.env.ring.Keys
    ensures Gathers(x, w', seen + todo, secrets)
    decreases |todo|
  {
    hide Gathers;
    if todo == {} {
      w' := w;
      assert seen + todo == seen;
    } else {
      var y :| y in todo;
      var w1 := PollNext(x, w, y, seen, secrets);
      w' := PollAll(x, w1, todo - {y}, seen + {y}, secrets);
      assert seen + {y} + (todo - {y}) == seen + todo;
    }
  }

  // ---------- the secrets ----------

  /** The secrets of these participants. */
  function Of(v: map<Pid, Secret>, done: set<Pid>): map<Pid, Secret> {
    map q | q in v && q in done :: v[q]
  }

  lemma SecretHolds(x: Setting, s: Session, v: map<Pid, Secret>, done: set<Pid>, q: Pid, draw: Draw, o: Outcome)
    requires IsRing(x.env.ring) && Holds(x, s, x.env.ring.Keys, Of(v, done)) && v.Keys == x.env.ring.Keys && q in v
    requires !(x.env.ring.Keys <= done + {q}) && o == HandleMessage(x.env, s, SecretReveal(v[q]), q, draw, true)
    ensures o.Ok? && o.submitted == [] && o.out == [] && Holds(x, o.session, x.env.ring.Keys, Of(v, done + {q}))
  {
    hide IsRing, Prepared, ClaimWith;
    var s1 := s.(secrets := s.secrets[q := v[q]]);
    assert s1.secrets == Of(v, done + {q});
    var missing :| missing in x.env.ring.Keys && missing !in done + {q};
    assert missing !in s1.secrets;
    assert !HasAll(x.env.ring, s1.secrets);
    assert o == Ok(s1, [], []);
    PreparedWith(x, s, s1);
  }

  lemma PreparedWith(x: Setting, s: Session, s1: Session)
    requires Prepared(x, x.leader, s) && s1 == s.(secrets := s1.secrets) && s.secrets.Keys <= s1.secrets.Keys
    ensures Prepared(x, x.leader, s1)
  {
    hide HasAll, AllSigned;
    assert AllSigned(x.env.ring, s1) by { SameSigned(x.env.ring, s, s1); }
  }

  lemma SameSigned(ring: Participants, s: Session, s1: Session)
    requires AllSigned(ring, s) && s1.me == s.me && s1.partials == s.partials && s1.adaptorSigs == s.adaptorSigs
    ensures AllSigned(ring, s1)
  {
  }

  /** It can be sent any secret: with no other honest party there is none to be guessed. */
  lemma SecretMay(x: Setting, w: World, v: map<Pid, Secret>, done: set<Pid>, q: Pid, draw: Draw)
    requires Gathers(x, w, x.env.ring.Keys, Of(v, done)) && Shaped(x, w) && q in v
    ensures Enabled(x, w, Deliver(x.leader, q, SecretReveal(v[q]), draw, true))
  {
    hide IsRing, Reachable, Holds;
    assert Others(x) == {};
  }

  lemma SecretNext(x: Setting, w: World, v: map<Pid, Secret>, done: set<Pid>, q: Pid, draw: Draw) returns (w': World)
    requires Gathers(x, w, x.env.ring.Keys, Of(v, done)) && v.Keys == x.env.ring.Keys && q in v && !(x.env.ring.Keys <= done + {q})
    ensures Gathers(x, w', x.env.ring.Keys, Of(v, done + {q}))
  {
    hide IsRing, Reachable, WorldInv, Covers, Holds, HandleMessage, Of, Unguessed;
    ReachableOk(x, w);
    InvShape(x, w);
    var o := HandleMessage(x.env, w.Party(x.leader), SecretReveal(v[q]), q, draw, true);
    SecretHolds(x, w.Party(x.leader), v, done, q, draw, o);
    SettleOne(x, w.ledger, w.tip, o.submitted) by { InvCovers(x, w); }
    SecretMay(x, w, v, done, q, draw);
    w' := DeliverTo(x, w, x.leader, q, SecretReveal(v[q]), draw, true);
    ReachableNext(x, w, Deliver(x.leader, q, SecretReveal(v[q]), draw, true), w');
  }

  lemma {:induction false} SecretsBut(x: Setting, w: World, v: map<Pid, Secret>, done: set<Pid>, last: Pid, draw: Draw)
    returns (w': World)
    requires Gathers(x, w, x.env.ring.Keys, Of(v, done)) && v.Keys == x.env.ring.Keys && last in v && last !in done && done <= v.Keys
    ensures Gathers(x, w', x.env.ring.Keys, Of(v, x.env.ring.Keys - {last}))
    decreases |x.env.ring.Keys - {last} - done|
  {
    hide Gathers, Of;
    var todo := x.env.ring.Keys - {last} - done;
    if todo == {} {
      w' := w;
      assert done == x.env.ring.Keys - {last};
    } else {
      var q :| q in todo;
      assert last !in done + {q};
      var w1 := SecretNext(x, w, v, done, q, draw);
      assert x.env.ring.Keys - {last} - (done + {q}) == todo - {q};
      w' := SecretsBut(x, w1, v, done + {q}, last, draw);
    }
  }

  /** With all locks seen and all secrets but one, the last one completes the session. */
  lemma LastIsLast(x: Setting, w: World, v: map<Pid, Secret>, last: Pid, draw: Draw)
    requires Gathers(x, w, x.env.ring.Keys, Of(v, x.env.ring.Keys - {last})) && Shaped(x, w) && v.Keys == x.env.ring.Keys && last in v
    ensures LastSecret(x, w, Deliver(x.leader, last, SecretReveal(v[last]), draw, true))
    ensures w.Party(x.leader).secrets[last := v[last]] == v && x.env.ring.Keys <= w.Party(x.leader).locksConfirmed
  {
    hide IsRing, Reachable, Prepared;
    assert w.Party(x.leader).secrets[last := v[last]] == v;
  }

  /** An honest leader about to lock, the secrets it is to be sent, and a sum of theirs that is not the aggregate
      secret: it is led all the way to where it is stranded. */
  lemma ComesToStrand(x: Setting, s: Session, tip: Tip, v: map<Pid, Secret>, last: Pid, draw: Draw)
    returns (w: World, e: Event, w': World)
    requires Solo(x, x.leader, s) && x.leader in x.env.ring && v.Keys == x.env.ring.Keys && last in v && last != x.leader
    requires s.secrets == map[x.leader := v[x.leader]] && x.env.sumSecrets(v) != x.secret
    ensures Reachable(x, w) && Follows(x, w, e, w') && LastSecret(x, w, e) && Stranding.Stranded(x, w') && Reachable(x, w')
    ensures w'.late == {} && w'.hurt == {}
  {
    hide IsRing, Reachable, Prepared, Holds, SignedOver, Of, Stranding.Stranded, Follows;
    var none: set<Pid> := {};
    var w1 := Gathered(x, s, tip);
    assert s.secrets == Of(v, {x.leader}) by { FirstSecret(x, s, v); }
    w := SecretsBut(x, w1, v, {x.leader}, last, draw);
    e := Deliver(x.leader, last, SecretReveal(v[last]), draw, true);
    w' := LastStrands(x, w, v, last, draw, e);
  }

  lemma FirstSecret(x: Setting, s: Session, v: map<Pid, Secret>)
    requires x.leader in v && s.secrets == map[x.leader := v[x.leader]]
    ensures s.secrets == Of(v, {x.leader})
  {
  }

  /** All locks on chain, and all seen. */
  lemma Gathered(x: Setting, s: Session, tip: Tip) returns (w: World)
    requires Solo(x, x.leader, s) && x.leader in x.env.ring
    ensures Gathers(x, w, x.env.ring.Keys, s.secrets)
  {
    hide IsRing, Reachable, Prepared, SignedOver;
    var none: set<Pid> := {};
    var w0 := AllLocked(x, x.leader, s, tip);
    assert Others(x) == {};
    w := PollAll(x, w0, x.env.ring.Keys, none, s.secrets);
    assert none + x.env.ring.Keys == x.env.ring.Keys;
  }

  lemma LastStrands(x: Setting, w: World, v: map<Pid, Secret>, last: Pid, draw: Draw, e: Event) returns (w': World)
    requires Gathers(x, w, x.env.ring.Keys, Of(v, x.env.ring.Keys - {last})) && v.Keys == x.env.ring.Keys && last in v
    requires x.env.sumSecrets(v) != x.secret && e == Deliver(x.leader, last, SecretReveal(v[last]), draw, true)
    ensures Follows(x, w, e, w') && LastSecret(x, w, e) && Stranding.Stranded(x, w') && Reachable(x, w')
    ensures w'.late == {} && w'.hurt == {}
  {
    hide IsRing, Reachable, Prepared, WorldInv, Covers, Holds, HandleMessage, Of, Unguessed, Stranding.Stranded,
         LastSecret, SettleAll, Reveals;
    ReachableOk(x, w);
    InvShape(x, w);
    LastIsLast(x, w, v, last, draw);
    SecretMay(x, w, v, x.env.ring.Keys - {last}, last, draw);
    TargetLocked(x, w);
    w' := Step(x, w, e);
    Stranding.WrongSecretStrands(x, w, e, [w'], [], 0);
    HoldsIt(x, w.Party(x.leader), x.env.ring.Keys, Of(v, x.env.ring.Keys - {last}));
    LastIsOk(x, w, e);
  }

  lemma HoldsIt(x: Setting, s: Session, seen: set<Pid>, secrets: map<Pid, Secret>)
    requires Holds(x, s, seen, secrets)
    ensures Prepared(x, x.leader, s)
  {
    hide Prepared;
  }

  lemma TargetLocked(x: Setting, w: World)
    requires ValidSetting(x) && LockedSoFar(x, w.ledger, x.env.ring.Keys)
    ensures x.leader in w.ledger && At(w.ledger, x.leader).Locked? && Target(x, x.leader) in w.ledger && !Published(x, w.ledger)
  {
    hide Reaches, Hop;
    assert x.env.ring[x.leader].target in x.env.ring.Keys;
    assert At(w.ledger, Target(x, x.leader)) == Locked && At(w.ledger, x.leader) == Locked;
  }

  lemma LastIsOk(x: Setting, w: World, e: Event)
    requires IsRing(x.env.ring) && x.leader in x.env.ring && LastSecret(x, w, e) && Prepared(x, x.leader, w.Party(e.p))
    ensures HandleMessage(x.env, w.Party(e.p), e.msg, e.from, e.draw, e.accepted).Ok?
  {
    hide IsRing, Prepared, HandleMessage, HasAll;
    LastSecretSubmits(x, w, e, HandleMessage(x.env, w.Party(e.p), e.msg, e.from, e.draw, e.accepted));
  }

  // ---------- from the setup on ----------

  lemma NoPeerSecret(c: Conf, n: N.Net, p: Pid, q: Pid)
    requires ValidConf(c) && N.Shaped(c, n) && NetInv(c, n) && p in c.env.ring && p == c.plan.leader && LossWitness.Unseen(c, n, p)
    requires q != p
    ensures q !in n.Party(p).secrets
  {
    hide IsRing, PartyInv, N.SentIn, Links, PointsFirst, SomeoneCommits, Parties, ChainInv, Grounded, MayEmit;
    if q in n.Party(p).secrets {
      NetworkSafety.PartyOf(c, n, p);
      HonestRuns.SecretsWereSent(c, n.Party(p), N.SentIn(n.Log(p)), n.Got(p), q, q);
      SentByPeer(c, n.Party(p), N.SentIn(n.Log(p)), n.Got(p), q);
      SecretMeansSeen(c, n, p, q);
    }
  }

  lemma SecretMeansSeen(c: Conf, n: N.Net, p: Pid, q: Pid)
    requires ValidConf(c) && N.Shaped(c, n) && NetInv(c, n) && p in c.env.ring && q in c.env.ring && q != p && q in n.Got(p).secrets
    ensures p in n.Party(q).locksConfirmed
  {
    hide IsRing, PartyInv, N.SentIn, Links, PointsFirst, SomeoneCommits, Parties, ChainInv;
    assert Has(n.Got(p), q, KSecret);
    HandledWasSent(c, n, p, q, KSecret);
    SecretMeansLocks(c, n, q, q);
    assert p in c.env.ring.Keys;
  }

  /** Nobody has sent its secret to a leader that has just locked. */
  lemma OnlyOwnSecret(c: Conf, n: N.Net, p: Pid)
    requires ValidConf(c) && N.Shaped(c, n) && NetInv(c, n) && p in c.env.ring && p == c.plan.leader && LossWitness.Unseen(c, n, p)
    ensures n.Party(p).secrets == map[p := c.tape(p).secret]
  {
    hide IsRing, PartyInv, N.SentIn, NetInv, Grounded, MayEmit, LossWitness.Unseen;
    NetworkSafety.PartyOf(c, n, p);
    OwnSecretIs(c, n.Party(p), N.SentIn(n.Log(p)), n.Got(p));
    forall q
      ensures q in n.Party(p).secrets <==> q == p
    {
      if q != p {
        NoPeerSecret(c, n, p, q);
      }
    }
  }

  lemma OwnSecretIs(c: Conf, s: Session, sent: Sent, got: Handled)
    requires ValidConf(c) && PartyInv(c, s, sent, got)
    ensures s.me in s.secrets && s.secrets[s.me] == c.tape(s.me).secret
  {
    hide IsRing, Fifo, Funded, PointsInv, ElectionInv, RevealInv, OpeningInv, MusigInv, NoncesInv, PartialsInv,
         RefundsInv, SpendsInv,
         PhaseInv, LeaderInv, Opened;
  }

  lemma SentByPeer(c: Conf, s: Session, sent: Sent, got: Handled, q: Pid)
    requires ValidConf(c) && PartyInv(c, s, sent, got) && q in got.secrets
    ensures q in c.env.ring && q != s.me
  {
    hide IsRing, Funded, PointsInv, ElectionInv, RevealInv, OpeningInv, MusigInv, NoncesInv, PartialsInv, RefundsInv,
         SpendsInv,
         PhaseInv, LeaderInv, Opened, ClaimInv;
    assert Has(got, q, KSecret);
  }

  /** For every ring and all random values: whatever secrets the others reveal, if the sum of all is not the aggregate
      secret an honest leader comes to where it is stranded. */
  lemma LeadersStrand(c: Conf, secret: Secret, tip: Tip, v: map<Pid, Secret>, last: Pid)
    returns (x: Setting, w: World, e: Event, w': World)
    requires ValidConf(c) && PlanFits(c) && v.Keys == c.env.ring.Keys && last in v && last != c.plan.leader
    requires v[c.plan.leader] == c.tape(c.plan.leader).secret && c.env.sumSecrets(v) != secret
    ensures x == Setting(c.env, c.plan.leader, {c.plan.leader}, c.env.sumPoints(AllPoints(c)), secret)
    ensures Reachable(x, w) && Follows(x, w, e, w') && LastSecret(x, w, e) && Stranding.Stranded(x, w') && Reachable(x, w')
    ensures w'.late == {} && w'.hurt == {}
  {
    hide IsRing, PlanFits, NetInv, Prepared, SignedOver, LossWitness.Unseen, NetworkSafety.Reachable, Reachable,
         Follows, LastSecret,
         Stranding.Stranded;
    var l := c.plan.leader;
    var n := LossWitness.SomeoneLocks(c, l);
    x := Setting(c.env, l, {l}, c.env.sumPoints(AllPoints(c)), secret);
    HonestRuns.LockedIsEquipped(c, x, n, l);
    OnlyOwnSecret(c, n, l);
    assert n.Party(l).secrets == map[l := v[l]];
    w, e, w' := ComesToStrand(x, n.Party(l), tip, v, last, c.tape(last).draw);
  }
}
