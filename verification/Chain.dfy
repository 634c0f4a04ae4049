/** The chain phase: the N locks on chain, the sessions of the honest parties that have locked, with their
    polls and whatever messages reach them, a clock, and everybody else doing whatever the chain and the
    unknown secrets allow. */
module Chain {
  import opened Ring
  import opened Timelocks
  import opened Protocol
  import opened Contents
  import opened FundedSessions

  /** What a lock has become: each is spent at most once, by its claimant, by its owner or, on Cardano, by
      somebody else. */
  datatype Status = Absent | Locked | Claimed | Returned | Taken
  {
    predicate Spent() { Claimed? || Returned? || Taken? }
  }

  /** `point` is the adaptor point that the pre-signature of the leader's spend is over, and `secret` its
      discrete logarithm: the only scalar that makes a pre-signature over that point valid, and of no use for
      any other point. Whoever is not honest does what it likes. */
  datatype Setting = Setting(env: Env, leader: Pid, honest: set<Pid>, point: Point, secret: Secret)

  ghost predicate ValidSetting(x: Setting) {
    IsRing(x.env.ring) && x.leader in x.env.ring && x.honest <= x.env.ring.Keys
  }

  type Ledger = map<Pid, Status>

  function At(ledger: Ledger, y: Pid): Status { if y in ledger then ledger[y] else Absent }

  /** `party` are the honest parties that have submitted their lock, `revealed` those of them whose secret
      has been broadcast. `served` have handled a tick with their own refund window open; `late` had not
      when their target's refund became acceptable. `hurt` have handled a message that a funded session
      does not stand, and those of them that are `crashed` have panicked on it. */
  datatype World = World(party: map<Pid, Session>, ledger: Ledger, tip: Tip, revealed: set<Pid>, served: set<Pid>, late: set<Pid>,
                         hurt: set<Pid>, crashed: set<Pid>)
  {
    function Party(p: Pid): Session { if p in party then party[p] else NewSession(p, 0, 0) }
  }

  ghost predicate Shaped(x: Setting, w: World) {
    && w.party.Keys <= x.honest && w.ledger.Keys == x.env.ring.Keys
    && w.revealed <= w.party.Keys && w.crashed <= w.hurt <= w.party.Keys
  }

  /** The honest parties whose daemon is running a locked swap. */
  predicate Runs(w: World, p: Pid) { p in w.party && p !in w.crashed }

  /** What a party has with its lock submitted: a funded session of the common leader, with the own refund
      signed. */
  ghost predicate Prepared(x: Setting, p: Pid, s: Session) {
    && s.me == p && s.leader == Some(x.leader) && Refund(p) in s.signedTxs
    && FundedSession(x.env, s)
  }

  /** The pre-signature of a spend is over the point. */
  predicate SignedOver(s: Session, role: TxRole, point: Point) {
    role in s.adaptorSigs && s.adaptorSigs[role].adaptor == Some(point)
  }

  /** What it takes to claim: that the pre-signatures of the own spend and of the leader's are over the point. */
  ghost predicate Equipped(x: Setting, p: Pid, s: Session) {
    Prepared(x, p, s) && SignedOver(s, Spend(p), x.point) && SignedOver(s, Spend(x.leader), x.point)
  }

  ghost predicate SeenOnChain(confirmed: set<Pid>, ledger: Ledger) {
    forall q {:trigger q in confirmed} :: q in confirmed ==> q in ledger && !At(ledger, q).Absent?
  }

  /** The session of a party that has just submitted its lock. Others may be further on, and it may already
      have seen some of their locks. The leader's spend is over one point for all, but the own spend may be
      over another. */
  ghost predicate JustFunded(x: Setting, ledger: Ledger, p: Pid, s: Session) {
    && Prepared(x, p, s) && SignedOver(s, Spend(x.leader), x.point) && s.state == AwaitingLockConfirmations
    && SeenOnChain(s.locksConfirmed, ledger) && p !in s.locksConfirmed
  }

  function Target(x: Setting, p: Pid): Pid { if p in x.env.ring then x.env.ring[p].target else p }

  /** The leader's spend is on chain, and with it the aggregate secret. */
  predicate Published(x: Setting, ledger: Ledger) {
    && x.leader in x.env.ring && Target(x, x.leader) in ledger
    && At(ledger, Target(x, x.leader)).Claimed?
  }

  ghost predicate RefundAcceptable(x: Setting, p: Pid, tip: Tip) {
    && IsRing(x.env.ring) && x.leader in x.env.ring && p in x.env.ring
    && ChainAcceptsRefund(x.env.ring, x.leader, x.env.anchors, p, tip)
  }

  ghost predicate WindowOpen(x: Setting, p: Pid, tip: Tip) {
    && IsRing(x.env.ring) && x.leader in x.env.ring && p in x.env.ring
    && DaemonSaysOpen(x.env.ring, x.leader, x.env.anchors, p, tip)
  }

  // ---------- what the chain does with a submission ----------

  /** The chain reads the transaction: what it spends must be the lock that is there, a refund must return it to
      its owner and a spend pay it to the claimant. A spend is valid with a pre-signature over the point, adapted
      with the secret, and while its target's lock is unspent; a refund once its timelock has passed and while the
      own lock is unspent. Locks are not submitted any more. */
  ghost predicate Accepts(x: Setting, ledger: Ledger, tip: Tip, sub: Submission) {
    && IsRing(x.env.ring) && x.leader in x.env.ring && ledger.Keys == x.env.ring.Keys
    && match sub
    case SubmitTx(Spend(p), tx) => p in x.env.ring && Target(x, p) in ledger && At(ledger, Target(x, p)).Locked?
          && SpendRight(x.env, x.leader, p, tx.tx)
          && tx.auth.Adapted? && tx.auth.inputs.adaptor == Some(x.point) && tx.auth.secret == x.secret
    case SubmitTx(Refund(p), tx) => p in x.env.ring && At(ledger, p).Locked?
          && RefundRight(x.env, x.leader, p, tx.tx) && TimelockPassed(x.env.systemStart, tx.tx, tip)
    case SubmitLock(_) => false
  }

  ghost function Settle(x: Setting, ledger: Ledger, tip: Tip, sub: Submission): (after: Ledger)
    ensures after.Keys == ledger.Keys
  {
    if !Accepts(x, ledger, tip, sub) then ledger
    else match sub.role
      case Spend(p) => ledger[Target(x, p) := Claimed]
      case Refund(p) => ledger[p := Returned]
  }

  ghost function SettleAll(x: Setting, ledger: Ledger, tip: Tip, subs: seq<Submission>): (after: Ledger)
    ensures after.Keys == ledger.Keys
  {
    if subs == [] then ledger
    else Settle(x, SettleAll(x, ledger, tip, subs[..|subs| - 1]), tip, subs[|subs| - 1])
  }

  /** The chain's answer to the refund that the session holds. */
  ghost predicate RefundTaken(x: Setting, ledger: Ledger, tip: Tip, s: Session) {
    && IsRing(x.env.ring) && x.leader in x.env.ring && ledger.Keys == x.env.ring.Keys
    && Refund(s.me) in s.signedTxs && Accepts(x, ledger, tip, SubmitTx(Refund(s.me), s.signedTxs[Refund(s.me)]))
  }

  // ---------- events ----------

  datatype Event =
    | Join(p: Pid, s: Session)
    | Confirm(owner: Pid)
    | Deliver(p: Pid, from: Pid, msg: WireMessage, draw: Draw, accepted: bool)
    | PollLock(p: Pid, owner: Pid, onChain: bool)
    | Tick(p: Pid)
    | Advance(tip: Tip)
    | ForeignRefund(owner: Pid)
    | ForeignClaim(claimant: Pid)
    | Take(owner: Pid)

  ghost function Others(x: Setting): set<Pid> { x.honest - {x.leader} }

  /** Nobody can produce the aggregate secret while an honest non-leader has kept its own. */
  ghost predicate Unguessed(x: Setting, w: World, p: Pid, from: Pid, msg: WireMessage) {
    && p in w.party
    && var secrets := if msg.SecretReveal? then w.Party(p).secrets[from := msg.secret] else map[];
    p == x.leader && HasAll(x.env.ring, secrets) && x.env.sumSecrets(secrets) == x.secret ==> Others(x) <= w.revealed
  }

  /** Not everybody is honest. */
  predicate Misbehaved(x: Setting) { x.honest != x.env.ring.Keys }

  /** Spends by others: the leader's needs all honest secrets; a non-leader's lock is claimed only after the
      leader's spend is on chain. */
  ghost predicate MayClaim(x: Setting, w: World, q: Pid) {
    && ValidSetting(x) && Shaped(x, w) && q in x.env.ring
    && if q == x.leader then Others(x) <= w.revealed
    else Target(x, x.leader) in w.ledger && Published(x, w.ledger)
  }

  predicate OnCardano(x: Setting, y: Pid) { y in x.env.ring && x.env.ring[y].blockchain.Cardano? }

  /** A Cardano lock can be spent by any transaction that carries one of the two signatures over it: the one
      of the claimant's spend, which the secret completes, or the one of the refund, once its timelock has
      passed. Every participant holds both, and one that misbehaves can pay itself. */
  ghost predicate MayTake(x: Setting, ledger: Ledger, tip: Tip, y: Pid) {
    && IsRing(x.env.ring) && x.leader in x.env.ring && y in x.env.ring && Target(x, x.leader) in ledger
    && (Misbehaved(x) && OnCardano(x, y) && (Published(x, ledger) || RefundAcceptable(x, y, tip)))
  }

  /** Honest parties join when they submit their lock, which can then be confirmed. From there on they may
      be sent anything by anybody. Who misbehaves can also submit for an honest party what it holds of it, its
      refund or its claim, but not the claim of a leader that has kept its secret. */
  ghost predicate Enabled(x: Setting, w: World, e: Event) {
    && ValidSetting(x) && Shaped(x, w)
    && match e
    case Join(p, s) => p in x.honest && p !in w.party && At(w.ledger, p).Absent? && JustFunded(x, w.ledger, p, s)
    case Confirm(owner) => owner in w.ledger && At(w.ledger, owner).Absent? && (owner in x.honest ==> owner in w.party)
    case Deliver(p, from, msg, _, _) => Runs(w, p) && Unguessed(x, w, p, from, msg)
    case PollLock(p, owner, onChain) =>
      Runs(w, p) && owner in x.env.ring && (onChain ==> !At(w.ledger, owner).Absent?)
    case Tick(p) => Runs(w, p)
    case Advance(tip) => w.tip.height <= tip.height && w.tip.slot <= tip.slot
    case ForeignRefund(owner) =>
      && owner in x.env.ring && (owner in x.honest ==> Misbehaved(x))
      && At(w.ledger, owner).Locked? && RefundAcceptable(x, owner, w.tip)
    case ForeignClaim(q) =>
      && q in x.env.ring && (q in w.party ==> q != x.leader && Misbehaved(x))
      && Target(x, q) in w.ledger && At(w.ledger, Target(x, q)).Locked? && MayClaim(x, w, q)
    case Take(owner) =>
      owner in x.env.ring && At(w.ledger, owner).Locked? && Target(x, x.leader) in w.ledger && MayTake(x, w.ledger, w.tip, owner)
  }

  ghost predicate Reveals(out: seq<WireMessage>) {
    exists m {:trigger m in out} :: m in out && m.SecretReveal?
  }

  /** A handler's outcome: the session, the secret if it was broadcast, and what the chain took. */
  ghost function Put(x: Setting, w: World, p: Pid, o: Outcome): (after: World)
    ensures Shaped(x, w) && p in w.party ==> Shaped(x, after)
  {
    if o.Panic? then w.(hurt := w.hurt + {p}, crashed := w.crashed + {p})
    else
      w.(party := w.party[p := o.session],
         ledger := SettleAll(x, w.ledger, w.tip, o.submitted),
         revealed := if Reveals(o.out) then w.revealed + {p} else w.revealed)
  }

  /** The secret extracted from the leader's spend, if that spend is what consumed the lock and the session has
      its pre-signature. */
  ghost function Found(x: Setting, ledger: Ledger, s: Session): Option<Secret> {
    if Published(x, ledger) && SignedOver(s, Spend(x.leader), x.point) then Some(x.secret) else None
  }

  ghost function PollLeaderSpend(x: Setting, w: World, p: Pid): (after: World)
    ensures Shaped(x, w) ==> Shaped(x, after)
  {
    if p !in w.party then w
    else Put(x, w, p, OnLeaderSpendPoll(w.Party(p), x.leader, Found(x, w.ledger, w.Party(p))))
  }

  /** The window poller runs once the own lock is confirmed; the chain answers a submission truly. */
  ghost function PollRefund(x: Setting, w: World, p: Pid): World {
    if p !in w.party || p !in w.Party(p).locksConfirmed then w
    else
      Put(x, w, p, OnRefundPoll(w.Party(p), WindowOpen(x, p, w.tip), RefundTaken(x, w.ledger, w.tip, w.Party(p))))
  }

  ghost function LateAt(x: Setting, served: set<Pid>, tip: Tip): set<Pid> {
    set p | p in Others(x) && p !in served && Target(x, p) in x.env.ring && RefundAcceptable(x, Target(x, p), tip)
  }

  /** A message: handled, and noted if a funded session does not stand it. */
  ghost function DeliverTo(x: Setting, w: World, p: Pid, from: Pid, msg: WireMessage, draw: Draw, accepted: bool): World
    requires p in w.party
  {
    var w1 := Put(x, w, p, HandleMessage(x.env, w.Party(p), msg, from, draw, accepted));
    if Tolerated(x.env, w.Party(p), msg, from) then w1 else w1.(hurt := w1.hurt + {p})
  }

  /** A tick: the leader's spend is looked for first, then the own refund window is checked, on the same
      view of the chain. A tick with the own window open and its poller running has served the party. */
  ghost function TickOf(x: Setting, w: World, p: Pid): World {
    var w1 := PollLeaderSpend(x, w, p);
    var w2 := PollRefund(x, w1, p);
    if p in w.party && p in w.Party(p).locksConfirmed && WindowOpen(x, p, w.tip) then w2.(served := w2.served + {p}) else w2
  }

  ghost function Step(x: Setting, w: World, e: Event): World {
    match e
    case Join(p, s) => w.(party := w.party[p := s])
    case Confirm(owner) => w.(ledger := w.ledger[owner := Locked])
    case Deliver(p, from, msg, draw, accepted) => if p in w.party then DeliverTo(x, w, p, from, msg, draw, accepted) else w
    case PollLock(p, owner, onChain) => if p in w.party then Put(x, w, p, OnLockPoll(x.env, w.Party(p), owner, onChain)) else w
    case Tick(p) => TickOf(x, w, p)
    case Advance(tip) => w.(tip := tip, late := w.late + LateAt(x, w.served, tip))
    case ForeignRefund(owner) => w.(ledger := w.ledger[owner := Returned])
    case ForeignClaim(q) => w.(ledger := w.ledger[Target(x, q) := Claimed])
    case Take(owner) => w.(ledger := w.ledger[owner := Taken])
  }
}
