/** No honest party that is served in time loses, whatever everybody else does; and if all are honest
    and in time, no lock is claimed while another one is returned. For every ring. */
module ChainSafety {
  import opened Ring
  import opened Timelocks
  import opened Protocol
  import opened FundedSessions
  import opened Chain
  import opened ChainSessions

  // ---------- the invariant ----------

  /** Locks are spent with reason: claims follow the leader's, which took everybody's secret, returns come
      when the timelock has passed, and others take locks only on Cardano and only if somebody misbehaves. */
  ghost predicate LedgerInv(x: Setting, ledger: Ledger, tip: Tip, revealed: set<Pid>) {
    && ValidSetting(x) && Covers(x, ledger)
    && (forall y {:trigger At(ledger, y)} :: y in x.env.ring ==> (At(ledger, y).Claimed? ==> Published(x, ledger)))
    && (Published(x, ledger) ==> Others(x) <= revealed)
    && (forall y {:trigger At(ledger, y)} :: y in x.env.ring ==> (At(ledger, y).Returned? ==> RefundAcceptable(x, y, tip)))
    && (forall y {:trigger At(ledger, y)} :: y in x.env.ring ==>
          (At(ledger, y).Taken? ==> Stealable(x, y) && (Published(x, ledger) || RefundAcceptable(x, y, tip))))
  }

  /** Somebody misbehaves, and the lock is on Cardano. */
  predicate Stealable(x: Setting, y: Pid) { Misbehaved(x) && OnCardano(x, y) }

  /** Others can take the own lock, or the one to be claimed; the leader claims before anybody else can. */
  predicate Exposed(x: Setting, p: Pid) {
    p in x.env.ring && (Stealable(x, p) || (p != x.leader && Stealable(x, Target(x, p))))
  }

  /** What a party has after it was served in time: its lock back, or its target. */
  predicate Settled(x: Setting, ledger: Ledger, p: Pid) {
    && p in x.env.ring && p in ledger && Target(x, p) in ledger
    && (At(ledger, p).Returned? || At(ledger, Target(x, p)).Claimed?)
  }

  ghost predicate WatchInv(x: Setting, ledger: Ledger, tip: Tip, served: set<Pid>, late: set<Pid>) {
    && ValidSetting(x) && Covers(x, ledger)
    && forall p {:trigger p in late} :: p in Others(x) && p !in late ==>
      if p in served then Settled(x, ledger, p)
      else Target(x, p) in x.env.ring && !RefundAcceptable(x, Target(x, p), tip)
  }

  /** Every locked party is prepared, the ones that are not hurt have the leader's spend over the point, and all
      is well with the sound ones. */
  ghost predicate PartyGood(x: Setting, ledger: Ledger, revealed: bool, hurt: bool, p: Pid, s: Session) {
    && Covers(x, ledger) && p in x.env.ring
    && Prepared(x, p, s) && (!hurt ==> SignedOver(s, Spend(x.leader), x.point))
    && (Sound(x, hurt, p, s) ==> PartyOk(x, ledger, revealed, p, s))
  }

  /** Not hurt, with its claim over the point, and with both locks out of the reach of others. */
  ghost predicate Sound(x: Setting, hurt: bool, p: Pid, s: Session) { !hurt && Equipped(x, p, s) && !Exposed(x, p) }

  ghost predicate PartiesOk(x: Setting, w: World) {
    && ValidSetting(x) && Shaped(x, w) && Covers(x, w.ledger)
    && forall p {:trigger PartyGood(x, w.ledger, p in w.revealed, p in w.hurt, p, w.Party(p))} :: p in w.party ==>
         PartyGood(x, w.ledger, p in w.revealed, p in w.hurt, p, w.Party(p))
  }

  ghost function Unsound(x: Setting, w: World): set<Pid> {
    (set p | p in x.honest && Exposed(x, p)) + (set p | p in w.party && !Sound(x, p in w.hurt, p, w.Party(p)))
  }

  /** The parties of which nothing is promised. */
  ghost function Excused(x: Setting, w: World): set<Pid> {
    w.late + w.hurt + Unsound(x, w)
  }

  ghost predicate WorldInv(x: Setting, w: World) {
    && ValidSetting(x) && Shaped(x, w) && Covers(x, w.ledger)
    && PartiesOk(x, w) && LedgerInv(x, w.ledger, w.tip, w.revealed)
    && WatchInv(x, w.ledger, w.tip, w.served, Excused(x, w))
  }

  // ---------- the ledger only moves forward ----------

  ghost predicate Forward(was: Status, now: Status) {
    now == was || (was.Absent? && now.Locked?) || (was.Locked? && now.Spent())
  }

  ghost predicate Moves(x: Setting, ledger: Ledger, ledger': Ledger) {
    && Covers(x, ledger) && Covers(x, ledger')
    && forall y {:trigger At(ledger', y)} :: y in x.env.ring ==> Forward(At(ledger, y), At(ledger', y))
  }

  lemma PartyMoves(x: Setting, ledger: Ledger, ledger': Ledger, revealed: bool, p: Pid, s: Session)
    requires Covers(x, ledger) && Covers(x, ledger') && Moves(x, ledger, ledger') && p in x.env.ring
    requires PartyOk(x, ledger, revealed, p, s)
    ensures PartyOk(x, ledger', revealed, p, s)
  {
    hide Equipped;
    assert Forward(At(ledger, p), At(ledger', p)) && Forward(At(ledger, Target(x, p)), At(ledger', Target(x, p)));
    assert Forward(At(ledger, Target(x, x.leader)), At(ledger', Target(x, x.leader)));
    forall q {:trigger q in s.locksConfirmed} | q in s.locksConfirmed
      ensures q in ledger' && !At(ledger', q).Absent?
    {
      assert Forward(At(ledger, q), At(ledger', q));
    }
  }

  /** The invariant of the ledger after some locks were spent with reason. */
  lemma LedgerMoves(x: Setting, ledger: Ledger, ledger': Ledger, tip: Tip, revealed: set<Pid>)
    requires ValidSetting(x) && Covers(x, ledger) && Covers(x, ledger') && Moves(x, ledger, ledger')
    requires LedgerInv(x, ledger, tip, revealed)
    requires forall y {:trigger At(ledger', y)} :: y in x.env.ring && At(ledger, y).Locked? ==>
               && (At(ledger', y).Claimed? ==> Published(x, ledger'))
               && (At(ledger', y).Returned? ==> RefundAcceptable(x, y, tip))
               && (At(ledger', y).Taken? ==> Stealable(x, y) && (Published(x, ledger') || RefundAcceptable(x, y, tip)))
    requires Published(x, ledger') ==> Published(x, ledger) || Others(x) <= revealed
    ensures LedgerInv(x, ledger', tip, revealed)
  {
    hide IsRing, RefundAcceptable, Stealable;
    assert Forward(At(ledger, Target(x, x.leader)), At(ledger', Target(x, x.leader)));
    forall y {:trigger At(ledger', y)} | y in x.env.ring
      ensures (At(ledger', y).Claimed? ==> Published(x, ledger')) && (At(ledger', y).Returned? ==> RefundAcceptable(x, y, tip))
      ensures At(ledger', y).Taken? ==> Stealable(x, y) && (Published(x, ledger') || RefundAcceptable(x, y, tip))
    {
      assert Forward(At(ledger, y), At(ledger', y));
    }
  }

  lemma WatchMoves(x: Setting, ledger: Ledger, ledger': Ledger, tip: Tip, served: set<Pid>, late: set<Pid>)
    requires ValidSetting(x) && Covers(x, ledger) && Covers(x, ledger') && Moves(x, ledger, ledger')
    requires WatchInv(x, ledger, tip, served, late)
    ensures WatchInv(x, ledger', tip, served, late)
  {
    hide IsRing, RefundAcceptable;
    forall p {:trigger p in late} | p in Others(x) && p !in late && p in served
      ensures Settled(x, ledger', p)
    {
      assert Forward(At(ledger, p), At(ledger', p)) && Forward(At(ledger, Target(x, p)), At(ledger', Target(x, p)));
    }
  }

  /** One lock spent, or none. */
  lemma OneMoves(x: Setting, ledger: Ledger, y: Pid, now: Status)
    requires ValidSetting(x) && Covers(x, ledger) && y in x.env.ring && Forward(At(ledger, y), now)
    ensures Covers(x, ledger[y := now]) && Moves(x, ledger, ledger[y := now])
  {
    hide IsRing;
  }

  lemma GoodMoves(x: Setting, ledger: Ledger, ledger': Ledger, revealed: bool, hurt: bool, p: Pid, s: Session)
    requires Covers(x, ledger) && Covers(x, ledger') && Moves(x, ledger, ledger') && p in x.env.ring
    requires PartyGood(x, ledger, revealed, hurt, p, s)
    ensures PartyGood(x, ledger', revealed, hurt, p, s)
  {
    hide Prepared, Moves, PartyOk, Sound, SignedOver;
    if Sound(x, hurt, p, s) {
      PartyMoves(x, ledger, ledger', revealed, p, s);
    }
  }

  lemma PartiesMove(x: Setting, w: World, w': World)
    requires ValidSetting(x) && Shaped(x, w) && Shaped(x, w') && Covers(x, w.ledger) && Covers(x, w'.ledger)
    requires w'.party == w.party && w'.revealed == w.revealed && w'.hurt == w.hurt && Moves(x, w.ledger, w'.ledger)
    requires PartiesOk(x, w)
    ensures PartiesOk(x, w')
  {
    hide IsRing, PartyGood, Moves;
    forall p | p in w'.party
      ensures PartyGood(x, w'.ledger, p in w'.revealed, p in w'.hurt, p, w'.Party(p))
    {
      GoodMoves(x, w.ledger, w'.ledger, p in w.revealed, p in w.hurt, p, w.Party(p));
    }
  }

  /** One honest party took a step while the ledger moved; the others only see the ledger. */
  lemma PartyStepped(x: Setting, w: World, w': World, p: Pid, s': Session)
    requires ValidSetting(x) && Shaped(x, w) && Shaped(x, w') && Covers(x, w.ledger) && Covers(x, w'.ledger)
    requires p in x.honest && w'.party == w.party[p := s'] && w.revealed <= w'.revealed <= w.revealed + {p}
    requires w.hurt <= w'.hurt <= w.hurt + {p}
    requires Moves(x, w.ledger, w'.ledger) && PartyGood(x, w'.ledger, p in w'.revealed, p in w'.hurt, p, s')
    requires PartiesOk(x, w)
    ensures PartiesOk(x, w')
  {
    hide IsRing, PartyGood, Moves;
    forall q | q in w'.party
      ensures PartyGood(x, w'.ledger, q in w'.revealed, q in w'.hurt, q, w'.Party(q))
    {
      if q != p {
        PartyAt(x, w, q);
        GoodMoves(x, w.ledger, w'.ledger, q in w.revealed, q in w.hurt, q, w.Party(q));
      }
    }
  }

  /** With more parties excused less is promised. */
  lemma MoreExcused(x: Setting, ledger: Ledger, tip: Tip, served: set<Pid>, late: set<Pid>, late': set<Pid>)
    requires ValidSetting(x) && Covers(x, ledger) && late <= late' && WatchInv(x, ledger, tip, served, late)
    ensures WatchInv(x, ledger, tip, served, late')
  {
    hide IsRing, RefundAcceptable, Settled;
    forall p {:trigger p in late'} | p in Others(x) && p !in late'
      ensures if p in served then Settled(x, ledger, p) else Target(x, p) in x.env.ring && !RefundAcceptable(x, Target(x, p), tip)
    {
      assert p !in late;
    }
  }

  lemma ExcusedSame(x: Setting, w: World, w': World)
    requires ValidSetting(x) && w'.party == w.party && w'.hurt == w.hurt && w'.late == w.late
    ensures Excused(x, w') == Excused(x, w)
  {
    hide IsRing, Exposed, Sound;
  }

  /** A step of one party excuses nobody that was not excused, if the party was sound before it. */
  lemma ExcusedGrows(x: Setting, w: World, w': World, p: Pid)
    requires ValidSetting(x) && p in w.party && p in w'.party && w'.party == w.party[p := w'.Party(p)]
    requires w.hurt <= w'.hurt <= w.hurt + {p} && w.late <= w'.late
    requires Sound(x, p in w'.hurt, p, w'.Party(p)) ==> Sound(x, p in w.hurt, p, w.Party(p))
    ensures Excused(x, w) <= Excused(x, w')
  {
    hide IsRing, Exposed, Sound;
    forall q | q in Excused(x, w)
      ensures q in Excused(x, w')
    {
      if q in w.party && !Sound(x, q in w.hurt, q, w.Party(q)) && q != p {
        assert w'.Party(q) == w.Party(q) && (q in w'.hurt <==> q in w.hurt);
      }
    }
  }

  lemma ExcusedJoins(x: Setting, w: World, w': World, p: Pid)
    requires ValidSetting(x) && p !in w.party && p in w'.party && w'.party == w.party[p := w'.Party(p)]
    requires w'.hurt == w.hurt && w'.late == w.late
    ensures Excused(x, w) <= Excused(x, w')
  {
    hide IsRing, Exposed, Sound;
    forall q | q in Excused(x, w)
      ensures q in Excused(x, w')
    {
      if q in w.party {
        assert w'.Party(q) == w.Party(q);
      }
    }
  }

  lemma SoundBefore(x: Setting, hurt: bool, p: Pid, s: Session, s': Session)
    requires Prepared(x, p, s) && s'.adaptorSigs == s.adaptorSigs
    ensures Sound(x, hurt, p, s') ==> Sound(x, hurt, p, s)
    ensures SignedOver(s', Spend(x.leader), x.point) == SignedOver(s, Spend(x.leader), x.point)
  {
    hide Prepared, Exposed;
  }

  lemma SameMoves(x: Setting, ledger: Ledger)
    requires ValidSetting(x) && Covers(x, ledger)
    ensures Moves(x, ledger, ledger)
  {
    hide IsRing;
  }

  // ---------- what others and the clock do ----------

  lemma ConfirmKeeps(x: Setting, w: World, y: Pid, w': World)
    requires ValidSetting(x) && Shaped(x, w) && Enabled(x, w, Confirm(y)) && w' == w.(ledger := w.ledger[y := Locked])
    requires WorldInv(x, w)
    ensures WorldInv(x, w')
  {
    hide IsRing, RefundAcceptable, PartiesOk, LedgerInv, WatchInv, Moves, Covers, Excused, Stealable;
    CoversAll(x, w.ledger);
    OneMoves(x, w.ledger, y, Locked);
    PartiesMove(x, w, w');
    ConfirmLedger(x, w.ledger, y, w.tip, w.revealed);
    WatchMoves(x, w.ledger, w'.ledger, w.tip, w.served, Excused(x, w));
    ExcusedSame(x, w, w');
  }

  lemma CoversAll(x: Setting, ledger: Ledger)
    requires Covers(x, ledger)
    ensures ledger.Keys == x.env.ring.Keys && x.leader in x.env.ring && Target(x, x.leader) in x.env.ring
    ensures forall p {:trigger Target(x, p)} :: p in x.env.ring ==> Target(x, p) in x.env.ring
  {
  }

  lemma ConfirmLedger(x: Setting, ledger: Ledger, y: Pid, tip: Tip, revealed: set<Pid>)
    requires ValidSetting(x) && Covers(x, ledger) && y in x.env.ring && At(ledger, y).Absent? && Covers(x, ledger[y := Locked])
    requires LedgerInv(x, ledger, tip, revealed)
    ensures LedgerInv(x, ledger[y := Locked], tip, revealed)
  {
    hide IsRing, RefundAcceptable, Stealable;
    var ledger' := ledger[y := Locked];
    forall z {:trigger At(ledger', z)} | z in x.env.ring
      ensures (At(ledger', z).Claimed? ==> Published(x, ledger')) && (At(ledger', z).Returned? ==> RefundAcceptable(x, z, tip))
      ensures At(ledger', z).Taken? ==> Stealable(x, z) && (Published(x, ledger') || RefundAcceptable(x, z, tip))
    {
      assert At(ledger, z) == At(ledger, z);
    }
  }

  /** A lock was spent: by its owner when that is acceptable, or by its claimant with the secret out. */
  lemma SpendLedger(x: Setting, ledger: Ledger, y: Pid, now: Status, tip: Tip, revealed: set<Pid>)
    requires ValidSetting(x) && Covers(x, ledger) && y in x.env.ring && At(ledger, y).Locked? && now.Spent() && Covers(x, ledger[y := now])
    requires now.Returned? ==> RefundAcceptable(x, y, tip)
    requires now.Claimed? ==> Published(x, ledger[y := now]) && Others(x) <= revealed
    requires now.Taken? ==> Stealable(x, y) && (Published(x, ledger[y := now]) || RefundAcceptable(x, y, tip))
    requires LedgerInv(x, ledger, tip, revealed)
    ensures LedgerInv(x, ledger[y := now], tip, revealed)
  {
    hide IsRing, RefundAcceptable, LedgerInv;
    var ledger' := ledger[y := now];
    OneMoves(x, ledger, y, now);
    PublishedStays(x, ledger, y, now);
    LedgerMoves(x, ledger, ledger', tip, revealed);
  }

  lemma PublishedStays(x: Setting, ledger: Ledger, y: Pid, now: Status)
    requires ValidSetting(x) && Covers(x, ledger) && y in x.env.ring && At(ledger, y).Locked? && Covers(x, ledger[y := now])
    ensures Published(x, ledger) ==> Published(x, ledger[y := now])
    ensures !now.Claimed? ==> (Published(x, ledger[y := now]) ==> Published(x, ledger))
  {
    hide IsRing;
  }

  lemma ForeignRefundKeeps(x: Setting, w: World, y: Pid, w': World)
    requires ValidSetting(x) && Shaped(x, w) && Enabled(x, w, ForeignRefund(y)) && w' == w.(ledger := w.ledger[y := Returned])
    requires WorldInv(x, w)
    ensures WorldInv(x, w')
  {
    hide IsRing, RefundAcceptable, PartiesOk, LedgerInv, WatchInv, Moves, Covers, Excused, Stealable;
    CoversAll(x, w.ledger);
    OneMoves(x, w.ledger, y, Returned);
    PartiesMove(x, w, w');
    SpendLedger(x, w.ledger, y, Returned, w.tip, w.revealed);
    WatchMoves(x, w.ledger, w'.ledger, w.tip, w.served, Excused(x, w));
    ExcusedSame(x, w, w');
  }

  lemma ForeignClaimKeeps(x: Setting, w: World, q: Pid, w': World)
    requires ValidSetting(x) && Shaped(x, w) && Enabled(x, w, ForeignClaim(q)) && w' == w.(ledger := w.ledger[Target(x, q) := Claimed])
    requires WorldInv(x, w)
    ensures WorldInv(x, w')
  {
    hide IsRing, RefundAcceptable, PartiesOk, LedgerInv, WatchInv, Moves, Covers, Excused, Stealable;
    CoversAll(x, w.ledger);
    var y := Target(x, q);
    OneMoves(x, w.ledger, y, Claimed);
    PartiesMove(x, w, w');
    PublishedStays(x, w.ledger, y, Claimed);
    PublishedRevealed(x, w.ledger, w.tip, w.revealed);
    SpendLedger(x, w.ledger, y, Claimed, w.tip, w.revealed);
    WatchMoves(x, w.ledger, w'.ledger, w.tip, w.served, Excused(x, w));
    ExcusedSame(x, w, w');
  }

  lemma TakeKeeps(x: Setting, w: World, y: Pid, w': World)
    requires ValidSetting(x) && Shaped(x, w) && Enabled(x, w, Take(y)) && w' == w.(ledger := w.ledger[y := Taken])
    requires WorldInv(x, w)
    ensures WorldInv(x, w')
  {
    hide IsRing, RefundAcceptable, PartiesOk, LedgerInv, WatchInv, Moves, Covers, Excused;
    CoversAll(x, w.ledger);
    OneMoves(x, w.ledger, y, Taken);
    PartiesMove(x, w, w');
    PublishedStays(x, w.ledger, y, Taken);
    SpendLedger(x, w.ledger, y, Taken, w.tip, w.revealed);
    WatchMoves(x, w.ledger, w'.ledger, w.tip, w.served, Excused(x, w));
    ExcusedSame(x, w, w');
  }

  lemma PublishedRevealed(x: Setting, ledger: Ledger, tip: Tip, revealed: set<Pid>)
    requires ValidSetting(x) && Covers(x, ledger) && LedgerInv(x, ledger, tip, revealed)
    ensures Published(x, ledger) ==> Others(x) <= revealed
  {
    hide IsRing, RefundAcceptable;
  }

  lemma AcceptableLater(x: Setting, p: Pid, tip: Tip, tip': Tip)
    requires ValidSetting(x) && p in x.env.ring && tip.height <= tip'.height && tip.slot <= tip'.slot
    requires RefundAcceptable(x, p, tip)
    ensures RefundAcceptable(x, p, tip')
  {
    hide IsRing, RefundLocktimeBtc, RefundLocktimeCardano;
  }

  lemma AdvanceLedger(x: Setting, ledger: Ledger, tip: Tip, tip': Tip, revealed: set<Pid>)
    requires ValidSetting(x) && Covers(x, ledger) && tip.height <= tip'.height && tip.slot <= tip'.slot
    requires LedgerInv(x, ledger, tip, revealed)
    ensures LedgerInv(x, ledger, tip', revealed)
  {
    hide IsRing, RefundAcceptable, Stealable;
    forall y {:trigger At(ledger, y)} | y in x.env.ring && RefundAcceptable(x, y, tip)
      ensures RefundAcceptable(x, y, tip')
    {
      AcceptableLater(x, y, tip, tip');
    }
  }

  lemma UnsoundSame(x: Setting, w: World, w': World)
    requires ValidSetting(x) && w'.party == w.party && w'.hurt == w.hurt
    ensures Unsound(x, w') == Unsound(x, w)
  {
    hide IsRing, Exposed, Sound;
  }

  lemma AdvanceKeeps(x: Setting, w: World, tip': Tip, w': World)
    requires ValidSetting(x) && Shaped(x, w) && Enabled(x, w, Advance(tip'))
    requires w' == w.(tip := tip', late := w.late + LateAt(x, w.served, tip'))
    requires WorldInv(x, w)
    ensures WorldInv(x, w')
  {
    hide IsRing, RefundAcceptable, PartiesOk, LedgerInv, Unsound;
    AdvanceLedger(x, w.ledger, w.tip, tip', w.revealed);
    SameParties(x, w, w');
    UnsoundSame(x, w, w');
    forall p {:trigger p in Excused(x, w')} | p in Others(x) && p !in Excused(x, w')
      ensures if p in w.served then Settled(x, w.ledger, p) else Target(x, p) in x.env.ring && !RefundAcceptable(x, Target(x, p), tip')
    {
      assert p !in Excused(x, w);
      assert Target(x, p) in w.ledger;
    }
  }

  // ---------- what the honest parties do ----------

  lemma PartyAt(x: Setting, w: World, p: Pid)
    requires ValidSetting(x) && Shaped(x, w) && Covers(x, w.ledger) && PartiesOk(x, w) && p in w.party
    ensures PartyGood(x, w.ledger, p in w.revealed, p in w.hurt, p, w.Party(p))
  {
    hide IsRing, PartyGood;
    assert w.Party(p) == w.Party(p);
  }

  lemma PreparedAt(x: Setting, w: World, p: Pid)
    requires ValidSetting(x) && Shaped(x, w) && Covers(x, w.ledger) && PartiesOk(x, w) && p in w.party
    ensures Prepared(x, p, w.Party(p)) && p in x.env.ring
  {
    hide IsRing, Prepared, PartyOk;
    PartyAt(x, w, p);
  }

  /** A lock has just been submitted, so nothing of it is on chain. */
  lemma JoinKeeps(x: Setting, w: World, p: Pid, s: Session, w': World)
    requires ValidSetting(x) && Shaped(x, w) && Enabled(x, w, Join(p, s)) && w' == w.(party := w.party[p := s])
    requires WorldInv(x, w)
    ensures WorldInv(x, w')
  {
    hide IsRing, RefundAcceptable, PartiesOk, LedgerInv, WatchInv, Moves, Covers, Prepared, SeenOnChain, Excused, Sound, SignedOver;
    CoversAll(x, w.ledger);
    SameMoves(x, w.ledger);
    JoinedGood(x, w.ledger, p, s);
    PartyStepped(x, w, w', p, s);
    ExcusedJoins(x, w, w', p);
    MoreExcused(x, w.ledger, w.tip, w.served, Excused(x, w), Excused(x, w'));
  }

  lemma JoinedGood(x: Setting, ledger: Ledger, p: Pid, s: Session)
    requires Covers(x, ledger) && p in x.env.ring && JustFunded(x, ledger, p, s)
    ensures PartyGood(x, ledger, false, false, p, s)
  {
    hide Prepared, SeenOnChain, Covers, SignedOver, Exposed;
    CoversAll(x, ledger);
    assert p in x.env.ring.Keys && p !in s.locksConfirmed;
  }

  /** A claim by an honest party: of the ledger, only its target can change, and with reason. */
  lemma ClaimLedger(x: Setting, ledger: Ledger, p: Pid, tip: Tip, revealed: set<Pid>, ledger': Ledger)
    requires ValidSetting(x) && Covers(x, ledger) && p in x.env.ring && Target(x, p) in ledger
    requires ledger' == ledger || (At(ledger, Target(x, p)).Locked? && ledger' == ledger[Target(x, p) := Claimed]
                                   && (p == x.leader || Published(x, ledger)) && Others(x) <= revealed)
    requires LedgerInv(x, ledger, tip, revealed)
    ensures Covers(x, ledger') && Moves(x, ledger, ledger') && LedgerInv(x, ledger', tip, revealed)
  {
    hide IsRing, RefundAcceptable, LedgerInv, Moves, Covers;
    CoversAll(x, ledger);
    SameMoves(x, ledger);
    if ledger' != ledger {
      OneMoves(x, ledger, Target(x, p), Claimed);
      PublishedStays(x, ledger, Target(x, p), Claimed);
      SpendLedger(x, ledger, Target(x, p), Claimed, tip, revealed);
    }
  }

  /** The leader's spend, submitted with a certain aggregate secret, is taken exactly when its target's
      lock is unspent, its pre-signature is over the point and the secret is right. */
  ghost predicate LeaderSpends(x: Setting, s: Session, ledger: Ledger, ledger': Ledger, secret: Secret) {
    && Covers(x, ledger)
    && ledger' == if At(ledger, Target(x, x.leader)).Locked? && SignedOver(s, Spend(x.leader), x.point) && secret == x.secret
               then ledger[Target(x, x.leader) := Claimed] else ledger
  }

  lemma DeliverKeeps(x: Setting, w: World, e: Event, o: Outcome, w': World)
    requires ValidSetting(x) && Shaped(x, w) && e.Deliver? && Enabled(x, w, e) && Covers(x, w.ledger)
    requires o == HandleMessage(x.env, w.Party(e.p), e.msg, e.from, e.draw, e.accepted)
    requires w' == DeliverTo(x, w, e.p, e.from, e.msg, e.draw, e.accepted)
    requires WorldInv(x, w)
    ensures WorldInv(x, w')
  {
    hide IsRing, RefundAcceptable, PartiesOk, LedgerInv, WatchInv, Moves, PartyGood, HandleMessage, SettleAll, Covers,
         Tolerated, MaySubmit, Unguessed, Prepared, Reveals, Excused, Sound;
    CoversAll(x, w.ledger);
    var p := e.p;
    PartyAt(x, w, p);
    PreparedAt(x, w, p);
    DeliveredGood(x, w, e, o);
    SameMoves(x, w.ledger);
    if o.Panic? {
      PartyStepped(x, w, w', p, w.Party(p));
      assert w.party[p := w.Party(p)] == w.party;
    } else {
      AnyMessage(x, p, w.Party(p), e.msg, e.from, e.draw, e.accepted, o);
      DeliveredLedger(x, w, e, o, w'.ledger);
      ClaimLedger(x, w.ledger, p, w.tip, w.revealed, w'.ledger);
      GoodMoves(x, w.ledger, w'.ledger, p in w.revealed, p in w'.hurt, p, o.session);
      PartyStepped(x, w, w', p, o.session);
      WatchMoves(x, w.ledger, w'.ledger, w.tip, w.served, Excused(x, w));
    }
    ExcusedGrows(x, w, w', p);
    MoreExcused(x, w'.ledger, w.tip, w.served, Excused(x, w), Excused(x, w'));
  }

  lemma NotSound(x: Setting, p: Pid, s: Session)
    ensures !Sound(x, true, p, s)
  {
    hide Equipped, Exposed;
  }

  /** After a message the party is as good as before, or hurt. */
  lemma DeliveredGood(x: Setting, w: World, e: Event, o: Outcome)
    requires ValidSetting(x) && Shaped(x, w) && e.Deliver? && e.p in w.party && Covers(x, w.ledger)
    requires o == HandleMessage(x.env, w.Party(e.p), e.msg, e.from, e.draw, e.accepted)
    requires PartyGood(x, w.ledger, e.p in w.revealed, e.p in w.hurt, e.p, w.Party(e.p))
    ensures var hurt := e.p in w.hurt || !Tolerated(x.env, w.Party(e.p), e.msg, e.from);
            && (o.Panic? ==> hurt && PartyGood(x, w.ledger, e.p in w.revealed, true, e.p, w.Party(e.p))
                             && !Sound(x, true, e.p, w.Party(e.p)))
            && (o.Ok? ==> PartyGood(x, w.ledger, e.p in w.revealed, hurt, e.p, o.session)
                          && (Sound(x, hurt, e.p, o.session) ==> Sound(x, e.p in w.hurt, e.p, w.Party(e.p))))
  {
    hide IsRing, HandleMessage, Covers, Tolerated, PartyOk, Prepared, MaySubmit, Sound, SignedOver;
    var s := w.Party(e.p);
    AnyMessage(x, e.p, s, e.msg, e.from, e.draw, e.accepted, o);
    NotSound(x, e.p, s);
    if e.p !in w.hurt && Tolerated(x.env, s, e.msg, e.from) {
      PreparedFunded(x, e.p, s);
      ToleratedExactly(x.env, s, e.msg, e.from, e.draw, e.accepted, o);
      ToleratedSame(x.env, s, e.msg, e.from, e.draw, e.accepted);
      assert o.Ok? by { HarmlessIsOk(s, e.msg, o); }
      SoundBefore(x, false, e.p, s, o.session);
      if Sound(x, false, e.p, o.session) {
        MessageOk(x, w.ledger, e.p in w.revealed, e.p, s, e.msg, e.from, e.draw, e.accepted, o);
      }
    } else if o.Ok? {
      NotSound(x, e.p, o.session);
    }
  }

  lemma PreparedFunded(x: Setting, p: Pid, s: Session)
    requires Prepared(x, p, s)
    ensures FundedSession(x.env, s)
  {
  }

  lemma HarmlessIsOk(s: Session, msg: WireMessage, o: Outcome)
    requires Harmless(s, msg, o)
    ensures o.Ok?
  {
  }

  /** What a message does to the ledger: the leader's claim, if that is what it makes the party submit. */
  lemma DeliveredLedger(x: Setting, w: World, e: Event, o: Outcome, ledger': Ledger)
    requires ValidSetting(x) && Shaped(x, w) && e.Deliver? && e.p in w.party && Covers(x, w.ledger) && o.Ok?
    requires MaySubmit(x, e.p, w.Party(e.p), e.msg, e.from, o.submitted) && Unguessed(x, w, e.p, e.from, e.msg)
    requires Prepared(x, e.p, w.Party(e.p))
    requires ledger' == SettleAll(x, w.ledger, w.tip, o.submitted)
    ensures ledger' == w.ledger || (e.p == x.leader && Target(x, e.p) in w.ledger && At(w.ledger, Target(x, e.p)).Locked?
                                    && ledger' == w.ledger[Target(x, e.p) := Claimed] && Others(x) <= w.revealed)
    ensures o.submitted != [] && !o.submitted[0].SubmitLock? ==>
              && e.msg.SecretReveal? && e.p == x.leader
              && LeaderSpends(x, w.Party(e.p), w.ledger, ledger', x.env.sumSecrets(w.Party(e.p).secrets[e.from := e.msg.secret]))
  {
    ReadyToClaim(x, e.p, w.Party(e.p));
    hide IsRing, RefundAcceptable, HasAll, SettleAll, Prepared;
    SettleOne(x, w.ledger, w.tip, o.submitted);
    if o.submitted != [] && !o.submitted[0].SubmitLock? {
      SettleClaim(x, w.ledger, w.tip, o.submitted, e.p);
    } else if o.submitted != [] {
      assert !Accepts(x, w.ledger, w.tip, o.submitted[0]);
    }
  }

  lemma PollLockKeeps(x: Setting, w: World, e: Event, o: Outcome, w': World)
    requires ValidSetting(x) && Shaped(x, w) && e.PollLock? && Enabled(x, w, e)
    requires o == OnLockPoll(x.env, w.Party(e.p), e.owner, e.onChain) && w' == Put(x, w, e.p, o)
    requires WorldInv(x, w)
    ensures WorldInv(x, w')
  {
    hide IsRing, RefundAcceptable, PartiesOk, LedgerInv, WatchInv, Moves, PartyOk, OnLockPoll, SettleAll, Covers,
         Reveals, Prepared, Excused, Sound, SignedOver;
    CoversAll(x, w.ledger);
    var p := e.p;
    PartyAt(x, w, p);
    LockPollAny(x, p, w.Party(p), e.owner, e.onChain, o);
    SoundBefore(x, p in w.hurt, p, w.Party(p), o.session);
    if Sound(x, p in w.hurt, p, w.Party(p)) {
      LockPollOk(x, w.ledger, p in w.revealed, p, w.Party(p), e.owner, e.onChain, o);
    }
    SettleOne(x, w.ledger, w.tip, o.submitted);
    SameMoves(x, w.ledger);
    PartyStepped(x, w, w', p, o.session);
    MoreRevealed(x, w.ledger, w.tip, w.revealed, w'.revealed);
    ExcusedGrows(x, w, w', p);
    MoreExcused(x, w.ledger, w.tip, w.served, Excused(x, w), Excused(x, w'));
  }

  lemma MoreRevealed(x: Setting, ledger: Ledger, tip: Tip, revealed: set<Pid>, revealed': set<Pid>)
    requires ValidSetting(x) && Covers(x, ledger) && revealed <= revealed'
    requires LedgerInv(x, ledger, tip, revealed)
    ensures LedgerInv(x, ledger, tip, revealed')
  {
    hide IsRing, RefundAcceptable;
  }

  // ---------- the tick ----------

  /** A party has looked for the leader's spend: if that is on chain, the party is not waiting any more. */
  ghost predicate HasLooked(x: Setting, w: World, p: Pid, w': World) {
    && Covers(x, w.ledger) && Covers(x, w'.ledger) && p in w.party && p in w'.party
    && w'.Party(p).locksConfirmed == w.Party(p).locksConfirmed && w'.hurt == w.hurt
    && (Published(x, w'.ledger) ==> Published(x, w.ledger))
    && (Sound(x, p in w.hurt, p, w'.Party(p)) && p != x.leader && Published(x, w'.ledger) ==> w'.Party(p).state.Terminal())
    && (Sound(x, p in w'.hurt, p, w'.Party(p)) <==> Sound(x, p in w.hurt, p, w.Party(p)))
  }

  lemma SpendPollKeeps(x: Setting, w: World, p: Pid, o: Outcome, w': World)
    requires ValidSetting(x) && Shaped(x, w) && p in w.party && Covers(x, w.ledger)
    requires o == OnLeaderSpendPoll(w.Party(p), x.leader, Found(x, w.ledger, w.Party(p))) && w' == Put(x, w, p, o)
    requires WorldInv(x, w)
    ensures WorldInv(x, w') && HasLooked(x, w, p, w')
    ensures Excused(x, w') == Excused(x, w) && w'.party.Keys == w.party.Keys
  {
    hide IsRing, RefundAcceptable, PartiesOk, LedgerInv, WatchInv, Moves, PartyOk, OnLeaderSpendPoll, SettleAll, Covers,
         Prepared, Excused, Sound, SignedOver;
    CoversAll(x, w.ledger);
    PartyAt(x, w, p);
    PublishedRevealed(x, w.ledger, w.tip, w.revealed);
    SpendPollAny(x, w.ledger, w.tip, p, w.Party(p), o, w'.ledger);
    SoundBefore(x, p in w.hurt, p, w.Party(p), o.session);
    SoundBefore(x, p in w.hurt, p, o.session, w.Party(p));
    if Sound(x, p in w.hurt, p, w.Party(p)) {
      SpendPollOk(x, w.ledger, w.tip, p in w.revealed, p, w.Party(p), o, w'.ledger);
    }
    ClaimLedger(x, w.ledger, p, w.tip, w.revealed, w'.ledger);
    NoReveal(o.out);
    PartyStepped(x, w, w', p, o.session);
    WatchMoves(x, w.ledger, w'.ledger, w.tip, w.served, Excused(x, w));
    ExcusedGrows(x, w, w', p);
    ExcusedBefore(x, w, p, w');
    assert Excused(x, w') == Excused(x, w);
  }

  /** The window poll of a sound non-leader that is not done gets its lock back. */
  ghost predicate ReturnedIfOpen(x: Setting, w: World, p: Pid, ledger': Ledger) {
    && ValidSetting(x) && p in x.honest && p in w.party && p in ledger'
    && Covers(x, w.ledger) && Covers(x, ledger') && Moves(x, w.ledger, ledger')
    && (Sound(x, p in w.hurt, p, w.Party(p)) && p != x.leader && WindowOpen(x, p, w.tip) && !w.Party(p).state.Terminal() ==>
          At(ledger', p).Returned?)
  }

  lemma NoReveal(out: seq<WireMessage>)
    requires out == []
    ensures !Reveals(out)
  {
  }

  lemma RefundPollKeeps(x: Setting, w: World, p: Pid, accepted: bool, o: Outcome, w': World)
    requires ValidSetting(x) && Shaped(x, w) && p in w.party && Covers(x, w.ledger)
    requires accepted == RefundTaken(x, w.ledger, w.tip, w.Party(p)) && p in w.Party(p).locksConfirmed
    requires o == OnRefundPoll(w.Party(p), WindowOpen(x, p, w.tip), accepted) && w' == Put(x, w, p, o)
    requires Sound(x, p in w.hurt, p, w.Party(p)) && p != x.leader && Published(x, w.ledger) ==> w.Party(p).state.Terminal()
    requires WorldInv(x, w)
    ensures WorldInv(x, w') && w'.hurt == w.hurt && w'.party.Keys == w.party.Keys
    ensures ReturnedIfOpen(x, w, p, w'.ledger) && Excused(x, w') == Excused(x, w)
  {
    hide IsRing, RefundAcceptable, WindowOpen, PartiesOk, LedgerInv, WatchInv, Moves, PartyOk, OnRefundPoll, RefundTaken,
         SettleAll, Covers, Prepared, Excused, Sound, SignedOver, Stealable;
    CoversAll(x, w.ledger);
    PartyAt(x, w, p);
    OwnClaimPublished(x, w.ledger, w.tip, w.revealed, p);
    RefundPollAny(x, w.ledger, w.tip, p, w.Party(p), accepted, o, w'.ledger);
    SoundBefore(x, p in w.hurt, p, w.Party(p), o.session);
    SoundBefore(x, p in w.hurt, p, o.session, w.Party(p));
    if Sound(x, p in w.hurt, p, w.Party(p)) {
      SoundIsSafe(x, p in w.hurt, p, w.Party(p));
      RefundPollOk(x, w.ledger, w.tip, p in w.revealed, p, w.Party(p), accepted, o, w'.ledger);
    }
    RefundLedger(x, w.ledger, p, w.tip, w.revealed, w'.ledger);
    NoReveal(o.out);
    PartyStepped(x, w, w', p, o.session);
    WatchMoves(x, w.ledger, w'.ledger, w.tip, w.served, Excused(x, w));
    ExcusedGrows(x, w, w', p);
    ExcusedBefore(x, w, p, w');
    assert Excused(x, w') == Excused(x, w);
  }

  lemma SoundIsSafe(x: Setting, hurt: bool, p: Pid, s: Session)
    requires Sound(x, hurt, p, s) && p in x.env.ring
    ensures !Stealable(x, p) && (p != x.leader ==> !Stealable(x, Target(x, p)))
  {
    hide Equipped;
  }

  lemma OwnClaimPublished(x: Setting, ledger: Ledger, tip: Tip, revealed: set<Pid>, p: Pid)
    requires ValidSetting(x) && Covers(x, ledger) && LedgerInv(x, ledger, tip, revealed) && p in x.env.ring
    ensures At(ledger, p).Claimed? ==> Published(x, ledger)
    ensures At(ledger, p).Returned? ==> RefundAcceptable(x, p, tip)
    ensures At(ledger, p).Taken? ==> Stealable(x, p) && (Published(x, ledger) || RefundAcceptable(x, p, tip))
  {
    hide IsRing, RefundAcceptable, Stealable;
    assert At(ledger, p) == At(ledger, p);
  }

  lemma RefundLedger(x: Setting, ledger: Ledger, p: Pid, tip: Tip, revealed: set<Pid>, ledger': Ledger)
    requires ValidSetting(x) && Covers(x, ledger) && p in x.env.ring
    requires ledger' == ledger || (At(ledger, p).Locked? && RefundAcceptable(x, p, tip) && ledger' == ledger[p := Returned])
    requires LedgerInv(x, ledger, tip, revealed)
    ensures Covers(x, ledger') && Moves(x, ledger, ledger') && LedgerInv(x, ledger', tip, revealed)
  {
    hide IsRing, RefundAcceptable, LedgerInv, Moves, Covers;
    CoversAll(x, ledger);
    SameMoves(x, ledger);
    if ledger' != ledger {
      OneMoves(x, ledger, p, Returned);
      SpendLedger(x, ledger, p, Returned, tip, revealed);
    }
  }

  /** What the two polls of a tick have settled for a non-leader that is in time and sound. */
  lemma TickSettles(x: Setting, w: World, p: Pid, w1: World, w2: World, excused: set<Pid>)
    requires ValidSetting(x) && Shaped(x, w) && p in Others(x) && p !in excused && Covers(x, w.ledger) && Covers(x, w2.ledger)
    requires p in w.party && p in w.Party(p).locksConfirmed && WindowOpen(x, p, w.tip) && w1.tip == w.tip
    requires ReturnedIfOpen(x, w1, p, w2.ledger) && p in w2.party && Sound(x, p in w1.hurt, p, w1.Party(p))
    requires Published(x, w1.ledger) ==> Published(x, w.ledger)
    requires w1.Party(p).state.Terminal() ==> PartyOk(x, w1.ledger, p in w1.revealed, p, w1.Party(p))
    requires WatchInv(x, w.ledger, w.tip, w.served, excused) && WatchInv(x, w2.ledger, w.tip, w.served, excused)
    requires LedgerInv(x, w2.ledger, w.tip, w2.revealed)
    ensures Settled(x, w2.ledger, p)
  {
    hide IsRing, RefundAcceptable, WindowOpen, Equipped, SeenOnChain, RevealOk, Covers, Sound, Stealable;
    CoversAll(x, w2.ledger);
    CoversAll(x, w1.ledger);
    var t := Target(x, p);
    SoundIsSafe(x, p in w1.hurt, p, w1.Party(p));
    if p !in w.served && w1.Party(p).state.Terminal() {
      assert p !in excused && !RefundAcceptable(x, t, w.tip);
      OwnClaimPublished(x, w2.ledger, w.tip, w2.revealed, t);
      assert Forward(At(w1.ledger, t), At(w2.ledger, t)) && Forward(At(w1.ledger, p), At(w2.ledger, p));
    } else if p in w.served {
      assert p !in excused && Settled(x, w2.ledger, p);
    }
  }

  lemma SoundUnlessExcused(x: Setting, w: World, p: Pid)
    requires ValidSetting(x) && p in w.party && p !in Excused(x, w)
    ensures Sound(x, p in w.hurt, p, w.Party(p))
  {
    hide IsRing, Exposed, Sound;
  }

  lemma ExcusedBefore(x: Setting, w: World, p: Pid, w': World)
    requires ValidSetting(x) && p in w.party && p in w'.party && w'.party == w.party[p := w'.Party(p)]
    requires w'.hurt == w.hurt && w'.late == w.late
    requires Sound(x, p in w.hurt, p, w.Party(p)) ==> Sound(x, p in w'.hurt, p, w'.Party(p))
    ensures Excused(x, w') <= Excused(x, w)
  {
    assert w.party == w'.party[p := w.Party(p)];
    ExcusedGrows(x, w', w, p);
  }

  lemma TickKeeps(x: Setting, w: World, p: Pid, w': World)
    requires ValidSetting(x) && Shaped(x, w) && p in w.party && Covers(x, w.ledger) && w' == TickOf(x, w, p)
    requires WorldInv(x, w)
    ensures WorldInv(x, w')
    ensures SettledAfter(x, w, p, w')
  {
    hide IsRing, RefundAcceptable, WindowOpen, PartiesOk, LedgerInv, WatchInv, Moves, PartyOk, OnRefundPoll,
         OnLeaderSpendPoll, Put, Covers, ReturnedIfOpen, Prepared, Excused, Sound, SignedOver, RefundTaken;
    CoversAll(x, w.ledger);
    var w1 := PollLeaderSpend(x, w, p);
    var o1 := OnLeaderSpendPoll(w.Party(p), x.leader, Found(x, w.ledger, w.Party(p)));
    SpendPollKeeps(x, w, p, o1, w1);
    PutKeepsClock(x, w, p, o1, w1);
    var w2 := PollRefund(x, w1, p);
    if p in w.Party(p).locksConfirmed {
      var accepted := RefundTaken(x, w1.ledger, w1.tip, w1.Party(p));
      var o := OnRefundPoll(w1.Party(p), WindowOpen(x, p, w1.tip), accepted);
      RefundPollKeeps(x, w1, p, accepted, o, w2);
      PutKeepsClock(x, w1, p, o, w2);
      if WindowOpen(x, p, w.tip) {
        TickServes(x, w, p, w1, w2, w');
      }
    }
  }

  lemma TickServes(x: Setting, w: World, p: Pid, w1: World, w2: World, w': World)
    requires ValidSetting(x) && Shaped(x, w) && Shaped(x, w1) && Shaped(x, w2) && Shaped(x, w') && p in w.party
    requires w1.tip == w.tip && w2.tip == w.tip && w2.served == w.served
    requires w1.party.Keys == w.party.Keys && w2.party.Keys == w.party.Keys
    requires w' == w2.(served := w2.served + {p}) && p in w.Party(p).locksConfirmed && WindowOpen(x, p, w.tip)
    requires HasLooked(x, w, p, w1) && ReturnedIfOpen(x, w1, p, w2.ledger)
    requires Excused(x, w) == Excused(x, w2)
    requires WorldInv(x, w) && WorldInv(x, w1) && WorldInv(x, w2)
    ensures WorldInv(x, w') && SettledAfter(x, w, p, w')
  {
    hide IsRing, RefundAcceptable, WindowOpen, PartiesOk, LedgerInv, WatchInv, PartyOk, Covers, ReturnedIfOpen, Prepared, Excused,
         Sound, SignedOver;
    CoversAll(x, w2.ledger);
    var excused := Excused(x, w);
    if p in Others(x) && p !in excused {
      SoundUnlessExcused(x, w, p);
      PartyAt(x, w1, p);
      TickSettles(x, w, p, w1, w2, excused);
    }
    ServedNow(x, w2.ledger, w2.tip, w2.served, excused, p);
    SameParties(x, w2, w');
    ExcusedSame(x, w2, w');
  }

  /** A served non-leader that is in time and sound is settled. */
  ghost predicate SettledAfter(x: Setting, w: World, p: Pid, w': World) {
    && ValidSetting(x) && p in x.honest && p in w.party && Covers(x, w'.ledger)
    && (p in Others(x) && p !in Excused(x, w) && p in w.Party(p).locksConfirmed && WindowOpen(x, p, w.tip) ==>
          CoversTarget(x, w'.ledger, p) && Settled(x, w'.ledger, p))
  }

  predicate CoversTarget(x: Setting, ledger: Ledger, p: Pid) {
    p in x.env.ring && p in ledger && Target(x, p) in ledger
  }

  lemma PutKeepsClock(x: Setting, w: World, p: Pid, o: Outcome, w': World)
    requires ValidSetting(x) && Shaped(x, w) && p in w.party && w' == Put(x, w, p, o)
    ensures w'.tip == w.tip && w'.served == w.served && w'.late == w.late && p in w'.party
  {
    hide IsRing, SettleAll, Reveals;
  }

  lemma ServedNow(x: Setting, ledger: Ledger, tip: Tip, served: set<Pid>, late: set<Pid>, p: Pid)
    requires ValidSetting(x) && Covers(x, ledger) && p in x.honest && CoversTarget(x, ledger, p)
    requires p in Others(x) && p !in late ==> Settled(x, ledger, p)
    requires WatchInv(x, ledger, tip, served, late)
    ensures WatchInv(x, ledger, tip, served + {p}, late)
  {
    hide IsRing, RefundAcceptable;
  }

  lemma SameParties(x: Setting, w: World, w': World)
    requires ValidSetting(x) && Shaped(x, w) && Shaped(x, w') && Covers(x, w.ledger)
    requires w'.party == w.party && w'.ledger == w.ledger && w'.revealed == w.revealed && w'.hurt == w.hurt
    requires PartiesOk(x, w)
    ensures PartiesOk(x, w')
  {
    hide IsRing, PartyGood;
    forall p | p in w'.party
      ensures PartyGood(x, w'.ledger, p in w'.revealed, p in w'.hurt, p, w'.Party(p))
    {
      assert PartyGood(x, w.ledger, p in w.revealed, p in w.hurt, p, w.Party(p));
    }
  }
}
