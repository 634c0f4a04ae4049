/** The two signing rounds: the last leader nonce opens all first rounds, the last public nonce of a
    role starts its second round, and the last partial signature of all roles makes the party fund. */
module SigningSteps {
  import opened Ring
  import opened Protocol
  import opened PartyInvariant
  import opened PartySteps

  // ---------- the last leader nonce ----------

  ghost predicate MusigBegun(c: Conf, me: Pid, was: map<TxRole, MusigRuntime>, now: map<TxRole, MusigRuntime>, roles: set<TxRole>) {
    && now.Keys == was.Keys + roles
    && forall r {:trigger now[r]} :: r in now ==> now[r] == if r in roles then TheRuntime(c, me, r, false) else was[r]
  }

  ghost predicate UnsignedBegun(c: Conf, was: map<TxRole, UnsignedTx>, now: map<TxRole, UnsignedTx>, roles: set<TxRole>) {
    forall r {:trigger r in now} ::
      && (r in now <==> r in was || r in roles)
      && (r in now ==> now[r] == if r in roles then c.plan.unsigned(r) else was[r])
  }

  ghost predicate NoncesBegun(c: Conf, me: Pid, was: map<(Pid, TxRole), PubNonce>, now: map<(Pid, TxRole), PubNonce>, roles: set<TxRole>) {
    forall q, r {:trigger (q, r) in now} ::
      && ((q, r) in now <==> (q, r) in was || (q == me && r in roles))
      && ((q, r) in now ==> now[(q, r)] == if q == me && r in roles then PubNonce(c.plan.sec(q, r)) else was[(q, r)])
  }

  /** What opening the first round for some roles adds to the session. */
  ghost predicate RolesBegun(c: Conf, s: Session, t: Session, roles: set<TxRole>) {
    && t == s.(unsignedTxs := t.unsignedTxs, nonces := t.nonces, musig := t.musig)
    && MusigBegun(c, s.me, s.musig, t.musig, roles)
    && UnsignedBegun(c, s.unsignedTxs, t.unsignedTxs, roles)
    && NoncesBegun(c, s.me, s.nonces, t.nonces, roles)
  }

  /** One turn of the loop, in terms of the plan. */
  ghost function PlannedTurn(c: Conf, s: Session, role: TxRole): Session {
    s.(unsignedTxs := s.unsignedTxs[role := c.plan.unsigned(role)],
       nonces := s.nonces[(s.me, role) := PubNonce(c.plan.sec(s.me, role))],
       musig := s.musig[role := TheRuntime(c, s.me, role, false)])
  }

  lemma TurnIsPlanned(c: Conf, s: Session, role: TxRole)
    requires PlanFits(c) && s.me in c.env.ring && RoleInRing(c.env, role)
    ensures BeginRole(c.env, c.plan.leader, s, c.tape(s.me).draw, role) == PlannedTurn(c, s, role)
    ensures SchnorrNonce(role, PubNonce(NewNonce(c.env, c.plan.leader, s.me, c.tape(s.me).draw,
          role))) == TheMessage(c, s.me, KSchnorr(role))
  {
    hide IsRing, InputsFit, LocksBuildable, UnsignedFor, MessageFor, NewNonce, ElectedLeader, AllLeaderNonces, Locks,
         TweakFor;
    assert PlannedRole(c, role);
  }

  lemma TurnMusig(c: Conf, me: Pid, was: map<TxRole, MusigRuntime>, now: map<TxRole, MusigRuntime>, roles: set<TxRole>, role: TxRole)
    requires MusigBegun(c, me, was, now, roles)
    ensures MusigBegun(c, me, was, now[role := TheRuntime(c, me, role, false)], roles + {role})
  {
    hide TheRuntime;
  }

  lemma TurnUnsigned(c: Conf, was: map<TxRole, UnsignedTx>, now: map<TxRole, UnsignedTx>, roles: set<TxRole>, role: TxRole)
    requires UnsignedBegun(c, was, now, roles)
    ensures UnsignedBegun(c, was, now[role := c.plan.unsigned(role)], roles + {role})
  {
  }

  lemma TurnNonces(c: Conf, me: Pid, was: map<(Pid, TxRole), PubNonce>, now: map<(Pid, TxRole), PubNonce>, roles: set<TxRole>, role: TxRole)
    requires NoncesBegun(c, me, was, now, roles)
    ensures NoncesBegun(c, me, was, now[(me, role) := PubNonce(c.plan.sec(me, role))], roles + {role})
  {
  }

  lemma TurnBegins(c: Conf, s: Session, t: Session, roles: set<TxRole>, role: TxRole)
    requires RolesBegun(c, s, t, roles)
    ensures RolesBegun(c, s, PlannedTurn(c, t, role), roles + {role})
  {
    hide TheRuntime, MusigBegun, UnsignedBegun, NoncesBegun;
    TurnMusig(c, s.me, s.musig, t.musig, roles, role);
    TurnUnsigned(c, s.unsignedTxs, t.unsignedTxs, roles, role);
    TurnNonces(c, s.me, s.nonces, t.nonces, roles, role);
  }

  lemma {:induction false} BeginSigningBegins(c: Conf, s: Session, roles: seq<TxRole>)
    requires PlanFits(c) && s.me in c.env.ring
    requires forall r :: r in roles ==> RoleInRing(c.env, r)
    ensures RolesBegun(c, s, BeginSigning(c.env, c.plan.leader, s, c.tape(s.me).draw, roles), set r | r in roles)
  {
    hide IsRing, InputsFit, LocksBuildable, UnsignedFor, MessageFor, NewNonce, ElectedLeader, AllLeaderNonces, Locks,
         TweakFor, BeginRole, PlannedTurn, PlannedRole, RoleInRing;
    if roles == [] {
      assert (set r | r in roles) == {};
    } else {
      var n := |roles| - 1;
      assert roles[n] in roles && forall r :: r in roles[..n] ==> r in roles;
      assert (set r | r in roles) == (set r | r in roles[..n]) + {roles[n]};
      BeginSigningBegins(c, s, roles[..n]);
      var t := BeginSigning(c.env, c.plan.leader, s, c.tape(s.me).draw, roles[..n]);
      TurnIsPlanned(c, t, roles[n]);
      TurnBegins(c, s, t, (set r | r in roles[..n]), roles[n]);
    }
  }

  lemma NonceMayFollow(c: Conf, me: Pid, sent: Sent, role: TxRole)
    requires ValidConf(c) && me in c.env.ring && RoleInRing(c.env, role)
    requires sent.point && sent.commitment && sent.nonce && role !in sent.schnorr
    ensures MayFollow(c, me, sent, TheMessage(c, me, KSchnorr(role)))
    ensures Add(sent, KindOf(TheMessage(c, me, KSchnorr(role)))) == sent.(schnorr := sent.schnorr + {role})
  {
    hide IsRing;
  }

  lemma {:induction false} NoncesMayFollow(c: Conf, me: Pid, sent: Sent, roles: seq<TxRole>, out: seq<WireMessage>)
    requires ValidConf(c) && me in c.env.ring
    requires forall r :: r in roles ==> RoleInRing(c.env, r)
    requires forall i, j :: 0 <= i < j < |roles| ==> roles[i] != roles[j]
    requires |out| == |roles| && forall i :: 0 <= i < |out| ==> out[i] == TheMessage(c, me, KSchnorr(roles[i]))
    requires sent.point && sent.commitment && sent.nonce && sent.schnorr == {}
    ensures MayEmit(c, me, sent, out) && After(sent, out) == sent.(schnorr := set r | r in roles)
  {
    hide IsRing, MayFollow, TheMessage, Add, KindOf, RoleInRing;
    if roles == [] {
      assert (set r | r in roles) == {};
    } else {
      var n := |roles| - 1;
      assert roles[n] in roles && forall r :: r in roles[..n] ==> r in roles;
      NoncesMayFollow(c, me, sent, roles[..n], out[..n]);
      assert (set r | r in roles) == (set r | r in roles[..n]) + {roles[n]};
      assert roles[n] !in roles[..n];
      NonceMayFollow(c, me, After(sent, out[..n]), roles[n]);
    }
  }

  ghost function WithNonce(c: Conf, s: Session, from: Pid): Session {
    s.(leaderNonces := s.leaderNonces[from := c.tape(from).draw.leaderNonce])
  }

  /** The sender committed to this very nonce, and the own commitment is out. */
  lemma NonceWasCommitted(c: Conf, s: Session, sent: Sent, got: Handled, from: Pid)
    requires Delivers(c, s, sent, got, from, KNonce)
    ensures from in s.leaderCommitments && s.leaderCommitments[from] == c.env.sha256(c.tape(from).draw.leaderNonce)
    ensures sent.commitment && !Opened(c, s.me, got.nonces) && s.musig == map[] && sent.schnorr == {}
    ensures ElectionInv(c, s.me, s.leaderCommitments, WithNonce(c, s, from).leaderNonces, true, got.commitments,
          With(got, from, KNonce).nonces)
    ensures HasAll(c.env.ring, WithNonce(c, s, from).leaderNonces) <==> Opened(c, s.me, With(got, from, KNonce).nonces)
  {
    hide PointsInv, MusigInv, NoncesInv, PartialsInv, RefundsInv, SpendsInv, ClaimInv, LeaderInv, PhaseInv, Funded,
         IsRing;
    assert from in With(got, from, KNonce).nonces;
    assert from in got.commitments;
    ElectionComplete(c, s.me, s.leaderCommitments, WithNonce(c, s, from).leaderNonces, got.commitments, With(got, from, KNonce).nonces);
    assert s.musig.Keys == {} && forall role {:trigger role in sent.schnorr} :: role !in sent.schnorr;
  }

  lemma NonceOnly(c: Conf, s: Session, sent: Sent, got: Handled, from: Pid)
    requires Delivers(c, s, sent, got, from, KNonce) && !Opened(c, s.me, With(got, from, KNonce).nonces)
    ensures PartyInv(c, WithNonce(c, s, from), sent, With(got, from, KNonce))
  {
    NonceWasCommitted(c, s, sent, got, from);
    hide PointsInv, ElectionInv, RevealInv, OpeningInv, MusigInv, NoncesInv, PartialsInv, RefundsInv, SpendsInv,
         ClaimInv, LeaderInv, PhaseInv, Opened, Funded, Fifo, Stage, IsRing;
  }

  ghost predicate WholeRing(c: Conf, roles: set<TxRole>) {
    forall r {:trigger r in roles} :: r in roles <==> RoleInRing(c.env, r)
  }

  /** The session with the leader elected and the locks built, about to open the first rounds. */
  ghost function Elect(c: Conf, s: Session): Session {
    var s2 := s.(leader := Some(c.plan.leader)).TransitionTo(RefundAndSpendTxsSigning);
    s2.(lockTxs := s2.lockTxs + c.plan.locks)
  }

  lemma OpeningOpens(c: Conf, s: Session, schnorr: set<TxRole>, roles: set<TxRole>, t: Session)
    requires ValidConf(c) && WholeRing(c, roles) && RolesBegun(c, Elect(c, s), t, roles)
    requires OpeningInv(c, s.leader, s.lockTxs, s.musig.Keys, s.unsignedTxs, schnorr, false)
    ensures OpeningInv(c, t.leader, t.lockTxs, t.musig.Keys, t.unsignedTxs, roles, true)
    ensures schnorr == {}
  {
    hide IsRing, TheRuntime, RoleInRing;
    assert map[] + c.plan.locks == c.plan.locks;
  }

  lemma MusigOpens(c: Conf, s: Session, gotSchnorr: set<(Pid, TxRole)>, roles: set<TxRole>, t: Session)
    requires ValidConf(c) && RolesBegun(c, Elect(c, s), t, roles) && s.musig == map[]
    requires forall role {:trigger Signs(c, s.me, gotSchnorr, role)} :: !Signs(c, s.me, gotSchnorr, role)
    ensures MusigInv(c, s.me, t.musig, gotSchnorr)
  {
    hide IsRing, TheRuntime, RoleInRing, Signs;
  }

  lemma NoncesOpen(c: Conf, s: Session, gotSchnorr: set<(Pid, TxRole)>, roles: set<TxRole>, t: Session)
    requires ValidConf(c) && WholeRing(c, roles) && RolesBegun(c, Elect(c, s), t, roles) && s.me in c.env.ring
    requires NoncesInv(c, s.me, s.nonces, false, gotSchnorr)
    ensures NoncesInv(c, s.me, t.nonces, true, gotSchnorr)
  {
    hide IsRing, TheRuntime, RoleInRing;
  }

  lemma PhaseOpens(c: Conf, s: Session, sent: Sent, got: Handled, from: Pid)
    requires Delivers(c, s, sent, got, from, KNonce) && Opened(c, s.me, With(got, from, KNonce).nonces)
    ensures sent.point && sent.commitment && sent.nonce && !Funded(c, s.me, got.partials)
    ensures PhaseInv(RefundAndSpendTxsSigning, s.history + [RefundAndSpendTxsSigning], 5, false, sent.lock)
    ensures LeaderInv(c, s.me, s.history + [RefundAndSpendTxsSigning], got.secrets)
    ensures forall role {:trigger Signs(c, s.me, got.schnorr, role)} :: !Signs(c, s.me, got.schnorr, role)
  {
    hide PointsInv, ElectionInv, OpeningInv, MusigInv, NoncesInv, PartialsInv, RefundsInv, SpendsInv, ClaimInv,
         Funded, IsRing;
    NonceWasCommitted(c, s, sent, got, from);
    NotFundedBefore(c, s, sent, got, from, KNonce);
    NoCommitmentYet(c, s.me, sent, With(got, from, KNonce));
    NextState(s.history, 4);
    forall role {:trigger Signs(c, s.me, got.schnorr, role)}
      ensures !Signs(c, s.me, got.schnorr, role)
    {
      assert (from, role) !in got.schnorr;
    }
  }

  lemma RoundsOpen(c: Conf, s: Session, sent: Sent, got: Handled, from: Pid, roles: set<TxRole>, t: Session)
    requires Delivers(c, s, sent, got, from, KNonce) && Opened(c, s.me, With(got, from, KNonce).nonces)
    requires WholeRing(c, roles) && RolesBegun(c, Elect(c, WithNonce(c, s, from)), t, roles)
    ensures sent.point && sent.commitment && sent.nonce && sent.schnorr == {}
    ensures t.me == s.me && PartyInv(c, t, sent.(schnorr := roles), With(got, from, KNonce))
  {
    hide PointsInv, ElectionInv, RevealInv, OpeningInv, MusigInv, NoncesInv, PartialsInv, RefundsInv, SpendsInv,
         ClaimInv, LeaderInv, PhaseInv, Opened, Funded, Signs, Fifo, IsRing, WholeRing;
    NonceWasCommitted(c, s, sent, got, from);
    var s1 := WithNonce(c, s, from);
    OpeningOpens(c, s1, sent.schnorr, roles, t);
    PhaseOpens(c, s, sent, got, from);
    MusigOpens(c, s1, got.schnorr, roles, t);
    NoncesOpen(c, s1, got.schnorr, roles, t);
  }

  /** Beginning the session is opening the planned rounds, for the planned leader and with the planned locks. */
  lemma BeginIsPlanned(c: Conf, s: Session, draw: Draw)
    requires PlanFits(c) && s.leaderNonces == AllLeaderNonces(c)
    ensures BeginSession(c.env, s, draw) == Ok(BeginSigning(c.env, c.plan.leader, Elect(c, s), draw, AllRoles(c.env)),
                                               NonceMessages(c.env, c.plan.leader, s.me, draw, AllRoles(c.env)), [])
  {
    PlanLocks(c);
    hide IsRing, ElectedLeader, Locks, BeginSigning, NonceMessages, InputsFit, AllRoles, LocksPlanned, PlannedRole, AllLeaderNonces,
         LocksBuildable;
  }

  ghost function RolesOf(env: Env): set<TxRole> {
    set r | r in AllRoles(env)
  }

  lemma RolesAreWhole(c: Conf)
    ensures WholeRing(c, RolesOf(c.env))
  {
    hide AllRoles;
  }

  lemma NoncesArePlanned(c: Conf, s: Session, roles: seq<TxRole>)
    requires ValidConf(c) && PlanFits(c) && s.me in c.env.ring && forall r :: r in roles ==> RoleInRing(c.env, r)
    ensures var out := NonceMessages(c.env, c.plan.leader, s.me, c.tape(s.me).draw, roles);
            forall i :: 0 <= i < |out| ==> out[i] == TheMessage(c, s.me, KSchnorr(roles[i]))
  {
    assert LocksBuildable(c.env);
    hide IsRing, NonceMessages, PlanFits, NewNonce, RoleInRing, TheMessage, LocksBuildable;
    var out := NonceMessages(c.env, c.plan.leader, s.me, c.tape(s.me).draw, roles);
    forall i | 0 <= i < |out|
      ensures out[i] == TheMessage(c, s.me, KSchnorr(roles[i]))
    {
      NonceMessageAt(c.env, c.plan.leader, s.me, c.tape(s.me).draw, roles, i);
      TurnIsPlanned(c, s, roles[i]);
    }
  }

  /** What the planned opening comes to when the source computes it. */
  lemma SessionBegins(c: Conf, s: Session, sent: Sent, o: Outcome) returns (roles: set<TxRole>)
    requires ValidConf(c) && PlanFits(c) && s.me in c.env.ring && s.leaderNonces == AllLeaderNonces(c)
    requires o == BeginSession(c.env, s, c.tape(s.me).draw)
    requires sent.point && sent.commitment && sent.nonce && sent.schnorr == {}
    ensures WholeRing(c, roles) && o.Ok? && RolesBegun(c, Elect(c, s), o.session, roles)
    ensures MayEmit(c, s.me, sent, o.out) && After(sent, o.out) == sent.(schnorr := roles)
  {
    BeginIsPlanned(c, s, c.tape(s.me).draw);
    hide IsRing, BeginSession, BeginSigning, NonceMessages, RolesBegun, After, MayEmit, PlanFits, Elect, AllRoles, RoleInRing,
         TheMessage, LocksBuildable, AllLeaderNonces, ValidConf, WholeRing;
    var all := AllRoles(c.env);
    roles := RolesOf(c.env);
    RolesAreWhole(c);
    assert Elect(c, s).me == s.me by { ElectedMe(c, s); }
    BeginSigningBegins(c, Elect(c, s), all);
    NoncesArePlanned(c, s, all);
    NoncesMayFollow(c, s.me, sent, all, o.out);
  }

  lemma ElectedMe(c: Conf, s: Session)
    requires ValidConf(c)
    ensures Elect(c, s).me == s.me
  {
    hide IsRing;
  }

  lemma StepLeaderNonce(c: Conf, s: Session, sent: Sent, got: Handled, from: Pid)
    requires Delivers(c, s, sent, got, from, KNonce) && PlanFits(c)
    ensures GoodStep(c, s, sent, With(got, from, KNonce),
                     OnLeaderNonce(c.env, s, c.tape(from).draw.leaderNonce, from, c.tape(s.me).draw))
  {
    hide PointsInv, RevealInv, OpeningInv, MusigInv, NoncesInv, PartialsInv, RefundsInv, SpendsInv, ClaimInv,
         LeaderInv, PhaseInv, Opened, Funded, Fifo, IsRing, InputsFit, After, MayEmit, BeginSession, RolesBegun,
         WholeRing, PlanFits;
    NonceWasCommitted(c, s, sent, got, from);
    if Opened(c, s.me, With(got, from, KNonce).nonces) {
      var s1 := WithNonce(c, s, from);
      assert s1.leaderNonces == AllLeaderNonces(c);
      PhaseOpens(c, s, sent, got, from);
      var o := BeginSession(c.env, s1, c.tape(s.me).draw);
      var roles := SessionBegins(c, s1, sent, o);
      RoundsOpen(c, s, sent, got, from, roles, o.session);
    } else {
      NonceOnly(c, s, sent, got, from);
      assert MayEmit(c, s.me, sent, []) && After(sent, []) == sent by {
        NothingEmitted(c, s.me, sent);
      }
    }
  }

  lemma NothingEmitted(c: Conf, me: Pid, sent: Sent)
    requires ValidConf(c) && me in c.env.ring
    ensures MayEmit(c, me, sent, []) && After(sent, []) == sent
  {
  }

  // ---------- public nonces ----------

  ghost function WithSchnorr(c: Conf, s: Session, from: Pid, role: TxRole): Session {
    s.(nonces := s.nonces[(from, role) := PubNonce(c.plan.sec(from, role))])
  }

  /** A round is complete for the source exactly when all others have been handled. */
  lemma SchnorrArrives(c: Conf, s: Session, sent: Sent, got: Handled, from: Pid, role: TxRole)
    requires Delivers(c, s, sent, got, from, KSchnorr(role))
    ensures NoncesInv(c, s.me, WithSchnorr(c, s, from, role).nonces, Opened(c, s.me, got.nonces), With(got, from, KSchnorr(role)).schnorr)
    ensures !Signs(c, s.me, got.schnorr, role)
    ensures AllOthersHave(c.env.ring, s.me, WithSchnorr(c, s, from, role).nonces, role)
       <==> Signs(c, s.me, With(got, from, KSchnorr(role)).schnorr, role)
    ensures forall other {:trigger Signs(c, s.me, With(got, from, KSchnorr(role)).schnorr, other)} :: other != role ==>
              (Signs(c, s.me, With(got, from, KSchnorr(role)).schnorr, other) <==> Signs(c, s.me, got.schnorr, other))
  {
    hide PointsInv, ElectionInv, RevealInv, OpeningInv, MusigInv, PartialsInv, RefundsInv, SpendsInv, ClaimInv,
         LeaderInv, PhaseInv, Opened, Funded, Fifo, IsRing;
    assert (from, role) !in got.schnorr;
    var nonces', schnorr' := WithSchnorr(c, s, from, role).nonces, With(got, from, KSchnorr(role)).schnorr;
    assert forall q {:trigger (q, role) in schnorr'} :: q in c.env.ring && q != s.me ==> ((q, role) in schnorr' <==> (q, role) in nonces');
    forall other {:trigger Signs(c, s.me, schnorr', other)} | other != role
      ensures Signs(c, s.me, schnorr', other) <==> Signs(c, s.me, got.schnorr, other)
    {
      assert forall q {:trigger (q, other) in got.schnorr} :: (q, other) in schnorr' <==> (q, other) in got.schnorr;
    }
  }

  /** Whoever signs for a role has everybody's leader nonce and adaptor point. */
  lemma SigningIsOpened(c: Conf, me: Pid, got: Handled, role: TxRole)
    requires Fifo(c, me, got) && Signs(c, me, got.schnorr, role)
    ensures Opened(c, me, got.nonces) && AllOthers(c, me, got.points)
  {
    hide IsRing;
    forall q {:trigger q in got.points} {:trigger q in got.nonces} | q in c.env.ring && q != me
      ensures q in got.nonces && q in got.points
    {
      assert (q, role) in got.schnorr;
    }
  }

  lemma AllPointsAreIn(c: Conf, me: Pid, points: map<Pid, Point>, got: set<Pid>)
    requires ValidConf(c) && me in c.env.ring && PointsInv(c, me, points, got) && AllOthers(c, me, got)
    ensures points == AllPoints(c)
  {
    hide IsRing;
    assert forall q {:trigger q in points} :: q in points <==> q in c.env.ring;
  }

  lemma AllNoncesAreIn(c: Conf, me: Pid, nonces: map<(Pid, TxRole), PubNonce>, gotSchnorr: set<(Pid, TxRole)>, role: TxRole)
    requires ValidConf(c) && me in c.env.ring && RoleInRing(c.env, role)
    requires NoncesInv(c, me, nonces, true, gotSchnorr) && Signs(c, me, gotSchnorr, role)
    ensures ForRole(nonces, role) == AllNonces(c, role)
  {
    hide IsRing;
    assert forall q {:trigger (q, role) in nonces} :: (q, role) in nonces <==> q in c.env.ring;
  }

  /** The inputs gathered for a role by whoever has opened it are the planned ones. */
  lemma InputsArePlanned(c: Conf, s: Session, sent: Sent, got: Handled, role: TxRole)
    requires ValidConf(c) && InputsFit(c) && s.me in c.env.ring && RoleInRing(c.env, role)
    requires Fifo(c, s.me, got) && Signs(c, s.me, got.schnorr, role)
    requires role in s.musig && s.musig[role].msg == c.plan.msg(role) && s.musig[role].taprootTweak == c.plan.tweak(role)
    requires PointsInv(c, s.me, s.points, got.points) && NoncesInv(c, s.me, s.nonces, true, got.schnorr)
    ensures GatheredInputs(c.env, s, role) == c.plan.inputs(role)
  {
    hide PointsInv, NoncesInv, Signs, Fifo, IsRing;
    SigningIsOpened(c, s.me, got, role);
    AllPointsAreIn(c, s.me, s.points, got.points);
    AllNoncesAreIn(c, s.me, s.nonces, got.schnorr, role);
  }

  ghost function Signed(c: Conf, s: Session, role: TxRole): Session {
    s.(partials := s.partials[(s.me, role) := ThePartial(c, s.me, role)], musig := s.musig[role := TheRuntime(c, s.me, role, true)])
  }

  /** The second round of a role starts from the first, with the planned inputs. */
  lemma RoundTwoStarts(c: Conf, s: Session, sent: Sent, got: Handled, from: Pid, role: TxRole)
    requires Delivers(c, s, sent, got, from, KSchnorr(role))
    requires Signs(c, s.me, With(got, from, KSchnorr(role)).schnorr, role)
    ensures Opened(c, s.me, got.nonces) && (s.musig[role := TheRuntime(c, s.me, role, true)]).Keys == s.musig.Keys
    ensures
      var s1 := WithSchnorr(c, s, from, role);
      EnterRoundTwo(c.env, s1, role) == Ok(Signed(c, s1, role), [TheMessage(c, s.me, KPartial(role))], [])
  {
    hide ElectionInv, RevealInv, PartialsInv, RefundsInv, SpendsInv, ClaimInv, LeaderInv, PhaseInv, Opened, Funded,
         Fifo, Signs, NoncesInv, PointsInv, InputsFit, GatheredInputs, IsRing;
    var got' := With(got, from, KSchnorr(role));
    SchnorrArrives(c, s, sent, got, from, role);
    SigningIsOpened(c, s.me, got', role);
    assert role in s.musig && s.musig[role] == TheRuntime(c, s.me, role, false);
    InputsArePlanned(c, WithSchnorr(c, s, from, role), sent, got', role);
  }

  /** What the second round of a role adds, once all nonces of the role are in. */
  lemma PartialsSigned(c: Conf, s: Session, sent: Sent, got: Handled, from: Pid, role: TxRole)
    requires Delivers(c, s, sent, got, from, KSchnorr(role))
    requires Signs(c, s.me, With(got, from, KSchnorr(role)).schnorr, role)
    ensures
      var gotSchnorr := With(got, from, KSchnorr(role)).schnorr;
      && PartialsInv(c, s.me, s.partials[(s.me, role) := ThePartial(c, s.me, role)], sent.partials + {role}, gotSchnorr, got.partials)
      && MusigInv(c, s.me, s.musig[role := TheRuntime(c, s.me, role, true)], gotSchnorr)
      && role !in sent.partials
  {
    hide PointsInv, ElectionInv, RevealInv, OpeningInv, RefundsInv, SpendsInv, ClaimInv, LeaderInv, PhaseInv, Opened,
         Funded, Fifo, Signs, NoncesInv, InputsFit, IsRing, TheRuntime, ThePartial;
    SchnorrArrives(c, s, sent, got, from, role);
  }

  lemma PartialsUnsigned(c: Conf, s: Session, sent: Sent, got: Handled, from: Pid, role: TxRole)
    requires Delivers(c, s, sent, got, from, KSchnorr(role))
    requires !Signs(c, s.me, With(got, from, KSchnorr(role)).schnorr, role)
    ensures
      var gotSchnorr := With(got, from, KSchnorr(role)).schnorr;
      && PartialsInv(c, s.me, s.partials, sent.partials, gotSchnorr, got.partials)
      && MusigInv(c, s.me, s.musig, gotSchnorr)
  {
    hide PointsInv, ElectionInv, RevealInv, OpeningInv, RefundsInv, SpendsInv, ClaimInv, LeaderInv, PhaseInv, Opened,
         Funded, Fifo, Signs, NoncesInv, InputsFit, IsRing, TheRuntime, ThePartial;
    SchnorrArrives(c, s, sent, got, from, role);
  }

  /** What the handler does comes down to whether all others' nonces of the role are there now. */
  lemma SchnorrOutcome(c: Conf, s: Session, sent: Sent, got: Handled, from: Pid, role: TxRole)
    requires Delivers(c, s, sent, got, from, KSchnorr(role))
    ensures OnSchnorrNonce(c.env, s, role, PubNonce(c.plan.sec(from, role)), from)
         == if Signs(c, s.me, With(got, from, KSchnorr(role)).schnorr, role)
            then Ok(Signed(c, WithSchnorr(c, s, from, role), role), [TheMessage(c, s.me, KPartial(role))], [])
            else Ok(WithSchnorr(c, s, from, role), [], [])
  {
    hide PartyInv, Signs, Fifo, IsRing, InputsFit, AllOthersHave, EnterRoundTwo, Signed;
    SchnorrArrives(c, s, sent, got, from, role);
    if Signs(c, s.me, With(got, from, KSchnorr(role)).schnorr, role) {
      RoundTwoStarts(c, s, sent, got, from, role);
    } else {
    }
  }

  lemma SchnorrSigns(c: Conf, s: Session, sent: Sent, got: Handled, from: Pid, role: TxRole)
    requires Delivers(c, s, sent, got, from, KSchnorr(role))
    requires Signs(c, s.me, With(got, from, KSchnorr(role)).schnorr, role)
    ensures PartyInv(c, Signed(c, WithSchnorr(c, s, from, role), role), Add(sent, KPartial(role)), With(got, from, KSchnorr(role)))
    ensures Signed(c, WithSchnorr(c, s, from, role), role).me == s.me
    ensures MayFollow(c, s.me, sent, TheMessage(c, s.me, KPartial(role)))
  {
    hide PointsInv, ElectionInv, RevealInv, OpeningInv, MusigInv, NoncesInv, PartialsInv, RefundsInv, SpendsInv,
         ClaimInv, LeaderInv, PhaseInv, Opened, Funded, Signs, Fifo, IsRing, InputsFit, AllOthersHave, EnterRoundTwo,
         MayFollow;
    SchnorrArrives(c, s, sent, got, from, role);
    PartialsSigned(c, s, sent, got, from, role);
    RoundTwoStarts(c, s, sent, got, from, role);
    PartialMayFollow(c, s, sent, got, role);
  }

  lemma SchnorrWaits(c: Conf, s: Session, sent: Sent, got: Handled, from: Pid, role: TxRole)
    requires Delivers(c, s, sent, got, from, KSchnorr(role))
    requires !Signs(c, s.me, With(got, from, KSchnorr(role)).schnorr, role)
    ensures PartyInv(c, WithSchnorr(c, s, from, role), sent, With(got, from, KSchnorr(role)))
    ensures WithSchnorr(c, s, from, role).me == s.me
  {
    hide PointsInv, ElectionInv, RevealInv, OpeningInv, MusigInv, NoncesInv, PartialsInv, RefundsInv, SpendsInv,
         ClaimInv, LeaderInv, PhaseInv, Opened, Funded, Signs, Fifo, IsRing, InputsFit, AllOthersHave;
    SchnorrArrives(c, s, sent, got, from, role);
    PartialsUnsigned(c, s, sent, got, from, role);
  }

  lemma StepSchnorr(c: Conf, s: Session, sent: Sent, got: Handled, from: Pid, role: TxRole)
    requires Delivers(c, s, sent, got, from, KSchnorr(role))
    ensures GoodStep(c, s, sent, With(got, from, KSchnorr(role)),
                     OnSchnorrNonce(c.env, s, role, PubNonce(c.plan.sec(from, role)), from))
  {
    hide PartyInv, Signs, Fifo, IsRing, InputsFit, OnSchnorrNonce, MayFollow, MayEmit, After, Signed, WithSchnorr, With;
    MeInRing(c, s, sent, got);
    SchnorrOutcome(c, s, sent, got, from, role);
    if Signs(c, s.me, With(got, from, KSchnorr(role)).schnorr, role) {
      SchnorrSigns(c, s, sent, got, from, role);
      EmitOne(c, s.me, sent, TheMessage(c, s.me, KPartial(role)));
    } else {
      SchnorrWaits(c, s, sent, got, from, role);
      NothingEmitted(c, s.me, sent);
    }
  }

  lemma PartialMayFollow(c: Conf, s: Session, sent: Sent, got: Handled, role: TxRole)
    requires ValidConf(c) && PartyInv(c, s, sent, got) && Opened(c, s.me, got.nonces)
    requires RoleInRing(c.env, role) && role !in sent.partials
    ensures MayFollow(c, s.me, sent, TheMessage(c, s.me, KPartial(role)))
  {
    hide PointsInv, ElectionInv, MusigInv, NoncesInv, PartialsInv, RefundsInv, SpendsInv, ClaimInv, LeaderInv,
         PhaseInv, Opened, Funded, Signs, Fifo, IsRing, InputsFit;
    NoCommitmentYet(c, s.me, sent, got);
  }
}
