/** Every handler keeps the party invariant, never panics on what honest peers send in order, and
    broadcasts only what may follow. One lemma per kind of message and poll. */
module PartySteps {
  import opened Ring
  import opened Protocol
  import opened PartyInvariant

  /** The situation in which a party handles the planned message of kind `k` from a peer. */
  ghost predicate Delivers(c: Conf, s: Session, sent: Sent, got: Handled, from: Pid, k: Kind) {
    && ValidConf(c) && InputsFit(c)
    && PartyInv(c, s, sent, got)
    && from in c.env.ring && from != s.me && ValidKind(c, k)
    && !Has(got, from, k) && Fifo(c, s.me, With(got, from, k))
  }

  lemma MeInRing(c: Conf, s: Session, sent: Sent, got: Handled)
    requires ValidConf(c) && PartyInv(c, s, sent, got)
    ensures s.me in c.env.ring
  {
  }

  // ---------- what the stages say ----------

  /** Without the own commitment no commitment has been handled, let alone a nonce. */
  lemma NoCommitmentYet(c: Conf, me: Pid, sent: Sent, got: Handled)
    requires ValidConf(c) && me in c.env.ring && Fifo(c, me, got)
    requires RevealInv(c, me, sent.point, sent.commitment, sent.nonce, got.commitments)
    ensures !sent.commitment ==> !sent.nonce && !Opened(c, me, got.nonces) && !AllOthers(c, me, got.commitments)
    ensures Opened(c, me, got.nonces) ==> sent.nonce
  {
    var q := OtherParticipant(c, me);
    assert AllOthers(c, me, got.commitments) ==> q in got.commitments;
    if Opened(c, me, got.nonces) {
      forall p {:trigger p in got.commitments} | p in c.env.ring && p != me
        ensures p in got.commitments
      {
        assert p in got.nonces;
      }
    }
  }

  /** Setup messages come from everyone before a session can fund. */
  lemma FundedHasSetup(c: Conf, me: Pid, got: Handled, q: Pid, k: Kind)
    requires Fifo(c, me, got) && Funded(c, me, got.partials) && me in c.env.ring
    requires q in c.env.ring && q != me && ValidKind(c, k) && Rank(k) <= 4
    ensures Has(got, q, k)
  {
    var role := if k.KPartial? || k.KSchnorr? then k.role else Refund(me);
    assert Finalized(c, me, got.partials, role);
    assert (q, role) in got.partials;
  }

  lemma FundedIsOpened(c: Conf, me: Pid, got: Handled)
    requires Fifo(c, me, got) && Funded(c, me, got.partials) && me in c.env.ring
    ensures Opened(c, me, got.nonces)
    ensures forall role {:trigger Signs(c, me, got.schnorr, role)} :: RoleInRing(c.env, role) ==> Signs(c, me, got.schnorr, role)
  {
    forall q {:trigger q in got.nonces} | q in c.env.ring && q != me
      ensures q in got.nonces
    {
      FundedHasSetup(c, me, got, q, KNonce);
    }
    forall role {:trigger Signs(c, me, got.schnorr, role)} | RoleInRing(c.env, role)
      ensures Signs(c, me, got.schnorr, role)
    {
      forall q {:trigger (q, role) in got.schnorr} | q in c.env.ring && q != me
        ensures (q, role) in got.schnorr
      {
        FundedHasSetup(c, me, got, q, KSchnorr(role));
      }
    }
  }

  lemma TerminalIsFunded(state: SwapState, history: seq<SwapState>, stage: nat, funded: bool, lock: bool)
    requires 1 <= stage <= 5 && PhaseInv(state, history, stage, funded, lock)
    ensures !funded ==> state == SETUP_PATH[stage - 1] && !state.Terminal()
  {
  }

  /** Until a setup message of a peer has been handled, the party has not funded. */
  lemma NotFundedBefore(c: Conf, s: Session, sent: Sent, got: Handled, from: Pid, k: Kind)
    requires Delivers(c, s, sent, got, from, k) && Rank(k) <= 4
    ensures !Funded(c, s.me, got.partials) && !s.state.Terminal()
    ensures s.state == SETUP_PATH[Stage(sent.point, sent.commitment, sent.nonce, Opened(c, s.me, got.nonces)) - 1]
  {
    hide PointsInv, ElectionInv, RevealInv, OpeningInv, MusigInv, NoncesInv, PartialsInv, RefundsInv, SpendsInv,
         ClaimInv, LeaderInv, Opened, Funded, IsRing, Fifo;
    if Funded(c, s.me, got.partials) {
      FundedHasSetup(c, s.me, got, from, k);
    }
    TerminalIsFunded(s.state, s.history, Stage(sent.point, sent.commitment, sent.nonce, Opened(c, s.me, got.nonces)),
                     Funded(c, s.me, got.partials), sent.lock);
  }

  // ---------- starting the election ----------

  /** With the own contribution in, a map is complete when all others have contributed. */
  lemma ElectionComplete(c: Conf, me: Pid, commitments: map<Pid, Bytes32>, nonces: map<Pid, Bytes32>,
                         gotCommitments: set<Pid>, gotNonces: set<Pid>)
    requires ValidConf(c) && me in c.env.ring
    requires ElectionInv(c, me, commitments, nonces, true, gotCommitments, gotNonces)
    ensures HasAll(c.env.ring, commitments) <==> AllOthers(c, me, gotCommitments)
    ensures HasAll(c.env.ring, nonces) <==> AllOthers(c, me, gotNonces)
  {
    hide IsRing;
    assert forall q {:trigger q in gotCommitments} :: q in c.env.ring && q != me ==> (q in gotCommitments <==> q in commitments);
    assert forall q {:trigger q in gotNonces} :: q in c.env.ring && q != me ==> (q in gotNonces <==> q in nonces);
  }

  ghost function Elected(c: Conf, s: Session): Session {
    StartElection(c.env, s, c.tape(s.me).draw).TransitionTo(AwaitingLeaderElectionCommitments)
  }

  lemma NextState(history: seq<SwapState>, stage: nat)
    requires 1 <= stage <= 4 && history != [] && PhaseInv(history[|history| - 1], history, stage, false, false)
    ensures PhaseInv(SETUP_PATH[stage], history + [SETUP_PATH[stage]], stage + 1, false, false)
  {
    assert SETUP_PATH[..stage + 1] == SETUP_PATH[..stage] + [SETUP_PATH[stage]];
  }

  lemma ElectionStarts(c: Conf, s: Session, sent: Sent, got: Handled)
    requires ValidConf(c) && PartyInv(c, s, sent, got) && !Funded(c, s.me, got.partials)
    requires sent.point && !sent.commitment
    ensures PartyInv(c, Elected(c, s), Add(sent, KCommitment), got)
    ensures MayFollow(c, s.me, sent, LeaderElectionCommitment(c.env.sha256(c.tape(s.me).draw.leaderNonce)))
  {
    hide PointsInv, MusigInv, NoncesInv, PartialsInv, RefundsInv, SpendsInv, ClaimInv, Opened, Funded, Fifo, IsRing;
    NoCommitmentYet(c, s.me, sent, got);
    NextState(s.history, 2);
  }

  // ---------- adaptor points ----------

  /** Handling a point without further effect. */
  lemma PointOnly(c: Conf, s: Session, sent: Sent, got: Handled, from: Pid)
    requires Delivers(c, s, sent, got, from, KPoint)
    ensures PartyInv(c, s.(points := s.points[from := c.tape(from).point]), sent, With(got, from, KPoint))
  {
    hide ElectionInv, RevealInv, OpeningInv, MusigInv, NoncesInv, PartialsInv, RefundsInv, SpendsInv, PhaseInv,
         ClaimInv, LeaderInv, Opened, Funded, Fifo, Stage, IsRing;
  }

  lemma StepPoint(c: Conf, s: Session, sent: Sent, got: Handled, from: Pid)
    requires Delivers(c, s, sent, got, from, KPoint)
    ensures GoodStep(c, s, sent, With(got, from, KPoint),
                     OnAdaptorPoint(c.env, s, c.tape(from).point, from, c.tape(s.me).draw))
  {
    hide OpeningInv, MusigInv, NoncesInv, PartialsInv, RefundsInv, SpendsInv, PhaseInv, ClaimInv, LeaderInv, Opened,
         Funded, Fifo, IsRing;
    var point := c.tape(from).point;
    NotFundedBefore(c, s, sent, got, from, KPoint);
    if HasAll(c.env.ring, s.points[from := point]) && s.state == AwaitingAdaptorPoints {
      var m := LeaderElectionCommitment(c.env.sha256(c.tape(s.me).draw.leaderNonce));
      assert !sent.commitment && sent.point;
      ElectionStarts(c, s, sent, got);
      assert s.me !in s.leaderCommitments;
      PointOnly(c, Elected(c, s), Add(sent, KCommitment), got, from);
      EmitOne(c, s.me, sent, m);
    } else {
      PointOnly(c, s, sent, got, from);
    }
  }

  // ---------- commitments ----------

  /** The last commitment makes the party reveal its nonce, and nothing earlier does. */
  lemma CommitmentFrom(c: Conf, s: Session, sent: Sent, got: Handled, from: Pid)
    requires Delivers(c, s, sent, got, from, KCommitment) && sent.commitment
    ensures s.state != AwaitingLeaderElectionNonces
    ensures s.me in s.leaderNonces && LeaderElectionNonce(s.leaderNonces[s.me]) == TheMessage(c, s.me, KNonce)
    ensures
      var s2 := s.(leaderCommitments := s.leaderCommitments[from := c.env.sha256(c.tape(from).draw.leaderNonce)]);
      if HasAll(c.env.ring, s2.leaderCommitments) then
        && MayFollow(c, s.me, sent, TheMessage(c, s.me, KNonce))
        && PartyInv(c, s2.TransitionTo(AwaitingLeaderElectionNonces), Add(sent, KNonce), With(got, from, KCommitment))
      else PartyInv(c, s2, sent, With(got, from, KCommitment))
  {
    hide PointsInv, OpeningInv, MusigInv, NoncesInv, PartialsInv, RefundsInv, SpendsInv, ClaimInv, Opened, Funded,
         Fifo, IsRing;
    NotFundedBefore(c, s, sent, got, from, KCommitment);
    NoCommitmentYet(c, s.me, sent, got);
    assert !AllOthers(c, s.me, got.commitments);
    NextState(s.history, 3);
    var s2 := s.(leaderCommitments := s.leaderCommitments[from := c.env.sha256(c.tape(from).draw.leaderNonce)]);
    ElectionComplete(c, s.me, s2.leaderCommitments, s2.leaderNonces, With(got, from, KCommitment).commitments, got.nonces);
  }

  lemma StepCommitment(c: Conf, s: Session, sent: Sent, got: Handled, from: Pid)
    requires Delivers(c, s, sent, got, from, KCommitment) && sent.point
    ensures GoodStep(c, s, sent, With(got, from, KCommitment),
                     OnCommitment(c.env, s, c.env.sha256(c.tape(from).draw.leaderNonce), from, c.tape(s.me).draw))
  {
    hide PointsInv, RevealInv, OpeningInv, MusigInv, NoncesInv, PartialsInv, RefundsInv, SpendsInv, ClaimInv,
         LeaderInv, PhaseInv, Opened, Funded, Fifo, IsRing, MayFollow;
    NotFundedBefore(c, s, sent, got, from, KCommitment);
    var m1, m2 := TheMessage(c, s.me, KCommitment), TheMessage(c, s.me, KNonce);
    if s.me !in s.leaderCommitments {
      ElectionStarts(c, s, sent, got);
      var s1, sent1 := Elected(c, s), Add(sent, KCommitment);
      CommitmentFrom(c, s1, sent1, got, from);
      if HasAll(c.env.ring, s1.leaderCommitments[from := c.env.sha256(c.tape(from).draw.leaderNonce)]) {
        EmitTwo(c, s.me, sent, m1, m2);
      } else {
        EmitOne(c, s.me, sent, m1);
      }
    } else {
      CommitmentFrom(c, s, sent, got, from);
      if HasAll(c.env.ring, s.leaderCommitments[from := c.env.sha256(c.tape(from).draw.leaderNonce)]) {
        EmitOne(c, s.me, sent, m2);
      }
    }
  }
}
