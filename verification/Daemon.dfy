/** The daemon (swap-daemon/src/daemon.rs): the table of its sessions, the table of their chain pollers,
    and the event handler that keeps the second in step with the first. */
module DaemonObject {
  import opened Ring
  import opened Protocol
  import opened SessionObject
  import opened Effects

  datatype PollTarget = LockTarget(owner: Pid) | LeaderSpendTarget(leaderId: Pid) | RefundTarget(owner: Pid)

  type SessionId = nat
  type PollerKey = (SessionId, PollTarget)

  // ---------- which pollers a session needs ----------

  /** What `maybe_spawn_pollers` asks for: one poller per announced but unconfirmed lock, one for the
      leader's spend while it is awaited, one for the own refund once the own lock is confirmed. */
  function Wanted(ring: Participants, s: Session): set<PollTarget> {
    (set p | p in ring && p in s.locksBroadcast && p !in s.locksConfirmed :: LockTarget(p))
    + (if s.state == AwaitingLeaderSpend && s.leader.Some? then {LeaderSpendTarget(s.leader.value)} else {})
    + (if s.me in s.locksConfirmed && !s.state.Terminal() then {RefundTarget(s.me)} else {})
  }

  /** What a session needs: to hear of every announced lock it has not seen confirmed, of the spend of the leader it
      waits for, and, with the own lock confirmed and not at an end, of its own refund window. */
  predicate Needs(ring: Participants, s: Session, t: PollTarget) {
    match t
    case LockTarget(q) => q in ring && q in s.locksBroadcast && q !in s.locksConfirmed
    case LeaderSpendTarget(l) => s.state == AwaitingLeaderSpend && s.leader == Some(l)
    case RefundTarget(owner) => owner == s.me && s.me in s.locksConfirmed && !s.state.Terminal()
  }

  ghost predicate NeedsNothing(ring: Participants, s: Session) {
    forall t {:trigger Needs(ring, s, t)} :: !Needs(ring, s, t)
  }

  /** What is asked for is exactly what is needed. */
  lemma WantedIsNeeded(ring: Participants, s: Session)
    ensures forall t {:trigger t in Wanted(ring, s)} {:trigger Needs(ring, s, t)} :: t in Wanted(ring, s) <==> Needs(ring, s, t)
  {
  }

  function KeysOf(id: SessionId, targets: set<PollTarget>): set<PollerKey> {
    set t | t in targets :: (id, t)
  }

  function OthersOf(pollers: set<PollerKey>, id: SessionId): set<PollerKey> {
    set k | k in pollers && k.0 != id
  }

  /** The table of pollers after a peer message. */
  function AfterMessage(pollers: set<PollerKey>, id: SessionId, ring: Participants, after: Session): set<PollerKey> {
    if after.state.Terminal() then OthersOf(pollers, id)
    else pollers + KeysOf(id, Wanted(ring, after))
  }

  /** What a chain poll leaves in the table: a confirmed lock drops its poller, a claim or a refund
      cancels all of the session's. */
  function Kept(pollers: set<PollerKey>, id: SessionId, target: PollTarget, before: Session, after: Session): set<PollerKey> {
    match target
    case LockTarget(p) => if p !in before.locksConfirmed && p in after.locksConfirmed then pollers - {(id, target)} else pollers
    case LeaderSpendTarget(_) => if before.state == AwaitingLeaderSpend && after.state == Completed then OthersOf(pollers, id) else pollers
    case RefundTarget(_) => if !before.state.Terminal() && after.state.Terminal() then OthersOf(pollers, id) else pollers
  }

  /** The table of pollers after a chain poll: whatever the session still wants is spawned in the end. */
  function AfterPoll(pollers: set<PollerKey>, id: SessionId, ring: Participants, target: PollTarget, before: Session,
        after: Session): set<PollerKey> {
    Kept(pollers, id, target, before, after) + KeysOf(id, Wanted(ring, after))
  }

  /** Every poller a session needs is in the table. */
  ghost predicate Covered(pollers: set<PollerKey>, id: SessionId, ring: Participants, s: Session) {
    forall t {:trigger Needs(ring, s, t)} :: Needs(ring, s, t) ==> (id, t) in pollers
  }

  lemma WantedCovers(pollers: set<PollerKey>, id: SessionId, ring: Participants, s: Session)
    requires KeysOf(id, Wanted(ring, s)) <= pollers
    ensures Covered(pollers, id, ring, s)
  {
    hide Wanted, Needs;
    WantedIsNeeded(ring, s);
    forall t {:trigger Needs(ring, s, t)} | Needs(ring, s, t)
      ensures (id, t) in pollers
    {
      assert (id, t) in KeysOf(id, Wanted(ring, s));
    }
  }

  ghost predicate SameForOthers(before: set<PollerKey>, after: set<PollerKey>, id: SessionId) {
    OthersOf(after, id) == OthersOf(before, id)
  }

  /** Every session that has not ended has all its pollers, and no poller is for a session that is not there. */
  ghost predicate AllCovered(views: map<SessionId, Session>, rings: map<SessionId, Participants>, pollers: set<PollerKey>) {
    && (forall i {:trigger views[i]} :: i in views && i in rings && !views[i].state.Terminal() ==> Covered(pollers, i, rings[i], views[i]))
    && (forall k {:trigger k in pollers} :: k in pollers ==> k.0 in views)
  }

  /** At most one session has changed. */
  ghost predicate OnlyMoved(views: map<SessionId, Session>, views': map<SessionId, Session>, id: SessionId) {
    id in views && views'.Keys == views.Keys && forall j {:trigger views'[j]} :: j in views && j != id ==> views'[j] == views[j]
  }

  lemma MovedCovers(views: map<SessionId, Session>, views': map<SessionId, Session>, rings: map<SessionId, Participants>,
                    pollers: set<PollerKey>, pollers': set<PollerKey>, id: SessionId)
    requires AllCovered(views, rings, pollers) && OnlyMoved(views, views', id) && SameForOthers(pollers, pollers', id) && id in rings
    requires !views'[id].state.Terminal() ==> Covered(pollers', id, rings[id], views'[id])
    ensures AllCovered(views', rings, pollers')
  {
    hide Needs;
    forall i | i in views' && i in rings && !views'[i].state.Terminal()
      ensures Covered(pollers', i, rings[i], views'[i])
    {
      if i != id {
        assert views'[i] == views[i];
        forall t {:trigger Needs(rings[i], views[i], t)} | Needs(rings[i], views[i], t)
          ensures (i, t) in pollers'
        {
          assert (i, t) in OthersOf(pollers, id);
        }
      }
    }
    forall k | k in pollers'
      ensures k.0 in views'
    {
      assert k.0 == id || k in OthersOf(pollers', id);
    }
  }

  /** After a peer message every session that has not ended has all its pollers again. */
  lemma MessageCovers(views: map<SessionId, Session>, views': map<SessionId, Session>, rings: map<SessionId, Participants>,
                      pollers: set<PollerKey>, pollers': set<PollerKey>, id: SessionId)
    requires AllCovered(views, rings, pollers) && id in rings && OnlyMoved(views, views', id)
    requires pollers' == AfterMessage(pollers, id, rings[id], views'[id])
    ensures AllCovered(views', rings, pollers')
    ensures views'[id].state.Terminal() ==> forall k {:trigger k in pollers'} :: k in pollers' ==> k.0 != id
  {
    hide Wanted, AllCovered, Covered;
    assert SameForOthers(pollers, pollers', id);
    if !views'[id].state.Terminal() {
      WantedCovers(pollers', id, rings[id], views'[id]);
    }
    MovedCovers(views, views', rings, pollers, pollers', id);
  }

  /** And so it has after a chain poll, even where the poll cancelled the pollers of the session first. */
  lemma PollCovers(views: map<SessionId, Session>, views': map<SessionId, Session>, rings: map<SessionId, Participants>,
                   pollers: set<PollerKey>, pollers': set<PollerKey>, id: SessionId, target: PollTarget)
    requires AllCovered(views, rings, pollers) && id in rings && OnlyMoved(views, views', id)
    requires pollers' == AfterPoll(pollers, id, rings[id], target, views[id], views'[id])
    ensures AllCovered(views', rings, pollers')
    ensures Covered(pollers', id, rings[id], views'[id])
  {
    hide Wanted, AllCovered, Covered;
    assert SameForOthers(pollers, pollers', id);
    WantedCovers(pollers', id, rings[id], views'[id]);
    MovedCovers(views, views', rings, pollers, pollers', id);
  }

  /** Starting a session leaves what it needs as it is, or ends it. */
  lemma StartWants(ring: Participants, s: Session, s': Session)
    requires s' == s || s' == s.TransitionTo(Failed) || (s.state.Initialized? && s' == s.TransitionTo(AwaitingAdaptorPoints))
    ensures s'.state.Terminal() || forall t {:trigger Needs(ring, s', t)} :: Needs(ring, s', t) <==> Needs(ring, s, t)
  {
  }

  /** A session that a poll completes or refunds keeps exactly the pollers of the locks that are announced
      but not confirmed: the cancellation is undone for those. */
  lemma EndedKeepsLockPollers(pollers: set<PollerKey>, id: SessionId, ring: Participants, target: PollTarget,
        before: Session, after: Session)
    requires !target.LockTarget? && !before.state.Terminal() && after.state.Terminal()
    requires target.LeaderSpendTarget? ==> before.state == AwaitingLeaderSpend && after.state == Completed
    ensures forall t: PollTarget {:trigger (id, t)} ::
              (id, t) in AfterPoll(pollers, id, ring, target, before, after)
              <==> t.LockTarget? && t.owner in ring && t.owner in after.locksBroadcast && t.owner !in after.locksConfirmed
  {
  }

  // ---------- the tasks behind the table ----------

  /** A spawned task runs until it is aborted. Dropping the poller of a confirmed lock forgets its task
      without aborting it, so that one runs on; no other task does, and no target ever has two. */
  ghost predicate TasksOk(sessions: map<SessionId, Session>, pollers: set<PollerKey>, running: multiset<PollerKey>) {
    forall k: PollerKey {:trigger running[k]} ::
      if k in pollers then running[k] == 1
      else running[k] == 0 || (running[k] == 1 && Forgotten(sessions, k))
  }

  ghost predicate Forgotten(sessions: map<SessionId, Session>, k: PollerKey) {
    k.1.LockTarget? && k.0 in sessions && k.1.owner in sessions[k.0].locksConfirmed
  }

  /** A session may be put under an id if the table has what it needs and no task of the id is forgotten that
      polls for a lock it has not confirmed. */
  ghost predicate MayStandIn(pollers: set<PollerKey>, running: multiset<PollerKey>, id: SessionId, ring: Participants, s: Session) {
    && (s.state.Terminal() || Covered(pollers, id, ring, s))
    && forall k: PollerKey {:trigger running[k]} ::
         k !in pollers && k.0 == id && running[k] > 0 ==> k.1.LockTarget? && k.1.owner in s.locksConfirmed
  }

  /** A handled peer message, with outcome `o` for the session: nothing of an ended session is polled any
      more, and of any other all it needs. */
  ghost predicate MessageDone(o: Outcome, id: SessionId, ring: Participants, after: Session, pollers: set<PollerKey>,
                              pollers': set<PollerKey>, r: Reply, ok: bool) {
    && Matches(after, r, o)
    && (ok <==> r.Done? && (after.state.Terminal() || !WaitsForNobody(after)))
    && (ok ==> pollers' == AfterMessage(pollers, id, ring, after))
  }

  /** A handled chain poll. */
  ghost predicate PollDone(env: Env, id: SessionId, target: PollTarget, answer: Answer, before: Session, after: Session,
                           pollers: set<PollerKey>, pollers': set<PollerKey>, r: Reply, ok: bool) {
    && Matches(after, r, OnPoll(env, before, target, answer))
    && (ok <==> r.Done? && !WaitsForNobody(after))
    && (ok ==> pollers' == AfterPoll(pollers, id, env.ring, target, before, after))
  }

  /** Tasks after spawning: one more for every key that was not in the table. */
  ghost predicate Spawned(was: multiset<PollerKey>, now: multiset<PollerKey>, pollers: set<PollerKey>, keys: set<PollerKey>) {
    forall k: PollerKey {:trigger now[k]} :: now[k] == was[k] + if k in keys && k !in pollers then 1 else 0
  }

  /** For a session, exactly these targets are added: announced and unconfirmed locks, the awaited spend of the
      leader, and the own refund window with the own lock confirmed and no end reached. */
  ghost predicate AddsNeeded(id: SessionId, ring: Participants, s: Session, was: set<PollerKey>, now: set<PollerKey>) {
    forall k: PollerKey {:trigger k in now} :: k in now <==>
      || k in was
      || (k.0 == id &&
            match k.1
            case LockTarget(q) => q in ring && q in s.locksBroadcast && q !in s.locksConfirmed
            case LeaderSpendTarget(l) => s.state.AwaitingLeaderSpend? && s.leader == Some(l)
            case RefundTarget(owner) => owner == s.me && owner in s.locksConfirmed && !s.state.Terminal())
  }

  lemma WantedIsAdded(id: SessionId, ring: Participants, s: Session, pollers: set<PollerKey>)
    ensures AddsNeeded(id, ring, s, pollers, pollers + KeysOf(id, Wanted(ring, s)))
  {
    hide Wanted;
    WantedIsNeeded(ring, s);
    forall k: PollerKey
      ensures k in KeysOf(id, Wanted(ring, s)) <==> k.0 == id && Needs(ring, s, k.1)
    {
      assert k.0 == id ==> k == (id, k.1);
    }
  }

  class Daemon {
    var sessions: map<SessionId, SwapSession>
    var pollers: set<PollerKey>
    var running: multiset<PollerKey>

    constructor ()
      ensures Valid() && sessions == map[] && pollers == {} && running == multiset{}
    {
      sessions := map[];
      pollers := {};
      running := multiset{};
    }

    /** `spawn_poller`. */
    method SpawnPoller(k: PollerKey)
      modifies this`pollers, this`running
      ensures pollers == old(pollers) + {k}
      ensures Spawned(old(running), running, old(pollers), {k})
    {
      if k in pollers {
        return;
      }
      running := running + multiset{k};
      pollers := pollers + {k};
    }

    /** `cancel_session_pollers`: collects the keys of the session, then removes and aborts each. */
    method CancelSessionPollers(id: SessionId)
      modifies this`pollers, this`running
      ensures pollers == OthersOf(old(pollers), id)
      ensures forall k {:trigger running[k]} :: running[k] ==
                if k in old(pollers) && k.0 == id && old(running)[k] > 0 then old(running)[k] - 1 else old(running)[k]
    {
      var keys := set k | k in pollers && k.0 == id;
      ghost var all := keys;
      while keys != {}
        invariant keys <= all <= old(pollers)
        invariant pollers == old(pollers) - (all - keys)
        invariant forall k {:trigger running[k]} :: running[k] ==
                    if k in all - keys && old(running)[k] > 0 then old(running)[k] - 1 else old(running)[k]
        decreases |keys|
      {
        var k :| k in keys;
        keys := keys - {k};
        pollers := pollers - {k};
        running := running - multiset{k};
      }
      assert all - keys == all && old(pollers) - all == OthersOf(old(pollers), id);
    }

    /** `maybe_spawn_pollers`: first the targets are collected, then the missing ones spawned; a session
        that awaits the spend of no leader is a panic, and for an unknown session there is nothing to do. */
    method MaybeSpawnPollers(id: SessionId) returns (ok: bool)
      modifies this`pollers, this`running
      ensures id !in sessions ==> ok && pollers == old(pollers) && running == old(running)
      ensures id in sessions ==> (ok <==> !WaitsForNobody(sessions[id].View()))
      ensures id in sessions && ok ==> pollers == old(pollers) + KeysOf(id, Wanted(sessions[id].env.ring, sessions[id].View()))
      ensures id in sessions && ok ==>
                Spawned(old(running), running, old(pollers), KeysOf(id, Wanted(sessions[id].env.ring, sessions[id].View())))
      ensures id in sessions && ok ==> AddsNeeded(id, sessions[id].env.ring, sessions[id].View(), old(pollers), pollers)
    {
      hide SwapSession.View, KeysOf, Spawned, Wanted, AddsNeeded;
      if id !in sessions {
        return true;
      }
      var s := sessions[id];
      s.Fields();
      if s.state == AwaitingLeaderSpend && s.leader.None? {
        return false;
      }
      var targets := TargetsOf(s);
      var i := 0;
      NoKeys(id, targets[..0], pollers, running);
      while i < |targets|
        invariant 0 <= i <= |targets|
        invariant pollers == old(pollers) + KeysOf(id, set t | t in targets[..i])
        invariant Spawned(old(running), running, old(pollers), KeysOf(id, set t | t in targets[..i]))
      {
        var t := targets[i];
        NextKey(id, targets[..i], t, old(pollers), old(running), pollers, running);
        assert targets[..i + 1] == targets[..i] + [t];
        SpawnPoller((id, t));
        i := i + 1;
      }
      assert targets[..i] == targets;
      assert (set t | t in targets) == Wanted(s.env.ring, s.View());
      WantedIsAdded(id, s.env.ring, s.View(), old(pollers));
      ok := true;
    }

    ghost function Views(): map<SessionId, Session>
      reads this`sessions, set id | id in sessions :: sessions[id]
    {
      map id | id in sessions :: sessions[id].View()
    }

    ghost function Rings(): map<SessionId, Participants>
      reads this`sessions, set id | id in sessions :: sessions[id]
    {
      map id | id in sessions :: sessions[id].env.ring
    }

    lemma KnownIds()
      ensures Views().Keys == sessions.Keys
    {
      hide SwapSession.View;
    }

    lemma Entry(id: SessionId)
      requires id in sessions
      ensures id in Views() && Views()[id] == sessions[id].View() && id in Rings() && Rings()[id] == sessions[id].env.ring
    {
      hide SwapSession.View;
    }

    /** Every session is an object of its own over a ring; every session that has not ended has all the
        pollers it needs, and every poller in the table has exactly one task. */
    ghost predicate Valid()
      reads this, set id | id in sessions :: sessions[id]
    {
      && (forall i, j {:trigger sessions[i], sessions[j]} :: i in sessions && j in sessions && i != j ==> sessions[i] != sessions[j])
      && (forall i {:trigger sessions[i]} :: i in sessions ==> IsRing(sessions[i].env.ring))
      && TasksOk(Views(), pollers, running)
      && AllCovered(Views(), Rings(), pollers)
    }

    /** Of a session that has not ended exactly one task each polls: the own refund window once the own lock is
        confirmed, the spend of the leader while the session waits for it, and every lock that is announced and
        not confirmed. */
    lemma NeededOnce(id: SessionId)
      requires Valid() && id in sessions && !sessions[id].View().state.Terminal()
      ensures
        var s, ring := sessions[id].View(), sessions[id].env.ring;
        && (s.me in s.locksConfirmed ==> (id, RefundTarget(s.me)) in pollers && running[(id, RefundTarget(s.me))] == 1)
        && (forall l: Pid {:trigger LeaderSpendTarget(l)} :: s.state == AwaitingLeaderSpend && s.leader == Some(l) ==>
              (id, LeaderSpendTarget(l)) in pollers && running[(id, LeaderSpendTarget(l))] == 1)
        && (forall q: Pid {:trigger LockTarget(q)} :: q in ring && q in s.locksBroadcast && q !in s.locksConfirmed ==>
              (id, LockTarget(q)) in pollers && running[(id, LockTarget(q))] == 1)
    {
      hide SwapSession.View, Views, Rings;
      Entry(id);
      var s, ring := Views()[id], Rings()[id];
      StillCovered(Views(), Rings(), pollers, id);
      assert s.me in s.locksConfirmed ==> Needs(ring, s, RefundTarget(s.me));
      forall l: Pid {:trigger LeaderSpendTarget(l)} | s.state == AwaitingLeaderSpend && s.leader == Some(l)
        ensures (id, LeaderSpendTarget(l)) in pollers && running[(id, LeaderSpendTarget(l))] == 1
      {
        assert Needs(ring, s, LeaderSpendTarget(l));
      }
      forall q: Pid {:trigger LockTarget(q)} | q in ring && q in s.locksBroadcast && q !in s.locksConfirmed
        ensures (id, LockTarget(q)) in pollers && running[(id, LockTarget(q))] == 1
      {
        assert Needs(ring, s, LockTarget(q));
      }
    }

    method PutSession(id: SessionId, s: SwapSession)
      modifies this`sessions
      ensures sessions == old(sessions)[id := s]
      ensures Views() == old(Views())[id := s.View()] && Rings() == old(Rings())[id := s.env.ring]
    {
      hide SwapSession.View;
      sessions := sessions[id := s];
    }

    /** `insert_session`. A new id keeps everything in order; one that is there already does so exactly if
        no task of the session it replaces has been forgotten and the table has what the new one needs. */
    method InsertSession(id: SessionId, s: SwapSession)
      requires Valid() && IsRing(s.env.ring) && (forall j {:trigger sessions[j]} :: j in sessions ==> sessions[j] != s)
      modifies this`sessions
      ensures sessions == old(sessions)[id := s]
      ensures id !in old(sessions) && NeedsNothing(s.env.ring, s.View()) ==> Valid()
      ensures Valid() <==> MayStandIn(pollers, running, id, s.env.ring, s.View())
    {
      hide IsRing, Wanted, SwapSession.View, TasksOk, AllCovered, MayStandIn, Views, Rings;
      ghost var views, rings := Views(), Rings();
      KnownIds();
      PutSession(id, s);
      InsertedOk(views, rings, pollers, running, id, s.env.ring, s.View());
      if id !in old(sessions) && NeedsNothing(s.env.ring, s.View()) {
        NewIdOk(views, rings, pollers, running, id, s.env.ring, s.View());
      }
    }

    /** `start_swap_session`; `funded` is whether the funding outputs passed or were not to be validated. */
    method StartSession(id: SessionId, funded: bool) returns (found: bool, r: Reply)
      requires Valid()
      modifies if id in sessions then {sessions[id]} else {}
      ensures found <==> id in sessions
      ensures found && funded ==> Matches(sessions[id].View(), r, Start(old(sessions[id].View())))
      ensures found && !funded ==> r == Done([], []) && sessions[id].View() == old(sessions[id].View()).TransitionTo(Failed)
      ensures sessions == old(sessions)
      ensures forall j {:trigger sessions[j]} :: j in sessions && j != id ==> sessions[j].View() == old(sessions[j].View())
      ensures found && r.Done? ==> Valid()
    {
      found, r := id in sessions, Done([], []);
      if found {
        r := StartKnown(id, funded);
      }
    }

    method StartKnown(id: SessionId, funded: bool) returns (r: Reply)
      requires Valid() && id in sessions
      modifies sessions[id]
      ensures funded ==> Matches(sessions[id].View(), r, Start(old(sessions[id].View())))
      ensures !funded ==> r == Done([], []) && sessions[id].View() == old(sessions[id].View()).TransitionTo(Failed)
      ensures sessions == old(sessions)
      ensures forall j {:trigger sessions[j]} :: j in sessions && j != id ==> sessions[j].View() == old(sessions[j].View())
      ensures r.Done? ==> Valid()
    {
      hide IsRing, Wanted, TasksOk, SwapSession.View, AllCovered, Covered;
      ghost var views, rings := Views(), Rings();
      var s := sessions[id];
      ghost var before := s.View();
      r := Done([], []);
      if !funded {
        s.TransitionTo(Failed);
      } else {
        r := s.StartSwapSession();
      }
      if r.Done? {
        assert Views() == views[id := s.View()] && Rings() == rings;
        StartedOk(views, Views(), rings, pollers, running, id);
      }
    }

    /** After a peer message: nothing is polled any more for an ended session; for any other one, whatever
        is missing is spawned. */
    method AdjustAfterMessage(id: SessionId, ghost views: map<SessionId, Session>) returns (ok: bool)
      requires id in sessions
      requires TasksOk(Views(), pollers, running) && OnlyMoved(views, Views(), id) && AllCovered(views, Rings(), pollers)
      modifies this`pollers, this`running
      ensures ok <==> sessions[id].View().state.Terminal() || !WaitsForNobody(sessions[id].View())
      ensures ok ==> pollers == AfterMessage(old(pollers), id, sessions[id].env.ring, sessions[id].View())
      ensures ok ==> TasksOk(Views(), pollers, running) && AllCovered(Views(), Rings(), pollers)
    {
      hide Wanted, TasksOk, AllCovered, KeysOf, Views, Rings, OnlyMoved, SwapSession.View;
      var s := sessions[id];
      Entry(id);
      s.Fields();
      ghost var table, tasks, now, rings := pollers, running, Views(), Rings();
      if s.state.Completed? || s.state.Refunded? || s.state.Failed? {
        CancelSessionPollers(id);
        CancelledOk(now, table, tasks, running, id);
        ok := true;
      } else {
        ok := MaybeSpawnPollers(id);
        if ok {
          SpawnedOk(now, table, tasks, running, id, s.env.ring, s.View());
        }
      }
      if ok {
        MessageCovers(views, now, rings, table, pollers, id);
      }
    }

    /** The session handles the message; the tasks stay accounted for. */
    method DeliverMessage(id: SessionId, msg: WireMessage, from: Pid, draw: Draw, accepted: bool) returns (r: Reply)
      requires Valid() && id in sessions
      modifies sessions[id]
      ensures Matches(sessions[id].View(), r, HandleMessage(sessions[id].env, old(sessions[id].View()), msg, from, draw, accepted))
      ensures sessions == old(sessions)
      ensures forall j {:trigger sessions[j]} :: j in sessions && j != id ==> sessions[j].View() == old(sessions[j].View())
      ensures Rings() == old(Rings())
      ensures r.Done? ==> TasksOk(Views(), pollers, running) && OnlyMoved(old(Views()), Views(), id)
    {
      hide IsRing, Wanted, TasksOk, HandleMessage, SwapSession.View, FundsInStep;
      ghost var views := Views();
      var s := sessions[id];
      ghost var before := s.View();
      MessageEffect(s.env, before, msg, from, draw, accepted);
      r := s.HandleSessionMessage(msg, from, draw, accepted);
      if r.Done? {
        assert Views() == views[id := s.View()];
        ConfirmedStays(views, Views(), id, pollers, running);
      }
    }

    method HandleKnown(id: SessionId, msg: WireMessage, from: Pid, draw: Draw, accepted: bool) returns (r: Reply, ok: bool)
      requires Valid() && id in sessions
      modifies this`pollers, this`running, sessions[id]
      ensures sessions == old(sessions)
      ensures forall j {:trigger sessions[j]} :: j in sessions && j != id ==> sessions[j].View() == old(sessions[j].View())
      ensures ok ==> Valid()
      ensures MessageDone(HandleMessage(sessions[id].env, old(sessions[id].View()), msg, from, draw, accepted), id,
                          sessions[id].env.ring, sessions[id].View(), old(pollers), pollers, r, ok)
    {
      hide IsRing, Wanted, TasksOk, HandleMessage, SwapSession.View, AfterMessage, WaitsForNobody, Matches, AllCovered, Views, Rings,
           OnlyMoved;
      ghost var views := Views();
      r := DeliverMessage(id, msg, from, draw, accepted);
      assert r.Aborted? ==> !r.Done?;
      ok := false;
      if r.Done? {
        ok := AdjustAfterMessage(id, views);
      }
    }

    /** The `PeerMessage` arm of `handle_event`. A message for a session the daemon does not have is a panic. */
    method HandlePeerMessage(id: SessionId, msg: WireMessage, from: Pid, draw: Draw, accepted: bool) returns (r: Reply, ok: bool)
      requires Valid()
      modifies this`pollers, this`running, if id in sessions then {sessions[id]} else {}
      ensures id !in sessions ==> r.Aborted? && !ok && pollers == old(pollers) && running == old(running)
      ensures sessions == old(sessions)
      ensures forall j {:trigger sessions[j]} :: j in sessions && j != id ==> sessions[j].View() == old(sessions[j].View())
      ensures ok ==> Valid()
      ensures id in sessions ==>
                MessageDone(HandleMessage(sessions[id].env, old(sessions[id].View()), msg, from, draw, accepted), id,
                            sessions[id].env.ring, sessions[id].View(), old(pollers), pollers, r, ok)
    {
      hide IsRing, Wanted, TasksOk, HandleMessage, SwapSession.View, MessageDone, AllCovered;
      if id in sessions {
        r, ok := HandleKnown(id, msg, from, draw, accepted);
      } else {
        r, ok := Aborted, false;
      }
    }

    /** What the arms of a chain poll do to the session; the tasks stay accounted for. */
    method PollSession(id: SessionId, target: PollTarget, answer: Answer) returns (r: Reply)
      requires Valid() && id in sessions
      modifies sessions[id]
      ensures Matches(sessions[id].View(), r, OnPoll(sessions[id].env, old(sessions[id].View()), target, answer))
      ensures sessions == old(sessions)
      ensures forall j {:trigger sessions[j]} :: j in sessions && j != id ==> sessions[j].View() == old(sessions[j].View())
      ensures Rings() == old(Rings())
      ensures r.Done? ==> TasksOk(Views(), pollers, running) && OnlyMoved(old(Views()), Views(), id)
    {
      hide IsRing, Wanted, TasksOk, OnPoll, SwapSession.View, FundsInStep;
      ghost var views := Views();
      var s := sessions[id];
      ghost var before := s.View();
      PollKeepsConfirmed(s.env, before, target, answer);
      r := Poll(s, target, answer);
      if r.Done? {
        assert Views() == views[id := s.View()];
        ConfirmedStays(views, Views(), id, pollers, running);
      }
    }

    /** What the arms of a chain poll do to the table before anything is spawned. */
    method DropPollers(id: SessionId, target: PollTarget, ghost before: Session, confirmed: bool, waited: bool, ended: bool)
      requires id in sessions && TasksOk(Views(), pollers, running)
      requires target.LockTarget? ==> (confirmed <==> target.owner in before.locksConfirmed)
      requires waited <==> before.state == AwaitingLeaderSpend
      requires ended <==> before.state.Terminal()
      modifies this`pollers, this`running
      ensures pollers == Kept(old(pollers), id, target, before, sessions[id].View()) && TasksOk(Views(), pollers, running)
    {
      hide TasksOk, SwapSession.View, Wanted;
      var s := sessions[id];
      ghost var views, table, tasks := Views(), pollers, running;
      ghost var after := s.View();
      assert after.state == s.state && after.locksConfirmed == s.locksConfirmed by { s.Fields(); }
      match target {
        case LockTarget(owner) =>
          if !confirmed && owner in s.locksConfirmed {
            ForgottenOk(views, pollers, running, (id, target));
            pollers := pollers - {(id, target)};
          }
        case LeaderSpendTarget(_) =>
          if waited && s.state == Completed {
            CancelSessionPollers(id);
            CancelledOk(views, table, tasks, running, id);
          }
        case RefundTarget(_) =>
          if !ended && s.state.Terminal() {
            CancelSessionPollers(id);
            CancelledOk(views, table, tasks, running, id);
          }
      }
      assert Views() == views;
    }

    /** What is missing is spawned in the end. */
    method SpawnMissing(id: SessionId) returns (ok: bool)
      requires id in sessions && TasksOk(Views(), pollers, running)
      modifies this`pollers, this`running
      ensures ok <==> !WaitsForNobody(sessions[id].View())
      ensures ok ==>
                && pollers == old(pollers) + KeysOf(id, Wanted(sessions[id].env.ring, sessions[id].View()))
                && TasksOk(Views(), pollers, running)
    {
      hide Wanted, TasksOk, WaitsForNobody;
      var s := sessions[id];
      ghost var views, table, tasks := Views(), pollers, running;
      ok := MaybeSpawnPollers(id);
      if ok {
        SpawnedOk(views, table, tasks, running, id, s.env.ring, s.View());
      }
      assert Views() == views;
    }

    /** After a chain poll: some pollers are dropped, then whatever is missing is spawned. */
    method AdjustAfterPoll(id: SessionId, target: PollTarget, ghost views: map<SessionId, Session>, confirmed: bool, waited: bool,
          ended: bool)
      returns (ok: bool)
      requires id in sessions && id in views
      requires target.LockTarget? ==> (confirmed <==> target.owner in views[id].locksConfirmed)
      requires waited <==> views[id].state == AwaitingLeaderSpend
      requires ended <==> views[id].state.Terminal()
      requires TasksOk(Views(), pollers, running) && OnlyMoved(views, Views(), id) && AllCovered(views, Rings(), pollers)
      modifies this`pollers, this`running
      ensures ok <==> !WaitsForNobody(sessions[id].View())
      ensures ok ==> pollers == AfterPoll(old(pollers), id, sessions[id].env.ring, target, views[id], sessions[id].View())
      ensures ok ==> TasksOk(Views(), pollers, running) && AllCovered(Views(), Rings(), pollers)
    {
      hide Wanted, TasksOk, WaitsForNobody, Kept, SwapSession.View, KeysOf, AllCovered, Views, Rings, OnlyMoved;
      Entry(id);
      ghost var now, rings, table := Views(), Rings(), pollers;
      DropPollers(id, target, views[id], confirmed, waited, ended);
      ok := SpawnMissing(id);
      if ok {
        PollCovers(views, now, rings, table, pollers, id, target);
      }
    }

    method PollKnown(id: SessionId, target: PollTarget, answer: Answer) returns (r: Reply, ok: bool)
      requires Valid() && id in sessions
      modifies this`pollers, this`running, sessions[id]
      ensures sessions == old(sessions)
      ensures forall j {:trigger sessions[j]} :: j in sessions && j != id ==> sessions[j].View() == old(sessions[j].View())
      ensures ok ==> Valid()
      ensures PollDone(sessions[id].env, id, target, answer, old(sessions[id].View()), sessions[id].View(), old(pollers), pollers, r, ok)
    {
      hide IsRing, Wanted, TasksOk, OnPoll, Matches, AfterPoll, WaitsForNobody, AllCovered, SwapSession.View, Views, Rings, OnlyMoved;
      var s := sessions[id];
      ghost var views := Views();
      s.Fields();
      Entry(id);
      var confirmed := target.LockTarget? && target.owner in s.locksConfirmed;
      var waited, ended := s.state == AwaitingLeaderSpend, s.state.Terminal();
      r := PollSession(id, target, answer);
      assert r.Aborted? ==> !r.Done?;
      ok := false;
      if r.Done? {
        ok := AdjustAfterPoll(id, target, views, confirmed, waited, ended);
      }
    }

    /** The `ChainPoll` arm of `handle_event`. A poll for a session the daemon does not have does nothing. */
    method HandleChainPoll(id: SessionId, target: PollTarget, answer: Answer) returns (r: Reply, ok: bool)
      requires Valid()
      modifies this`pollers, this`running, if id in sessions then {sessions[id]} else {}
      ensures id !in sessions ==> r == Done([], []) && ok && pollers == old(pollers) && running == old(running)
      ensures sessions == old(sessions)
      ensures forall j {:trigger sessions[j]} :: j in sessions && j != id ==> sessions[j].View() == old(sessions[j].View())
      ensures ok ==> Valid()
      ensures id in sessions ==>
                PollDone(sessions[id].env, id, target, answer, old(sessions[id].View()), sessions[id].View(), old(pollers), pollers, r, ok)
    {
      hide IsRing, Wanted, TasksOk, PollDone, AllCovered, SwapSession.View;
      if id in sessions {
        r, ok := PollKnown(id, target, answer);
      } else {
        ok := MaybeSpawnPollers(id);
        r := Done([], []);
      }
    }
  }

  /** What the chain answers a poll. */
  datatype Answer = Answer(onChain: bool, found: Option<Secret>, open: bool, accepted: bool)

  function OnPoll(env: Env, s: Session, target: PollTarget, answer: Answer): Outcome {
    match target
    case LockTarget(owner) => OnLockPoll(env, s, owner, answer.onChain)
    case LeaderSpendTarget(leaderId) => OnLeaderSpendPoll(s, leaderId, answer.found)
    case RefundTarget(_) => OnRefundPoll(s, answer.open, answer.accepted)
  }

  /** The three arms of a chain poll. */
  method Poll(s: SwapSession, target: PollTarget, answer: Answer) returns (r: Reply)
    modifies s
    ensures Matches(s.View(), r, OnPoll(s.env, old(s.View()), target, answer))
  {
    hide OnLockPoll, OnLeaderSpendPoll, OnRefundPoll, SwapSession.View;
    match target {
      case LockTarget(owner) => r := s.PollLockTx(owner, answer.onChain);
      case LeaderSpendTarget(leaderId) => r := s.PollLeaderSpend(leaderId, answer.found);
      case RefundTarget(_) => r := s.PollRefundWindow(answer.open, answer.accepted);
    }
  }

  lemma PollKeepsConfirmed(env: Env, s: Session, target: PollTarget, answer: Answer)
    ensures OnPoll(env, s, target, answer).Ok? ==> s.locksConfirmed <= OnPoll(env, s, target, answer).session.locksConfirmed
  {
    hide OnLockPoll, OnLeaderSpendPoll, OnRefundPoll, FundsInStep;
    match target {
      case LockTarget(owner) => LockPollEffect(env, s, owner, answer.onChain);
      case LeaderSpendTarget(leaderId) => LeaderSpendPollEffect(s, leaderId, answer.found);
      case RefundTarget(_) => RefundPollEffect(s, answer.open, answer.accepted);
    }
  }

  // ---------- the tasks stay in step ----------

  /** Confirmed locks stay confirmed, so what was forgotten stays forgotten. */
  lemma ConfirmedStays(views: map<SessionId, Session>, views': map<SessionId, Session>, id: SessionId,
        pollers: set<PollerKey>, running: multiset<PollerKey>)
    requires id in views && views'.Keys == views.Keys && views[id].locksConfirmed <= views'[id].locksConfirmed
    requires forall j {:trigger views'[j]} :: j in views && j != id ==> views'[j] == views[j]
    requires TasksOk(views, pollers, running)
    ensures TasksOk(views', pollers, running)
  {
    forall k: PollerKey {:trigger running[k]}
      ensures Forgotten(views, k) ==> Forgotten(views', k)
    {
    }
  }

  lemma InsertedOk(views: map<SessionId, Session>, rings: map<SessionId, Participants>, pollers: set<PollerKey>,
                   running: multiset<PollerKey>, id: SessionId, ring: Participants, s: Session)
    requires TasksOk(views, pollers, running) && AllCovered(views, rings, pollers)
    ensures TasksOk(views[id := s], pollers, running) && AllCovered(views[id := s], rings[id := ring], pollers)
            <==> MayStandIn(pollers, running, id, ring, s)
  {
    hide Covered;
    var views', rings' := views[id := s], rings[id := ring];
    assert views'[id] == s && forall j {:trigger views'[j]} :: j in views && j != id ==> views'[j] == views[j];
    assert AllCovered(views', rings', pollers) <==> s.state.Terminal() || Covered(pollers, id, ring, s);
    forall k: PollerKey {:trigger running[k]} | k.0 != id
      ensures Forgotten(views', k) <==> Forgotten(views, k)
    {
    }
  }

  lemma NewIdOk(views: map<SessionId, Session>, rings: map<SessionId, Participants>, pollers: set<PollerKey>,
                running: multiset<PollerKey>, id: SessionId, ring: Participants, s: Session)
    requires TasksOk(views, pollers, running) && AllCovered(views, rings, pollers) && id !in views && NeedsNothing(ring, s)
    ensures MayStandIn(pollers, running, id, ring, s)
  {
    hide Needs;
  }

  lemma StartedOk(views: map<SessionId, Session>, views': map<SessionId, Session>, rings: map<SessionId, Participants>,
                  pollers: set<PollerKey>, running: multiset<PollerKey>, id: SessionId)
    requires TasksOk(views, pollers, running) && AllCovered(views, rings, pollers) && OnlyMoved(views, views', id) && id in rings
    requires
      var s, s' := views[id], views'[id];
      s' == s || s' == s.TransitionTo(Failed) || (s.state.Initialized? && s' == s.TransitionTo(AwaitingAdaptorPoints))
    ensures TasksOk(views', pollers, running) && AllCovered(views', rings, pollers)
  {
    hide Wanted, TasksOk, AllCovered;
    ConfirmedStays(views, views', id, pollers, running);
    StartWants(rings[id], views[id], views'[id]);
    assert !views'[id].state.Terminal() ==> Covered(pollers, id, rings[id], views'[id]) by { StillCovered(views, rings, pollers, id); }
    MovedCovers(views, views', rings, pollers, pollers, id);
  }

  lemma StillCovered(views: map<SessionId, Session>, rings: map<SessionId, Participants>, pollers: set<PollerKey>, id: SessionId)
    requires AllCovered(views, rings, pollers) && id in views && id in rings
    ensures !views[id].state.Terminal() ==> Covered(pollers, id, rings[id], views[id])
  {
    hide Covered;
  }

  lemma CancelledOk(views: map<SessionId, Session>, pollers: set<PollerKey>, was: multiset<PollerKey>,
        now: multiset<PollerKey>, id: SessionId)
    requires TasksOk(views, pollers, was)
    requires forall k: PollerKey {:trigger now[k]} :: now[k] == if k in pollers && k.0 == id && was[k] > 0 then was[k] - 1 else was[k]
    ensures TasksOk(views, OthersOf(pollers, id), now)
  {
    forall k: PollerKey {:trigger now[k]}
      ensures if k in OthersOf(pollers, id) then now[k] == 1 else now[k] == 0 || (now[k] == 1 && Forgotten(views, k))
    {
      assert if k in pollers then was[k] == 1 else was[k] == 0 || (was[k] == 1 && Forgotten(views, k));
    }
  }

  /** What a session wants is never forgotten: a wanted lock is unconfirmed. */
  lemma SpawnedOk(views: map<SessionId, Session>, pollers: set<PollerKey>, was: multiset<PollerKey>, now: multiset<PollerKey>,
                  id: SessionId, ring: Participants, s: Session)
    requires TasksOk(views, pollers, was) && id in views && views[id] == s
    requires Spawned(was, now, pollers, KeysOf(id, Wanted(ring, s)))
    ensures TasksOk(views, pollers + KeysOf(id, Wanted(ring, s)), now)
  {
    var keys := KeysOf(id, Wanted(ring, s));
    forall k: PollerKey {:trigger now[k]}
      ensures if k in pollers + keys then now[k] == 1 else now[k] == 0 || (now[k] == 1 && Forgotten(views, k))
    {
      assert if k in pollers then was[k] == 1 else was[k] == 0 || (was[k] == 1 && Forgotten(views, k));
      assert now[k] == was[k] + if k in keys && k !in pollers then 1 else 0;
      assert k in keys ==> !Forgotten(views, k);
    }
  }

  lemma ForgottenOk(views: map<SessionId, Session>, pollers: set<PollerKey>, running: multiset<PollerKey>, k: PollerKey)
    requires TasksOk(views, pollers, running) && Forgotten(views, k)
    ensures TasksOk(views, pollers - {k}, running)
  {
  }

  /** The unwrap in `maybe_spawn_pollers` fails. */
  predicate WaitsForNobody(s: Session) { s.state == AwaitingLeaderSpend && s.leader.None? }

  /** The targets of a session, in the order they are pushed. */
  method TargetsOf(s: SwapSession) returns (targets: seq<PollTarget>)
    ensures forall t :: t in targets <==> t in Wanted(s.env.ring, s.View())
    ensures forall q: Pid {:trigger LockTarget(q)} ::
              LockTarget(q) in targets <==> q in s.env.ring && q in s.locksBroadcast && q !in s.locksConfirmed
    ensures forall l: Pid {:trigger LeaderSpendTarget(l)} ::
              LeaderSpendTarget(l) in targets <==> s.state == AwaitingLeaderSpend && s.leader == Some(l)
    ensures forall owner: Pid {:trigger RefundTarget(owner)} ::
              RefundTarget(owner) in targets <==> owner == s.me && s.me in s.locksConfirmed && !s.state.Terminal()
  {
    var owners := s.UnconfirmedLocks();
    targets := seq(|owners|, i requires 0 <= i < |owners| => LockTarget(owners[i]));
    ghost var locks := targets;
    forall t
      ensures t in locks <==> t.LockTarget? && t.owner in owners
    {
      if t.LockTarget? && t.owner in owners {
        var i :| 0 <= i < |owners| && owners[i] == t.owner;
        assert locks[i] == t;
      }
    }
    if s.state == AwaitingLeaderSpend && s.leader.Some? {
      targets := targets + [LeaderSpendTarget(s.leader.value)];
    }
    if s.me in s.locksConfirmed && !s.state.Terminal() {
      targets := targets + [RefundTarget(s.me)];
    }
  }

  lemma NoKeys(id: SessionId, done: seq<PollTarget>, pollers: set<PollerKey>, running: multiset<PollerKey>)
    requires done == []
    ensures pollers + KeysOf(id, set u | u in done) == pollers
    ensures Spawned(running, running, pollers, KeysOf(id, set u | u in done))
  {
  }

  lemma NextKey(id: SessionId, done: seq<PollTarget>, t: PollTarget, pollers0: set<PollerKey>, running0: multiset<PollerKey>,
                pollers: set<PollerKey>, running: multiset<PollerKey>)
    requires pollers == pollers0 + KeysOf(id, set u | u in done)
    requires Spawned(running0, running, pollers0, KeysOf(id, set u | u in done))
    ensures pollers + {(id, t)} == pollers0 + KeysOf(id, set u | u in done + [t])
    ensures forall now: multiset<PollerKey> {:trigger Spawned(running, now, pollers, {(id, t)})} ::
              Spawned(running, now, pollers, {(id, t)}) ==> Spawned(running0, now, pollers0, KeysOf(id, set u | u in done + [t]))
  {
    var before, after := KeysOf(id, set u | u in done), KeysOf(id, set u | u in done + [t]);
    assert after == before + {(id, t)};
    forall now: multiset<PollerKey> | Spawned(running, now, pollers, {(id, t)})
      ensures Spawned(running0, now, pollers0, after)
    {
      forall k: PollerKey
        ensures now[k] == running0[k] + if k in after && k !in pollers0 then 1 else 0
      {
        assert running[k] == running0[k] + if k in before && k !in pollers0 then 1 else 0;
      }
    }
  }

  // ---------- refunds and ends ----------

  /** One poll with the window open ends the session: refunded if the refund is signed and taken. */
  lemma OpenWindowEnds(s: Session, accepted: bool)
    requires !s.state.Terminal()
    ensures
      var o := OnRefundPoll(s, true, accepted);
      && o.Ok? && o.session.state.Terminal()
      && (o.session.state.Refunded? <==> Refund(s.me) in s.signedTxs && accepted)
      && (o.submitted != [] <==> Refund(s.me) in s.signedTxs)
  {
  }

  /** With all locks confirmed, an ended session ignores every message and every poll. */
  lemma EndAbsorbs(env: Env, s: Session, msg: WireMessage, from: Pid, draw: Draw, target: PollTarget, answer: Answer)
    requires IsRing(env.ring) && s.state.Terminal() && AllConfirmed(env.ring, s)
    requires target.LockTarget? ==> target.owner in env.ring
    ensures HandleMessage(env, s, msg, from, draw, answer.accepted) == Ok(s, [], [])
    ensures OnPoll(env, s, target, answer) == Ok(s, [], [])
  {
    hide IsRing;
  }

  predicate ConfirmsLast(ring: Participants, s: Session, owner: Pid, onChain: bool) {
    onChain && owner !in s.locksConfirmed && AllConfirmed(ring, s.(locksConfirmed := s.locksConfirmed + {owner}))
  }

  lemma LastConfirmation(env: Env, s: Session, owner: Pid, s1: Session, o: Outcome)
    requires owner in env.ring && owner in s.lockTxs && owner !in s.locksConfirmed && s.me in s.secrets
    requires s1 == s.(locksConfirmed := s.locksConfirmed + {owner}) && o == OnLockPoll(env, s, owner, true)
    requires AllConfirmed(env.ring, s1)
    ensures o.Ok? && (o.session.state == AwaitingLeaderSpend || o.session.state == AwaitingSecrets)
  {
    hide AllConfirmed;
    if s.leader != Some(s.me) {
      assert o == Ok(s1.TransitionTo(AwaitingLeaderSpend), [SecretReveal(s.secrets[s.me])], []);
    } else {
      assert o == Ok(s1.TransitionTo(AwaitingSecrets), [], []);
    }
  }

  lemma EarlierConfirmation(env: Env, s: Session, owner: Pid, s1: Session, o: Outcome)
    requires owner in env.ring && owner in s.lockTxs && owner !in s.locksConfirmed
    requires s1 == s.(locksConfirmed := s.locksConfirmed + {owner}) && o == OnLockPoll(env, s, owner, true)
    requires !AllConfirmed(env.ring, s1)
    ensures o == Ok(s1, [], []) && o.session.state == s.state
  {
    hide AllConfirmed;
  }

  lemma NothingConfirmed(env: Env, s: Session, owner: Pid, onChain: bool)
    requires owner in env.ring && owner in s.lockTxs && (owner in s.locksConfirmed || !onChain)
    ensures OnLockPoll(env, s, owner, onChain) == Ok(s, [], [])
  {
    hide AllConfirmed;
    if owner !in s.locksConfirmed {
      LastNeedsChain(env.ring, s, owner);
    }
  }

  /** Otherwise it does not: the poll that confirms the last lock takes an ended session back to waiting,
      and makes a non-leader reveal its secret. */
  lemma EndIsLeftExactly(env: Env, s: Session, owner: Pid, onChain: bool, o: Outcome)
    requires s.state.Terminal() && s.me in s.secrets && owner in env.ring && owner in s.lockTxs
    requires o == OnLockPoll(env, s, owner, onChain)
    ensures o.Ok? && (!o.session.state.Terminal() <==> ConfirmsLast(env.ring, s, owner, onChain))
  {
    hide AllConfirmed, OnLockPoll;
    if owner in s.locksConfirmed || !onChain {
      NothingConfirmed(env, s, owner, onChain);
    } else if ConfirmsLast(env.ring, s, owner, onChain) {
      LastConfirmation(env, s, owner, s.(locksConfirmed := s.locksConfirmed + {owner}), o);
    } else {
      EarlierConfirmation(env, s, owner, s.(locksConfirmed := s.locksConfirmed + {owner}), o);
    }
  }

  lemma LastNeedsChain(ring: Participants, s: Session, owner: Pid)
    requires owner in ring && owner !in s.locksConfirmed
    ensures !AllConfirmed(ring, s)
  {
  }
}
