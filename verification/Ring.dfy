/** The ring of participants (swap-daemon/src/utils.rs): who claims from whom, the check that the
    targets form one cycle, and the distance from the leader that staggers the refund windows. */
module Ring {

  /** A participant id is a Rust `u8`. */
  type Pid = p: int | 0 <= p < 256

  datatype Blockchain = Bitcoin | Cardano

  /** The fields of a participant that the protocol steps read; `target` is whom it claims from. */
  datatype Participant = Participant(id: Pid, blockchain: Blockchain, target: Pid, amountLocking: nat)

  type Participants = map<Pid, Participant>

  datatype Option<+T> = None | Some(value: T)

  // ---------- key order (the source keeps participants in a BTreeMap) ----------

  predicate IsLeast(m: Pid, s: set<Pid>) {
    m in s && forall p | p in s :: m <= p
  }

  lemma {:induction false} LeastExists(s: set<Pid>)
    requires s != {}
    ensures exists m :: IsLeast(m, s)
  {
    var p :| p in s;
    var rest := s - {p};
    assert forall q :: q in s ==> q == p || q in rest;
    if rest == {} {
      assert IsLeast(p, s);
    } else {
      LeastExists(rest);
      var m :| IsLeast(m, rest);
      assert IsLeast(if m <= p then m else p, s);
    }
  }

  function Least(s: set<Pid>): (m: Pid)
    requires s != {}
    ensures IsLeast(m, s)
  {
    LeastExists(s);
    LeastIsUnique(s);
    var m :| IsLeast(m, s);
    m
  }

  lemma LeastIsUnique(s: set<Pid>)
    ensures forall m, m' :: IsLeast(m, s) && IsLeast(m', s) ==> m == m'
  {
  }

  /** All keys in ascending order: the iteration order of the map. */
  function SortedKeys(s: set<Pid>): (r: seq<Pid>)
    ensures forall p {:trigger p in r} :: p in r <==> p in s
    ensures forall i, j :: 0 <= i < j < |r| ==> r[i] < r[j]
  {
    if s == {} then []
    else
      var rest := SortedKeys(s - {Least(s)});
      assert forall i :: 0 <= i < |rest| ==> rest[i] in rest;
      [Least(s)] + rest
  }

  /** A sequence without repetitions is as long as the set of its elements. */
  lemma {:induction false} DistinctLength<T>(xs: seq<T>, s: set<T>)
    requires forall i, j :: 0 <= i < j < |xs| ==> xs[i] != xs[j]
    requires forall x :: x in xs <==> x in s
    ensures |xs| == |s|
  {
    if xs == [] {
      assert s == {};
    } else {
      var last := xs[|xs| - 1];
      var init := xs[..|xs| - 1];
      assert xs == init + [last];
      assert last !in init;
      DistinctLength(init, s - {last});
    }
  }

  lemma SortedKeysLength(s: set<Pid>)
    ensures |SortedKeys(s)| == |s|
  {
    DistinctLength(SortedKeys(s), s);
  }

  // ---------- the target graph ----------

  predicate Closed(ps: Participants) {
    forall p {:trigger ps[p].target} | p in ps :: ps[p].target in ps
  }

  ghost predicate KeyedById(ps: Participants) {
    forall p {:trigger ps[p]} | p in ps :: ps[p].id == p
  }

  /** The participant reached from `p` after `k` hops along the claim targets. */
  function Hop(ps: Participants, p: Pid, k: nat): (r: Pid)
    requires Closed(ps) && p in ps
    ensures r in ps
  {
    if k == 0 then p else ps[Hop(ps, p, k - 1)].target
  }

  ghost predicate Reaches(ps: Participants, p: Pid, q: Pid)
    requires Closed(ps) && p in ps
  {
    exists k: nat :: Hop(ps, p, k) == q
  }

  /** The reference notion of a cyclic swap: at least two participants, and whoever one starts
      from, following claim targets eventually visits every participant. */
  ghost predicate IsRing(ps: Participants) {
    && 2 <= |ps|
    && Closed(ps)
    && forall p, q {:trigger Reaches(ps, p, q)} | p in ps && q in ps :: Reaches(ps, p, q)
  }

  lemma {:induction false} HopAdd(ps: Participants, p: Pid, j: nat, k: nat)
    requires Closed(ps) && p in ps
    ensures Hop(ps, p, j + k) == Hop(ps, Hop(ps, p, j), k)
  {
    if k > 0 {
      HopAdd(ps, p, j, k - 1);
    }
  }

  /** `r` is the number of hops after which `p` is first met again. */
  ghost predicate FirstReturn(ps: Participants, p: Pid, r: nat)
    requires Closed(ps) && p in ps
  {
    && 1 <= r
    && Hop(ps, p, r) == p
    && forall i :: 1 <= i < r ==> Hop(ps, p, i) != p
  }

  ghost function Orbit(ps: Participants, p: Pid, r: nat): (o: seq<Pid>)
    requires Closed(ps) && p in ps
    ensures |o| == r
    ensures forall i :: 0 <= i < r ==> o[i] == Hop(ps, p, i)
  {
    if r == 0 then [] else Orbit(ps, p, r - 1) + [Hop(ps, p, r - 1)]
  }

  /** Until the first return no participant is met twice. */
  lemma OrbitDistinct(ps: Participants, p: Pid, r: nat)
    requires Closed(ps) && p in ps
    requires forall i :: 1 <= i < r ==> Hop(ps, p, i) != p
    requires Hop(ps, p, r) == p
    ensures forall i, j :: 0 <= i < j < r ==> Hop(ps, p, i) != Hop(ps, p, j)
  {
    forall i, j | 0 <= i < j < r
      ensures Hop(ps, p, i) != Hop(ps, p, j)
    {
      if Hop(ps, p, i) == Hop(ps, p, j) {
        HopAdd(ps, p, j, r - j);
        HopAdd(ps, p, i, r - j);
      }
    }
  }

  /** Hops from `p` never leave the first turn of its orbit. */
  lemma {:induction false} HopWithinOrbit(ps: Participants, p: Pid, r: nat, k: nat) returns (i: nat)
    requires Closed(ps) && p in ps && 1 <= r && Hop(ps, p, r) == p
    ensures i < r && Hop(ps, p, i) == Hop(ps, p, k)
  {
    if k == 0 {
      i := 0;
    } else {
      var j := HopWithinOrbit(ps, p, r, k - 1);
      i := if j + 1 == r then 0 else j + 1;
      assert Hop(ps, p, j + 1) == Hop(ps, p, k);
    }
  }

  lemma {:induction false} LeastReturn(ps: Participants, p: Pid, k: nat) returns (r: nat)
    requires Closed(ps) && p in ps && 1 <= k && Hop(ps, p, k) == p
    ensures FirstReturn(ps, p, r)
  {
    if i :| 1 <= i < k && Hop(ps, p, i) == p {
      r := LeastReturn(ps, p, i);
    } else {
      r := k;
    }
  }

  /** In a ring every participant is first met again after exactly N hops. */
  lemma RingReturnsAtN(ps: Participants, p: Pid)
    requires IsRing(ps) && p in ps
    ensures FirstReturn(ps, p, |ps|)
  {
    var t := ps[p].target;
    var k: nat :| Hop(ps, t, k) == p by { assert Reaches(ps, t, p); }
    assert Hop(ps, p, 1) == t;
    HopAdd(ps, p, 1, k);
    var r := LeastReturn(ps, p, k + 1);
    OrbitDistinct(ps, p, r);
    var o := Orbit(ps, p, r);
    forall q
      ensures q in o <==> q in ps.Keys
    {
      if q in ps.Keys {
        assert Reaches(ps, p, q);
        var m: nat :| Hop(ps, p, m) == q;
        var i := HopWithinOrbit(ps, p, r, m);
        assert o[i] == q;
      }
    }
    DistinctLength(o, ps.Keys);
  }

  /** One orbit that first returns after N hops already visits everybody, so the whole graph is a
      ring: the pigeonhole step that lets the source follow a single orbit. */
  lemma FullOrbitIsRing(ps: Participants, s: Pid)
    requires 2 <= |ps| && Closed(ps) && s in ps
    requires FirstReturn(ps, s, |ps|)
    ensures IsRing(ps)
  {
    hide Reaches, Hop;
    var o := FullOrbitCovers(ps, s);
    forall p, q | p in ps && q in ps
      ensures Reaches(ps, p, q)
    {
      var i :| 0 <= i < |ps| && o[i] == p;
      var j :| 0 <= j < |ps| && o[j] == q;
      ReachOnOrbit(ps, s, i, j);
    }
  }

  lemma FullOrbitCovers(ps: Participants, s: Pid) returns (o: seq<Pid>)
    requires Closed(ps) && s in ps && FirstReturn(ps, s, |ps|)
    ensures |o| == |ps| && forall i :: 0 <= i < |o| ==> o[i] == Hop(ps, s, i)
    ensures forall p :: p in ps ==> p in o
  {
    OrbitDistinct(ps, s, |ps|);
    o := Orbit(ps, s, |ps|);
    DistinctCovers(o, ps.Keys);
  }

  /** As many distinct elements as the set has are all of them. */
  lemma DistinctCovers<T>(xs: seq<T>, s: set<T>)
    requires forall i, j :: 0 <= i < j < |xs| ==> xs[i] != xs[j]
    requires forall i :: 0 <= i < |xs| ==> xs[i] in s
    requires |xs| == |s|
    ensures forall x :: x in s ==> x in xs
  {
    var visited := set x | x in xs;
    DistinctLength(xs, visited);
    SubsetOfEqualSize(visited, s);
  }

  lemma ReachOnOrbit(ps: Participants, s: Pid, i: nat, j: nat)
    requires Closed(ps) && s in ps && Hop(ps, s, |ps|) == s && i < |ps|
    ensures Reaches(ps, Hop(ps, s, i), Hop(ps, s, j))
  {
    var p := Hop(ps, s, i);
    HopAdd(ps, s, i, |ps| - i);
    HopAdd(ps, p, |ps| - i, j);
    assert Hop(ps, p, |ps| - i + j) == Hop(ps, s, j);
  }

  lemma {:induction false} SubsetOfEqualSize<T>(a: set<T>, b: set<T>)
    requires a <= b && |a| == |b|
    ensures a == b
  {
    assert |b - a| == |b| - |a|;
    assert b - a == {};
  }

  ghost predicate NoReturnYet(ps: Participants, s: Pid, k: nat)
    requires Closed(ps) && s in ps
  {
    forall i :: 1 <= i <= k ==> Hop(ps, s, i) != s
  }

  /** When one orbit has returned, or has run past N hops, whether the graph is a ring is settled. */
  lemma OrbitDecides(ps: Participants, s: Pid, visited: nat)
    requires 2 <= |ps| && Closed(ps) && s in ps && 1 <= visited
    requires NoReturnYet(ps, s, visited - 1)
    requires Hop(ps, s, visited) == s || visited == |ps| + 1
    ensures visited == |ps| ==> IsRing(ps)
    ensures visited != |ps| ==> !IsRing(ps)
  {
    if IsRing(ps) {
      RingReturnsAtN(ps, s);
      assert !NoReturnYet(ps, s, |ps|);
    } else if visited == |ps| {
      FullOrbitIsRing(ps, s);
    }
  }

  /** The second half of `check_cyclic`: follow one orbit and compare its length with N. */
  method OrbitClosesAtN(ps: Participants, start: Pid) returns (ok: bool)
    requires 2 <= |ps| && Closed(ps) && start in ps
    ensures ok <==> IsRing(ps)
  {
    var current := start;
    var visited := 0;
    while true
      invariant 0 <= visited <= |ps|
      invariant current == Hop(ps, start, visited)
      invariant NoReturnYet(ps, start, visited)
      decreases |ps| + 1 - visited
    {
      visited := visited + 1;
      current := ps[current].target;
      if current == start {
        break;
      }
      if visited > |ps| {
        OrbitDecides(ps, start, visited);
        return false;
      }
    }
    OrbitDecides(ps, start, visited);
    return visited == |ps|;
  }

  /** The first half of `check_cyclic`: some participant has no target in the map, or itself. */
  method FindMissingTarget(ps: Participants) returns (missing: Option<Pid>)
    requires KeyedById(ps)
    ensures missing.Some? ==> missing.value in ps && !HasTarget(ps, missing.value)
    ensures missing.None? ==> forall p {:trigger HasTarget(ps, p)} :: p in ps ==> HasTarget(ps, p)
  {
    var keys := SortedKeys(ps.Keys);
    var i := 0;
    while i < |keys|
      invariant 0 <= i <= |keys|
      invariant forall p {:trigger HasTarget(ps, p)} :: p in keys[..i] ==> HasTarget(ps, p)
    {
      assert keys[i] in keys;
      var p := ps[keys[i]];
      if p.target !in ps || p.target == p.id {
        return Some(keys[i]);
      }
      i := i + 1;
    }
    assert keys[..i] == keys && forall p {:trigger HasTarget(ps, p)} :: p in ps ==> p in keys;
    return None;
  }

  /** `check_cyclic`: true exactly for rings, and the loop always ends. */
  method CheckCyclic(ps: Participants) returns (ok: bool)
    requires KeyedById(ps)
    ensures ok <==> IsRing(ps)
  {
    ok := false;
    if |ps| > 0 {
      var missing := FindMissingTarget(ps);
      if missing.Some? {
        NoTargetNoRing(ps, missing.value);
      } else {
        var start := Least(ps.Keys);
        AllHaveTargets(ps, start);
        ok := OrbitClosesAtN(ps, start);
      }
    }
  }

  /** A participant without a target, or claiming from itself, never reaches the others. */
  lemma NoTargetNoRing(ps: Participants, p: Pid)
    requires p in ps && !HasTarget(ps, p)
    ensures !IsRing(ps)
  {
    if IsRing(ps) {
      SelfLoopIsNoRing(ps, p);
    }
  }

  predicate HasTarget(ps: Participants, p: Pid) {
    p in ps && ps[p].target in ps && ps[p].target != p
  }

  lemma AllHaveTargets(ps: Participants, start: Pid)
    requires start in ps && forall p {:trigger HasTarget(ps, p)} :: p in ps ==> HasTarget(ps, p)
    ensures Closed(ps) && 2 <= |ps|
  {
    assert HasTarget(ps, start);
    TwoMembers(ps.Keys, start, ps[start].target);
    forall p {:trigger ps[p]} | p in ps
      ensures ps[p].target in ps
    {
      assert HasTarget(ps, p);
    }
  }

  lemma TwoMembers<T>(s: set<T>, a: T, b: T)
    requires a in s && b in s && a != b
    ensures 2 <= |s|
  {
    assert {a, b} <= s;
    assert |s - {a, b}| == |s| - 2;
  }

  /** A participant that claims from itself never reaches the others. */
  lemma SelfLoopIsNoRing(ps: Participants, p: Pid)
    requires p in ps && ps[p].target == p
    ensures !IsRing(ps)
  {
    if IsRing(ps) {
      RingReturnsAtN(ps, p);
      assert Hop(ps, p, 1) == p;
    }
  }

  // ---------- distance from the leader ----------

  /** The number of hops, at least one, from the leader to `from`. */
  function DistanceAfter(ps: Participants, leader: Pid, from: Pid, k: nat): (d: nat)
    requires Closed(ps) && leader in ps
    requires exists j :: k <= j <= |ps| && Hop(ps, leader, j) == from
    ensures k <= d <= |ps|
    decreases |ps| - k
  {
    if Hop(ps, leader, k) == from then k else DistanceAfter(ps, leader, from, k + 1)
  }

  lemma {:induction false} DistanceAfterIs(ps: Participants, leader: Pid, from: Pid, k: nat)
    requires Closed(ps) && leader in ps
    requires exists j :: k <= j <= |ps| && Hop(ps, leader, j) == from
    ensures Hop(ps, leader, DistanceAfter(ps, leader, from, k)) == from
    ensures forall i {:trigger Hop(ps, leader, i)} :: k <= i < DistanceAfter(ps, leader, from, k) ==> Hop(ps, leader, i) != from
    decreases |ps| - k
  {
    if Hop(ps, leader, k) != from {
      DistanceAfterIs(ps, leader, from, k + 1);
    }
  }

  lemma DistanceExists(ps: Participants, leader: Pid, from: Pid)
    requires IsRing(ps) && leader in ps && from in ps
    ensures exists j :: 1 <= j <= |ps| && Hop(ps, leader, j) == from
  {
    RingReturnsAtN(ps, leader);
    assert Reaches(ps, leader, from);
    var m: nat :| Hop(ps, leader, m) == from;
    var i := HopWithinOrbit(ps, leader, |ps|, m);
    if i == 0 {
      assert Hop(ps, leader, |ps|) == from;
    }
  }

  function Distance(ps: Participants, leader: Pid, from: Pid): (d: nat)
    requires IsRing(ps) && leader in ps && from in ps
    ensures 1 <= d <= |ps|
  {
    DistanceExists(ps, leader, from);
    DistanceAfter(ps, leader, from, 1)
  }

  /** It is the least number of hops that leads there. */
  lemma DistanceIs(ps: Participants, leader: Pid, from: Pid)
    requires IsRing(ps) && leader in ps && from in ps
    ensures Hop(ps, leader, Distance(ps, leader, from)) == from
    ensures forall i {:trigger Hop(ps, leader, i)} :: 1 <= i < Distance(ps, leader, from) ==> Hop(ps, leader, i) != from
  {
    DistanceExists(ps, leader, from);
    DistanceAfterIs(ps, leader, from, 1);
  }

  datatype Walk = Arrived(distance: nat) | Panicked

  /** `distance_from_leader` on any map at all: it arrives with the least number of hops (at least
      one, and at most one more than there are participants), and panics exactly when a target is
      missing or no such walk exists. */
  method DistanceFromLeader(ps: Participants, from: Pid, leader: Pid) returns (r: Walk)
    ensures r.Arrived? ==> r.distance <= |ps| + 1 && WalksTo(ps, leader, from, r.distance)
    ensures r.Arrived? ==> forall k :: 1 <= k < r.distance ==> !WalksTo(ps, leader, from, k)
    ensures r.Panicked? ==> forall k :: 1 <= k <= |ps| + 1 ==> !WalksTo(ps, leader, from, k)
    ensures IsRing(ps) && leader in ps && from in ps ==> r == Arrived(Distance(ps, leader, from))
  {
    var current := leader;
    var distance := 0;
    if IsRing(ps) && leader in ps && from in ps {
      DistanceExists(ps, leader, from);
      RingWalk(ps, leader, from);
    }
    while true
      invariant 0 <= distance <= |ps|
      invariant Walked(ps, leader, distance) == Some(current)
      invariant forall k :: 1 <= k <= distance ==> !WalksTo(ps, leader, from, k)
      decreases |ps| + 1 - distance
    {
      if current !in ps {
        WalkStops(ps, leader, distance);
        return Panicked;
      }
      var target := ps[current].target;
      distance := distance + 1;
      if target == from {
        assert WalksTo(ps, leader, from, distance);
        return Arrived(distance);
      }
      assert !WalksTo(ps, leader, from, distance);
      current := target;
      if distance > |ps| {
        assert distance == |ps| + 1;
        return Panicked;
      }
    }
  }

  /** The id reached after `k` lookups, if every lookup on the way succeeds. */
  function Walked(ps: Participants, p: Pid, k: nat): Option<Pid> {
    if k == 0 then Some(p)
    else match Walked(ps, p, k - 1)
      case Some(q) => if q in ps then Some(ps[q].target) else None
      case None => None
  }

  predicate WalksTo(ps: Participants, p: Pid, q: Pid, k: nat) {
    1 <= k && Walked(ps, p, k) == Some(q)
  }

  lemma {:induction false} WalkStops(ps: Participants, p: Pid, k: nat)
    requires Walked(ps, p, k).Some? && Walked(ps, p, k).value !in ps
    ensures forall m :: k < m ==> Walked(ps, p, m) == None
  {
    forall m | k < m
      ensures Walked(ps, p, m) == None
    {
      StaysStopped(ps, p, k + 1, m);
    }
  }

  lemma {:induction false} StaysStopped(ps: Participants, p: Pid, k: nat, m: nat)
    requires k <= m && Walked(ps, p, k) == None
    ensures Walked(ps, p, m) == None
  {
    if k < m {
      StaysStopped(ps, p, k, m - 1);
    }
  }

  lemma {:induction false} WalkIsHop(ps: Participants, p: Pid, k: nat)
    requires Closed(ps) && p in ps
    ensures Walked(ps, p, k) == Some(Hop(ps, p, k))
  {
    if k > 0 {
      WalkIsHop(ps, p, k - 1);
    }
  }

  lemma RingWalk(ps: Participants, leader: Pid, from: Pid)
    requires IsRing(ps) && leader in ps && from in ps
    ensures WalksTo(ps, leader, from, Distance(ps, leader, from))
    ensures forall k :: 1 <= k < Distance(ps, leader, from) ==> !WalksTo(ps, leader, from, k)
  {
    DistanceIs(ps, leader, from);
    WalkIsHop(ps, leader, Distance(ps, leader, from));
    forall k | 1 <= k < Distance(ps, leader, from)
      ensures !WalksTo(ps, leader, from, k)
    {
      WalkIsHop(ps, leader, k);
    }
  }

  /** The leader is last, at distance N. */
  lemma LeaderIsLast(ps: Participants, leader: Pid)
    requires IsRing(ps) && leader in ps
    ensures Distance(ps, leader, leader) == |ps|
  {
    RingReturnsAtN(ps, leader);
    DistanceIs(ps, leader, leader);
  }

  /** A non-leader's target is exactly one hop further from the leader than itself. */
  lemma TargetIsNext(ps: Participants, leader: Pid, p: Pid)
    requires IsRing(ps) && leader in ps && p in ps && p != leader
    ensures ps[p].target in ps
    ensures Distance(ps, leader, ps[p].target) == Distance(ps, leader, p) + 1
  {
    var n := |ps|;
    var d := Distance(ps, leader, p);
    RingReturnsAtN(ps, leader);
    OrbitDistinct(ps, leader, n);
    DistanceIs(ps, leader, p);
    assert d < n;
    var t := ps[p].target;
    assert Hop(ps, leader, d + 1) == t;
    DistanceIs(ps, leader, t);
    var e := Distance(ps, leader, t);
    if e < d + 1 {
      assert false;
    }
  }

  /** The leader's own target has distance one: the first window to open. */
  lemma LeaderTargetIsFirst(ps: Participants, leader: Pid)
    requires IsRing(ps) && leader in ps
    ensures ps[leader].target in ps && ps[leader].target != leader
    ensures Distance(ps, leader, ps[leader].target) == 1
  {
    DistanceIs(ps, leader, ps[leader].target);
    assert Hop(ps, leader, 1) == ps[leader].target;
    if ps[leader].target == leader {
      SelfLoopIsNoRing(ps, leader);
    }
  }

  ghost predicate Occupied(ps: Participants, leader: Pid, d: int)
    requires IsRing(ps) && leader in ps
  {
    exists p :: p in ps && Distance(ps, leader, p) == d
  }

  /** Distances are pairwise different, and every value from 1 to N is taken: a bijection. */
  lemma DistanceBijection(ps: Participants, leader: Pid)
    requires IsRing(ps) && leader in ps
    ensures forall p, q :: p in ps && q in ps && Distance(ps, leader, p) == Distance(ps, leader, q) ==> p == q
    ensures forall d {:trigger Occupied(ps, leader, d)} :: 1 <= d <= |ps| ==> Occupied(ps, leader, d)
  {
    forall p, q | p in ps && q in ps && Distance(ps, leader, p) == Distance(ps, leader, q)
      ensures p == q
    {
      DistanceIs(ps, leader, p);
      DistanceIs(ps, leader, q);
    }
    forall d {:trigger Occupied(ps, leader, d)} | 1 <= d <= |ps|
      ensures Occupied(ps, leader, d)
    {
      RingReturnsAtN(ps, leader);
      OrbitDistinct(ps, leader, |ps|);
      var p := Hop(ps, leader, d);
      DistanceIs(ps, leader, p);
      var e := Distance(ps, leader, p);
      assert e <= d;
      assert d <= e;
    }
  }

  /** Only one participant claims from each participant. */
  lemma ClaimantIsUnique(ps: Participants, p: Pid, q: Pid)
    requires IsRing(ps) && p in ps && q in ps && ps[p].target == ps[q].target
    ensures p == q
  {
    var n := |ps|;
    RingReturnsAtN(ps, p);
    OrbitDistinct(ps, p, n);
    assert Reaches(ps, p, q);
    var m: nat :| Hop(ps, p, m) == q;
    var i := HopWithinOrbit(ps, p, n, m);
    assert Hop(ps, p, i + 1) == ps[q].target == Hop(ps, p, 1);
    if i != 0 {
      SelfLoopIsNoRing(ps, p);
    }
  }
}
