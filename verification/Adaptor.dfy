/** Adaptor algebra (swap-daemon/src/cryptography/multisig.rs, swap-daemon/src/utils.rs).

    A point of a cyclic group of prime order with generator G is represented by its discrete
    logarithm, so scalars and points are both residues and multiplying by G is the identity. The
    y-coordinate parity of a point is an arbitrary predicate that separates a point from its inverse. */
module Adaptor {
  import opened Ring

  datatype Group = Group(order: nat, evenY: int -> bool) {
    ghost predicate Valid() {
      && 3 <= order && order % 2 == 1
      && forall x {:trigger Splits(x)} :: 0 < x < order ==> Splits(x)
    }

    /** Of a point and its inverse exactly one has an even y-coordinate. */
    predicate Splits(x: int) { evenY(x) != evenY(order - x) }

    predicate Has(x: int) { 0 <= x < order }

    function Add(a: int, b: int): (c: int)
      ensures Has(a) && Has(b) ==> Has(c)
    {
      if a + b < order then a + b else a + b - order
    }

    function Neg(a: int): (c: int)
      ensures Has(a) ==> Has(c)
    {
      if a == 0 then 0 else order - a
    }

    function Sub(a: int, b: int): (c: int)
      ensures Has(a) && Has(b) ==> Has(c)
    {
      Add(a, Neg(b))
    }
  }

  // ---------- pre-signatures, signatures and the secret between them ----------

  /** A nonce point and a scalar: a pre-signature, or a signature whose nonce was lifted. */
  datatype Sig = Sig(nonce: int, s: int) {
    predicate In(g: Group) { g.Has(nonce) && g.Has(s) }
  }

  /** The x-only encoding forgets the sign of the nonce; decoding picks the even point. */
  function Lift(g: Group, p: int): int {
    if g.evenY(p) then p else g.Neg(p)
  }

  /** The signature library's `adapt`, followed by publication; none when the nonce is infinite. */
  function Adapt(g: Group, pre: Sig, t: int): Option<Sig> {
    var r := g.Add(pre.nonce, t);
    if r == 0 then None
    else Some(Sig(Lift(g, r), if g.evenY(r) then g.Add(pre.s, t) else g.Sub(pre.s, t)))
  }

  datatype Extracted = Secret(t: int) | NoMatch | Panic

  /** `compute_adaptor_secret`; unwrapping a zero scalar panics. */
  function ComputeSecret(g: Group, pre: Sig, full: Sig): Extracted {
    if pre.s == 0 || full.s == 0 then Panic
    else
      var d := g.Sub(full.s, pre.s);
      if d == g.Sub(full.nonce, pre.nonce) then
        if d == 0 then Panic else Secret(d)
      else if d == g.Add(full.nonce, pre.nonce) then
        if d == 0 then Panic else Secret(g.Neg(d))
      else NoMatch
  }

  /** For every pre-signature with a finite nonce and every published signature, a secret is
      extracted exactly when the signature is the pre-signature adapted with that very secret.
      So adapting and extracting are inverse for both parities, and a signature that is no
      adaptation, such as a refund's, yields no secret. */
  lemma ExtractIffAdapted(g: Group, pre: Sig, full: Sig, t: int)
    requires g.Valid() && pre.In(g) && full.In(g) && 0 < t < g.order
    requires pre.nonce != 0 && pre.s != 0 && full.s != 0
    requires full.nonce != 0 && g.evenY(full.nonce)
    ensures ComputeSecret(g, pre, full) == Secret(t) <==> Adapt(g, pre, t) == Some(full)
  {
    if Adapt(g, pre, t) == Some(full) {
      AdaptedExtracts(g, pre, full, t);
    }
    if ComputeSecret(g, pre, full) == Secret(t) {
      ExtractedAdapts(g, pre, full, t);
    }
  }

  lemma AdaptedExtracts(g: Group, pre: Sig, full: Sig, t: int)
    requires g.Valid() && pre.In(g) && 0 < t < g.order
    requires pre.nonce != 0 && pre.s != 0 && full.s != 0
    requires Adapt(g, pre, t) == Some(full)
    ensures ComputeSecret(g, pre, full) == Secret(t)
  {
    var r := g.Add(pre.nonce, t);
    assert g.Splits(r);
    if g.evenY(r) {
      assert g.Sub(full.s, pre.s) == t && g.Sub(full.nonce, pre.nonce) == t;
    } else {
      // the first test would need twice the nonce to vanish, which an odd order excludes
      assert g.Sub(full.s, pre.s) == g.Neg(t);
      assert g.Add(full.nonce, pre.nonce) == g.Neg(t);
      assert g.Sub(full.nonce, pre.nonce) != g.Neg(t);
    }
  }

  lemma ExtractedAdapts(g: Group, pre: Sig, full: Sig, t: int)
    requires g.Valid() && pre.In(g) && full.In(g) && 0 < t < g.order
    requires full.nonce != 0 && g.evenY(full.nonce)
    requires ComputeSecret(g, pre, full) == Secret(t)
    ensures Adapt(g, pre, t) == Some(full)
  {
    var r := g.Add(pre.nonce, t);
    var d := g.Sub(full.s, pre.s);
    assert g.Splits(full.nonce);
    if d == g.Sub(full.nonce, pre.nonce) {
      assert r == full.nonce;
    } else {
      assert r == g.Neg(full.nonce);
    }
  }

  /** Without the assumption on the nonce: extraction returns the secret exactly when the nonce is
      finite or the adapted nonce is even. */
  lemma RoundTripExact(g: Group, pre: Sig, full: Sig, t: int)
    requires g.Valid() && pre.In(g) && 0 < t < g.order
    requires pre.s != 0 && Adapt(g, pre, t) == Some(full) && full.s != 0
    ensures full.In(g)
    ensures ComputeSecret(g, pre, full) == Secret(t) <==> pre.nonce != 0 || g.evenY(g.Add(pre.nonce, t))
  {
    var r := g.Add(pre.nonce, t);
    assert g.Splits(r);
    if pre.nonce != 0 {
      AdaptedExtracts(g, pre, full, t);
    }
  }

  // ---------- aggregating over a hash map ----------

  ghost predicate Entries(g: Group, m: map<Pid, int>) {
    forall p :: p in m ==> 0 < m[p] < g.order
  }

  /** The values of `m` in some iteration order of the map. */
  function Values(m: map<Pid, int>, order: seq<Pid>): (r: seq<int>)
    requires forall p :: p in order ==> p in m
    ensures |r| == |order| && forall i :: 0 <= i < |r| ==> r[i] == m[order[i]]
  {
    seq(|order|, i requires 0 <= i < |order| => m[order[i]])
  }

  ghost predicate Enumerates(order: seq<Pid>, s: set<Pid>) {
    && (forall p :: p in order <==> p in s)
    && forall i, j :: 0 <= i < j < |order| ==> order[i] != order[j]
  }

  /** `iter.fold(first, combine)` of the source: combining to the neutral element panics. */
  function Fold(g: Group, acc: int, rest: seq<int>): (r: Option<int>)
    decreases |rest|
  {
    if rest == [] then Some(acc)
    else if g.Add(acc, rest[0]) == 0 then None
    else Fold(g, g.Add(acc, rest[0]), rest[1..])
  }

  /** `aggregate_adaptor_point` and `aggregate_adaptor_secret` in one iteration order; an empty map
      has no first value and panics. */
  function Aggregate(g: Group, values: seq<int>): Option<int> {
    if values == [] then None else Fold(g, values[0], values[1..])
  }

  ghost predicate AllIn(g: Group, values: seq<int>) {
    forall i :: 0 <= i < |values| ==> g.Has(values[i])
  }

  function Total(g: Group, values: seq<int>): (r: int) {
    if values == [] then 0 else g.Add(Total(g, values[..|values| - 1]), values[|values| - 1])
  }

  lemma {:induction false} TotalInRange(g: Group, values: seq<int>)
    requires 0 < g.order && AllIn(g, values)
    ensures g.Has(Total(g, values))
  {
    if values != [] {
      TotalInRange(g, values[..|values| - 1]);
    }
  }

  lemma {:induction false} TotalSplit(g: Group, a: seq<int>, b: seq<int>)
    requires 0 < g.order && AllIn(g, a) && AllIn(g, b)
    ensures Total(g, a + b) == g.Add(Total(g, a), Total(g, b))
  {
    TotalInRange(g, a);
    if b == [] {
      assert a + b == a;
    } else {
      var n := |b| - 1;
      TotalSplit(g, a, b[..n]);
      TotalInRange(g, b[..n]);
      assert (a + b)[..|a + b| - 1] == a + b[..n];
      assert (a + b)[|a + b| - 1] == b[n];
    }
  }

  /** Some intermediate sum of at least two values is the neutral element. */
  ghost predicate MeetsNeutral(g: Group, values: seq<int>) {
    exists k :: 2 <= k <= |values| && NeutralPrefix(g, values, k)
  }

  ghost predicate NeutralPrefix(g: Group, values: seq<int>, k: int) {
    0 <= k <= |values| && Total(g, values[..k]) == 0
  }

  /** The fold yields the sum, and fails exactly when some intermediate sum is neutral. `acc` is the
      sum of the values `done` so far. */
  lemma {:induction false} FoldIsTotal(g: Group, done: seq<int>, rest: seq<int>)
    requires 0 < g.order && AllIn(g, done + rest) && 1 <= |done|
    ensures Fold(g, Total(g, done), rest).Some? ==> Fold(g, Total(g, done), rest) == Some(Total(g, done + rest))
    ensures Fold(g, Total(g, done), rest).None? <==> exists k :: |done| < k <= |done + rest| && NeutralPrefix(g, done + rest, k)
    decreases |rest|
  {
    if rest == [] {
      assert done + rest == done;
    } else {
      var next := done + [rest[0]];
      assert next[..|done|] == done;
      assert Total(g, next) == g.Add(Total(g, done), rest[0]);
      assert next + rest[1..] == done + rest;
      FoldIsTotal(g, next, rest[1..]);
      assert (done + rest)[..|next|] == next;
      assert NeutralPrefix(g, done + rest, |next|) <==> Total(g, next) == 0;
    }
  }

  lemma AggregateIsTotal(g: Group, values: seq<int>)
    requires 0 < g.order && AllIn(g, values) && values != []
    ensures Aggregate(g, values).Some? ==> Aggregate(g, values) == Some(Total(g, values))
    ensures Aggregate(g, values).None? <==> MeetsNeutral(g, values)
  {
    var first := [values[0]];
    assert first[..0] == [];
    assert Total(g, first) == values[0];
    assert first + values[1..] == values;
    FoldIsTotal(g, first, values[1..]);
  }

  /** The sum of the entries of `m` at the keys in `s`. */
  function SumOver(g: Group, m: map<Pid, int>, s: set<Pid>): (r: int)
    requires s <= m.Keys
  {
    if s == {} then 0 else
      var p := Least(s);
      g.Add(SumOver(g, m, s - {p}), m[p])
  }

  lemma {:induction false} SumInRange(g: Group, m: map<Pid, int>, s: set<Pid>)
    requires Entries(g, m) && 0 < g.order && s <= m.Keys
    ensures g.Has(SumOver(g, m, s))
    decreases |s|
  {
    if s != {} {
      SumInRange(g, m, s - {Least(s)});
    }
  }

  lemma {:induction false} SumRemove(g: Group, m: map<Pid, int>, s: set<Pid>, p: Pid)
    requires 0 < g.order && s <= m.Keys && Entries(g, m) && p in s
    ensures SumOver(g, m, s) == g.Add(SumOver(g, m, s - {p}), m[p])
    decreases |s|
  {
    var l := Least(s);
    if l != p {
      SumRemove(g, m, s - {l}, p);
      SumRemove(g, m, s - {p}, l);
      SumInRange(g, m, s - {l} - {p});
      assert s - {l} - {p} == s - {p} - {l};
    }
  }

  /** Any enumeration of a set of keys sums to the same total. */
  lemma {:induction false} TotalIsSum(g: Group, m: map<Pid, int>, order: seq<Pid>, s: set<Pid>)
    requires 0 < g.order && s <= m.Keys && Entries(g, m)
    requires Enumerates(order, s)
    ensures AllIn(g, Values(m, order)) && Total(g, Values(m, order)) == SumOver(g, m, s)
  {
    if order == [] {
      assert s == {};
    } else {
      var n := |order| - 1;
      var last := order[n];
      DropLast(order, s);
      TotalIsSum(g, m, order[..n], s - {last});
      assert Values(m, order)[..n] == Values(m, order[..n]);
      SumRemove(g, m, s, last);
      forall i | 0 <= i < |order|
        ensures g.Has(Values(m, order)[i])
      {
        assert order[i] in order;
      }
    }
  }

  lemma DropLast(order: seq<Pid>, s: set<Pid>)
    requires Enumerates(order, s) && order != []
    ensures order[|order| - 1] in s && Enumerates(order[..|order| - 1], s - {order[|order| - 1]})
  {
    var n := |order| - 1;
    assert order == order[..n] + [order[n]];
    assert order[n] in order;
  }

  /** Whichever order the hash map is iterated in, a successful aggregation is the same sum. */
  lemma AggregateIsOrderFree(g: Group, m: map<Pid, int>, order: seq<Pid>)
    requires 0 < g.order && Entries(g, m) && Enumerates(order, m.Keys)
    ensures Aggregate(g, Values(m, order)).Some? ==> Aggregate(g, Values(m, order)) == Some(SumOver(g, m, m.Keys))
  {
    TotalIsSum(g, m, order, m.Keys);
    if order != [] {
      AggregateIsTotal(g, Values(m, order));
    }
  }

  ghost predicate SucceedsInEveryOrder(g: Group, m: map<Pid, int>) {
    forall order :: Enumerates(order, m.Keys) ==> Aggregate(g, Values(m, order)).Some?
  }

  ghost predicate NothingCancels(g: Group, m: map<Pid, int>) {
    forall s: set<Pid> {:trigger SumOver(g, m, s)} :: s != {} && s <= m.Keys ==> SumOver(g, m, s) != 0
  }

  /** Whether the aggregation panics can depend on the iteration order. It succeeds in every order
      exactly when no non-empty group of entries cancels out. */
  lemma AggregateAlwaysSucceeds(g: Group, m: map<Pid, int>)
    requires 0 < g.order && Entries(g, m) && m != map[]
    ensures SucceedsInEveryOrder(g, m) <==> NothingCancels(g, m)
  {
    if NothingCancels(g, m) {
      forall order | Enumerates(order, m.Keys)
        ensures Aggregate(g, Values(m, order)).Some?
      {
        NoCancellationSucceeds(g, m, order);
      }
    } else {
      var s: set<Pid> :| s != {} && s <= m.Keys && SumOver(g, m, s) == 0;
      CancellingOrder(g, m, s);
    }
  }

  ghost function Met(order: seq<Pid>, k: nat): set<Pid>
    requires k <= |order|
  {
    set p | p in order[..k]
  }

  lemma PrefixEnumerates(order: seq<Pid>, s: set<Pid>, k: nat)
    requires Enumerates(order, s) && k <= |order|
    ensures Met(order, k) <= s && Enumerates(order[..k], Met(order, k))
  {
    assert forall p :: p in order[..k] ==> p in order;
  }

  /** The sum accumulated after `k` entries is the sum over the keys met so far. */
  lemma PrefixIsSum(g: Group, m: map<Pid, int>, order: seq<Pid>, k: nat)
    requires 0 < g.order && Entries(g, m) && Enumerates(order, m.Keys) && k <= |order|
    ensures Met(order, k) <= m.Keys && Total(g, Values(m, order)[..k]) == SumOver(g, m, Met(order, k))
  {
    PrefixEnumerates(order, m.Keys, k);
    TotalIsSum(g, m, order[..k], Met(order, k));
    assert Values(m, order)[..k] == Values(m, order[..k]);
  }

  lemma NoCancellationSucceeds(g: Group, m: map<Pid, int>, order: seq<Pid>)
    requires 0 < g.order && Entries(g, m) && m != map[] && Enumerates(order, m.Keys)
    requires NothingCancels(g, m)
    ensures Aggregate(g, Values(m, order)).Some?
  {
    TotalIsSum(g, m, order, m.Keys);
    var p :| p in m;
    assert p in order;
    AggregateIsTotal(g, Values(m, order));
    forall k | 2 <= k <= |order|
      ensures !NeutralPrefix(g, Values(m, order), k)
    {
      PrefixIsSum(g, m, order, k);
      assert order[..k][0] in Met(order, k);
    }
  }

  /** An order that meets a cancelling group first fails. */
  lemma CancellingOrder(g: Group, m: map<Pid, int>, s: set<Pid>)
    requires 0 < g.order && Entries(g, m) && s != {} && s <= m.Keys && SumOver(g, m, s) == 0
    ensures !SucceedsInEveryOrder(g, m)
  {
    var order := OrderMeeting(m.Keys, s);
    AtLeastTwo(g, m, s);
    NeutralFails(g, m, order, |s|);
  }

  lemma OrderMeeting(all: set<Pid>, s: set<Pid>) returns (order: seq<Pid>)
    requires s <= all
    ensures Enumerates(order, all) && |s| <= |order| && Met(order, |s|) == s
  {
    order := SortedKeys(s) + SortedKeys(all - s);
    SortedKeysLength(s);
    GroupFirst(all, s);
    GroupIsMet(all, s);
  }

  lemma NeutralFails(g: Group, m: map<Pid, int>, order: seq<Pid>, k: nat)
    requires 0 < g.order && Entries(g, m) && Enumerates(order, m.Keys) && 2 <= k <= |order|
    requires Met(order, k) <= m.Keys && SumOver(g, m, Met(order, k)) == 0
    ensures Aggregate(g, Values(m, order)).None?
  {
    PrefixIsSum(g, m, order, k);
    TotalIsSum(g, m, order, m.Keys);
    AggregateIsTotal(g, Values(m, order));
    assert NeutralPrefix(g, Values(m, order), k);
  }

  lemma GroupIsMet(all: set<Pid>, s: set<Pid>)
    requires s <= all
    ensures Met(SortedKeys(s) + SortedKeys(all - s), |SortedKeys(s)|) == s
  {
    var a, b := SortedKeys(s), SortedKeys(all - s);
    assert (a + b)[..|a|] == a;
  }

  lemma GroupFirst(all: set<Pid>, s: set<Pid>)
    requires s <= all
    ensures Enumerates(SortedKeys(s) + SortedKeys(all - s), all)
  {
    var a, b := SortedKeys(s), SortedKeys(all - s);
    forall i, j | 0 <= i < j < |a + b|
      ensures (a + b)[i] != (a + b)[j]
    {
      if i < |a| <= j {
        assert (a + b)[i] in a && (a + b)[j] in b;
      }
    }
    assert forall p :: p in a + b <==> p in a || p in b;
  }

  /** A single entry is never neutral. */
  lemma AtLeastTwo(g: Group, m: map<Pid, int>, s: set<Pid>)
    requires 0 < g.order && Entries(g, m) && s != {} && s <= m.Keys && SumOver(g, m, s) == 0
    ensures 2 <= |s|
  {
    var p := Least(s);
    SingleSum(g, m, p);
    var q :| q in s - {p};
    assert {p, q} <= s;
    assert |s - {p, q}| == |s| - 2;
  }

  lemma SingleSum(g: Group, m: map<Pid, int>, p: Pid)
    requires Entries(g, m) && p in m
    ensures SumOver(g, m, {p}) == m[p]
  {
    assert Least({p}) == p;
    assert {p} - {p} == {};
  }

  // ---------- everyone adapts with the same secret ----------

  /** The leader adds up all secrets in any order and publishes; whoever extracts from the published
      signature gets the same scalar, and that scalar opens the sum of all adaptor points. */
  lemma LeaderAndFollowersAgree(g: Group, secrets: map<Pid, int>, order: seq<Pid>, pre: Sig, full: Sig, t: int)
    requires g.Valid() && Entries(g, secrets) && Enumerates(order, secrets.Keys)
    requires Aggregate(g, Values(secrets, order)) == Some(t) && t != 0
    requires g.Has(t) && pre.In(g) && pre.nonce != 0 && pre.s != 0 && Adapt(g, pre, t) == Some(full) && full.s != 0
    ensures full.In(g) && ComputeSecret(g, pre, full) == Secret(SumOver(g, secrets, secrets.Keys))
  {
    AggregateIsOrderFree(g, secrets, order);
    RoundTripExact(g, pre, full, t);
  }

  /** A follower stores the extracted sum under the leader's id. Aggregating its map again would
      give the right scalar only if all other stored secrets cancelled out: this is why the
      extracted scalar is passed on directly. */
  lemma ReaggregationDoubleCounts(g: Group, secrets: map<Pid, int>, leader: Pid, t: int)
    requires 0 < g.order && Entries(g, secrets) && 0 < t < g.order
    ensures SumOver(g, secrets[leader := t], secrets.Keys + {leader}) == t
       <==> SumOver(g, secrets, secrets.Keys - {leader}) == 0
  {
    var after := secrets[leader := t];
    SumRemove(g, after, secrets.Keys + {leader}, leader);
    assert secrets.Keys + {leader} - {leader} == secrets.Keys - {leader};
    SameEntriesSameSum(g, after, secrets, secrets.Keys - {leader});
    SumInRange(g, secrets, secrets.Keys - {leader});
  }

  /** Nothing in the setup binds a point before the others are seen: whatever the other entries, for every
      sum at most one entry under a given id makes it the sum of all, and it follows from them. */
  lemma OneEntryDecides(g: Group, points: map<Pid, int>, id: Pid, entry: int, sum: int)
    requires 0 < g.order && Entries(g, points) && id in points && 0 < entry < g.order && g.Has(sum)
    ensures SumOver(g, points[id := entry], points.Keys) == sum
       <==> entry == g.Sub(sum, SumOver(g, points, points.Keys - {id}))
  {
    var after := points[id := entry];
    assert after.Keys == points.Keys;
    SumRemove(g, after, points.Keys, id);
    SameEntriesSameSum(g, after, points, points.Keys - {id});
    SumInRange(g, points, points.Keys - {id});
  }

  lemma {:induction false} SameEntriesSameSum(g: Group, a: map<Pid, int>, b: map<Pid, int>, s: set<Pid>)
    requires s <= a.Keys && s <= b.Keys
    requires forall p :: p in s ==> a[p] == b[p]
    ensures SumOver(g, a, s) == SumOver(g, b, s)
    decreases |s|
  {
    if s != {} {
      SameEntriesSameSum(g, a, b, s - {Least(s)});
    }
  }
}
