/** What the functions of the protocol compute, in terms of the agreed parameters alone: who is elected, what
    the locks, refunds and spends say and to whom they pay, and when a timelock has passed. */
module Contents {
  import opened Ring
  import opened Timelocks
  import opened Protocol

  // ---------- the election ----------

  lemma {:induction false} RemainderIs(a: nat, n: nat)
    requires 0 < n
    ensures Remainder(a, n) == a % n
  {
    if a >= n {
      RemainderIs(a - n, n);
      assert a % n == (a - n) % n by { OneLess(a, n); }
    }
  }

  lemma OneLess(a: nat, n: nat)
    requires 0 < n <= a
    ensures a % n == (a - n) % n
  {
    var q, r := (a - n) / n, (a - n) % n;
    assert a == (q + 1) * n + r;
    UniqueRemainder(a, n, q + 1, r);
  }

  lemma UniqueRemainder(a: nat, n: nat, q: int, r: nat)
    requires 0 < n && r < n && a == q * n + r
    ensures a % n == r
  {
    var k := a / n;
    assert a == k * n + a % n;
    SameQuotient(n, q, r, k, a % n);
  }

  lemma SameQuotient(n: nat, q: int, r: nat, k: int, t: nat)
    requires r < n && t < n && q * n + r == k * n + t
    ensures r == t
  {
    var d := q - k;
    assert d * n == t - r;
    if d >= 1 {
      ProductMonotone(1, d, n);
    } else if d <= -1 {
      assert (-d) * n == r - t;
      ProductMonotone(1, -d, n);
    }
  }

  /** The first eight bytes as one number, the first byte weighing most. */
  function FirstWord(seed: Bytes32): nat {
    var byte: seq<int> := seed;
    byte[0] * 0x100_0000_0000_0000 + byte[1] * 0x1_0000_0000_0000 + byte[2] * 0x100_0000_0000 + byte[3] * 0x1_0000_0000
    + byte[4] * 0x100_0000 + byte[5] * 0x1_0000 + byte[6] * 0x100 + byte[7]
  }

  lemma NextByte(seed: Bytes32, k: nat)
    requires k < 32
    ensures BigEndian(seed[..k + 1]) == 256 * BigEndian(seed[..k]) + seed[k]
  {
    assert seed[..k + 1][..k] == seed[..k];
  }

  lemma FirstWordIs(seed: Bytes32)
    ensures BigEndian(seed[..8]) == FirstWord(seed)
  {
    assert BigEndian(seed[..0]) == 0;
    hide BigEndian;
    NextByte(seed, 0);
    NextByte(seed, 1);
    NextByte(seed, 2);
    NextByte(seed, 3);
    NextByte(seed, 4);
    NextByte(seed, 5);
    NextByte(seed, 6);
    NextByte(seed, 7);
  }

  /** The elected index is the first eight bytes of the hash, read as one number, modulo the number of
      participants. */
  lemma IndexIs(seed: Bytes32, n: nat)
    requires 0 < n
    ensures LeaderIndex(seed, n)
         == (seed[0] * 0x100_0000_0000_0000 + seed[1] * 0x1_0000_0000_0000 + seed[2] * 0x100_0000_0000
             + seed[3] * 0x1_0000_0000 + seed[4] * 0x100_0000 + seed[5] * 0x1_0000 + seed[6] * 0x100 + seed[7]) % n
  {
    hide BigEndian, Remainder;
    FirstWordIs(seed);
    RemainderIs(BigEndian(seed[..8]), n);
  }

  /** The hash that starts with seven zero bytes and `k`. */
  function HashOf(k: Byte): (seed: Bytes32)
    ensures FirstWord(seed) == k
  {
    [0, 0, 0, 0, 0, 0, 0, k] + seq(24, i => 0)
  }

  /** Every index is elected by some hash. */
  lemma EveryIndex(n: nat, k: nat)
    requires 0 < n <= 256 && k < n
    ensures exists seed: Bytes32 :: LeaderIndex(seed, n) == k
  {
    hide LeaderIndex, FirstWord, HashOf;
    IndexIs(HashOf(k), n);
    assert FirstWord(HashOf(k)) % n == k by {
      UniqueRemainder(k, n, 0, k);
    }
    assert LeaderIndex(HashOf(k), n) == FirstWord(HashOf(k)) % n by { Unfolded(HashOf(k), n); }
  }

  lemma Unfolded(seed: Bytes32, n: nat)
    requires 0 < n
    ensures LeaderIndex(seed, n) == FirstWord(seed) % n
  {
    hide LeaderIndex;
    IndexIs(seed, n);
  }

  lemma {:induction false} IncreasingLeavesRoom(keys: seq<Pid>, i: nat)
    requires i < |keys| && forall i, j :: 0 <= i < j < |keys| ==> keys[i] < keys[j]
    ensures i <= keys[i]
  {
    if i > 0 {
      IncreasingLeavesRoom(keys, i - 1);
    }
  }

  /** Whoever takes part can be elected. */
  lemma EveryoneElectable(ps: Participants, p: Pid)
    requires p in ps
    ensures |SortedKeys(ps.Keys)| == |ps|
    ensures exists seed: Bytes32 :: LeaderIndex(seed, |ps|) < |ps| && SortedKeys(ps.Keys)[LeaderIndex(seed, |ps|)] == p
  {
    hide LeaderIndex, SortedKeys;
    SortedKeysLength(ps.Keys);
    var keys := SortedKeys(ps.Keys);
    assert p in keys;
    var k :| 0 <= k < |keys| && keys[k] == p;
    IncreasingLeavesRoom(keys, |keys| - 1);
    EveryIndex(|ps|, k);
  }

  /** The leader is the member at that index, counting in ascending order of the ids; the hash is over all
      nonces in that order. */
  lemma ElectedIs(env: Env, leaderNonces: map<Pid, Bytes32>)
    requires 0 < |env.ring|
    ensures var seed := env.sha256(Concatenated(leaderNonces, SortedKeys(leaderNonces.Keys)));
            var k := FirstWord(seed) % |env.ring|;
            k < |SortedKeys(env.ring.Keys)| && ElectedLeader(env, leaderNonces) == SortedKeys(env.ring.Keys)[k]
  {
    hide LeaderIndex, FirstWord, SortedKeys, Concatenated;
    var seed := env.sha256(Concatenated(leaderNonces, SortedKeys(leaderNonces.Keys)));
    SortedKeysLength(env.ring.Keys);
    Unfolded(seed, |env.ring|);
  }

  // ---------- locks, refunds and spends ----------

  /** The lock of `p`: its own amount on its own chain, on Cardano with the deadline of its refund window. */
  ghost predicate LockRight(env: Env, leader: Pid, p: Pid, lock: LockTx) {
    && IsRing(env.ring) && leader in env.ring && p in env.ring
    && lock.owner == p && lock.amount == env.ring[p].amountLocking
    && (lock.BitcoinLock? <==> env.ring[p].blockchain.Bitcoin?)
    && (lock.CardanoLock? ==> RefundDeadlineMs(env.ring, leader, env.anchors, env.systemStart, p) == Some(lock.deadlineMs))
  }

  /** The refund of `p`: it returns the lock of `p` to `p`, with the locktime of its window. */
  ghost predicate RefundRight(env: Env, leader: Pid, p: Pid, tx: UnsignedTx) {
    && tx.RefundTx? && tx.owner == p && LockRight(env, leader, p, tx.lock)
    && (tx.lock.BitcoinLock? ==> tx.locktime == RefundLocktimeBtc(env.ring, leader, env.anchors, p))
    && (tx.lock.CardanoLock? ==> tx.locktime == RefundLocktimeCardano(env.ring, leader, env.anchors, p))
  }

  /** The spend of `p`: it pays the lock of its target to `p`. */
  ghost predicate SpendRight(env: Env, leader: Pid, p: Pid, tx: UnsignedTx) {
    && p in env.ring && tx.SpendTx? && tx.claimant == p
    && LockRight(env, leader, env.ring[p].target, tx.lock)
  }

  ghost predicate TxRight(env: Env, leader: Pid, role: TxRole, tx: UnsignedTx) {
    match role
    case Refund(p) => RefundRight(env, leader, p, tx)
    case Spend(p) => SpendRight(env, leader, p, tx)
  }

  /** Locks are built right, and only the right one is built. */
  lemma LockIsRight(env: Env, leader: Pid, p: Pid, lock: LockTx)
    requires IsRing(env.ring) && leader in env.ring && p in env.ring
    ensures LockFor(env, leader, p) == Some(lock) <==> LockRight(env, leader, p, lock)
  {
    hide IsRing, RefundDeadlineMs;
  }

  lemma LocksAreRight(env: Env, leader: Pid, p: Pid)
    requires IsRing(env.ring) && leader in env.ring && LocksBuildable(env) && p in env.ring
    ensures p in Locks(env, leader) && LockRight(env, leader, p, Locks(env, leader)[p])
  {
    hide IsRing, LockFor, LocksBuildable, LockRight;
    LocksAreBuilt(env, leader);
    LockIsRight(env, leader, p, Locks(env, leader)[p]);
  }

  /** Of every role the right transaction is built, and no other is right. */
  lemma UnsignedIsRight(env: Env, leader: Pid, role: TxRole, tx: UnsignedTx)
    requires IsRing(env.ring) && leader in env.ring && LocksBuildable(env) && RoleInRing(env, role)
    ensures tx == UnsignedFor(env, leader, role) <==> TxRight(env, leader, role, tx)
  {
    assert LockOwner(env, role) in env.ring;
    hide IsRing, LocksBuildable, Locks, LockRight, RefundLocktimeBtc, RefundLocktimeCardano;
    var y := LockOwner(env, role);
    LocksAreRight(env, leader, y);
    LockIsRight(env, leader, y, Locks(env, leader)[y]);
    LockIsRight(env, leader, y, tx.lock);
    LockChain(env, leader, y, tx.lock);
    LockChain(env, leader, y, Locks(env, leader)[y]);
  }

  lemma LockChain(env: Env, leader: Pid, p: Pid, lock: LockTx)
    ensures LockRight(env, leader, p, lock) ==> p in env.ring && (lock.BitcoinLock? <==> env.ring[p].blockchain.Bitcoin?)
  {
    hide IsRing;
  }

  /** What is signed for a transaction: on Bitcoin the whole of it, on Cardano the lock it spends. */
  function SignedMessage(tx: UnsignedTx): SigMessage {
    if tx.lock.BitcoinLock? then Sighash(tx) else if tx.RefundTx? then PrefixedLockId(tx.lock) else LockId(tx.lock)
  }

  /** What a party signs for a role: the message of that very transaction, with the taproot tweak exactly for
      locks on Bitcoin, and with a nonce made from the seed it drew for the role. */
  lemma RoleIsRight(env: Env, leader: Pid, me: Pid, draw: Draw, role: TxRole)
    requires IsRing(env.ring) && leader in env.ring && LocksBuildable(env) && RoleInRing(env, role)
    ensures TxRight(env, leader, role, UnsignedFor(env, leader, role))
    ensures MessageFor(env, leader, role) == SignedMessage(UnsignedFor(env, leader, role))
    ensures TweakFor(env, role) <==> UnsignedFor(env, leader, role).lock.BitcoinLock?
    ensures NewNonce(env, leader, me, draw, role) == SecNonce(draw.seed(role), me, SignedMessage(UnsignedFor(env, leader, role)))
  {
    assert LockOwner(env, role) in env.ring;
    hide IsRing, LocksBuildable, Locks, UnsignedFor, LockRight;
    UnsignedIsRight(env, leader, role, UnsignedFor(env, leader, role));
    LockChain(env, leader, LockOwner(env, role), UnsignedFor(env, leader, role).lock);
  }

  /** What the first round of a role leaves in the session: the right transaction, its message with its tweak, and
      the announced nonce, made from the seed drawn for the role. */
  ghost predicate RoleBegun(env: Env, leader: Pid, t: Session, draw: Draw, role: TxRole) {
    && role in t.unsignedTxs && role in t.musig && (t.me, role) in t.nonces
    && TxRight(env, leader, role, t.unsignedTxs[role])
    && var tx := t.unsignedTxs[role];
       var sec := SecNonce(draw.seed(role), t.me, SignedMessage(tx));
       t.musig[role] == RoundOne(SignedMessage(tx), tx.lock.BitcoinLock?, sec) && t.nonces[(t.me, role)] == PubNonce(sec)
  }

  lemma OneBegun(env: Env, leader: Pid, t: Session, draw: Draw, role: TxRole)
    requires IsRing(env.ring) && leader in env.ring && LocksBuildable(env) && RoleInRing(env, role)
    ensures RoleBegun(env, leader, BeginRole(env, leader, t, draw, role), draw, role)
    ensures forall r {:trigger RoleBegun(env, leader, t, draw, r)} ::
              r != role && RoleBegun(env, leader, t, draw, r) ==> RoleBegun(env, leader, BeginRole(env, leader, t, draw, role), draw, r)
  {
    hide IsRing, LocksBuildable, UnsignedFor, MessageFor, TweakFor, NewNonce, TxRight, SignedMessage;
    RoleIsRight(env, leader, t.me, draw, role);
  }

  /** The loop over the roles opens the first round of each of them. */
  lemma {:induction false} RolesBegun(env: Env, leader: Pid, s: Session, draw: Draw, roles: seq<TxRole>)
    requires IsRing(env.ring) && leader in env.ring && LocksBuildable(env)
    requires forall r :: r in roles ==> RoleInRing(env, r)
    ensures forall r {:trigger r in roles} :: r in roles ==> RoleBegun(env, leader, BeginSigning(env, leader, s, draw, roles), draw, r)
  {
    hide IsRing, LocksBuildable, RoleInRing, RoleBegun, BeginRole;
    if roles != [] {
      var n := |roles| - 1;
      assert roles[n] in roles && forall r :: r in roles[..n] ==> r in roles;
      RolesBegun(env, leader, s, draw, roles[..n]);
      var t := BeginSigning(env, leader, s, draw, roles[..n]);
      OneBegun(env, leader, t, draw, roles[n]);
      forall r {:trigger r in roles} | r in roles
        ensures RoleBegun(env, leader, BeginRole(env, leader, t, draw, roles[n]), draw, r)
      {
        assert roles == roles[..n] + [roles[n]];
        assert r == roles[n] || RoleBegun(env, leader, t, draw, r);
      }
    }
  }

  // ---------- what they say, when the values fit ----------

  /** The deadline of a Cardano lock and the locktime of a refund are the intended ones. */
  lemma LockSays(env: Env, leader: Pid, p: Pid, lock: LockTx)
    requires LockRight(env, leader, p, lock) && CardanoFits(env.ring, env.anchors, env.systemStart) && lock.CardanoLock?
    ensures lock.deadlineMs
         == (env.systemStart + env.anchors.startSlot + Distance(env.ring, leader, p) * env.anchors.window) * 1000
  {
    hide IsRing, Distance, RefundDeadlineMs;
    CardanoValues(env.ring, leader, env.anchors, env.systemStart, p);
  }

  lemma RefundSays(env: Env, leader: Pid, p: Pid, tx: UnsignedTx)
    requires RefundRight(env, leader, p, tx)
    ensures tx.lock.BitcoinLock? && BtcFits(env.ring, env.anchors) ==>
              tx.locktime == env.anchors.startBlock + Distance(env.ring, leader, p) * CeilBlocks(env.anchors.window)
    ensures tx.lock.CardanoLock? && CardanoFits(env.ring, env.anchors, env.systemStart) ==>
              tx.locktime == env.anchors.startSlot + Distance(env.ring, leader, p) * env.anchors.window
  {
    hide IsRing, Distance, RefundLocktimeBtc, RefundLocktimeCardano, RefundDeadlineMs, BtcFits, CardanoFits;
    if tx.lock.BitcoinLock? && BtcFits(env.ring, env.anchors) {
      BtcLocktimeValue(env.ring, leader, env.anchors, p);
    } else if tx.lock.CardanoLock? && CardanoFits(env.ring, env.anchors, env.systemStart) {
      CardanoValues(env.ring, leader, env.anchors, env.systemStart, p);
    }
  }

  /** The claim of `p`: all that its target has locked, paid to `p`. */
  predicate PaysOut(env: Env, p: Pid, tx: UnsignedTx) {
    && p in env.ring && env.ring[p].target in env.ring && tx.SpendTx? && tx.claimant == p
    && tx.lock.owner == env.ring[p].target && tx.lock.amount == env.ring[env.ring[p].target].amountLocking
  }

  lemma SpendSays(env: Env, leader: Pid, p: Pid, tx: UnsignedTx)
    requires SpendRight(env, leader, p, tx)
    ensures PaysOut(env, p, tx)
  {
    hide IsRing, RefundDeadlineMs;
  }

  // ---------- timelocks ----------

  /** What the chain checks of a refund: on Bitcoin the locktime against the height; on Cardano the declared
      start of validity against the slot, and by the script against the deadline in the lock. */
  predicate TimelockPassed(systemStart: nat, tx: UnsignedTx, tip: Tip) {
    tx.RefundTx? &&
    match tx.lock
    case BitcoinLock(_, _) => tx.locktime <= tip.height
    case CardanoLock(_, _, deadline) =>
      LedgerAccepts(Some(tx.locktime), tip.slot) && ScriptAccepts(Some(tx.locktime), systemStart, deadline)
  }

  /** The right refund has its timelock passed exactly from its refund height or slot on, whether the deadline
      fits in its word or not. */
  lemma TimelockIs(env: Env, leader: Pid, p: Pid, tx: UnsignedTx, tip: Tip)
    requires RefundRight(env, leader, p, tx)
    ensures TimelockPassed(env.systemStart, tx, tip) <==> ChainAcceptsRefund(env.ring, leader, env.anchors, p, tip)
  {
    hide IsRing, Distance, RefundLocktimeBtc, RefundLocktimeCardano;
    if tx.lock.CardanoLock? {
      assert tx.lock.deadlineMs <= (env.systemStart + tx.locktime) * 1000;
    }
  }

  /** Whenever the daemon says that the window of `p` is open, the chain takes the refund that the daemon holds;
      on Cardano by both its checks. */
  lemma OwnRefundAccepted(env: Env, leader: Pid, p: Pid, tx: UnsignedTx, tip: Tip)
    requires RefundRight(env, leader, p, tx) && DaemonSaysOpen(env.ring, leader, env.anchors, p, tip)
    ensures TimelockPassed(env.systemStart, tx, tip)
    ensures tx.lock.CardanoLock? ==>
              LedgerAccepts(Some(tx.locktime), tip.slot) && ScriptAccepts(Some(tx.locktime), env.systemStart, tx.lock.deadlineMs)
  {
    hide IsRing, RefundRight, RefundLocktimeBtc, RefundLocktimeCardano;
    TimelockIs(env, leader, p, tx, tip);
  }
}
