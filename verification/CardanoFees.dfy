/** The amounts of the Cardano transactions (swap-daemon/src/blockchains/cardano_utils.rs): what goes in
    comes out as output and fee, and the fee is the minimum fee of the very transaction that pays it. */
module CardanoFees {
  import opened Timelocks

  // ---------- amounts in 64 bits ----------

  const MEM_UNITS_CEILING: Word64 := 14_000_000
  const DEFAULT_MIN_FEE_A: Word64 := 44
  const DEFAULT_MIN_FEE_B: Word64 := 155_381
  const DRAFT_FEE: Word64 := MEM_UNITS_CEILING * DEFAULT_MIN_FEE_A + DEFAULT_MIN_FEE_B
  const SPEND_FEE: Word64 := 2_000_000
  const COLLATERAL_WITNESS_BYTES: nat := 105

  /** Unsigned subtraction as a release build does it. */
  function Minus(a: Word64, b: Word64): Word64 { (a - b) % U64 }

  /** What the body of a script transaction says about amounts; `input` is the value it spends. */
  datatype Body = Body(input: Word64, output: Word64, fee: Word64)

  predicate Balanced(b: Body) { b.output + b.fee == b.input }

  /** `build_lock_tx`: the funding output pays the lock and its fee. */
  function LockBody(amount: Word64, fee: Word64): Body { Body(amount, Minus(amount, fee), fee) }

  /** `build_refund_tx`, spending the lock of that fee. */
  function RefundBody(amount: Word64, fee: Word64): Body {
    Body(LockBody(amount, fee).output, Minus(amount, 2 * fee % U64), fee)
  }

  /** `begin_spend_signing`: the spend of a lock with a fixed provisional fee. */
  function SpendBody(locked: Word64): Body { Body(locked, Minus(locked, SPEND_FEE), SPEND_FEE) }

  lemma MinusExact(a: Word64, b: Word64)
    ensures Minus(a, b) + b == a <==> b <= a
    ensures b <= a ==> Minus(a, b) == a - b
  {
  }

  /** Locks and their refunds and spends balance exactly when the lock covers the fees. */
  lemma BuiltBodiesBalance(amount: Word64, fee: Word64)
    requires fee <= amount
    ensures Balanced(LockBody(amount, fee))
    ensures Balanced(RefundBody(amount, fee)) <==> 2 * fee <= amount
    ensures Balanced(SpendBody(amount - fee)) <==> fee + SPEND_FEE <= amount
  {
    MinusExact(amount, fee);
    MinusExact(amount - fee, SPEND_FEE);
    if 2 * fee < U64 {
      MinusExact(amount, 2 * fee);
    }
  }

  /** `attach_final_sig_with_units`: the output is recomputed for another fee. */
  function Reattach(b: Body, fee: Word64): Body {
    b.(output := Minus((b.output + b.fee) % U64, fee), fee := fee)
  }

  /** The recomputed output conserves the input exactly when the new fee does not exceed it. */
  lemma ReattachBalances(b: Body, fee: Word64)
    requires Balanced(b)
    ensures Balanced(Reattach(b, fee)) <==> fee <= b.input
    ensures Reattach(b, fee).input == b.input
  {
    MinusExact(b.input, fee);
  }

  // ---------- CBOR unsigned integers (RFC 8949, section 3.1, major type 0) ----------

  type Octet = x: int | 0 <= x < 256

  function Power256(k: nat): (r: nat)
    ensures r >= 1
  {
    if k == 0 then 1 else 256 * Power256(k - 1)
  }

  function ToBytes(n: nat, k: nat): (r: seq<Octet>)
    ensures |r| == k
  {
    if k == 0 then [] else ToBytes(n / 256, k - 1) + [n % 256]
  }

  function FromBytes(bytes: seq<Octet>): nat {
    if bytes == [] then 0 else 256 * FromBytes(bytes[..|bytes| - 1]) + bytes[|bytes| - 1]
  }

  lemma {:induction false} BytesRoundTrip(n: nat, k: nat)
    requires n < Power256(k)
    ensures FromBytes(ToBytes(n, k)) == n
  {
    if k > 0 {
      assert n / 256 < Power256(k - 1);
      BytesRoundTrip(n / 256, k - 1);
      var bytes := ToBytes(n, k);
      assert bytes[..k - 1] == ToBytes(n / 256, k - 1);
    }
  }

  /** The shortest encoding: small values in the initial byte, larger ones in 1, 2, 4 or 8 more. */
  function Encode(n: Word64): seq<Octet> {
    if n < 24 then [n]
    else if n < 0x100 then [24] + ToBytes(n, 1)
    else if n < 0x1_0000 then [25] + ToBytes(n, 2)
    else if n < 0x1_0000_0000 then [26] + ToBytes(n, 4)
    else [27] + ToBytes(n, 8)
  }

  /** How many bytes follow an initial byte of major type 0; nothing for other initial bytes. */
  function Following(initial: Octet): int {
    if initial < 24 then 0
    else if initial == 24 then 1
    else if initial == 25 then 2
    else if initial == 26 then 4
    else if initial == 27 then 8
    else -1
  }

  /** The value at the front of some bytes, and how many bytes it takes; zero bytes if there is none. */
  function Decode(bytes: seq<Octet>): (nat, nat) {
    if bytes == [] then (0, 0)
    else
      var k := Following(bytes[0]);
      if k < 0 || |bytes| <= k then (0, 0)
      else if k == 0 then (bytes[0], 1)
      else (FromBytes(bytes[1..1 + k]), 1 + k)
  }

  lemma DecodeTail(initial: Octet, k: nat, n: nat, rest: seq<Octet>)
    requires Following(initial) == k && k > 0 && n < Power256(k)
    ensures Decode([initial] + ToBytes(n, k) + rest) == (n, 1 + k)
  {
    var bytes := [initial] + ToBytes(n, k) + rest;
    assert bytes[1..1 + k] == ToBytes(n, k);
    BytesRoundTrip(n, k);
  }

  lemma Powers()
    ensures Power256(1) == 0x100 && Power256(2) == 0x1_0000 && Power256(4) == 0x1_0000_0000 && Power256(8) == U64
  {
    assert Power256(0) == 1 && Power256(1) == 256 && Power256(2) == 65536 && Power256(3) == 16777216;
    assert Power256(4) == 4294967296 && Power256(5) == 1099511627776;
    assert Power256(6) == 281474976710656 && Power256(7) == 72057594037927936;
  }

  function Width(n: Word64): (w: nat)
    ensures 1 <= w <= 9
  {
    if n < 24 then 1 else if n < 0x100 then 2 else if n < 0x1_0000 then 3 else if n < 0x1_0000_0000 then 5 else 9
  }

  /** The width is the length of an encoding that can be read back, whatever follows it. */
  lemma EncodingHasWidth(n: Word64, rest: seq<Octet>)
    ensures |Encode(n)| == Width(n)
    ensures Decode(Encode(n) + rest) == (n, Width(n))
  {
    Powers();
    if n >= 0x1_0000_0000 {
      DecodeTail(27, 8, n, rest);
    } else if n >= 0x1_0000 {
      DecodeTail(26, 4, n, rest);
    } else if n >= 0x100 {
      DecodeTail(25, 2, n, rest);
    } else if n >= 24 {
      DecodeTail(24, 1, n, rest);
    } else {
      assert (Encode(n) + rest)[0] == n;
    }
  }

  // ---------- the minimum fee ----------

  datatype Params = Params(minFeeA: Word64, minFeeB: Word64, priceMem: real, priceStep: real)

  /** Execution units that the evaluation returned, and what the ledger asks for them. */
  datatype Units = Units(mem: Word64, cpu: Word64)

  function ExecCost(p: Params, u: Units): real { p.priceMem * u.mem as real + p.priceStep * u.cpu as real }

  /** Rounded up, then cast to 64 bits, which saturates at both ends. */
  function CeilToWord(x: real): Word64 {
    var c := -(-x).Floor;
    if c < 0 then 0 else if c >= U64 then U64 - 1 else c
  }

  /** `compute_min_fee`, for a transaction of `size` bytes that gets one more witness afterwards. */
  function MinFee(size: nat, p: Params, u: Units): Word64 {
    (p.minFeeA * (size + COLLATERAL_WITNESS_BYTES) + p.minFeeB + CeilToWord(ExecCost(p, u))) % U64
  }

  /** The ledger's own bound on the fee of a transaction that takes `size` bytes. */
  function LedgerMinimum(size: nat, p: Params, u: Units): real {
    (p.minFeeA * size + p.minFeeB) as real + ExecCost(p, u)
  }

  predicate FeeFits(size: nat, p: Params, u: Units) {
    0.0 <= ExecCost(p, u) && LedgerMinimum(size + COLLATERAL_WITNESS_BYTES, p, u) <= (U64 - 1) as real
  }

  /** Where 64 bits suffice, nothing wraps and nothing saturates. */
  lemma MinFeeExact(size: nat, p: Params, u: Units)
    requires FeeFits(size, p, u)
    ensures MinFee(size, p, u)
         == p.minFeeA * (size + COLLATERAL_WITNESS_BYTES) + p.minFeeB - (-ExecCost(p, u)).Floor
  {
    hide ExecCost;
    var sizeFee := p.minFeeA * (size + COLLATERAL_WITNESS_BYTES) + p.minFeeB;
    var x := ExecCost(p, u);
    assert (-x).Floor as real <= -x < ((-x).Floor + 1) as real;
    assert sizeFee >= 0;
    assert sizeFee as real + x <= (U64 - 1) as real;
    assert 0 <= -(-x).Floor && sizeFee - (-x).Floor <= U64 - 1;
  }

  /** There `compute_min_fee` is the least fee the ledger accepts once the witness, of 105 bytes, is in: so much a byte,
      a constant, and memory and steps at their prices. */
  lemma MinFeeIsLeast(size: nat, p: Params, u: Units, fee: Word64)
    requires FeeFits(size, p, u)
    ensures MinFee(size, p, u) <= fee
       <==> (p.minFeeA * (size + 105) + p.minFeeB) as real + (p.priceMem * u.mem as real + p.priceStep * u.cpu as real) <= fee as real
    ensures MinFee(size, p, u) <= fee <==> LedgerMinimum(size + COLLATERAL_WITNESS_BYTES, p, u) <= fee as real
  {
    MinFeeExact(size, p, u);
    assert ExecCost(p, u) == p.priceMem * u.mem as real + p.priceStep * u.cpu as real;
    hide MinFee, ExecCost;
    var x := ExecCost(p, u);
    assert (-x).Floor as real <= -x < ((-x).Floor + 1) as real;
  }

  // ---------- a signed transaction and its size ----------

  /** The bytes around the two integers that the re-attachments change: output value and fee. */
  datatype Frame = Frame(before: seq<Octet>, between: seq<Octet>, after: seq<Octet>)

  function Serialised(f: Frame, b: Body): seq<Octet> {
    f.before + Encode(b.output) + f.between + Encode(b.fee) + f.after
  }

  /** The amounts are read back from where they were written. */
  lemma SerialisedReadsBack(f: Frame, b: Body)
    ensures var bytes := Serialised(f, b);
            var fee := |f.before| + Width(b.output) + |f.between|;
            && fee <= |bytes|
            && Decode(bytes[|f.before|..]) == (b.output, Width(b.output))
            && Decode(bytes[fee..]) == (b.fee, Width(b.fee))
  {
    var bytes := Serialised(f, b);
    var fee := |f.before| + Width(b.output) + |f.between|;
    EncodingHasWidth(b.output, f.between + Encode(b.fee) + f.after);
    EncodingHasWidth(b.fee, f.after);
    assert bytes[|f.before|..] == Encode(b.output) + (f.between + Encode(b.fee) + f.after);
    assert bytes[fee..] == Encode(b.fee) + f.after;
  }

  function AmountWidths(b: Body): nat { Width(b.output) + Width(b.fee) }

  lemma SerialisedSize(f: Frame, b: Body)
    ensures |Serialised(f, b)| == |f.before| + |f.between| + |f.after| + AmountWidths(b)
  {
    EncodingHasWidth(b.output, []);
    EncodingHasWidth(b.fee, []);
  }

  // ---------- attach_final_sig ----------

  /** The three transactions made from one unsigned body: for evaluation, for measuring, for submission. */
  datatype Attached = Attached(draft: Body, sized: Body, final: Body)

  function AttachFinalSig(b: Body, provisionalFee: Word64, f: Frame, p: Params, u: Units): Attached {
    var sized := Reattach(b, provisionalFee);
    Attached(Reattach(b, DRAFT_FEE), sized, Reattach(b, MinFee(|Serialised(f, sized)|, p, u)))
  }

  /** Value is conserved in all three, each exactly if the input covers that one's fee. */
  lemma AttachBalances(b: Body, provisionalFee: Word64, f: Frame, p: Params, u: Units)
    requires Balanced(b)
    ensures var a := AttachFinalSig(b, provisionalFee, f, p, u);
            && a.draft.input == a.sized.input == a.final.input == b.input
            && (Balanced(a.draft) <==> 616_155_381 <= b.input)
            && (Balanced(a.sized) <==> provisionalFee <= b.input)
            && (Balanced(a.final) <==> a.final.fee <= b.input)
  {
    ReattachBalances(b, DRAFT_FEE);
    ReattachBalances(b, provisionalFee);
    ReattachBalances(b, AttachFinalSig(b, provisionalFee, f, p, u).final.fee);
  }

  /** From the funding output to the submitted refund: nothing is created or lost, and nothing wraps. */
  lemma LockToRefundConserves(amount: Word64, fee: Word64, f: Frame, p: Params, u: Units)
    requires 2 * fee <= amount && fee + DRAFT_FEE <= amount
    ensures var lock := LockBody(amount, fee);
            var a := AttachFinalSig(RefundBody(amount, fee), fee, f, p, u);
            && Balanced(lock) && lock.input == amount
            && RefundBody(amount, fee).input == lock.output
            && Balanced(a.draft) && Balanced(a.sized)
            && (Balanced(a.final) <==> amount == lock.fee + a.final.output + a.final.fee)
            && (Balanced(a.final) <==> fee + a.final.fee <= amount)
  {
    BuiltBodiesBalance(amount, fee);
    AttachBalances(RefundBody(amount, fee), fee, f, p, u);
  }

  /** And from the funding output to the submitted spend, which is measured with the session's fee too. */
  lemma LockToSpendConserves(amount: Word64, fee: Word64, f: Frame, p: Params, u: Units)
    requires 2 * fee <= amount && fee + DRAFT_FEE <= amount
    ensures var lock := LockBody(amount, fee);
            var a := AttachFinalSig(SpendBody(lock.output), fee, f, p, u);
            && Balanced(lock) && lock.input == amount
            && SpendBody(lock.output).input == lock.output
            && Balanced(a.draft) && Balanced(a.sized)
            && (Balanced(a.final) <==> amount == lock.fee + a.final.output + a.final.fee)
            && (Balanced(a.final) <==> fee + a.final.fee <= amount)
  {
    BuiltBodiesBalance(amount, fee);
    AttachBalances(SpendBody(LockBody(amount, fee).output), fee, f, p, u);
  }

  /** The minimum fee as a line in the size. */
  lemma MinFeeIsLinear(size: nat, more: int, p: Params, u: Units)
    requires 0 <= size + more
    requires FeeFits(size, p, u) && FeeFits(size + more, p, u)
    ensures MinFee(size + more, p, u) == MinFee(size, p, u) + p.minFeeA * more
  {
    MinFeeExact(size, p, u);
    MinFeeExact(size + more, p, u);
    hide *;
    assert p.minFeeA * (size + more + COLLATERAL_WITNESS_BYTES)
        == p.minFeeA * (size + COLLATERAL_WITNESS_BYTES) + p.minFeeA * more;
  }

  /** A fee that is minimal for one size, held against another size. */
  lemma FeeAtOtherSize(size: nat, more: int, p: Params, u: Units)
    requires 0 <= size + more && p.minFeeA > 0
    requires FeeFits(size, p, u) && FeeFits(size + more, p, u)
    ensures MinFee(size, p, u) == MinFee(size + more, p, u) <==> more == 0
    ensures LedgerMinimum(size + more + COLLATERAL_WITNESS_BYTES, p, u) <= MinFee(size, p, u) as real <==> more <= 0
  {
    hide MinFee, LedgerMinimum, FeeFits;
    MinFeeIsLinear(size, more, p, u);
    MinFeeIsLeast(size + more, p, u, MinFee(size, p, u));
    assert p.minFeeA * more == 0 <==> more == 0;
    assert p.minFeeA * more <= 0 <==> more <= 0;
  }

  /** The submitted fee is the minimum fee of the submitted transaction exactly when measuring used integers
      of the same total width; and the ledger accepts it exactly when they were at least as wide. */
  lemma FeeFixpoint(b: Body, provisionalFee: Word64, f: Frame, p: Params, u: Units)
    requires p.minFeeA > 0
    requires FeeFits(|Serialised(f, AttachFinalSig(b, provisionalFee, f, p, u).sized)|, p, u)
    requires FeeFits(|Serialised(f, AttachFinalSig(b, provisionalFee, f, p, u).final)|, p, u)
    ensures var a := AttachFinalSig(b, provisionalFee, f, p, u);
            var size := |Serialised(f, a.final)|;
            && (a.final.fee == MinFee(size, p, u) <==> AmountWidths(a.final) == AmountWidths(a.sized))
            && (LedgerMinimum(size + COLLATERAL_WITNESS_BYTES, p, u) <= a.final.fee as real
                <==> AmountWidths(a.final) <= AmountWidths(a.sized))
  {
    hide MinFee, LedgerMinimum, FeeFits, Serialised;
    var a := AttachFinalSig(b, provisionalFee, f, p, u);
    SerialisedSize(f, a.sized);
    SerialisedSize(f, a.final);
    FeeAtOtherSize(|Serialised(f, a.sized)|, AmountWidths(a.final) - AmountWidths(a.sized), p, u);
  }

  // ---------- when it comes out right, in terms of what is known before ----------

  function FrameSize(f: Frame): nat { |f.before| + |f.between| + |f.after| }

  function SizeFee(size: nat, p: Params): nat { p.minFeeA * (size + COLLATERAL_WITNESS_BYTES) + p.minFeeB }

  /** Bounds on the minimum fee of the transaction, whatever widths its two amounts have. */
  function LeastFee(f: Frame, p: Params): nat { SizeFee(FrameSize(f) + 2, p) }
  function MostFee(f: Frame, p: Params, u: Units): nat { SizeFee(FrameSize(f) + 18, p) + CeilToWord(ExecCost(p, u)) }

  /** Fees of four bytes and a locked value whose change has four bytes, or eight, for all of them: a
      condition on the frame, the parameters, the units, the provisional fee and the input. */
  predicate WidthsAreSettled(input: Word64, provisionalFee: Word64, f: Frame, p: Params, u: Units) {
    && 0.0 <= ExecCost(p, u)
    && 0x1_0000 <= provisionalFee < 0x1_0000_0000
    && 0x1_0000 <= LeastFee(f, p) && MostFee(f, p, u) < 0x1_0000_0000
    && (|| 0x2_0000_0000 <= input
        || (input < 0x1_0000_0000 && 0x1_0000 + provisionalFee <= input && 0x1_0000 + MostFee(f, p, u) <= input))
  }

  lemma SizeGrows(less: nat, more: nat, p: Params)
    requires less <= more
    ensures SizeFee(less, p) <= SizeFee(more, p)
  {
    var extra := more - less;
    assert p.minFeeA * (more + COLLATERAL_WITNESS_BYTES) == p.minFeeA * (less + COLLATERAL_WITNESS_BYTES) + p.minFeeA * extra by {
      Distributes(p.minFeeA, less + COLLATERAL_WITNESS_BYTES, extra);
    }
  }

  lemma Distributes(a: nat, x: nat, y: nat)
    ensures a * (x + y) == a * x + a * y && 0 <= a * y
  {
  }

  lemma CeilIsAbove(x: real)
    ensures CeilToWord(x) < U64 - 1 ==> x <= CeilToWord(x) as real
  {
    assert (-x).Floor as real <= -x < ((-x).Floor + 1) as real;
  }

  lemma FitsWhenSmall(size: nat, p: Params, u: Units)
    requires 0.0 <= ExecCost(p, u) && SizeFee(size, p) + CeilToWord(ExecCost(p, u)) < 0x1_0000_0000
    ensures FeeFits(size, p, u) && MinFee(size, p, u) == SizeFee(size, p) + CeilToWord(ExecCost(p, u))
  {
    hide ExecCost, CeilToWord;
    CeilIsAbove(ExecCost(p, u));
    assert LedgerMinimum(size + COLLATERAL_WITNESS_BYTES, p, u) == SizeFee(size, p) as real + ExecCost(p, u);
  }

  /** The minimum fee of any transaction in that frame keeps to the bounds. */
  lemma FeeInBounds(f: Frame, b: Body, p: Params, u: Units)
    requires 0.0 <= ExecCost(p, u) && MostFee(f, p, u) < 0x1_0000_0000
    ensures FeeFits(|Serialised(f, b)|, p, u)
    ensures LeastFee(f, p) <= MinFee(|Serialised(f, b)|, p, u) <= MostFee(f, p, u)
  {
    hide Serialised, ExecCost, CeilToWord, FeeFits, MinFee, SizeFee, FrameSize;
    SerialisedSize(f, b);
    var size := |Serialised(f, b)|;
    FrameIs(f);
    assert size == FrameSize(f) + AmountWidths(b);
    SizeGrows(FrameSize(f) + 2, size, p);
    SizeGrows(size, FrameSize(f) + 18, p);
    FitsWhenSmall(size, p, u);
  }

  lemma FrameIs(f: Frame)
    ensures FrameSize(f) == |f.before| + |f.between| + |f.after|
  {
  }

  lemma SettledWidthsAgree(b: Body, provisionalFee: Word64, f: Frame, p: Params, u: Units)
    requires Balanced(b) && WidthsAreSettled(b.input, provisionalFee, f, p, u)
    ensures var a := AttachFinalSig(b, provisionalFee, f, p, u);
            AmountWidths(a.final) == AmountWidths(a.sized) && Balanced(a.final) && Balanced(a.sized)
  {
    hide Serialised, MinFee, LeastFee, MostFee, ExecCost;
    AttachBalances(b, provisionalFee, f, p, u);
    FeeInBounds(f, Reattach(b, provisionalFee), p, u);
  }

  /** Then the submitted fee is the minimum fee of the submitted transaction: the ledger accepts it and
      would accept no lower one. */
  lemma SettledFeeIsLeast(b: Body, provisionalFee: Word64, f: Frame, p: Params, u: Units, fee: Word64)
    requires p.minFeeA > 0
    requires Balanced(b) && WidthsAreSettled(b.input, provisionalFee, f, p, u)
    ensures var a := AttachFinalSig(b, provisionalFee, f, p, u);
            var size := |Serialised(f, a.final)|;
            && Balanced(a.final) && a.final.fee == MinFee(size, p, u)
            && (LedgerMinimum(size + COLLATERAL_WITNESS_BYTES, p, u) <= fee as real <==> a.final.fee <= fee)
  {
    hide Serialised, MinFee, LeastFee, MostFee, ExecCost, LedgerMinimum, FeeFits;
    var a := AttachFinalSig(b, provisionalFee, f, p, u);
    FeeInBounds(f, a.sized, p, u);
    FeeInBounds(f, a.final, p, u);
    SettledWidthsAgree(b, provisionalFee, f, p, u);
    FeeFixpoint(b, provisionalFee, f, p, u);
    MinFeeIsLeast(|Serialised(f, a.final)|, p, u, fee);
  }

  /** So a lock comes back, or is claimed, with nothing lost but the lock's fee and that minimum. */
  lemma LockIsPaidOut(amount: Word64, fee: Word64, f: Frame, p: Params, u: Units)
    requires p.minFeeA > 0
    requires 2 * fee <= amount && fee + DRAFT_FEE <= amount && WidthsAreSettled(amount - fee, fee, f, p, u)
    ensures var refund := AttachFinalSig(RefundBody(amount, fee), fee, f, p, u).final;
            && amount == fee + refund.output + refund.fee
            && refund.fee == MinFee(|Serialised(f, refund)|, p, u)
    ensures var spend := AttachFinalSig(SpendBody(LockBody(amount, fee).output), fee, f, p, u).final;
            && amount == fee + spend.output + spend.fee
            && spend.fee == MinFee(|Serialised(f, spend)|, p, u)
  {
    hide Serialised, MinFee, WidthsAreSettled, AttachFinalSig;
    BuiltBodiesBalance(amount, fee);
    SettledFeeIsLeast(RefundBody(amount, fee), fee, f, p, u, 0);
    SettledFeeIsLeast(SpendBody(LockBody(amount, fee).output), fee, f, p, u, 0);
    LockToRefundConserves(amount, fee, f, p, u);
    LockToSpendConserves(amount, fee, f, p, u);
  }

  const CROSSING_BODY := Body(0x1_0000_0000 + 1_000_000, 0x1_0000_0000 - 1_000_000, 2_000_000)
  const CROSSING_FRAME := Frame(seq(300, i => 0), [], [])
  const CROSSING_PARAMS := Params(DEFAULT_MIN_FEE_A, DEFAULT_MIN_FEE_B, 0.0, 0.0)

  /** Without that, the fee can fall short: here the output grows past four bytes after the measuring. */
  lemma CrossingUnderpays()
    ensures Balanced(CROSSING_BODY)
    ensures var a := AttachFinalSig(CROSSING_BODY, SPEND_FEE, CROSSING_FRAME, CROSSING_PARAMS, Units(0, 0));
            var size := |Serialised(CROSSING_FRAME, a.final)|;
            && Balanced(a.final)
            && a.final.fee as real < LedgerMinimum(size + COLLATERAL_WITNESS_BYTES, CROSSING_PARAMS, Units(0, 0))
  {
    hide Serialised, Encode;
    var a := AttachFinalSig(CROSSING_BODY, SPEND_FEE, CROSSING_FRAME, CROSSING_PARAMS, Units(0, 0));
    SerialisedSize(CROSSING_FRAME, a.sized);
    assert |Serialised(CROSSING_FRAME, a.sized)| == 310;
    assert ExecCost(CROSSING_PARAMS, Units(0, 0)) == 0.0;
    assert a.final.fee == 44 * 415 + 155_381;
    SerialisedSize(CROSSING_FRAME, a.final);
    assert |Serialised(CROSSING_FRAME, a.final)| == 314;
  }
}
