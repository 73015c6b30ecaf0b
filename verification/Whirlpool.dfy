/** sdk/protocols/orca/whirlpool/metrics.go: the byte layout of a pool account. */
module Whirlpool {
  import opened Basics
  import opened Integers

  type byte = b: int | 0 <= b < 256
  type Bytes = seq<byte>

  function Pow256(n: nat): (r: nat)
    ensures r > 0
  {
    if n == 0 then 1 else 256 * Pow256(n - 1)
  }

  /** binary.LittleEndian: the number n bytes stand for. */
  function FromLittleEndian(bs: Bytes): nat {
    if bs == [] then 0 else bs[0] + 256 * FromLittleEndian(bs[1..])
  }

  function ToLittleEndian(x: nat, n: nat): (r: Bytes)
    ensures |r| == n
  {
    if n == 0 then [] else [x % 256] + ToLittleEndian(x / 256, n - 1)
  }

  lemma {:induction false} LittleEndianRange(bs: Bytes)
    ensures FromLittleEndian(bs) < Pow256(|bs|)
  {
    if bs != [] {
      LittleEndianRange(bs[1..]);
    }
  }

  lemma {:induction false} NumberRoundTrip(x: nat, n: nat)
    requires x < Pow256(n)
    ensures FromLittleEndian(ToLittleEndian(x, n)) == x
  {
    if n > 0 {
      NumberRoundTrip(x / 256, n - 1);
      assert ToLittleEndian(x, n)[1..] == ToLittleEndian(x / 256, n - 1);
    }
  }

  lemma {:induction false} BytesRoundTrip(bs: Bytes)
    ensures ToLittleEndian(FromLittleEndian(bs), |bs|) == bs
  {
    if bs != [] {
      var low, rest := bs[0], FromLittleEndian(bs[1..]);
      LowByte(low, rest);
      BytesRoundTrip(bs[1..]);
      assert [low] + bs[1..] == bs;
    }
  }

  lemma LowByte(low: byte, rest: nat)
    ensures (low + 256 * rest) % 256 == low && (low + 256 * rest) / 256 == rest
  {
  }

  // ---- 128-bit numbers: a shifted high word or-ed with a low word ----

  /** big.Int.Lsh */
  function Lsh(x: nat, n: nat): nat {
    x * Pow2(n)
  }

  /** big.Int.Or on non-negative numbers, bit by bit. */
  function Or(a: nat, b: nat): nat
    decreases a + b
  {
    if a == 0 && b == 0 then 0
    else (if a % 2 == 1 || b % 2 == 1 then 1 else 0) + 2 * Or(a / 2, b / 2)
  }

  function ReadU128(data: Bytes): nat {
    if |data| < 16 then 0
    else
      var low := FromLittleEndian(data[..8]);
      var high := FromLittleEndian(data[8..16]);
      Or(Lsh(high, 64), low)
  }

  lemma {:induction false} OrZero(a: nat)
    ensures Or(a, 0) == a
  {
    if a > 0 {
      OrZero(a / 2);
    }
  }

  /** Below the shift there is nothing to overlap with, so or-ing is adding. */
  lemma {:induction false} OrIsSum(high: nat, low: nat, n: nat)
    requires low < Pow2(n)
    ensures Or(Lsh(high, n), low) == Lsh(high, n) + low
  {
    if n == 0 {
      OrZero(high);
    } else {
      OrIsSum(high, low / 2, n - 1);
      var half := Lsh(high, n - 1);
      assert Lsh(high, n) == 2 * half by {
        ShiftOnce(high, n);
      }
      assert 2 * half % 2 == 0 && 2 * half / 2 == half;
    }
  }

  lemma ShiftOnce(x: nat, n: nat)
    requires n > 0
    ensures Lsh(x, n) == 2 * Lsh(x, n - 1)
  {
    var p := Pow2(n - 1);
    assert x * (2 * p) == 2 * (x * p);
  }

  lemma {:induction false} Bytes8(k: nat)
    ensures Pow256(k) == Pow2(8 * k)
  {
    if k > 0 {
      Bytes8(k - 1);
      var e := 8 * (k - 1);
      assert Pow2(e + 8) == 2 * Pow2(e + 7) == 4 * Pow2(e + 6) == 8 * Pow2(e + 5) == 16 * Pow2(e + 4)
          == 32 * Pow2(e + 3) == 64 * Pow2(e + 2) == 128 * Pow2(e + 1) == 256 * Pow2(e);
    }
  }

  lemma {:induction false} LittleEndianConcat(a: Bytes, b: Bytes)
    ensures FromLittleEndian(a + b) == FromLittleEndian(a) + FromLittleEndian(b) * Pow256(|a|)
  {
    if a == [] {
      assert a + b == b;
    } else {
      assert (a + b)[1..] == a[1..] + b;
      LittleEndianConcat(a[1..], b);
      Times256(FromLittleEndian(b), Pow256(|a| - 1));
      assert (a + b)[0] == a[0];
    }
  }

  lemma Times256(n: nat, p: nat)
    ensures n * (256 * p) == 256 * (n * p)
  {
  }

  /** Shift-or over two words is the base-256 number of all sixteen bytes. */
  lemma ReadU128IsLittleEndian(data: Bytes)
    requires |data| == 16
    ensures ReadU128(data) == FromLittleEndian(data)
  {
    var low, high := data[..8], data[8..16];
    assert data == low + high;
    LittleEndianRange(low);
    Bytes8(8);
    OrIsSum(FromLittleEndian(high), FromLittleEndian(low), 64);
    LittleEndianConcat(low, high);
  }

  // ---- the layout ----

  const DISCRIMINATOR: Bytes := [63, 149, 209, 12, 225, 128, 99, 9]
  const MIN_SIZE := 653

  // Unsigned integers of one, two, eight and sixteen bytes.
  type u8 = x: int | 0 <= x < 256
  type Word16 = x: int | 0 <= x < Pow256(2)
  type Word64 = x: int | 0 <= x < Pow256(8)
  type Word128 = x: int | 0 <= x < Pow256(16)
  type i32 = x: int | -0x8000_0000 <= x < 0x8000_0000
  type Key = k: Bytes | |k| == 32 witness seq(32, _ => 0)

  datatype PoolState = PoolState(
    whirlpoolsConfig: Key, whirlpoolBump: u8, tickSpacing: Word16, feeTierIndexSeed: Word16, feeRate: Word16,
    protocolFeeRate: Word16, liquidityRaw: Word128, sqrtPriceRaw: Word128, tickCurrentIndex: i32,
    protocolFeeOwedA: Word64,
    protocolFeeOwedB: Word64, tokenMintA: Key, tokenVaultA: Key, feeGrowthGlobalA: Word128, tokenMintB: Key,
    tokenVaultB: Key, feeGrowthGlobalB: Word128, rewardLastUpdatedAt: Word64)

  datatype DecodeError = InvalidLength(length: nat) | InvalidDiscriminator

  /** int32(uint32): the upper half of the range is negative. */
  function Signed32(x: nat): i32
    requires x < 0x1_0000_0000
  {
    if x < 0x8000_0000 then x else x - 0x1_0000_0000
  }

  function Unsigned32(x: i32): nat {
    if x >= 0 then x else x + 0x1_0000_0000
  }

  lemma Width32()
    ensures Pow256(4) == 0x1_0000_0000
  {
    assert Pow256(4) == 256 * 256 * 256 * 256;
  }

  function Number(data: Bytes, at: nat, width: nat): (r: nat)
    requires at + width <= |data|
    ensures r < Pow256(width)
  {
    LittleEndianRange(data[at..at + width]);
    FromLittleEndian(data[at..at + width])
  }

  function U128At(data: Bytes, at: nat): Word128
    requires at + 16 <= |data|
  {
    ReadU128IsLittleEndian(data[at..at + 16]);
    LittleEndianRange(data[at..at + 16]);
    ReadU128(data[at..at + 16])
  }

  function DecodePoolState(data: Bytes): Result<PoolState, DecodeError> {
    if |data| < MIN_SIZE then Err(InvalidLength(|data|))
    else if data[..8] != DISCRIMINATOR then Err(InvalidDiscriminator)
    else
      Width32();
      Ok(PoolState(
        data[8..40],
        data[40],
        Number(data, 41, 2),
        Number(data, 43, 2),
        Number(data, 45, 2),
        Number(data, 47, 2),
        U128At(data, 49),
        U128At(data, 65),
        Signed32(Number(data, 81, 4)),
        Number(data, 85, 8),
        Number(data, 93, 8),
        data[101..133],
        data[133..165],
        U128At(data, 165),
        data[181..213],
        data[213..245],
        U128At(data, 245),
        Number(data, 261, 8)))
  }

  /** The bytes of each field, in the order they are laid out after the discriminator. */
  function Pieces(s: PoolState): (r: seq<Bytes>)
    ensures |r| == 18
  {
    [ s.whirlpoolsConfig,
      [s.whirlpoolBump],
      ToLittleEndian(s.tickSpacing, 2),
      ToLittleEndian(s.feeTierIndexSeed, 2),
      ToLittleEndian(s.feeRate, 2),
      ToLittleEndian(s.protocolFeeRate, 2),
      ToLittleEndian(s.liquidityRaw, 16),
      ToLittleEndian(s.sqrtPriceRaw, 16),
      ToLittleEndian(Unsigned32(s.tickCurrentIndex), 4),
      ToLittleEndian(s.protocolFeeOwedA, 8),
      ToLittleEndian(s.protocolFeeOwedB, 8),
      s.tokenMintA,
      s.tokenVaultA,
      ToLittleEndian(s.feeGrowthGlobalA, 16),
      s.tokenMintB,
      s.tokenVaultB,
      ToLittleEndian(s.feeGrowthGlobalB, 16),
      ToLittleEndian(s.rewardLastUpdatedAt, 8) ]
  }

  const WIDTHS: seq<nat> := [32, 1, 2, 2, 2, 2, 16, 16, 4, 8, 8, 32, 32, 16, 32, 32, 16, 8]
  const OFFSETS: seq<nat> := [8, 40, 41, 43, 45, 47, 49, 65, 81, 85, 93, 101, 133, 165, 181, 213, 245, 261]

  function Flatten(pieces: seq<Bytes>): Bytes {
    if pieces == [] then [] else pieces[0] + Flatten(pieces[1..])
  }

  function Region(s: PoolState): Bytes {
    DISCRIMINATOR + Flatten(Pieces(s))
  }

  /** An account buffer holding s; whatever follows the decoded fields is the tail. */
  function Encode(s: PoolState, tail: Bytes): Bytes {
    Region(s) + tail
  }

  /** The fields follow each other without gap or overlap, from byte 8 up to byte 269. */
  lemma FieldsTile()
    ensures |OFFSETS| == |WIDTHS| == 18
    ensures OFFSETS[0] == |DISCRIMINATOR| == 8 && OFFSETS[17] + WIDTHS[17] == 269
    ensures forall i | 0 <= i < 17 :: OFFSETS[i] + WIDTHS[i] == OFFSETS[i + 1]
  {
  }

  lemma PiecesFit(s: PoolState)
    ensures forall i | 0 <= i < 18 :: |Pieces(s)[i]| == WIDTHS[i]
  {
    var pieces := Pieces(s);
    assert |pieces[0]| == 32 && |pieces[1]| == 1 && |pieces[2]| == 2 && |pieces[3]| == 2 && |pieces[4]| == 2;
    assert |pieces[5]| == 2 && |pieces[6]| == 16 && |pieces[7]| == 16 && |pieces[8]| == 4 && |pieces[9]| == 8;
    assert |pieces[10]| == 8 && |pieces[11]| == 32 && |pieces[12]| == 32 && |pieces[13]| == 16 && |pieces[14]| == 32;
    assert |pieces[15]| == 32 && |pieces[16]| == 16 && |pieces[17]| == 8;
  }

  /** Whatever is laid out piece after piece from `at` on can be read back piece by piece. */
  lemma {:induction false} PieceAt(data: Bytes, at: nat, pieces: seq<Bytes>, offsets: seq<nat>, k: nat)
    requires k < |pieces| == |offsets| && at <= |data| && offsets[0] == at
    requires Flatten(pieces) <= data[at..]
    requires forall i | 0 <= i < |offsets| - 1 :: offsets[i + 1] == offsets[i] + |pieces[i]|
    ensures offsets[k] + |pieces[k]| <= |data| && data[offsets[k]..offsets[k] + |pieces[k]|] == pieces[k]
    decreases |pieces|
  {
    var first := pieces[0];
    assert Flatten(pieces) == first + Flatten(pieces[1..]);
    assert data[at..][..|first|] == first;
    if k > 0 {
      assert data[at + |first|..] == data[at..][|first|..];
      PieceAt(data, at + |first|, pieces[1..], offsets[1..], k - 1);
    }
  }

  lemma {:induction false} FlattenLength(pieces: seq<Bytes>, at: nat, offsets: seq<nat>)
    requires |pieces| == |offsets| > 0 && offsets[0] == at
    requires forall i | 0 <= i < |offsets| - 1 :: offsets[i + 1] == offsets[i] + |pieces[i]|
    ensures at + |Flatten(pieces)| == offsets[|offsets| - 1] + |pieces[|pieces| - 1]|
  {
    if |pieces| == 1 {
      assert pieces[1..] == [];
    } else {
      FlattenLength(pieces[1..], at + |pieces[0]|, offsets[1..]);
    }
  }

  lemma RegionLength(s: PoolState)
    ensures |Region(s)| == 269
  {
    PiecesFit(s);
    FlattenLength(Pieces(s), 8, OFFSETS);
  }

  lemma EncodedPiece(s: PoolState, tail: Bytes, k: nat)
    requires k < 18
    ensures var data := Encode(s, tail);
            OFFSETS[k] + WIDTHS[k] <= |data| && data[OFFSETS[k]..OFFSETS[k] + WIDTHS[k]] == Pieces(s)[k]
  {
    var data, pieces := Encode(s, tail), Pieces(s);
    assert data[8..] == Flatten(pieces) + tail;
    FieldsTile();
    PiecesFit(s);
    PieceAt(data, 8, pieces, OFFSETS, k);
  }

  // ---- a state and a buffer that carries it ----

  predicate KeysMatch(s: PoolState, data: Bytes)
    requires |data| >= 269
  {
    && s.whirlpoolsConfig == data[8..40] && [s.whirlpoolBump] == data[40..41]
    && s.tokenMintA == data[101..133] && s.tokenVaultA == data[133..165]
    && s.tokenMintB == data[181..213] && s.tokenVaultB == data[213..245]
  }

  /** The 16-bit fields. */
  predicate ShortsMatch(s: PoolState, data: Bytes)
    requires |data| >= 269
  {
    && ToLittleEndian(s.tickSpacing, 2) == data[41..43]
    && ToLittleEndian(s.feeTierIndexSeed, 2) == data[43..45]
    && ToLittleEndian(s.feeRate, 2) == data[45..47]
    && ToLittleEndian(s.protocolFeeRate, 2) == data[47..49]
  }

  predicate NumbersMatch(s: PoolState, data: Bytes)
    requires |data| >= 269
  {
    && ShortsMatch(s, data)
    && ToLittleEndian(Unsigned32(s.tickCurrentIndex), 4) == data[81..85]
    && ToLittleEndian(s.protocolFeeOwedA, 8) == data[85..93]
    && ToLittleEndian(s.protocolFeeOwedB, 8) == data[93..101]
    && ToLittleEndian(s.rewardLastUpdatedAt, 8) == data[261..269]
  }

  predicate U128sMatch(s: PoolState, data: Bytes)
    requires |data| >= 269
  {
    && ToLittleEndian(s.liquidityRaw, 16) == data[49..65]
    && ToLittleEndian(s.sqrtPriceRaw, 16) == data[65..81]
    && ToLittleEndian(s.feeGrowthGlobalA, 16) == data[165..181]
    && ToLittleEndian(s.feeGrowthGlobalB, 16) == data[245..261]
  }

  /** Every field of s, encoded, is the stretch of data at its offset. */
  predicate Matches(s: PoolState, data: Bytes)
    requires |data| >= 269
  {
    KeysMatch(s, data) && NumbersMatch(s, data) && U128sMatch(s, data)
  }

  lemma EncodedKeys(s: PoolState, tail: Bytes)
    ensures |Encode(s, tail)| >= 269 && KeysMatch(s, Encode(s, tail))
  {
    RegionLength(s);
    EncodedPiece(s, tail, 0);
    EncodedPiece(s, tail, 1);
    EncodedPiece(s, tail, 11);
    EncodedPiece(s, tail, 12);
    EncodedPiece(s, tail, 14);
    EncodedPiece(s, tail, 15);
  }

  lemma EncodedNumbers(s: PoolState, tail: Bytes)
    ensures |Encode(s, tail)| >= 269 && NumbersMatch(s, Encode(s, tail))
  {
    RegionLength(s);
    EncodedPiece(s, tail, 2);
    EncodedPiece(s, tail, 3);
    EncodedPiece(s, tail, 4);
    EncodedPiece(s, tail, 5);
    EncodedPiece(s, tail, 8);
    EncodedPiece(s, tail, 9);
    EncodedPiece(s, tail, 10);
    EncodedPiece(s, tail, 17);
  }

  lemma EncodedU128s(s: PoolState, tail: Bytes)
    ensures |Encode(s, tail)| >= 269 && U128sMatch(s, Encode(s, tail))
  {
    RegionLength(s);
    EncodedPiece(s, tail, 6);
    EncodedPiece(s, tail, 7);
    EncodedPiece(s, tail, 13);
    EncodedPiece(s, tail, 16);
  }

  lemma NumberIs(data: Bytes, at: nat, width: nat, x: nat)
    requires at + width <= |data| && x < Pow256(width) && ToLittleEndian(x, width) == data[at..at + width]
    ensures Number(data, at, width) == x
  {
    NumberRoundTrip(x, width);
  }

  lemma U128Is(data: Bytes, at: nat, x: Word128)
    requires at + 16 <= |data| && ToLittleEndian(x, 16) == data[at..at + 16]
    ensures U128At(data, at) == x
  {
    NumberRoundTrip(x, 16);
    ReadU128IsLittleEndian(data[at..at + 16]);
  }

  lemma SignedRoundTrip(x: i32)
    ensures Unsigned32(x) < 0x1_0000_0000 && Signed32(Unsigned32(x)) == x
    ensures forall u: nat | u < 0x1_0000_0000 :: Unsigned32(Signed32(u)) == u
  {
  }

  lemma MatchedNumbers(s: PoolState, data: Bytes)
    requires |data| >= 269 && NumbersMatch(s, data)
    ensures Number(data, 41, 2) == s.tickSpacing && Number(data, 43, 2) == s.feeTierIndexSeed
    ensures Number(data, 45, 2) == s.feeRate && Number(data, 47, 2) == s.protocolFeeRate
    ensures Number(data, 81, 4) == Unsigned32(s.tickCurrentIndex)
    ensures Number(data, 85, 8) == s.protocolFeeOwedA && Number(data, 93, 8) == s.protocolFeeOwedB
    ensures Number(data, 261, 8) == s.rewardLastUpdatedAt
  {
    Width32();
    NumberIs(data, 41, 2, s.tickSpacing);
    NumberIs(data, 43, 2, s.feeTierIndexSeed);
    NumberIs(data, 45, 2, s.feeRate);
    NumberIs(data, 47, 2, s.protocolFeeRate);
    NumberIs(data, 81, 4, Unsigned32(s.tickCurrentIndex));
    NumberIs(data, 85, 8, s.protocolFeeOwedA);
    NumberIs(data, 93, 8, s.protocolFeeOwedB);
    NumberIs(data, 261, 8, s.rewardLastUpdatedAt);
  }

  lemma MatchedU128s(s: PoolState, data: Bytes)
    requires |data| >= 269 && U128sMatch(s, data)
    ensures U128At(data, 49) == s.liquidityRaw && U128At(data, 65) == s.sqrtPriceRaw
    ensures U128At(data, 165) == s.feeGrowthGlobalA && U128At(data, 245) == s.feeGrowthGlobalB
  {
    U128Is(data, 49, s.liquidityRaw);
    U128Is(data, 65, s.sqrtPriceRaw);
    U128Is(data, 165, s.feeGrowthGlobalA);
    U128Is(data, 245, s.feeGrowthGlobalB);
  }

  /** Long enough, tagged, and matching s field by field: that is what decodes to s. */
  lemma MatchedDecodes(s: PoolState, data: Bytes)
    requires |data| >= MIN_SIZE && data[..8] == DISCRIMINATOR && Matches(s, data)
    ensures DecodePoolState(data) == Ok(s)
  {
    MatchedNumbers(s, data);
    MatchedU128s(s, data);
    SignedRoundTrip(s.tickCurrentIndex);
    assert data[40] == data[40..41][0];
  }

  /** Decoding the bytes of a state gives the state back, whatever comes after them. */
  lemma DecodeEncode(s: PoolState, tail: Bytes)
    requires 269 + |tail| >= MIN_SIZE
    ensures DecodePoolState(Encode(s, tail)) == Ok(s)
  {
    RegionLength(s);
    EncodedKeys(s, tail);
    EncodedNumbers(s, tail);
    EncodedU128s(s, tail);
    MatchedDecodes(s, Encode(s, tail));
  }

  // ---- re-encoding what was decoded ----

  lemma NumberPiece(data: Bytes, at: nat, width: nat)
    requires at + width <= |data|
    ensures ToLittleEndian(Number(data, at, width), width) == data[at..at + width]
  {
    BytesRoundTrip(data[at..at + width]);
  }

  lemma U128Piece(data: Bytes, at: nat)
    requires at + 16 <= |data|
    ensures ToLittleEndian(U128At(data, at), 16) == data[at..at + 16]
  {
    ReadU128IsLittleEndian(data[at..at + 16]);
    BytesRoundTrip(data[at..at + 16]);
  }

  lemma DecodedShorts(data: Bytes)
    requires DecodePoolState(data).Ok?
    ensures ShortsMatch(DecodePoolState(data).value, data)
  {
    NumberPiece(data, 41, 2);
    NumberPiece(data, 43, 2);
    NumberPiece(data, 45, 2);
    NumberPiece(data, 47, 2);
  }

  lemma DecodedNumbers(data: Bytes)
    requires DecodePoolState(data).Ok?
    ensures NumbersMatch(DecodePoolState(data).value, data)
  {
    DecodedShorts(data);
    NumberPiece(data, 81, 4);
    NumberPiece(data, 85, 8);
    NumberPiece(data, 93, 8);
    NumberPiece(data, 261, 8);
    Width32();
    SignedRoundTrip(0);
  }

  lemma U128Matches(data: Bytes, at: nat, x: Word128)
    requires at + 16 <= |data| && x == U128At(data, at)
    ensures ToLittleEndian(x, 16) == data[at..at + 16]
  {
    U128Piece(data, at);
  }

  lemma DecodedU128s(data: Bytes)
    requires DecodePoolState(data).Ok?
    ensures U128sMatch(DecodePoolState(data).value, data)
  {
    var s := DecodePoolState(data).value;
    U128Matches(data, 49, s.liquidityRaw);
    U128Matches(data, 65, s.sqrtPriceRaw);
    U128Matches(data, 165, s.feeGrowthGlobalA);
    U128Matches(data, 245, s.feeGrowthGlobalB);
  }

  lemma DecodedMatches(data: Bytes)
    requires DecodePoolState(data).Ok?
    ensures Matches(DecodePoolState(data).value, data)
  {
    DecodedNumbers(data);
    DecodedU128s(data);
  }

  /** Pieces cut out one after the other flatten to the stretch they were cut from. */
  lemma {:induction false} FlattenCuts(data: Bytes, pieces: seq<Bytes>, offsets: seq<nat>, widths: seq<nat>)
    requires |pieces| == |offsets| == |widths| > 0
    requires forall i | 0 <= i < |pieces| ::
               offsets[i] + widths[i] <= |data| && pieces[i] == data[offsets[i]..offsets[i] + widths[i]]
    requires forall i | 0 <= i < |offsets| - 1 :: offsets[i + 1] == offsets[i] + widths[i]
    ensures offsets[0] <= offsets[|offsets| - 1] + widths[|widths| - 1] <= |data|
    ensures Flatten(pieces) == data[offsets[0]..offsets[|offsets| - 1] + widths[|widths| - 1]]
    decreases |pieces|
  {
    if |pieces| == 1 {
      assert pieces[1..] == [];
    } else {
      FlattenCuts(data, pieces[1..], offsets[1..], widths[1..]);
    }
  }

  lemma MatchingPieces(s: PoolState, data: Bytes)
    requires |data| >= 269 && Matches(s, data)
    ensures forall i | 0 <= i < 18 ::
              OFFSETS[i] + WIDTHS[i] <= |data| && Pieces(s)[i] == data[OFFSETS[i]..OFFSETS[i] + WIDTHS[i]]
  {
  }

  lemma MatchingRegion(s: PoolState, data: Bytes)
    requires |data| >= 269 && Matches(s, data) && data[..8] == DISCRIMINATOR
    ensures Region(s) == data[..269]
  {
    MatchingPieces(s, data);
    FieldsTile();
    FlattenCuts(data, Pieces(s), OFFSETS, WIDTHS);
    assert data[..269] == data[..8] + data[8..269];
  }

  /** Re-encoding any accepted buffer with its own tail reproduces the buffer. */
  lemma EncodeDecode(data: Bytes)
    requires DecodePoolState(data).Ok?
    ensures Region(DecodePoolState(data).value) == data[..269]
    ensures Encode(DecodePoolState(data).value, data[269..]) == data
  {
    DecodedMatches(data);
    MatchingRegion(DecodePoolState(data).value, data);
    assert data == data[..269] + data[269..];
  }

  /** Two accepted buffers decode alike exactly when they agree on their first 269 bytes. */
  lemma DecodeExactly(data: Bytes, other: Bytes)
    requires DecodePoolState(data).Ok? && DecodePoolState(other).Ok?
    ensures DecodePoolState(data) == DecodePoolState(other) <==> data[..269] == other[..269]
  {
    EncodeDecode(data);
    EncodeDecode(other);
    if data[..269] == other[..269] {
      var t, tail := DecodePoolState(other).value, data[269..];
      assert Encode(t, tail) == data;
      DecodeEncode(t, tail);
    }
  }

  // ---- acceptance and fields, byte by byte ----

  /** A buffer is accepted exactly when it has 653 bytes or more and begins with the discriminator's eight bytes. */
  lemma AcceptedExactly(data: Bytes)
    ensures DecodePoolState(data) == Err(InvalidLength(|data|)) <==> |data| < 653
    ensures DecodePoolState(data).Ok? <==>
            |data| >= 653 && data[0] == 63 && data[1] == 149 && data[2] == 209 && data[3] == 12
            && data[4] == 225 && data[5] == 128 && data[6] == 99 && data[7] == 9
    ensures DecodePoolState(data) == Err(InvalidDiscriminator) <==> |data| >= 653 && !DecodePoolState(data).Ok?
  {
    if |data| >= 653 {
      assert data[..8] == [data[0], data[1], data[2], data[3], data[4], data[5], data[6], data[7]];
    }
  }

  function TwoBytes(data: Bytes, at: nat): nat
    requires at + 2 <= |data|
  {
    var low: nat, high: nat := data[at], data[at + 1];
    low + 256 * high
  }

  function FourBytes(data: Bytes, at: nat): nat
    requires at + 4 <= |data|
  {
    TwoBytes(data, at) + 0x1_0000 * TwoBytes(data, at + 2)
  }

  function EightBytes(data: Bytes, at: nat): nat
    requires at + 8 <= |data|
  {
    FourBytes(data, at) + 0x1_0000_0000 * FourBytes(data, at + 4)
  }

  function SixteenBytes(data: Bytes, at: nat): nat
    requires at + 16 <= |data|
  {
    EightBytes(data, at) + 0x1_0000_0000_0000_0000 * EightBytes(data, at + 8)
  }

  lemma Powers()
    ensures Pow256(2) == 0x1_0000 && Pow256(4) == 0x1_0000_0000 && Pow256(8) == 0x1_0000_0000_0000_0000
  {
    assert Pow256(4) == 256 * 256 * Pow256(2);
    assert Pow256(6) == 256 * 256 * Pow256(4);
    assert Pow256(8) == 256 * 256 * Pow256(6);
  }

  lemma NumberOfTwo(data: Bytes, at: nat)
    requires at + 2 <= |data|
    ensures Number(data, at, 2) == TwoBytes(data, at)
  {
    var piece := data[at..at + 2];
    assert piece[1..] == [data[at + 1]] && piece[1..][1..] == [];
    assert FromLittleEndian(piece[1..]) == data[at + 1];
  }

  lemma Halves(data: Bytes, at: nat, half: nat)
    requires at + 2 * half <= |data|
    ensures Number(data, at, 2 * half) == Number(data, at, half) + Number(data, at + half, half) * Pow256(half)
  {
    assert data[at..at + 2 * half] == data[at..at + half] + data[at + half..at + 2 * half];
    LittleEndianConcat(data[at..at + half], data[at + half..at + half + half]);
  }

  lemma NumberOfFour(data: Bytes, at: nat)
    requires at + 4 <= |data|
    ensures Number(data, at, 4) == FourBytes(data, at)
  {
    Halves(data, at, 2);
    NumberOfTwo(data, at);
    NumberOfTwo(data, at + 2);
    Powers();
  }

  lemma NumberOfEight(data: Bytes, at: nat)
    requires at + 8 <= |data|
    ensures Number(data, at, 8) == EightBytes(data, at)
  {
    Halves(data, at, 4);
    NumberOfFour(data, at);
    NumberOfFour(data, at + 4);
    Powers();
  }

  lemma NumberOfSixteen(data: Bytes, at: nat)
    requires at + 16 <= |data|
    ensures U128At(data, at) == SixteenBytes(data, at)
  {
    ReadU128IsLittleEndian(data[at..at + 16]);
    Halves(data, at, 8);
    NumberOfEight(data, at);
    NumberOfEight(data, at + 8);
    Powers();
  }

  /** Where each small field of an accepted buffer stands. */
  lemma SmallFields(data: Bytes)
    requires DecodePoolState(data).Ok?
    ensures var s := DecodePoolState(data).value;
            && s.whirlpoolBump == data[40]
            && s.tickSpacing == TwoBytes(data, 41) && s.feeTierIndexSeed == TwoBytes(data, 43)
            && s.feeRate == TwoBytes(data, 45) && s.protocolFeeRate == TwoBytes(data, 47)
  {
    NumberOfTwo(data, 41);
    NumberOfTwo(data, 43);
    NumberOfTwo(data, 45);
    NumberOfTwo(data, 47);
  }

  /** The tick index is signed. */
  lemma TickField(data: Bytes)
    requires DecodePoolState(data).Ok?
    ensures DecodePoolState(data).value.tickCurrentIndex
            == FourBytes(data, 81) - if data[84] >= 128 then 0x1_0000_0000 else 0
  {
    NumberOfFour(data, 81);
  }

  /** Where each large field stands. */
  lemma LargeFields(data: Bytes)
    requires DecodePoolState(data).Ok?
    ensures var s := DecodePoolState(data).value;
            && s.whirlpoolsConfig == data[8..40]
            && s.tokenMintA == data[101..133] && s.tokenVaultA == data[133..165]
            && s.tokenMintB == data[181..213] && s.tokenVaultB == data[213..245]
            && s.protocolFeeOwedA == EightBytes(data, 85) && s.protocolFeeOwedB == EightBytes(data, 93)
            && s.rewardLastUpdatedAt == EightBytes(data, 261)
            && s.liquidityRaw == SixteenBytes(data, 49) && s.sqrtPriceRaw == SixteenBytes(data, 65)
            && s.feeGrowthGlobalA == SixteenBytes(data, 165) && s.feeGrowthGlobalB == SixteenBytes(data, 245)
  {
    NumberOfEight(data, 85);
    NumberOfEight(data, 93);
    NumberOfEight(data, 261);
    NumberOfSixteen(data, 49);
    NumberOfSixteen(data, 65);
    NumberOfSixteen(data, 165);
    NumberOfSixteen(data, 245);
  }
}
