/** The account decoders: discriminator, then fields in the order of the interface definition,
    integers little-endian. */
module Accounts {
  import opened Types

  type Byte = x: int | 0 <= x < 256
  type Bytes = seq<Byte>
  type Key = k: Bytes | |k| == 32 witness seq(32, i => 0)
  type U64 = x: int | 0 <= x < 0x1_0000_0000_0000_0000
  type U16 = x: int | 0 <= x < 0x1_0000
  type I64 = x: int | -0x8000_0000_0000_0000 <= x < 0x8000_0000_0000_0000

  datatype Pool = Pool(interestRate: Byte, collateralType: Key, maxBorrow: U64, nodeWallet: Key,
                       maxExposure: U64, currentExposure: U64, qtType: Key)

  datatype NodeWallet = NodeWallet(totalFunds: U64, totalBorrowed: U64, maintenanceLtv: Byte,
                                   liquidationLtv: U16, nodeOperator: Key, mint: Key)

  datatype Position = Position(pool: Key, closeStatusRecallTimestamp: U64, amount: U64, userPaid: U64,
                               collateralAmount: U64, timestamp: I64, trader: Key, seed: Key,
                               closeTimestamp: I64, closingPositionSize: U64, interestRate: Byte,
                               lastInterestCollect: I64)

  const POOL_TAG: Bytes := [0x8a, 0x8b, 0x8c, 0x8d, 0x8e, 0x8f, 0x90, 0x91]
  const NODE_WALLET_TAG: Bytes := [0x8a, 0x8b, 0x8c, 0x8d, 0x8e, 0x8f, 0x90, 0x92]
  const POSITION_TAG: Bytes := [0x8a, 0x8b, 0x8c, 0x8d, 0x8e, 0x8f, 0x90, 0x93]

  const POOL_SIZE := 129
  const NODE_WALLET_SIZE := 91
  const POSITION_SIZE := 169

  // Integers

  function Pow256(n: nat): nat {
    if n == 0 then 1 else 256 * Pow256(n - 1)
  }

  /** The value of bytes, the least significant first. */
  function Little(b: Bytes): nat {
    if b == [] then 0 else b[0] + 256 * Little(b[1..])
  }

  function ToLittle(x: nat, n: nat): (b: Bytes)
    ensures |b| == n
  {
    if n == 0 then [] else [x % 256] + ToLittle(x / 256, n - 1)
  }

  lemma {:induction false} LittleBound(b: Bytes)
    ensures Little(b) < Pow256(|b|)
  {
    if b != [] {
      LittleBound(b[1..]);
    }
  }

  lemma {:induction false} LittleOfToLittle(x: nat, n: nat)
    requires x < Pow256(n)
    ensures Little(ToLittle(x, n)) == x
  {
    if n > 0 {
      LittleOfToLittle(x / 256, n - 1);
      assert ToLittle(x, n)[1..] == ToLittle(x / 256, n - 1);
    }
  }

  lemma {:induction false} ToLittleOfLittle(b: Bytes)
    ensures ToLittle(Little(b), |b|) == b
  {
    if b != [] {
      ToLittleOfLittle(b[1..]);
      var x := Little(b);
      assert x % 256 == b[0] && x / 256 == Little(b[1..]);
      assert b == [b[0]] + b[1..];
    }
  }

  lemma Powers()
    ensures Pow256(8) == 0x1_0000_0000_0000_0000 && Pow256(2) == 0x1_0000
  {
    assert Pow256(2) == 256 * Pow256(1) && Pow256(4) == 256 * (256 * Pow256(2));
    assert Pow256(6) == 256 * (256 * Pow256(4)) && Pow256(8) == 256 * (256 * Pow256(6));
  }

  function ReadU64(b: Bytes): U64
    requires |b| == 8
  {
    Powers();
    LittleBound(b);
    Little(b)
  }

  function ReadU16(b: Bytes): U16
    requires |b| == 2
  {
    Powers();
    LittleBound(b);
    Little(b)
  }

  /** The conversion from an unsigned to a signed 64-bit integer keeps the bits. */
  function Signed(x: U64): I64 {
    if x < 0x8000_0000_0000_0000 then x else x - 0x1_0000_0000_0000_0000
  }

  function Unsigned(x: I64): U64 {
    if x >= 0 then x else x + 0x1_0000_0000_0000_0000
  }

  function U64Bytes(x: U64): (b: Bytes)
    ensures |b| == 8
  {
    ToLittle(x, 8)
  }

  lemma U64RoundTrip(x: U64)
    ensures ReadU64(U64Bytes(x)) == x
  {
    Powers();
    LittleOfToLittle(x, 8);
  }

  lemma U16RoundTrip(x: U16)
    ensures ReadU16(ToLittle(x, 2)) == x
  {
    Powers();
    LittleOfToLittle(x, 2);
  }

  lemma BytesRoundTrip(b: Bytes)
    ensures |b| == 8 ==> U64Bytes(ReadU64(b)) == b && U64Bytes(Unsigned(Signed(ReadU64(b)))) == b
    ensures |b| == 2 ==> ToLittle(ReadU16(b), 2) == b
  {
    ToLittleOfLittle(b);
  }

  // Reading from the front

  lemma Cut(data: Bytes, offset: nat, n: nat)
    requires offset + n <= |data|
    ensures data[offset..][..n] == data[offset..offset + n] && data[offset..][n..] == data[offset + n..]
    ensures data[offset..] == data[offset..offset + n] + data[offset + n..]
  {
  }

  lemma Front(part: Bytes, rest: Bytes)
    ensures (part + rest)[..|part|] == part && (part + rest)[|part|..] == rest
  {
  }

  method BytesEqual(a: Bytes, b: Bytes) returns (equal: bool)
    ensures equal <==> a == b
  {
    if |a| != |b| {
      return false;
    }
    for i := 0 to |a|
      invariant a[..i] == b[..i]
    {
      if a[i] != b[i] {
        return false;
      }
      assert a[..i + 1] == a[..i] + [a[i]] && b[..i + 1] == b[..i] + [b[i]];
    }
    assert a == a[..|a|] && b == b[..|b|];
    return true;
  }

  // Pools

  /** A pool account followed by other bytes. */
  function PoolThen(p: Pool, tail: Bytes): Bytes {
    POOL_TAG + ([p.interestRate] + (p.collateralType + (U64Bytes(p.maxBorrow) + (p.nodeWallet
      + (U64Bytes(p.maxExposure) + (U64Bytes(p.currentExposure) + (p.qtType + tail)))))))
  }

  function DecodePool(data: Bytes): Option<Pool> {
    if |data| < POOL_SIZE || data[..8] != POOL_TAG then None
    else Some(Pool(data[8], data[9..41], ReadU64(data[41..49]), data[49..81], ReadU64(data[81..89]),
                   ReadU64(data[89..97]), data[97..129]))
  }

  method DeserializePool(data: Bytes) returns (r: Option<Pool>)
    ensures r == DecodePool(data)
  {
    if |data| < 8 {
      return None;
    }
    var known := BytesEqual(data[..8], POOL_TAG);
    if !known {
      return None;
    }
    var offset := 8;
    if offset + 1 > |data| { return None; }
    var interestRate := data[offset];
    offset := offset + 1;
    if offset + 32 > |data| { return None; }
    var collateralType := data[offset..offset + 32];
    offset := offset + 32;
    if offset + 8 > |data| { return None; }
    var maxBorrow := ReadU64(data[offset..offset + 8]);
    offset := offset + 8;
    if offset + 32 > |data| { return None; }
    var nodeWallet := data[offset..offset + 32];
    offset := offset + 32;
    if offset + 8 > |data| { return None; }
    var maxExposure := ReadU64(data[offset..offset + 8]);
    offset := offset + 8;
    if offset + 8 > |data| { return None; }
    var currentExposure := ReadU64(data[offset..offset + 8]);
    offset := offset + 8;
    if offset + 32 > |data| { return None; }
    var qtType := data[offset..offset + 32];
    offset := offset + 32;
    return Some(Pool(interestRate, collateralType, maxBorrow, nodeWallet, maxExposure, currentExposure, qtType));
  }

  /** What was accepted is the encoding of what was decoded, followed by the rest of the data. */
  lemma PoolCanonical(data: Bytes)
    requires DecodePool(data).Some?
    ensures PoolThen(DecodePool(data).value, data[POOL_SIZE..]) == data
  {
    var p := DecodePool(data).value;
    var r7 := Joined(data, 97, p.qtType, data[129..]);
    var r6 := JoinedU64(data, 89, p.currentExposure, r7);
    var r5 := JoinedU64(data, 81, p.maxExposure, r6);
    var r4 := Joined(data, 49, p.nodeWallet, r5);
    var r3 := JoinedU64(data, 41, p.maxBorrow, r4);
    var r2 := Joined(data, 9, p.collateralType, r3);
    var r1 := Joined(data, 8, [p.interestRate], r2);
    var r0 := Joined(data, 0, POOL_TAG, r1);
  }

  /** A part of the data and what follows it make up the data from the part on. */
  lemma Joined(data: Bytes, offset: nat, part: Bytes, rest: Bytes) returns (all: Bytes)
    requires offset + |part| <= |data| && part == data[offset..offset + |part|] && rest == data[offset + |part|..]
    ensures all == part + rest == data[offset..]
  {
    all := part + rest;
    Cut(data, offset, |part|);
  }

  lemma JoinedU64(data: Bytes, offset: nat, x: U64, rest: Bytes) returns (all: Bytes)
    requires offset + 8 <= |data| && x == ReadU64(data[offset..offset + 8]) && rest == data[offset + 8..]
    ensures all == U64Bytes(x) + rest == data[offset..]
  {
    BytesRoundTrip(data[offset..offset + 8]);
    all := Joined(data, offset, U64Bytes(x), rest);
  }

  lemma JoinedI64(data: Bytes, offset: nat, x: I64, rest: Bytes) returns (all: Bytes)
    requires offset + 8 <= |data| && x == Signed(ReadU64(data[offset..offset + 8])) && rest == data[offset + 8..]
    ensures all == U64Bytes(Unsigned(x)) + rest == data[offset..]
  {
    BytesRoundTrip(data[offset..offset + 8]);
    all := Joined(data, offset, U64Bytes(Unsigned(x)), rest);
  }

  /** Decoding an encoded pool, whatever follows it, gives the pool back. */
  lemma PoolRoundTrip(p: Pool, tail: Bytes)
    ensures DecodePool(PoolThen(p, tail)) == Some(p)
  {
    var r7 := p.qtType + tail;
    var r6 := U64Bytes(p.currentExposure) + r7;
    var r5 := U64Bytes(p.maxExposure) + r6;
    var r4 := p.nodeWallet + r5;
    var r3 := U64Bytes(p.maxBorrow) + r4;
    var r2 := p.collateralType + r3;
    var r1 := [p.interestRate] + r2;
    var data := PoolThen(p, tail);
    assert data == POOL_TAG + r1;
    Next(data, 0, POOL_TAG, r1);
    Next(data, 8, [p.interestRate], r2);
    Next(data, 9, p.collateralType, r3);
    Next(data, 41, U64Bytes(p.maxBorrow), r4);
    Next(data, 49, p.nodeWallet, r5);
    Next(data, 81, U64Bytes(p.maxExposure), r6);
    Next(data, 89, U64Bytes(p.currentExposure), r7);
    Next(data, 97, p.qtType, tail);
    U64RoundTrip(p.maxBorrow);
    U64RoundTrip(p.maxExposure);
    U64RoundTrip(p.currentExposure);
    assert data[8..9][0] == data[8];
  }

  /** If the data from `offset` on is `part` and then `rest`, then so much is read off it. */
  lemma Next(data: Bytes, offset: nat, part: Bytes, rest: Bytes)
    requires offset <= |data| && data[offset..] == part + rest
    ensures offset + |part| <= |data|
    ensures data[offset..offset + |part|] == part && data[offset + |part|..] == rest
  {
    Cut(data, offset, |part|);
    Front(part, rest);
  }

  // Node wallets

  function NodeWalletThen(w: NodeWallet, tail: Bytes): Bytes {
    NODE_WALLET_TAG + (U64Bytes(w.totalFunds) + (U64Bytes(w.totalBorrowed) + ([w.maintenanceLtv]
      + (ToLittle(w.liquidationLtv, 2) + (w.nodeOperator + (w.mint + tail))))))
  }

  function DecodeNodeWallet(data: Bytes): Option<NodeWallet> {
    if |data| < NODE_WALLET_SIZE || data[..8] != NODE_WALLET_TAG then None
    else Some(NodeWallet(ReadU64(data[8..16]), ReadU64(data[16..24]), data[24], ReadU16(data[25..27]),
                         data[27..59], data[59..91]))
  }

  method DeserializeNodeWallet(data: Bytes) returns (r: Option<NodeWallet>)
    ensures r == DecodeNodeWallet(data)
  {
    if |data| < 8 {
      return None;
    }
    var known := BytesEqual(data[..8], NODE_WALLET_TAG);
    if !known {
      return None;
    }
    var offset := 8;
    if offset + 8 > |data| { return None; }
    var totalFunds := ReadU64(data[offset..offset + 8]);
    offset := offset + 8;
    if offset + 8 > |data| { return None; }
    var totalBorrowed := ReadU64(data[offset..offset + 8]);
    offset := offset + 8;
    if offset + 1 > |data| { return None; }
    var maintenanceLtv := data[offset];
    offset := offset + 1;
    if offset + 2 > |data| { return None; }
    var liquidationLtv := ReadU16(data[offset..offset + 2]);
    offset := offset + 2;
    if offset + 32 > |data| { return None; }
    var nodeOperator := data[offset..offset + 32];
    offset := offset + 32;
    if offset + 32 > |data| { return None; }
    var mint := data[offset..offset + 32];
    offset := offset + 32;
    return Some(NodeWallet(totalFunds, totalBorrowed, maintenanceLtv, liquidationLtv, nodeOperator, mint));
  }

  lemma NodeWalletCanonical(data: Bytes)
    requires DecodeNodeWallet(data).Some?
    ensures NodeWalletThen(DecodeNodeWallet(data).value, data[NODE_WALLET_SIZE..]) == data
  {
    var w := DecodeNodeWallet(data).value;
    BytesRoundTrip(data[25..27]);
    var r6 := Joined(data, 59, w.mint, data[91..]);
    var r5 := Joined(data, 27, w.nodeOperator, r6);
    var r4 := Joined(data, 25, ToLittle(w.liquidationLtv, 2), r5);
    var r3 := Joined(data, 24, [w.maintenanceLtv], r4);
    var r2 := JoinedU64(data, 16, w.totalBorrowed, r3);
    var r1 := JoinedU64(data, 8, w.totalFunds, r2);
    var r0 := Joined(data, 0, NODE_WALLET_TAG, r1);
  }

  lemma NodeWalletRoundTrip(w: NodeWallet, tail: Bytes)
    ensures DecodeNodeWallet(NodeWalletThen(w, tail)) == Some(w)
  {
    var r6 := w.mint + tail;
    var r5 := w.nodeOperator + r6;
    var r4 := ToLittle(w.liquidationLtv, 2) + r5;
    var r3 := [w.maintenanceLtv] + r4;
    var r2 := U64Bytes(w.totalBorrowed) + r3;
    var r1 := U64Bytes(w.totalFunds) + r2;
    var data := NodeWalletThen(w, tail);
    assert data == NODE_WALLET_TAG + r1;
    Next(data, 0, NODE_WALLET_TAG, r1);
    Next(data, 8, U64Bytes(w.totalFunds), r2);
    Next(data, 16, U64Bytes(w.totalBorrowed), r3);
    Next(data, 24, [w.maintenanceLtv], r4);
    Next(data, 25, ToLittle(w.liquidationLtv, 2), r5);
    Next(data, 27, w.nodeOperator, r6);
    Next(data, 59, w.mint, tail);
    U64RoundTrip(w.totalFunds);
    U64RoundTrip(w.totalBorrowed);
    U16RoundTrip(w.liquidationLtv);
    assert data[24..25][0] == data[24];
  }

  // Positions

  function I64Bytes(x: I64): (b: Bytes)
    ensures |b| == 8
  {
    U64Bytes(Unsigned(x))
  }

  function PositionThen(p: Position, tail: Bytes): Bytes {
    POSITION_TAG + (p.pool + (U64Bytes(p.closeStatusRecallTimestamp) + (U64Bytes(p.amount)
      + (U64Bytes(p.userPaid) + (U64Bytes(p.collateralAmount) + (I64Bytes(p.timestamp) + (p.trader + (p.seed
      + (I64Bytes(p.closeTimestamp) + (U64Bytes(p.closingPositionSize) + ([p.interestRate]
      + (I64Bytes(p.lastInterestCollect) + tail))))))))))))
  }

  function DecodePosition(data: Bytes): Option<Position> {
    if |data| < POSITION_SIZE || data[..8] != POSITION_TAG then None
    else Some(Position(data[8..40], ReadU64(data[40..48]), ReadU64(data[48..56]), ReadU64(data[56..64]),
                       ReadU64(data[64..72]), Signed(ReadU64(data[72..80])), data[80..112], data[112..144],
                       Signed(ReadU64(data[144..152])), ReadU64(data[152..160]), data[160],
                       Signed(ReadU64(data[161..169]))))
  }

  method DeserializePosition(data: Bytes) returns (r: Option<Position>)
    ensures r == DecodePosition(data)
  {
    if |data| < 8 {
      return None;
    }
    var known := BytesEqual(data[..8], POSITION_TAG);
    if !known {
      return None;
    }
    var offset := 8;
    if offset + 32 > |data| { return None; }
    var pool := data[offset..offset + 32];
    offset := offset + 32;
    if offset + 8 > |data| { return None; }
    var closeStatusRecallTimestamp := ReadU64(data[offset..offset + 8]);
    offset := offset + 8;
    if offset + 8 > |data| { return None; }
    var amount := ReadU64(data[offset..offset + 8]);
    offset := offset + 8;
    if offset + 8 > |data| { return None; }
    var userPaid := ReadU64(data[offset..offset + 8]);
    offset := offset + 8;
    if offset + 8 > |data| { return None; }
    var collateralAmount := ReadU64(data[offset..offset + 8]);
    offset := offset + 8;
    if offset + 8 > |data| { return None; }
    var timestamp := Signed(ReadU64(data[offset..offset + 8]));
    offset := offset + 8;
    if offset + 32 > |data| { return None; }
    var trader := data[offset..offset + 32];
    offset := offset + 32;
    if offset + 32 > |data| { return None; }
    var seed := data[offset..offset + 32];
    offset := offset + 32;
    if offset + 8 > |data| { return None; }
    var closeTimestamp := Signed(ReadU64(data[offset..offset + 8]));
    offset := offset + 8;
    if offset + 8 > |data| { return None; }
    var closingPositionSize := ReadU64(data[offset..offset + 8]);
    offset := offset + 8;
    if offset + 1 > |data| { return None; }
    var interestRate := data[offset];
    offset := offset + 1;
    if offset + 8 > |data| { return None; }
    var lastInterestCollect := Signed(ReadU64(data[offset..offset + 8]));
    offset := offset + 8;
    return Some(Position(pool, closeStatusRecallTimestamp, amount, userPaid, collateralAmount, timestamp, trader,
                         seed, closeTimestamp, closingPositionSize, interestRate, lastInterestCollect));
  }

  lemma PositionCanonical(data: Bytes)
    requires DecodePosition(data).Some?
    ensures PositionThen(DecodePosition(data).value, data[POSITION_SIZE..]) == data
  {
    var p := DecodePosition(data).value;
    var r12 := JoinedI64(data, 161, p.lastInterestCollect, data[169..]);
    var r11 := Joined(data, 160, [p.interestRate], r12);
    var r10 := JoinedU64(data, 152, p.closingPositionSize, r11);
    var r9 := JoinedI64(data, 144, p.closeTimestamp, r10);
    var r8 := Joined(data, 112, p.seed, r9);
    var r7 := Joined(data, 80, p.trader, r8);
    var r6 := JoinedI64(data, 72, p.timestamp, r7);
    var r5 := JoinedU64(data, 64, p.collateralAmount, r6);
    var r4 := JoinedU64(data, 56, p.userPaid, r5);
    var r3 := JoinedU64(data, 48, p.amount, r4);
    var r2 := JoinedU64(data, 40, p.closeStatusRecallTimestamp, r3);
    var r1 := Joined(data, 8, p.pool, r2);
    var r0 := Joined(data, 0, POSITION_TAG, r1);
  }

  lemma I64RoundTrip(x: I64)
    ensures Signed(ReadU64(I64Bytes(x))) == x
  {
    U64RoundTrip(Unsigned(x));
  }

  lemma PositionRoundTrip(p: Position, tail: Bytes)
    ensures DecodePosition(PositionThen(p, tail)) == Some(p)
  {
    var r12 := I64Bytes(p.lastInterestCollect) + tail;
    var r11 := [p.interestRate] + r12;
    var r10 := U64Bytes(p.closingPositionSize) + r11;
    var r9 := I64Bytes(p.closeTimestamp) + r10;
    var r8 := p.seed + r9;
    var r7 := p.trader + r8;
    var r6 := I64Bytes(p.timestamp) + r7;
    var r5 := U64Bytes(p.collateralAmount) + r6;
    var r4 := U64Bytes(p.userPaid) + r5;
    var r3 := U64Bytes(p.amount) + r4;
    var r2 := U64Bytes(p.closeStatusRecallTimestamp) + r3;
    var r1 := p.pool + r2;
    var data := PositionThen(p, tail);
    assert data == POSITION_TAG + r1;
    Next(data, 0, POSITION_TAG, r1);
    Next(data, 8, p.pool, r2);
    Next(data, 40, U64Bytes(p.closeStatusRecallTimestamp), r3);
    Next(data, 48, U64Bytes(p.amount), r4);
    Next(data, 56, U64Bytes(p.userPaid), r5);
    Next(data, 64, U64Bytes(p.collateralAmount), r6);
    Next(data, 72, I64Bytes(p.timestamp), r7);
    Next(data, 80, p.trader, r8);
    Next(data, 112, p.seed, r9);
    Next(data, 144, I64Bytes(p.closeTimestamp), r10);
    Next(data, 152, U64Bytes(p.closingPositionSize), r11);
    Next(data, 160, [p.interestRate], r12);
    Next(data, 161, I64Bytes(p.lastInterestCollect), tail);
    U64RoundTrip(p.closeStatusRecallTimestamp);
    U64RoundTrip(p.amount);
    U64RoundTrip(p.userPaid);
    U64RoundTrip(p.collateralAmount);
    U64RoundTrip(p.closingPositionSize);
    I64RoundTrip(p.timestamp);
    I64RoundTrip(p.closeTimestamp);
    I64RoundTrip(p.lastInterestCollect);
    assert data[160..161][0] == data[160];
  }

  /** No data is accepted by two decoders. */
  lemma DecodersDisjoint(data: Bytes)
    ensures !(DecodePool(data).Some? && DecodeNodeWallet(data).Some?)
    ensures !(DecodePool(data).Some? && DecodePosition(data).Some?)
    ensures !(DecodeNodeWallet(data).Some? && DecodePosition(data).Some?)
  {
    assert POOL_TAG[7] != NODE_WALLET_TAG[7] && POOL_TAG[7] != POSITION_TAG[7] && NODE_WALLET_TAG[7] != POSITION_TAG[7];
  }

  // What the decoders accept

  /** The accepted data are exactly the encoded accounts, followed by anything. */
  lemma PoolAccepts(data: Bytes)
    ensures DecodePool(data).Some? <==> exists p, tail :: PoolThen(p, tail) == data
  {
    if DecodePool(data).Some? {
      PoolCanonical(data);
      assert PoolThen(DecodePool(data).value, data[POOL_SIZE..]) == data;
    }
    forall p, tail | PoolThen(p, tail) == data ensures DecodePool(data).Some? {
      PoolRoundTrip(p, tail);
    }
  }

  lemma NodeWalletAccepts(data: Bytes)
    ensures DecodeNodeWallet(data).Some? <==> exists w, tail :: NodeWalletThen(w, tail) == data
  {
    if DecodeNodeWallet(data).Some? {
      NodeWalletCanonical(data);
      assert NodeWalletThen(DecodeNodeWallet(data).value, data[NODE_WALLET_SIZE..]) == data;
    }
    forall w, tail | NodeWalletThen(w, tail) == data ensures DecodeNodeWallet(data).Some? {
      NodeWalletRoundTrip(w, tail);
    }
  }

  lemma PositionAccepts(data: Bytes)
    ensures DecodePosition(data).Some? <==> exists p, tail :: PositionThen(p, tail) == data
  {
    if DecodePosition(data).Some? {
      PositionCanonical(data);
      assert PositionThen(DecodePosition(data).value, data[POSITION_SIZE..]) == data;
    }
    forall p, tail | PositionThen(p, tail) == data ensures DecodePosition(data).Some? {
      PositionRoundTrip(p, tail);
    }
  }

  /** The account size that the backfiller asks the chain for. */
  const FETCHED_POOL_SIZE := 105

  /** The pools among the accounts, in order. */
  function PoolsAmong(accounts: seq<Bytes>): seq<Pool> {
    if accounts == [] then []
    else
      var last := DecodePool(accounts[|accounts| - 1]);
      PoolsAmong(accounts[..|accounts| - 1]) + if last.Some? then [last.value] else []
  }

  /** Decodes what it can and skips the rest. Accounts of the size that is asked for are all too
      short, so nothing comes of them. */
  method DecodePools(accounts: seq<Bytes>) returns (pools: seq<Pool>)
    ensures pools == PoolsAmong(accounts)
    ensures (forall i :: 0 <= i < |accounts| ==> |accounts[i]| == FETCHED_POOL_SIZE) ==> pools == []
  {
    pools := [];
    for i := 0 to |accounts|
      invariant pools == PoolsAmong(accounts[..i])
      invariant (forall j :: 0 <= j < |accounts| ==> |accounts[j]| == FETCHED_POOL_SIZE) ==> pools == []
    {
      assert accounts[..i + 1][..i] == accounts[..i];
      var r := DeserializePool(accounts[i]);
      if r.Some? {
        pools := pools + [r.value];
      }
    }
    assert accounts[..|accounts|] == accounts;
  }
}
