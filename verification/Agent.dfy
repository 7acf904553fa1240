/** The on-chain agent: its nine-byte instruction, the seeds of the mandate address, and what it checks before paying. */
module Agent {
  import opened Types
  import Fees

  // ---------------------------------------------------------------- little-endian fields

  function Pow256(n: nat): (p: nat)
    ensures p > 0
  {
    if n == 0 then 1 else 256 * Pow256(n - 1)
  }

  function LeBytes(value: nat, width: nat): (b: Bytes)
    ensures |b| == width
  {
    if width == 0 then [] else [value % 256] + LeBytes(value / 256, width - 1)
  }

  function LeValue(b: Bytes): nat {
    if b == [] then 0 else b[0] + 256 * LeValue(b[1..])
  }

  lemma {:induction false} LeRoundTrip(value: nat, width: nat)
    requires value < Pow256(width)
    ensures LeValue(LeBytes(value, width)) == value
  {
    if width > 0 {
      LeRoundTrip(value / 256, width - 1);
      assert LeBytes(value, width)[1..] == LeBytes(value / 256, width - 1);
    }
  }

  lemma {:induction false} LeValueRoundTrip(b: Bytes)
    ensures LeValue(b) < Pow256(|b|) && LeBytes(LeValue(b), |b|) == b
  {
    if b != [] {
      LeValueRoundTrip(b[1..]);
      var rest := LeValue(b[1..]);
      assert LeValue(b) == b[0] + 256 * rest && LeValue(b) % 256 == b[0] && LeValue(b) / 256 == rest;
      assert b == [b[0]] + b[1..];
    }
  }

  /** Byte `i` counts how many times 256^i goes into the value, beyond what the bytes after it say. */
  lemma {:induction false} LeByteAt(value: nat, width: nat, i: nat)
    requires i < width
    ensures LeBytes(value, width)[i] == value / Pow256(i) % 256
  {
    if i > 0 {
      LeByteAt(value / 256, width - 1, i - 1);
      Quotients(value, Pow256(i - 1));
    }
  }

  lemma Quotients(value: nat, p: nat)
    requires p > 0
    ensures value / 256 / p == value / (256 * p)
  {
    var q, r := value / 256 / p, value / 256 % p;
    var low := value % 256;
    assert value == 256 * (q * p + r) + low;
    assert value == q * (256 * p) + (256 * r + low);
    assert 0 <= 256 * r + low < 256 * p;
    Unique(value, 256 * p, q, 256 * r + low);
  }

  lemma Unique(n: nat, d: nat, q: nat, r: nat)
    requires d > 0 && n == q * d + r && r < d
    ensures n / d == q
  {
    var q', r' := n / d, n % d;
    assert (q' - q) * d == r - r';
    Scaled(q' - q, d);
  }

  lemma Scaled(k: int, d: nat)
    ensures k > 0 ==> k * d >= d
    ensures k < 0 ==> k * d + d <= 0
  {}

  lemma Pow256Of8()
    ensures Pow256(8) == U64
  {
    assert Pow256(4) == 0x1_0000_0000;
    assert Pow256(8) == 256 * 256 * 256 * 256 * Pow256(4);
  }

  // ---------------------------------------------------------------- the instruction

  datatype AgentError =
    | InvalidInstructionData
    | NotEnoughAccountKeys
    | WrongTokenProgram
    | MandateMismatch
    | MintNotOwnedByToken2022
    | FeeOverflow

  /** Decode a tag byte 0 and exactly eight amount bytes. */
  function Unpack(data: Bytes): Option<nat> {
    if |data| == 9 && data[0] == 0 then Some(LeValue(data[1..])) else None
  }

  /** What the bytes say: the one after the tag counts units, the next one 256s, and so on. */
  function Weighed(data: Bytes): nat
    requires |data| == 9
  {
    var d: seq<nat> := data;
    d[1] + 0x100 * d[2] + 0x1_0000 * d[3] + 0x100_0000 * d[4] + 0x1_0000_0000 * d[5]
    + 0x100_0000_0000 * d[6] + 0x1_0000_0000_0000 * d[7] + 0x100_0000_0000_0000 * d[8]
  }

  /** Anything else is refused. */
  lemma UnpackWeighs(data: Bytes)
    ensures Unpack(data).Some? <==> |data| == 9 && data[0] == 0
    ensures Unpack(data).Some? ==> Unpack(data).value == Weighed(data)
  {
    if |data| == 9 {
      var b := data[1..];
      Peel(b, 0); Peel(b, 1); Peel(b, 2); Peel(b, 3); Peel(b, 4); Peel(b, 5); Peel(b, 6); Peel(b, 7);
      assert b[8..] == [] && b[0..] == b;
      hide LeValue;
      assert LeValue([]) == 0 by { NothingWeighs(); }
    }
  }

  lemma Peel(b: Bytes, i: nat)
    requires i < |b|
    ensures LeValue(b[i..]) == b[i] + 256 * LeValue(b[i + 1..])
  {
    assert b[i..][1..] == b[i + 1..];
  }

  lemma NothingWeighs()
    ensures LeValue([]) == 0
  {}

  method Pack(amount: nat) returns (data: Bytes)
    requires amount < U64
    ensures |data| == 9 && data[0] == 0 && Weighed(data) == amount && Unpack(data) == Some(amount)
    ensures forall i | 0 <= i < 8 :: data[1 + i] == amount / Pow256(i) % 256
    ensures forall other: Bytes | Unpack(other) == Some(amount) :: other == data
  {
    data := [0];
    data := data + LeBytes(amount, 8);
    UnpackWeighs(data);
    forall i | 0 <= i < 8 ensures data[1 + i] == amount / Pow256(i) % 256 {
      LeByteAt(amount, 8, i);
    }
    Pow256Of8();
    LeRoundTrip(amount, 8);
    assert data[1..] == LeBytes(amount, 8);
    forall other: Bytes | Unpack(other) == Some(amount) ensures other == data {
      LeValueRoundTrip(other[1..]);
      assert other == [other[0]] + other[1..];
    }
  }

  // ---------------------------------------------------------------- the mandate address

  const MANDATE_SEED: Bytes := [109, 97, 110, 100, 97, 116, 101]

  /** Every address is 32 bytes wide. */
  predicate IsKey(a: Address) {
    a < Pow256(32)
  }

  function Seeds(source: Address, destination: Address, amount: nat): Bytes {
    MANDATE_SEED + LeBytes(source, 32) + LeBytes(destination, 32) + LeBytes(amount, 8)
  }

  /** Hashing seeds to a program address, with collisions ruled out. */
  ghost predicate CollisionFree(pda: Bytes -> Address) {
    forall a, b | pda(a) == pda(b) :: a == b
  }

  function MandateAddress(pda: Bytes -> Address, source: Address, destination: Address, amount: nat): Address {
    pda(Seeds(source, destination, amount))
  }

  /** Fixed widths: each field of the seeds can be read back from its place. */
  lemma SeedFields(s: Address, d: Address, a: nat)
    ensures |Seeds(s, d, a)| == 79
    ensures Seeds(s, d, a)[7..39] == LeBytes(s, 32) && Seeds(s, d, a)[39..71] == LeBytes(d, 32)
    ensures Seeds(s, d, a)[71..79] == LeBytes(a, 8)
  {
    hide LeBytes;
  }

  /** A mandate address belongs to one source, one destination and one amount. */
  lemma MandateAddressBinds(pda: Bytes -> Address,
                            s: Address, d: Address, a: nat, s': Address, d': Address, a': nat)
    requires CollisionFree(pda)
    requires IsKey(s) && IsKey(d) && a < U64 && IsKey(s') && IsKey(d') && a' < U64
    ensures MandateAddress(pda, s, d, a) == MandateAddress(pda, s', d', a') <==> s == s' && d == d' && a == a'
  {
    hide LeBytes, LeValue, Pow256;
    if Seeds(s, d, a) == Seeds(s', d', a') {
      Pow256Of8();
      SeedFields(s, d, a);
      SeedFields(s', d', a');
      LeRoundTrip(s, 32); LeRoundTrip(s', 32);
      LeRoundTrip(d, 32); LeRoundTrip(d', 32);
      LeRoundTrip(a, 8); LeRoundTrip(a', 8);
    }
  }

  // ---------------------------------------------------------------- the entry point

  /** What the program hands to the token program, signed as `mandate`, or why it refuses. */
  datatype Plan =
    | Pay(source: Address, mint: Address, destination: Address, mandate: Address, amount: nat, fee: nat)
    | Refuse(error: AgentError)

  /**
   Accounts are source, mint, destination, mandate, token program, in that order. `mints` holds the
   Token-2022 mints and their fee schedules, if any.
   */
  function ProcessInstruction(pda: Bytes -> Address, tokenProgram: Address, mints: map<Address, Option<Fees.FeeConfig>>,
                              epoch: nat, accounts: seq<Address>, data: Bytes): Plan {
    match Unpack(data)
    case None => Refuse(InvalidInstructionData)
    case Some(amount) =>
      if |accounts| < 5 then Refuse(NotEnoughAccountKeys)
      else if accounts[4] != tokenProgram then Refuse(WrongTokenProgram)
      else if accounts[3] != MandateAddress(pda, accounts[0], accounts[2], amount) then Refuse(MandateMismatch)
      else if accounts[1] !in mints then Refuse(MintNotOwnedByToken2022)
      else
        match mints[accounts[1]]
        case None => Pay(accounts[0], accounts[1], accounts[2], accounts[3], amount, 0)
        case Some(config) =>
          match Fees.CalculateFee(Fees.EpochFee(config, epoch), amount)
          case None => Refuse(FeeOverflow)
          case Some(fee) => Pay(accounts[0], accounts[1], accounts[2], accounts[3], amount, fee)
  }
}
