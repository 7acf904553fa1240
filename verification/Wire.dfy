/**
 The bytes of a legacy transaction: signatures and message, every list behind its compact-u16 length. They can be read back,
 and there are as many of them as `Packet.TransactionSize` says.
 */
module Wire {
  import opened Types
  import opened Packet
  import Agent

  /** An instruction with its accounts as places in the table of keys. */
  datatype Compiled = Compiled(program: Byte, accounts: Bytes, data: Bytes)

  datatype Message = Message(signatures: seq<Bytes>, readonlySigned: Byte, readonlyUnsigned: Byte, keys: seq<Bytes>,
                             blockhash: Bytes, ixs: seq<Compiled>)

  const U16: nat := 0x1_0000

  predicate Widths(parts: seq<Bytes>, width: nat) {
    forall i | 0 <= i < |parts| :: |parts[i]| == width
  }

  /** What a transaction can hold; the number of signatures is one byte, here and in front of them. */
  predicate WellFormed(m: Message) {
    && |m.signatures| < 0x80 && Widths(m.signatures, 64)
    && |m.keys| < U16 && Widths(m.keys, 32) && |m.blockhash| == 32
    && |m.ixs| < U16 && forall i | 0 <= i < |m.ixs| :: Short(m.ixs[i])
  }

  predicate Short(c: Compiled) {
    |c.accounts| < U16 && |c.data| < U16
  }

  // ---------------------------------------------------------------- writing

  /** Seven bits a byte, the lowest first; the eighth says that more follow. */
  function CompactBytes(n: nat): (b: Bytes)
    requires n < U16
  {
    if n < 0x80 then [n]
    else if n < 0x4000 then [n % 0x80 + 0x80, n / 0x80]
    else [n % 0x80 + 0x80, n / 0x80 % 0x80 + 0x80, n / 0x4000]
  }

  function Concat(parts: seq<Bytes>): Bytes {
    if parts == [] then [] else parts[0] + Concat(parts[1..])
  }

  function IxBytes(c: Compiled): Bytes
    requires Short(c)
  {
    [c.program] + CompactBytes(|c.accounts|) + c.accounts + CompactBytes(|c.data|) + c.data
  }

  function IxsBytes(ixs: seq<Compiled>): Bytes
    requires forall i | 0 <= i < |ixs| :: Short(ixs[i])
  {
    if ixs == [] then [] else IxBytes(ixs[0]) + IxsBytes(ixs[1..])
  }

  function Serialize(m: Message): Bytes
    requires WellFormed(m)
  {
    CompactBytes(|m.signatures|) + (Concat(m.signatures) + ([|m.signatures|, m.readonlySigned, m.readonlyUnsigned]
    + (CompactBytes(|m.keys|) + (Concat(m.keys) + (m.blockhash + (CompactBytes(|m.ixs|) + IxsBytes(m.ixs)))))))
  }

  // ---------------------------------------------------------------- reading

  function ReadCompact(b: Bytes): Option<(nat, Bytes)> {
    if |b| < 1 then None
    else if b[0] < 0x80 then Some((b[0], b[1..]))
    else if |b| < 2 then None
    else if b[1] < 0x80 then Some((b[0] - 0x80 + 0x80 * b[1] as int, b[2..]))
    else if |b| < 3 then None
    else Some((b[0] - 0x80 + 0x80 * (b[1] - 0x80) as int + 0x4000 * b[2] as int, b[3..]))
  }

  function Read(b: Bytes, n: nat): Option<(Bytes, Bytes)> {
    if |b| < n then None else Some((b[..n], b[n..]))
  }

  function ReadParts(b: Bytes, n: nat, width: nat): Option<(seq<Bytes>, Bytes)> {
    if n == 0 then Some(([], b))
    else
      match Read(b, width)
      case None => None
      case Some((part, rest)) =>
        match ReadParts(rest, n - 1, width)
        case None => None
        case Some((parts, left)) => Some(([part] + parts, left))
  }

  function ReadIx(b: Bytes): Option<(Compiled, Bytes)> {
    match Read(b, 1)
    case None => None
    case Some((program, b1)) =>
      match ReadCompact(b1)
      case None => None
      case Some((accounts, b2)) =>
        match Read(b2, accounts)
        case None => None
        case Some((places, b3)) =>
          match ReadCompact(b3)
          case None => None
          case Some((len, b4)) =>
            match Read(b4, len)
            case None => None
            case Some((data, rest)) => Some((Compiled(program[0], places, data), rest))
  }

  function ReadIxs(b: Bytes, n: nat): Option<(seq<Compiled>, Bytes)> {
    if n == 0 then Some(([], b))
    else
      match ReadIx(b)
      case None => None
      case Some((ix, rest)) =>
        match ReadIxs(rest, n - 1)
        case None => None
        case Some((ixs, left)) => Some(([ix] + ixs, left))
  }

  /** The signatures, and the message they are of. */
  function ReadSigned(b: Bytes): Option<(seq<Bytes>, Bytes)> {
    match ReadCompact(b)
    case None => None
    case Some((n, rest)) => ReadParts(rest, n, 64)
  }

  function ReadKeys(b: Bytes): Option<(seq<Bytes>, Bytes)> {
    match ReadCompact(b)
    case None => None
    case Some((n, rest)) => ReadParts(rest, n, 32)
  }

  function ReadAllIxs(b: Bytes): Option<(seq<Compiled>, Bytes)> {
    match ReadCompact(b)
    case None => None
    case Some((n, rest)) => ReadIxs(rest, n)
  }

  function Deserialize(b: Bytes): Option<Message> {
    match ReadSigned(b)
    case None => None
    case Some((signatures, b1)) =>
      match Read(b1, 3)
      case None => None
      case Some((header, b2)) =>
        if header[0] != |signatures| then None
        else
          match ReadKeys(b2)
          case None => None
          case Some((keys, b3)) =>
            match Read(b3, 32)
            case None => None
            case Some((blockhash, b4)) =>
              match ReadAllIxs(b4)
              case None => None
              case Some((ixs, left)) =>
                if left != [] then None else Some(Message(signatures, header[1], header[2], keys, blockhash, ixs))
  }

  // ---------------------------------------------------------------- reading back what was written

  lemma CompactReads(n: nat, rest: Bytes)
    requires n < U16
    ensures |CompactBytes(n)| == CompactLen(n) && ReadCompact(CompactBytes(n) + rest) == Some((n, rest))
  {
    var b := CompactBytes(n) + rest;
    assert b[CompactLen(n)..] == rest;
    assert n == n % 0x80 + 0x80 * (n / 0x80) && n / 0x80 == n / 0x80 % 0x80 + 0x80 * (n / 0x4000);
  }

  lemma ReadsBack(part: Bytes, rest: Bytes)
    ensures Read(part + rest, |part|) == Some((part, rest))
  {}

  lemma {:induction false} PartsRead(parts: seq<Bytes>, width: nat, rest: Bytes)
    requires Widths(parts, width)
    ensures |Concat(parts)| == width * |parts| && ReadParts(Concat(parts) + rest, |parts|, width) == Some((parts, rest))
    decreases |parts|
  {
    if parts == [] {
      assert [] + rest == rest;
    } else {
      PartsRead(parts[1..], width, rest);
      assert Concat(parts) + rest == parts[0] + (Concat(parts[1..]) + rest);
      ReadsBack(parts[0], Concat(parts[1..]) + rest);
      assert width * |parts| == width + width * (|parts| - 1);
      assert |parts[0]| == width && [parts[0]] + parts[1..] == parts;
    }
  }

  lemma IxReads(c: Compiled, rest: Bytes)
    requires Short(c)
    ensures ReadIx(IxBytes(c) + rest) == Some((c, rest))
    ensures |IxBytes(c)| == 1 + CompactLen(|c.accounts|) + |c.accounts| + CompactLen(|c.data|) + |c.data|
  {
    hide CompactBytes, ReadCompact;
    var b4 := c.data + rest;
    var b3 := CompactBytes(|c.data|) + b4;
    var b2 := c.accounts + b3;
    var b1 := CompactBytes(|c.accounts|) + b2;
    assert IxBytes(c) + rest == [c.program] + b1;
    ReadsBack([c.program], b1);
    CompactReads(|c.accounts|, b2);
    ReadsBack(c.accounts, b3);
    CompactReads(|c.data|, b4);
    ReadsBack(c.data, rest);
  }

  /** What the compiled instructions take. */
  function IxsLen(ixs: seq<Compiled>): nat {
    if ixs == [] then 0
    else
      1 + CompactLen(|ixs[0].accounts|) + |ixs[0].accounts| + CompactLen(|ixs[0].data|) + |ixs[0].data| + IxsLen(ixs[1..])
  }

  lemma {:induction false} IxsRead(ixs: seq<Compiled>, rest: Bytes)
    requires forall i | 0 <= i < |ixs| :: Short(ixs[i])
    ensures ReadIxs(IxsBytes(ixs) + rest, |ixs|) == Some((ixs, rest)) && |IxsBytes(ixs)| == IxsLen(ixs)
    decreases |ixs|
  {
    hide IxBytes, ReadIx;
    if ixs == [] {
      assert [] + rest == rest;
    } else {
      IxsRead(ixs[1..], rest);
      assert IxsBytes(ixs) + rest == IxBytes(ixs[0]) + (IxsBytes(ixs[1..]) + rest);
      IxReads(ixs[0], IxsBytes(ixs[1..]) + rest);
      assert [ixs[0]] + ixs[1..] == ixs;
    }
  }

  /** Nothing is lost: the bytes of a transaction say what it is, so no length prefix can be missing. */
  lemma RoundTrip(m: Message)
    requires WellFormed(m)
    ensures Deserialize(Serialize(m)) == Some(m)
    ensures |Serialize(m)| == SizeOf(|m.signatures|, |m.keys|, |m.ixs|, IxsLen(m.ixs))
  {
    hide CompactBytes, ReadCompact, IxsBytes, ReadIxs, Concat, ReadParts;
    var n: Byte := |m.signatures|;
    var header := [n, m.readonlySigned, m.readonlyUnsigned];
    var b6 := IxsBytes(m.ixs);
    var b5 := CompactBytes(|m.ixs|) + b6;
    var b4 := m.blockhash + b5;
    var b3 := Concat(m.keys) + b4;
    var b2 := CompactBytes(|m.keys|) + b3;
    var b1 := header + b2;
    CompactReads(|m.signatures|, Concat(m.signatures) + b1);
    PartsRead(m.signatures, 64, b1);
    ReadsBack(header, b2);
    CompactReads(|m.keys|, b3);
    PartsRead(m.keys, 32, b4);
    ReadsBack(m.blockhash, b5);
    CompactReads(|m.ixs|, b6);
    IxsRead(m.ixs, []);
    assert b6 + [] == b6;
  }

  // ---------------------------------------------------------------- compiling instructions

  function SetOf(s: seq<Address>): set<Address> {
    set a | a in s
  }

  lemma {:induction false} SetSize(s: seq<Address>)
    requires Distinct(s)
    ensures |SetOf(s)| == |s|
    decreases |s|
  {
    if s == [] {
      assert SetOf(s) == {};
    } else {
      var rest := s[1..];
      assert forall i | 0 <= i < |rest| :: rest[i] == s[i + 1];
      SetSize(rest);
      assert SetOf(s) == {s[0]} + SetOf(rest) && s[0] !in rest;
    }
  }

  ghost predicate CompiledIx<Op(!new)>(c: Compiled, ix: Instruction<Op>, table: seq<Address>) {
    && c.program < |table| && table[c.program] == ix.program
    && |c.accounts| == |ix.metas| && |c.data| == ix.dataLen
    && forall j | 0 <= j < |ix.metas| :: c.accounts[j] < |table| && table[c.accounts[j]] == ix.metas[j].key
  }

  /**
   The message is of these instructions: every key once, the payer first and those that sign before the others, and each
   instruction with its places in that table.
   */
  ghost predicate Compiles<Op(!new)>(m: Message, table: seq<Address>, ixs: seq<Instruction<Op>>, payer: Address) {
    && Distinct(table) && |table| > 0 && table[0] == payer && SetOf(table) == {payer} + Keys(ixs)
    && |m.signatures| <= |table| && SetOf(table[..|m.signatures|]) == {payer} + Signers(ixs)
    && |m.keys| == |table| && (forall i | 0 <= i < |table| :: m.keys[i] == Agent.LeBytes(table[i], 32))
    && |m.ixs| == |ixs| && forall i | 0 <= i < |ixs| :: CompiledIx(m.ixs[i], ixs[i], table)
  }

  lemma {:induction false} BodyIsSerialized<Op(!new)>(compiled: seq<Compiled>, ixs: seq<Instruction<Op>>, table: seq<Address>)
    requires |compiled| == |ixs| && forall i | 0 <= i < |ixs| :: CompiledIx(compiled[i], ixs[i], table)
    ensures IxsLen(compiled) == BodyLen(ixs)
    decreases |ixs|
  {
    if ixs != [] {
      forall i | 0 <= i < |ixs| - 1 ensures CompiledIx(compiled[1..][i], ixs[1..][i], table) {
        assert CompiledIx(compiled[i + 1], ixs[i + 1], table);
      }
      assert CompiledIx(compiled[0], ixs[0], table);
      hide CompiledIx;
      BodyIsSerialized(compiled[1..], ixs[1..], table);
    }
  }

  /** The size computed of the instructions is that of the bytes sent, whatever order the keys are put in. */
  lemma SizeIsSerialized<Op(!new)>(m: Message, table: seq<Address>, ixs: seq<Instruction<Op>>, payer: Address)
    requires WellFormed(m) && Compiles(m, table, ixs, payer)
    ensures |Serialize(m)| == TransactionSize(ixs, payer)
  {
    RoundTrip(m);
    SetSize(table);
    var n := |m.signatures|;
    assert forall i, j | 0 <= i < j < n :: table[..n][i] != table[..n][j];
    SetSize(table[..n]);
    BodyIsSerialized(m.ixs, ixs, table);
    hide Serialize, Keys, Signers, BodyLen, IxsLen, SetOf, Distinct;
  }

  // ---------------------------------------------------------------- every list of instructions can be compiled

  lemma {:induction false} SignersAreKeys<Op(!new)>(ixs: seq<Instruction<Op>>)
    ensures Signers(ixs) <= Keys(ixs)
  {
    if ixs != [] {
      SignersAreKeys(ixs[1..]);
    }
  }

  lemma {:induction false} Listed(s: set<Address>) returns (list: seq<Address>)
    ensures Distinct(list) && SetOf(list) == s && |list| == |s|
    decreases s
  {
    if s == {} {
      list := [];
    } else {
      var a :| a in s;
      var rest := Listed(s - {a});
      list := [a] + rest;
      assert a !in rest by {
        assert a in rest ==> a in SetOf(rest);
      }
      assert SetOf(list) == {a} + SetOf(rest);
    }
  }

  function Place(table: seq<Address>, a: Address): (i: nat)
    requires a in table
    ensures i < |table| && table[i] == a
  {
    if table[0] == a then 0 else 1 + Place(table[1..], a)
  }

  lemma {:induction false} IxKeys<Op(!new)>(ixs: seq<Instruction<Op>>, i: nat)
    requires i < |ixs|
    ensures ixs[i].program in Keys(ixs) && MetaKeys(ixs[i].metas) <= Keys(ixs)
    decreases i
  {
    if i > 0 {
      IxKeys(ixs[1..], i - 1);
    }
  }

  lemma CompileIx<Op(!new)>(ix: Instruction<Op>, table: seq<Address>) returns (c: Compiled)
    requires |table| <= 256 && ix.program in table && forall m | m in ix.metas :: m.key in table
    requires |ix.metas| < U16 && ix.dataLen < U16
    ensures CompiledIx(c, ix, table) && Short(c)
  {
    var places: Bytes := seq(|ix.metas|, j requires 0 <= j < |ix.metas| =>
                                           assert ix.metas[j] in ix.metas; Place(table, ix.metas[j].key) as Byte);
    c := Compiled(Place(table, ix.program), places, seq(ix.dataLen, _ => 0));
  }

  /** There is such a message for all instructions a transaction can hold. */
  lemma Compilable<Op(!new)>(ixs: seq<Instruction<Op>>, payer: Address) returns (m: Message, table: seq<Address>)
    requires |{payer} + Keys(ixs)| <= 256 && |{payer} + Signers(ixs)| < 0x80 && |ixs| < U16
    requires forall i | 0 <= i < |ixs| :: |ixs[i].metas| < U16 && ixs[i].dataLen < U16
    ensures WellFormed(m) && Compiles(m, table, ixs, payer)
  {
    SignersAreKeys(ixs);
    var signers := Listed(Signers(ixs) - {payer});
    var others := Listed(Keys(ixs) - Signers(ixs) - {payer});
    table := [payer] + signers + others;
    var n := 1 + |signers|;
    TableOf(payer, signers, others, ixs);
    SetSize(table);
    SetSize(table[..n]);
    hide Keys, Signers, SetOf, Distinct, CompiledIx;
    var compiled := CompileAll(ixs, table, {payer} + Keys(ixs));
    m := Blank(table, n, compiled);
    BlankCompiles(table, n, compiled, ixs, payer);
  }

  /** With blank signatures and blockhash. */
  function Blank(table: seq<Address>, n: nat, compiled: seq<Compiled>): Message {
    var zeros: Bytes := seq(64, _ => 0);
    Message(seq(n, _ => zeros), 0, 0, seq(|table|, i requires 0 <= i < |table| => Agent.LeBytes(table[i], 32)), zeros[..32],
            compiled)
  }

  lemma BlankCompiles<Op(!new)>(table: seq<Address>, n: nat, compiled: seq<Compiled>, ixs: seq<Instruction<Op>>, payer: Address)
    requires |table| <= 256 && 0 < n < 0x80 && n <= |table| && |ixs| < U16
    requires Distinct(table) && table[0] == payer && SetOf(table) == {payer} + Keys(ixs)
    requires SetOf(table[..n]) == {payer} + Signers(ixs)
    requires |compiled| == |ixs| && forall i | 0 <= i < |ixs| :: CompiledIx(compiled[i], ixs[i], table) && Short(compiled[i])
    ensures WellFormed(Blank(table, n, compiled)) && Compiles(Blank(table, n, compiled), table, ixs, payer)
  {
    hide Keys, Signers, SetOf, Distinct, CompiledIx;
  }

  lemma {:induction false} InBody<Op(!new)>(ixs: seq<Instruction<Op>>, i: nat)
    requires i < |ixs|
    ensures |ixs[i].metas| + ixs[i].dataLen < BodyLen(ixs) && |ixs| <= BodyLen(ixs)
    decreases |ixs|
  {
    if i > 0 {
      InBody(ixs[1..], i - 1);
    } else if |ixs| > 1 {
      InBody(ixs[1..], 0);
    }
  }

  /** So whatever fits a packet can be sent, and its bytes are no more than the packet takes. */
  lemma WhatFitsIsSent<Op(!new)>(ixs: seq<Instruction<Op>>, payer: Address, limit: nat) returns (m: Message, table: seq<Address>)
    requires Fits(ixs, payer, limit) && limit <= 0x2000
    ensures WellFormed(m) && Compiles(m, table, ixs, payer) && |Serialize(m)| <= limit
  {
    forall i | 0 <= i < |ixs| ensures |ixs[i].metas| < U16 && ixs[i].dataLen < U16 && |ixs| < U16 {
      InBody(ixs, i);
    }
    m, table := Compilable(ixs, payer);
    SizeIsSerialized(m, table, ixs, payer);
  }

  lemma CompileAll<Op(!new)>(ixs: seq<Instruction<Op>>, table: seq<Address>, keys: set<Address>) returns (compiled: seq<Compiled>)
    requires |table| <= 256 && SetOf(table) == keys && Keys(ixs) <= keys
    requires forall i | 0 <= i < |ixs| :: |ixs[i].metas| < U16 && ixs[i].dataLen < U16
    ensures |compiled| == |ixs| && forall i | 0 <= i < |ixs| :: CompiledIx(compiled[i], ixs[i], table) && Short(compiled[i])
  {
    hide CompiledIx;
    compiled := [];
    for i := 0 to |ixs|
      invariant |compiled| == i
      invariant forall j | 0 <= j < i :: CompiledIx(compiled[j], ixs[j], table) && Short(compiled[j])
    {
      IxKeys(ixs, i);
      InTable(ixs[i], table, keys);
      var c := CompileIx(ixs[i], table);
      compiled := compiled + [c];
    }
  }

  lemma TableOf<Op(!new)>(payer: Address, signers: seq<Address>, others: seq<Address>, ixs: seq<Instruction<Op>>)
    requires Distinct(signers) && Distinct(others) && Signers(ixs) <= Keys(ixs)
    requires SetOf(signers) == Signers(ixs) - {payer} && SetOf(others) == Keys(ixs) - Signers(ixs) - {payer}
    ensures var table, n := [payer] + signers + others, 1 + |signers|;
            && Distinct(table) && SetOf(table) == {payer} + Keys(ixs)
            && Distinct(table[..n]) && SetOf(table[..n]) == {payer} + Signers(ixs)
  {
    var table, n := [payer] + signers + others, 1 + |signers|;
    assert table[..n] == [payer] + signers;
    assert forall a :: a in signers <==> a in SetOf(signers);
    assert forall a :: a in others <==> a in SetOf(others);
    assert SetOf(table[..n]) == {payer} + SetOf(signers);
    assert SetOf(table) == {payer} + SetOf(signers) + SetOf(others);
    hide Keys, Signers;
    Joined([payer], signers);
    Joined([payer] + signers, others);
  }

  lemma Joined(a: seq<Address>, b: seq<Address>)
    requires Distinct(a) && Distinct(b) && SetOf(a) !! SetOf(b)
    ensures Distinct(a + b) && SetOf(a + b) == SetOf(a) + SetOf(b)
  {
    forall i, j | 0 <= i < j < |a + b| ensures (a + b)[i] != (a + b)[j] {
      assert i < |a| <= j ==> (a + b)[i] in SetOf(a) && (a + b)[j] in SetOf(b);
    }
  }

  lemma InTable<Op(!new)>(ix: Instruction<Op>, table: seq<Address>, keys: set<Address>)
    requires SetOf(table) == keys && ix.program in keys && MetaKeys(ix.metas) <= keys
    ensures ix.program in table && forall m | m in ix.metas :: m.key in table
  {
    forall m | m in ix.metas ensures m.key in table {
      assert m.key in MetaKeys(ix.metas) && m.key in SetOf(table);
    }
    assert ix.program in SetOf(table);
  }
}
