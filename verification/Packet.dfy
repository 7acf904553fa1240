/**
 The serialized size of a legacy transaction: signatures, header, the account keys after
 de-duplication, blockhash, and the instructions, with every length in compact-u16 form.
 */
module Packet {
  import opened Types

  datatype Meta = Meta(key: Address, signer: bool)

  /** What the wire format sees of an instruction, plus `op`, what the program does with it. */
  datatype Instruction<+Op> = Instruction(program: Address, metas: seq<Meta>, dataLen: nat, op: Op)

  /** Bytes of a compact-u16 length. */
  function CompactLen(n: nat): nat {
    if n < 0x80 then 1 else if n < 0x4000 then 2 else 3
  }

  /** Keys a list of accounts names, and those of them that sign. */
  function MetaKeys(metas: seq<Meta>): set<Address> {
    set m | m in metas :: m.key
  }

  function MetaSigners(metas: seq<Meta>): set<Address> {
    set m | m in metas && m.signer :: m.key
  }

  function Keys<Op>(ixs: seq<Instruction<Op>>): set<Address> {
    if ixs == [] then {} else {ixs[0].program} + MetaKeys(ixs[0].metas) + Keys(ixs[1..])
  }

  function Signers<Op>(ixs: seq<Instruction<Op>>): set<Address> {
    if ixs == [] then {} else MetaSigners(ixs[0].metas) + Signers(ixs[1..])
  }

  /** Program index, account indices and data of one compiled instruction. */
  function InstructionLen<Op>(ix: Instruction<Op>): nat {
    1 + CompactLen(|ix.metas|) + |ix.metas| + CompactLen(ix.dataLen) + ix.dataLen
  }

  function BodyLen<Op>(ixs: seq<Instruction<Op>>): nat {
    if ixs == [] then 0 else InstructionLen(ixs[0]) + BodyLen(ixs[1..])
  }

  /** Signature count, signatures, header, keys, blockhash and instructions. */
  function SizeOf(signers: nat, keys: nat, ixs: nat, body: nat): nat {
    1 + 64 * signers + 3 + CompactLen(keys) + 32 * keys + 32 + CompactLen(ixs) + body
  }

  function TransactionSize<Op>(ixs: seq<Instruction<Op>>, payer: Address): nat {
    SizeOf(|{payer} + Signers(ixs)|, |{payer} + Keys(ixs)|, |ixs|, BodyLen(ixs))
  }

  predicate Fits<Op>(ixs: seq<Instruction<Op>>, payer: Address, limit: nat) {
    TransactionSize(ixs, payer) <= limit
  }

  lemma SubsetSize<T>(a: set<T>, b: set<T>)
    requires a <= b
    ensures |a| <= |b|
  {
    assert b == a + (b - a);
  }

  lemma {:induction false} BodyLenConcat<Op>(a: seq<Instruction<Op>>, b: seq<Instruction<Op>>)
    ensures BodyLen(a + b) == BodyLen(a) + BodyLen(b)
  {
    if a == [] {
      assert a + b == b;
    } else {
      assert (a + b)[1..] == a[1..] + b;
      BodyLenConcat(a[1..], b);
    }
  }

  lemma {:induction false} KeysConcat<Op>(a: seq<Instruction<Op>>, b: seq<Instruction<Op>>)
    ensures Keys(a + b) == Keys(a) + Keys(b) && Signers(a + b) == Signers(a) + Signers(b)
  {
    if a == [] {
      assert a + b == b;
    } else {
      assert (a + b)[1..] == a[1..] + b;
      KeysConcat(a[1..], b);
    }
  }

  /** A transaction that names no further key or signer and carries no longer body is no larger. */
  lemma SizeMonotone<Op>(small: seq<Instruction<Op>>, large: seq<Instruction<Op>>, payer: Address)
    requires |small| <= |large| && BodyLen(small) <= BodyLen(large)
    requires Keys(small) <= Keys(large) && Signers(small) <= Signers(large)
    ensures TransactionSize(small, payer) <= TransactionSize(large, payer)
  {
    SubsetSize({payer} + Keys(small), {payer} + Keys(large));
    SubsetSize({payer} + Signers(small), {payer} + Signers(large));
  }

  /**
   Dropping instructions at either end of the run `batch` that follows a first instruction never makes
   the transaction larger, although keys are shared between instructions; nor does another first
   instruction of the same shape.
   */
  lemma SubBatchSize<Op>(first: Instruction<Op>, first': Instruction<Op>, batch: seq<Instruction<Op>>,
                         part: seq<Instruction<Op>>, lo: nat, hi: nat, payer: Address)
    requires first.program == first'.program && first.metas == first'.metas && first.dataLen == first'.dataLen
    requires lo <= hi <= |batch| && part == batch[lo..hi]
    ensures TransactionSize([first'] + part, payer) <= TransactionSize([first] + batch, payer)
  {
    var a, b := [first'] + part, [first] + batch;
    assert batch == batch[..lo] + part + batch[hi..];
    BodyLenConcat(batch[..lo] + part, batch[hi..]);
    BodyLenConcat(batch[..lo], part);
    KeysConcat(batch[..lo] + part, batch[hi..]);
    KeysConcat(batch[..lo], part);
    assert a[1..] == part && b[1..] == batch;
    SizeMonotone(a, b, payer);
  }

  /** More data in the last instruction never shrinks the transaction, compact-u16 jumps included. */
  lemma DataLenMonotone<Op>(head: seq<Instruction<Op>>, a: Instruction<Op>, b: Instruction<Op>, payer: Address)
    requires a.program == b.program && a.metas == b.metas && a.dataLen <= b.dataLen
    ensures TransactionSize(head + [a], payer) <= TransactionSize(head + [b], payer)
  {
    BodyLenConcat(head, [a]);
    BodyLenConcat(head, [b]);
    KeysConcat(head, [a]);
    KeysConcat(head, [b]);
    assert [a][1..] == [] && [b][1..] == [];
    SizeMonotone(head + [a], head + [b], payer);
  }

  lemma PairKeys<Op>(a: Instruction<Op>, b: Instruction<Op>)
    ensures Keys([a, b]) == {a.program, b.program} + MetaKeys(a.metas) + MetaKeys(b.metas)
    ensures Signers([a, b]) == MetaSigners(a.metas) + MetaSigners(b.metas)
    ensures BodyLen([a, b]) == InstructionLen(a) + InstructionLen(b)
  {
    hide MetaKeys, MetaSigners, InstructionLen;
    assert [a, b][1..] == [b] && [b][1..] == [];
    assert Keys([b]) == {b.program} + MetaKeys(b.metas);
    assert Signers([b]) == MetaSigners(b.metas) && BodyLen([b]) == InstructionLen(b);
  }

  /** Two instructions only the payer signs. */
  lemma PairSize<Op>(a: Instruction<Op>, b: Instruction<Op>, payer: Address, keys: set<Address>)
    requires {payer, a.program, b.program} + MetaKeys(a.metas) + MetaKeys(b.metas) <= keys
    requires MetaSigners(a.metas) + MetaSigners(b.metas) <= {payer}
    ensures TransactionSize([a, b], payer) <= SizeOf(1, |keys|, 2, InstructionLen(a) + InstructionLen(b))
  {
    PairKeys(a, b);
    hide MetaKeys, MetaSigners, InstructionLen, Keys, Signers, BodyLen;
    assert {payer} + Signers([a, b]) == {payer};
    SubsetSize({payer} + Keys([a, b]), keys);
  }
}
