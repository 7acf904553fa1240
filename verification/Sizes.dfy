/** What the packet limit of the network makes of the proofs: which fit where, and how many transactions they take. */
module Sizes {
  import opened Types
  import opened Packet
  import opened Chain
  import opened Delivery
  import opened Wire
  import Packing

  /** The packet limit of the network, in bytes. */
  const PACKET_DATA_SIZE: nat := 1232

  /** How long each proof is. */
  function ProofLen(kind: ProofInstruction): nat {
    match kind
    case VerifyPubkeyValidity => 96
    case VerifyCiphertextCommitmentEquality => 320
    case VerifyBatchedGroupedCiphertext2HandlesValidity => 416
    case VerifyBatchedGroupedCiphertext3HandlesValidity => 544
    case VerifyPercentageWithCap => 360
    case VerifyBatchedRangeProofU64 => 936
    case VerifyBatchedRangeProofU256 => 1064
    case _ => 0
  }

  /** The kinds of proof the library generates have these lengths. */
  ghost predicate StandardLengths(env: Env) {
    forall kind, s | ProofLen(kind) > 0 :: |env.prove(kind, s)| == ProofLen(kind)
  }

  // ---------------------------------------------------------------- what instructions add to a transaction

  /** Keys, signers and bytes of these instructions. */
  ghost predicate Adds(ixs: seq<Ix>, keys: set<Address>, signers: set<Address>, body: nat) {
    Keys(ixs) == keys && Signers(ixs) == signers && BodyLen(ixs) == body
  }

  lemma AddsOne(ix: Ix)
    ensures Adds([ix], {ix.program} + MetaKeys(ix.metas), MetaSigners(ix.metas), InstructionLen(ix))
  {
    assert [ix][1..] == [];
    assert Keys([ix][1..]) == {} && Signers([ix][1..]) == {} && BodyLen([ix][1..]) == 0;
  }

  lemma AddsBoth(a: seq<Ix>, b: seq<Ix>, keys: set<Address>, signers: set<Address>, body: nat, keys': set<Address>,
                 signers': set<Address>, body': nat)
    requires Adds(a, keys, signers, body) && Adds(b, keys', signers', body')
    ensures Adds(a + b, keys + keys', signers + signers', body + body')
  {
    KeysConcat(a, b);
    BodyLenConcat(a, b);
  }

  lemma NoMetas()
    ensures MetaKeys([]) == {} && MetaSigners([]) == {}
  {}

  lemma MoreMetas(metas: seq<Meta>, m: Meta)
    ensures MetaKeys(metas + [m]) == MetaKeys(metas) + {m.key}
    ensures MetaSigners(metas + [m]) == MetaSigners(metas) + (if m.signer then {m.key} else {})
  {
    var all := metas + [m];
    assert all[|metas|] == m;
    assert forall x :: x in all <==> x in metas || x == m;
  }

  lemma BothMetas(a: seq<Meta>, b: seq<Meta>)
    ensures MetaKeys(a + b) == MetaKeys(a) + MetaKeys(b) && MetaSigners(a + b) == MetaSigners(a) + MetaSigners(b)
  {
    var all := a + b;
    assert forall x :: x in all <==> x in a || x in b;
  }

  lemma OneMeta(a: Meta)
    ensures MetaKeys([a]) == {a.key} && MetaSigners([a]) == (if a.signer then {a.key} else {})
  {
    NoMetas();
    MoreMetas([], a);
    assert [] + [a] == [a];
  }

  lemma TwoMetas(a: Meta, b: Meta)
    ensures MetaKeys([a, b]) == {a.key, b.key}
    ensures MetaSigners([a, b]) == (if a.signer then {a.key} else {}) + (if b.signer then {b.key} else {})
  {
    OneMeta(a);
    MoreMetas([a], b);
    assert [a] + [b] == [a, b];
  }

  lemma ThreeMetas(a: Meta, b: Meta, c: Meta)
    ensures MetaKeys([a, b, c]) == {a.key, b.key, c.key}
    ensures MetaSigners([a, b, c]) == (if a.signer then {a.key} else {}) + (if b.signer then {b.key} else {})
                                      + (if c.signer then {c.key} else {})
  {
    TwoMetas(a, b);
    MoreMetas([a, b], c);
    assert [a, b] + [c] == [a, b, c];
  }

  lemma LimitAdds(units: nat)
    ensures Adds([LimitIx(units)], {BUDGET_PROGRAM}, {}, 8)
  {
    AddsOne(LimitIx(units));
    NoMetas();
  }

  lemma CreateAdds(payer: Address, account: Address, program: Address, space: nat)
    ensures Adds([CreateIx(payer, account, program, space)], {SYSTEM_PROGRAM, payer, account}, {payer, account}, 57)
  {
    AddsOne(CreateIx(payer, account, program, space));
    TwoMetas(Meta(payer, true), Meta(account, true));
  }

  lemma InitRecordAdds(record: Address, payer: Address)
    ensures Adds([InitRecordIx(record, payer)], {RECORD_PROGRAM, record, payer}, {}, 6)
  {
    AddsOne(InitRecordIx(record, payer));
    TwoMetas(Meta(record, false), Meta(payer, false));
  }

  lemma WriteAdds(record: Address, payer: Address, offset: nat, chunk: Bytes)
    ensures Adds([WriteIx(record, payer, offset, chunk)], {RECORD_PROGRAM, record, payer}, {payer},
                 17 + CompactLen(13 + |chunk|) + |chunk|)
  {
    AddsOne(WriteIx(record, payer, offset, chunk));
    TwoMetas(Meta(record, false), Meta(payer, true));
  }

  lemma VerifyAdds(kind: ProofInstruction, context: Address, payer: Address, proof: Bytes)
    ensures Adds([VerifyIx(kind, context, payer, proof)], {ZK_PROGRAM, context, payer}, {}, 5 + CompactLen(1 + |proof|) + |proof|)
  {
    AddsOne(VerifyIx(kind, context, payer, proof));
    TwoMetas(Meta(context, false), Meta(payer, false));
  }

  lemma VerifyRecordAdds(kind: ProofInstruction, record: Address, context: Address, payer: Address)
    ensures Adds([VerifyRecordIx(kind, record, context, payer)], {ZK_PROGRAM, record, context, payer}, {}, 11)
  {
    AddsOne(VerifyRecordIx(kind, record, context, payer));
    ThreeMetas(Meta(record, false), Meta(context, false), Meta(payer, false));
  }

  lemma CloseContextAdds(context: Address, payer: Address)
    ensures Adds([CloseContextIx(context, payer)], {ZK_PROGRAM, context, payer}, {payer}, 7)
  {
    AddsOne(CloseContextIx(context, payer));
    ThreeMetas(Meta(context, false), Meta(payer, false), Meta(payer, true));
  }

  lemma CloseRecordAdds(record: Address, payer: Address)
    ensures Adds([CloseRecordIx(record, payer)], {RECORD_PROGRAM, record, payer}, {payer}, 7)
  {
    AddsOne(CloseRecordIx(record, payer));
    ThreeMetas(Meta(record, false), Meta(payer, true), Meta(payer, false));
  }

  // ---------------------------------------------------------------- from there to its size

  lemma {:induction false} SetSizeAtMost(s: seq<Address>)
    ensures |SetOf(s)| <= |s|
    decreases |s|
  {
    if s == [] {
      assert SetOf(s) == {};
    } else {
      SetSizeAtMost(s[1..]);
      assert SetOf(s) == {s[0]} + SetOf(s[1..]);
    }
  }

  /** With all keys and signers listed, perhaps more than once. */
  lemma SizeAtMost(ixs: seq<Ix>, payer: Address, keys: set<Address>, signers: set<Address>, body: nat, allKeys: seq<Address>,
                   allSigners: seq<Address>)
    requires Adds(ixs, keys, signers, body) && payer in allKeys && payer in allSigners
    requires (forall k | k in keys :: k in allKeys) && (forall k | k in signers :: k in allSigners)
    ensures TransactionSize(ixs, payer) <= SizeOf(|allSigners|, |allKeys|, |ixs|, body)
  {
    SubsetSize({payer} + keys, SetOf(allKeys));
    SubsetSize({payer} + signers, SetOf(allSigners));
    SetSizeAtMost(allKeys);
    SetSizeAtMost(allSigners);
  }

  /** With different keys and signers listed, perhaps not all of them. */
  lemma SizeAtLeast(ixs: seq<Ix>, payer: Address, keys: set<Address>, signers: set<Address>, body: nat, someKeys: seq<Address>,
                    someSigners: seq<Address>)
    requires Adds(ixs, keys, signers, body) && Distinct(someKeys) && Distinct(someSigners)
    requires forall k | k in someKeys :: k == payer || k in keys
    requires forall k | k in someSigners :: k == payer || k in signers
    ensures TransactionSize(ixs, payer) >= SizeOf(|someSigners|, |someKeys|, |ixs|, body)
  {
    SubsetSize(SetOf(someKeys), {payer} + keys);
    SubsetSize(SetOf(someSigners), {payer} + signers);
    SetSize(someKeys);
    SetSize(someSigners);
  }

  // ---------------------------------------------------------------- what fits where

  /** What a transaction that creates a context and verifies a proof into it adds up to. */
  lemma VerifyTxAdds(payer: Address, context: Address, kind: ProofInstruction, proof: Bytes, space: nat)
    ensures Adds(VerifyTx(payer, context, kind, proof, space), {BUDGET_PROGRAM, SYSTEM_PROGRAM, payer, context, ZK_PROGRAM},
                 {payer, context}, 70 + CompactLen(1 + |proof|) + |proof|)
  {
    hide Adds, LimitIx, CreateIx, VerifyIx;
    var units := ComputeUnits(kind) + OVERHEAD_UNITS;
    var limits, create, verify := LimitIx(units), CreateIx(payer, context, ZK_PROGRAM, space), VerifyIx(kind, context, payer, proof);
    LimitAdds(units);
    CreateAdds(payer, context, ZK_PROGRAM, space);
    VerifyAdds(kind, context, payer, proof);
    AddsBoth([limits], [create], {BUDGET_PROGRAM}, {}, 8, {SYSTEM_PROGRAM, payer, context}, {payer, context}, 57);
    AddsBoth([limits] + [create], [verify], {BUDGET_PROGRAM} + {SYSTEM_PROGRAM, payer, context}, {} + {payer, context}, 65,
             {ZK_PROGRAM, context, payer}, {}, 5 + CompactLen(1 + |proof|) + |proof|);
    assert [limits] + [create] + [verify] == VerifyTx(payer, context, kind, proof, space);
    assert {BUDGET_PROGRAM} + {SYSTEM_PROGRAM, payer, context} + {ZK_PROGRAM, context, payer}
        == {BUDGET_PROGRAM, SYSTEM_PROGRAM, payer, context, ZK_PROGRAM};
    assert {} + {payer, context} + {} == {payer, context};
  }

  /** A proof of 936 bytes does not fit next to the creation of the context it is verified into. */
  lemma RangeProofNotNextToCreate(payer: Address, context: Address, kind: ProofInstruction, proof: Bytes, space: nat)
    requires |proof| == 936 && payer != context
    ensures !Fits(VerifyTx(payer, context, kind, proof, space), payer, PACKET_DATA_SIZE)
  {
    hide Adds, VerifyTx;
    VerifyTxAdds(payer, context, kind, proof, space);
    SizeAtLeast(VerifyTx(payer, context, kind, proof, space), payer, {BUDGET_PROGRAM, SYSTEM_PROGRAM, payer, context, ZK_PROGRAM},
                {payer, context}, 1008, [SYSTEM_PROGRAM, BUDGET_PROGRAM, ZK_PROGRAM], [payer, context]);
    VerifyTxLen(payer, context, kind, proof, space);
  }

  lemma VerifyTxLen(payer: Address, context: Address, kind: ProofInstruction, proof: Bytes, space: nat)
    ensures |VerifyTx(payer, context, kind, proof, space)| == 3
  {}

  /** It does fit without. */
  lemma RangeProofFitsAlone(payer: Address, context: Address, kind: ProofInstruction, proof: Bytes, units: nat)
    requires |proof| == 936
    ensures Fits([LimitIx(units), VerifyIx(kind, context, payer, proof)], payer, PACKET_DATA_SIZE)
  {
    hide Adds, LimitIx, VerifyIx;
    var limits, verify := LimitIx(units), VerifyIx(kind, context, payer, proof);
    LimitAdds(units);
    VerifyAdds(kind, context, payer, proof);
    AddsBoth([limits], [verify], {BUDGET_PROGRAM}, {}, 8, {ZK_PROGRAM, context, payer}, {}, 943);
    assert [limits] + [verify] == [limits, verify];
    SizeAtMost([limits, verify], payer, {BUDGET_PROGRAM} + {ZK_PROGRAM, context, payer}, {} + {}, 951,
               [payer, context, ZK_PROGRAM, BUDGET_PROGRAM], [payer]);
  }

  lemma {:induction false} CarriesIx(ixs: seq<Ix>, i: nat)
    requires i < |ixs|
    ensures BodyLen(ixs) >= InstructionLen(ixs[i])
    decreases i
  {
    if i > 0 {
      CarriesIx(ixs[1..], i - 1);
    }
  }

  /** One of 1,064 bytes fits no transaction at all, whatever else is in it. */
  lemma LargestProofFitsNowhere(ixs: seq<Ix>, i: nat, payer: Address)
    requires i < |ixs| && ixs[i].dataLen >= 1 + 1064 && ixs[i].program != payer
    ensures !Fits(ixs, payer, PACKET_DATA_SIZE)
  {
    IxKeys(ixs, i);
    CarriesIx(ixs, i);
    SizeAtLeast(ixs, payer, Keys(ixs), Signers(ixs), BodyLen(ixs), [payer, ixs[i].program], [payer]);
  }

  /** The other proofs fit next to the creation of their context. */
  lemma SmallProofFits(payer: Address, context: Address, kind: ProofInstruction, proof: Bytes, space: nat)
    requires |proof| <= 544
    ensures Fits(VerifyTx(payer, context, kind, proof, space), payer, PACKET_DATA_SIZE)
  {
    hide Adds, VerifyTx;
    VerifyTxAdds(payer, context, kind, proof, space);
    VerifyTxLen(payer, context, kind, proof, space);
    SizeAtMost(VerifyTx(payer, context, kind, proof, space), payer, {BUDGET_PROGRAM, SYSTEM_PROGRAM, payer, context, ZK_PROGRAM},
               {payer, context}, 70 + CompactLen(1 + |proof|) + |proof|,
               [payer, context, SYSTEM_PROGRAM, BUDGET_PROGRAM, ZK_PROGRAM], [payer, context]);
  }

  // ---------------------------------------------------------------- the chunks of a range proof

  function FirstChunkTx(record: Address, payer: Address, n: nat, chunk: Bytes): seq<Ix> {
    ChunkTx(CreateRecordIx(payer, record, n), InitRecordIx(record, payer), record, payer, 0, 0, chunk)
  }

  lemma FirstChunkAdds(record: Address, payer: Address, n: nat, chunk: Bytes)
    ensures Adds(FirstChunkTx(record, payer, n, chunk), {SYSTEM_PROGRAM, payer, record, RECORD_PROGRAM}, {payer, record},
                 80 + CompactLen(13 + |chunk|) + |chunk|)
    ensures |FirstChunkTx(record, payer, n, chunk)| == 3
  {
    hide Adds, CreateRecordIx, InitRecordIx, WriteIx;
    var create, initialize, write := CreateRecordIx(payer, record, n), InitRecordIx(record, payer), WriteIx(record, payer, 0, chunk);
    CreateRecordAdds(payer, record, n);
    InitRecordAdds(record, payer);
    WriteAdds(record, payer, 0, chunk);
    AddsBoth([create], [initialize], {SYSTEM_PROGRAM, payer, record}, {payer, record}, 57, {RECORD_PROGRAM, record, payer}, {}, 6);
    AddsBoth([create] + [initialize], [write], {SYSTEM_PROGRAM, payer, record} + {RECORD_PROGRAM, record, payer},
             {payer, record} + {}, 63, {RECORD_PROGRAM, record, payer}, {payer}, 17 + CompactLen(13 + |chunk|) + |chunk|);
    assert [create] + [initialize] + [write] == FirstChunkTx(record, payer, n, chunk);
    assert {SYSTEM_PROGRAM, payer, record} + {RECORD_PROGRAM, record, payer} + {RECORD_PROGRAM, record, payer}
        == {SYSTEM_PROGRAM, payer, record, RECORD_PROGRAM};
    assert {payer, record} + {} + {payer} == {payer, record};
  }

  lemma CreateRecordAdds(payer: Address, record: Address, n: nat)
    ensures Adds([CreateRecordIx(payer, record, n)], {SYSTEM_PROGRAM, payer, record}, {payer, record}, 57)
  {
    CreateAdds(payer, record, RECORD_PROGRAM, WRITABLE_START_INDEX + n);
  }

  /** Next to the creation of the record there is room for 856 bytes, and never for 936. */
  lemma FirstChunkSize(record: Address, payer: Address, n: nat, chunk: Bytes)
    requires payer != record
    ensures |chunk| <= 856 ==> Fits(FirstChunkTx(record, payer, n, chunk), payer, PACKET_DATA_SIZE)
    ensures |chunk| >= 936 ==> !Fits(FirstChunkTx(record, payer, n, chunk), payer, PACKET_DATA_SIZE)
    ensures Distinct([payer, record, SYSTEM_PROGRAM, RECORD_PROGRAM]) && |chunk| > 856 ==>
              !Fits(FirstChunkTx(record, payer, n, chunk), payer, PACKET_DATA_SIZE)
  {
    hide Adds, FirstChunkTx;
    var tx, body := FirstChunkTx(record, payer, n, chunk), 80 + CompactLen(13 + |chunk|) + |chunk|;
    var keys, all := {SYSTEM_PROGRAM, payer, record, RECORD_PROGRAM}, [payer, record, SYSTEM_PROGRAM, RECORD_PROGRAM];
    FirstChunkAdds(record, payer, n, chunk);
    SizeAtMost(tx, payer, keys, {payer, record}, body, all, [payer, record]);
    SizeAtLeast(tx, payer, keys, {payer, record}, body, [payer, record], [payer, record]);
    if Distinct(all) {
      SizeAtLeast(tx, payer, keys, {payer, record}, body, all, [payer, record]);
    }
  }

  /** A single write has room for a thousand. */
  lemma SingleWriteSize(record: Address, payer: Address, offset: nat, chunk: Bytes)
    requires |chunk| <= 1000
    ensures Fits([WriteIx(record, payer, offset, chunk)], payer, PACKET_DATA_SIZE)
  {
    hide Adds, WriteIx;
    WriteAdds(record, payer, offset, chunk);
    SizeAtMost([WriteIx(record, payer, offset, chunk)], payer, {RECORD_PROGRAM, record, payer}, {payer},
               17 + CompactLen(13 + |chunk|) + |chunk|, [payer, record, RECORD_PROGRAM], [payer]);
  }

  /**
   A range proof is cut in two: one transaction creates the record and writes at least 856 bytes, exactly that many if the
   keys differ, and the rest is the tail.
   */
  lemma CutInTwo(record: Address, payer: Address, proof: Bytes, log: seq<seq<Ix>>, log': seq<seq<Ix>>, cuts: seq<nat>,
                 tail: Option<Ix>)
    requires payer != record && 936 <= |proof| <= 1064
    requires Chunked(record, payer, PACKET_DATA_SIZE, proof, log, log', cuts, tail)
    ensures |cuts| == 3 && 856 <= cuts[1] < 936 && cuts[2] == |proof| && |log'| == |log| + 1
    ensures tail == Some(WriteIx(record, payer, cuts[1], proof[cuts[1]..]))
    ensures Distinct([payer, record, SYSTEM_PROGRAM, RECORD_PROGRAM]) ==> cuts[1] == 856
  {
    hide Fits, FirstChunkTx;
    var create, initialize := CreateRecordIx(payer, record, |proof|), InitRecordIx(record, payer);
    var ok := ChunkRule(create, initialize, record, payer, PACKET_DATA_SIZE, proof);
    var n := cuts[1];
    assert ok(0, cuts[0], n) && n <= |proof|;
    FirstAt(record, payer, proof, n);
    if n < |proof| {
      assert |cuts| > 2 && !ok(0, cuts[0], n + 1);
      FirstAt(record, payer, proof, n + 1);
    }
    if |cuts| > 3 {
      assert cuts[2] < cuts[3] <= |proof| && !ok(1, n, cuts[2] + 1);
      LaterAt(record, payer, proof, n, cuts[2] + 1);
    }
  }

  /** The first chunk may be the first `n` bytes if that fits beside the creation of the record. */
  lemma FirstAt(record: Address, payer: Address, proof: Bytes, n: nat)
    requires n <= |proof| && payer != record
    ensures var ok := ChunkRule(CreateRecordIx(payer, record, |proof|), InitRecordIx(record, payer), record, payer,
                                PACKET_DATA_SIZE, proof);
            && (n <= 856 ==> ok(0, 0, n)) && (n >= 936 ==> !ok(0, 0, n))
            && (Distinct([payer, record, SYSTEM_PROGRAM, RECORD_PROGRAM]) && n > 856 ==> !ok(0, 0, n))
  {
    hide Fits;
    assert proof[0..n] == proof[..n];
    FirstChunkSize(record, payer, |proof|, proof[..n]);
  }

  lemma LaterAt(record: Address, payer: Address, proof: Bytes, lo: nat, hi: nat)
    requires lo <= hi <= |proof| && hi - lo <= 1000
    ensures var ok := ChunkRule(CreateRecordIx(payer, record, |proof|), InitRecordIx(record, payer), record, payer,
                                PACKET_DATA_SIZE, proof);
            ok(1, lo, hi)
  {
    hide Fits;
    SingleWriteSize(record, payer, lo, proof[lo..hi]);
  }
}
