/** What the transactions of proof delivery are made of, and what each of them does when it lands. */
module Delivery {
  import opened Types
  import opened Packet
  import opened Chain
  import opened ClusterModel
  import Packing

  /** Headroom for the system and compute-budget instructions, and budgets for record instructions. */
  const OVERHEAD_UNITS: nat := 2_000
  const RECORD_CLOSE_UNITS: nat := 5_000
  const RECORD_WRITE_UNITS: nat := 2_000

  /** Compute units the proof program charges. */
  function ComputeUnits(kind: ProofInstruction): nat {
    match kind
    case CloseContextState => 3_300
    case VerifyZeroCiphertext => 6_000
    case VerifyCiphertextCiphertextEquality => 8_000
    case VerifyCiphertextCommitmentEquality => 6_400
    case VerifyPubkeyValidity => 2_600
    case VerifyPercentageWithCap => 6_500
    case VerifyBatchedRangeProofU64 => 111_000
    case VerifyBatchedRangeProofU128 => 200_000
    case VerifyBatchedRangeProofU256 => 368_000
    case VerifyGroupedCiphertext2HandlesValidity => 6_400
    case VerifyBatchedGroupedCiphertext2HandlesValidity => 13_000
    case VerifyGroupedCiphertext3HandlesValidity => 8_100
    case VerifyBatchedGroupedCiphertext3HandlesValidity => 16_400
  }

  /** A proof that sits in a record and is verified by the transaction that uses it. */
  datatype Staged = Staged(context: Address, tail: Option<Ix>, create: Ix, verify: Ix, units: nat)

  /** The proof a context account stands for. */
  datatype Promise = Promise(kind: ProofInstruction, proof: Bytes)

  /** The record a staged proof is verified from. */
  function RecordOf(s: Staged): Address {
    if s.verify.op.Verify? && s.verify.op.source.FromRecord? then s.verify.op.source.record else 0
  }

  function StagedContexts(staged: seq<Staged>): (r: seq<Address>)
    ensures |r| == |staged|
    ensures forall i | 0 <= i < |staged| :: r[i] == staged[i].context
  {
    seq(|staged|, i requires 0 <= i < |staged| => staged[i].context)
  }

  // ---------------------------------------------------------------- the consuming transaction

  function StagedPart(s: Staged, withTail: bool): seq<Ix> {
    (if withTail && s.tail.Some? then [s.tail.value] else []) + [s.create, s.verify]
  }

  function StagedIxs(staged: seq<Staged>, withTails: bool): seq<Ix> {
    if staged == [] then []
    else StagedIxs(staged[..|staged| - 1], withTails) + StagedPart(staged[|staged| - 1], withTails)
  }

  function StagedUnits(staged: seq<Staged>, withTails: bool): nat {
    if staged == [] then 0
    else
      var s := staged[|staged| - 1];
      StagedUnits(staged[..|staged| - 1], withTails)
      + (if withTails && s.tail.Some? then RECORD_WRITE_UNITS else 0) + s.units
  }

  function CloseIxs(contexts: seq<Address>, records: seq<Address>, payer: Address): seq<Ix> {
    seq(|contexts|, i requires 0 <= i < |contexts| => CloseContextIx(contexts[i], payer))
    + seq(|records|, i requires 0 <= i < |records| => CloseRecordIx(records[i], payer))
  }

  /** Tails, creations and verifications; then the use; then the closing of every proof account. */
  function ConsumeTx(staged: seq<Staged>, contexts: seq<Address>, records: seq<Address>, payer: Address,
                     instructions: seq<Ix>, units: nat, withTails: bool): seq<Ix> {
    var closing := contexts + StagedContexts(staged);
    [LimitIx(units + OVERHEAD_UNITS + StagedUnits(staged, withTails)
             + |closing| * ComputeUnits(CloseContextState) + |records| * RECORD_CLOSE_UNITS)]
    + StagedIxs(staged, withTails) + instructions + CloseIxs(closing, records, payer)
  }

  /** The tails that were kept back, each in a transaction of its own. */
  function TailTxs(staged: seq<Staged>): seq<seq<Ix>> {
    if staged == [] then []
    else
      var s := staged[|staged| - 1];
      TailTxs(staged[..|staged| - 1]) + (if s.tail.Some? then [[s.tail.value]] else [])
  }

  /** Nothing but the closing of proof accounts. */
  predicate Cleanup(transaction: seq<Ix>) {
    forall ix | ix in transaction :: ix.op.SetLimit? || ix.op.CloseContext? || ix.op.CloseRecord?
  }

  /** All that was sent since `before` is cleaning up. */
  ghost predicate OnlyCleanup(before: seq<Attempt>, after: seq<Attempt>) {
    before <= after && forall i | |before| <= i < |after| :: Cleanup(after[i].ixs)
  }

  lemma MoreCleanup(a: seq<Attempt>, b: seq<Attempt>, c: seq<Attempt>)
    requires OnlyCleanup(a, b) && OnlyCleanup(b, c)
    ensures OnlyCleanup(a, c)
  {
    hide Cleanup;
    forall i | |a| <= i < |c| ensures Cleanup(c[i].ixs) {
      if i < |b| {
        assert c[i] == b[i];
      }
    }
  }

  /** The first transaction sent since `before` is this one, and all others clean up. */
  ghost predicate SentAtOnce(before: seq<Attempt>, after: seq<Attempt>, transaction: seq<Ix>) {
    && |before| < |after| && before <= after && after[|before|].ixs == transaction
    && OnlyCleanup(after[..|before| + 1], after)
  }

  /** How many proofs kept a tail back. */
  function Kept(staged: seq<Staged>): nat {
    if staged == [] then 0 else Kept(staged[..|staged| - 1]) + (if staged[|staged| - 1].tail.Some? then 1 else 0)
  }

  /** There are as many of these transactions as tails kept back, and each tail comes after those staged before it. */
  lemma {:induction false} TailsInOrder(staged: seq<Staged>, i: nat)
    requires i < |staged|
    ensures |TailTxs(staged)| == Kept(staged)
    ensures staged[i].tail.Some? ==>
              Kept(staged[..i]) < Kept(staged) && TailTxs(staged)[Kept(staged[..i])] == [staged[i].tail.value]
    decreases |staged|
  {
    var n := |staged| - 1;
    var before := staged[..n];
    if n == 0 {
      assert before == [] && TailTxs([]) == [] && Kept([]) == 0;
    } else {
      TailsInOrder(before, if i < n then i else 0);
    }
    if i < n {
      assert before[..i] == staged[..i] && before[i] == staged[i];
    }
  }

  /** The same proofs with their tails written. */
  predicate Stripped(staged: seq<Staged>, staged': seq<Staged>) {
    |staged'| == |staged| && forall i | 0 <= i < |staged| :: staged'[i] == staged[i].(tail := None)
  }

  /** Once the tails are written the transaction is the one without them. */
  lemma {:induction false} StrippedIxs(staged: seq<Staged>, staged': seq<Staged>)
    requires Stripped(staged, staged')
    ensures StagedIxs(staged', false) == StagedIxs(staged, false) && StagedUnits(staged', false) == StagedUnits(staged, false)
    decreases |staged|
  {
    if staged != [] {
      StrippedIxs(staged[..|staged| - 1], staged'[..|staged| - 1]);
    }
  }

  lemma StrippedConsume(staged: seq<Staged>, staged': seq<Staged>, contexts: seq<Address>, records: seq<Address>,
                        payer: Address, instructions: seq<Ix>, units: nat)
    requires Stripped(staged, staged')
    ensures StagedContexts(staged') == StagedContexts(staged)
    ensures ConsumeTx(staged', contexts, records, payer, instructions, units, false)
         == ConsumeTx(staged, contexts, records, payer, instructions, units, false)
    ensures forall s | s in staged' :: s.tail.None?
  {
    StrippedIxs(staged, staged');
    assert StagedContexts(staged') == StagedContexts(staged);
  }

  // ---------------------------------------------------------------- effects

  /** `ixs` closes exactly `addresses`, one each, in order. */
  predicate Closes(ixs: seq<Ix>, addresses: seq<Address>, payer: Address) {
    && |ixs| == |addresses|
    && forall i | 0 <= i < |ixs| ::
         ixs[i].op == CloseContext(addresses[i], payer) || ixs[i].op == CloseRecord(addresses[i], payer)
  }

  lemma ClosingOne(env: Env, w: World, op: Op, a: Address, payer: Address, signers: set<Address>)
    requires op == CloseContext(a, payer) || op == CloseRecord(a, payer)
    ensures var r := ExecOp(env, w, op, signers);
            r.Some? ==> r.value.ledger == w.ledger && r.value.proofs == w.proofs - {a}
  {
    hide ExecToken, Verifies;
  }

  lemma {:induction false} ClosingRemoves(env: Env, w: World, ixs: seq<Ix>, addresses: seq<Address>, payer: Address,
                                          signers: set<Address>)
    requires Closes(ixs, addresses, payer)
    ensures var r := ExecAll(env, w, ixs, signers);
            r.Some? ==> && r.value.ledger == w.ledger
                        && r.value.proofs == w.proofs - (set a | a in addresses)
    decreases |ixs|
  {
    hide ExecOp;
    if ixs != [] {
      ClosingOne(env, w, ixs[0].op, addresses[0], payer, signers);
      match ExecOp(env, w, ixs[0].op, signers)
      case None =>
      case Some(w') =>
        ClosingRemoves(env, w', ixs[1..], addresses[1..], payer, signers);
        assert addresses == [addresses[0]] + addresses[1..];
        assert (set a | a in addresses) == {addresses[0]} + (set a | a in addresses[1..]);
    }
  }

  /** `op` closes an account that is there, of the right kind and under the payer's authority. */
  predicate MayClose(m: ProofMap, op: Op, payer: Address) {
    match op
    case CloseContext(a, authority) => authority == payer && a in m && m[a].Context? && m[a].authority == payer
    case CloseRecord(a, authority) => authority == payer && a in m && m[a].Record? && m[a].authority == payer
    case _ => false
  }

  predicate AllMayClose(m: ProofMap, ixs: seq<Ix>, payer: Address) {
    forall i | 0 <= i < |ixs| :: MayClose(m, ixs[i].op, payer)
  }

  /** The chain never refuses to close such accounts. */
  lemma {:induction false} ClosingAccepted(env: Env, w: World, ixs: seq<Ix>, addresses: seq<Address>, payer: Address,
                                           signers: set<Address>)
    requires Closes(ixs, addresses, payer) && Distinct(addresses) && AllMayClose(w.proofs, ixs, payer) && payer in signers
    ensures ExecAll(env, w, ixs, signers).Some?
    decreases |ixs|
  {
    if ixs != [] {
      assert MayClose(w.proofs, ixs[0].op, payer);
      var w' := ExecOp(env, w, ixs[0].op, signers).value;
      forall i | 0 <= i < |ixs| - 1 ensures MayClose(w'.proofs, ixs[1..][i].op, payer) {
        var j := i + 1;
        assert MayClose(w.proofs, ixs[j].op, payer) && addresses[j] != addresses[0];
      }
      ClosingAccepted(env, w', ixs[1..], addresses[1..], payer, signers);
    }
  }

  /** The instruction that uses the proofs, or verifies one inline: neither builds nor removes a proof account. */
  predicate Uses(instructions: seq<Ix>) {
    forall ix | ix in instructions :: ix.op.Token? || (ix.op.Verify? && ix.op.target.None?)
  }

  lemma {:induction false} UsingKeepsProofs(env: Env, w: World, ixs: seq<Ix>, signers: set<Address>)
    requires Uses(ixs)
    ensures var r := ExecAll(env, w, ixs, signers); r.Some? ==> r.value.proofs == w.proofs
    decreases |ixs|
  {
    if ixs != [] {
      assert ixs[0] in ixs;
      match ExecOp(env, w, ixs[0].op, signers)
      case None =>
      case Some(w') => UsingKeepsProofs(env, w', ixs[1..], signers);
    }
  }

  /** With the tail written, `data` is exactly the proof. */
  predicate CompletedBy(data: Bytes, tail: Option<Ix>, record: Address, payer: Address, proof: Bytes) {
    match tail
    case None => data == proof
    case Some(ix) =>
      && ix.op.Write? && ix.op.record == record && ix.op.authority == payer
      && ix.op.offset + |ix.op.chunk| <= |data|
      && Overwrite(data, ix.op.offset, ix.op.chunk) == proof
  }

  predicate StagedOk(m: ProofMap, payer: Address, s: Staged, p: Promise) {
    && s.create.op.Create? && s.create.op.account == s.context && s.create.op.program == ZK_PROGRAM
    && s.verify.op == Verify(p.kind, FromRecord(RecordOf(s)), Some(Target(s.context, payer)))
    && RecordOf(s) in m && m[RecordOf(s)].Record? && m[RecordOf(s)].authority == payer
    && CompletedBy(m[RecordOf(s)].data, s.tail, RecordOf(s), payer, p.proof)
    && s.units == ComputeUnits(p.kind)
  }

  /** Each staged proof is ready, and no two share a context or a record. */
  ghost predicate AllStaged(m: ProofMap, payer: Address, staged: seq<Staged>, promised: map<Address, Promise>) {
    && (forall s | s in staged :: s.context in promised && StagedOk(m, payer, s, promised[s.context]))
    && (forall i, j | 0 <= i < j < |staged| ::
          staged[i].context != staged[j].context && RecordOf(staged[i]) != RecordOf(staged[j]))
  }

  /** `m'` is `m` with the staged contexts verified; other accounts keep their kind, authority and, if contexts, content. */
  ghost predicate Verified(m: ProofMap, m': ProofMap, payer: Address, staged: seq<Staged>, promised: map<Address, Promise>)
    requires forall s | s in staged :: s.context in promised
  {
    && m'.Keys == m.Keys + (set s | s in staged :: s.context)
    && (forall s | s in staged :: s.context !in m
          && m'[s.context] == Context(payer, promised[s.context].kind, promised[s.context].proof))
    && (forall a | a in m && m[a].Context? :: m'[a] == m[a])
    && (forall a | a in m && m[a].Record? :: m'[a].Record? && m'[a].authority == m[a].authority)
    && (forall a | a in m && (forall s | s in staged :: RecordOf(s) != a) :: m'[a] == m[a])
  }

  lemma StagedPartVerifies(env: Env, w: World, s: Staged, withTail: bool, payer: Address, p: Promise, signers: set<Address>)
    requires StagedOk(w.proofs, payer, s, p)
    requires withTail || s.tail.None?
    ensures var r := ExecAll(env, w, StagedPart(s, withTail), signers);
            r.Some? ==> && r.value.ledger == w.ledger
                        && Verified(w.proofs, r.value.proofs, payer, [s], map[s.context := p])
  {
    hide ExecToken, Verifies;
    var part := StagedPart(s, withTail);
    var tail := if withTail && s.tail.Some? then [s.tail.value] else [];
    assert part == tail + ([s.create] + [s.verify]);
    ExecAllConcat(env, w, tail, [s.create] + [s.verify], signers);
    match ExecAll(env, w, tail, signers)
    case None =>
    case Some(w1) =>
      assert w1.proofs.Keys == w.proofs.Keys && w1.proofs[RecordOf(s)] == Record(payer, p.proof) by {
        if tail != [] {
          assert tail[1..] == [];
          assert ExecAll(env, w, tail, signers) == ExecOp(env, w, tail[0].op, signers);
        }
      }
      ExecAllConcat(env, w1, [s.create], [s.verify], signers);
      assert ExecAll(env, w1, [s.create], signers) == ExecOp(env, w1, s.create.op, signers);
      match ExecOp(env, w1, s.create.op, signers)
      case None =>
      case Some(w2) =>
        assert ExecAll(env, w2, [s.verify], signers) == ExecOp(env, w2, s.verify.op, signers);
  }

  /**
   When the staged part of a transaction runs, every staged context holds exactly its promised proof,
   whether the record tails ride along or were written before.
   */
  lemma {:induction false} StagedVerifies(env: Env, w: World, staged: seq<Staged>, withTails: bool, payer: Address,
                                          promised: map<Address, Promise>, signers: set<Address>)
    requires AllStaged(w.proofs, payer, staged, promised)
    requires withTails || forall s | s in staged :: s.tail.None?
    ensures var r := ExecAll(env, w, StagedIxs(staged, withTails), signers);
            r.Some? ==> && r.value.ledger == w.ledger
                        && Verified(w.proofs, r.value.proofs, payer, staged, promised)
    decreases |staged|
  {
    if staged != [] {
      var n := |staged| - 1;
      var before, s := staged[..n], staged[n];
      assert staged == before + [s];
      StagedBefore(w.proofs, payer, before, s, promised);
      StagedVerifies(env, w, before, withTails, payer, promised, signers);
      ExecAllConcat(env, w, StagedIxs(before, withTails), StagedPart(s, withTails), signers);
      match ExecAll(env, w, StagedIxs(before, withTails), signers)
      case None =>
      case Some(w1) => OneMoreVerifies(env, w, w1, before, s, withTails, payer, promised, signers);
    }
  }

  lemma StagedBefore(m: ProofMap, payer: Address, before: seq<Staged>, s: Staged, promised: map<Address, Promise>)
    requires AllStaged(m, payer, before + [s], promised)
    ensures AllStaged(m, payer, before, promised)
    ensures s.context in promised && StagedOk(m, payer, s, promised[s.context])
    ensures forall t | t in before :: t.context in promised && RecordOf(t) != RecordOf(s)
  {
    var all := before + [s];
    assert all[|before|] == s;
    forall t | t in before ensures t in all && RecordOf(t) != RecordOf(s) {
      var i :| 0 <= i < |before| && before[i] == t;
      assert all[i] == t;
    }
    forall i, j | 0 <= i < j < |before|
      ensures before[i].context != before[j].context && RecordOf(before[i]) != RecordOf(before[j])
    {
      assert all[i] == before[i] && all[j] == before[j];
    }
  }

  lemma OneMoreVerifies(env: Env, w: World, w1: World, before: seq<Staged>, s: Staged, withTail: bool, payer: Address,
                        promised: map<Address, Promise>, signers: set<Address>)
    requires s.context in promised && StagedOk(w.proofs, payer, s, promised[s.context])
    requires forall t | t in before :: t.context in promised && RecordOf(t) != RecordOf(s)
    requires Verified(w.proofs, w1.proofs, payer, before, promised) && w1.ledger == w.ledger
    requires withTail || s.tail.None?
    ensures var r := ExecAll(env, w1, StagedPart(s, withTail), signers);
            r.Some? ==> r.value.ledger == w.ledger && Verified(w.proofs, r.value.proofs, payer, before + [s], promised)
  {
    var m1 := w1.proofs;
    assert m1[RecordOf(s)] == w.proofs[RecordOf(s)];
    assert StagedOk(m1, payer, s, promised[s.context]);
    StagedPartVerifies(env, w1, s, withTail, payer, promised[s.context], signers);
    var r := ExecAll(env, w1, StagedPart(s, withTail), signers);
    if r.Some? {
      VerifiedExtends(w.proofs, m1, r.value.proofs, payer, before, s, promised);
    }
  }

  lemma VerifiedExtends(m: ProofMap, m1: ProofMap, m2: ProofMap, payer: Address, before: seq<Staged>, s: Staged,
                        promised: map<Address, Promise>)
    requires s.context in promised && forall t | t in before :: t.context in promised
    requires Verified(m, m1, payer, before, promised)
    requires Verified(m1, m2, payer, [s], map[s.context := promised[s.context]])
    ensures Verified(m, m2, payer, before + [s], promised)
  {
    assert s in [s] && s in before + [s];
    assert m2.Keys == m.Keys + (set t | t in before + [s] :: t.context) by {
      assert (set t | t in before + [s] :: t.context) == (set t | t in before :: t.context) + {s.context};
      assert (set t | t in [s] :: t.context) == {s.context};
    }
    forall t | t in before + [s]
      ensures t.context !in m && m2[t.context] == Context(payer, promised[t.context].kind, promised[t.context].proof)
    {
      if t in before {
        assert m1[t.context].Context?;
      }
    }
    forall a | a in m && (forall t | t in before + [s] :: RecordOf(t) != a) ensures m2[a] == m[a] {
      forall t | t in before ensures RecordOf(t) != a { assert t in before + [s]; }
      assert m1[a] == m[a];
    }
  }

  /**
   A consuming transaction that lands: the proofs are all verified at the point of use, the ledger is
   what the use made of it, and every proof account it names is gone.
   */
  lemma ConsumeEffect(env: Env, w: World, staged: seq<Staged>, contexts: seq<Address>, records: seq<Address>, payer: Address,
                      instructions: seq<Ix>, units: nat, withTails: bool, promised: map<Address, Promise>,
                      signers: set<Address>, w': World)
    returns (at: World, after: World)
    requires AllStaged(w.proofs, payer, staged, promised) && Uses(instructions)
    requires withTails || forall s | s in staged :: s.tail.None?
    requires ExecAll(env, w, ConsumeTx(staged, contexts, records, payer, instructions, units, withTails), signers) == Some(w')
    ensures at.ledger == w.ledger && at.epoch == w.epoch && Verified(w.proofs, at.proofs, payer, staged, promised)
    ensures ExecAll(env, at, instructions, signers) == Some(after) && w'.ledger == after.ledger
    ensures w'.proofs == at.proofs - (set a | a in contexts + StagedContexts(staged) + records)
  {
    hide ExecAll, AllStaged, Verified, Uses, Closes;
    var closing := contexts + StagedContexts(staged);
    var head := [ConsumeTx(staged, contexts, records, payer, instructions, units, withTails)[0]];
    var verifying, closes := StagedIxs(staged, withTails), CloseIxs(closing, records, payer);
    assert ConsumeTx(staged, contexts, records, payer, instructions, units, withTails)
        == head + verifying + instructions + closes;
    ExecAllConcat(env, w, head + verifying + instructions, closes, signers);
    ExecAllConcat(env, w, head + verifying, instructions, signers);
    ExecAllConcat(env, w, head, verifying, signers);
    LimitDoesNothing(env, w, head[0], signers);
    StagedVerifies(env, w, staged, withTails, payer, promised, signers);
    at := ExecAll(env, w, verifying, signers).value;
    SameEpoch(env, w, verifying, signers);
    UsingKeepsProofs(env, at, instructions, signers);
    after := ExecAll(env, at, instructions, signers).value;
    CloseIxsClose(closing, records, payer);
    ClosingRemoves(env, after, closes, closing + records, payer, signers);
  }

  lemma LimitDoesNothing(env: Env, w: World, ix: Ix, signers: set<Address>)
    requires ix.op.SetLimit?
    ensures ExecAll(env, w, [ix], signers) == Some(w)
  {
    assert [ix][1..] == [];
  }

  lemma CloseIxsClose(contexts: seq<Address>, records: seq<Address>, payer: Address)
    ensures Closes(CloseIxs(contexts, records, payer), contexts + records, payer)
  {}

  // ---------------------------------------------------------------- the compute budget

  /** What an instruction of proof delivery is budgeted at. */
  function Cost(op: Op): nat {
    match op
    case Verify(kind, _, _) => ComputeUnits(kind)
    case CloseContext(_, _) => ComputeUnits(CloseContextState)
    case CloseRecord(_, _) => RECORD_CLOSE_UNITS
    case Write(_, _, _, _) => RECORD_WRITE_UNITS
    case _ => 0
  }

  function Costs(ixs: seq<Ix>): nat {
    if ixs == [] then 0 else Cost(ixs[0].op) + Costs(ixs[1..])
  }

  lemma {:induction false} CostsConcat(a: seq<Ix>, b: seq<Ix>)
    ensures Costs(a + b) == Costs(a) + Costs(b)
  {
    if a == [] {
      assert a + b == b;
    } else {
      assert (a + b)[1..] == a[1..] + b;
      CostsConcat(a[1..], b);
    }
  }

  lemma {:induction false} EqualCosts(ixs: seq<Ix>, cost: nat)
    requires forall ix | ix in ixs :: Cost(ix.op) == cost
    ensures Costs(ixs) == |ixs| * cost
  {
    if ixs != [] {
      assert ixs[0] in ixs;
      EqualCosts(ixs[1..], cost);
      assert |ixs| * cost == (|ixs| - 1) * cost + cost;
    }
  }

  lemma {:induction false} StagedCosts(m: ProofMap, payer: Address, staged: seq<Staged>, promised: map<Address, Promise>,
                                       withTails: bool)
    requires forall s | s in staged :: s.context in promised && StagedOk(m, payer, s, promised[s.context])
    ensures StagedUnits(staged, withTails) == Costs(StagedIxs(staged, withTails))
    decreases |staged|
  {
    if staged != [] {
      var before, s := staged[..|staged| - 1], staged[|staged| - 1];
      assert s in staged;
      StagedCosts(m, payer, before, promised, withTails);
      CostsConcat(StagedIxs(before, withTails), StagedPart(s, withTails));
      var tail := if withTails && s.tail.Some? then [s.tail.value] else [];
      CostsConcat(tail, [s.create, s.verify]);
      assert [s.create, s.verify][1..] == [s.verify] && [s.verify][1..] == [];
      assert tail != [] ==> tail[1..] == [];
    }
  }

  lemma CloseCosts(contexts: seq<Address>, records: seq<Address>, payer: Address)
    ensures Costs(CloseIxs(contexts, records, payer)) == |contexts| * ComputeUnits(CloseContextState) + |records| * RECORD_CLOSE_UNITS
  {
    var contextIxs := seq(|contexts|, i requires 0 <= i < |contexts| => CloseContextIx(contexts[i], payer));
    var recordIxs := seq(|records|, i requires 0 <= i < |records| => CloseRecordIx(records[i], payer));
    EqualCosts(contextIxs, ComputeUnits(CloseContextState));
    EqualCosts(recordIxs, RECORD_CLOSE_UNITS);
    CostsConcat(contextIxs, recordIxs);
  }

  /** The limit the consuming transaction asks for is the sum over everything in it, tails only when they ride along. */
  lemma ConsumeBudget(m: ProofMap, staged: seq<Staged>, contexts: seq<Address>, records: seq<Address>, payer: Address,
                      instructions: seq<Ix>, units: nat, withTails: bool, promised: map<Address, Promise>)
    requires AllStaged(m, payer, staged, promised)
    ensures var tx := ConsumeTx(staged, contexts, records, payer, instructions, units, withTails);
            tx[0].op.SetLimit? && tx[0].op.units + Costs(instructions) == units + OVERHEAD_UNITS + Costs(tx[1..])
  {
    hide Costs, StagedUnits, StagedOk, CloseIxs;
    var tx := ConsumeTx(staged, contexts, records, payer, instructions, units, withTails);
    var closing := contexts + StagedContexts(staged);
    var verifying, closes := StagedIxs(staged, withTails), CloseIxs(closing, records, payer);
    StagedCosts(m, payer, staged, promised, withTails);
    CloseCosts(closing, records, payer);
    CostsConcat(verifying + instructions, closes);
    CostsConcat(verifying, instructions);
    assert tx[1..] == verifying + instructions + closes;
  }

  // ---------------------------------------------------------------- packing the closing instructions

  function Units(batch: seq<(Ix, nat)>): nat {
    if batch == [] then 0 else batch[0].1 + Units(batch[1..])
  }

  /** A batch behind the compute limit that covers it. */
  function Budgeted(batch: seq<(Ix, nat)>): seq<Ix> {
    [LimitIx(Units(batch) + OVERHEAD_UNITS)] + Firsts(batch)
  }

  /** If each instruction is listed with its own cost, the limit is their sum and the overhead. */
  lemma {:induction false} UnitsAreCosts(batch: seq<(Ix, nat)>)
    requires forall item | item in batch :: item.1 == Cost(item.0.op)
    ensures Units(batch) == Costs(Firsts(batch))
  {
    if batch != [] {
      assert batch[0] in batch && Firsts(batch)[1..] == Firsts(batch[1..]);
      UnitsAreCosts(batch[1..]);
    }
  }

  /** Any number of items up to one, or as many as fit a transaction. */
  ghost function CloseRule(items: seq<(Ix, nat)>, payer: Address, limit: nat): Packing.Rule {
    (i: nat, lo: nat, hi: nat) =>
      lo <= hi <= |items| && (hi - lo <= 1 || Fits(Budgeted(items[lo..hi]), payer, limit))
  }

  /** Size of the largest transaction that closes a single account. */
  const CLOSE_SIZE: nat := 245

  lemma FewKeys(a: Address, b: Address, c: Address, d: Address)
    ensures |{a, b, c, d}| <= 4
  {}

  lemma OneCloseFits(item: (Ix, nat), address: Address, payer: Address, limit: nat)
    requires item.0 == CloseContextIx(address, payer) || item.0 == CloseRecordIx(address, payer)
    requires CLOSE_SIZE <= limit
    ensures Fits(Budgeted([item]), payer, limit)
  {
    var keys := {payer, address, item.0.program, BUDGET_PROGRAM};
    var limits := LimitIx(Units([item]) + OVERHEAD_UNITS);
    assert forall m | m in item.0.metas :: m.key in {payer, address} && (m.signer ==> m.key == payer);
    assert Budgeted([item]) == [limits, item.0];
    PairSize(limits, item.0, payer, keys);
    FewKeys(payer, address, item.0.program, BUDGET_PROGRAM);
  }

  /** Part of a batch that fits fits as well, keys shared between its instructions notwithstanding. */
  lemma PartOfBatchFits(batch: seq<(Ix, nat)>, part: seq<(Ix, nat)>, lo: nat, hi: nat, payer: Address)
    requires lo <= hi <= |batch| && Firsts(part) == Firsts(batch)[lo..hi]
    ensures TransactionSize(Budgeted(part), payer) <= TransactionSize(Budgeted(batch), payer)
  {
    SubBatchSize(LimitIx(Units(batch) + OVERHEAD_UNITS), LimitIx(Units(part) + OVERHEAD_UNITS),
                 Firsts(batch), Firsts(part), lo, hi, payer);
  }

  lemma CloseRuleAt(items: seq<(Ix, nat)>, payer: Address, limit: nat, i: nat, lo: nat, hi: nat)
    requires lo <= hi <= |items|
    ensures var ok := CloseRule(items, payer, limit);
            && ok(i, lo, hi) == (hi - lo <= 1 || Fits(Budgeted(items[lo..hi]), payer, limit))
            && (hi < |items| ==>
                  ok(i, lo, hi + 1) == (hi + 1 - lo <= 1 || Fits(Budgeted(items[lo..hi + 1]), payer, limit)))
  {
    hide Fits, Budgeted;
  }

  lemma CloseRuleHereditary(items: seq<(Ix, nat)>, payer: Address, limit: nat)
    ensures Packing.Hereditary(CloseRule(items, payer, limit))
  {
    var ok := CloseRule(items, payer, limit);
    forall i: nat, lo: nat, hi: nat, lo': nat, hi': nat | lo <= lo' <= hi' <= hi && ok(i, lo, hi) ensures ok(i, lo', hi') {
      NarrowerBatchFits(items, lo, hi, lo', hi', payer);
    }
  }

  lemma NarrowerBatchFits(items: seq<(Ix, nat)>, lo: nat, hi: nat, lo': nat, hi': nat, payer: Address)
    requires lo <= lo' <= hi' <= hi <= |items|
    ensures TransactionSize(Budgeted(items[lo'..hi']), payer) <= TransactionSize(Budgeted(items[lo..hi]), payer)
  {
    FirstsOfPart(items, lo, hi, lo', hi');
    PartOfBatchFits(items[lo..hi], items[lo'..hi'], lo' - lo, hi' - lo, payer);
  }

  lemma FirstsOfPart(items: seq<(Ix, nat)>, lo: nat, hi: nat, lo': nat, hi': nat)
    requires lo <= lo' <= hi' <= hi <= |items|
    ensures Firsts(items[lo'..hi']) == Firsts(items[lo..hi])[lo' - lo..hi' - lo]
  {
    var x, y := Firsts(items[lo'..hi']), Firsts(items[lo..hi]);
    forall k | 0 <= k < hi' - lo' ensures x[k] == y[lo' - lo..hi' - lo][k] {
      assert x[k] == items[lo' + k].0;
      assert y[lo' - lo + k] == items[lo..hi][lo' - lo + k].0;
    }
  }

  // ---------------------------------------------------------------- chunking a proof into a record

  /** The first transaction creates and initializes the record beside its chunk; the others only write. */
  function ChunkTx(create: Ix, initialize: Ix, record: Address, payer: Address, index: nat, offset: nat, chunk: Bytes): seq<Ix> {
    if index == 0 then [create, initialize, WriteIx(record, payer, offset, chunk)]
    else [WriteIx(record, payer, offset, chunk)]
  }

  /** The bytes `[lo, hi)` can be written in a transaction of their own. */
  predicate WriteFits(record: Address, payer: Address, limit: nat, proof: Bytes, lo: nat, hi: nat)
    requires lo <= hi <= |proof|
  {
    Fits([WriteIx(record, payer, lo, proof[lo..hi])], payer, limit)
  }

  ghost function ChunkRule(create: Ix, initialize: Ix, record: Address, payer: Address, limit: nat, proof: Bytes): Packing.Rule {
    (i: nat, lo: nat, hi: nat) =>
      lo <= hi <= |proof| && Fits(ChunkTx(create, initialize, record, payer, i, lo, proof[lo..hi]), payer, limit)
  }

  lemma ChunkSizeGrows(create: Ix, initialize: Ix, record: Address, payer: Address, i: nat, offset: nat, offset': nat,
                       a: Bytes, b: Bytes)
    requires |a| <= |b|
    ensures TransactionSize(ChunkTx(create, initialize, record, payer, i, offset, a), payer)
         <= TransactionSize(ChunkTx(create, initialize, record, payer, i, offset', b), payer)
  {
    var head := if i == 0 then [create, initialize] else [];
    var x, y := WriteIx(record, payer, offset, a), WriteIx(record, payer, offset', b);
    assert ChunkTx(create, initialize, record, payer, i, offset, a) == head + [x];
    assert ChunkTx(create, initialize, record, payer, i, offset', b) == head + [y];
    DataLenMonotone(head, x, y, payer);
  }

  lemma ChunkRuleHereditary(create: Ix, initialize: Ix, record: Address, payer: Address, limit: nat, proof: Bytes)
    ensures Packing.Hereditary(ChunkRule(create, initialize, record, payer, limit, proof))
  {
    var ok := ChunkRule(create, initialize, record, payer, limit, proof);
    forall i: nat, lo: nat, hi: nat, lo': nat, hi': nat | lo <= lo' <= hi' <= hi && ok(i, lo, hi) ensures ok(i, lo', hi') {
      ChunkSizeGrows(create, initialize, record, payer, i, lo', lo, proof[lo'..hi'], proof[lo..hi]);
    }
  }

  /** Since `log`, exactly the first `k` transactions of a chunking were sent, in order. */
  ghost predicate ChunksSent(record: Address, payer: Address, proof: Bytes, log: seq<seq<Ix>>, log': seq<seq<Ix>>,
                             cuts: seq<nat>, k: nat) {
    && log <= log' && |log'| == |log| + k && k < |cuts| && Packing.Ordered(cuts, |proof|)
    && forall i, j | 0 <= i && j == i + 1 && j <= k ::
         log'[|log| + i] == ChunkTx(CreateRecordIx(payer, record, |proof|), InitRecordIx(record, payer), record, payer,
                                    i, cuts[i], proof[cuts[i]..cuts[j]])
  }

  lemma OneMoreChunkSent(record: Address, payer: Address, proof: Bytes, log: seq<seq<Ix>>, log': seq<seq<Ix>>,
                         cuts: seq<nat>, next: nat, transaction: seq<Ix>)
    requires |cuts| >= 1 && ChunksSent(record, payer, proof, log, log', cuts, |cuts| - 1)
    requires cuts[|cuts| - 1] <= next <= |proof|
    requires transaction == ChunkTx(CreateRecordIx(payer, record, |proof|), InitRecordIx(record, payer), record, payer,
                                    |cuts| - 1, cuts[|cuts| - 1], proof[cuts[|cuts| - 1]..next])
    ensures ChunksSent(record, payer, proof, log, log' + [transaction], cuts + [next], |cuts|)
    ensures ChunksSent(record, payer, proof, log, log', cuts + [next], |cuts| - 1)
  {}

  /** Writing full chunks and then the rest takes as few writes as any chunking whose transactions all fit. */
  lemma ChunkingIsMinimal(create: Ix, initialize: Ix, record: Address, payer: Address, limit: nat, proof: Bytes,
                          cuts: seq<nat>, other: seq<nat>)
    requires var ok := ChunkRule(create, initialize, record, payer, limit, proof);
             && Packing.Cuts(cuts, |proof|) && Packing.Greedy(ok, cuts)
             && Packing.Cuts(other, |proof|) && Packing.Allowed(ok, other)
    requires |other| >= 2
    ensures |cuts| <= |other|
  {
    ChunkRuleHereditary(create, initialize, record, payer, limit, proof);
    Packing.GreedyIsOptimal(ChunkRule(create, initialize, record, payer, limit, proof), cuts, other, |proof|);
  }

  /** Since `log`, exactly the batches of these cuts were sent, in order. */
  ghost predicate BatchesSent(items: seq<(Ix, nat)>, log: seq<seq<Ix>>, log': seq<seq<Ix>>, cuts: seq<nat>) {
    && |cuts| >= 1 && Packing.Ordered(cuts, |items|)
    && log <= log' && |log'| == |log| + |cuts| - 1
    && forall i, j | 0 <= i && j == i + 1 && j < |cuts| :: log'[|log| + i] == Budgeted(items[cuts[i]..cuts[j]])
  }

  /** Greedy packing sends as few closing transactions as any order-preserving partition. */
  lemma ClosingIsMinimal(items: seq<(Ix, nat)>, payer: Address, limit: nat, cuts: seq<nat>, other: seq<nat>)
    requires var ok := CloseRule(items, payer, limit);
             && Packing.Cuts(cuts, |items|) && Packing.Greedy(ok, cuts)
             && Packing.Cuts(other, |items|) && Packing.Allowed(ok, other)
    requires |items| > 0 || cuts == [0]
    ensures |cuts| <= |other|
  {
    CloseRuleHereditary(items, payer, limit);
    if |other| >= 2 {
      Packing.GreedyIsOptimal(CloseRule(items, payer, limit), cuts, other, |items|);
    }
  }

  // ---------------------------------------------------------------- single transactions

  function Then(env: Env, w: Option<World>, ix: Ix, signers: set<Address>): Option<World> {
    match w case None => None case Some(v) => ExecOp(env, v, ix.op, signers)
  }

  lemma ExecThree(env: Env, w: World, a: Ix, b: Ix, c: Ix, signers: set<Address>)
    ensures ExecAll(env, w, [a, b, c], signers) == Then(env, Then(env, Then(env, Some(w), a, signers), b, signers), c, signers)
  {
    assert [a, b, c][1..] == [b, c] && [b, c][1..] == [c] && [c][1..] == [];
    match ExecOp(env, w, a.op, signers)
    case None =>
    case Some(w1) =>
      match ExecOp(env, w1, b.op, signers)
      case None =>
      case Some(w2) => assert ExecAll(env, w2, [c], signers) == ExecOp(env, w2, c.op, signers);
  }

  /** A context account created and verified into by the same transaction. */
  function VerifyTx(payer: Address, context: Address, kind: ProofInstruction, proof: Bytes, space: nat): seq<Ix> {
    [LimitIx(ComputeUnits(kind) + OVERHEAD_UNITS), CreateIx(payer, context, ZK_PROGRAM, space),
     VerifyIx(kind, context, payer, proof)]
  }

  /** The limit a proof is verified under covers the transaction. */
  lemma VerifyBudget(payer: Address, context: Address, kind: ProofInstruction, proof: Bytes, space: nat)
    ensures var tx := VerifyTx(payer, context, kind, proof, space);
            tx[0].op.SetLimit? && tx[0].op.units == Costs(tx[1..]) + OVERHEAD_UNITS
  {
    var tx := VerifyTx(payer, context, kind, proof, space);
    assert tx[1..] == [tx[1], tx[2]] && tx[1..][1..] == [tx[2]] && [tx[2]][1..] == [];
    assert Costs([tx[2]]) == Cost(tx[2].op) && Costs(tx[1..]) == Cost(tx[1].op) + Costs([tx[2]]);
  }

  /** The context is never there without its proof. */
  lemma VerifyTxEffect(env: Env, w: World, payer: Address, context: Address, p: Promise, space: nat, signers: set<Address>)
    ensures var r := ExecAll(env, w, VerifyTx(payer, context, p.kind, p.proof, space), signers);
            r.Some? ==> && context !in w.proofs && r.value.ledger == w.ledger
                        && r.value.proofs == w.proofs[context := Context(payer, p.kind, p.proof)]
    ensures NoToken(VerifyTx(payer, context, p.kind, p.proof, space))
  {
    var ixs := VerifyTx(payer, context, p.kind, p.proof, space);
    ExecThree(env, w, ixs[0], ixs[1], ixs[2], signers);
  }

  lemma FirstChunkEffect(env: Env, w: World, record: Address, payer: Address, create: Ix, initialize: Ix, n: nat, chunk: Bytes,
                         signers: set<Address>)
    requires create.op == Create(record, RECORD_PROGRAM, WRITABLE_START_INDEX + n) && |chunk| <= n
    requires initialize.op == InitRecord(record, payer)
    ensures var r := ExecAll(env, w, ChunkTx(create, initialize, record, payer, 0, 0, chunk), signers);
            r.Some? ==> && record !in w.proofs && r.value.ledger == w.ledger
                        && r.value.proofs == w.proofs[record := Record(payer, Overwrite(Zeros(n), 0, chunk))]
  {
    ExecThree(env, w, create, initialize, WriteIx(record, payer, 0, chunk), signers);
  }

  lemma WriteEffect(env: Env, w: World, ix: Ix, signers: set<Address>)
    requires ix.op.Write?
    ensures var r := ExecAll(env, w, [ix], signers);
            r.Some? ==> && ix.op.record in w.proofs && w.proofs[ix.op.record].Record?
                        && ix.op.offset + |ix.op.chunk| <= |w.proofs[ix.op.record].data|
                        && r.value.ledger == w.ledger
                        && r.value.proofs == w.proofs[ix.op.record :=
                             Record(ix.op.authority, Overwrite(w.proofs[ix.op.record].data, ix.op.offset, ix.op.chunk))]
  {
    assert [ix][1..] == [];
  }

  // ---------------------------------------------------------------- a record being filled

  /** The record has room for exactly the proof and holds its first `offset` bytes. */
  ghost predicate Filled(live: ProofMap, record: Address, payer: Address, proof: Bytes, offset: nat) {
    && record in live && live[record].Record? && live[record].authority == payer
    && |live[record].data| == |proof| && offset <= |proof|
    && live[record].data[..offset] == proof[..offset]
  }

  lemma FilledFurther(data: Bytes, proof: Bytes, offset: nat, len: nat)
    requires |data| == |proof| && offset + len <= |proof| && data[..offset] == proof[..offset]
    ensures Overwrite(data, offset, proof[offset..offset + len])[..offset + len] == proof[..offset + len]
  {
    var d := Overwrite(data, offset, proof[offset..offset + len]);
    forall k | 0 <= k < offset + len ensures d[k] == proof[k] {
      if k < offset {
        assert data[..offset][k] == proof[..offset][k];
      }
    }
  }

  /** Writing what is left completes the proof. */
  lemma FilledByTail(data: Bytes, proof: Bytes, offset: nat)
    requires |data| == |proof| && offset <= |proof| && data[..offset] == proof[..offset]
    ensures Overwrite(data, offset, proof[offset..]) == proof
  {
    assert proof == proof[..offset] + proof[offset..];
  }

  /**
   The chunks of a proof: contiguous from 0 to its end, each transaction fitting, and none but the last able to
   take one more byte. All were sent, in order, but the last of several, which is `tail`.
   */
  ghost predicate Chunked(record: Address, payer: Address, limit: nat, proof: Bytes, log: seq<seq<Ix>>,
                          log': seq<seq<Ix>>, cuts: seq<nat>, tail: Option<Ix>) {
    var ok := ChunkRule(CreateRecordIx(payer, record, |proof|), InitRecordIx(record, payer), record, payer, limit, proof);
    var last := |cuts| - 2;
    && Packing.Cuts(cuts, |proof|) && last >= 0
    && Packing.Allowed(ok, cuts) && Packing.Greedy(ok, cuts)
    && match tail
       case None => last == 0 && ChunksSent(record, payer, proof, log, log', cuts, 1)
       case Some(ix) =>
         && last > 0 && ix == WriteIx(record, payer, cuts[last], proof[cuts[last]..])
         && ChunksSent(record, payer, proof, log, log', cuts, last)
  }

  /** The state of chunking before its end: what `Chunked` will say of the chunks sent so far. */
  ghost predicate Chunking(record: Address, payer: Address, limit: nat, proof: Bytes, log: seq<seq<Ix>>,
                           log': seq<seq<Ix>>, cuts: seq<nat>) {
    var ok := ChunkRule(CreateRecordIx(payer, record, |proof|), InitRecordIx(record, payer), record, payer, limit, proof);
    && |cuts| >= 2 && Packing.Partial(ok, cuts, |proof|)
    && ChunksSent(record, payer, proof, log, log', cuts, |cuts| - 1)
  }

  lemma ChunkingBegins(record: Address, payer: Address, limit: nat, proof: Bytes, log: seq<seq<Ix>>, offset: nat)
    returns (log': seq<seq<Ix>>)
    requires var create, initialize := CreateRecordIx(payer, record, |proof|), InitRecordIx(record, payer);
             var ok := ChunkRule(create, initialize, record, payer, limit, proof);
             offset <= |proof| && ok(0, 0, offset) && (offset < |proof| ==> !ok(0, 0, offset + 1))
    ensures log' == log + [ChunkTx(CreateRecordIx(payer, record, |proof|), InitRecordIx(record, payer), record, payer,
                                   0, 0, proof[..offset])]
    ensures Chunking(record, payer, limit, proof, log, log', [0, offset])
    ensures offset == |proof| ==> Chunked(record, payer, limit, proof, log, log', [0, offset], None)
  {
    hide Fits, ChunkRule;
    var create, initialize := CreateRecordIx(payer, record, |proof|), InitRecordIx(record, payer);
    var ok := ChunkRule(create, initialize, record, payer, limit, proof);
    log' := log + [ChunkTx(create, initialize, record, payer, 0, 0, proof[..offset])];
    assert [0] + [offset] == [0, offset] && proof[0..offset] == proof[..offset];
    Packing.PartialExtends(ok, [0], |proof|, offset);
    OneMoreChunkSent(record, payer, proof, log, log, [0], offset,
                     ChunkTx(create, initialize, record, payer, 0, 0, proof[..offset]));
    if offset == |proof| {
      Packing.PartialComplete(ok, [0] + [offset], |proof|);
    }
  }

  /** The next chunk: sent, or kept back as the tail when it is the last. */
  lemma ChunkingGoesOn(record: Address, payer: Address, limit: nat, proof: Bytes, log: seq<seq<Ix>>, log': seq<seq<Ix>>,
                       cuts: seq<nat>, next: nat, ix: Ix)
    requires Chunking(record, payer, limit, proof, log, log', cuts)
    requires var offset := cuts[|cuts| - 1];
             && offset < next <= |proof| && ix == WriteIx(record, payer, offset, proof[offset..next])
             && WriteFits(record, payer, limit, proof, offset, next)
             && (next < |proof| ==> !WriteFits(record, payer, limit, proof, offset, next + 1))
    ensures Chunking(record, payer, limit, proof, log, log' + [[ix]], cuts + [next])
    ensures next == |proof| ==> Chunked(record, payer, limit, proof, log, log', cuts + [next], Some(ix))
  {
    hide Fits;
    var create, initialize := CreateRecordIx(payer, record, |proof|), InitRecordIx(record, payer);
    var ok := ChunkRule(create, initialize, record, payer, limit, proof);
    ChunkRuleLater(create, initialize, record, payer, limit, proof, |cuts| - 1, cuts[|cuts| - 1], next);
    hide ChunkRule, WriteFits;
    Packing.PartialExtends(ok, cuts, |proof|, next);
    OneMoreChunkSent(record, payer, proof, log, log', cuts, next, [ix]);
    if next == |proof| {
      var offset := cuts[|cuts| - 1];
      assert proof[offset..next] == proof[offset..];
      Packing.PartialComplete(ok, cuts + [next], |proof|);
    }
  }

  lemma ChunkRuleLater(create: Ix, initialize: Ix, record: Address, payer: Address, limit: nat, proof: Bytes,
                       i: nat, lo: nat, hi: nat)
    requires i > 0 && lo <= hi <= |proof|
    ensures var ok := ChunkRule(create, initialize, record, payer, limit, proof);
            && ok(i, lo, hi) == WriteFits(record, payer, limit, proof, lo, hi)
            && (hi < |proof| ==> ok(i, lo, hi + 1) == WriteFits(record, payer, limit, proof, lo, hi + 1))
  {
    hide Fits;
  }

}
