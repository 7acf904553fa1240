/** When the chain takes the transactions of proof delivery: false proofs apart, nothing but the use itself can fail. */
module Acceptance {
  import opened Types
  import opened Packet
  import opened Chain
  import opened ClusterModel
  import opened Delivery

  /** A record for `n` bytes that nothing is written to yet. */
  function EmptyRecordTx(payer: Address, record: Address, n: nat): seq<Ix> {
    ChunkTx(CreateRecordIx(payer, record, n), InitRecordIx(record, payer), record, payer, 0, 0, [])
  }

  /** A true proof is verified into any context address nobody has taken. */
  lemma VerifyTxAccepted(env: Env, w: World, payer: Address, context: Address, p: Promise, space: nat, signers: set<Address>)
    requires context !in w.proofs && context in signers && Verifies(env, p.kind, p.proof)
    ensures ExecAll(env, w, VerifyTx(payer, context, p.kind, p.proof, space), signers).Some?
  {
    var ixs := VerifyTx(payer, context, p.kind, p.proof, space);
    ExecThree(env, w, ixs[0], ixs[1], ixs[2], signers);
  }

  lemma FirstChunkAccepted(env: Env, w: World, record: Address, payer: Address, create: Ix, initialize: Ix, n: nat, chunk: Bytes,
                           signers: set<Address>)
    requires create.op == Create(record, RECORD_PROGRAM, WRITABLE_START_INDEX + n) && |chunk| <= n
    requires initialize.op == InitRecord(record, payer)
    requires record !in w.proofs && {record, payer} <= signers
    ensures ExecAll(env, w, ChunkTx(create, initialize, record, payer, 0, 0, chunk), signers).Some?
  {
    ExecThree(env, w, create, initialize, WriteIx(record, payer, 0, chunk), signers);
  }

  lemma WriteAccepted(env: Env, w: World, ix: Ix, signers: set<Address>)
    requires ix.op.Write? && ix.op.record in w.proofs && w.proofs[ix.op.record].Record?
    requires w.proofs[ix.op.record].authority == ix.op.authority && ix.op.authority in signers
    requires ix.op.offset + |ix.op.chunk| <= |w.proofs[ix.op.record].data|
    ensures ExecAll(env, w, [ix], signers).Some?
  {
    assert [ix][1..] == [];
  }

  // ---------------------------------------------------------------- the consuming transaction

  /** Every staged proof is a true one. */
  ghost predicate AllTrue(env: Env, staged: seq<Staged>, promised: map<Address, Promise>) {
    forall s | s in staged :: s.context in promised && Verifies(env, promised[s.context].kind, promised[s.context].proof)
  }

  lemma StagedPartAccepted(env: Env, w: World, s: Staged, withTail: bool, payer: Address, p: Promise, signers: set<Address>)
    requires StagedOk(w.proofs, payer, s, p) && (withTail || s.tail.None?)
    requires Verifies(env, p.kind, p.proof) && s.context !in w.proofs && {payer, s.context} <= signers
    ensures ExecAll(env, w, StagedPart(s, withTail), signers).Some?
  {
    hide ExecToken, Verifies;
    var tail := if withTail && s.tail.Some? then [s.tail.value] else [];
    assert StagedPart(s, withTail) == tail + ([s.create] + [s.verify]);
    ExecAllConcat(env, w, tail, [s.create] + [s.verify], signers);
    if tail != [] {
      WriteAccepted(env, w, tail[0], signers);
      WriteEffect(env, w, tail[0], signers);
    }
    var w1 := ExecAll(env, w, tail, signers).value;
    assert w1.proofs.Keys == w.proofs.Keys && w1.proofs[RecordOf(s)] == Record(payer, p.proof);
    ExecAllConcat(env, w1, [s.create], [s.verify], signers);
    assert ExecAll(env, w1, [s.create], signers) == ExecOp(env, w1, s.create.op, signers);
    var w2 := ExecOp(env, w1, s.create.op, signers).value;
    assert w2.proofs[RecordOf(s)] == Record(payer, p.proof);
    assert ExecAll(env, w2, [s.verify], signers) == ExecOp(env, w2, s.verify.op, signers);
  }

  lemma {:induction false} StagedAccepted(env: Env, w: World, staged: seq<Staged>, withTails: bool, payer: Address,
                                          promised: map<Address, Promise>, signers: set<Address>)
    requires AllStaged(w.proofs, payer, staged, promised) && AllTrue(env, staged, promised)
    requires withTails || forall s | s in staged :: s.tail.None?
    requires payer in signers && forall s | s in staged :: s.context in signers && s.context !in w.proofs
    ensures ExecAll(env, w, StagedIxs(staged, withTails), signers).Some?
    decreases |staged|
  {
    if staged != [] {
      var n := |staged| - 1;
      var before, s := staged[..n], staged[n];
      assert staged == before + [s] && s in staged;
      TrueBefore(env, before, s, promised);
      hide AllStaged, AllTrue, ExecAll, StagedOk, Verifies, Verified;
      StagedBefore(w.proofs, payer, before, s, promised);
      StagedAccepted(env, w, before, withTails, payer, promised, signers);
      OneMoreAccepted(env, w, before, s, withTails, payer, promised, signers);
    }
  }

  lemma TrueBefore(env: Env, before: seq<Staged>, s: Staged, promised: map<Address, Promise>)
    requires AllTrue(env, before + [s], promised)
    ensures s.context in promised && Verifies(env, promised[s.context].kind, promised[s.context].proof)
    ensures AllTrue(env, before, promised)
  {
    hide Verifies;
    assert s in before + [s] && forall t | t in before :: t in before + [s];
  }

  lemma OneMoreAccepted(env: Env, w: World, before: seq<Staged>, s: Staged, withTails: bool, payer: Address,
                        promised: map<Address, Promise>, signers: set<Address>)
    requires AllStaged(w.proofs, payer, before + [s], promised)
    requires withTails || forall t | t in before + [s] :: t.tail.None?
    requires s.context in promised && Verifies(env, promised[s.context].kind, promised[s.context].proof)
    requires {payer, s.context} <= signers && s.context !in w.proofs
    requires ExecAll(env, w, StagedIxs(before, withTails), signers).Some?
    ensures ExecAll(env, w, StagedIxs(before + [s], withTails), signers).Some?
  {
    hide AllStaged, ExecAll, StagedOk, Verifies, Verified;
    StagedBefore(w.proofs, payer, before, s, promised);
    assert s in before + [s] && (forall t | t in before :: t in before + [s]) && (before + [s])[..|before|] == before;
    StagedVerifies(env, w, before, withTails, payer, promised, signers);
    ExecAllConcat(env, w, StagedIxs(before, withTails), StagedPart(s, withTails), signers);
    var w1 := ExecAll(env, w, StagedIxs(before, withTails), signers).value;
    StillStaged(w.proofs, w1.proofs, payer, before, s, promised);
    StagedPartAccepted(env, w1, s, withTails, payer, promised[s.context], signers);
  }

  /** Verifying the others leaves the next one ready. */
  lemma StillStaged(m: ProofMap, m1: ProofMap, payer: Address, before: seq<Staged>, s: Staged, promised: map<Address, Promise>)
    requires AllStaged(m, payer, before + [s], promised)
    requires forall t | t in before :: t.context in promised
    requires Verified(m, m1, payer, before, promised) && s.context !in m
    ensures s.context in promised && StagedOk(m1, payer, s, promised[s.context]) && s.context !in m1
  {
    StagedBefore(m, payer, before, s, promised);
    assert m1[RecordOf(s)] == m[RecordOf(s)];
    var all := before + [s];
    assert all[|before|] == s;
    forall t | t in before ensures t.context != s.context {
      var i :| 0 <= i < |before| && before[i] == t;
      assert all[i] == t;
    }
  }

  /** What the closing part of the consuming transaction names is there to be closed. */
  ghost predicate MayAllClose(m: ProofMap, contexts: seq<Address>, records: seq<Address>, payer: Address) {
    && Distinct(contexts + records)
    && (forall a | a in contexts :: a in m && m[a].Context? && m[a].authority == payer)
    && (forall a | a in records :: a in m && m[a].Record? && m[a].authority == payer)
  }

  lemma CloseIxsAccepted(env: Env, w: World, contexts: seq<Address>, records: seq<Address>, payer: Address, signers: set<Address>)
    requires MayAllClose(w.proofs, contexts, records, payer) && payer in signers
    ensures ExecAll(env, w, CloseIxs(contexts, records, payer), signers).Some?
  {
    var ixs := CloseIxs(contexts, records, payer);
    forall i | 0 <= i < |ixs| ensures MayClose(w.proofs, ixs[i].op, payer) {
      if i < |contexts| {
        assert contexts[i] in contexts;
      } else {
        assert records[i - |contexts|] in records;
      }
    }
    CloseIxsClose(contexts, records, payer);
    ClosingAccepted(env, w, ixs, contexts + records, payer, signers);
  }

  /** With true proofs, the transaction lands if and only if the use does, in the world where every context holds its proof. */
  lemma ConsumeAccepted(env: Env, w: World, staged: seq<Staged>, contexts: seq<Address>, records: seq<Address>, payer: Address,
                        instructions: seq<Ix>, units: nat, withTails: bool, promised: map<Address, Promise>,
                        signers: set<Address>)
    returns (at: World)
    requires AllStaged(w.proofs, payer, staged, promised) && AllTrue(env, staged, promised) && Uses(instructions)
    requires withTails || forall s | s in staged :: s.tail.None?
    requires payer in signers && forall s | s in staged :: s.context in signers && s.context !in w.proofs
    requires MayAllClose(w.proofs, contexts, records, payer) && Distinct(contexts + StagedContexts(staged) + records)
    ensures at.ledger == w.ledger && at.epoch == w.epoch && Verified(w.proofs, at.proofs, payer, staged, promised)
    ensures ExecAll(env, w, ConsumeTx(staged, contexts, records, payer, instructions, units, withTails), signers).Some?
            <==> ExecAll(env, at, instructions, signers).Some?
  {
    assert forall s | s in staged :: s.context in promised;
    hide ExecAll, AllStaged, Verified, Uses, Closes, MayAllClose, AllTrue, Distinct;
    var closing := contexts + StagedContexts(staged);
    var head := [ConsumeTx(staged, contexts, records, payer, instructions, units, withTails)[0]];
    var verifying, closes := StagedIxs(staged, withTails), CloseIxs(closing, records, payer);
    assert ConsumeTx(staged, contexts, records, payer, instructions, units, withTails)
        == head + verifying + instructions + closes;
    ExecAllConcat(env, w, head + verifying + instructions, closes, signers);
    ExecAllConcat(env, w, head + verifying, instructions, signers);
    ExecAllConcat(env, w, head, verifying, signers);
    LimitDoesNothing(env, w, head[0], signers);
    StagedVerifies(env, w, staged, withTails, payer, promised, signers);
    StagedAccepted(env, w, staged, withTails, payer, promised, signers);
    at := ExecAll(env, w, verifying, signers).value;
    SameEpoch(env, w, verifying, signers);
    UsingKeepsProofs(env, at, instructions, signers);
    match ExecAll(env, at, instructions, signers)
    case None =>
    case Some(after) =>
      AllThere(w.proofs, at.proofs, staged, contexts, records, payer, promised);
      CloseIxsAccepted(env, after, closing, records, payer, signers);
  }

  lemma AllThere(m: ProofMap, m': ProofMap, staged: seq<Staged>, contexts: seq<Address>, records: seq<Address>, payer: Address,
                 promised: map<Address, Promise>)
    requires MayAllClose(m, contexts, records, payer) && Distinct(contexts + StagedContexts(staged) + records)
    requires forall s | s in staged :: s.context in promised
    requires Verified(m, m', payer, staged, promised)
    ensures MayAllClose(m', contexts + StagedContexts(staged), records, payer)
  {
    hide Distinct;
    forall a | a in StagedContexts(staged) ensures a in m' && m'[a].Context? && m'[a].authority == payer {
      var i :| 0 <= i < |staged| && StagedContexts(staged)[i] == a;
      assert staged[i] in staged;
    }
  }
}
