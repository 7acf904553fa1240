/**
 The chain as the proof delivery sees it: proof accounts beside the token ledger, the instructions of
 the system, ZK ElGamal Proof and spl-record programs, and transactions that run whole or not at all.
 */
module Chain {
  import opened Types
  import opened Packet
  import opened Ledger
  import Conservation
  import Rely

  datatype ProofInstruction =
    | CloseContextState
    | VerifyZeroCiphertext
    | VerifyCiphertextCiphertextEquality
    | VerifyCiphertextCommitmentEquality
    | VerifyPubkeyValidity
    | VerifyPercentageWithCap
    | VerifyBatchedRangeProofU64
    | VerifyBatchedRangeProofU128
    | VerifyBatchedRangeProofU256
    | VerifyGroupedCiphertext2HandlesValidity
    | VerifyBatchedGroupedCiphertext2HandlesValidity
    | VerifyGroupedCiphertext3HandlesValidity
    | VerifyBatchedGroupedCiphertext3HandlesValidity

  /** A created but uninitialized account, a record of raw bytes, or a context holding a verified proof. */
  datatype ProofAccount =
    | Blank(program: Address, space: nat)
    | Record(authority: Address, data: Bytes)
    | Context(authority: Address, kind: ProofInstruction, proof: Bytes)

  datatype ProofSource = Inline(proof: Bytes) | FromRecord(record: Address)

  /** The context-state account a verification writes, and the authority it gives it. */
  datatype Target = Target(context: Address, authority: Address)

  datatype Op =
    | SetLimit(units: nat)
    | Create(account: Address, program: Address, space: nat)
    | InitRecord(record: Address, authority: Address)
    | Write(record: Address, authority: Address, offset: nat, chunk: Bytes)
    | Verify(kind: ProofInstruction, source: ProofSource, target: Option<Target>)
    | CloseContext(context: Address, authority: Address)
    | CloseRecord(record: Address, authority: Address)
    | Token(ix: TokenIx, inline: Option<(ProofInstruction, Bytes)>, contexts: seq<Address>)

  type Ix = Instruction<Op>

  /** Hashing, proof decoding and proof generation, fixed once for the chain. */
  datatype Env = Env(pda: Bytes -> Address, decode: (ProofInstruction, Bytes) -> Option<Statement>,
                     prove: (ProofInstruction, Statement) -> Bytes)

  /** Generated proof bytes decode to the statement they were generated for. */
  ghost predicate Faithful(env: Env) {
    forall kind, s :: env.decode(kind, env.prove(kind, s)) == Some(s)
  }

  type ProofMap = map<Address, ProofAccount>

  datatype World = World(proofs: ProofMap, ledger: Ledger, epoch: nat)

  /** A transaction from anyone. */
  datatype Tx = Tx(ixs: seq<Ix>, signers: set<Address>)

  const SYSTEM_PROGRAM: Address := 0
  const BUDGET_PROGRAM: Address := 1
  const ZK_PROGRAM: Address := 2
  const RECORD_PROGRAM: Address := 3

  /** Through which a program reads the other instructions of its transaction. */
  const INSTRUCTIONS_SYSVAR: Address := 4

  /** Where the raw bytes of an spl-record account begin. */
  const WRITABLE_START_INDEX: nat := 33

  // ---------------------------------------------------------------- instruction builders

  function LimitIx(units: nat): Ix {
    Instruction(BUDGET_PROGRAM, [], 5, SetLimit(units))
  }

  function CreateIx(payer: Address, account: Address, program: Address, space: nat): Ix {
    Instruction(SYSTEM_PROGRAM, [Meta(payer, true), Meta(account, true)], 52, Create(account, program, space))
  }

  /** A record with room for `n` raw bytes. */
  function CreateRecordIx(payer: Address, record: Address, n: nat): Ix {
    CreateIx(payer, record, RECORD_PROGRAM, WRITABLE_START_INDEX + n)
  }

  function InitRecordIx(record: Address, authority: Address): Ix {
    Instruction(RECORD_PROGRAM, [Meta(record, false), Meta(authority, false)], 1, InitRecord(record, authority))
  }

  function WriteIx(record: Address, authority: Address, offset: nat, chunk: Bytes): Ix {
    Instruction(RECORD_PROGRAM, [Meta(record, false), Meta(authority, true)], 13 + |chunk|,
                Write(record, authority, offset, chunk))
  }

  function CloseRecordIx(record: Address, authority: Address): Ix {
    Instruction(RECORD_PROGRAM, [Meta(record, false), Meta(authority, true), Meta(authority, false)], 1,
                CloseRecord(record, authority))
  }

  function VerifyIx(kind: ProofInstruction, context: Address, authority: Address, proof: Bytes): Ix {
    Instruction(ZK_PROGRAM, [Meta(context, false), Meta(authority, false)], 1 + |proof|,
                Verify(kind, Inline(proof), Some(Target(context, authority))))
  }

  function VerifyRecordIx(kind: ProofInstruction, record: Address, context: Address, authority: Address): Ix {
    Instruction(ZK_PROGRAM, [Meta(record, false), Meta(context, false), Meta(authority, false)], 5,
                Verify(kind, FromRecord(record), Some(Target(context, authority))))
  }

  function CloseContextIx(context: Address, authority: Address): Ix {
    Instruction(ZK_PROGRAM, [Meta(context, false), Meta(authority, false), Meta(authority, true)], 1,
                CloseContext(context, authority))
  }

  // ---------------------------------------------------------------- execution

  function Zeros(n: nat): (z: Bytes)
    ensures |z| == n
  {
    seq(n, _ => 0)
  }

  function Overwrite(data: Bytes, offset: nat, chunk: Bytes): (r: Bytes)
    requires offset + |chunk| <= |data|
    ensures |r| == |data|
  {
    data[..offset] + chunk + data[offset + |chunk|..]
  }

  /** A proof verifies when it decodes to a true statement. */
  predicate Verifies(env: Env, kind: ProofInstruction, proof: Bytes) {
    env.decode(kind, proof).Some? && Holds(env.decode(kind, proof).value)
  }

  function SourceBytes(m: ProofMap, source: ProofSource): Option<Bytes> {
    match source
    case Inline(proof) => Some(proof)
    case FromRecord(r) => if r in m && m[r].Record? then Some(m[r].data) else None
  }

  /** One instruction of the system, proof or record program. */
  function ExecProofOp(env: Env, m: ProofMap, op: Op, signers: set<Address>): Option<ProofMap> {
    match op
    case SetLimit(_) => Some(m)
    case Create(a, program, space) =>
      if a in m || a !in signers then None else Some(m[a := Blank(program, space)])
    case InitRecord(r, authority) =>
      if r !in m || !m[r].Blank? || m[r].program != RECORD_PROGRAM || m[r].space < WRITABLE_START_INDEX then None
      else Some(m[r := Record(authority, Zeros(m[r].space - WRITABLE_START_INDEX))])
    case Write(r, authority, offset, chunk) =>
      if r !in m || !m[r].Record? || m[r].authority != authority || authority !in signers
         || offset + |chunk| > |m[r].data| then None
      else Some(m[r := Record(authority, Overwrite(m[r].data, offset, chunk))])
    case Verify(kind, source, target) => (
      match SourceBytes(m, source)
      case None => None
      case Some(proof) =>
        if !Verifies(env, kind, proof) then None
        else
          match target
          case None => Some(m)
          case Some(t) =>
            if t.context !in m || !m[t.context].Blank? || m[t.context].program != ZK_PROGRAM then None
            else Some(m[t.context := Context(t.authority, kind, proof)])
    )
    case CloseContext(c, authority) =>
      if c !in m || !m[c].Context? || m[c].authority != authority || authority !in signers then None
      else Some(m - {c})
    case CloseRecord(r, authority) =>
      if r !in m || !m[r].Record? || m[r].authority != authority || authority !in signers then None
      else Some(m - {r})
    case Token(_, _, _) => Some(m)
  }

  /** The statements of the contexts a token instruction names; none when one of them is not a verified context. */
  function ContextStatements(env: Env, m: ProofMap, contexts: seq<Address>): Option<seq<Statement>>
    decreases |contexts|
  {
    if contexts == [] then Some([])
    else
      var c := contexts[0];
      if c !in m || !m[c].Context? || env.decode(m[c].kind, m[c].proof).None? then None
      else
        match ContextStatements(env, m, contexts[1..])
        case None => None
        case Some(rest) => Some([env.decode(m[c].kind, m[c].proof).value] + rest)
  }

  /** A token instruction with its proofs: first the one travelling inline, then those in contexts. */
  function ExecToken(env: Env, w: World, op: Op, signers: set<Address>): Option<Ledger>
    requires op.Token?
  {
    match ContextStatements(env, w.proofs, op.contexts)
    case None => None
    case Some(rest) =>
      match op.inline
      case None => Exec(env.pda, w.ledger, op.ix, signers, rest, w.epoch)
      case Some(p) =>
        if env.decode(p.0, p.1).None? then None
        else Exec(env.pda, w.ledger, op.ix, signers, [env.decode(p.0, p.1).value] + rest, w.epoch)
  }

  function ExecOp(env: Env, w: World, op: Op, signers: set<Address>): Option<World> {
    if op.Token? then
      match ExecToken(env, w, op, signers)
      case None => None
      case Some(l) => Some(w.(ledger := l))
    else
      match ExecProofOp(env, w.proofs, op, signers)
      case None => None
      case Some(m) => Some(w.(proofs := m))
  }

  /** All instructions in order, or nothing. */
  function ExecAll(env: Env, w: World, ixs: seq<Ix>, signers: set<Address>): Option<World>
    decreases |ixs|
  {
    if ixs == [] then Some(w)
    else
      match ExecOp(env, w, ixs[0].op, signers)
      case None => None
      case Some(w') => ExecAll(env, w', ixs[1..], signers)
  }

  /** Other parties' transactions; the ones that fail leave no trace. */
  function RunOthers(env: Env, w: World, txs: seq<Tx>): World
    decreases |txs|
  {
    if txs == [] then w
    else
      match ExecAll(env, w, txs[0].ixs, txs[0].signers)
      case None => RunOthers(env, w, txs[1..])
      case Some(w') => RunOthers(env, w', txs[1..])
  }

  lemma {:induction false} ExecAllConcat(env: Env, w: World, a: seq<Ix>, b: seq<Ix>, signers: set<Address>)
    ensures ExecAll(env, w, a + b, signers)
         == match ExecAll(env, w, a, signers) case None => None case Some(mid) => ExecAll(env, mid, b, signers)
    decreases |a|
  {
    if a == [] {
      assert a + b == b;
    } else {
      assert (a + b)[0] == a[0] && (a + b)[1..] == a[1..] + b;
      match ExecOp(env, w, a[0].op, signers)
      case None =>
      case Some(w') => ExecAllConcat(env, w', a[1..], b, signers);
    }
  }

  // ---------------------------------------------------------------- what every transaction keeps

  /** The proof accounts at addresses generated since `floor`. */
  function Above(m: ProofMap, floor: Address): ProofMap {
    map a | a in m && a >= floor :: m[a]
  }

  /** Every one of them is fully built and under the payer's authority: no blank account is in sight. */
  ghost predicate Settled(m: ProofMap, payer: Address, floor: Address) {
    forall a | a in m && a >= floor :: !m[a].Blank? && m[a].authority == payer
  }

  /** New accounts appear only at addresses that signed, and the books stay balanced. */
  lemma {:induction false} ExecAllKeeps(env: Env, w: World, ixs: seq<Ix>, signers: set<Address>)
    requires Conservation.Conserved(w.ledger)
    ensures var r := ExecAll(env, w, ixs, signers);
            r.Some? ==> && Conservation.Conserved(r.value.ledger)
                        && r.value.epoch == w.epoch
                        && r.value.proofs.Keys <= w.proofs.Keys + signers
    decreases |ixs|
  {
    if ixs != [] {
      var op := ixs[0].op;
      match ExecOp(env, w, op, signers)
      case None =>
      case Some(w') =>
        if op.Token? {
          var rest := ContextStatements(env, w.proofs, op.contexts).value;
          var proofs := if op.inline.None? then rest else [env.decode(op.inline.value.0, op.inline.value.1).value] + rest;
          Conservation.ExecConserves(env.pda, w.ledger, op.ix, signers, proofs, w.epoch);
        }
        ExecAllKeeps(env, w', ixs[1..], signers);
    }
  }

  /** Signed neither by the payer nor by the watched owner nor by a key the client generated. */
  ghost predicate Foreign(signers: set<Address>, payer: Address, owner: Address, base: Address) {
    payer !in signers && owner !in signers && forall s | s in signers :: s < base
  }

  lemma ForeignProofOp(env: Env, m: ProofMap, op: Op, signers: set<Address>, payer: Address, owner: Address, floor: Address)
    requires Foreign(signers, payer, owner, floor) && Settled(m, payer, floor)
    ensures var r := ExecProofOp(env, m, op, signers); r.Some? ==> Above(r.value, floor) == Above(m, floor)
  {}

  lemma {:induction false} ForeignTransaction(env: Env, w: World, ixs: seq<Ix>, signers: set<Address>,
                                              payer: Address, owner: Address, floor: Address)
    requires Foreign(signers, payer, owner, floor) && Settled(w.proofs, payer, floor)
    ensures var r := ExecAll(env, w, ixs, signers);
            r.Some? ==> && Above(r.value.proofs, floor) == Above(w.proofs, floor)
                        && Rely.Undisturbed(owner, w.ledger, r.value.ledger)
    decreases |ixs|
  {
    if ixs != [] {
      var op := ixs[0].op;
      match ExecOp(env, w, op, signers)
      case None =>
      case Some(w') =>
        if op.Token? {
          var rest := ContextStatements(env, w.proofs, op.contexts).value;
          var proofs := if op.inline.None? then rest else [env.decode(op.inline.value.0, op.inline.value.1).value] + rest;
          Rely.OthersDoNotDisturb(env.pda, owner, w.ledger, op.ix, signers, proofs, w.epoch);
        } else {
          ForeignProofOp(env, w.proofs, op, signers, payer, owner, floor);
        }
        SettledAbove(w.proofs, w'.proofs, payer, floor);
        ForeignTransaction(env, w', ixs[1..], signers, payer, owner, floor);
        var r := ExecAll(env, w', ixs[1..], signers);
        if r.Some? {
          Rely.UndisturbedTransitive(owner, w.ledger, w'.ledger, r.value.ledger);
        }
    }
  }

  lemma SettledAbove(m: ProofMap, m': ProofMap, payer: Address, floor: Address)
    requires Above(m', floor) == Above(m, floor) && Settled(m, payer, floor)
    ensures Settled(m', payer, floor)
  {
    forall a | a in m' && a >= floor ensures !m'[a].Blank? && m'[a].authority == payer {
      assert a in Above(m', floor) && a in Above(m, floor);
    }
  }

  /** What any run of other parties' transactions leaves as it was. */
  lemma {:induction false} OthersKeep(env: Env, w: World, txs: seq<Tx>, payer: Address, owner: Address, base: Address, floor: Address)
    requires forall tx | tx in txs :: Foreign(tx.signers, payer, owner, base)
    requires base <= floor && Settled(w.proofs, payer, floor) && Conservation.Conserved(w.ledger)
    ensures var r := RunOthers(env, w, txs);
            && Above(r.proofs, floor) == Above(w.proofs, floor)
            && Settled(r.proofs, payer, floor)
            && Rely.Undisturbed(owner, w.ledger, r.ledger)
            && Conservation.Conserved(r.ledger)
            && r.epoch == w.epoch
    decreases |txs|
  {
    if txs != [] {
      var tx := txs[0];
      ForeignTransaction(env, w, tx.ixs, tx.signers, payer, owner, floor);
      ExecAllKeeps(env, w, tx.ixs, tx.signers);
      match ExecAll(env, w, tx.ixs, tx.signers)
      case None => OthersKeep(env, w, txs[1..], payer, owner, base, floor);
      case Some(w') =>
        SettledAbove(w.proofs, w'.proofs, payer, floor);
        OthersKeep(env, w', txs[1..], payer, owner, base, floor);
        Rely.UndisturbedTransitive(owner, w.ledger, w'.ledger, RunOthers(env, w', txs[1..]).ledger);
    }
  }

  /** No instruction makes the epoch go by. */
  lemma {:induction false} SameEpoch(env: Env, w: World, ixs: seq<Ix>, signers: set<Address>)
    ensures var r := ExecAll(env, w, ixs, signers); r.Some? ==> r.value.epoch == w.epoch
    decreases |ixs|
  {
    if ixs != [] {
      match ExecOp(env, w, ixs[0].op, signers)
      case None =>
      case Some(w') => SameEpoch(env, w', ixs[1..], signers);
    }
  }
}
