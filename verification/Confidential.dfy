/** The confidential flows of the client, from reading the accounts to cleaning up after the proofs. */
module Confidential {
  import opened Types
  import opened Packet
  import opened Ledger
  import opened Chain
  import opened ClusterModel
  import opened Delivery
  import opened Acceptance
  import opened Proofs
  import opened Sizes
  import opened Counts
  import opened Submit
  import opened Wallet
  import Conservation
  import Fees
  import Rely
  import Transfers

  const TRANSFER_WITH_FEE_UNITS: nat := 80_000
  const WITHDRAW_UNITS: nat := 20_000

  /** Account space of a proof context; it plays no part in what follows. */
  const CONTEXT_SPACE: nat := 256

  /** The owner's account, whose copy agrees with the chain unless it is known to be stale. */
  ghost predicate Mine(l: Ledger, owner: Address, a: Address) {
    a in l.accounts && l.accounts[a].owner == owner && Agreed(l, a)
  }

  lemma MineUndisturbed(l: Ledger, l': Ledger, owner: Address, a: Address)
    requires Mine(l, owner, a) && Rely.Undisturbed(owner, l, l')
    ensures Mine(l', owner, a) && (Stale(l', a) <==> Stale(l, a))
  {
    assert Rely.ConfRely(l.accounts[a].conf, l'.accounts[a].conf);
  }

  // ---------------------------------------------------------------- instructions

  function DepositIx(roles: Roles, a: Address, owner: Address, amount: nat): Ix {
    Instruction(roles.tokenProgram, [Meta(a, false), Meta(roles.mint, false), Meta(owner, true)], 11,
                Token(Deposit(a, amount), None, []))
  }

  function ApplyIx(roles: Roles, owner: Address, ix: TokenIx): Ix
    requires ix.ApplyPending?
  {
    Instruction(roles.tokenProgram, [Meta(ix.account, false), Meta(owner, true)], 46, Token(ix, None, []))
  }

  /** The withdraw, with its equality proof travelling right behind it. */
  function WithdrawIxs(env: Env, roles: Roles, a: Address, owner: Address, amount: nat, decryptable: Cipher,
                       equality: Statement, range: Address): seq<Ix> {
    var kind := VerifyCiphertextCommitmentEquality;
    var proof := env.prove(kind, equality);
    [Instruction(roles.tokenProgram,
                 [Meta(a, false), Meta(roles.mint, false), Meta(INSTRUCTIONS_SYSVAR, false), Meta(range, false), Meta(owner, true)],
                 49,
                 Token(Withdraw(a, amount, decryptable), Some((kind, proof)), [range])),
     Instruction(ZK_PROGRAM, [], 1 + |proof|, Verify(kind, Inline(proof), None))]
  }

  function TransferIx(roles: Roles, source: Address, destination: Address, owner: Address, decryptable: Cipher,
                      contexts: seq<Address>): Ix {
    Instruction(roles.tokenProgram,
                [Meta(source, false), Meta(roles.mint, false), Meta(destination, false)]
                + seq(|contexts|, i requires 0 <= i < |contexts| => Meta(contexts[i], false)) + [Meta(owner, true)], 171,
                Token(ConfidentialTransfer(source, destination, decryptable), None, contexts))
  }

  // ---------------------------------------------------------------- single-transaction flows

  /** `amount` left the public balance and arrived in the pending one as a single credit; nothing else changed. */
  ghost predicate Deposited(before: Ledger, after: Ledger, a: Address, amount: nat) {
    && a in before.accounts && before.accounts[a].conf.Some?
    && var account := before.accounts[a];
    && var c := account.conf.value;
    && !account.frozen && c.approved && c.credits < c.maxCredits && amount <= account.amount && amount < MAX_CONFIDENTIAL
    && a in after.accounts && after.accounts[a].conf.Some?
    && var c' := after.accounts[a].conf.value;
    && c'.Pending() == c.Pending() + amount
    && 0 <= c'.pendingLo - c.pendingLo < LO_BITS
    && c' == c.(pendingLo := c'.pendingLo, pendingHi := c'.pendingHi, credits := c.credits + 1)
    && after == Put(before, a, account.(amount := account.amount - amount, conf := Some(c')))
  }

  /** As things stand, nothing speaks against depositing `amount`. */
  ghost predicate MayDeposit(l: Ledger, payer: Address, owner: Address, limit: nat, a: Address, amount: nat) {
    && Usable(l, a, {owner}) && Creditable(l, a) && amount <= l.accounts[a].amount && amount < MAX_CONFIDENTIAL
    && Fits([DepositIx(l.roles, a, owner, amount)], payer, limit)
  }

  lemma MayDepositSays(l: Ledger, payer: Address, owner: Address, limit: nat, a: Address, amount: nat)
    ensures MayDeposit(l, payer, owner, limit, a, amount) ==>
              && a in l.accounts && ExecDeposit(l, a, amount, {payer} + {owner}).Some?
              && Fits([DepositIx(l.roles, a, owner, amount)], payer, limit)
  {
    hide Fits;
  }

  /**
   One deposit of `amount` out of the public balance, or none. It fails only if the account is missing, the network loses
   it, it does not fit, or the program refuses it in the world it met, which is the one the client started from if nobody
   else acted; then, unless it is lost, what may be deposited is deposited.
   */
  method DepositFlow(c: Cluster, a: Address, amount: nat) returns (r: Result<()>, ghost at: World)
    requires c.Valid()
    modifies c
    ensures c.Valid() && at.epoch == c.world.epoch
    ensures Reached(c.owner, c.script, old(c.Now()), c.turn, at.ledger, at.epoch)
    ensures r.Ok? ==> && Deposited(at.ledger, c.world.ledger, a, amount)
                      && c.landed == old(c.landed) + [[DepositIx(at.ledger.roles, a, c.owner, amount)]]
    ensures r.Err? ==> c.world.ledger == at.ledger && c.landed == old(c.landed)
    ensures r.Err? ==> (r.error == NotFound(a) && a !in at.ledger.accounts) || c.failures == old(c.failures) + [r.error]
    ensures r.Err? ==> || a !in at.ledger.accounts || !c.script(old(c.turn) + 2).lands
                       || !Fits([DepositIx(at.ledger.roles, a, c.owner, amount)], c.payer, c.limit)
                       || ExecDeposit(at.ledger, a, amount, {c.payer} + {c.owner}).None?
    ensures old(Mine(c.world.ledger, c.owner, a)) ==> Mine(c.world.ledger, c.owner, a)
    ensures Calm(c.script, old(c.turn), c.turn) && !Dropped(c.script, old(c.sent), c.sent)
            && MayDeposit(old(c.world.ledger), c.payer, c.owner, c.limit, a, amount)
            ==> r.Ok?
  {
    hide Conservation.Conserved, Exec, ExecDeposit, Deposited, Rely.Undisturbed, Mine, Fits, Quiet, Reached, Dropped, Calm,
         MayDeposit;
    MayDepositSays(c.world.ledger, c.payer, c.owner, c.limit, a, amount);
    ghost var m := c.Now();
    var seen := c.Observe();
    at := c.world;
    ghost var m1 := c.Now();
    QuietSays(c.owner, c.script, m, m1);
    if a in seen.ledger.accounts {
      var mint := c.Observe();
      ghost var m2 := c.Now();
      QuietThen(c.owner, c.script, m, m1, m2);
      var ix := DepositIx(mint.ledger.roles, a, c.owner, amount);
      r, at := SendOne(c, ix, {c.owner});
      QuietThen(c.owner, c.script, m, m2, Moment(c.turn, c.sent, m.landed, at.ledger, at.epoch));
      ExecOfDeposit(c.env, at.ledger, ix.op.ix, {c.payer} + {c.owner}, at.epoch, c.owner, a);
      OneDropped(c.script, m.sent, c.sent, m.turn + 2, [ix], at);
    } else {
      r := Err(NotFound(a));
    }
    if Mine(m.ledger, c.owner, a) {
      MineUndisturbed(m.ledger, at.ledger, c.owner, a);
    }
  }

  lemma ExecOfDeposit(env: Env, l: Ledger, ix: TokenIx, signers: set<Address>, epoch: nat, owner: Address, a: Address)
    requires ix.Deposit?
    ensures var r := Exec(env.pda, l, ix, signers, [], epoch);
            && r == ExecDeposit(l, ix.account, ix.amount, signers)
            && (r.Some? ==> Deposited(l, r.value, ix.account, ix.amount) && (Mine(l, owner, a) ==> Mine(r.value, owner, a)))
  {
    assert ix.amount == ix.amount % LO_BITS + LO_BITS * (ix.amount / LO_BITS);
  }

  /** As things stand, nothing speaks against applying what is pending. */
  ghost predicate MayApply(l: Ledger, payer: Address, owner: Address, limit: nat, a: Address, keys: WalletKeys) {
    && Usable(l, a, {owner})
    && var c := l.accounts[a].conf.value;
    && Current(c, keys) && 0 <= c.pendingLo < U32 && 0 <= c.pendingHi < U32
    && Fits([ApplyIx(l.roles, owner, ApplyPending(a, c.credits, Cipher(keys.ae, c.available + c.Pending())))], payer, limit)
  }

  lemma MayApplySays(l: Ledger, payer: Address, owner: Address, limit: nat, a: Address, keys: WalletKeys)
    requires Conservation.Conserved(l)
    ensures MayApply(l, payer, owner, limit, a, keys) ==>
              && PrepareApply(l, a, keys).Ok? && Usable(l, a, {payer} + {owner})
              && Fits([ApplyIx(l.roles, owner, PrepareApply(l, a, keys).value.0)], payer, limit)
  {
    hide Fits, PrepareApply, Conservation.Conserved;
    if MayApply(l, payer, owner, limit, a, keys) {
      PrepareApplyIff(l, a, keys);
      PreparedApply(l, a, keys);
    }
  }

  /**
   Make everything pending spendable; `seen` is what was read, `at` what the transaction met. An
   account found stale is refused before anything is sent. Otherwise the balance returned is the true one, unless
   a credit arrived in between, and then the account is marked stale. If nobody else acts and it is not lost, what may
   be applied is applied.
   */
  method ApplyPendingBalance(c: Cluster, a: Address, keys: WalletKeys) returns (r: Result<nat>, ghost seen: Ledger, ghost at: Ledger)
    requires c.Valid()
    modifies c
    ensures c.Valid() && c.Live() == old(c.Live())
    ensures Rely.Undisturbed(c.owner, old(c.world.ledger), seen) && Rely.Undisturbed(c.owner, seen, at)
    ensures Reached(c.owner, c.script, old(c.Now()), c.turn, at, c.world.epoch)
    ensures c.script(old(c.turn)).others == [] ==> seen == old(c.world.ledger)
    ensures var p := PrepareApply(seen, a, keys);
            && (p.Err? ==> r == Err(p.error) && c.turn == old(c.turn) + 1 && c.failures == old(c.failures))
            && (r.Ok? ==> (p.Ok? && r.value == p.value.1
                  && c.landed == old(c.landed) + [[ApplyIx(at.roles, c.owner, p.value.0)]]
                  && ExecApply(at, a, p.value.0.credits, p.value.0.decryptable, {c.payer} + {c.owner}) == Some(c.world.ledger)))
    ensures r.Err? ==> c.landed == old(c.landed) && c.world.ledger == at
    ensures r.Err? ==> PrepareApply(seen, a, keys).Err? || c.failures == old(c.failures) + [r.error]
    ensures var p := PrepareApply(seen, a, keys);
            r.Err? ==> || p.Err? || !c.script(old(c.turn) + 1).lands
                       || !Fits([ApplyIx(at.roles, c.owner, p.value.0)], c.payer, c.limit)
                       || !Usable(at, a, {c.payer} + {c.owner})
    ensures old(Mine(c.world.ledger, c.owner, a)) ==> Mine(c.world.ledger, c.owner, a)
    ensures old(Mine(c.world.ledger, c.owner, a) && Stale(c.world.ledger, a)) ==> r == Err(Invalid)
    ensures old(Mine(c.world.ledger, c.owner, a)) && r.Ok? ==>
              && a in seen.accounts && seen.accounts[a].conf.Some? && a in at.accounts && at.accounts[a].conf.Some?
              && r.value < U64
              && (Stale(c.world.ledger, a) <==> at.accounts[a].conf.value.credits != seen.accounts[a].conf.value.credits)
              && (!Stale(c.world.ledger, a) ==> c.world.ledger.accounts[a].conf.value.available == r.value)
    ensures Calm(c.script, old(c.turn), c.turn) && !Dropped(c.script, old(c.sent), c.sent)
            && MayApply(old(c.world.ledger), c.payer, c.owner, c.limit, a, keys)
            ==> r.Ok?
  {
    hide Conservation.Conserved, Fits, Exec, PrepareApply, ExecApply, Quiet, Reached, Rely.Undisturbed, Calm, Dropped, MayApply;
    ghost var m, l := c.Now(), c.world.ledger;
    MayApplySays(l, c.payer, c.owner, c.limit, a, keys);
    var account := c.Observe();
    ghost var m1 := c.Now();
    QuietSays(c.owner, c.script, m, m1);
    StillThere(c.owner, m1.ledger);
    seen, at := c.world.ledger, c.world.ledger;
    var prepared := PrepareApply(account.ledger, a, keys);
    if Mine(l, c.owner, a) {
      MineUndisturbed(l, seen, c.owner, a);
      if Stale(seen, a) {
        StaleRefused(seen, a, keys, 0);
      }
    }
    if prepared.Err? {
      return Err(prepared.error), seen, at;
    }
    PreparedIsApply(seen, a, keys);
    var ix := ApplyIx(account.ledger.roles, c.owner, prepared.value.0);
    var sent, met := SendOne(c, ix, {c.owner});
    at := met.ledger;
    QuietThen(c.owner, c.script, m, m1, Moment(c.turn, c.sent, m.landed, at, met.epoch));
    ExecOfApply(c.env, at, prepared.value.0, {c.payer} + {c.owner}, met.epoch);
    ApplyRefusedIff(at, prepared.value.0, {c.payer} + {c.owner});
    if Mine(seen, c.owner, a) {
      MineUndisturbed(seen, at, c.owner, a);
      AppliedMine(c.owner, seen, at, a, keys, {c.payer} + {c.owner});
    }
    if sent.Err? {
      OneDropped(c.script, m.sent, c.sent, m.turn + 1, [ix], met);
      CalmAt(c.script, m.turn, c.turn, m.turn);
      r := Err(sent.error);
    } else {
      r := Ok(prepared.value.1);
    }
  }

  lemma StillThere(owner: Address, l: Ledger)
    ensures Rely.Undisturbed(owner, l, l)
  {}

  lemma PreparedIsApply(l: Ledger, a: Address, keys: WalletKeys)
    requires PrepareApply(l, a, keys).Ok?
    ensures PrepareApply(l, a, keys).value.0.ApplyPending? && PrepareApply(l, a, keys).value.0.account == a
  {}

  lemma ExecOfApply(env: Env, l: Ledger, ix: TokenIx, signers: set<Address>, epoch: nat)
    requires ix.ApplyPending?
    ensures Exec(env.pda, l, ix, signers, [], epoch) == ExecApply(l, ix.account, ix.credits, ix.decryptable, signers)
  {}

  lemma ApplyRefusedIff(l: Ledger, ix: TokenIx, signers: set<Address>)
    requires ix.ApplyPending?
    ensures ExecApply(l, ix.account, ix.credits, ix.decryptable, signers).None? <==> !Usable(l, ix.account, signers)
  {}

  /** What an apply prepared by the owner does to the owner's account. */
  lemma AppliedMine(owner: Address, seen: Ledger, at: Ledger, a: Address, keys: WalletKeys, signers: set<Address>)
    requires Conservation.Conserved(seen) && Mine(seen, owner, a) && Rely.Undisturbed(owner, seen, at)
    requires PrepareApply(seen, a, keys).Ok?
    ensures var p := PrepareApply(seen, a, keys).value;
            var x := ExecApply(at, a, p.0.credits, p.0.decryptable, signers);
            && a in at.accounts && seen.accounts[a].conf.Some? && at.accounts[a].conf.Some? && p.1 < U64
            && (x.Some? ==> && Mine(x.value, owner, a)
                            && (Stale(x.value, a) <==>
                                  at.accounts[a].conf.value.credits != seen.accounts[a].conf.value.credits)
                            && (!Stale(x.value, a) ==> x.value.accounts[a].conf.value.available == p.1))
  {
    PreparedApply(seen, a, keys);
    ApplyExecuted(owner, seen, at, a, keys, signers);
    assert Rely.ConfRely(seen.accounts[a].conf, at.accounts[a].conf);
  }

  /** Contexts holding the proofs generated for `statements` stand for exactly those. */
  lemma {:induction false} ContextsStand(env: Env, m: ProofMap, payer: Address, contexts: seq<Address>,
                                         promised: map<Address, Promise>, kinds: seq<ProofInstruction>,
                                         statements: seq<Statement>)
    requires Faithful(env) && |contexts| == |kinds| == |statements|
    requires forall a | a in contexts :: a in promised && a in m && m[a] == Context(payer, promised[a].kind, promised[a].proof)
    requires forall i | 0 <= i < |contexts| :: promised[contexts[i]] == Promise(kinds[i], env.prove(kinds[i], statements[i]))
    ensures ContextStatements(env, m, contexts) == Some(statements)
    decreases |contexts|
  {
    if contexts != [] {
      var a := contexts[0];
      assert env.decode(kinds[0], env.prove(kinds[0], statements[0])) == Some(statements[0]);
      assert promised[a] == Promise(kinds[0], env.prove(kinds[0], statements[0]));
      forall i | 0 <= i < |contexts| - 1
        ensures promised[contexts[1..][i]] == Promise(kinds[1..][i], env.prove(kinds[1..][i], statements[1..][i]))
      {
        assert contexts[1..][i] == contexts[i + 1];
      }
      ContextsStand(env, m, payer, contexts[1..], promised, kinds[1..], statements[1..]);
      assert statements == [statements[0]] + statements[1..];
    }
  }

  // ---------------------------------------------------------------- withdraw

  /** `amount` moved from the available to the public balance of `a`, and the owner's copy says `decryptable`. */
  ghost predicate Withdrew(before: Ledger, after: Ledger, a: Address, amount: nat, decryptable: Cipher) {
    && a in before.accounts && before.accounts[a].conf.Some?
    && var account := before.accounts[a];
    && var conf := account.conf.value;
    && !account.frozen && conf.approved && 0 <= conf.available - amount < U64
    && after == Put(before, a, account.(amount := account.amount + amount,
                                        conf := Some(conf.(available := conf.available - amount, decryptable := decryptable))))
  }

  /** The transaction a withdraw ends with: its record is at `key`, and the context of its range proof right behind. */
  function WithdrawTx(env: Env, roles: Roles, payer: Address, owner: Address, key: Address, a: Address, amount: nat,
                      decryptable: Cipher, equality: Statement): seq<Ix> {
    ConsumeTx([StagedFrom(VerifyBatchedRangeProofU64, key, key + 1, payer, None, CONTEXT_SPACE)], [], [key], payer,
              WithdrawIxs(env, roles, a, owner, amount, decryptable, equality, key + 1),
              WITHDRAW_UNITS + ComputeUnits(VerifyCiphertextCommitmentEquality), false)
  }

  /** Every transaction of a withdraw fits the packet: those that write its proof, and the last without a tail. */
  ghost predicate WithdrawFits(env: Env, roles: Roles, payer: Address, owner: Address, limit: nat, key: Address, a: Address,
                               keys: WalletKeys, claimed: int, balance: nat, amount: nat)
    requires amount <= balance
  {
    var (equality, range) := WithdrawStatements(keys.elgamal, claimed, balance, amount);
    && Writable(key, payer, limit, env.prove(VerifyBatchedRangeProofU64, range))
    && Fits(WithdrawTx(env, roles, payer, owner, key, a, amount, Cipher(keys.ae, balance - amount), equality), payer, limit)
  }

  /** The token program refuses the withdraw, with its proofs and the owner's signature. */
  ghost predicate WithdrawRefused(l: Ledger, owner: Address, a: Address, keys: WalletKeys, claimed: int, balance: nat, amount: nat)
    requires amount <= balance
  {
    var (equality, range) := WithdrawStatements(keys.elgamal, claimed, balance, amount);
    ExecWithdraw(l, a, amount, Cipher(keys.ae, balance - amount), {owner}, [equality, range]).None?
  }

  /** It does so exactly when the account is not usable or not approved, or the claim is not what it holds. */
  lemma WithdrawRefusedIff(l: Ledger, owner: Address, a: Address, keys: WalletKeys, claimed: int, balance: nat, amount: nat)
    requires amount <= balance < U64
    ensures !WithdrawRefused(l, owner, a, keys, claimed, balance, amount) <==>
              && Usable(l, a, {owner}) && l.accounts[a].conf.value.approved && l.accounts[a].conf.value.key == keys.elgamal
              && l.accounts[a].conf.value.available == claimed == balance
  {
    var (equality, range) := WithdrawStatements(keys.elgamal, claimed, balance, amount);
    assert range.values[0] in range.values;
  }

  lemma WithdrawAdds(env: Env, roles: Roles, a: Address, owner: Address, amount: nat, decryptable: Cipher, equality: Statement,
                     range: Address)
    requires StandardLengths(env)
    ensures var use := WithdrawIxs(env, roles, a, owner, amount, decryptable, equality, range);
            && |use| == 2
            && Adds(use, {roles.tokenProgram, a, roles.mint, INSTRUCTIONS_SYSVAR, range, owner, ZK_PROGRAM}, {owner}, 382)
  {
    hide Adds, MetaKeys, MetaSigners;
    var use := WithdrawIxs(env, roles, a, owner, amount, decryptable, equality, range);
    WithdrawIxAdds(env, roles, a, owner, amount, decryptable, equality, range);
    InlineProofAdds(env, roles, a, owner, amount, decryptable, equality, range);
    hide WithdrawIxs;
    var keys := {roles.tokenProgram, a, roles.mint, INSTRUCTIONS_SYSVAR, range, owner};
    AddsBoth([use[0]], [use[1]], keys, {owner}, 57, {ZK_PROGRAM}, {}, 325);
    assert {owner} + {} == {owner} && [use[0]] + [use[1]] == use && keys + {ZK_PROGRAM}
        == {roles.tokenProgram, a, roles.mint, INSTRUCTIONS_SYSVAR, range, owner, ZK_PROGRAM};
  }

  lemma WithdrawIxAdds(env: Env, roles: Roles, a: Address, owner: Address, amount: nat, decryptable: Cipher, equality: Statement,
                       range: Address)
    ensures Adds([WithdrawIxs(env, roles, a, owner, amount, decryptable, equality, range)[0]],
                 {roles.tokenProgram, a, roles.mint, INSTRUCTIONS_SYSVAR, range, owner}, {owner}, 57)
  {
    hide Adds, MetaKeys, MetaSigners;
    var ix := WithdrawIxs(env, roles, a, owner, amount, decryptable, equality, range)[0];
    AddsOne(ix);
    var accounts, others := [Meta(a, false), Meta(roles.mint, false), Meta(INSTRUCTIONS_SYSVAR, false)],
                            [Meta(range, false), Meta(owner, true)];
    ThreeMetas(accounts[0], accounts[1], accounts[2]);
    TwoMetas(others[0], others[1]);
    BothMetas(accounts, others);
    assert ix.metas == accounts + others;
    assert MetaSigners(ix.metas) == {owner};
    assert {ix.program} + MetaKeys(ix.metas) == {roles.tokenProgram, a, roles.mint, INSTRUCTIONS_SYSVAR, range, owner};
  }

  lemma InlineProofAdds(env: Env, roles: Roles, a: Address, owner: Address, amount: nat, decryptable: Cipher, equality: Statement,
                        range: Address)
    requires StandardLengths(env)
    ensures var use := WithdrawIxs(env, roles, a, owner, amount, decryptable, equality, range);
            |use| == 2 && Adds([use[1]], {ZK_PROGRAM}, {}, 325)
  {
    hide Adds, MetaKeys, MetaSigners;
    var kind := VerifyCiphertextCommitmentEquality;
    assert |env.prove(kind, equality)| == ProofLen(kind);
    var ix := WithdrawIxs(env, roles, a, owner, amount, decryptable, equality, range)[1];
    AddsOne(ix);
    NoMetas();
    assert {ZK_PROGRAM} + {} == {ZK_PROGRAM};
  }

  /** A withdraw that landed took two transactions: the record, and everything else. */
  lemma WithdrawTakesTwo(env: Env, roles: Roles, payer: Address, owner: Address, key: Address, a: Address, amount: nat,
                         decryptable: Cipher, equality: Statement, range: Statement, s: Staged, start: seq<seq<Ix>>,
                         log: seq<seq<Ix>>, log': seq<seq<Ix>>, cuts: seq<nat>, units: nat)
    requires StandardLengths(env) && payer < key
    requires s == StagedFrom(VerifyBatchedRangeProofU64, key, key + 1, payer, s.tail, CONTEXT_SPACE)
    requires Chunked(key, payer, PACKET_DATA_SIZE, env.prove(VerifyBatchedRangeProofU64, range), start, log, cuts, s.tail)
    requires var whole := ConsumeTx([s], [], [key], payer,
                                    WithdrawIxs(env, roles, a, owner, amount, decryptable, equality, key + 1), units, true);
             Fits(whole, payer, PACKET_DATA_SIZE) ==> log' == log + [whole]
    ensures |log'| == |start| + 2
  {
    hide Fits, ConsumeTx, WithdrawIxs, Adds;
    var proof := env.prove(VerifyBatchedRangeProofU64, range);
    assert |proof| == ProofLen(VerifyBatchedRangeProofU64);
    CutInTwo(key, payer, proof, start, log, cuts, s.tail);
    WithdrawAdds(env, roles, a, owner, amount, decryptable, equality, key + 1);
    WithdrawFitsWhole(roles, payer, owner, key, a, WithdrawIxs(env, roles, a, owner, amount, decryptable, equality, key + 1), s,
                      VerifyBatchedRangeProofU64, CONTEXT_SPACE, cuts[1], proof[cuts[1]..], units);
  }

  /** The range proof of a withdraw, staged from a record. */
  method StageWithdraw(c: Cluster, accounts: ProofAccounts, range: Statement) returns (r: Result<Address>, ghost cuts: seq<nat>)
    requires accounts.Valid(c) && accounts.contexts == [] && accounts.records == [] && accounts.staged == []
    modifies accounts, c
    ensures accounts.Valid(c)
    ensures c.failures == Told(r, old(c.failures))
    ensures r.Err? ==> r.error.Invalid? || SendFailed(r)
    ensures Quiet(c.owner, c.script, old(c.Now()), c.Now())
    ensures r.Ok? ==> && r.value == old(c.nextKey) + 1 && accounts.contexts == [] && accounts.records == [old(c.nextKey)]
                      && |accounts.staged| == 1 && accounts.contexts + StagedContexts(accounts.staged) == [r.value]
                      && accounts.staged[0] == StagedFrom(VerifyBatchedRangeProofU64, old(c.nextKey), r.value, c.payer,
                                                          accounts.staged[0].tail, CONTEXT_SPACE)
                      && TailFits(accounts.staged[0], c.payer, c.limit)
                      && r.value in accounts.promised
                      && accounts.promised[r.value] == Promise(VerifyBatchedRangeProofU64,
                                                               c.env.prove(VerifyBatchedRangeProofU64, range))
                      && Chunked(old(c.nextKey), c.payer, c.limit, c.env.prove(VerifyBatchedRangeProofU64, range), old(c.landed),
                                 c.landed, cuts, accounts.staged[0].tail)
    ensures r.Err? ==> || !Writable(old(c.nextKey), c.payer, c.limit, c.env.prove(VerifyBatchedRangeProofU64, range))
                       || Dropped(c.script, old(c.sent), c.sent)
    ensures r.Err? && r.error.Invalid? ==>
              !Writable(old(c.nextKey), c.payer, c.limit, c.env.prove(VerifyBatchedRangeProofU64, range))
  {
    hide Books, Quiet, Conservation.Conserved, Chunked, Above, Fits, Dropped, SomeByteStuck, EmptyRecordTx, TailFits, StagedFrom;
    r, cuts := accounts.StageFromRecord(c, VerifyBatchedRangeProofU64, c.env.prove(VerifyBatchedRangeProofU64, range), CONTEXT_SPACE);
    if r.Ok? {
      OneContext(accounts.contexts, accounts.staged, r.value);
    }
  }

  /** Deliver the range proof of a withdraw and use it, the equality proof travelling inline; `at` is what it met. */
  method SendWithdraw(c: Cluster, roles: Roles, a: Address, keys: WalletKeys, claimed: int, balance: nat, amount: nat)
    returns (r: Result<()>, ghost at: World)
    requires c.Valid() && amount <= balance
    modifies c
    ensures c.Valid()
    ensures Reached(c.owner, c.script, old(c.Now()), c.turn, at.ledger, at.epoch) && c.turn >= old(c.turn)
    ensures r.Ok? ==> && c.Live() == map[] && Conservation.Conserved(at.ledger) && at.epoch == c.world.epoch
                      && Withdrew(at.ledger, c.world.ledger, a, amount, Cipher(keys.ae, balance - amount))
                      && at.ledger.accounts[a].conf.value.available == claimed == balance
                      && at.ledger.accounts[a].conf.value.key == keys.elgamal
                      && |c.landed| > 0
                      && Quiet(c.owner, c.script, old(c.Now()), LastMet(c.Now(), at))
    ensures r.Ok? && c.limit == PACKET_DATA_SIZE && StandardLengths(c.env) ==> |c.landed| == |old(c.landed)| + 2
    ensures r.Err? ==> r.error.Invalid? || SendFailed(r)
    ensures r.Err? ==> && Quiet(c.owner, c.script, old(c.Now()), c.Now())
                       && CleanUnlessMoreFailed(r, old(c.failures), c.failures, c.Live())
                       && OnlyDropped(c.limit, c.script, old(c.sent), c.sent, Told(r, old(c.failures)), c.failures)
    ensures r.Err? ==>
              || !WithdrawFits(c.env, roles, c.payer, c.owner, c.limit, old(c.nextKey), a, keys, claimed, balance, amount)
              || Dropped(c.script, old(c.sent), c.sent) || U64 <= balance - amount
              || (WasMet(old(c.sent), c.sent, at) && WithdrawRefused(at.ledger, c.owner, a, keys, claimed, balance, amount))
    ensures r.Err? && r.error.Invalid? ==>
              !WithdrawFits(c.env, roles, c.payer, c.owner, c.limit, old(c.nextKey), a, keys, claimed, balance, amount)
  {
    hide Conservation.Conserved, Fits, ExecAll, Exec, Quiet, Books, Consumed, WithdrawIxs, Withdrew, Rely.Undisturbed, Uses,
         Closable, ConsumeTx, TailTxs, SentAtOnce, Chunked, Above, StagedContexts, WithdrawFits, WithdrawRefused, Dropped, Refused,
         AllTrue, Writable, StagedFrom, TailFits, WasMet, Reached, NoToken, StandardLengths;
    ghost var m, key := c.Now(), c.nextKey;
    var (equality, range) := WithdrawStatements(keys.elgamal, claimed, balance, amount);
    var accounts := new ProofAccounts(c);
    assert c.Now() == m;
    var staged, cuts := StageWithdraw(c, accounts, range);
    ghost var m1 := c.Now();
    at := c.world;
    if staged.Err? {
      BooksClosable(c.Live(), c.payer, c.floor, c.nextKey, accounts.contexts, accounts.records, accounts.staged, accounts.promised);
      r := accounts.CloseAfter(c, Err(staged.error));
      at := c.world;
      Between(c.owner, c.script, m, m1, c.Now());
      QuietSays(c.owner, c.script, m, c.Now());
      WithdrawUnwritten(c.env, roles, c.payer, c.owner, c.limit, key, a, keys, claimed, balance, amount);
      return;
    }
    ghost var promised := accounts.promised;
    var decryptable := Cipher(keys.ae, balance - amount);
    var instructions := WithdrawIxs(c.env, roles, a, c.owner, amount, decryptable, equality, staged.value);
    WithdrawUses(c.env, roles, a, c.owner, amount, decryptable, equality, staged.value);
    ghost var signers := {c.payer} + ({c.owner} + (set x | x in StagedContexts(accounts.staged)));
    ghost var after, s := c.world, accounts.staged[0];
    assert accounts.staged == [s];
    r, at, after := accounts.Consume(c, instructions, {c.owner},
                                     WITHDRAW_UNITS + ComputeUnits(VerifyCiphertextCommitmentEquality));
    if r.Err? {
      WithdrawFailed(c.env, c.owner, c.payer, c.limit, signers, roles, a, keys, claimed, balance, amount, key, s, promised,
                     m1.ledger, at);
      at := FailedAt(c.owner, c.script, m, m1, c.Now(), at, c.world);
    } else {
      QuietThen(c.owner, c.script, m, m1, LastMet(c.Now(), at));
      WithdrawLands(c.env, c.owner, c.payer, signers, roles, a, amount, keys, claimed, balance, staged.value, promised,
                    m1.ledger, at, after, c.world.ledger);
      if c.limit == PACKET_DATA_SIZE && StandardLengths(c.env) {
        WithdrawTakesTwo(c.env, roles, c.payer, c.owner, key, a, amount, decryptable, equality, range, s, m.landed, m1.landed,
                         c.landed, cuts, WITHDRAW_UNITS + ComputeUnits(VerifyCiphertextCommitmentEquality));
      }
    }
  }

  /** The world a failed use met, if it met one, and otherwise where the client was left: either was reached quietly. */
  lemma FailedAt(owner: Address, script: nat -> Turn, m: Moment, m1: Moment, m': Moment, at: World, left: World)
    returns (w: World)
    requires Quiet(owner, script, m, m1) && Quiet(owner, script, m1, m') && left.ledger == m'.ledger && left.epoch == m'.epoch
    ensures Quiet(owner, script, m, m') && Reached(owner, script, m, m'.turn, w.ledger, w.epoch) && m.turn <= m'.turn
    ensures Dropped(script, m1.sent, m'.sent) ==> Dropped(script, m.sent, m'.sent)
    ensures WasMet(m1.sent, m'.sent, at) ==> w == at && WasMet(m.sent, m'.sent, w)
  {
    hide Quiet, Dropped, WasMet, Reached;
    Between(owner, script, m, m1, m');
    QuietSays(owner, script, m, m');
    WasMetWithin(m.sent, m1.sent, m'.sent, m'.sent, at);
    w := left;
    if WasMet(m1.sent, m'.sent, at) {
      WasMetQuietly(owner, script, m, m', at);
      w := at;
    }
  }

  /**
   Withdraw with proofs built against any claimed ciphertext and balance. The chain accepts it only when the
   claim is the available balance it holds at that moment; every proof account is closed then. When
   anything fails no token moved, and the proof accounts are closed unless a closing transaction is lost.
   */
  method WithdrawAgainst(c: Cluster, a: Address, keys: WalletKeys, claimed: int, balance: nat, amount: nat)
    returns (r: Result<()>, ghost at: World)
    requires c.Valid()
    modifies c
    ensures c.Valid()
    ensures Reached(c.owner, c.script, old(c.Now()), c.turn, at.ledger, at.epoch) && c.turn >= old(c.turn)
    ensures r.Ok? ==> && c.Live() == map[] && Conservation.Conserved(at.ledger) && amount <= balance && at.epoch == c.world.epoch
                      && Withdrew(at.ledger, c.world.ledger, a, amount, Cipher(keys.ae, balance - amount))
                      && at.ledger.accounts[a].conf.value.available == claimed == balance
                      && at.ledger.accounts[a].conf.value.key == keys.elgamal
                      && |c.landed| > 0
                      && Quiet(c.owner, c.script, old(c.Now()), LastMet(c.Now(), at))
    ensures r.Ok? && c.limit == PACKET_DATA_SIZE && StandardLengths(c.env) ==> |c.landed| == |old(c.landed)| + 2
    ensures r.Err? ==> || (r.error == NotFound(a) && a !in at.ledger.accounts) || (r.error == Crypto && balance < amount)
                       || r.error.Invalid? || SendFailed(r)
    ensures r.Err? ==> && Quiet(c.owner, c.script, old(c.Now()), c.Now())
                       && ((c.landed == old(c.landed) && c.Live() == old(c.Live()))
                           || CleanUnlessMoreFailed(r, old(c.failures), c.failures, c.Live()))
                       && OnlyDropped(c.limit, c.script, old(c.sent), c.sent, Told(r, old(c.failures)), c.failures)
    ensures r.Err? ==>
              || (r.error == NotFound(a) && a !in at.ledger.accounts) || (r.error == Crypto && balance < amount)
              || Dropped(c.script, old(c.sent), c.sent) || U64 <= balance - amount
              || (amount <= balance
                  && (|| !WithdrawFits(c.env, at.ledger.roles, c.payer, c.owner, c.limit, old(c.nextKey), a, keys, claimed,
                                       balance, amount)
                      || (WasMet(old(c.sent), c.sent, at)
                          && WithdrawRefused(at.ledger, c.owner, a, keys, claimed, balance, amount))))
    ensures r.Err? && r.error.Invalid? ==>
              amount <= balance
              && !WithdrawFits(c.env, at.ledger.roles, c.payer, c.owner, c.limit, old(c.nextKey), a, keys, claimed, balance, amount)
  {
    hide Conservation.Conserved, Quiet, Withdrew, Rely.Undisturbed, Above, WithdrawFits, WithdrawRefused, Dropped, Reached, WasMet,
         StandardLengths;
    ghost var m := c.Now();
    var account := c.Observe();
    at := c.world;
    ghost var m1 := c.Now();
    QuietSays(c.owner, c.script, m, m1);
    if a !in account.ledger.accounts {
      return Err(NotFound(a)), at;
    }
    var mint := c.Observe();
    at := c.world;
    ghost var m2 := c.Now();
    QuietThen(c.owner, c.script, m, m1, m2);
    if balance < amount {
      return Err(Crypto), at;
    }
    r, at := SendWithdraw(c, mint.ledger.roles, a, keys, claimed, balance, amount);
    ReachedThen(c.owner, c.script, m, m2, c.turn, at);
    if r.Err? {
      QuietTransitive(c.owner, c.script, m, m2, c.Now());
    } else {
      QuietTransitive(c.owner, c.script, m, m2, LastMet(c.Now(), at));
    }
  }

  /** What was reached from a quiet moment was reached from before it. */
  lemma ReachedThen(owner: Address, script: nat -> Turn, m: Moment, m': Moment, turn: nat, at: World)
    requires Quiet(owner, script, m, m') && m'.turn <= turn && Reached(owner, script, m', turn, at.ledger, at.epoch)
    ensures Reached(owner, script, m, turn, at.ledger, at.epoch) && at.ledger.roles == m'.ledger.roles == m.ledger.roles
    ensures Rely.Undisturbed(owner, m.ledger, m'.ledger) && Rely.Undisturbed(owner, m'.ledger, at.ledger)
    ensures Calm(script, m.turn, turn) ==> at.ledger == m'.ledger == m.ledger && at.epoch == m'.epoch == m.epoch
    ensures Calm(script, m'.turn, turn) ==> at.ledger == m'.ledger && at.epoch == m'.epoch
  {
    QuietSays(owner, script, m, m');
    ReachedTransitive(owner, script, m, m', turn, at.ledger, at.epoch);
  }

  /** As things stand, nothing speaks against a withdraw of `amount`. */
  ghost predicate MayWithdraw(env: Env, l: Ledger, payer: Address, owner: Address, limit: nat, key: Address, a: Address,
                              keys: WalletKeys, amount: nat) {
    && Usable(l, a, {owner})
    && var c := l.accounts[a].conf.value;
    && c.approved && Current(c, keys) && amount <= c.available
    && WithdrawFits(env, l.roles, payer, owner, limit, key, a, keys, c.available, c.available, amount)
  }

  lemma MayWithdrawReads(env: Env, l: Ledger, payer: Address, owner: Address, limit: nat, key: Address, a: Address,
                         keys: WalletKeys, amount: nat)
    requires Conservation.Conserved(l)
    ensures MayWithdraw(env, l, payer, owner, limit, key, a, keys, amount) ==>
              Spendable(l, a, keys, amount) == Ok(l.accounts[a].conf.value.available)
  {
    if MayWithdraw(env, l, payer, owner, limit, key, a, keys, amount) {
      SpendableIff(l, a, keys, amount);
    }
    hide Spendable, WithdrawFits;
  }

  lemma MayWithdrawSays(env: Env, l: Ledger, payer: Address, owner: Address, limit: nat, key: Address, a: Address,
                        keys: WalletKeys, amount: nat)
    requires Conservation.Conserved(l) && MayWithdraw(env, l, payer, owner, limit, key, a, keys, amount)
    ensures var s := Spendable(l, a, keys, amount);
            && s.Ok? && a in l.accounts && l.accounts[a].conf.Some? && amount <= s.value
            && var claimed := l.accounts[a].conf.value.available;
            && WithdrawFits(env, l.roles, payer, owner, limit, key, a, keys, claimed, s.value, amount)
            && !WithdrawRefused(l, owner, a, keys, claimed, s.value, amount)
  {
    MayWithdrawReads(env, l, payer, owner, limit, key, a, keys, amount);
    var balance := Spendable(l, a, keys, amount).value;
    SpendableHere(l, a, keys, amount);
    WithdrawRefusedIff(l, owner, a, keys, balance, balance, amount);
    hide WithdrawFits, WithdrawRefused;
  }

  /**
   Withdraw what the owner's copy says is there. A stale account is refused before anything is sent. If nobody else acts
   and nothing is lost, what may be withdrawn is withdrawn.
   */
  method WithdrawFlow(c: Cluster, a: Address, keys: WalletKeys, amount: nat)
    returns (r: Result<()>, ghost seen: Ledger, ghost at: World)
    requires c.Valid()
    modifies c
    ensures c.Valid() && Rely.Undisturbed(c.owner, old(c.world.ledger), seen) && Rely.Undisturbed(c.owner, seen, at.ledger)
    ensures Reached(c.owner, c.script, old(c.Now()), c.turn, at.ledger, at.epoch)
    ensures c.script(old(c.turn)).others == [] ==> seen == old(c.world.ledger)
    ensures var s := Spendable(seen, a, keys, amount);
            s.Err? ==> && r == Err(s.error) && c.turn == old(c.turn) + 1
                       && c.landed == old(c.landed) && c.failures == old(c.failures)
    ensures old(Mine(c.world.ledger, c.owner, a) && Stale(c.world.ledger, a)) ==> Spendable(seen, a, keys, amount) == Err(Invalid)
    ensures r.Ok? ==> && c.Live() == map[] && Conservation.Conserved(at.ledger) && at.epoch == c.world.epoch
                      && Spendable(seen, a, keys, amount).Ok? && amount <= Spendable(seen, a, keys, amount).value
                      && Withdrew(at.ledger, c.world.ledger, a, amount,
                                  Cipher(keys.ae, Spendable(seen, a, keys, amount).value - amount))
                      && at.ledger.accounts[a].conf.value.available == Spendable(seen, a, keys, amount).value
                      && |c.landed| > 0
                      && Quiet(c.owner, c.script, old(c.Now()), LastMet(c.Now(), at))
    ensures r.Ok? && c.limit == PACKET_DATA_SIZE && StandardLengths(c.env) ==> |c.landed| == |old(c.landed)| + 2
    ensures r.Err? ==> Spendable(seen, a, keys, amount).Err? || r.error.Invalid? || SendFailed(r)
    ensures r.Err? ==> && Quiet(c.owner, c.script, old(c.Now()), c.Now())
                       && ((c.landed == old(c.landed) && c.Live() == old(c.Live()))
                           || CleanUnlessMoreFailed(r, old(c.failures), c.failures, c.Live()))
                       && OnlyDropped(c.limit, c.script, old(c.sent), c.sent, Told(r, old(c.failures)), c.failures)
    ensures old(Mine(c.world.ledger, c.owner, a)) ==> Mine(c.world.ledger, c.owner, a)
    ensures var s := Spendable(seen, a, keys, amount);
            r.Err? ==> || s.Err? || Dropped(c.script, old(c.sent), c.sent)
                       || (a in seen.accounts && seen.accounts[a].conf.Some? && amount <= s.value
                           && var claimed := seen.accounts[a].conf.value.available;
                              || !WithdrawFits(c.env, at.ledger.roles, c.payer, c.owner, c.limit, old(c.nextKey), a, keys,
                                               claimed, s.value, amount)
                              || (WasMet(old(c.sent), c.sent, at)
                                  && WithdrawRefused(at.ledger, c.owner, a, keys, claimed, s.value, amount)))
    ensures var s := Spendable(seen, a, keys, amount);
            r.Err? && r.error.Invalid? && s.Ok? ==>
              && a in seen.accounts && seen.accounts[a].conf.Some? && amount <= s.value
              && !WithdrawFits(c.env, at.ledger.roles, c.payer, c.owner, c.limit, old(c.nextKey), a, keys,
                               seen.accounts[a].conf.value.available, s.value, amount)
    ensures Calm(c.script, old(c.turn), c.turn) && !Dropped(c.script, old(c.sent), c.sent)
            && MayWithdraw(c.env, old(c.world.ledger), c.payer, c.owner, c.limit, old(c.nextKey), a, keys, amount)
            ==> r.Ok?
  {
    hide Conservation.Conserved, Quiet, Withdrew, Rely.Undisturbed, Spendable, Stale, Mine, WithdrawFits, WithdrawRefused,
         Dropped, Reached, WasMet, MayWithdraw, Calm, Above, StandardLengths, Settled, Foreign, Faithful, Rely.OwnersFixed;
    ghost var m, key := c.Now(), c.nextKey;
    var account := c.Observe();
    seen, at := c.world.ledger, c.world;
    ghost var m1 := c.Now();
    QuietSays(c.owner, c.script, m, m1);
    StillThere(c.owner, seen);
    if Mine(m.ledger, c.owner, a) {
      MineUndisturbed(m.ledger, seen, c.owner, a);
      if Stale(seen, a) {
        StaleRefused(seen, a, keys, amount);
      }
    }
    MayWithdrawReads(c.env, m.ledger, c.payer, c.owner, c.limit, key, a, keys, amount);
    var available := Spendable(account.ledger, a, keys, amount);
    if available.Err? {
      NotASend(seen, a, keys, amount);
      return Err(available.error), seen, at;
    }
    SpendableHere(seen, a, keys, amount);
    r, at := WithdrawAgainst(c, a, keys, account.ledger.accounts[a].conf.value.available, available.value, amount);
    AccountsReached(c.owner, c.script, m1, c.turn, at);
    ReachedThen(c.owner, c.script, m, m1, c.turn, at);
    if r.Err? {
      QuietTransitive(c.owner, c.script, m, m1, c.Now());
      QuietMine(c.owner, c.script, m, c.Now(), a);
      if MayWithdraw(c.env, m.ledger, c.payer, c.owner, c.limit, key, a, keys, amount) {
        MayWithdrawSays(c.env, m.ledger, c.payer, c.owner, c.limit, key, a, keys, amount);
      }
    } else {
      QuietTransitive(c.owner, c.script, m, m1, LastMet(c.Now(), at));
      QuietMine(c.owner, c.script, m, LastMet(c.Now(), at), a);
      WithdrewMine(c.owner, at.ledger, c.world.ledger, a, amount, Cipher(keys.ae, available.value - amount));
    }
  }

  lemma AccountsReached(owner: Address, script: nat -> Turn, m: Moment, turn: nat, at: World)
    requires Reached(owner, script, m, turn, at.ledger, at.epoch)
    ensures m.ledger.accounts.Keys <= at.ledger.accounts.Keys
  {}

  lemma NotASend(l: Ledger, a: Address, keys: WalletKeys, amount: nat)
    ensures !SendFailed(Spendable(l, a, keys, amount))
  {}

  lemma SpendableHere(l: Ledger, a: Address, keys: WalletKeys, amount: nat)
    requires Spendable(l, a, keys, amount).Ok?
    ensures a in l.accounts && l.accounts[a].conf.Some? && amount <= Spendable(l, a, keys, amount).value < U64
  {}

  lemma QuietMine(owner: Address, script: nat -> Turn, m: Moment, m': Moment, a: Address)
    requires Quiet(owner, script, m, m')
    ensures Mine(m.ledger, owner, a) ==> Mine(m'.ledger, owner, a)
  {
    if Mine(m.ledger, owner, a) {
      MineUndisturbed(m.ledger, m'.ledger, owner, a);
    }
  }

  lemma WithdrewMine(owner: Address, at: Ledger, after: Ledger, a: Address, amount: nat, decryptable: Cipher)
    requires Withdrew(at, after, a, amount, decryptable) && decryptable.value == at.accounts[a].conf.value.available - amount
    ensures Mine(at, owner, a) ==> Mine(after, owner, a)
  {}

  lemma OneContext(contexts: seq<Address>, staged: seq<Staged>, context: Address)
    requires contexts == [] && |staged| == 1 && staged[0].context == context
    ensures contexts + StagedContexts(staged) == [context]
  {}

  lemma WithdrawUses(env: Env, roles: Roles, a: Address, owner: Address, amount: nat, decryptable: Cipher,
                     equality: Statement, range: Address)
    ensures Uses(WithdrawIxs(env, roles, a, owner, amount, decryptable, equality, range))
  {}

  lemma WithdrawUnwritten(env: Env, roles: Roles, payer: Address, owner: Address, limit: nat, key: Address, a: Address,
                          keys: WalletKeys, claimed: int, balance: nat, amount: nat)
    requires amount <= balance
    ensures var (_, range) := WithdrawStatements(keys.elgamal, claimed, balance, amount);
            WithdrawFits(env, roles, payer, owner, limit, key, a, keys, claimed, balance, amount) ==>
              Writable(key, payer, limit, env.prove(VerifyBatchedRangeProofU64, range))
  {}

  /** Why a withdraw did not go through although its proof was written and nothing was lost. */
  lemma WithdrawFailed(env: Env, owner: Address, payer: Address, limit: nat, signers: set<Address>, roles: Roles, a: Address,
                       keys: WalletKeys, claimed: int, balance: nat, amount: nat, key: Address, s: Staged,
                       promised: map<Address, Promise>, l: Ledger, at: World)
    requires Faithful(env) && amount <= balance && owner in signers
    requires s == StagedFrom(VerifyBatchedRangeProofU64, key, key + 1, payer, s.tail, CONTEXT_SPACE) && TailFits(s, payer, limit)
    requires var (_, range) := WithdrawStatements(keys.elgamal, claimed, balance, amount);
             key + 1 in promised
             && promised[key + 1] == Promise(VerifyBatchedRangeProofU64, env.prove(VerifyBatchedRangeProofU64, range))
    ensures var (equality, _) := WithdrawStatements(keys.elgamal, claimed, balance, amount);
            var ixs := WithdrawIxs(env, roles, a, owner, amount, Cipher(keys.ae, balance - amount), equality, key + 1);
            var units := WITHDRAW_UNITS + ComputeUnits(VerifyCiphertextCommitmentEquality);
            && TailsFit([s], payer, limit) && !NoToken(ixs)
            && (!Fits(ConsumeTx([s], [], [key], payer, ixs, units, false), payer, limit) ==>
                  !WithdrawFits(env, roles, payer, owner, limit, key, a, keys, claimed, balance, amount))
            && (!AllTrue(env, [s], promised) ==> U64 <= balance - amount)
            && (Refused(env, owner, payer, signers, ixs, [] + StagedContexts([s]), promised, l, at) ==>
                  WithdrawRefused(at.ledger, owner, a, keys, claimed, balance, amount))
  {
    hide Rely.Undisturbed, Conservation.Conserved, Fits, Writable, TailFits, WithdrawRefused, ExecAll, AllTrue, Refused;
    var (equality, range) := WithdrawStatements(keys.elgamal, claimed, balance, amount);
    var ixs := WithdrawIxs(env, roles, a, owner, amount, Cipher(keys.ae, balance - amount), equality, key + 1);
    assert ixs[0] in ixs && ixs[0].op.Token?;
    hide WithdrawIxs;
    var units := WITHDRAW_UNITS + ComputeUnits(VerifyCiphertextCommitmentEquality);
    StrippedConsume([s], [s.(tail := None)], [], [key], payer, ixs, units);
    assert [] + StagedContexts([s]) == [key + 1];
    FalseRange(env, s, promised, keys, claimed, balance, amount);
    if Refused(env, owner, payer, signers, ixs, [key + 1], promised, l, at) {
      UseRefusesWithdraw(env, owner, payer, signers, roles, a, keys, claimed, balance, amount, key + 1, promised, l, at);
    }
  }

  lemma FalseRange(env: Env, s: Staged, promised: map<Address, Promise>, keys: WalletKeys, claimed: int, balance: nat, amount: nat)
    requires Faithful(env) && amount <= balance && s.context in promised
    requires var (_, range) := WithdrawStatements(keys.elgamal, claimed, balance, amount);
             promised[s.context] == Promise(VerifyBatchedRangeProofU64, env.prove(VerifyBatchedRangeProofU64, range))
    ensures !AllTrue(env, [s], promised) ==> U64 <= balance - amount
  {
    var (equality, range) := WithdrawStatements(keys.elgamal, claimed, balance, amount);
    assert env.decode(VerifyBatchedRangeProofU64, env.prove(VerifyBatchedRangeProofU64, range)) == Some(range);
  }

  /** Meeting its proofs, the withdraw can only be refused by the token program itself. */
  lemma UseRefusesWithdraw(env: Env, owner: Address, payer: Address, signers: set<Address>, roles: Roles, a: Address,
                           keys: WalletKeys, claimed: int, balance: nat, amount: nat, range: Address,
                           promised: map<Address, Promise>, l: Ledger, at: World)
    requires Faithful(env) && amount <= balance && owner in signers
    requires var (equality, values) := WithdrawStatements(keys.elgamal, claimed, balance, amount);
             && range in promised
             && promised[range] == Promise(VerifyBatchedRangeProofU64, env.prove(VerifyBatchedRangeProofU64, values))
             && Refused(env, owner, payer, signers,
                        WithdrawIxs(env, roles, a, owner, amount, Cipher(keys.ae, balance - amount), equality, range),
                        [range], promised, l, at)
    ensures WithdrawRefused(at.ledger, owner, a, keys, claimed, balance, amount)
  {
    hide Conservation.Conserved, Rely.Undisturbed, Exec;
    var (equality, values) := WithdrawStatements(keys.elgamal, claimed, balance, amount);
    var dec := Cipher(keys.ae, balance - amount);
    var ixs := WithdrawIxs(env, roles, a, owner, amount, dec, equality, range);
    ContextsStand(env, at.proofs, payer, [range], promised, [VerifyBatchedRangeProofU64], [values]);
    assert [equality] + [values] == [equality, values] && ixs[1..][1..] == [];
    ExecOfWithdraw(env, at.ledger, Withdraw(a, amount, dec), signers, [equality, values], at.epoch);
    assert env.decode(VerifyCiphertextCommitmentEquality, env.prove(VerifyCiphertextCommitmentEquality, equality)) == Some(equality);
    var met := ExecOp(env, at, ixs[0].op, signers);
    if met.Some? {
      assert ExecAll(env, met.value, ixs[1..], signers) == ExecOp(env, met.value, ixs[1].op, signers);
    }
  }

  /** A withdraw that lands proves its claim: it is what the account had available. */
  lemma WithdrawLands(env: Env, owner: Address, payer: Address, signers: set<Address>, roles: Roles, a: Address, amount: nat,
                      keys: WalletKeys, claimed: int, balance: nat, range: Address, promised: map<Address, Promise>,
                      l: Ledger, at: World, after: World, l': Ledger)
    requires Faithful(env) && amount <= balance
    requires var (equality, values) := WithdrawStatements(keys.elgamal, claimed, balance, amount);
             && range in promised
             && promised[range] == Promise(VerifyBatchedRangeProofU64, env.prove(VerifyBatchedRangeProofU64, values))
             && Consumed(env, owner, payer, signers,
                         WithdrawIxs(env, roles, a, owner, amount, Cipher(keys.ae, balance - amount), equality, range),
                         [range], promised, l, at, after, l')
    ensures Withdrew(at.ledger, l', a, amount, Cipher(keys.ae, balance - amount)) && Conservation.Conserved(at.ledger)
    ensures at.ledger.accounts[a].conf.value.available == claimed == balance
    ensures at.ledger.accounts[a].conf.value.key == keys.elgamal
  {
    hide Conservation.Conserved, Rely.Undisturbed, Exec;
    var (equality, values) := WithdrawStatements(keys.elgamal, claimed, balance, amount);
    var dec := Cipher(keys.ae, balance - amount);
    var ixs := WithdrawIxs(env, roles, a, owner, amount, dec, equality, range);
    var ix := Withdraw(a, amount, dec);
    ContextsStand(env, at.proofs, payer, [range], promised, [VerifyBatchedRangeProofU64], [values]);
    WithdrawPair(env, at, ixs, signers, after);
    assert [equality] + [values] == [equality, values];
    ExecOfWithdraw(env, at.ledger, ix, signers, [equality, values], at.epoch);
    assert values.values[0] in values.values;
  }

  lemma ExecOfWithdraw(env: Env, l: Ledger, ix: TokenIx, signers: set<Address>, proofs: seq<Statement>, epoch: nat)
    requires ix.Withdraw?
    ensures Exec(env.pda, l, ix, signers, proofs, epoch)
         == ExecWithdraw(l, ix.account, ix.amount, ix.decryptable, signers, proofs)
  {}

  /** A token instruction followed by an inline verification: the first alone changes the ledger. */
  lemma WithdrawPair(env: Env, at: World, ixs: seq<Ix>, signers: set<Address>, after: World)
    requires |ixs| == 2 && ixs[0].op.Token? && ixs[1].op.Verify? && ixs[1].op.target.None?
    requires ExecAll(env, at, ixs, signers) == Some(after)
    ensures ExecToken(env, at, ixs[0].op, signers) == Some(after.ledger)
  {
    hide Exec;
    assert ixs[1..][1..] == [];
    var met := ExecOp(env, at, ixs[0].op, signers);
    assert met.Some?;
    assert ExecAll(env, met.value, ixs[1..], signers) == ExecOp(env, met.value, ixs[1].op, signers);
  }

  // ---------------------------------------------------------------- transfer

  /** The sender's record of a transfer: amount, fee and epoch, and the amount's halves under the auditor's key. */
  datatype Receipt = Receipt(amount: nat, fee: nat, epoch: nat, auditorLo: Cipher, auditorHi: Cipher)

  /** What the holder of an auditor key learns. */
  function Audit(receipt: Receipt, auditor: Address): Result<nat> {
    DecryptLoHi(auditor, receipt.auditorLo, receipt.auditorHi)
  }

  /** Without an auditor the amount is encrypted under the identity key, which decrypts for nobody. */
  const NO_AUDITOR: Address := 0

  function AuditorKey(roles: Roles): Address {
    match roles.auditor case None => NO_AUDITOR case Some(key) => key
  }

  const TRANSFER_KINDS: seq<ProofInstruction> :=
    [VerifyCiphertextCommitmentEquality, VerifyBatchedGroupedCiphertext3HandlesValidity, VerifyPercentageWithCap,
     VerifyBatchedGroupedCiphertext2HandlesValidity, VerifyBatchedRangeProofU256]

  /**
   `amount` left the available balance of `source`, whose copy now says `decryptable`, and arrived in the pending
   balance of `destination` less the fee, which is withheld there; a transfer to itself withholds nothing.
   */
  ghost predicate Sent(before: Ledger, after: Ledger, source: Address, destination: Address, decryptable: Cipher,
                       amount: nat, fee: nat) {
    && source in before.accounts && destination in before.accounts
    && var s, d := before.accounts[source], before.accounts[destination];
    && s.conf.Some? && d.conf.Some? && !s.frozen && !d.frozen
    && s.conf.value.approved && d.conf.value.approved && d.conf.value.credits < d.conf.value.maxCredits
    && amount < MAX_CONFIDENTIAL && 0 <= s.conf.value.available - amount < U64
    && var debited := s.conf.value.(available := s.conf.value.available - amount, decryptable := decryptable);
    && after == if source == destination
                then Put(before, source, s.(conf := Some(Credit(debited, amount % LO_BITS, amount / LO_BITS))))
                else Put(Put(before, source, s.(conf := Some(debited))), destination,
                         d.(conf := Some(Credited(d.conf.value, amount, fee))))
  }

  /** The fee is taken off each half. */
  function Credited(c: Conf, amount: nat, fee: nat): Conf {
    Credit(c, amount % LO_BITS - fee % LO_BITS, amount / LO_BITS - fee / LO_BITS).(withheld := c.withheld + fee)
  }

  /** Each context holds, or will hold, the proof generated for its statement. */
  ghost predicate Ready(env: Env, contexts: seq<Address>, promised: map<Address, Promise>, kinds: seq<ProofInstruction>,
                        statements: seq<Statement>) {
    && |contexts| == |kinds| == |statements|
    && forall i | 0 <= i < |contexts| ::
         contexts[i] in promised && promised[contexts[i]] == Promise(kinds[i], env.prove(kinds[i], statements[i]))
  }

  lemma ReadyFor(env: Env, contexts: seq<Address>, promised: map<Address, Promise>, statements: seq<Statement>, n: nat,
                 context: Address)
    requires n < 5 == |statements| && context !in contexts
    requires Ready(env, contexts, promised, TRANSFER_KINDS[..n], statements[..n])
    ensures Ready(env, contexts + [context],
                  promised[context := Promise(TRANSFER_KINDS[n], env.prove(TRANSFER_KINDS[n], statements[n]))],
                  TRANSFER_KINDS[..n + 1], statements[..n + 1])
  {}

  /** The transaction that verifies the n-th proof. */
  function ProofTx(env: Env, payer: Address, key: Address, statements: seq<Statement>, n: nat): seq<Ix>
    requires n < 5 == |statements|
  {
    VerifyTx(payer, key, TRANSFER_KINDS[n], env.prove(TRANSFER_KINDS[n], statements[n]), CONTEXT_SPACE)
  }

  predicate ProofFits(env: Env, payer: Address, limit: nat, key: Address, statements: seq<Statement>, n: nat)
    requires n < 5 == |statements|
  {
    Fits(ProofTx(env, payer, key + n, statements, n), payer, limit)
  }

  /** The transaction a transfer ends with. */
  function TransferTx(roles: Roles, payer: Address, owner: Address, key: Address, source: Address, destination: Address,
                      decryptable: Cipher, tail: Option<Ix>): seq<Ix> {
    ConsumeTx([StagedFrom(TRANSFER_KINDS[4], key + 4, key + 5, payer, tail, CONTEXT_SPACE)], KeysFrom(key, 4), [key + 4], payer,
              [TransferIx(roles, source, destination, owner, decryptable, KeysFrom(key, 4) + [key + 5])],
              TRANSFER_WITH_FEE_UNITS, false)
  }

  /** The transactions that bring the proofs on chain fit the packet. */
  ghost predicate PrepareFits(env: Env, payer: Address, limit: nat, key: Address, statements: seq<Statement>)
    requires |statements| == 5
  {
    && (forall n | 0 <= n < 4 :: ProofFits(env, payer, limit, key, statements, n))
    && Writable(key + 4, payer, limit, env.prove(TRANSFER_KINDS[4], statements[4]))
  }

  ghost predicate TransferFits(env: Env, roles: Roles, payer: Address, owner: Address, limit: nat, key: Address, source: Address,
                               destination: Address, decryptable: Cipher, statements: seq<Statement>)
    requires |statements| == 5
  {
    && PrepareFits(env, payer, limit, key, statements)
    && Fits(TransferTx(roles, payer, owner, key, source, destination, decryptable, None), payer, limit)
  }

  predicate AllHold(statements: seq<Statement>) {
    forall s | s in statements :: Holds(s)
  }

  /** The token program refuses the transfer, with these proofs and the owner's signature. */
  ghost predicate TransferRefused(at: World, owner: Address, source: Address, destination: Address, decryptable: Cipher,
                                  statements: seq<Statement>) {
    ExecConfidentialTransfer(at.ledger, source, destination, decryptable, {owner}, statements, at.epoch).None?
  }

  /** Verify the n-th proof of a transfer into a context of its own. */
  method VerifyNext(c: Cluster, accounts: ProofAccounts, statements: seq<Statement>, n: nat, ghost key: Address)
    returns (r: Result<()>)
    requires accounts.Valid(c) && n < 4 && |statements| == 5 && accounts.staged == []
    requires c.nextKey == key + n && accounts.contexts == KeysFrom(key, n)
    requires Ready(c.env, accounts.contexts, accounts.promised, TRANSFER_KINDS[..n], statements[..n])
    modifies accounts, c
    ensures accounts.Valid(c) && accounts.staged == []
    ensures c.failures == Told(r, old(c.failures))
    ensures r.Err? ==> r.error.Invalid? || SendFailed(r)
    ensures Quiet(c.owner, c.script, old(c.Now()), c.Now())
    ensures r.Ok? ==> Ready(c.env, accounts.contexts, accounts.promised, TRANSFER_KINDS[..n + 1], statements[..n + 1])
    ensures r.Ok? ==> accounts.contexts == KeysFrom(key, n + 1) && c.nextKey == key + n + 1
    ensures r.Ok? ==> |c.landed| == |old(c.landed)| + 1
    ensures accounts.records == old(accounts.records)
    ensures r.Err? ==> || !PrepareFits(c.env, c.payer, c.limit, key, statements)
                       || Dropped(c.script, old(c.sent), c.sent) || !AllHold(statements)
    ensures r.Err? && r.error.Invalid? ==> !PrepareFits(c.env, c.payer, c.limit, key, statements)
  {
    hide Books, Quiet, Ready, Conservation.Conserved, Above, Fits, Dropped, Holds, PrepareFits, AllHold, KeysFrom;
    FitsOrNot(c.env, c.payer, c.limit, key, statements, n);
    KeysGrow(key, n);
    Provable(c.env, TRANSFER_KINDS[n], statements[n]);
    ContextsOld(c.Live(), c.payer, c.floor, c.nextKey, accounts.contexts, accounts.records, accounts.staged, accounts.promised);
    ReadyFor(c.env, accounts.contexts, accounts.promised, statements, n, c.nextKey);
    var verified := accounts.Verify(c, TRANSFER_KINDS[n], c.env.prove(TRANSFER_KINDS[n], statements[n]), CONTEXT_SPACE);
    if verified.Err? {
      r := Err(verified.error);
    } else {
      r := Ok(());
    }
  }

  lemma Provable(env: Env, kind: ProofInstruction, statement: Statement)
    requires Faithful(env)
    ensures Verifies(env, kind, env.prove(kind, statement)) <==> Holds(statement)
  {
    assert env.decode(kind, env.prove(kind, statement)) == Some(statement);
  }

  lemma ContextsOld(live: ProofMap, payer: Address, floor: Address, nextKey: Address, contexts: seq<Address>,
                    records: seq<Address>, staged: seq<Staged>, promised: map<Address, Promise>)
    requires Books(live, payer, floor, nextKey, contexts, records, staged, promised)
    ensures nextKey !in contexts
    ensures forall s | s in staged :: s.context !in contexts
  {
    assert forall a | a in contexts :: a in contexts + records;
  }

  /** The five proofs of a transfer: four verified at once, the range proof staged from a record. */
  method PrepareProofs(c: Cluster, accounts: ProofAccounts, statements: seq<Statement>)
    returns (r: Result<seq<Address>>, ghost log: seq<seq<Ix>>, ghost cuts: seq<nat>)
    requires accounts.Valid(c) && |statements| == 5
    requires accounts.contexts == [] && accounts.records == [] && accounts.staged == []
    modifies accounts, c
    ensures accounts.Valid(c)
    ensures c.failures == Told(r, old(c.failures))
    ensures r.Err? ==> r.error.Invalid? || SendFailed(r)
    ensures Quiet(c.owner, c.script, old(c.Now()), c.Now())
    ensures r.Ok? ==> && r.value == accounts.contexts + StagedContexts(accounts.staged)
                      && Ready(c.env, r.value, accounts.promised, TRANSFER_KINDS, statements)
    ensures r.Ok? ==> && accounts.contexts == KeysFrom(old(c.nextKey), 4) && accounts.records == [old(c.nextKey) + 4]
                      && |accounts.staged| == 1 && RangeStaged(accounts.staged[0], old(c.nextKey), c.payer, c.limit)
                      && |log| == |old(c.landed)| + 4
                      && Chunked(old(c.nextKey) + 4, c.payer, c.limit, c.env.prove(TRANSFER_KINDS[4], statements[4]), log,
                                 c.landed, cuts, accounts.staged[0].tail)
    ensures r.Err? ==> || !PrepareFits(c.env, c.payer, c.limit, old(c.nextKey), statements)
                       || Dropped(c.script, old(c.sent), c.sent) || !AllHold(statements)
    ensures r.Err? && r.error.Invalid? ==> !PrepareFits(c.env, c.payer, c.limit, old(c.nextKey), statements)
  {
    hide Books, Quiet, Ready, Conservation.Conserved, Chunked, Above, Fits, Dropped, Holds, RangeStaged, PrepareFits, AllHold,
         Rely.Undisturbed;
    ghost var m, key := c.Now(), c.nextKey;
    log, cuts := c.landed, [];
    assert KeysFrom(key, 0) == [];
    hide KeysFrom;
    ReadyNone(c.env, accounts.promised, statements);
    var equality := VerifyNext(c, accounts, statements, 0, key);
    if equality.Err? {
      return Err(equality.error), log, cuts;
    }
    ghost var m1 := c.Now();
    var amountValidity := VerifyNext(c, accounts, statements, 1, key);
    Between(c.owner, c.script, m, m1, c.Now());
    if amountValidity.Err? {
      return Err(amountValidity.error), log, cuts;
    }
    ghost var m2 := c.Now();
    var feeSigma := VerifyNext(c, accounts, statements, 2, key);
    Between(c.owner, c.script, m, m2, c.Now());
    if feeSigma.Err? {
      return Err(feeSigma.error), log, cuts;
    }
    ghost var m3 := c.Now();
    var feeValidity := VerifyNext(c, accounts, statements, 3, key);
    Between(c.owner, c.script, m, m3, c.Now());
    if feeValidity.Err? {
      return Err(feeValidity.error), log, cuts;
    }
    FitsOrNot(c.env, c.payer, c.limit, key, statements, 0);
    ghost var m4 := c.Now();
    log := c.landed;
    r, cuts := StageRange(c, accounts, statements);
    Between(c.owner, c.script, m, m4, c.Now());
  }

  lemma KeysGrow(key: Address, n: nat)
    ensures KeysFrom(key, n) + [key + n] == KeysFrom(key, n + 1)
  {}

  lemma FitsOrNot(env: Env, payer: Address, limit: nat, key: Address, statements: seq<Statement>, n: nat)
    requires n < 4 && |statements| == 5
    ensures PrepareFits(env, payer, limit, key, statements) ==> ProofFits(env, payer, limit, key, statements, n)
    ensures PrepareFits(env, payer, limit, key, statements) ==>
              Writable(key + 4, payer, limit, env.prove(TRANSFER_KINDS[4], statements[4]))
    ensures AllHold(statements) ==> Holds(statements[n])
  {}

  /** The range proof of a transfer whose keys run from `key`, staged. */
  predicate RangeStaged(s: Staged, key: Address, payer: Address, limit: nat) {
    s == StagedFrom(TRANSFER_KINDS[4], key + 4, key + 5, payer, s.tail, CONTEXT_SPACE) && TailFits(s, payer, limit)
  }

  lemma ReadyNone(env: Env, promised: map<Address, Promise>, statements: seq<Statement>)
    requires |statements| == 5
    ensures Ready(env, [], promised, TRANSFER_KINDS[..0], statements[..0])
  {}

  method StageRange(c: Cluster, accounts: ProofAccounts, statements: seq<Statement>)
    returns (r: Result<seq<Address>>, ghost cuts: seq<nat>)
    requires accounts.Valid(c) && |statements| == 5 && accounts.staged == []
    requires Ready(c.env, accounts.contexts, accounts.promised, TRANSFER_KINDS[..4], statements[..4])
    modifies accounts, c
    ensures accounts.Valid(c)
    ensures c.failures == Told(r, old(c.failures))
    ensures r.Err? ==> r.error.Invalid? || SendFailed(r)
    ensures Quiet(c.owner, c.script, old(c.Now()), c.Now())
    ensures r.Ok? ==> && r.value == accounts.contexts + StagedContexts(accounts.staged)
                      && Ready(c.env, r.value, accounts.promised, TRANSFER_KINDS, statements)
    ensures r.Ok? ==> && accounts.contexts == old(accounts.contexts)
                      && accounts.records == old(accounts.records) + [old(c.nextKey)]
                      && |accounts.staged| == 1
                      && (old(c.nextKey) >= 4 ==> RangeStaged(accounts.staged[0], old(c.nextKey) - 4, c.payer, c.limit))
                      && Chunked(old(c.nextKey), c.payer, c.limit, c.env.prove(TRANSFER_KINDS[4], statements[4]), old(c.landed),
                                 c.landed, cuts, accounts.staged[0].tail)
    ensures r.Err? ==> || !Writable(old(c.nextKey), c.payer, c.limit, c.env.prove(TRANSFER_KINDS[4], statements[4]))
                       || Dropped(c.script, old(c.sent), c.sent)
    ensures r.Err? && r.error.Invalid? ==> !Writable(old(c.nextKey), c.payer, c.limit, c.env.prove(TRANSFER_KINDS[4], statements[4]))
  {
    hide Books, Quiet, Ready, Conservation.Conserved, Chunked, Above, Fits, Dropped, SomeByteStuck, EmptyRecordTx, TailFits,
         StagedFrom;
    ghost var contexts, promised := accounts.contexts, accounts.promised;
    var range;
    range, cuts := accounts.StageFromRecord(c, TRANSFER_KINDS[4], c.env.prove(TRANSFER_KINDS[4], statements[4]), CONTEXT_SPACE);
    if range.Err? {
      return Err(range.error), cuts;
    }
    ContextsOld(c.Live(), c.payer, c.floor, c.nextKey, accounts.contexts, accounts.records, accounts.staged, accounts.promised);
    assert accounts.staged[0] in accounts.staged;
    ReadyFor(c.env, contexts, promised, statements, 4, range.value);
    assert TRANSFER_KINDS[..5] == TRANSFER_KINDS && statements[..5] == statements;
    assert StagedContexts(accounts.staged) == [range.value];
    r := Ok(accounts.contexts + [range.value]);
  }

  lemma TransferAdds(roles: Roles, source: Address, destination: Address, owner: Address, decryptable: Cipher, key: Address)
    ensures Adds([TransferIx(roles, source, destination, owner, decryptable, KeysFrom(key, 4) + [key + 5])],
                 {roles.tokenProgram, source, roles.mint, destination, key, key + 1, key + 2, key + 3, key + 5, owner}, {owner}, 184)
  {
    hide Adds, MetaKeys, MetaSigners;
    var contexts := KeysFrom(key, 4) + [key + 5];
    var ix := TransferIx(roles, source, destination, owner, decryptable, contexts);
    AddsOne(ix);
    var accounts := [Meta(source, false), Meta(roles.mint, false), Meta(destination, false)];
    var proofs := [Meta(key, false), Meta(key + 1, false), Meta(key + 2, false)];
    var others := [Meta(key + 3, false), Meta(key + 5, false), Meta(owner, true)];
    ThreeMetas(accounts[0], accounts[1], accounts[2]);
    ThreeMetas(proofs[0], proofs[1], proofs[2]);
    ThreeMetas(others[0], others[1], others[2]);
    BothMetas(accounts, proofs);
    BothMetas(accounts + proofs, others);
    assert ix.metas == accounts + proofs + others;
    assert MetaSigners(ix.metas) == {owner};
    assert {ix.program} + MetaKeys(ix.metas)
        == {roles.tokenProgram, source, roles.mint, destination, key, key + 1, key + 2, key + 3, key + 5, owner};
  }

  /** How many transactions a transfer that landed took. */
  lemma TransferTakes(env: Env, roles: Roles, payer: Address, owner: Address, key: Address, source: Address, destination: Address,
                      decryptable: Cipher, s: Staged, range: Statement, ix: Ix, contexts: seq<Address>, start: seq<seq<Ix>>,
                      log: seq<seq<Ix>>, log1: seq<seq<Ix>>, log2: seq<seq<Ix>>, cuts: seq<nat>)
    requires RangeStaged(s, key, payer, PACKET_DATA_SIZE) && StandardLengths(env) && payer < key && |log| == |start| + 4
    requires Chunked(key + 4, payer, PACKET_DATA_SIZE, env.prove(TRANSFER_KINDS[4], range), log, log1, cuts, s.tail)
    requires contexts == KeysFrom(key, 4) + StagedContexts([s])
    requires ix == TransferIx(roles, source, destination, owner, decryptable, contexts)
    requires var whole := ConsumeTx([s], KeysFrom(key, 4), [key + 4], payer, [ix], TRANSFER_WITH_FEE_UNITS, true);
             var stripped := ConsumeTx([s], KeysFrom(key, 4), [key + 4], payer, [ix], TRANSFER_WITH_FEE_UNITS, false);
             log2 == if Fits(whole, payer, PACKET_DATA_SIZE) then log1 + [whole] else log1 + TailTxs([s]) + [stripped]
    ensures SixOrSeven(|log2| - |start|, roles, payer, owner, key, source, destination)
  {
    hide Fits, ConsumeTx, TransferIx, Adds;
    var proof := env.prove(TRANSFER_KINDS[4], range);
    assert |proof| == ProofLen(TRANSFER_KINDS[4]);
    assert StagedContexts([s]) == [key + 5];
    CutInTwo(key + 4, payer, proof, log, log1, cuts, s.tail);
    TailsInOrder([s], 0);
    assert [s][..0] == [] && Kept([]) == 0 && Kept([s]) == 1;
    if KeysApart(roles, payer, owner, key, source, destination) {
      TransferAdds(roles, source, destination, owner, decryptable, key);
      ApartHere(roles, payer, owner, key, source, destination);
      TransferTooLarge(roles, payer, owner, key, source, destination, ix, s, TRANSFER_KINDS[4], CONTEXT_SPACE, cuts[1],
                       proof[cuts[1]..], TRANSFER_WITH_FEE_UNITS);
    }
  }

  /** Deliver the proofs of a transfer and use them; `at` is the world the transfer met. */
  method SendTransfer(c: Cluster, roles: Roles, source: Address, destination: Address, decryptable: Cipher,
                      statements: seq<Statement>)
    returns (r: Result<()>, ghost at: World, ghost signers: set<Address>)
    requires c.Valid() && |statements| == 5
    modifies c
    ensures c.Valid() && Reached(c.owner, c.script, old(c.Now()), c.turn, at.ledger, at.epoch) && c.turn >= old(c.turn)
    ensures r.Ok? ==> && c.Live() == map[] && Conservation.Conserved(at.ledger) && at.epoch == c.world.epoch
                      && ExecConfidentialTransfer(at.ledger, source, destination, decryptable, signers, statements, at.epoch)
                         == Some(c.world.ledger)
                      && |c.landed| > 0
                      && Quiet(c.owner, c.script, old(c.Now()), LastMet(c.Now(), at))
    ensures r.Ok? && c.limit == PACKET_DATA_SIZE && StandardLengths(c.env) ==>
              SixOrSeven(|c.landed| - |old(c.landed)|, roles, c.payer, c.owner, old(c.nextKey), source, destination)
    ensures r.Err? ==> r.error.Invalid? || SendFailed(r)
    ensures r.Err? ==> && Quiet(c.owner, c.script, old(c.Now()), c.Now())
                       && CleanUnlessMoreFailed(r, old(c.failures), c.failures, c.Live())
                       && OnlyDropped(c.limit, c.script, old(c.sent), c.sent, Told(r, old(c.failures)), c.failures)
    ensures r.Err? ==>
              || !TransferFits(c.env, roles, c.payer, c.owner, c.limit, old(c.nextKey), source, destination, decryptable, statements)
              || Dropped(c.script, old(c.sent), c.sent) || !AllHold(statements)
              || (WasMet(old(c.sent), c.sent, at) && TransferRefused(at, c.owner, source, destination, decryptable, statements))
    ensures r.Err? && r.error.Invalid? ==>
              !TransferFits(c.env, roles, c.payer, c.owner, c.limit, old(c.nextKey), source, destination, decryptable, statements)
  {
    hide Conservation.Conserved, Quiet, Ready, Books, Consumed, TransferIx, ExecConfidentialTransfer, Uses, Closable, Fits,
         ConsumeTx, TailTxs, SentAtOnce, ExecAll, Chunked, Above, StagedContexts, Rely.Undisturbed, TransferFits, TransferRefused,
         Dropped, Refused, AllTrue, TailsFit, RangeStaged, KeysFrom, AllHold, PrepareFits, WasMet, Reached, NoToken, SixOrSeven,
         StandardLengths;
    ghost var m, key := c.Now(), c.nextKey;
    signers := {};
    var accounts := new ProofAccounts(c);
    assert c.Now() == m;
    var contexts;
    ghost var log, cuts;
    contexts, log, cuts := PrepareProofs(c, accounts, statements);
    ghost var m1 := c.Now();
    at := c.world;
    if contexts.Err? {
      BooksClosable(c.Live(), c.payer, c.floor, c.nextKey, accounts.contexts, accounts.records, accounts.staged, accounts.promised);
      r := accounts.CloseAfter(c, Err(contexts.error));
      at := c.world;
      Between(c.owner, c.script, m, m1, c.Now());
      QuietSays(c.owner, c.script, m, c.Now());
      Unprepared(c.env, roles, c.payer, c.owner, c.limit, key, source, destination, decryptable, statements);
      return;
    }
    var ix := TransferIx(roles, source, destination, c.owner, decryptable, contexts.value);
    TransferUses(roles, source, destination, c.owner, decryptable, contexts.value);
    ghost var promised := accounts.promised;
    signers := {c.payer} + ({c.owner} + (set x | x in StagedContexts(accounts.staged)));
    ghost var after, s := c.world, accounts.staged[0];
    assert accounts.staged == [s];
    r, at, after := accounts.Consume(c, [ix], {c.owner}, TRANSFER_WITH_FEE_UNITS);
    if r.Err? {
      TransferFailed(c.env, c.owner, c.payer, c.limit, signers, roles, source, destination, decryptable, statements,
                     contexts.value, key, s, promised, m1.ledger, at);
      at := FailedAt(c.owner, c.script, m, m1, c.Now(), at, c.world);
    } else {
      QuietThen(c.owner, c.script, m, m1, LastMet(c.Now(), at));
      TransferLands(c.env, c.owner, c.payer, signers, roles, source, destination, decryptable, statements, contexts.value,
                    promised, m1.ledger, at, after, c.world.ledger);
      if c.limit == PACKET_DATA_SIZE && StandardLengths(c.env) {
        TransferTakes(c.env, roles, c.payer, c.owner, key, source, destination, decryptable, s,
                      statements[4], ix, contexts.value, m.landed, log, m1.landed, c.landed, cuts);
      }
    }
  }

  /**
   It does so exactly when an account cannot take part, the amount is not below 2^48, or the quote is not true where the
   transfer lands: the balance claimed, the fee of the epoch.
   */
  lemma TransferRefusedIff(at: World, owner: Address, source: Address, destination: Address, keys: WalletKeys, q: Quote,
                           amount: nat)
    requires Fees.ConfigOk(at.ledger.mint.fees) && amount <= q.available < U64 && q.roles == at.ledger.roles
    ensures !TransferRefused(at, owner, source, destination, Remaining(q, keys, amount), QuoteStatements(q, keys, amount)) <==>
              && Usable(at.ledger, source, {owner}) && Creditable(at.ledger, destination)
              && amount < MAX_CONFIDENTIAL
              && var s, d := at.ledger.accounts[source].conf.value, at.ledger.accounts[destination].conf.value;
              && s.approved && s.key == keys.elgamal && s.available == q.value == q.available
              && d.key == q.destinationKey
              && q.rate == Fees.EpochFee(at.ledger.mint.fees, at.epoch) && Fees.CalculateFee(q.rate, amount) == Some(q.fee)
  {
    if Usable(at.ledger, source, {owner}) && Creditable(at.ledger, destination) {
      QuoteProvenIff(at.ledger, at.ledger.accounts[source].conf.value, at.ledger.accounts[destination].conf.value, keys, q, amount,
                     at.epoch);
    }
    hide TransferProven, QuoteStatements;
  }

  lemma QuoteProvenIff(l: Ledger, s: Conf, d: Conf, keys: WalletKeys, q: Quote, amount: nat, epoch: nat)
    requires Fees.ConfigOk(l.mint.fees) && amount <= q.available < U64 && q.roles == l.roles
    ensures TransferProven(l, s, d, QuoteStatements(q, keys, amount), epoch) <==>
              && amount < MAX_CONFIDENTIAL && s.key == keys.elgamal && s.available == q.value == q.available
              && d.key == q.destinationKey
              && q.rate == Fees.EpochFee(l.mint.fees, epoch) && Fees.CalculateFee(q.rate, amount) == Some(q.fee)
  {
    hide Fees.CalculateFee, Fees.EpochFee, Holds;
    var p := QuoteStatements(q, keys, amount);
    Halves(amount);
    Halves(q.fee);
    QuoteHolds(keys, q, amount);
    EpochRateOk(l.mint.fees, epoch);
    Fees.FeeWithinAmount(Fees.EpochFee(l.mint.fees, epoch), amount);
    assert p[0] in p && p[4] in p;
    assert AllHold(p) <==> forall s | s in p :: Holds(s);
  }

  lemma Halves(amount: nat)
    ensures amount == amount % LO_BITS + LO_BITS * (amount / LO_BITS)
    ensures amount / LO_BITS < U32 <==> amount < MAX_CONFIDENTIAL
  {}

  /** What has to be true for the five statements of a quote to be provable. */
  lemma QuoteHolds(keys: WalletKeys, q: Quote, amount: nat)
    requires amount <= q.available < U64
    ensures AllHold(QuoteStatements(q, keys, amount)) <==>
              && q.value == q.available && amount < MAX_CONFIDENTIAL && q.fee < MAX_CONFIDENTIAL
              && Fees.CalculateFee(q.rate, amount) == Some(q.fee)
  {
    hide Fees.CalculateFee;
    var p := QuoteStatements(q, keys, amount);
    Halves(amount);
    Halves(q.fee);
    assert p[0] in p && p[2] in p && p[4] in p;
    var v := p[4].values;
    assert v[0] in v && v[1] in v && v[2] in v && v[3] in v && v[4] in v;
  }

  lemma EpochRateOk(fees: Fees.FeeConfig, epoch: nat)
    requires Fees.ConfigOk(fees)
    ensures Fees.RateOk(Fees.EpochFee(fees, epoch))
  {}

  lemma Unprepared(env: Env, roles: Roles, payer: Address, owner: Address, limit: nat, key: Address, source: Address,
                   destination: Address, decryptable: Cipher, statements: seq<Statement>)
    requires |statements| == 5
    ensures TransferFits(env, roles, payer, owner, limit, key, source, destination, decryptable, statements) ==>
              PrepareFits(env, payer, limit, key, statements)
  {}

  /** Why a transfer did not go through although its proofs were on chain and nothing was lost. */
  lemma TransferFailed(env: Env, owner: Address, payer: Address, limit: nat, signers: set<Address>, roles: Roles,
                       source: Address, destination: Address, decryptable: Cipher, statements: seq<Statement>,
                       contexts: seq<Address>, key: Address, s: Staged, promised: map<Address, Promise>, l: Ledger, at: World)
    requires Faithful(env) && |statements| == 5 && owner in signers
    requires RangeStaged(s, key, payer, limit) && contexts == KeysFrom(key, 4) + StagedContexts([s])
    requires Ready(env, contexts, promised, TRANSFER_KINDS, statements)
    ensures var ix := TransferIx(roles, source, destination, owner, decryptable, contexts);
            && TailsFit([s], payer, limit) && !NoToken([ix])
            && (!Fits(ConsumeTx([s], KeysFrom(key, 4), [key + 4], payer, [ix], TRANSFER_WITH_FEE_UNITS, false), payer, limit) ==>
                  !TransferFits(env, roles, payer, owner, limit, key, source, destination, decryptable, statements))
            && (!AllTrue(env, [s], promised) ==> !AllHold(statements))
            && (Refused(env, owner, payer, signers, [ix], contexts, promised, l, at) ==>
                  TransferRefused(at, owner, source, destination, decryptable, statements))
  {
    hide Rely.Undisturbed, Conservation.Conserved, Fits, TailFits, TransferRefused, ExecAll, AllTrue, Refused,
         PrepareFits, Ready, AllHold;
    var ix := TransferIx(roles, source, destination, owner, decryptable, contexts);
    assert ix in [ix] && ix.op.Token?;
    hide TransferIx;
    StrippedConsume([s], [s.(tail := None)], KeysFrom(key, 4), [key + 4], payer, [ix], TRANSFER_WITH_FEE_UNITS);
    assert StagedContexts([s]) == [key + 5];
    FalseProof(env, s, contexts, promised, statements);
    if Refused(env, owner, payer, signers, [ix], contexts, promised, l, at) {
      UseRefusesTransfer(env, owner, payer, signers, roles, source, destination, decryptable, statements, contexts, promised, l, at);
    }
  }

  lemma FalseProof(env: Env, s: Staged, contexts: seq<Address>, promised: map<Address, Promise>, statements: seq<Statement>)
    requires Faithful(env) && |statements| == 5 && Ready(env, contexts, promised, TRANSFER_KINDS, statements)
    requires contexts[4] == s.context
    ensures !AllTrue(env, [s], promised) ==> !AllHold(statements)
  {
    hide Holds;
    Provable(env, TRANSFER_KINDS[4], statements[4]);
    assert statements[4] in statements;
  }

  /** Meeting its proofs, the transfer can only be refused by the token program itself. */
  lemma UseRefusesTransfer(env: Env, owner: Address, payer: Address, signers: set<Address>, roles: Roles, source: Address,
                           destination: Address, decryptable: Cipher, statements: seq<Statement>, contexts: seq<Address>,
                           promised: map<Address, Promise>, l: Ledger, at: World)
    requires Faithful(env) && |statements| == 5 && Ready(env, contexts, promised, TRANSFER_KINDS, statements)
    requires owner in signers
    requires Refused(env, owner, payer, signers, [TransferIx(roles, source, destination, owner, decryptable, contexts)],
                     contexts, promised, l, at)
    ensures TransferRefused(at, owner, source, destination, decryptable, statements)
  {
    hide Conservation.Conserved, Rely.Undisturbed, Exec, TransferProven;
    var ix := TransferIx(roles, source, destination, owner, decryptable, contexts);
    ContextsStand(env, at.proofs, payer, contexts, promised, TRANSFER_KINDS, statements);
    assert [ix][1..] == [];
    assert ExecAll(env, at, [ix], signers) == ExecOp(env, at, ix.op, signers);
    ExecOfTransfer(env, at.ledger, ix.op.ix, signers, statements, at.epoch);
  }

  lemma TransferUses(roles: Roles, source: Address, destination: Address, owner: Address, decryptable: Cipher,
                     contexts: seq<Address>)
    ensures Uses([TransferIx(roles, source, destination, owner, decryptable, contexts)])
  {}

  /** The contexts hold the proofs prepared, so the program judges exactly the prepared statements. */
  lemma TransferLands(env: Env, owner: Address, payer: Address, signers: set<Address>, roles: Roles, source: Address,
                      destination: Address, decryptable: Cipher, statements: seq<Statement>, contexts: seq<Address>,
                      promised: map<Address, Promise>, l: Ledger, at: World, after: World, l': Ledger)
    requires Faithful(env) && |statements| == 5 && Ready(env, contexts, promised, TRANSFER_KINDS, statements)
    requires Consumed(env, owner, payer, signers, [TransferIx(roles, source, destination, owner, decryptable, contexts)],
                      contexts, promised, l, at, after, l')
    ensures Conservation.Conserved(at.ledger)
    ensures ExecConfidentialTransfer(at.ledger, source, destination, decryptable, signers, statements, at.epoch) == Some(l')
  {
    hide Conservation.Conserved, Rely.Undisturbed, Exec, ExecConfidentialTransfer;
    var ix := TransferIx(roles, source, destination, owner, decryptable, contexts);
    ContextsStand(env, at.proofs, payer, contexts, promised, TRANSFER_KINDS, statements);
    assert [ix][1..] == [];
    assert ExecAll(env, at, [ix], signers) == ExecOp(env, at, ix.op, signers);
    ExecOfTransfer(env, at.ledger, ix.op.ix, signers, statements, at.epoch);
  }

  lemma ExecOfTransfer(env: Env, l: Ledger, ix: TokenIx, signers: set<Address>, proofs: seq<Statement>, epoch: nat)
    requires ix.ConfidentialTransfer?
    ensures Exec(env.pda, l, ix, signers, proofs, epoch)
         == ExecConfidentialTransfer(l, ix.source, ix.destination, ix.decryptable, signers, proofs, epoch)
  {}

  /** What a transfer that passed the program's checks moved. */
  lemma TransferMoves(at: Ledger, after: Ledger, source: Address, destination: Address, keys: WalletKeys, value: int,
                      destinationKey: Address, roles: Roles, available: nat, amount: nat, fee: nat, rate: Fees.Rate,
                      signers: set<Address>, epoch: nat)
    requires amount <= available
    requires ExecConfidentialTransfer(at, source, destination, Cipher(keys.ae, available - amount), signers,
                                      TransferStatements(keys.elgamal, value, destinationKey, roles, available, amount, fee, rate),
                                      epoch) == Some(after)
    ensures Sent(at, after, source, destination, Cipher(keys.ae, available - amount), amount, fee)
    ensures at.accounts[source].conf.value.available == value == available
    ensures at.accounts[source].conf.value.key == keys.elgamal && at.accounts[destination].conf.value.key == destinationKey
    ensures Fees.CalculateFee(Fees.EpochFee(at.mint.fees, epoch), amount) == Some(fee)
  {
    var p := TransferStatements(keys.elgamal, value, destinationKey, roles, available, amount, fee, rate);
    assert p[0] in p && p[1] in p && p[2] in p && p[3] in p && p[4] in p;
    Conservation.ProvenAmounts(at, at.accounts[source].conf.value, at.accounts[destination].conf.value, p, epoch);
    assert amount == amount % LO_BITS + LO_BITS * (amount / LO_BITS);
    assert fee == fee % LO_BITS + LO_BITS * (fee / LO_BITS);
  }

  /** What a client read before a transfer: its spendable balance, the keys involved and the fee to prove. */
  datatype Quote = Quote(available: nat, value: int, destinationKey: Address, roles: Roles, fee: nat, rate: Fees.Rate,
                         epoch: nat)

  /** The statements a transfer of `amount` under this quote proves, and what it leaves the owner's copy at. */
  function QuoteStatements(q: Quote, keys: WalletKeys, amount: nat): (statements: seq<Statement>)
    ensures |statements| == 5
  {
    TransferStatements(keys.elgamal, q.value, q.destinationKey, q.roles, q.available, amount, q.fee, q.rate)
  }

  function Remaining(q: Quote, keys: WalletKeys, amount: nat): Cipher {
    Cipher(keys.ae, q.available - amount)
  }

  /** The account may be sent to once its owner has configured it. */
  predicate Receiving(l: Ledger, a: Address) {
    a in l.accounts && l.accounts[a].conf.Some?
  }

  /** The quote is true of the accounts: of `source` when it was read, and of the key of `destination` ever since. */
  ghost predicate QuoteTrue(seen: Ledger, now: Ledger, source: Address, destination: Address, keys: WalletKeys, amount: nat,
                            q: Quote) {
    && Spendable(seen, source, keys, amount) == Ok(q.available) && amount <= q.available < U64
    && Receiving(seen, source) && q.value == seen.accounts[source].conf.value.available
    && q.roles == seen.roles
    && Receiving(now, destination) && q.destinationKey == now.accounts[destination].conf.value.key
    && Fees.CalculateFee(q.rate, amount) == Some(q.fee)
  }

  lemma StillReceiving(owner: Address, l: Ledger, l': Ledger, a: Address)
    requires Rely.Undisturbed(owner, l, l')
    ensures a in l.accounts ==> a in l'.accounts
    ensures Receiving(l, a) ==> Receiving(l', a) && l'.accounts[a].conf.value.key == l.accounts[a].conf.value.key
  {}

  lemma QuoteStaysTrue(owner: Address, seen: Ledger, now: Ledger, now': Ledger, source: Address, destination: Address,
                       keys: WalletKeys, amount: nat, q: Quote)
    requires QuoteTrue(seen, now, source, destination, keys, amount, q) && Rely.Undisturbed(owner, now, now')
    ensures QuoteTrue(seen, now', source, destination, keys, amount, q)
  {
    hide Spendable;
  }

  /** What the source can spend, if it and the destination, read one after the other, can take part. */
  function Parties(from: Ledger, to: Ledger, source: Address, destination: Address, keys: WalletKeys, amount: nat): Result<nat> {
    if destination !in to.accounts then Err(NotFound(destination))
    else
      match Spendable(from, source, keys, amount)
      case Err(e) => Err(e)
      case Ok(available) => if to.accounts[destination].conf.None? then Err(Invalid) else Ok(available)
  }

  lemma PartiesSay(owner: Address, from: Ledger, to: Ledger, source: Address, destination: Address, keys: WalletKeys, amount: nat)
    requires Rely.Undisturbed(owner, from, to)
    ensures var (p, s) := (Parties(from, to, source, destination, keys, amount), Spendable(from, source, keys, amount));
            && (p.Ok? ==> s == p && Receiving(from, source) && Receiving(to, destination))
            && (p.Err? && s.Err? ==> p == s || p == Err(NotFound(destination)))
            && (p.Err? && s.Ok? ==>
                  !Receiving(from, destination)
                  && (p == Err(Invalid) || (p == Err(NotFound(destination)) && destination !in from.accounts)))
  {
    StillReceiving(owner, from, to, destination);
  }

  /** Read both accounts, the mint and the clock, and refuse what cannot be sent. */
  method ReadQuote(c: Cluster, source: Address, destination: Address, keys: WalletKeys, amount: nat)
    returns (r: Result<Quote>, ghost seen: Ledger)
    requires c.Valid()
    modifies c
    ensures c.Valid() && c.Live() == old(c.Live()) && c.landed == old(c.landed) && c.failures == old(c.failures)
    ensures c.nextKey == old(c.nextKey) && c.sent == old(c.sent) && Quiet(c.owner, c.script, old(c.Now()), c.Now())
    ensures c.turn > old(c.turn)
    ensures Rely.Undisturbed(c.owner, old(c.world.ledger), seen) && Rely.Undisturbed(c.owner, seen, c.world.ledger)
    ensures c.script(old(c.turn)).others == [] ==> seen == old(c.world.ledger)
    ensures var s := Spendable(seen, source, keys, amount);
            s.Err? ==> (r == Err(s.error) || r == Err(NotFound(destination))) && c.turn <= old(c.turn) + 3
    ensures r.Err? && Spendable(seen, source, keys, amount).Ok? ==>
              !Receiving(seen, destination)
              && (r.error == Invalid || (r.error == NotFound(destination) && destination !in seen.accounts))
    ensures r.Ok? ==> && QuoteTrue(seen, c.world.ledger, source, destination, keys, amount, r.value)
                      && c.turn == old(c.turn) + 4 && r.value.epoch == c.world.epoch == old(c.world.epoch) + Elapsed(c.script, old(c.turn), 4)
                      && (c.script(old(c.turn) + 3).others == [] ==>
                            r.value.rate == Fees.EpochFee(c.world.ledger.mint.fees, r.value.epoch))
  {
    hide Conservation.Conserved, Spendable, Elapsed, Rely.Undisturbed, QuoteTrue, Fees.EpochFee, Quiet, Above, Receiving, Parties;
    ghost var m := c.Now();
    var from := c.Observe();
    seen := c.world.ledger;
    ghost var m1 := c.Now();
    StillThere(c.owner, seen);
    if source !in from.ledger.accounts {
      NothingSpendable(seen, source, keys, amount);
      return Err(NotFound(source)), seen;
    }
    var to, mint := ObserveTwice(c);
    ghost var m2 := c.Now();
    QuietTransitive(c.owner, c.script, m, m1, m2);
    PartiesSay(c.owner, seen, to.ledger, source, destination, keys, amount);
    var available := Parties(from.ledger, to.ledger, source, destination, keys, amount);
    if available.Err? {
      return Err(available.error), seen;
    }
    var q := ReadFee(c, from.ledger, to.ledger, mint.ledger, source, destination, keys, amount);
    QuietTransitive(c.owner, c.script, m, m2, c.Now());
    Rely.UndisturbedTransitive(c.owner, seen, m2.ledger, c.world.ledger);
    FirstEpochs(c.script, m.turn);
    r := Ok(q);
  }

  /** Read the clock, and put the quote together from what was read before: the three snapshots are of this cluster. */
  method ReadFee(c: Cluster, from: Ledger, to: Ledger, mint: Ledger, source: Address, destination: Address, keys: WalletKeys,
                 amount: nat) returns (q: Quote)
    requires c.Valid() && c.world.ledger == mint && Rely.Undisturbed(c.owner, from, mint) && Rely.Undisturbed(c.owner, to, mint)
    requires Spendable(from, source, keys, amount).Ok? && Receiving(from, source) && Receiving(to, destination)
    modifies c
    ensures c.Valid() && c.Live() == old(c.Live()) && c.landed == old(c.landed) && c.failures == old(c.failures)
    ensures c.turn == old(c.turn) + 1 && c.nextKey == old(c.nextKey) && c.sent == old(c.sent)
    ensures Rely.Undisturbed(c.owner, mint, c.world.ledger) && Quiet(c.owner, c.script, old(c.Now()), c.Now())
    ensures QuoteTrue(from, c.world.ledger, source, destination, keys, amount, q)
    ensures q.epoch == c.world.epoch == old(c.world.epoch + c.script(c.turn).epochs)
    ensures c.script(old(c.turn)).others == [] ==> q.rate == Fees.EpochFee(c.world.ledger.mint.fees, q.epoch)
  {
    hide Conservation.Conserved, Spendable, Rely.Undisturbed, QuoteTrue, Fees.EpochFee, Fees.CalculateFee, Fees.ExpectedFee,
         Quiet;
    var available := Spendable(from, source, keys, amount);
    SpendableHere(from, source, keys, amount);
    var now := c.Observe();
    var fee := Fees.ExpectedFee(Some(mint.mint.fees), now.epoch, amount);
    Transfers.FeeKnown(mint, now.epoch, amount);
    StillReceiving(c.owner, to, mint, destination);
    Transfers.SameRoles(c.owner, from, mint);
    q := Quote(available.value, from.accounts[source].conf.value.available, to.accounts[destination].conf.value.key, mint.roles,
               fee.value, Fees.EpochFee(mint.mint.fees, now.epoch), now.epoch);
    QuoteMade(c.owner, from, mint, source, destination, keys, amount, q, mint.mint.fees);
    QuoteStaysTrue(c.owner, from, mint, c.world.ledger, source, destination, keys, amount, q);
  }

  lemma QuoteMade(owner: Address, seen: Ledger, l: Ledger, source: Address, destination: Address, keys: WalletKeys, amount: nat,
                  q: Quote, fees: Fees.FeeConfig)
    requires Spendable(seen, source, keys, amount) == Ok(q.available) && Receiving(seen, source)
    requires q.value == seen.accounts[source].conf.value.available && q.roles == l.roles && Rely.Undisturbed(owner, seen, l)
    requires Receiving(l, destination) && q.destinationKey == l.accounts[destination].conf.value.key
    requires q.rate == Fees.EpochFee(fees, q.epoch) && Fees.ExpectedFee(Some(fees), q.epoch, amount) == Ok(q.fee)
    ensures QuoteTrue(seen, l, source, destination, keys, amount, q)
  {
    hide Fees.EpochFee, Fees.CalculateFee;
    SpendableHere(seen, source, keys, amount);
  }

  method ObserveTwice(c: Cluster) returns (first: World, second: World)
    requires c.Valid()
    modifies c
    ensures c.Valid() && second == c.world && c.Live() == old(c.Live()) && c.failures == old(c.failures)
    ensures Rely.Undisturbed(c.owner, old(c.world.ledger), c.world.ledger)
    ensures Rely.Undisturbed(c.owner, old(c.world.ledger), first.ledger)
    ensures Rely.Undisturbed(c.owner, first.ledger, second.ledger) && Conservation.Conserved(second.ledger)
    ensures c.nextKey == old(c.nextKey) && c.floor == old(c.floor) && c.landed == old(c.landed) && c.turn == old(c.turn) + 2
    ensures c.world.epoch == old(c.world.epoch + c.script(c.turn).epochs + c.script(c.turn + 1).epochs)
    ensures c.sent == old(c.sent) && Quiet(c.owner, c.script, old(c.Now()), c.Now())
  {
    hide Conservation.Conserved, Rely.Undisturbed, Quiet, Reached;
    ghost var m := c.Now();
    first := c.Observe();
    ghost var m1 := c.Now();
    second := c.Observe();
    QuietThen(c.owner, c.script, m, m1, c.Now());
  }

  /** The quote of what is there. */
  function QuoteOf(l: Ledger, epoch: nat, source: Address, destination: Address, amount: nat): Quote
    requires Receiving(l, source) && Receiving(l, destination) && l.accounts[source].conf.value.available >= 0
  {
    var rate := Fees.EpochFee(l.mint.fees, epoch);
    var fee := Fees.CalculateFee(rate, amount);
    var available := l.accounts[source].conf.value.available;
    Quote(available, available, l.accounts[destination].conf.value.key, l.roles, if fee.Some? then fee.value else 0, rate, epoch)
  }

  /** As things stand, nothing speaks against sending `amount`. */
  ghost predicate MaySend(env: Env, l: Ledger, epoch: nat, payer: Address, owner: Address, limit: nat, key: Address,
                          source: Address, destination: Address, keys: WalletKeys, amount: nat) {
    && Usable(l, source, {owner}) && Creditable(l, destination) && amount < MAX_CONFIDENTIAL
    && var s := l.accounts[source].conf.value;
    && s.approved && Current(s, keys) && amount <= s.available
    && var q := QuoteOf(l, epoch, source, destination, amount);
    && TransferFits(env, l.roles, payer, owner, limit, key, source, destination, Remaining(q, keys, amount),
                    QuoteStatements(q, keys, amount))
  }

  lemma MaySendReads(env: Env, l: Ledger, epoch: nat, payer: Address, owner: Address, limit: nat, key: Address,
                     source: Address, destination: Address, keys: WalletKeys, amount: nat)
    requires Conservation.Conserved(l)
    ensures MaySend(env, l, epoch, payer, owner, limit, key, source, destination, keys, amount) ==>
              Spendable(l, source, keys, amount).Ok? && Receiving(l, destination)
  {
    if MaySend(env, l, epoch, payer, owner, limit, key, source, destination, keys, amount) {
      SpendableIff(l, source, keys, amount);
    }
    hide TransferFits, Spendable, QuoteStatements;
  }

  /** A transfer that may be sent, quoted where nobody else acts, fits, is provable and is not refused. */
  lemma CalmSend(env: Env, at: World, payer: Address, owner: Address, limit: nat, key: Address, source: Address,
                 destination: Address, keys: WalletKeys, amount: nat, q: Quote)
    requires MaySend(env, at.ledger, at.epoch, payer, owner, limit, key, source, destination, keys, amount)
    requires Conservation.Conserved(at.ledger) && QuoteTrue(at.ledger, at.ledger, source, destination, keys, amount, q)
    requires q.epoch == at.epoch && q.rate == Fees.EpochFee(at.ledger.mint.fees, at.epoch)
    ensures var (remaining, statements) := (Remaining(q, keys, amount), QuoteStatements(q, keys, amount));
            && TransferFits(env, q.roles, payer, owner, limit, key, source, destination, remaining, statements)
            && AllHold(statements) && !TransferRefused(at, owner, source, destination, remaining, statements)
  {
    hide TransferFits, TransferRefused, Fees.EpochFee, Fees.CalculateFee, Spendable, QuoteStatements, AllHold,
         Conservation.Conserved;
    SpendableIff(at.ledger, source, keys, amount);
    assert q == QuoteOf(at.ledger, at.epoch, source, destination, amount);
    assert Fees.ConfigOk(at.ledger.mint.fees) by {
      LegalRates(at.ledger);
    }
    EpochRateOk(at.ledger.mint.fees, at.epoch);
    Fees.FeeWithinAmount(q.rate, amount);
    QuoteHolds(keys, q, amount);
    TransferRefusedIff(at, owner, source, destination, keys, q, amount);
  }

  lemma LegalRates(l: Ledger)
    requires Conservation.Conserved(l)
    ensures Fees.ConfigOk(l.mint.fees)
  {}

  /**
   Send `amount` confidentially. A stale or short source is refused before anything is sent. On success the
   amount and the fee in force moved, the auditor can read the amount, and every proof account is closed;
   otherwise no token moved. If nobody else acts and nothing is lost, what may be sent is sent.
   */
  method TransferFlow(c: Cluster, source: Address, destination: Address, keys: WalletKeys, amount: nat)
    returns (r: Result<Receipt>, ghost seen: Ledger, ghost at: World, ghost quote: Quote)
    requires c.Valid()
    modifies c
    ensures c.Valid() && Rely.Undisturbed(c.owner, old(c.world.ledger), seen) && Rely.Undisturbed(c.owner, seen, at.ledger)
    ensures Reached(c.owner, c.script, old(c.Now()), c.turn, at.ledger, at.epoch)
    ensures c.script(old(c.turn)).others == [] ==> seen == old(c.world.ledger)
    ensures var s := Spendable(seen, source, keys, amount);
            s.Err? ==> && (r == Err(s.error) || r == Err(NotFound(destination)))
                       && c.turn <= old(c.turn) + 3 && c.landed == old(c.landed) && c.failures == old(c.failures)
    ensures old(Mine(c.world.ledger, c.owner, source) && Stale(c.world.ledger, source)) ==>
              Spendable(seen, source, keys, amount) == Err(Invalid)
    ensures r.Ok? ==> && c.Live() == map[] && at.epoch == c.world.epoch
                      && Spendable(seen, source, keys, amount).Ok?
                      && Transferred(at, c.world.ledger, source, destination, keys,
                                     Spendable(seen, source, keys, amount).value, amount, r.value)
                      && r.value.epoch == old(c.world.epoch) + Elapsed(c.script, old(c.turn), 4)
                      && |c.landed| > 0
                      && Quiet(c.owner, c.script, old(c.Now()), LastMet(c.Now(), at))
    ensures r.Ok? && c.limit == PACKET_DATA_SIZE && StandardLengths(c.env) ==>
              SixOrSeven(|c.landed| - |old(c.landed)|, quote.roles, c.payer, c.owner, old(c.nextKey), source, destination)
    ensures r.Err? ==> || Spendable(seen, source, keys, amount).Err?
                       || (r.error == NotFound(destination) && destination !in seen.accounts)
                       || r.error.Invalid? || SendFailed(r)
    ensures r.Err? ==>
              || Spendable(seen, source, keys, amount).Err? || !Receiving(seen, destination)
              || Dropped(c.script, old(c.sent), c.sent)
              || (QuoteTrue(seen, at.ledger, source, destination, keys, amount, quote)
                  && quote.epoch == old(c.world.epoch) + Elapsed(c.script, old(c.turn), 4)
                  && (Calm(c.script, old(c.turn) + 3, c.turn) ==> quote.rate == Fees.EpochFee(at.ledger.mint.fees, quote.epoch))
                  && (|| !TransferFits(c.env, quote.roles, c.payer, c.owner, c.limit, old(c.nextKey), source, destination,
                                       Remaining(quote, keys, amount), QuoteStatements(quote, keys, amount))
                      || !AllHold(QuoteStatements(quote, keys, amount))
                      || (WasMet(old(c.sent), c.sent, at)
                          && TransferRefused(at, c.owner, source, destination, Remaining(quote, keys, amount),
                                             QuoteStatements(quote, keys, amount)))))
    ensures r.Err? && r.error.Invalid? ==>
              || Spendable(seen, source, keys, amount).Err? || !Receiving(seen, destination)
              || !TransferFits(c.env, quote.roles, c.payer, c.owner, c.limit, old(c.nextKey), source, destination,
                               Remaining(quote, keys, amount), QuoteStatements(quote, keys, amount))
    ensures r.Err? ==> && Quiet(c.owner, c.script, old(c.Now()), c.Now())
                       && ((c.landed == old(c.landed) && c.Live() == old(c.Live()))
                           || CleanUnlessMoreFailed(r, old(c.failures), c.failures, c.Live()))
                       && OnlyDropped(c.limit, c.script, old(c.sent), c.sent, Told(r, old(c.failures)), c.failures)
    ensures old(Mine(c.world.ledger, c.owner, source)) ==> Mine(c.world.ledger, c.owner, source)
    ensures Calm(c.script, old(c.turn), c.turn) && !Dropped(c.script, old(c.sent), c.sent)
            && MaySend(c.env, old(c.world.ledger), old(c.world.epoch), c.payer, c.owner, c.limit, old(c.nextKey), source,
                       destination, keys, amount)
            ==> r.Ok?
  {
    hide Conservation.Conserved, Quiet, Transferred, Rely.Undisturbed, Spendable, Stale, Mine, ExecConfidentialTransfer,
         TransferStatements, Elapsed, QuoteTrue, TransferFits, TransferRefused, Dropped, Receiving, QuoteStatements, Remaining,
         Reached, WasMet, AllHold, MaySend, Calm, Above, Fees.EpochFee, StandardLengths, SixOrSeven;
    ghost var m, key := c.Now(), c.nextKey;
    MaySendReads(c.env, m.ledger, m.epoch, c.payer, c.owner, c.limit, key, source, destination, keys, amount);
    var quoted;
    quoted, seen := ReadQuote(c, source, destination, keys, amount);
    ghost var m1 := c.Now();
    at, quote := c.world, Quote(0, 0, 0, c.world.ledger.roles, 0, Fees.Rate(0, 0), 0);
    QuietSays(c.owner, c.script, m, m1);
    CalmAt(c.script, m.turn, c.turn, m.turn);
    StaleStays(c.owner, m.ledger, seen, source, keys, amount);
    if quoted.Err? {
      NotASend(seen, source, keys, amount);
      QuietMine(c.owner, c.script, m, m1, source);
      return Err(quoted.error), seen, at, quote;
    }
    var q := quoted.value;
    quote := q;
    QuoteSays(seen, m1.ledger, source, destination, keys, amount, q);
    var sent;
    ghost var signers := {};
    sent, at, signers := SendTransfer(c, q.roles, source, destination, Remaining(q, keys, amount), QuoteStatements(q, keys, amount));
    ReachedThen(c.owner, c.script, m, m1, c.turn, at);
    Rely.UndisturbedTransitive(c.owner, seen, m1.ledger, at.ledger);
    QuoteStaysTrue(c.owner, seen, m1.ledger, at.ledger, source, destination, keys, amount, q);
    if sent.Err? {
      QuietTransitive(c.owner, c.script, m, m1, c.Now());
      QuietMine(c.owner, c.script, m, c.Now(), source);
      CalmAt(c.script, m.turn, c.turn, m.turn);
      CalmAt(c.script, m.turn + 3, c.turn, m.turn + 3);
      CalmSince(c.script, m.turn, m.turn + 3, c.turn);
      CalmSince(c.script, m.turn + 3, m1.turn, c.turn);
      if Calm(c.script, m.turn, c.turn)
         && MaySend(c.env, m.ledger, m.epoch, c.payer, c.owner, c.limit, key, source, destination, keys, amount) {
        CalmSend(c.env, at, c.payer, c.owner, c.limit, key, source, destination, keys, amount, q);
      }
      r := Err(sent.error);
    } else {
      QuietTransitive(c.owner, c.script, m, m1, LastMet(c.Now(), at));
      QuietMine(c.owner, c.script, m, LastMet(c.Now(), at), source);
      var key := AuditorKey(q.roles);
      r := Ok(Receipt(amount, q.fee, q.epoch, Cipher(key, amount % LO_BITS), Cipher(key, amount / LO_BITS)));
      TransferDone(c.owner, seen, at, c.world.ledger, source, destination, keys, q, amount, signers);
    }
  }

  /** A transfer took place in `at`: it moved `amount`, at the fee in force, out of a balance that really was `available`. */
  ghost predicate Transferred(at: World, after: Ledger, source: Address, destination: Address, keys: WalletKeys,
                              available: nat, amount: nat, receipt: Receipt) {
    && amount <= available && receipt.amount == amount
    && Conservation.Conserved(at.ledger)
    && Sent(at.ledger, after, source, destination, Cipher(keys.ae, available - amount), amount, receipt.fee)
    && at.ledger.accounts[source].conf.value.available == available
    && Fees.CalculateFee(Fees.EpochFee(at.ledger.mint.fees, at.epoch), amount) == Some(receipt.fee)
    && (at.ledger.roles.auditor.Some? ==> Audit(receipt, at.ledger.roles.auditor.value) == Ok(amount))
  }

  lemma TransferDone(owner: Address, l: Ledger, at: World, after: Ledger, source: Address, destination: Address,
                     keys: WalletKeys, q: Quote, amount: nat, signers: set<Address>)
    requires amount <= q.available && q.roles == l.roles && Rely.Undisturbed(owner, l, at.ledger)
    requires Conservation.Conserved(at.ledger)
    requires ExecConfidentialTransfer(at.ledger, source, destination, Remaining(q, keys, amount), signers,
                                      QuoteStatements(q, keys, amount), at.epoch) == Some(after)
    ensures var key := AuditorKey(q.roles);
            Transferred(at, after, source, destination, keys, q.available, amount,
                        Receipt(amount, q.fee, q.epoch, Cipher(key, amount % LO_BITS), Cipher(key, amount / LO_BITS)))
    ensures Mine(at.ledger, owner, source) ==> Mine(after, owner, source)
  {
    hide Conservation.Conserved, ExecConfidentialTransfer, TransferStatements, Audit, Sent, Mine;
    var decryptable := Cipher(keys.ae, q.available - amount);
    TransferMoves(at.ledger, after, source, destination, keys, q.value, q.destinationKey, q.roles,
                  q.available, amount, q.fee, q.rate, signers, at.epoch);
    SentAmount(at.ledger, after, source, destination, decryptable, amount, q.fee, AuditorKey(q.roles), q.epoch);
    SentMine(owner, at.ledger, after, source, destination, decryptable, amount, q.fee);
  }

  lemma StaleStays(owner: Address, l: Ledger, seen: Ledger, a: Address, keys: WalletKeys, amount: nat)
    requires Rely.Undisturbed(owner, l, seen)
    ensures Mine(l, owner, a) && Stale(l, a) ==> Spendable(seen, a, keys, amount) == Err(Invalid)
  {
    if Mine(l, owner, a) && Stale(l, a) {
      MineUndisturbed(l, seen, owner, a);
    }
  }

  lemma NothingSpendable(l: Ledger, a: Address, keys: WalletKeys, amount: nat)
    requires a !in l.accounts
    ensures Spendable(l, a, keys, amount) == Err(NotFound(a))
  {}

  lemma QuoteSays(seen: Ledger, now: Ledger, source: Address, destination: Address, keys: WalletKeys, amount: nat, q: Quote)
    requires QuoteTrue(seen, now, source, destination, keys, amount, q)
    ensures Spendable(seen, source, keys, amount) == Ok(q.available) && amount <= q.available && q.roles == seen.roles
  {}

  lemma SentAmount(at: Ledger, after: Ledger, source: Address, destination: Address, decryptable: Cipher, amount: nat,
                   fee: nat, auditor: Address, epoch: nat)
    requires Sent(at, after, source, destination, decryptable, amount, fee)
    ensures Audit(Receipt(amount, fee, epoch, Cipher(auditor, amount % LO_BITS), Cipher(auditor, amount / LO_BITS)), auditor)
         == Ok(amount)
  {}

  lemma SentMine(owner: Address, at: Ledger, after: Ledger, source: Address, destination: Address, decryptable: Cipher,
                 amount: nat, fee: nat)
    requires Sent(at, after, source, destination, decryptable, amount, fee)
    requires decryptable.value == at.accounts[source].conf.value.available - amount
    ensures Mine(at, owner, source) ==> Mine(after, owner, source)
    ensures Mine(at, owner, destination) ==> Mine(after, owner, destination)
  {}
}
