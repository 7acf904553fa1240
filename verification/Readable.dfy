/** When the owner of an account can use it: in every reachable state, what can be spent is what is there. */
module Readable {
  import opened Types
  import opened Ledger
  import opened Runs
  import opened Wallet
  import Agent
  import Conservation
  import Pending
  import Transfers

  /** The account is under these keys, and so is the owner's copy of its balance. */
  predicate Keyed(conf: Option<Conf>, keys: WalletKeys) {
    conf.Some? ==> conf.value.key == keys.elgamal && conf.value.decryptable.key == keys.ae
  }

  /** Its owner reads and configures the account with these keys only. */
  predicate UsesKeys(step: Step, a: Address, keys: WalletKeys) {
    match step
    case Background(ix, _) => ix.Configure? && ix.account == a ==> ix.key == keys.elgamal && ix.zero.key == keys.ae
    case ReadApply(b, k) => b == a ==> k == keys
    case ReadTransfer(b, k, _, _, _, _, _) => b == a ==> k == keys
    case ReadWithdraw(b, k, _) => b == a ==> k == keys
    case _ => true
  }

  /** And so is the balance that a flow in flight will leave. */
  ghost predicate KeyedState(s: State, a: Address, keys: WalletKeys) {
    && Keyed(ConfOf(s.ledger, a), keys)
    && (a in s.flights ==> s.flights[a].claim.key == keys.ae)
  }

  // ---------------------------------------------------------------- every step

  /** Only its configuration makes an account confidential, under the keys it names. */
  lemma ConfiguredBy(pda: Bytes -> Address, l: Ledger, ix: TokenIx, signers: set<Address>, epoch: nat, a: Address)
    requires InBackground(ix) && ConfOf(l, a).None?
    ensures var r := Exec(pda, l, ix, signers, [], epoch);
            r.Some? && ConfOf(r.value, a).Some? ==>
              && ix.Configure? && ix.account == a
              && ConfOf(r.value, a).value.key == ix.key && ConfOf(r.value, a).value.decryptable == ix.zero
  {
    hide ExecTransfer, ExecHarvest;
    if ix.Harvest? {
      Transfers.HarvestExact(l, ix.sources);
    } else if ix.Transfer? {
      TransferKeepsConf(l, ix.source, ix.destination, ix.authority, ix.amount, ix.fee, false, epoch);
    } else if ix.ExecuteMandate? {
      var plan := Agent.ProcessInstruction(pda, l.roles.tokenProgram, map[l.roles.mint := Some(l.mint.fees)], epoch,
                                           ix.accounts, ix.data);
      if plan.Pay? {
        TransferKeepsConf(l, plan.source, plan.destination, plan.mandate, plan.amount, plan.fee, true, epoch);
      }
    }
  }

  /** A landing keeps every key, and leaves its own account with the copy it claimed. */
  lemma LandKeepsKeys(l: Ledger, a: Address, f: Flight, signers: set<Address>, epoch: nat, b: Address)
    ensures var r := ExecFlight(l, a, f, signers, epoch);
            r.Some? ==> match ConfOf(l, b)
                        case None => ConfOf(r.value, b).None?
                        case Some(c) => && ConfOf(r.value, b).Some? && ConfOf(r.value, b).value.key == c.key
                                        && ConfOf(r.value, b).value.decryptable == (if a == b then f.claim else c.decryptable)
  {
    hide TransferProven, DebitProven;
  }

  lemma StepKeepsKeys(pda: Bytes -> Address, s: State, step: Step, a: Address, keys: WalletKeys)
    requires KeyedState(s, a, keys) && UsesKeys(step, a, keys)
    ensures KeyedState(Next(pda, s, step), a, keys)
  {
    hide Exec, ExecFlight, OnlyCredits;
    match step
    case Background(ix, signers) =>
      if InBackground(ix) {
        ConfMovesHere(pda, s.ledger, ix, signers, s.epoch, a);
        if ConfOf(s.ledger, a).None? {
          ConfiguredBy(pda, s.ledger, ix, signers, s.epoch, a);
        }
      }
    case Land(b, signers) =>
      if b in s.flights {
        LandKeepsKeys(s.ledger, b, s.flights[b], signers, s.epoch, a);
      }
    case Drop(_) =>
    case NextEpoch =>
    case ReadApply(_, _) =>
    case ReadTransfer(_, _, _, _, _, _, _) =>
    case ReadWithdraw(_, _, _) =>
  }

  lemma ConfMovesHere(pda: Bytes -> Address, l: Ledger, ix: TokenIx, signers: set<Address>, epoch: nat, a: Address)
    requires InBackground(ix)
    ensures var r := Exec(pda, l, ix, signers, [], epoch);
            r.Some? ==> ConfMoves(ConfOf(l, a), ConfOf(r.value, a), DepositOf(ix, a))
  {
    hide Exec;
    BackgroundOnlyCredits(pda, l, ix, signers, epoch);
  }

  lemma {:induction false} RunKeepsKeys(pda: Bytes -> Address, s: State, steps: seq<Step>, a: Address, keys: WalletKeys)
    requires KeyedState(s, a, keys) && forall step | step in steps :: UsesKeys(step, a, keys)
    ensures KeyedState(Run(pda, s, steps), a, keys)
    decreases |steps|
  {
    if steps != [] {
      hide Next, KeyedState, UsesKeys;
      assert steps[0] in steps;
      StepKeepsKeys(pda, s, steps[0], a, keys);
      RunKeepsKeys(pda, Next(pda, s, steps[0]), steps[1..], a, keys);
    }
  }

  // ---------------------------------------------------------------- every state

  /**
   In every reachable state of an account used with one pair of keys: any amount up to what is available can be spent, and
   no more, unless the account is stale; and what is pending can be applied, unless the account is stale or the fees taken
   off the credits outweigh them in the low half, or the rest is too much to decrypt.
   */
  lemma UsableInEveryState(pda: Bytes -> Address, l: Ledger, epoch: nat, steps: seq<Step>, a: Address, keys: WalletKeys,
                           amount: nat)
    requires Untouched(l) && Keyed(ConfOf(l, a), keys) && forall step | step in steps :: UsesKeys(step, a, keys)
    ensures var s, xs := Run(pda, State(l, epoch, map[]), steps), Pending.Unapplied(pda, State(l, epoch, map[]), steps, a, []);
            a in s.ledger.accounts && s.ledger.accounts[a].conf.Some? ==>
              && (Spendable(s.ledger, a, keys, amount).Ok?
                  <==> !Stale(s.ledger, a) && amount <= s.ledger.accounts[a].conf.value.available)
              && (PrepareApply(s.ledger, a, keys).Ok?
                  <==> && !Stale(s.ledger, a) && Pending.LowFees(xs) <= Pending.LowAmounts(xs)
                       && Pending.Net(xs) - (Pending.LowAmounts(xs) - Pending.LowFees(xs)) < MAX_CONFIDENTIAL)
  {
    hide Next, Conservation.Conserved, Pending.Unapplied, Pending.LowFees, Pending.LowAmounts, Pending.Net, PrepareApply, Spendable;
    var start := State(l, epoch, map[]);
    var s, xs := Run(pda, start, steps), Pending.Unapplied(pda, start, steps, a, []);
    RunKeepsKeys(pda, start, steps, a, keys);
    Agreement(pda, l, epoch, steps, a, keys, amount);
    Pending.PendingDecrypts(pda, l, epoch, steps, a, keys);
    if a in s.ledger.accounts && s.ledger.accounts[a].conf.Some? {
      SpendableIff(s.ledger, a, keys, amount);
      PrepareApplyIff(s.ledger, a, keys);
      var c := s.ledger.accounts[a].conf.value;
      DecryptLoHiExact(keys.elgamal, Cipher(c.key, c.pendingLo), Cipher(c.key, c.pendingHi));
    }
  }
}
