/** What other parties can do to an owner's accounts without the owner's signature. */
module Rely {
  import opened Types
  import opened Ledger
  import Agent

  /** Credits may arrive and approval may be given; nothing else about the confidential balance moves. */
  ghost predicate ConfRely(before: Option<Conf>, after: Option<Conf>) {
    match before
    case None => after.None?
    case Some(c) =>
      && after.Some?
      && var d := after.value;
      && d.key == c.key && d.available == c.available && d.decryptable == c.decryptable
      && d.expected == c.expected && d.actual == c.actual && d.maxCredits == c.maxCredits
      && (c.approved ==> d.approved)
      && c.credits <= d.credits
      && (c.credits == d.credits ==> d.pendingLo == c.pendingLo && d.pendingHi == c.pendingHi)
  }

  /** Accounts stay, an immutable owner stays the owner, and a configured key stays the key, whoever acts. */
  ghost predicate OwnersFixed(before: Ledger, after: Ledger) {
    forall a | a in before.accounts ::
      && a in after.accounts
      && after.accounts[a].immutableOwner == before.accounts[a].immutableOwner
      && (before.accounts[a].immutableOwner ==> after.accounts[a].owner == before.accounts[a].owner)
      && SameKey(before.accounts[a].conf, after.accounts[a].conf)
  }

  predicate SameKey(before: Option<Conf>, after: Option<Conf>) {
    before.Some? ==> after.Some? && after.value.key == before.value.key
  }

  ghost predicate Undisturbed(owner: Address, before: Ledger, after: Ledger) {
    && after.roles == before.roles
    && OwnersFixed(before, after)
    && forall a | a in before.accounts && before.accounts[a].owner == owner ::
      && a in after.accounts
      && after.accounts[a].owner == owner
      && ConfRely(before.accounts[a].conf, after.accounts[a].conf)
  }

  lemma UndisturbedTransitive(owner: Address, x: Ledger, y: Ledger, z: Ledger)
    requires Undisturbed(owner, x, y) && Undisturbed(owner, y, z)
    ensures Undisturbed(owner, x, z)
  {}

  lemma {:induction false} HarvestUndisturbed(owner: Address, l: Ledger, sources: seq<Address>)
    ensures Undisturbed(owner, l, ExecHarvest(l, sources))
    decreases |sources|
  {
    if sources != [] {
      if sources[0] in l.accounts {
        var s := l.accounts[sources[0]];
        var swept := Put(l, sources[0], s.(withheld := 0)).(mint := l.mint.(withheld := l.mint.withheld + s.withheld));
        HarvestUndisturbed(owner, swept, sources[1..]);
        UndisturbedTransitive(owner, l, swept, ExecHarvest(l, sources));
      } else {
        HarvestUndisturbed(owner, l, sources[1..]);
      }
    }
  }

  /** What `Undisturbed` asks of one account. */
  ghost predicate AccountKept(owner: Address, before: TokenAccount, after: TokenAccount) {
    && after.immutableOwner == before.immutableOwner
    && (before.immutableOwner ==> after.owner == before.owner)
    && SameKey(before.conf, after.conf)
    && (before.owner == owner ==> after.owner == owner && ConfRely(before.conf, after.conf))
  }

  lemma PutUndisturbed(owner: Address, l: Ledger, l': Ledger, a: Address)
    requires l'.roles == l.roles && a in l'.accounts && l'.accounts == l.accounts[a := l'.accounts[a]]
    requires a in l.accounts ==> AccountKept(owner, l.accounts[a], l'.accounts[a])
    ensures Undisturbed(owner, l, l')
  {}

  lemma TransferUndisturbed(owner: Address, l: Ledger, source: Address, destination: Address, authority: Address,
                            amount: nat, fee: nat, viaCpi: bool, epoch: nat)
    ensures var r := ExecTransfer(l, source, destination, authority, amount, fee, viaCpi, epoch);
            r.Some? ==> Undisturbed(owner, l, r.value)
  {
    var r := ExecTransfer(l, source, destination, authority, amount, fee, viaCpi, epoch);
    if r.Some? {
      hide Undisturbed;
      if source == destination {
        PutUndisturbed(owner, l, l, source);
      } else {
        var debited := Put(l, source, r.value.accounts[source]);
        PutUndisturbed(owner, l, debited, source);
        PutUndisturbed(owner, debited, r.value, destination);
        UndisturbedTransitive(owner, l, debited, r.value);
      }
    }
  }

  lemma AdminUndisturbed(owner: Address, l: Ledger, ix: TokenIx, signers: set<Address>, epoch: nat)
    requires owner !in signers
    ensures var r := ExecAdmin(l, ix, signers, epoch); r.Some? ==> Undisturbed(owner, l, r.value)
  {
    var r := ExecAdmin(l, ix, signers, epoch);
    if r.Some? && !ix.SetDefaultState? && !ix.SetTransferFee? {
      hide Undisturbed;
      PutUndisturbed(owner, l, r.value, ix.account);
    }
  }

  lemma ConfidentialTransferUndisturbed(owner: Address, l: Ledger, source: Address, destination: Address, decryptable: Cipher,
                                        signers: set<Address>, proofs: seq<Statement>, epoch: nat)
    requires owner !in signers
    ensures var r := ExecConfidentialTransfer(l, source, destination, decryptable, signers, proofs, epoch);
            r.Some? ==> Undisturbed(owner, l, r.value)
  {
    hide TransferProven, Undisturbed;
    var r := ExecConfidentialTransfer(l, source, destination, decryptable, signers, proofs, epoch);
    if r.Some? {
      var debited := Put(l, source, r.value.accounts[source]);
      PutUndisturbed(owner, l, debited, source);
      PutUndisturbed(owner, debited, r.value, destination);
      UndisturbedTransitive(owner, l, debited, r.value);
    }
  }

  /** A change to the public side of one account, or one its owner signed for. */
  lemma OneAccountUndisturbed(pda: Bytes -> Address, owner: Address, l: Ledger, ix: TokenIx, signers: set<Address>,
                              proofs: seq<Statement>, epoch: nat)
    requires owner !in signers
    requires ix.MintTo? || ix.Burn? || ix.WithdrawFees? || ix.Deposit? || ix.ApplyPending? || ix.Withdraw?
    ensures var r := Exec(pda, l, ix, signers, proofs, epoch); r.Some? ==> Undisturbed(owner, l, r.value)
  {
    hide Undisturbed, DebitProven;
    var r := Exec(pda, l, ix, signers, proofs, epoch);
    if r.Some? {
      PutUndisturbed(owner, l, r.value, if ix.WithdrawFees? then ix.treasury else ix.account);
    }
  }

  /** Any instruction the owner does not sign, the issuer's and the agent's included, leaves the owner undisturbed. */
  lemma OthersDoNotDisturb(pda: Bytes -> Address, owner: Address, l: Ledger, ix: TokenIx, signers: set<Address>,
                           proofs: seq<Statement>, epoch: nat)
    requires owner !in signers
    ensures var r := Exec(pda, l, ix, signers, proofs, epoch); r.Some? ==> Undisturbed(owner, l, r.value)
  {
    hide ExecTransfer, ExecHarvest, ExecAdmin, ExecConfidentialTransfer, ExecMintTo, ExecBurn, ExecWithdrawFees, ExecDeposit,
         ExecApply, ExecWithdraw, Undisturbed, Agent.ProcessInstruction;
    AdminUndisturbed(owner, l, ix, signers, epoch);
    if ix.MintTo? || ix.Burn? || ix.WithdrawFees? || ix.Deposit? || ix.ApplyPending? || ix.Withdraw? {
      OneAccountUndisturbed(pda, owner, l, ix, signers, proofs, epoch);
    } else if ix.Harvest? {
      HarvestUndisturbed(owner, l, ix.sources);
    } else if ix.ConfidentialTransfer? {
      ConfidentialTransferUndisturbed(owner, l, ix.source, ix.destination, ix.decryptable, signers, proofs, epoch);
    } else if ix.Transfer? {
      TransferUndisturbed(owner, l, ix.source, ix.destination, ix.authority, ix.amount, ix.fee, false, epoch);
    } else if ix.ExecuteMandate? {
      var plan := Agent.ProcessInstruction(pda, l.roles.tokenProgram, map[l.roles.mint := Some(l.mint.fees)], epoch,
                                           ix.accounts, ix.data);
      if plan.Pay? {
        TransferUndisturbed(owner, l, plan.source, plan.destination, plan.mandate, plan.amount, plan.fee, true, epoch);
      }
    }
  }
}
