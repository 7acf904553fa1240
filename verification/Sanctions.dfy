/**
 What the issuer can still reach once a holder has moved funds into the confidential balance: nobody but the owner takes
 them out again, whoever signs, and everything taken comes out of the public balance.
 */
module Sanctions {
  import opened Types
  import opened Ledger
  import opened Submit
  import Agent
  import Compliance
  import Conservation
  import Fees
  import Mandates
  import Rely
  import Runs
  import Transfers

  type Call = Mandates.Call

  /** What the account holds confidentially, spendable or still to be applied. */
  function Sheltered(l: Ledger, a: Address): int {
    match Runs.ConfOf(l, a) case None => 0 case Some(c) => c.available + c.Pending()
  }

  function Public(l: Ledger, a: Address): nat {
    if a in l.accounts then l.accounts[a].amount else 0
  }

  /** An account of `owner`, configured for confidential transfers, on a ledger whose books balance. */
  ghost predicate Held(l: Ledger, owner: Address, a: Address) {
    && Conservation.Conserved(l)
    && a in l.accounts && l.accounts[a].owner == owner && l.accounts[a].conf.Some?
  }

  /** The account is still there, and holds no less confidentially: nothing left the available balance, nor the pending one. */
  ghost predicate NoLess(l: Ledger, l': Ledger, owner: Address, a: Address)
    requires Held(l, owner, a)
  {
    && Held(l', owner, a)
    && l'.accounts[a].conf.value.available == l.accounts[a].conf.value.available
    && l'.accounts[a].conf.value.Pending() >= l.accounts[a].conf.value.Pending()
  }

  // ---------------------------------------------------------------- one instruction

  ghost predicate PendingNoLess(l: Ledger, l': Ledger, a: Address)
    requires a in l.accounts && l.accounts[a].conf.Some?
  {
    && a in l'.accounts && l'.accounts[a].conf.Some?
    && l'.accounts[a].conf.value.Pending() >= l.accounts[a].conf.value.Pending()
  }

  lemma TransferLeavesPending(l: Ledger, source: Address, destination: Address, authority: Address, amount: nat, fee: nat,
                              viaCpi: bool, epoch: nat, a: Address)
    requires a in l.accounts && l.accounts[a].conf.Some?
    ensures var r := ExecTransfer(l, source, destination, authority, amount, fee, viaCpi, epoch);
            r.Some? ==> PendingNoLess(l, r.value, a)
  {
    hide ExecTransfer;
    Runs.TransferKeepsConf(l, source, destination, authority, amount, fee, viaCpi, epoch);
  }

  /** What is sent to the account is never less than the fee taken from it. */
  lemma ConfidentialTransferAddsPending(l: Ledger, owner: Address, a: Address, source: Address, destination: Address,
                                        decryptable: Cipher, signers: set<Address>, proofs: seq<Statement>, epoch: nat)
    requires Held(l, owner, a) && owner !in signers
    ensures var r := ExecConfidentialTransfer(l, source, destination, decryptable, signers, proofs, epoch);
            r.Some? ==> PendingNoLess(l, r.value, a)
  {
    var r := ExecConfidentialTransfer(l, source, destination, decryptable, signers, proofs, epoch);
    if r.Some? {
      Conservation.ProvenAmounts(l, l.accounts[source].conf.value, l.accounts[destination].conf.value, proofs, epoch);
      Fees.FeeWithinAmount(Fees.EpochFee(l.mint.fees, epoch), proofs[1].lo + LO_BITS * proofs[1].hi);
      hide TransferProven, Fees.CalculateFee, Fees.EpochFee;
    }
  }

  lemma PendingStays(pda: Bytes -> Address, l: Ledger, call: Call, owner: Address, a: Address)
    requires Held(l, owner, a) && owner !in call.signers
    ensures PendingNoLess(l, Mandates.After(pda, l, call), a)
  {
    hide ExecTransfer, ExecHarvest, ExecConfidentialTransfer, Conservation.Conserved, Agent.ProcessInstruction;
    var ix := call.ix;
    if ix.Harvest? {
      Transfers.HarvestExact(l, ix.sources);
    } else if ix.ConfidentialTransfer? {
      ConfidentialTransferAddsPending(l, owner, a, ix.source, ix.destination, ix.decryptable, call.signers, call.proofs,
                                      call.epoch);
    } else if ix.Transfer? {
      TransferLeavesPending(l, ix.source, ix.destination, ix.authority, ix.amount, ix.fee, false, call.epoch, a);
    } else if ix.ExecuteMandate? {
      var plan := Agent.ProcessInstruction(pda, l.roles.tokenProgram, map[l.roles.mint := Some(l.mint.fees)], call.epoch,
                                           ix.accounts, ix.data);
      if plan.Pay? {
        TransferLeavesPending(l, plan.source, plan.destination, plan.mandate, plan.amount, plan.fee, true, call.epoch, a);
      }
    }
  }

  /** An instruction its owner did not sign takes nothing out of the confidential balance of the account. */
  lemma OutOfReachStep(pda: Bytes -> Address, l: Ledger, call: Call, owner: Address, a: Address)
    requires Held(l, owner, a) && owner !in call.signers
    ensures NoLess(l, Mandates.After(pda, l, call), owner, a)
  {
    hide Exec, Conservation.Conserved;
    Rely.OthersDoNotDisturb(pda, owner, l, call.ix, call.signers, call.proofs, call.epoch);
    Conservation.ExecConserves(pda, l, call.ix, call.signers, call.proofs, call.epoch);
    PendingStays(pda, l, call, owner, a);
    var r := Exec(pda, l, call.ix, call.signers, call.proofs, call.epoch);
    if r.Some? {
      assert Rely.ConfRely(l.accounts[a].conf, r.value.accounts[a].conf);
    }
  }

  // ---------------------------------------------------------------- every run

  /** What the account lost to these calls, and what its public balance was credited with. */
  function Taken(pda: Bytes -> Address, l: Ledger, calls: seq<Call>, a: Address): nat
    decreases |calls|
  {
    if calls == [] then 0
    else
      var l' := Mandates.After(pda, l, calls[0]);
      var fall := Public(l, a) + Sheltered(l, a) - Public(l', a) - Sheltered(l', a);
      (if fall > 0 then fall else 0) + Taken(pda, l', calls[1..], a)
  }

  function Received(pda: Bytes -> Address, l: Ledger, calls: seq<Call>, a: Address): nat
    decreases |calls|
  {
    if calls == [] then 0
    else
      var l' := Mandates.After(pda, l, calls[0]);
      (if Public(l', a) > Public(l, a) then Public(l', a) - Public(l, a) else 0) + Received(pda, l', calls[1..], a)
  }

  /**
   Whatever others do, the issuer and the permanent delegate included, in any order and however often: what is held
   confidentially never falls and stays part of the supply, and all they take from the account, in public or otherwise,
   is what it held in public plus what was paid into its public balance meanwhile.
   */
  lemma {:induction false} OutOfReach(pda: Bytes -> Address, l: Ledger, calls: seq<Call>, owner: Address, a: Address)
    requires Held(l, owner, a) && forall call | call in calls :: owner !in call.signers
    ensures var l' := Mandates.RunCalls(pda, l, calls);
            && NoLess(l, l', owner, a)
            && Sheltered(l, a) <= Sheltered(l', a) <= l'.mint.supply
            && Taken(pda, l, calls, a) + Public(l', a) <= Public(l, a) + Received(pda, l, calls, a)
    decreases |calls|
  {
    if calls == [] {
      StaysInSupply(l, owner, a);
    } else {
      hide Mandates.After, Conservation.Conserved;
      assert calls[0] in calls;
      OutOfReachStep(pda, l, calls[0], owner, a);
      OutOfReach(pda, Mandates.After(pda, l, calls[0]), calls[1..], owner, a);
    }
  }

  lemma StaysInSupply(l: Ledger, owner: Address, a: Address)
    requires Held(l, owner, a)
    ensures 0 <= Sheltered(l, a) <= l.mint.supply
  {
    Conservation.BalanceWithinSupply(l, a);
    assert Conservation.Sane(l.accounts[a]);
  }

  // ---------------------------------------------------------------- the race

  /**
   A deposit that lands before the sanction: from then on seizing or burning more than the public balance is refused,
   however the issuer and everyone else act, what was deposited is still there, and the mint still has supply.
   */
  lemma DepositFirst(pda: Bytes -> Address, l: Ledger, owner: Address, a: Address, deposit: nat, signers: set<Address>,
                     calls: seq<Call>, amount: nat, to: Address, authority: Address, fee: nat, others: set<Address>, epoch: nat)
    requires Held(l, owner, a) && deposit > 0 && ExecDeposit(l, a, deposit, signers).Some?
    requires forall call | call in calls :: owner !in call.signers
    ensures var l1 := ExecDeposit(l, a, deposit, signers).value;
            var l2 := Mandates.RunCalls(pda, l1, calls);
            && Public(l1, a) == Public(l, a) - deposit
            && Sheltered(l2, a) >= Sheltered(l, a) + deposit && l2.mint.supply >= deposit
            && (amount > Public(l, a) - deposit + Received(pda, l1, calls, a) ==>
                  && Exec(pda, l2, Transfer(a, to, authority, amount, fee), others, [], epoch).None?
                  && Exec(pda, l2, Burn(a, authority, amount), others, [], epoch).None?)
  {
    Conservation.DepositConserves(l, a, deposit, signers);
    assert deposit == deposit % LO_BITS + LO_BITS * (deposit / LO_BITS);
    var l1 := ExecDeposit(l, a, deposit, signers).value;
    StaysInSupply(l, owner, a);
    OutOfReach(pda, l1, calls, owner, a);
    hide Mandates.After, Conservation.Conserved;
  }

  /** The seizure of a frozen account by the permanent delegate is accepted for all that is in public and no more. */
  lemma SeizureAcceptedIff(pda: Bytes -> Address, l: Ledger, a: Address, to: Address, delegate: Address, amount: nat, fee: nat,
                           signers: set<Address>, epoch: nat)
    requires a in l.accounts && l.accounts[a].frozen && l.roles.permanentDelegate == Some(delegate)
    requires delegate in signers && l.roles.freeze in signers
    requires Fees.CalculateFee(Fees.EpochFee(l.mint.fees, epoch), amount) == Some(fee) && fee <= amount
    ensures ExecTokens(pda, l, Compliance.RequestIxs(Compliance.Seizing(a, to, delegate, amount, fee, true)), signers, epoch).Some?
            <==> to in l.accounts && (to == a || !l.accounts[to].frozen) && amount <= Public(l, a)
  {
    hide Exec, ExecTransfer, Fees.CalculateFee, Fees.EpochFee;
    var transfer := Transfer(a, to, delegate, amount, fee);
    var thawed := Compliance.Thawed(l, a);
    Compliance.ThawOne(pda, l, a, signers, epoch);
    DelegateMoves(pda, thawed, a, to, delegate, amount, fee, signers, epoch);
    var moved := Exec(pda, thawed, transfer, signers, [], epoch);
    var ixs := [Thaw(a), transfer, Freeze(a)];
    assert ixs[1..] == [transfer, Freeze(a)] && ixs[1..][1..] == [Freeze(a)] && ixs[1..][1..][1..] == [];
    assert ExecTokens(pda, l, ixs, signers, epoch) == ExecTokens(pda, thawed, ixs[1..], signers, epoch);
    if moved.Some? {
      Compliance.FreezeOne(pda, moved.value, a, signers, epoch);
      assert ExecTokens(pda, moved.value, [Freeze(a)], signers, epoch)
          == Exec(pda, moved.value, Freeze(a), signers, [], epoch);
    }
  }

  lemma DelegateMoves(pda: Bytes -> Address, l: Ledger, a: Address, to: Address, delegate: Address, amount: nat, fee: nat,
                      signers: set<Address>, epoch: nat)
    requires a in l.accounts && !l.accounts[a].frozen && l.roles.permanentDelegate == Some(delegate) && delegate in signers
    requires Fees.CalculateFee(Fees.EpochFee(l.mint.fees, epoch), amount) == Some(fee) && fee <= amount
    ensures var r := Exec(pda, l, Transfer(a, to, delegate, amount, fee), signers, [], epoch);
            && (r.Some? <==> to in l.accounts && !l.accounts[to].frozen && amount <= Public(l, a))
            && (r.Some? ==> a in r.value.accounts && !r.value.accounts[a].frozen && r.value.roles == l.roles)
  {}

  /**
   A freeze that lands before the deposit: until the freeze authority signs again, the deposit is refused whoever signs it,
   and the whole public balance stays where the permanent delegate can seize it.
   */
  lemma {:induction false} FreezeFirst(pda: Bytes -> Address, l: Ledger, calls: seq<Call>, a: Address, deposit: nat,
                                       signers: set<Address>)
    requires a in l.accounts && l.accounts[a].frozen
    requires forall call | call in calls :: l.roles.freeze !in call.signers
    ensures var l' := Mandates.RunCalls(pda, l, calls);
            && a in l'.accounts && l'.accounts[a].frozen && l'.roles == l.roles
            && Public(l', a) == Public(l, a) && Sheltered(l', a) == Sheltered(l, a)
            && ExecDeposit(l', a, deposit, signers).None?
    decreases |calls|
  {
    if calls != [] {
      var call := calls[0];
      assert call in calls;
      hide Exec;
      Compliance.OutsideKeeps(pda, l, call.ix, call.signers, call.proofs, call.epoch);
      FreezeFirst(pda, Mandates.After(pda, l, call), calls[1..], a, deposit, signers);
    }
  }
}
