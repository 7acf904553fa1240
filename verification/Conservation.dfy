/** Tokens are neither made nor lost: every unit of supply sits in exactly one balance, through every instruction. */
module Conservation {
  import opened Types
  import opened Ledger
  import Agent
  import Fees

  /** Everything an account holds: spendable, withheld, pending, available and confidentially withheld. */
  function Balance(account: TokenAccount): int {
    account.amount + account.withheld
    + (match account.conf case None => 0 case Some(c) => c.Pending() + c.available + c.withheld)
  }

  ghost function Total(accounts: map<Address, TokenAccount>): int
    decreases accounts.Keys
  {
    if accounts == map[] then 0
    else
      var a :| a in accounts;
      Balance(accounts[a]) + Total(accounts - {a})
  }

  ghost predicate Sane(account: TokenAccount) {
    match account.conf
    case None => true
    case Some(c) => c.Pending() >= 0 && c.available >= 0 && c.withheld >= 0
  }

  /** Supply fits u64 and is exactly what the accounts and the mint hold; no balance is negative. */
  ghost predicate Conserved(l: Ledger) {
    && l.mint.supply < U64
    && Total(l.accounts) + l.mint.withheld == l.mint.supply
    && Fees.ConfigOk(l.mint.fees)
    && forall a | a in l.accounts :: Sane(l.accounts[a])
  }

  // ---------------------------------------------------------------- sums over the accounts

  lemma {:induction false} TotalWithout(accounts: map<Address, TokenAccount>, a: Address)
    requires a in accounts
    ensures Total(accounts) == Balance(accounts[a]) + Total(accounts - {a})
    decreases accounts.Keys
  {
    var b :| b in accounts && Total(accounts) == Balance(accounts[b]) + Total(accounts - {b});
    if a != b {
      TotalWithout(accounts - {b}, a);
      TotalWithout(accounts - {a}, b);
      assert accounts - {b} - {a} == accounts - {a} - {b};
    }
  }

  /** Replacing one account changes the total by the difference of the two balances. */
  lemma TotalPut(accounts: map<Address, TokenAccount>, a: Address, account: TokenAccount)
    ensures Total(accounts[a := account])
         == Total(accounts) - (if a in accounts then Balance(accounts[a]) else 0) + Balance(account)
  {
    TotalWithout(accounts[a := account], a);
    assert accounts[a := account] - {a} == accounts - {a};
    if a in accounts {
      TotalWithout(accounts, a);
    } else {
      assert accounts - {a} == accounts;
    }
  }

  lemma {:induction false} TotalNotNegative(accounts: map<Address, TokenAccount>)
    requires forall a | a in accounts :: Sane(accounts[a])
    ensures Total(accounts) >= 0
    decreases accounts.Keys
  {
    if accounts != map[] {
      var b :| b in accounts && Total(accounts) == Balance(accounts[b]) + Total(accounts - {b});
      assert Sane(accounts[b]) && Balance(accounts[b]) >= 0;
      TotalNotNegative(accounts - {b});
    }
  }

  /** No single account holds more than the supply, so sums of its balances stay in the u64 range. */
  lemma BalanceWithinSupply(l: Ledger, a: Address)
    requires Conserved(l) && a in l.accounts
    ensures 0 <= Balance(l.accounts[a]) <= l.mint.supply < U64
  {
    TotalWithout(l.accounts, a);
    assert Sane(l.accounts[a]);
    TotalNotNegative(l.accounts - {a});
  }

  lemma PutKeeps(l: Ledger, a: Address, account: TokenAccount)
    requires Conserved(l) && a in l.accounts && Sane(account) && Balance(account) == Balance(l.accounts[a])
    ensures Conserved(Put(l, a, account))
  {
    TotalPut(l.accounts, a, account);
  }

  /** Moving tokens between two different accounts. */
  lemma PutTwoKeeps(l: Ledger, a: Address, x: TokenAccount, b: Address, y: TokenAccount)
    requires Conserved(l) && a != b && a in l.accounts && b in l.accounts && Sane(x) && Sane(y)
    requires Balance(x) + Balance(y) == Balance(l.accounts[a]) + Balance(l.accounts[b])
    ensures Conserved(Put(Put(l, a, x), b, y))
  {
    TotalPut(l.accounts, a, x);
    TotalPut(l.accounts[a := x], b, y);
  }

  // ---------------------------------------------------------------- instruction by instruction

  lemma TransferConserves(l: Ledger, source: Address, destination: Address, authority: Address, amount: nat, fee: nat,
                          viaCpi: bool, epoch: nat)
    requires Conserved(l)
    ensures var r := ExecTransfer(l, source, destination, authority, amount, fee, viaCpi, epoch);
            r.Some? ==> Conserved(r.value)
  {
    var r := ExecTransfer(l, source, destination, authority, amount, fee, viaCpi, epoch);
    if r.Some? && source != destination {
      assert Sane(l.accounts[source]) && Sane(l.accounts[destination]);
      PutTwoKeeps(l, source, r.value.accounts[source], destination, r.value.accounts[destination]);
    }
  }

  lemma {:induction false} HarvestConserves(l: Ledger, sources: seq<Address>)
    requires Conserved(l)
    ensures Conserved(ExecHarvest(l, sources))
    decreases |sources|
  {
    if sources != [] {
      if sources[0] in l.accounts {
        var s := l.accounts[sources[0]];
        assert Sane(s);
        TotalPut(l.accounts, sources[0], s.(withheld := 0));
        var swept := Put(l, sources[0], s.(withheld := 0)).(mint := l.mint.(withheld := l.mint.withheld + s.withheld));
        assert Conserved(swept);
        HarvestConserves(swept, sources[1..]);
      } else {
        HarvestConserves(l, sources[1..]);
      }
    }
  }

  lemma DepositConserves(l: Ledger, a: Address, amount: nat, signers: set<Address>)
    requires Conserved(l)
    ensures var r := ExecDeposit(l, a, amount, signers); r.Some? ==> Conserved(r.value)
  {
    var r := ExecDeposit(l, a, amount, signers);
    if r.Some? {
      assert Sane(l.accounts[a]);
      assert amount == amount % LO_BITS + LO_BITS * (amount / LO_BITS);
      PutKeeps(l, a, r.value.accounts[a]);
    }
  }

  lemma ConfidentialTransferConserves(l: Ledger, source: Address, destination: Address, decryptable: Cipher,
                                      signers: set<Address>, proofs: seq<Statement>, epoch: nat)
    requires Conserved(l)
    ensures var r := ExecConfidentialTransfer(l, source, destination, decryptable, signers, proofs, epoch);
            r.Some? ==> Conserved(r.value)
  {
    var r := ExecConfidentialTransfer(l, source, destination, decryptable, signers, proofs, epoch);
    if r.Some? {
      assert Sane(l.accounts[source]) && Sane(l.accounts[destination]);
      var c := l.accounts[source].conf.value;
      ProvenAmounts(l, c, l.accounts[destination].conf.value, proofs, epoch);
      var amount := proofs[1].lo + LO_BITS * proofs[1].hi;
      BalanceWithinSupply(l, source);
      Fees.FeeWithinAmount(Fees.EpochFee(l.mint.fees, epoch), amount);
      if source == destination {
        PutKeeps(l, source, r.value.accounts[source]);
      } else {
        PutTwoKeeps(l, source, r.value.accounts[source], destination, r.value.accounts[destination]);
      }
    }
  }

  /** What the five proofs say about the numbers: halves and remainder in range, and the fee that of the epoch. */
  lemma ProvenAmounts(l: Ledger, s: Conf, d: Conf, proofs: seq<Statement>, epoch: nat)
    requires TransferProven(l, s, d, proofs, epoch)
    ensures 0 <= proofs[1].lo < LO_BITS && 0 <= proofs[1].hi < U32
    ensures 0 <= proofs[3].lo < LO_BITS && 0 <= proofs[3].hi < U32
    ensures 0 <= s.available - proofs[1].lo - LO_BITS * proofs[1].hi < U64
    ensures Fees.CalculateFee(Fees.EpochFee(l.mint.fees, epoch), proofs[1].lo + LO_BITS * proofs[1].hi)
         == Some(proofs[3].lo + LO_BITS * proofs[3].hi)
  {
    assert Holds(proofs[4]) && Holds(proofs[2]) && Holds(proofs[0]);
    var v := proofs[4].values;
    assert v[0] in v && v[1] in v && v[2] in v && v[3] in v && v[4] in v;
  }

  lemma WithdrawConserves(l: Ledger, a: Address, amount: nat, decryptable: Cipher, signers: set<Address>, proofs: seq<Statement>)
    requires Conserved(l)
    ensures var r := ExecWithdraw(l, a, amount, decryptable, signers, proofs); r.Some? ==> Conserved(r.value)
  {
    var r := ExecWithdraw(l, a, amount, decryptable, signers, proofs);
    if r.Some? {
      assert Sane(l.accounts[a]);
      assert proofs[1].values[0] in proofs[1].values;
      PutKeeps(l, a, r.value.accounts[a]);
    }
  }

  lemma AdminConserves(l: Ledger, ix: TokenIx, signers: set<Address>, epoch: nat)
    requires Conserved(l)
    ensures var r := ExecAdmin(l, ix, signers, epoch); r.Some? ==> Conserved(r.value)
  {
    var r := ExecAdmin(l, ix, signers, epoch);
    if r.Some? {
      if ix.Open? {
        TotalPut(l.accounts, ix.account, r.value.accounts[ix.account]);
      } else if !ix.SetDefaultState? && !ix.SetTransferFee? {
        var a := ix.account;
        assert Sane(l.accounts[a]);
        PutKeeps(l, a, r.value.accounts[a]);
      }
    }
  }

  /** Every instruction the token program accepts, from anyone, keeps the books balanced. */
  lemma ExecConserves(pda: Bytes -> Address, l: Ledger, ix: TokenIx, signers: set<Address>, proofs: seq<Statement>, epoch: nat)
    requires Conserved(l)
    ensures var r := Exec(pda, l, ix, signers, proofs, epoch); r.Some? ==> Conserved(r.value) && r.value.roles == l.roles
  {
    hide ExecTransfer, ExecHarvest, ExecDeposit, ExecConfidentialTransfer, ExecWithdraw, ExecAdmin;
    var r := Exec(pda, l, ix, signers, proofs, epoch);
    ExecKeepsRoles(pda, l, ix, signers, proofs, epoch);
    if r.Some? {
      if ix.MintTo? || ix.Burn? || ix.ApplyPending? {
        assert Sane(l.accounts[ix.account]);
        TotalPut(l.accounts, ix.account, r.value.accounts[ix.account]);
      } else if ix.WithdrawFees? {
        assert Sane(l.accounts[ix.treasury]);
        TotalPut(l.accounts, ix.treasury, r.value.accounts[ix.treasury]);
      } else if ix.Transfer? {
        TransferConserves(l, ix.source, ix.destination, ix.authority, ix.amount, ix.fee, false, epoch);
      } else if ix.Harvest? {
        HarvestConserves(l, ix.sources);
      } else if ix.Deposit? {
        DepositConserves(l, ix.account, ix.amount, signers);
      } else if ix.ConfidentialTransfer? {
        ConfidentialTransferConserves(l, ix.source, ix.destination, ix.decryptable, signers, proofs, epoch);
      } else if ix.Withdraw? {
        WithdrawConserves(l, ix.account, ix.amount, ix.decryptable, signers, proofs);
      } else if ix.ExecuteMandate? {
        var plan := Agent.ProcessInstruction(pda, l.roles.tokenProgram, map[l.roles.mint := Some(l.mint.fees)], epoch,
                                             ix.accounts, ix.data);
        TransferConserves(l, plan.source, plan.destination, plan.mandate, plan.amount, plan.fee, true, epoch);
      } else {
        AdminConserves(l, ix, signers, epoch);
      }
    }
  }

  lemma ExecKeepsRoles(pda: Bytes -> Address, l: Ledger, ix: TokenIx, signers: set<Address>, proofs: seq<Statement>, epoch: nat)
    ensures var r := Exec(pda, l, ix, signers, proofs, epoch); r.Some? ==> r.value.roles == l.roles
  {
    if ix.Harvest? {
      HarvestKeepsRoles(l, ix.sources);
    }
  }

  lemma {:induction false} HarvestKeepsRoles(l: Ledger, sources: seq<Address>)
    ensures ExecHarvest(l, sources).roles == l.roles
    decreases |sources|
  {
    if sources != [] {
      if sources[0] in l.accounts {
        var s := l.accounts[sources[0]];
        HarvestKeepsRoles(Put(l, sources[0], s.(withheld := 0)).(mint := l.mint.(withheld := l.mint.withheld + s.withheld)), sources[1..]);
      } else {
        HarvestKeepsRoles(l, sources[1..]);
      }
    }
  }
}
