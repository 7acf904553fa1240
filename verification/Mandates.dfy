/**
 What an allowance given to a mandate address is good for: payments of the fixed amount to the fixed
 destination, and no more of them than the allowance covers, whatever else happens meanwhile.
 */
module Mandates {
  import opened Types
  import opened Ledger
  import opened Agent
  import Fees
  import Transfers

  /** Any instruction from anyone; a failed one leaves no trace. */
  datatype Call = Call(ix: TokenIx, signers: set<Address>, proofs: seq<Statement>, epoch: nat)

  /** The mandate of a source account, a destination account and an amount. */
  datatype Mandate = Mandate(source: Address, destination: Address, amount: nat)

  function AddressOf(pda: Bytes -> Address, m: Mandate): Address {
    MandateAddress(pda, m.source, m.destination, m.amount)
  }

  function After(pda: Bytes -> Address, l: Ledger, call: Call): Ledger {
    match Exec(pda, l, call.ix, call.signers, call.proofs, call.epoch) case None => l case Some(l') => l'
  }

  function RunCalls(pda: Bytes -> Address, l: Ledger, calls: seq<Call>): Ledger
    decreases |calls|
  {
    if calls == [] then l else RunCalls(pda, After(pda, l, calls[0]), calls[1..])
  }

  /** The program pays under this mandate. */
  predicate Pays(pda: Bytes -> Address, l: Ledger, call: Call, m: Mandate) {
    && call.ix.ExecuteMandate? && |call.ix.accounts| >= 5 && call.ix.accounts[3] == AddressOf(pda, m)
    && Exec(pda, l, call.ix, call.signers, call.proofs, call.epoch).Some?
  }

  function Payments(pda: Bytes -> Address, l: Ledger, calls: seq<Call>, m: Mandate): nat
    decreases |calls|
  {
    if calls == [] then 0
    else (if Pays(pda, l, calls[0], m) then 1 else 0) + Payments(pda, After(pda, l, calls[0]), calls[1..], m)
  }

  /**
   Nobody holds a key of a mandate address, so it signs nothing; addresses are 32 bytes; and the owner gives
   no other approval and does not give the account itself to the mandate address.
   */
  ghost predicate Admissible(pda: Bytes -> Address, call: Call, m: Mandate) {
    var self := AddressOf(pda, m);
    && self !in call.signers
    && (call.ix.ExecuteMandate? ==> forall a | a in call.ix.accounts :: IsKey(a))
    && !(call.ix.Approve? && call.ix.account == m.source)
    && !(call.ix.SetOwner? && call.ix.account == m.source && call.ix.owner == self)
  }

  /** The mandate address has no power over the source other than what it was approved for. */
  ghost predicate Standing(pda: Bytes -> Address, l: Ledger, m: Mandate) {
    && m.source in l.accounts && l.accounts[m.source].owner != AddressOf(pda, m)
    && l.roles.permanentDelegate != Some(AddressOf(pda, m))
  }

  ghost predicate WellFormed(pda: Bytes -> Address, m: Mandate) {
    CollisionFree(pda) && IsKey(m.source) && IsKey(m.destination) && m.amount < U64
  }

  /** What is left of the allowance; nothing once it is used up or revoked. */
  function Allowance(pda: Bytes -> Address, l: Ledger, m: Mandate): nat
    requires m.source in l.accounts
  {
    var account := l.accounts[m.source];
    if account.delegate == Some(AddressOf(pda, m)) then account.delegated else 0
  }

  // ---------------------------------------------------------------- one payment

  /** The amount that instruction data names fits u64. */
  lemma UnpackedAmount(data: Bytes)
    ensures Unpack(data).Some? ==> Unpack(data).value < U64
  {
    if Unpack(data).Some? {
      LeValueRoundTrip(data[1..]);
      Pow256Of8();
    }
  }

  /** Whatever accounts the caller passes, paying as this mandate address means paying this mandate. */
  lemma PaysItsMandate(pda: Bytes -> Address, l: Ledger, call: Call, m: Mandate)
    requires WellFormed(pda, m) && Admissible(pda, call, m) && Pays(pda, l, call, m)
    ensures call.ix.accounts[..5] == [m.source, l.roles.mint, m.destination, AddressOf(pda, m), l.roles.tokenProgram]
    ensures Unpack(call.ix.data) == Some(m.amount)
    ensures var fee := Fees.CalculateFee(Fees.EpochFee(l.mint.fees, call.epoch), m.amount);
            fee.Some? && ExecTransfer(l, m.source, m.destination, AddressOf(pda, m), m.amount, fee.value, true, call.epoch)
                         == Some(After(pda, l, call))
  {
    hide ExecTransfer, MandateAddress;
    var accounts := call.ix.accounts;
    assert accounts[0] in accounts && accounts[2] in accounts;
    UnpackedAmount(call.ix.data);
    var plan := ProcessInstruction(pda, l.roles.tokenProgram, map[l.roles.mint := Some(l.mint.fees)], call.epoch, accounts,
                                   call.ix.data);
    assert plan.Pay?;
    MandateAddressBinds(pda, accounts[0], accounts[2], plan.amount, m.source, m.destination, m.amount);
    assert ExecTransfer(l, m.source, m.destination, AddressOf(pda, m), m.amount, plan.fee, true, call.epoch)
           == Some(After(pda, l, call));
  }

  /** What a transfer by the delegate takes, and where it goes. */
  ghost predicate DelegatePaid(l: Ledger, l': Ledger, source: Address, destination: Address, delegate: Address,
                               amount: nat, fee: nat) {
    && source in l.accounts && source in l'.accounts && destination in l.accounts && destination in l'.accounts
    && var s, s', d, d' := l.accounts[source], l'.accounts[source], l.accounts[destination], l'.accounts[destination];
    && fee <= amount <= s.amount && s.delegate == Some(delegate) && amount <= s.delegated
    && l'.roles == l.roles
    && (source == destination ==> l' == l)
    && (source != destination ==>
          && s'.amount + amount == s.amount && s'.owner == s.owner
          && (if s.delegated == amount then s'.delegate == None
              else s'.delegate == Some(delegate) && s'.delegated == s.delegated - amount)
          && d'.amount + fee == d.amount + amount && d'.withheld == d.withheld + fee)
    && forall a | a in l.accounts && a != source && a != destination :: a in l'.accounts && l'.accounts[a] == l.accounts[a]
  }

  lemma DelegateTransfer(l: Ledger, source: Address, destination: Address, delegate: Address, amount: nat, fee: nat, epoch: nat)
    requires source in l.accounts
    requires l.accounts[source].owner != delegate && l.roles.permanentDelegate != Some(delegate)
    ensures var r := ExecTransfer(l, source, destination, delegate, amount, fee, true, epoch);
            r.Some? ==> DelegatePaid(l, r.value, source, destination, delegate, amount, fee)
  {}

  /**
   A payment takes exactly the amount out of the source and its allowance, and the destination receives all of
   it, spendable or withheld as the fee of the epoch; no other account changes. Paying oneself changes nothing.
   */
  lemma PaymentEffect(pda: Bytes -> Address, l: Ledger, call: Call, m: Mandate)
    requires WellFormed(pda, m) && Admissible(pda, call, m) && Standing(pda, l, m) && Pays(pda, l, call, m)
    ensures var l', fee := After(pda, l, call), Fees.CalculateFee(Fees.EpochFee(l.mint.fees, call.epoch), m.amount);
            && fee.Some? && DelegatePaid(l, l', m.source, m.destination, AddressOf(pda, m), m.amount, fee.value)
            && Standing(pda, l', m)
            && Allowance(pda, l, m) == Allowance(pda, l', m) + (if m.source == m.destination then 0 else m.amount)
  {
    hide Exec, Pays, WellFormed, Admissible, MandateAddress, After;
    PaysItsMandate(pda, l, call, m);
    var fee := Fees.CalculateFee(Fees.EpochFee(l.mint.fees, call.epoch), m.amount);
    DelegateTransfer(l, m.source, m.destination, AddressOf(pda, m), m.amount, fee.value, call.epoch);
  }

  // ---------------------------------------------------------------- everything else

  /** What an instruction not paid by `self` leaves of its power over an account: the same or less. */
  ghost predicate NoMorePower(l: Ledger, l': Ledger, source: Address, self: Address) {
    && l'.roles == l.roles && source in l.accounts && source in l'.accounts
    && var s, s' := l.accounts[source], l'.accounts[source];
    && s'.owner != self
    && (s'.delegate == Some(self) ==> s.delegate == Some(self) && s'.delegated <= s.delegated)
  }

  lemma TransferNoMorePower(l: Ledger, from: Address, to: Address, authority: Address, amount: nat, fee: nat, viaCpi: bool,
                            epoch: nat, source: Address, self: Address)
    requires source in l.accounts && l.accounts[source].owner != self && authority != self
    ensures var r := ExecTransfer(l, from, to, authority, amount, fee, viaCpi, epoch);
            r.Some? ==> NoMorePower(l, r.value, source, self)
  {}

  lemma AdminNoMorePower(l: Ledger, ix: TokenIx, signers: set<Address>, epoch: nat, source: Address, self: Address)
    requires source in l.accounts && l.accounts[source].owner != self
    requires !(ix.Approve? && ix.account == source) && !(ix.SetOwner? && ix.account == source && ix.owner == self)
    ensures var r := ExecAdmin(l, ix, signers, epoch); r.Some? ==> NoMorePower(l, r.value, source, self)
  {}

  lemma ConfidentialNoMorePower(l: Ledger, ix: TokenIx, signers: set<Address>, proofs: seq<Statement>, epoch: nat,
                                source: Address, self: Address)
    requires source in l.accounts && l.accounts[source].owner != self && ix.ConfidentialTransfer?
    ensures var r := ExecConfidentialTransfer(l, ix.source, ix.destination, ix.decryptable, signers, proofs, epoch);
            r.Some? ==> NoMorePower(l, r.value, source, self)
  {
    hide TransferProven;
  }

  lemma BurnNoMorePower(l: Ledger, a: Address, authority: Address, amount: nat, source: Address, self: Address)
    requires source in l.accounts && l.accounts[source].owner != self && authority != self
    ensures var r := ExecBurn(l, a, authority, amount); r.Some? ==> NoMorePower(l, r.value, source, self)
  {}

  /** Other transfers, toggles, fee changes, burns or revocations never add to the allowance. */
  lemma OthersNoMorePower(pda: Bytes -> Address, l: Ledger, call: Call, m: Mandate)
    requires Standing(pda, l, m) && Admissible(pda, call, m) && !Pays(pda, l, call, m)
    ensures NoMorePower(l, After(pda, l, call), m.source, AddressOf(pda, m))
  {
    hide ExecTransfer, ExecHarvest, ExecAdmin, ExecConfidentialTransfer, ExecBurn, MandateAddress;
    var ix, self := call.ix, AddressOf(pda, m);
    AdminNoMorePower(l, ix, call.signers, call.epoch, m.source, self);
    if Exec(pda, l, ix, call.signers, call.proofs, call.epoch).Some? {
      if ix.Harvest? {
        Transfers.HarvestExact(l, ix.sources);
      } else if ix.ConfidentialTransfer? {
        ConfidentialNoMorePower(l, ix, call.signers, call.proofs, call.epoch, m.source, self);
      } else if ix.Burn? {
        BurnNoMorePower(l, ix.account, ix.authority, ix.amount, m.source, self);
      } else if ix.Transfer? {
        TransferNoMorePower(l, ix.source, ix.destination, ix.authority, ix.amount, ix.fee, false, call.epoch, m.source, self);
      } else if ix.ExecuteMandate? {
        var plan := ProcessInstruction(pda, l.roles.tokenProgram, map[l.roles.mint := Some(l.mint.fees)], call.epoch,
                                       ix.accounts, ix.data);
        TransferNoMorePower(l, plan.source, plan.destination, plan.mandate, plan.amount, plan.fee, true, call.epoch, m.source,
                            self);
      }
    }
  }

  // ---------------------------------------------------------------- every run

  /** What the payments of a run took out of the source account. */
  function Drawn(pda: Bytes -> Address, l: Ledger, calls: seq<Call>, m: Mandate): int
    decreases |calls|
  {
    if calls == [] then 0
    else
      var l' := After(pda, l, calls[0]);
      (if Pays(pda, l, calls[0], m) then AmountOf(l, m.source) - AmountOf(l', m.source) else 0)
      + Drawn(pda, l', calls[1..], m)
  }

  /** What the payments of a run brought the destination account, spendable and withheld. */
  function Arrived(pda: Bytes -> Address, l: Ledger, calls: seq<Call>, m: Mandate): int
    decreases |calls|
  {
    if calls == [] then 0
    else
      var l' := After(pda, l, calls[0]);
      (if Pays(pda, l, calls[0], m)
       then AmountOf(l', m.destination) + Transfers.WithheldOf(l'.accounts, m.destination)
            - AmountOf(l, m.destination) - Transfers.WithheldOf(l.accounts, m.destination)
       else 0)
      + Arrived(pda, l', calls[1..], m)
  }

  function AmountOf(l: Ledger, a: Address): nat {
    if a in l.accounts then l.accounts[a].amount else 0
  }

  lemma {:induction false} AllowanceCovers(pda: Bytes -> Address, l: Ledger, calls: seq<Call>, m: Mandate)
    requires WellFormed(pda, m) && Standing(pda, l, m)
    requires forall call | call in calls :: Admissible(pda, call, m)
    ensures var k, l' := Payments(pda, l, calls, m), RunCalls(pda, l, calls);
            && Standing(pda, l', m)
            && (if m.source == m.destination then 0 else Sum(k, m.amount)) + Allowance(pda, l', m) <= Allowance(pda, l, m)
    decreases |calls|
  {
    hide Exec, Pays, WellFormed, Admissible, MandateAddress, After, Standing, Allowance, AmountOf, Transfers.WithheldOf, Sum;
    OneMorePayment(0, m.amount);
    if calls != [] {
      assert calls[0] in calls;
      var l' := After(pda, l, calls[0]);
      StepBound(pda, l, calls[0], m);
      AllowanceCovers(pda, l', calls[1..], m);
      OneMorePayment(Payments(pda, l', calls[1..], m), m.amount);
    }
  }

  lemma {:induction false} PaymentsMove(pda: Bytes -> Address, l: Ledger, calls: seq<Call>, m: Mandate)
    requires WellFormed(pda, m) && Standing(pda, l, m)
    requires forall call | call in calls :: Admissible(pda, call, m)
    ensures Drawn(pda, l, calls, m) == (if m.source == m.destination then 0 else Sum(Payments(pda, l, calls, m), m.amount))
    ensures m.source != m.destination ==> Arrived(pda, l, calls, m) == Drawn(pda, l, calls, m)
    decreases |calls|
  {
    hide Exec, Pays, WellFormed, Admissible, MandateAddress, After, Standing, Allowance, AmountOf, Transfers.WithheldOf, Sum;
    OneMorePayment(0, m.amount);
    if calls != [] {
      assert calls[0] in calls;
      var l' := After(pda, l, calls[0]);
      StepBound(pda, l, calls[0], m);
      PaymentsMove(pda, l', calls[1..], m);
      OneMorePayment(Payments(pda, l', calls[1..], m), m.amount);
    }
  }

  /**
   Over any run until the owner approves again, the program pays in whole amounts, all of them to the destination,
   and never more than the allowance: `k` payments move `k * amount`, and whatever is left covers the rest. A
   mandate of an account to itself moves nothing.
   */
  lemma MandateBound(pda: Bytes -> Address, l: Ledger, calls: seq<Call>, m: Mandate)
    requires WellFormed(pda, m) && Standing(pda, l, m)
    requires forall call | call in calls :: Admissible(pda, call, m)
    ensures var k, l' := Payments(pda, l, calls, m), RunCalls(pda, l, calls);
            && Standing(pda, l', m)
            && Drawn(pda, l, calls, m) == (if m.source == m.destination then 0 else k * m.amount)
            && (m.source != m.destination ==> Arrived(pda, l, calls, m) == Drawn(pda, l, calls, m))
            && Drawn(pda, l, calls, m) + Allowance(pda, l', m) <= Allowance(pda, l, m)
  {
    hide WellFormed, Admissible, Standing, Allowance, Drawn, Arrived, Payments, RunCalls;
    AllowanceCovers(pda, l, calls, m);
    PaymentsMove(pda, l, calls, m);
  }

  /** From the owner's approval on: whatever the calls after it, the payments come to no more than the amount approved. */
  lemma ApprovalBound(pda: Bytes -> Address, l: Ledger, approval: Call, calls: seq<Call>, m: Mandate, approved: nat)
    requires WellFormed(pda, m) && Standing(pda, l, m) && m.source != m.destination
    requires approval.ix == Approve(m.source, AddressOf(pda, m), approved)
    requires Exec(pda, l, approval.ix, approval.signers, approval.proofs, approval.epoch).Some?
    requires forall call | call in calls :: Admissible(pda, call, m)
    ensures var l' := After(pda, l, approval);
            && l.accounts[m.source].owner in approval.signers
            && Standing(pda, l', m) && Allowance(pda, l', m) == approved
            && Payments(pda, l', calls, m) * m.amount <= approved
            && Drawn(pda, l', calls, m) <= approved
  {
    hide WellFormed, Admissible, MandateAddress;
    var l' := After(pda, l, approval);
    assert Standing(pda, l', m) && Allowance(pda, l', m) == approved;
    hide Standing, Allowance, Drawn, Arrived, Payments, RunCalls, After;
    MandateBound(pda, l', calls, m);
  }

  /** What `k` payments come to. */
  function Sum(k: nat, amount: nat): nat {
    k * amount
  }

  lemma OneMorePayment(k: nat, amount: nat)
    ensures Sum(0, amount) == 0 && Sum(k + 1, amount) == Sum(k, amount) + amount
  {}

  lemma StepBound(pda: Bytes -> Address, l: Ledger, call: Call, m: Mandate)
    requires WellFormed(pda, m) && Standing(pda, l, m) && Admissible(pda, call, m)
    ensures var l', pays, self := After(pda, l, call), Pays(pda, l, call, m), m.source == m.destination;
            && Standing(pda, l', m)
            && Allowance(pda, l', m) + (if pays && !self then m.amount else 0) <= Allowance(pda, l, m)
            && (pays ==> && AmountOf(l, m.source) - AmountOf(l', m.source) == (if self then 0 else m.amount)
                         && (!self ==>
                               AmountOf(l', m.destination) + Transfers.WithheldOf(l'.accounts, m.destination)
                               - AmountOf(l, m.destination) - Transfers.WithheldOf(l.accounts, m.destination) == m.amount))
  {
    hide Exec, Pays, WellFormed, Admissible, MandateAddress, After;
    if Pays(pda, l, call, m) {
      PaymentEffect(pda, l, call, m);
    } else {
      OthersNoMorePower(pda, l, call, m);
    }
  }

  // ---------------------------------------------------------------- how many payments

  /** The promise that there are at most `allowance / amount` payments before the next approval, whatever else happens. */
  ghost predicate CountBounded(pda: Bytes -> Address, l: Ledger, m: Mandate)
    requires m.source in l.accounts && m.amount > 0
  {
    forall calls: seq<Call> | (forall call | call in calls :: Admissible(pda, call, m)) ::
      Payments(pda, l, calls, m) <= Allowance(pda, l, m) / m.amount
  }

  function Repeat(call: Call, n: nat): seq<Call> {
    seq(n, _ => call)
  }

  /** Paying takes nothing out of the allowance: an account pays itself, or it pays nothing out of what is not used up. */
  predicate Free(pda: Bytes -> Address, l: Ledger, m: Mandate)
    requires m.source in l.accounts
  {
    m.source == m.destination || (m.amount == 0 && Allowance(pda, l, m) > 0)
  }

  /** Such a payment leaves the ledger as it was. */
  lemma FreePayment(pda: Bytes -> Address, l: Ledger, call: Call, m: Mandate)
    requires WellFormed(pda, m) && Admissible(pda, call, m) && Standing(pda, l, m) && Pays(pda, l, call, m) && Free(pda, l, m)
    ensures After(pda, l, call) == l
  {
    hide Exec, Pays, WellFormed, Admissible, MandateAddress, After;
    PaysItsMandate(pda, l, call, m);
    var fee := Fees.CalculateFee(Fees.EpochFee(l.mint.fees, call.epoch), m.amount).value;
    NothingTransferred(l, m.source, m.destination, AddressOf(pda, m), m.amount, fee, call.epoch);
  }

  lemma NothingTransferred(l: Ledger, source: Address, destination: Address, delegate: Address, amount: nat, fee: nat, epoch: nat)
    requires source in l.accounts && l.accounts[source].owner != delegate && l.roles.permanentDelegate != Some(delegate)
    requires source == destination || (amount == 0 && l.accounts[source].delegated > 0)
    ensures var r := ExecTransfer(l, source, destination, delegate, amount, fee, true, epoch); r.Some? ==> r.value == l
  {
    var r := ExecTransfer(l, source, destination, delegate, amount, fee, true, epoch);
    if r.Some? {
      assert r.value.accounts == l.accounts;
    }
  }

  /** So it can be repeated any number of times. */
  lemma {:induction false} FreePaymentsRepeat(pda: Bytes -> Address, l: Ledger, call: Call, m: Mandate, n: nat)
    requires WellFormed(pda, m) && Admissible(pda, call, m) && Standing(pda, l, m) && Pays(pda, l, call, m) && Free(pda, l, m)
    ensures Payments(pda, l, Repeat(call, n), m) == n && RunCalls(pda, l, Repeat(call, n)) == l
    ensures forall c | c in Repeat(call, n) :: Admissible(pda, c, m)
  {
    hide Exec, Pays, WellFormed, Admissible, MandateAddress, After, Standing, Free;
    if n > 0 {
      FreePayment(pda, l, call, m);
      assert Repeat(call, n)[1..] == Repeat(call, n - 1);
      FreePaymentsRepeat(pda, l, call, m, n - 1);
    }
  }

  /**
   From any state in which a mandate of a positive amount can be paid, the promise holds if and only if the mandate is not
   of an account to itself.
   */
  lemma CountBoundedIff(pda: Bytes -> Address, l: Ledger, call: Call, m: Mandate)
    requires WellFormed(pda, m) && Standing(pda, l, m) && m.amount > 0
    requires Admissible(pda, call, m) && Pays(pda, l, call, m)
    ensures CountBounded(pda, l, m) <==> m.source != m.destination
  {
    hide Exec, Pays, WellFormed, Admissible, MandateAddress, After, Allowance, Payments, RunCalls;
    if m.source != m.destination {
      forall calls: seq<Call> | forall c | c in calls :: Admissible(pda, c, m)
        ensures Payments(pda, l, calls, m) <= Allowance(pda, l, m) / m.amount
      {
        MandateBound(pda, l, calls, m);
        AtMost(Payments(pda, l, calls, m), m.amount, Allowance(pda, l, m));
      }
    } else {
      var n := Allowance(pda, l, m) / m.amount + 1;
      FreePaymentsRepeat(pda, l, call, m, n);
      assert Payments(pda, l, Repeat(call, n), m) > Allowance(pda, l, m) / m.amount;
    }
  }

  lemma AtMost(k: nat, amount: nat, allowance: nat)
    requires amount > 0 && k * amount <= allowance
    ensures k <= allowance / amount
  {
    OneMoreIsTooMany(k, allowance / amount, amount);
    assert allowance < allowance / amount * amount + amount;
  }

  lemma OneMoreIsTooMany(k: nat, most: nat, amount: nat)
    ensures k > most ==> k * amount >= most * amount + amount
  {
    if k > most {
      assert k * amount == (most + 1) * amount + (k - most - 1) * amount;
    }
  }

  /** A mandate of nothing is no promise at all: once it can be paid out of an allowance not used up, it can be paid for ever. */
  lemma NothingPaidForEver(pda: Bytes -> Address, l: Ledger, call: Call, m: Mandate, n: nat)
    requires WellFormed(pda, m) && Standing(pda, l, m) && m.amount == 0 && Allowance(pda, l, m) > 0
    requires Admissible(pda, call, m) && Pays(pda, l, call, m)
    ensures Payments(pda, l, Repeat(call, n), m) == n && Drawn(pda, l, Repeat(call, n), m) == 0
  {
    hide Exec, Pays, WellFormed, Admissible, MandateAddress, After, Allowance, Payments, RunCalls, Drawn, Arrived;
    FreePaymentsRepeat(pda, l, call, m, n);
    MandateBound(pda, l, Repeat(call, n), m);
  }

  // ---------------------------------------------------------------- when a payment goes through

  /**
   A payment of the mandate goes through exactly when the call names its five accounts in order and its amount, both token
   accounts are open and thawed, and the balance and what is left of the allowance cover it. Whether the owner has CPI Guard
   on plays no part: the delegate signs.
   */
  lemma PaymentGoesThrough(pda: Bytes -> Address, l: Ledger, m: Mandate, accounts: seq<Address>, data: Bytes, signers: set<Address>,
                           epoch: nat)
    requires WellFormed(pda, m) && Standing(pda, l, m) && Fees.ConfigOk(l.mint.fees)
    requires AddressOf(pda, m) !in signers && forall a | a in accounts :: IsKey(a)
    ensures Pays(pda, l, Call(ExecuteMandate(accounts, data), signers, [], epoch), m) <==>
              && |accounts| >= 5
              && accounts[..5] == [m.source, l.roles.mint, m.destination, AddressOf(pda, m), l.roles.tokenProgram]
              && |data| == 9 && data[0] == 0 && Weighed(data) == m.amount
              && m.destination in l.accounts && !l.accounts[m.source].frozen && !l.accounts[m.destination].frozen
              && m.amount <= l.accounts[m.source].amount
              && l.accounts[m.source].delegate == Some(AddressOf(pda, m)) && m.amount <= l.accounts[m.source].delegated
  {
    hide MandateAddress, WellFormed, Standing;
    var call := Call(ExecuteMandate(accounts, data), signers, [], epoch);
    UnpackWeighs(data);
    if Pays(pda, l, call, m) {
      NamedAccounts(pda, l, call, m);
      PaysItsMandate(pda, l, call, m);
    }
    if |accounts| >= 5 && accounts[..5] == [m.source, l.roles.mint, m.destination, AddressOf(pda, m), l.roles.tokenProgram]
       && Unpack(data) == Some(m.amount) {
      assert accounts[0] == accounts[..5][0] && accounts[1] == accounts[..5][1] && accounts[2] == accounts[..5][2]
          && accounts[3] == accounts[..5][3] && accounts[4] == accounts[..5][4];
      NamedPayment(pda, l, m, accounts, data, signers, epoch);
    }
  }

  lemma NamedAccounts(pda: Bytes -> Address, l: Ledger, call: Call, m: Mandate)
    requires call.ix.ExecuteMandate? && AddressOf(pda, m) !in call.signers && forall a | a in call.ix.accounts :: IsKey(a)
    ensures Admissible(pda, call, m)
  {}

  /** With its accounts and amount named, the payment is the transfer the delegate may make. */
  lemma NamedPayment(pda: Bytes -> Address, l: Ledger, m: Mandate, accounts: seq<Address>, data: Bytes, signers: set<Address>,
                     epoch: nat)
    requires WellFormed(pda, m) && Standing(pda, l, m) && Fees.ConfigOk(l.mint.fees) && Unpack(data) == Some(m.amount)
    requires |accounts| >= 5 && accounts[0] == m.source && accounts[1] == l.roles.mint && accounts[2] == m.destination
    requires accounts[3] == AddressOf(pda, m) && accounts[4] == l.roles.tokenProgram
    ensures Pays(pda, l, Call(ExecuteMandate(accounts, data), signers, [], epoch), m) <==>
              && m.destination in l.accounts && !l.accounts[m.source].frozen && !l.accounts[m.destination].frozen
              && m.amount <= l.accounts[m.source].amount
              && l.accounts[m.source].delegate == Some(AddressOf(pda, m)) && m.amount <= l.accounts[m.source].delegated
  {
    hide MandateAddress;
    Fees.FeeWithinAmount(Fees.EpochFee(l.mint.fees, epoch), m.amount);
    hide Fees.CalculateFee, Fees.EpochFee, Unpack;
  }

  // ---------------------------------------------------------------- why a payment is refused

  /** Before it comes to the transfer: the first thing wrong with a call decides the error, in this order. */
  lemma RefusalsInOrder(pda: Bytes -> Address, tokenProgram: Address, mint: Address, fees: Fees.FeeConfig, epoch: nat,
                        accounts: seq<Address>, data: Bytes)
    requires Fees.ConfigOk(fees)
    ensures var plan := ProcessInstruction(pda, tokenProgram, map[mint := Some(fees)], epoch, accounts, data);
            var bytes := |data| == 9 && data[0] == 0;
            var address := if |accounts| >= 5 && bytes then MandateAddress(pda, accounts[0], accounts[2], Weighed(data)) else 0;
            && (plan == Refuse(InvalidInstructionData) <==> !bytes)
            && (plan == Refuse(NotEnoughAccountKeys) <==> bytes && |accounts| < 5)
            && (plan == Refuse(WrongTokenProgram) <==> bytes && |accounts| >= 5 && accounts[4] != tokenProgram)
            && (plan == Refuse(MandateMismatch) <==>
                  bytes && |accounts| >= 5 && accounts[4] == tokenProgram && accounts[3] != address)
            && (plan == Refuse(MintNotOwnedByToken2022) <==>
                  bytes && |accounts| >= 5 && accounts[4] == tokenProgram && accounts[3] == address && accounts[1] != mint)
            && plan != Refuse(FeeOverflow)
  {
    hide MandateAddress;
    UnpackWeighs(data);
    UnpackedAmount(data);
    if Unpack(data).Some? {
      Fees.FeeWithinAmount(Fees.EpochFee(fees, epoch), Unpack(data).value);
    }
    hide Fees.CalculateFee, Fees.EpochFee, Unpack;
  }
}
