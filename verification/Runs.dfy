/**
 All wallets at once: any interleaving of the three owner flows, each split into the read that prepares it and
 the transaction that lands or not, with deposits, transfers, issuer actions and epochs in between.
 */
module Runs {
  import opened Types
  import opened Ledger
  import opened Wallet
  import Agent
  import Conservation
  import Fees
  import Transfers

  /** A flow that has read its account and whose transaction has not been decided. */
  datatype Flight =
    | Applying(credits: nat, claim: Cipher)
    | Sending(destination: Address, amount: nat, claim: Cipher, proofs: seq<Statement>)
    | Withdrawing(amount: nat, claim: Cipher, proofs: seq<Statement>)

  /** At most one flow is in flight per account; the map says which. */
  datatype State = State(ledger: Ledger, epoch: nat, flights: map<Address, Flight>)

  datatype Step =
    | Background(ix: TokenIx, signers: set<Address>)
    | ReadApply(account: Address, keys: WalletKeys)
    | ReadTransfer(account: Address, keys: WalletKeys, destination: Address, destinationKey: Address, amount: nat, fee: nat,
                   rate: Fees.Rate)
    | ReadWithdraw(account: Address, keys: WalletKeys, amount: nat)
    | Land(account: Address, signers: set<Address>)
    | Drop(account: Address)
    | NextEpoch

  /** How many credits may pile up before the owner must apply them. */
  const MAXIMUM_PENDING_BALANCE_CREDITS: nat := 65_536

  /** The three owner flows alone send their instructions, and accounts are configured as the client configures them. */
  predicate InBackground(ix: TokenIx) {
    && !ix.ApplyPending? && !ix.ConfidentialTransfer? && !ix.Withdraw?
    && (ix.Configure? ==> ix.zero.value == 0 && ix.maxCredits == MAXIMUM_PENDING_BALANCE_CREDITS)
  }

  function ExecFlight(l: Ledger, a: Address, f: Flight, signers: set<Address>, epoch: nat): Option<Ledger> {
    match f
    case Applying(credits, claim) => ExecApply(l, a, credits, claim, signers)
    case Sending(destination, _, claim, proofs) => ExecConfidentialTransfer(l, a, destination, claim, signers, proofs, epoch)
    case Withdrawing(amount, claim, proofs) => ExecWithdraw(l, a, amount, claim, signers, proofs)
  }

  /** What a flow prepares from the accounts it reads, or none when it refuses. */
  function Prepare(l: Ledger, step: Step): Option<Flight>
    requires step.ReadApply? || step.ReadTransfer? || step.ReadWithdraw?
  {
    match step
    case ReadApply(a, keys) => (
      match PrepareApply(l, a, keys)
      case Err(_) => None
      case Ok((ix, _)) => Some(Applying(ix.credits, ix.decryptable))
    )
    case ReadTransfer(a, keys, destination, destinationKey, amount, fee, rate) => (
      match Spendable(l, a, keys, amount)
      case Err(_) => None
      case Ok(available) =>
        Some(Sending(destination, amount, Cipher(keys.ae, available - amount),
                     TransferStatements(keys.elgamal, l.accounts[a].conf.value.available, destinationKey, l.roles, available,
                                        amount, fee, rate)))
    )
    case ReadWithdraw(a, keys, amount) =>
      match Spendable(l, a, keys, amount)
      case Err(_) => None
      case Ok(available) =>
        var (equality, range) := WithdrawStatements(keys.elgamal, l.accounts[a].conf.value.available, available, amount);
        Some(Withdrawing(amount, Cipher(keys.ae, available - amount), [equality, range]))
  }

  /** One step; what is refused changes nothing, and a transaction that fails ends its flow. */
  function Next(pda: Bytes -> Address, s: State, step: Step): State {
    match step
    case Background(ix, signers) => (
      if !InBackground(ix) then s
      else match Exec(pda, s.ledger, ix, signers, [], s.epoch) case None => s case Some(l) => s.(ledger := l)
    )
    case Land(a, signers) => (
      if a !in s.flights then s
      else
        match ExecFlight(s.ledger, a, s.flights[a], signers, s.epoch)
        case None => s.(flights := s.flights - {a})
        case Some(l) => s.(ledger := l, flights := s.flights - {a})
    )
    case Drop(a) => s.(flights := s.flights - {a})
    case NextEpoch => s.(epoch := s.epoch + 1)
    case _ =>
      if step.account in s.flights then s
      else match Prepare(s.ledger, step) case None => s case Some(f) => s.(flights := s.flights[step.account := f])
  }

  function Run(pda: Bytes -> Address, s: State, steps: seq<Step>): State
    decreases |steps|
  {
    if steps == [] then s else Run(pda, Next(pda, s, steps[0]), steps[1..])
  }

  // ---------------------------------------------------------------- the invariant

  /** A flow in flight claims the balance its account will have, as long as no credit came in between. */
  ghost predicate FlightOk(c: Conf, f: Flight) {
    && !StaleConf(c)
    && match f
       case Applying(credits, claim) =>
         credits <= c.credits && (credits == c.credits ==> claim.value == c.available + c.Pending())
       case Sending(_, amount, claim, proofs) =>
         && claim.value == c.available - amount
         && |proofs| == 5 && proofs[1].AmountValidity? && proofs[1].lo + LO_BITS * proofs[1].hi == amount
       case Withdrawing(amount, claim, _) => claim.value == c.available - amount
  }

  /** Each credit adds less than 2^16 to the low half of the pending balance. */
  predicate Bounded(c: Conf) {
    && c.credits <= c.maxCredits == MAXIMUM_PENDING_BALANCE_CREDITS
    && c.pendingLo <= (LO_BITS - 1) * c.credits
  }

  ghost predicate AccountOk(s: State, a: Address) {
    && Agreed(s.ledger, a)
    && (ConfOf(s.ledger, a).Some? ==> Bounded(ConfOf(s.ledger, a).value))
    && (a in s.flights ==>
          (a in s.ledger.accounts && s.ledger.accounts[a].conf.Some?
           && FlightOk(s.ledger.accounts[a].conf.value, s.flights[a])))
  }

  ghost predicate Inv(s: State) {
    && Conservation.Conserved(s.ledger)
    && forall a :: AccountOk(s, a)
  }

  // ---------------------------------------------------------------- what a background instruction does to an account

  /** What arrived with a credit: the amount sent and the fee withheld from it, each taken apart at 16 bits. */
  datatype Incoming = Incoming(amount: nat, fee: nat)
  {
    function Low(): int { amount % LO_BITS - fee % LO_BITS }
    function High(): int { amount / LO_BITS - fee / LO_BITS }
  }

  /** The pending balance and its counter move by this credit, if there is one. */
  predicate PendingMoves(c: Conf, d: Conf, credit: Option<Incoming>) {
    match credit
    case None => d.pendingLo == c.pendingLo && d.pendingHi == c.pendingHi && d.credits == c.credits
    case Some(x) =>
      && c.credits < c.maxCredits && d.credits == c.credits + 1
      && d.pendingLo == c.pendingLo + x.Low() && d.pendingHi == c.pendingHi + x.High()
  }

  /** A credit moves the pending balance and its counter; nothing else about a configured account moves. */
  ghost predicate ConfMoves(before: Option<Conf>, after: Option<Conf>, credit: Option<Incoming>) {
    match before
    case None => credit.None? && (after.None? || Fresh(after.value))
    case Some(c) =>
      && after.Some?
      && var d := after.value;
      && d.key == c.key && d.available == c.available && d.decryptable == c.decryptable
      && d.expected == c.expected && d.actual == c.actual && d.maxCredits == c.maxCredits && PendingMoves(c, d, credit)
  }

  /** A deposit arrives whole. */
  function DepositOf(ix: TokenIx, a: Address): Option<Incoming> {
    if ix.Deposit? && ix.account == a then Some(Incoming(ix.amount, 0)) else None
  }

  /** As `ConfigureAccount` leaves it, or approved since. */
  predicate Fresh(c: Conf) {
    && c.available == 0 && c.decryptable.value == 0 && c.expected == 0 && c.actual == 0
    && c.pendingLo == 0 && c.pendingHi == 0 && c.credits == 0 && c.maxCredits == MAXIMUM_PENDING_BALANCE_CREDITS
  }

  function ConfOf(l: Ledger, a: Address): Option<Conf> {
    if a in l.accounts then l.accounts[a].conf else None
  }

  ghost predicate OnlyCredits(l: Ledger, l': Ledger, ix: TokenIx) {
    && l.accounts.Keys <= l'.accounts.Keys
    && forall a :: ConfMoves(ConfOf(l, a), ConfOf(l', a), DepositOf(ix, a))
  }

  lemma TransferKeepsConf(l: Ledger, source: Address, destination: Address, authority: Address, amount: nat, fee: nat,
                          viaCpi: bool, epoch: nat)
    ensures var r := ExecTransfer(l, source, destination, authority, amount, fee, viaCpi, epoch);
            r.Some? ==> && r.value.accounts.Keys == l.accounts.Keys
                        && forall a | a in l.accounts :: r.value.accounts[a].conf == l.accounts[a].conf
  {}

  lemma AdminOnlyCredits(l: Ledger, ix: TokenIx, signers: set<Address>, epoch: nat)
    requires InBackground(ix)
    ensures var r := ExecAdmin(l, ix, signers, epoch); r.Some? ==> OnlyCredits(l, r.value, ix)
  {
    var r := ExecAdmin(l, ix, signers, epoch);
    if r.Some? && !ix.SetDefaultState? && !ix.SetTransferFee? {
      assert r.value == Put(l, ix.account, r.value.accounts[ix.account]);
    }
  }

  lemma OnePut(l: Ledger, l': Ledger, ix: TokenIx, a: Address, account: TokenAccount)
    requires a in l.accounts && l'.accounts == l.accounts[a := account]
    requires ConfMoves(l.accounts[a].conf, account.conf, DepositOf(ix, a))
    requires ix.Deposit? ==> ix.account == a
    ensures OnlyCredits(l, l', ix)
  {}

  lemma MintToOnlyCredits(l: Ledger, ix: TokenIx, a: Address, amount: nat)
    ensures var r := ExecMintTo(l, a, amount); r.Some? && !ix.Deposit? ==> OnlyCredits(l, r.value, ix)
  {
    hide OnlyCredits;
    var r := ExecMintTo(l, a, amount);
    if r.Some? && !ix.Deposit? {
      OnePut(l, r.value, ix, a, r.value.accounts[a]);
    }
  }

  lemma BurnOnlyCredits(l: Ledger, ix: TokenIx, a: Address, authority: Address, amount: nat)
    ensures var r := ExecBurn(l, a, authority, amount); r.Some? && !ix.Deposit? ==> OnlyCredits(l, r.value, ix)
  {
    hide OnlyCredits;
    var r := ExecBurn(l, a, authority, amount);
    if r.Some? && !ix.Deposit? {
      OnePut(l, r.value, ix, a, r.value.accounts[a]);
    }
  }

  lemma WithdrawFeesOnlyCredits(l: Ledger, ix: TokenIx, a: Address)
    ensures var r := ExecWithdrawFees(l, a); r.Some? && !ix.Deposit? ==> OnlyCredits(l, r.value, ix)
  {
    hide OnlyCredits;
    var r := ExecWithdrawFees(l, a);
    if r.Some? && !ix.Deposit? {
      OnePut(l, r.value, ix, a, r.value.accounts[a]);
    }
  }

  lemma DepositOnlyCredits(l: Ledger, ix: TokenIx, signers: set<Address>)
    requires ix.Deposit?
    ensures var r := ExecDeposit(l, ix.account, ix.amount, signers); r.Some? ==> OnlyCredits(l, r.value, ix)
  {
    hide OnlyCredits;
    var r := ExecDeposit(l, ix.account, ix.amount, signers);
    if r.Some? {
      OnePut(l, r.value, ix, ix.account, r.value.accounts[ix.account]);
    }
  }

  /** Whatever happens in the background, a configured account sees credits and nothing else. */
  lemma BackgroundOnlyCredits(pda: Bytes -> Address, l: Ledger, ix: TokenIx, signers: set<Address>, epoch: nat)
    requires InBackground(ix)
    ensures var r := Exec(pda, l, ix, signers, [], epoch); r.Some? ==> OnlyCredits(l, r.value, ix)
  {
    hide ExecTransfer, ExecAdmin, ExecHarvest, ExecMintTo, ExecBurn, ExecWithdrawFees, ExecDeposit;
    if ix.Harvest? {
      Transfers.HarvestExact(l, ix.sources);
    } else if ix.Transfer? {
      TransferKeepsConf(l, ix.source, ix.destination, ix.authority, ix.amount, ix.fee, false, epoch);
    } else if ix.ExecuteMandate? {
      var plan := Agent.ProcessInstruction(pda, l.roles.tokenProgram, map[l.roles.mint := Some(l.mint.fees)], epoch,
                                           ix.accounts, ix.data);
      if plan.Pay? {
        TransferKeepsConf(l, plan.source, plan.destination, plan.mandate, plan.amount, plan.fee, true, epoch);
      }
    } else if ix.MintTo? {
      MintToOnlyCredits(l, ix, ix.account, ix.amount);
    } else if ix.Burn? {
      BurnOnlyCredits(l, ix, ix.account, ix.authority, ix.amount);
    } else if ix.WithdrawFees? {
      WithdrawFeesOnlyCredits(l, ix, ix.treasury);
    } else if ix.Deposit? {
      DepositOnlyCredits(l, ix, signers);
    } else {
      AdminOnlyCredits(l, ix, signers, epoch);
    }
  }

  // ---------------------------------------------------------------- what landing does

  lemma LandConserves(l: Ledger, a: Address, f: Flight, signers: set<Address>, epoch: nat)
    requires Conservation.Conserved(l)
    ensures var r := ExecFlight(l, a, f, signers, epoch); r.Some? ==> Conservation.Conserved(r.value)
  {
    match f
    case Applying(credits, claim) =>
      var r := ExecApply(l, a, credits, claim, signers);
      if r.Some? {
        assert Conservation.Sane(l.accounts[a]);
        Conservation.PutKeeps(l, a, r.value.accounts[a]);
      }
    case Sending(destination, _, claim, proofs) =>
      Conservation.ConfidentialTransferConserves(l, a, destination, claim, signers, proofs, epoch);
    case Withdrawing(amount, claim, proofs) => Conservation.WithdrawConserves(l, a, amount, claim, signers, proofs);
  }

  /** The flow's own account agrees again; an apply leaves it stale exactly when a credit came in between. */
  lemma LandAgrees(l: Ledger, a: Address, f: Flight, signers: set<Address>, epoch: nat)
    requires a in l.accounts && l.accounts[a].conf.Some? && FlightOk(l.accounts[a].conf.value, f)
    ensures var r := ExecFlight(l, a, f, signers, epoch);
            r.Some? ==> && a in r.value.accounts && r.value.accounts[a].conf.Some?
                        && AgreedConf(r.value.accounts[a].conf.value)
                        && (Bounded(l.accounts[a].conf.value) ==> Bounded(r.value.accounts[a].conf.value))
                        && (if f.Applying? then
                              var c := r.value.accounts[a].conf.value;
                              c.pendingLo == 0 && c.pendingHi == 0 && c.credits == 0
                            else
                              PendingMoves(l.accounts[a].conf.value, r.value.accounts[a].conf.value,
                                           if f.Sending? && f.destination == a then Some(Incoming(f.amount, 0)) else None))
                        && (StaleConf(r.value.accounts[a].conf.value) <==>
                              f.Applying? && l.accounts[a].conf.value.credits != f.credits)
  {
    if f.Sending? && ExecFlight(l, a, f, signers, epoch).Some? {
      Conservation.ProvenAmounts(l, l.accounts[a].conf.value, l.accounts[f.destination].conf.value, f.proofs, epoch);
      Halves(f.amount, f.proofs[1].lo, f.proofs[1].hi);
    }
  }

  lemma Halves(amount: nat, lo: int, hi: int)
    requires 0 <= lo < LO_BITS && amount == lo + LO_BITS * hi
    ensures lo == amount % LO_BITS && hi == amount / LO_BITS
  {}

  /** The proofs of a transfer in flight are for its amount. */
  ghost predicate Declared(f: Flight) {
    f.Sending? ==> |f.proofs| == 5 && f.proofs[1].AmountValidity? && f.proofs[1].lo + LO_BITS * f.proofs[1].hi == f.amount
  }

  /** The fee in force. */
  function FeeFor(l: Ledger, epoch: nat, amount: nat): nat {
    match Fees.CalculateFee(Fees.EpochFee(l.mint.fees, epoch), amount) case None => 0 case Some(fee) => fee
  }

  /** What `b` is credited with when the flow of another account lands: the amount, less the fee in force. */
  function SentTo(l: Ledger, f: Flight, epoch: nat, b: Address): Option<Incoming> {
    if f.Sending? && f.destination == b then Some(Incoming(f.amount, FeeFor(l, epoch, f.amount))) else None
  }

  lemma LandElsewhere(l: Ledger, a: Address, f: Flight, signers: set<Address>, epoch: nat, b: Address)
    requires b != a && Declared(f)
    ensures var r := ExecFlight(l, a, f, signers, epoch);
            r.Some? ==> && (b in r.value.accounts <==> b in l.accounts)
                        && ConfMoves(ConfOf(l, b), ConfOf(r.value, b), SentTo(l, f, epoch, b))
  {
    if f.Sending? && ExecFlight(l, a, f, signers, epoch).Some? {
      Conservation.ProvenAmounts(l, l.accounts[a].conf.value, l.accounts[f.destination].conf.value, f.proofs, epoch);
      Halves(f.amount, f.proofs[1].lo, f.proofs[1].hi);
      Halves(FeeFor(l, epoch, f.amount), f.proofs[3].lo, f.proofs[3].hi);
    }
  }

  // ---------------------------------------------------------------- every step

  /** The credit the step adds to the pending balance of `a`: a deposit or a transfer to oneself whole, others less the fee. */
  function CreditOf(pda: Bytes -> Address, s: State, step: Step, a: Address): Option<Incoming> {
    match step
    case Background(ix, signers) =>
      if Exec(pda, s.ledger, ix, signers, [], s.epoch).Some? then DepositOf(ix, a) else None
    case Land(b, signers) =>
      if b !in s.flights || ExecFlight(s.ledger, b, s.flights[b], signers, s.epoch).None? then None
      else if b == a && s.flights[b].Sending? && s.flights[b].destination == a then Some(Incoming(s.flights[b].amount, 0))
      else SentTo(s.ledger, s.flights[b], s.epoch, a)
    case _ => None
  }

  predicate Credits(pda: Bytes -> Address, s: State, step: Step, a: Address) {
    CreditOf(pda, s, step, a).Some?
  }

  /** The step decides the flow in flight on `a`. */
  predicate Decides(step: Step, a: Address) {
    (step.Land? || step.Drop?) && step.account == a
  }

  /** Until its own flow is decided, an account sees credits and nothing else. */
  lemma StepMoves(pda: Bytes -> Address, s: State, step: Step, a: Address)
    requires !(step.Land? && step.account == a)
    requires step.Land? && step.account in s.flights ==> Declared(s.flights[step.account])
    ensures var s' := Next(pda, s, step);
            && ConfMoves(ConfOf(s.ledger, a), ConfOf(s'.ledger, a), CreditOf(pda, s, step, a))
            && (a in s.ledger.accounts ==> a in s'.ledger.accounts)
            && (a in s.flights && !Decides(step, a) ==> a in s'.flights && s'.flights[a] == s.flights[a])
  {
    hide Exec, ExecFlight;
    match step
    case Background(ix, signers) =>
      if InBackground(ix) {
        BackgroundOnlyCredits(pda, s.ledger, ix, signers, s.epoch);
      } else {
        assert !ix.Deposit?;
      }
    case Land(b, signers) =>
      if b in s.flights {
        LandElsewhere(s.ledger, b, s.flights[b], signers, s.epoch, a);
      }
    case Drop(_) =>
    case NextEpoch =>
    case ReadApply(_, _) =>
    case ReadTransfer(_, _, _, _, _, _, _) =>
    case ReadWithdraw(_, _, _) =>
  }

  /** What an agreeing account prepares is true of it. */
  lemma PreparedOk(l: Ledger, step: Step)
    requires step.ReadApply? || step.ReadTransfer? || step.ReadWithdraw?
    requires Agreed(l, step.account)
    ensures var f := Prepare(l, step);
            f.Some? ==> && step.account in l.accounts && l.accounts[step.account].conf.Some?
                        && FlightOk(l.accounts[step.account].conf.value, f.value)
  {
    if step.ReadApply? && PrepareApply(l, step.account, step.keys).Ok? {
      var c := l.accounts[step.account].conf.value;
      DecryptLoHiExact(step.keys.elgamal, Cipher(c.key, c.pendingLo), Cipher(c.key, c.pendingHi));
    }
  }

  lemma FlightKept(c: Conf, d: Conf, f: Flight, credit: Option<Incoming>)
    requires ConfMoves(Some(c), Some(d), credit) && FlightOk(c, f)
    ensures FlightOk(d, f)
  {}

  lemma StepConserves(pda: Bytes -> Address, s: State, step: Step)
    requires Conservation.Conserved(s.ledger)
    ensures Conservation.Conserved(Next(pda, s, step).ledger)
  {
    hide Exec, ExecFlight, Conservation.Conserved;
    match step
    case Background(ix, signers) => Conservation.ExecConserves(pda, s.ledger, ix, signers, [], s.epoch);
    case Land(b, signers) =>
      if b in s.flights {
        LandConserves(s.ledger, b, s.flights[b], signers, s.epoch);
      }
    case Drop(_) =>
    case NextEpoch =>
    case ReadApply(_, _) =>
    case ReadTransfer(_, _, _, _, _, _, _) =>
    case ReadWithdraw(_, _, _) =>
  }

  lemma StepAccountOk(pda: Bytes -> Address, s: State, step: Step, a: Address)
    requires AccountOk(s, a) && (step.Land? ==> AccountOk(s, step.account))
    ensures AccountOk(Next(pda, s, step), a)
  {
    hide Exec, ExecFlight, Prepare;
    var s' := Next(pda, s, step);
    if step.Land? && step.account == a {
      if a in s.flights {
        LandAgrees(s.ledger, a, s.flights[a], step.signers, s.epoch);
      }
    } else {
      StepMoves(pda, s, step, a);
      if a in s.flights && a in s'.flights {
        FlightKept(s.ledger.accounts[a].conf.value, s'.ledger.accounts[a].conf.value, s.flights[a], CreditOf(pda, s, step, a));
      } else if a in s'.flights {
        PreparedOk(s.ledger, step);
      }
    }
  }

  // ---------------------------------------------------------------- every run

  /** Conservation and agreement hold in every state any interleaving reaches. */
  lemma {:induction false} RunKeeps(pda: Bytes -> Address, s: State, steps: seq<Step>)
    requires Inv(s)
    ensures Inv(Run(pda, s, steps))
    decreases |steps|
  {
    if steps != [] {
      hide Next, AccountOk, Conservation.Conserved;
      assert steps[0].Land? ==> AccountOk(s, steps[0].account);
      StepConserves(pda, s, steps[0]);
      forall a ensures AccountOk(Next(pda, s, steps[0]), a) {
        StepAccountOk(pda, s, steps[0], a);
      }
      RunKeeps(pda, Next(pda, s, steps[0]), steps[1..]);
    }
  }

  lemma StepKeeps(pda: Bytes -> Address, s: State, step: Step)
    requires Inv(s)
    ensures Inv(Next(pda, s, step))
  {
    hide Next, Conservation.Conserved, AccountOk;
    RunKeeps(pda, s, [step]);
    assert [step][1..] == [] && Run(pda, s, [step]) == Next(pda, s, step);
  }

  /** A ledger no confidential flow has touched yet. */
  ghost predicate Untouched(l: Ledger) {
    && Conservation.Conserved(l)
    && forall a | a in l.accounts && l.accounts[a].conf.Some? :: Fresh(l.accounts[a].conf.value)
  }

  /**
   In every reachable state an account whose counters are equal has the balance its owner decrypts, and the
   arithmetic of the next flow stays in u64: `available + pending` when applying, `available - amount` when spending.
   */
  lemma Agreement(pda: Bytes -> Address, l: Ledger, epoch: nat, steps: seq<Step>, a: Address, keys: WalletKeys, amount: nat)
    requires Untouched(l)
    ensures var s := Run(pda, State(l, epoch, map[]), steps);
            && Conservation.Conserved(s.ledger)
            && Agreed(s.ledger, a)
            && (PrepareApply(s.ledger, a, keys).Ok? ==> PrepareApply(s.ledger, a, keys).value.1 < U64)
            && (Spendable(s.ledger, a, keys, amount).Ok? ==>
                  amount <= Spendable(s.ledger, a, keys, amount).value == s.ledger.accounts[a].conf.value.available < U64)
  {
    var start := State(l, epoch, map[]);
    assert Inv(start);
    RunKeeps(pda, start, steps);
    var s := Run(pda, start, steps);
    assert AccountOk(s, a);
    if PrepareApply(s.ledger, a, keys).Ok? {
      PreparedApply(s.ledger, a, keys);
    }
    if Spendable(s.ledger, a, keys, amount).Ok? {
      SpendableExact(s.ledger, a, keys, amount);
    }
  }

  // ---------------------------------------------------------------- staleness

  /** Once stale, always stale: no flow starts on the account again, and its owner's copy never moves. */
  lemma {:induction false} StaleForGood(pda: Bytes -> Address, s: State, steps: seq<Step>, a: Address)
    requires Inv(s) && Stale(s.ledger, a)
    ensures var s' := Run(pda, s, steps);
            && Stale(s'.ledger, a) && a !in s'.flights
            && s'.ledger.accounts[a].conf.value.decryptable == s.ledger.accounts[a].conf.value.decryptable
            && s'.ledger.accounts[a].conf.value.available == s.ledger.accounts[a].conf.value.available
    decreases |steps|
  {
    assert AccountOk(s, a);
    if steps != [] {
      var s1 := Next(pda, s, steps[0]);
      assert steps[0].Land? ==> AccountOk(s, steps[0].account);
      StaleStep(pda, s, steps[0], a);
      RunKeeps(pda, s, [steps[0]]);
      assert [steps[0]][1..] == [] && Run(pda, s, [steps[0]]) == s1;
      StaleForGood(pda, s1, steps[1..], a);
    }
  }

  lemma StaleStep(pda: Bytes -> Address, s: State, step: Step, a: Address)
    requires AccountOk(s, a) && (step.Land? ==> AccountOk(s, step.account)) && Stale(s.ledger, a)
    ensures var l' := Next(pda, s, step).ledger;
            && Stale(l', a)
            && l'.accounts[a].conf.value.decryptable == s.ledger.accounts[a].conf.value.decryptable
            && l'.accounts[a].conf.value.available == s.ledger.accounts[a].conf.value.available
  {
    hide Exec, ExecFlight, Prepare;
    if !(step.Land? && step.account == a) {
      StepMoves(pda, s, step, a);
    }
  }

  /** How many of the steps credited `a`. */
  ghost function CountCredits(pda: Bytes -> Address, s: State, steps: seq<Step>, a: Address): nat
    decreases |steps|
  {
    if steps == [] then 0
    else (if Credits(pda, s, steps[0], a) then 1 else 0) + CountCredits(pda, Next(pda, s, steps[0]), steps[1..], a)
  }

  /** While its flow is undecided an account's counter counts exactly the credits, and its balances stay. */
  lemma {:induction false} CreditsCounted(pda: Bytes -> Address, s: State, steps: seq<Step>, a: Address)
    requires Inv(s) && a in s.ledger.accounts && s.ledger.accounts[a].conf.Some? && a in s.flights
    requires forall step | step in steps :: !Decides(step, a)
    ensures var s' := Run(pda, s, steps);
            && a in s'.flights && s'.flights[a] == s.flights[a]
            && a in s'.ledger.accounts && s'.ledger.accounts[a].conf.Some?
            && s'.ledger.accounts[a].conf.value.credits
               == s.ledger.accounts[a].conf.value.credits + CountCredits(pda, s, steps, a)
    decreases |steps|
  {
    if steps != [] {
      hide Next, Conservation.Conserved;
      assert steps[0] in steps;
      assert steps[0].Land? ==> AccountOk(s, steps[0].account);
      StepMoves(pda, s, steps[0], a);
      StepKeeps(pda, s, steps[0]);
      CreditsCounted(pda, Next(pda, s, steps[0]), steps[1..], a);
    }
  }

  /**
   Staleness is detected, and only when it is real: an apply that lands leaves its account stale exactly when a
   credit arrived between its read and its landing, whatever else went on; if none did, the balance it reported is
   the balance on chain.
   */
  lemma StaleIffCreditBetween(pda: Bytes -> Address, s: State, a: Address, keys: WalletKeys, steps: seq<Step>,
                              signers: set<Address>)
    requires Inv(s) && a !in s.flights && PrepareApply(s.ledger, a, keys).Ok?
    requires forall step | step in steps :: !Decides(step, a)
    ensures var read := Next(pda, s, ReadApply(a, keys));
            var before := Run(pda, read, steps);
            && a in before.flights
            && var landed := ExecFlight(before.ledger, a, before.flights[a], signers, before.epoch);
               landed.Some? ==>
                 && Next(pda, before, Land(a, signers)).ledger == landed.value
                 && (Stale(landed.value, a) <==> CountCredits(pda, read, steps, a) > 0)
                 && (!Stale(landed.value, a) ==>
                       && a in landed.value.accounts && landed.value.accounts[a].conf.Some?
                       && landed.value.accounts[a].conf.value.available == PrepareApply(s.ledger, a, keys).value.1)
  {
    hide Exec, PrepareApply;
    var read := Next(pda, s, ReadApply(a, keys));
    var before := Run(pda, read, steps);
    var f := Prepare(s.ledger, ReadApply(a, keys)).value;
    assert AccountOk(s, a);
    PreparedOk(s.ledger, ReadApply(a, keys));
    StepKeeps(pda, s, ReadApply(a, keys));
    CreditsCounted(pda, read, steps, a);
    RunKeeps(pda, s, [ReadApply(a, keys)] + steps);
    assert ([ReadApply(a, keys)] + steps)[1..] == steps;
    assert AccountOk(before, a);
    PreparedClaims(s.ledger, a, keys);
    LandAgrees(before.ledger, a, before.flights[a], signers, before.epoch);
  }

  lemma PreparedClaims(l: Ledger, a: Address, keys: WalletKeys)
    requires PrepareApply(l, a, keys).Ok?
    ensures var f := Prepare(l, ReadApply(a, keys));
            && a in l.accounts && l.accounts[a].conf.Some?
            && f.Some? && f.value.Applying? && f.value.credits == l.accounts[a].conf.value.credits
            && f.value.claim.value == PrepareApply(l, a, keys).value.1
  {}

  // ---------------------------------------------------------------- why one flow at a time

  /**
   Two applies of one account in flight at once are outside what the counters can tell. Both read `l`; the first lands and
   resets the counter; one deposit makes it look the same again; and the second lands unnoticed, the owner's copy short by
   the deposit although the counters agree.
   */
  lemma TwoAppliesUnnoticed(l: Ledger, a: Address, keys: WalletKeys, deposit: nat, signers: set<Address>)
    requires Conservation.Conserved(l) && Agreed(l, a) && PrepareApply(l, a, keys).Ok? && Usable(l, a, signers)
    requires var c := l.accounts[a].conf.value; c.approved && c.credits == 1 <= c.maxCredits
    requires 0 < deposit <= l.accounts[a].amount && deposit < MAX_CONFIDENTIAL
    ensures var ix := PrepareApply(l, a, keys).value.0;
            var first := ExecApply(l, a, ix.credits, ix.decryptable, signers);
            && first.Some? && !Stale(first.value, a) && Agreed(first.value, a)
            && var between := ExecDeposit(first.value, a, deposit, signers);
            && between.Some?
            && var second := ExecApply(between.value, a, ix.credits, ix.decryptable, signers);
            && second.Some? && !Stale(second.value, a) && !Agreed(second.value, a)
            && second.value.accounts[a].conf.value.available == ix.decryptable.value + deposit
  {
    PreparedApply(l, a, keys);
    assert deposit == deposit % LO_BITS + LO_BITS * (deposit / LO_BITS);
  }
}
