/**
 When a pending balance decrypts. It is kept in two halves, and decryption finds only values from 0 to 2^32, so it matters
 how many credits come between two applies and which fees were taken off them.
 */
module Pending {
  import opened Types
  import opened Ledger
  import opened Runs
  import opened Wallet
  import Chain
  import Confidential
  import Conservation
  import Fees

  // ---------------------------------------------------------------- the credits since the last apply

  /** The step folds the pending balance of `a` into the available one. */
  predicate Applies(s: State, step: Step, a: Address) {
    && step.Land? && step.account == a && a in s.flights && s.flights[a].Applying?
    && ExecFlight(s.ledger, a, s.flights[a], step.signers, s.epoch).Some?
  }

  function Piled(pda: Bytes -> Address, s: State, step: Step, a: Address, before: seq<Incoming>): seq<Incoming> {
    if Applies(s, step, a) then []
    else match CreditOf(pda, s, step, a) case None => before case Some(x) => before + [x]
  }

  /** What `a` was credited with since it was last applied, in order; `before` came before these steps. */
  function Unapplied(pda: Bytes -> Address, s: State, steps: seq<Step>, a: Address, before: seq<Incoming>): seq<Incoming>
    decreases |steps|
  {
    if steps == [] then before
    else Unapplied(pda, Next(pda, s, steps[0]), steps[1..], a, Piled(pda, s, steps[0], a, before))
  }

  /** The low 16 bits of the amounts, and of the fees taken off them. */
  function LowAmounts(xs: seq<Incoming>): nat {
    if xs == [] then 0 else LowAmounts(xs[..|xs| - 1]) + xs[|xs| - 1].amount % LO_BITS
  }

  function LowFees(xs: seq<Incoming>): nat {
    if xs == [] then 0 else LowFees(xs[..|xs| - 1]) + xs[|xs| - 1].fee % LO_BITS
  }

  /** What all of them brought. */
  function Net(xs: seq<Incoming>): int {
    if xs == [] then 0 else Net(xs[..|xs| - 1]) + xs[|xs| - 1].amount - xs[|xs| - 1].fee
  }

  lemma SumsPush(xs: seq<Incoming>, x: Incoming)
    ensures LowAmounts(xs + [x]) == LowAmounts(xs) + x.amount % LO_BITS && LowFees(xs + [x]) == LowFees(xs) + x.fee % LO_BITS
    ensures Net(xs + [x]) == Net(xs) + x.amount - x.fee
  {
    assert (xs + [x])[..|xs|] == xs;
  }

  // ---------------------------------------------------------------- the halves are those of the credits

  /** The pending balance is the sum of these credits, half by half. */
  predicate PiledUp(c: Option<Conf>, xs: seq<Incoming>) {
    match c
    case None => xs == []
    case Some(c) => c.pendingLo == LowAmounts(xs) - LowFees(xs) && c.Pending() == Net(xs) && c.pendingHi >= 0
  }

  lemma OneMoreCredit(c: Conf, d: Conf, xs: seq<Incoming>, x: Incoming)
    requires PiledUp(Some(c), xs) && PendingMoves(c, d, Some(x)) && x.fee <= x.amount
    ensures PiledUp(Some(d), xs + [x])
  {
    SumsPush(xs, x);
    assert x.amount == x.amount % LO_BITS + LO_BITS * (x.amount / LO_BITS);
    assert x.fee == x.fee % LO_BITS + LO_BITS * (x.fee / LO_BITS);
  }

  /** No fee is more than the amount it is taken from. */
  lemma FeeCovered(pda: Bytes -> Address, s: State, step: Step, a: Address)
    requires Conservation.Conserved(s.ledger) && (step.Land? ==> AccountOk(s, step.account))
    ensures var x := CreditOf(pda, s, step, a); x.Some? ==> x.value.fee <= x.value.amount
  {
    hide Exec;
    if step.Land? && step.account in s.flights && CreditOf(pda, s, step, a).Some? {
      var b, f := step.account, s.flights[step.account];
      Conservation.ProvenAmounts(s.ledger, s.ledger.accounts[b].conf.value, s.ledger.accounts[f.destination].conf.value,
                                 f.proofs, s.epoch);
      Fees.FeeWithinAmount(Fees.EpochFee(s.ledger.mint.fees, s.epoch), f.amount);
    }
  }

  lemma StepPiles(pda: Bytes -> Address, s: State, step: Step, a: Address, xs: seq<Incoming>)
    requires Inv(s) && PiledUp(ConfOf(s.ledger, a), xs)
    ensures PiledUp(ConfOf(Next(pda, s, step).ledger, a), Piled(pda, s, step, a, xs))
  {
    hide Exec, ExecFlight, Prepare, PiledUp, Conservation.Conserved, PendingMoves;
    assert AccountOk(s, a) && (step.Land? ==> AccountOk(s, step.account));
    var before, after, credit := ConfOf(s.ledger, a), ConfOf(Next(pda, s, step).ledger, a), CreditOf(pda, s, step, a);
    FeeCovered(pda, s, step, a);
    if step.Land? && step.account == a {
      if a in s.flights && ExecFlight(s.ledger, a, s.flights[a], step.signers, s.epoch).Some? {
        LandAgrees(s.ledger, a, s.flights[a], step.signers, s.epoch);
        if s.flights[a].Applying? {
          Emptied(after.value);
        } else {
          PilesOn(before.value, after.value, xs, credit);
        }
      }
    } else {
      StepMoves(pda, s, step, a);
      if before.Some? {
        PilesOn(before.value, after.value, xs, credit);
      } else {
        NewlyFresh(after, xs);
      }
    }
  }

  lemma Emptied(c: Conf)
    requires c.pendingLo == 0 && c.pendingHi == 0
    ensures PiledUp(Some(c), [])
  {}

  lemma NewlyFresh(c: Option<Conf>, xs: seq<Incoming>)
    requires PiledUp(None, xs) && (c.None? || Fresh(c.value))
    ensures PiledUp(c, xs)
  {}

  lemma PilesOn(c: Conf, d: Conf, xs: seq<Incoming>, credit: Option<Incoming>)
    requires PiledUp(Some(c), xs) && PendingMoves(c, d, credit) && (credit.Some? ==> credit.value.fee <= credit.value.amount)
    ensures PiledUp(Some(d), match credit case None => xs case Some(x) => xs + [x])
  {
    match credit
    case None =>
    case Some(x) => OneMoreCredit(c, d, xs, x);
  }

  lemma {:induction false} RunPiles(pda: Bytes -> Address, s: State, steps: seq<Step>, a: Address, xs: seq<Incoming>)
    requires Inv(s) && PiledUp(ConfOf(s.ledger, a), xs)
    ensures PiledUp(ConfOf(Run(pda, s, steps).ledger, a), Unapplied(pda, s, steps, a, xs))
    decreases |steps|
  {
    if steps != [] {
      hide Next, PiledUp, Piled;
      StepPiles(pda, s, steps[0], a, xs);
      StepKeeps(pda, s, steps[0]);
      RunPiles(pda, Next(pda, s, steps[0]), steps[1..], a, Piled(pda, s, steps[0], a, xs));
    }
  }

  // ---------------------------------------------------------------- when it decrypts

  /**
   In every reachable state the high half is not negative and the low half is below 2^32. A pending balance decrypts, to
   exactly what its credits brought, if and only if, over the credits since the last apply, the low 16 bits of the fees add
   up to no more than the low 16 bits of the amounts, and the rest of the balance is below 2^48; otherwise it fails with a
   decryption error.
   */
  lemma PendingDecrypts(pda: Bytes -> Address, l: Ledger, epoch: nat, steps: seq<Step>, a: Address, keys: WalletKeys)
    requires Untouched(l)
    ensures var s, xs := Run(pda, State(l, epoch, map[]), steps), Unapplied(pda, State(l, epoch, map[]), steps, a, []);
            a in s.ledger.accounts && s.ledger.accounts[a].conf.Some? ==>
              var c := s.ledger.accounts[a].conf.value;
              var pending := PendingBalance(s.ledger.accounts[a], keys);
              && c.pendingHi >= 0 && c.pendingLo < U32 && c.Pending() == Net(xs)
              && (keys.elgamal == c.key ==>
                    if LowFees(xs) <= LowAmounts(xs) && Net(xs) - (LowAmounts(xs) - LowFees(xs)) < MAX_CONFIDENTIAL
                    then pending.Ok? && pending.value == Net(xs) else pending == Err(Crypto))
  {
    var start := State(l, epoch, map[]);
    assert Inv(start);
    RunKeeps(pda, start, steps);
    RunPiles(pda, start, steps, a, []);
    var s := Run(pda, start, steps);
    assert AccountOk(s, a);
    if a in s.ledger.accounts && s.ledger.accounts[a].conf.Some? {
      var c := s.ledger.accounts[a].conf.value;
      assert c.pendingLo <= (LO_BITS - 1) * MAXIMUM_PENDING_BALANCE_CREDITS;
      DecryptLoHiExact(keys.elgamal, Cipher(c.key, c.pendingLo), Cipher(c.key, c.pendingHi));
    }
  }

  /**
   A transfer that finds nothing pending: the sender, who knows the amount and the fee, can tell beforehand whether the
   recipient will be able to decrypt it alone.
   */
  lemma LoneTransferDecrypts(at: Ledger, after: Ledger, source: Address, destination: Address, decryptable: Cipher, amount: nat,
                             fee: nat, keys: WalletKeys)
    requires Confidential.Sent(at, after, source, destination, decryptable, amount, fee) && fee <= amount
    requires source != destination && at.accounts[destination].conf.value.key == keys.elgamal
    requires at.accounts[destination].conf.value.pendingLo == 0 && at.accounts[destination].conf.value.pendingHi == 0
    ensures var pending := PendingBalance(after.accounts[destination], keys);
            if fee % LO_BITS <= amount % LO_BITS then pending == Ok(amount - fee) else pending == Err(Crypto)
  {
    var c := after.accounts[destination].conf.value;
    DecryptLoHiExact(keys.elgamal, Cipher(c.key, c.pendingLo), Cipher(c.key, c.pendingHi));
    assert amount == amount % LO_BITS + LO_BITS * (amount / LO_BITS) && fee == fee % LO_BITS + LO_BITS * (fee / LO_BITS);
  }

  // ---------------------------------------------------------------- deposits alone

  /** A transfer from another account lands on `a`. */
  predicate Receives(s: State, step: Step, a: Address) {
    && step.Land? && step.account != a && step.account in s.flights
    && s.flights[step.account].Sending? && s.flights[step.account].destination == a
  }

  /** All that `a` is credited with are its own deposits and transfers to itself. */
  predicate NothingReceived(pda: Bytes -> Address, s: State, steps: seq<Step>, a: Address)
    decreases |steps|
  {
    steps == [] || (!Receives(s, steps[0], a) && NothingReceived(pda, Next(pda, s, steps[0]), steps[1..], a))
  }

  /** Such credits carry no fee. */
  lemma {:induction false} OwnCreditsCarryNoFee(pda: Bytes -> Address, s: State, steps: seq<Step>, a: Address, before: seq<Incoming>)
    requires NothingReceived(pda, s, steps, a) && LowFees(before) == 0
    ensures LowFees(Unapplied(pda, s, steps, a, before)) == 0
    decreases |steps|
  {
    if steps != [] {
      var credit := CreditOf(pda, s, steps[0], a);
      assert credit.Some? ==> credit.value.fee == 0;
      if credit.Some? {
        SumsPush(before, credit.value);
      }
      hide Next, CreditOf;
      OwnCreditsCarryNoFee(pda, Next(pda, s, steps[0]), steps[1..], a, Piled(pda, s, steps[0], a, before));
    }
  }

  /**
   An account credited by its own deposits alone, however many the program lets in, can always read and apply
   its pending balance as long as that is below 2^48.
   */
  lemma DepositsDecrypt(pda: Bytes -> Address, l: Ledger, epoch: nat, steps: seq<Step>, a: Address, keys: WalletKeys)
    requires Untouched(l) && NothingReceived(pda, State(l, epoch, map[]), steps, a)
    ensures var s := Run(pda, State(l, epoch, map[]), steps);
            a in s.ledger.accounts && s.ledger.accounts[a].conf.Some? ==>
              var c := s.ledger.accounts[a].conf.value;
              keys.elgamal == c.key && c.Pending() < MAX_CONFIDENTIAL ==>
                PendingBalance(s.ledger.accounts[a], keys) == Ok(c.Pending())
  {
    OwnCreditsCarryNoFee(pda, State(l, epoch, map[]), steps, a, []);
    PendingDecrypts(pda, l, epoch, steps, a, keys);
  }

  // ---------------------------------------------------------------- a transfer that does not decrypt

  const SENDER: Address := 1
  const RECIPIENT: Address := 2
  const SENDER_KEYS: WalletKeys := WalletKeys(11, 12)
  const RECIPIENT_KEYS: WalletKeys := WalletKeys(21, 22)
  const RATE: Fees.Rate := Fees.Rate(25, 2_500_000)

  /** Owned by its own address, approved, with this much public and this confidential balance. */
  function Holder(a: Address, amount: nat, conf: Conf): TokenAccount {
    TokenAccount(a, true, false, amount, 0, None, 0, false, Some(conf))
  }

  /** The confidential balance of an account just configured and approved. */
  function NewConf(keys: WalletKeys): Conf {
    Conf(keys.elgamal, true, 0, 0, 0, Cipher(keys.ae, 0), 0, MAXIMUM_PENDING_BALANCE_CREDITS, 0, 0, 0)
  }

  function Two(sender: TokenAccount, recipient: TokenAccount): Ledger {
    Ledger(map[SENDER := sender, RECIPIENT := recipient],
           Mint(65_536, 0, Fees.FeeConfig(Fees.TransferFee(0, RATE), Fees.TransferFee(0, RATE)), false),
           Roles(3, 4, 5, 6, 7, 8, None, Some(Approver(9, false)), None, 10))
  }

  /** The sender has 65,536 units in public; nobody has sent anything yet. */
  function Before(): Ledger {
    Two(Holder(SENDER, 65_536, NewConf(SENDER_KEYS)), Holder(RECIPIENT, 0, NewConf(RECIPIENT_KEYS)))
  }

  /** Deposit all of it, apply it, and send it to the recipient at 25 basis points. */
  function SendItAll(): seq<Step> {
    [Background(Deposit(SENDER, 65_536), {SENDER}), ReadApply(SENDER, SENDER_KEYS), Land(SENDER, {SENDER}),
     ReadTransfer(SENDER, SENDER_KEYS, RECIPIENT, RECIPIENT_KEYS.elgamal, 65_536, 164, RATE), Land(SENDER, {SENDER})]
  }

  lemma BeforeUntouched()
    ensures Untouched(Before())
  {
    var l := Before();
    Conservation.TotalWithout(l.accounts, SENDER);
    Conservation.TotalWithout(l.accounts - {SENDER}, RECIPIENT);
    assert l.accounts - {SENDER} - {RECIPIENT} == map[];
  }

  lemma Fee164()
    ensures Fees.CalculateFee(RATE, 65_536) == Some(164)
  {
    assert 65_536 * RATE.basisPoints == 1_638_400 && Fees.CeilDiv(1_638_400, 10_000) == 164;
  }

  /** What the sender has deposited and applied. */
  function Loaded(): TokenAccount {
    Holder(SENDER, 0, NewConf(SENDER_KEYS).(available := 65_536, decryptable := Cipher(SENDER_KEYS.ae, 65_536),
                                            expected := 1, actual := 1))
  }

  function Recipient(): TokenAccount {
    Holder(RECIPIENT, 0, NewConf(RECIPIENT_KEYS))
  }

  function Deposited(): Ledger {
    Two(Holder(SENDER, 0, NewConf(SENDER_KEYS).(pendingHi := 1, credits := 1)), Recipient())
  }

  lemma DepositStep(pda: Bytes -> Address)
    ensures Next(pda, State(Before(), 0, map[]), Background(Deposit(SENDER, 65_536), {SENDER})) == State(Deposited(), 0, map[])
  {
    var l := Before();
    var r := ExecDeposit(l, SENDER, 65_536, {SENDER});
    assert 65_536 % LO_BITS == 0 && 65_536 / LO_BITS == 1;
    assert r.Some? && r.value.accounts == Deposited().accounts;
  }

  lemma ApplySteps(pda: Bytes -> Address)
    ensures Next(pda, Next(pda, State(Deposited(), 0, map[]), ReadApply(SENDER, SENDER_KEYS)), Land(SENDER, {SENDER}))
         == State(Two(Loaded(), Recipient()), 0, map[])
  {
    var l, claim := Deposited(), Cipher(SENDER_KEYS.ae, 65_536);
    assert PrepareApply(l, SENDER, SENDER_KEYS) == Ok((ApplyPending(SENDER, 1, claim), 65_536));
    var s := Next(pda, State(l, 0, map[]), ReadApply(SENDER, SENDER_KEYS));
    assert s == State(l, 0, map[SENDER := Applying(1, claim)]);
    var r := ExecApply(l, SENDER, 1, claim, {SENDER});
    assert r.Some? && r.value.accounts == Two(Loaded(), Recipient()).accounts;
    assert s.flights - {SENDER} == map[];
  }

  /** The statements of the transfer, and the transfer in flight. */
  function Proofs(): seq<Statement> {
    TransferStatements(SENDER_KEYS.elgamal, 65_536, RECIPIENT_KEYS.elgamal, Before().roles, 65_536, 65_536, 164, RATE)
  }

  lemma ReadStep(pda: Bytes -> Address)
    ensures Next(pda, State(Two(Loaded(), Recipient()), 0, map[]),
                 ReadTransfer(SENDER, SENDER_KEYS, RECIPIENT, RECIPIENT_KEYS.elgamal, 65_536, 164, RATE))
         == State(Two(Loaded(), Recipient()), 0, map[SENDER := Sending(RECIPIENT, 65_536, Cipher(SENDER_KEYS.ae, 0), Proofs())])
  {
    var l := Two(Loaded(), Recipient());
    assert Spendable(l, SENDER, SENDER_KEYS, 65_536) == Ok(65_536);
  }

  /**
   A transfer the program accepts, that its recipient cannot decrypt: of 65,536 units at 25 basis points, 65,372 arrive as
   -164 and 1, and until another credit covers the low half neither reading nor applying the balance is possible.
   */
  lemma ReceivedMayNotDecrypt(pda: Bytes -> Address)
    ensures Untouched(Before())
    ensures var s := Run(pda, State(Before(), 0, map[]), SendItAll());
            && RECIPIENT in s.ledger.accounts && s.ledger.accounts[RECIPIENT].conf.Some?
            && s.ledger.accounts[RECIPIENT].conf.value.Pending() == 65_372
            && PendingBalance(s.ledger.accounts[RECIPIENT], RECIPIENT_KEYS) == Err(Crypto)
            && PrepareApply(s.ledger, RECIPIENT, RECIPIENT_KEYS) == Err(Crypto)
  {
    BeforeUntouched();
    DepositStep(pda);
    ApplySteps(pda);
    ReadStep(pda);
    TransferAccepted();
    var steps, s0 := SendItAll(), State(Before(), 0, map[]);
    RunFive(pda, s0, steps[0], steps[1], steps[2], steps[3], steps[4]);
    hide Spendable, Before, Deposited, Loaded, Recipient, Two, Proofs, ExecConfidentialTransfer, Run;
  }

  lemma RunFive(pda: Bytes -> Address, s: State, a: Step, b: Step, c: Step, d: Step, e: Step)
    ensures Run(pda, s, [a, b, c, d, e]) == Next(pda, Next(pda, Next(pda, Next(pda, Next(pda, s, a), b), c), d), e)
  {
    hide Next;
    RunOne(pda, s, a, [b, c, d, e]);
    RunOne(pda, Next(pda, s, a), b, [c, d, e]);
    var s2 := Next(pda, Next(pda, s, a), b);
    RunOne(pda, s2, c, [d, e]);
    RunOne(pda, Next(pda, s2, c), d, [e]);
    RunOne(pda, Next(pda, Next(pda, s2, c), d), e, []);
    assert [a] + [b, c, d, e] == [a, b, c, d, e] && [b] + [c, d, e] == [b, c, d, e] && [c] + [d, e] == [c, d, e]
        && [d] + [e] == [d, e] && [e] + [] == [e];
  }

  lemma RunOne(pda: Bytes -> Address, s: State, a: Step, rest: seq<Step>)
    ensures Run(pda, s, [a] + rest) == Run(pda, Next(pda, s, a), rest)
  {
    assert ([a] + rest)[1..] == rest;
  }

  lemma TransferAccepted()
    ensures var r := ExecConfidentialTransfer(Two(Loaded(), Recipient()), SENDER, RECIPIENT, Cipher(SENDER_KEYS.ae, 0), {SENDER},
                                              Proofs(), 0);
            && r.Some? && RECIPIENT in r.value.accounts && r.value.accounts[RECIPIENT].conf.Some?
            && var c := r.value.accounts[RECIPIENT].conf.value;
            && c.pendingLo == -164 && c.pendingHi == 1 && c.key == RECIPIENT_KEYS.elgamal
            && !StaleConf(c) && c.decryptable == Cipher(RECIPIENT_KEYS.ae, 0)
  {
    var l := Two(Loaded(), Recipient());
    var q := Confidential.Quote(65_536, 65_536, RECIPIENT_KEYS.elgamal, l.roles, 164, RATE, 0);
    Fee164();
    Confidential.TransferRefusedIff(Chain.World(map[], l, 0), SENDER, SENDER, RECIPIENT, SENDER_KEYS, q, 65_536);
    hide TransferProven, Fees.CalculateFee;
  }
}
