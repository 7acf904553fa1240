/**
 The token accounts of one mint and what the token program does to them. These are the rules of the
 environment the client library drives; ciphertexts are ideal, a key together with a plaintext.
 */
module Ledger {
  import opened Types
  import Agent
  import Fees

  const LO_BITS: nat := 0x1_0000
  const U32: nat := 0x1_0000_0000

  /** Largest amount a deposit or a confidential transfer can move: 48 bits. */
  const MAX_CONFIDENTIAL: nat := 0x1_0000_0000_0000

  datatype Cipher = Cipher(key: Address, value: int)

  /** What a zero-knowledge proof asserts about the ciphertexts and commitments it names. */
  datatype Statement =
    | Equality(remaining: Cipher, committed: int)
    | AmountValidity(lo: int, hi: int, source: Address, destination: Address, auditor: Option<Address>)
    | FeeSigma(amount: int, fee: int, rate: Fees.Rate)
    | FeeValidity(lo: int, hi: int, destination: Address, authority: Address)
    | Range(values: seq<(int, nat)>)

  /** Only true statements have proofs. */
  predicate Holds(s: Statement) {
    match s
    case Equality(remaining, committed) => remaining.value == committed
    case Range(values) => forall v | v in values :: 0 <= v.0 < v.1
    case FeeSigma(amount, fee, rate) => amount >= 0 && Fees.CalculateFee(rate, amount) == Some(fee)
    case _ => true
  }

  /** The confidential extension. `pending` is kept as `lo + 2^16 * hi`; the fee of a transfer is taken off each half. */
  datatype Conf = Conf(key: Address, approved: bool, pendingLo: int, pendingHi: int, available: int,
                       decryptable: Cipher, credits: nat, maxCredits: nat, expected: nat, actual: nat, withheld: int)
  {
    function Pending(): int { pendingLo + LO_BITS * pendingHi }
  }

  datatype TokenAccount = TokenAccount(owner: Address, immutableOwner: bool, frozen: bool, amount: nat, withheld: nat,
                                       delegate: Option<Address>, delegated: nat, cpiGuard: bool, conf: Option<Conf>)

  datatype Mint = Mint(supply: nat, withheld: nat, fees: Fees.FeeConfig, defaultFrozen: bool)

  /** Who admits accounts to confidential transfers, and whether they are admitted without being asked. */
  datatype Approver = Approver(authority: Address, automatic: bool)

  /** The fixed addresses and authorities of the deployment; without an approver there are no confidential transfers. */
  datatype Roles = Roles(mint: Address, tokenProgram: Address, minter: Address, freeze: Address, feeConfig: Address,
                         feeWithdraw: Address, permanentDelegate: Option<Address>, confidential: Option<Approver>,
                         auditor: Option<Address>, withheldKey: Address)

  datatype Ledger = Ledger(accounts: map<Address, TokenAccount>, mint: Mint, roles: Roles)

  datatype TokenIx =
    | Open(account: Address, owner: Address, immutableOwner: bool)
    | MintTo(account: Address, amount: nat)
    | Burn(account: Address, authority: Address, amount: nat)
    | Transfer(source: Address, destination: Address, authority: Address, amount: nat, fee: nat)
    | Approve(account: Address, delegate: Address, amount: nat)
    | Revoke(account: Address)
    | SetOwner(account: Address, owner: Address)
    | SetCpiGuard(account: Address, on: bool)
    | Freeze(account: Address)
    | Thaw(account: Address)
    | SetDefaultState(frozen: bool)
    | SetTransferFee(rate: Fees.Rate)
    | Harvest(sources: seq<Address>)
    | WithdrawFees(treasury: Address)
    | Configure(account: Address, key: Address, zero: Cipher, maxCredits: nat)
    | ApproveConfidential(account: Address)
    | Deposit(account: Address, amount: nat)
    | ApplyPending(account: Address, credits: nat, decryptable: Cipher)
    | ConfidentialTransfer(source: Address, destination: Address, decryptable: Cipher)
    | Withdraw(account: Address, amount: nat, decryptable: Cipher)
    | ExecuteMandate(accounts: seq<Address>, data: Bytes)

  function Put(l: Ledger, a: Address, account: TokenAccount): Ledger {
    l.(accounts := l.accounts[a := account])
  }

  // ---------------------------------------------------------------- public balances

  /** Who may move `amount` out of the account, and what that leaves of the delegate's allowance. */
  function Authorize(roles: Roles, account: TokenAccount, authority: Address, amount: nat,
                     toItself: bool, viaCpi: bool): Option<TokenAccount> {
    if roles.permanentDelegate == Some(authority) then Some(account)
    else if account.delegate == Some(authority) then
      if account.delegated < amount then None
      else if toItself then Some(account)
      else if account.delegated == amount then Some(account.(delegate := None, delegated := 0))
      else Some(account.(delegated := account.delegated - amount))
    else if account.owner == authority && !(viaCpi && account.cpiGuard) then Some(account)
    else None
  }

  /** `TransferCheckedWithFee`: the stated fee must be the fee of the epoch; a transfer to itself moves nothing. */
  function ExecTransfer(l: Ledger, source: Address, destination: Address, authority: Address, amount: nat, fee: nat,
                        viaCpi: bool, epoch: nat): Option<Ledger> {
    if source !in l.accounts || destination !in l.accounts then None
    else
      var s, d := l.accounts[source], l.accounts[destination];
      if s.frozen || d.frozen || s.amount < amount then None
      else if Fees.CalculateFee(Fees.EpochFee(l.mint.fees, epoch), amount) != Some(fee) || fee > amount then None
      else
        match Authorize(l.roles, s, authority, amount, source == destination, viaCpi)
        case None => None
        case Some(s') =>
          if source == destination then Some(l)
          else Some(Put(Put(l, source, s'.(amount := s.amount - amount)),
                        destination, d.(amount := d.amount + amount - fee, withheld := d.withheld + fee)))
  }

  function ExecBurn(l: Ledger, a: Address, authority: Address, amount: nat): Option<Ledger> {
    if a !in l.accounts || l.accounts[a].frozen || l.accounts[a].amount < amount || l.mint.supply < amount then None
    else
      match Authorize(l.roles, l.accounts[a], authority, amount, false, false)
      case None => None
      case Some(s) => Some(Put(l, a, s.(amount := s.amount - amount)).(mint := l.mint.(supply := l.mint.supply - amount)))
  }

  function ExecMintTo(l: Ledger, a: Address, amount: nat): Option<Ledger> {
    if a !in l.accounts || l.accounts[a].frozen || l.mint.supply + amount >= U64 then None
    else
      var d := l.accounts[a];
      Some(Put(l, a, d.(amount := d.amount + amount)).(mint := l.mint.(supply := l.mint.supply + amount)))
  }

  // ---------------------------------------------------------------- withheld fees

  /** Sweep the withheld fees of the listed accounts into the mint; an address without an account is passed over. */
  function ExecHarvest(l: Ledger, sources: seq<Address>): Ledger
    decreases |sources|
  {
    if sources == [] then l
    else if sources[0] !in l.accounts then ExecHarvest(l, sources[1..])
    else
      var s := l.accounts[sources[0]];
      var swept := Put(l, sources[0], s.(withheld := 0)).(mint := l.mint.(withheld := l.mint.withheld + s.withheld));
      ExecHarvest(swept, sources[1..])
  }

  function ExecWithdrawFees(l: Ledger, treasury: Address): Option<Ledger> {
    if treasury !in l.accounts || l.accounts[treasury].frozen then None
    else
      var t := l.accounts[treasury];
      Some(Put(l, treasury, t.(amount := t.amount + l.mint.withheld)).(mint := l.mint.(withheld := 0)))
  }

  // ---------------------------------------------------------------- confidential balances

  /** Owner-signed, configured and not frozen. */
  predicate Usable(l: Ledger, a: Address, signers: set<Address>) {
    && a in l.accounts
    && l.accounts[a].owner in signers
    && !l.accounts[a].frozen
    && l.accounts[a].conf.Some?
  }

  /** May take one more credit into its pending balance. */
  predicate Creditable(l: Ledger, a: Address) {
    && a in l.accounts
    && !l.accounts[a].frozen
    && l.accounts[a].conf.Some?
    && l.accounts[a].conf.value.approved
    && l.accounts[a].conf.value.credits < l.accounts[a].conf.value.maxCredits
  }

  function Credit(c: Conf, lo: int, hi: int): Conf {
    c.(pendingLo := c.pendingLo + lo, pendingHi := c.pendingHi + hi, credits := c.credits + 1)
  }

  function ExecDeposit(l: Ledger, a: Address, amount: nat, signers: set<Address>): Option<Ledger> {
    if !Usable(l, a, signers) || !Creditable(l, a) then None
    else if l.accounts[a].amount < amount || amount >= MAX_CONFIDENTIAL then None
    else
      var acc := l.accounts[a];
      Some(Put(l, a, acc.(amount := acc.amount - amount,
                          conf := Some(Credit(acc.conf.value, amount % LO_BITS, amount / LO_BITS)))))
  }

  /** The counters record which credits the new decryptable balance claims and which had arrived. */
  function ApplyTo(c: Conf, credits: nat, decryptable: Cipher): Conf {
    c.(available := c.available + c.Pending(), pendingLo := 0, pendingHi := 0, decryptable := decryptable,
       expected := credits, actual := c.credits, credits := 0)
  }

  function ExecApply(l: Ledger, a: Address, credits: nat, decryptable: Cipher, signers: set<Address>): Option<Ledger> {
    if !Usable(l, a, signers) then None
    else
      var acc := l.accounts[a];
      Some(Put(l, a, acc.(conf := Some(ApplyTo(acc.conf.value, credits, decryptable)))))
  }

  /** The balance left over is the one proven, and proven to be in range. */
  predicate DebitProven(c: Conf, amount: int, equality: Statement, range: Statement) {
    && equality.Equality? && range.Range?
    && equality.remaining == Cipher(c.key, c.available - amount)
    && |range.values| > 0 && range.values[0] == (equality.committed, U64)
    && Holds(equality) && Holds(range)
  }

  function ExecWithdraw(l: Ledger, a: Address, amount: nat, decryptable: Cipher, signers: set<Address>,
                        proofs: seq<Statement>): Option<Ledger> {
    if !Usable(l, a, signers) || |proofs| != 2 then None
    else
      var acc := l.accounts[a];
      var c := acc.conf.value;
      if !c.approved || !DebitProven(c, amount, proofs[0], proofs[1]) then None
      else Some(Put(l, a, acc.(amount := acc.amount + amount,
                               conf := Some(c.(available := c.available - amount, decryptable := decryptable)))))
  }

  /** The five proofs of a confidential transfer agree with each other, the accounts and the epoch's rate. */
  predicate TransferProven(l: Ledger, s: Conf, d: Conf, proofs: seq<Statement>, epoch: nat) {
    && |proofs| == 5
    && proofs[1].AmountValidity? && proofs[2].FeeSigma? && proofs[3].FeeValidity?
    && (forall p | p in proofs :: Holds(p))
    && var amount := proofs[1].lo + LO_BITS * proofs[1].hi;
    && var fee := proofs[3].lo + LO_BITS * proofs[3].hi;
    && DebitProven(s, amount, proofs[0], proofs[4])
    && proofs[1].source == s.key && proofs[1].destination == d.key && proofs[1].auditor == l.roles.auditor
    && proofs[2] == FeeSigma(amount, fee, Fees.EpochFee(l.mint.fees, epoch))
    && proofs[3].destination == d.key && proofs[3].authority == l.roles.withheldKey
    && proofs[4].values == [(proofs[0].committed, U64), (proofs[1].lo, LO_BITS), (proofs[1].hi, U32),
                            (proofs[3].lo, LO_BITS), (proofs[3].hi, U32)]
  }

  function ExecConfidentialTransfer(l: Ledger, source: Address, destination: Address, decryptable: Cipher,
                                    signers: set<Address>, proofs: seq<Statement>, epoch: nat): Option<Ledger> {
    if !Usable(l, source, signers) || !Creditable(l, destination) || !l.accounts[source].conf.value.approved then None
    else
      var s, d := l.accounts[source], l.accounts[destination];
      if !TransferProven(l, s.conf.value, d.conf.value, proofs, epoch) then None
      else
        var lo, hi, feeLo, feeHi := proofs[1].lo, proofs[1].hi, proofs[3].lo, proofs[3].hi;
        var sent := s.conf.value.(available := s.conf.value.available - lo - LO_BITS * hi, decryptable := decryptable);
        if source == destination then Some(Put(l, source, s.(conf := Some(Credit(sent, lo, hi)))))
        else
          var received := Credit(d.conf.value, lo - feeLo, hi - feeHi);
          Some(Put(Put(l, source, s.(conf := Some(sent))), destination,
                   d.(conf := Some(received.(withheld := received.withheld + feeLo + LO_BITS * feeHi)))))
  }

  // ---------------------------------------------------------------- one instruction

  function ExecAdmin(l: Ledger, ix: TokenIx, signers: set<Address>, epoch: nat): Option<Ledger> {
    match ix
    case Open(a, owner, immutableOwner) =>
      if a in l.accounts then None
      else Some(Put(l, a, TokenAccount(owner, immutableOwner, l.mint.defaultFrozen, 0, 0, None, 0, false, None)))
    case Approve(a, delegate, amount) =>
      if a !in l.accounts || l.accounts[a].frozen || l.accounts[a].owner !in signers then None
      else Some(Put(l, a, l.accounts[a].(delegate := Some(delegate), delegated := amount)))
    case Revoke(a) =>
      if a !in l.accounts || l.accounts[a].frozen || l.accounts[a].owner !in signers then None
      else Some(Put(l, a, l.accounts[a].(delegate := None, delegated := 0)))
    case SetOwner(a, owner) =>
      if a !in l.accounts || l.accounts[a].frozen || l.accounts[a].owner !in signers || l.accounts[a].immutableOwner then None
      else Some(Put(l, a, l.accounts[a].(owner := owner, delegate := None, delegated := 0)))
    case SetCpiGuard(a, on) =>
      if a !in l.accounts || l.accounts[a].owner !in signers then None
      else Some(Put(l, a, l.accounts[a].(cpiGuard := on)))
    case Freeze(a) =>
      if a !in l.accounts || l.accounts[a].frozen || l.roles.freeze !in signers then None
      else Some(Put(l, a, l.accounts[a].(frozen := true)))
    case Thaw(a) =>
      if a !in l.accounts || !l.accounts[a].frozen || l.roles.freeze !in signers then None
      else Some(Put(l, a, l.accounts[a].(frozen := false)))
    case SetDefaultState(frozen) =>
      if l.roles.freeze !in signers then None
      else Some(l.(mint := l.mint.(defaultFrozen := frozen)))
    case SetTransferFee(rate) =>
      if l.roles.feeConfig !in signers then None
      else
        match Fees.SetFee(l.mint.fees, epoch, rate) {
          case None => None
          case Some(fees) => Some(l.(mint := l.mint.(fees := fees)))
        }
    case Configure(a, key, zero, maxCredits) =>
      if a !in l.accounts || l.accounts[a].owner !in signers || l.accounts[a].conf.Some? || l.roles.confidential.None? then None
      else
        Some(Put(l, a, l.accounts[a].(conf := Some(Conf(key, l.roles.confidential.value.automatic, 0, 0, 0, zero, 0, maxCredits,
                                                        0, 0, 0)))))
    case ApproveConfidential(a) =>
      if a !in l.accounts || l.accounts[a].conf.None? || l.roles.confidential.None?
         || l.roles.confidential.value.authority !in signers then None
      else Some(Put(l, a, l.accounts[a].(conf := Some(l.accounts[a].conf.value.(approved := true)))))
    case _ => None
  }

  function ExecMandate(pda: Bytes -> Address, l: Ledger, accounts: seq<Address>, data: Bytes, epoch: nat): Option<Ledger> {
    match Agent.ProcessInstruction(pda, l.roles.tokenProgram, map[l.roles.mint := Some(l.mint.fees)], epoch, accounts, data)
    case Refuse(_) => None
    case Pay(source, _, destination, mandate, amount, fee) =>
      ExecTransfer(l, source, destination, mandate, amount, fee, true, epoch)
  }

  /** One token instruction with the statements of the proofs it names; none when the program refuses it. */
  function Exec(pda: Bytes -> Address, l: Ledger, ix: TokenIx, signers: set<Address>, proofs: seq<Statement>,
                epoch: nat): Option<Ledger> {
    match ix
    case MintTo(a, amount) => if l.roles.minter !in signers then None else ExecMintTo(l, a, amount)
    case Burn(a, authority, amount) => if authority !in signers then None else ExecBurn(l, a, authority, amount)
    case Transfer(source, destination, authority, amount, fee) =>
      if authority !in signers then None
      else ExecTransfer(l, source, destination, authority, amount, fee, false, epoch)
    case Harvest(sources) => Some(ExecHarvest(l, sources))
    case WithdrawFees(treasury) => if l.roles.feeWithdraw !in signers then None else ExecWithdrawFees(l, treasury)
    case Deposit(a, amount) => ExecDeposit(l, a, amount, signers)
    case ApplyPending(a, credits, decryptable) => ExecApply(l, a, credits, decryptable, signers)
    case ConfidentialTransfer(source, destination, decryptable) =>
      ExecConfidentialTransfer(l, source, destination, decryptable, signers, proofs, epoch)
    case Withdraw(a, amount, decryptable) => ExecWithdraw(l, a, amount, decryptable, signers, proofs)
    case ExecuteMandate(accounts, data) => ExecMandate(pda, l, accounts, data, epoch)
    case _ => ExecAdmin(l, ix, signers, epoch)
  }
}
