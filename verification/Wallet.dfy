/** What a wallet computes from the accounts it reads: decrypted balances, refusals, and the instructions it prepares. */
module Wallet {
  import opened Types
  import opened Ledger
  import Conservation
  import Fees
  import Rely

  /** The two keys of one confidential account: one for what is sent to it, one for the owner's copy of the balance. */
  datatype WalletKeys = WalletKeys(elgamal: Address, ae: Address)

  // ---------------------------------------------------------------- decryption

  /** ElGamal decryption finds 32-bit amounts only, under the right key only. */
  function DecryptU32(key: Address, c: Cipher): Option<nat> {
    if c.key == key && 0 <= c.value < U32 then Some(c.value) else None
  }

  function CheckedU64(n: nat): Option<nat> {
    if n < U64 then Some(n) else None
  }

  /** `lo + hi * 2^16`, each part decrypted, with checked u64 arithmetic. */
  function DecryptLoHi(key: Address, lo: Cipher, hi: Cipher): Result<nat> {
    match DecryptU32(key, hi)
    case None => Err(Crypto)
    case Some(h) =>
      match (CheckedU64(h * LO_BITS), DecryptU32(key, lo))
      case (Some(high), Some(low)) => (match CheckedU64(high + low) case None => Err(Crypto) case Some(sum) => Ok(sum))
      case _ => Err(Crypto)
  }

  /** The spendable balance, from the owner's own copy; refused when the counters show the copy is stale. */
  function AvailableBalance(account: TokenAccount, keys: WalletKeys): Result<nat> {
    match account.conf
    case None => Err(Invalid)
    case Some(c) =>
      if c.expected != c.actual then Err(Invalid)
      else if c.decryptable.key != keys.ae || !(0 <= c.decryptable.value < U64) then Err(Crypto)
      else Ok(c.decryptable.value)
  }

  function PendingBalance(account: TokenAccount, keys: WalletKeys): Result<nat> {
    match account.conf
    case None => Err(Invalid)
    case Some(c) => DecryptLoHi(keys.elgamal, Cipher(c.key, c.pendingLo), Cipher(c.key, c.pendingHi))
  }

  /** Decryption is exact where it succeeds, and it succeeds exactly while both halves are in 32 bits. */
  lemma DecryptLoHiExact(key: Address, lo: Cipher, hi: Cipher)
    ensures DecryptLoHi(key, lo, hi).Ok? <==>
            lo.key == key && hi.key == key && 0 <= lo.value < U32 && 0 <= hi.value < U32
    ensures DecryptLoHi(key, lo, hi).Ok? ==> DecryptLoHi(key, lo, hi).value == lo.value + LO_BITS * hi.value
    ensures DecryptLoHi(key, lo, hi).Err? ==> DecryptLoHi(key, lo, hi).error == Crypto
  {}

  // ---------------------------------------------------------------- agreement and staleness

  predicate StaleConf(c: Conf) {
    c.expected != c.actual
  }

  /** Unless the counters tell otherwise, the owner's copy is the balance on chain. */
  predicate AgreedConf(c: Conf) {
    StaleConf(c) || c.decryptable.value == c.available
  }

  predicate Stale(l: Ledger, a: Address) {
    a in l.accounts && l.accounts[a].conf.Some? && StaleConf(l.accounts[a].conf.value)
  }

  predicate Agreed(l: Ledger, a: Address) {
    a in l.accounts && l.accounts[a].conf.Some? ==> AgreedConf(l.accounts[a].conf.value)
  }

  // ---------------------------------------------------------------- preparing the three flows

  /** The instruction an apply sends, and the balance it will report. */
  function PrepareApply(l: Ledger, a: Address, keys: WalletKeys): Result<(TokenIx, nat)> {
    if a !in l.accounts then Err(NotFound(a))
    else
      match AvailableBalance(l.accounts[a], keys)
      case Err(e) => Err(e)
      case Ok(available) =>
        match PendingBalance(l.accounts[a], keys)
        case Err(e) => Err(e)
        case Ok(pending) =>
          Ok((ApplyPending(a, l.accounts[a].conf.value.credits, Cipher(keys.ae, available + pending)), available + pending))
  }

  /** What may be spent of an account: refused when stale, undecryptable or short. */
  function Spendable(l: Ledger, a: Address, keys: WalletKeys, amount: nat): Result<nat> {
    if a !in l.accounts then Err(NotFound(a))
    else
      match AvailableBalance(l.accounts[a], keys)
      case Err(e) => Err(e)
      case Ok(available) => if available < amount then Err(Insufficient(available, amount)) else Ok(available)
  }

  /** What a withdraw proves: under `key`, `value - amount` is what is left, it is `balance - amount`, and that is in u64. */
  function WithdrawStatements(key: Address, value: int, balance: nat, amount: nat): (Statement, Statement) {
    (Equality(Cipher(key, value - amount), balance - amount), Range([(balance - amount, U64)]))
  }

  /** The five statements of a transfer of `amount` with `fee`, in the order the instruction names their proofs. */
  function TransferStatements(key: Address, value: int, destinationKey: Address, roles: Roles, available: nat, amount: nat,
                              fee: nat, rate: Fees.Rate): seq<Statement> {
    var lo, hi, feeLo, feeHi := amount % LO_BITS, amount / LO_BITS, fee % LO_BITS, fee / LO_BITS;
    [Equality(Cipher(key, value - amount), available - amount),
     AmountValidity(lo, hi, key, destinationKey, roles.auditor),
     FeeSigma(amount, fee, rate),
     FeeValidity(feeLo, feeHi, destinationKey, roles.withheldKey),
     Range([(available - amount, U64), (lo, LO_BITS), (hi, U32), (feeLo, LO_BITS), (feeHi, U32)])]
  }

  /** A stale account is refused by all three flows. */
  lemma StaleRefused(l: Ledger, a: Address, keys: WalletKeys, amount: nat)
    requires Stale(l, a)
    ensures PrepareApply(l, a, keys) == Err(Invalid) && Spendable(l, a, keys, amount) == Err(Invalid)
  {}

  /**
   What a prepared apply is worth: the sum is the true balance, within u64, and the counter it claims is that
   of the credits it counted.
   */
  lemma PreparedApply(l: Ledger, a: Address, keys: WalletKeys)
    requires Conservation.Conserved(l) && Agreed(l, a) && PrepareApply(l, a, keys).Ok?
    ensures var c := l.accounts[a].conf.value;
            && a in l.accounts && l.accounts[a].conf.Some? && !StaleConf(c)
            && PrepareApply(l, a, keys).value.1 == c.available + c.Pending() < U64
            && PrepareApply(l, a, keys).value.0
               == ApplyPending(a, c.credits, Cipher(keys.ae, c.available + c.Pending()))
  {
    var c := l.accounts[a].conf.value;
    DecryptLoHiExact(keys.elgamal, Cipher(c.key, c.pendingLo), Cipher(c.key, c.pendingHi));
    Conservation.BalanceWithinSupply(l, a);
    assert Conservation.Sane(l.accounts[a]);
  }

  /** What may be spent is the true balance, so what is left after spending stays in u64. */
  lemma SpendableExact(l: Ledger, a: Address, keys: WalletKeys, amount: nat)
    requires Agreed(l, a) && Spendable(l, a, keys, amount).Ok?
    ensures var c := l.accounts[a].conf.value;
            && a in l.accounts && l.accounts[a].conf.Some? && !StaleConf(c)
            && Spendable(l, a, keys, amount).value == c.available == c.decryptable.value
            && amount <= c.available < U64
  {}

  /** The owner's copy is up to date and theirs to read: no credit was missed, and it says what is available. */
  predicate Current(c: Conf, keys: WalletKeys) {
    c.expected == c.actual && c.decryptable == Cipher(keys.ae, c.available) && c.key == keys.elgamal
  }

  /** On a ledger that balances, the owner of an agreeing account may spend exactly what is available, unless it is stale. */
  lemma SpendableIff(l: Ledger, a: Address, keys: WalletKeys, amount: nat)
    requires Conservation.Conserved(l) && Agreed(l, a) && a in l.accounts && l.accounts[a].conf.Some?
    requires l.accounts[a].conf.value.decryptable.key == keys.ae
    ensures Spendable(l, a, keys, amount).Ok? <==> !Stale(l, a) && amount <= l.accounts[a].conf.value.available
    ensures Spendable(l, a, keys, amount).Ok? ==> Spendable(l, a, keys, amount).value == l.accounts[a].conf.value.available
  {
    Conservation.BalanceWithinSupply(l, a);
    assert Conservation.Sane(l.accounts[a]);
  }

  /** And apply what is pending exactly when, besides, both halves of it decrypt. */
  lemma PrepareApplyIff(l: Ledger, a: Address, keys: WalletKeys)
    requires Conservation.Conserved(l) && Agreed(l, a) && a in l.accounts && l.accounts[a].conf.Some?
    requires l.accounts[a].conf.value.decryptable.key == keys.ae && l.accounts[a].conf.value.key == keys.elgamal
    ensures var c := l.accounts[a].conf.value;
            PrepareApply(l, a, keys).Ok? <==> !Stale(l, a) && 0 <= c.pendingLo < U32 && 0 <= c.pendingHi < U32
  {
    var c := l.accounts[a].conf.value;
    DecryptLoHiExact(keys.elgamal, Cipher(c.key, c.pendingLo), Cipher(c.key, c.pendingHi));
    SpendableIff(l, a, keys, 0);
  }

  // ---------------------------------------------------------------- executing what was prepared

  /**
   An apply prepared from `seen` and executed in `at`: agreement holds again, and the account is stale exactly
   when a credit arrived in between; if not, the balance is the one reported.
   */
  lemma ApplyExecuted(owner: Address, seen: Ledger, at: Ledger, a: Address, keys: WalletKeys, signers: set<Address>)
    requires Conservation.Conserved(seen) && Agreed(seen, a) && PrepareApply(seen, a, keys).Ok?
    requires seen.accounts[a].owner == owner && Rely.Undisturbed(owner, seen, at)
    ensures var ix, reported := PrepareApply(seen, a, keys).value.0, PrepareApply(seen, a, keys).value.1;
            var r := ExecApply(at, a, ix.credits, ix.decryptable, signers);
            r.Some? ==>
              var before, c := at.accounts[a].conf.value, r.value.accounts[a].conf.value;
              && Agreed(r.value, a)
              && (Stale(r.value, a) <==> before.credits != seen.accounts[a].conf.value.credits)
              && (!Stale(r.value, a) ==> c.available == reported)
              && c.available == before.available + before.Pending() && c.Pending() == 0 && c.credits == 0
  {
    PreparedApply(seen, a, keys);
    var x, y := seen.accounts[a].conf.value, at.accounts[a].conf.value;
    assert Rely.ConfRely(Some(x), Some(y));
  }
}
