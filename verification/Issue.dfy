/** What a created mint stands for: the empty ledger it opens, who holds which power over it, and the two issues. */
module Issue {
  import opened Types
  import opened Minting
  import Compliance
  import Conservation
  import Fees
  import L = Ledger
  import Runs

  // ---------------------------------------------------------------- from the mint account to the ledger

  /** What the mint was initialized to for this extension. */
  function Find(inits: seq<Init>, kind: Extension): Option<Init> {
    if inits == [] then None
    else if Kind(inits[0]) == kind then Some(inits[0])
    else Find(inits[1..], kind)
  }

  lemma {:induction false} Found(inits: seq<Init>, kind: Extension)
    ensures Find(inits, kind).Some? ==> Kind(Find(inits, kind).value) == kind
  {
    if inits != [] {
      Found(inits[1..], kind);
    }
  }

  /** Without the extension nobody has the power, or nothing is set. */
  const NOBODY: Address := 0

  function RolesOf(key: Address, tokenProgram: Address, inits: seq<Init>, mint: Address, freeze: Address,
                   config: Init): L.Roles
    requires config.InitTransferFee?
  {
    Found(inits, PermanentDelegate);
    Found(inits, ConfidentialTransferMint);
    Found(inits, ConfidentialTransferFeeConfig);
    var delegate, confidential, fee :=
      Find(inits, PermanentDelegate), Find(inits, ConfidentialTransferMint), Find(inits, ConfidentialTransferFeeConfig);
    L.Roles(key, tokenProgram, mint, freeze, config.configAuthority, config.withdrawAuthority,
            match delegate case None => None case Some(i) => Some(i.delegate),
            match confidential case None => None case Some(i) => Some(L.Approver(i.authority, i.autoApprove)),
            match confidential case None => None case Some(i) => i.auditor,
            match fee case None => NOBODY case Some(i) => i.withheldKey)
  }

  /** The ledger of a mint with fees and a freeze authority, as it is when the mint is created: no accounts, no supply. */
  function Issued(key: Address, tokenProgram: Address, account: MintAccount, epoch: nat): Option<L.Ledger> {
    if !account.Live? || account.freeze.None? || Find(account.inits, TransferFeeConfig).None? then None
    else
      Found(account.inits, TransferFeeConfig);
      Found(account.inits, DefaultAccountState);
      var config, default := Find(account.inits, TransferFeeConfig).value, Find(account.inits, DefaultAccountState);
      var fee := Fees.TransferFee(epoch, config.rate);
      Some(L.Ledger(map[], L.Mint(0, 0, Fees.FeeConfig(fee, fee), default.Some? && default.value.frozen),
                    RolesOf(key, tokenProgram, account.inits, account.authority, account.freeze.value, config)))
  }

  /** The powers over the mint account itself, and over fees withheld on confidential transfers. */
  datatype Offices = Offices(close: Option<Address>, pointer: Option<(Address, Address)>, update: Option<Address>,
                             confidentialFees: Option<Address>)

  function OfficesOf(account: MintAccount): Offices
    requires account.Live?
  {
    Found(account.inits, MintCloseAuthority);
    Found(account.inits, MetadataPointer);
    Found(account.inits, ConfidentialTransferFeeConfig);
    var close, pointer, fees := Find(account.inits, MintCloseAuthority), Find(account.inits, MetadataPointer),
                                Find(account.inits, ConfidentialTransferFeeConfig);
    Offices(match close case None => None case Some(i) => Some(i.authority),
            match pointer case None => None case Some(i) => Some((i.authority, i.target)),
            match account.metadata case None => None case Some(x) => Some(x.update),
            match fees case None => None case Some(i) => Some(i.authority))
  }

  // ---------------------------------------------------------------- who can do what

  /** Each power over the public side of the ledger is the planned one's, and nobody else's. */
  ghost predicate Governed(pda: Bytes -> Address, l: L.Ledger, key: Address, authorities: Authorities, signers: set<Address>,
                           a: Address, rate: Fees.Rate, epoch: nat) {
    && l.roles.mint == key
    && (forall amount ::
          L.Exec(pda, l, L.MintTo(a, amount), signers, [], epoch).Some?
          <==> authorities.mint in signers && a in l.accounts && !l.accounts[a].frozen && l.mint.supply + amount < U64)
    && (L.Exec(pda, l, L.Thaw(a), signers, [], epoch).Some?
        <==> authorities.freeze in signers && a in l.accounts && l.accounts[a].frozen)
    && (L.Exec(pda, l, L.Freeze(a), signers, [], epoch).Some?
        <==> authorities.freeze in signers && a in l.accounts && !l.accounts[a].frozen)
    && (L.Exec(pda, l, L.SetTransferFee(rate), signers, [], epoch).Some? <==> authorities.feeConfig in signers && Fees.RateOk(rate))
    && (L.Exec(pda, l, L.WithdrawFees(a), signers, [], epoch).Some?
        <==> authorities.feeWithdraw in signers && a in l.accounts && !l.accounts[a].frozen)
  }

  lemma GovernedBy(pda: Bytes -> Address, l: L.Ledger, key: Address, authorities: Authorities, signers: set<Address>, a: Address,
                   rate: Fees.Rate, epoch: nat)
    requires l.roles.mint == key && l.roles.minter == authorities.mint && l.roles.freeze == authorities.freeze
    requires l.roles.feeConfig == authorities.feeConfig && l.roles.feeWithdraw == authorities.feeWithdraw
    ensures Governed(pda, l, key, authorities, signers, a, rate, epoch)
  {}

  /** An empty ledger at this rate: it balances, every account opened is frozen, and the rate is charged in every epoch. */
  ghost predicate Fresh(pda: Bytes -> Address, l: L.Ledger, start: nat, rate: Fees.Rate) {
    && l.accounts == map[] && l.mint.supply == 0 && l.mint.withheld == 0
    && l.mint.fees == Fees.Replay(start, rate, [])
    && (forall epoch: nat :: Fees.EpochFee(l.mint.fees, epoch) == rate)
    && (forall a, owner, immutableOwner, signers, epoch ::
          var r := L.Exec(pda, l, L.Open(a, owner, immutableOwner), signers, [], epoch);
          r.Some? && a in r.value.accounts && r.value.accounts[a].frozen && r.value.accounts[a].owner == owner)
  }

  lemma FreshFrom(pda: Bytes -> Address, l: L.Ledger, start: nat, rate: Fees.Rate)
    requires l.accounts == map[] && l.mint == L.Mint(0, 0, Fees.Replay(start, rate, []), true)
    ensures Fresh(pda, l, start, rate)
    ensures Fees.RateOk(rate) ==> Runs.Untouched(l)
  {}

  /** What `Compliance`, `Runs` and `Schedule` start from holds of it, so their theorems are about the mint created. */
  lemma DeskFromIssue(pda: Bytes -> Address, l: L.Ledger, start: nat, rate: Fees.Rate, steps: seq<Compliance.Step>)
    requires Fresh(pda, l, start, rate) && l.mint.defaultFrozen && Compliance.AskDefault(false) !in steps
    ensures var d := Compliance.Run(pda, Compliance.Desk(l, start, {}, map[]), steps);
            forall a | a in d.ledger.accounts && !d.ledger.accounts[a].frozen :: Compliance.Vouched(d, a)
  {
    Compliance.ThawedMeansApproved(pda, l, start, steps);
  }

  // ---------------------------------------------------------------- the first issue

  /** The mint created from the first issue's inits. */
  lemma FirstIssue(pda: Bytes -> Address, key: Address, tokenProgram: Address, authorities: Authorities, rate: Fees.Rate,
                   lamports: nat, m: Metadata, epoch: nat)
    ensures var account := Described(key, V1Inits(key, authorities, rate), lamports, authorities, m, |m.additional|);
            var l := Issued(key, tokenProgram, account, epoch);
            && l.Some? && l.value.mint == L.Mint(0, 0, Fees.Replay(epoch, rate, []), true) && l.value.accounts == map[]
            && l.value.roles == L.Roles(key, tokenProgram, authorities.mint, authorities.freeze, authorities.feeConfig,
                                        authorities.feeWithdraw, None, None, None, NOBODY)
            && OfficesOf(account) == Offices(Some(authorities.close), Some((authorities.metadata, key)),
                                             Some(authorities.metadata), None)
  {
    FindInFour(V1Inits(key, authorities, rate), [], TransferFeeConfig);
    FindInFour(V1Inits(key, authorities, rate), [], DefaultAccountState);
    FindInFour(V1Inits(key, authorities, rate), [], MintCloseAuthority);
    FindInFour(V1Inits(key, authorities, rate), [], MetadataPointer);
    FindInFour(V1Inits(key, authorities, rate), [], PermanentDelegate);
    FindInFour(V1Inits(key, authorities, rate), [], ConfidentialTransferMint);
    FindInFour(V1Inits(key, authorities, rate), [], ConfidentialTransferFeeConfig);
    assert V1Inits(key, authorities, rate) + [] == V1Inits(key, authorities, rate);
  }

  lemma FindInFour(inits: seq<Init>, more: seq<Init>, kind: Extension)
    requires |inits| == 4
    ensures Find(inits + more, kind)
         == if Kind(inits[0]) == kind then Some(inits[0])
            else if Kind(inits[1]) == kind then Some(inits[1])
            else if Kind(inits[2]) == kind then Some(inits[2])
            else if Kind(inits[3]) == kind then Some(inits[3])
            else Find(more, kind)
  {
    var all := inits + more;
    assert all[1..][1..] == all[2..] && all[2..][1..] == all[3..] && all[3..][1..] == all[4..] && all[4..] == more;
    assert Find(all[3..], kind) == if Kind(all[3]) == kind then Some(all[3]) else Find(more, kind);
    assert Find(all[2..], kind) == if Kind(all[2]) == kind then Some(all[2]) else Find(all[3..], kind);
    assert Find(all[1..], kind) == if Kind(all[1]) == kind then Some(all[1]) else Find(all[2..], kind);
  }

  // ---------------------------------------------------------------- the re-issue

  /** The mint created from the first issue's inits and the added ones. */
  lemma SecondIssue(pda: Bytes -> Address, key: Address, tokenProgram: Address, authorities: Authorities,
                    compliance: ComplianceAuthorities, rate: Fees.Rate, lamports: nat, m: Metadata, epoch: nat)
    ensures var inits := V1Inits(key, authorities, rate) + V2AddedInits(authorities, compliance);
            var account := Described(key, inits, lamports, authorities, m, |m.additional|);
            var l := Issued(key, tokenProgram, account, epoch);
            && l.Some? && l.value.mint == L.Mint(0, 0, Fees.Replay(epoch, rate, []), true) && l.value.accounts == map[]
            && l.value.roles == L.Roles(key, tokenProgram, authorities.mint, authorities.freeze, authorities.feeConfig,
                                        authorities.feeWithdraw, Some(compliance.seizure),
                                        Some(L.Approver(compliance.confidential, false)), Some(compliance.auditor),
                                        compliance.withheldKey)
            && OfficesOf(account) == Offices(Some(authorities.close), Some((authorities.metadata, key)),
                                             Some(authorities.metadata), Some(authorities.feeWithdraw))
  {
    var v1, v2 := V1Inits(key, authorities, rate), V2AddedInits(authorities, compliance);
    FindInFour(v1, v2, TransferFeeConfig);
    FindInFour(v1, v2, DefaultAccountState);
    FindInFour(v1, v2, MintCloseAuthority);
    FindInFour(v1, v2, MetadataPointer);
    FindInFour(v1, v2, PermanentDelegate);
    FindInFour(v1, v2, ConfidentialTransferMint);
    FindInFour(v1, v2, ConfidentialTransferFeeConfig);
    FindInThree(v2, PermanentDelegate);
    FindInThree(v2, ConfidentialTransferMint);
    FindInThree(v2, ConfidentialTransferFeeConfig);
  }

  lemma FindInThree(inits: seq<Init>, kind: Extension)
    requires |inits| == 3
    ensures Find(inits, kind)
         == if Kind(inits[0]) == kind then Some(inits[0])
            else if Kind(inits[1]) == kind then Some(inits[1])
            else if Kind(inits[2]) == kind then Some(inits[2])
            else None
  {
    assert inits[1..][1..] == inits[2..] && |inits[2..][1..]| == 0;
    assert Find(inits[2..], kind) == if Kind(inits[2]) == kind then Some(inits[2]) else None;
    assert Find(inits[1..], kind) == if Kind(inits[1]) == kind then Some(inits[1]) else Find(inits[2..], kind);
  }

  /** The powers the re-issue adds: seizure needs no one's leave, and an account takes part once it was admitted by hand. */
  ghost predicate Supervised(pda: Bytes -> Address, l: L.Ledger, compliance: ComplianceAuthorities, signers: set<Address>,
                             a: Address, to: Address, amount: nat, fee: nat, key: Address, zero: L.Cipher, credits: nat,
                             epoch: nat) {
    && (var seized := L.Exec(pda, l, L.Transfer(a, to, compliance.seizure, amount, fee), signers, [], epoch);
        seized.Some?
        <==> && compliance.seizure in signers && a in l.accounts && to in l.accounts && !l.accounts[a].frozen
             && !l.accounts[to].frozen && amount <= l.accounts[a].amount && fee <= amount
             && Fees.CalculateFee(Fees.EpochFee(l.mint.fees, epoch), amount) == Some(fee))
    && (var configured := L.Exec(pda, l, L.Configure(a, key, zero, credits), signers, [], epoch);
        configured.Some? ==> a in l.accounts && l.accounts[a].owner in signers && !L.Creditable(configured.value, a))
    && (var admitted := L.Exec(pda, l, L.ApproveConfidential(a), signers, [], epoch);
        && (admitted.Some? <==> compliance.confidential in signers && a in l.accounts && l.accounts[a].conf.Some?)
        && (admitted.Some? ==> admitted.value.accounts[a].conf.value.approved))
  }

  lemma SupervisedBy(pda: Bytes -> Address, l: L.Ledger, compliance: ComplianceAuthorities, signers: set<Address>,
                     a: Address, to: Address, amount: nat, fee: nat, key: Address, zero: L.Cipher, credits: nat, epoch: nat)
    requires l.roles.permanentDelegate == Some(compliance.seizure)
    requires l.roles.confidential == Some(L.Approver(compliance.confidential, false))
    ensures Supervised(pda, l, compliance, signers, a, to, amount, fee, key, zero, credits, epoch)
  {
    hide Fees.CalculateFee, Fees.EpochFee;
  }

  /** Without an approver no account is ever configured. */
  lemma NoConfidentialAccounts(pda: Bytes -> Address, l: L.Ledger, a: Address, key: Address, zero: L.Cipher, credits: nat,
                               signers: set<Address>, epoch: nat)
    requires l.roles.confidential.None?
    ensures L.Exec(pda, l, L.Configure(a, key, zero, credits), signers, [], epoch).None?
  {}

  // ---------------------------------------------------------------- plan and create

  /**
   The first issue, planned and created. What it opens is an empty ledger that freezes every account opened and charges the
   planned rate, with every power in the planned hands, now and as long as the roles are these.
   */
  method CreateV1(site: MintSite, m: Metadata, rate: Fees.Rate, ghost pda: Bytes -> Address, ghost tokenProgram: Address,
                  ghost epoch: nat) returns (plan: Plan, ok: bool)
    requires site.Valid()
    modifies site
    ensures site.Valid() && plan.extensions == V1_EXTENSIONS
    ensures ok <==> old(site.account.Absent?) && site.script(old(site.slot)).lands && site.script(old(site.slot) + 1).lands
    ensures ok ==>
              var l := Issued(site.key, tokenProgram, site.account, epoch);
              && l.Some? && Fresh(pda, l.value, epoch, rate) && l.value.mint.defaultFrozen
              && l.value.roles.confidential.None? && l.value.roles.permanentDelegate.None?
              && (forall l': L.Ledger, signers, a, r, e | l'.roles == l.value.roles ::
                    Governed(pda, l', site.key, site.authorities, signers, a, r, e))
              && OfficesOf(site.account) == Offices(Some(site.authorities.close), Some((site.authorities.metadata, site.key)),
                                                    Some(site.authorities.metadata), None)
  {
    hide Described, PlanFor, V1Inits, Legal, Fresh, Governed, OfficesOf, Issued;
    plan := PlanV1(site.rules, site.key, site.authorities, m, rate);
    ghost var inits := V1Inits(site.key, site.authorities, rate);
    BothLegal(site.key, site.authorities, ComplianceAuthorities(0, 0, 0, 0), rate);
    ok := site.CreateMint(plan, inits, m);
    if ok {
      FirstIssue(pda, site.key, tokenProgram, site.authorities, rate, plan.lamports, m, epoch);
      ghost var l := Issued(site.key, tokenProgram, site.account, epoch).value;
      FreshFrom(pda, l, epoch, rate);
      GovernedAlways(pda, l, site.key, site.authorities);
    }
  }

  lemma GovernedAlways(pda: Bytes -> Address, l: L.Ledger, key: Address, authorities: Authorities)
    requires l.roles.mint == key && l.roles.minter == authorities.mint && l.roles.freeze == authorities.freeze
    requires l.roles.feeConfig == authorities.feeConfig && l.roles.feeWithdraw == authorities.feeWithdraw
    ensures forall l': L.Ledger, signers, a, r, e | l'.roles == l.roles :: Governed(pda, l', key, authorities, signers, a, r, e)
  {
    forall l': L.Ledger, signers, a, r, e | l'.roles == l.roles ensures Governed(pda, l', key, authorities, signers, a, r, e) {
      GovernedBy(pda, l', key, authorities, signers, a, r, e);
    }
  }

  /** The re-issue: the same, and the permanent delegate, the approver, the auditor and the key of withheld fees are the planned ones. */
  method CreateV2(site: MintSite, compliance: ComplianceAuthorities, m: Metadata, rate: Fees.Rate, ghost pda: Bytes -> Address,
                  ghost tokenProgram: Address, ghost epoch: nat) returns (plan: Plan, ok: bool)
    requires site.Valid()
    modifies site
    ensures site.Valid() && plan.extensions == V1_EXTENSIONS + V2_ADDED_EXTENSIONS
    ensures ok <==> old(site.account.Absent?) && site.script(old(site.slot)).lands && site.script(old(site.slot) + 1).lands
    ensures ok ==>
              var l := Issued(site.key, tokenProgram, site.account, epoch);
              && l.Some? && Fresh(pda, l.value, epoch, rate) && l.value.mint.defaultFrozen
              && (forall l': L.Ledger, signers, a, r, e | l'.roles == l.value.roles ::
                    Governed(pda, l', site.key, site.authorities, signers, a, r, e))
              && (forall l': L.Ledger, signers, a, to, amount, fee, key, zero, credits, e | l'.roles == l.value.roles ::
                    Supervised(pda, l', compliance, signers, a, to, amount, fee, key, zero, credits, e))
              && l.value.roles.auditor == Some(compliance.auditor) && l.value.roles.withheldKey == compliance.withheldKey
              && OfficesOf(site.account) == Offices(Some(site.authorities.close), Some((site.authorities.metadata, site.key)),
                                                    Some(site.authorities.metadata), Some(site.authorities.feeWithdraw))
  {
    hide Described, PlanFor, V1Inits, V2AddedInits, Legal, Fresh, Governed, Supervised, OfficesOf, Issued;
    plan := PlanV2(site.rules, site.key, site.authorities, compliance, m, rate);
    ghost var inits := V1Inits(site.key, site.authorities, rate) + V2AddedInits(site.authorities, compliance);
    BothLegal(site.key, site.authorities, compliance, rate);
    ok := site.CreateMint(plan, inits, m);
    if ok {
      SecondIssue(pda, site.key, tokenProgram, site.authorities, compliance, rate, plan.lamports, m, epoch);
      ghost var l := Issued(site.key, tokenProgram, site.account, epoch).value;
      FreshFrom(pda, l, epoch, rate);
      GovernedAlways(pda, l, site.key, site.authorities);
      forall l': L.Ledger, signers, a, to, amount, fee, key, zero, credits, e | l'.roles == l.roles
        ensures Supervised(pda, l', compliance, signers, a, to, amount, fee, key, zero, credits, e)
      {
        SupervisedBy(pda, l', compliance, signers, a, to, amount, fee, key, zero, credits, e);
      }
    }
  }
}
