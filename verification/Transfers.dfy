/** Public transfers at the fee in force, the fee schedule, and the sweep that collects withheld fees. */
module Transfers {
  import opened Types
  import opened Packet
  import opened Ledger
  import opened Chain
  import opened ClusterModel
  import opened Submit
  import Conservation
  import Fees
  import Rely

  /** The amount the source paid, the part of it withheld, and the epoch that was computed for. */
  datatype FeeTransfer = FeeTransfer(amount: nat, fee: nat, epoch: nat)
  {
    /** What the recipient can spend. */
    function Net(): int { amount - fee }
  }

  function TransferIx(roles: Roles, source: Address, destination: Address, authority: Address, amount: nat, fee: nat): Ix {
    Instruction(roles.tokenProgram, [Meta(source, false), Meta(roles.mint, false), Meta(destination, false), Meta(authority, true)],
                19, Token(Transfer(source, destination, authority, amount, fee), None, []))
  }

  function SetTransferFeeIx(roles: Roles, authority: Address, rate: Fees.Rate): Ix {
    Instruction(roles.tokenProgram, [Meta(roles.mint, false), Meta(authority, true)], 12, Token(SetTransferFee(rate), None, []))
  }

  function HarvestIx(roles: Roles, sources: seq<Address>): Ix {
    Instruction(roles.tokenProgram,
                [Meta(roles.mint, false)] + seq(|sources|, i requires 0 <= i < |sources| => Meta(sources[i], false)), 2,
                Token(Harvest(sources), None, []))
  }

  function WithdrawFeesIx(roles: Roles, treasury: Address, authority: Address): Ix {
    Instruction(roles.tokenProgram, [Meta(roles.mint, false), Meta(treasury, false), Meta(authority, true)], 2,
                Token(WithdrawFees(treasury), None, []))
  }

  /** Sweep, then withdraw. */
  function SweepTx(roles: Roles, sources: seq<Address>, treasury: Address, authority: Address): (ixs: seq<Ix>)
    ensures forall ix | ix in ixs :: Plain(ix)
    ensures TokenIxs(ixs) == [Harvest(sources), WithdrawFees(treasury)]
  {
    [HarvestIx(roles, sources), WithdrawFeesIx(roles, treasury, authority)]
  }

  // ---------------------------------------------------------------- transfer_with_fee

  /**
   What a landed transfer did: the fee was the one in force where it landed, the source paid `amount` in full, and
   the destination got it, spendable or withheld; a transfer to itself leaves the balance alone.
   */
  ghost predicate Moved(at: World, after: Ledger, source: Address, destination: Address, t: FeeTransfer) {
    var before := at.ledger;
    && Fees.CalculateFee(Fees.EpochFee(before.mint.fees, at.epoch), t.amount) == Some(t.fee) && t.fee <= t.amount
    && source in before.accounts && destination in before.accounts
    && !before.accounts[source].frozen && !before.accounts[destination].frozen
    && t.amount <= before.accounts[source].amount
    && after.accounts.Keys == before.accounts.Keys && after.mint == before.mint
    && (forall a | a in before.accounts && a != source && a != destination :: after.accounts[a] == before.accounts[a])
    && (source == destination ==> after == before)
    && (source != destination ==>
          && (var s, s' := before.accounts[source], after.accounts[source];
              s' == s.(amount := s.amount - t.amount, delegate := s'.delegate, delegated := s'.delegated))
          && (var d := before.accounts[destination];
              after.accounts[destination] == d.(amount := d.amount + t.Net(), withheld := d.withheld + t.fee)))
  }

  lemma TransferMoved(at: World, source: Address, destination: Address, authority: Address, amount: nat, fee: nat,
                      viaCpi: bool, epoch: nat)
    ensures var r := ExecTransfer(at.ledger, source, destination, authority, amount, fee, viaCpi, at.epoch);
            r.Some? ==> Moved(at, r.value, source, destination, FeeTransfer(amount, fee, epoch))
  {}

  /**
   The fee quoted in the second and third of four turns is that of the mint as `at` has it for the epoch read, unless
   somebody changed the mint in between.
   */
  ghost predicate QuotedAt(script: nat -> Turn, turn: nat, epoch: nat, at: Ledger, amount: nat, quoted: nat) {
    script(turn + 2).others == [] && script(turn + 3).others == [] ==>
      Fees.CalculateFee(Fees.EpochFee(at.mint.fees, epoch + Elapsed(script, turn, 3)), amount) == Some(quoted)
  }

  lemma Quoted(script: nat -> Turn, turn: nat, epoch: nat, read: Ledger, at: Ledger, amount: nat, quoted: nat)
    requires script(turn + 2).others == [] ==>
               Fees.CalculateFee(Fees.EpochFee(read.mint.fees, epoch + Elapsed(script, turn, 3)), amount) == Some(quoted)
    requires script(turn + 3).others == [] ==> at == read
    ensures QuotedAt(script, turn, epoch, at, amount, quoted)
  {}

  /** Read the mint, then the clock, and work out the fee they give. */
  method ReadFee(c: Cluster, amount: nat) returns (r: Result<nat>, roles: Roles, epoch: nat)
    requires c.Valid()
    modifies c
    ensures c.Valid() && c.Live() == old(c.Live()) && c.landed == old(c.landed) && c.failures == old(c.failures)
    ensures c.nextKey == old(c.nextKey) && c.turn == old(c.turn) + 2
    ensures Rely.Undisturbed(c.owner, old(c.world.ledger), c.world.ledger) && roles == c.world.ledger.roles
    ensures epoch == c.world.epoch == old(c.world.epoch + c.script(c.turn).epochs + c.script(c.turn + 1).epochs)
    ensures Quiet(c.owner, c.script, old(c.Now()), c.Now()) && c.sent == old(c.sent)
    ensures amount < U64 ==> r.Ok?
    ensures r.Ok? && c.script(old(c.turn) + 1).others == [] ==>
              Fees.CalculateFee(Fees.EpochFee(c.world.ledger.mint.fees, epoch), amount) == Some(r.value)
  {
    hide Conservation.Conserved, Rely.Undisturbed, Fees.CalculateFee, Fees.EpochFee, Quiet, Reached;
    ghost var m := c.Now();
    var mint := c.Observe();
    ghost var m1 := c.Now();
    var now := c.Observe();
    QuietThen(c.owner, c.script, m, m1, c.Now());
    FeeKnown(mint.ledger, now.epoch, amount);
    roles, epoch := mint.ledger.roles, now.epoch;
    r := Fees.ExpectedFee(Some(mint.ledger.mint.fees), epoch, amount);
  }

  /** What was read before a transfer: the fee to state and the epoch it is of, and whether the source is frozen. */
  datatype Terms = Terms(roles: Roles, fee: nat, epoch: nat, frozen: bool)

  /** Read the account, the mint and the clock. */
  method ReadTerms(c: Cluster, source: Address, amount: nat) returns (r: Result<Terms>, ghost seen: Ledger)
    requires c.Valid()
    modifies c
    ensures c.Valid() && c.Live() == old(c.Live()) && c.landed == old(c.landed) && c.failures == old(c.failures)
    ensures c.nextKey == old(c.nextKey) && c.sent == old(c.sent) && Quiet(c.owner, c.script, old(c.Now()), c.Now())
    ensures Rely.Undisturbed(c.owner, old(c.world.ledger), seen)
    ensures c.script(old(c.turn)).others == [] ==> seen == old(c.world.ledger)
    ensures r.Err? && amount < U64 ==> r.error == NotFound(source) && source !in seen.accounts && seen == c.world.ledger
    ensures r.Ok? ==>
              var t := r.value;
              && c.turn == old(c.turn) + 3 && source in seen.accounts && t.frozen == seen.accounts[source].frozen
              && t.roles == c.world.ledger.roles && t.epoch == old(c.world.epoch) + Elapsed(c.script, old(c.turn), 3)
              && (c.script(old(c.turn) + 2).others == [] ==>
                    Fees.CalculateFee(Fees.EpochFee(c.world.ledger.mint.fees, t.epoch), amount) == Some(t.fee))
  {
    hide Conservation.Conserved, Rely.Undisturbed, Fees.CalculateFee, Fees.EpochFee, Quiet, Reached, Elapsed;
    ghost var m := c.Now();
    FirstEpochs(c.script, c.turn);
    var account := c.Observe();
    seen := c.world.ledger;
    ghost var m1 := c.Now();
    if source !in account.ledger.accounts {
      return Err(NotFound(source)), seen;
    }
    var fee, roles, epoch := ReadFee(c, amount);
    QuietThen(c.owner, c.script, m, m1, c.Now());
    if fee.Err? {
      return Err(fee.error), seen;
    }
    r := Ok(Terms(roles, fee.value, epoch, account.ledger.accounts[source].frozen));
  }

  /** As things stand the transfer is charged a fee, fits the packet, and is not refused. */
  ghost predicate MayTransfer(l: Ledger, epoch: nat, payer: Address, limit: nat, source: Address, destination: Address,
                              authority: Address, amount: nat) {
    var fee := Fees.CalculateFee(Fees.EpochFee(l.mint.fees, epoch), amount);
    && amount < U64 && fee.Some?
    && Fits([TransferIx(l.roles, source, destination, authority, amount, fee.value)], payer, limit)
    && ExecTransfer(l, source, destination, authority, amount, fee.value, false, epoch).Some?
  }

  lemma MayTransferSays(l: Ledger, epoch: nat, payer: Address, limit: nat, source: Address, destination: Address,
                        authority: Address, amount: nat)
    ensures MayTransfer(l, epoch, payer, limit, source, destination, authority, amount) ==> amount < U64 && source in l.accounts
  {
    hide Fits;
  }

  /** At the fee quoted while nobody else acted, what may be transferred is not refused. */
  lemma CalmTransfer(script: nat -> Turn, turn: nat, l: Ledger, epoch: nat, payer: Address, limit: nat, source: Address,
                     destination: Address, authority: Address, amount: nat, quoted: nat)
    requires Calm(script, turn, turn + 4) && QuotedAt(script, turn, epoch, l, amount, quoted)
    requires MayTransfer(l, epoch, payer, limit, source, destination, authority, amount)
    ensures Fits([TransferIx(l.roles, source, destination, authority, amount, quoted)], payer, limit)
    ensures ExecTransfer(l, source, destination, authority, amount, quoted, false, epoch).Some?
  {
    hide Fits, ExecTransfer;
    FirstEpochs(script, turn);
  }

  /**
   Read the account, the mint and the clock, and transfer at the fee they give: one transaction lands, charged that fee,
   or none does. The epoch reported is that of the third read. If nobody else acts and nothing is lost, what may be done
   is done.
   */
  method TransferWithFee(c: Cluster, source: Address, destination: Address, authority: Address, amount: nat)
    returns (r: Result<FeeTransfer>, ghost at: World, ghost quoted: nat)
    requires c.Valid() && authority < c.nextKey
    modifies c
    ensures c.Valid() && at.epoch == c.world.epoch
    ensures Reached(c.owner, c.script, old(c.Now()), c.turn, at.ledger, at.epoch)
    ensures r.Ok? ==> && r.value.amount == amount && Moved(at, c.world.ledger, source, destination, r.value)
                      && c.landed == old(c.landed)
                                     + [[TransferIx(at.ledger.roles, source, destination, authority, amount, quoted)]]
    ensures r.Ok? ==> r.value.epoch == old(c.world.epoch) + Elapsed(c.script, old(c.turn), 3) && r.value.fee == quoted
    ensures r.Err? && amount < U64 ==>
              || (r.error == NotFound(source) && source !in at.ledger.accounts) || !c.script(old(c.turn) + 3).lands
              || (QuotedAt(c.script, old(c.turn), old(c.world.epoch), at.ledger, amount, quoted)
                  && (|| !Fits([TransferIx(at.ledger.roles, source, destination, authority, amount, quoted)], c.payer, c.limit)
                      || ExecTransfer(at.ledger, source, destination, authority, amount, quoted, false, at.epoch).None?))
    ensures r.Ok? && amount < U64 ==> 0 <= r.value.Net() <= amount < U64
    ensures r.Err? ==> c.landed == old(c.landed) && c.world.ledger == at.ledger
    ensures r.Err? && amount < U64 ==>
              (r.error == NotFound(source) && source !in at.ledger.accounts) || c.failures == old(c.failures) + [r.error]
    ensures Calm(c.script, old(c.turn), c.turn) && !Dropped(c.script, old(c.sent), c.sent)
            && MayTransfer(old(c.world.ledger), old(c.world.epoch), c.payer, c.limit, source, destination, authority, amount)
            ==> r.Ok?
  {
    hide Exec, Conservation.Conserved, Moved, Rely.Undisturbed, ExecTransfer, Elapsed, Fits, Fees.CalculateFee, Fees.EpochFee,
         Quiet, Reached, Dropped, MayTransfer, Calm, QuotedAt;
    ghost var m := c.Now();
    MayTransferSays(m.ledger, m.epoch, c.payer, c.limit, source, destination, authority, amount);
    quoted := 0;
    var terms, seen := ReadTerms(c, source, amount);
    ghost var m1 := c.Now();
    at := c.world;
    QuietSays(c.owner, c.script, m, m1);
    if terms.Err? {
      return Err(terms.error), at, quoted;
    }
    var t := FeeTransfer(amount, terms.value.fee, terms.value.epoch);
    quoted := t.fee;
    var sent;
    sent, at := SendTransfer(c, terms.value.roles, source, destination, authority, t);
    QuietThen(c.owner, c.script, m, m1, Moment(c.turn, c.sent, m.landed, at.ledger, at.epoch));
    if sent.Ok? {
      MovedNet(at, c.world.ledger, source, destination, t);
      r := Ok(t);
    } else {
      r := Err(sent.error);
      Quoted(c.script, m.turn, m.epoch, m1.ledger, at.ledger, amount, quoted);
      OneDropped(c.script, m.sent, c.sent, m.turn + 3, [TransferIx(at.ledger.roles, source, destination, authority, amount, quoted)],
                 at);
      if Calm(c.script, m.turn, c.turn) && MayTransfer(m.ledger, m.epoch, c.payer, c.limit, source, destination, authority, amount) {
        CalmTransfer(c.script, m.turn, m.ledger, m.epoch, c.payer, c.limit, source, destination, authority, amount, quoted);
      }
    }
  }

  /** Send a transfer that states its fee. */
  method SendTransfer(c: Cluster, roles: Roles, source: Address, destination: Address, authority: Address, t: FeeTransfer)
    returns (r: Result<()>, ghost at: World)
    requires c.Valid() && authority < c.nextKey && roles == c.world.ledger.roles
    modifies c
    ensures c.Valid() && c.turn == old(c.turn) + 1 && c.failures == Told(r, old(c.failures)) && (r.Err? ==> SendFailed(r))
    ensures Rely.Undisturbed(c.owner, old(c.world.ledger), at.ledger) && at.ledger.roles == roles
    ensures c.script(old(c.turn)).others == [] ==> at.ledger == old(c.world.ledger)
    ensures c.sent == old(c.sent) + [Attempt(old(c.turn), [TransferIx(roles, source, destination, authority, t.amount, t.fee)], at)]
    ensures at.epoch == c.world.epoch
    ensures Quiet(c.owner, c.script, old(c.Now()), Moment(c.turn, c.sent, old(c.landed), at.ledger, at.epoch))
    ensures r.Ok? ==> && Moved(at, c.world.ledger, source, destination, t)
                      && c.landed == old(c.landed) + [[TransferIx(roles, source, destination, authority, t.amount, t.fee)]]
    ensures r.Err? ==> c.landed == old(c.landed) && c.world.ledger == at.ledger
    ensures r.Err? ==>
              || !c.script(old(c.turn)).lands
              || !Fits([TransferIx(roles, source, destination, authority, t.amount, t.fee)], c.payer, c.limit)
              || ExecTransfer(at.ledger, source, destination, authority, t.amount, t.fee, false, at.epoch).None?
  {
    hide Exec, Conservation.Conserved, Moved, Rely.Undisturbed, ExecTransfer, Fits, Quiet;
    ghost var l := c.world.ledger;
    var ix := TransferIx(roles, source, destination, authority, t.amount, t.fee);
    r, at := SendOne(c, ix, {authority});
    SameRoles(c.owner, l, at.ledger);
    ExecOfTransfer(c.env.pda, at.ledger, ix.op.ix, {c.payer} + {authority}, at.epoch);
    TransferMoved(at, source, destination, authority, t.amount, t.fee, false, t.epoch);
  }

  lemma FeeKnown(l: Ledger, epoch: nat, amount: nat)
    requires Conservation.Conserved(l)
    ensures amount < U64 ==> Fees.ExpectedFee(Some(l.mint.fees), epoch, amount).Ok?
  {
    if amount < U64 {
      Fees.ExpectedFeeRefusals(Some(l.mint.fees), epoch, amount);
    }
  }

  lemma ExecOfTransfer(pda: Bytes -> Address, l: Ledger, ix: TokenIx, signers: set<Address>, epoch: nat)
    requires ix.Transfer? && ix.authority in signers
    ensures Exec(pda, l, ix, signers, [], epoch)
         == ExecTransfer(l, ix.source, ix.destination, ix.authority, ix.amount, ix.fee, false, epoch)
  {}

  lemma MovedNet(at: World, after: Ledger, source: Address, destination: Address, t: FeeTransfer)
    requires Moved(at, after, source, destination, t)
    ensures 0 <= t.Net() <= t.amount
  {}

  // ---------------------------------------------------------------- set_transfer_fee

  /** A new rate lands as the program schedules it: two epochs later, and until then the old one holds. */
  method SetRate(c: Cluster, authority: Address, rate: Fees.Rate) returns (r: Result<()>, ghost at: World)
    requires c.Valid() && authority < c.nextKey
    modifies c
    ensures c.Valid() && at.epoch == c.world.epoch
    ensures Reached(c.owner, c.script, old(c.Now()), c.turn, at.ledger, at.epoch)
    ensures r.Ok? ==> && c.landed == old(c.landed) + [[SetTransferFeeIx(at.ledger.roles, authority, rate)]]
                      && Fees.SetFee(at.ledger.mint.fees, at.epoch, rate) == Some(c.world.ledger.mint.fees)
                      && (forall epoch: nat | at.epoch <= epoch ::
                            Fees.EpochFee(c.world.ledger.mint.fees, epoch)
                            == if epoch < at.epoch + 2 then Fees.EpochFee(at.ledger.mint.fees, at.epoch) else rate)
                      && c.world.ledger.accounts == at.ledger.accounts
    ensures r.Err? ==> c.world.ledger == at.ledger && c.landed == old(c.landed) && c.failures == old(c.failures) + [r.error]
    ensures r.Err? ==> || !c.script(old(c.turn)).lands || at.ledger.roles.feeConfig !in {c.payer} + {authority} || !Fees.RateOk(rate)
                       || !Fits([SetTransferFeeIx(at.ledger.roles, authority, rate)], c.payer, c.limit)
  {
    hide Exec, Conservation.Conserved, Rely.Undisturbed, Fits, Quiet, Reached;
    ghost var m := c.Now();
    var ix := SetTransferFeeIx(c.world.ledger.roles, authority, rate);
    r, at := SendOne(c, ix, {authority});
    QuietSays(c.owner, c.script, m, Moment(c.turn, c.sent, m.landed, at.ledger, at.epoch));
    ExecOfSetFee(c.env.pda, at.ledger, ix.op.ix, {c.payer} + {authority}, at.epoch);
  }

  lemma SameRoles(owner: Address, l: Ledger, l': Ledger)
    requires Rely.Undisturbed(owner, l, l')
    ensures l'.roles == l.roles
  {}

  lemma ExecOfSetFee(pda: Bytes -> Address, l: Ledger, ix: TokenIx, signers: set<Address>, epoch: nat)
    requires ix.SetTransferFee?
    ensures var r := Exec(pda, l, ix, signers, [], epoch);
            && (r.Some? <==> l.roles.feeConfig in signers && Fees.RateOk(ix.rate))
            && (r.Some? ==> Fees.SetFee(l.mint.fees, epoch, ix.rate) == Some(r.value.mint.fees) && r.value.accounts == l.accounts)
  {}

  // ---------------------------------------------------------------- collect_fees

  function WithheldOf(accounts: map<Address, TokenAccount>, a: Address): nat {
    if a in accounts then accounts[a].withheld else 0
  }

  /** What the accounts at these addresses withhold, each counted once. */
  ghost function SumWithheld(accounts: map<Address, TokenAccount>, sources: set<Address>): nat {
    if sources == {} then 0
    else
      var a :| a in sources;
      WithheldOf(accounts, a) + SumWithheld(accounts, sources - {a})
  }

  lemma {:induction false} SumWithout(accounts: map<Address, TokenAccount>, sources: set<Address>, a: Address)
    requires a in sources
    ensures SumWithheld(accounts, sources) == WithheldOf(accounts, a) + SumWithheld(accounts, sources - {a})
    decreases sources
  {
    var b :| b in sources && SumWithheld(accounts, sources) == WithheldOf(accounts, b) + SumWithheld(accounts, sources - {b});
    if a != b {
      SumWithout(accounts, sources - {b}, a);
      SumWithout(accounts, sources - {a}, b);
      assert sources - {b} - {a} == sources - {a} - {b};
    }
  }

  lemma {:induction false} SumElsewhere(accounts: map<Address, TokenAccount>, accounts': map<Address, TokenAccount>, sources: set<Address>)
    requires forall a | a in sources :: WithheldOf(accounts, a) == WithheldOf(accounts', a)
    ensures SumWithheld(accounts, sources) == SumWithheld(accounts', sources)
    decreases sources
  {
    if sources != {} {
      var a :| a in sources && SumWithheld(accounts, sources) == WithheldOf(accounts, a) + SumWithheld(accounts, sources - {a});
      SumWithout(accounts', sources, a);
      SumElsewhere(accounts, accounts', sources - {a});
    }
  }

  function Listed(sources: seq<Address>): set<Address> {
    set a | a in sources
  }

  /** These accounts were emptied into the mint, and nothing else changed. */
  ghost predicate Harvested(before: Ledger, after: Ledger, sources: set<Address>) {
    && after.roles == before.roles
    && after.mint == before.mint.(withheld := before.mint.withheld + SumWithheld(before.accounts, sources))
    && after.accounts.Keys == before.accounts.Keys
    && forall a | a in before.accounts ::
         after.accounts[a] == if a in sources then before.accounts[a].(withheld := 0) else before.accounts[a]
  }

  /** A harvest empties exactly the listed accounts into the mint, listed twice or not, and changes nothing else. */
  lemma {:induction false} HarvestExact(l: Ledger, sources: seq<Address>)
    ensures Harvested(l, ExecHarvest(l, sources), Listed(sources))
    decreases |sources|
  {
    if sources == [] {
      assert Listed(sources) == {};
    } else {
      hide Harvested;
      var a, rest := sources[0], sources[1..];
      var others := Listed(rest);
      assert Listed(sources) == others + {a};
      var swept := l;
      if a in l.accounts {
        var s := l.accounts[a];
        swept := Put(l, a, s.(withheld := 0)).(mint := l.mint.(withheld := l.mint.withheld + s.withheld));
      }
      assert ExecHarvest(l, sources) == ExecHarvest(swept, rest);
      HarvestExact(swept, rest);
      HarvestedStep(l, swept, ExecHarvest(swept, rest), others, a);
    }
  }

  lemma HarvestedStep(l: Ledger, swept: Ledger, h: Ledger, others: set<Address>, a: Address)
    requires Harvested(swept, h, others)
    requires if a in l.accounts then
               swept == Put(l, a, l.accounts[a].(withheld := 0))
                        .(mint := l.mint.(withheld := l.mint.withheld + l.accounts[a].withheld))
             else swept == l
    ensures Harvested(l, h, others + {a})
  {
    hide SumWithheld;
    SumWithout(l.accounts, others + {a}, a);
    SweptSum(l.accounts, swept.accounts, others, a);
  }

  lemma SweptSum(accounts: map<Address, TokenAccount>, swept: map<Address, TokenAccount>, others: set<Address>, a: Address)
    requires WithheldOf(swept, a) == 0 && forall b | b != a :: WithheldOf(swept, b) == WithheldOf(accounts, b)
    ensures SumWithheld(swept, others) == SumWithheld(accounts, others + {a} - {a})
  {
    if a in others {
      SumWithout(swept, others, a);
      assert others + {a} - {a} == others - {a};
      SumElsewhere(swept, accounts, others - {a});
    } else {
      assert others + {a} - {a} == others;
      SumElsewhere(swept, accounts, others);
    }
  }

  /** The treasury received everything the distinct sources and the mint withheld; none of them withholds anything now. */
  ghost predicate Collected(before: Ledger, after: Ledger, sources: seq<Address>, treasury: Address) {
    var revenue := SumWithheld(before.accounts, Listed(sources)) + before.mint.withheld;
    && treasury in before.accounts && !before.accounts[treasury].frozen
    && after.accounts.Keys == before.accounts.Keys && after.roles == before.roles
    && after.mint == before.mint.(withheld := 0)
    && forall a | a in before.accounts ::
         var amount := before.accounts[a].amount + (if a == treasury then revenue else 0);
         after.accounts[a] == before.accounts[a].(amount := amount,
                                                  withheld := if a in sources then 0 else before.accounts[a].withheld)
  }

  lemma SweepCollects(pda: Bytes -> Address, l: Ledger, sources: seq<Address>, treasury: Address, signers: set<Address>, epoch: nat)
    ensures var r := ExecTokens(pda, l, [Harvest(sources), WithdrawFees(treasury)], signers, epoch);
            && (r.Some? <==> treasury in l.accounts && !l.accounts[treasury].frozen && l.roles.feeWithdraw in signers)
            && (r.Some? ==> Collected(l, r.value, sources, treasury))
  {
    hide SumWithheld;
    var ixs := [Harvest(sources), WithdrawFees(treasury)];
    HarvestExact(l, sources);
    assert ixs[1..] == [WithdrawFees(treasury)] && ixs[1..][1..] == [];
    var h := ExecHarvest(l, sources);
    assert Exec(pda, l, ixs[0], signers, [], epoch) == Some(h);
    assert ExecTokens(pda, h, ixs[1..], signers, epoch) == Exec(pda, h, ixs[1], signers, [], epoch);
  }

  lemma RevenueArrived(before: Ledger, after: Ledger, sources: seq<Address>, treasury: Address)
    requires Collected(before, after, sources, treasury) && Conservation.Conserved(after)
    ensures after.accounts[treasury].amount == before.accounts[treasury].amount + Revenue(before, sources) < U64
  {
    Conservation.BalanceWithinSupply(after, treasury);
    assert Conservation.Sane(after.accounts[treasury]);
  }

  ghost function Revenue(l: Ledger, sources: seq<Address>): nat {
    SumWithheld(l.accounts, Listed(sources)) + l.mint.withheld
  }

  /** By how much others changed the balance of the treasury: before the sweep met it, and since. */
  function Drift(first: Ledger, at: Ledger, after: Ledger, now: Ledger, treasury: Address): int
    requires treasury in first.accounts && treasury in at.accounts && treasury in after.accounts && treasury in now.accounts
  {
    at.accounts[treasury].amount - first.accounts[treasury].amount
    + now.accounts[treasury].amount - after.accounts[treasury].amount
  }

  /** By how much a treasury that collected grew between two reads. */
  lemma GrowthReported(owner: Address, first: Ledger, at: Ledger, after: Ledger, now: Ledger, sources: seq<Address>,
                       treasury: Address)
    requires treasury in first.accounts && Collected(at, after, sources, treasury)
    requires Conservation.Conserved(after) && Rely.Undisturbed(owner, after, now)
    ensures treasury in at.accounts && treasury in after.accounts && treasury in now.accounts
    ensures var growth := (now.accounts[treasury].amount + U64 - first.accounts[treasury].amount) % U64;
            && growth == (Revenue(at, sources) + Drift(first, at, after, now, treasury)) % U64
            && (first == at && now == after ==> growth == Revenue(at, sources))
  {
    RevenueArrived(at, after, sources, treasury);
    hide Revenue, Conservation.Conserved;
    Wrapped(now.accounts[treasury].amount - first.accounts[treasury].amount);
  }

  lemma Wrapped(n: int)
    ensures (n + U64) % U64 == n % U64
  {}

  /**
   Sweep the sources into the mint, withdraw to the treasury, and report by how much the treasury grew between the two
   reads, in wrapping u64 arithmetic: the revenue, and whatever others moved into or out of the treasury meanwhile.
   */
  method CollectFees(c: Cluster, sources: seq<Address>, treasury: Address, authority: Address)
    returns (r: Result<nat>, ghost first: Ledger, ghost at: World, ghost after: Ledger)
    requires c.Valid() && authority < c.nextKey
    modifies c
    ensures c.Valid()
    ensures Reached(c.owner, c.script, old(c.Now()), c.turn, at.ledger, at.epoch)
    ensures r.Ok? ==> && Collected(at.ledger, after, sources, treasury)
                      && c.landed == old(c.landed) + [SweepTx(first.roles, sources, treasury, authority)]
    ensures r.Err? ==> c.landed == old(c.landed) && c.world.ledger == at.ledger && c.world.epoch == at.epoch
    ensures r.Err? ==> (r.error == NotFound(treasury) && treasury !in at.ledger.accounts) || c.failures == old(c.failures) + [r.error]
    ensures r.Ok? ==> && treasury in first.accounts && treasury in at.ledger.accounts && treasury in after.accounts
                      && treasury in c.world.ledger.accounts
                      && r.value == (Revenue(at.ledger, sources) + Drift(first, at.ledger, after, c.world.ledger, treasury)) % U64
    ensures c.script(old(c.turn)).others == [] ==> first == old(c.world.ledger)
    ensures r.Ok? && c.script(old(c.turn) + 1).others == [] && c.script(old(c.turn) + 2).others == [] ==>
              r.value == Revenue(at.ledger, sources) && first == at.ledger && after == c.world.ledger
    ensures r.Err? ==> || treasury !in at.ledger.accounts || at.ledger.accounts[treasury].frozen
                       || !c.script(old(c.turn) + 1).lands || first.roles.feeWithdraw !in {c.payer} + {authority}
                       || !Fits(SweepTx(first.roles, sources, treasury, authority), c.payer, c.limit)
    ensures Calm(c.script, old(c.turn), c.turn) && !Dropped(c.script, old(c.sent), c.sent)
            && old(treasury in c.world.ledger.accounts && !c.world.ledger.accounts[treasury].frozen
                   && c.world.ledger.roles.feeWithdraw in {c.payer} + {authority})
            && Fits(SweepTx(old(c.world.ledger.roles), sources, treasury, authority), c.payer, c.limit)
            ==> r.Ok? && r.value == Revenue(old(c.world.ledger), sources)
  {
    hide Conservation.Conserved, Rely.Undisturbed, Collected, Revenue, Drift, SweepTx, Fits, Quiet, Reached, Dropped;
    ghost var m := c.Now();
    var before := c.Observe();
    first, at, after := c.world.ledger, c.world, c.world.ledger;
    ghost var m1 := c.Now();
    QuietSays(c.owner, c.script, m, m1);
    if treasury !in before.ledger.accounts {
      return Err(NotFound(treasury)), first, at, after;
    }
    var sent;
    sent, at := Sweep(c, before.ledger.roles, sources, treasury, authority);
    after := c.world.ledger;
    QuietThen(c.owner, c.script, m, m1, Moment(c.turn, c.sent, m.landed, at.ledger, at.epoch));
    if sent.Err? {
      OneDropped(c.script, m.sent, c.sent, m.turn + 1, SweepTx(first.roles, sources, treasury, authority), at);
      return Err(sent.error), first, at, after;
    }
    ReachedLater(c.owner, c.script, m, c.turn, c.turn + 1, at.ledger, at.epoch);
    var now := c.Observe();
    GrowthReported(c.owner, first, at.ledger, after, now.ledger, sources, treasury);
    if treasury !in now.ledger.accounts {
      return Err(NotFound(treasury)), first, at, after;
    }
    r := Ok((now.ledger.accounts[treasury].amount + U64 - before.ledger.accounts[treasury].amount) % U64);
  }

  /** The transaction of a collection: both instructions land or neither does. */
  method Sweep(c: Cluster, roles: Roles, sources: seq<Address>, treasury: Address, authority: Address)
    returns (r: Result<()>, ghost at: World)
    requires c.Valid() && authority < c.nextKey && roles == c.world.ledger.roles
    modifies c
    ensures c.Valid() && c.turn == old(c.turn) + 1 && Rely.Undisturbed(c.owner, old(c.world.ledger), at.ledger)
    ensures c.script(old(c.turn)).others == [] ==> at.ledger == old(c.world.ledger)
    ensures c.sent == old(c.sent) + [Attempt(old(c.turn), SweepTx(roles, sources, treasury, authority), at)]
    ensures at.epoch == c.world.epoch
    ensures Quiet(c.owner, c.script, old(c.Now()), Moment(c.turn, c.sent, old(c.landed), at.ledger, at.epoch))
    ensures c.failures == Told(r, old(c.failures)) && (r.Err? ==> SendFailed(r))
    ensures r.Ok? ==> && Collected(at.ledger, c.world.ledger, sources, treasury)
                      && c.landed == old(c.landed) + [SweepTx(roles, sources, treasury, authority)]
    ensures r.Err? ==> c.landed == old(c.landed) && c.world.ledger == at.ledger
    ensures r.Err? ==> || treasury !in at.ledger.accounts || at.ledger.accounts[treasury].frozen
                       || !c.script(old(c.turn)).lands || roles.feeWithdraw !in {c.payer} + {authority}
                       || !Fits(SweepTx(roles, sources, treasury, authority), c.payer, c.limit)
  {
    hide Exec, Conservation.Conserved, Rely.Undisturbed, Collected, SweepTx, Fits, Quiet;
    ghost var l := c.world.ledger;
    r, at := SendPlain(c, SweepTx(roles, sources, treasury, authority), {authority});
    SameRoles(c.owner, l, at.ledger);
    SweepCollects(c.env.pda, at.ledger, sources, treasury, {c.payer} + {authority}, at.epoch);
  }
}
