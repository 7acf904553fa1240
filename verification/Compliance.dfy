/**
 The KYC desk and seizure. Every thawed account was approved, with an owner that cannot change; a frozen
 account's funds move only by seizure, and it is frozen again when its transaction ends.
 */
module Compliance {
  import opened Types
  import opened Packet
  import opened Ledger
  import opened Chain
  import opened ClusterModel
  import opened Submit
  import Agent
  import Conservation
  import Fees
  import Rely
  import Transfers

  // ---------------------------------------------------------------- what the desk asks for

  /** A transaction signed with the freeze authority, prepared from what was read and not yet decided. */
  datatype Request =
    | Thawing(account: Address)
    | Freezing(account: Address)
    | Defaulting(frozen: bool)
    | Seizing(from: Address, to: Address, delegate: Address, amount: nat, fee: nat, thaw: bool)

  /** KYC cleared: only a frozen account whose owner cannot be replaced qualifies. */
  function PrepareApproval(l: Ledger, a: Address): Result<Request> {
    if a !in l.accounts then Err(NotFound(a))
    else if !l.accounts[a].immutableOwner then Err(Invalid)
    else if !l.accounts[a].frozen then Err(Invalid)
    else Ok(Thawing(a))
  }

  /** KYC revoked. */
  function PrepareRevocation(l: Ledger, a: Address): Result<Request> {
    if a !in l.accounts then Err(NotFound(a))
    else if l.accounts[a].frozen then Err(Invalid)
    else Ok(Freezing(a))
  }

  /** Seizure, thawing and freezing again around the transfer if the account was read frozen. */
  function PrepareSeizure(l: Ledger, from: Address, to: Address, delegate: Address, amount: nat, fee: nat): Result<Request> {
    if from !in l.accounts then Err(NotFound(from))
    else Ok(Seizing(from, to, delegate, amount, fee, l.accounts[from].frozen))
  }

  function RequestIxs(request: Request): seq<TokenIx> {
    match request
    case Thawing(a) => [Thaw(a)]
    case Freezing(a) => [Freeze(a)]
    case Defaulting(frozen) => [SetDefaultState(frozen)]
    case Seizing(from, to, delegate, amount, fee, thaw) =>
      if thaw then [Thaw(from), Transfer(from, to, delegate, amount, fee), Freeze(from)]
      else [Transfer(from, to, delegate, amount, fee)]
  }

  // ---------------------------------------------------------------- what a landed request did

  /** What was seized left `from` and reached `to` less the fee, as in any transfer; `from` is as frozen as it was. */
  ghost predicate Seized(before: Ledger, after: Ledger, epoch: nat, from: Address, to: Address, t: Transfers.FeeTransfer) {
    && from in before.accounts && from in after.accounts
    && after.accounts[from].frozen == before.accounts[from].frozen
    && Transfers.Moved(World(map[], Thawed(before, from), epoch), Thawed(after, from), from, to, t)
  }

  /** The ledger with one account thawed. */
  function Thawed(l: Ledger, a: Address): Ledger
    requires a in l.accounts
  {
    Put(l, a, l.accounts[a].(frozen := false))
  }

  lemma SeizureLands(pda: Bytes -> Address, l: Ledger, request: Request, signers: set<Address>, epoch: nat)
    requires request.Seizing?
    ensures var r := ExecTokens(pda, l, RequestIxs(request), signers, epoch);
            r.Some? ==> && Seized(l, r.value, epoch, request.from, request.to,
                                  Transfers.FeeTransfer(request.amount, request.fee, epoch))
                        && l.accounts[request.from].frozen == request.thaw
                        && r.value.roles == l.roles
  {
    hide Transfers.Moved, ExecTransfer, Exec;
    var from, to, ixs := request.from, request.to, RequestIxs(request);
    var transfer := Transfer(from, to, request.delegate, request.amount, request.fee);
    TransferAlone(pda, l, from, to, request.delegate, request.amount, request.fee, signers, epoch);
    if request.thaw {
      assert ixs[1..] == [transfer, Freeze(from)] && ixs[1..][1..] == [Freeze(from)] && ixs[1..][1..][1..] == [];
      ThawOne(pda, l, from, signers, epoch);
      var thawed := Exec(pda, l, ixs[0], signers, [], epoch);
      if thawed.Some? {
        TransferAlone(pda, thawed.value, from, to, request.delegate, request.amount, request.fee, signers, epoch);
        var moved := Exec(pda, thawed.value, transfer, signers, [], epoch);
        if moved.Some? {
          FreezeOne(pda, moved.value, from, signers, epoch);
          assert ExecTokens(pda, moved.value, [Freeze(from)], signers, epoch)
              == Exec(pda, moved.value, Freeze(from), signers, [], epoch);
          assert ExecTokens(pda, thawed.value, [transfer, Freeze(from)], signers, epoch)
              == ExecTokens(pda, moved.value, [Freeze(from)], signers, epoch);
        }
      }
    } else {
      assert ixs[1..] == [];
    }
  }

  lemma ThawOne(pda: Bytes -> Address, l: Ledger, a: Address, signers: set<Address>, epoch: nat)
    ensures var r := Exec(pda, l, Thaw(a), signers, [], epoch);
            && (r.Some? <==> a in l.accounts && l.accounts[a].frozen && l.roles.freeze in signers)
            && (r.Some? ==> r.value == Thawed(l, a))
  {}

  lemma FreezeOne(pda: Bytes -> Address, l: Ledger, a: Address, signers: set<Address>, epoch: nat)
    ensures var r := Exec(pda, l, Freeze(a), signers, [], epoch);
            && (r.Some? <==> a in l.accounts && !l.accounts[a].frozen && l.roles.freeze in signers)
            && (r.Some? ==> r.value == Put(l, a, l.accounts[a].(frozen := true)) && Thawed(r.value, a) == l)
  {
    var r := Exec(pda, l, Freeze(a), signers, [], epoch);
    if r.Some? {
      assert Thawed(r.value, a).accounts == l.accounts;
    }
  }

  lemma TransferAlone(pda: Bytes -> Address, l: Ledger, from: Address, to: Address, authority: Address, amount: nat, fee: nat,
                      signers: set<Address>, epoch: nat)
    ensures var r := Exec(pda, l, Transfer(from, to, authority, amount, fee), signers, [], epoch);
            r.Some? ==> && from in l.accounts && from in r.value.accounts
                        && !l.accounts[from].frozen && !r.value.accounts[from].frozen
                        && Thawed(l, from) == l && Thawed(r.value, from) == r.value && r.value.roles == l.roles
                        && Transfers.Moved(World(map[], l, epoch), r.value, from, to, Transfers.FeeTransfer(amount, fee, epoch))
  {
    var r := Exec(pda, l, Transfer(from, to, authority, amount, fee), signers, [], epoch);
    if r.Some? {
      assert Thawed(l, from).accounts == l.accounts && Thawed(r.value, from).accounts == r.value.accounts;
    }
  }

  // ---------------------------------------------------------------- the desk among everyone else

  /** The chain, the requests in flight, and whom each approval vouched for when it landed. */
  datatype Desk = Desk(ledger: Ledger, epoch: nat, requests: set<Request>, approved: map<Address, Address>)

  datatype Step =
    | Outside(ix: TokenIx, signers: set<Address>, proofs: seq<Statement>)
    | AskApproval(account: Address)
    | AskRevocation(account: Address)
    | AskDefault(frozen: bool)
    | AskSeizure(from: Address, to: Address, delegate: Address, amount: nat, fee: nat)
    | Land(request: Request, signers: set<Address>)
    | NextEpoch

  function Asked(d: Desk, request: Result<Request>): Desk {
    match request case Err(_) => d case Ok(r) => d.(requests := d.requests + {r})
  }

  /** Everyone else acts without the freeze authority; the desk lands what it asked for, some time later or never. */
  function Next(pda: Bytes -> Address, d: Desk, step: Step): Desk {
    match step
    case Outside(ix, signers, proofs) => (
      if d.ledger.roles.freeze in signers then d
      else match Exec(pda, d.ledger, ix, signers, proofs, d.epoch) case None => d case Some(l) => d.(ledger := l)
    )
    case AskApproval(a) => Asked(d, PrepareApproval(d.ledger, a))
    case AskRevocation(a) => Asked(d, PrepareRevocation(d.ledger, a))
    case AskDefault(frozen) => Asked(d, Ok(Defaulting(frozen)))
    case AskSeizure(from, to, delegate, amount, fee) =>
      Asked(d, PrepareSeizure(d.ledger, from, to, delegate, amount, fee))
    case Land(request, signers) => (
      if request !in d.requests then d
      else
        match ExecTokens(pda, d.ledger, RequestIxs(request), signers, d.epoch)
        case None => d.(requests := d.requests - {request})
        case Some(l) =>
          d.(ledger := l, requests := d.requests - {request},
             approved := if request.Thawing? && request.account in l.accounts
                         then d.approved[request.account := l.accounts[request.account].owner] else d.approved)
    )
    case NextEpoch => d.(epoch := d.epoch + 1)
  }

  function Run(pda: Bytes -> Address, d: Desk, steps: seq<Step>): Desk
    decreases |steps|
  {
    if steps == [] then d else Run(pda, Next(pda, d, steps[0]), steps[1..])
  }

  // ---------------------------------------------------------------- what others cannot do

  /** No balance moved, public or confidential; an account without the confidential extension may get an empty one. */
  ghost predicate SameFunds(s: TokenAccount, s': TokenAccount) {
    s'.amount == s.amount && SameConfidential(s.conf, s'.conf)
  }

  ghost predicate SameConfidential(before: Option<Conf>, after: Option<Conf>) {
    match before
    case None => after.Some? ==> after.value.available == 0 && after.value.pendingLo == 0 && after.value.pendingHi == 0
    case Some(c) =>
      && after.Some?
      && var d := after.value;
      && d.available == c.available && d.pendingLo == c.pendingLo && d.pendingHi == c.pendingHi && d.decryptable == c.decryptable
  }

  ghost predicate Kept(s: TokenAccount, s': TokenAccount) {
    && s'.frozen == s.frozen && s'.immutableOwner == s.immutableOwner
    && (s.immutableOwner || s.frozen ==> s'.owner == s.owner)
    && (s.frozen ==> SameFunds(s, s'))
  }

  ghost predicate AllKept(l: Ledger, l': Ledger) {
    && l'.roles == l.roles && l'.mint.defaultFrozen == l.mint.defaultFrozen
    && (forall a | a in l.accounts :: a in l'.accounts && Kept(l.accounts[a], l'.accounts[a]))
    && (forall a | a in l'.accounts && a !in l.accounts :: l'.accounts[a].frozen == l.mint.defaultFrozen)
  }

  lemma TransferKeeps(l: Ledger, source: Address, destination: Address, authority: Address, amount: nat, fee: nat,
                      viaCpi: bool, epoch: nat)
    ensures var r := ExecTransfer(l, source, destination, authority, amount, fee, viaCpi, epoch);
            r.Some? ==> AllKept(l, r.value)
  {}

  lemma ConfidentialTransferKeeps(l: Ledger, source: Address, destination: Address, decryptable: Cipher,
                                  signers: set<Address>, proofs: seq<Statement>, epoch: nat)
    ensures var r := ExecConfidentialTransfer(l, source, destination, decryptable, signers, proofs, epoch);
            r.Some? ==> AllKept(l, r.value)
  {
    hide TransferProven;
  }

  lemma AdminKeeps(l: Ledger, ix: TokenIx, signers: set<Address>, epoch: nat)
    requires l.roles.freeze !in signers
    ensures var r := ExecAdmin(l, ix, signers, epoch); r.Some? ==> AllKept(l, r.value)
  {}

  /** Without the freeze authority nobody thaws or freezes, replaces an immutable owner or moves frozen funds. */
  lemma OutsideKeeps(pda: Bytes -> Address, l: Ledger, ix: TokenIx, signers: set<Address>, proofs: seq<Statement>, epoch: nat)
    requires l.roles.freeze !in signers
    ensures var r := Exec(pda, l, ix, signers, proofs, epoch); r.Some? ==> AllKept(l, r.value)
  {
    hide ExecTransfer, ExecHarvest, ExecAdmin, ExecConfidentialTransfer;
    AdminKeeps(l, ix, signers, epoch);
    if ix.Harvest? {
      Transfers.HarvestExact(l, ix.sources);
    } else if ix.ConfidentialTransfer? {
      ConfidentialTransferKeeps(l, ix.source, ix.destination, ix.decryptable, signers, proofs, epoch);
    } else if ix.Transfer? {
      TransferKeeps(l, ix.source, ix.destination, ix.authority, ix.amount, ix.fee, false, epoch);
    } else if ix.ExecuteMandate? {
      var plan := Agent.ProcessInstruction(pda, l.roles.tokenProgram, map[l.roles.mint := Some(l.mint.fees)], epoch,
                                           ix.accounts, ix.data);
      if plan.Pay? {
        TransferKeeps(l, plan.source, plan.destination, plan.mandate, plan.amount, plan.fee, true, epoch);
      }
    }
  }

  // ---------------------------------------------------------------- what the desk does

  /** The amount a landed request takes out of account `a` by seizure. */
  function TakenFrom(request: Request, a: Address): nat {
    if request.Seizing? && request.from == a && request.to != a then request.amount else 0
  }

  /** A landed request changes the frozen flag it is about, or moves what it seizes; it keeps every owner. */
  ghost predicate Decided(l: Ledger, l': Ledger, request: Request) {
    && l'.roles == l.roles && l'.accounts.Keys == l.accounts.Keys
    && l'.mint.defaultFrozen == (if request.Defaulting? then request.frozen else l.mint.defaultFrozen)
    && (request.Thawing? || request.Freezing? ==> request.account in l.accounts)
    && forall a | a in l.accounts ::
         var s, s' := l.accounts[a], l'.accounts[a];
         && s'.owner == s.owner && s'.immutableOwner == s.immutableOwner
         && s'.frozen == (if request == Thawing(a) then false else if request == Freezing(a) then true else s.frozen)
         && s'.conf == s.conf
         && (s.frozen ==> TakenFrom(request, a) <= s.amount && s'.amount == s.amount - TakenFrom(request, a))
  }

  lemma RequestLands(pda: Bytes -> Address, l: Ledger, request: Request, signers: set<Address>, epoch: nat)
    ensures var r := ExecTokens(pda, l, RequestIxs(request), signers, epoch); r.Some? ==> Decided(l, r.value, request)
  {
    hide Exec;
    if request.Seizing? {
      SeizureLands(pda, l, request, signers, epoch);
      SeizureDecides(pda, l, request, signers, epoch);
    } else {
      var ix := RequestIxs(request)[0];
      assert [ix][1..] == [] && RequestIxs(request) == [ix];
      SwitchEffect(pda, l, request, signers, epoch);
    }
  }

  lemma SwitchEffect(pda: Bytes -> Address, l: Ledger, request: Request, signers: set<Address>, epoch: nat)
    requires !request.Seizing?
    ensures var r := Exec(pda, l, RequestIxs(request)[0], signers, [], epoch); r.Some? ==> Decided(l, r.value, request)
  {}

  lemma SeizureDecides(pda: Bytes -> Address, l: Ledger, request: Request, signers: set<Address>, epoch: nat)
    requires request.Seizing?
    ensures var r := ExecTokens(pda, l, RequestIxs(request), signers, epoch); r.Some? ==> Decided(l, r.value, request)
  {
    hide ExecTokens;
    SeizureLands(pda, l, request, signers, epoch);
    var r := ExecTokens(pda, l, RequestIxs(request), signers, epoch);
    if r.Some? {
      var from, to := request.from, request.to;
      var l', before, after := r.value, Thawed(l, from), Thawed(r.value, from);
      assert before.accounts.Keys == l.accounts.Keys && after.accounts.Keys == l'.accounts.Keys;
      forall a | a in l.accounts
        ensures var s, s' := l.accounts[a], l'.accounts[a];
                && s'.owner == s.owner && s'.immutableOwner == s.immutableOwner && s'.frozen == s.frozen && s'.conf == s.conf
                && (s.frozen ==> TakenFrom(request, a) <= s.amount && s'.amount == s.amount - TakenFrom(request, a))
      {
        if a == from {
          assert l'.accounts[a] == after.accounts[a].(frozen := l'.accounts[a].frozen);
        } else {
          assert before.accounts[a] == l.accounts[a] && after.accounts[a] == l'.accounts[a];
        }
      }
    }
  }

  // ---------------------------------------------------------------- every run

  /** Someone vouched for the account, and it still belongs to the owner they vouched for. */
  ghost predicate Vouched(d: Desk, a: Address)
    requires a in d.ledger.accounts
  {
    && a in d.approved && d.ledger.accounts[a].immutableOwner
    && d.ledger.accounts[a].owner == d.approved[a]
  }

  ghost predicate Orderly(d: Desk) {
    && d.ledger.mint.defaultFrozen
    && (forall a | a in d.ledger.accounts && !d.ledger.accounts[a].frozen :: Vouched(d, a))
    && (forall r | r in d.requests && r.Thawing? ::
          r.account in d.ledger.accounts && d.ledger.accounts[r.account].immutableOwner)
    && Defaulting(false) !in d.requests
  }

  lemma StepOrderly(pda: Bytes -> Address, d: Desk, step: Step)
    requires Orderly(d) && step != AskDefault(false)
    ensures Orderly(Next(pda, d, step))
  {
    hide Exec, ExecTokens;
    match step
    case Outside(ix, signers, proofs) =>
      if d.ledger.roles.freeze !in signers {
        OutsideKeeps(pda, d.ledger, ix, signers, proofs, d.epoch);
      }
    case Land(request, signers) =>
      if request in d.requests {
        RequestLands(pda, d.ledger, request, signers, d.epoch);
      }
    case AskApproval(_) =>
    case AskRevocation(_) =>
    case AskDefault(_) =>
    case AskSeizure(_, _, _, _, _) =>
    case NextEpoch =>
  }

  lemma {:induction false} RunOrderly(pda: Bytes -> Address, d: Desk, steps: seq<Step>)
    requires Orderly(d) && AskDefault(false) !in steps
    ensures Orderly(Run(pda, d, steps))
    decreases |steps|
  {
    if steps != [] {
      hide Next, Orderly;
      assert steps[0] in steps;
      StepOrderly(pda, d, steps[0]);
      RunOrderly(pda, Next(pda, d, steps[0]), steps[1..]);
    }
  }

  /**
   As long as new accounts start frozen, every account that is thawed in any reachable state was approved, cannot
   change hands, and belongs to whom it belonged to when it was approved.
   */
  lemma ThawedMeansApproved(pda: Bytes -> Address, l: Ledger, epoch: nat, steps: seq<Step>)
    requires l.mint.defaultFrozen && (forall a | a in l.accounts :: l.accounts[a].frozen) && AskDefault(false) !in steps
    ensures var d := Run(pda, Desk(l, epoch, {}, map[]), steps);
            && d.ledger.mint.defaultFrozen
            && forall a | a in d.ledger.accounts && !d.ledger.accounts[a].frozen :: Vouched(d, a)
  {
    RunOrderly(pda, Desk(l, epoch, {}, map[]), steps);
  }

  /** What landed seizures took out of `a` over a run. */
  ghost function SeizedTotal(pda: Bytes -> Address, d: Desk, steps: seq<Step>, a: Address): nat
    decreases |steps|
  {
    if steps == [] then 0
    else
      (if Lands(pda, d, steps[0]) then TakenFrom(steps[0].request, a) else 0)
      + SeizedTotal(pda, Next(pda, d, steps[0]), steps[1..], a)
  }

  predicate Lands(pda: Bytes -> Address, d: Desk, step: Step) {
    && step.Land? && step.request in d.requests
    && ExecTokens(pda, d.ledger, RequestIxs(step.request), step.signers, d.epoch).Some?
  }

  lemma StepKeepsFrozen(pda: Bytes -> Address, d: Desk, step: Step, a: Address)
    requires a in d.ledger.accounts && d.ledger.accounts[a].frozen && !(step.Land? && step.request == Thawing(a))
    ensures var l' := Next(pda, d, step).ledger;
            && a in l'.accounts
            && var s, s', taken := d.ledger.accounts[a], l'.accounts[a],
                                   if Lands(pda, d, step) then TakenFrom(step.request, a) else 0;
            && s'.frozen && s'.owner == s.owner && s'.amount == s.amount - taken && SameConfidential(s.conf, s'.conf)
  {
    hide Exec, ExecTokens;
    match step
    case Outside(ix, signers, proofs) =>
      if d.ledger.roles.freeze !in signers {
        OutsideKeeps(pda, d.ledger, ix, signers, proofs, d.epoch);
      }
    case Land(request, signers) =>
      if request in d.requests {
        RequestLands(pda, d.ledger, request, signers, d.epoch);
      }
    case AskApproval(_) =>
    case AskRevocation(_) =>
    case AskDefault(_) =>
    case AskSeizure(_, _, _, _, _) =>
    case NextEpoch =>
  }

  /**
   Frozen means fixed: until an approval of it lands, a frozen account stays frozen and its owner's, its confidential
   balances stay what they are, and its public balance shrinks by exactly what was seized.
   */
  lemma {:induction false} FrozenMeansFixed(pda: Bytes -> Address, d: Desk, steps: seq<Step>, a: Address)
    requires a in d.ledger.accounts && d.ledger.accounts[a].frozen
    requires forall step | step in steps :: !(step.Land? && step.request == Thawing(a))
    ensures var l' := Run(pda, d, steps).ledger;
            && a in l'.accounts
            && var s, s' := d.ledger.accounts[a], l'.accounts[a];
            && s'.frozen && s'.owner == s.owner && SameConfidential(s.conf, s'.conf)
            && s'.amount == s.amount - SeizedTotal(pda, d, steps, a)
    decreases |steps|
  {
    if steps != [] {
      hide Next, Lands;
      assert steps[0] in steps;
      StepKeepsFrozen(pda, d, steps[0], a);
      FrozenMeansFixed(pda, Next(pda, d, steps[0]), steps[1..], a);
    }
  }

  // ---------------------------------------------------------------- the desk's own calls

  function ThawIx(roles: Roles, a: Address, authority: Address): Ix {
    Instruction(roles.tokenProgram, [Meta(a, false), Meta(roles.mint, false), Meta(authority, true)], 1, Token(Thaw(a), None, []))
  }

  function FreezeIx(roles: Roles, a: Address, authority: Address): Ix {
    Instruction(roles.tokenProgram, [Meta(a, false), Meta(roles.mint, false), Meta(authority, true)], 1, Token(Freeze(a), None, []))
  }

  function DefaultIx(roles: Roles, frozen: bool, authority: Address): Ix {
    Instruction(roles.tokenProgram, [Meta(roles.mint, false), Meta(authority, true)], 3, Token(SetDefaultState(frozen), None, []))
  }

  /** The instructions of a request, `freeze` signing the switches. */
  function RequestTx(roles: Roles, request: Request, freeze: Address): (ixs: seq<Ix>)
    ensures forall ix | ix in ixs :: Plain(ix)
    ensures TokenIxs(ixs) == RequestIxs(request)
  {
    match request
    case Thawing(a) => [ThawIx(roles, a, freeze)]
    case Freezing(a) => [FreezeIx(roles, a, freeze)]
    case Defaulting(frozen) => [DefaultIx(roles, frozen, freeze)]
    case Seizing(from, to, delegate, amount, fee, thaw) =>
      var transfer := Transfers.TransferIx(roles, from, to, delegate, amount, fee);
      if thaw then [ThawIx(roles, from, freeze), transfer, FreezeIx(roles, from, freeze)] else [transfer]
  }

  /** Thaw `a` for the person it was checked to belong to for good; if nobody else acts and it is not lost, who qualifies is thawed. */
  method ApproveKyc(c: Cluster, a: Address, freeze: Address) returns (r: Result<()>, ghost seen: Ledger, ghost at: Ledger)
    requires c.Valid() && freeze < c.nextKey
    modifies c
    ensures c.Valid() && Rely.Undisturbed(c.owner, old(c.world.ledger), seen)
    ensures Reached(c.owner, c.script, old(c.Now()), c.turn, at, c.world.epoch)
    ensures c.script(old(c.turn)).others == [] ==> seen == old(c.world.ledger)
    ensures PrepareApproval(seen, a).Err? ==> r == Err(PrepareApproval(seen, a).error) && c.turn == old(c.turn) + 1
    ensures r.Ok? ==> && a in at.accounts && at.accounts[a].frozen && at.accounts[a].immutableOwner
                      && a in seen.accounts && at.accounts[a].owner == seen.accounts[a].owner
                      && c.world.ledger == Thawed(at, a)
                      && c.landed == old(c.landed) + [[ThawIx(at.roles, a, freeze)]]
    ensures r.Err? ==> c.landed == old(c.landed) && c.world.ledger == at
    ensures r.Err? ==> PrepareApproval(seen, a).Err? || c.failures == old(c.failures) + [r.error]
    ensures r.Err? ==> || PrepareApproval(seen, a).Err? || !c.script(old(c.turn) + 1).lands
                       || (a in at.accounts && !at.accounts[a].frozen)
                       || !Fits([ThawIx(at.roles, a, freeze)], c.payer, c.limit) || at.roles.freeze !in {c.payer} + {freeze}
    ensures Calm(c.script, old(c.turn), c.turn) && !Dropped(c.script, old(c.sent), c.sent)
            && old(a in c.world.ledger.accounts && c.world.ledger.accounts[a].frozen && c.world.ledger.accounts[a].immutableOwner
                   && c.world.ledger.roles.freeze in {c.payer} + {freeze})
            && Fits([ThawIx(old(c.world.ledger.roles), a, freeze)], c.payer, c.limit)
            ==> r.Ok?
  {
    hide Exec, Conservation.Conserved, Rely.Undisturbed, Rely.OwnersFixed, Fits, Quiet, Reached, Dropped, Calm;
    ghost var m := c.Now();
    var account := c.Observe();
    ghost var m1 := c.Now();
    QuietSays(c.owner, c.script, m, m1);
    seen, at := c.world.ledger, c.world.ledger;
    var request := PrepareApproval(account.ledger, a);
    CalmAt(c.script, m.turn, c.turn, m.turn);
    if request.Err? {
      return Err(request.error), seen, at;
    }
    ghost var met;
    r, met := SendOne(c, ThawIx(account.ledger.roles, a, freeze), {freeze});
    at := met.ledger;
    OwnerStays(c.owner, seen, at, a);
    QuietThen(c.owner, c.script, m, m1, Moment(c.turn, c.sent, m.landed, at, met.epoch));
    ThawOne(c.env.pda, at, a, {c.payer} + {freeze}, met.epoch);
    CalmAt(c.script, m.turn, c.turn, m.turn);
    if r.Err? {
      OneDropped(c.script, m.sent, c.sent, m.turn + 1, [ThawIx(at.roles, a, freeze)], met);
    }
  }

  lemma OwnerStays(owner: Address, l: Ledger, l': Ledger, a: Address)
    requires Rely.Undisturbed(owner, l, l') && a in l.accounts && l.accounts[a].immutableOwner
    ensures a in l'.accounts && l'.accounts[a].immutableOwner && l'.accounts[a].owner == l.accounts[a].owner
  {}

  /** Freeze `a` again. */
  method RevokeKyc(c: Cluster, a: Address, freeze: Address) returns (r: Result<()>, ghost seen: Ledger, ghost at: Ledger)
    requires c.Valid() && freeze < c.nextKey
    modifies c
    ensures c.Valid() && Rely.Undisturbed(c.owner, old(c.world.ledger), seen)
    ensures Reached(c.owner, c.script, old(c.Now()), c.turn, at, c.world.epoch)
    ensures c.script(old(c.turn)).others == [] ==> seen == old(c.world.ledger)
    ensures PrepareRevocation(seen, a).Err? ==> r == Err(PrepareRevocation(seen, a).error) && c.turn == old(c.turn) + 1
    ensures r.Ok? ==> && a in at.accounts && !at.accounts[a].frozen && c.world.ledger == Put(at, a, at.accounts[a].(frozen := true))
                      && c.landed == old(c.landed) + [[FreezeIx(at.roles, a, freeze)]]
    ensures r.Err? ==> c.landed == old(c.landed) && c.world.ledger == at
    ensures r.Err? ==> PrepareRevocation(seen, a).Err? || c.failures == old(c.failures) + [r.error]
    ensures r.Err? ==> || PrepareRevocation(seen, a).Err? || !c.script(old(c.turn) + 1).lands
                       || a !in at.accounts || at.accounts[a].frozen
                       || !Fits([FreezeIx(at.roles, a, freeze)], c.payer, c.limit) || at.roles.freeze !in {c.payer} + {freeze}
    ensures Calm(c.script, old(c.turn), c.turn) && !Dropped(c.script, old(c.sent), c.sent)
            && old(a in c.world.ledger.accounts && !c.world.ledger.accounts[a].frozen
                   && c.world.ledger.roles.freeze in {c.payer} + {freeze})
            && Fits([FreezeIx(old(c.world.ledger.roles), a, freeze)], c.payer, c.limit)
            ==> r.Ok?
  {
    hide Exec, Conservation.Conserved, Rely.Undisturbed, Fits, Quiet, Reached, Dropped, Calm;
    ghost var m := c.Now();
    var account := c.Observe();
    ghost var m1 := c.Now();
    QuietSays(c.owner, c.script, m, m1);
    seen, at := c.world.ledger, c.world.ledger;
    var request := PrepareRevocation(account.ledger, a);
    CalmAt(c.script, m.turn, c.turn, m.turn);
    if request.Err? {
      return Err(request.error), seen, at;
    }
    ghost var met;
    r, met := SendOne(c, FreezeIx(account.ledger.roles, a, freeze), {freeze});
    at := met.ledger;
    QuietThen(c.owner, c.script, m, m1, Moment(c.turn, c.sent, m.landed, at, met.epoch));
    FreezeOne(c.env.pda, at, a, {c.payer} + {freeze}, met.epoch);
    CalmAt(c.script, m.turn, c.turn, m.turn);
    if r.Err? {
      OneDropped(c.script, m.sent, c.sent, m.turn + 1, [FreezeIx(at.roles, a, freeze)], met);
    }
  }

  /** Accounts opened from now on start frozen, or thawed; those already open stay as they are. */
  method SetDefaultAccountState(c: Cluster, freeze: Address, frozen: bool) returns (r: Result<()>, ghost at: Ledger)
    requires c.Valid() && freeze < c.nextKey
    modifies c
    ensures c.Valid()
    ensures r.Ok? ==> && c.world.ledger.accounts == at.accounts
                      && c.world.ledger.mint == at.mint.(defaultFrozen := frozen)
    ensures r.Err? ==> c.landed == old(c.landed) && c.world.ledger == at && c.failures == old(c.failures) + [r.error]
    ensures r.Err? ==> || !c.script(old(c.turn)).lands || at.roles.freeze !in {c.payer} + {freeze}
                       || !Fits([DefaultIx(at.roles, frozen, freeze)], c.payer, c.limit)
  {
    hide Exec, Conservation.Conserved, Rely.Undisturbed, Fits, Quiet, Reached;
    ghost var m := c.Now();
    ghost var met;
    r, met := SendOne(c, DefaultIx(c.world.ledger.roles, frozen, freeze), {freeze});
    at := met.ledger;
    QuietSays(c.owner, c.script, m, Moment(c.turn, c.sent, m.landed, at, met.epoch));
    DefaultEffect(c.env.pda, at, frozen, {c.payer} + {freeze}, met.epoch);
  }

  lemma DefaultEffect(pda: Bytes -> Address, l: Ledger, frozen: bool, signers: set<Address>, epoch: nat)
    ensures var r := Exec(pda, l, SetDefaultState(frozen), signers, [], epoch);
            r == if l.roles.freeze in signers then Some(l.(mint := l.mint.(defaultFrozen := frozen))) else None
  {}

  /** The keys that sign a seizure: the freeze authority only if it has to thaw and freeze. */
  function SeizureKeys(request: Request, freeze: Address): set<Address>
    requires request.Seizing?
  {
    if request.thaw then {freeze, request.delegate} else {request.delegate}
  }

  /** As things stand the seizure is charged a fee, fits the packet, and is not refused. */
  ghost predicate MaySeize(pda: Bytes -> Address, l: Ledger, epoch: nat, payer: Address, limit: nat, from: Address, to: Address,
                           freeze: Address, delegate: Address, amount: nat) {
    var fee := Fees.CalculateFee(Fees.EpochFee(l.mint.fees, epoch), amount);
    && amount < U64 && fee.Some? && from in l.accounts
    && var request := Seizing(from, to, delegate, amount, fee.value, l.accounts[from].frozen);
    && Fits(RequestTx(l.roles, request, freeze), payer, limit)
    && ExecTokens(pda, l, RequestIxs(request), {payer} + SeizureKeys(request, freeze), epoch).Some?
  }

  lemma MaySeizeSays(pda: Bytes -> Address, l: Ledger, epoch: nat, payer: Address, limit: nat, from: Address, to: Address,
                     freeze: Address, delegate: Address, amount: nat)
    ensures MaySeize(pda, l, epoch, payer, limit, from, to, freeze, delegate, amount) ==> amount < U64 && from in l.accounts
  {
    hide Fits, ExecTokens;
  }

  /** At the fee quoted while nobody else acted, what may be seized is not refused. */
  lemma CalmSeizure(script: nat -> Turn, turn: nat, pda: Bytes -> Address, l: Ledger, epoch: nat, payer: Address, limit: nat,
                    from: Address, to: Address, freeze: Address, delegate: Address, amount: nat, quoted: nat)
    requires Calm(script, turn, turn + 4) && Transfers.QuotedAt(script, turn, epoch, l, amount, quoted)
    requires MaySeize(pda, l, epoch, payer, limit, from, to, freeze, delegate, amount)
    ensures var request := Seizing(from, to, delegate, amount, quoted, l.accounts[from].frozen);
            && Fits(RequestTx(l.roles, request, freeze), payer, limit)
            && ExecTokens(pda, l, RequestIxs(request), {payer} + SeizureKeys(request, freeze), epoch).Some?
  {
    hide Fits, ExecTokens;
    FirstEpochs(script, turn);
  }

  /**
   Move `amount` of the public balance of `from` to `to` as the permanent delegate, in one transaction or not at all. A
   frozen account is thawed and frozen again in the same transaction, so nobody else ever meets it thawed. If nobody else
   acts and nothing is lost, what may be seized is seized.
   */
  method Seize(c: Cluster, from: Address, to: Address, freeze: Address, delegate: Address, amount: nat)
    returns (r: Result<Transfers.FeeTransfer>, ghost seen: Ledger, ghost at: World, ghost quoted: nat)
    requires c.Valid() && freeze < c.nextKey && delegate < c.nextKey
    modifies c
    ensures c.Valid() && at.epoch == c.world.epoch && Rely.Undisturbed(c.owner, old(c.world.ledger), seen)
    ensures Reached(c.owner, c.script, old(c.Now()), c.turn, at.ledger, at.epoch)
    ensures c.script(old(c.turn)).others == [] ==> seen == old(c.world.ledger)
    ensures r.Ok? ==> && r.value.amount == amount && r.value.epoch == old(c.world.epoch) + Elapsed(c.script, old(c.turn), 3)
                      && Seized(at.ledger, c.world.ledger, at.epoch, from, to, r.value)
                      && from in seen.accounts && at.ledger.accounts[from].frozen == seen.accounts[from].frozen
                      && r.value.fee == quoted
                      && var request := Seizing(from, to, delegate, amount, quoted, seen.accounts[from].frozen);
                         c.landed == old(c.landed) + [RequestTx(at.ledger.roles, request, freeze)]
    ensures r.Err? && amount < U64 ==>
              || from !in seen.accounts || !c.script(old(c.turn) + 3).lands
              || (Transfers.QuotedAt(c.script, old(c.turn), old(c.world.epoch), at.ledger, amount, quoted)
                  && var request := Seizing(from, to, delegate, amount, quoted, seen.accounts[from].frozen);
                     || !Fits(RequestTx(at.ledger.roles, request, freeze), c.payer, c.limit)
                     || ExecTokens(c.env.pda, at.ledger, RequestIxs(request), {c.payer} + SeizureKeys(request, freeze),
                                   at.epoch).None?)
    ensures r.Err? ==> c.landed == old(c.landed) && c.world.ledger == at.ledger
    ensures r.Err? && amount < U64 ==>
              (r.error == NotFound(from) && from !in seen.accounts) || c.failures == old(c.failures) + [r.error]
    ensures Calm(c.script, old(c.turn), c.turn) && !Dropped(c.script, old(c.sent), c.sent)
            && MaySeize(c.env.pda, old(c.world.ledger), old(c.world.epoch), c.payer, c.limit, from, to, freeze, delegate, amount)
            ==> r.Ok?
  {
    hide Exec, ExecTokens, Conservation.Conserved, Seized, Rely.Undisturbed, Elapsed, Fits, Fees.EpochFee, Fees.CalculateFee,
         RequestTx, RequestIxs, SeizureKeys, Quiet, Reached, Dropped, Calm, MaySeize, Transfers.QuotedAt;
    ghost var m := c.Now();
    MaySeizeSays(c.env.pda, m.ledger, m.epoch, c.payer, c.limit, from, to, freeze, delegate, amount);
    quoted := 0;
    var terms;
    terms, seen := Transfers.ReadTerms(c, from, amount);
    ghost var m1 := c.Now();
    at := c.world;
    QuietSays(c.owner, c.script, m, m1);
    if terms.Err? {
      return Err(terms.error), seen, at, quoted;
    }
    quoted := terms.value.fee;
    var request := Seizing(from, to, delegate, amount, terms.value.fee, terms.value.frozen);
    assert PrepareSeizure(seen, from, to, delegate, amount, quoted) == Ok(request);
    var sent;
    sent, at := SendSeizure(c, terms.value.roles, request, freeze, terms.value.epoch);
    QuietThen(c.owner, c.script, m, m1, Moment(c.turn, c.sent, m.landed, at.ledger, at.epoch));
    if sent.Ok? {
      r := Ok(Transfers.FeeTransfer(amount, terms.value.fee, terms.value.epoch));
    } else {
      r := Err(sent.error);
      Transfers.Quoted(c.script, m.turn, m.epoch, m1.ledger, at.ledger, amount, quoted);
      OneDropped(c.script, m.sent, c.sent, m.turn + 3, RequestTx(at.ledger.roles, request, freeze), at);
      CalmAt(c.script, m.turn, c.turn, m.turn);
      if Calm(c.script, m.turn, c.turn)
         && MaySeize(c.env.pda, m.ledger, m.epoch, c.payer, c.limit, from, to, freeze, delegate, amount) {
        CalmSeizure(c.script, m.turn, c.env.pda, m.ledger, m.epoch, c.payer, c.limit, from, to, freeze, delegate, amount, quoted);
      }
    }
  }

  /** The transaction of a seizure; `epoch` is the one the fee was computed for. */
  method SendSeizure(c: Cluster, roles: Roles, request: Request, freeze: Address, epoch: nat) returns (r: Result<()>, ghost at: World)
    requires c.Valid() && request.Seizing? && freeze < c.nextKey && request.delegate < c.nextKey && roles == c.world.ledger.roles
    modifies c
    ensures c.Valid() && c.turn == old(c.turn) + 1 && c.failures == Told(r, old(c.failures)) && (r.Err? ==> SendFailed(r))
    ensures Rely.Undisturbed(c.owner, old(c.world.ledger), at.ledger) && at.ledger.roles == roles
    ensures c.script(old(c.turn)).others == [] ==> at.ledger == old(c.world.ledger)
    ensures c.sent == old(c.sent) + [Attempt(old(c.turn), RequestTx(roles, request, freeze), at)] && at.epoch == c.world.epoch
    ensures Quiet(c.owner, c.script, old(c.Now()), Moment(c.turn, c.sent, old(c.landed), at.ledger, at.epoch))
    ensures r.Ok? ==> && c.landed == old(c.landed) + [RequestTx(roles, request, freeze)]
                      && Seized(at.ledger, c.world.ledger, at.epoch, request.from, request.to,
                                Transfers.FeeTransfer(request.amount, request.fee, epoch))
                      && request.from in at.ledger.accounts && at.ledger.accounts[request.from].frozen == request.thaw
    ensures r.Err? ==> c.landed == old(c.landed) && c.world.ledger == at.ledger
    ensures r.Err? ==>
              || !c.script(old(c.turn)).lands || !Fits(RequestTx(roles, request, freeze), c.payer, c.limit)
              || ExecTokens(c.env.pda, at.ledger, RequestIxs(request), {c.payer} + SeizureKeys(request, freeze), at.epoch).None?
  {
    hide Exec, ExecTokens, Conservation.Conserved, Seized, Rely.Undisturbed, Fits, Quiet;
    ghost var l := c.world.ledger;
    r, at := SendPlain(c, RequestTx(roles, request, freeze), SeizureKeys(request, freeze));
    Transfers.SameRoles(c.owner, l, at.ledger);
    if r.Ok? {
      SeizureLands(c.env.pda, at.ledger, request, {c.payer} + SeizureKeys(request, freeze), at.epoch);
      SeizedWhenever(at.ledger, c.world.ledger, at.epoch, request.from, request.to,
                     Transfers.FeeTransfer(request.amount, request.fee, epoch), at.epoch);
    }
  }

  /** The epoch a transfer reports is the one it was prepared in; it plays no part in what happened. */
  lemma SeizedWhenever(before: Ledger, after: Ledger, epoch: nat, from: Address, to: Address, t: Transfers.FeeTransfer, e: nat)
    requires Seized(before, after, epoch, from, to, t.(epoch := e))
    ensures Seized(before, after, epoch, from, to, t)
  {}
}
