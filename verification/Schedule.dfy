/** The fee schedule over a whole run: what the mint's two slots hold, and so charge, is what the calls made prescribe. */
module Schedule {
  import opened Types
  import opened Ledger
  import opened Runs
  import Agent
  import Fees
  import Transfers

  /** The step is a `SetTransferFee` that the program accepts. */
  predicate Schedules(s: State, step: Step) {
    && step.Background? && step.ix.SetTransferFee?
    && s.ledger.roles.feeConfig in step.signers && Fees.RateOk(step.ix.rate)
  }

  /** Those calls, in the order they were made, each with the epoch it was made in. */
  function RateCalls(pda: Bytes -> Address, s: State, steps: seq<Step>): seq<Fees.Call>
    decreases |steps|
  {
    if steps == [] then []
    else
      (if Schedules(s, steps[0]) then [Fees.Call(s.epoch, steps[0].ix.rate)] else [])
      + RateCalls(pda, Next(pda, s, steps[0]), steps[1..])
  }

  // ---------------------------------------------------------------- one step

  lemma TransferKeepsMint(l: Ledger, source: Address, destination: Address, authority: Address, amount: nat, fee: nat,
                          viaCpi: bool, epoch: nat)
    ensures var r := ExecTransfer(l, source, destination, authority, amount, fee, viaCpi, epoch);
            r.Some? ==> r.value.mint == l.mint
  {}

  lemma AdminKeepsFees(l: Ledger, ix: TokenIx, signers: set<Address>, epoch: nat)
    requires !ix.SetTransferFee?
    ensures var r := ExecAdmin(l, ix, signers, epoch); r.Some? ==> r.value.mint.fees == l.mint.fees
  {}

  lemma ExecFees(pda: Bytes -> Address, l: Ledger, ix: TokenIx, signers: set<Address>, epoch: nat)
    ensures var r := Exec(pda, l, ix, signers, [], epoch);
            if ix.SetTransferFee? then
              && (r.Some? <==> l.roles.feeConfig in signers && Fees.RateOk(ix.rate))
              && (r.Some? ==> Fees.SetFee(l.mint.fees, epoch, ix.rate) == Some(r.value.mint.fees))
            else r.Some? ==> r.value.mint.fees == l.mint.fees
  {
    hide ExecTransfer, ExecHarvest, ExecConfidentialTransfer, ExecAdmin, Agent.ProcessInstruction, Fees.SetFee;
    if ix.Harvest? {
      Transfers.HarvestExact(l, ix.sources);
    } else if ix.ConfidentialTransfer? {
      FlightKeepsMint(l, ix.source, Sending(ix.destination, 0, ix.decryptable, []), signers, epoch);
    } else if ix.Transfer? {
      TransferKeepsMint(l, ix.source, ix.destination, ix.authority, ix.amount, ix.fee, false, epoch);
    } else if ix.ExecuteMandate? {
      var plan := Agent.ProcessInstruction(pda, l.roles.tokenProgram, map[l.roles.mint := Some(l.mint.fees)], epoch,
                                           ix.accounts, ix.data);
      if plan.Pay? {
        TransferKeepsMint(l, plan.source, plan.destination, plan.mandate, plan.amount, plan.fee, true, epoch);
      }
    } else if ix.SetTransferFee? {
      Transfers.ExecOfSetFee(pda, l, ix, signers, epoch);
    } else {
      AdminKeepsFees(l, ix, signers, epoch);
    }
  }

  lemma FlightKeepsMint(l: Ledger, a: Address, f: Flight, signers: set<Address>, epoch: nat)
    ensures var r := ExecFlight(l, a, f, signers, epoch); r.Some? ==> r.value.mint == l.mint
  {
    hide TransferProven, DebitProven;
  }

  /** Only an accepted `SetTransferFee` changes the schedule, and only in the way the program schedules it. */
  lemma StepFees(pda: Bytes -> Address, s: State, step: Step)
    ensures var s' := Next(pda, s, step);
            && s'.epoch >= s.epoch
            && (if Schedules(s, step) then Fees.SetFee(s.ledger.mint.fees, s.epoch, step.ix.rate) == Some(s'.ledger.mint.fees)
                else s'.ledger.mint.fees == s.ledger.mint.fees)
  {
    hide Exec, ExecFlight, Fees.SetFee, Prepare;
    match step
    case Background(ix, signers) => ExecFees(pda, s.ledger, ix, signers, s.epoch);
    case Land(a, signers) =>
      if a in s.flights {
        FlightKeepsMint(s.ledger, a, s.flights[a], signers, s.epoch);
      }
    case Drop(_) =>
    case NextEpoch =>
    case ReadApply(_, _) =>
    case ReadTransfer(_, _, _, _, _, _, _) =>
    case ReadWithdraw(_, _, _) =>
  }

  // ---------------------------------------------------------------- every run

  /** The slots hold what these calls, the last of them made by `epoch`, put there. */
  ghost predicate Scheduled(fees: Fees.FeeConfig, start: nat, first: Fees.Rate, calls: seq<Fees.Call>, epoch: nat) {
    && fees == Fees.Replay(start, first, calls) && Fees.History(start, calls)
    && start <= epoch && (|calls| > 0 ==> calls[|calls| - 1].epoch <= epoch)
  }

  lemma OneMoreScheduled(fees: Fees.FeeConfig, fees': Fees.FeeConfig, start: nat, first: Fees.Rate, calls: seq<Fees.Call>,
                         epoch: nat, rate: Fees.Rate, epoch': nat)
    requires Scheduled(fees, start, first, calls, epoch) && Fees.RateOk(rate) && epoch <= epoch'
    requires Fees.SetFee(fees, epoch, rate) == Some(fees')
    ensures Scheduled(fees', start, first, calls + [Fees.Call(epoch, rate)], epoch')
  {
    Fees.ReplayMore(start, first, calls, Fees.Call(epoch, rate));
  }

  lemma {:induction false} RunSchedules(pda: Bytes -> Address, s: State, steps: seq<Step>, start: nat, first: Fees.Rate,
                                        before: seq<Fees.Call>)
    requires Scheduled(s.ledger.mint.fees, start, first, before, s.epoch)
    ensures var s' := Run(pda, s, steps);
            Scheduled(s'.ledger.mint.fees, start, first, before + RateCalls(pda, s, steps), s'.epoch)
    decreases |steps|
  {
    if steps == [] {
      assert before + [] == before;
    } else {
      hide Next, Fees.Replay, Fees.History, Fees.SetFee;
      var step, s1 := steps[0], Next(pda, s, steps[0]);
      StepFees(pda, s, step);
      if Schedules(s, step) {
        var call := Fees.Call(s.epoch, step.ix.rate);
        OneMoreScheduled(s.ledger.mint.fees, s1.ledger.mint.fees, start, first, before, s.epoch, step.ix.rate, s1.epoch);
        RunSchedules(pda, s1, steps[1..], start, first, before + [call]);
        assert before + [call] + RateCalls(pda, s1, steps[1..]) == before + RateCalls(pda, s, steps);
      } else {
        RunSchedules(pda, s1, steps[1..], start, first, before);
        assert RateCalls(pda, s, steps) == RateCalls(pda, s1, steps[1..]);
      }
    }
  }

  /**
   From a mint created in epoch `start` at rate `first`: after any interleaving of transfers, flows, issuer actions and
   epochs, its two slots are those of the accepted `SetTransferFee` calls, and the rate charged next is the one that
   the full history of these calls prescribes.
   */
  lemma RunChargesHistory(pda: Bytes -> Address, s: State, steps: seq<Step>, start: nat, first: Fees.Rate)
    requires Fees.RateOk(first) && start <= s.epoch && s.ledger.mint.fees == Fees.Replay(start, first, [])
    ensures var (s', calls) := (Run(pda, s, steps), RateCalls(pda, s, steps));
            && s'.ledger.mint.fees == Fees.Replay(start, first, calls) && Fees.History(start, calls)
            && Fees.Governs(first, calls, s'.epoch, Fees.EpochFee(s'.ledger.mint.fees, s'.epoch))
  {
    hide Run, RateCalls, Fees.Replay, Fees.Governs, Fees.EpochFee;
    RunSchedules(pda, s, steps, start, first, []);
    var s', calls := Run(pda, s, steps), RateCalls(pda, s, steps);
    assert [] + calls == calls;
    Fees.TwoSlotsRefineHistory(start, first, calls, s'.epoch);
  }
}
