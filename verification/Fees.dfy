/** The two-slot transfer-fee schedule of a mint, and the full history of `SetTransferFee` calls it stands for. */
module Fees {
  import opened Types

  const ONE_IN_BASIS_POINTS: nat := 10_000

  datatype Rate = Rate(basisPoints: nat, maximum: nat)

  datatype TransferFee = TransferFee(epoch: nat, rate: Rate)

  datatype FeeConfig = FeeConfig(older: TransferFee, newer: TransferFee)

  /** `SetTransferFee` in some epoch. */
  datatype Call = Call(epoch: nat, rate: Rate)

  predicate RateOk(rate: Rate) {
    rate.basisPoints <= ONE_IN_BASIS_POINTS
  }

  predicate ConfigOk(config: FeeConfig) {
    RateOk(config.older.rate) && RateOk(config.newer.rate)
  }

  function CeilDiv(a: nat, b: nat): nat
    requires b > 0
  {
    if a % b == 0 then a / b else a / b + 1
  }

  /** Basis points of `amount`, rounded up and capped; none when the raw fee leaves the u64 range. */
  function CalculateFee(rate: Rate, amount: nat): Option<nat> {
    if rate.basisPoints == 0 || amount == 0 then Some(0)
    else
      var raw := CeilDiv(amount * rate.basisPoints, ONE_IN_BASIS_POINTS);
      if raw >= U64 then None else Some(if raw < rate.maximum then raw else rate.maximum)
  }

  function EpochFee(config: FeeConfig, epoch: nat): Rate {
    if epoch >= config.newer.epoch then config.newer.rate else config.older.rate
  }

  /** The fee for `amount` in `epoch`; an error when the mint has no schedule or the fee overflows. */
  function ExpectedFee(config: Option<FeeConfig>, epoch: nat, amount: nat): Result<nat> {
    match config
    case None => Err(Invalid)
    case Some(c) =>
      match CalculateFee(EpochFee(c, epoch), amount)
      case None => Err(Invalid)
      case Some(fee) => Ok(fee)
  }

  /** Environment rule: what the token program does with a new rate. */
  function SetFee(config: FeeConfig, epoch: nat, rate: Rate): Option<FeeConfig> {
    if !RateOk(rate) then None
    else
      var older := if config.newer.epoch <= epoch then config.newer else config.older;
      Some(FeeConfig(older, TransferFee(epoch + 2, rate)))
  }

  /**
   A legal rate never charges more than the amount, never fails, and charges something on every
   non-zero amount unless the rate or the cap is zero; so `amount - fee` stays in the u64 range.
   */
  lemma FeeWithinAmount(rate: Rate, amount: nat)
    requires RateOk(rate) && amount < U64
    ensures CalculateFee(rate, amount).Some? && CalculateFee(rate, amount).value <= amount
    ensures CalculateFee(rate, amount).value <= rate.maximum
    ensures CalculateFee(rate, amount).value == 0 <==> rate.basisPoints == 0 || amount == 0 || rate.maximum == 0
  {
    if rate.basisPoints != 0 && amount != 0 {
      var product := amount * rate.basisPoints;
      assert product <= amount * ONE_IN_BASIS_POINTS by {
        Scale(amount, rate.basisPoints, ONE_IN_BASIS_POINTS);
      }
      assert product > 0 by {
        Scale(amount, 1, rate.basisPoints);
      }
    }
  }

  /** What a fee is without its formula: enough basis points of the amount, not a unit more, and no more than the maximum. */
  ghost predicate IsFee(rate: Rate, amount: nat, fee: nat) {
    && fee <= rate.maximum
    && (fee < rate.maximum ==> amount * rate.basisPoints <= fee * ONE_IN_BASIS_POINTS)
    && (fee > 0 ==> (fee - 1) * ONE_IN_BASIS_POINTS < amount * rate.basisPoints)
  }

  /**
   The fee charged is the one amount that is a fee in this sense, and there is one unless the part of the amount, rounded
   up, leaves u64.
   */
  lemma FeeIsLeast(rate: Rate, amount: nat, fee: nat)
    ensures CalculateFee(rate, amount) == Some(fee)
            <==> IsFee(rate, amount, fee) && amount * rate.basisPoints <= (U64 - 1) * ONE_IN_BASIS_POINTS
  {
    var product := amount * rate.basisPoints;
    if rate.basisPoints != 0 && amount != 0 {
      assert product > 0 by {
        Scale(amount, 1, rate.basisPoints);
      }
    } else {
      assert product == 0;
    }
  }

  /** A larger amount is never charged less. */
  lemma FeeMonotone(rate: Rate, amount: nat, amount': nat, fee: nat, fee': nat)
    requires amount <= amount' && CalculateFee(rate, amount) == Some(fee) && CalculateFee(rate, amount') == Some(fee')
    ensures fee <= fee'
  {
    hide CalculateFee;
    FeeIsLeast(rate, amount, fee);
    FeeIsLeast(rate, amount', fee');
    Scale(rate.basisPoints, amount, amount');
    assert amount * rate.basisPoints <= amount' * rate.basisPoints;
  }

  lemma Scale(a: nat, b: nat, c: nat)
    requires b <= c
    ensures a * b <= a * c
  {}

  /** `ExpectedFee` refuses exactly when the mint has no schedule. */
  lemma ExpectedFeeRefusals(config: Option<FeeConfig>, epoch: nat, amount: nat)
    requires config.Some? ==> ConfigOk(config.value)
    requires amount < U64
    ensures ExpectedFee(config, epoch, amount).Ok? <==> config.Some?
    ensures ExpectedFee(config, epoch, amount).Ok? ==> ExpectedFee(config, epoch, amount).value <= amount
  {
    if config.Some? {
      FeeWithinAmount(EpochFee(config.value, epoch), amount);
    }
  }

  // ---------------------------------------------------------------- the history

  /** Calls in the order they were made, from the epoch the mint was created in. */
  ghost predicate History(start: nat, calls: seq<Call>) {
    && (forall i | 0 <= i < |calls| :: start <= calls[i].epoch && RateOk(calls[i].rate))
    && (forall i, j | 0 <= i < j < |calls| :: calls[i].epoch <= calls[j].epoch)
  }

  /** Call `i` has taken effect by `epoch`: two epochs went by, and no other call came before they had. */
  ghost predicate Effective(calls: seq<Call>, i: nat, epoch: nat)
    requires i < |calls|
  {
    && calls[i].epoch + 2 <= epoch
    && forall j | i < j < |calls| :: calls[i].epoch + 2 <= calls[j].epoch
  }

  /** `rate` is that of the latest effective call, or the first rate when there is none. */
  ghost predicate Governs(first: Rate, calls: seq<Call>, epoch: nat, rate: Rate) {
    || (rate == first && forall i | 0 <= i < |calls| :: !Effective(calls, i, epoch))
    || (exists i | 0 <= i < |calls| ::
          && Effective(calls, i, epoch)
          && rate == calls[i].rate
          && forall j | i < j < |calls| :: !Effective(calls, j, epoch))
  }

  /** The two slots after all `calls` on a mint created in epoch `start` with rate `first`. */
  function Replay(start: nat, first: Rate, calls: seq<Call>): FeeConfig {
    if calls == [] then FeeConfig(TransferFee(start, first), TransferFee(start, first))
    else
      var before := Replay(start, first, calls[..|calls| - 1]);
      var last := calls[|calls| - 1];
      match SetFee(before, last.epoch, last.rate)
      case None => before
      case Some(after) => after
  }

  /** Right after a call the earlier history still prescribes what it prescribed when the call was made. */
  lemma PendingCallChangesNothing(first: Rate, before: seq<Call>, last: Call, epoch: nat, rate: Rate)
    requires last.epoch <= epoch < last.epoch + 2
    requires Governs(first, before, last.epoch, rate)
    ensures Governs(first, before + [last], epoch, rate)
  {
    var calls := before + [last];
    assert calls[|before|] == last;
    forall i | 0 <= i < |before| ensures Effective(calls, i, epoch) <==> Effective(before, i, last.epoch) {
      assert calls[i] == before[i];
      if Effective(before, i, last.epoch) {
        forall j | i < j < |calls| ensures calls[i].epoch + 2 <= calls[j].epoch {
          if j < |before| { assert calls[j] == before[j]; }
        }
      }
      if Effective(calls, i, epoch) {
        assert calls[i].epoch + 2 <= calls[|before|].epoch;
        forall j | i < j < |before| ensures before[i].epoch + 2 <= before[j].epoch {
          assert calls[j] == before[j];
        }
      }
    }
    assert !Effective(calls, |before|, epoch);
  }

  /** A call at least two epochs old that was followed by no other is what governs. */
  lemma LatestGoverns(first: Rate, calls: seq<Call>, epoch: nat)
    requires |calls| > 0 && calls[|calls| - 1].epoch + 2 <= epoch
    ensures Governs(first, calls, epoch, calls[|calls| - 1].rate)
  {
    assert Effective(calls, |calls| - 1, epoch);
  }

  lemma HistoryBefore(start: nat, before: seq<Call>, last: Call)
    requires History(start, before + [last])
    ensures History(start, before) && start <= last.epoch && RateOk(last.rate)
    ensures |before| > 0 ==> before[|before| - 1].epoch <= last.epoch
  {
    var calls := before + [last];
    assert calls[|before|] == last && forall i | 0 <= i < |before| :: calls[i] == before[i];
  }

  lemma ReplayMore(start: nat, first: Rate, before: seq<Call>, last: Call)
    requires RateOk(last.rate)
    ensures SetFee(Replay(start, first, before), last.epoch, last.rate)
         == Some(Replay(start, first, before + [last]))
  {
    assert (before + [last])[..|before|] == before;
  }

  /** One more call on slots that prescribe what the history did when it was made. */
  lemma OneMoreCall(first: Rate, before: seq<Call>, last: Call, config: FeeConfig, config': FeeConfig, epoch: nat)
    requires ConfigOk(config) && SetFee(config, last.epoch, last.rate) == Some(config') && last.epoch <= epoch
    requires Governs(first, before, last.epoch, EpochFee(config, last.epoch))
    ensures ConfigOk(config') && Governs(first, before + [last], epoch, EpochFee(config', epoch))
  {
    hide Governs;
    CallTakesTwoEpochs(config, last.epoch, last.rate, epoch);
    if last.epoch + 2 <= epoch {
      LatestGoverns(first, before + [last], epoch);
    } else {
      PendingCallChangesNothing(first, before, last, epoch, EpochFee(config, last.epoch));
    }
  }

  lemma NoCallGoverns(start: nat, first: Rate, epoch: nat)
    requires RateOk(first)
    ensures ConfigOk(Replay(start, first, [])) && Governs(first, [], epoch, EpochFee(Replay(start, first, []), epoch))
  {}

  /** Two slots are enough: from the last call on, the rate charged is the one the whole history prescribes. */
  lemma {:induction false} TwoSlotsRefineHistory(start: nat, first: Rate, calls: seq<Call>, epoch: nat)
    requires RateOk(first) && History(start, calls)
    requires start <= epoch && (|calls| > 0 ==> calls[|calls| - 1].epoch <= epoch)
    ensures ConfigOk(Replay(start, first, calls))
    ensures Governs(first, calls, epoch, EpochFee(Replay(start, first, calls), epoch))
    decreases |calls|
  {
    hide Governs, History, Replay, SetFee, EpochFee, ConfigOk, RateOk;
    if calls == [] {
      NoCallGoverns(start, first, epoch);
    } else {
      var n := |calls| - 1;
      var before, last := calls[..n], calls[n];
      assert calls == before + [last];
      HistoryBefore(start, before, last);
      TwoSlotsRefineHistory(start, first, before, last.epoch);
      ReplayMore(start, first, before, last);
      OneMoreCall(first, before, last, Replay(start, first, before), Replay(start, first, calls), epoch);
    }
  }

  /** The prescribed rate is unique, so `Governs` decides what is charged. */
  lemma GovernsOneRate(first: Rate, calls: seq<Call>, epoch: nat, a: Rate, b: Rate)
    requires Governs(first, calls, epoch, a) && Governs(first, calls, epoch, b)
    ensures a == b
  {}

  /** A call leaves its own epoch and the next on the rate that was active, and rules from the one after. */
  lemma CallTakesTwoEpochs(config: FeeConfig, epoch: nat, rate: Rate, later: nat)
    requires RateOk(rate) && epoch <= later
    ensures SetFee(config, epoch, rate).Some?
    ensures EpochFee(SetFee(config, epoch, rate).value, later)
         == if later < epoch + 2 then EpochFee(config, epoch) else rate
  {}
}
