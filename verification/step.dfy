/** Step metering (gas-style accounting) for one transaction: a factory that
    holds the fee schedule and a counter that charges `quantity * unit` per
    operation against a fixed limit, raising `OutOfStepException` and leaving
    the count untouched when a charge would exceed it. */
module Step {
  import opened Exceptions

  /** The `step_used` accessor's view of the raw counter: negative raw values
      read as zero. */
  function Clamped(raw: int): (used: int)
    ensures used >= 0 && used >= raw
    ensures raw >= 0 ==> used == raw
    ensures raw < 0 ==> used == 0
  {
    if raw < 0 then 0 else raw
  }

  /** What `__increase_step(requested)` does to a counter whose raw field is
      `raw`: the LIMIT CHECK uses the clamped value, the ADDITION uses the raw
      field. On success the outcome is the new raw value; on failure the
      exception reports the limit, the clamped count and the request. */
  function ChargeOutcome(raw: int, stepLimit: int, requested: int): (o: Outcome<int>)
    ensures o.Returned? <==> requested + Clamped(raw) <= stepLimit
    ensures o.Returned? ==> o.value == raw + requested
    ensures o.Threw? ==> o.raised == Service(OutOfStep(stepLimit, Clamped(raw), requested))
  {
    if requested + Clamped(raw) > stepLimit then Threw(Service(OutOfStep(stepLimit, Clamped(raw), requested)))
    else Returned(raw + requested)
  }

  /** After a successful charge the raw counter is within the limit, and so
      is the accessor's value whenever the limit is not negative. */
  lemma ChargeStaysWithinLimit(raw: int, stepLimit: int, requested: int)
    requires ChargeOutcome(raw, stepLimit, requested).Returned?
    ensures ChargeOutcome(raw, stepLimit, requested).value <= stepLimit
    ensures stepLimit >= 0 ==> Clamped(ChargeOutcome(raw, stepLimit, requested).value) <= stepLimit
  {
  }

  /** With a negative limit the clamped accessor can exceed the limit after a
      successful charge: a raw count of 0 and a charge of -10 against a limit
      of -5 succeed, leaving a raw count of -10 that reads as 0. */
  lemma NegativeLimitAccessorAboveLimit()
    ensures ChargeOutcome(0, -5, -10) == Returned(-10)
    ensures Clamped(-10) > -5
  {
  }

  /** Because the check uses the clamped value, a counter whose raw field is
      negative refuses a charge that the raw sum would still fit. */
  lemma ClampedCheckIsStricter(raw: int, stepLimit: int, requested: int)
    requires raw < 0 && raw + requested <= stepLimit < requested
    ensures ChargeOutcome(raw, stepLimit, requested).Threw?
  {
  }

  /** The remaining steps the exception reports are the limit minus the
      clamped count, and its message shows the request and that remainder. */
  lemma OutOfStepReportsRemaining(raw: int, stepLimit: int, requested: int)
    requires ChargeOutcome(raw, stepLimit, requested).Threw?
    ensures var e := ChargeOutcome(raw, stepLimit, requested).raised.service;
      e.stepLimit - e.stepUsed == stepLimit - Clamped(raw) < requested
      && Message(e) == OutOfStepMessage(stepLimit, Clamped(raw), requested)
  {
  }

  function Sum(costs: seq<int>): int
  {
    if costs == [] then 0 else costs[0] + Sum(costs[1..])
  }

  /** Consecutive charges, stopping at the first that raises. */
  function ChargeAll(raw: int, stepLimit: int, costs: seq<int>): Outcome<int>
    decreases |costs|
  {
    if costs == [] then Returned(raw)
    else match ChargeOutcome(raw, stepLimit, costs[0])
      case Threw(e) => Threw(e)
      case Returned(next) => ChargeAll(next, stepLimit, costs[1..])
  }

  /** Non-negative charges applied to a non-negative count all succeed
      exactly when their total fits within the limit, and then the count has
      grown by exactly that total, whatever the order of the charges. */
  lemma {:induction false} ChargeAllSucceedsIffTotalFits(raw: int, stepLimit: int, costs: seq<int>)
    requires raw >= 0
    requires forall i :: 0 <= i < |costs| ==> costs[i] >= 0
    ensures ChargeAll(raw, stepLimit, costs).Returned? <==> raw + Sum(costs) <= stepLimit || costs == []
    ensures ChargeAll(raw, stepLimit, costs).Returned? ==> ChargeAll(raw, stepLimit, costs).value == raw + Sum(costs)
    decreases |costs|
  {
    if costs != [] {
      SumNonNegative(costs[1..]);
      if costs[0] + raw <= stepLimit {
        ChargeAllSucceedsIffTotalFits(raw + costs[0], stepLimit, costs[1..]);
      }
    }
  }

  lemma {:induction false} SumNonNegative(costs: seq<int>)
    requires forall i :: 0 <= i < |costs| ==> costs[i] >= 0
    ensures Sum(costs) >= 0
    decreases |costs|
  {
    if costs != [] {
      SumNonNegative(costs[1..]);
    }
  }

  /** A failed charge in a sequence leaves the count where the previous
      successful charge left it: the outcome after a failure is the same as
      if the sequence had stopped there. */
  lemma {:induction false} ChargeAllStopsAtFailure(raw: int, stepLimit: int, done: seq<int>, failing: int, rest: seq<int>)
    requires ChargeAll(raw, stepLimit, done).Returned?
    requires ChargeOutcome(ChargeAll(raw, stepLimit, done).value, stepLimit, failing).Threw?
    ensures ChargeAll(raw, stepLimit, done + [failing] + rest)
         == ChargeOutcome(ChargeAll(raw, stepLimit, done).value, stepLimit, failing)
    decreases |done|
  {
    if done == [] {
      assert done + [failing] + rest == [failing] + rest;
    } else {
      assert (done + [failing] + rest)[0] == done[0];
      assert (done + [failing] + rest)[1..] == done[1..] + [failing] + rest;
      ChargeAllStopsAtFailure(ChargeOutcome(raw, stepLimit, done[0]).value, stepLimit, done[1..], failing, rest);
    }
  }

  /** `IconScoreStepCounter`: counts the steps of one transaction. The six
      unit costs and the limit are fixed at construction; only the raw count
      changes. */
  class StepCounter {
    var rawUsed: int
    const ssetUnit: int
    const sreplaceUnit: int
    const sdeleteUnit: int
    const transferUnit: int
    const msgcallUnit: int
    const eventlogUnit: int
    const stepLimit: int

    constructor (defaultStep: int, ssetUnit: int, sreplaceUnit: int, sdeleteUnit: int,
                 transferUnit: int, msgcallUnit: int, eventlogUnit: int, stepLimit: int)
      ensures rawUsed == defaultStep && this.stepLimit == stepLimit
      ensures this.ssetUnit == ssetUnit && this.sreplaceUnit == sreplaceUnit
      ensures this.sdeleteUnit == sdeleteUnit && this.transferUnit == transferUnit
      ensures this.msgcallUnit == msgcallUnit && this.eventlogUnit == eventlogUnit
    {
      rawUsed := defaultStep;
      this.ssetUnit := ssetUnit;
      this.sreplaceUnit := sreplaceUnit;
      this.sdeleteUnit := sdeleteUnit;
      this.transferUnit := transferUnit;
      this.msgcallUnit := msgcallUnit;
      this.eventlogUnit := eventlogUnit;
      this.stepLimit := stepLimit;
    }

    /** The `step_used` property: never negative. */
    function StepUsed(): (used: int)
      reads this
      ensures used >= 0 && used >= rawUsed
      ensures rawUsed >= 0 ==> used == rawUsed
    {
      Clamped(rawUsed)
    }

    /** `__increase_step`: either adds exactly `requested` to the raw count
        and returns the new count, or raises without changing anything. */
    method IncreaseStep(requested: int) returns (o: Outcome<int>)
      modifies this
      ensures o == ChargeOutcome(old(rawUsed), stepLimit, requested)
      ensures o.Returned? ==> rawUsed == old(rawUsed) + requested == o.value
      ensures o.Threw? ==> rawUsed == old(rawUsed)
    {
      if requested + StepUsed() > stepLimit {
        o := Threw(Service(OutOfStep(stepLimit, StepUsed(), requested)));
        return;
      }
      rawUsed := rawUsed + requested;
      o := Returned(rawUsed);
    }

    /** `increase_sset_step`: storing new data costs `data_size * sset unit`. */
    method IncreaseSsetStep(dataSize: int) returns (o: Outcome<int>)
      modifies this
      ensures o == ChargeOutcome(old(rawUsed), stepLimit, dataSize * ssetUnit)
      ensures rawUsed == if o.Returned? then o.value else old(rawUsed)
    {
      o := IncreaseStep(dataSize * ssetUnit);
    }

    /** `increase_sreplace_step`: replacing data costs `data_size * sreplace unit`. */
    method IncreaseSreplaceStep(dataSize: int) returns (o: Outcome<int>)
      modifies this
      ensures o == ChargeOutcome(old(rawUsed), stepLimit, dataSize * sreplaceUnit)
      ensures rawUsed == if o.Returned? then o.value else old(rawUsed)
    {
      o := IncreaseStep(dataSize * sreplaceUnit);
    }

    /** `increase_sdelete_step`: deleting data costs `data_size * sdelete unit`. */
    method IncreaseSdeleteStep(dataSize: int) returns (o: Outcome<int>)
      modifies this
      ensures o == ChargeOutcome(old(rawUsed), stepLimit, dataSize * sdeleteUnit)
      ensures rawUsed == if o.Returned? then o.value else old(rawUsed)
    {
      o := IncreaseStep(dataSize * sdeleteUnit);
    }

    /** `increase_transfer_step`: each transfer costs the transfer unit. */
    method IncreaseTransferStep(count: int) returns (o: Outcome<int>)
      modifies this
      ensures o == ChargeOutcome(old(rawUsed), stepLimit, count * transferUnit)
      ensures rawUsed == if o.Returned? then o.value else old(rawUsed)
    {
      o := IncreaseStep(count * transferUnit);
    }

    /** `increase_msgcall_step`: each inter-contract call costs the message-call unit. */
    method IncreaseMsgcallStep(count: int) returns (o: Outcome<int>)
      modifies this
      ensures o == ChargeOutcome(old(rawUsed), stepLimit, count * msgcallUnit)
      ensures rawUsed == if o.Returned? then o.value else old(rawUsed)
    {
      o := IncreaseStep(count * msgcallUnit);
    }

    /** `increase_eventlog_step`: logging costs `data_size * event-log unit`. */
    method IncreaseEventlogStep(dataSize: int) returns (o: Outcome<int>)
      modifies this
      ensures o == ChargeOutcome(old(rawUsed), stepLimit, dataSize * eventlogUnit)
      ensures rawUsed == if o.Returned? then o.value else old(rawUsed)
    {
      o := IncreaseStep(dataSize * eventlogUnit);
    }
  }

  /** `IconScoreStepCounterFactory`: holds the fee schedule and hands every
      transaction a fresh counter that starts at the default step. */
  class StepCounterFactory {
    const defaultStep: int
    const ssetUnit: int
    const sreplaceUnit: int
    const sdeleteUnit: int
    const transferUnit: int
    const msgcallUnit: int
    const eventlogUnit: int

    constructor (defaultStep: int, ssetUnit: int, sreplaceUnit: int, sdeleteUnit: int,
                 transferUnit: int, msgcallUnit: int, eventlogUnit: int)
      ensures this.defaultStep == defaultStep
      ensures this.ssetUnit == ssetUnit && this.sreplaceUnit == sreplaceUnit
      ensures this.sdeleteUnit == sdeleteUnit && this.transferUnit == transferUnit
      ensures this.msgcallUnit == msgcallUnit && this.eventlogUnit == eventlogUnit
    {
      this.defaultStep := defaultStep;
      this.ssetUnit := ssetUnit;
      this.sreplaceUnit := sreplaceUnit;
      this.sdeleteUnit := sdeleteUnit;
      this.transferUnit := transferUnit;
      this.msgcallUnit := msgcallUnit;
      this.eventlogUnit := eventlogUnit;
    }

    /** `create(step_limit)`: a new counter at the default step, with this
        factory's units and the given limit. */
    method Create(stepLimit: int) returns (counter: StepCounter)
      ensures fresh(counter)
      ensures counter.rawUsed == defaultStep && counter.stepLimit == stepLimit
      ensures counter.ssetUnit == ssetUnit && counter.sreplaceUnit == sreplaceUnit
      ensures counter.sdeleteUnit == sdeleteUnit && counter.transferUnit == transferUnit
      ensures counter.msgcallUnit == msgcallUnit && counter.eventlogUnit == eventlogUnit
    {
      counter := new StepCounter(defaultStep, ssetUnit, sreplaceUnit, sdeleteUnit,
                                 transferUnit, msgcallUnit, eventlogUnit, stepLimit);
    }
  }
}
