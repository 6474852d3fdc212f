/** The cycle predictor page's list of the next six predicted cycles. */
module CyclePredictor {
  import opened Wrappers
  import opened Days
  import CycleContext

  /** How many cycles the page predicts. */
  const PredictionCount: nat := 6
  /** A predicted period is assumed to end this many days after it starts,
      whatever period length was recorded. */
  const AssumedPeriodEndOffset: int := 4

  /** One predicted cycle. */
  datatype Prediction = Prediction(periodStart: Day, periodEnd: Day, ovulation: Day)

  /** The prediction for a period starting on `start`. */
  function PredictionAt(start: Day): (pr: Prediction)
    ensures pr.periodStart == start
  {
    Prediction(start, AddDays(start, AssumedPeriodEndOffset),
               AddDays(start, -CycleContext.OvulationLeadDays))
  }

  /** `count` predictions, the first starting on `start` and each later one a
      cycle after the previous one. */
  function PredictionsFrom(start: Day, cycleLength: int, count: nat): (preds: seq<Prediction>)
    ensures |preds| == count
    ensures forall i :: 0 <= i < count ==>
      && preds[i].periodStart == start + i * cycleLength
      && preds[i].periodEnd == preds[i].periodStart + AssumedPeriodEndOffset
      && preds[i].ovulation == preds[i].periodStart - CycleContext.OvulationLeadDays
    decreases count
  {
    if count == 0 then []
    else
      var rest := PredictionsFrom(start + cycleLength, cycleLength, count - 1);
      assert forall i :: 1 <= i < count ==> (start + cycleLength) + (i - 1) * cycleLength == start + i * cycleLength;
      [PredictionAt(start)] + rest
  }

  /** The page's predictions: none until both the last period start and the
      next period start are known, otherwise six cycles from the next period
      start. */
  function GenerateCyclePredictions(lastPeriodStart: Option<Day>, nextPeriodStart: Option<Day>,
                                    cycleLength: int): (preds: seq<Prediction>)
    ensures lastPeriodStart.None? || nextPeriodStart.None? ==> preds == []
    ensures lastPeriodStart.Some? && nextPeriodStart.Some? ==>
      && |preds| == PredictionCount
      && preds[0].periodStart == nextPeriodStart.value
      && (forall i :: 0 <= i < |preds| ==>
            && preds[i].periodStart == nextPeriodStart.value + i * cycleLength
            && preds[i].periodEnd == preds[i].periodStart + AssumedPeriodEndOffset
            && preds[i].ovulation == preds[i].periodStart - CycleContext.OvulationLeadDays)
    ensures cycleLength >= 1 ==>
      forall i, j :: 0 <= i < j < |preds| ==> preds[i].periodStart < preds[j].periodStart
  {
    if lastPeriodStart.None? || nextPeriodStart.None? then []
    else
      var preds := PredictionsFrom(nextPeriodStart.value, cycleLength, PredictionCount);
      assert forall i, j :: 0 <= i < j < |preds| && cycleLength >= 1 ==>
        i * cycleLength < j * cycleLength by {
        forall i, j | 0 <= i < j < |preds| && cycleLength >= 1
          ensures i * cycleLength < j * cycleLength
        {
          Days.MulAtLeast(cycleLength, j - i);
          assert j * cycleLength == i * cycleLength + (j - i) * cycleLength;
        }
      }
      preds
  }

  /** With the provider's values, the first predicted period is the
      provider's next period start and its ovulation is the provider's next
      ovulation; every prediction ends four days after it starts. */
  lemma {:induction false} FirstPredictionMatchesContext(p: CycleContext.Profile, today: Day)
    requires p.cycleLength >= 1 && p.lastPeriodStart.Some?
    ensures var info := CycleContext.CalculateCycleInfo(p, today);
      var preds := GenerateCyclePredictions(p.lastPeriodStart, info.nextPeriodStart, p.cycleLength);
      && |preds| == PredictionCount
      && preds[0].periodStart == info.nextPeriodStart.value
      && preds[0].ovulation == info.nextOvulation.value
      && (forall i :: 0 <= i < |preds| ==> preds[i].periodEnd - preds[i].periodStart == 4)
  {
    var info := CycleContext.CalculateCycleInfo(p, today);
    var preds := GenerateCyclePredictions(p.lastPeriodStart, info.nextPeriodStart, p.cycleLength);
    assert preds == PredictionsFrom(info.nextPeriodStart.value, p.cycleLength, PredictionCount);
  }
}
