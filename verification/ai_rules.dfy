/**
 * The rule-based parts of the expense forecaster: the confidence of a
 * predicted month, the weekend feature, the guards of training and
 * prediction, and the thresholds of the spending insights. The machine
 * learning itself (feature frames, scaling, the random forest) is reduced to
 * its outcomes, which are parameters.
 */
module AiRules {
  import opened Wrappers
  import opened Js
  import opened Schemas
  import opened Aggregates

  function Abs(n: int): nat {
    if n < 0 then -n else n
  }

  /**
   * `_calculate_confidence` for a month difference: 0.9, 0.8 and 0.7 for
   * differences 0, 1 and 2, then 0.1 less per month down to 0.5.
   */
  function ConfidenceFor(diff: nat): (c: real)
    ensures 0.5 <= c <= 0.9
    ensures c == 0.9 <==> diff == 0
    ensures diff >= 4 ==> c == 0.5
  {
    if diff == 0 then 0.9
    else if diff == 1 then 0.8
    else if diff == 2 then 0.7
    else if 0.5 >= 0.9 - diff as real * 0.1 then 0.5 else 0.9 - diff as real * 0.1
  }

  /** The confidence of a prediction for `predictedMonth` made in `currentMonth`. */
  function Confidence(predictedMonth: int, currentMonth: int): real {
    ConfidenceFor(Abs(predictedMonth - currentMonth))
  }

  /** The further the month, the lower (or equal) the confidence. */
  lemma ConfidenceNonIncreasing(a: nat, b: nat)
    requires a <= b
    ensures ConfidenceFor(a) >= ConfidenceFor(b)
  {
  }

  /** Beyond two months the three fixed steps continue as the general formula. */
  lemma ConfidenceStepsFollowFormula(diff: nat)
    requires diff <= 4
    ensures ConfidenceFor(diff) == 0.9 - diff as real * 0.1
  {
  }

  /** Python's `weekday()`: Monday is 0. Day 1 of the proleptic calendar is a Monday. */
  function Weekday(d: Date): (w: int)
    ensures 0 <= w < 7
  {
    (d.ordinal - 1) % 7
  }

  /** The `is_weekend` feature: 1 on Saturdays and Sundays (weekday 5 or 6), 0 otherwise. */
  function IsWeekend(d: Date): (flag: int)
    ensures flag == 1 <==> Weekday(d) == 5 || Weekday(d) == 6
    ensures flag == 0 <==> Weekday(d) < 5
  {
    if Weekday(d) == 5 || Weekday(d) == 6 then 1 else 0
  }

  /** Any seven consecutive days hold exactly two weekend days. */
  lemma TwoWeekendDaysPerWeek(d: Date)
    ensures IsWeekend(d) + IsWeekend(Date(d.ordinal + 1)) + IsWeekend(Date(d.ordinal + 2)) +
      IsWeekend(Date(d.ordinal + 3)) + IsWeekend(Date(d.ordinal + 4)) + IsWeekend(Date(d.ordinal + 5)) +
      IsWeekend(Date(d.ordinal + 6)) == 2
  {
    var w := Weekday(d);
    WeekdayShift(d, 1);
    WeekdayShift(d, 2);
    WeekdayShift(d, 3);
    WeekdayShift(d, 4);
    WeekdayShift(d, 5);
    WeekdayShift(d, 6);
    assert 0 <= w < 7;
  }

  /** `k` days later the weekday has moved on by `k`, modulo the week. */
  lemma WeekdayShift(d: Date, k: nat)
    requires k < 7
    ensures Weekday(Date(d.ordinal + k)) == (Weekday(d) + k) % 7
  {
    var q, w := (d.ordinal - 1) / 7, Weekday(d);
    assert d.ordinal - 1 == 7 * q + w;
    if w + k < 7 {
      assert d.ordinal + k - 1 == 7 * q + (w + k);
    } else {
      assert d.ordinal + k - 1 == 7 * (q + 1) + (w + k - 7);
    }
  }

  // ---------------------------------------------------------------------
  // Training and prediction
  // ---------------------------------------------------------------------

  const MinTrainingExpenses := 10
  const NeedMoreExpenses := "Need at least 10 expenses to train the model"
  const NotTrained := "Model not trained. Please train first."
  const NoHistory := "No historical expenses found"

  /** How the training pipeline past the first guard ends. */
  datatype FitOutcome = FeaturesEmpty | TooFewRows | FitFailed(error: string) | Fitted

  datatype TrainResult = TrainResult(success: bool, message: string)

  function FitMessage(fit: FitOutcome): string {
    match fit
    case FeaturesEmpty => "Failed to prepare features"
    case TooFewRows => "Insufficient data for training after feature preparation"
    case FitFailed(e) => "Training failed: " + e
    case Fitted => "Model trained successfully"
  }

  /** One entry of `predictions`. */
  datatype Prediction = Prediction(month: int, predictedAmount: real, confidence: real)

  datatype PredictResult = PredictResult(success: bool, message: string, predictions: seq<Prediction>)

  function Max0(x: real): (r: real)
    ensures r >= 0.0 && r >= x && (r == x || r == 0.0)
  {
    if 0.0 >= x then 0.0 else x
  }

  /**
   * The predictions for the offsets 1..n: for each offset whose month
   * features exist (`raw(k)` is the model's output then), the month, the
   * amount clamped at zero, and the confidence.
   */
  function Predictions(n: nat, currentMonth: int, targetMonth: int -> int, raw: int -> Option<real>): seq<Prediction> {
    if n == 0 then []
    else
      Predictions(n - 1, currentMonth, targetMonth, raw) +
      (if raw(n).Some? then [Prediction(targetMonth(n), Max0(raw(n).value), Confidence(targetMonth(n), currentMonth))] else [])
  }

  /** Every prediction is non-negative, within the confidence band, and there is at most one per month asked for. */
  lemma {:induction false} PredictionsAreSane(n: nat, currentMonth: int, targetMonth: int -> int, raw: int -> Option<real>)
    ensures var ps := Predictions(n, currentMonth, targetMonth, raw);
      && |ps| <= n
      && forall i :: 0 <= i < |ps| ==> ps[i].predictedAmount >= 0.0 && 0.5 <= ps[i].confidence <= 0.9
  {
    if n > 0 {
      PredictionsAreSane(n - 1, currentMonth, targetMonth, raw);
    }
  }

  class ExpenseForecaster {
    var isTrained: bool

    constructor()
      ensures !isTrained
    {
      isTrained := false;
    }

    /**
     * `train_model` over `count` expenses: fewer than ten fail at once;
     * otherwise the pipeline's outcome decides, and only a completed fit
     * marks the model trained.
     */
    method TrainModel(count: nat, fit: FitOutcome) returns (r: TrainResult)
      modifies this
      ensures count < MinTrainingExpenses ==> r == TrainResult(false, NeedMoreExpenses)
      ensures count >= MinTrainingExpenses ==> r == TrainResult(fit == Fitted, FitMessage(fit))
      ensures isTrained == (old(isTrained) || r.success)
    {
      if count < MinTrainingExpenses {
        return TrainResult(false, NeedMoreExpenses);
      }
      if fit != Fitted {
        return TrainResult(false, FitMessage(fit));
      }
      isTrained := true;
      r := TrainResult(true, FitMessage(fit));
    }

    /**
     * `predict_monthly_expenses`: refused when untrained or without history;
     * otherwise one prediction per offset 1..`monthsAhead` that has month
     * features. `targetMonth` and `raw` stand for the date arithmetic and the
     * model's output for each offset.
     */
    method PredictMonthly(hasHistory: bool, monthsAhead: int, currentMonth: int,
                          targetMonth: int -> int, raw: int -> Option<real>) returns (r: PredictResult)
      ensures !isTrained ==> r == PredictResult(false, NotTrained, [])
      ensures isTrained && !hasHistory ==> r == PredictResult(false, NoHistory, [])
      ensures isTrained && hasHistory ==>
        var n := if monthsAhead < 0 then 0 else monthsAhead;
        r.success && r.predictions == Predictions(n, currentMonth, targetMonth, raw)
        && r.message == "Generated " + NatToString(|r.predictions|) + " month predictions"
    {
      if !isTrained {
        return PredictResult(false, NotTrained, []);
      }
      if !hasHistory {
        return PredictResult(false, NoHistory, []);
      }
      var predictions: seq<Prediction> := [];
      var offset := 1;
      while offset <= monthsAhead
        invariant 1 <= offset <= if monthsAhead < 0 then 1 else monthsAhead + 1
        invariant predictions == Predictions(offset - 1, currentMonth, targetMonth, raw)
      {
        var amount := raw(offset);
        if amount.Some? {
          var predicted := Max0(amount.value);
          predictions := predictions + [Prediction(targetMonth(offset), predicted, Confidence(targetMonth(offset), currentMonth))];
        }
        offset := offset + 1;
      }
      assert offset - 1 == if monthsAhead < 0 then 0 else monthsAhead;
      r := PredictResult(true, "Generated " + NatToString(|predictions|) + " month predictions", predictions);
    }
  }

  // ---------------------------------------------------------------------
  // Spending insights
  // ---------------------------------------------------------------------

  datatype InsightKind = Trend | CategoryConcentration | Budget
  /** `info`, `success` and `warning`. */
  datatype Severity = Info | Positive | Warning

  /** An insight, without its message text (formatted floats). */
  datatype Insight = Insight(kind: InsightKind, title: string, severity: Severity)

  datatype InsightsResult = InsightsResult(success: bool, insights: seq<Insight>)

  /** The largest of a non-empty list: the first entry after sorting descending. */
  function MaxOf(xs: seq<real>): (m: real)
    requires xs != []
    ensures m in xs && forall i :: 0 <= i < |xs| ==> xs[i] <= m
  {
    if |xs| == 1 then xs[0]
    else
      var rest := MaxOf(xs[1..]);
      assert forall i :: 1 <= i < |xs| ==> xs[1..][i - 1] == xs[i];
      if xs[0] >= rest then xs[0] else rest
  }

  function Id(x: real): real {
    x
  }

  /**
   * `change_percent > 20` for a rise `change > 0` over `previous`: a rise
   * from zero divides to infinity, which exceeds every threshold.
   */
  predicate RiseAbove20Percent(change: real, previous: real) {
    if previous == 0.0 then change > 0.0 else change / previous * 100.0 > 20.0
  }

  /** `top / total * 100 > 40`, with the floating-point reading of a zero total. */
  predicate Concentrated(top: real, total: real) {
    if total == 0.0 then top > 0.0 else top / total * 100.0 > 40.0
  }

  const BudgetThreshold := 50000.0

  /** The trend insight of the last two months. */
  function TrendInsight(previous: real, last: real): (i: Insight)
    ensures i.kind == Trend
    ensures i.title == "Spending Increase" <==> last > previous
    ensures i.severity == Warning <==> last > previous && RiseAbove20Percent(last - previous, previous)
    ensures i.severity == Positive <==> last <= previous
  {
    var change := last - previous;
    if change > 0.0 then
      Insight(Trend, "Spending Increase", if RiseAbove20Percent(change, previous) then Warning else Info)
    else Insight(Trend, "Spending Decrease", Positive)
  }

  predicate Has(xs: seq<Insight>, k: InsightKind) {
    exists i :: 0 <= i < |xs| && xs[i].kind == k
  }

  /**
   * The insights for non-empty month totals (in month order) and category
   * totals: the trend of the last two months when there are two, then the
   * concentration warning, then the budget warning.
   */
  function Insights(monthly: seq<real>, byCategory: seq<real>): seq<Insight>
    requires monthly != [] && byCategory != []
  {
    (if |monthly| >= 2 then [TrendInsight(monthly[|monthly| - 2], monthly[|monthly| - 1])] else []) +
    (if Concentrated(MaxOf(byCategory), Sum(byCategory, Id))
     then [Insight(CategoryConcentration, "High Category Concentration", Warning)] else []) +
    (if Sum(monthly, Id) / |monthly| as real > BudgetThreshold
     then [Insight(Budget, "High Monthly Spending", Warning)] else [])
  }

  /**
   * What the insight rules promise: at most one insight of each kind, a
   * trend exactly when two months are known, a concentration warning
   * exactly when the top category exceeds 40% of the total, a budget
   * warning exactly when the monthly average exceeds 50000.
   */
  lemma InsightRules(monthly: seq<real>, byCategory: seq<real>)
    requires monthly != [] && byCategory != []
    ensures var r := Insights(monthly, byCategory);
      && |r| <= 3
      && (Has(r, Trend) <==> |monthly| >= 2)
      && (forall i :: 0 <= i < |r| && r[i].kind == Trend ==>
            r[i] == TrendInsight(monthly[|monthly| - 2], monthly[|monthly| - 1]))
      && (Has(r, CategoryConcentration) <==> Concentrated(MaxOf(byCategory), Sum(byCategory, Id)))
      && (Has(r, Budget) <==> Sum(monthly, Id) / |monthly| as real > BudgetThreshold)
      && (forall i :: 0 <= i < |r| && r[i].kind != Trend ==> r[i].severity == Warning)
  {
    var t := if |monthly| >= 2 then [TrendInsight(monthly[|monthly| - 2], monthly[|monthly| - 1])] else [];
    var c := if Concentrated(MaxOf(byCategory), Sum(byCategory, Id))
      then [Insight(CategoryConcentration, "High Category Concentration", Warning)] else [];
    var b := if Sum(monthly, Id) / |monthly| as real > BudgetThreshold
      then [Insight(Budget, "High Monthly Spending", Warning)] else [];
    assert Insights(monthly, byCategory) == t + c + b;
    ThreeParts(t, c, b);
  }

  /** Facts about a trend part, a concentration part and a budget part of at most one insight each. */
  lemma ThreeParts(t: seq<Insight>, c: seq<Insight>, b: seq<Insight>)
    requires |t| <= 1 && |c| <= 1 && |b| <= 1
    requires forall i :: 0 <= i < |t| ==> t[i].kind == Trend
    requires forall i :: 0 <= i < |c| ==> c[i].kind == CategoryConcentration && c[i].severity == Warning
    requires forall i :: 0 <= i < |b| ==> b[i].kind == Budget && b[i].severity == Warning
    ensures var r := t + c + b;
      && |r| <= 3
      && (Has(r, Trend) <==> t != [])
      && (Has(r, CategoryConcentration) <==> c != [])
      && (Has(r, Budget) <==> b != [])
      && (forall i :: 0 <= i < |r| && r[i].kind == Trend ==> r[i] == t[0])
      && (forall i :: 0 <= i < |r| && r[i].kind != Trend ==> r[i].severity == Warning)
  {
    var r := t + c + b;
    assert Has(t, Trend) <==> t != [] by {
      if t != [] { assert t[0].kind == Trend; }
    }
    assert Has(c, CategoryConcentration) <==> c != [] by {
      if c != [] { assert c[0].kind == CategoryConcentration; }
    }
    assert Has(b, Budget) <==> b != [] by {
      if b != [] { assert b[0].kind == Budget; }
    }
    forall k
      ensures Has(r, k) <==> Has(t, k) || Has(c, k) || Has(b, k)
    {
      HasConcat(t + c, b, k);
      HasConcat(t, c, k);
    }
    assert forall i :: 0 <= i < |r| ==> (r[i].kind == Trend <==> i < |t|);
  }

  lemma HasConcat(xs: seq<Insight>, ys: seq<Insight>, k: InsightKind)
    ensures Has(xs + ys, k) <==> Has(xs, k) || Has(ys, k)
  {
    if Has(xs, k) {
      var i :| 0 <= i < |xs| && xs[i].kind == k;
      assert (xs + ys)[i] == xs[i];
    }
    if Has(ys, k) {
      var i :| 0 <= i < |ys| && ys[i].kind == k;
      assert (xs + ys)[|xs| + i] == ys[i];
    }
  }

  /**
   * `get_spending_insights`. No recent expenses: failure. No category total
   * (every category name null): the lookup of the top category raises, and
   * the failure is caught. Otherwise the insights, appended rule by rule.
   */
  method GetSpendingInsights(monthly: seq<real>, byCategory: seq<real>) returns (r: InsightsResult)
    ensures r.success <==> monthly != [] && byCategory != []
    ensures !r.success ==> r.insights == []
    ensures r.success ==> r.insights == Insights(monthly, byCategory)
  {
    if monthly == [] {
      return InsightsResult(false, []);
    }
    var insights: seq<Insight> := [];
    if |monthly| >= 2 {
      insights := insights + [TrendInsight(monthly[|monthly| - 2], monthly[|monthly| - 1])];
    }
    if byCategory == [] {
      return InsightsResult(false, []);
    }
    var top := MaxOf(byCategory);
    var total := Sum(byCategory, Id);
    if Concentrated(top, total) {
      insights := insights + [Insight(CategoryConcentration, "High Category Concentration", Warning)];
    }
    var average := Sum(monthly, Id) / |monthly| as real;
    if average > BudgetThreshold {
      insights := insights + [Insight(Budget, "High Monthly Spending", Warning)];
    }
    r := InsightsResult(true, insights);
  }
}
