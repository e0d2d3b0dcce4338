/**
 * The habit calculator (`getHabitStats`): yearly usage, yearly spending and
 * lifetime spending from the daily usage, the cost per unit and the
 * duration bucket, plus the unit words for the product. The inputs are
 * whole numbers, so `Math.round` of their products is the product itself.
 */
module Habits {
  import opened Wrappers
  import opened Text
  import opened Draft

  /** The duration buckets step 4 offers. */
  const DurationOptions: seq<string> := ["less_than_5", "5_to_10", "10_to_20", "over_20"]

  /** Bucket names with a fixed number of years, including the legacy `less_than_10`. */
  predicate IsKnownBucket(duration: string) {
    duration in DurationOptions || duration == "less_than_10"
  }

  /** The upper bound of years a duration answer stands for; older numeric answers are parsed. */
  function DurationYears(duration: string): (years: int)
    ensures !IsKnownBucket(duration) ==> years == ParseOrZero(duration)
    ensures IsKnownBucket(duration) ==> years in {5, 10, 20, 35}
  {
    if duration == "less_than_5" then 5
    else if duration == "5_to_10" then 10
    else if duration == "10_to_20" then 20
    else if duration == "over_20" then 35
    else if duration == "less_than_10" then 10
    else ParseOrZero(duration)
  }

  datatype Label = Label(singular: string, plural: string, unit: string)

  /** The unit words for a product; with no product the cigarette words are used. */
  function LabelFor(pt: Option<ProductType>): Label {
    match pt
    case None => Label("cigarette", "cigarettes", "cigarettes")
    case Some(Cigarettes) => Label("cigarette", "cigarettes", "cigarettes")
    case Some(VapeDisposable) => Label("vape", "vapes", "vapes")
    case Some(VapeRefillable) => Label("vape", "vapes", "vapes")
    case Some(Pouches) => Label("pouch", "pouches", "pouches")
    case Some(Dip) => Label("can", "cans", "cans")
    case Some(Multiple) => Label("product", "products", "units")
  }

  /** Without a product type the calculator speaks of cigarettes; every product has its own words. */
  lemma LabelTable()
    ensures LabelFor(None) == LabelFor(Some(Cigarettes))
    ensures LabelFor(Some(VapeDisposable)).unit == "vapes" && LabelFor(Some(VapeRefillable)).unit == "vapes"
    ensures LabelFor(Some(Pouches)).unit == "pouches" && LabelFor(Some(Dip)).unit == "cans"
    ensures LabelFor(Some(Multiple)).unit == "units" && LabelFor(Some(Cigarettes)).unit == "cigarettes"
  {
  }

  datatype Stats = Stats(yearlyUsage: int, yearlySpending: int, totalSpent: int, productLabel: Label)

  /** Units used per day: the step-2 answer, 0 when it does not parse. */
  function DailyUsage(d: FormData): int {
    ParseOrZero(d.weeklyUsage)
  }

  /** Cost of one unit: the step-3 answer, 0 when it does not parse. */
  function CostPerUnit(d: FormData): int {
    ParseOrZero(d.monthlySpending)
  }

  function YearlySpending(d: FormData): int {
    DailyUsage(d) * CostPerUnit(d) * 365
  }

  function HabitStats(d: FormData): Stats {
    Stats(DailyUsage(d) * 365, YearlySpending(d), YearlySpending(d) * DurationYears(d.duration), LabelFor(d.productType))
  }

  /** The duration table: the four offered buckets and the legacy one. */
  lemma DurationTable()
    ensures DurationYears("less_than_5") == 5
    ensures DurationYears("5_to_10") == 10
    ensures DurationYears("10_to_20") == 20
    ensures DurationYears("over_20") == 35
    ensures DurationYears("less_than_10") == 10
  {
  }

  /** The bucket years for a step-4 choice, by position in the option list. */
  function BucketYears(i: nat): int
    requires i < |DurationOptions|
  {
    [5, 10, 20, 35][i]
  }

  /** Products of bounded non-negative factors are bounded by the products of the bounds. */
  lemma MulBounds(a: int, b: int, loA: int, hiA: int, loB: int, hiB: int)
    requires 0 <= loA <= a <= hiA && 0 <= loB <= b <= hiB
    ensures loA * loB <= a * b <= hiA * hiB
  {
    assert loA * loB <= a * loB <= a * b by {
      MulMonotone(loA, a, loB);
      MulMonotone(loB, b, a);
    }
    assert a * b <= hiA * b <= hiA * hiB by {
      MulMonotone(a, hiA, b);
      MulMonotone(b, hiB, hiA);
    }
  }

  lemma MulMonotone(x: int, y: int, k: int)
    requires x <= y && 0 <= k
    ensures x * k <= y * k && k * x <= k * y
  {
    assert y * k - x * k == (y - x) * k;
  }

  lemma BucketYearsAt(bucket: nat)
    requires bucket < |DurationOptions|
    ensures DurationYears(DurationOptions[bucket]) == BucketYears(bucket)
    ensures BucketYears(bucket) in {5, 10, 20, 35}
  {
  }

  /**
   * Answers given through the wizard's buttons (1-5 per day, $6-9 per unit,
   * one of the four buckets) give exactly the integer arithmetic of the
   * chosen values.
   */
  lemma ButtonAnswersStats(d: FormData, daily: nat, cost: nat, bucket: nat)
    requires 1 <= daily <= 5 && 6 <= cost <= 9 && bucket < |DurationOptions|
    requires d.weeklyUsage == NatToString(daily)
    requires d.monthlySpending == NatToString(cost)
    requires d.duration == DurationOptions[bucket]
    ensures HabitStats(d) == Stats(daily * 365, daily * cost * 365,
                                   daily * cost * 365 * BucketYears(bucket), LabelFor(d.productType))
    ensures 6 * 365 <= HabitStats(d).yearlySpending <= 45 * 365
  {
    ParseNatToString(daily);
    ParseNatToString(cost);
    BucketYearsAt(bucket);
    MulBounds(daily, cost, 1, 5, 6, 9);
  }

  /** Two packs a day at $8 for "5 to 10" years. */
  lemma TwoPacksAtEightForFiveToTenYears(d: FormData)
    requires d.weeklyUsage == "2" && d.monthlySpending == "8" && d.duration == "5_to_10"
    ensures HabitStats(d).yearlySpending == 5840
    ensures HabitStats(d).yearlyUsage == 730
    ensures HabitStats(d).totalSpent == 58400
  {
    assert NatToString(2) == "2" && NatToString(8) == "8";
    ButtonAnswersStats(d, 2, 8, 1);
  }

  /** A daily usage that does not parse gives the same statistics as "0". */
  lemma UnparseableUsageIsZero(d: FormData, s: string)
    requires ParseNumber(s).None?
    ensures HabitStats(d.(weeklyUsage := s)) == HabitStats(d.(weeklyUsage := "0"))
    ensures HabitStats(d.(weeklyUsage := s)).yearlyUsage == 0
    ensures HabitStats(d.(weeklyUsage := s)).totalSpent == 0
  {
    var ds, d0 := d.(weeklyUsage := s), d.(weeklyUsage := "0");
    ZeroParses();
    assert DailyUsage(ds) == 0 && DailyUsage(d0) == 0;
    assert CostPerUnit(ds) == CostPerUnit(d0);
    assert YearlySpending(ds) == 0 && YearlySpending(d0) == 0;
  }

  /** A unit cost that does not parse gives the same statistics as "0". */
  lemma UnparseableCostIsZero(d: FormData, s: string)
    requires ParseNumber(s).None?
    ensures HabitStats(d.(monthlySpending := s)) == HabitStats(d.(monthlySpending := "0"))
    ensures HabitStats(d.(monthlySpending := s)).yearlySpending == 0
  {
    var ds, d0 := d.(monthlySpending := s), d.(monthlySpending := "0");
    ZeroParses();
    assert CostPerUnit(ds) == 0 && CostPerUnit(d0) == 0;
    assert DailyUsage(ds) == DailyUsage(d0);
    assert YearlySpending(ds) == 0 && YearlySpending(d0) == 0;
  }

  lemma ZeroParses()
    ensures ParseOrZero("0") == 0
  {
    assert NatToString(0) == "0";
    ParseNatToString(0);
  }

  /** No figure is negative when the parsed answers are not. */
  lemma StatsNonNegative(d: FormData)
    requires ParseOrZero(d.weeklyUsage) >= 0 && ParseOrZero(d.monthlySpending) >= 0
    requires DurationYears(d.duration) >= 0
    ensures HabitStats(d).yearlyUsage >= 0 && HabitStats(d).yearlySpending >= 0 && HabitStats(d).totalSpent >= 0
  {
    var daily, cost := DailyUsage(d), CostPerUnit(d);
    MulMonotone(0, daily, cost);
    MulMonotone(0, daily * cost, 365);
    MulMonotone(0, YearlySpending(d), DurationYears(d.duration));
    MulMonotone(0, daily, 365);
  }

  /** Lifetime spending grows with the duration bucket chosen at step 4. */
  lemma TotalGrowsWithDuration(d: FormData, i: nat, j: nat)
    requires i <= j < |DurationOptions|
    requires ParseOrZero(d.weeklyUsage) >= 0 && ParseOrZero(d.monthlySpending) >= 0
    ensures HabitStats(d.(duration := DurationOptions[i])).totalSpent
            <= HabitStats(d.(duration := DurationOptions[j])).totalSpent
  {
    var y := YearlySpending(d);
    YearlyNonNegative(d);
    TotalAtBucket(d, i);
    TotalAtBucket(d, j);
    BucketYearsMonotone(i, j);
    MulMonotone(BucketYears(i), BucketYears(j), y);
  }

  lemma BucketYearsMonotone(i: nat, j: nat)
    requires i <= j < |DurationOptions|
    ensures BucketYears(i) <= BucketYears(j)
  {
    if i < j {
      assert i == 0 || i == 1 || i == 2;
      assert j == 1 || j == 2 || j == 3;
    }
  }

  lemma YearlyNonNegative(d: FormData)
    requires DailyUsage(d) >= 0 && CostPerUnit(d) >= 0
    ensures YearlySpending(d) >= 0
  {
    MulMonotone(0, DailyUsage(d), CostPerUnit(d));
    MulMonotone(0, DailyUsage(d) * CostPerUnit(d), 365);
  }

  lemma TotalAtBucket(d: FormData, i: nat)
    requires i < |DurationOptions|
    ensures HabitStats(d.(duration := DurationOptions[i])).totalSpent == YearlySpending(d) * BucketYears(i)
  {
    var di := d.(duration := DurationOptions[i]);
    assert DailyUsage(di) == DailyUsage(d) && CostPerUnit(di) == CostPerUnit(d);
    assert YearlySpending(di) == YearlySpending(d);
    BucketYearsAt(i);
  }

  /** The figures agree with each other: yearly spending is yearly usage times the unit cost, and the total is yearly spending times the years. */
  lemma StatsConsistent(d: FormData)
    ensures HabitStats(d).yearlySpending == HabitStats(d).yearlyUsage * CostPerUnit(d)
    ensures HabitStats(d).totalSpent == HabitStats(d).yearlySpending * DurationYears(d.duration)
    ensures HabitStats(d).productLabel == LabelFor(d.productType)
  {
    var daily, cost := DailyUsage(d), CostPerUnit(d);
    calc {
      YearlySpending(d);
      daily * cost * 365;
      { MulSwap(daily, cost, 365); }
      daily * 365 * cost;
    }
  }

  /** Arithmetic aid: the last two factors of a product trade places. */
  lemma MulSwap(a: int, b: int, c: int)
    ensures a * b * c == a * c * b
  {
  }
}
