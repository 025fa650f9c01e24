/** The analytics panel: head counts by gender, health and breeding status, the health-cost
    total, the count of recent health records, the mean weight and the guarded bar widths. */
module Analytics {
  import opened Wrappers
  import opened Dates
  import opened Seqs
  import opened FarmTypes

  /** Healthy, or no health status at all. */
  predicate IsHealthy(g: Goat) {
    g.healthStatus == Some(Healthy) || g.healthStatus.None?
  }

  predicate IsSick(g: Goat) {
    g.healthStatus == Some(Sick)
  }

  predicate IsUnderTreatment(g: Goat) {
    g.healthStatus == Some(UnderTreatment)
  }

  /** Counted by none of the health bars. */
  predicate IsQuarantined(g: Goat) {
    g.healthStatus == Some(Quarantine)
  }

  predicate IsPregnant(g: Goat) {
    g.breedingStatus == Some(Pregnant)
  }

  predicate IsNursing(g: Goat) {
    g.breedingStatus == Some(Nursing)
  }

  /** Available, or no breeding status at all. */
  predicate IsAvailable(g: Goat) {
    g.breedingStatus == Some(Available) || g.breedingStatus.None?
  }

  /** Counted by none of the breeding figures. */
  predicate IsRetired(g: Goat) {
    g.breedingStatus == Some(Retired)
  }

  /** The two gender counts make up the herd. */
  lemma GenderCountsCoverHerd(goats: seq<Goat>)
    ensures Count(goats, IsMale) + Count(goats, IsFemale) == |goats|
  {
    CountTwo(goats, IsMale, IsFemale);
  }

  /** Healthy, sick and under-treatment goats never outnumber the herd; the quarantined goats
      make up the difference. */
  lemma HealthCountsWithinHerd(goats: seq<Goat>)
    ensures Count(goats, IsHealthy) + Count(goats, IsSick) + Count(goats, IsUnderTreatment) <= |goats|
    ensures Count(goats, IsHealthy) + Count(goats, IsSick) + Count(goats, IsUnderTreatment)
            + Count(goats, IsQuarantined) == |goats|
  {
    forall g: Goat ensures IsHealthy(g) || IsSick(g) || IsUnderTreatment(g) || IsQuarantined(g) {
      match g.healthStatus
      case None =>
      case Some(h) => assert h.Healthy? || h.Sick? || h.UnderTreatment? || h.Quarantine?;
    }
    CountFour(goats, IsHealthy, IsSick, IsUnderTreatment, IsQuarantined);
  }

  /** Pregnant, nursing and available goats never outnumber the herd; the retired goats make
      up the difference. */
  lemma BreedingCountsWithinHerd(goats: seq<Goat>)
    ensures Count(goats, IsPregnant) + Count(goats, IsNursing) + Count(goats, IsAvailable) <= |goats|
    ensures Count(goats, IsPregnant) + Count(goats, IsNursing) + Count(goats, IsAvailable)
            + Count(goats, IsRetired) == |goats|
  {
    forall g: Goat ensures IsPregnant(g) || IsNursing(g) || IsAvailable(g) || IsRetired(g) {
      match g.breedingStatus
      case None =>
      case Some(b) => assert b.Available? || b.Pregnant? || b.Nursing? || b.Retired?;
    }
    CountFour(goats, IsPregnant, IsNursing, IsAvailable, IsRetired);
  }

  /** `record.cost || 0`. */
  function CostOf(r: HealthRecord): real {
    r.cost.GetOr(0.0)
  }

  /** `totalHealthCosts`: the `reduce` from the left, starting at 0. */
  function CostSum(records: seq<HealthRecord>): real {
    if records == [] then 0.0 else CostSum(records[..|records| - 1]) + CostOf(records[|records| - 1])
  }

  /** Splitting the records splits the total; in particular, appending a record adds exactly
      its cost. */
  lemma {:induction false} CostSumAppend(a: seq<HealthRecord>, b: seq<HealthRecord>)
    ensures CostSum(a + b) == CostSum(a) + CostSum(b)
    decreases |b|
  {
    if b == [] {
      assert a + b == a;
    } else {
      var init := b[..|b| - 1];
      assert (a + b)[..|a + b| - 1] == a + init;
      assert (a + b)[|a + b| - 1] == b[|b| - 1];
      CostSumAppend(a, init);
      assert CostSum(a + b) == CostSum(a + init) + CostOf(b[|b| - 1]);
    }
  }

  /** Records without a cost contribute nothing to the total. */
  lemma {:induction false} CostSumIgnoresUncosted(records: seq<HealthRecord>)
    requires forall r :: r in records ==> r.cost.None?
    ensures CostSum(records) == 0.0
  {
    if records != [] {
      CostSumIgnoresUncosted(records[..|records| - 1]);
    }
  }

  /** A record dated strictly after thirty days before `now`. */
  function IsRecentAt(now: Time): HealthRecord -> bool {
    (r: HealthRecord) => r.date > now - 30 * MsPerDay
  }

  /** `recentRecords`. */
  function RecentCount(records: seq<HealthRecord>, now: Time): nat {
    Count(records, IsRecentAt(now))
  }

  /** Appending a record raises the recent count by one exactly when it lies inside the
      thirty-day window. */
  lemma RecentCountAppend(records: seq<HealthRecord>, r: HealthRecord, now: Time)
    ensures RecentCount(records + [r], now)
            == RecentCount(records, now) + (if now - r.date < 30 * MsPerDay then 1 else 0)
  {
    CountAppend(records, [r], IsRecentAt(now));
    assert Filter([r], IsRecentAt(now)) == if IsRecentAt(now)(r) then [r] else [];
  }

  /** The window only shrinks as time moves on: a record recent at `later` was recent at
      `now`, so the count never grows. */
  lemma {:induction false} RecentCountMonotone(records: seq<HealthRecord>, now: Time, later: Time)
    requires now <= later
    ensures RecentCount(records, later) <= RecentCount(records, now)
  {
    if records != [] {
      RecentCountMonotone(records[1..], now, later);
      assert records == [records[0]] + records[1..];
      CountAppend([records[0]], records[1..], IsRecentAt(now));
      CountAppend([records[0]], records[1..], IsRecentAt(later));
    }
  }

  /** A goat whose weight is truthy: present and not zero. */
  predicate IsWeighed(g: Goat) {
    g.weight.Some? && g.weight.value != 0.0
  }

  function WeightOf(g: Goat): real {
    g.weight.GetOr(0.0)
  }

  /** The sum of the weights, from the left. */
  function WeightSum(goats: seq<Goat>): real {
    if goats == [] then 0.0 else WeightSum(goats[..|goats| - 1]) + WeightOf(goats[|goats| - 1])
  }

  /** `avgWeight`: the mean over the weighed goats, 0 when there are none (`NaN || 0`). */
  function AvgWeight(goats: seq<Goat>): (r: real)
    ensures Count(goats, IsWeighed) == 0 ==> r == 0.0
  {
    var weighed := Filter(goats, IsWeighed);
    if |weighed| == 0 then 0.0 else WeightSum(weighed) / (|weighed| as real)
  }

  /** The weights of goats all within [lo, hi] sum to between n·lo and n·hi. */
  lemma {:induction false} WeightSumBounds(goats: seq<Goat>, lo: real, hi: real)
    requires forall i :: 0 <= i < |goats| ==> lo <= WeightOf(goats[i]) <= hi
    ensures (|goats| as real) * lo <= WeightSum(goats) <= (|goats| as real) * hi
  {
    if goats != [] {
      var init := goats[..|goats| - 1];
      var n := |init| as real;
      WeightSumBounds(init, lo, hi);
      assert lo <= WeightOf(goats[|goats| - 1]) <= hi;
      assert |goats| as real == n + 1.0;
      SuccMul(n, lo);
      SuccMul(n, hi);
    }
  }

  lemma SuccMul(n: real, x: real)
    ensures (n + 1.0) * x == n * x + x
  {
  }

  /** A total between n·lo and n·hi, shared out n ways, gives between lo and hi each. */
  lemma MeanBetween(sum: real, n: real, lo: real, hi: real)
    requires n > 0.0 && n * lo <= sum <= n * hi
    ensures lo <= sum / n <= hi
  {
    var m := sum / n;
    assert m * n == sum;
    if m < lo {
      MulStrict(m, lo, n);
    }
    if m > hi {
      MulStrict(hi, m, n);
    }
  }

  lemma MulStrict(x: real, y: real, n: real)
    requires x < y && n > 0.0
    ensures x * n < y * n
  {
  }

  /** The mean of weights all within [lo, hi] is within [lo, hi]. */
  lemma WeightMeanBounds(goats: seq<Goat>, lo: real, hi: real)
    requires |goats| > 0
    requires forall i :: 0 <= i < |goats| ==> lo <= WeightOf(goats[i]) <= hi
    ensures lo <= WeightSum(goats) / (|goats| as real) <= hi
  {
    WeightSumBounds(goats, lo, hi);
    MeanBetween(WeightSum(goats), |goats| as real, lo, hi);
  }

  lemma WeighedWithin(goats: seq<Goat>, lo: real, hi: real)
    requires forall g :: g in goats && IsWeighed(g) ==> lo <= WeightOf(g) <= hi
    ensures forall i :: 0 <= i < |Filter(goats, IsWeighed)| ==> lo <= WeightOf(Filter(goats, IsWeighed)[i]) <= hi
  {
    var weighed := Filter(goats, IsWeighed);
    forall i | 0 <= i < |weighed| ensures lo <= WeightOf(weighed[i]) <= hi {
      assert weighed[i] in weighed;
    }
  }

  /** The mean lies between the lightest and the heaviest weighed goat. */
  lemma AvgWeightBetween(goats: seq<Goat>, lo: real, hi: real)
    requires Count(goats, IsWeighed) > 0
    requires forall g :: g in goats && IsWeighed(g) ==> lo <= WeightOf(g) <= hi
    ensures lo <= AvgWeight(goats) <= hi
  {
    var weighed := Filter(goats, IsWeighed);
    WeighedWithin(goats, lo, hi);
    WeightMeanBounds(weighed, lo, hi);
    assert AvgWeight(goats) == WeightSum(weighed) / (|weighed| as real);
  }

  /** The weight card: the mean to one decimal when positive, otherwise "N/A". */
  datatype WeightDisplay = Lbs(value: real) | NotAvailable

  function ShowWeight(avg: real): (d: WeightDisplay)
    ensures d.NotAvailable? <==> avg <= 0.0
    ensures d.Lbs? ==> d.value == avg
  {
    if avg > 0.0 then Lbs(avg) else NotAvailable
  }

  /** Two goats of 50 and 70 lb and one without a weight average to 60, over two weighed goats. */
  lemma AvgWeightExample(a: Goat, b: Goat, c: Goat)
    requires a.weight == Some(50.0) && b.weight == Some(70.0) && c.weight.None?
    ensures Count([a, b, c], IsWeighed) == 2
    ensures AvgWeight([a, b, c]) == 60.0
    ensures ShowWeight(AvgWeight([a, b, c])) == Lbs(60.0)
  {
    ExampleWeighed(a, b, c);
    ExampleSum(a, b);
  }

  lemma ExampleWeighed(a: Goat, b: Goat, c: Goat)
    requires IsWeighed(a) && IsWeighed(b) && !IsWeighed(c)
    ensures Filter([a, b, c], IsWeighed) == [a, b]
  {
    assert [a, b, c][1..] == [b, c] && [b, c][1..] == [c] && [c][1..] == [];
    assert Filter([c], IsWeighed) == [];
    assert Filter([b, c], IsWeighed) == [b];
  }

  lemma ExampleSum(a: Goat, b: Goat)
    requires a.weight == Some(50.0) && b.weight == Some(70.0)
    ensures WeightSum([a, b]) == 120.0
  {
    assert [a, b][..1] == [a] && [a][..0] == [];
    assert WeightSum([a]) == 50.0;
  }

  /** A bar's width in percent: the count's share of the herd, 0 for an empty herd. */
  function BarWidth(count: nat, total: nat): (w: real)
    ensures total == 0 ==> w == 0.0
    ensures total > 0 ==> w * (total as real) == (count as real) * 100.0
  {
    if total > 0 then (count as real) / (total as real) * 100.0 else 0.0
  }

  /** A count within the herd gives a width between 0 and 100. */
  lemma BarWidthInRange(count: nat, total: nat)
    requires count <= total
    ensures 0.0 <= BarWidth(count, total) <= 100.0
  {
    if total > 0 {
      var t := total as real;
      MeanBetween((count as real) * 100.0, t, 0.0, 100.0);
      DivScale(count as real, t);
    }
  }

  lemma DivScale(c: real, t: real)
    requires t > 0.0
    ensures c / t * 100.0 == c * 100.0 / t
  {
    var q := c / t;
    assert q * t == c;
    assert (q * 100.0) * t == c * 100.0;
  }

  /** Every figure the panel shows. */
  datatype Snapshot = Snapshot(
    totalGoats: nat,
    maleCount: nat,
    femaleCount: nat,
    healthyCount: nat,
    sickCount: nat,
    treatmentCount: nat,
    pregnantCount: nat,
    nursingCount: nat,
    availableForBreeding: nat,
    totalHealthCosts: real,
    recentRecords: nat,
    avgWeight: real)

  /** The figures computed at the top of the panel. */
  function ComputeAnalytics(goats: seq<Goat>, healthRecords: seq<HealthRecord>, now: Time): (s: Snapshot)
    ensures s.totalGoats == |goats|
    ensures s.maleCount + s.femaleCount == s.totalGoats
    ensures s.healthyCount + s.sickCount + s.treatmentCount <= s.totalGoats
    ensures s.pregnantCount + s.nursingCount + s.availableForBreeding <= s.totalGoats
    ensures s.recentRecords <= |healthRecords|
    ensures s.avgWeight == AvgWeight(goats)
  {
    GenderCountsCoverHerd(goats);
    HealthCountsWithinHerd(goats);
    BreedingCountsWithinHerd(goats);
    Snapshot(
      |goats|,
      Count(goats, IsMale),
      Count(goats, IsFemale),
      Count(goats, IsHealthy),
      Count(goats, IsSick),
      Count(goats, IsUnderTreatment),
      Count(goats, IsPregnant),
      Count(goats, IsNursing),
      Count(goats, IsAvailable),
      CostSum(healthRecords),
      RecentCount(healthRecords, now),
      AvgWeight(goats))
  }

  /** Every bar the panel draws (male, female, healthy, sick, under treatment) is between 0 and
      100 percent wide. */
  lemma BarsInRange(goats: seq<Goat>, healthRecords: seq<HealthRecord>, now: Time)
    ensures var s := ComputeAnalytics(goats, healthRecords, now);
            && 0.0 <= BarWidth(s.maleCount, s.totalGoats) <= 100.0
            && 0.0 <= BarWidth(s.femaleCount, s.totalGoats) <= 100.0
            && 0.0 <= BarWidth(s.healthyCount, s.totalGoats) <= 100.0
            && 0.0 <= BarWidth(s.sickCount, s.totalGoats) <= 100.0
            && 0.0 <= BarWidth(s.treatmentCount, s.totalGoats) <= 100.0
  {
    var s := ComputeAnalytics(goats, healthRecords, now);
    BarWidthInRange(s.maleCount, s.totalGoats);
    BarWidthInRange(s.femaleCount, s.totalGoats);
    BarWidthInRange(s.healthyCount, s.totalGoats);
    BarWidthInRange(s.sickCount, s.totalGoats);
    BarWidthInRange(s.treatmentCount, s.totalGoats);
  }
}
