/** The disease-surveillance data service (services/surveillanceDataService.ts): threshold
    classification of a district's case counts, generation of per-district region data and
    of outbreak alerts, the overall statistics and the weekly trend series.

    Every `Math.random` draw is a parameter constrained to the range the source draws it
    from. Case counts are kept in TENTHS of a case: `getRandomInt(min, max)` adds an integer
    to `min` without flooring it, so `currentCases = getRandomInt(0.7 * b, 1.5 * b)` is
    `0.7 * b + k` and is fractional whenever `b` is not a multiple of 10. Temperatures,
    drawn with one decimal, are kept in tenths of a degree. */
module Surveillance {
  import opened Types
  import opened Strings

  const Districts: seq<string> :=
    ["Jaipur", "Kochi", "Patna", "Pune", "Hyderabad", "Lucknow", "Bhopal", "Chennai", "Guwahati", "Agra"]

  datatype FeverType = Dengue | Malaria | Typhoid | Flu | Chikungunya | OtherViral

  function FeverTypeName(f: FeverType): string
  {
    match f
    case Dengue => "Dengue"
    case Malaria => "Malaria"
    case Typhoid => "Typhoid"
    case Flu => "Flu"
    case Chikungunya => "Chikungunya"
    case OtherViral => "Other Viral"
  }

  datatype Severity = Low | Moderate | High | Critical

  /** Position of a severity in the order Low < Moderate < High < Critical. */
  function Rank(s: Severity): nat
  {
    match s
    case Low => 0
    case Moderate => 1
    case High => 2
    case Critical => 3
  }

  datatype Trend = Increasing | Decreasing | Stable

  // ---------------------------------------------------------------------------------------
  // Threshold classification (current cases in tenths, baseline in whole cases)
  // ---------------------------------------------------------------------------------------

  /** `increasing` above 1.2 x baseline, `decreasing` below 0.8 x baseline, else `stable`. */
  function TrendOf(currentTenths: int, baselineCases: int): Trend
  {
    if currentTenths > 12 * baselineCases then Increasing
    else if currentTenths < 8 * baselineCases then Decreasing
    else Stable
  }

  /** Critical above 1.4 x baseline, High above 1.1 x, Moderate above 0.9 x, else Low. */
  function AlertLevelOf(currentTenths: int, baselineCases: int): Severity
  {
    if currentTenths > 14 * baselineCases then Critical
    else if currentTenths > 11 * baselineCases then High
    else if currentTenths > 9 * baselineCases then Moderate
    else Low
  }

  /** For a non-negative baseline each trend holds exactly on its own band of counts. */
  lemma TrendBands(currentTenths: int, baselineCases: int)
    requires 0 <= baselineCases
    ensures TrendOf(currentTenths, baselineCases) == Increasing <==> currentTenths > 12 * baselineCases
    ensures TrendOf(currentTenths, baselineCases) == Decreasing <==> currentTenths < 8 * baselineCases
    ensures TrendOf(currentTenths, baselineCases) == Stable
            <==> 8 * baselineCases <= currentTenths <= 12 * baselineCases
  {
  }

  /** For a fixed baseline the alert level never drops as the current count grows. */
  lemma AlertLevelMonotone(c1: int, c2: int, baselineCases: int)
    requires c1 <= c2
    ensures Rank(AlertLevelOf(c1, baselineCases)) <= Rank(AlertLevelOf(c2, baselineCases))
  {
  }

  /** The two rules agree: a rising count is at least High, a falling one is Low. */
  lemma TrendAgreesWithAlertLevel(currentTenths: int, baselineCases: int)
    requires 0 <= baselineCases
    ensures TrendOf(currentTenths, baselineCases) == Increasing
            ==> AlertLevelOf(currentTenths, baselineCases) in {High, Critical}
    ensures TrendOf(currentTenths, baselineCases) == Decreasing
            ==> AlertLevelOf(currentTenths, baselineCases) == Low
  {
  }

  // ---------------------------------------------------------------------------------------
  // Region data
  // ---------------------------------------------------------------------------------------

  datatype Climate = Climate(temperatureTenths: int, humidityPercent: int, rainfallMm: int)

  datatype Region = Region(
    id: string,
    name: string,
    currentTenths: int,
    baselineCases: int,
    trend: Trend,
    alertLevel: Severity,
    climate: Climate)

  /** The random draws made for one district: the baseline, the integer added to
      0.7 x baseline, the temperature (tenths of a degree), humidity and rainfall. */
  datatype RegionDraw = RegionDraw(baseline: int, offset: int, temperatureTenths: int, humidity: int, rainfall: int)

  /** The ranges `getRandomInt` / `getRandomFloat` draw from: baseline in [30, 100];
      the offset is `floor(r * (0.8 b + 1))` for r in [0, 1); temperature in [25.0, 35.0];
      humidity in [60, 95]; rainfall in [20, 300]. */
  predicate ValidRegionDraw(d: RegionDraw)
  {
    && 30 <= d.baseline <= 100
    && 0 <= d.offset && 10 * d.offset < 8 * d.baseline + 10
    && 250 <= d.temperatureTenths <= 350
    && 60 <= d.humidity <= 95
    && 20 <= d.rainfall <= 300
  }

  function RegionId(index: nat): string
  {
    "region-" + NatToString(index + 1)
  }

  /** What the region built for district `index` from draw `d` holds. */
  predicate RegionBuiltFrom(index: nat, d: RegionDraw, r: Region)
    requires index < |Districts|
  {
    && r.id == RegionId(index)
    && r.name == Districts[index] + " District"
    && r.baselineCases == d.baseline
    && r.currentTenths == 7 * d.baseline + 10 * d.offset
    && r.trend == TrendOf(r.currentTenths, r.baselineCases)
    && r.alertLevel == AlertLevelOf(r.currentTenths, r.baselineCases)
    && r.climate == Climate(d.temperatureTenths, d.humidity, d.rainfall)
  }

  /** The region built for district `index` from draw `d`. */
  function BuildRegion(index: nat, d: RegionDraw): (r: Region)
    requires index < |Districts|
    ensures RegionBuiltFrom(index, d, r)
  {
    var currentTenths := 7 * d.baseline + 10 * d.offset;
    Region(
      RegionId(index),
      Districts[index] + " District",
      currentTenths,
      d.baseline,
      TrendOf(currentTenths, d.baseline),
      AlertLevelOf(currentTenths, d.baseline),
      Climate(d.temperatureTenths, d.humidity, d.rainfall))
  }

  /** The first `n` regions are the ones built from the first `n` draws. */
  predicate RegionsBuiltFrom(draws: seq<RegionDraw>, regions: seq<Region>, n: nat)
    requires n <= |draws| && n <= |regions| && n <= |Districts|
  {
    forall i :: 0 <= i < n ==> RegionBuiltFrom(i, draws[i], regions[i])
  }

  /** Appending the region for the next district extends what `RegionsBuiltFrom` covers. */
  lemma RegionsBuiltFromExtends(draws: seq<RegionDraw>, regions: seq<Region>, region: Region)
    requires |regions| < |draws| && |regions| < |Districts|
    requires RegionsBuiltFrom(draws, regions, |regions|)
    requires RegionBuiltFrom(|regions|, draws[|regions|], region)
    ensures RegionsBuiltFrom(draws, regions + [region], |regions| + 1)
  {
    var r := regions + [region];
    assert forall k :: 0 <= k < |regions| ==> r[k] == regions[k];
  }

  /** Regions built from valid draws have distinct ids and counts within
      [0.7, 1.5 + 1/b) x baseline. */
  lemma BuiltRegionsProperties(draws: seq<RegionDraw>, regions: seq<Region>)
    requires |draws| == |regions| == |Districts|
    requires forall i :: 0 <= i < |draws| ==> ValidRegionDraw(draws[i])
    requires RegionsBuiltFrom(draws, regions, |regions|)
    ensures forall i :: 0 <= i < |regions| ==>
              7 * regions[i].baselineCases <= regions[i].currentTenths < 15 * regions[i].baselineCases + 10
    ensures forall i, j :: 0 <= i < j < |regions| ==> regions[i].id != regions[j].id
  {
    forall i | 0 <= i < |regions|
      ensures 7 * regions[i].baselineCases <= regions[i].currentTenths < 15 * regions[i].baselineCases + 10
    {
      assert RegionBuiltFrom(i, draws[i], regions[i]) && ValidRegionDraw(draws[i]);
    }
    forall i, j | 0 <= i < j < |regions|
      ensures regions[i].id != regions[j].id
    {
      assert RegionBuiltFrom(i, draws[i], regions[i]) && RegionBuiltFrom(j, draws[j], regions[j]);
      PrefixedNumbersDistinct("region-", i + 1, j + 1);
    }
  }

  /** `generateDynamicRegionData`: one region per district, in district order, with
      distinct ids, a current count within [0.7, 1.5 + 1/b) x baseline and both labels
      given by the threshold rules. */
  method GenerateDynamicRegionData(draws: seq<RegionDraw>) returns (regions: seq<Region>)
    requires |draws| == |Districts|
    requires forall i :: 0 <= i < |draws| ==> ValidRegionDraw(draws[i])
    ensures |regions| == |Districts|
    ensures forall i :: 0 <= i < |regions| ==> RegionBuiltFrom(i, draws[i], regions[i])
    ensures forall i :: 0 <= i < |regions| ==>
              7 * regions[i].baselineCases <= regions[i].currentTenths < 15 * regions[i].baselineCases + 10
    ensures forall i, j :: 0 <= i < j < |regions| ==> regions[i].id != regions[j].id
  {
    regions := [];
    var index := 0;
    while index < |Districts|
      invariant 0 <= index <= |Districts|
      invariant |regions| == index
      invariant RegionsBuiltFrom(draws, regions, index)
    {
      var region := BuildRegion(index, draws[index]);
      RegionsBuiltFromExtends(draws, regions, region);
      regions := regions + [region];
      index := index + 1;
    }
    BuiltRegionsProperties(draws, regions);
  }

  // ---------------------------------------------------------------------------------------
  // Outbreak alerts
  // ---------------------------------------------------------------------------------------

  datatype Alert = Alert(
    id: string,
    district: string,
    feverType: FeverType,
    severity: Severity,
    detectionDay: int,
    trigger: string,
    recommendedAction: string)

  /** The random draws made for one alert: severity, fever type, district index, days to
      move the date back, the spike percentage (drawn only for Critical and High) and the
      `Date.now()` reading used in its id. */
  datatype AlertDraw = AlertDraw(
    severity: Severity,
    feverType: FeverType,
    district: nat,
    daysBack: nat,
    spikePercent: nat,
    clockMs: nat)

  predicate ValidAlertDraw(d: AlertDraw)
  {
    && d.district < |Districts|
    && d.daysBack <= 7
    && (d.severity == Critical ==> 40 <= d.spikePercent <= 70)
    && (d.severity == High ==> 20 <= d.spikePercent <= 35)
  }

  const CriticalTriggerTail: string := " cases above seasonal baseline; unusual climate patterns."
  const HighTriggerTail: string := " cases; sustained high mosquito breeding index."
  const ModerateTriggerTail: string := " cases identified; recent travel history correlation."
  const LowTriggerTail: string := " cases; potential localized environmental factor."

  /** The alert's trigger text; Critical and High quote the drawn spike percentage. */
  function Trigger(severity: Severity, feverType: FeverType, spikePercent: nat): string
  {
    match severity
    case Critical => NatToString(spikePercent) + "% spike in " + FeverTypeName(feverType) + CriticalTriggerTail
    case High => NatToString(spikePercent) + "% spike in " + FeverTypeName(feverType) + HighTriggerTail
    case Moderate => "Localized cluster of " + FeverTypeName(feverType) + ModerateTriggerTail
    case Low => "Minor increase in reported " + FeverTypeName(feverType) + LowTriggerTail
  }

  const CriticalAction: string :=
    "Deploy rapid response teams; immediate mass screening and treatment; activate emergency protocols."
  const HighAction: string :=
    "Intensify fogging/larvicide operations; launch public awareness campaign on vector control."
  const ModerateAction: string :=
    "Conduct focused rapid diagnostic tests; distribute prophylactic medication where appropriate."
  const LowAction: string :=
    "Monitor trends closely; inspect water sources; advise on safe hygiene practices."

  function RecommendedAction(severity: Severity): string
  {
    match severity
    case Critical => CriticalAction
    case High => HighAction
    case Moderate => ModerateAction
    case Low => LowAction
  }

  /** The recommended action is a function of the severity alone, and tells severities apart. */
  lemma RecommendedActionIdentifiesSeverity(a: Severity, b: Severity)
    ensures RecommendedAction(a) == RecommendedAction(b) <==> a == b
  {
    assert |CriticalAction| == 98 && |HighAction| == 91 && |ModerateAction| == 93 && |LowAction| == 80;
  }

  /** What the alert built at position `index` from draw `d` holds, apart from its date. */
  predicate AlertBuiltFrom(index: nat, d: AlertDraw, a: Alert)
  {
    && d.district < |Districts|
    && a.id == "alert-" + NatToString(d.clockMs + index)
    && a.district == Districts[d.district]
    && a.feverType == d.feverType
    && a.severity == d.severity
    && a.trigger == Trigger(d.severity, d.feverType, d.spikePercent)
    && a.recommendedAction == RecommendedAction(d.severity)
  }

  /** The alert built at position `index` from draw `d`, dated `day`. */
  function BuildAlert(index: nat, d: AlertDraw, day: int): (a: Alert)
    requires ValidAlertDraw(d)
    ensures AlertBuiltFrom(index, d, a) && a.detectionDay == day
  {
    Alert(
      "alert-" + NatToString(d.clockMs + index),
      Districts[d.district],
      d.feverType,
      d.severity,
      day,
      Trigger(d.severity, d.feverType, d.spikePercent),
      RecommendedAction(d.severity))
  }

  /** Total number of days the shared date has been moved back by the first `n` draws. */
  function DaysMovedBack(draws: seq<AlertDraw>, n: nat): nat
    requires n <= |draws|
  {
    if n == 0 then 0 else DaysMovedBack(draws, n - 1) + draws[n - 1].daysBack
  }

  /** The shared date only ever moves back, by at most a week per alert. */
  lemma DaysMovedBackGrows(draws: seq<AlertDraw>)
    requires forall i :: 0 <= i < |draws| ==> draws[i].daysBack <= 7
    ensures forall m, n :: 0 <= m <= n <= |draws| ==> DaysMovedBack(draws, m) <= DaysMovedBack(draws, n)
    ensures forall n :: 0 <= n <= |draws| ==> DaysMovedBack(draws, n) <= 7 * n
  {
    forall m, n | 0 <= m <= n <= |draws| ensures DaysMovedBack(draws, m) <= DaysMovedBack(draws, n) {
      DaysMovedBackMonotone(draws, m, n);
    }
    forall n | 0 <= n <= |draws| ensures DaysMovedBack(draws, n) <= 7 * n {
      DaysMovedBackAtMostAWeekEach(draws, n);
    }
  }

  lemma {:induction false} DaysMovedBackMonotone(draws: seq<AlertDraw>, m: nat, n: nat)
    requires m <= n <= |draws|
    ensures DaysMovedBack(draws, m) <= DaysMovedBack(draws, n)
    decreases n
  {
    if m < n {
      DaysMovedBackMonotone(draws, m, n - 1);
    }
  }

  lemma {:induction false} DaysMovedBackAtMostAWeekEach(draws: seq<AlertDraw>, n: nat)
    requires n <= |draws|
    requires forall i :: 0 <= i < |draws| ==> draws[i].daysBack <= 7
    ensures DaysMovedBack(draws, n) <= 7 * n
  {
    if n > 0 {
      DaysMovedBackAtMostAWeekEach(draws, n - 1);
    }
  }

  /** The first `n` alerts are the ones built from the first `n` draws. */
  predicate AlertsBuiltFrom(draws: seq<AlertDraw>, alerts: seq<Alert>, n: nat)
    requires n <= |draws| && n <= |alerts|
  {
    forall k :: 0 <= k < n ==> AlertBuiltFrom(k, draws[k], alerts[k])
  }

  /** Each of the first `n` alerts is dated by the shared date after its own move back. */
  predicate AlertsDated(draws: seq<AlertDraw>, alerts: seq<Alert>, today: int, n: nat)
    requires n <= |draws| && n <= |alerts|
  {
    forall k :: 0 <= k < n ==> alerts[k].detectionDay == today - DaysMovedBack(draws, k + 1)
  }

  /** `generateDynamicAlerts`: between two and six alerts, one per draw, whose action depends
      on the severity only. The source moves one shared `today` back in place for every
      alert, so detection dates never move forward along the list and the i-th is at most
      7 x (i + 1) days old. */
  method GenerateDynamicAlerts(draws: seq<AlertDraw>, today: int) returns (alerts: seq<Alert>)
    requires 2 <= |draws| <= 6
    requires forall i :: 0 <= i < |draws| ==> ValidAlertDraw(draws[i])
    ensures |alerts| == |draws|
    ensures forall i :: 0 <= i < |alerts| ==> AlertBuiltFrom(i, draws[i], alerts[i])
    ensures forall i :: 0 <= i < |alerts| ==> alerts[i].detectionDay == today - DaysMovedBack(draws, i + 1)
    ensures forall i, j :: 0 <= i < j < |alerts| ==> alerts[j].detectionDay <= alerts[i].detectionDay
    ensures forall i :: 0 <= i < |alerts| ==> today - 7 * (i + 1) <= alerts[i].detectionDay <= today
  {
    alerts := [];
    var day := today;
    var i := 0;
    while i < |draws|
      invariant 0 <= i <= |draws|
      invariant |alerts| == i
      invariant day == today - DaysMovedBack(draws, i)
      invariant AlertsBuiltFrom(draws, alerts, i)
      invariant AlertsDated(draws, alerts, today, i)
    {
      day := day - draws[i].daysBack;
      var alert := BuildAlert(i, draws[i], day);
      AlertsBuiltFromExtends(draws, alerts, alert);
      AlertsDatedExtends(draws, alerts, today, alert);
      alerts := alerts + [alert];
      i := i + 1;
    }
    assert AlertsBuiltFrom(draws, alerts, |draws|) && AlertsDated(draws, alerts, today, |draws|);
    DaysMovedBackGrows(draws);
  }

  /** Appending the alert for the next draw extends what `AlertsBuiltFrom` covers. */
  lemma AlertsBuiltFromExtends(draws: seq<AlertDraw>, alerts: seq<Alert>, alert: Alert)
    requires |alerts| < |draws|
    requires AlertsBuiltFrom(draws, alerts, |alerts|)
    requires AlertBuiltFrom(|alerts|, draws[|alerts|], alert)
    ensures AlertsBuiltFrom(draws, alerts + [alert], |alerts| + 1)
  {
  }

  /** Appending the alert for the next draw extends what `AlertsDated` covers. */
  lemma AlertsDatedExtends(draws: seq<AlertDraw>, alerts: seq<Alert>, today: int, alert: Alert)
    requires |alerts| < |draws|
    requires AlertsDated(draws, alerts, today, |alerts|)
    requires alert.detectionDay == today - DaysMovedBack(draws, |alerts| + 1)
    ensures AlertsDated(draws, alerts + [alert], today, |alerts| + 1)
  {
  }

  /** Alert ids are distinct as long as the clock did not run backwards while the list was
      built (`Date.now() + i` then strictly increases). */
  lemma AlertIdsDistinct(draws: seq<AlertDraw>, alerts: seq<Alert>)
    requires |alerts| == |draws|
    requires forall i :: 0 <= i < |alerts| ==> AlertBuiltFrom(i, draws[i], alerts[i])
    requires forall i, j :: 0 <= i < j < |draws| ==> draws[i].clockMs <= draws[j].clockMs
    ensures forall i, j :: 0 <= i < j < |alerts| ==> alerts[i].id != alerts[j].id
  {
    forall i, j | 0 <= i < j < |alerts| ensures alerts[i].id != alerts[j].id {
      PrefixedNumbersDistinct("alert-", draws[i].clockMs + i, draws[j].clockMs + j);
    }
  }

  // ---------------------------------------------------------------------------------------
  // Overall statistics
  // ---------------------------------------------------------------------------------------

  /** Averages are exact rationals here; the source rounds each to one decimal. */
  datatype OverallStats = OverallStats(
    totalActiveAlerts: nat,
    regionsUnderHighAlert: nat,
    averageCasesPerRegion: real,
    avgTemperatureC: real,
    avgHumidityPercent: real)

  predicate UnderHighAlert(r: Region)
  {
    r.alertLevel == High || r.alertLevel == Critical
  }

  /** `regions.filter(r => r.alertLevel === 'High' || r.alertLevel === 'Critical').length` */
  function CountUnderHighAlert(regions: seq<Region>): (n: nat)
    ensures n <= |regions|
    ensures n == 0 <==> forall i :: 0 <= i < |regions| ==> !UnderHighAlert(regions[i])
    ensures n == |regions| <==> forall i :: 0 <= i < |regions| ==> UnderHighAlert(regions[i])
  {
    if regions == [] then 0
    else
      var rest := CountUnderHighAlert(regions[..|regions| - 1]);
      assert forall i :: 0 <= i < |regions| - 1 ==> regions[..|regions| - 1][i] == regions[i];
      rest + (if UnderHighAlert(regions[|regions| - 1]) then 1 else 0)
  }

  function SumCasesTenths(regions: seq<Region>): int
  {
    if regions == [] then 0 else SumCasesTenths(regions[..|regions| - 1]) + regions[|regions| - 1].currentTenths
  }

  function SumTemperatureTenths(regions: seq<Region>): int
  {
    if regions == [] then 0
    else SumTemperatureTenths(regions[..|regions| - 1]) + regions[|regions| - 1].climate.temperatureTenths
  }

  function SumHumidity(regions: seq<Region>): int
  {
    if regions == [] then 0 else SumHumidity(regions[..|regions| - 1]) + regions[|regions| - 1].climate.humidityPercent
  }

  /** `n > 0 ? total / n : 0` */
  function Average(total: real, n: nat): real
  {
    if n > 0 then total / n as real else 0.0
  }

  /** `getSurveillanceOverallStats`. */
  function SurveillanceOverallStats(alerts: seq<Alert>, regions: seq<Region>): (s: OverallStats)
    ensures s.totalActiveAlerts == |alerts|
    ensures s.regionsUnderHighAlert == CountUnderHighAlert(regions) && s.regionsUnderHighAlert <= |regions|
    ensures |regions| > 0 ==>
              && s.averageCasesPerRegion * |regions| as real == SumCasesTenths(regions) as real / 10.0
              && s.avgTemperatureC * |regions| as real == SumTemperatureTenths(regions) as real / 10.0
              && s.avgHumidityPercent * |regions| as real == SumHumidity(regions) as real
    ensures |regions| == 0 ==>
              s.regionsUnderHighAlert == 0 && s.averageCasesPerRegion == 0.0
              && s.avgTemperatureC == 0.0 && s.avgHumidityPercent == 0.0
  {
    var n := |regions|;
    OverallStats(
      |alerts|,
      CountUnderHighAlert(regions),
      Average(SumCasesTenths(regions) as real / 10.0, n),
      Average(SumTemperatureTenths(regions) as real / 10.0, n),
      Average(SumHumidity(regions) as real, n))
  }

  /** The case total lies between n x the smallest and n x the largest count. */
  lemma {:induction false} SumCasesBounds(regions: seq<Region>, lo: int, hi: int)
    requires forall i :: 0 <= i < |regions| ==> lo <= regions[i].currentTenths <= hi
    ensures |regions| * lo <= SumCasesTenths(regions) <= |regions| * hi
  {
    if regions != [] {
      var init := regions[..|regions| - 1];
      assert forall i :: 0 <= i < |init| ==> init[i] == regions[i];
      SumCasesBounds(init, lo, hi);
    }
  }

  /** The average case count lies between the smallest and the largest regional count. */
  lemma AverageCasesWithinRange(alerts: seq<Alert>, regions: seq<Region>, lo: int, hi: int)
    requires 0 < |regions|
    requires forall i :: 0 <= i < |regions| ==> lo <= regions[i].currentTenths <= hi
    ensures lo as real / 10.0 <= SurveillanceOverallStats(alerts, regions).averageCasesPerRegion <= hi as real / 10.0
  {
    SumCasesBounds(regions, lo, hi);
    var n := |regions|;
    var total := SumCasesTenths(regions) as real / 10.0;
    assert (n * lo) as real / 10.0 <= total <= (n * hi) as real / 10.0;
    AverageBetween(total, n, lo as real / 10.0, hi as real / 10.0);
  }

  /** An average of `n` values lies between `a` and `b` when their total lies between `n a`
      and `n b`. */
  lemma AverageBetween(total: real, n: nat, a: real, b: real)
    requires n > 0
    requires n as real * a <= total <= n as real * b
    ensures a <= Average(total, n) <= b
  {
    var avg := total / n as real;
    assert avg * n as real == total;
    if avg < a {
      assert avg * n as real < a * n as real;
    }
    if avg > b {
      assert avg * n as real > b * n as real;
    }
  }

  // ---------------------------------------------------------------------------------------
  // Weekly trends
  // ---------------------------------------------------------------------------------------

  datatype TrendPoint = TrendPoint(week: string, cases: int)

  datatype WeeklyTrendData = WeeklyTrendData(
    overallFeverCases: seq<TrendPoint>,
    dengueCases: seq<TrendPoint>,
    malariaCases: seq<TrendPoint>)

  /** `Math.ceil((d.getDate() + 6 - d.getDay()) / 7)`: the week of the month. */
  function WeekNumber(dayOfMonth: nat, weekday: nat): (w: nat)
    requires 1 <= dayOfMonth <= 31 && weekday <= 6
    ensures 1 <= w <= 6
    ensures 7 * (w - 1) < dayOfMonth + 6 - weekday <= 7 * w
  {
    (dayOfMonth + 6 - weekday + 6) / 7
  }

  /** The eight labels, for the dates 49, 42, ..., 0 days before now. All eight dates are
      whole weeks apart, so they share one weekday; their days of the month are inputs. */
  function WeekLabels(daysOfMonth: seq<nat>, weekday: nat): (labels: seq<string>)
    requires |daysOfMonth| == 8 && weekday <= 6
    requires forall i :: 0 <= i < 8 ==> 1 <= daysOfMonth[i] <= 31
    ensures |labels| == 8
    ensures forall i :: 0 <= i < 8 ==> labels[i] == "Week " + NatToString(WeekNumber(daysOfMonth[i], weekday))
  {
    seq(8, i requires 0 <= i < 8 => "Week " + NatToString(WeekNumber(daysOfMonth[i], weekday)))
  }

  /** `generateTrend(base, fluctuation)` with its per-week draws in [-fluctuation, fluctuation]. */
  function GenerateTrend(labels: seq<string>, base: int, fluctuation: nat, draws: seq<int>): (points: seq<TrendPoint>)
    requires |draws| == |labels|
    requires forall i :: 0 <= i < |draws| ==> -(fluctuation as int) <= draws[i] <= fluctuation
    ensures |points| == |labels|
    ensures forall i :: 0 <= i < |points| ==> points[i].week == labels[i] && 0 <= points[i].cases
    ensures forall i :: 0 <= i < |points| ==>
              points[i].cases == (if base + draws[i] + 2 * i < 0 then 0 else base + draws[i] + 2 * i)
  {
    seq(|labels|, i requires 0 <= i < |labels| =>
      var c := base + draws[i] + 2 * i;
      TrendPoint(labels[i], if c < 0 then 0 else c))
  }

  predicate DrawsWithin(draws: seq<int>, fluctuation: nat)
  {
    |draws| == 8 && forall i :: 0 <= i < 8 ==> -(fluctuation as int) <= draws[i] <= fluctuation
  }

  /** `getWeeklyFeverTrendData`: three eight-point series over the same week labels. */
  function WeeklyFeverTrendData(
    daysOfMonth: seq<nat>, weekday: nat,
    overallDraws: seq<int>, dengueDraws: seq<int>, malariaDraws: seq<int>): (data: WeeklyTrendData)
    requires |daysOfMonth| == 8 && weekday <= 6
    requires forall i :: 0 <= i < 8 ==> 1 <= daysOfMonth[i] <= 31
    requires DrawsWithin(overallDraws, 50) && DrawsWithin(dengueDraws, 20) && DrawsWithin(malariaDraws, 15)
    ensures |data.overallFeverCases| == |data.dengueCases| == |data.malariaCases| == 8
    ensures forall i :: 0 <= i < 8 ==>
              data.overallFeverCases[i].week == data.dengueCases[i].week == data.malariaCases[i].week
    ensures forall i :: 0 <= i < 8 ==>
              0 <= data.overallFeverCases[i].cases && 0 <= data.dengueCases[i].cases && 0 <= data.malariaCases[i].cases
  {
    var labels := WeekLabels(daysOfMonth, weekday);
    WeeklyTrendData(
      GenerateTrend(labels, 150, 50, overallDraws),
      GenerateTrend(labels, 40, 20, dengueDraws),
      GenerateTrend(labels, 20, 15, malariaDraws))
  }

  /** Each base exceeds its fluctuation, so the clamp at zero never applies: every count is
      base + draw + 2 x week index, rising by two per week on top of the noise. */
  lemma ClampNeverApplies(
    daysOfMonth: seq<nat>, weekday: nat,
    overallDraws: seq<int>, dengueDraws: seq<int>, malariaDraws: seq<int>, i: nat)
    requires |daysOfMonth| == 8 && weekday <= 6
    requires forall k :: 0 <= k < 8 ==> 1 <= daysOfMonth[k] <= 31
    requires DrawsWithin(overallDraws, 50) && DrawsWithin(dengueDraws, 20) && DrawsWithin(malariaDraws, 15)
    requires i < 8
    ensures var data := WeeklyFeverTrendData(daysOfMonth, weekday, overallDraws, dengueDraws, malariaDraws);
            && data.overallFeverCases[i].cases == 150 + overallDraws[i] + 2 * i
            && data.dengueCases[i].cases == 40 + dengueDraws[i] + 2 * i
            && data.malariaCases[i].cases == 20 + malariaDraws[i] + 2 * i
  {
  }
}
