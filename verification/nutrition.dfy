/**
 * The metric store of the wellness dashboard (vue-flourish-hub/src/stores/nutrition.ts):
 * four daily counters, running macro totals derived from calorie deltas, a seven-day
 * series, a bounded newest-first activity log, write-through persistence to the durable
 * tier (localStorage, `durable` here) and the derived indicators.
 *
 * Numbers are exact reals; `Round` is `Math.round`. The clock reading that
 * `saveUserData` stamps on the record is passed in as `lastUpdated`.
 */
module Nutrition {
  import opened Wrappers

  // ---------------------------------------------------------------------------
  // State
  // ---------------------------------------------------------------------------

  datatype Counter = Counter(current: real, target: real)

  datatype DailyData = DailyData(calories: Counter, water: Counter, exercise: Counter, sleep: Counter)

  datatype Macros = Macros(carbs: real, protein: real, fat: real, fiber: real)

  /** The calorie series for the seven days of the week. */
  type Week = s: seq<real> | |s| == 7 witness [0.0, 0.0, 0.0, 0.0, 0.0, 0.0, 0.0]

  datatype ChartData = ChartData(macros: Macros, weekly: Week)

  datatype Activity = Activity(id: string, title: string, icon: string, time: string)

  const MAX_ACTIVITIES: nat := 10

  const DefaultDailyData: DailyData := DailyData(
    Counter(1650.0, 2000.0), Counter(1.8, 2.5), Counter(45.0, 60.0), Counter(7.2, 8.0))

  const DefaultChartData: ChartData := ChartData(
    Macros(195.0, 125.0, 65.0, 28.0),
    [1800.0, 2100.0, 1950.0, 2200.0, 1700.0, 2050.0, 1650.0])

  const DefaultActivities: seq<Activity> := [
    Activity("1", "Completed morning workout", "\U{1F3C3}", "2 hours ago"),
    Activity("2", "Logged breakfast", "\U{1F95E}", "3 hours ago"),
    Activity("3", "Drank water", "\U{1F4A7}", "4 hours ago"),
    Activity("4", "Read nutrition article", "\U{1F4D6}", "1 day ago")
  ]

  /** What `resetDailyData` installs: every counter at zero, with the built-in targets. */
  const ZeroedDailyData: DailyData := DailyData(
    Counter(0.0, 2000.0), Counter(0.0, 2.5), Counter(0.0, 60.0), Counter(0.0, 8.0))

  // ---------------------------------------------------------------------------
  // Persisted record
  // ---------------------------------------------------------------------------

  const STORAGE_KEY: string := "nutrition_data"

  /** The `dailyData` object of a stored record; a missing field is `None`. */
  datatype StoredDaily = StoredDaily(
    calories: Option<Counter>, water: Option<Counter>, exercise: Option<Counter>, sleep: Option<Counter>)

  /** The `chartData` object of a stored record; a missing field is `None`. */
  datatype StoredChart = StoredChart(macros: Option<Macros>, weekly: Option<Week>)

  datatype MetricsRecord = MetricsRecord(
    dailyData: Option<StoredDaily>, chartData: Option<StoredChart>, lastUpdated: string)

  /** The value under the storage key: the JSON text of a record, or text `JSON.parse` rejects. */
  datatype StoredEntry = Json(record: MetricsRecord) | Unparseable(raw: string)

  /** The record `saveUserData` writes: merged over any data, it gives back `d` and `c`. */
  function Snapshot(d: DailyData, c: ChartData, lastUpdated: string): (r: MetricsRecord)
    ensures forall d0 :: MergeDaily(d0, r.dailyData) == d
    ensures forall c0 :: MergeChart(c0, r.chartData) == c
    ensures r.lastUpdated == lastUpdated
  {
    MetricsRecord(
      Some(StoredDaily(Some(d.calories), Some(d.water), Some(d.exercise), Some(d.sleep))),
      Some(StoredChart(Some(c.macros), Some(c.weekly))),
      lastUpdated)
  }

  /** `{...dailyData, ...stored}`: each stored counter replaces the current one whole. */
  function MergeDaily(d: DailyData, stored: Option<StoredDaily>): (r: DailyData)
    ensures stored.None? ==> r == d
    ensures stored.Some? ==>
      && (stored.value.calories.Some? ==> r.calories == stored.value.calories.value)
      && (stored.value.calories.None? ==> r.calories == d.calories)
      && (stored.value.water.Some? ==> r.water == stored.value.water.value)
      && (stored.value.water.None? ==> r.water == d.water)
      && (stored.value.exercise.Some? ==> r.exercise == stored.value.exercise.value)
      && (stored.value.exercise.None? ==> r.exercise == d.exercise)
      && (stored.value.sleep.Some? ==> r.sleep == stored.value.sleep.value)
      && (stored.value.sleep.None? ==> r.sleep == d.sleep)
  {
    match stored
    case None => d
    case Some(sd) =>
      DailyData(sd.calories.GetOr(d.calories), sd.water.GetOr(d.water),
                sd.exercise.GetOr(d.exercise), sd.sleep.GetOr(d.sleep))
  }

  /** `{...chartData, ...stored}`: stored macros and series replace the current ones whole. */
  function MergeChart(c: ChartData, stored: Option<StoredChart>): (r: ChartData)
    ensures stored.None? ==> r == c
    ensures stored.Some? ==>
      && (stored.value.macros.Some? ==> r.macros == stored.value.macros.value)
      && (stored.value.macros.None? ==> r.macros == c.macros)
      && (stored.value.weekly.Some? ==> r.weekly == stored.value.weekly.value)
      && (stored.value.weekly.None? ==> r.weekly == c.weekly)
  {
    match stored
    case None => c
    case Some(sc) => ChartData(sc.macros.GetOr(c.macros), sc.weekly.GetOr(c.weekly))
  }

  datatype NutritionState = NutritionState(
    dailyData: DailyData,
    chartData: ChartData,
    recentActivities: seq<Activity>,
    durable: map<string, StoredEntry>)

  /** The storage key holds the record of the current daily and chart data. */
  predicate Persisted(s: NutritionState, lastUpdated: string) {
    STORAGE_KEY in s.durable && s.durable[STORAGE_KEY] == Json(Snapshot(s.dailyData, s.chartData, lastUpdated))
  }

  /** Every key other than the store's own is as it was. */
  ghost predicate OthersKept(before: map<string, StoredEntry>, after: map<string, StoredEntry>) {
    forall k :: k != STORAGE_KEY ==> (k in after <==> k in before) && (k in after ==> after[k] == before[k])
  }

  // ---------------------------------------------------------------------------
  // Arithmetic
  // ---------------------------------------------------------------------------

  /** `Math.round`: the nearest integer, halves rounded up. */
  function Round(x: real): (r: int)
    ensures x - 0.5 < r as real <= x + 0.5
  {
    (x + 0.5).Floor
  }

  /**
   * The grams a calorie delta adds to each macro: 45%, 25% and 30% of the energy at
   * 4, 4 and 9 kcal per gram for carbs, protein and fat, and 1 g of fiber per 100 kcal,
   * each rounded on its own to the nearest whole gram.
   */
  function MacroDelta(calories: real): (m: Macros)
    ensures calories * 0.45 / 4.0 - 0.5 < m.carbs <= calories * 0.45 / 4.0 + 0.5
    ensures calories * 0.25 / 4.0 - 0.5 < m.protein <= calories * 0.25 / 4.0 + 0.5
    ensures calories * 0.30 / 9.0 - 0.5 < m.fat <= calories * 0.30 / 9.0 + 0.5
    ensures calories / 100.0 - 0.5 < m.fiber <= calories / 100.0 + 0.5
    ensures calories >= 0.0 ==> m.carbs >= 0.0 && m.protein >= 0.0 && m.fat >= 0.0 && m.fiber >= 0.0
    ensures calories == 0.0 ==> m == Macros(0.0, 0.0, 0.0, 0.0)
    ensures m.carbs.Floor as real == m.carbs && m.protein.Floor as real == m.protein
    ensures m.fat.Floor as real == m.fat && m.fiber.Floor as real == m.fiber
  {
    Macros(
      Round(calories * 0.45 / 4.0) as real,
      Round(calories * 0.25 / 4.0) as real,
      Round(calories * 0.30 / 9.0) as real,
      Round(calories / 100.0) as real)
  }

  function AddMacros(m: Macros, d: Macros): Macros {
    Macros(m.carbs + d.carbs, m.protein + d.protein, m.fat + d.fat, m.fiber + d.fiber)
  }

  // ---------------------------------------------------------------------------
  // Operations, as functions of the state before the call
  // ---------------------------------------------------------------------------

  /** `saveUserData`: writes the current daily and chart data under the storage key. */
  function Saved(s: NutritionState, lastUpdated: string): (r: NutritionState)
    ensures Persisted(r, lastUpdated) && OthersKept(s.durable, r.durable)
    ensures r.dailyData == s.dailyData && r.chartData == s.chartData
    ensures r.recentActivities == s.recentActivities
  {
    s.(durable := s.durable[STORAGE_KEY := Json(Snapshot(s.dailyData, s.chartData, lastUpdated))])
  }

  /**
   * `loadUserData`: a stored record is merged one level deep over the current data.
   * Text that does not parse (or an empty value) leaves everything as it was. The
   * activity log is neither stored nor loaded.
   */
  function AfterLoad(s: NutritionState): (r: NutritionState)
    ensures r.recentActivities == s.recentActivities && r.durable == s.durable
    ensures (STORAGE_KEY !in s.durable || s.durable[STORAGE_KEY].Unparseable?) ==> r == s
    ensures STORAGE_KEY in s.durable && s.durable[STORAGE_KEY].Json? ==>
      var rec := s.durable[STORAGE_KEY].record;
      && (rec.dailyData.None? ==> r.dailyData == s.dailyData)
      && (rec.chartData.None? ==> r.chartData == s.chartData)
      && (rec.dailyData.Some? ==>
            && r.dailyData.calories == rec.dailyData.value.calories.GetOr(s.dailyData.calories)
            && r.dailyData.water == rec.dailyData.value.water.GetOr(s.dailyData.water)
            && r.dailyData.exercise == rec.dailyData.value.exercise.GetOr(s.dailyData.exercise)
            && r.dailyData.sleep == rec.dailyData.value.sleep.GetOr(s.dailyData.sleep))
      && (rec.chartData.Some? ==>
            && r.chartData.macros == rec.chartData.value.macros.GetOr(s.chartData.macros)
            && r.chartData.weekly == rec.chartData.value.weekly.GetOr(s.chartData.weekly))
  {
    if STORAGE_KEY in s.durable && s.durable[STORAGE_KEY].Json? then
      var rec := s.durable[STORAGE_KEY].record;
      s.(dailyData := MergeDaily(s.dailyData, rec.dailyData),
         chartData := MergeChart(s.chartData, rec.chartData))
    else s
  }

  /** `updateCalories`: adds the delta to the calorie counter and its macros to the totals. */
  function AfterUpdateCalories(s: NutritionState, amount: real, lastUpdated: string): (r: NutritionState)
    ensures r.dailyData.calories == Counter(s.dailyData.calories.current + amount, s.dailyData.calories.target)
    ensures r.dailyData.water == s.dailyData.water && r.dailyData.exercise == s.dailyData.exercise
    ensures r.dailyData.sleep == s.dailyData.sleep
    ensures r.chartData.macros == AddMacros(s.chartData.macros, MacroDelta(amount))
    ensures r.chartData.weekly == s.chartData.weekly && r.recentActivities == s.recentActivities
    ensures Persisted(r, lastUpdated) && OthersKept(s.durable, r.durable)
  {
    var d := s.dailyData;
    var updated := s.(dailyData := d.(calories := d.calories.(current := d.calories.current + amount)),
                      chartData := s.chartData.(macros := AddMacros(s.chartData.macros, MacroDelta(amount))));
    Saved(updated, lastUpdated)
  }

  /** `updateWater`: adds to the water counter and keeps one decimal place, rounded half up. */
  function AfterUpdateWater(s: NutritionState, amount: real, lastUpdated: string): (r: NutritionState)
    ensures var exact := s.dailyData.water.current + amount;
      exact - 0.05 < r.dailyData.water.current <= exact + 0.05
    ensures (r.dailyData.water.current * 10.0).Floor as real == r.dailyData.water.current * 10.0
    ensures r.dailyData.water.target == s.dailyData.water.target
    ensures r.dailyData.(water := s.dailyData.water) == s.dailyData
    ensures r.chartData == s.chartData && r.recentActivities == s.recentActivities
    ensures Persisted(r, lastUpdated) && OthersKept(s.durable, r.durable)
  {
    var w := s.dailyData.water;
    var tenths := Round((w.current + amount) * 10.0);
    assert (tenths as real / 10.0) * 10.0 == tenths as real;
    Saved(s.(dailyData := s.dailyData.(water := w.(current := tenths as real / 10.0))), lastUpdated)
  }

  /** `updateExercise`: adds minutes to the exercise counter. */
  function AfterUpdateExercise(s: NutritionState, minutes: real, lastUpdated: string): (r: NutritionState)
    ensures r.dailyData.exercise == Counter(s.dailyData.exercise.current + minutes, s.dailyData.exercise.target)
    ensures r.dailyData.(exercise := s.dailyData.exercise) == s.dailyData
    ensures r.chartData == s.chartData && r.recentActivities == s.recentActivities
    ensures Persisted(r, lastUpdated) && OthersKept(s.durable, r.durable)
  {
    var e := s.dailyData.exercise;
    Saved(s.(dailyData := s.dailyData.(exercise := e.(current := e.current + minutes))), lastUpdated)
  }

  /** `updateSleep`: sets the sleep counter to the given hours (not additive). */
  function AfterUpdateSleep(s: NutritionState, hours: real, lastUpdated: string): (r: NutritionState)
    ensures r.dailyData.sleep == Counter(hours, s.dailyData.sleep.target)
    ensures r.dailyData.(sleep := s.dailyData.sleep) == s.dailyData
    ensures r.chartData == s.chartData && r.recentActivities == s.recentActivities
    ensures Persisted(r, lastUpdated) && OthersKept(s.durable, r.durable)
  {
    var z := s.dailyData.sleep;
    Saved(s.(dailyData := s.dailyData.(sleep := z.(current := hours))), lastUpdated)
  }

  /**
   * `resetDailyData`: every counter back to zero, the targets set to the built-in
   * 2000 / 2.5 / 60 / 8 (whatever they were), the macro totals to zero; the weekly
   * series and the activity log are kept.
   */
  function AfterReset(s: NutritionState, lastUpdated: string): (r: NutritionState)
    ensures var d := r.dailyData;
      d.calories.current == 0.0 && d.water.current == 0.0 && d.exercise.current == 0.0 && d.sleep.current == 0.0
    ensures var d := r.dailyData;
      d.calories.target == 2000.0 && d.water.target == 2.5 && d.exercise.target == 60.0 && d.sleep.target == 8.0
    ensures r.chartData.macros == Macros(0.0, 0.0, 0.0, 0.0)
    ensures r.chartData.weekly == s.chartData.weekly && r.recentActivities == s.recentActivities
    ensures Persisted(r, lastUpdated) && OthersKept(s.durable, r.durable)
  {
    Saved(s.(dailyData := ZeroedDailyData, chartData := s.chartData.(macros := Macros(0.0, 0.0, 0.0, 0.0))), lastUpdated)
  }

  /** `updateWeeklyData`: an in-range day is overwritten and saved; any other index changes nothing. */
  function AfterUpdateWeekly(s: NutritionState, dayIndex: int, calories: real, lastUpdated: string): (r: NutritionState)
    ensures !(0 <= dayIndex < 7) ==> r == s
    ensures 0 <= dayIndex < 7 ==>
      && r.chartData.weekly[dayIndex] == calories
      && (forall j :: 0 <= j < 7 && j != dayIndex ==> r.chartData.weekly[j] == s.chartData.weekly[j])
      && r.chartData.macros == s.chartData.macros && r.dailyData == s.dailyData
      && r.recentActivities == s.recentActivities
      && Persisted(r, lastUpdated) && OthersKept(s.durable, r.durable)
  {
    if 0 <= dayIndex < 7 then
      Saved(s.(chartData := s.chartData.(weekly := s.chartData.weekly[dayIndex := calories])), lastUpdated)
    else s
  }

  // ---------------------------------------------------------------------------
  // Activity log
  // ---------------------------------------------------------------------------

  /** `addActivity` on the log: the entry goes first; a log grown past the cap loses its last entry. */
  function PushActivity(log: seq<Activity>, a: Activity): (r: seq<Activity>)
    ensures |r| == if |log| + 1 > MAX_ACTIVITIES then |log| else |log| + 1
    ensures r[0] == a
    ensures forall i :: 1 <= i < |r| ==> r[i] == log[i - 1]
    ensures |log| <= MAX_ACTIVITIES ==> |r| <= MAX_ACTIVITIES
  {
    var pushed := [a] + log;
    if |pushed| > MAX_ACTIVITIES then pushed[..|pushed| - 1] else pushed
  }

  /** `addActivity` on the whole state: the log changes, nothing is written to storage. */
  function AfterAddActivity(s: NutritionState, a: Activity): (r: NutritionState)
    ensures r.recentActivities == PushActivity(s.recentActivities, a)
    ensures r.dailyData == s.dailyData && r.chartData == s.chartData && r.durable == s.durable
  {
    s.(recentActivities := PushActivity(s.recentActivities, a))
  }

  /** The log after adding `acts` one after another, first to last. */
  function Recorded(log: seq<Activity>, acts: seq<Activity>): seq<Activity>
    decreases |acts|
  {
    if acts == [] then log else Recorded(PushActivity(log, acts[0]), acts[1..])
  }

  /** `acts` in the opposite order: the last added first. */
  function Latest(acts: seq<Activity>): (r: seq<Activity>)
    ensures |r| == |acts|
    ensures forall i :: 0 <= i < |acts| ==> r[i] == acts[|acts| - 1 - i]
  {
    if acts == [] then [] else Latest(acts[1..]) + [acts[0]]
  }

  /** The first `MAX_ACTIVITIES` entries of a newest-first list. */
  function Capped(s: seq<Activity>): seq<Activity> {
    if |s| <= MAX_ACTIVITIES then s else s[..MAX_ACTIVITIES]
  }

  lemma CappedAppend(x: seq<Activity>, y: seq<Activity>)
    ensures Capped(x + Capped(y)) == Capped(x + y)
  {
    if |y| > MAX_ACTIVITIES {
      var l := x + y[..MAX_ACTIVITIES];
      assert |l| > MAX_ACTIVITIES ==> l[..MAX_ACTIVITIES] == (x + y)[..MAX_ACTIVITIES];
      if |l| <= MAX_ACTIVITIES {
        assert |x| + MAX_ACTIVITIES <= MAX_ACTIVITIES;
        assert x == [];
        assert l == y[..MAX_ACTIVITIES];
      }
    }
  }

  /**
   * However many entries are added to a log of at most ten, the log is the most recent
   * entries newest first, followed by the old log, cut to ten.
   */
  lemma {:induction false} RecordedKeepsLatest(log: seq<Activity>, acts: seq<Activity>)
    requires |log| <= MAX_ACTIVITIES
    ensures Recorded(log, acts) == Capped(Latest(acts) + log)
    ensures |Recorded(log, acts)| <= MAX_ACTIVITIES
    decreases |acts|
  {
    if acts != [] {
      var a, rest := acts[0], acts[1..];
      var pushed := PushActivity(log, a);
      assert pushed == Capped([a] + log);
      RecordedKeepsLatest(pushed, rest);
      CappedAppend(Latest(rest), [a] + log);
      assert Latest(acts) + log == Latest(rest) + ([a] + log);
    }
  }

  // ---------------------------------------------------------------------------
  // Derived values
  // ---------------------------------------------------------------------------

  /** `caloriesRemaining`: what is left of the calorie target, never negative. */
  function CaloriesRemaining(d: DailyData): (r: real)
    ensures r >= 0.0
    ensures r >= d.calories.target - d.calories.current
    ensures r == 0.0 || r == d.calories.target - d.calories.current
  {
    var left := d.calories.target - d.calories.current;
    if 0.0 >= left then 0.0 else left
  }

  /** `waterProgress`: the water counter as a whole percentage of its target (may exceed 100). */
  function WaterProgress(d: DailyData): (r: int)
    requires d.water.target != 0.0
    ensures var pct := d.water.current / d.water.target * 100.0; pct - 0.5 < r as real <= pct + 0.5
    ensures d.water.current >= 0.0 && d.water.target > 0.0 ==> r >= 0
    ensures 0.0 <= d.water.current <= d.water.target ==> r <= 100
  {
    DivideByPositive(d.water.current, d.water.target);
    Round(d.water.current / d.water.target * 100.0)
  }

  /** Dividing by a positive target keeps the sign and the order relative to the target. */
  lemma DivideByPositive(a: real, b: real)
    ensures b > 0.0 && a >= 0.0 ==> a / b >= 0.0
    ensures b > 0.0 && a >= b ==> a / b >= 1.0
    ensures b > 0.0 && a <= b ==> a / b <= 1.0
  {
    if b > 0.0 {
      if a >= 0.0 { QuotientNonNegative(a, b); }
      if a >= b { QuotientAtLeastOne(a, b); }
      if a <= b { QuotientAtMostOne(a, b); }
    }
  }

  lemma NegativeTimesPositive(x: real, b: real)
    requires b > 0.0
    ensures x < 0.0 ==> x * b < 0.0
  {
  }

  lemma QuotientNonNegative(a: real, b: real)
    requires b > 0.0 && a >= 0.0
    ensures a / b >= 0.0
  {
    var q := a / b;
    assert q * b == a;
    NegativeTimesPositive(q, b);
  }

  lemma QuotientAtLeastOne(a: real, b: real)
    requires b > 0.0 && a >= b
    ensures a / b >= 1.0
  {
    var q := a / b;
    assert q * b == a;
    NegativeTimesPositive(q - 1.0, b);
    assert (q - 1.0) * b == a - b;
  }

  lemma QuotientAtMostOne(a: real, b: real)
    requires b > 0.0 && a <= b
    ensures a / b <= 1.0
  {
    var q := a / b;
    assert q * b == a;
    NegativeTimesPositive(1.0 - q, b);
    assert (1.0 - q) * b == b - a;
  }

  predicate TargetsNonZero(d: DailyData) {
    d.calories.target != 0.0 && d.water.target != 0.0 && d.exercise.target != 0.0 && d.sleep.target != 0.0
  }

  /** `Math.min(current / target, 1)`: progress towards a target, capped at full credit. */
  function CappedRatio(c: Counter): (r: real)
    requires c.target != 0.0
    ensures r <= 1.0
    ensures r <= c.current / c.target && (r == c.current / c.target || r == 1.0)
    ensures c.current >= 0.0 && c.target > 0.0 ==> r >= 0.0
    ensures c.target > 0.0 && c.current >= c.target ==> r == 1.0
    ensures c.current == 0.0 ==> r == 0.0
  {
    var ratio := c.current / c.target;
    DivideByPositive(c.current, c.target);
    if ratio <= 1.0 then ratio else 1.0
  }

  /** `getHealthScore`: the mean of the four capped ratios as a whole percentage. */
  function HealthScore(d: DailyData): (r: int)
    requires TargetsNonZero(d)
    ensures r <= 100
    ensures var avg := (CappedRatio(d.calories) + CappedRatio(d.water) + CappedRatio(d.exercise) + CappedRatio(d.sleep)) / 4.0 * 100.0;
      avg - 0.5 < r as real <= avg + 0.5
    ensures d.calories.current >= 0.0 && d.water.current >= 0.0 && d.exercise.current >= 0.0 && d.sleep.current >= 0.0 &&
            d.calories.target > 0.0 && d.water.target > 0.0 && d.exercise.target > 0.0 && d.sleep.target > 0.0 ==>
      0 <= r
    ensures d.calories.target > 0.0 && d.water.target > 0.0 && d.exercise.target > 0.0 && d.sleep.target > 0.0 &&
            d.calories.current >= d.calories.target && d.water.current >= d.water.target &&
            d.exercise.current >= d.exercise.target && d.sleep.current >= d.sleep.target ==>
      r == 100
    ensures d.calories.current == 0.0 && d.water.current == 0.0 && d.exercise.current == 0.0 && d.sleep.current == 0.0 ==>
      r == 0
  {
    var scores := [CappedRatio(d.calories), CappedRatio(d.water), CappedRatio(d.exercise), CappedRatio(d.sleep)];
    var average := (0.0 + scores[0] + scores[1] + scores[2] + scores[3]) / 4.0;
    Round(average * 100.0)
  }

  // ---------------------------------------------------------------------------
  // Properties relating several operations
  // ---------------------------------------------------------------------------

  function DefaultState(durable: map<string, StoredEntry>): NutritionState {
    NutritionState(DefaultDailyData, DefaultChartData, DefaultActivities, durable)
  }

  /** Two calorie updates give the same state in either order. */
  lemma CaloriesCommute(s: NutritionState, d1: real, d2: real, t1: string, t2: string)
    ensures AfterUpdateCalories(AfterUpdateCalories(s, d1, t1), d2, t2) ==
            AfterUpdateCalories(AfterUpdateCalories(s, d2, t1), d1, t2)
  {
  }

  /** The counter is additive; the macros are rounded per update, so two small deltas may not add up to one. */
  lemma MacrosRoundPerUpdate(s: NutritionState, t: string)
    ensures AfterUpdateCalories(AfterUpdateCalories(s, 50.0, t), 50.0, t).dailyData.calories ==
            AfterUpdateCalories(s, 100.0, t).dailyData.calories
    ensures AfterUpdateCalories(AfterUpdateCalories(s, 50.0, t), 50.0, t).chartData.macros.fiber ==
            s.chartData.macros.fiber + 2.0
    ensures AfterUpdateCalories(s, 100.0, t).chartData.macros.fiber == s.chartData.macros.fiber + 1.0
  {
    assert Round(50.0 / 100.0) == 1;
    assert Round(100.0 / 100.0) == 1;
  }

  /** Logging 500 kcal on the defaults: carbs 195 to 251, protein 125 to 156, fat 65 to 82, fiber 28 to 33. */
  lemma FiveHundredCaloriesOnDefaults(durable: map<string, StoredEntry>, t: string)
    ensures var r := AfterUpdateCalories(DefaultState(durable), 500.0, t);
      r.dailyData.calories.current == 2150.0 && r.chartData.macros == Macros(251.0, 156.0, 82.0, 33.0)
  {
    assert Round(500.0 * 0.45 / 4.0) == 56;
    assert Round(500.0 * 0.25 / 4.0) == 31;
    assert Round(500.0 * 0.30 / 9.0) == 17;
    assert Round(500.0 / 100.0) == 5;
  }

  /** The defaults score 80, show 72% hydration and leave 350 kcal. */
  lemma DefaultIndicators()
    ensures HealthScore(DefaultDailyData) == 80
    ensures WaterProgress(DefaultDailyData) == 72
    ensures CaloriesRemaining(DefaultDailyData) == 350.0
  {
    assert CappedRatio(DefaultDailyData.calories) == 0.825;
    assert CappedRatio(DefaultDailyData.water) == 0.72;
    assert CappedRatio(DefaultDailyData.exercise) == 0.75;
    assert CappedRatio(DefaultDailyData.sleep) == 0.9;
    assert Round(79.875) == 80;
    assert Round(72.0) == 72;
  }

  /** After a reset the score is 0 and the whole calorie target remains. */
  lemma ResetIndicators(s: NutritionState, t: string)
    ensures var d := AfterReset(s, t).dailyData;
      TargetsNonZero(d) && HealthScore(d) == 0 && WaterProgress(d) == 0 && CaloriesRemaining(d) == 2000.0
  {
  }

  /**
   * Whatever record a mutator left in storage, loading it over any state restores the
   * daily and chart data exactly (the save/load round trip).
   */
  lemma LoadRestoresSaved(saved: NutritionState, other: NutritionState, lastUpdated: string)
    requires Persisted(saved, lastUpdated)
    ensures var r := AfterLoad(other.(durable := saved.durable));
      r.dailyData == saved.dailyData && r.chartData == saved.chartData
      && r.recentActivities == other.recentActivities
  {
  }

  /** Saving then loading on a fresh store reproduces the saved data. */
  lemma SaveThenLoadOnFreshStore(s: NutritionState, lastUpdated: string)
    ensures var r := AfterLoad(DefaultState(Saved(s, lastUpdated).durable));
      r.dailyData == s.dailyData && r.chartData == s.chartData
  {
    LoadRestoresSaved(Saved(s, lastUpdated), DefaultState(map[]), lastUpdated);
  }

  /** The merge is one level deep: a stored counter replaces the whole counter, target included. */
  lemma LoadIsShallow(s: NutritionState, c: Counter, lastUpdated: string)
    requires STORAGE_KEY in s.durable
    requires s.durable[STORAGE_KEY] == Json(MetricsRecord(Some(StoredDaily(Some(c), None, None, None)), None, lastUpdated))
    ensures AfterLoad(s).dailyData == s.dailyData.(calories := c)
    ensures AfterLoad(s).chartData == s.chartData
  {
  }

  // ---------------------------------------------------------------------------
  // The store
  // ---------------------------------------------------------------------------

  /** The metric store: daily data, chart data, the activity log and the durable tier it writes. */
  class NutritionStore {
    var dailyData: DailyData
    var chartData: ChartData
    var recentActivities: seq<Activity>
    var durable: map<string, StoredEntry>

    /** The activity log never holds more than ten entries. */
    ghost predicate Valid()
      reads this
    {
      |recentActivities| <= MAX_ACTIVITIES
    }

    function State(): NutritionState
      reads this
    {
      NutritionState(dailyData, chartData, recentActivities, durable)
    }

    /** A fresh store holds the built-in defaults; the tier holds whatever the browser kept. */
    constructor(durable0: map<string, StoredEntry>)
      ensures Valid() && State() == DefaultState(durable0)
    {
      dailyData := DefaultDailyData;
      chartData := DefaultChartData;
      recentActivities := DefaultActivities;
      durable := durable0;
    }

    method LoadUserData()
      requires Valid()
      modifies this
      ensures Valid()
      ensures State() == AfterLoad(old(State()))
    {
      if STORAGE_KEY in durable {
        match durable[STORAGE_KEY]
        case Json(data) =>
          dailyData := MergeDaily(dailyData, data.dailyData);
          chartData := MergeChart(chartData, data.chartData);
        case Unparseable(_) =>
      }
    }

    method SaveUserData(lastUpdated: string)
      requires Valid()
      modifies this
      ensures Valid()
      ensures State() == Saved(old(State()), lastUpdated)
    {
      var data := Snapshot(dailyData, chartData, lastUpdated);
      durable := durable[STORAGE_KEY := Json(data)];
    }

    /** `updateMacros`: adds the macro grams of a calorie delta to the running totals. */
    method UpdateMacros(calories: real)
      requires Valid()
      modifies this
      ensures Valid()
      ensures State() == old(State()).(chartData := old(chartData).(macros := AddMacros(old(chartData.macros), MacroDelta(calories))))
    {
      var carbsRatio, proteinRatio, fatRatio := 0.45, 0.25, 0.30;
      var carbCalories := calories * carbsRatio;
      var proteinCalories := calories * proteinRatio;
      var fatCalories := calories * fatRatio;
      var m := chartData.macros;
      m := m.(carbs := m.carbs + Round(carbCalories / 4.0) as real);
      m := m.(protein := m.protein + Round(proteinCalories / 4.0) as real);
      m := m.(fat := m.fat + Round(fatCalories / 9.0) as real);
      m := m.(fiber := m.fiber + Round(calories / 100.0) as real);
      chartData := chartData.(macros := m);
    }

    method UpdateCalories(amount: real, lastUpdated: string)
      requires Valid()
      modifies this
      ensures Valid()
      ensures State() == AfterUpdateCalories(old(State()), amount, lastUpdated)
    {
      dailyData := dailyData.(calories := dailyData.calories.(current := dailyData.calories.current + amount));
      UpdateMacros(amount);
      SaveUserData(lastUpdated);
    }

    method UpdateWater(amount: real, lastUpdated: string)
      requires Valid()
      modifies this
      ensures Valid()
      ensures State() == AfterUpdateWater(old(State()), amount, lastUpdated)
    {
      var tenths := Round((dailyData.water.current + amount) * 10.0);
      dailyData := dailyData.(water := dailyData.water.(current := tenths as real / 10.0));
      SaveUserData(lastUpdated);
    }

    method UpdateExercise(minutes: real, lastUpdated: string)
      requires Valid()
      modifies this
      ensures Valid()
      ensures State() == AfterUpdateExercise(old(State()), minutes, lastUpdated)
    {
      dailyData := dailyData.(exercise := dailyData.exercise.(current := dailyData.exercise.current + minutes));
      SaveUserData(lastUpdated);
    }

    method UpdateSleep(hours: real, lastUpdated: string)
      requires Valid()
      modifies this
      ensures Valid()
      ensures State() == AfterUpdateSleep(old(State()), hours, lastUpdated)
    {
      dailyData := dailyData.(sleep := dailyData.sleep.(current := hours));
      SaveUserData(lastUpdated);
    }

    method AddActivity(activity: Activity)
      requires Valid()
      modifies this
      ensures Valid()
      ensures State() == AfterAddActivity(old(State()), activity)
    {
      recentActivities := [activity] + recentActivities;
      if |recentActivities| > MAX_ACTIVITIES {
        recentActivities := recentActivities[..|recentActivities| - 1];
      }
    }

    method ResetDailyData(lastUpdated: string)
      requires Valid()
      modifies this
      ensures Valid()
      ensures State() == AfterReset(old(State()), lastUpdated)
    {
      dailyData := ZeroedDailyData;
      chartData := chartData.(macros := Macros(0.0, 0.0, 0.0, 0.0));
      SaveUserData(lastUpdated);
    }

    method UpdateWeeklyData(dayIndex: int, calories: real, lastUpdated: string)
      requires Valid()
      modifies this
      ensures Valid()
      ensures State() == AfterUpdateWeekly(old(State()), dayIndex, calories, lastUpdated)
    {
      if 0 <= dayIndex < 7 {
        chartData := chartData.(weekly := chartData.weekly[dayIndex := calories]);
        SaveUserData(lastUpdated);
      }
    }
  }
}
