/**
 * The admin revenue chart: a money axis that tops out at a round figure, a
 * count axis of whole numbers, and the columns plotted against both. Numbers
 * are exact here; rounding to the hundredth of a pixel is written out.
 */
module MetricsService {
  import opened Prelude

  const LEFT: real := 58.0
  const RIGHT: real := 676.0
  const TOP: real := 12.0
  const BOTTOM: real := 208.0
  const RULES: int := 4
  const LABELS: int := 8
  const EMPTY_CEILING: int := 10000

  // ---------------------------------------------------------------- the money axis

  function Ceil(x: real): int {
    -((-x).Floor)
  }

  function Pow10(k: int): (p: real)
    ensures p > 0.0
    decreases if k < 0 then -k else k
  {
    if k == 0 then 1.0 else if k > 0 then 10.0 * Pow10(k - 1) else Pow10(k + 1) / 10.0
  }

  lemma {:induction false} Pow10Next(k: int)
    ensures Pow10(k + 1) == 10.0 * Pow10(k)
  {
  }

  lemma {:induction false} Pow10Ascends(j: int, k: int)
    requires j <= k
    ensures Pow10(j) <= Pow10(k)
    decreases k - j
  {
    if j < k {
      Pow10Ascends(j, k - 1);
      Pow10Next(k - 1);
    }
  }

  lemma {:induction false} ReciprocalShrinks(x: real)
    requires 0.0 < x < 1.0
    ensures 1.0 / x > 1.0 && 1.0 / (x * 10.0) == 1.0 / x / 10.0
  {
    assert 1.0 / x - 1.0 == (1.0 - x) / x;
    assert (1.0 / x / 10.0) * (x * 10.0) == 1.0;
  }

  /** `Math.floor(Math.log10(x))`. */
  function FloorLog10(x: real): (k: int)
    requires x > 0.0
    decreases x < 1.0, if x < 1.0 then (1.0 / x).Floor else x.Floor
  {
    if x < 1.0 then
      ReciprocalShrinks(x);
      FloorLog10(x * 10.0) - 1
    else if x >= 10.0 then FloorLog10(x / 10.0) + 1
    else 0
  }

  lemma {:induction false} DecadeHolds(x: real)
    requires x > 0.0
    ensures Pow10(FloorLog10(x)) <= x < 10.0 * Pow10(FloorLog10(x))
    decreases x < 1.0, if x < 1.0 then (1.0 / x).Floor else x.Floor
  {
    if x < 1.0 {
      ReciprocalShrinks(x);
      DecadeHolds(x * 10.0);
      Pow10Next(FloorLog10(x));
    } else if x >= 10.0 {
      DecadeHolds(x / 10.0);
      Pow10Next(FloorLog10(x) - 1);
    }
  }

  /** The round figures, as multiples of a power of ten. */
  const LADDER: seq<real> := [1.0, 2.0, 2.5, 5.0, 10.0]

  /** The first rung of the decade of `rough` that clears it. */
  function Step(rough: real): real
    requires rough > 0.0
  {
    var magnitude := Pow10(FloorLog10(rough));
    if rough <= 1.0 * magnitude then 1.0 * magnitude
    else if rough <= 2.0 * magnitude then 2.0 * magnitude
    else if rough <= 2.5 * magnitude then 2.5 * magnitude
    else if rough <= 5.0 * magnitude then 5.0 * magnitude
    else 10.0 * magnitude
  }

  function AxisCeiling(highest: real): int {
    if highest <= 0.0 then EMPTY_CEILING else Ceil(Step(highest / RULES as real)) * RULES
  }

  /** Of all round figures of every magnitude, the step is the smallest that clears `rough`, and under twice it. */
  lemma {:induction false} StepIsTheLeastRoundFigure(rough: real, rung: int, k: int)
    requires rough > 0.0 && 0 <= rung < |LADDER|
    ensures rough <= Step(rough) < 2.0 * rough
    ensures rough <= LADDER[rung] * Pow10(k) ==> Step(rough) <= LADDER[rung] * Pow10(k)
  {
    var own := FloorLog10(rough);
    DecadeHolds(rough);
    if k < own {
      Pow10Next(k);
      Pow10Ascends(k + 1, own);
    } else if k > own {
      Pow10Next(own);
      Pow10Ascends(own + 1, k);
    }
  }

  /** With nothing to show the axis still has a scale: ten thousand cents. */
  lemma {:induction false} EmptyAxis(highest: real)
    requires highest <= 0.0
    ensures AxisCeiling(highest) == 10000
  {
  }

  /** The axis clears the largest value without doubling it, and its quarters are whole. */
  lemma {:induction false} AxisClearsTheHighest(highest: real)
    requires highest > 0.0
    ensures AxisCeiling(highest) % RULES == 0
    ensures highest <= AxisCeiling(highest) as real < 2.0 * highest + 4.0
  {
    StepIsTheLeastRoundFigure(highest / RULES as real, 0, 0);
    hide Step;
  }

  function WholePower(k: nat): int {
    if k == 0 then 1 else 10 * WholePower(k - 1)
  }

  lemma {:induction false} PowersAreWhole(k: nat)
    ensures Pow10(k) == WholePower(k) as real
  {
    if k > 0 {
      PowersAreWhole(k - 1);
    }
  }

  lemma {:induction false} StepOfATinyTotal(highest: int)
    requires 0 < highest <= 40
    ensures Ceil(Step(highest as real / RULES as real)) as real == Step(highest as real / RULES as real)
       <==> highest !in {1, 2, 9, 10}
  {
    var rough := highest as real / RULES as real;
    assert Pow10(0) == 1.0;
    assert Pow10(-1) == 0.1;
    if rough < 1.0 {
      assert FloorLog10(rough * 10.0) == 0;
      assert FloorLog10(rough) == -1;
    } else if rough < 10.0 {
      assert FloorLog10(rough) == 0;
    } else {
      assert FloorLog10(1.0) == 0;
      assert FloorLog10(rough) == 1 && Pow10(1) == 10.0;
    }
  }

  lemma {:induction false} CeilOfWhole(x: real, n: int)
    requires x == n as real
    ensures Ceil(x) == n
  {
  }

  lemma {:induction false} CeilingOfStep(highest: int)
    requires highest > 0
    ensures AxisCeiling(highest as real) / RULES == Ceil(Step(highest as real / RULES as real))
  {
    hide Ceil, Step;
  }

  /** In whole cents the rules sit at the round figures themselves, except on totals of 1, 2, 9 and 10 cents, where rounding up spoils them. */
  lemma {:induction false} RulesAreRoundExactlyWhen(highest: int)
    requires highest > 0
    ensures (AxisCeiling(highest as real) / RULES) as real == Step(highest as real / RULES as real) <==> highest !in {1, 2, 9, 10}
  {
    hide Step, Ceil, AxisCeiling;
    CeilingOfStep(highest);
    if highest <= 40 {
      StepOfATinyTotal(highest);
    } else {
      StepOfALargeTotal(highest as real / RULES as real);
    }
  }

  lemma {:induction false} StepOfALargeTotal(rough: real)
    requires rough >= 10.0
    ensures Ceil(Step(rough)) as real == Step(rough)
  {
    hide Ceil, Step;
    var k := FloorLog10(rough);
    DecadeHolds(rough);
    if k < 1 {
      Pow10Ascends(k, 0);
      assert false;
    }
    Pow10Next(k - 1);
    PowersAreWhole(k - 1);
    RungsAreWhole(rough, WholePower(k - 1));
  }

  lemma {:induction false} RungsAreWhole(rough: real, n: int)
    requires rough > 0.0 && Pow10(FloorLog10(rough)) == (10 * n) as real
    ensures Ceil(Step(rough)) as real == Step(rough)
  {
    hide Ceil;
    if Step(rough) == (10 * n) as real {
      CeilOfWhole(Step(rough), 10 * n);
    } else if Step(rough) == (20 * n) as real {
      CeilOfWhole(Step(rough), 20 * n);
    } else if Step(rough) == (25 * n) as real {
      CeilOfWhole(Step(rough), 25 * n);
    } else if Step(rough) == (50 * n) as real {
      CeilOfWhole(Step(rough), 50 * n);
    } else {
      CeilOfWhole(Step(rough), 100 * n);
    }
  }

  // ---------------------------------------------------------------- the chart

  datatype Bucket = Bucket(grossCents: int, refundedCents: int, cents: int, registered: int, cancelled: int)

  datatype Column = Column(showLabel: bool, x: real, grossY: real, refundedY: real, netY: real, registeredY: real, cancelledY: real)

  datatype Tick = Tick(cents: real, count: real, y: real)

  datatype Chart = Chart(ticks: seq<Tick>, columns: seq<Column>)

  function Highest(buckets: seq<Bucket>): int {
    if buckets == [] then 0 else
      var last := buckets[|buckets| - 1];
      Max(Max(Max(Highest(buckets[..|buckets| - 1]), last.grossCents), last.refundedCents), last.cents)
  }

  function Busiest(buckets: seq<Bucket>): int {
    if buckets == [] then 0 else
      var last := buckets[|buckets| - 1];
      Max(Max(Busiest(buckets[..|buckets| - 1]), last.registered), last.cancelled)
  }

  /** `Math.round(value * 100) / 100`, which rounds a half up. */
  function Round(value: real): real {
    (value * 100.0 + 0.5).Floor as real / 100.0
  }

  function YOf(value: int, ceiling: int): real
    requires ceiling > 0
  {
    Round(BOTTOM - (Max(0, value) as real / ceiling as real) * (BOTTOM - TOP))
  }

  function CountCeiling(busiest: int): int {
    Max(1, Ceil(busiest as real / RULES as real)) * RULES
  }

  function LabelEvery(n: int): int {
    Max(1, Ceil(n as real / LABELS as real))
  }

  function Position(index: int, n: int): real {
    if n > 1 then LEFT + index as real * ((RIGHT - LEFT) / (n - 1) as real) else (LEFT + RIGHT) / 2.0
  }

  function XOf(index: int, n: int): real {
    Round(Position(index, n))
  }

  predicate ShowLabel(index: int, n: int) {
    (n - 1 - index) % LabelEvery(n) == 0
  }

  function MoneyCeiling(buckets: seq<Bucket>): (c: int)
    ensures c > 0
  {
    var highest := Highest(buckets) as real;
    if highest > 0.0 then
      AxisClearsTheHighest(highest);
      AxisCeiling(highest)
    else AxisCeiling(highest)
  }

  function LineChart(buckets: seq<Bucket>): Chart {
    var n := |buckets|;
    var ceiling := MoneyCeiling(buckets);
    var countCeiling := CountCeiling(Busiest(buckets));
    Chart(
      seq(RULES + 1, i requires 0 <= i =>
        var cents := ceiling as real / RULES as real * i as real;
        Tick(cents, countCeiling as real / RULES as real * i as real,
             Round(BOTTOM - (cents / ceiling as real) * (BOTTOM - TOP)))),
      seq(n, i requires 0 <= i < n =>
        var b := buckets[i];
        Column(ShowLabel(i, n), XOf(i, n), YOf(b.grossCents, ceiling), YOf(b.refundedCents, ceiling), YOf(b.cents, ceiling),
               YOf(b.registered, countCeiling), YOf(b.cancelled, countCeiling))))
  }

  lemma {:induction false} HighestClears(buckets: seq<Bucket>, i: nat)
    requires i < |buckets|
    ensures buckets[i].grossCents <= Highest(buckets) && buckets[i].refundedCents <= Highest(buckets) && buckets[i].cents <= Highest(buckets)
    ensures buckets[i].registered <= Busiest(buckets) && buckets[i].cancelled <= Busiest(buckets)
    decreases |buckets|
  {
    if i < |buckets| - 1 {
      HighestClears(buckets[..|buckets| - 1], i);
    }
  }

  /** Nothing lower would do: whatever clears every bucket is at least as high. */
  lemma {:induction false} HighestIsReached(buckets: seq<Bucket>, money: int, count: int)
    requires money >= 0 && count >= 0
    requires forall i :: 0 <= i < |buckets| ==>
      buckets[i].grossCents <= money && buckets[i].refundedCents <= money && buckets[i].cents <= money
    requires forall i :: 0 <= i < |buckets| ==> buckets[i].registered <= count && buckets[i].cancelled <= count
    ensures Highest(buckets) <= money && Busiest(buckets) <= count
    decreases |buckets|
  {
    if buckets != [] {
      HighestIsReached(buckets[..|buckets| - 1], money, count);
    }
  }

  lemma {:induction false} MoneyCeilingClears(buckets: seq<Bucket>)
    ensures Highest(buckets) <= MoneyCeiling(buckets) && MoneyCeiling(buckets) % RULES == 0
  {
    if Highest(buckets) > 0 {
      AxisClearsTheHighest(Highest(buckets) as real);
    }
  }

  /** The count axis is the first positive multiple of the rules that clears the busiest bucket. */
  lemma {:induction false} CountCeilingIsTheFirstMultiple(busiest: int, rules: int)
    ensures CountCeiling(busiest) % RULES == 0 && CountCeiling(busiest) >= RULES && busiest <= CountCeiling(busiest)
    ensures 0 < rules && busiest <= rules * RULES ==> CountCeiling(busiest) <= rules * RULES
  {
  }

  lemma {:induction false} Fraction(a: int, b: int, ceiling: int)
    requires 0 <= a <= b <= ceiling && ceiling > 0
    ensures 0.0 <= a as real / ceiling as real <= b as real / ceiling as real <= 1.0
  {
    Divide(0.0, a as real, ceiling as real);
    Divide(a as real, b as real, ceiling as real);
    Divide(b as real, ceiling as real, ceiling as real);
  }

  lemma {:induction false} Divide(a: real, b: real, c: real)
    requires a <= b && c > 0.0
    ensures a / c <= b / c
  {
    assert b / c - a / c == (b - a) / c;
  }

  lemma {:induction false} FloorAscends(a: real, b: real)
    requires a <= b
    ensures a.Floor <= b.Floor
  {
  }

  lemma {:induction false} RoundAscends(a: real, b: real)
    requires a <= b
    ensures Round(a) <= Round(b)
  {
    FloorAscends(a * 100.0 + 0.5, b * 100.0 + 0.5);
    Divide((a * 100.0 + 0.5).Floor as real, (b * 100.0 + 0.5).Floor as real, 100.0);
  }

  lemma {:induction false} FloorIs(x: real, n: int)
    requires n as real <= x < n as real + 1.0
    ensures x.Floor == n
  {
  }

  lemma {:induction false} RoundFixesWholes(x: real, k: int)
    requires x == k as real
    ensures Round(x) == x
  {
    FloorIs(x * 100.0 + 0.5, k * 100);
    assert (k * 100) as real / 100.0 == k as real;
  }

  lemma {:induction false} WholeAndNone(c: real)
    requires c > 0.0
    ensures c / c == 1.0 && 0.0 / c == 0.0
  {
  }

  /** Larger values are never drawn lower, nothing is drawn off the plot, and zero and the ceiling sit on its edges. */
  lemma {:induction false} HigherIsNeverLower(a: int, b: int, ceiling: int)
    requires a <= b <= ceiling && ceiling > 0
    ensures TOP <= YOf(b, ceiling) <= YOf(a, ceiling) <= BOTTOM
    ensures YOf(0, ceiling) == BOTTOM && YOf(ceiling, ceiling) == TOP
  {
    hide Round;
    Fraction(Max(0, a), Max(0, b), ceiling);
    var p, q := Max(0, a) as real / ceiling as real, Max(0, b) as real / ceiling as real;
    RoundAscends(TOP, BOTTOM - q * (BOTTOM - TOP));
    RoundAscends(BOTTOM - q * (BOTTOM - TOP), BOTTOM - p * (BOTTOM - TOP));
    RoundAscends(BOTTOM - p * (BOTTOM - TOP), BOTTOM);
    RoundFixesWholes(TOP, 12);
    RoundFixesWholes(BOTTOM, 208);
    WholeAndNone(ceiling as real);
    assert BOTTOM - 1.0 * (BOTTOM - TOP) == TOP && BOTTOM - 0.0 * (BOTTOM - TOP) == BOTTOM;
  }

  lemma {:induction false} ColumnStaysOnThePlot(buckets: seq<Bucket>, i: nat)
    requires i < |buckets|
    ensures var column := LineChart(buckets).columns[i];
            && TOP <= column.grossY <= BOTTOM && TOP <= column.refundedY <= BOTTOM && TOP <= column.netY <= BOTTOM
            && TOP <= column.registeredY <= BOTTOM && TOP <= column.cancelledY <= BOTTOM
            && LEFT <= column.x <= RIGHT
  {
    var b := buckets[i];
    var ceiling, countCeiling := MoneyCeiling(buckets), CountCeiling(Busiest(buckets));
    MoneyCeilingClears(buckets);
    CountCeilingIsTheFirstMultiple(Busiest(buckets), 1);
    HighestClears(buckets, i);
    hide YOf, MoneyCeiling, CountCeiling, Highest, Busiest, XOf;
    HigherIsNeverLower(b.grossCents, b.grossCents, ceiling);
    HigherIsNeverLower(b.refundedCents, b.refundedCents, ceiling);
    HigherIsNeverLower(b.cents, b.cents, ceiling);
    HigherIsNeverLower(b.registered, b.registered, countCeiling);
    HigherIsNeverLower(b.cancelled, b.cancelled, countCeiling);
    ColumnsRunLeftToRight(i, i, |buckets|);
  }

  lemma {:induction false} PositionsAscend(i: int, j: int, n: int)
    requires 0 <= i <= j < n
    ensures LEFT <= Position(i, n) <= Position(j, n) <= RIGHT
    ensures n > 1 ==> Position(0, n) == LEFT && Position(n - 1, n) == RIGHT
  {
    if n > 1 {
      var gap := (RIGHT - LEFT) / (n - 1) as real;
      assert (n - 1) as real * gap == RIGHT - LEFT;
      Multiply(0.0, i as real, gap);
      Multiply(i as real, j as real, gap);
      Multiply(j as real, (n - 1) as real, gap);
    }
  }

  /** Drawn to scale: within half a hundredth of the exact height. */
  lemma {:induction false} HeightsAreToScale(value: int, ceiling: int)
    requires 0 <= value <= ceiling && ceiling > 0
    ensures var exact := BOTTOM - (value as real / ceiling as real) * 196.0;
            exact - 0.005 <= YOf(value, ceiling) <= exact + 0.005
  {
    RoundIsClose(BOTTOM - (value as real / ceiling as real) * (BOTTOM - TOP));
  }

  lemma {:induction false} RoundIsClose(x: real)
    ensures x - 0.005 <= Round(x) <= x + 0.005
  {
    var f := (x * 100.0 + 0.5).Floor;
    assert f as real <= x * 100.0 + 0.5 < f as real + 1.0;
    Divide(x * 100.0 - 0.5, f as real, 100.0);
    Divide(f as real, x * 100.0 + 0.5, 100.0);
  }

  /** Every series is drawn from its own bucket values: of two columns, the one with more is never lower, series by series. */
  lemma {:induction false} ColumnsPlotTheirOwnSeries(buckets: seq<Bucket>, i: nat, j: nat)
    requires i < |buckets| && j < |buckets|
    ensures var (a, b, x, y) := (buckets[i], buckets[j], LineChart(buckets).columns[i], LineChart(buckets).columns[j]);
            && (a.grossCents <= b.grossCents ==> y.grossY <= x.grossY)
            && (a.refundedCents <= b.refundedCents ==> y.refundedY <= x.refundedY)
            && (a.cents <= b.cents ==> y.netY <= x.netY)
            && (a.registered <= b.registered ==> y.registeredY <= x.registeredY)
            && (a.cancelled <= b.cancelled ==> y.cancelledY <= x.cancelledY)
            && (i <= j ==> x.x <= y.x)
  {
    hide YOf, Highest, Busiest, XOf;
    ColumnsRunLeftToRight(Min(i, j), Max(i, j), |buckets|);
    var (a, b) := (buckets[i], buckets[j]);
    var (ceiling, countCeiling) := (MoneyCeiling(buckets), CountCeiling(Busiest(buckets)));
    MoneyCeilingClears(buckets);
    CountCeilingIsTheFirstMultiple(Busiest(buckets), 1);
    HighestClears(buckets, i);
    HighestClears(buckets, j);
    hide MoneyCeiling, CountCeiling;
    if a.grossCents <= b.grossCents { HigherIsNeverLower(a.grossCents, b.grossCents, ceiling); }
    if a.refundedCents <= b.refundedCents { HigherIsNeverLower(a.refundedCents, b.refundedCents, ceiling); }
    if a.cents <= b.cents { HigherIsNeverLower(a.cents, b.cents, ceiling); }
    if a.registered <= b.registered { HigherIsNeverLower(a.registered, b.registered, countCeiling); }
    if a.cancelled <= b.cancelled { HigherIsNeverLower(a.cancelled, b.cancelled, countCeiling); }
  }

  /** Columns run from the left edge to the right edge in order. */
  lemma {:induction false} ColumnsRunLeftToRight(i: int, j: int, n: int)
    requires 0 <= i <= j < n
    ensures LEFT <= XOf(i, n) <= XOf(j, n) <= RIGHT
    ensures n > 1 ==> XOf(0, n) == LEFT && XOf(n - 1, n) == RIGHT
  {
    hide Round, Position;
    RoundFixesWholes(LEFT, 58);
    RoundFixesWholes(RIGHT, 676);
    PositionsAscend(i, j, n);
    RoundAscends(LEFT, Position(i, n));
    RoundAscends(Position(i, n), Position(j, n));
    RoundAscends(Position(j, n), RIGHT);
  }

  /** Columns are evenly spaced, within half a hundredth; a single one stands in the middle. */
  lemma {:induction false} ColumnsAreEvenlySpaced(buckets: seq<Bucket>, i: nat)
    requires i < |buckets|
    ensures var (x, n) := (LineChart(buckets).columns[i].x, |buckets|);
            && (n == 1 ==> x == 367.0)
            && (n > 1 ==> var exact := 58.0 + i as real * (618.0 / (n - 1) as real);
                          exact - 0.005 <= x <= exact + 0.005)
  {
    hide Round, MoneyCeiling, CountCeiling, Busiest, Highest, YOf;
    RoundFixesWholes(367.0, 367);
    RoundIsClose(Position(i, |buckets|));
  }

  lemma {:induction false} Multiply(a: real, b: real, c: real)
    requires a <= b && c >= 0.0
    ensures a * c <= b * c
  {
    assert (b - a) * c >= 0.0;
  }

  /** Five rules, evenly 49 units apart, each at a whole number of cents and a whole count. */
  lemma {:induction false} RulesAreWholeAndEven(buckets: seq<Bucket>, i: nat)
    requires i <= RULES
    ensures var tick := LineChart(buckets).ticks[i];
            && |LineChart(buckets).ticks| == RULES + 1
            && tick.cents == (MoneyCeiling(buckets) / RULES * i) as real
            && tick.count == (CountCeiling(Busiest(buckets)) / RULES * i) as real
            && tick.y == BOTTOM - 49.0 * i as real
  {
    hide MoneyCeiling, CountCeiling, Highest, Busiest, Round, YOf, XOf;
    var ceiling, countCeiling := MoneyCeiling(buckets), CountCeiling(Busiest(buckets));
    MoneyCeilingClears(buckets);
    CountCeilingIsTheFirstMultiple(Busiest(buckets), 1);
    Quarter(ceiling, i);
    Quarter(countCeiling, i);
    RoundFixesWholes(BOTTOM - 49.0 * i as real, 208 - 49 * i);
    assert BOTTOM - (i as real / 4.0) * (BOTTOM - TOP) == BOTTOM - 49.0 * i as real;
  }

  lemma {:induction false} Quarter(ceiling: int, i: nat)
    requires ceiling > 0 && ceiling % RULES == 0 && i <= RULES
    ensures ceiling as real / RULES as real * i as real == (ceiling / RULES * i) as real
    ensures (ceiling as real / RULES as real * i as real) / ceiling as real == i as real / 4.0
  {
    var q := ceiling / RULES;
    assert ceiling == q * RULES;
    assert ceiling as real / RULES as real == q as real;
    assert ((q as real) * i as real) / ceiling as real == i as real / 4.0;
  }

  // ---------------------------------------------------------------- labels

  function Labelled(n: int): set<int> {
    set i | 0 <= i < n && ShowLabel(i, n)
  }

  lemma {:induction false} SubsetIsNoLarger(a: set<int>, b: set<int>)
    requires a <= b
    ensures |a| <= |b|
  {
    assert b == a + (b - a) && a * (b - a) == {};
  }

  function Slots(n: int, every: int): set<int> {
    {n - 1, n - 1 - every, n - 1 - 2 * every, n - 1 - 3 * every,
     n - 1 - 4 * every, n - 1 - 5 * every, n - 1 - 6 * every, n - 1 - 7 * every}
  }

  lemma {:induction false} EightSlots(n: int, every: int)
    ensures |Slots(n, every)| <= LABELS
  {
  }

  lemma {:induction false} SlotOf(n: int, every: int, q: int)
    requires 0 <= q < LABELS
    ensures n - 1 - q * every in Slots(n, every)
  {
    assert q == 0 || q == 1 || q == 2 || q == 3 || q == 4 || q == 5 || q == 6 || q == 7;
  }

  lemma {:induction false} QuotientIsSmall(d: int, every: int)
    requires every > 0 && 0 <= d < LABELS * every && d % every == 0
    ensures 0 <= d / every < LABELS && d == d / every * every
  {
    var q := d / every;
    assert q * every <= d < (LABELS - 1) * every + every;
    assert (LABELS - q) * every > 0;
  }

  lemma {:induction false} EightIntervalsCover(n: int)
    requires n > 0
    ensures LabelEvery(n) > 0 && n <= LABELS * LabelEvery(n)
  {
  }

  /** The newest column always carries its label, and at most eight do, however many there are. */
  lemma {:induction false} NewestIsLabelledAndAtMostEight(n: int)
    requires n > 0
    ensures n - 1 in Labelled(n) && |Labelled(n)| <= LABELS
  {
    hide LabelEvery, Slots;
    var every := LabelEvery(n);
    EightIntervalsCover(n);
    EightSlots(n, every);
    forall i | i in Labelled(n)
      ensures i in Slots(n, every)
    {
      QuotientIsSmall(n - 1 - i, every);
      SlotOf(n, every, (n - 1 - i) / every);
    }
    SubsetIsNoLarger(Labelled(n), Slots(n, every));
  }

  /** Labels are as close together as eight of them allow. */
  lemma {:induction false} LabelsAreAsCloseAsFits(n: int, every: int)
    requires n > 0
    ensures 1 <= LabelEvery(n) && n <= 8 * LabelEvery(n)
    ensures 1 <= every && n <= 8 * every ==> LabelEvery(n) <= every
  {
  }

  lemma {:induction false} Times(a: int, b: int, every: int)
    requires a <= b && every >= 0
    ensures a * every <= b * every
  {
    assert (b - a) * every >= 0;
  }

  /** Whether `d` and `e` are marked on the same ruler, and how far apart two marks are. */
  lemma {:induction false} OnTheRuler(d: int, e: int, every: int)
    requires every > 0
    ensures e == d + every ==> e % every == d % every
    ensures d < e && d % every == 0 && e % every == 0 ==> d + every <= e
  {
    var (p, q) := (d / every, e / every);
    assert d == p * every + d % every && e == q * every + e % every;
    if q <= p {
      Times(q, p, every);
    } else {
      Times(p + 1, q, every);
      if p + 2 <= q {
        Times(p + 2, q, every);
      }
    }
  }

  /** In the chart: the newest column is labelled, and so is every one a whole number of gaps before it, and no other. */
  lemma {:induction false} ChartLabels(buckets: seq<Bucket>, i: nat, j: nat)
    requires i < j < |buckets|
    ensures var (columns, every) := (LineChart(buckets).columns, LabelEvery(|buckets|));
            && columns[|buckets| - 1].showLabel
            && (columns[i].showLabel && columns[j].showLabel ==> j - i >= every)
            && (i == j - every ==> columns[i].showLabel == columns[j].showLabel)
  {
    hide MoneyCeiling, CountCeiling, Busiest, Highest, YOf, XOf, LabelEvery, Round;
    var (n, every) := (|buckets|, LabelEvery(|buckets|));
    EightIntervalsCover(n);
    OnTheRuler(n - 1 - j, n - 1 - i, every);
  }
}
