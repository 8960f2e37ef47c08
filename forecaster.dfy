/** The hour-of-day forecaster: per-hour means of past observations, and a
    24-hour forecast built from them (or from a fixed synthetic pattern
    before any training). */
module Forecaster {
  import opened CArith

  /** One hourly observation: hour of day (0-23), day of week (0 = Sunday),
      outdoor temperature, solar production and energy price. */
  datatype HistoricalDataPoint = HistoricalDataPoint(
    hour: int,
    dayOfWeek: int,
    outdoorTemp: real,
    solarProduction: real,
    energyCost: real)

  datatype HourlyForecast = HourlyForecast(
    hour: int,
    predictedEnergyCost: real,
    predictedSolarProduction: real,
    predictedOutdoorTemp: real,
    confidenceScore: real)

  /** The means learnt for one hour of the day. */
  datatype HourlyStats = HourlyStats(avgCost: real, avgSolar: real, avgTemp: real)

  function Sum(v: seq<real>): real {
    if v == [] then 0.0 else Sum(v[..|v| - 1]) + v[|v| - 1]
  }

  /** The arithmetic mean, 0 for no values. */
  function Mean(v: seq<real>): real {
    if v == [] then 0.0 else Sum(v) / (|v| as real)
  }

  lemma {:induction false} SumBounds(v: seq<real>, lo: real, hi: real)
    requires forall i :: 0 <= i < |v| ==> lo <= v[i] <= hi
    ensures (|v| as real) * lo <= Sum(v) <= (|v| as real) * hi
  {
    if v != [] {
      SumBounds(v[..|v| - 1], lo, hi);
    }
  }

  /** A mean lies within the range of the values it summarises. */
  lemma MeanBounds(v: seq<real>, lo: real, hi: real)
    requires v != []
    requires forall i :: 0 <= i < |v| ==> lo <= v[i] <= hi
    ensures lo <= Mean(v) <= hi
  {
    SumBounds(v, lo, hi);
    var n := |v| as real;
    assert lo * n <= Sum(v) <= hi * n;
    assert lo == (lo * n) / n && hi == (hi * n) / n;
  }

  /** average(values): sum over length, 0.0 for an empty vector. */
  method Average(values: seq<real>) returns (r: real)
    ensures values == [] ==> r == 0.0
    ensures values != [] ==> r * (|values| as real) == Sum(values)
    ensures r == Mean(values)
  {
    if values == [] {
      return 0.0;
    }
    var sum := 0.0;
    var i := 0;
    while i < |values|
      invariant 0 <= i <= |values|
      invariant sum == Sum(values[..i])
    {
      assert values[..i + 1][..i] == values[..i];
      sum := sum + values[i];
      i := i + 1;
    }
    assert values[..i] == values;
    r := sum / (|values| as real);
  }

  function CostOf(p: HistoricalDataPoint): real { p.energyCost }
  function SolarOf(p: HistoricalDataPoint): real { p.solarProduction }
  function TempOf(p: HistoricalDataPoint): real { p.outdoorTemp }

  /** The values of one field over the points of `data` observed at hour
      `h`, in order. */
  function Column(data: seq<HistoricalDataPoint>, h: int, f: HistoricalDataPoint -> real): (r: seq<real>)
    ensures |r| <= |data|
    ensures forall x :: x in r ==> exists p :: p in data && p.hour == h && x == f(p)
  {
    if data == [] then []
    else
      var last := data[|data| - 1];
      Column(data[..|data| - 1], h, f) + (if last.hour == h then [f(last)] else [])
  }

  lemma {:induction false} ColumnLength(data: seq<HistoricalDataPoint>, h: int, f: HistoricalDataPoint -> real, g: HistoricalDataPoint -> real)
    ensures |Column(data, h, f)| == |Column(data, h, g)|
  {
    if data != [] {
      ColumnLength(data[..|data| - 1], h, f, g);
    }
  }

  /** The inner loop of training: the prices, solar readings and
      temperatures of the observations taken at `hour`, in order. */
  method CollectHour(data: seq<HistoricalDataPoint>, hour: int) returns (costs: seq<real>, solar: seq<real>, temps: seq<real>)
    ensures costs == Column(data, hour, CostOf)
    ensures solar == Column(data, hour, SolarOf)
    ensures temps == Column(data, hour, TempOf)
  {
    costs, solar, temps := [], [], [];
    var j := 0;
    while j < |data|
      invariant 0 <= j <= |data|
      invariant costs == Column(data[..j], hour, CostOf)
      invariant solar == Column(data[..j], hour, SolarOf)
      invariant temps == Column(data[..j], hour, TempOf)
    {
      assert data[..j + 1][..j] == data[..j];
      if data[j].hour == hour {
        costs := costs + [data[j].energyCost];
        solar := solar + [data[j].solarProduction];
        temps := temps + [data[j].outdoorTemp];
      }
      j := j + 1;
    }
    assert data[..j] == data;
  }

  /** True when some observation was taken at hour `h`. */
  predicate Observed(data: seq<HistoricalDataPoint>, h: int) {
    Column(data, h, CostOf) != []
  }

  lemma {:induction false} ObservedMeansPresent(data: seq<HistoricalDataPoint>, h: int)
    ensures Observed(data, h) <==> exists p :: p in data && p.hour == h
  {
    if data != [] {
      ObservedMeansPresent(data[..|data| - 1], h);
      var last := data[|data| - 1];
      assert data == data[..|data| - 1] + [last];
      if last.hour != h {
        forall p | p in data && p.hour == h ensures p in data[..|data| - 1] { }
      }
    }
  }

  /** The bucket that training computes for hour `h`. */
  function Bucket(data: seq<HistoricalDataPoint>, h: int): HourlyStats {
    HourlyStats(Mean(Column(data, h, CostOf)), Mean(Column(data, h, SolarOf)), Mean(Column(data, h, TempOf)))
  }

  /** True when a training run that has processed hours 0 .. n-1
      refreshed the bucket of hour `h`. */
  predicate Refreshed(data: seq<HistoricalDataPoint>, h: int, n: int) {
    0 <= h < n && Observed(data, h)
  }

  /** The bucket table after processing hours 0 .. n-1 of a training run:
      an hour with observations gets the means of its observations, every
      other entry is kept as it was (the table is never cleared). */
  function RetrainHours(stats: map<int, HourlyStats>, data: seq<HistoricalDataPoint>, n: nat): (r: map<int, HourlyStats>)
    ensures forall h :: Refreshed(data, h, n) ==> h in r && r[h] == Bucket(data, h)
    ensures forall h :: !Refreshed(data, h, n) ==> (h in r <==> h in stats)
    ensures forall h :: !Refreshed(data, h, n) && h in stats ==> r[h] == stats[h]
  {
    if n == 0 then stats
    else
      var s := RetrainHours(stats, data, n - 1);
      assert forall h :: h != n - 1 ==> (Refreshed(data, h, n) <==> Refreshed(data, h, n - 1));
      if Observed(data, n - 1) then s[n - 1 := Bucket(data, n - 1)] else s
  }

  /** The table a full training run leaves behind. */
  function Retrain(stats: map<int, HourlyStats>, data: seq<HistoricalDataPoint>): map<int, HourlyStats> {
    RetrainHours(stats, data, 24)
  }

  /** A bucket whose hour does not occur in the new data survives a
      training run unchanged. */
  lemma RetrainKeepsUnobserved(stats: map<int, HourlyStats>, data: seq<HistoricalDataPoint>, h: int)
    requires h in stats && forall p :: p in data ==> p.hour != h
    ensures h in Retrain(stats, data) && Retrain(stats, data)[h] == stats[h]
  {
    ObservedMeansPresent(data, h);
  }

  /** The step-`i` hour of a forecast starting at `currentHour`. */
  function StepHour(currentHour: int, i: int): int {
    CRem(currentHour + i, 24)
  }

  /** The day used at step `i`: the next day once the step crosses
      midnight. */
  function StepDay(currentHour: int, currentDayOfWeek: int, i: int): int {
    if currentHour + i >= 24 then CRem(currentDayOfWeek + 1, 7) else currentDayOfWeek
  }

  /** Weekdays (Monday to Friday) cost 10% more, weekends 10% less. */
  function WeekdayFactor(dayOfWeek: int): real {
    if 1 <= dayOfWeek <= 5 then 1.1 else 0.9
  }

  /** For a start hour within the day, the 24 forecast hours are exactly
      the 24 hours of the day, each once. */
  lemma ForecastHoursPermute(currentHour: int)
    requires 0 <= currentHour < 24
    ensures forall i, j :: 0 <= i < j < 24 ==> StepHour(currentHour, i) != StepHour(currentHour, j)
    ensures forall h :: 0 <= h < 24 ==> 0 <= StepOf(currentHour, h) < 24 && StepHour(currentHour, StepOf(currentHour, h)) == h
  {
  }

  /** The step at which a forecast starting at `currentHour` reaches hour `h`. */
  function StepOf(currentHour: int, h: int): int {
    if h >= currentHour then h - currentHour else h + 24 - currentHour
  }

  /** The forecast for an hour after training: the learnt bucket scaled by
      the weekday factor, or fixed fallbacks for an hour never observed. */
  function TrainedForecast(stats: map<int, HourlyStats>, hour: int, dayOfWeek: int): HourlyForecast {
    if hour in stats then
      HourlyForecast(hour, stats[hour].avgCost * WeekdayFactor(dayOfWeek), stats[hour].avgSolar, stats[hour].avgTemp, 0.75)
    else
      HourlyForecast(hour, 0.12, if 6 <= hour <= 18 then 3.0 else 0.0, 20.0, 0.5)
  }

  /** The synthetic forecast for an hour before any training. */
  function DefaultForecast(sine: real -> real, hour: int): HourlyForecast {
    var wave := sine((hour - 6) as real * 3.14159 / 12.0);
    HourlyForecast(
      hour,
      if 8 <= hour <= 20 then 0.15 + 0.03 * (CRem(hour, 4) as real) else 0.08,
      if 6 <= hour <= 18 then 5.0 * wave else 0.0,
      15.0 + 8.0 * wave,
      0.6)
  }

  class MLPredictor {
    /** The sine function of the C library, left uninterpreted. */
    const sine: real -> real
    var trained: bool
    var hourlyStats: map<int, HourlyStats>
    var historicalData: seq<HistoricalDataPoint>

    constructor (sine: real -> real)
      ensures this.sine == sine && !trained && hourlyStats == map[] && historicalData == []
    {
      this.sine := sine;
      trained := false;
      hourlyStats := map[];
      historicalData := [];
    }

    /** isTrained: the trained flag. */
    predicate IsTrained(): (r: bool)
      reads this
      ensures r <==> trained
    {
      trained
    }

    /** train(data): keeps the data, marks the model trained (also for no
        data) and refreshes the bucket of every observed hour. */
    method Train(data: seq<HistoricalDataPoint>)
      modifies this
      ensures trained && historicalData == data
      ensures hourlyStats == Retrain(old(hourlyStats), data)
    {
      historicalData := data;
      trained := true;
      ghost var initial := hourlyStats;
      var hour := 0;
      while hour < 24
        invariant 0 <= hour <= 24
        invariant trained && historicalData == data
        invariant hourlyStats == RetrainHours(initial, data, hour)
      {
        var costs, solar, temps := CollectHour(data, hour);
        ghost var next := RetrainHours(initial, data, hour + 1);
        assert next == if Observed(data, hour) then hourlyStats[hour := Bucket(data, hour)] else hourlyStats;
        if costs != [] {
          var avgCost := Average(costs);
          var avgSolar := Average(solar);
          var avgTemp := Average(temps);
          assert HourlyStats(avgCost, avgSolar, avgTemp) == Bucket(data, hour);
          hourlyStats := hourlyStats[hour := HourlyStats(avgCost, avgSolar, avgTemp)];
        }
        assert hourlyStats == next;
        hour := hour + 1;
      }
    }

    /** generateDefaultForecasts(currentHour): 24 synthetic hours from the
        start hour on. */
    method GenerateDefaultForecasts(currentHour: int) returns (r: seq<HourlyForecast>)
      ensures |r| == 24
      ensures forall i :: 0 <= i < 24 ==> r[i].hour == StepHour(currentHour, i)
      ensures forall i :: 0 <= i < 24 ==> r[i].confidenceScore == 0.6
      ensures forall i :: 0 <= i < 24 && 8 <= r[i].hour <= 20 ==>
                r[i].predictedEnergyCost == 0.15 + 0.03 * ((r[i].hour % 4) as real)
      ensures forall i :: 0 <= i < 24 && !(8 <= r[i].hour <= 20) ==> r[i].predictedEnergyCost == 0.08
      ensures forall i :: 0 <= i < 24 && !(6 <= r[i].hour <= 18) ==> r[i].predictedSolarProduction == 0.0
      ensures forall i :: 0 <= i < 24 ==> r[i] == DefaultForecast(sine, StepHour(currentHour, i))
    {
      r := [];
      var i := 0;
      while i < 24
        invariant 0 <= i <= 24 && |r| == i
        invariant forall k :: 0 <= k < i ==> r[k] == DefaultForecast(sine, StepHour(currentHour, k))
      {
        var hour := CRem(currentHour + i, 24);
        r := r + [DefaultForecast(sine, hour)];
        i := i + 1;
      }
    }

    /** The forecast predictNext24Hours returns in the current state. */
    function Forecasts(currentHour: int, currentDayOfWeek: int): seq<HourlyForecast>
      reads this
    {
      var trained, hourlyStats, sine := trained, hourlyStats, sine;
      seq(24, i =>
        if trained then TrainedForecast(hourlyStats, StepHour(currentHour, i), StepDay(currentHour, currentDayOfWeek, i))
        else DefaultForecast(sine, StepHour(currentHour, i)))
    }

    /** predictNext24Hours(currentHour, currentDayOfWeek). */
    method PredictNext24Hours(currentHour: int, currentDayOfWeek: int) returns (r: seq<HourlyForecast>)
      ensures r == Forecasts(currentHour, currentDayOfWeek)
      ensures |r| == 24
      ensures forall i :: 0 <= i < 24 ==> r[i].hour == StepHour(currentHour, i)
      ensures !trained ==> forall i :: 0 <= i < 24 ==> r[i] == DefaultForecast(sine, r[i].hour)
      ensures trained ==> forall i :: 0 <= i < 24 && r[i].hour in hourlyStats ==>
                && r[i].predictedEnergyCost == hourlyStats[r[i].hour].avgCost * WeekdayFactor(StepDay(currentHour, currentDayOfWeek, i))
                && r[i].predictedSolarProduction == hourlyStats[r[i].hour].avgSolar
                && r[i].predictedOutdoorTemp == hourlyStats[r[i].hour].avgTemp
                && r[i].confidenceScore == 0.75
      ensures trained ==> forall i :: 0 <= i < 24 && r[i].hour !in hourlyStats ==>
                && r[i].predictedEnergyCost == 0.12
                && r[i].predictedSolarProduction == (if 6 <= r[i].hour <= 18 then 3.0 else 0.0)
                && r[i].predictedOutdoorTemp == 20.0
                && r[i].confidenceScore == 0.5
    {
      if !trained {
        r := GenerateDefaultForecasts(currentHour);
        assert forall k :: 0 <= k < 24 ==> r[k] == Forecasts(currentHour, currentDayOfWeek)[k];
        return;
      }
      r := [];
      var i := 0;
      while i < 24
        invariant 0 <= i <= 24 && |r| == i
        invariant forall k :: 0 <= k < i ==>
                    r[k] == TrainedForecast(hourlyStats, StepHour(currentHour, k), StepDay(currentHour, currentDayOfWeek, k))
      {
        var hour := CRem(currentHour + i, 24);
        var dayOfWeek := currentDayOfWeek;
        if currentHour + i >= 24 {
          dayOfWeek := CRem(dayOfWeek + 1, 7);
        }
        r := r + [TrainedForecast(hourlyStats, hour, dayOfWeek)];
        i := i + 1;
      }
    }
  }
}
