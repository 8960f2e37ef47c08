/** The deferrable-load controller: appliances that may be switched off
    while energy is expensive and switched back on afterwards, busy-hour
    analysis of past prices and per-hour recommendations for the day
    ahead. */
module Deferrable {
  import opened Appliances
  import Text
  import opened Forecaster

  /** The outcome of analysing past prices: hours whose mean price is above
      the busy threshold, the other observed hours, and the mean of the
      hourly means of each group. */
  datatype BusyHourAnalysis = BusyHourAnalysis(
    busyHours: seq<int>,
    optimalHours: seq<int>,
    averagePeakPrice: real,
    averageOffPeakPrice: real)

  /** A recommendation for one load in one hour; the price is the forecast
      price of that hour. */
  datatype Recommendation =
    | SwitchOff(name: string, price: real)
    | CanOperate(name: string, price: real)

  /** What switching off does to one load: a load that is on is turned
      off; a load that is off is left alone. */
  function SwitchOffRule(s: Snapshot): Snapshot {
    if s.on then TurnedOff(s) else s
  }

  /** What resuming does to one load: a load remembered as switched off by
      the controller (`flag`) that is off now is turned on. */
  function ResumeRule(flag: bool, s: Snapshot): Snapshot {
    if flag && !s.on then TurnedOn(s) else s
  }

  /** A load visited twice (registered twice) ends as if visited once;
      with the flags kept this is also why a second control call with the
      same price changes nothing (ControlLoadsByPriceTwice). */
  lemma SwitchOffRuleIdempotent(s: Snapshot)
    ensures SwitchOffRule(SwitchOffRule(s)) == SwitchOffRule(s)
  {
  }

  lemma ResumeRuleIdempotent(flag: bool, s: Snapshot)
    ensures ResumeRule(flag, ResumeRule(flag, s)) == ResumeRule(flag, s)
  {
  }

  /** The remembered flag of a load: absent keys read as false (and are
      inserted as false by the lookup). */
  function Flag(previousStates: map<string, bool>, id: string): bool {
    id in previousStates && previousStates[id]
  }

  /** The mean price of the observations taken at hour `h`. */
  function HourMean(data: seq<HistoricalDataPoint>, h: int): real {
    Mean(Column(data, h, CostOf))
  }

  /** The hours 0 .. n-1 that satisfy `g`, ascending. */
  function HoursWhere(n: nat, g: int -> bool): seq<int> {
    if n == 0 then []
    else
      var prev := HoursWhere(n - 1, g);
      if g(n - 1) then prev + [n - 1] else prev
  }

  /** The selected hours lie in 0 .. n-1, ascend strictly, and are exactly
      the hours satisfying `g`. */
  lemma {:induction false} HoursWhereSelects(n: nat, g: int -> bool)
    ensures var r := HoursWhere(n, g);
            && (forall i :: 0 <= i < |r| ==> 0 <= r[i] < n)
            && (forall i, j :: 0 <= i < j < |r| ==> r[i] < r[j])
            && (forall h :: h in r <==> 0 <= h < n && g(h))
  {
    if n > 0 {
      HoursWhereSelects(n - 1, g);
    }
  }

  /** Hour `h` has observations and its mean price is above the threshold
      (`busy`) or not above it (`!busy`). */
  predicate InGroup(data: seq<HistoricalDataPoint>, threshold: real, h: int, busy: bool) {
    Observed(data, h) && (HourMean(data, h) > threshold) == busy
  }

  /** The hours below `n` that have observations and whose mean price is
      above the threshold (`busy`) or not above it (`!busy`), ascending. */
  function Classified(data: seq<HistoricalDataPoint>, threshold: real, n: nat, busy: bool): seq<int> {
    HoursWhere(n, h => InGroup(data, threshold, h, busy))
  }

  /** The classified hours lie in 0 .. n-1, ascend strictly, and are exactly
      the observed hours on the requested side of the threshold. */
  lemma ClassifiedHours(data: seq<HistoricalDataPoint>, threshold: real, n: nat, busy: bool)
    ensures var r := Classified(data, threshold, n, busy);
            && (forall i :: 0 <= i < |r| ==> 0 <= r[i] < n)
            && (forall i, j :: 0 <= i < j < |r| ==> r[i] < r[j])
            && (forall h :: h in r <==> 0 <= h < n && InGroup(data, threshold, h, busy))
  {
    HoursWhereSelects(n, h => InGroup(data, threshold, h, busy));
  }

  lemma ClassifiedStep(data: seq<HistoricalDataPoint>, threshold: real, n: nat, busy: bool)
    ensures Classified(data, threshold, n + 1, busy) ==
            if InGroup(data, threshold, n, busy) then Classified(data, threshold, n, busy) + [n]
            else Classified(data, threshold, n, busy)
  {
  }

  /** The hourly mean prices of the given hours. */
  function HourMeans(data: seq<HistoricalDataPoint>, hours: seq<int>): seq<real> {
    seq(|hours|, i requires 0 <= i < |hours| => HourMean(data, hours[i]))
  }

  /** Every observed hour of the day is classified exactly once: busy or
      optimal, never both. */
  lemma AnalysisPartitionsHours(data: seq<HistoricalDataPoint>, threshold: real, h: int)
    requires 0 <= h < 24
    ensures (exists p :: p in data && p.hour == h) <==>
              (h in Classified(data, threshold, 24, true) || h in Classified(data, threshold, 24, false))
    ensures !(h in Classified(data, threshold, 24, true) && h in Classified(data, threshold, 24, false))
  {
    ObservedMeansPresent(data, h);
    ClassifiedHours(data, threshold, 24, true);
    ClassifiedHours(data, threshold, 24, false);
  }

  /** The recommendations for one hour: one per load, in registration
      order, all "switch off" in a busy hour and all "can operate"
      otherwise. */
  function HourRecommendations(names: seq<string>, busy: bool, price: real): (r: seq<Recommendation>)
    ensures |r| == |names|
    ensures forall j :: 0 <= j < |r| ==> r[j].name == names[j] && r[j].price == price && (r[j].SwitchOff? <==> busy)
  {
    seq(|names|, j requires 0 <= j < |names| => if busy then SwitchOff(names[j], price) else CanOperate(names[j], price))
  }

  /** The hours of the forecasts priced above the threshold, in forecast
      order. */
  function BusyForecastHours(forecasts: seq<HourlyForecast>, threshold: real): (r: seq<int>)
    ensures forall h :: h in r <==> exists i :: 0 <= i < |forecasts| && forecasts[i].hour == h && forecasts[i].predictedEnergyCost > threshold
  {
    if forecasts == [] then []
    else
      var f := forecasts[|forecasts| - 1];
      var prev := BusyForecastHours(forecasts[..|forecasts| - 1], threshold);
      assert forall i :: 0 <= i < |forecasts| - 1 ==> forecasts[..|forecasts| - 1][i] == forecasts[i];
      if f.predictedEnergyCost > threshold then prev + [f.hour] else prev
  }

  /** The recommendation table for `forecasts`, filled in forecast order
      (a later forecast for the same hour replaces an earlier one); hours
      get an entry only when there is at least one load. */
  function Recommendations(forecasts: seq<HourlyForecast>, busyHours: seq<int>, names: seq<string>): (r: map<int, seq<Recommendation>>)
    ensures names == [] ==> r == map[]
    ensures forall h :: h in r ==> |r[h]| == |names|
  {
    if forecasts == [] then map[]
    else
      var n := |forecasts| - 1;
      var prev := Recommendations(forecasts[..n], busyHours, names);
      var f := forecasts[n];
      var recs := HourRecommendations(names, f.hour in busyHours, f.predictedEnergyCost);
      if recs != [] then prev[f.hour := recs] else prev
  }

  /** With at least one load, every forecast hour gets an entry and no
      other hour does; each entry holds one recommendation per load (in
      registration order, "switch off" exactly for the busy hours), priced
      at one of the forecasts for that hour. */
  lemma {:induction false} RecommendationsShape(forecasts: seq<HourlyForecast>, busyHours: seq<int>, names: seq<string>)
    ensures var r := Recommendations(forecasts, busyHours, names);
            && (names != [] ==> forall h :: h in r <==> exists i :: 0 <= i < |forecasts| && forecasts[i].hour == h)
            && (forall h :: h in r ==> forall j :: 0 <= j < |names| ==> r[h][j].name == names[j] && (r[h][j].SwitchOff? <==> h in busyHours))
            && (forall h :: h in r ==> forall j :: 0 <= j < |names| ==>
                  exists i :: 0 <= i < |forecasts| && forecasts[i].hour == h && r[h][j].price == forecasts[i].predictedEnergyCost)
  {
    if forecasts != [] {
      var n := |forecasts| - 1;
      RecommendationsShape(forecasts[..n], busyHours, names);
      assert forall i :: 0 <= i < n ==> forecasts[..n][i] == forecasts[i];
    }
  }

  /** An hour is recommended "switch off" exactly when some forecast for
      that hour is priced above the busy threshold. */
  lemma BusyRecommendationsFollowPrice(forecasts: seq<HourlyForecast>, threshold: real, names: seq<string>, h: int, j: int)
    requires h in Recommendations(forecasts, BusyForecastHours(forecasts, threshold), names)
    requires 0 <= j < |names|
    ensures Recommendations(forecasts, BusyForecastHours(forecasts, threshold), names)[h][j].SwitchOff?
            <==> exists i :: 0 <= i < |forecasts| && forecasts[i].hour == h && forecasts[i].predictedEnergyCost > threshold
  {
    RecommendationsShape(forecasts, BusyForecastHours(forecasts, threshold), names);
  }

  class DeferrableLoadController {
    const predictor: MLPredictor
    var deferrableLoads: seq<Appliance>
    var previousStates: map<string, bool>
    var priceThreshold: real
    var busyHourThreshold: real

    /** A new controller: no loads, nothing remembered, price threshold
        0.15 and busy-hour threshold 0.13 per kWh. */
    constructor (predictor: MLPredictor)
      ensures this.predictor == predictor
      ensures deferrableLoads == [] && previousStates == map[]
      ensures priceThreshold == 0.15 && busyHourThreshold == 0.13
    {
      this.predictor := predictor;
      deferrableLoads := [];
      previousStates := map[];
      priceThreshold := 0.15;
      busyHourThreshold := 0.13;
    }

    method SetPriceThreshold(threshold: real)
      modifies this
      ensures priceThreshold == threshold && busyHourThreshold == old(busyHourThreshold)
      ensures deferrableLoads == old(deferrableLoads) && previousStates == old(previousStates)
    {
      priceThreshold := threshold;
    }

    method SetBusyHourThreshold(threshold: real)
      modifies this
      ensures busyHourThreshold == threshold && priceThreshold == old(priceThreshold)
      ensures deferrableLoads == old(deferrableLoads) && previousStates == old(previousStates)
    {
      busyHourThreshold := threshold;
    }

    /** addDeferrableLoad: only a present, deferrable appliance is added. */
    method AddDeferrableLoad(appliance: Appliance?)
      modifies this
      ensures appliance != null && appliance.deferrable ==> deferrableLoads == old(deferrableLoads) + [appliance]
      ensures !(appliance != null && appliance.deferrable) ==> deferrableLoads == old(deferrableLoads)
      ensures previousStates == old(previousStates)
      ensures priceThreshold == old(priceThreshold) && busyHourThreshold == old(busyHourThreshold)
    {
      if appliance != null && appliance.deferrable {
        deferrableLoads := deferrableLoads + [appliance];
      }
    }

    method GetDeferrableLoads() returns (r: seq<Appliance>)
      ensures r == deferrableLoads
    {
      r := deferrableLoads;
    }

    /** isHighPriceHour: strictly above the price threshold. */
    predicate IsHighPriceHour(price: real): (high: bool)
      reads this
      ensures high <==> price > priceThreshold
    {
      price > priceThreshold
    }

    /** switchOffAllDeferrableLoads: every load that is on is remembered
        (by id) as switched off by the controller and sent turnOff (which a
        disabled curtain ignores); loads that are off, and the flags of
        other ids, are left alone. */
    method SwitchOffAllDeferrableLoads()
      modifies this, deferrableLoads
      ensures deferrableLoads == old(deferrableLoads)
      ensures forall j :: 0 <= j < |deferrableLoads| ==>
                deferrableLoads[j].State() == SwitchOffRule(old(deferrableLoads[j].State()))
      ensures forall id :: id in previousStates <==> id in old(previousStates) || old(WasOn(deferrableLoads, id))
      ensures forall id :: Flag(previousStates, id) <==> Flag(old(previousStates), id) || old(WasOn(deferrableLoads, id))
      ensures priceThreshold == old(priceThreshold) && busyHourThreshold == old(busyHourThreshold)
    {
      var loads := deferrableLoads;
      ghost var before := seq(|loads|, j requires 0 <= j < |loads| reads loads => loads[j].State());
      ghost var flags := previousStates;
      var i := 0;
      while i < |loads|
        invariant 0 <= i <= |loads| && deferrableLoads == loads
        invariant priceThreshold == old(priceThreshold) && busyHourThreshold == old(busyHourThreshold)
        invariant forall j :: 0 <= j < |loads| ==> before[j] == old(loads[j].State())
        invariant forall j :: 0 <= j < |loads| ==>
                    loads[j].State() == if loads[j] in loads[..i] then SwitchOffRule(before[j]) else before[j]
        invariant forall id :: id in previousStates <==> id in flags || OnAmong(loads, before, i, id)
        invariant forall id :: Flag(previousStates, id) <==> Flag(flags, id) || OnAmong(loads, before, i, id)
      {
        SwitchOffAt(loads, before, flags, i);
        i := i + 1;
      }
      forall id ensures OnAmong(loads, before, |loads|, id) <==> old(WasOn(deferrableLoads, id)) {
        if old(WasOn(deferrableLoads, id)) {
          var j :| 0 <= j < |loads| && loads[j].id == id && old(loads[j].on);
          assert before[j].on;
        }
      }
    }

    /** Round `i` of the switch-off loop keeps the loop's account of the
        loads and the flags: one more load has been visited. */
    method SwitchOffAt(loads: seq<Appliance>, ghost before: seq<Snapshot>, ghost flags: map<string, bool>, i: nat)
      requires i < |loads| == |before| && deferrableLoads == loads
      requires forall j, k :: 0 <= j < |loads| && 0 <= k < |loads| && loads[j] == loads[k] ==> before[j] == before[k]
      requires forall j :: 0 <= j < |loads| ==>
                 loads[j].State() == if loads[j] in loads[..i] then SwitchOffRule(before[j]) else before[j]
      requires forall id :: id in previousStates <==> id in flags || OnAmong(loads, before, i, id)
      requires forall id :: Flag(previousStates, id) <==> Flag(flags, id) || OnAmong(loads, before, i, id)
      modifies this, loads[i]
      ensures deferrableLoads == loads
      ensures priceThreshold == old(priceThreshold) && busyHourThreshold == old(busyHourThreshold)
      ensures forall j :: 0 <= j < |loads| ==>
                loads[j].State() == if loads[j] in loads[..i + 1] then SwitchOffRule(before[j]) else before[j]
      ensures forall id :: id in previousStates <==> id in flags || OnAmong(loads, before, i + 1, id)
      ensures forall id :: Flag(previousStates, id) <==> Flag(flags, id) || OnAmong(loads, before, i + 1, id)
    {
      var load := loads[i];
      ghost var seen := load in loads[..i];
      ghost var k := FirstIndex(loads[..i], load);
      if seen {
        assert loads[k] == load && before[k] == before[i];
      }
      ghost var ps, wasOn := previousStates, load.on;
      assert wasOn ==> before[i].on;
      assert before[i].on && !wasOn ==> OnAmong(loads, before, i, load.id);
      SwitchOffOne(load);
      forall id
        ensures id in previousStates <==> id in flags || OnAmong(loads, before, i + 1, id)
        ensures Flag(previousStates, id) <==> Flag(flags, id) || OnAmong(loads, before, i + 1, id)
      {
        OnAmongStep(loads, before, i, id);
      }
      Text.TakeSnoc(loads, i);
      forall j | 0 <= j < |loads|
        ensures loads[j].State() == if loads[j] in loads[..i + 1] then SwitchOffRule(before[j]) else before[j]
      {
        if loads[j] == load {
          SwitchOffRuleIdempotent(before[j]);
        }
      }
    }

    /** One round of the switch-off loop: a load that is on is remembered
        as switched off by the controller and turned off. */
    method SwitchOffOne(load: Appliance)
      modifies this, load
      ensures load.State() == SwitchOffRule(old(load.State()))
      ensures previousStates == if old(load.on) then old(previousStates)[load.id := true] else old(previousStates)
      ensures deferrableLoads == old(deferrableLoads)
      ensures priceThreshold == old(priceThreshold) && busyHourThreshold == old(busyHourThreshold)
    {
      if load.on {
        previousStates := previousStates[load.id := true];
        load.TurnOff();
      }
    }

    /** resumeDeferrableLoads: a load whose remembered flag is true and that
        is off now is turned on; every other load is left alone. Looking a
        load up inserts a false flag for an id never remembered; flags are
        never reset. */
    method ResumeDeferrableLoads()
      modifies this, deferrableLoads
      ensures deferrableLoads == old(deferrableLoads)
      ensures forall j :: 0 <= j < |deferrableLoads| ==>
                deferrableLoads[j].State() == ResumeRule(Flag(old(previousStates), deferrableLoads[j].id), old(deferrableLoads[j].State()))
      ensures forall id :: id in previousStates <==>
                id in old(previousStates) || exists j :: 0 <= j < |deferrableLoads| && deferrableLoads[j].id == id
      ensures forall id :: id in previousStates ==> previousStates[id] == Flag(old(previousStates), id)
      ensures priceThreshold == old(priceThreshold) && busyHourThreshold == old(busyHourThreshold)
    {
      var loads := deferrableLoads;
      ghost var before := seq(|loads|, j requires 0 <= j < |loads| reads loads => loads[j].State());
      ghost var flags := old(previousStates);
      var i := 0;
      while i < |loads|
        invariant 0 <= i <= |loads| && deferrableLoads == loads
        invariant priceThreshold == old(priceThreshold) && busyHourThreshold == old(busyHourThreshold)
        invariant forall j :: 0 <= j < |loads| ==> before[j] == old(loads[j].State())
        invariant forall j :: 0 <= j < |loads| ==>
                    loads[j].State() == if loads[j] in loads[..i] then ResumeRule(Flag(flags, loads[j].id), before[j]) else before[j]
        invariant forall id :: id in previousStates <==> id in flags || exists j :: 0 <= j < i && loads[j].id == id
        invariant forall id :: id in previousStates ==> previousStates[id] == Flag(flags, id)
      {
        ResumeAt(loads, before, flags, i);
        i := i + 1;
      }
    }

    /** Round `i` of the resume loop keeps the loop's account of the loads
        and the flags: one more load has been visited. */
    method ResumeAt(loads: seq<Appliance>, ghost before: seq<Snapshot>, ghost flags: map<string, bool>, i: nat)
      requires i < |loads| == |before| && deferrableLoads == loads
      requires forall j :: 0 <= j < |loads| ==>
                 loads[j].State() == if loads[j] in loads[..i] then ResumeRule(Flag(flags, loads[j].id), before[j]) else before[j]
      requires forall id :: id in previousStates <==> id in flags || exists j :: 0 <= j < i && loads[j].id == id
      requires forall id :: id in previousStates ==> previousStates[id] == Flag(flags, id)
      modifies this, loads[i]
      ensures deferrableLoads == loads
      ensures priceThreshold == old(priceThreshold) && busyHourThreshold == old(busyHourThreshold)
      ensures forall j :: 0 <= j < |loads| ==>
                loads[j].State() == if loads[j] in loads[..i + 1] then ResumeRule(Flag(flags, loads[j].id), before[j]) else before[j]
      ensures forall id :: id in previousStates <==> id in flags || exists j :: 0 <= j < i + 1 && loads[j].id == id
      ensures forall id :: id in previousStates ==> previousStates[id] == Flag(flags, id)
    {
      var load := loads[i];
      ghost var ps := previousStates;
      assert Flag(ps, load.id) == Flag(flags, load.id);
      ResumeOne(load);
      forall id
        ensures id in previousStates <==> id in flags || exists j :: 0 <= j < i + 1 && loads[j].id == id
        ensures id in previousStates ==> previousStates[id] == Flag(flags, id)
      {
        if id == load.id {
          assert loads[i].id == id;
        }
      }
      Text.TakeSnoc(loads, i);
      forall j | 0 <= j < |loads|
        ensures loads[j].State() == if loads[j] in loads[..i + 1] then ResumeRule(Flag(flags, loads[j].id), before[j]) else before[j]
      {
        if loads[j] == load {
          ResumeRuleIdempotent(Flag(flags, load.id), before[j]);
        }
      }
    }

    /** One round of the resume loop: looking the load up inserts a false
        flag for an id never remembered, and a load remembered as switched
        off that is off now is turned on. */
    method ResumeOne(load: Appliance)
      modifies this, load
      ensures load.State() == ResumeRule(Flag(old(previousStates), load.id), old(load.State()))
      ensures previousStates == if load.id in old(previousStates) then old(previousStates) else old(previousStates)[load.id := false]
      ensures deferrableLoads == old(deferrableLoads)
      ensures priceThreshold == old(priceThreshold) && busyHourThreshold == old(busyHourThreshold)
    {
      if load.id !in previousStates {
        previousStates := previousStates[load.id := false];
      }
      if previousStates[load.id] && !load.on {
        load.TurnOn();
      }
    }

    /** controlLoadsByPrice: switch off above the price threshold, resume
        otherwise. */
    method ControlLoadsByPrice(currentPrice: real)
      modifies this, deferrableLoads
      ensures deferrableLoads == old(deferrableLoads)
      ensures currentPrice > priceThreshold ==> forall j :: 0 <= j < |deferrableLoads| ==>
                deferrableLoads[j].State() == SwitchOffRule(old(deferrableLoads[j].State()))
      ensures currentPrice <= priceThreshold ==> forall j :: 0 <= j < |deferrableLoads| ==>
                deferrableLoads[j].State() == ResumeRule(Flag(old(previousStates), deferrableLoads[j].id), old(deferrableLoads[j].State()))
      ensures currentPrice > priceThreshold ==> forall id ::
                && (id in previousStates <==> id in old(previousStates) || old(WasOn(deferrableLoads, id)))
                && (Flag(previousStates, id) <==> Flag(old(previousStates), id) || old(WasOn(deferrableLoads, id)))
      ensures currentPrice <= priceThreshold ==> forall id ::
                && (id in previousStates <==> id in old(previousStates) || id in LoadIds(deferrableLoads))
                && Flag(previousStates, id) == Flag(old(previousStates), id)
      ensures priceThreshold == old(priceThreshold) && busyHourThreshold == old(busyHourThreshold)
    {
      if IsHighPriceHour(currentPrice) {
        SwitchOffAllDeferrableLoads();
      } else {
        ResumeDeferrableLoads();
        forall id | id in LoadIds(deferrableLoads)
          ensures exists j :: 0 <= j < |deferrableLoads| && deferrableLoads[j].id == id
        {
          var j :| 0 <= j < |deferrableLoads| && LoadIds(deferrableLoads)[j] == id;
        }
      }
    }

    /** Two control calls in a row with the same price end exactly as one
        call: the second call changes no load, no remembered flag and no
        remembered id. */
    method ControlLoadsByPriceTwice(currentPrice: real)
      modifies this, deferrableLoads
      ensures deferrableLoads == old(deferrableLoads)
      ensures currentPrice > priceThreshold ==> forall j :: 0 <= j < |deferrableLoads| ==>
                deferrableLoads[j].State() == SwitchOffRule(old(deferrableLoads[j].State()))
      ensures currentPrice <= priceThreshold ==> forall j :: 0 <= j < |deferrableLoads| ==>
                deferrableLoads[j].State() == ResumeRule(Flag(old(previousStates), deferrableLoads[j].id), old(deferrableLoads[j].State()))
      ensures currentPrice > priceThreshold ==> forall id ::
                && (id in previousStates <==> id in old(previousStates) || old(WasOn(deferrableLoads, id)))
                && (Flag(previousStates, id) <==> Flag(old(previousStates), id) || old(WasOn(deferrableLoads, id)))
      ensures currentPrice <= priceThreshold ==> forall id ::
                && (id in previousStates <==> id in old(previousStates) || id in LoadIds(deferrableLoads))
                && Flag(previousStates, id) == Flag(old(previousStates), id)
      ensures priceThreshold == old(priceThreshold) && busyHourThreshold == old(busyHourThreshold)
    {
      ControlLoadsByPrice(currentPrice);
      if currentPrice > priceThreshold {
        forall id | WasOn(deferrableLoads, id) ensures old(WasOn(deferrableLoads, id)) {
          var j :| 0 <= j < |deferrableLoads| && deferrableLoads[j].id == id && deferrableLoads[j].on;
          assert deferrableLoads[j].State() == SwitchOffRule(old(deferrableLoads[j].State()));
        }
      }
      ControlLoadsByPrice(currentPrice);
      forall j | 0 <= j < |deferrableLoads|
        ensures currentPrice > priceThreshold ==>
                  deferrableLoads[j].State() == SwitchOffRule(old(deferrableLoads[j].State()))
        ensures currentPrice <= priceThreshold ==>
                  deferrableLoads[j].State()
                  == ResumeRule(Flag(old(previousStates), deferrableLoads[j].id), old(deferrableLoads[j].State()))
      {
        var load := deferrableLoads[j];
        SwitchOffRuleIdempotent(old(load.State()));
        ResumeRuleIdempotent(Flag(old(previousStates), load.id), old(load.State()));
      }
    }

    /** identifyBusyHours: the hours of the forecasts priced above the busy
        threshold, in forecast order. */
    method IdentifyBusyHours(forecasts: seq<HourlyForecast>) returns (busyHours: seq<int>)
      ensures busyHours == BusyForecastHours(forecasts, busyHourThreshold)
    {
      busyHours := [];
      var i := 0;
      while i < |forecasts|
        invariant 0 <= i <= |forecasts|
        invariant busyHours == BusyForecastHours(forecasts[..i], busyHourThreshold)
      {
        assert forecasts[..i + 1][..i] == forecasts[..i];
        if forecasts[i].predictedEnergyCost > busyHourThreshold {
          busyHours := busyHours + [forecasts[i].hour];
        }
        i := i + 1;
      }
      assert forecasts[..i] == forecasts;
    }

    /** getDayAheadRecommendations: the recommendation table for the
        predictor's forecast from the given hour and day. */
    method GetDayAheadRecommendations(currentHour: int, currentDayOfWeek: int) returns (r: map<int, seq<Recommendation>>)
      ensures r == Recommendations(
                predictor.Forecasts(currentHour, currentDayOfWeek),
                BusyForecastHours(predictor.Forecasts(currentHour, currentDayOfWeek), busyHourThreshold),
                LoadNames(deferrableLoads))
    {
      var forecasts := predictor.PredictNext24Hours(currentHour, currentDayOfWeek);
      var busyHours := IdentifyBusyHours(forecasts);
      var names := LoadNames(deferrableLoads);
      r := map[];
      var i := 0;
      while i < |forecasts|
        invariant 0 <= i <= |forecasts|
        invariant r == Recommendations(forecasts[..i], busyHours, names)
      {
        RecommendationsStep(forecasts, i, busyHours, names);
        var isBusy := forecasts[i].hour in busyHours;
        var hourRecommendations := HourRecommendations(names, isBusy, forecasts[i].predictedEnergyCost);
        if hourRecommendations != [] {
          r := r[forecasts[i].hour := hourRecommendations];
        }
        i := i + 1;
      }
      assert forecasts[..i] == forecasts;
    }

    /** analyzeBusyHours: no data gives empty lists (the source leaves the
        two averages uninitialised then); otherwise every hour 0..23 with
        observations is classified by its mean price, ascending, and each
        average is the mean of the group's hourly means (0 for an empty
        group). */
    method AnalyzeBusyHours(historicalData: seq<HistoricalDataPoint>) returns (analysis: BusyHourAnalysis)
      ensures historicalData == [] ==> analysis.busyHours == [] && analysis.optimalHours == []
      ensures historicalData != [] ==>
                && analysis.busyHours == Classified(historicalData, busyHourThreshold, 24, true)
                && analysis.optimalHours == Classified(historicalData, busyHourThreshold, 24, false)
                && analysis.averagePeakPrice == Mean(HourMeans(historicalData, analysis.busyHours))
                && analysis.averageOffPeakPrice == Mean(HourMeans(historicalData, analysis.optimalHours))
    {
      if historicalData == [] {
        return BusyHourAnalysis([], [], 0.0, 0.0);
      }
      var hourlyPrices := GroupPricesByHour(historicalData);
      var busyHours, optimalHours := [], [];
      var totalPeakPrice, totalOffPeakPrice := 0.0, 0.0;
      var peakCount, offPeakCount := 0, 0;
      var hour := 0;
      while hour < 24
        invariant 0 <= hour <= 24
        invariant busyHours == Classified(historicalData, busyHourThreshold, hour, true)
        invariant optimalHours == Classified(historicalData, busyHourThreshold, hour, false)
        invariant totalPeakPrice == Sum(HourMeans(historicalData, busyHours)) && peakCount == |busyHours|
        invariant totalOffPeakPrice == Sum(HourMeans(historicalData, optimalHours)) && offPeakCount == |optimalHours|
      {
        var prices := if hour in hourlyPrices then hourlyPrices[hour] else [];
        assert prices == Column(historicalData, hour, CostOf);
        busyHours, optimalHours, totalPeakPrice, totalOffPeakPrice, peakCount, offPeakCount :=
          AnalyzeHour(historicalData, busyHourThreshold, prices, hour,
                      busyHours, optimalHours, totalPeakPrice, totalOffPeakPrice, peakCount, offPeakCount);
        hour := hour + 1;
      }
      var averagePeakPrice := if peakCount > 0 then totalPeakPrice / (peakCount as real) else 0.0;
      var averageOffPeakPrice := if offPeakCount > 0 then totalOffPeakPrice / (offPeakCount as real) else 0.0;
      analysis := BusyHourAnalysis(busyHours, optimalHours, averagePeakPrice, averageOffPeakPrice);
    }
  }

  /** One hour of the busy-hour analysis: an observed hour joins the busy
      or the optimal hours by its mean price, and its mean is added to
      that group's total and count. */
  method AnalyzeHour(data: seq<HistoricalDataPoint>, threshold: real, prices: seq<real>, hour: nat,
                     busy0: seq<int>, optimal0: seq<int>, totalPeak0: real, totalOffPeak0: real,
                     peakCount0: int, offPeakCount0: int)
    returns (busy: seq<int>, optimal: seq<int>, totalPeak: real, totalOffPeak: real, peakCount: int, offPeakCount: int)
    requires prices == Column(data, hour, CostOf)
    requires busy0 == Classified(data, threshold, hour, true) && optimal0 == Classified(data, threshold, hour, false)
    requires totalPeak0 == Sum(HourMeans(data, busy0)) && peakCount0 == |busy0|
    requires totalOffPeak0 == Sum(HourMeans(data, optimal0)) && offPeakCount0 == |optimal0|
    ensures busy == Classified(data, threshold, hour + 1, true) && optimal == Classified(data, threshold, hour + 1, false)
    ensures totalPeak == Sum(HourMeans(data, busy)) && peakCount == |busy|
    ensures totalOffPeak == Sum(HourMeans(data, optimal)) && offPeakCount == |optimal|
  {
    busy, optimal, totalPeak, totalOffPeak, peakCount, offPeakCount :=
      busy0, optimal0, totalPeak0, totalOffPeak0, peakCount0, offPeakCount0;
    ClassifiedStep(data, threshold, hour, true);
    ClassifiedStep(data, threshold, hour, false);
    if prices != [] {
      var avgPrice := Average(prices);
      assert avgPrice == HourMean(data, hour);
      if avgPrice > threshold {
        assert InGroup(data, threshold, hour, true);
        assert !InGroup(data, threshold, hour, false);
        GroupTotalAppend(data, busy, hour);
        busy := busy + [hour];
        totalPeak := totalPeak + avgPrice;
        peakCount := peakCount + 1;
      } else {
        assert !InGroup(data, threshold, hour, true);
        assert InGroup(data, threshold, hour, false);
        GroupTotalAppend(data, optimal, hour);
        optimal := optimal + [hour];
        totalOffPeak := totalOffPeak + avgPrice;
        offPeakCount := offPeakCount + 1;
      }
    } else {
      assert !InGroup(data, threshold, hour, true);
      assert !InGroup(data, threshold, hour, false);
    }
  }

  /** The ids of the loads, in registration order. */
  function LoadIds(loads: seq<Appliance>): (r: seq<string>)
    ensures |r| == |loads| && forall j :: 0 <= j < |loads| ==> r[j] == loads[j].id
  {
    seq(|loads|, j requires 0 <= j < |loads| => loads[j].id)
  }

  /** The names of the loads, in registration order. */
  function LoadNames(loads: seq<Appliance>): (r: seq<string>)
    ensures |r| == |loads| && forall j :: 0 <= j < |loads| ==> r[j] == loads[j].name
  {
    seq(|loads|, j requires 0 <= j < |loads| => loads[j].name)
  }

  /** True when a load with that id was on in the state `before` was
      taken from, among the first `n` loads. */
  ghost predicate OnAmong(loads: seq<Appliance>, before: seq<Snapshot>, n: int, id: string)
    requires n <= |loads| && |before| == |loads|
  {
    exists j :: 0 <= j < n && loads[j].id == id && before[j].on
  }

  lemma OnAmongStep(loads: seq<Appliance>, before: seq<Snapshot>, i: nat, id: string)
    requires i < |loads| && |before| == |loads|
    ensures OnAmong(loads, before, i + 1, id) <==> OnAmong(loads, before, i, id) || (loads[i].id == id && before[i].on)
  {
  }

  /** One more forecast adds its hour's recommendations, if any. */
  lemma RecommendationsStep(forecasts: seq<HourlyForecast>, i: nat, busyHours: seq<int>, names: seq<string>)
    requires i < |forecasts|
    ensures var recs := HourRecommendations(names, forecasts[i].hour in busyHours, forecasts[i].predictedEnergyCost);
            var prev := Recommendations(forecasts[..i], busyHours, names);
            Recommendations(forecasts[..i + 1], busyHours, names) == if recs != [] then prev[forecasts[i].hour := recs] else prev
  {
    assert forecasts[..i + 1][..i] == forecasts[..i];
  }

  /** True when some load with that id is on. */
  predicate WasOn(loads: seq<Appliance>, id: string)
    reads set j | 0 <= j < |loads| :: loads[j]
  {
    exists j :: 0 <= j < |loads| && loads[j].id == id && loads[j].on
  }

  /** The position of an occurrence of `x` in `s`. */
  ghost function FirstIndex<T>(s: seq<T>, x: T): (k: int)
    ensures x in s ==> 0 <= k < |s| && s[k] == x
  {
    if x in s then (var k :| 0 <= k < |s| && s[k] == x; k) else 0
  }

  lemma SumAppend(v: seq<real>, x: real)
    ensures Sum(v + [x]) == Sum(v) + x
  {
    assert (v + [x])[..|v|] == v;
  }

  lemma HourMeansAppend(data: seq<HistoricalDataPoint>, hours: seq<int>, h: int)
    ensures HourMeans(data, hours + [h]) == HourMeans(data, hours) + [HourMean(data, h)]
  {
  }

  /** A group extended by one hour has that hour's mean added to its
      total. */
  lemma GroupTotalAppend(data: seq<HistoricalDataPoint>, hours: seq<int>, h: int)
    ensures Sum(HourMeans(data, hours + [h])) == Sum(HourMeans(data, hours)) + HourMean(data, h)
  {
    HourMeansAppend(data, hours, h);
    SumAppend(HourMeans(data, hours), HourMean(data, h));
  }

  /** The first loop of analyzeBusyHours: the prices of each hour, in
      order. */
  method GroupPricesByHour(data: seq<HistoricalDataPoint>) returns (hourlyPrices: map<int, seq<real>>)
    ensures forall h :: h in hourlyPrices ==> hourlyPrices[h] == Column(data, h, CostOf)
    ensures forall h :: h !in hourlyPrices ==> Column(data, h, CostOf) == []
  {
    hourlyPrices := map[];
    var i := 0;
    while i < |data|
      invariant 0 <= i <= |data|
      invariant forall h :: h in hourlyPrices ==> hourlyPrices[h] == Column(data[..i], h, CostOf)
      invariant forall h :: h !in hourlyPrices ==> Column(data[..i], h, CostOf) == []
    {
      assert data[..i + 1][..i] == data[..i];
      var h := data[i].hour;
      var prices := if h in hourlyPrices then hourlyPrices[h] else [];
      hourlyPrices := hourlyPrices[h := prices + [data[i].energyCost]];
      i := i + 1;
    }
    assert data[..i] == data;
  }
}
