/** The day-ahead scheduler: from the 24-hour forecast it picks the best
    hours to charge electric vehicles and appends, hour by hour, one action
    per deferrable load, one per charger and the thermal actions to an
    append-only schedule, accumulating the energy and cost of charging and
    preheating. */
module DayAhead {
  import opened Appliances
  import opened Forecaster
  import Deferrable
  import Text

  /** The action word of a scheduled action. */
  datatype Command = On | Off | Charge | Defer | Minimize

  /** The explanation attached to an action; the numbers are the ones the
      source renders into its text. */
  datatype Reason =
    | DeferrableOff(cost: real)
    | DeferrableOn(cost: real)
    | LowCost(cost: real, solar: real, highSolar: bool)
    | NotOptimalHour
    | Preheat
    | ReduceHeating
    | ReduceCooling

  datatype ScheduledAction = ScheduledAction(
    hour: int,
    applianceId: string,
    command: Command,
    value: real,
    reason: Reason)

  /** The optimizer's thresholds and target temperature. */
  datatype Settings = Settings(targetIndoorTemp: real, highCostThreshold: real, lowCostThreshold: real)

  // ---------------------------------------------------------------------
  // The schedule

  /** The actions at hour `h`, in schedule order. */
  function ActionsAt(actions: seq<ScheduledAction>, h: int): seq<ScheduledAction> {
    if actions == [] then []
    else
      var prev := ActionsAt(actions[..|actions| - 1], h);
      if actions[|actions| - 1].hour == h then prev + [actions[|actions| - 1]] else prev
  }

  /** Selecting one hour keeps exactly the actions of that hour and never
      lengthens the schedule. */
  lemma {:induction false} ActionsAtSelects(actions: seq<ScheduledAction>, h: int)
    ensures |ActionsAt(actions, h)| <= |actions|
    ensures forall a :: a in ActionsAt(actions, h) <==> a in actions && a.hour == h
  {
    if actions != [] {
      var n := |actions| - 1;
      ActionsAtSelects(actions[..n], h);
      assert actions == actions[..n] + [actions[n]];
    }
  }

  /** Selecting distributes over concatenation: the actions of an hour in
      a longer schedule are those of the older part followed by those of
      the newer part. */
  lemma {:induction false} ActionsAtAppend(a: seq<ScheduledAction>, b: seq<ScheduledAction>, h: int)
    ensures ActionsAt(a + b, h) == ActionsAt(a, h) + ActionsAt(b, h)
  {
    if b == [] {
      assert a + b == a;
    } else {
      var n := |b| - 1;
      ActionsAtAppend(a, b[..n], h);
      assert (a + b)[..|a + b| - 1] == a + b[..n];
    }
  }

  /** A schedule part none of whose actions is at hour `h` contributes
      nothing to that hour. */
  lemma {:induction false} ActionsAtNone(actions: seq<ScheduledAction>, h: int)
    requires forall i :: 0 <= i < |actions| ==> actions[i].hour != h
    ensures ActionsAt(actions, h) == []
  {
    if actions != [] {
      ActionsAtNone(actions[..|actions| - 1], h);
    }
  }

  /** A schedule part all of whose actions are at hour `h` is kept whole. */
  lemma {:induction false} ActionsAtAll(actions: seq<ScheduledAction>, h: int)
    requires forall i :: 0 <= i < |actions| ==> actions[i].hour == h
    ensures ActionsAt(actions, h) == actions
  {
    if actions != [] {
      ActionsAtAll(actions[..|actions| - 1], h);
    }
  }

  class DayAheadSchedule {
    var actions: seq<ScheduledAction>
    var estimatedCost: real
    var estimatedConsumption: real

    constructor ()
      ensures actions == [] && estimatedCost == 0.0 && estimatedConsumption == 0.0
    {
      actions := [];
      estimatedCost := 0.0;
      estimatedConsumption := 0.0;
    }

    /** addAction: exactly one action is appended at the end. */
    method AddAction(hour: int, applianceId: string, command: Command, value: real, reason: Reason)
      modifies this
      ensures actions == old(actions) + [ScheduledAction(hour, applianceId, command, value, reason)]
      ensures estimatedCost == old(estimatedCost) && estimatedConsumption == old(estimatedConsumption)
    {
      actions := actions + [ScheduledAction(hour, applianceId, command, value, reason)];
    }

    /** getActionsForHour: the actions at that hour, in schedule order. */
    method GetActionsForHour(hour: int) returns (hourActions: seq<ScheduledAction>)
      ensures hourActions == ActionsAt(actions, hour)
      ensures forall a :: a in hourActions <==> a in actions && a.hour == hour
    {
      hourActions := [];
      var i := 0;
      while i < |actions|
        invariant 0 <= i <= |actions|
        invariant hourActions == ActionsAt(actions[..i], hour)
      {
        assert actions[..i + 1][..i] == actions[..i];
        if actions[i].hour == hour {
          hourActions := hourActions + [actions[i]];
        }
        i := i + 1;
      }
      assert actions[..i] == actions;
      ActionsAtSelects(actions, hour);
    }
  }

  // ---------------------------------------------------------------------
  // Choosing the charging hours

  datatype HourScore = HourScore(hour: int, score: real)

  /** The charging score of an hour: cheaper is better, sunnier is better. */
  function Score(f: HourlyForecast): real {
    -f.predictedEnergyCost + f.predictedSolarProduction * 0.1
  }

  /** The scores of the forecasts, in forecast order. */
  function Scores(forecasts: seq<HourlyForecast>): (r: seq<HourScore>)
    ensures |r| == |forecasts|
    ensures forall i :: 0 <= i < |r| ==> r[i] == HourScore(forecasts[i].hour, Score(forecasts[i]))
  {
    if forecasts == [] then []
    else Scores(forecasts[..|forecasts| - 1]) + [HourScore(forecasts[|forecasts| - 1].hour, Score(forecasts[|forecasts| - 1]))]
  }

  predicate SortedDesc(s: seq<HourScore>) {
    forall i, j :: 0 <= i < j < |s| ==> s[i].score >= s[j].score
  }

  /** Inserts `x` into a descending sequence, after the entries that score
      strictly better. */
  function Insert(x: HourScore, t: seq<HourScore>): (r: seq<HourScore>)
    ensures |r| == |t| + 1
  {
    if t == [] || x.score >= t[0].score then [x] + t
    else [t[0]] + Insert(x, t[1..])
  }

  /** Insertion adds exactly the inserted entry. */
  lemma {:induction false} InsertPermutes(x: HourScore, t: seq<HourScore>)
    ensures multiset(Insert(x, t)) == multiset(t) + multiset{x}
  {
    if t != [] && x.score < t[0].score {
      InsertPermutes(x, t[1..]);
      assert t == [t[0]] + t[1..];
    }
  }

  /** A descending sequence with an entry in front that scores at least
      as well as all of it is descending. */
  lemma ConsSorted(h: HourScore, rest: seq<HourScore>)
    requires SortedDesc(rest) && forall i :: 0 <= i < |rest| ==> rest[i].score <= h.score
    ensures SortedDesc([h] + rest)
  {
    var r := [h] + rest;
    forall i, j | 0 <= i < j < |r|
      ensures r[i].score >= r[j].score
    {
      assert r[j] == rest[j - 1];
      if i > 0 {
        assert r[i] == rest[i - 1];
      }
    }
  }

  /** Inserting an entry that scores at most `b` among entries that score
      at most `b` leaves every entry at most `b`. */
  lemma {:induction false} InsertBounded(x: HourScore, t: seq<HourScore>, b: real)
    requires x.score <= b && forall i :: 0 <= i < |t| ==> t[i].score <= b
    ensures forall i :: 0 <= i < |Insert(x, t)| ==> Insert(x, t)[i].score <= b
  {
    if t != [] && x.score < t[0].score {
      InsertBounded(x, t[1..], b);
      var rest := Insert(x, t[1..]);
      assert Insert(x, t) == [t[0]] + rest;
      forall i | 0 < i < |Insert(x, t)|
        ensures Insert(x, t)[i].score <= b
      {
        assert Insert(x, t)[i] == rest[i - 1];
      }
    }
  }

  /** Inserting into a descending sequence keeps it descending. */
  lemma {:induction false} InsertSorted(x: HourScore, t: seq<HourScore>)
    requires SortedDesc(t)
    ensures SortedDesc(Insert(x, t))
  {
    if t == [] || x.score >= t[0].score {
      ConsSorted(x, t);
    } else {
      InsertSorted(x, t[1..]);
      InsertBounded(x, t[1..], t[0].score);
      ConsSorted(t[0], Insert(x, t[1..]));
    }
  }

  /** The scores ordered best first, as std::sort orders them with the
      comparator `a.score > b.score` (entries of equal score keep their
      forecast order here). */
  function SortDesc(s: seq<HourScore>): (r: seq<HourScore>)
    ensures |r| == |s|
  {
    if s == [] then [] else Insert(s[0], SortDesc(s[1..]))
  }

  /** The ranking is a reordering of the scores. */
  lemma {:induction false} SortDescPermutes(s: seq<HourScore>)
    ensures multiset(SortDesc(s)) == multiset(s)
  {
    if s != [] {
      SortDescPermutes(s[1..]);
      InsertPermutes(s[0], SortDesc(s[1..]));
      assert s == [s[0]] + s[1..];
    }
  }

  /** The ranking is descending. */
  lemma {:induction false} SortDescSorted(s: seq<HourScore>)
    ensures SortedDesc(SortDesc(s))
  {
    if s != [] {
      SortDescSorted(s[1..]);
      InsertSorted(s[0], SortDesc(s[1..]));
    }
  }

  /** How many hours are selected: the requested number, capped by the
      number of forecasts, none for a count below one. */
  function SelectedCount(needed: int, available: nat): (k: nat)
    ensures k <= available
    ensures needed <= 0 ==> k == 0
    ensures 0 < needed <= available ==> k == needed
    ensures needed > available ==> k == available
  {
    if needed <= 0 then 0 else if needed < available then needed else available
  }

  function HoursOf(s: seq<HourScore>): (r: seq<int>)
    ensures |r| == |s| && forall i :: 0 <= i < |s| ==> r[i] == s[i].hour
  {
    seq(|s|, i requires 0 <= i < |s| => s[i].hour)
  }

  /** The hours chosen for charging: the first `needed` hours of the
      ranking. */
  function BestHours(forecasts: seq<HourlyForecast>, needed: int): seq<int> {
    HoursOf(SortDesc(Scores(forecasts))[..SelectedCount(needed, |forecasts|)])
  }

  /** The chosen hours are as many as requested (capped by the forecasts),
      come from a ranking that is a reordering of the forecasts' scores,
      and every chosen entry scores at least as well as every entry left
      out. */
  lemma BestHoursAreBest(forecasts: seq<HourlyForecast>, needed: int)
    ensures var ranked := SortDesc(Scores(forecasts));
            var k := SelectedCount(needed, |forecasts|);
            && |BestHours(forecasts, needed)| == k
            && multiset(ranked) == multiset(Scores(forecasts))
            && (forall i :: 0 <= i < k ==> BestHours(forecasts, needed)[i] == ranked[i].hour)
            && (forall i, j :: 0 <= i < k <= j < |ranked| ==> ranked[i].score >= ranked[j].score)
  {
    SortDescSorted(Scores(forecasts));
    SortDescPermutes(Scores(forecasts));
  }

  /** Every chosen hour is the hour of some forecast. */
  lemma BestHoursAreForecastHours(forecasts: seq<HourlyForecast>, needed: int, h: int)
    requires h in BestHours(forecasts, needed)
    ensures exists i :: 0 <= i < |forecasts| && forecasts[i].hour == h
  {
    var scores := Scores(forecasts);
    var ranked := SortDesc(scores);
    var k := SelectedCount(needed, |forecasts|);
    var best := HoursOf(ranked[..k]);
    assert best == BestHours(forecasts, needed);
    var i :| 0 <= i < |best| && best[i] == h;
    assert ranked[i].hour == h;
    SortDescPermutes(scores);
    assert ranked[i] in multiset(scores);
    var j :| 0 <= j < |scores| && scores[j] == ranked[i];
    assert forecasts[j].hour == h;
  }

  // ---------------------------------------------------------------------
  // The actions of one hour

  /** One action per deferrable load, in registration order. */
  function DeferrableActions(ids: seq<string>, hour: int, cost: real, high: real): seq<ScheduledAction> {
    if ids == [] then []
    else
      var prev := DeferrableActions(ids[..|ids| - 1], hour, cost, high);
      var id := ids[|ids| - 1];
      prev + [if cost > high then ScheduledAction(hour, id, Off, 0.0, DeferrableOff(cost))
              else ScheduledAction(hour, id, On, 0.0, DeferrableOn(cost))]
  }

  /** Each deferrable load gets one action, in order: off above the high
      threshold, on otherwise, with value 0. */
  lemma {:induction false} DeferrableActionsPerLoad(ids: seq<string>, hour: int, cost: real, high: real)
    ensures var r := DeferrableActions(ids, hour, cost, high);
            && |r| == |ids|
            && (forall j :: 0 <= j < |r| ==> r[j].hour == hour && r[j].applianceId == ids[j] && r[j].value == 0.0)
            && (forall j :: 0 <= j < |r| ==> (r[j].command == Off <==> cost > high) && (r[j].command == On <==> cost <= high))
  {
    if ids != [] {
      DeferrableActionsPerLoad(ids[..|ids| - 1], hour, cost, high);
    }
  }

  /** What the schedule needs of an appliance: its id, kind, rated
      charging power and power draw. */
  datatype Unit = Unit(id: string, kind: Kind, maxChargePower: real, power: real)

  function Units(apps: seq<Appliance>): (r: seq<Unit>)
    reads apps
    ensures |r| == |apps|
    ensures forall j :: 0 <= j < |apps| ==>
              r[j] == Unit(apps[j].id, apps[j].kind, apps[j].maxChargePower, apps[j].powerConsumption)
  {
    seq(|apps|, j requires 0 <= j < |apps| reads apps => Unit(apps[j].id, apps[j].kind, apps[j].maxChargePower, apps[j].powerConsumption))
  }

  /** The action for one charger. */
  function ChargerAction(a: Unit, hour: int, cost: real, solar: real, selected: bool): ScheduledAction {
    if selected then ScheduledAction(hour, a.id, Charge, a.maxChargePower, LowCost(cost, solar, solar > 5.0))
    else ScheduledAction(hour, a.id, Defer, 0.0, NotOptimalHour)
  }

  /** The chargers among the appliances. */
  function Chargers(apps: seq<Unit>): (r: seq<Unit>)
    ensures forall i :: 0 <= i < |r| ==> r[i] in apps && r[i].kind == EVChargerKind
  {
    if apps == [] then []
    else
      var last := apps[|apps| - 1];
      var prev := Chargers(apps[..|apps| - 1]);
      if last.kind == EVChargerKind then prev + [last] else prev
  }

  /** One action per charger, in appliance order. */
  function ChargerActions(apps: seq<Unit>, hour: int, cost: real, solar: real, selected: bool): seq<ScheduledAction> {
    if apps == [] then []
    else
      var last := apps[|apps| - 1];
      var prev := ChargerActions(apps[..|apps| - 1], hour, cost, solar, selected);
      if last.kind == EVChargerKind then prev + [ChargerAction(last, hour, cost, solar, selected)] else prev
  }

  /** Each charger gets one action, in appliance order: charge at its rated
      power in a selected hour, defer with value 0 otherwise. */
  lemma {:induction false} ChargerActionsPerCharger(apps: seq<Unit>, hour: int, cost: real, solar: real, selected: bool)
    ensures var r := ChargerActions(apps, hour, cost, solar, selected);
            && |r| == |Chargers(apps)|
            && (forall j :: 0 <= j < |r| ==> r[j].hour == hour && r[j].applianceId == Chargers(apps)[j].id)
            && (forall j :: 0 <= j < |r| ==>
                  if selected then r[j].command == Charge && r[j].value == Chargers(apps)[j].maxChargePower
                  else r[j].command == Defer && r[j].value == 0.0)
  {
    if apps != [] {
      ChargerActionsPerCharger(apps[..|apps| - 1], hour, cost, solar, selected);
    }
  }

  /** The thermal action for one appliance, if any. */
  function ThermalAction(a: Unit, hour: int, cost: real, s: Settings): seq<ScheduledAction> {
    if cost < s.lowCostThreshold then
      (if a.kind == HeaterKind then [ScheduledAction(hour, a.id, On, s.targetIndoorTemp + 1.0, Preheat)] else [])
    else if cost > s.highCostThreshold then
      (if a.kind == HeaterKind then [ScheduledAction(hour, a.id, Minimize, 0.0, ReduceHeating)]
       else if a.kind == AirConditionerKind then [ScheduledAction(hour, a.id, Minimize, 0.0, ReduceCooling)]
       else [])
    else []
  }

  /** The thermal actions of an hour, in appliance order. */
  function ThermalActions(apps: seq<Unit>, hour: int, cost: real, s: Settings): seq<ScheduledAction> {
    if apps == [] then []
    else ThermalActions(apps[..|apps| - 1], hour, cost, s) + ThermalAction(apps[|apps| - 1], hour, cost, s)
  }

  /** Below the low threshold every thermal action switches a heater on
      one degree above the target; above the high threshold every one tells
      a heater or air conditioner to minimise; in between there are
      none. */
  lemma {:induction false} ThermalActionsByPrice(apps: seq<Unit>, hour: int, cost: real, s: Settings)
    ensures var r := ThermalActions(apps, hour, cost, s);
            && (forall j :: 0 <= j < |r| ==> r[j].hour == hour)
            && (cost < s.lowCostThreshold ==> forall j :: 0 <= j < |r| ==>
                  r[j].command == On && r[j].value == s.targetIndoorTemp + 1.0 && r[j].reason == Preheat)
            && (s.lowCostThreshold <= cost && cost > s.highCostThreshold ==> forall j :: 0 <= j < |r| ==>
                  r[j].command == Minimize && r[j].value == 0.0)
            && (s.lowCostThreshold <= cost <= s.highCostThreshold ==> r == [])
  {
    if apps != [] {
      ThermalActionsByPrice(apps[..|apps| - 1], hour, cost, s);
    }
  }

  /** Below the low threshold there is exactly one preheat action per
      heater. */
  lemma {:induction false} PreheatPerHeater(apps: seq<Unit>, hour: int, cost: real, s: Settings)
    requires cost < s.lowCostThreshold
    ensures |ThermalActions(apps, hour, cost, s)| == |Heaters(apps)|
    ensures forall j :: 0 <= j < |Heaters(apps)| ==> ThermalActions(apps, hour, cost, s)[j].applianceId == Heaters(apps)[j].id
  {
    if apps != [] {
      PreheatPerHeater(apps[..|apps| - 1], hour, cost, s);
    }
  }

  /** The heaters among the appliances. */
  function Heaters(apps: seq<Unit>): seq<Unit> {
    if apps == [] then []
    else
      var last := apps[|apps| - 1];
      var prev := Heaters(apps[..|apps| - 1]);
      if last.kind == HeaterKind then prev + [last] else prev
  }

  /** All actions of one hour, in the order the source appends them:
      deferrable loads, then chargers, then thermal actions. */
  function HourActions(ids: seq<string>, apps: seq<Unit>, f: HourlyForecast, best: seq<int>, s: Settings): seq<ScheduledAction> {
    DeferrableActions(ids, f.hour, f.predictedEnergyCost, s.highCostThreshold)
    + ChargerActions(apps, f.hour, f.predictedEnergyCost, f.predictedSolarProduction, f.hour in best)
    + ThermalActions(apps, f.hour, f.predictedEnergyCost, s)
  }

  /** Which of the three groups an action belongs to. */
  function Stage(a: ScheduledAction): int {
    match a.reason
    case DeferrableOff(_) => 0
    case DeferrableOn(_) => 0
    case LowCost(_, _, _) => 1
    case NotOptimalHour => 1
    case _ => 2
  }

  /** Within an hour the deferrable-load actions come first, then the
      charger actions, then the thermal actions; every action is at that
      hour. */
  lemma {:induction false} HourActionsOrdered(ids: seq<string>, apps: seq<Unit>, f: HourlyForecast, best: seq<int>, s: Settings)
    ensures var r := HourActions(ids, apps, f, best, s);
            && (forall i :: 0 <= i < |r| ==> r[i].hour == f.hour)
            && (forall i, j :: 0 <= i < j < |r| ==> Stage(r[i]) <= Stage(r[j]))
            && |r| >= |ids| + |Chargers(apps)|
  {
    var d := DeferrableActions(ids, f.hour, f.predictedEnergyCost, s.highCostThreshold);
    var c := ChargerActions(apps, f.hour, f.predictedEnergyCost, f.predictedSolarProduction, f.hour in best);
    var t := ThermalActions(apps, f.hour, f.predictedEnergyCost, s);
    assert |d| == |ids| && InStage(d, f.hour, 0) by {
      DeferrableActionsPerLoad(ids, f.hour, f.predictedEnergyCost, s.highCostThreshold);
      DeferrableStage(ids, f.hour, f.predictedEnergyCost, s.highCostThreshold);
    }
    assert |c| == |Chargers(apps)| && InStage(c, f.hour, 1) by {
      ChargerActionsPerCharger(apps, f.hour, f.predictedEnergyCost, f.predictedSolarProduction, f.hour in best);
      ChargerStage(apps, f.hour, f.predictedEnergyCost, f.predictedSolarProduction, f.hour in best);
    }
    assert InStage(t, f.hour, 2) by {
      ThermalActionsByPrice(apps, f.hour, f.predictedEnergyCost, s);
      ThermalStage(apps, f.hour, f.predictedEnergyCost, s);
    }
    StagesConcat(d, c, t, f.hour);
  }

  /** Every action of `r` is at `hour` and belongs to group `stage`. */
  predicate InStage(r: seq<ScheduledAction>, hour: int, stage: int) {
    forall j :: 0 <= j < |r| ==> r[j].hour == hour && Stage(r[j]) == stage
  }

  /** Three groups placed one after another are ordered by group. */
  lemma StagesConcat(d: seq<ScheduledAction>, c: seq<ScheduledAction>, t: seq<ScheduledAction>, hour: int)
    requires InStage(d, hour, 0) && InStage(c, hour, 1) && InStage(t, hour, 2)
    ensures var r := d + c + t;
            && (forall i :: 0 <= i < |r| ==> r[i].hour == hour)
            && (forall i, j :: 0 <= i < j < |r| ==> Stage(r[i]) <= Stage(r[j]))
  {
    var r := d + c + t;
    forall i | 0 <= i < |r|
      ensures r[i].hour == hour && Stage(r[i]) == (if i < |d| then 0 else if i < |d| + |c| then 1 else 2)
    {
      if i < |d| { assert r[i] == d[i]; }
      else if i < |d| + |c| { assert r[i] == c[i - |d|]; }
      else { assert r[i] == t[i - |d| - |c|]; }
    }
  }

  lemma {:induction false} DeferrableStage(ids: seq<string>, hour: int, cost: real, high: real)
    ensures forall j :: 0 <= j < |DeferrableActions(ids, hour, cost, high)| ==> Stage(DeferrableActions(ids, hour, cost, high)[j]) == 0
  {
    if ids != [] {
      DeferrableStage(ids[..|ids| - 1], hour, cost, high);
    }
  }

  lemma {:induction false} ChargerStage(apps: seq<Unit>, hour: int, cost: real, solar: real, selected: bool)
    ensures forall j :: 0 <= j < |ChargerActions(apps, hour, cost, solar, selected)| ==>
              Stage(ChargerActions(apps, hour, cost, solar, selected)[j]) == 1
  {
    if apps != [] {
      ChargerStage(apps[..|apps| - 1], hour, cost, solar, selected);
    }
  }

  lemma {:induction false} ThermalStage(apps: seq<Unit>, hour: int, cost: real, s: Settings)
    ensures forall j :: 0 <= j < |ThermalActions(apps, hour, cost, s)| ==> Stage(ThermalActions(apps, hour, cost, s)[j]) == 2
  {
    if apps != [] {
      ThermalStage(apps[..|apps| - 1], hour, cost, s);
    }
  }

  // ---------------------------------------------------------------------
  // Energy and cost estimates

  function SumValues(actions: seq<ScheduledAction>): real {
    if actions == [] then 0.0 else SumValues(actions[..|actions| - 1]) + actions[|actions| - 1].value
  }

  /** The rated power of all chargers. */
  function ChargingPower(apps: seq<Unit>): real {
    if apps == [] then 0.0
    else ChargingPower(apps[..|apps| - 1]) + (if apps[|apps| - 1].kind == EVChargerKind then apps[|apps| - 1].maxChargePower else 0.0)
  }

  /** The power drawn by all heaters. */
  function HeatingPower(apps: seq<Unit>): real
  {
    if apps == [] then 0.0
    else HeatingPower(apps[..|apps| - 1]) + (if apps[|apps| - 1].kind == HeaterKind then apps[|apps| - 1].power else 0.0)
  }

  /** What charging every charger at its rated power costs at `price`,
      summed charger by charger as the source does. */
  function ChargingCost(apps: seq<Unit>, price: real): real {
    if apps == [] then 0.0
    else ChargingCost(apps[..|apps| - 1], price) + (if apps[|apps| - 1].kind == EVChargerKind then apps[|apps| - 1].maxChargePower * price else 0.0)
  }

  /** What running every heater costs at `price`, summed heater by heater. */
  function HeatingCost(apps: seq<Unit>, price: real): real {
    if apps == [] then 0.0
    else HeatingCost(apps[..|apps| - 1], price) + (if apps[|apps| - 1].kind == HeaterKind then apps[|apps| - 1].power * price else 0.0)
  }

  /** Summing the per-appliance costs is pricing the summed power. */
  lemma {:induction false} CostIsPriceTimesPower(apps: seq<Unit>, price: real)
    ensures ChargingCost(apps, price) == price * ChargingPower(apps)
    ensures HeatingCost(apps, price) == price * HeatingPower(apps)
  {
    if apps != [] {
      CostIsPriceTimesPower(apps[..|apps| - 1], price);
    }
  }

  /** The energy an hour adds to the estimate: the chargers' rated power in
      a selected hour plus the heaters' power when preheating. */
  function HourEnergy(apps: seq<Unit>, f: HourlyForecast, best: seq<int>, s: Settings): real
  {
    (if f.hour in best then ChargingPower(apps) else 0.0)
    + (if f.predictedEnergyCost < s.lowCostThreshold then HeatingPower(apps) else 0.0)
  }

  /** The cost an hour adds to the estimate. */
  function HourCost(apps: seq<Unit>, f: HourlyForecast, best: seq<int>, s: Settings): real {
    (if f.hour in best then ChargingCost(apps, f.predictedEnergyCost) else 0.0)
    + (if f.predictedEnergyCost < s.lowCostThreshold then HeatingCost(apps, f.predictedEnergyCost) else 0.0)
  }

  /** The three parts of optimizeHour, one after the other, add the
      hour's actions, energy and cost. */
  lemma HourStages(a0: seq<ScheduledAction>, a1: seq<ScheduledAction>, a2: seq<ScheduledAction>, a3: seq<ScheduledAction>,
                   e0: real, e2: real, e3: real, c0: real, c2: real, c3: real,
                   ids: seq<string>, units: seq<Unit>, f: HourlyForecast, best: seq<int>, s: Settings)
    requires a1 == a0 + DeferrableActions(ids, f.hour, f.predictedEnergyCost, s.highCostThreshold)
    requires a2 == a1 + ChargerActions(units, f.hour, f.predictedEnergyCost, f.predictedSolarProduction, f.hour in best)
    requires e2 == e0 + (if f.hour in best then ChargingPower(units) else 0.0)
    requires c2 == c0 + (if f.hour in best then ChargingCost(units, f.predictedEnergyCost) else 0.0)
    requires a3 == a2 + ThermalActions(units, f.hour, f.predictedEnergyCost, s)
    requires e3 == e2 + (if f.predictedEnergyCost < s.lowCostThreshold then HeatingPower(units) else 0.0)
    requires c3 == c2 + (if f.predictedEnergyCost < s.lowCostThreshold then HeatingCost(units, f.predictedEnergyCost) else 0.0)
    ensures a3 == a0 + HourActions(ids, units, f, best, s)
    ensures e3 == e0 + HourEnergy(units, f, best, s)
    ensures c3 == c0 + HourCost(units, f, best, s)
  {
    var d := DeferrableActions(ids, f.hour, f.predictedEnergyCost, s.highCostThreshold);
    var c := ChargerActions(units, f.hour, f.predictedEnergyCost, f.predictedSolarProduction, f.hour in best);
    Text.AppendAssoc(a0, d, c);
    Text.AppendAssoc(a0, d + c, ThermalActions(units, f.hour, f.predictedEnergyCost, s));
  }

  /** The cost an hour adds is its price times the energy it adds. */
  lemma HourCostIsPriceTimesEnergy(apps: seq<Unit>, f: HourlyForecast, best: seq<int>, s: Settings)
    ensures HourCost(apps, f, best, s) == f.predictedEnergyCost * HourEnergy(apps, f, best, s)
  {
    CostIsPriceTimesPower(apps, f.predictedEnergyCost);
  }

  /** Appending an action adds its value to the sum. */
  lemma SumValuesSnoc(c: seq<ScheduledAction>, x: ScheduledAction)
    ensures SumValues(c + [x]) == SumValues(c) + x.value
  {
    assert (c + [x])[..|c|] == c;
  }

  /** The charging part of the estimate is exactly the sum of the values of
      the hour's charge actions. */
  lemma {:induction false} ChargingEnergyIsChargeValues(apps: seq<Unit>, hour: int, cost: real, solar: real)
    ensures SumValues(ChargerActions(apps, hour, cost, solar, true)) == ChargingPower(apps)
    ensures SumValues(ChargerActions(apps, hour, cost, solar, false)) == 0.0
  {
    if apps != [] {
      var n := |apps| - 1;
      ChargingEnergyIsChargeValues(apps[..n], hour, cost, solar);
      if apps[n].kind == EVChargerKind {
        SumValuesSnoc(ChargerActions(apps[..n], hour, cost, solar, true), ChargerAction(apps[n], hour, cost, solar, true));
        SumValuesSnoc(ChargerActions(apps[..n], hour, cost, solar, false), ChargerAction(apps[n], hour, cost, solar, false));
      }
    }
  }

  /** The actions of all forecast hours, hour after hour. */
  function ScheduleActions(ids: seq<string>, apps: seq<Unit>, forecasts: seq<HourlyForecast>, best: seq<int>, s: Settings): seq<ScheduledAction> {
    if forecasts == [] then []
    else
      ScheduleActions(ids, apps, forecasts[..|forecasts| - 1], best, s)
      + HourActions(ids, apps, forecasts[|forecasts| - 1], best, s)
  }

  function ScheduleEnergy(apps: seq<Unit>, forecasts: seq<HourlyForecast>, best: seq<int>, s: Settings): real
  {
    if forecasts == [] then 0.0
    else ScheduleEnergy(apps, forecasts[..|forecasts| - 1], best, s) + HourEnergy(apps, forecasts[|forecasts| - 1], best, s)
  }

  function ScheduleCost(apps: seq<Unit>, forecasts: seq<HourlyForecast>, best: seq<int>, s: Settings): real
  {
    if forecasts == [] then 0.0
    else
      var f := forecasts[|forecasts| - 1];
      ScheduleCost(apps, forecasts[..|forecasts| - 1], best, s) + HourCost(apps, f, best, s)
  }

  /** With non-negative prices and powers the estimates are non-negative. */
  lemma {:induction false} EstimatesNonNegative(apps: seq<Unit>, forecasts: seq<HourlyForecast>, best: seq<int>, s: Settings)
    requires forall a :: a in apps ==> a.maxChargePower >= 0.0 && a.power >= 0.0
    requires forall i :: 0 <= i < |forecasts| ==> forecasts[i].predictedEnergyCost >= 0.0
    ensures ScheduleEnergy(apps, forecasts, best, s) >= 0.0
    ensures ScheduleCost(apps, forecasts, best, s) >= 0.0
  {
    if forecasts != [] {
      var f := forecasts[|forecasts| - 1];
      EstimatesNonNegative(apps, forecasts[..|forecasts| - 1], best, s);
      PowersNonNegative(apps);
      HourCostIsPriceTimesEnergy(apps, f, best, s);
      assert HourEnergy(apps, f, best, s) >= 0.0;
      assert f.predictedEnergyCost >= 0.0;
    }
  }

  lemma {:induction false} PowersNonNegative(apps: seq<Unit>)
    requires forall a :: a in apps ==> a.maxChargePower >= 0.0 && a.power >= 0.0
    ensures ChargingPower(apps) >= 0.0 && HeatingPower(apps) >= 0.0
  {
    if apps != [] {
      PowersNonNegative(apps[..|apps| - 1]);
    }
  }

  /** One more appliance in the charger loop: its action, power and cost
      are added at the end. */
  lemma ChargerStep(units: seq<Unit>, i: nat, hour: int, cost: real, solar: real, selected: bool)
    requires i < |units|
    ensures var u := units[i];
            && ChargerActions(units[..i + 1], hour, cost, solar, selected)
               == ChargerActions(units[..i], hour, cost, solar, selected)
                  + (if u.kind == EVChargerKind then [ChargerAction(u, hour, cost, solar, selected)] else [])
            && ChargingPower(units[..i + 1]) == ChargingPower(units[..i]) + (if u.kind == EVChargerKind then u.maxChargePower else 0.0)
            && ChargingCost(units[..i + 1], cost) == ChargingCost(units[..i], cost) + (if u.kind == EVChargerKind then u.maxChargePower * cost else 0.0)
  {
    assert units[..i + 1][..i] == units[..i];
  }

  /** One more appliance in a thermal loop. */
  lemma ThermalStep(units: seq<Unit>, i: nat, hour: int, cost: real, s: Settings)
    requires i < |units|
    ensures var u := units[i];
            && ThermalActions(units[..i + 1], hour, cost, s) == ThermalActions(units[..i], hour, cost, s) + ThermalAction(u, hour, cost, s)
            && HeatingPower(units[..i + 1]) == HeatingPower(units[..i]) + (if u.kind == HeaterKind then u.power else 0.0)
            && HeatingCost(units[..i + 1], cost) == HeatingCost(units[..i], cost) + (if u.kind == HeaterKind then u.power * cost else 0.0)
  {
    assert units[..i + 1][..i] == units[..i];
  }

  /** One more load in the deferrable-load loop. */
  lemma DeferrableStep(ids: seq<string>, i: nat, hour: int, cost: real, high: real)
    requires i < |ids|
    ensures DeferrableActions(ids[..i + 1], hour, cost, high)
            == DeferrableActions(ids[..i], hour, cost, high)
               + [if cost > high then ScheduledAction(hour, ids[i], Off, 0.0, DeferrableOff(cost))
                  else ScheduledAction(hour, ids[i], On, 0.0, DeferrableOn(cost))]
  {
    assert ids[..i + 1][..i] == ids[..i];
  }

  /** When the forecast hours are distinct, the actions the schedule holds
      for the hour of one forecast are exactly that hour's actions. */
  lemma {:induction false} ScheduleActionsAtHour(ids: seq<string>, apps: seq<Unit>, forecasts: seq<HourlyForecast>, best: seq<int>, s: Settings, k: int)
    requires forall i, j :: 0 <= i < j < |forecasts| ==> forecasts[i].hour != forecasts[j].hour
    requires 0 <= k < |forecasts|
    ensures ActionsAt(ScheduleActions(ids, apps, forecasts, best, s), forecasts[k].hour)
            == HourActions(ids, apps, forecasts[k], best, s)
  {
    var n := |forecasts| - 1;
    var h := forecasts[k].hour;
    var prefix := ScheduleActions(ids, apps, forecasts[..n], best, s);
    var last := HourActions(ids, apps, forecasts[n], best, s);
    ActionsAtAppend(prefix, last, h);
    HourActionsOrdered(ids, apps, forecasts[n], best, s);
    if k == n {
      ScheduleHoursBelow(ids, apps, forecasts[..n], best, s, h);
      ActionsAtNone(prefix, h);
      ActionsAtAll(last, h);
    } else {
      ScheduleActionsAtHour(ids, apps, forecasts[..n], best, s, k);
      ActionsAtNone(last, h);
    }
  }

  /** An hour that no forecast has gets no action in the schedule. */
  lemma {:induction false} ScheduleHoursBelow(ids: seq<string>, apps: seq<Unit>, forecasts: seq<HourlyForecast>, best: seq<int>, s: Settings, h: int)
    requires forall i :: 0 <= i < |forecasts| ==> forecasts[i].hour != h
    ensures forall i :: 0 <= i < |ScheduleActions(ids, apps, forecasts, best, s)| ==> ScheduleActions(ids, apps, forecasts, best, s)[i].hour != h
  {
    if forecasts != [] {
      var n := |forecasts| - 1;
      ScheduleHoursBelow(ids, apps, forecasts[..n], best, s, h);
      HourActionsOrdered(ids, apps, forecasts[n], best, s);
    }
  }

  // ---------------------------------------------------------------------
  // The optimizer

  class DayAheadOptimizer {
    const predictor: MLPredictor
    var appliances: seq<Appliance>
    var deferrableController: Deferrable.DeferrableLoadController?
    var targetIndoorTemp: real
    const highCostThreshold: real
    const lowCostThreshold: real
    var evChargingHoursNeeded: int

    /** A new optimizer: no appliances, no controller, target 22 degrees,
        high price 0.15, low price 0.10, four charging hours. */
    constructor (predictor: MLPredictor)
      ensures this.predictor == predictor && appliances == [] && deferrableController == null
      ensures targetIndoorTemp == 22.0 && highCostThreshold == 0.15 && lowCostThreshold == 0.10
      ensures evChargingHoursNeeded == 4
    {
      this.predictor := predictor;
      appliances := [];
      deferrableController := null;
      targetIndoorTemp := 22.0;
      highCostThreshold := 0.15;
      lowCostThreshold := 0.10;
      evChargingHoursNeeded := 4;
    }

    function CurrentSettings(): Settings
      reads this
    {
      Settings(targetIndoorTemp, highCostThreshold, lowCostThreshold)
    }

    /** The ids of the controller's deferrable loads, none without a
        controller. */
    function DeferrableIds(): seq<string>
      reads this, deferrableController
    {
      if deferrableController == null then [] else Deferrable.LoadIds(deferrableController.deferrableLoads)
    }

    method AddAppliance(appliance: Appliance)
      modifies this
      ensures appliances == old(appliances) + [appliance]
      ensures deferrableController == old(deferrableController) && targetIndoorTemp == old(targetIndoorTemp)
      ensures evChargingHoursNeeded == old(evChargingHoursNeeded)
    {
      appliances := appliances + [appliance];
    }

    method SetTargetTemperature(temp: real)
      modifies this
      ensures targetIndoorTemp == temp
      ensures appliances == old(appliances) && deferrableController == old(deferrableController)
      ensures evChargingHoursNeeded == old(evChargingHoursNeeded)
    {
      targetIndoorTemp := temp;
    }

    method SetEVChargingHoursNeeded(hours: int)
      modifies this
      ensures evChargingHoursNeeded == hours
      ensures appliances == old(appliances) && deferrableController == old(deferrableController)
      ensures targetIndoorTemp == old(targetIndoorTemp)
    {
      evChargingHoursNeeded := hours;
    }

    method SetDeferrableLoadController(controller: Deferrable.DeferrableLoadController?)
      modifies this
      ensures deferrableController == controller
      ensures appliances == old(appliances) && targetIndoorTemp == old(targetIndoorTemp)
      ensures evChargingHoursNeeded == old(evChargingHoursNeeded)
    {
      deferrableController := controller;
    }

    /** findBestEVChargingHours: score every forecast hour, rank best first
        and keep the first `evChargingHoursNeeded` hours. */
    method FindBestEVChargingHours(forecasts: seq<HourlyForecast>) returns (bestHours: seq<int>)
      ensures bestHours == BestHours(forecasts, evChargingHoursNeeded)
      ensures |bestHours| == SelectedCount(evChargingHoursNeeded, |forecasts|)
    {
      var scores := [];
      var i := 0;
      while i < |forecasts|
        invariant 0 <= i <= |forecasts|
        invariant scores == Scores(forecasts[..i])
      {
        assert forecasts[..i + 1][..i] == forecasts[..i];
        scores := scores + [HourScore(forecasts[i].hour, -forecasts[i].predictedEnergyCost + forecasts[i].predictedSolarProduction * 0.1)];
        i := i + 1;
      }
      assert forecasts[..i] == forecasts;
      var ranked := SortDesc(scores);
      var count := SelectedCount(evChargingHoursNeeded, |scores|);
      bestHours := [];
      i := 0;
      while i < count
        invariant 0 <= i <= count
        invariant bestHours == HoursOf(ranked[..i])
      {
        bestHours := bestHours + [ranked[i].hour];
        i := i + 1;
      }
    }

    /** optimizeHour: appends the hour's actions in the order deferrable
        loads, chargers, thermal appliances, and adds the energy and cost
        of charging and preheating to the estimates. */
    method OptimizeHour(forecast: HourlyForecast, bestEVHours: seq<int>, schedule: DayAheadSchedule)
      modifies schedule
      ensures schedule.actions == old(schedule.actions) + HourActions(DeferrableIds(), Units(appliances), forecast, bestEVHours, CurrentSettings())
      ensures schedule.estimatedConsumption == old(schedule.estimatedConsumption) + HourEnergy(Units(appliances), forecast, bestEVHours, CurrentSettings())
      ensures schedule.estimatedCost == old(schedule.estimatedCost) + HourCost(Units(appliances), forecast, bestEVHours, CurrentSettings())
    {
      var hour := forecast.hour;
      var cost := forecast.predictedEnergyCost;
      var solar := forecast.predictedSolarProduction;
      ScheduleDeferrableLoads(hour, cost, schedule);
      label deferred:
      ScheduleChargers(hour, cost, solar, hour in bestEVHours, schedule);
      label charged:
      ScheduleThermal(hour, cost, schedule);
      HourStages(old(schedule.actions), old@deferred(schedule.actions), old@charged(schedule.actions), schedule.actions,
                 old(schedule.estimatedConsumption), old@charged(schedule.estimatedConsumption), schedule.estimatedConsumption,
                 old(schedule.estimatedCost), old@charged(schedule.estimatedCost), schedule.estimatedCost,
                 DeferrableIds(), Units(appliances), forecast, bestEVHours, CurrentSettings());
    }

    /** The deferrable-load part of optimizeHour: one action per load of the
        controller, if there is one. */
    method ScheduleDeferrableLoads(hour: int, cost: real, schedule: DayAheadSchedule)
      modifies schedule
      ensures schedule.actions == old(schedule.actions) + DeferrableActions(DeferrableIds(), hour, cost, highCostThreshold)
      ensures schedule.estimatedCost == old(schedule.estimatedCost)
      ensures schedule.estimatedConsumption == old(schedule.estimatedConsumption)
    {
      if deferrableController == null {
        return;
      }
      var loads := deferrableController.GetDeferrableLoads();
      ghost var ids := Deferrable.LoadIds(loads);
      var i := 0;
      while i < |loads|
        invariant 0 <= i <= |loads|
        invariant schedule.actions == old(schedule.actions) + DeferrableActions(ids[..i], hour, cost, highCostThreshold)
        invariant schedule.estimatedCost == old(schedule.estimatedCost)
        invariant schedule.estimatedConsumption == old(schedule.estimatedConsumption)
      {
        DeferrableStep(ids, i, hour, cost, highCostThreshold);
        Text.AppendAssoc(old(schedule.actions), DeferrableActions(ids[..i], hour, cost, highCostThreshold),
                         [if cost > highCostThreshold then ScheduledAction(hour, ids[i], Off, 0.0, DeferrableOff(cost))
                          else ScheduledAction(hour, ids[i], On, 0.0, DeferrableOn(cost))]);
        if cost > highCostThreshold {
          schedule.AddAction(hour, loads[i].id, Off, 0.0, DeferrableOff(cost));
        } else {
          schedule.AddAction(hour, loads[i].id, On, 0.0, DeferrableOn(cost));
        }
        i := i + 1;
      }
      assert ids[..i] == ids;
    }

    /** The charger part of optimizeHour. */
    method ScheduleChargers(hour: int, cost: real, solar: real, shouldCharge: bool, schedule: DayAheadSchedule)
      modifies schedule
      ensures schedule.actions == old(schedule.actions) + ChargerActions(Units(appliances), hour, cost, solar, shouldCharge)
      ensures schedule.estimatedConsumption == old(schedule.estimatedConsumption) + (if shouldCharge then ChargingPower(Units(appliances)) else 0.0)
      ensures schedule.estimatedCost == old(schedule.estimatedCost) + (if shouldCharge then ChargingCost(Units(appliances), cost) else 0.0)
    {
      ghost var units := Units(appliances);
      var i := 0;
      while i < |appliances|
        invariant 0 <= i <= |appliances|
        invariant schedule.actions == old(schedule.actions) + ChargerActions(units[..i], hour, cost, solar, shouldCharge)
        invariant schedule.estimatedConsumption == old(schedule.estimatedConsumption) + (if shouldCharge then ChargingPower(units[..i]) else 0.0)
        invariant schedule.estimatedCost == old(schedule.estimatedCost) + (if shouldCharge then ChargingCost(units[..i], cost) else 0.0)
      {
        ChargerAt(i, hour, cost, solar, shouldCharge, schedule, old(schedule.actions), old(schedule.estimatedConsumption), old(schedule.estimatedCost));
        i := i + 1;
      }
      assert units[..i] == units;
    }

    /** One round of the charger loop: the actions and estimates over the
        first i appliances become those over the first i + 1. */
    method ChargerAt(i: nat, hour: int, cost: real, solar: real, shouldCharge: bool, schedule: DayAheadSchedule,
                     ghost actions0: seq<ScheduledAction>, ghost energy0: real, ghost cost0: real)
      requires i < |appliances|
      requires schedule.actions == actions0 + ChargerActions(Units(appliances)[..i], hour, cost, solar, shouldCharge)
      requires schedule.estimatedConsumption == energy0 + (if shouldCharge then ChargingPower(Units(appliances)[..i]) else 0.0)
      requires schedule.estimatedCost == cost0 + (if shouldCharge then ChargingCost(Units(appliances)[..i], cost) else 0.0)
      modifies schedule
      ensures schedule.actions == actions0 + ChargerActions(Units(appliances)[..i + 1], hour, cost, solar, shouldCharge)
      ensures schedule.estimatedConsumption == energy0 + (if shouldCharge then ChargingPower(Units(appliances)[..i + 1]) else 0.0)
      ensures schedule.estimatedCost == cost0 + (if shouldCharge then ChargingCost(Units(appliances)[..i + 1], cost) else 0.0)
    {
      ghost var units := Units(appliances);
      var appliance := appliances[i];
      assert units[i] == Unit(appliance.id, appliance.kind, appliance.maxChargePower, appliance.powerConsumption);
      ChargerStep(units, i, hour, cost, solar, shouldCharge);
      Text.AppendAssoc(actions0, ChargerActions(units[..i], hour, cost, solar, shouldCharge),
                       if units[i].kind == EVChargerKind then [ChargerAction(units[i], hour, cost, solar, shouldCharge)] else []);
      ScheduleCharger(appliance, hour, cost, solar, shouldCharge, schedule);
    }

    /** One appliance of the charger loop: a charger is charged at its rated
        power, adding that power and its price to the estimates, or
        deferred; any other appliance is skipped. */
    method ScheduleCharger(appliance: Appliance, hour: int, cost: real, solar: real, shouldCharge: bool, schedule: DayAheadSchedule)
      modifies schedule
      ensures var u := Unit(appliance.id, appliance.kind, appliance.maxChargePower, appliance.powerConsumption);
              var charger := appliance.kind == EVChargerKind;
              && schedule.actions == old(schedule.actions) + (if charger then [ChargerAction(u, hour, cost, solar, shouldCharge)] else [])
              && schedule.estimatedConsumption == old(schedule.estimatedConsumption) + (if shouldCharge && charger then u.maxChargePower else 0.0)
              && schedule.estimatedCost == old(schedule.estimatedCost) + (if shouldCharge && charger then u.maxChargePower * cost else 0.0)
    {
      if appliance.kind == EVChargerKind {
        if shouldCharge {
          schedule.AddAction(hour, appliance.id, Charge, appliance.maxChargePower, LowCost(cost, solar, solar > 5.0));
          schedule.estimatedConsumption := schedule.estimatedConsumption + appliance.maxChargePower;
          schedule.estimatedCost := schedule.estimatedCost + appliance.maxChargePower * cost;
        } else {
          schedule.AddAction(hour, appliance.id, Defer, 0.0, NotOptimalHour);
        }
      }
    }

    /** The thermal part of optimizeHour. */
    method ScheduleThermal(hour: int, cost: real, schedule: DayAheadSchedule)
      modifies schedule
      ensures schedule.actions == old(schedule.actions) + ThermalActions(Units(appliances), hour, cost, CurrentSettings())
      ensures schedule.estimatedConsumption == old(schedule.estimatedConsumption) + (if cost < lowCostThreshold then HeatingPower(Units(appliances)) else 0.0)
      ensures schedule.estimatedCost == old(schedule.estimatedCost) + (if cost < lowCostThreshold then HeatingCost(Units(appliances), cost) else 0.0)
    {
      if cost < lowCostThreshold {
        SchedulePreheat(hour, cost, schedule);
      } else if cost > highCostThreshold {
        ScheduleMinimize(hour, cost, schedule);
      } else {
        ThermalActionsByPrice(Units(appliances), hour, cost, CurrentSettings());
      }
    }

    /** Preheating below the low threshold. */
    method SchedulePreheat(hour: int, cost: real, schedule: DayAheadSchedule)
      requires cost < lowCostThreshold
      modifies schedule
      ensures schedule.actions == old(schedule.actions) + ThermalActions(Units(appliances), hour, cost, CurrentSettings())
      ensures schedule.estimatedConsumption == old(schedule.estimatedConsumption) + HeatingPower(Units(appliances))
      ensures schedule.estimatedCost == old(schedule.estimatedCost) + HeatingCost(Units(appliances), cost)
    {
      ghost var units := Units(appliances);
      ghost var s := CurrentSettings();
      var i := 0;
      while i < |appliances|
        invariant 0 <= i <= |appliances|
        invariant schedule.actions == old(schedule.actions) + ThermalActions(units[..i], hour, cost, s)
        invariant schedule.estimatedConsumption == old(schedule.estimatedConsumption) + HeatingPower(units[..i])
        invariant schedule.estimatedCost == old(schedule.estimatedCost) + HeatingCost(units[..i], cost)
      {
        PreheatAt(i, hour, cost, schedule, old(schedule.actions), old(schedule.estimatedConsumption), old(schedule.estimatedCost));
        i := i + 1;
      }
      assert units[..i] == units;
    }

    /** One round of the preheating loop: the estimates and actions summed
        over the first i appliances become those over the first i + 1. */
    method PreheatAt(i: nat, hour: int, cost: real, schedule: DayAheadSchedule, ghost actions0: seq<ScheduledAction>, ghost energy0: real, ghost cost0: real)
      requires cost < lowCostThreshold && i < |appliances|
      requires schedule.actions == actions0 + ThermalActions(Units(appliances)[..i], hour, cost, CurrentSettings())
      requires schedule.estimatedConsumption == energy0 + HeatingPower(Units(appliances)[..i])
      requires schedule.estimatedCost == cost0 + HeatingCost(Units(appliances)[..i], cost)
      modifies schedule
      ensures schedule.actions == actions0 + ThermalActions(Units(appliances)[..i + 1], hour, cost, CurrentSettings())
      ensures schedule.estimatedConsumption == energy0 + HeatingPower(Units(appliances)[..i + 1])
      ensures schedule.estimatedCost == cost0 + HeatingCost(Units(appliances)[..i + 1], cost)
    {
      ghost var units := Units(appliances);
      ghost var s := CurrentSettings();
      var appliance := appliances[i];
      assert units[i] == Unit(appliance.id, appliance.kind, appliance.maxChargePower, appliance.powerConsumption);
      ThermalStep(units, i, hour, cost, s);
      Text.AppendAssoc(actions0, ThermalActions(units[..i], hour, cost, s), ThermalAction(units[i], hour, cost, s));
      PreheatOne(appliance, hour, cost, schedule);
    }

    /** One appliance of the preheating loop: a heater is switched on one
        degree above the target, adding its power and price to the
        estimates. */
    method PreheatOne(appliance: Appliance, hour: int, cost: real, schedule: DayAheadSchedule)
      requires cost < lowCostThreshold
      modifies schedule
      ensures var u := Unit(appliance.id, appliance.kind, appliance.maxChargePower, appliance.powerConsumption);
              var heater := appliance.kind == HeaterKind;
              && schedule.actions == old(schedule.actions) + ThermalAction(u, hour, cost, CurrentSettings())
              && schedule.estimatedConsumption == old(schedule.estimatedConsumption) + (if heater then u.power else 0.0)
              && schedule.estimatedCost == old(schedule.estimatedCost) + (if heater then u.power * cost else 0.0)
    {
      if appliance.kind == HeaterKind {
        schedule.AddAction(hour, appliance.id, On, targetIndoorTemp + 1.0, Preheat);
        schedule.estimatedConsumption := schedule.estimatedConsumption + appliance.powerConsumption;
        schedule.estimatedCost := schedule.estimatedCost + appliance.powerConsumption * cost;
      }
    }

    /** Minimising heating and cooling above the high threshold. */
    method ScheduleMinimize(hour: int, cost: real, schedule: DayAheadSchedule)
      requires lowCostThreshold <= cost && cost > highCostThreshold
      modifies schedule
      ensures schedule.actions == old(schedule.actions) + ThermalActions(Units(appliances), hour, cost, CurrentSettings())
      ensures schedule.estimatedConsumption == old(schedule.estimatedConsumption)
      ensures schedule.estimatedCost == old(schedule.estimatedCost)
    {
      ghost var units := Units(appliances);
      ghost var s := CurrentSettings();
      var i := 0;
      while i < |appliances|
        invariant 0 <= i <= |appliances|
        invariant units == Units(appliances)
        invariant schedule.actions == old(schedule.actions) + ThermalActions(units[..i], hour, cost, s)
        invariant schedule.estimatedConsumption == old(schedule.estimatedConsumption)
        invariant schedule.estimatedCost == old(schedule.estimatedCost)
      {
        var appliance := appliances[i];
        ThermalStep(units, i, hour, cost, s);
        assert units[i] == Unit(appliance.id, appliance.kind, appliance.maxChargePower, appliance.powerConsumption);
        Text.AppendAssoc(old(schedule.actions), ThermalActions(units[..i], hour, cost, s), ThermalAction(units[i], hour, cost, s));
        if appliance.kind == HeaterKind {
          schedule.AddAction(hour, appliance.id, Minimize, 0.0, ReduceHeating);
        } else if appliance.kind == AirConditionerKind {
          schedule.AddAction(hour, appliance.id, Minimize, 0.0, ReduceCooling);
        }
        i := i + 1;
      }
      assert units[..i] == units;
    }

    /** generateSchedule: a fresh schedule holding, hour after hour of the
        predictor's forecast, that hour's actions, with the estimates summed
        from zero. */
    method GenerateSchedule(currentHour: int, currentDayOfWeek: int) returns (schedule: DayAheadSchedule)
      ensures fresh(schedule)
      ensures var forecasts := predictor.Forecasts(currentHour, currentDayOfWeek);
              var best := BestHours(forecasts, evChargingHoursNeeded);
              && schedule.actions == ScheduleActions(DeferrableIds(), Units(appliances), forecasts, best, CurrentSettings())
              && schedule.estimatedConsumption == ScheduleEnergy(Units(appliances), forecasts, best, CurrentSettings())
              && schedule.estimatedCost == ScheduleCost(Units(appliances), forecasts, best, CurrentSettings())
    {
      var forecasts := predictor.PredictNext24Hours(currentHour, currentDayOfWeek);
      schedule := new DayAheadSchedule();
      schedule.estimatedCost := 0.0;
      schedule.estimatedConsumption := 0.0;
      var bestEVHours := FindBestEVChargingHours(forecasts);
      OptimizeHours(forecasts, bestEVHours, schedule);
    }

    /** The loop of generateSchedule: optimizeHour for every forecast, in
        order. */
    method OptimizeHours(forecasts: seq<HourlyForecast>, bestEVHours: seq<int>, schedule: DayAheadSchedule)
      modifies schedule
      ensures schedule.actions == old(schedule.actions) + ScheduleActions(DeferrableIds(), Units(appliances), forecasts, bestEVHours, CurrentSettings())
      ensures schedule.estimatedConsumption == old(schedule.estimatedConsumption) + ScheduleEnergy(Units(appliances), forecasts, bestEVHours, CurrentSettings())
      ensures schedule.estimatedCost == old(schedule.estimatedCost) + ScheduleCost(Units(appliances), forecasts, bestEVHours, CurrentSettings())
    {
      ghost var ids, units, s := DeferrableIds(), Units(appliances), CurrentSettings();
      var i := 0;
      while i < |forecasts|
        invariant 0 <= i <= |forecasts|
        invariant ids == DeferrableIds() && units == Units(appliances)
        invariant schedule.actions == old(schedule.actions) + ScheduleActions(ids, units, forecasts[..i], bestEVHours, s)
        invariant schedule.estimatedConsumption == old(schedule.estimatedConsumption) + ScheduleEnergy(units, forecasts[..i], bestEVHours, s)
        invariant schedule.estimatedCost == old(schedule.estimatedCost) + ScheduleCost(units, forecasts[..i], bestEVHours, s)
      {
        assert forecasts[..i + 1][..i] == forecasts[..i];
        Text.AppendAssoc(old(schedule.actions), ScheduleActions(ids, units, forecasts[..i], bestEVHours, s),
                    HourActions(ids, units, forecasts[i], bestEVHours, s));
        OptimizeHour(forecasts[i], bestEVHours, schedule);
        i := i + 1;
      }
      assert forecasts[..i] == forecasts;
    }
  }

  /** The schedule generated from a forecast with distinct hours answers
      getActionsForHour with exactly the actions optimizeHour produced for
      that hour. */
  lemma GeneratedHourLookup(ids: seq<string>, apps: seq<Unit>, currentHour: int, predictor: MLPredictor, currentDayOfWeek: int, needed: int, s: Settings, k: int)
    requires 0 <= currentHour < 24 && 0 <= k < 24
    ensures var forecasts := predictor.Forecasts(currentHour, currentDayOfWeek);
            var best := BestHours(forecasts, needed);
            |forecasts| == 24 &&
            ActionsAt(ScheduleActions(ids, apps, forecasts, best, s), forecasts[k].hour)
              == HourActions(ids, apps, forecasts[k], best, s)
  {
    var forecasts := predictor.Forecasts(currentHour, currentDayOfWeek);
    ForecastHoursPermute(currentHour);
    ScheduleActionsAtHour(ids, apps, forecasts, BestHours(forecasts, needed), s, k);
  }
}
