/** The rule-based live optimizer: on every change of cost, temperature or
    solar production it re-evaluates threshold rules over the registered
    appliances: chargers follow cost and solar surplus, heaters and air
    conditioners follow the distance to the target temperature, lights are
    dimmed at expensive dark moments and curtains shade or admit the sun.

    Each rule is a function on an appliance snapshot; each optimisation pass
    is a loop that applies its rule to every registered appliance. The
    charger pass applies the charger rule as written, which compares solar
    production with the charger's present charge power; that rule is not
    idempotent, so a charger registered k times has it applied k times in
    one pass. EVRule is the corrected reference rule, idempotent like the
    temperature, lighting and curtain rules. */
module LiveOptimizer {
  import opened Appliances
  import Text
  import opened CArith
  import opened Events

  /** The readings and settings the rules decide on. */
  datatype Conditions = Conditions(
    cost: real,
    indoorTemp: real,
    outdoorTemp: real,
    solar: real,
    targetIndoorTemp: real,
    highCostThreshold: real,
    lowCostThreshold: real)
  {
    /** How far the room is below its target (negative when above). */
    function TempDiff(): real {
      targetIndoorTemp - indoorTemp
    }
  }

  // ---------------------------------------------------------------------
  // EV charging

  /** The charger rule exactly as written: the solar production is compared
      with the charger's present charge power, which is 0 while it is off. */
  function EVRuleAsWritten(s: Snapshot, c: Conditions): (r: Snapshot)
    ensures s.kind != EVChargerKind ==> r == s
    ensures r == s || r == TurnedOff(s) || r == TurnedOn(s)
    ensures s.on && !r.on <==>
              s.kind == EVChargerKind && s.on && c.cost > c.highCostThreshold && c.solar < s.chargePower
    ensures !s.on && r.on <==>
              && s.kind == EVChargerKind && !s.on && s.enabled
              && !(c.cost > c.highCostThreshold && c.solar < s.chargePower)
              && (c.cost <= c.lowCostThreshold || c.solar >= s.chargePower)
  {
    if s.kind != EVChargerKind then s
    else if c.cost > c.highCostThreshold && c.solar < s.chargePower then
      if s.on then TurnedOff(s) else s
    else if c.cost <= c.lowCostThreshold || c.solar >= s.chargePower then
      if !s.on then TurnedOn(s) else s
    else s
  }

  /** As written, a charging charger stopped for high cost at a time of
      weak sun is restarted by the very next pass under unchanged
      conditions: once off its charge power is 0, which any non-negative
      solar production "covers". */
  lemma EVRuleAsWrittenOscillates(s: Snapshot, c: Conditions)
    requires s.kind == EVChargerKind && s.enabled && s.on
    requires c.cost > c.highCostThreshold && 0.0 <= c.solar < s.chargePower
    ensures !EVRuleAsWritten(s, c).on
    ensures EVRuleAsWritten(EVRuleAsWritten(s, c), c).on
    ensures EVRuleAsWritten(EVRuleAsWritten(s, c), c).chargePower == s.maxChargePower
  {
    var off := EVRuleAsWritten(s, c);
    assert off == TurnedOff(s);
    assert off.chargePower == 0.0 && off.enabled;
    assert EVRuleAsWritten(off, c) == TurnedOn(off);
  }

  /** A concrete instance: a 7.2 kW charger, cost 0.20 above the 0.15
      threshold, no sun. */
  lemma EVRuleAsWrittenExample()
    ensures var s := Snapshot(EVChargerKind, 7.2, true, 7.2, false, true, 7.2, 0, 0, 0.0);
            var c := Conditions(0.20, 20.0, 15.0, 0.0, 22.0, 0.15, 0.10);
            !EVRuleAsWritten(s, c).on && EVRuleAsWritten(EVRuleAsWritten(s, c), c).on
  {
    var s := Snapshot(EVChargerKind, 7.2, true, 7.2, false, true, 7.2, 0, 0, 0.0);
    var c := Conditions(0.20, 20.0, 15.0, 0.0, 22.0, 0.15, 0.10);
    EVRuleAsWrittenOscillates(s, c);
  }

  /** The charger rule as intended: solar production is compared with the
      charger's rated power. An on
      charger is stopped exactly when cost is high and the sun cannot cover
      charging; otherwise an off (enabled) charger is started exactly when
      cost is low or the sun covers charging. */
  function EVRule(s: Snapshot, c: Conditions): (r: Snapshot)
    ensures s.kind != EVChargerKind ==> r == s
    ensures r == s || r == TurnedOff(s) || r == TurnedOn(s)
    ensures s.on && !r.on <==>
              s.kind == EVChargerKind && s.on && c.cost > c.highCostThreshold && c.solar < s.maxChargePower
    ensures !s.on && r.on <==>
              && s.kind == EVChargerKind && !s.on && s.enabled
              && !(c.cost > c.highCostThreshold && c.solar < s.maxChargePower)
              && (c.cost <= c.lowCostThreshold || c.solar >= s.maxChargePower)
  {
    if s.kind != EVChargerKind then s
    else if c.cost > c.highCostThreshold && c.solar < s.maxChargePower then
      if s.on then TurnedOff(s) else s
    else if c.cost <= c.lowCostThreshold || c.solar >= s.maxChargePower then
      if !s.on then TurnedOn(s) else s
    else s
  }

  /** Under unchanged conditions a second pass changes nothing. */
  lemma EVRuleIdempotent(s: Snapshot, c: Conditions)
    ensures EVRule(EVRule(s, c), c) == EVRule(s, c)
  {
  }

  /** The two rules agree on a charger that is charging at its rated
      power; they part only on a charger that is off or throttled. */
  lemma EVRulesAgreeAtFullPower(s: Snapshot, c: Conditions)
    requires s.on && s.chargePower == s.maxChargePower
    ensures EVRuleAsWritten(s, c) == EVRule(s, c)
  {
  }

  /** The rule as written applied n times in a row: what one charger pass
      does to a charger registered n times. Only chargers change, only the
      on/off flag and the charge power move, and consistency is kept. */
  function EVRuleRepeated(s: Snapshot, c: Conditions, n: nat): (r: Snapshot)
    ensures s.kind != EVChargerKind ==> r == s
    ensures SameSettings(s, r)
    ensures Consistent(s) ==> Consistent(r)
  {
    if n == 0 then s else EVRuleAsWritten(EVRuleRepeated(s, c, n - 1), c)
  }

  // ---------------------------------------------------------------------
  // Temperature control

  /** Heaters: turned on when more than 2 degrees below target; otherwise
      turned off when within half a degree, or when cost is high and within
      1.5 degrees. */
  function HeaterRule(s: Snapshot, c: Conditions): (r: Snapshot)
    ensures s.kind != HeaterKind ==> r == s
    ensures r == s || r == TurnedOff(s) || r == TurnedOn(s)
    ensures !s.on && r.on <==> s.kind == HeaterKind && !s.on && s.enabled && c.TempDiff() > 2.0
    ensures s.on && !r.on <==>
              && s.kind == HeaterKind && s.on && c.TempDiff() <= 2.0
              && (c.TempDiff() < 0.5 || (c.cost > c.highCostThreshold && c.TempDiff() < 1.5))
  {
    var diff := c.TempDiff();
    if s.kind != HeaterKind then s
    else if diff > 2.0 then
      if !s.on then TurnedOn(s) else s
    else if diff < 0.5 || (c.cost > c.highCostThreshold && diff < 1.5) then
      if s.on then TurnedOff(s) else s
    else s
  }

  /** Air conditioners, the mirror image: turned on when more than 2
      degrees above target; otherwise turned off when within half a degree,
      or when cost is high and within 1.5 degrees. */
  function AirConditionerRule(s: Snapshot, c: Conditions): (r: Snapshot)
    ensures s.kind != AirConditionerKind ==> r == s
    ensures r == s || r == TurnedOff(s) || r == TurnedOn(s)
    ensures !s.on && r.on <==> s.kind == AirConditionerKind && !s.on && s.enabled && c.TempDiff() < -2.0
    ensures s.on && !r.on <==>
              && s.kind == AirConditionerKind && s.on && c.TempDiff() >= -2.0
              && (c.TempDiff() > -0.5 || (c.cost > c.highCostThreshold && c.TempDiff() > -1.5))
  {
    var diff := c.TempDiff();
    if s.kind != AirConditionerKind then s
    else if diff < -2.0 then
      if !s.on then TurnedOn(s) else s
    else if diff > -0.5 || (c.cost > c.highCostThreshold && diff > -1.5) then
      if s.on then TurnedOff(s) else s
    else s
  }

  /** One temperature pass over one appliance: the heater rule, then the
      air-conditioner rule (at most one of them applies to any kind). */
  function TemperatureRule(s: Snapshot, c: Conditions): (r: Snapshot)
    ensures s.kind == HeaterKind ==> r == HeaterRule(s, c)
    ensures s.kind != HeaterKind ==> r == AirConditionerRule(s, c)
  {
    AirConditionerRule(HeaterRule(s, c), c)
  }

  /** Heating and cooling never fight: no temperature makes the pass turn
      a heater on and an air conditioner on at once. */
  lemma NeverHeatAndCool(h: Snapshot, a: Snapshot, c: Conditions)
    requires h.kind == HeaterKind && a.kind == AirConditionerKind
    ensures !(!h.on && TemperatureRule(h, c).on && !a.on && TemperatureRule(a, c).on)
  {
  }

  lemma TemperatureRuleIdempotent(s: Snapshot, c: Conditions)
    ensures TemperatureRule(TemperatureRule(s, c), c) == TemperatureRule(s, c)
  {
  }

  // ---------------------------------------------------------------------
  // Lighting

  /** An on light brighter than 70 is dimmed to 70 when cost is high and
      the sun is weak; brightness is never raised and on/off never
      changes. */
  function LightRule(s: Snapshot, c: Conditions): (r: Snapshot)
    ensures r.on == s.on && r.brightness <= s.brightness
    ensures r != s <==>
              && s.kind == LightKind && s.on && c.cost > c.highCostThreshold && c.solar < 1.0
              && s.brightness > 70
    ensures r != s ==> r == s.(brightness := 70)
  {
    if s.kind == LightKind && s.on && c.cost > c.highCostThreshold && c.solar < 1.0 && s.brightness > 70 then
      WithBrightness(s, 70)
    else s
  }

  lemma LightRuleIdempotent(s: Snapshot, c: Conditions)
    ensures LightRule(LightRule(s, c), c) == LightRule(s, c)
  {
  }

  // ---------------------------------------------------------------------
  // Curtains

  /** It is hot outside and the room is already above target. */
  predicate ShadeWanted(c: Conditions) {
    c.outdoorTemp > c.indoorTemp + 5.0 && c.indoorTemp > c.targetIndoorTemp
  }

  /** It is colder outside than in and the sun is out. */
  predicate SunWanted(c: Conditions) {
    c.outdoorTemp < c.indoorTemp && c.solar > 0.5
  }

  /** Curtains: lowered to 20 when shade is wanted and they are higher;
      otherwise raised to 80 when sun is wanted and they are lower. A
      disabled curtain ignores both. */
  function CurtainRule(s: Snapshot, c: Conditions): (r: Snapshot)
    ensures SameSettings(s, r)
    ensures r != s <==>
              && s.kind == CurtainKind && s.enabled
              && (if ShadeWanted(c) then s.position > 20 else SunWanted(c) && s.position < 80)
    ensures r != s ==> r.position == (if ShadeWanted(c) then 20 else 80) && r.on == (r.position > 50)
    ensures s.kind == CurtainKind && Consistent(s) ==> Consistent(r)
  {
    if s.kind != CurtainKind then s
    else if ShadeWanted(c) then
      if s.position > 20 then WithPosition(s, 20) else s
    else if SunWanted(c) then
      if s.position < 80 then WithPosition(s, 80) else s
    else s
  }

  lemma CurtainRuleIdempotent(s: Snapshot, c: Conditions)
    ensures CurtainRule(CurtainRule(s, c), c) == CurtainRule(s, c)
  {
  }

  /** How often an appliance is registered in the list. */
  function Registrations(apps: seq<Appliance>, a: Appliance): nat {
    if apps == [] then 0
    else Registrations(apps[..|apps| - 1], a) + (if apps[|apps| - 1] == a then 1 else 0)
  }

  /** An appliance is registered at most once per entry, and at least once
      exactly when it is in the list. */
  lemma {:induction false} RegistrationsCount(apps: seq<Appliance>, a: Appliance)
    ensures Registrations(apps, a) <= |apps|
    ensures Registrations(apps, a) > 0 <==> a in apps
  {
    if apps != [] {
      var init := apps[..|apps| - 1];
      RegistrationsCount(init, a);
      assert apps == init + [apps[|apps| - 1]];
    }
  }

  /** A full optimisation cycle's effect on an appliance registered n
      times: the charger rule as written n times, then the temperature,
      lighting and curtain rules (each idempotent, so once). */
  function CycleRule(s: Snapshot, c: Conditions, n: nat): Snapshot {
    CurtainRule(LightRule(TemperatureRule(EVRuleRepeated(s, c, n), c), c), c)
  }

  /** The four passes of a cycle, one after the other, make up the cycle. */
  lemma CycleOfPasses(s0: Snapshot, s1: Snapshot, s2: Snapshot, s3: Snapshot, s4: Snapshot, c: Conditions, n: nat)
    requires s1 == EVRuleRepeated(s0, c, n) && s2 == TemperatureRule(s1, c)
    requires s3 == LightRule(s2, c) && s4 == CurtainRule(s3, c)
    ensures s4 == CycleRule(s0, c, n)
  {
  }

  /** Every rule keeps the invariant of the appliance state. */
  lemma CycleKeepsConsistent(s: Snapshot, c: Conditions, n: nat)
    requires Consistent(s)
    ensures Consistent(CycleRule(s, c, n))
  {
  }

  /** The location reading of a temperature event names the indoor sensor
      when it truncates to 0, that is for every reading strictly between
      -1 and 1. */
  lemma IndoorLocation(location: real)
    ensures TruncateReal(location) == 0 <==> -1.0 < location < 1.0
  {
  }

  // ---------------------------------------------------------------------
  // One appliance of each pass

  /** The charger rule, as written, applied to one appliance in place. */
  method ApplyEVRule(a: Appliance, c: Conditions)
    modifies a
    ensures a.State() == EVRuleAsWritten(old(a.State()), c)
  {
    if a.kind == EVChargerKind {
      if c.cost > c.highCostThreshold && c.solar < a.chargePower {
        if a.on {
          a.TurnOff();
        }
      } else if c.cost <= c.lowCostThreshold || c.solar >= a.chargePower {
        if !a.on {
          a.TurnOn();
        }
      }
    }
  }

  /** The heater and air-conditioner rules applied to one appliance in
      place. */
  method ApplyTemperatureRule(a: Appliance, c: Conditions)
    modifies a
    ensures a.State() == TemperatureRule(old(a.State()), c)
  {
    if a.kind == HeaterKind {
      if c.TempDiff() > 2.0 {
        if !a.on {
          a.TurnOn();
        }
      } else if c.TempDiff() < 0.5 || (c.cost > c.highCostThreshold && c.TempDiff() < 1.5) {
        if a.on {
          a.TurnOff();
        }
      }
    }
    if a.kind == AirConditionerKind {
      if c.TempDiff() < -2.0 {
        if !a.on {
          a.TurnOn();
        }
      } else if c.TempDiff() > -0.5 || (c.cost > c.highCostThreshold && c.TempDiff() > -1.5) {
        if a.on {
          a.TurnOff();
        }
      }
    }
  }

  /** The dimming rule applied to one appliance in place. */
  method ApplyLightRule(a: Appliance, c: Conditions)
    modifies a
    ensures a.State() == LightRule(old(a.State()), c)
  {
    if a.kind == LightKind && a.on {
      if c.cost > c.highCostThreshold && c.solar < 1.0 {
        if a.brightness > 70 {
          a.SetBrightness(70);
        }
      }
    }
  }

  /** The shading rule applied to one appliance in place. */
  method ApplyCurtainRule(a: Appliance, c: Conditions)
    modifies a
    ensures a.State() == CurtainRule(old(a.State()), c)
  {
    if a.kind == CurtainKind {
      if c.outdoorTemp > c.indoorTemp + 5.0 && c.indoorTemp > c.targetIndoorTemp {
        if a.position > 20 {
          a.SetPosition(20);
        }
      } else if c.outdoorTemp < c.indoorTemp && c.solar > 0.5 {
        if a.position < 80 {
          a.SetPosition(80);
        }
      }
    }
  }

  class EnergyOptimizer {
    var appliances: seq<Appliance>
    var currentEnergyCost: real
    var indoorTemp: real
    var outdoorTemp: real
    var solarProduction: real
    var energyConsumption: real
    var targetIndoorTemp: real
    const highCostThreshold: real
    const lowCostThreshold: real

    function CurrentConditions(): (c: Conditions)
      reads this
      ensures c.cost == currentEnergyCost && c.solar == solarProduction
      ensures c.indoorTemp == indoorTemp && c.outdoorTemp == outdoorTemp
      ensures c.targetIndoorTemp == targetIndoorTemp
      ensures c.highCostThreshold == highCostThreshold && c.lowCostThreshold == lowCostThreshold
    {
      Conditions(currentEnergyCost, indoorTemp, outdoorTemp, solarProduction, targetIndoorTemp,
                 highCostThreshold, lowCostThreshold)
    }

    /** Readings, target and thresholds all unchanged. */
    twostate predicate ReadingsUnchanged()
      reads this
    {
      && currentEnergyCost == old(currentEnergyCost) && indoorTemp == old(indoorTemp)
      && outdoorTemp == old(outdoorTemp) && solarProduction == old(solarProduction)
      && energyConsumption == old(energyConsumption) && targetIndoorTemp == old(targetIndoorTemp)
    }

    /** A new optimizer: no appliances, cost 0, indoor 20, outdoor 15, no
        sun, no consumption, target 22, thresholds 0.15 and 0.10. */
    constructor ()
      ensures appliances == []
      ensures CurrentConditions() == Conditions(0.0, 20.0, 15.0, 0.0, 22.0, 0.15, 0.10)
      ensures energyConsumption == 0.0
    {
      appliances := [];
      currentEnergyCost := 0.0;
      indoorTemp := 20.0;
      outdoorTemp := 15.0;
      solarProduction := 0.0;
      energyConsumption := 0.0;
      targetIndoorTemp := 22.0;
      highCostThreshold := 0.15;
      lowCostThreshold := 0.10;
    }

    method AddAppliance(a: Appliance)
      modifies this
      ensures appliances == old(appliances) + [a]
      ensures ReadingsUnchanged()
    {
      appliances := appliances + [a];
    }

    method SetTargetTemperature(t: real)
      modifies this
      ensures targetIndoorTemp == t && appliances == old(appliances)
      ensures currentEnergyCost == old(currentEnergyCost) && indoorTemp == old(indoorTemp)
      ensures outdoorTemp == old(outdoorTemp) && solarProduction == old(solarProduction)
      ensures energyConsumption == old(energyConsumption)
    {
      targetIndoorTemp := t;
    }

    /** optimizeEVCharging: the charger rule, as written, applied to every
        registered appliance in turn; an appliance registered k times has
        it applied k times. */
    method OptimizeEVCharging()
      modifies appliances
      ensures forall j :: 0 <= j < |appliances| ==>
                appliances[j].State()
                == EVRuleRepeated(old(appliances[j].State()), CurrentConditions(), Registrations(appliances, appliances[j]))
    {
      var c := CurrentConditions();
      var apps := appliances;
      ghost var before := seq(|apps|, j requires 0 <= j < |apps| reads apps => apps[j].State());
      var i := 0;
      while i < |apps|
        invariant 0 <= i <= |apps|
        invariant forall j :: 0 <= j < |apps| ==> before[j] == old(apps[j].State())
        invariant forall j :: 0 <= j < |apps| ==>
                    apps[j].State() == EVRuleRepeated(before[j], c, Registrations(apps[..i], apps[j]))
      {
        ChargerPassAt(apps, before, c, i);
        i := i + 1;
      }
      assert apps[..i] == apps;
    }

    /** Round `i` of the charger pass: the appliance visited has the rule
        applied once more, every other appliance is left alone. */
    method ChargerPassAt(apps: seq<Appliance>, ghost before: seq<Snapshot>, c: Conditions, i: nat)
      requires i < |apps| == |before|
      requires forall j, k :: 0 <= j < |apps| && 0 <= k < |apps| && apps[j] == apps[k] ==> before[j] == before[k]
      requires forall j :: 0 <= j < |apps| ==>
                 apps[j].State() == EVRuleRepeated(before[j], c, Registrations(apps[..i], apps[j]))
      modifies apps[i]
      ensures forall j :: 0 <= j < |apps| ==>
                apps[j].State() == EVRuleRepeated(before[j], c, Registrations(apps[..i + 1], apps[j]))
    {
      var a := apps[i];
      ApplyEVRule(a, c);
      assert apps[..i + 1][..i] == apps[..i];
    }

    /** optimizeTemperatureControl: the heater and air-conditioner rules
        applied to every registered appliance. */
    method OptimizeTemperatureControl()
      modifies appliances
      ensures forall j :: 0 <= j < |appliances| ==>
                appliances[j].State() == TemperatureRule(old(appliances[j].State()), CurrentConditions())
    {
      var c := CurrentConditions();
      var apps := appliances;
      ghost var before := seq(|apps|, j requires 0 <= j < |apps| reads apps => apps[j].State());
      var i := 0;
      while i < |apps|
        invariant 0 <= i <= |apps|
        invariant forall j :: 0 <= j < |apps| ==> before[j] == old(apps[j].State())
        invariant forall j :: 0 <= j < |apps| ==>
                    apps[j].State() == if apps[j] in apps[..i] then TemperatureRule(before[j], c) else before[j]
      {
        var a := apps[i];
        if a in apps[..i] {
          ghost var k :| 0 <= k < i && apps[k] == a;
          assert before[k] == before[i];
        }
        ApplyTemperatureRule(a, c);
        Text.TakeSnoc(apps, i);
        forall j | 0 <= j < |apps|
          ensures apps[j].State() == if apps[j] in apps[..i + 1] then TemperatureRule(before[j], c) else before[j]
        {
          if apps[j] == a {
            TemperatureRuleIdempotent(before[j], c);
          }
        }
        i := i + 1;
      }
    }

    /** optimizeLighting: the dimming rule applied to every registered
        appliance. */
    method OptimizeLighting()
      modifies appliances
      ensures forall j :: 0 <= j < |appliances| ==>
                appliances[j].State() == LightRule(old(appliances[j].State()), CurrentConditions())
    {
      var c := CurrentConditions();
      var apps := appliances;
      ghost var before := seq(|apps|, j requires 0 <= j < |apps| reads apps => apps[j].State());
      var i := 0;
      while i < |apps|
        invariant 0 <= i <= |apps|
        invariant forall j :: 0 <= j < |apps| ==> before[j] == old(apps[j].State())
        invariant forall j :: 0 <= j < |apps| ==>
                    apps[j].State() == if apps[j] in apps[..i] then LightRule(before[j], c) else before[j]
      {
        var a := apps[i];
        if a in apps[..i] {
          ghost var k :| 0 <= k < i && apps[k] == a;
          assert before[k] == before[i];
        }
        ApplyLightRule(a, c);
        Text.TakeSnoc(apps, i);
        forall j | 0 <= j < |apps|
          ensures apps[j].State() == if apps[j] in apps[..i + 1] then LightRule(before[j], c) else before[j]
        {
          if apps[j] == a {
            LightRuleIdempotent(before[j], c);
          }
        }
        i := i + 1;
      }
    }

    /** optimizeCurtains: the shading rule applied to every registered
        appliance. */
    method OptimizeCurtains()
      modifies appliances
      ensures forall j :: 0 <= j < |appliances| ==>
                appliances[j].State() == CurtainRule(old(appliances[j].State()), CurrentConditions())
    {
      var c := CurrentConditions();
      var apps := appliances;
      ghost var before := seq(|apps|, j requires 0 <= j < |apps| reads apps => apps[j].State());
      var i := 0;
      while i < |apps|
        invariant 0 <= i <= |apps|
        invariant forall j :: 0 <= j < |apps| ==> before[j] == old(apps[j].State())
        invariant forall j :: 0 <= j < |apps| ==>
                    apps[j].State() == if apps[j] in apps[..i] then CurtainRule(before[j], c) else before[j]
      {
        var a := apps[i];
        if a in apps[..i] {
          ghost var k :| 0 <= k < i && apps[k] == a;
          assert before[k] == before[i];
        }
        ApplyCurtainRule(a, c);
        Text.TakeSnoc(apps, i);
        forall j | 0 <= j < |apps|
          ensures apps[j].State() == if apps[j] in apps[..i + 1] then CurtainRule(before[j], c) else before[j]
        {
          if apps[j] == a {
            CurtainRuleIdempotent(before[j], c);
          }
        }
        i := i + 1;
      }
    }

    /** optimizeEnergyUsage: the four passes in order, chargers, temperature,
        lighting, curtains. */
    method OptimizeEnergyUsage()
      modifies appliances
      ensures forall j :: 0 <= j < |appliances| ==>
                appliances[j].State()
                == CycleRule(old(appliances[j].State()), CurrentConditions(), Registrations(appliances, appliances[j]))
    {
      var c := CurrentConditions();
      OptimizeEVCharging();
      label charged:
      OptimizeTemperatureControl();
      label tempered:
      OptimizeLighting();
      label lit:
      OptimizeCurtains();
      forall j | 0 <= j < |appliances|
        ensures appliances[j].State()
                == CycleRule(old(appliances[j].State()), CurrentConditions(), Registrations(appliances, appliances[j]))
      {
        var a := appliances[j];
        CycleOfPasses(old(a.State()), old@charged(a.State()), old@tempered(a.State()), old@lit(a.State()),
                      a.State(), c, Registrations(appliances, a));
      }
    }

    /** updateEnergyCost: takes the price the pricing service reports and
        re-optimises. */
    method UpdateEnergyCost(reportedCost: real)
      modifies this, appliances
      ensures currentEnergyCost == reportedCost && appliances == old(appliances)
      ensures indoorTemp == old(indoorTemp) && outdoorTemp == old(outdoorTemp)
      ensures solarProduction == old(solarProduction) && targetIndoorTemp == old(targetIndoorTemp)
      ensures energyConsumption == old(energyConsumption)
      ensures forall j :: 0 <= j < |appliances| ==>
                appliances[j].State()
                == CycleRule(old(appliances[j].State()), CurrentConditions(), Registrations(appliances, appliances[j]))
    {
      currentEnergyCost := reportedCost;
      OptimizeEnergyUsage();
    }

    /** The temperature-change handler: a reading whose location truncates
        to 0 is the indoor temperature, any other the outdoor one; then
        re-optimise. */
    method OnTemperatureChange(e: Event)
      modifies this, appliances
      ensures appliances == old(appliances) && currentEnergyCost == old(currentEnergyCost)
      ensures TruncateReal(e.GetData("location", 0.0)) == 0 ==>
                indoorTemp == e.GetData("temperature", 0.0) && outdoorTemp == old(outdoorTemp)
      ensures TruncateReal(e.GetData("location", 0.0)) != 0 ==>
                outdoorTemp == e.GetData("temperature", 0.0) && indoorTemp == old(indoorTemp)
      ensures solarProduction == old(solarProduction) && targetIndoorTemp == old(targetIndoorTemp)
      ensures energyConsumption == old(energyConsumption)
      ensures forall j :: 0 <= j < |appliances| ==>
                appliances[j].State()
                == CycleRule(old(appliances[j].State()), CurrentConditions(), Registrations(appliances, appliances[j]))
    {
      var temp := e.GetData("temperature", 0.0);
      var location := TruncateReal(e.GetData("location", 0.0));
      if location == 0 {
        indoorTemp := temp;
      } else {
        outdoorTemp := temp;
      }
      OptimizeEnergyUsage();
    }

    /** The solar-production handler: records the production and
        re-optimises. */
    method OnSolarProductionUpdate(e: Event)
      modifies this, appliances
      ensures solarProduction == e.GetData("production_kw", 0.0) && appliances == old(appliances)
      ensures currentEnergyCost == old(currentEnergyCost) && indoorTemp == old(indoorTemp)
      ensures outdoorTemp == old(outdoorTemp) && targetIndoorTemp == old(targetIndoorTemp)
      ensures energyConsumption == old(energyConsumption)
      ensures forall j :: 0 <= j < |appliances| ==>
                appliances[j].State()
                == CycleRule(old(appliances[j].State()), CurrentConditions(), Registrations(appliances, appliances[j]))
    {
      solarProduction := e.GetData("production_kw", 0.0);
      OptimizeEnergyUsage();
    }

    /** The consumption handler: records the consumption only; no
        re-optimisation. */
    method OnEnergyConsumptionUpdate(e: Event)
      modifies this
      ensures energyConsumption == e.GetData("consumption_kw", 0.0) && appliances == old(appliances)
      ensures currentEnergyCost == old(currentEnergyCost) && indoorTemp == old(indoorTemp)
      ensures outdoorTemp == old(outdoorTemp) && solarProduction == old(solarProduction)
      ensures targetIndoorTemp == old(targetIndoorTemp)
    {
      energyConsumption := e.GetData("consumption_kw", 0.0);
    }
  }
}
