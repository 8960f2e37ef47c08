/** Controllable appliances: the common base (id, name, enabled flag, power
    draw, deferrable flag) and the five concrete kinds the system drives: EV
    chargers, curtains, lights, heaters and air conditioners. The kinds form
    a closed set, so they are one class with a kind tag; a setter that only
    one kind has requires that kind, as the static type does in the source. */
module Appliances {

  datatype Kind = EVChargerKind | CurtainKind | LightKind | HeaterKind | AirConditionerKind

  /** Everything about an appliance that can be observed. `on` is the
      on/off flag (for a curtain: open/closed). `chargePower` and
      `maxChargePower` are used by chargers, `brightness` by lights,
      `position` by curtains, `targetTemp` by heaters and air conditioners. */
  datatype Snapshot = Snapshot(
    kind: Kind,
    maxChargePower: real,
    enabled: bool,
    powerConsumption: real,
    deferrable: bool,
    on: bool,
    chargePower: real,
    brightness: int,
    position: int,
    targetTemp: real)

  /** What every state reachable through the public operations satisfies. */
  predicate Consistent(s: Snapshot) {
    && (s.kind == LightKind ==> 0 <= s.brightness <= 100)
    && (s.kind == CurtainKind ==> 0 <= s.position <= 100 && (s.on <==> s.position > 50))
    && (s.kind == EVChargerKind ==>
          && (s.chargePower == 0.0 || s.chargePower == s.maxChargePower || 0.0 <= s.chargePower <= s.maxChargePower)
          && (s.powerConsumption == s.maxChargePower || 0.0 <= s.powerConsumption <= s.maxChargePower))
  }

  /** True when the two states agree on everything but the on/off flag and
      the kind-specific level that switching moves (charge power of a
      charger, position of a curtain). */
  predicate SameSettings(s: Snapshot, r: Snapshot) {
    && r.kind == s.kind && r.maxChargePower == s.maxChargePower
    && r.enabled == s.enabled && r.powerConsumption == s.powerConsumption
    && r.deferrable == s.deferrable && r.brightness == s.brightness
    && r.targetTemp == s.targetTemp
  }

  /** turnOn: a disabled appliance ignores it; an enabled one is on
      afterwards, a charger charging at full power, a curtain fully open. */
  function TurnedOn(s: Snapshot): (r: Snapshot)
    ensures SameSettings(s, r)
    ensures !s.enabled ==> r == s
    ensures s.enabled ==> r.on
    ensures s.enabled && s.kind == EVChargerKind ==> r.chargePower == s.maxChargePower
    ensures s.kind != EVChargerKind ==> r.chargePower == s.chargePower
    ensures s.enabled && s.kind == CurtainKind ==> r.position == 100
    ensures s.kind != CurtainKind ==> r.position == s.position
    ensures Consistent(s) ==> Consistent(r)
  {
    if !s.enabled then s
    else if s.kind == EVChargerKind then s.(on := true, chargePower := s.maxChargePower)
    else if s.kind == CurtainKind then s.(on := true, position := 100)
    else s.(on := true)
  }

  /** turnOff: always takes effect, except on a curtain, where it means
      "close" and a disabled curtain ignores it. A charger stops charging. */
  function TurnedOff(s: Snapshot): (r: Snapshot)
    ensures SameSettings(s, r)
    ensures s.kind != CurtainKind || s.enabled ==> !r.on
    ensures s.kind == CurtainKind && !s.enabled ==> r == s
    ensures s.kind == EVChargerKind ==> r.chargePower == 0.0
    ensures s.kind != EVChargerKind ==> r.chargePower == s.chargePower
    ensures s.enabled && s.kind == CurtainKind ==> r.position == 0
    ensures s.kind != CurtainKind ==> r.position == s.position
    ensures Consistent(s) ==> Consistent(r)
  {
    if s.kind == CurtainKind then
      if s.enabled then s.(on := false, position := 0) else s
    else if s.kind == EVChargerKind then s.(on := false, chargePower := 0.0)
    else s.(on := false)
  }

  /** Switching on twice is switching on once. */
  lemma TurnedOnTwice(s: Snapshot)
    ensures TurnedOn(TurnedOn(s)) == TurnedOn(s)
  {
  }

  /** Switching off twice is switching off once. */
  lemma TurnedOffTwice(s: Snapshot)
    ensures TurnedOff(TurnedOff(s)) == TurnedOff(s)
  {
  }

  /** setChargePower(p): a level within [0, max] becomes both the charge
      level and the reported power draw; any other level is ignored. */
  function WithChargePower(s: Snapshot, p: real): (r: Snapshot)
    ensures 0.0 <= p <= s.maxChargePower ==> r.chargePower == p && r.powerConsumption == p
    ensures !(0.0 <= p <= s.maxChargePower) ==> r == s
    ensures r.on == s.on && r.enabled == s.enabled && r.kind == s.kind && r.maxChargePower == s.maxChargePower
    ensures Consistent(s) ==> Consistent(r)
  {
    if 0.0 <= p <= s.maxChargePower then s.(chargePower := p, powerConsumption := p) else s
  }

  /** setPosition(p) on a curtain: when enabled and 0 <= p <= 100 the
      position becomes p and the curtain counts as open exactly when
      p > 50; otherwise nothing changes. */
  function WithPosition(s: Snapshot, p: int): (r: Snapshot)
    ensures s.enabled && 0 <= p <= 100 ==> r.position == p && (r.on <==> p > 50)
    ensures !(s.enabled && 0 <= p <= 100) ==> r == s
    ensures SameSettings(s, r)
    ensures s.kind == CurtainKind && Consistent(s) ==> Consistent(r)
  {
    if s.enabled && 0 <= p <= 100 then s.(position := p, on := p > 50) else s
  }

  /** setBrightness(l) on a light: a level within 0..100 is taken, any
      other is ignored; the on/off flag never changes. */
  function WithBrightness(s: Snapshot, l: int): (r: Snapshot)
    ensures 0 <= l <= 100 ==> r.brightness == l
    ensures !(0 <= l <= 100) ==> r == s
    ensures r.on == s.on && r.position == s.position && r.kind == s.kind
    ensures Consistent(s) ==> Consistent(r)
  {
    if 0 <= l <= 100 then s.(brightness := l) else s
  }

  class Appliance {
    const id: string
    const name: string
    const kind: Kind
    /** The rated charging power of a charger (0 for other kinds). */
    const maxChargePower: real
    var enabled: bool
    var powerConsumption: real
    var deferrable: bool
    /** isOn_ of a charger, light, heater or air conditioner; isOpen_ of a curtain. */
    var on: bool
    var chargePower: real
    var brightness: int
    var position: int
    var targetTemp: real

    function State(): (s: Snapshot)
      reads this
      ensures s.kind == kind && s.maxChargePower == maxChargePower && s.on == on
    {
      Snapshot(kind, maxChargePower, enabled, powerConsumption, deferrable, on,
               chargePower, brightness, position, targetTemp)
    }

    ghost predicate Valid()
      reads this
    {
      Consistent(State())
    }

    /** A charger with the given rated power: off, not charging, reporting
        its rated power as its draw; enabled and not deferrable. */
    constructor EVCharger(id: string, name: string, maxPower: real)
      ensures this.id == id && this.name == name && Valid()
      ensures State() == Snapshot(EVChargerKind, maxPower, true, maxPower, false, false, 0.0, 0, 0, 0.0)
    {
      this.id := id;
      this.name := name;
      kind := EVChargerKind;
      maxChargePower := maxPower;
      enabled := true;
      powerConsumption := maxPower;
      deferrable := false;
      on := false;
      chargePower := 0.0;
      brightness := 0;
      position := 0;
      targetTemp := 0.0;
    }

    /** A curtain: open at position 100, drawing 0.01 kW for its motor. */
    constructor Curtain(id: string, name: string)
      ensures this.id == id && this.name == name && Valid()
      ensures State() == Snapshot(CurtainKind, 0.0, true, 0.01, false, true, 0.0, 0, 100, 0.0)
    {
      this.id := id;
      this.name := name;
      kind := CurtainKind;
      maxChargePower := 0.0;
      enabled := true;
      powerConsumption := 0.01;
      deferrable := false;
      on := true;
      chargePower := 0.0;
      brightness := 0;
      position := 100;
      targetTemp := 0.0;
    }

    /** A light of the given power: off at full brightness 100. */
    constructor Light(id: string, name: string, power: real)
      ensures this.id == id && this.name == name && Valid()
      ensures State() == Snapshot(LightKind, 0.0, true, power, false, false, 0.0, 100, 0, 0.0)
    {
      this.id := id;
      this.name := name;
      kind := LightKind;
      maxChargePower := 0.0;
      enabled := true;
      powerConsumption := power;
      deferrable := false;
      on := false;
      chargePower := 0.0;
      brightness := 100;
      position := 0;
      targetTemp := 0.0;
    }

    /** A heater of the given power: off, target 22.0 degrees. */
    constructor Heater(id: string, name: string, power: real)
      ensures this.id == id && this.name == name && Valid()
      ensures State() == Snapshot(HeaterKind, 0.0, true, power, false, false, 0.0, 0, 0, 22.0)
    {
      this.id := id;
      this.name := name;
      kind := HeaterKind;
      maxChargePower := 0.0;
      enabled := true;
      powerConsumption := power;
      deferrable := false;
      on := false;
      chargePower := 0.0;
      brightness := 0;
      position := 0;
      targetTemp := 22.0;
    }

    /** An air conditioner of the given power: off, target 24.0 degrees. */
    constructor AirConditioner(id: string, name: string, power: real)
      ensures this.id == id && this.name == name && Valid()
      ensures State() == Snapshot(AirConditionerKind, 0.0, true, power, false, false, 0.0, 0, 0, 24.0)
    {
      this.id := id;
      this.name := name;
      kind := AirConditionerKind;
      maxChargePower := 0.0;
      enabled := true;
      powerConsumption := power;
      deferrable := false;
      on := false;
      chargePower := 0.0;
      brightness := 0;
      position := 0;
      targetTemp := 24.0;
    }

    method SetEnabled(b: bool)
      modifies this
      ensures State() == old(State()).(enabled := b)
    {
      enabled := b;
    }

    method SetDeferrable(b: bool)
      modifies this
      ensures State() == old(State()).(deferrable := b)
    {
      deferrable := b;
    }

    method TurnOn()
      modifies this
      ensures State() == TurnedOn(old(State()))
    {
      if enabled {
        on := true;
        if kind == EVChargerKind {
          chargePower := maxChargePower;
        } else if kind == CurtainKind {
          position := 100;
        }
      }
    }

    method TurnOff()
      modifies this
      ensures State() == TurnedOff(old(State()))
    {
      if kind == CurtainKind {
        if enabled {
          on := false;
          position := 0;
        }
      } else {
        on := false;
        if kind == EVChargerKind {
          chargePower := 0.0;
        }
      }
    }

    /** open() is turnOn() of a curtain. */
    method Open()
      requires kind == CurtainKind
      modifies this
      ensures State() == TurnedOn(old(State()))
    {
      TurnOn();
    }

    /** close() is turnOff() of a curtain. */
    method Close()
      requires kind == CurtainKind
      modifies this
      ensures State() == TurnedOff(old(State()))
    {
      TurnOff();
    }

    method SetChargePower(p: real)
      requires kind == EVChargerKind
      modifies this
      ensures State() == WithChargePower(old(State()), p)
    {
      if 0.0 <= p <= maxChargePower {
        chargePower := p;
        powerConsumption := p;
      }
    }

    method SetPosition(p: int)
      requires kind == CurtainKind
      modifies this
      ensures State() == WithPosition(old(State()), p)
    {
      if enabled && 0 <= p <= 100 {
        position := p;
        on := p > 50;
      }
    }

    method SetBrightness(l: int)
      requires kind == LightKind
      modifies this
      ensures State() == WithBrightness(old(State()), l)
    {
      if 0 <= l <= 100 {
        brightness := l;
      }
    }

    method SetTargetTemperature(t: real)
      requires kind == HeaterKind || kind == AirConditionerKind
      modifies this
      ensures State() == old(State()).(targetTemp := t)
    {
      targetTemp := t;
    }
  }
}
