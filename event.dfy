/** Events exchanged between components: a type, a source name, a
    timestamp and named numeric readings. */
module Events {

  datatype EventType =
    | TemperatureChange
    | EnergyCostUpdate
    | SolarProductionUpdate
    | EnergyConsumptionUpdate
    | EVChargerStatus
    | ApplianceControl

  class Event {
    var eventType: EventType
    var source: string
    var data: map<string, real>
    var timestamp: int

    /** A new event carries its type and source, timestamp 0 and no data. */
    constructor (t: EventType, src: string)
      ensures eventType == t && source == src && timestamp == 0 && data == map[]
    {
      eventType := t;
      source := src;
      data := map[];
      timestamp := 0;
    }

    /** Stores a reading, replacing any earlier one under the same key. */
    method AddData(key: string, value: real)
      modifies this
      ensures data == old(data)[key := value]
      ensures GetData(key, 0.0) == value
      ensures forall k :: k != key ==> (k in data <==> k in old(data))
      ensures forall k :: k != key && k in old(data) ==> data[k] == old(data)[k]
      ensures eventType == old(eventType) && source == old(source) && timestamp == old(timestamp)
    {
      data := data[key := value];
    }

    /** The reading stored under `key`, or `defaultValue` when there is none. */
    function GetData(key: string, defaultValue: real): (r: real)
      reads this
      ensures key in data ==> r == data[key]
      ensures key !in data ==> r == defaultValue
    {
      if key in data then data[key] else defaultValue
    }
  }
}
