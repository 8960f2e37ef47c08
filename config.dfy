/** The system configuration: the appliance list (name and deferrable
    flag), the sensor list, MQTT and web-interface settings; the JSON
    string escaping it writes with and the rules by which reading a JSON
    document replaces the two lists. */
module Configuration {
  import opened Text
  import opened JsonText

  datatype ApplianceConfig = ApplianceConfig(name: string, isDeferrable: bool)

  /** The entry that resizing the list pads with. */
  const BlankAppliance: ApplianceConfig := ApplianceConfig("", false)

  predicate HasName(apps: seq<ApplianceConfig>, name: string) {
    exists j :: 0 <= j < |apps| && apps[j].name == name
  }

  /** No two entries share a name. */
  predicate UniqueNames(apps: seq<ApplianceConfig>) {
    forall i, j :: 0 <= i < j < |apps| ==> apps[i].name != apps[j].name
  }

  /** The index of the first entry with the given name. */
  function FirstNamed(apps: seq<ApplianceConfig>, name: string): (r: Option<nat>)
    ensures r.Some? ==> r.value < |apps| && apps[r.value].name == name
    ensures r.Some? ==> forall j :: 0 <= j < r.value ==> apps[j].name != name
    ensures r.None? <==> !HasName(apps, name)
  {
    if apps == [] then None
    else if apps[0].name == name then Some(0)
    else match FirstNamed(apps[1..], name)
      case None => None
      case Some(k) => Some(k + 1)
  }

  /** The list with every entry of the given name removed, the rest in
      their original order. */
  function WithoutName(apps: seq<ApplianceConfig>, name: string): (r: seq<ApplianceConfig>)
    ensures forall a :: a in r <==> a in apps && a.name != name
    ensures forall a :: multiset(r)[a] == if a.name == name then 0 else multiset(apps)[a]
    ensures !HasName(apps, name) ==> r == apps
    ensures |r| <= |apps|
  {
    if apps == [] then []
    else
      var rest := WithoutName(apps[1..], name);
      KeptCountsStep(apps, rest, name);
      if apps[0].name == name then rest else [apps[0]] + rest
  }

  /** One entry more: the counts of the kept list follow the counts of the
      list it was kept from. */
  lemma KeptCountsStep(apps: seq<ApplianceConfig>, rest: seq<ApplianceConfig>, name: string)
    requires apps != []
    requires forall a :: multiset(rest)[a] == if a.name == name then 0 else multiset(apps[1..])[a]
    ensures forall a :: multiset(if apps[0].name == name then rest else [apps[0]] + rest)[a]
                        == if a.name == name then 0 else multiset(apps)[a]
  {
    assert apps == [apps[0]] + apps[1..];
  }

  /** Removing from a concatenation removes from each part, so the kept
      entries stay in their original order. */
  lemma {:induction false} WithoutNameAppend(a: seq<ApplianceConfig>, b: seq<ApplianceConfig>, name: string)
    ensures WithoutName(a + b, name) == WithoutName(a, name) + WithoutName(b, name)
  {
    if a == [] {
      assert a + b == b;
    } else {
      assert (a + b)[1..] == a[1..] + b;
      WithoutNameAppend(a[1..], b, name);
    }
  }

  /** The list with every occurrence of the value removed, the rest in
      their original order. */
  function WithoutValue(values: seq<string>, v: string): (r: seq<string>)
    ensures forall x :: x in r <==> x in values && x != v
    ensures forall x :: multiset(r)[x] == if x == v then 0 else multiset(values)[x]
    ensures v !in values ==> r == values
    ensures |r| <= |values|
  {
    if values == [] then []
    else
      assert values == [values[0]] + values[1..];
      if values[0] == v then WithoutValue(values[1..], v)
      else [values[0]] + WithoutValue(values[1..], v)
  }

  /** Removing from a concatenation removes from each part, so the kept
      values stay in their original order. */
  lemma {:induction false} WithoutValueAppend(a: seq<string>, b: seq<string>, v: string)
    ensures WithoutValue(a + b, v) == WithoutValue(a, v) + WithoutValue(b, v)
  {
    if a == [] {
      assert a + b == b;
    } else {
      assert (a + b)[1..] == a[1..] + b;
      WithoutValueAppend(a[1..], b, v);
    }
  }

  /** Removing keeps unique names unique. */
  lemma {:induction false} WithoutNameUnique(apps: seq<ApplianceConfig>, name: string)
    requires UniqueNames(apps)
    ensures UniqueNames(WithoutName(apps, name))
  {
    if apps != [] {
      var tail := apps[1..];
      UniqueTail(apps);
      WithoutNameUnique(tail, name);
      if apps[0].name != name {
        var rest := WithoutName(tail, name);
        forall a | a in rest ensures a.name != apps[0].name {
          var j :| 0 <= j < |tail| && tail[j] == a;
          assert apps[j + 1] == a;
        }
        UniqueCons(apps[0], rest);
      }
    }
  }

  lemma UniqueTail(apps: seq<ApplianceConfig>)
    requires apps != [] && UniqueNames(apps)
    ensures UniqueNames(apps[1..])
  {
    var tail := apps[1..];
    forall i, j | 0 <= i < j < |tail| ensures tail[i].name != tail[j].name {
      assert tail[i] == apps[i + 1] && tail[j] == apps[j + 1];
    }
  }

  lemma UniqueCons(x: ApplianceConfig, rest: seq<ApplianceConfig>)
    requires UniqueNames(rest) && forall a :: a in rest ==> a.name != x.name
    ensures UniqueNames([x] + rest)
  {
    var r := [x] + rest;
    forall i, j | 0 <= i < j < |r| ensures r[i].name != r[j].name {
      assert r[j] == rest[j - 1] && r[j] in rest;
      if i > 0 {
        assert r[i] == rest[i - 1];
      }
    }
  }

  /** Removing a name twice removes nothing more. */
  lemma WithoutNameIdempotent(apps: seq<ApplianceConfig>, name: string)
    ensures WithoutName(WithoutName(apps, name), name) == WithoutName(apps, name)
  {
  }

  /** The names of the deferrable entries, in list order. */
  function DeferrableNames(apps: seq<ApplianceConfig>): (r: seq<string>)
    ensures |r| <= |apps|
    ensures forall n :: n in r <==> exists j :: 0 <= j < |apps| && apps[j].isDeferrable && apps[j].name == n
  {
    if apps == [] then []
    else
      var last := apps[|apps| - 1];
      var r := DeferrableNames(apps[..|apps| - 1]) + (if last.isDeferrable then [last.name] else []);
      assert forall j :: 0 <= j < |apps| - 1 ==> apps[..|apps| - 1][j] == apps[j];
      r
  }

  /** The list setDeferrableLoadNames builds: one deferrable entry per
      name, in order. */
  function AllDeferrable(names: seq<string>): (r: seq<ApplianceConfig>)
    ensures |r| == |names|
    ensures forall i :: 0 <= i < |names| ==> r[i] == ApplianceConfig(names[i], true)
  {
    seq(|names|, i requires 0 <= i < |names| => ApplianceConfig(names[i], true))
  }

  /** Reading the deferrable names back gives exactly the names that were
      set, duplicates and order included. */
  lemma {:induction false} DeferrableNamesRoundTrip(names: seq<string>)
    ensures DeferrableNames(AllDeferrable(names)) == names
  {
    if names != [] {
      var n := |names| - 1;
      assert AllDeferrable(names)[..n] == AllDeferrable(names[..n]);
      DeferrableNamesRoundTrip(names[..n]);
      assert names[..n] + [names[n]] == names;
    }
  }

  // ---------------------------------------------------------------------
  // Reading the lists back from a JSON document

  /** The text between the first '[' at or after `from` and the first ']'
      after it, when both exist. */
  function ArrayContent(json: string, from: nat): (r: Option<string>)
    ensures r.Some? ==> |r.value| < |json|
  {
    match IndexOf(json, '[', from)
    case None => None
    case Some(open) =>
      match IndexOf(json, ']', open)
      case None => None
      case Some(close) => Some(json[open + 1..close])
  }

  /** The raw texts between successive pairs of double quotes, scanning
      from `pos`; a quote without a partner ends the scan. Escaped quotes
      are not recognised. */
  function QuotedItems(content: string, pos: nat): (r: seq<string>)
    decreases |content| - pos
  {
    match IndexOf(content, '"', pos)
    case None => []
    case Some(open) =>
      match IndexOf(content, '"', open + 1)
      case None => []
      case Some(close) => [content[open + 1..close]] + QuotedItems(content, close + 1)
  }

  /** The raw name of one appliance object: the quoted text after the
      first ':' that follows the "name" key; empty when any piece is
      missing. */
  function RawName(obj: string): string {
    match Find(obj, "\"name\"", 0)
    case None => ""
    case Some(key) =>
      match IndexOf(obj, ':', key)
      case None => ""
      case Some(colon) =>
        match IndexOf(obj, '"', colon)
        case None => ""
        case Some(open) =>
          match IndexOf(obj, '"', open + 1)
          case None => ""
          case Some(close) => obj[open + 1..close]
  }

  /** An object is deferrable when "true" occurs anywhere after its
      "isDeferrable" key. */
  predicate DeferrableFlag(obj: string) {
    match Find(obj, "\"isDeferrable\"", 0)
    case None => false
    case Some(key) => Find(obj, "true", key).Some?
  }

  /** The entry one object's text contributes: none when its raw name is
      empty, otherwise the unescaped name with the object's flag. */
  function ObjectEntry(obj: string): (r: seq<ApplianceConfig>)
    ensures |r| <= 1
  {
    var name := RawName(obj);
    if name != [] then [ApplianceConfig(Unescape(name), DeferrableFlag(obj))] else []
  }

  /** The texts of the objects in an array's content, scanning from
      `pos`: each '{' with a later '}' delimits one object; a '{' without a
      '}' ends the scan. */
  function ObjectTexts(content: string, pos: nat): (r: seq<string>)
    decreases |content| - pos
  {
    match IndexOf(content, '{', pos)
    case None => []
    case Some(open) =>
      match IndexOf(content, '}', open)
      case None => []
      case Some(close) => [content[open + 1..close]] + ObjectTexts(content, close + 1)
  }

  /** The entries a sequence of object texts contributes, in order, each
      object decoded by `decode`. */
  function Entries(objs: seq<string>, decode: string -> seq<ApplianceConfig>): seq<ApplianceConfig> {
    if objs == [] then [] else decode(objs[0]) + Entries(objs[1..], decode)
  }

  /** One step of the object scan. */
  lemma ObjectTextsStep(content: string, pos: nat, open: nat, close: nat)
    requires IndexOf(content, '{', pos) == Some(open) && IndexOf(content, '}', open) == Some(close)
    ensures ObjectTexts(content, pos) == [content[open + 1..close]] + ObjectTexts(content, close + 1)
  {
  }

  lemma {:induction false} EntriesSnoc(objs: seq<string>, obj: string, decode: string -> seq<ApplianceConfig>)
    ensures Entries(objs + [obj], decode) == Entries(objs, decode) + decode(obj)
  {
    if objs == [] {
      assert [] + [obj] == [obj];
    } else {
      assert (objs + [obj])[1..] == objs[1..] + [obj];
      EntriesSnoc(objs[1..], obj, decode);
    }
  }

  /** The appliance objects of an array's content. */
  function ApplianceObjects(content: string): seq<ApplianceConfig> {
    Entries(ObjectTexts(content, 0), ObjectEntry)
  }

  /** The appliance list a JSON document configures. The list is always
      replaced: by the objects of the "appliances" array when that key
      occurs; otherwise by the names of the legacy "deferrableLoads"
      array, all deferrable; otherwise by nothing. */
  function ConfiguredAppliances(json: string): seq<ApplianceConfig> {
    match Find(json, "\"appliances\"", 0)
    case Some(key) =>
      (match ArrayContent(json, key)
       case None => []
       case Some(content) => ApplianceObjects(content))
    case None =>
      match Find(json, "\"deferrableLoads\"", 0)
      case None => []
      case Some(key) =>
        match ArrayContent(json, key)
        case None => []
        case Some(content) => AllDeferrable(UnescapeAll(QuotedItems(content, 0)))
  }

  /** The sensor list a JSON document configures: the quoted items of the
      "sensors" array, or nothing. */
  function ConfiguredSensors(json: string): seq<string> {
    match Find(json, "\"sensors\"", 0)
    case None => []
    case Some(key) =>
      match ArrayContent(json, key)
      case None => []
      case Some(content) => UnescapeAll(QuotedItems(content, 0))
  }

  function UnescapeAll(items: seq<string>): (r: seq<string>)
    ensures |r| == |items|
    ensures forall i :: 0 <= i < |items| ==> r[i] == Unescape(items[i])
  {
    seq(|items|, i requires 0 <= i < |items| => Unescape(items[i]))
  }

  /** Reading a document never keeps the old lists: without any list key
      both lists come back empty. */
  lemma ListsResetWithoutKeys(json: string)
    requires Find(json, "\"appliances\"", 0).None? && Find(json, "\"deferrableLoads\"", 0).None?
    requires Find(json, "\"sensors\"", 0).None?
    ensures ConfiguredAppliances(json) == [] && ConfiguredSensors(json) == []
  {
  }

  /** Entries read from the legacy array are all deferrable, and the legacy
      array is consulted only when the "appliances" key is absent. */
  lemma LegacyLoadsAreDeferrable(json: string)
    requires Find(json, "\"appliances\"", 0).None?
    ensures forall a :: a in ConfiguredAppliances(json) ==> a.isDeferrable
  {
  }

  /** One round of the scan: the pair of quotes found from `pos` yields
      the first item, and the scan goes on after the closing quote. */
  lemma QuotedItemsCons(content: string, pos: nat, open: nat, close: nat)
    requires IndexOf(content, '"', pos) == Some(open) && IndexOf(content, '"', open + 1) == Some(close)
    ensures QuotedItems(content, pos) == [content[open + 1..close]] + QuotedItems(content, close + 1)
  {
  }

  /** The same round with the items unescaped, as the parser keeps them. */
  lemma QuotedItemsStep(content: string, pos: nat, open: nat, close: nat)
    requires IndexOf(content, '"', pos) == Some(open) && IndexOf(content, '"', open + 1) == Some(close)
    ensures UnescapeAll(QuotedItems(content, pos))
            == [Unescape(content[open + 1..close])] + UnescapeAll(QuotedItems(content, close + 1))
  {
    QuotedItemsCons(content, pos, open, close);
    UnescapeAllCons(content[open + 1..close], QuotedItems(content, close + 1));
  }

  lemma UnescapeAllCons(x: string, t: seq<string>)
    ensures UnescapeAll([x] + t) == [Unescape(x)] + UnescapeAll(t)
  {
    var r, u := UnescapeAll([x] + t), [Unescape(x)] + UnescapeAll(t);
    forall i | 0 <= i < |r| ensures r[i] == u[i] {
      if i > 0 {
        assert ([x] + t)[i] == t[i - 1];
      }
    }
  }

  /** No scanned item holds a double quote. */
  lemma {:induction false} QuotedItemsUnquoted(content: string, pos: nat)
    ensures forall w :: w in QuotedItems(content, pos) ==> '"' !in w
    decreases |content| - pos
  {
    match IndexOf(content, '"', pos)
    case None => QuotedItemsNil(content, pos);
    case Some(open) =>
      match IndexOf(content, '"', open + 1)
      case None => QuotedItemsNil(content, pos);
      case Some(close) =>
        var item, rest := content[open + 1..close], QuotedItems(content, close + 1);
        QuotedItemsUnquoted(content, close + 1);
        NoQuoteBefore(content, open + 1, close);
        UnquotedCons(item, rest);
        QuotedItemsCons(content, pos, open, close);
        assert QuotedItems(content, pos) == [item] + rest;
  }

  /** Prepending a word without quotes keeps a list free of them. */
  lemma UnquotedCons(item: string, rest: seq<string>)
    requires '"' !in item && forall w :: w in rest ==> '"' !in w
    ensures forall w :: w in [item] + rest ==> '"' !in w
  {
  }

  /** The text up to the next quote holds none. */
  lemma NoQuoteBefore(content: string, from: nat, close: nat)
    requires IndexOf(content, '"', from) == Some(close)
    ensures '"' !in content[from..close]
  {
    var item := content[from..close];
    forall k | 0 <= k < |item| ensures item[k] != '"' {
      assert item[k] == content[from + k];
    }
  }

  /** The scan ends when no pair of quotes is left. */
  lemma QuotedItemsNil(content: string, pos: nat)
    requires IndexOf(content, '"', pos).None? || IndexOf(content, '"', IndexOf(content, '"', pos).value + 1).None?
    ensures QuotedItems(content, pos) == []
  {
  }

  /** Every appliance read from an "appliances" array had a non-empty raw
      name, and its name is that raw name unescaped. */
  lemma {:induction false} EntriesNamed(objs: seq<string>)
    ensures forall a :: a in Entries(objs, ObjectEntry) ==>
              exists k :: 0 <= k < |objs| && RawName(objs[k]) != [] && a.name == Unescape(RawName(objs[k]))
  {
    if objs != [] {
      EntriesNamed(objs[1..]);
      forall a | a in Entries(objs, ObjectEntry)
        ensures exists k :: 0 <= k < |objs| && RawName(objs[k]) != [] && a.name == Unescape(RawName(objs[k]))
      {
        if a in ObjectEntry(objs[0]) {
          assert RawName(objs[0]) != [] && a.name == Unescape(RawName(objs[0]));
        } else {
          assert a in Entries(objs[1..], ObjectEntry);
          var k :| 0 <= k < |objs[1..]| && RawName(objs[1..][k]) != [] && a.name == Unescape(RawName(objs[1..][k]));
          assert objs[k + 1] == objs[1..][k];
        }
      }
    }
  }

  class Config {
    var mqttEnabled: bool
    var mqttBrokerAddress: string
    var mqttPort: int
    var appliances: seq<ApplianceConfig>
    var sensorValues: seq<string>
    var webInterfaceEnabled: bool
    var webInterfacePort: int

    /** MQTT on at localhost:1883, web interface on at port 8080, no
        appliances, no sensors. */
    constructor ()
      ensures mqttEnabled && mqttBrokerAddress == "localhost" && mqttPort == 1883
      ensures webInterfaceEnabled && webInterfacePort == 8080
      ensures appliances == [] && sensorValues == []
    {
      mqttEnabled := true;
      mqttBrokerAddress := "localhost";
      mqttPort := 1883;
      appliances := [];
      sensorValues := [];
      webInterfaceEnabled := true;
      webInterfacePort := 8080;
    }

    /** Everything but the appliance list unchanged. */
    twostate predicate OnlyAppliancesChanged()
      reads this
    {
      && mqttEnabled == old(mqttEnabled) && mqttBrokerAddress == old(mqttBrokerAddress)
      && mqttPort == old(mqttPort) && sensorValues == old(sensorValues)
      && webInterfaceEnabled == old(webInterfaceEnabled) && webInterfacePort == old(webInterfacePort)
    }

    /** Everything but the sensor list unchanged. */
    twostate predicate OnlySensorsChanged()
      reads this
    {
      && mqttEnabled == old(mqttEnabled) && mqttBrokerAddress == old(mqttBrokerAddress)
      && mqttPort == old(mqttPort) && appliances == old(appliances)
      && webInterfaceEnabled == old(webInterfaceEnabled) && webInterfacePort == old(webInterfacePort)
    }

    /** setApplianceCount (and setDeferrableLoadCount): resizes the list to
        `count`, or to 0 for a negative count, keeping the leading entries
        and padding with blank entries. */
    method SetApplianceCount(count: int)
      modifies this
      ensures |appliances| == if count < 0 then 0 else count
      ensures forall i :: 0 <= i < |appliances| && i < |old(appliances)| ==> appliances[i] == old(appliances)[i]
      ensures forall i :: |old(appliances)| <= i < |appliances| ==> appliances[i] == BlankAppliance
      ensures OnlyAppliancesChanged()
    {
      var n := if count < 0 then 0 else count;
      if n <= |appliances| {
        appliances := appliances[..n];
      } else {
        appliances := appliances + seq(n - |appliances|, _ => BlankAppliance);
      }
    }

    method GetApplianceCount() returns (n: int)
      ensures n == |appliances|
    {
      n := |appliances|;
    }

    method SetAppliances(apps: seq<ApplianceConfig>)
      modifies this
      ensures appliances == apps && OnlyAppliancesChanged()
    {
      appliances := apps;
    }

    /** addAppliance: a name already present leaves the list alone; a new
        one is appended. */
    method AddAppliance(name: string, isDeferrable: bool)
      modifies this
      ensures HasName(old(appliances), name) ==> appliances == old(appliances)
      ensures !HasName(old(appliances), name) ==> appliances == old(appliances) + [ApplianceConfig(name, isDeferrable)]
      ensures UniqueNames(old(appliances)) ==> UniqueNames(appliances)
      ensures HasName(appliances, name) && OnlyAppliancesChanged()
    {
      var i := 0;
      while i < |appliances|
        invariant 0 <= i <= |appliances| && appliances == old(appliances)
        invariant forall j :: 0 <= j < i ==> appliances[j].name != name
      {
        if appliances[i].name == name {
          return;
        }
        i := i + 1;
      }
      appliances := appliances + [ApplianceConfig(name, isDeferrable)];
      assert appliances[|appliances| - 1].name == name;
    }

    /** removeAppliance: every entry of that name is dropped. */
    method RemoveAppliance(name: string)
      modifies this
      ensures appliances == WithoutName(old(appliances), name)
      ensures !HasName(appliances, name) && OnlyAppliancesChanged()
    {
      appliances := WithoutName(appliances, name);
    }

    /** setApplianceDeferrable: only the first entry of that name gets the
        flag; without such an entry nothing changes. */
    method SetApplianceDeferrable(name: string, isDeferrable: bool)
      modifies this
      ensures FirstNamed(old(appliances), name).None? ==> appliances == old(appliances)
      ensures FirstNamed(old(appliances), name).Some? ==>
                var k := FirstNamed(old(appliances), name).value;
                appliances == old(appliances)[k := old(appliances)[k].(isDeferrable := isDeferrable)]
      ensures OnlyAppliancesChanged()
    {
      var i := 0;
      while i < |appliances|
        invariant 0 <= i <= |appliances| && appliances == old(appliances)
        invariant forall j :: 0 <= j < i ==> appliances[j].name != name
      {
        if appliances[i].name == name {
          assert FirstNamed(appliances, name) == Some(i);
          appliances := appliances[i := appliances[i].(isDeferrable := isDeferrable)];
          return;
        }
        i := i + 1;
      }
    }

    /** getDeferrableLoadCount: how many entries are deferrable. */
    method GetDeferrableLoadCount() returns (count: int)
      ensures count == |DeferrableNames(appliances)|
    {
      count := 0;
      var i := 0;
      while i < |appliances|
        invariant 0 <= i <= |appliances|
        invariant count == |DeferrableNames(appliances[..i])|
      {
        assert appliances[..i + 1][..i] == appliances[..i];
        if appliances[i].isDeferrable {
          count := count + 1;
        }
        i := i + 1;
      }
      assert appliances[..|appliances|] == appliances;
    }

    /** getDeferrableLoadNames: the deferrable entries' names in list
        order. */
    method GetDeferrableLoadNames() returns (names: seq<string>)
      ensures names == DeferrableNames(appliances)
    {
      names := [];
      var i := 0;
      while i < |appliances|
        invariant 0 <= i <= |appliances|
        invariant names == DeferrableNames(appliances[..i])
      {
        assert appliances[..i + 1][..i] == appliances[..i];
        if appliances[i].isDeferrable {
          names := names + [appliances[i].name];
        }
        i := i + 1;
      }
      assert appliances[..|appliances|] == appliances;
    }

    /** setDeferrableLoadNames: the list becomes one deferrable entry per
        given name. */
    method SetDeferrableLoadNames(names: seq<string>)
      modifies this
      ensures appliances == AllDeferrable(names)
      ensures DeferrableNames(appliances) == names
      ensures OnlyAppliancesChanged()
    {
      appliances := [];
      var i := 0;
      while i < |names|
        invariant 0 <= i <= |names|
        invariant appliances == AllDeferrable(names[..i])
        invariant OnlyAppliancesChanged()
      {
        appliances := appliances + [ApplianceConfig(names[i], true)];
        i := i + 1;
      }
      assert names[..|names|] == names;
      DeferrableNamesRoundTrip(names);
    }

    method AddDeferrableLoad(name: string)
      modifies this
      ensures HasName(old(appliances), name) ==> appliances == old(appliances)
      ensures !HasName(old(appliances), name) ==> appliances == old(appliances) + [ApplianceConfig(name, true)]
      ensures OnlyAppliancesChanged()
    {
      AddAppliance(name, true);
    }

    method RemoveDeferrableLoad(name: string)
      modifies this
      ensures appliances == WithoutName(old(appliances), name) && OnlyAppliancesChanged()
    {
      RemoveAppliance(name);
    }

    /** addSensorValue: appended only when not yet listed. */
    method AddSensorValue(sensor: string)
      modifies this
      ensures sensor in old(sensorValues) ==> sensorValues == old(sensorValues)
      ensures sensor !in old(sensorValues) ==> sensorValues == old(sensorValues) + [sensor]
      ensures sensor in sensorValues && OnlySensorsChanged()
    {
      if sensor !in sensorValues {
        sensorValues := sensorValues + [sensor];
      }
    }

    /** removeSensorValue: every occurrence is dropped. */
    method RemoveSensorValue(sensor: string)
      modifies this
      ensures sensorValues == WithoutValue(old(sensorValues), sensor)
      ensures sensor !in sensorValues && OnlySensorsChanged()
    {
      sensorValues := WithoutValue(sensorValues, sensor);
    }

    method SetMqttEnabled(enabled: bool)
      modifies this
      ensures mqttEnabled == enabled && mqttBrokerAddress == old(mqttBrokerAddress) && mqttPort == old(mqttPort)
      ensures appliances == old(appliances) && sensorValues == old(sensorValues)
      ensures webInterfaceEnabled == old(webInterfaceEnabled) && webInterfacePort == old(webInterfacePort)
    {
      mqttEnabled := enabled;
    }

    method SetMqttBrokerAddress(address: string)
      modifies this
      ensures mqttBrokerAddress == address && mqttEnabled == old(mqttEnabled) && mqttPort == old(mqttPort)
      ensures appliances == old(appliances) && sensorValues == old(sensorValues)
      ensures webInterfaceEnabled == old(webInterfaceEnabled) && webInterfacePort == old(webInterfacePort)
    {
      mqttBrokerAddress := address;
    }

    method SetMqttPort(port: int)
      modifies this
      ensures mqttPort == port && mqttEnabled == old(mqttEnabled) && mqttBrokerAddress == old(mqttBrokerAddress)
      ensures appliances == old(appliances) && sensorValues == old(sensorValues)
      ensures webInterfaceEnabled == old(webInterfaceEnabled) && webInterfacePort == old(webInterfacePort)
    {
      mqttPort := port;
    }

    method SetWebInterfaceEnabled(enabled: bool)
      modifies this
      ensures webInterfaceEnabled == enabled && webInterfacePort == old(webInterfacePort)
      ensures mqttEnabled == old(mqttEnabled) && mqttBrokerAddress == old(mqttBrokerAddress) && mqttPort == old(mqttPort)
      ensures appliances == old(appliances) && sensorValues == old(sensorValues)
    {
      webInterfaceEnabled := enabled;
    }

    method SetWebInterfacePort(port: int)
      modifies this
      ensures webInterfacePort == port && webInterfaceEnabled == old(webInterfaceEnabled)
      ensures mqttEnabled == old(mqttEnabled) && mqttBrokerAddress == old(mqttBrokerAddress) && mqttPort == old(mqttPort)
      ensures appliances == old(appliances) && sensorValues == old(sensorValues)
    {
      webInterfacePort := port;
    }

    /** escapeJsonString: each of the seven special characters becomes a
        backslash pair, every other character is copied. */
    method EscapeJsonString(str: string) returns (escaped: string)
      ensures escaped == Escape(str)
      ensures Unescape(escaped) == str
    {
      escaped := [];
      var i := 0;
      while i < |str|
        invariant 0 <= i <= |str|
        invariant escaped == Escape(str[..i])
      {
        var c := str[i];
        if c == '"' {
          escaped := escaped + "\\\"";
        } else if c == '\\' {
          escaped := escaped + "\\\\";
        } else if c == Backspace {
          escaped := escaped + "\\b";
        } else if c == FormFeed {
          escaped := escaped + "\\f";
        } else if c == '\n' {
          escaped := escaped + "\\n";
        } else if c == '\r' {
          escaped := escaped + "\\r";
        } else if c == '\t' {
          escaped := escaped + "\\t";
        } else {
          escaped := escaped + [c];
        }
        EscapeAppend(str[..i], [c]);
        assert Escape([c]) == EscapeChar(c) by {
          assert [c][1..] == [];
        }
        TakeSnoc(str, i);
        i := i + 1;
      }
      assert str[..|str|] == str;
      EscapeRoundTrip(str);
    }

    /** unescapeJsonString: a backslash is dropped and the character after
        it decoded (b f n r t to their control characters, anything else to
        itself); a trailing lone backslash is dropped. */
    method UnescapeJsonString(str: string) returns (unescaped: string)
      ensures unescaped == Unescape(str)
    {
      unescaped := [];
      var escaping := false;
      var i := 0;
      while i < |str|
        invariant 0 <= i <= |str|
        invariant UnescapeFrom(str[i..], unescaped, escaping) == Unescape(str)
      {
        var c := str[i];
        assert str[i..][0] == c && str[i..][1..] == str[i + 1..];
        if escaping {
          if c == '"' {
            unescaped := unescaped + ['"'];
          } else if c == '\\' {
            unescaped := unescaped + ['\\'];
          } else if c == 'b' {
            unescaped := unescaped + [Backspace];
          } else if c == 'f' {
            unescaped := unescaped + [FormFeed];
          } else if c == 'n' {
            unescaped := unescaped + ['\n'];
          } else if c == 'r' {
            unescaped := unescaped + ['\r'];
          } else if c == 't' {
            unescaped := unescaped + ['\t'];
          } else {
            unescaped := unescaped + [c];
          }
          escaping := false;
        } else if c == '\\' {
          escaping := true;
        } else {
          unescaped := unescaped + [c];
        }
        i := i + 1;
      }
    }

    /** The quoted-item loop of fromJson over one array's content. */
    method ParseQuotedList(content: string) returns (items: seq<string>)
      ensures items == UnescapeAll(QuotedItems(content, 0))
    {
      items := [];
      var pos := 0;
      while true
        invariant pos <= |content| + 1
        invariant UnescapeAll(QuotedItems(content, 0)) == items + UnescapeAll(QuotedItems(content, pos))
        decreases |content| + 1 - pos
      {
        var found, item, next := NextQuoted(content, pos);
        if !found {
          break;
        }
        AppendAssoc(items, [item], UnescapeAll(QuotedItems(content, next)));
        items := items + [item];
        pos := next;
      }
    }

    /** One round of the quoted-item loop: the next item, unescaped, and
        where the search resumes, or `found` false when no pair of quotes
        is left (and so no item). */
    method NextQuoted(content: string, pos: nat) returns (found: bool, item: string, next: nat)
      ensures found ==> pos < next <= |content| + 1
                        && UnescapeAll(QuotedItems(content, pos)) == [item] + UnescapeAll(QuotedItems(content, next))
      ensures !found ==> QuotedItems(content, pos) == []
    {
      found, item, next := false, [], pos;
      var open := IndexOf(content, '"', pos);
      if open.None? {
        return;
      }
      var close := IndexOf(content, '"', open.value + 1);
      if close.None? {
        return;
      }
      item := UnescapeJsonString(content[open.value + 1..close.value]);
      QuotedItemsStep(content, pos, open.value, close.value);
      found, next := true, close.value + 1;
    }

    /** One object of the "appliances" array: its entry, if it names one. */
    method ParseObject(obj: string) returns (entry: seq<ApplianceConfig>)
      ensures entry == ObjectEntry(obj)
    {
      var name := RawName(obj);
      var deferrable := DeferrableFlag(obj);
      entry := [];
      if name != [] {
        var unescaped := UnescapeJsonString(name);
        entry := [ApplianceConfig(unescaped, deferrable)];
      }
    }

    /** The search step of the object loop of fromJson: the text of the
        next object at or after `pos`, if there is one. */
    method NextObject(content: string, pos: nat) returns (obj: Option<string>, next: nat)
      ensures obj.None? ==> ObjectTexts(content, pos) == []
      ensures obj.Some? ==> pos < next <= |content| + 1
      ensures obj.Some? ==> ObjectTexts(content, pos) == [obj.value] + ObjectTexts(content, next)
    {
      obj, next := None, pos;
      var open := IndexOf(content, '{', pos);
      if open.None? {
        return;
      }
      var close := IndexOf(content, '}', open.value);
      if close.None? {
        return;
      }
      ObjectTextsStep(content, pos, open.value, close.value);
      obj, next := Some(content[open.value + 1..close.value]), close.value + 1;
    }

    /** The search half of the object loop of fromJson: the texts of the
        objects of an array's content, left to right. */
    method ScanObjects(content: string) returns (objs: seq<string>)
      ensures objs == ObjectTexts(content, 0)
    {
      objs := [];
      var pos := 0;
      while true
        invariant pos <= |content| + 1
        invariant objs + ObjectTexts(content, pos) == ObjectTexts(content, 0)
        decreases |content| + 1 - pos
      {
        var obj, next := NextObject(content, pos);
        if obj.None? {
          break;
        }
        assert objs + ([obj.value] + ObjectTexts(content, next)) == (objs + [obj.value]) + ObjectTexts(content, next);
        objs := objs + [obj.value];
        pos := next;
      }
      assert objs + [] == objs;
    }

    /** The decoding half of the object loop of fromJson: the entries of
        the objects, left to right, each decoded by `decode`. */
    method DecodeObjects(objs: seq<string>, decode: string -> seq<ApplianceConfig>) returns (apps: seq<ApplianceConfig>)
      ensures apps == Entries(objs, decode)
    {
      apps := [];
      var i := 0;
      while i < |objs|
        invariant 0 <= i <= |objs|
        invariant apps == Entries(objs[..i], decode)
      {
        EntriesSnoc(objs[..i], objs[i], decode);
        assert objs[..i + 1] == objs[..i] + [objs[i]];
        apps := apps + decode(objs[i]);
        i := i + 1;
      }
      assert objs[..|objs|] == objs;
    }

    /** The object loop of fromJson over the "appliances" array's content. */
    method ParseApplianceObjects(content: string) returns (apps: seq<ApplianceConfig>)
      ensures apps == ApplianceObjects(content)
    {
      var objs := ScanObjects(content);
      apps := DecodeObjects(objs, ObjectEntry);
    }

    /** The appliance half of fromJson. */
    method ReadAppliances(json: string) returns (apps: seq<ApplianceConfig>)
      ensures apps == ConfiguredAppliances(json)
    {
      apps := [];
      var appliancesPos := Find(json, "\"appliances\"", 0);
      if appliancesPos.Some? {
        var content := ArrayContent(json, appliancesPos.value);
        if content.Some? {
          apps := ParseApplianceObjects(content.value);
        }
      }
      var deferrablePos := Find(json, "\"deferrableLoads\"", 0);
      if deferrablePos.Some? && appliancesPos.None? {
        var content := ArrayContent(json, deferrablePos.value);
        if content.Some? {
          var names := ParseQuotedList(content.value);
          var i := 0;
          while i < |names|
            invariant 0 <= i <= |names|
            invariant apps == AllDeferrable(names[..i])
          {
            apps := apps + [ApplianceConfig(names[i], true)];
            i := i + 1;
          }
          assert names[..|names|] == names;
        }
      }
    }

    /** The sensor half of fromJson. */
    method ReadSensors(json: string) returns (sensors: seq<string>)
      ensures sensors == ConfiguredSensors(json)
    {
      sensors := [];
      var sensorsPos := Find(json, "\"sensors\"", 0);
      if sensorsPos.Some? {
        var content := ArrayContent(json, sensorsPos.value);
        if content.Some? {
          sensors := ParseQuotedList(content.value);
        }
      }
    }

    /** fromJson's list rules: the appliance and sensor lists are always
        cleared and then refilled from the document; the legacy
        "deferrableLoads" array is read only when the "appliances" key is
        absent. The document is always accepted. The substring heuristics
        for the MQTT and web-interface settings are not part of this model,
        so nothing is promised about those fields. */
    method FromJson(json: string) returns (success: bool)
      modifies this
      ensures success
      ensures appliances == ConfiguredAppliances(json)
      ensures sensorValues == ConfiguredSensors(json)
    {
      appliances := ReadAppliances(json);
      sensorValues := ReadSensors(json);
      success := true;
    }
  }

  /** The three default deferrable loads, added to an empty list. */
  method AddDefaultLoads(config: Config)
    requires config.appliances == []
    modifies config
    ensures config.appliances == [ApplianceConfig("ev_charger", true),
                                  ApplianceConfig("decorative_lights", true),
                                  ApplianceConfig("pool_pump", true)]
    ensures config.OnlyAppliancesChanged()
  {
    config.AddDeferrableLoad("ev_charger");
    assert "ev_charger"[0] != "decorative_lights"[0];
    config.AddDeferrableLoad("decorative_lights");
    assert "ev_charger"[0] != "pool_pump"[0] && "decorative_lights"[0] != "pool_pump"[0];
    config.AddDeferrableLoad("pool_pump");
  }

  /** The five default sensors, added to an empty list. */
  method AddDefaultSensors(config: Config)
    requires config.sensorValues == []
    modifies config
    ensures config.sensorValues == ["temperature_indoor", "temperature_outdoor", "energy_meter",
                                    "solar_production", "ev_charger_power"]
    ensures config.OnlySensorsChanged()
  {
    config.AddSensorValue("temperature_indoor");
    assert "temperature_indoor"[12] != "temperature_outdoor"[12];
    config.AddSensorValue("temperature_outdoor");
    assert "temperature_indoor"[0] != "energy_meter"[0] && "temperature_outdoor"[0] != "energy_meter"[0];
    config.AddSensorValue("energy_meter");
    assert "temperature_indoor"[0] != "solar_production"[0] && "temperature_outdoor"[0] != "solar_production"[0];
    assert "energy_meter"[0] != "solar_production"[0];
    config.AddSensorValue("solar_production");
    assert "temperature_indoor"[0] != "ev_charger_power"[0] && "temperature_outdoor"[0] != "ev_charger_power"[0];
    assert "energy_meter"[1] != "ev_charger_power"[1] && "solar_production"[0] != "ev_charger_power"[0];
    config.AddSensorValue("ev_charger_power");
  }

  /** getDefaultConfig: the three default deferrable loads, the five
      default sensors, MQTT on at localhost:1883 and the web interface on
      at port 8080. */
  method GetDefaultConfig() returns (config: Config)
    ensures fresh(config)
    ensures config.appliances == [ApplianceConfig("ev_charger", true),
                                  ApplianceConfig("decorative_lights", true),
                                  ApplianceConfig("pool_pump", true)]
    ensures config.sensorValues == ["temperature_indoor", "temperature_outdoor", "energy_meter",
                                    "solar_production", "ev_charger_power"]
    ensures config.mqttEnabled && config.mqttBrokerAddress == "localhost" && config.mqttPort == 1883
    ensures config.webInterfaceEnabled && config.webInterfacePort == 8080
  {
    config := new Config();
    AddDefaultLoads(config);
    AddDefaultSensors(config);
    config.SetMqttEnabled(true);
    config.SetMqttBrokerAddress("localhost");
    config.SetMqttPort(1883);
    config.SetWebInterfaceEnabled(true);
    config.SetWebInterfacePort(8080);
  }
}
