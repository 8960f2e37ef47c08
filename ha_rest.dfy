/** The Home Assistant REST client: base-URL normalisation, the request
    each operation sends, the ad-hoc JSON value extractor, the splitting of
    a response into brace-balanced objects and the decoding of sensor and
    history records. The HTTP exchange is a parameter: each operation is
    given the response body, and the requests are recorded. The clock
    reading that stamps records is a parameter too. */
module HARest {
  import opened Text
  import opened Braces

  datatype SensorData = SensorData(
    entityId: string,
    state: string,
    unitOfMeasurement: string,
    friendlyName: string,
    deviceClass: string,
    lastChanged: int,
    lastUpdated: int)

  datatype HistoricalData = HistoricalData(
    entityId: string,
    state: string,
    timestamp: int,
    attributes: map<string, string>)

  datatype HttpRequest = Get(url: string) | Post(url: string, body: string)

  /** Skipped after the colon of a key. */
  const Blanks: set<char> := {' ', '\t', '\n'}
  /** End an unquoted value. */
  const ValueStops: set<char> := {',', '}', ']', '\n'}
  /** Trimmed from the end of an unquoted value. */
  const TrailingBlanks: set<char> := {' ', '\t'}

  /** The first index at or after `i` whose character is not in `cs`, or
      the length. */
  function SkipFrom(s: string, i: nat, cs: set<char>): (r: nat)
    requires i <= |s|
    ensures i <= r <= |s|
    ensures forall k :: i <= k < r ==> s[k] in cs
    ensures r < |s| ==> s[r] !in cs
    decreases |s| - i
  {
    if i == |s| || s[i] !in cs then i else SkipFrom(s, i + 1, cs)
  }

  /** The first index at or after `i` whose character is in `cs`, or the
      length. */
  function StopFrom(s: string, i: nat, cs: set<char>): (r: nat)
    requires i <= |s|
    ensures i <= r <= |s|
    ensures forall k :: i <= k < r ==> s[k] !in cs
    ensures r < |s| ==> s[r] in cs
    decreases |s| - i
  {
    if i == |s| || s[i] in cs then i else StopFrom(s, i + 1, cs)
  }

  /** A key or value in double quotes, as keys are searched for. */
  function Quoted(key: string): string {
    "\"" + key + "\""
  }

  /** The value that starts at `start`, past the blanks after a colon: the
      text up to the next '"' of a quoted value, or the text up to a ',',
      '}', ']' or newline with trailing spaces and tabs removed; "" at the
      end of the text or without a closing quote. */
  function ValueAt(json: string, start: nat): (v: string)
    requires start <= |json|
    ensures start < |json| && json[start] == '"' ==> '"' !in v
    ensures start < |json| && json[start] != '"' ==> forall k :: 0 <= k < |v| ==> v[k] !in ValueStops
    ensures v != [] && (start == |json| || json[start] != '"') ==> v[|v| - 1] !in TrailingBlanks
  {
    if start == |json| then []
    else if json[start] == '"' then
      match IndexOf(json, '"', start + 1)
      case None => []
      case Some(close) => json[start + 1..close]
    else TrimBack(json[start..StopFrom(json, start, ValueStops)], TrailingBlanks)
  }

  /** extractJsonValue: the value after the first quoted key, its next ':'
      and any blanks; "" when the key or the colon is missing. */
  function JsonValue(json: string, key: string): (v: string)
    ensures Find(json, Quoted(key), 0).None? ==> v == []
  {
    match Find(json, Quoted(key), 0)
    case None => []
    case Some(keyPos) =>
      match IndexOf(json, ':', keyPos)
      case None => []
      case Some(colon) => ValueAt(json, SkipFrom(json, colon + 1, Blanks))
  }

  /** Written as `{"key": ` and then `rest`, the key is found at index
      one, its colon right after it, and the value is read from past the
      space. */
  lemma {:induction false} ValueAfterKey(key: string, rest: string)
    requires ':' !in key
    ensures var json := "{" + Quoted(key) + ": " + rest;
            && |key| + 4 <= |json|
            && JsonValue(json, key) == ValueAt(json, SkipFrom(json, |key| + 4, Blanks))
  {
    var json := "{" + Quoted(key) + ": " + rest;
    var n := |key|;
    assert json[1..n + 3] == Quoted(key);
    assert !OccursAt(json, Quoted(key), 0) by {
      assert json[0] == '{' && Quoted(key)[0] == '"';
      assert json[0..n + 2][0] == json[0];
    }
    FindAt(json, Quoted(key), 0, 1);
    forall k | 1 <= k < n + 3
      ensures json[k] != ':'
    {
      if 2 <= k < n + 2 {
        assert json[k] == key[k - 2];
      }
    }
    assert json[n + 3] == ':';
    IndexOfAt(json, ':', 1, n + 3);
  }

  /** A quoted value with its closing quote is read back from its opening
      quote. */
  lemma QuotedValueAt(json: string, start: nat, v: string, tail: string)
    requires '"' !in v && start <= |json| && json[start..] == Quoted(v) + tail
    ensures ValueAt(json, start) == v
  {
    var close := start + 1 + |v|;
    assert json[start] == '"' && json[close] == '"';
    forall k | start + 1 <= k < close
      ensures json[k] != '"'
    {
      assert json[k] == v[k - start - 1];
    }
    IndexOfAt(json, '"', start + 1, close);
    assert json[start + 1..close] == v;
  }

  /** One space before a character that is not blank is all the skipping
      there is. */
  lemma SkipOneBlank(s: string, i: nat)
    requires i + 1 < |s| && s[i] == ' ' && s[i + 1] !in Blanks
    ensures SkipFrom(s, i, Blanks) == i + 1
  {
  }

  /** Past the colon and space after a key, a quoted value is read up to
      its closing quote, whatever follows it. */
  lemma QuotedValueAfterKey(key: string, v: string, tail: string)
    requires '"' !in v
    ensures var json := "{" + Quoted(key) + ": " + (Quoted(v) + tail);
            && |key| + 4 <= |json|
            && ValueAt(json, SkipFrom(json, |key| + 4, Blanks)) == v
  {
    var head := "{" + Quoted(key) + ": ";
    var rest := Quoted(v) + tail;
    var json := head + rest;
    var n := |key|;
    assert |head| == n + 5 && head[n + 4] == ' ';
    assert json[n + 4] == ' ' && json[n + 5] == rest[0] == '"';
    SkipOneBlank(json, n + 4);
    assert json[n + 5..] == rest;
    QuotedValueAt(json, n + 5, v, tail);
  }

  /** A quoted value written after its key is read back, whatever
      follows it. */
  lemma QuotedValueRoundTrip(key: string, v: string, tail: string)
    requires ':' !in key && '"' !in v
    ensures JsonValue("{" + Quoted(key) + ": " + (Quoted(v) + tail), key) == v
  {
    ValueAfterKey(key, Quoted(v) + tail);
    QuotedValueAfterKey(key, v, tail);
  }


  /** An unquoted value ended by a terminator is read back from its first
      character, provided it starts with no quote, holds no terminator and
      ends with no space or tab. */
  lemma BareValueAt(json: string, start: nat, v: string)
    requires v != [] && v[0] != '"' && v[|v| - 1] !in TrailingBlanks
    requires forall k :: 0 <= k < |v| ==> v[k] !in ValueStops
    requires start + |v| < |json| && json[start..start + |v|] == v && json[start + |v|] in ValueStops
    ensures ValueAt(json, start) == v
  {
    assert json[start] == v[0];
    forall k | start <= k < start + |v|
      ensures json[k] !in ValueStops
    {
      assert json[k] == v[k - start];
    }
    assert StopFrom(json, start, ValueStops) == start + |v|;
  }

  /** An unquoted value written after its key is read back, provided it is
      non-empty, does not start with a blank or a quote, holds no value
      terminator and does not end with a space or tab. */
  lemma BareValueRoundTrip(key: string, v: string)
    requires ':' !in key
    requires v != [] && v[0] !in Blanks && v[0] != '"' && v[|v| - 1] !in TrailingBlanks
    requires forall k :: 0 <= k < |v| ==> v[k] !in ValueStops
    ensures JsonValue("{" + Quoted(key) + ": " + v + "}", key) == v
  {
    var json := "{" + Quoted(key) + ": " + (v + "}");
    assert json == "{" + Quoted(key) + ": " + v + "}";
    var n := |key|;
    ValueAfterKey(key, v + "}");
    assert json[n + 4] == ' ' && json[n + 5] == v[0];
    assert json[n + 5..n + 5 + |v|] == v && json[n + 5 + |v|] == '}';
    BareValueAt(json, n + 5, v);
  }

  /** The "attributes" section parseSensorData reads the attribute fields
      from: from the key up to the next '}', or to the end without one. */
  function AttributesSection(json: string): (r: Option<string>)
    ensures r.Some? ==> exists i :: OccursAt(json, r.value, i)
    ensures r.Some? ==> '}' !in r.value
  {
    match Find(json, "\"attributes\"", 0)
    case None => None
    case Some(a) =>
      match IndexOf(json, '}', a)
      case None => assert OccursAt(json, json[a..], a); Some(json[a..])
      case Some(e) => assert OccursAt(json, json[a..e], a); Some(json[a..e])
  }

  /** parseSensorData, with both time stamps set to `now`. */
  function SensorOf(json: string, now: int): SensorData {
    var section := AttributesSection(json);
    SensorData(
      JsonValue(json, "entity_id"),
      JsonValue(json, "state"),
      if section.Some? then JsonValue(section.value, "unit_of_measurement") else [],
      if section.Some? then JsonValue(section.value, "friendly_name") else [],
      if section.Some? then JsonValue(section.value, "device_class") else [],
      now, now)
  }

  /** One history record, stamped `now`, with no attributes. */
  function HistoryOf(json: string, now: int): HistoricalData {
    HistoricalData(JsonValue(json, "entity_id"), JsonValue(json, "state"), now, map[])
  }

  /** The objects the splitting loop finds from `pos`: each starts at the
      next '{', needs some '}' after it, and ends where its braces balance;
      the split stops at the first object that does not balance. */
  function ObjectsFrom(json: string, pos: nat): seq<string>
    decreases |json| - pos
  {
    match IndexOf(json, '{', pos)
    case None => []
    case Some(open) =>
      match IndexOf(json, '}', open)
      case None => []
      case Some(_) =>
        match MatchingBrace(json, open)
        case None => []
        case Some(close) => [json[open..close]] + ObjectsFrom(json, close)
  }

  /** Every object the split yields is a balanced object cut out of the
      response. */
  lemma {:induction false} ObjectsAreBalanced(json: string, pos: nat)
    ensures forall o :: o in ObjectsFrom(json, pos) ==> BalancedObject(o) && exists i :: OccursAt(json, o, i)
    decreases |json| - pos
  {
    match IndexOf(json, '{', pos)
    case None =>
    case Some(open) =>
      match IndexOf(json, '}', open)
      case None =>
      case Some(_) =>
        MatchingBraceBalanced(json, open);
        match MatchingBrace(json, open)
        case None =>
        case Some(close) =>
          var o := json[open..close];
          forall k | 0 < k < |o|
            ensures Depth(o[..k]) > 0
          {
            assert o[..k] == json[open..open + k];
          }
          assert OccursAt(json, o, open);
          ObjectsAreBalanced(json, close);
  }

  /** parseSensorData as a decoder, stamping with `now`. */
  function SensorDecoder(now: int): string -> SensorData {
    o => SensorOf(o, now)
  }

  /** The history decoder of parseHistoricalData, stamping with `now`. */
  function HistoryDecoder(now: int): string -> HistoricalData {
    o => HistoryOf(o, now)
  }

  /** The records the objects decode to, in order, without those whose
      entity id is empty. */
  function SensorsIn(objs: seq<string>, decode: string -> SensorData): (r: seq<SensorData>)
    ensures |r| <= |objs|
  {
    if objs == [] then []
    else
      var data := decode(objs[0]);
      (if data.entityId != [] then [data] else []) + SensorsIn(objs[1..], decode)
  }

  function HistoryIn(objs: seq<string>, decode: string -> HistoricalData): (r: seq<HistoricalData>)
    ensures |r| <= |objs|
  {
    if objs == [] then []
    else
      var data := decode(objs[0]);
      (if data.entityId != [] then [data] else []) + HistoryIn(objs[1..], decode)
  }

  /** Only records with an entity id are kept. */
  lemma {:induction false} SensorsInHaveIds(objs: seq<string>, decode: string -> SensorData)
    ensures forall i :: 0 <= i < |SensorsIn(objs, decode)| ==> SensorsIn(objs, decode)[i].entityId != []
  {
    if objs != [] {
      SensorsInHaveIds(objs[1..], decode);
    }
  }

  lemma {:induction false} HistoryInHaveIds(objs: seq<string>, decode: string -> HistoricalData)
    ensures forall i :: 0 <= i < |HistoryIn(objs, decode)| ==> HistoryIn(objs, decode)[i].entityId != []
  {
    if objs != [] {
      HistoryInHaveIds(objs[1..], decode);
    }
  }

  /** Entity id and state of each record. */
  function SensorKeys(ss: seq<SensorData>): seq<(string, string)> {
    if ss == [] then [] else [(ss[0].entityId, ss[0].state)] + SensorKeys(ss[1..])
  }

  function HistoryKeys(hs: seq<HistoricalData>): seq<(string, string)> {
    if hs == [] then [] else [(hs[0].entityId, hs[0].state)] + HistoryKeys(hs[1..])
  }

  /** Both decoders read the same entity id and state from an object. */
  lemma DecodersAgree(o: string, now: int)
    ensures HistoryDecoder(now)(o).entityId == SensorDecoder(now)(o).entityId
    ensures HistoryDecoder(now)(o).state == SensorDecoder(now)(o).state
  {
  }

  /** parseHistoricalData splits and filters exactly as
      parseMultipleSensors does: the same entities with the same states, in
      the same order. */
  lemma {:induction false} HistoryMatchesSensors(objs: seq<string>, now: int)
    ensures HistoryKeys(HistoryIn(objs, HistoryDecoder(now))) == SensorKeys(SensorsIn(objs, SensorDecoder(now)))
  {
    if objs != [] {
      HistoryMatchesSensors(objs[1..], now);
      var h := HistoryDecoder(now)(objs[0]);
      var s := SensorDecoder(now)(objs[0]);
      DecodersAgree(objs[0], now);
      var hs := HistoryIn(objs[1..], HistoryDecoder(now));
      var ss := SensorsIn(objs[1..], SensorDecoder(now));
      if h.entityId != [] {
        assert HistoryIn(objs, HistoryDecoder(now)) == [h] + hs;
        assert SensorsIn(objs, SensorDecoder(now)) == [s] + ss;
        assert ([h] + hs)[1..] == hs;
        assert ([s] + ss)[1..] == ss;
      } else {
        assert HistoryIn(objs, HistoryDecoder(now)) == hs;
        assert SensorsIn(objs, SensorDecoder(now)) == ss;
      }
    }
  }

  /** getAllSensors' filter: the records whose entity id starts with
      "sensor.", in order. */
  function SensorEntities(states: seq<SensorData>): (r: seq<SensorData>)
    ensures forall s :: s in r <==> s in states && "sensor." <= s.entityId
    ensures |r| <= |states|
  {
    if states == [] then []
    else (if "sensor." <= states[0].entityId then [states[0]] else []) + SensorEntities(states[1..])
  }

  /** The filter keeps the order: filtering a concatenation concatenates
      the filtered parts. */
  lemma {:induction false} SensorEntitiesAppend(a: seq<SensorData>, b: seq<SensorData>)
    ensures SensorEntities(a + b) == SensorEntities(a) + SensorEntities(b)
  {
    if a != [] {
      assert (a + b)[1..] == a[1..] + b;
      SensorEntitiesAppend(a[1..], b);
    } else {
      assert a + b == b;
    }
  }

  /** Filtering twice keeps what filtering once kept. */
  lemma {:induction false} SensorEntitiesIdempotent(states: seq<SensorData>)
    ensures SensorEntities(SensorEntities(states)) == SensorEntities(states)
  {
    if states != [] {
      SensorEntitiesIdempotent(states[1..]);
      var head := if "sensor." <= states[0].entityId then [states[0]] else [];
      SensorEntitiesAppend(head, SensorEntities(states[1..]));
      if head != [] {
        assert head[1..] == [];
      }
    }
  }

  /** callService's body: the quoted entity id, then the caller's data
      after a comma when there is any. */
  function ServicePayload(entityId: string, data: string): (p: string)
    ensures data == [] ==> p == "{" + Quoted("entity_id") + ": " + Quoted(entityId) + "}"
    ensures data != [] ==> p == "{" + Quoted("entity_id") + ": " + Quoted(entityId) + ", " + data + "}"
  {
    "{\"entity_id\": \"" + entityId + "\"" + (if data != [] then ", " + data else []) + "}"
  }

  /** The entity id of a service call is read back from its payload,
      whatever data follows it. */
  lemma ServicePayloadNamesEntity(entityId: string, data: string)
    requires '"' !in entityId
    ensures JsonValue(ServicePayload(entityId, data), "entity_id") == entityId
  {
    var tail := if data != [] then ", " + data + "}" else "}";
    assert ServicePayload(entityId, data) == "{" + Quoted("entity_id") + ": " + (Quoted(entityId) + tail);
    QuotedValueRoundTrip("entity_id", entityId, tail);
  }

  /** A service call succeeds when the response is non-empty and nowhere
      says "error". */
  predicate ServiceSucceeded(response: string) {
    response != [] && Find(response, "error", 0).None?
  }

  lemma ServiceSucceededMeaning(response: string)
    ensures ServiceSucceeded(response) <==> response != [] && forall k :: !OccursAt(response, "error", k)
  {
  }

  /** testConnection: a non-empty response that mentions "API running" or
      "message". */
  predicate ConnectionAnswered(response: string) {
    response != [] && (Find(response, "API running", 0).Some? || Find(response, "message", 0).Some?)
  }

  /** The first index at or after `from` that is not a blank, by a loop. */
  method SkipBlanks(json: string, from: nat) returns (i: nat)
    requires from <= |json|
    ensures i == SkipFrom(json, from, Blanks)
  {
    i := from;
    while i < |json| && (json[i] == ' ' || json[i] == '\t' || json[i] == '\n')
      invariant from <= i <= |json|
      invariant SkipFrom(json, i, Blanks) == SkipFrom(json, from, Blanks)
      decreases |json| - i
    {
      i := i + 1;
    }
  }

  /** An unquoted value from `start`: scanned to a terminator, then
      stripped of trailing spaces and tabs, by loops. */
  method BareValue(json: string, start: nat) returns (value: string)
    requires start <= |json|
    ensures value == TrimBack(json[start..StopFrom(json, start, ValueStops)], TrailingBlanks)
  {
    var valueEnd := start;
    while valueEnd < |json| && json[valueEnd] != ',' && json[valueEnd] != '}'
          && json[valueEnd] != ']' && json[valueEnd] != '\n'
      invariant start <= valueEnd <= |json|
      invariant StopFrom(json, valueEnd, ValueStops) == StopFrom(json, start, ValueStops)
      decreases |json| - valueEnd
    {
      valueEnd := valueEnd + 1;
    }
    value := json[start..valueEnd];
    ghost var whole := value;
    while value != [] && (value[|value| - 1] == ' ' || value[|value| - 1] == '\t')
      invariant TrimBack(value, TrailingBlanks) == TrimBack(whole, TrailingBlanks)
      decreases |value|
    {
      value := value[..|value| - 1];
    }
  }

  /** The value at `start`, quoted or not. */
  method ReadValue(json: string, start: nat) returns (value: string)
    requires start <= |json|
    ensures value == ValueAt(json, start)
  {
    if start >= |json| {
      return [];
    }
    if json[start] == '"' {
      var valueEnd := IndexOf(json, '"', start + 1);
      if valueEnd.Some? {
        return json[start + 1..valueEnd.value];
      }
      return [];
    }
    value := BareValue(json, start);
  }

  /** extractJsonValue. */
  method ExtractJsonValue(json: string, key: string) returns (value: string)
    ensures value == JsonValue(json, key)
  {
    var searchKey := Quoted(key);
    var keyPos := Find(json, searchKey, 0);
    if keyPos.None? {
      return [];
    }
    var colonPos := IndexOf(json, ':', keyPos.value);
    if colonPos.None? {
      return [];
    }
    var valueStart := SkipBlanks(json, colonPos.value + 1);
    value := ReadValue(json, valueStart);
  }

  /** parseSensorData. */
  method ParseSensorData(json: string, now: int) returns (data: SensorData)
    ensures data == SensorOf(json, now)
  {
    var entityId := ExtractJsonValue(json, "entity_id");
    var state := ExtractJsonValue(json, "state");
    var unit, friendly, deviceClass := [], [], [];
    var attrStart := Find(json, "\"attributes\"", 0);
    if attrStart.Some? {
      var attrEnd := IndexOf(json, '}', attrStart.value);
      var attributes := if attrEnd.None? then json[attrStart.value..] else json[attrStart.value..attrEnd.value];
      unit := ExtractJsonValue(attributes, "unit_of_measurement");
      friendly := ExtractJsonValue(attributes, "friendly_name");
      deviceClass := ExtractJsonValue(attributes, "device_class");
    }
    data := SensorData(entityId, state, unit, friendly, deviceClass, now, now);
  }

  /** The end of the balanced span opening at `open`, by the brace-counting
      loop both splitters use; None when the braces never balance. */
  method ScanObject(json: string, open: nat) returns (close: Option<nat>)
    requires open < |json|
    ensures close == MatchingBrace(json, open)
  {
    var braceCount := 1;
    var searchPos := open + 1;
    while braceCount > 0 && searchPos < |json|
      invariant open < searchPos <= |json| && braceCount >= 0
      invariant CloseFrom(json, searchPos, braceCount) == MatchingBrace(json, open)
      decreases |json| - searchPos
    {
      if json[searchPos] == '{' {
        braceCount := braceCount + 1;
      } else if json[searchPos] == '}' {
        braceCount := braceCount - 1;
      }
      searchPos := searchPos + 1;
    }
    close := if braceCount == 0 then Some(searchPos) else None;
  }

  /** One round of the splitting loop: the next '{' at or after `pos`, a
      '}' somewhere after it, and the end of its balanced span; None where
      the loop stops. */
  method NextObject(json: string, pos: nat) returns (next: Option<(string, nat)>)
    requires pos <= |json|
    ensures next.None? ==> ObjectsFrom(json, pos) == []
    ensures next.Some? ==> pos < next.value.1 <= |json|
    ensures next.Some? ==> ObjectsFrom(json, pos) == [next.value.0] + ObjectsFrom(json, next.value.1)
  {
    var start := IndexOf(json, '{', pos);
    if start.None? {
      return None;
    }
    var open := start.value;
    var endPos := IndexOf(json, '}', open);
    if endPos.None? {
      return None;
    }
    var close := ScanObject(json, open);
    if close.None? {
      return None;
    }
    next := Some((json[open..close.value], close.value));
  }

  /** Moving the head of the remaining objects to the processed ones. */
  lemma MoveHead<T>(done: seq<T>, x: T, rest: seq<T>)
    ensures done + ([x] + rest) == (done + [x]) + rest
  {
  }

  /** The records of objects with one more object after them. */
  lemma {:induction false} SensorsSnoc(objs: seq<string>, o: string, decode: string -> SensorData)
    ensures var data := decode(o);
            SensorsIn(objs + [o], decode) == SensorsIn(objs, decode) + (if data.entityId != [] then [data] else [])
  {
    if objs != [] {
      assert (objs + [o])[1..] == objs[1..] + [o];
      SensorsSnoc(objs[1..], o, decode);
    }
  }

  lemma {:induction false} HistorySnoc(objs: seq<string>, o: string, decode: string -> HistoricalData)
    ensures var data := decode(o);
            HistoryIn(objs + [o], decode) == HistoryIn(objs, decode) + (if data.entityId != [] then [data] else [])
  {
    if objs != [] {
      assert (objs + [o])[1..] == objs[1..] + [o];
      HistorySnoc(objs[1..], o, decode);
    }
  }

  /** parseMultipleSensors, with each object decoded by `decode`. */
  method ParseMultipleSensors(json: string, decode: string -> SensorData) returns (sensors: seq<SensorData>)
    ensures sensors == SensorsIn(ObjectsFrom(json, 0), decode)
  {
    sensors := [];
    var pos := 0;
    ghost var done: seq<string> := [];
    while true
      invariant pos <= |json|
      invariant done + ObjectsFrom(json, pos) == ObjectsFrom(json, 0)
      invariant sensors == SensorsIn(done, decode)
      decreases |json| - pos
    {
      var next := NextObject(json, pos);
      if next.None? {
        assert done + [] == done;
        break;
      }
      var (objectStr, close) := next.value;
      var data := decode(objectStr);
      SensorsSnoc(done, objectStr, decode);
      if data.entityId != [] {
        sensors := sensors + [data];
      }
      MoveHead(done, objectStr, ObjectsFrom(json, close));
      done := done + [objectStr];
      pos := close;
    }
  }

  /** parseHistoricalData, with each object decoded by `decode`. */
  method ParseHistoricalData(json: string, decode: string -> HistoricalData) returns (history: seq<HistoricalData>)
    ensures history == HistoryIn(ObjectsFrom(json, 0), decode)
  {
    history := [];
    var pos := 0;
    ghost var done: seq<string> := [];
    while true
      invariant pos <= |json|
      invariant done + ObjectsFrom(json, pos) == ObjectsFrom(json, 0)
      invariant history == HistoryIn(done, decode)
      decreases |json| - pos
    {
      var next := NextObject(json, pos);
      if next.None? {
        assert done + [] == done;
        break;
      }
      var (objectStr, close) := next.value;
      var data := decode(objectStr);
      HistorySnoc(done, objectStr, decode);
      if data.entityId != [] {
        history := history + [data];
      }
      MoveHead(done, objectStr, ObjectsFrom(json, close));
      done := done + [objectStr];
      pos := close;
    }
  }

  class RestClient {
    const baseUrl: string
    const token: string
    /** The requests sent so far, oldest first. */
    var requests: seq<HttpRequest>

    /** Keeps the base URL without one trailing '/'. */
    constructor (baseUrl: string, token: string)
      ensures if baseUrl != [] && baseUrl[|baseUrl| - 1] == '/' then this.baseUrl + "/" == baseUrl
              else this.baseUrl == baseUrl
      ensures this.token == token && requests == []
    {
      var url := baseUrl;
      if url != [] && url[|url| - 1] == '/' {
        url := url[..|url| - 1];
      }
      this.baseUrl := url;
      this.token := token;
      requests := [];
    }

    method GetSensorState(entityId: string, response: string, now: int) returns (data: SensorData)
      modifies this
      ensures requests == old(requests) + [Get(baseUrl + "/api/states/" + entityId)]
      ensures data == SensorOf(response, now)
    {
      requests := requests + [Get(baseUrl + "/api/states/" + entityId)];
      data := ParseSensorData(response, now);
    }

    /** getAllSensors: every decoded state whose entity id starts with
        "sensor.". */
    method GetAllSensors(response: string, now: int) returns (sensors: seq<SensorData>)
      modifies this
      ensures requests == old(requests) + [Get(baseUrl + "/api/states")]
      ensures sensors == SensorEntities(SensorsIn(ObjectsFrom(response, 0), SensorDecoder(now)))
    {
      requests := requests + [Get(baseUrl + "/api/states")];
      var allStates := ParseMultipleSensors(response, SensorDecoder(now));
      sensors := SensorEntities(allStates);
    }

    method GetAllStates(response: string, now: int) returns (states: seq<SensorData>)
      modifies this
      ensures requests == old(requests) + [Get(baseUrl + "/api/states")]
      ensures states == SensorsIn(ObjectsFrom(response, 0), SensorDecoder(now))
    {
      requests := requests + [Get(baseUrl + "/api/states")];
      states := ParseMultipleSensors(response, SensorDecoder(now));
    }

    /** getHistory, with the start time already rendered as ISO 8601 text. */
    method GetHistory(entityId: string, isoStart: string, response: string, now: int)
      returns (history: seq<HistoricalData>)
      modifies this
      ensures requests == old(requests) +
                [Get(baseUrl + "/api/history/period/" + isoStart + "?filter_entity_id=" + entityId)]
      ensures history == HistoryIn(ObjectsFrom(response, 0), HistoryDecoder(now))
    {
      requests := requests + [Get(baseUrl + "/api/history/period/" + isoStart + "?filter_entity_id=" + entityId)];
      history := ParseHistoricalData(response, HistoryDecoder(now));
    }

    method CallService(domain: string, service: string, entityId: string, data: string, response: string)
      returns (success: bool)
      modifies this
      ensures requests == old(requests) +
                [Post(baseUrl + "/api/services/" + domain + "/" + service, ServicePayload(entityId, data))]
      ensures success <==> response != [] && forall k :: !OccursAt(response, "error", k)
    {
      var payload := "{\"entity_id\": \"" + entityId + "\"";
      if data != [] {
        payload := payload + ", " + data;
      }
      payload := payload + "}";
      assert payload == ServicePayload(entityId, data);
      requests := requests + [Post(baseUrl + "/api/services/" + domain + "/" + service, payload)];
      ServiceSucceededMeaning(response);
      success := response != [] && Find(response, "error", 0).None?;
    }

    method TestConnection(response: string) returns (success: bool)
      modifies this
      ensures requests == old(requests) + [Get(baseUrl + "/api/")]
      ensures success <==> ConnectionAnswered(response)
    {
      requests := requests + [Get(baseUrl + "/api/")];
      success := response != [] && (Find(response, "API running", 0).Some? || Find(response, "message", 0).Some?);
    }
  }
}
