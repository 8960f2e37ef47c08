/** The Home Assistant MQTT bridge: topic names, command and state
    payloads, the state-payload parser and the decoding of incoming state
    and discovery topics. The MQTT client is a parameter: each operation
    is told whether the client is connected, subscriptions and
    publications are recorded, and the registered callbacks are recorded
    as the deliveries they receive. */
module HAIntegration {
  import opened Text
  import opened Braces

  const DefaultPrefix: string := "homeassistant"

  /** haDiscoveryPrefix + "/state/" + entityId. */
  function StateTopic(prefix: string, entityId: string): (t: string)
    ensures |t| == |prefix| + 7 + |entityId|
  {
    prefix + "/state/" + entityId
  }

  /** haDiscoveryPrefix + "/command/" + entityId. */
  function CommandTopic(prefix: string, entityId: string): (t: string)
    ensures |t| == |prefix| + 9 + |entityId|
  {
    prefix + "/command/" + entityId
  }

  /** prefix/component/node/object/config. */
  function DiscoveryTopic(prefix: string, component: string, nodeId: string, objectId: string): (t: string)
    ensures |t| == |prefix| + |component| + |nodeId| + |objectId| + 10
  {
    prefix + "/" + component + "/" + nodeId + "/" + objectId + "/config"
  }

  /** The part of an entity id before its first '.', or "" without a
      dot. */
  function ExtractDomain(entityId: string): (d: string)
    ensures '.' !in d
    ensures '.' in entityId ==> d + "." <= entityId
    ensures '.' !in entityId ==> d == []
  {
    match IndexOf(entityId, '.', 0)
    case None => []
    case Some(dot) => entityId[..dot]
  }

  /** createCommandPayload: the bare command without data, otherwise a
      JSON object with the command quoted and the data verbatim. */
  function CommandPayload(command: string, data: string): (p: string)
    ensures data == [] ==> p == command
    ensures data != [] ==> |p| == |command| + |data| + 25 && p[0] == '{' && p[|p| - 1] == '}'
  {
    if data == [] then command
    else "{\"command\": \"" + command + "\", \"data\": " + data + "}"
  }

  /** Without data the payload is the command itself; with data the
      command and the data sit at fixed places in a brace-framed payload,
      so both can be read back. */
  lemma CommandPayloadParts(command: string, data: string)
    ensures data == [] ==> CommandPayload(command, data) == command
    ensures data != [] ==>
            var p := CommandPayload(command, data);
            && |p| == |command| + |data| + 25
            && p[13..13 + |command|] == command
            && p[|p| - 1 - |data|..|p| - 1] == data
            && p[0] == '{' && p[|p| - 1] == '}'
  {
    if data != [] {
      var p := CommandPayload(command, data);
      var head := "{\"command\": \"";
      var middle := "\", \"data\": ";
      assert |head| == 13 && |middle| == 11;
      assert p == head + command + middle + data + "}";
    }
  }

  /** publishState's payload: the bare state without attributes, otherwise
      a JSON object with the state quoted and the attributes verbatim. */
  function StatePayload(state: string, attributes: string): (p: string)
    ensures attributes == [] ==> p == state
    ensures attributes != [] ==> |p| == |state| + |attributes| + 29 && p[0] == '{' && p[|p| - 1] == '}'
  {
    if attributes == [] then state
    else "{\"state\": \"" + state + "\", \"attributes\": " + attributes + "}"
  }

  /** The outcome of parseStateMessage and the values its two reference
      parameters hold afterwards. */
  datatype StateParse = StateParse(ok: bool, state: string, attributes: string)

  /** The "state" field of a JSON payload: None when the parse gives up (a
      "state" key with no quote after its colon); the caller's value when
      the key or the closing quote is missing. */
  function JsonState(p: string, state0: string): Option<string> {
    match Find(p, "\"state\"", 0)
    case None => Some(state0)
    case Some(key) =>
      match IndexOf(p, ':', key)
      case None => None
      case Some(colon) =>
        match IndexOf(p, '"', colon)
        case None => None
        case Some(open) =>
          match IndexOf(p, '"', open + 1)
          case None => Some(state0)
          case Some(close) => Some(p[open + 1..close])
  }

  /** The "attributes" field of a JSON payload: the balanced brace span from
      the first '{' after the key, or the caller's value when the key, the
      brace or the balance is missing. */
  function JsonAttributes(p: string, attributes0: string): string {
    match Find(p, "\"attributes\"", 0)
    case None => attributes0
    case Some(key) =>
      match IndexOf(p, '{', key)
      case None => attributes0
      case Some(open) =>
        match MatchingBrace(p, open)
        case None => attributes0
        case Some(close) => p[open..close]
  }

  /** parseStateMessage with the reference parameters holding `state0` and
      `attributes0` on entry. */
  function StateMessage(p: string, state0: string, attributes0: string): (r: StateParse)
    ensures p == [] ==> r == StateParse(false, state0, attributes0)
    ensures p != [] && p[0] != '{' ==> r == StateParse(true, p, [])
    ensures r.ok ==> r.state != []
  {
    if p == [] then StateParse(false, state0, attributes0)
    else if p[0] != '{' then StateParse(true, p, [])
    else match JsonState(p, state0)
      case None => StateParse(false, state0, attributes0)
      case Some(state) => StateParse(state != [], state, JsonAttributes(p, attributes0))
  }

  /** The attributes a JSON payload yields are a balanced object cut out
      of the payload, or else the caller's value. */
  lemma StateMessageAttributes(p: string, state0: string, attributes0: string)
    requires p != [] && p[0] == '{'
    ensures var a := StateMessage(p, state0, attributes0).attributes;
            a == attributes0 || (BalancedObject(a) && exists i :: OccursAt(p, a, i))
  {
    if JsonState(p, state0).Some? {
      match Find(p, "\"attributes\"", 0)
      case None =>
      case Some(key) =>
        match IndexOf(p, '{', key)
        case None =>
        case Some(open) =>
          MatchingBraceBalanced(p, open);
          match MatchingBrace(p, open)
          case None =>
          case Some(close) =>
            var a := p[open..close];
            forall k | 0 < k < |a|
              ensures Depth(a[..k]) > 0
            {
              assert a[..k] == p[open..open + k];
            }
            assert OccursAt(p, a, open);
    }
  }

  /** A plain-text state published without attributes is read back as that
      state with no attributes. */
  lemma PlainStateRoundTrip(state: string, state0: string, attributes0: string)
    requires state != [] && state[0] != '{'
    ensures StateMessage(StatePayload(state, []), state0, attributes0) == StateParse(true, state, [])
  {
  }

  /** A state published with attributes is read back exactly, provided the
      state holds no quote or brace and the attributes are one balanced
      JSON object. */
  lemma JsonStateRoundTrip(state: string, attributes: string, state0: string, attributes0: string)
    requires state != [] && '"' !in state && '{' !in state
    requires BalancedObject(attributes)
    ensures StateMessage(StatePayload(state, attributes), state0, attributes0) == StateParse(true, state, attributes)
  {
    var p := StatePayload(state, attributes);
    var head := "{\"state\": \"";
    var middle := "\", \"attributes\": ";
    assert |head| == 11 && |middle| == 17;
    assert p == head + state + middle + attributes + "}";
    JsonStateOfPayload(state, attributes, p, |state|);
    PayloadHasLayout(state, attributes);
    JsonAttributesOfPayload(state, attributes, p);
  }

  lemma JsonStateOfPayload(state: string, attributes: string, p: string, n: nat)
    requires n == |state| && '"' !in state && attributes != []
    requires p == "{\"state\": \"" + state + "\", \"attributes\": " + attributes + "}"
    ensures forall s0 :: JsonState(p, s0) == Some(state)
  {
    var head := "{\"state\": \"";
    assert p[..11] == head;
    assert p[11..11 + n] == state;
    assert p[11 + n] == '"';
    assert p[0] == '{' && p[1] == '"' && p[8] == ':' && p[9] == ' ' && p[10] == '"';
    assert OccursAt(p, "\"state\"", 1) by {
      assert p[1..8] == "\"state\"";
    }
    FindAt(p, "\"state\"", 0, 1);
    forall k | 1 <= k < 8
      ensures p[k] != ':'
    {
      assert p[k] == head[k];
    }
    IndexOfAt(p, ':', 1, 8);
    IndexOfAt(p, '"', 8, 10);
    forall k | 11 <= k < 11 + n
      ensures p[k] != '"'
    {
      assert p[k] == state[k - 11];
    }
    IndexOfAt(p, '"', 11, 11 + n);
  }

  /** The pieces of a JSON state payload, by position. */
  predicate PayloadLayout(p: string, state: string, attributes: string) {
    var n := |state|;
    && |p| == n + 29 + |attributes|
    && p[..11] == "{\"state\": \""
    && p[11..11 + n] == state
    && p[11 + n..n + 28] == "\", \"attributes\": "
    && p[n + 28..n + 28 + |attributes|] == attributes
  }

  lemma PayloadHasLayout(state: string, attributes: string)
    ensures PayloadLayout("{\"state\": \"" + state + "\", \"attributes\": " + attributes + "}", state, attributes)
  {
  }

  /** The first "attributes" key lies between the opening brace and the
      real key. */
  lemma AttributesKeyBound(p: string, state: string, attributes: string)
    requires PayloadLayout(p, state, attributes)
    ensures var key := Find(p, "\"attributes\"", 0);
            key.Some? && 1 <= key.value <= |state| + 14
  {
    var n := |state|;
    var key := "\"attributes\"";
    var middle := p[11 + n..n + 28];
    assert middle == "\", \"attributes\": ";
    forall k | 0 <= k < 12 ensures p[n + 14 + k] == key[k] {
      assert p[n + 14 + k] == middle[3 + k];
    }
    assert p[n + 14..n + 26] == key;
    assert OccursAt(p, key, n + 14);
    assert p[0] == p[..11][0];
  }

  /** Between the opening brace and the attributes, no '{' occurs. */
  lemma NoBraceBeforeAttributes(p: string, state: string, attributes: string)
    requires PayloadLayout(p, state, attributes) && '{' !in state
    ensures forall k :: 1 <= k < |state| + 28 ==> p[k] != '{'
  {
    var n := |state|;
    var head := "{\"state\": \"";
    var middle := "\", \"attributes\": ";
    forall k | 1 <= k < n + 28
      ensures p[k] != '{'
    {
      if k < 11 {
        assert p[k] == p[..11][k] == head[k];
      } else if k < 11 + n {
        assert p[k] == p[11..11 + n][k - 11] == state[k - 11];
      } else {
        assert p[k] == p[11 + n..n + 28][k - 11 - n] == middle[k - 11 - n];
      }
    }
  }

  lemma JsonAttributesOfPayload(state: string, attributes: string, p: string)
    requires '{' !in state && BalancedObject(attributes)
    requires PayloadLayout(p, state, attributes)
    ensures forall a0 :: JsonAttributes(p, a0) == attributes
  {
    var start := |state| + 28;
    AttributesKeyBound(p, state, attributes);
    NoBraceBeforeAttributes(p, state, attributes);
    var key := Find(p, "\"attributes\"", 0).value;
    assert p[start] == attributes[0];
    IndexOfAt(p, '{', key, start);
    MatchingBraceOfObject(p, start, attributes);
  }

  /** Who a state or discovery message reached: the entity's callback, the
      callback of the entity's domain, or the discovery callback. */
  datatype Delivery =
    | EntityUpdate(entityId: string, state: string, attributes: string)
    | DomainUpdate(domain: string, entityId: string, state: string, attributes: string)
    | DiscoveryUpdate(component: string, config: string)

  /** One MQTT publication. */
  datatype Message = Message(topic: string, payload: string)

  /** The entity id a state topic names, when it starts with the state
      prefix. */
  function StateTopicEntity(prefix: string, topic: string): (r: Option<string>)
    ensures r.Some? <==> prefix + "/state/" <= topic
    ensures r.Some? ==> StateTopic(prefix, r.value) == topic
  {
    var expected := prefix + "/state/";
    if expected <= topic then Some(topic[|expected|..]) else None
  }

  /** A state topic names its entity back; a command topic is never taken
      for a state topic. */
  lemma StateTopicDecodes(prefix: string, entityId: string)
    ensures StateTopicEntity(prefix, StateTopic(prefix, entityId)) == Some(entityId)
    ensures StateTopicEntity(prefix, CommandTopic(prefix, entityId)).None?
  {
    var t := StateTopic(prefix, entityId);
    assert t == (prefix + "/state/") + entityId;
    assert t[|prefix + "/state/"|..] == entityId;
    var c := CommandTopic(prefix, entityId);
    assert c[|prefix| + 1] == 'c';
    assert (prefix + "/state/")[|prefix| + 1] == 's';
  }

  /** The component handleDiscoveryMessage reports: it skips as many
      characters as the prefix and one slash hold (without checking what
      they are) and takes the text up to the next '/'. */
  function DiscoveryComponent(prefix: string, topic: string): (r: Option<string>)
    ensures r.Some? ==> |topic| > |prefix| + 1 && '/' !in r.value
    ensures r.Some? ==> |prefix| + 1 + |r.value| < |topic| && topic[|prefix| + 1 + |r.value|] == '/'
    ensures r.Some? ==> topic[|prefix| + 1..|prefix| + 1 + |r.value|] == r.value
  {
    var skip := |prefix| + 1;
    if |topic| <= skip then None
    else
      var remainder := topic[skip..];
      match IndexOf(remainder, '/', 0)
      case None => None
      case Some(slash) => Some(remainder[..slash])
  }

  /** A discovery topic reports the component it was built with. */
  lemma DiscoveryTopicDecodes(prefix: string, component: string, nodeId: string, objectId: string)
    requires '/' !in component
    ensures DiscoveryComponent(prefix, DiscoveryTopic(prefix, component, nodeId, objectId)) == Some(component)
  {
    var t := DiscoveryTopic(prefix, component, nodeId, objectId);
    var skip := |prefix| + 1;
    var remainder := t[skip..];
    assert remainder == component + "/" + nodeId + "/" + objectId + "/config";
    assert remainder[..|component|] == component;
    assert remainder[|component|] == '/';
    assert IndexOf(remainder, '/', 0) == Some(|component|) by {
      forall k | 0 <= k < |component|
        ensures remainder[k] != '/'
      {
        assert remainder[k] == component[k];
      }
    }
  }

  class Bridge {
    const prefix: string
    /** Entities and domains with a registered callback. */
    var entityCallbacks: set<string>
    var domainCallbacks: set<string>
    var discoveryCallback: bool
    /** Topics subscribed on the MQTT client, in order. */
    var subscriptions: seq<string>
    var published: seq<Message>
    var deliveries: seq<Delivery>

    constructor (prefix: string)
      ensures this.prefix == prefix
      ensures entityCallbacks == {} && domainCallbacks == {} && !discoveryCallback
      ensures subscriptions == [] && published == [] && deliveries == []
    {
      this.prefix := prefix;
      entityCallbacks := {};
      domainCallbacks := {};
      discoveryCallback := false;
      subscriptions := [];
      published := [];
      deliveries := [];
    }

    /** subscribeToEntity: without a connection nothing happens. */
    method SubscribeToEntity(entityId: string, connected: bool)
      modifies this
      ensures connected ==> entityCallbacks == old(entityCallbacks) + {entityId}
      ensures connected ==> subscriptions == old(subscriptions) + [StateTopic(prefix, entityId)]
      ensures !connected ==> entityCallbacks == old(entityCallbacks) && subscriptions == old(subscriptions)
      ensures domainCallbacks == old(domainCallbacks) && discoveryCallback == old(discoveryCallback)
      ensures published == old(published) && deliveries == old(deliveries)
    {
      if !connected {
        return;
      }
      entityCallbacks := entityCallbacks + {entityId};
      subscriptions := subscriptions + [StateTopic(prefix, entityId)];
    }

    /** subscribeToDomain: the topic is the state prefix, the domain and
        ".+". */
    method SubscribeToDomain(domain: string, connected: bool)
      modifies this
      ensures connected ==> domainCallbacks == old(domainCallbacks) + {domain}
      ensures connected ==> subscriptions == old(subscriptions) + [prefix + "/state/" + domain + ".+"]
      ensures !connected ==> domainCallbacks == old(domainCallbacks) && subscriptions == old(subscriptions)
      ensures entityCallbacks == old(entityCallbacks) && discoveryCallback == old(discoveryCallback)
      ensures published == old(published) && deliveries == old(deliveries)
    {
      if !connected {
        return;
      }
      domainCallbacks := domainCallbacks + {domain};
      subscriptions := subscriptions + [prefix + "/state/" + domain + ".+"];
    }

    /** subscribeToDiscovery: the whole tree under the prefix. */
    method SubscribeToDiscovery(connected: bool)
      modifies this
      ensures connected ==> discoveryCallback && subscriptions == old(subscriptions) + [prefix + "/#"]
      ensures !connected ==> discoveryCallback == old(discoveryCallback) && subscriptions == old(subscriptions)
      ensures entityCallbacks == old(entityCallbacks) && domainCallbacks == old(domainCallbacks)
      ensures published == old(published) && deliveries == old(deliveries)
    {
      if !connected {
        return;
      }
      discoveryCallback := true;
      subscriptions := subscriptions + [prefix + "/#"];
    }

    /** Publishes `m` when connected; the only change any publishing
        operation makes. */
    method Publish(m: Message, connected: bool)
      modifies this
      ensures published == old(published) + (if connected then [m] else [])
      ensures entityCallbacks == old(entityCallbacks) && domainCallbacks == old(domainCallbacks)
      ensures discoveryCallback == old(discoveryCallback)
      ensures subscriptions == old(subscriptions) && deliveries == old(deliveries)
    {
      if connected {
        published := published + [m];
      }
    }

    method PublishCommand(entityId: string, command: string, connected: bool)
      modifies this
      ensures published == old(published) + (if connected then [Message(CommandTopic(prefix, entityId), command)] else [])
      ensures entityCallbacks == old(entityCallbacks) && domainCallbacks == old(domainCallbacks)
      ensures discoveryCallback == old(discoveryCallback)
      ensures subscriptions == old(subscriptions) && deliveries == old(deliveries)
    {
      Publish(Message(CommandTopic(prefix, entityId), command), connected);
    }

    method PublishCommandWithData(entityId: string, command: string, data: string, connected: bool)
      modifies this
      ensures published == old(published) +
                (if connected then [Message(CommandTopic(prefix, entityId), CommandPayload(command, data))] else [])
      ensures entityCallbacks == old(entityCallbacks) && domainCallbacks == old(domainCallbacks)
      ensures discoveryCallback == old(discoveryCallback)
      ensures subscriptions == old(subscriptions) && deliveries == old(deliveries)
    {
      Publish(Message(CommandTopic(prefix, entityId), CommandPayload(command, data)), connected);
    }

    /** requestState: an empty message on the state topic + "/get". */
    method RequestState(entityId: string, connected: bool)
      modifies this
      ensures published == old(published) + (if connected then [Message(StateTopic(prefix, entityId) + "/get", [])] else [])
      ensures entityCallbacks == old(entityCallbacks) && domainCallbacks == old(domainCallbacks)
      ensures discoveryCallback == old(discoveryCallback)
      ensures subscriptions == old(subscriptions) && deliveries == old(deliveries)
    {
      Publish(Message(StateTopic(prefix, entityId) + "/get", []), connected);
    }

    method PublishDiscovery(component: string, nodeId: string, objectId: string, config: string, connected: bool)
      modifies this
      ensures published == old(published) +
                (if connected then [Message(DiscoveryTopic(prefix, component, nodeId, objectId), config)] else [])
      ensures entityCallbacks == old(entityCallbacks) && domainCallbacks == old(domainCallbacks)
      ensures discoveryCallback == old(discoveryCallback)
      ensures subscriptions == old(subscriptions) && deliveries == old(deliveries)
    {
      Publish(Message(DiscoveryTopic(prefix, component, nodeId, objectId), config), connected);
    }

    method PublishState(entityId: string, state: string, attributes: string, connected: bool)
      modifies this
      ensures published == old(published) +
                (if connected then [Message(StateTopic(prefix, entityId), StatePayload(state, attributes))] else [])
      ensures entityCallbacks == old(entityCallbacks) && domainCallbacks == old(domainCallbacks)
      ensures discoveryCallback == old(discoveryCallback)
      ensures subscriptions == old(subscriptions) && deliveries == old(deliveries)
    {
      Publish(Message(StateTopic(prefix, entityId), StatePayload(state, attributes)), connected);
    }

    /** The deliveries a state message causes: none unless the topic is a
        state topic and the payload parses; then the entity's callback
        (if registered) followed by its domain's callback (if
        registered). */
    function StateDeliveries(topic: string, payload: string): seq<Delivery>
      reads this
    {
      match StateTopicEntity(prefix, topic)
      case None => []
      case Some(entityId) =>
        var m := StateMessage(payload, [], []);
        if !m.ok then []
        else
          var domain := ExtractDomain(entityId);
          (if entityId in entityCallbacks then [EntityUpdate(entityId, m.state, m.attributes)] else [])
          + (if domain in domainCallbacks then [DomainUpdate(domain, entityId, m.state, m.attributes)] else [])
    }

    /** A state this bridge publishes for a subscribed entity reaches that
        entity's callback with the same state. */
    lemma PublishedStateDelivered(entityId: string, state: string)
      requires entityId in entityCallbacks && state != [] && state[0] != '{'
      ensures StateDeliveries(StateTopic(prefix, entityId), StatePayload(state, [])) != []
      ensures StateDeliveries(StateTopic(prefix, entityId), StatePayload(state, []))[0] == EntityUpdate(entityId, state, [])
    {
      StateTopicDecodes(prefix, entityId);
      PlainStateRoundTrip(state, [], []);
    }

    /** The "state" half of parseStateMessage for a JSON payload: None
        where the source returns false. */
    method ParseJsonState(payload: string, state0: string) returns (state: Option<string>)
      ensures state == JsonState(payload, state0)
    {
      state := Some(state0);
      var statePos := Find(payload, "\"state\"", 0);
      if statePos.Some? {
        var colonPos := IndexOf(payload, ':', statePos.value);
        var quoteStart := if colonPos.None? then None else IndexOf(payload, '"', colonPos.value);
        if quoteStart.None? {
          return None;
        }
        var quoteEnd := IndexOf(payload, '"', quoteStart.value + 1);
        if quoteEnd.Some? {
          state := Some(payload[quoteStart.value + 1..quoteEnd.value]);
        }
      }
    }

    /** The "attributes" half of parseStateMessage, counting braces in a
        loop. */
    method ParseJsonAttributes(payload: string, attributes0: string) returns (attributes: string)
      ensures attributes == JsonAttributes(payload, attributes0)
    {
      attributes := attributes0;
      var attrPos := Find(payload, "\"attributes\"", 0);
      if attrPos.Some? {
        var braceStart := IndexOf(payload, '{', attrPos.value);
        if braceStart.Some? {
          var braceCount := 1;
          var pos := braceStart.value + 1;
          while pos < |payload| && braceCount > 0
            invariant braceStart.value < pos <= |payload| && braceCount >= 0
            invariant CloseFrom(payload, pos, braceCount) == MatchingBrace(payload, braceStart.value)
            decreases |payload| - pos
          {
            if payload[pos] == '{' {
              braceCount := braceCount + 1;
            } else if payload[pos] == '}' {
              braceCount := braceCount - 1;
            }
            pos := pos + 1;
          }
          if braceCount == 0 {
            attributes := payload[braceStart.value..pos];
          }
        }
      }
    }

    /** parseStateMessage. */
    method ParseStateMessage(payload: string, state0: string, attributes0: string)
      returns (ok: bool, state: string, attributes: string)
      ensures StateParse(ok, state, attributes) == StateMessage(payload, state0, attributes0)
    {
      if payload == [] {
        return false, state0, attributes0;
      }
      if payload[0] != '{' {
        return true, payload, [];
      }
      var jsonState := ParseJsonState(payload, state0);
      if jsonState.None? {
        return false, state0, attributes0;
      }
      state := jsonState.value;
      attributes := ParseJsonAttributes(payload, attributes0);
      ok := state != [];
    }

    /** handleStateMessage: records the deliveries of a state message. */
    method HandleStateMessage(topic: string, payload: string)
      modifies this
      ensures deliveries == old(deliveries) + StateDeliveries(topic, payload)
      ensures entityCallbacks == old(entityCallbacks) && domainCallbacks == old(domainCallbacks)
      ensures discoveryCallback == old(discoveryCallback)
      ensures subscriptions == old(subscriptions) && published == old(published)
    {
      var expectedPrefix := prefix + "/state/";
      if !(expectedPrefix <= topic) {
        return;
      }
      var entityId := topic[|expectedPrefix|..];
      assert StateTopicEntity(prefix, topic) == Some(entityId);
      var ok, state, attributes := ParseStateMessage(payload, [], []);
      if ok {
        ghost var d0 := deliveries;
        if entityId in entityCallbacks {
          deliveries := deliveries + [EntityUpdate(entityId, state, attributes)];
        }
        ghost var d1 := deliveries;
        var domain := ExtractDomain(entityId);
        if domain in domainCallbacks {
          deliveries := deliveries + [DomainUpdate(domain, entityId, state, attributes)];
        }
        AppendAssoc(d0, d1[|d0|..], deliveries[|d1|..]);
        assert d1 == d0 + d1[|d0|..] && deliveries == d1 + deliveries[|d1|..];
      }
    }

    /** handleDiscoveryMessage: the discovery callback, if set, receives the
        component and the payload. */
    method HandleDiscoveryMessage(topic: string, payload: string)
      modifies this
      ensures var c := DiscoveryComponent(prefix, topic);
              deliveries == old(deliveries) +
                (if c.Some? && discoveryCallback then [DiscoveryUpdate(c.value, payload)] else [])
      ensures entityCallbacks == old(entityCallbacks) && domainCallbacks == old(domainCallbacks)
      ensures discoveryCallback == old(discoveryCallback)
      ensures subscriptions == old(subscriptions) && published == old(published)
    {
      var prefixLen := |prefix| + 1;
      if |topic| <= prefixLen {
        return;
      }
      var remainder := topic[prefixLen..];
      var firstSlash := IndexOf(remainder, '/', 0);
      if firstSlash.Some? {
        var component := remainder[..firstSlash.value];
        if discoveryCallback {
          deliveries := deliveries + [DiscoveryUpdate(component, payload)];
        }
      }
    }
  }
}
