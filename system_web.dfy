/** The monitoring web service: request parsing with query parameters, the
    routing table, the parameter and size rules of the historical-data
    endpoint, the JSON string escaping of its documents, and the
    started/stopped flag. The socket loop, the thread and the rendering of
    the other endpoints' documents are not part of this model. */
module SystemWeb {
  import opened Text
  import opened CArith
  import opened JsonText
  import opened HttpText
  import opened Forecaster
  import opened SampleStore

  /** The parsed request: method, path, query parameters and body. */
  datatype Request = Request(httpMethod: string, path: string, queryParams: map<string, string>, body: string)

  /** What one round of the query loop finds at `pos`: with no '=' ahead
      parsing stops; the key is the text up to the next '='; with a '&' ahead
      the value ends there and parsing resumes after it, except that when
      that '&' comes before the '=' the length `amp - eq - 1` wraps around as
      an unsigned size and the value runs to the end of the query; with no
      '&' ahead the value runs to the end and this round is the last. */
  datatype Round = NoParam | LastParam(key: string, value: string) | Param(key: string, value: string, next: nat)

  function QueryRound(q: string, pos: nat): (r: Round)
    ensures r.Param? ==> pos < r.next <= |q|
  {
    match IndexOf(q, '=', pos)
    case None => NoParam
    case Some(eq) =>
      match IndexOf(q, '&', pos)
      case Some(amp) => Param(q[pos..eq], if amp > eq then q[eq + 1..amp] else q[eq + 1..], amp + 1)
      case None => LastParam(q[pos..eq], q[eq + 1..])
  }

  /** The parameters the query loop stores from index `pos` on, starting
      from `acc`; a later key overwrites an earlier one. */
  function QueryFrom(q: string, pos: nat, acc: map<string, string>): map<string, string>
    decreases |q| - pos
  {
    if pos >= |q| then acc
    else match QueryRound(q, pos)
      case NoParam => acc
      case LastParam(k, v) => acc[k := v]
      case Param(k, v, next) => QueryFrom(q, next, acc[k := v])
  }

  /** The path: the request target up to its first '?', or all of it. */
  function PathOf(target: string): (path: string)
    ensures '?' !in path
    ensures |path| <= |target| && path == target[..|path|]
    ensures '?' !in target ==> path == target
  {
    match IndexOf(target, '?', 0)
    case Some(i) => target[..i]
    case None => target
  }

  /** The query parameters: those parsed from the text after the first
      '?', none without a '?'. */
  function ParamsOf(target: string): map<string, string> {
    match IndexOf(target, '?', 0)
    case Some(i) => QueryFrom(target[i + 1..], 0, map[])
    case None => map[]
  }

  /** With its first '?' at `i`, the target splits there. */
  lemma TargetAt(target: string, i: nat)
    requires IndexOf(target, '?', 0) == Some(i)
    ensures PathOf(target) == target[..i] && ParamsOf(target) == QueryFrom(target[i + 1..], 0, map[])
  {
  }

  /** One `key=value` segment. */
  function Segment(p: (string, string)): string {
    p.0 + "=" + p.1
  }

  /** The segments of `pairs` joined with '&'. */
  function RenderQuery(pairs: seq<(string, string)>): string {
    if |pairs| == 0 then []
    else if |pairs| == 1 then Segment(pairs[0])
    else Segment(pairs[0]) + "&" + RenderQuery(pairs[1..])
  }

  /** A pair whose key holds neither '=' nor '&' and whose value holds no
      '&'. */
  predicate PlainPair(p: (string, string)) {
    '=' !in p.0 && '&' !in p.0 && '&' !in p.1
  }

  /** The round at the start of a plain segment reads that segment. */
  lemma RoundOfSegment(pre: string, k: string, v: string, rest: string)
    requires PlainPair((k, v)) && (rest == [] || rest[0] == '&')
    ensures var q := pre + k + "=" + v + rest;
            QueryRound(q, |pre|) == if rest == [] then LastParam(k, v) else Param(k, v, |pre| + |k| + |v| + 2)
  {
    var q := pre + k + "=" + v + rest;
    var eq := |pre| + |k|;
    var amp := eq + 1 + |v|;
    assert q[eq] == '=';
    forall j | |pre| <= j < eq
      ensures q[j] != '=' && q[j] != '&'
    {
      assert q[j] == k[j - |pre|];
    }
    IndexOfAt(q, '=', |pre|, eq);
    forall j | eq < j < amp
      ensures q[j] != '&'
    {
      assert q[j] == v[j - eq - 1];
    }
    assert q[|pre|..eq] == k;
    if rest == [] {
      assert amp == |q|;
      assert q[eq + 1..] == v;
    } else {
      assert q[amp] == '&';
      IndexOfAt(q, '&', |pre|, amp);
      assert q[eq + 1..amp] == v;
    }
  }

  /** Parsing a query made of plain `key=value` segments stores every
      segment, later duplicates overwriting earlier ones. */
  lemma {:induction false} QueryOfPairs(pre: string, pairs: seq<(string, string)>, acc: map<string, string>)
    requires forall i :: 0 <= i < |pairs| ==> PlainPair(pairs[i])
    ensures QueryFrom(pre + RenderQuery(pairs), |pre|, acc) == Assign(acc, pairs)
    decreases |pairs|
  {
    if pairs == [] {
      assert pre + RenderQuery(pairs) == pre;
    } else {
      var k, v := pairs[0].0, pairs[0].1;
      if |pairs| == 1 {
        assert pre + RenderQuery(pairs) == pre + k + "=" + v + [];
        RoundOfSegment(pre, k, v, []);
        assert pairs[1..] == [];
      } else {
        var pre' := pre + k + "=" + v + "&";
        var tail := RenderQuery(pairs[1..]);
        assert pre + RenderQuery(pairs) == pre' + tail;
        NextSegment(pre, k, v, tail, acc);
        QueryOfPairs(pre', pairs[1..], acc[k := v]);
      }
    }
  }

  /** A segment followed by '&' stores its pair and hands over to the
      text after the '&'. */
  lemma NextSegment(pre: string, k: string, v: string, tail: string, acc: map<string, string>)
    requires PlainPair((k, v))
    ensures var pre' := pre + k + "=" + v + "&";
            QueryFrom(pre' + tail, |pre|, acc) == QueryFrom(pre' + tail, |pre'|, acc[k := v])
  {
    var pre' := pre + k + "=" + v + "&";
    var q := pre' + tail;
    var rest := "&" + tail;
    assert q == pre + k + "=" + v + rest by {
      AppendAssoc(pre + k + "=" + v, "&", tail);
    }
    RoundOfSegment(pre, k, v, rest);
    assert QueryRound(q, |pre|) == Param(k, v, |pre'|);
    assert |pre| < |q|;
  }

  /** A target written as a path without '?', a '?' and plain segments is
      read back as that path and the map those segments fill. */
  lemma TargetRoundTrip(path: string, pairs: seq<(string, string)>)
    requires '?' !in path
    requires forall i :: 0 <= i < |pairs| ==> PlainPair(pairs[i])
    ensures PathOf(path + "?" + RenderQuery(pairs)) == path
    ensures ParamsOf(path + "?" + RenderQuery(pairs)) == Assign(map[], pairs)
  {
    var query := RenderQuery(pairs);
    var target := path + "?" + query;
    assert IndexOf(target, '?', 0) == Some(|path|) by {
      forall j | 0 <= j < |path|
        ensures target[j] != '?'
      {
        assert target[j] == path[j];
      }
      IndexOfAt(target, '?', 0, |path|);
    }
    assert target[..|path|] == path && target[|path| + 1..] == query;
    assert [] + query == query;
    QueryOfPairs([], pairs, map[]);
  }

  /** A segment without '=' does not end the parse when a later segment has
      one: the search for '=' runs past the '&', so the segment becomes part
      of the next key, and the next round stores that key again. */
  lemma QueryAcrossAmpersand(a: string, k: string, v: string)
    requires '=' !in a && '&' !in a && PlainPair((k, v))
    ensures QueryFrom(a + "&" + k + "=" + v, 0, map[]) == map[a + "&" + k := v, k := v]
  {
    var q := a + "&" + k + "=" + v;
    FirstRoundAcross(a, k, v);
    assert QueryRound(q, |a| + 1) == LastParam(k, v) by {
      assert q == (a + "&") + k + "=" + v + [];
      RoundOfSegment(a + "&", k, v, []);
    }
    assert QueryFrom(q, 0, map[]) == QueryFrom(q, |a| + 1, map[a + "&" + k := v]);
  }

  /** The first round of that parse: the key runs from the start to the
      '=', across the '&', and the next round starts after the '&'. */
  lemma FirstRoundAcross(a: string, k: string, v: string)
    requires '=' !in a && '&' !in a && '=' !in k
    ensures QueryRound(a + "&" + k + "=" + v, 0) == Param(a + "&" + k, v, |a| + 1)
  {
    var q := a + "&" + k + "=" + v;
    var amp, eq := |a|, |a| + 1 + |k|;
    forall j | 0 <= j < amp
      ensures q[j] != '=' && q[j] != '&'
    {
      assert q[j] == a[j];
    }
    forall j | amp < j < eq
      ensures q[j] != '='
    {
      assert q[j] == k[j - amp - 1];
    }
    IndexOfAt(q, '=', 0, eq);
    IndexOfAt(q, '&', 0, amp);
    assert q[0..eq] == a + "&" + k;
    assert q[eq + 1..] == v;
  }

  /** std::stoi: leading whitespace, an optional sign, then the longest run
      of digits. No digits, or a value outside the range of int, throws
      (None). */
  function Stoi(s: string): (r: Option<int>)
    ensures r.Some? ==> IntMin <= r.value <= IntMax
  {
    SignedValue(TrimFront(s, Spaces))
  }

  /** The optional sign and the digits that follow it. */
  function SignedValue(t: string): Option<int> {
    if t != [] && t[0] == '-' then InIntRange(Magnitude(t[1..]), true)
    else if t != [] && t[0] == '+' then InIntRange(Magnitude(t[1..]), false)
    else InIntRange(Magnitude(t), false)
  }

  /** The value of the leading digits, None when there are none. */
  function Magnitude(u: string): Option<nat> {
    var digits := DigitRun(u);
    if digits == [] then None else Some(DecimalValue(digits))
  }

  /** The signed value, None (out_of_range) when it does not fit an int. */
  function InIntRange(m: Option<nat>, negative: bool): (r: Option<int>)
    ensures r.Some? <==> m.Some? && IntMin <= (if negative then -(m.value as int) else m.value) <= IntMax
    ensures r.Some? ==> r.value == if negative then -(m.value as int) else m.value
  {
    if m.None? then None
    else
      var v: int := if negative then -(m.value as int) else m.value;
      if IntMin <= v <= IntMax then Some(v) else None
  }

  /** The longest prefix made of decimal digits. */
  function DigitRun(s: string): (r: string)
    ensures forall i :: 0 <= i < |r| ==> '0' <= r[i] <= '9'
  {
    if s == [] || !('0' <= s[0] <= '9') then [] else [s[0]] + DigitRun(s[1..])
  }

  /** A run of digits is read whole. */
  lemma {:induction false} DigitRunOfDigits(s: string)
    requires forall i :: 0 <= i < |s| ==> '0' <= s[i] <= '9'
    ensures DigitRun(s) == s
  {
    if s != [] {
      DigitRunOfDigits(s[1..]);
    }
  }

  /** An optional minus sign followed by digits is read as the signed
      value of the digits, when that fits in an int. */
  lemma StoiOfDigits(s: string, negative: bool, d: string)
    requires d != [] && forall i :: 0 <= i < |d| ==> '0' <= d[i] <= '9'
    requires s == if negative then "-" + d else d
    ensures Stoi(s) == InIntRange(Magnitude(d), negative)
  {
    StoiUntrimmed(s);
    SignedDigits(s, negative, d);
  }

  /** A run of digits is read whole. */
  lemma MagnitudeOfDigits(d: string)
    requires d != [] && forall i :: 0 <= i < |d| ==> '0' <= d[i] <= '9'
    ensures Magnitude(d) == Some(DecimalValue(d))
  {
    DigitRunOfDigits(d);
  }

  /** A value that fits is kept. */
  lemma InIntRangeFits(m: nat, negative: bool)
    requires IntMin <= (if negative then -(m as int) else m) <= IntMax
    ensures InIntRange(Some(m), negative) == Some(if negative then -(m as int) else m)
  {
  }

  /** Nothing is skipped before a sign or a digit. */
  lemma StoiUntrimmed(s: string)
    requires s != [] && (s[0] == '-' || '0' <= s[0] <= '9')
    ensures Stoi(s) == SignedValue(s)
  {
    TrimFrontKeeps(s, Spaces);
  }

  /** After a minus sign, or with no sign, the digits are what is read. */
  lemma SignedDigits(s: string, negative: bool, d: string)
    requires d != [] && '0' <= d[0] <= '9'
    requires s == if negative then "-" + d else d
    ensures SignedValue(s) == InIntRange(Magnitude(d), negative)
  {
    if negative {
      assert s[0] == '-' && s[1..] == d;
    } else {
      assert s[0] == d[0];
    }
  }

  /** The decimal text of every int is read back as that int. */
  lemma StoiOfDecimal(n: int)
    requires IntMin <= n <= IntMax
    ensures Stoi(IntToDecimal(n)) == Some(n)
  {
    var m: nat := if n < 0 then -n else n;
    var d := NatToDecimal(m);
    DecimalRoundTrip(m);
    MagnitudeOfDigits(d);
    StoiOfDigits(IntToDecimal(n), n < 0, d);
    InIntRangeFits(m, n < 0);
  }

  /** The `days` parameter of the historical endpoint: 7 when absent or
      when std::stoi throws. */
  function HistoricalDays(params: map<string, string>): (days: int)
    ensures "days" !in params ==> days == 7
    ensures IntMin <= days <= IntMax
  {
    if "days" in params then
      match Stoi(params["days"])
      case Some(v) => v
      case None => 7
    else 7
  }

  /** A request for a number of days, written in decimal, asks for exactly
      that many; text that std::stoi rejects falls back to 7. */
  lemma HistoricalDaysRequested(params: map<string, string>, n: int)
    requires "days" in params
    ensures IntMin <= n <= IntMax && params["days"] == IntToDecimal(n) ==> HistoricalDays(params) == n
    ensures Stoi(params["days"]).None? ==> HistoricalDays(params) == 7
  {
    if IntMin <= n <= IntMax && params["days"] == IntToDecimal(n) {
      StoiOfDecimal(n);
    }
  }

  /** The most points one historical response renders. */
  const MaxRenderedPoints: nat := 100

  /** One rendered data point and whether a comma follows it. */
  datatype Entry = Entry(point: HistoricalDataPoint, comma: bool)

  /** The historical document: the requested days, the number of points
      found, and the points rendered. */
  datatype HistoricalReply = HistoricalReply(days: int, dataPoints: nat, data: seq<Entry>)

  /** The endpoints handleConnection dispatches to. */
  datatype Endpoint = Dashboard | Status | Sensors | Appliances | Schedule | Historical | Predictions | Control | NotFound

  const KnownPaths: set<string> :=
    {"/", "/dashboard", "/api/status", "/api/sensors", "/api/appliances", "/api/schedule",
     "/api/historical", "/api/predictions", "/api/control"}

  /** handleConnection's routing: unknown paths, and /api/control with any
      method but POST, are not found; every other known path has its
      handler whatever the method. */
  function Route(httpMethod: string, path: string): (e: Endpoint)
    ensures e == NotFound <==> path !in KnownPaths || (path == "/api/control" && httpMethod != "POST")
    ensures e == Control <==> path == "/api/control" && httpMethod == "POST"
    ensures e == Dashboard <==> path == "/" || path == "/dashboard"
    ensures e == Historical <==> path == "/api/historical"
  {
    if path == "/" || path == "/dashboard" then Dashboard
    else if path == "/api/status" then Status
    else if path == "/api/sensors" then Sensors
    else if path == "/api/appliances" then Appliances
    else if path == "/api/schedule" then Schedule
    else if path == "/api/historical" then Historical
    else if path == "/api/predictions" then Predictions
    else if path == "/api/control" && httpMethod == "POST" then Control
    else NotFound
  }

  /** The response sent for an endpoint, given the document its handler
      produced: the dashboard is HTML, the API answers are JSON, and an
      unknown request gets a plain-text 404. */
  function Reply(e: Endpoint, document: string): (r: string)
    ensures e == NotFound ==> OccursAt(r, StatusLine(404), 0) && |r| >= 9 && r[|r| - 9..] == "Not Found"
    ensures e != NotFound ==> OccursAt(r, StatusLine(200), 0) && |r| >= |document| && r[|r| - |document|..] == document
  {
    if e == NotFound then Response(404, "text/plain", "Not Found")
    else if e == Dashboard then Response(200, "text/html", document)
    else Response(200, "application/json", document)
  }

  class SystemWebService {
    const port: int
    const dataCollector: HistoricalDataCollector
    var running: bool

    constructor (dataCollector: HistoricalDataCollector, port: int)
      ensures this.dataCollector == dataCollector && this.port == port
      ensures !running
    {
      this.dataCollector := dataCollector;
      this.port := port;
      running := false;
    }

    /** start: refuses when already running; otherwise marks the service
        running (the server thread is not modelled). */
    method Start() returns (started: bool)
      modifies this
      ensures started == !old(running)
      ensures running
    {
      if running {
        return false;
      }
      running := true;
      started := true;
    }

    /** stop: marks the service stopped; nothing happens when it is not
        running. */
    method Stop()
      modifies this
      ensures !running
      ensures old(running) == false ==> unchanged(this)
    {
      if running {
        running := false;
      }
    }

    /** parseRequest: the method and the target are the first two words of
        the request line; the path is the target up to its first '?' and the
        query after it is parsed into parameters; header lines are skipped up
        to the blank line; the body is the remaining lines run together. */
    method ParseRequest(data: string) returns (request: Request)
      ensures var line := RequestLine(Lines(data));
              && request.httpMethod == WordAt(line, 0)
              && request.path == PathOf(WordAt(line, 1))
              && request.queryParams == ParamsOf(WordAt(line, 1))
      ensures request.body == Concat(BodyLines(Lines(data)))
    {
      var lines := Lines(data);
      var httpMethod, path, params := ParseRequestLine(RequestLine(lines));
      var start := SkipHeaders(lines);
      var body := ReadBody(lines, start);
      request := Request(httpMethod, path, params, body);
    }

    /** The request line: its first word is the method, its second the
        target, split at its first '?' into the path and the query. A
        missing request line reads as the empty line. */
    method ParseRequestLine(line: string) returns (httpMethod: string, path: string, params: map<string, string>)
      ensures httpMethod == WordAt(line, 0)
      ensures path == PathOf(WordAt(line, 1)) && params == ParamsOf(WordAt(line, 1))
    {
      httpMethod := WordAt(line, 0);
      path, params := SplitTarget(WordAt(line, 1));
    }

    /** The target split at its first '?': the path before it, the query
        after it parsed into parameters. */
    method SplitTarget(target: string) returns (path: string, params: map<string, string>)
      ensures path == PathOf(target)
      ensures params == ParamsOf(target)
    {
      var queryPos := IndexOf(target, '?', 0);
      if queryPos.Some? {
        path, params := SplitAt(target, queryPos.value);
      } else {
        path := target;
        params := map[];
      }
    }

    /** The target split at its first '?', found at `i`. */
    method SplitAt(target: string, i: nat) returns (path: string, params: map<string, string>)
      requires IndexOf(target, '?', 0) == Some(i)
      ensures path == PathOf(target)
      ensures params == ParamsOf(target)
    {
      TargetAt(target, i);
      path := target[..i];
      params := ParseQuery(target[i + 1..]);
    }

    /** The header loop of parseRequest: lines are read and dropped up to
        and including the first blank one; the index of the first line left
        unread is returned. */
    method SkipHeaders(lines: seq<string>) returns (i: nat)
      ensures i <= |lines| && lines[i..] == BodyLines(lines)
    {
      i := if |lines| > 0 then 1 else 0;
      var inHeaders := true;
      while inHeaders && i < |lines|
        invariant (|lines| > 0 ==> 1 <= i) && i <= |lines|
        invariant inHeaders ==> forall k :: 1 <= k < i ==> !Blank(lines[k])
        invariant !inHeaders ==> 2 <= i && Blank(lines[i - 1]) && forall k :: 1 <= k < i - 1 ==> !Blank(lines[k])
      {
        if Blank(lines[i]) {
          inHeaders := false;
        }
        i := i + 1;
      }
    }

    /** The query loop of parseRequest. */
    method ParseQuery(query: string) returns (params: map<string, string>)
      ensures params == QueryFrom(query, 0, map[])
    {
      params := map[];
      var pos := 0;
      while pos < |query|
        invariant pos <= |query|
        invariant QueryFrom(query, pos, params) == QueryFrom(query, 0, map[])
        decreases |query| - pos
      {
        var round := NextParam(query, pos);
        match round
        case NoParam =>
          break;
        case LastParam(key, value) =>
          params := params[key := value];
          pos := |query|;
        case Param(key, value, next) =>
          params := params[key := value];
          pos := next;
      }
    }

    /** One round of the query loop: the searches for '=' and '&' from
        `pos` and the key and value they delimit. */
    method NextParam(query: string, pos: nat) returns (round: Round)
      ensures round == QueryRound(query, pos)
    {
      var eqPos := IndexOf(query, '=', pos);
      var ampPos := IndexOf(query, '&', pos);
      if eqPos.None? {
        return NoParam;
      }
      var eq := eqPos.value;
      var key := query[pos..eq];
      if ampPos.Some? {
        var amp := ampPos.value;
        var value := if amp > eq then query[eq + 1..amp] else query[eq + 1..];
        round := Param(key, value, amp + 1);
      } else {
        round := LastParam(key, query[eq + 1..]);
      }
    }

    /** escapeJson: each of the seven special characters becomes a
        backslash pair and every other character is copied. */
    method EscapeJson(str: string) returns (escaped: string)
      ensures escaped == Escape(str)
      ensures Unescape(escaped) == str
      ensures forall i :: 0 <= i < |escaped| ==> escaped[i] !in {Backspace, FormFeed, '\n', '\r', '\t'}
    {
      escaped := [];
      for i := 0 to |str|
        invariant escaped == Escape(str[..i])
      {
        EscapeAppend(str[..i], [str[i]]);
        assert Escape([str[i]]) == EscapeChar(str[i]) by {
          assert [str[i]][1..] == [];
        }
        assert str[..i + 1] == str[..i] + [str[i]];
        escaped := escaped + EscapeChar(str[i]);
      }
      assert str[..|str|] == str;
      EscapeRoundTrip(str);
      EscapeHasNoControl(str);
    }

    /** handleGetHistoricalData: the requested days (default 7), the points
        of that many days from the collector, and at most 100 of them
        rendered, oldest first, with a comma after each but the last
        rendered. */
    method HandleGetHistoricalData(params: map<string, string>) returns (reply: HistoricalReply)
      ensures reply.days == HistoricalDays(params)
      ensures var recent := Retained(dataCollector.points, reply.days);
              && reply.dataPoints == |recent|
              && |reply.data| == (if |recent| < MaxRenderedPoints then |recent| else MaxRenderedPoints)
              && forall i :: 0 <= i < |reply.data| ==> reply.data[i].point == recent[i]
      ensures forall i :: 0 <= i < |reply.data| ==> (reply.data[i].comma <==> i + 1 < |reply.data|)
    {
      var days := HistoricalDays(params);
      var data := dataCollector.GetRecentData(days);
      var rendered := RenderEntries(data);
      reply := HistoricalReply(days, |data|, rendered);
    }

    /** The rendering loop of handleGetHistoricalData: at most the first
        100 points, each followed by a comma unless it is the last one
        rendered. */
    method RenderEntries(data: seq<HistoricalDataPoint>) returns (rendered: seq<Entry>)
      ensures |rendered| == if |data| < MaxRenderedPoints then |data| else MaxRenderedPoints
      ensures forall i :: 0 <= i < |rendered| ==> rendered[i].point == data[i]
      ensures forall i :: 0 <= i < |rendered| ==> (rendered[i].comma <==> i + 1 < |rendered|)
    {
      rendered := [];
      var i := 0;
      while i < |data| && i < MaxRenderedPoints
        invariant i <= |data| && i <= MaxRenderedPoints && |rendered| == i
        invariant forall k :: 0 <= k < i ==> rendered[k].point == data[k]
        invariant forall k :: 0 <= k < i ==> (rendered[k].comma <==> k < |data| - 1 && k < MaxRenderedPoints - 1)
      {
        var comma := i < |data| - 1 && i < MaxRenderedPoints - 1;
        rendered := rendered + [Entry(data[i], comma)];
        i := i + 1;
      }
    }
  }
}
