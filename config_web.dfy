/** The configuration web server: it parses a request into its method, path,
    header map and body, routes it to the page, the configuration document or
    the configuration update, and answers with the shared response format. */
module ConfigWeb {
  import opened Text
  import opened HttpText
  import opened Configuration

  /** The parsed request: method, path, header map and body. */
  datatype Request = Request(httpMethod: string, path: string, headers: map<string, string>, body: string)

  /** The characters trimmed from both ends of a header value. */
  const HeaderBlank: set<char> := {' ', '\t', '\r', '\n'}

  /** One header line: the text before its first ':' is the key, the rest,
      trimmed, the value; a line without ':' is ignored. */
  function HeaderField(line: string): Option<(string, string)> {
    match IndexOf(line, ':', 0)
    case None => None
    case Some(colon) => Some((line[..colon], Trim(line[colon + 1..], HeaderBlank)))
  }

  /** A line is a header exactly when it holds a ':'; the key is what
      precedes the first one, and the value has no blank at either end. */
  lemma HeaderFieldShape(line: string)
    ensures HeaderField(line).None? <==> ':' !in line
    ensures HeaderField(line).Some? ==> ':' !in HeaderField(line).value.0
    ensures HeaderField(line).Some? ==> var v := HeaderField(line).value.1;
              v == [] || (v[0] !in HeaderBlank && v[|v| - 1] !in HeaderBlank)
  {
    match IndexOf(line, ':', 0)
    case None =>
    case Some(colon) =>
      var key := line[..colon];
      assert forall j :: 0 <= j < |key| ==> key[j] == line[j];
  }

  /** A header written as `key: value` and ended by CRLF (so that the line
      read keeps its '\r') is read back as that key and value. */
  lemma HeaderFieldOf(k: string, v: string)
    requires ':' !in k
    requires v == [] || (v[0] !in HeaderBlank && v[|v| - 1] !in HeaderBlank)
    ensures HeaderField(k + ": " + v + "\r") == Some((k, v))
  {
    var rest := " " + v + "\r";
    var line := k + ":" + rest;
    assert k + ": " + v + "\r" == line;
    assert IndexOf(line, ':', 0) == Some(|k|) by {
      FirstColon(k, rest);
    }
    assert line[..|k|] == k && line[|k| + 1..] == rest;
    TrimmedValue(v);
  }

  /** The first ':' of a line is the one after a key without ':'. */
  lemma FirstColon(k: string, rest: string)
    requires ':' !in k
    ensures IndexOf(k + ":" + rest, ':', 0) == Some(|k|)
  {
    var line := k + ":" + rest;
    forall j | 0 <= j < |k|
      ensures line[j] != ':'
    {
      assert line[j] == k[j];
    }
    IndexOfAt(line, ':', 0, |k|);
  }

  /** The space after the colon and the '\r' left by getline are trimmed
      off a value that starts and ends with other characters. */
  lemma TrimmedValue(v: string)
    requires v == [] || (v[0] !in HeaderBlank && v[|v| - 1] !in HeaderBlank)
    ensures Trim(" " + v + "\r", HeaderBlank) == v
  {
    var line := " " + v + "\r";
    var t := v + ['\r'];
    assert line == [' '] + t;
    TrimFrontSkip(' ', t, HeaderBlank);
    if v == [] {
      assert t == ['\r'] + [];
      TrimFrontSkip('\r', [], HeaderBlank);
      assert TrimFront(line, HeaderBlank) == [];
    } else {
      TrimFrontKeeps(t, HeaderBlank);
      TrimBackSkip(v, '\r', HeaderBlank);
      TrimBackKeeps(v, HeaderBlank);
      assert TrimBack(TrimFront(line, HeaderBlank), HeaderBlank) == v;
    }
    assert Trim(line, HeaderBlank) == TrimBack(TrimFront(line, HeaderBlank), HeaderBlank);
  }

  /** The (key, value) pairs of the header lines that hold a ':', in
      order. */
  function HeaderPairs(hs: seq<string>): seq<(string, string)> {
    if hs == [] then []
    else
      var front := HeaderPairs(hs[..|hs| - 1]);
      match HeaderField(hs[|hs| - 1])
      case Some(f) => front + [f]
      case None => front
  }

  /** The header map: the pairs stored in order, a later line with the same
      key overwriting an earlier one. */
  function HeaderMap(hs: seq<string>): map<string, string> {
    Assign(map[], HeaderPairs(hs))
  }

  /** A header line as a client writes it: `key: value` ended by CRLF. */
  function HeaderText(p: (string, string)): string {
    p.0 + ": " + p.1 + "\r"
  }

  /** The header lines for a sequence of pairs. */
  function HeaderTexts(ps: seq<(string, string)>): (hs: seq<string>)
    ensures |hs| == |ps|
    ensures forall i :: 0 <= i < |ps| ==> hs[i] == HeaderText(ps[i])
  {
    if ps == [] then [] else HeaderTexts(ps[..|ps| - 1]) + [HeaderText(ps[|ps| - 1])]
  }

  /** A pair that its header line reads back: no ':' in the key, no blank
      at either end of the value. */
  predicate CleanHeader(p: (string, string)) {
    ':' !in p.0 && (p.1 == [] || (p.1[0] !in HeaderBlank && p.1[|p.1| - 1] !in HeaderBlank))
  }

  /** Writing clean pairs as header lines and reading the lines back gives
      the pairs again, so the header map stores every one of them. */
  lemma {:induction false} HeaderPairsRoundTrip(ps: seq<(string, string)>)
    requires forall i :: 0 <= i < |ps| ==> CleanHeader(ps[i])
    ensures HeaderPairs(HeaderTexts(ps)) == ps
    ensures HeaderMap(HeaderTexts(ps)) == Assign(map[], ps)
  {
    if ps != [] {
      var front, last := ps[..|ps| - 1], ps[|ps| - 1];
      var hs := HeaderTexts(ps);
      assert HeaderPairs(HeaderTexts(front)) == front by {
        assert forall i :: 0 <= i < |front| ==> front[i] == ps[i];
        HeaderPairsRoundTrip(front);
      }
      assert HeaderField(HeaderText(last)) == Some(last) by {
        assert CleanHeader(last);
        HeaderFieldOf(last.0, last.1);
      }
      SnocParts(HeaderTexts(front), HeaderText(last));
      FrontLast(ps);
    }
  }

  /** A request written as `method path HTTP/1.1`, clean header lines, a
      CRLF blank line and body lines is read back as that method, that path,
      the header map of those pairs and the body lines run together. */
  lemma RequestRoundTrip(m: string, p: string, ps: seq<(string, string)>, body: seq<string>)
    requires m != [] && NoSpace(m) && p != [] && NoSpace(p)
    requires forall i :: 0 <= i < |ps| ==> CleanHeader(ps[i]) && '\n' !in ps[i].0 && '\n' !in ps[i].1
    requires forall i :: 0 <= i < |body| ==> '\n' !in body[i]
    ensures var lines := Lines(Unlines([m + " " + p + " HTTP/1.1\r"] + HeaderTexts(ps) + ["\r"] + body));
            && WordAt(RequestLine(lines), 0) == m && WordAt(RequestLine(lines), 1) == p
            && HeaderMap(HeaderLines(lines)) == Assign(map[], ps)
            && Concat(BodyLines(lines)) == Concat(body)
  {
    var first := m + " " + p + " HTTP/1.1\r";
    var hs := HeaderTexts(ps);
    assert '\n' !in first by {
      assert forall j :: 0 <= j < |m| ==> m[j] != '\n';
      assert forall j :: 0 <= j < |p| ==> p[j] != '\n';
    }
    forall i | 0 <= i < |hs|
      ensures '\n' !in hs[i] && !Blank(hs[i])
    {
      HeaderLineShape(ps[i]);
    }
    RequestParts(first, hs, body);
    FirstTwoWords(m, p, " HTTP/1.1\r");
    HeaderPairsRoundTrip(ps);
  }

  /** A header line holds no newline when its key and value hold none, and
      is never blank. */
  lemma HeaderLineShape(pair: (string, string))
    requires '\n' !in pair.0 && '\n' !in pair.1
    ensures '\n' !in HeaderText(pair) && !Blank(HeaderText(pair))
  {
    var line := HeaderText(pair);
    assert line == pair.0 + (": " + pair.1 + "\r");
    assert |line| >= 3;
  }

  /** One more header line updates the map by its field, if it has one. */
  lemma HeaderMapSnoc(hs: seq<string>)
    requires hs != []
    ensures HeaderField(hs[|hs| - 1]).None? ==> HeaderMap(hs) == HeaderMap(hs[..|hs| - 1])
    ensures HeaderField(hs[|hs| - 1]).Some? ==>
              var f := HeaderField(hs[|hs| - 1]).value;
              HeaderMap(hs) == HeaderMap(hs[..|hs| - 1])[f.0 := f.1]
  {
    var front := HeaderPairs(hs[..|hs| - 1]);
    var last := HeaderField(hs[|hs| - 1]);
    if last.Some? {
      AssignSnoc(map[], front, last.value);
    }
  }

  /** The routes of handleConnection: the page for "/" and "/index.html",
      the configuration document for GET and the update for POST on
      "/api/config", and 404 for everything else. */
  datatype Endpoint = Index | GetConfig | PostConfig | NotFound

  function Route(httpMethod: string, path: string): (e: Endpoint)
    ensures e == Index <==> path == "/" || path == "/index.html"
    ensures e == GetConfig <==> path == "/api/config" && httpMethod == "GET"
    ensures e == PostConfig <==> path == "/api/config" && httpMethod == "POST"
    ensures e == NotFound <==> path !in {"/", "/index.html", "/api/config"} || (path == "/api/config" && httpMethod !in {"GET", "POST"})
  {
    if path == "/" || path == "/index.html" then Index
    else if path == "/api/config" && httpMethod == "GET" then GetConfig
    else if path == "/api/config" && httpMethod == "POST" then PostConfig
    else NotFound
  }

  /** The response for a routed request with the document its handler
      produced: the page is HTML, the configuration answers are JSON, and an
      unknown request gets a plain-text 404. */
  function Reply(e: Endpoint, document: string): (r: string)
    ensures e == NotFound ==> OccursAt(r, StatusLine(404), 0) && |r| >= 9 && r[|r| - 9..] == "Not Found"
    ensures e != NotFound ==> OccursAt(r, StatusLine(200), 0) && |r| >= |document| && r[|r| - |document|..] == document
  {
    if e == NotFound then Response(404, "text/plain", "Not Found")
    else if e == Index then Response(200, "text/html", document)
    else Response(200, "application/json", document)
  }

  const SuccessMessage: string := "{\"success\": true, \"message\": \"Configuration updated successfully\"}"
  const FailureMessage: string := "{\"success\": false, \"message\": \"Failed to parse configuration\"}"

  /** The answer of handlePostConfig to the outcome of fromJson. */
  function PostReply(success: bool): (r: string)
    ensures r == SuccessMessage <==> success
    ensures r == FailureMessage <==> !success
  {
    assert |SuccessMessage| != |FailureMessage|;
    if success then SuccessMessage else FailureMessage
  }

  class ConfigWebServer {
    const config: Config
    const port: int
    var running: bool

    constructor (config: Config, port: int)
      ensures this.config == config && this.port == port
      ensures !running
    {
      this.config := config;
      this.port := port;
      running := false;
    }

    /** start: refuses when already running; otherwise marks the server
        running (the server thread is not modelled). */
    method Start() returns (started: bool)
      modifies this
      ensures started == !old(running)
      ensures running
    {
      if running {
        return false;
      }
      running := true;
      started := true;
    }

    /** stop: marks the server stopped; nothing happens when it is not
        running. */
    method Stop()
      modifies this
      ensures !running
      ensures old(running) == false ==> unchanged(this)
    {
      if running {
        running := false;
      }
    }

    /** getServerUrl: the local address with the configured port. */
    method GetServerUrl() returns (url: string)
      ensures url == LocalUrl(port)
    {
      url := LocalUrl(port);
    }

    /** parseRequest: the method and the path are the first two words of the
        request line; header lines up to the blank one fill the header map;
        the body is the remaining lines run together. */
    method ParseRequest(data: string) returns (request: Request)
      ensures var line := RequestLine(Lines(data));
              request.httpMethod == WordAt(line, 0) && request.path == WordAt(line, 1)
      ensures request.headers == HeaderMap(HeaderLines(Lines(data)))
      ensures request.body == Concat(BodyLines(Lines(data)))
    {
      var lines := Lines(data);
      var line := RequestLine(lines);
      var headers, start := ReadHeaders(lines);
      var body := ReadBody(lines, start);
      request := Request(WordAt(line, 0), WordAt(line, 1), headers, body);
    }

    /** The header loop of parseRequest: every line up to the first blank
        one goes through the header map, and the index of the first line
        left unread is returned. */
    method ReadHeaders(lines: seq<string>) returns (headers: map<string, string>, i: nat)
      ensures headers == HeaderMap(HeaderLines(lines))
      ensures i <= |lines| && lines[i..] == BodyLines(lines)
    {
      if |lines| == 0 {
        return map[], 0;
      }
      headers := map[];
      i := 1;
      var inHeaders := true;
      while inHeaders && i < |lines|
        invariant 1 <= i <= |lines|
        invariant inHeaders ==> forall k :: 1 <= k < i ==> !Blank(lines[k])
        invariant inHeaders ==> headers == HeaderMap(lines[1..i])
        invariant !inHeaders ==> 2 <= i && Blank(lines[i - 1]) && forall k :: 1 <= k < i - 1 ==> !Blank(lines[k])
        invariant !inHeaders ==> headers == HeaderMap(lines[1..i - 1])
      {
        if Blank(lines[i]) {
          inHeaders := false;
        } else {
          headers := StoreHeader(lines[1..i], headers, lines[i]);
          SliceSnoc(lines, 1, i);
        }
        i := i + 1;
      }
      HeaderSection(lines, if inHeaders then i else i - 1);
    }

    /** One pass of the header loop on a line that is not blank: a line
        with a ':' stores its field, a line without one is skipped. */
    method StoreHeader(before: seq<string>, headers: map<string, string>, line: string) returns (next: map<string, string>)
      requires headers == HeaderMap(before)
      ensures next == HeaderMap(before + [line])
    {
      var hs := before + [line];
      assert hs[..|hs| - 1] == before && hs[|hs| - 1] == line;
      HeaderMapSnoc(hs);
      next := headers;
      var field := HeaderField(line);
      if field.Some? {
        next := headers[field.value.0 := field.value.1];
      }
    }

    /** handlePostConfig: the body is handed to fromJson, which replaces the
        appliance and sensor lists; the answer reports its outcome (saving
        the file is not modelled). */
    method HandlePostConfig(body: string) returns (reply: string)
      modifies config
      ensures reply == SuccessMessage
      ensures config.appliances == ConfiguredAppliances(body)
      ensures config.sensorValues == ConfiguredSensors(body)
    {
      var success := config.FromJson(body);
      reply := PostReply(success);
    }

    /** handleConnection after the read: the request is parsed, routed, and
        answered; only a POST to "/api/config" changes the configuration.
        The page and the configuration document are given, since the HTML
        page and toJson are not part of this model. */
    method HandleRequest(data: string, indexPage: string, configJson: string) returns (response: string)
      modifies config
      ensures var line := RequestLine(Lines(data));
              var e := Route(WordAt(line, 0), WordAt(line, 1));
              && (e == Index ==> response == Reply(e, indexPage))
              && (e == GetConfig ==> response == Reply(e, configJson))
              && (e == PostConfig ==> response == Reply(e, SuccessMessage))
              && (e == NotFound ==> response == Reply(e, ""))
      ensures var line := RequestLine(Lines(data));
              var body := Concat(BodyLines(Lines(data)));
              Route(WordAt(line, 0), WordAt(line, 1)) == PostConfig
              ==> config.appliances == ConfiguredAppliances(body) && config.sensorValues == ConfiguredSensors(body)
      ensures var line := RequestLine(Lines(data));
              Route(WordAt(line, 0), WordAt(line, 1)) != PostConfig ==> unchanged(config)
    {
      var request := ParseRequest(data);
      var e := Route(request.httpMethod, request.path);
      if e == Index {
        response := Reply(e, indexPage);
      } else if e == GetConfig {
        response := Reply(e, configJson);
      } else if e == PostConfig {
        var reply := HandlePostConfig(request.body);
        response := Reply(e, reply);
      } else {
        response := Reply(e, "");
      }
    }
  }
}
