/** The HTTP text both embedded web servers share: the response builder and
    the way a request is cut, with std::getline, into its request line, its
    header lines and its body. */
module HttpText {
  import opened Text

  /** The reason phrase written after the status code. */
  function StatusText(code: int): (t: string)
    ensures t == "OK" <==> code == 200
    ensures t == "Not Found" <==> code == 404
    ensures t == "Internal Server Error" <==> code == 500
    ensures t == "Unknown" <==> code !in {200, 404, 500}
  {
    if code == 200 then "OK"
    else if code == 404 then "Not Found"
    else if code == 500 then "Internal Server Error"
    else "Unknown"
  }

  function StatusLine(code: int): string {
    "HTTP/1.1 " + IntToDecimal(code) + " " + StatusText(code) + "\r\n"
  }

  function ContentTypeLine(contentType: string): string {
    "Content-Type: " + contentType + "\r\n"
  }

  function ContentLengthLine(length: nat): string {
    "Content-Length: " + NatToDecimal(length) + "\r\n"
  }

  const Crlf: string := "\r\n"

  /** The two fixed header lines, without the line end of the second. */
  const FixedHeaders: string := "Connection: close\r\nAccess-Control-Allow-Origin: *"

  /** The two fixed header lines and the empty line that ends the head. */
  const Trailer: string := FixedHeaders + Crlf + Crlf

  /** The header lines after the status line and the empty line that ends
      the head. */
  function HeaderBlock(contentType: string, length: nat): string {
    ContentTypeLine(contentType) + ContentLengthLine(length) + Trailer
  }

  /** Everything before the body: the status line, the four header lines
      and the empty line. */
  function Head(code: int, contentType: string, length: nat): string {
    StatusLine(code) + HeaderBlock(contentType, length)
  }

  /** generateHttpResponse: the head, then the body unchanged. */
  function Response(code: int, contentType: string, body: string): (r: string)
    ensures |r| == |Head(code, contentType, |body|)| + |body|
    ensures OccursAt(r, StatusLine(code), 0)
    ensures r[|r| - |body|..] == body
  {
    var line := StatusLine(code);
    var block := HeaderBlock(contentType, |body|);
    AppendAssoc(line, block, body);
    Parts(line, block + body);
    Parts(line + block, body);
    line + block + body
  }

  /** The two parts of a concatenation. */
  lemma Parts(a: string, b: string)
    ensures (a + b)[..|a|] == a && (a + b)[0..|a|] == a && (a + b)[|a|..] == b
  {
  }

  /** The middle part of a three-part concatenation. */
  lemma Slice3(a: string, b: string, c: string)
    ensures (a + b + c)[|a|..|a| + |b|] == b
  {
  }

  /** The Content-Length header sits right after the Content-Type line and
      its digits read back as the length of the body, which follows the
      empty line and runs to the end of the response. */
  lemma ContentLengthFramesBody(code: int, contentType: string, body: string)
    ensures var r := Response(code, contentType, body);
            var digits := NatToDecimal(|body|);
            && OccursAt(r, "Content-Length: " + digits + "\r\n", |StatusLine(code) + ContentTypeLine(contentType)|)
            && DecimalValue(digits) == |body|
            && OccursAt(r, Crlf + Crlf, |r| - |body| - 4)
            && r[|r| - |body|..] == body
  {
    ContentLengthAt(code, contentType, body);
    HeadEndsAt(code, contentType, body);
    DecimalRoundTrip(|body|);
  }

  /** The Content-Length line follows the status and Content-Type lines. */
  lemma ContentLengthAt(code: int, contentType: string, body: string)
    ensures OccursAt(Response(code, contentType, body), ContentLengthLine(|body|), |StatusLine(code) + ContentTypeLine(contentType)|)
  {
    var r := Response(code, contentType, body);
    var status, ctLine := StatusLine(code), ContentTypeLine(contentType);
    var line := ContentLengthLine(|body|);
    assert r == status + ((ctLine + line) + Trailer) + body;
    Regroup(status, ctLine, line, Trailer, body);
    Slice3(status + ctLine, line, Trailer + body);
  }

  /** The head ends with an empty line right before the body. */
  lemma HeadEndsAt(code: int, contentType: string, body: string)
    ensures var r := Response(code, contentType, body);
            OccursAt(r, Crlf + Crlf, |r| - |body| - 4)
  {
    var r := Response(code, contentType, body);
    var status, lines := StatusLine(code), ContentTypeLine(contentType) + ContentLengthLine(|body|);
    assert r == status + (lines + (FixedHeaders + Crlf + Crlf)) + body;
    RegroupTrailer(status, lines, FixedHeaders, Crlf, body);
    Slice3(status + lines + FixedHeaders, Crlf + Crlf, body);
  }

  /** Regrouping the response around its Content-Length line. */
  lemma Regroup<T>(a: seq<T>, b: seq<T>, c: seq<T>, d: seq<T>, e: seq<T>)
    ensures a + ((b + c) + d) + e == (a + b) + c + (d + e)
  {
  }

  /** Regrouping the response around the empty line that ends the head. */
  lemma RegroupTrailer<T>(a: seq<T>, b: seq<T>, f: seq<T>, g: seq<T>, e: seq<T>)
    ensures a + (b + (f + g + g)) + e == (a + b + f) + (g + g) + e
  {
  }

  /** "http://localhost:" followed by the port number (getServerUrl,
      getServiceUrl). */
  function LocalUrl(port: int): (url: string)
    ensures |url| > 17 && url[..17] == "http://localhost:"
  {
    "http://localhost:" + IntToDecimal(port)
  }

  /** The port is read back from the address. */
  lemma LocalUrlPort(port: nat)
    ensures var digits := LocalUrl(port)[17..];
            && (forall i :: 0 <= i < |digits| ==> '0' <= digits[i] <= '9')
            && DecimalValue(digits) == port
  {
    assert LocalUrl(port)[17..] == NatToDecimal(port);
    DecimalRoundTrip(port);
  }

  /** The line that ends the header section: empty, or a lone carriage
      return (what std::getline leaves of a CRLF blank line). */
  predicate Blank(line: string) {
    line == [] || line == "\r"
  }

  /** The first blank line at or after `from`. */
  function FirstBlank(lines: seq<string>, from: nat): (r: Option<nat>)
    ensures r.Some? ==> from <= r.value < |lines| && Blank(lines[r.value])
    ensures r.Some? ==> forall k :: from <= k < r.value ==> !Blank(lines[k])
    ensures r.None? ==> forall k :: from <= k < |lines| ==> !Blank(lines[k])
    decreases |lines| - from
  {
    if from >= |lines| then None
    else if Blank(lines[from]) then Some(from)
    else FirstBlank(lines, from + 1)
  }

  /** The first getline yields the request line (empty when the request is
      empty). */
  function RequestLine(lines: seq<string>): string {
    if lines == [] then "" else lines[0]
  }

  /** The header lines: those after the request line, up to the first
      blank one or to the end. */
  function HeaderLines(lines: seq<string>): (r: seq<string>)
    ensures forall i :: 0 <= i < |r| ==> !Blank(r[i])
  {
    if lines == [] then []
    else match FirstBlank(lines, 1)
      case Some(k) => lines[1..k]
      case None => lines[1..]
  }

  /** The body lines: those after the blank line; none when there is no
      blank line, since the header loop has then read every line. */
  function BodyLines(lines: seq<string>): seq<string> {
    match FirstBlank(lines, 1)
    case Some(k) => lines[k + 1..]
    case None => []
  }

  /** When the lines from 1 up to `end` are not blank and `end` is blank
      or the end of the request, they are the header lines and the body
      lines follow the blank one. */
  lemma HeaderSection(lines: seq<string>, end: nat)
    requires 1 <= end <= |lines|
    requires forall k :: 1 <= k < end ==> !Blank(lines[k])
    requires end == |lines| || Blank(lines[end])
    ensures HeaderLines(lines) == lines[1..end]
    ensures BodyLines(lines) == if end < |lines| then lines[end + 1..] else []
  {
    if end < |lines| {
      assert FirstBlank(lines, 1) == Some(end);
    } else {
      assert FirstBlank(lines, 1).None?;
    }
  }

  /** The body loop: the lines from `from` on, run together without their
      newlines. */
  method ReadBody(lines: seq<string>, from: nat) returns (body: string)
    requires from <= |lines|
    ensures body == Concat(lines[from..])
  {
    body := "";
    var j := from;
    while j < |lines|
      invariant from <= j <= |lines|
      invariant body == Concat(lines[from..j])
    {
      ConcatSnoc(lines[from..j], lines[j]);
      SliceSnoc(lines, from, j);
      body := body + lines[j];
      j := j + 1;
    }
    assert lines[from..j] == lines[from..];
  }

  /** A request written as its request line, its header lines, a CRLF
      blank line and its body lines is cut back into exactly those parts. */
  lemma RequestParts(first: string, headers: seq<string>, body: seq<string>)
    requires '\n' !in first
    requires forall i :: 0 <= i < |headers| ==> '\n' !in headers[i] && !Blank(headers[i])
    requires forall i :: 0 <= i < |body| ==> '\n' !in body[i]
    ensures var lines := Lines(Unlines([first] + headers + ["\r"] + body));
            RequestLine(lines) == first && HeaderLines(lines) == headers && BodyLines(lines) == body
  {
    var ls := [first] + headers + ["\r"] + body;
    assert Lines(Unlines(ls)) == ls by {
      NoNewlines(first, headers, body);
      LinesOfUnlines(ls);
    }
    SectionsOf(first, headers, body);
  }

  /** No line of the laid-out request holds a newline when none of its
      parts does. */
  lemma NoNewlines(first: string, headers: seq<string>, body: seq<string>)
    requires '\n' !in first
    requires forall i :: 0 <= i < |headers| ==> '\n' !in headers[i]
    requires forall i :: 0 <= i < |body| ==> '\n' !in body[i]
    ensures var ls := [first] + headers + ["\r"] + body;
            forall i :: 0 <= i < |ls| ==> '\n' !in ls[i]
  {
    var ls := [first] + headers + ["\r"] + body;
    forall i | 0 <= i < |ls|
      ensures '\n' !in ls[i]
    {
      if 0 < i <= |headers| {
        assert ls[i] == headers[i - 1];
      } else if i > |headers| + 1 {
        assert ls[i] == body[i - |headers| - 2];
      }
    }
  }

  /** The sections of a line sequence laid out as request line, headers,
      blank line and body. */
  lemma SectionsOf(first: string, headers: seq<string>, body: seq<string>)
    requires forall i :: 0 <= i < |headers| ==> !Blank(headers[i])
    ensures var ls := [first] + headers + ["\r"] + body;
            RequestLine(ls) == first && HeaderLines(ls) == headers && BodyLines(ls) == body
  {
    var ls := [first] + headers + ["\r"] + body;
    var k := |headers| + 1;
    assert ls[k] == "\r";
    forall j | 1 <= j < k
      ensures !Blank(ls[j])
    {
      assert ls[j] == headers[j - 1];
    }
    assert FirstBlank(ls, 1) == Some(k);
    assert ls[1..k] == headers;
    assert ls[k + 1..] == body;
  }

  /** The pairs stored one after the other into a map, each overwriting an
      earlier entry with the same key (how both servers fill their query
      and header maps). */
  function Assign(acc: map<string, string>, pairs: seq<(string, string)>): map<string, string>
    decreases |pairs|
  {
    if pairs == [] then acc else Assign(acc[pairs[0].0 := pairs[0].1], pairs[1..])
  }

  /** After the assignments, a key holds the value of its last pair, or its
      earlier value when no pair names it. */
  lemma {:induction false} AssignLookup(acc: map<string, string>, pairs: seq<(string, string)>, i: nat)
    requires i < |pairs|
    requires forall j :: i < j < |pairs| ==> pairs[j].0 != pairs[i].0
    ensures pairs[i].0 in Assign(acc, pairs) && Assign(acc, pairs)[pairs[i].0] == pairs[i].1
    decreases |pairs|
  {
    var next := acc[pairs[0].0 := pairs[0].1];
    if i == 0 {
      AssignUntouched(next, pairs[1..], pairs[0].0);
    } else {
      AssignLookup(next, pairs[1..], i - 1);
    }
  }

  /** A key no pair names keeps its earlier entry. */
  lemma {:induction false} AssignUntouched(acc: map<string, string>, pairs: seq<(string, string)>, k: string)
    requires k in acc
    requires forall j :: 0 <= j < |pairs| ==> pairs[j].0 != k
    ensures k in Assign(acc, pairs) && Assign(acc, pairs)[k] == acc[k]
    decreases |pairs|
  {
    if pairs != [] {
      AssignUntouched(acc[pairs[0].0 := pairs[0].1], pairs[1..], k);
    }
  }

  /** A key that neither the map nor any pair has stays absent. */
  lemma {:induction false} AssignAbsent(acc: map<string, string>, pairs: seq<(string, string)>, k: string)
    requires k !in acc
    requires forall j :: 0 <= j < |pairs| ==> pairs[j].0 != k
    ensures k !in Assign(acc, pairs)
    decreases |pairs|
  {
    if pairs != [] {
      AssignAbsent(acc[pairs[0].0 := pairs[0].1], pairs[1..], k);
    }
  }

  /** Storing one more pair updates the map by that pair. */
  lemma {:induction false} AssignSnoc(acc: map<string, string>, pairs: seq<(string, string)>, p: (string, string))
    ensures Assign(acc, pairs + [p]) == Assign(acc, pairs)[p.0 := p.1]
    decreases |pairs|
  {
    if pairs == [] {
      assert [] + [p] == [p];
      assert [p][1..] == [];
    } else {
      assert (pairs + [p])[1..] == pairs[1..] + [p];
      AssignSnoc(acc[pairs[0].0 := pairs[0].1], pairs[1..], p);
    }
  }
}
