/** String and character helpers shared by the parsers and builders: the
    behaviour of the C++ library calls the source relies on (std::string::find,
    isspace, std::getline, operator>> on strings, decimal printing of
    integers). */
module Text {

  datatype Option<+T> = None | Some(value: T)

  /** The characters C's isspace accepts in the "C" locale. */
  const Spaces: set<char> := {' ', '\t', '\n', '\r', '\U{0B}', '\U{0C}'}

  predicate IsSpace(c: char) {
    c in Spaces
  }

  /** std::string::find(char c, size_t from): the first index at or after
      `from` that holds `c`. */
  function IndexOf(s: string, c: char, from: nat): (r: Option<nat>)
    ensures r.Some? ==> from <= r.value < |s| && s[r.value] == c
    ensures r.Some? ==> forall k :: from <= k < r.value ==> s[k] != c
    ensures r.None? ==> forall k :: from <= k < |s| ==> s[k] != c
    decreases |s| - from
  {
    if from >= |s| then None
    else if s[from] == c then Some(from)
    else IndexOf(s, c, from + 1)
  }

  /** True when `pat` occurs in `s` starting at index `at`. */
  predicate OccursAt(s: string, pat: string, at: nat) {
    at + |pat| <= |s| && s[at..at + |pat|] == pat
  }

  /** std::string::find(const std::string& pat, size_t from). */
  function Find(s: string, pat: string, from: nat): (r: Option<nat>)
    ensures r.Some? ==> from <= r.value && OccursAt(s, pat, r.value)
    ensures r.Some? ==> forall k :: from <= k < r.value ==> !OccursAt(s, pat, k)
    ensures r.None? ==> forall k :: from <= k ==> !OccursAt(s, pat, k)
    decreases |s| - from
  {
    if from > |s| then None
    else if OccursAt(s, pat, from) then Some(from)
    else if from == |s| then None
    else Find(s, pat, from + 1)
  }

  /** The first `c` at or after `from` is at `at` when `at` holds one and
      nothing before it does. */
  lemma IndexOfAt(s: string, c: char, from: nat, at: nat)
    requires from <= at < |s| && s[at] == c
    requires forall k :: from <= k < at ==> s[k] != c
    ensures IndexOf(s, c, from) == Some(at)
  {
  }

  /** The first occurrence of `pat` at or after `from` is at `at` when it
      occurs there and nowhere before. */
  lemma FindAt(s: string, pat: string, from: nat, at: nat)
    requires from <= at && OccursAt(s, pat, at)
    requires forall k :: from <= k < at ==> !OccursAt(s, pat, k)
    ensures Find(s, pat, from) == Some(at)
  {
  }

  /** A single-character pattern is found exactly where the character is. */
  lemma {:induction false} FindSingleIsIndexOf(s: string, c: char, from: nat)
    ensures Find(s, [c], from) == IndexOf(s, c, from)
    decreases |s| - from
  {
    if from < |s| {
      assert OccursAt(s, [c], from) <==> s[from] == c by {
        assert s[from..from + 1] == [s[from]];
      }
      if s[from] != c {
        FindSingleIsIndexOf(s, c, from + 1);
      }
    }
  }

  /** Removes every character of `cs` from the front and the back
      (the find_first_not_of / find_last_not_of + erase idiom). */
  function Trim(s: string, cs: set<char>): (r: string)
    ensures |r| <= |s|
    ensures r == [] || (r[0] !in cs && r[|r| - 1] !in cs)
  {
    var t := TrimFront(s, cs);
    var r := TrimBack(t, cs);
    assert r != [] ==> r[0] == t[0];
    r
  }

  function TrimFront(s: string, cs: set<char>): (r: string)
    ensures |r| <= |s| && r == s[|s| - |r|..]
    ensures r == [] || r[0] !in cs
    ensures forall k :: 0 <= k < |s| - |r| ==> s[k] in cs
  {
    if s == [] || s[0] !in cs then s else TrimFront(s[1..], cs)
  }

  /** Nothing is trimmed from a string that does not start with a trimmed
      character. */
  lemma TrimFrontKeeps(s: string, cs: set<char>)
    requires s == [] || s[0] !in cs
    ensures TrimFront(s, cs) == s
  {
  }

  /** A leading trimmed character is dropped. */
  lemma TrimFrontSkip(c: char, s: string, cs: set<char>)
    requires c in cs
    ensures TrimFront([c] + s, cs) == TrimFront(s, cs)
  {
    assert ([c] + s)[1..] == s;
  }

  function TrimBack(s: string, cs: set<char>): (r: string)
    ensures |r| <= |s| && r == s[..|r|]
    ensures r == [] || r[|r| - 1] !in cs
    ensures forall k :: |r| <= k < |s| ==> s[k] in cs
  {
    if s == [] || s[|s| - 1] !in cs then s else TrimBack(s[..|s| - 1], cs)
  }

  /** A trailing trimmed character is dropped. */
  lemma TrimBackSkip(s: string, c: char, cs: set<char>)
    requires c in cs
    ensures TrimBack(s + [c], cs) == TrimBack(s, cs)
  {
    assert (s + [c])[..|s|] == s;
  }

  /** Nothing is trimmed from a string that does not end with a trimmed
      character. */
  lemma TrimBackKeeps(s: string, cs: set<char>)
    requires s == [] || s[|s| - 1] !in cs
    ensures TrimBack(s, cs) == s
  {
  }

  /** Extending a prefix by the next element. */
  lemma TakeSnoc<T>(s: seq<T>, i: nat)
    requires i < |s|
    ensures s[..i + 1] == s[..i] + [s[i]]
  {
  }

  /** Extending a slice by the next element. */
  lemma SliceSnoc<T>(s: seq<T>, a: nat, b: nat)
    requires a <= b < |s|
    ensures s[a..b] + [s[b]] == s[a..b + 1]
  {
  }

  /** A non-empty sequence is its front followed by its last element. */
  lemma FrontLast<T>(s: seq<T>)
    requires s != []
    ensures s == s[..|s| - 1] + [s[|s| - 1]]
  {
  }

  /** The front and the last element of a sequence built by appending. */
  lemma SnocParts<T>(a: seq<T>, x: T)
    ensures (a + [x])[..|a|] == a && (a + [x])[|a|] == x
  {
  }

  /** Concatenation is associative. */
  lemma AppendAssoc<T>(a: seq<T>, b: seq<T>, c: seq<T>)
    ensures (a + b) + c == a + (b + c)
  {
  }

  /** The lines std::getline yields from a stream over `s`: pieces between
      '\n' characters; a final '\n' does not start an extra empty line. */
  function Lines(s: string): (r: seq<string>)
    ensures forall i :: 0 <= i < |r| ==> '\n' !in r[i]
    ensures Unlines(r) == s || (s != [] && s[|s| - 1] != '\n' && Unlines(r) == s + "\n")
    decreases |s|
  {
    match IndexOf(s, '\n', 0)
    case None => if s == [] then [] else [s]
    case Some(i) =>
      var rest := Lines(s[i + 1..]);
      assert s == s[..i] + "\n" + s[i + 1..];
      [s[..i]] + rest
  }

  /** Lines without newlines, each written out followed by '\n', are read
      back by std::getline one for one. */
  lemma {:induction false} LinesOfUnlines(ls: seq<string>)
    requires forall i :: 0 <= i < |ls| ==> '\n' !in ls[i]
    ensures Lines(Unlines(ls)) == ls
  {
    if ls != [] {
      var s := Unlines(ls);
      var n := |ls[0]|;
      assert s == ls[0] + "\n" + Unlines(ls[1..]);
      assert s[n] == '\n';
      forall k | 0 <= k < n
        ensures s[k] != '\n'
      {
        assert s[k] == ls[0][k];
      }
      IndexOfAt(s, '\n', 0, n);
      assert s[..n] == ls[0];
      assert s[n + 1..] == Unlines(ls[1..]);
      LinesOfUnlines(ls[1..]);
      assert ls == [ls[0]] + ls[1..];
    }
  }

  /** Lines joined back, each followed by '\n'. */
  function Unlines(ls: seq<string>): string {
    if ls == [] then [] else ls[0] + "\n" + Unlines(ls[1..])
  }

  /** Concatenation without separators (what `stream << line` for each line
      builds). */
  function Concat(ls: seq<string>): (r: string)
    ensures |r| == SumLengths(ls)
  {
    if ls == [] then [] else ls[0] + Concat(ls[1..])
  }

  /** Writing one more line appends it. */
  lemma {:induction false} ConcatSnoc(ls: seq<string>, x: string)
    ensures Concat(ls + [x]) == Concat(ls) + x
  {
    if ls == [] {
      assert ls + [x] == [x];
      assert [x][1..] == [];
    } else {
      assert (ls + [x])[1..] == ls[1..] + [x];
      ConcatSnoc(ls[1..], x);
      AppendAssoc(ls[0], Concat(ls[1..]), x);
    }
  }

  function SumLengths(ls: seq<string>): nat {
    if ls == [] then 0 else |ls[0]| + SumLengths(ls[1..])
  }

  /** The whitespace-separated words that repeated `>>` into std::string
      extracts from a line. */
  function Words(s: string): seq<string>
    decreases |s|
  {
    var t := TrimFront(s, Spaces);
    if t == [] then []
    else
      var w := WordPrefix(t);
      [w] + Words(t[|w|..])
  }

  /** Every extracted word is non-empty and holds no whitespace. */
  lemma {:induction false} WordsAreWords(s: string)
    ensures forall i :: 0 <= i < |Words(s)| ==> Words(s)[i] != [] && NoSpace(Words(s)[i])
    decreases |s|
  {
    var t := TrimFront(s, Spaces);
    if t != [] {
      var w := WordPrefix(t);
      var rest := Words(t[|w|..]);
      WordsAreWords(t[|w|..]);
      assert Words(s) == [w] + rest;
      forall i | 0 <= i < |Words(s)|
        ensures Words(s)[i] != [] && NoSpace(Words(s)[i])
      {
        if i > 0 {
          assert Words(s)[i] == rest[i - 1];
        }
      }
    }
  }


  /** A word: no character of it is whitespace. */
  predicate NoSpace(w: string) {
    forall k :: 0 <= k < |w| ==> !IsSpace(w[k])
  }

  /** The longest prefix of `s` without whitespace. */
  function WordPrefix(s: string): (r: string)
    ensures |r| <= |s| && r == s[..|r|]
    ensures NoSpace(r)
    ensures |r| < |s| ==> IsSpace(s[|r|])
    ensures s != [] && !IsSpace(s[0]) ==> r != []
  {
    if s == [] || IsSpace(s[0]) then [] else [s[0]] + WordPrefix(s[1..])
  }

  /** A word followed by whitespace or by nothing is read whole. */
  lemma {:induction false} WordPrefixOf(w: string, rest: string)
    requires NoSpace(w) && (rest == [] || IsSpace(rest[0]))
    ensures WordPrefix(w + rest) == w
  {
    if w != [] {
      assert (w + rest)[0] == w[0];
      assert (w + rest)[1..] == w[1..] + rest;
      WordPrefixOf(w[1..], rest);
    } else {
      assert w + rest == rest;
    }
  }

  /** A word followed by whitespace or by nothing is extracted first, and
      extraction goes on with what follows it. */
  lemma WordsOfWord(w: string, rest: string)
    requires w != [] && NoSpace(w) && (rest == [] || IsSpace(rest[0]))
    ensures Words(w + rest) == [w] + Words(rest)
  {
    var s := w + rest;
    assert s[0] == w[0];
    assert TrimFront(s, Spaces) == s;
    WordPrefixOf(w, rest);
    assert s[|w|..] == rest;
  }

  /** Leading whitespace is skipped before a word. */
  lemma WordsAfterSpace(c: char, s: string)
    requires IsSpace(c)
    ensures Words([c] + s) == Words(s)
  {
    assert ([c] + s)[1..] == s;
    assert TrimFront([c] + s, Spaces) == TrimFront(s, Spaces);
  }

  /** A line that starts with two words separated by a space yields them as
      its first two extracted words. */
  lemma FirstTwoWords(m: string, p: string, rest: string)
    requires m != [] && NoSpace(m) && p != [] && NoSpace(p)
    requires rest == [] || IsSpace(rest[0])
    ensures |Words(m + " " + p + rest)| >= 2
    ensures Words(m + " " + p + rest)[0] == m && Words(m + " " + p + rest)[1] == p
  {
    var pr := p + rest;
    var tail := [' '] + pr;
    assert m + " " + p + rest == m + tail;
    WordsOfWord(m, tail);
    WordsAfterSpace(' ', pr);
    WordsOfWord(p, rest);
    var ws := Words(m + tail);
    assert ws == [m] + ([p] + Words(rest));
  }

  /** The n-th word, or "" when the line has fewer words (a failed `>>`
      leaves the target string empty). */
  function WordAt(s: string, n: nat): string {
    var ws := Words(s);
    if n < |ws| then ws[n] else ""
  }

  function DigitChar(d: nat): (c: char)
    requires d < 10
    ensures '0' <= c <= '9'
  {
    ['0', '1', '2', '3', '4', '5', '6', '7', '8', '9'][d]
  }

  /** Decimal text of a natural number, as `<<` prints it. */
  function NatToDecimal(n: nat): (r: string)
    ensures r != [] && forall i :: 0 <= i < |r| ==> '0' <= r[i] <= '9'
    ensures |r| > 1 ==> r[0] != '0'
  {
    if n < 10 then [DigitChar(n)] else NatToDecimal(n / 10) + [DigitChar(n % 10)]
  }

  /** Decimal text of an integer, with a leading '-' when negative. */
  function IntToDecimal(i: int): string {
    if i < 0 then "-" + NatToDecimal(-i) else NatToDecimal(i)
  }

  /** Value of a string of decimal digits. */
  function DecimalValue(s: string): nat
    requires forall i :: 0 <= i < |s| ==> '0' <= s[i] <= '9'
  {
    if s == [] then 0 else DecimalValue(s[..|s| - 1]) * 10 + ((s[|s| - 1] as int) - ('0' as int))
  }

  /** Printing a natural number and reading its digits back gives it again,
      so a printed length (Content-Length) determines the length. */
  lemma {:induction false} DecimalRoundTrip(n: nat)
    ensures DecimalValue(NatToDecimal(n)) == n
  {
    if n >= 10 {
      var q, d := n / 10, n % 10;
      assert n == q * 10 + d;
      DecimalRoundTrip(q);
      var front := NatToDecimal(q);
      var r := front + [DigitChar(d)];
      assert r[..|r| - 1] == front;
      assert (DigitChar(d) as int) - ('0' as int) == d;
    }
  }
}
