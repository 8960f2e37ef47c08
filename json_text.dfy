/** The JSON string escaping used when configuration and status documents
    are written, and the unescaping used when configuration is read back. */
module JsonText {

  const Backspace: char := '\U{08}'
  const FormFeed: char := '\U{0C}'

  /** The characters written as a backslash and a letter (or themselves). */
  const Escaped: set<char> := {'"', '\\', Backspace, FormFeed, '\n', '\r', '\t'}

  /** The letter that follows the backslash for each escaped character. */
  function EscapeLetter(c: char): (l: char)
    requires c in Escaped
    ensures l in {'"', '\\', 'b', 'f', 'n', 'r', 't'}
  {
    if c == '"' then '"'
    else if c == '\\' then '\\'
    else if c == Backspace then 'b'
    else if c == FormFeed then 'f'
    else if c == '\n' then 'n'
    else if c == '\r' then 'r'
    else 't'
  }

  /** The character a backslash-letter pair stands for; an unknown letter
      stands for itself. */
  function UnescapeLetter(l: char): (c: char)
    ensures l !in {'"', '\\', 'b', 'f', 'n', 'r', 't'} ==> c == l
  {
    if l == 'b' then Backspace
    else if l == 'f' then FormFeed
    else if l == 'n' then '\n'
    else if l == 'r' then '\r'
    else if l == 't' then '\t'
    else l
  }

  /** The text written for one character: the seven escaped characters
      become two characters starting with a backslash, every other one is
      copied. */
  function EscapeChar(c: char): (r: string)
    ensures c in Escaped ==> |r| == 2 && r[0] == '\\' && UnescapeLetter(r[1]) == c
    ensures c !in Escaped ==> r == [c]
  {
    if c in Escaped then ['\\', EscapeLetter(c)] else [c]
  }

  /** The escaped form of a whole string, character by character. */
  function Escape(s: string): string {
    if s == [] then [] else EscapeChar(s[0]) + Escape(s[1..])
  }

  /** Escaping the characters of `s` and then those of `t` is escaping
      `s + t`: the writer may emit the text piece by piece. */
  lemma {:induction false} EscapeAppend(s: string, t: string)
    ensures Escape(s + t) == Escape(s) + Escape(t)
  {
    if s != [] {
      assert (s + t)[0] == s[0] && (s + t)[1..] == s[1..] + t;
      EscapeAppend(s[1..], t);
      assert Escape(s + t) == EscapeChar(s[0]) + (Escape(s[1..]) + Escape(t));
    } else {
      assert s + t == t;
    }
  }

  /** Escaped text holds no raw control character: every newline, carriage
      return, tab, backspace and form feed of the input was replaced. */
  lemma {:induction false} EscapeHasNoControl(s: string)
    ensures forall i :: 0 <= i < |Escape(s)| ==> Escape(s)[i] !in {Backspace, FormFeed, '\n', '\r', '\t'}
  {
    if s != [] {
      EscapeHasNoControl(s[1..]);
      var e := EscapeChar(s[0]);
      forall i | 0 <= i < |Escape(s)|
        ensures Escape(s)[i] !in {Backspace, FormFeed, '\n', '\r', '\t'}
      {
        if i >= |e| {
          assert Escape(s)[i] == Escape(s[1..])[i - |e|];
        }
      }
    }
  }

  /** The decoder reads left to right, remembering whether the previous
      character was an unconsumed backslash. Processing `s` from the state
      (`out`, `escaping`) gives the final text. */
  function UnescapeFrom(s: string, out: string, escaping: bool): string {
    if s == [] then out
    else if escaping then UnescapeFrom(s[1..], out + [UnescapeLetter(s[0])], false)
    else if s[0] == '\\' then UnescapeFrom(s[1..], out, true)
    else UnescapeFrom(s[1..], out + [s[0]], false)
  }

  function Unescape(s: string): string {
    UnescapeFrom(s, [], false)
  }

  /** Decoding the escape of one character appends that character. */
  lemma EscapeCharDecodes(c: char, rest: string, out: string)
    ensures UnescapeFrom(EscapeChar(c) + rest, out, false) == UnescapeFrom(rest, out + [c], false)
  {
    var e := EscapeChar(c);
    if c in Escaped {
      assert (e + rest)[1..] == [e[1]] + rest;
      assert ([e[1]] + rest)[1..] == rest;
    } else {
      assert (e + rest)[1..] == rest;
    }
  }

  /** Decoding `Escape(s)` followed by more text appends `s` to the output
      and then continues with the rest in the normal state. */
  lemma {:induction false} UnescapeEscapeFrom(s: string, rest: string, out: string)
    ensures UnescapeFrom(Escape(s) + rest, out, false) == UnescapeFrom(rest, out + s, false)
  {
    if s == [] {
      assert Escape(s) + rest == rest;
      assert out + s == out;
    } else {
      var tail := Escape(s[1..]) + rest;
      assert Escape(s) + rest == EscapeChar(s[0]) + tail;
      EscapeCharDecodes(s[0], tail, out);
      UnescapeEscapeFrom(s[1..], rest, out + [s[0]]);
      assert out + [s[0]] + s[1..] == out + s;
    }
  }

  /** Unescaping undoes escaping, for every string. */
  lemma EscapeRoundTrip(s: string)
    ensures Unescape(Escape(s)) == s
  {
    UnescapeEscapeFrom(s, [], []);
    assert Escape(s) + [] == Escape(s);
    assert [] + s == s;
  }
}
