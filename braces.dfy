/** The brace counting shared by the payload parsers: starting just after
    an opening '{' with a count of one, each '{' adds one and each '}'
    removes one, until the count drops to zero or the text ends. */
module Braces {
  import opened Text

  function Delta(c: char): int {
    if c == '{' then 1 else if c == '}' then -1 else 0
  }

  /** Opening braces minus closing braces in `s`. */
  function Depth(s: string): int {
    if s == [] then 0 else Depth(s[..|s| - 1]) + Delta(s[|s| - 1])
  }

  lemma {:induction false} DepthAppend(a: string, b: string)
    ensures Depth(a + b) == Depth(a) + Depth(b)
    decreases |b|
  {
    if b == [] {
      assert a + b == a;
    } else {
      assert (a + b)[..|a + b| - 1] == a + b[..|b| - 1];
      DepthAppend(a, b[..|b| - 1]);
    }
  }

  /** The depth of `s[pos..k]` seen from its first character. */
  lemma DepthFront(s: string, pos: nat, k: nat)
    requires pos < k <= |s|
    ensures Depth(s[pos..k]) == Delta(s[pos]) + Depth(s[pos + 1..k])
  {
    assert s[pos..k] == [s[pos]] + s[pos + 1..k];
    DepthAppend([s[pos]], s[pos + 1..k]);
    assert [s[pos]][..0] == [];
  }

  /** The scan from `pos` with the running `count`: the index just past
      the brace that brings the count to zero, or None when the text ends
      first. */
  function CloseFrom(s: string, pos: nat, count: int): (r: Option<nat>)
    requires pos <= |s|
    ensures r.Some? ==> pos <= r.value <= |s|
    decreases |s| - pos
  {
    if count <= 0 then Some(pos)
    else if pos == |s| then None
    else CloseFrom(s, pos + 1, count + Delta(s[pos]))
  }

  /** The end (exclusive) of the brace-balanced span that opens at
      `start`. */
  function MatchingBrace(s: string, start: nat): (r: Option<nat>)
    requires start < |s|
    ensures r.Some? ==> start < r.value <= |s|
  {
    CloseFrom(s, start + 1, 1)
  }

  /** The scan stops at the first index where the count reaches zero, and
      fails only when the count stays positive to the end of the text. */
  lemma {:induction false} CloseFromFirstZero(s: string, pos: nat, count: int)
    requires pos <= |s| && count >= 0
    ensures CloseFrom(s, pos, count).Some? ==>
              var e := CloseFrom(s, pos, count).value;
              && pos <= e <= |s| && count + Depth(s[pos..e]) == 0
              && forall k :: pos <= k < e ==> count + Depth(s[pos..k]) > 0
    ensures CloseFrom(s, pos, count).None? ==>
              forall k :: pos <= k <= |s| ==> count + Depth(s[pos..k]) > 0
    decreases |s| - pos
  {
    assert s[pos..pos] == [];
    if count > 0 && pos < |s| {
      var next := count + Delta(s[pos]);
      CloseFromFirstZero(s, pos + 1, next);
      forall k | pos < k <= |s|
        ensures count + Depth(s[pos..k]) == next + Depth(s[pos + 1..k])
      {
        DepthFront(s, pos, k);
      }
    }
  }

  /** The span a matching brace closes is the shortest prefix of the text
      from the opening brace whose braces balance: its depth is zero and
      every shorter non-empty prefix is still open. Without a match, every
      prefix is still open. */
  lemma MatchingBraceBalanced(s: string, start: nat)
    requires start < |s| && s[start] == '{'
    ensures MatchingBrace(s, start).Some? ==>
              var e := MatchingBrace(s, start).value;
              && start < e <= |s| && Depth(s[start..e]) == 0
              && forall k :: start < k < e ==> Depth(s[start..k]) > 0
    ensures MatchingBrace(s, start).None? ==>
              forall k :: start < k <= |s| ==> Depth(s[start..k]) > 0
  {
    CloseFromFirstZero(s, start + 1, 1);
    forall k | start < k <= |s|
      ensures Depth(s[start..k]) == 1 + Depth(s[start + 1..k])
    {
      DepthFront(s, start, k);
    }
  }

  /** A JSON object as far as braces go: it opens with '{', its braces
      balance, and no shorter non-empty prefix balances. */
  predicate BalancedObject(a: string) {
    && a != [] && a[0] == '{' && Depth(a) == 0
    && forall k :: 0 < k < |a| ==> Depth(a[..k]) > 0
  }

  /** A balanced object placed at `start` is exactly the span the scan
      from its opening brace closes. */
  lemma MatchingBraceOfObject(s: string, start: nat, a: string)
    requires BalancedObject(a) && start + |a| <= |s| && s[start..start + |a|] == a
    ensures MatchingBrace(s, start) == Some(start + |a|)
  {
    assert s[start] == a[0];
    MatchingBraceBalanced(s, start);
    var stop := start + |a|;
    assert s[start..stop] == a;
    forall k | start < k < stop
      ensures Depth(s[start..k]) > 0
    {
      assert s[start..k] == a[..k - start];
    }
    match MatchingBrace(s, start)
    case None =>
      assert false;
    case Some(e) =>
      if e < stop {
        assert false;
      } else if e > stop {
        assert false;
      }
  }
}
