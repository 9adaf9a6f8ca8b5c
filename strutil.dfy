/**
 * The string helpers the engine calls from its utility library. Their
 * definitions are not part of this model, so they are given the standard
 * meanings stated here:
 *  - `Split(s, delims)` returns the maximal non-empty runs of characters that
 *    are not delimiters, in order (empty tokens are dropped);
 *  - `Lower(s)` lowercases the ASCII letters A..Z and keeps every other character;
 *  - `Find(s, pat)` is `std::string::find`: the first index where `pat` occurs.
 */
module StrUtil {
  import opened Wrappers

  // ---------------------------------------------------------------------------
  // Split
  // ---------------------------------------------------------------------------

  /** The token being built, as a (possibly empty) list of finished tokens. */
  function Flush(cur: string): seq<string>
  {
    if cur == [] then [] else [cur]
  }

  /** Splits `s`, with `cur` the characters of the token read so far. */
  function SplitFrom(s: string, delims: set<char>, cur: string): seq<string>
    decreases |s|
  {
    if s == [] then Flush(cur)
    else if s[0] in delims then Flush(cur) + SplitFrom(s[1..], delims, [])
    else SplitFrom(s[1..], delims, cur + [s[0]])
  }

  function Split(s: string, delims: set<char>): seq<string>
  {
    SplitFrom(s, delims, [])
  }

  /** No character of `t` is a delimiter. */
  predicate NoDelims(t: string, delims: set<char>)
  {
    forall i :: 0 <= i < |t| ==> t[i] !in delims
  }

  /** Every token is non-empty and free of delimiters. */
  predicate WellFormedTokens(tokens: seq<string>, delims: set<char>)
  {
    forall k :: 0 <= k < |tokens| ==> tokens[k] != [] && NoDelims(tokens[k], delims)
  }

  lemma {:induction false} SplitFromWellFormed(s: string, delims: set<char>, cur: string)
    requires NoDelims(cur, delims)
    ensures WellFormedTokens(SplitFrom(s, delims, cur), delims)
    decreases |s|
  {
    if s == [] {
    } else if s[0] in delims {
      SplitFromWellFormed(s[1..], delims, []);
    } else {
      SplitFromWellFormed(s[1..], delims, cur + [s[0]]);
    }
  }

  lemma SplitWellFormed(s: string, delims: set<char>)
    ensures WellFormedTokens(Split(s, delims), delims)
  {
    SplitFromWellFormed(s, delims, []);
  }

  /** A run without delimiters just extends the current token. */
  lemma {:induction false} SplitFromRun(a: string, rest: string, delims: set<char>, cur: string)
    requires NoDelims(a, delims)
    ensures SplitFrom(a + rest, delims, cur) == SplitFrom(rest, delims, cur + a)
    decreases |a|
  {
    if a == [] {
      assert a + rest == rest;
      assert cur + a == cur;
    } else {
      assert (a + rest)[0] == a[0];
      assert (a + rest)[1..] == a[1..] + rest;
      SplitFromRun(a[1..], rest, delims, cur + [a[0]]);
      assert cur + [a[0]] + a[1..] == cur + a;
    }
  }

  /** Splitting at a delimiter splits the text in two independent parts. */
  lemma {:induction false} SplitFromAtDelim(a: string, c: char, b: string, delims: set<char>, cur: string)
    requires c in delims
    ensures SplitFrom(a + [c] + b, delims, cur) == SplitFrom(a, delims, cur) + SplitFrom(b, delims, [])
    decreases |a|
  {
    if a == [] {
      assert a + [c] + b == [c] + b;
      assert ([c] + b)[1..] == b;
    } else {
      assert (a + [c] + b)[0] == a[0];
      assert (a + [c] + b)[1..] == a[1..] + [c] + b;
      if a[0] in delims {
        SplitFromAtDelim(a[1..], c, b, delims, []);
      } else {
        SplitFromAtDelim(a[1..], c, b, delims, cur + [a[0]]);
      }
    }
  }

  /** A text made only of delimiters has no token. */
  lemma {:induction false} SplitFromOnlyDelims(s: string, delims: set<char>)
    requires forall i :: 0 <= i < |s| ==> s[i] in delims
    ensures SplitFrom(s, delims, []) == []
    decreases |s|
  {
    if s != [] {
      SplitFromOnlyDelims(s[1..], delims);
    }
  }

  /** A non-empty text without delimiters is one token. */
  lemma SplitSingleToken(t: string, delims: set<char>)
    requires t != [] && NoDelims(t, delims)
    ensures Split(t, delims) == [t]
  {
    SplitFromRun(t, [], delims, []);
    assert t + [] == t;
    assert [] + t == t;
  }

  /** `a<c>b` with `a` a token and `c` a delimiter splits into `a` and the tokens of `b`. */
  lemma SplitLeadingToken(a: string, c: char, b: string, delims: set<char>)
    requires a != [] && NoDelims(a, delims) && c in delims
    ensures Split(a + [c] + b, delims) == [a] + Split(b, delims)
  {
    SplitFromAtDelim(a, c, b, delims, []);
    SplitSingleToken(a, delims);
  }

  /** A text that ends in a delimiter, followed by a token, ends with that token. */
  lemma SplitTrailingToken(dir: string, c: char, t: string, delims: set<char>)
    requires t != [] && NoDelims(t, delims) && c in delims
    ensures Split(dir + [c] + t, delims) == Split(dir, delims) + [t]
  {
    SplitFromAtDelim(dir, c, t, delims, []);
    SplitSingleToken(t, delims);
  }

  // ---------------------------------------------------------------------------
  // Lower
  // ---------------------------------------------------------------------------

  function LowerChar(ch: char): char
  {
    if 'A' <= ch <= 'Z' then (ch as int + 32) as char else ch
  }

  function Lower(s: string): (r: string)
    ensures |r| == |s|
    ensures forall i :: 0 <= i < |s| ==> r[i] == LowerChar(s[i])
  {
    seq(|s|, i requires 0 <= i < |s| => LowerChar(s[i]))
  }

  /** Neither a letter nor a character that lowercasing produces or changes. */
  predicate NoLetters(delims: set<char>)
  {
    forall ch :: ch in delims ==> !('A' <= ch <= 'Z') && !('a' <= ch <= 'z')
  }

  function LowerAll(tokens: seq<string>): (r: seq<string>)
    ensures |r| == |tokens|
    ensures forall k :: 0 <= k < |tokens| ==> r[k] == Lower(tokens[k])
  {
    seq(|tokens|, k requires 0 <= k < |tokens| => Lower(tokens[k]))
  }

  lemma {:induction false} SplitFromLower(s: string, delims: set<char>, cur: string)
    requires NoLetters(delims)
    ensures SplitFrom(Lower(s), delims, Lower(cur)) == LowerAll(SplitFrom(s, delims, cur))
    decreases |s|
  {
    var ls := Lower(s);
    if s == [] {
      assert ls == [];
      assert Lower(cur) == [] <==> cur == [];
    } else {
      assert ls[0] == LowerChar(s[0]);
      assert ls[1..] == Lower(s[1..]);
      assert (ls[0] in delims) == (s[0] in delims);
      if s[0] in delims {
        SplitFromLower(s[1..], delims, []);
        assert Lower([]) == [];
        assert Lower(cur) == [] <==> cur == [];
        assert LowerAll(Flush(cur) + SplitFrom(s[1..], delims, []))
            == LowerAll(Flush(cur)) + LowerAll(SplitFrom(s[1..], delims, []));
      } else {
        SplitFromLower(s[1..], delims, cur + [s[0]]);
        assert Lower(cur + [s[0]]) == Lower(cur) + [ls[0]];
      }
    }
  }

  /** Lowercasing before splitting is lowercasing every token. */
  lemma SplitLower(s: string, delims: set<char>)
    requires NoLetters(delims)
    ensures Split(Lower(s), delims) == LowerAll(Split(s, delims))
  {
    assert Lower([]) == [];
    SplitFromLower(s, delims, []);
  }

  lemma LowerIdempotent(s: string)
    ensures Lower(Lower(s)) == Lower(s)
  {
  }

  // ---------------------------------------------------------------------------
  // Find
  // ---------------------------------------------------------------------------

  predicate OccursAt(s: string, pat: string, k: nat)
  {
    k + |pat| <= |s| && s[k..k + |pat|] == pat
  }

  /** `std::string::find(pat, from)`: the first occurrence at or after `from`. */
  function Find(s: string, pat: string, from: nat): (r: Option<nat>)
    ensures r.Some? ==> from <= r.value && OccursAt(s, pat, r.value)
    ensures r.Some? ==> forall j :: from <= j < r.value ==> !OccursAt(s, pat, j)
    ensures r.None? ==> forall j :: from <= j ==> !OccursAt(s, pat, j)
    decreases |s| - from
  {
    if from + |pat| > |s| then None
    else if OccursAt(s, pat, from) then Some(from)
    else Find(s, pat, from + 1)
  }

  /** `pat` occurs somewhere in `s`. */
  predicate Contains(s: string, pat: string)
  {
    exists k: nat | k <= |s| :: OccursAt(s, pat, k)
  }
}
