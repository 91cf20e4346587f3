/**
 * The pieces of Python's str API the drivers rely on, over ASCII text:
 * str.strip(), str.split() (runs of whitespace) and str.split(sep).
 */
module Text {

  /** Python's str.isspace() for an ASCII character: space, \t \n \v \f \r and \x1c..\x1f. */
  predicate IsSpace(c: char) {
    var k := c as int;
    k == 32 || 9 <= k <= 13 || 28 <= k <= 31
  }

  predicate NoSpace(s: string) {
    forall i :: 0 <= i < |s| ==> !IsSpace(s[i])
  }

  /** Leading whitespace removed. */
  function TrimStart(s: string): (r: string)
    ensures |r| <= |s|
    ensures r == [] || !IsSpace(r[0])
  {
    if s != [] && IsSpace(s[0]) then TrimStart(s[1..]) else s
  }

  /** TrimStart keeps a suffix of s. */
  lemma {:induction false} TrimStartSuffix(s: string)
    ensures TrimStart(s) == s[|s| - |TrimStart(s)|..]
  {
    if s != [] && IsSpace(s[0]) {
      TrimStartSuffix(s[1..]);
    }
  }

  /** What TrimStart removes is whitespace. */
  lemma {:induction false} TrimStartDropsSpace(s: string)
    ensures forall i :: 0 <= i < |s| - |TrimStart(s)| ==> IsSpace(s[i])
  {
    if s != [] && IsSpace(s[0]) {
      TrimStartDropsSpace(s[1..]);
      forall i | 1 <= i < |s| - |TrimStart(s)| ensures IsSpace(s[i]) {
        assert s[i] == s[1..][i - 1];
      }
    }
  }

  /** Trailing whitespace removed. */
  function TrimEnd(s: string): (r: string)
    ensures |r| <= |s|
    ensures r == [] || !IsSpace(r[|r| - 1])
    ensures r == [] || r[0] == s[0]
  {
    if s != [] && IsSpace(s[|s| - 1]) then TrimEnd(s[..|s| - 1]) else s
  }

  /** TrimEnd keeps a prefix of s. */
  lemma {:induction false} TrimEndPrefix(s: string)
    ensures TrimEnd(s) == s[..|TrimEnd(s)|]
  {
    if s != [] && IsSpace(s[|s| - 1]) {
      TrimEndPrefix(s[..|s| - 1]);
    }
  }

  /** What TrimEnd removes is whitespace. */
  lemma {:induction false} TrimEndDropsSpace(s: string)
    ensures forall i :: |TrimEnd(s)| <= i < |s| ==> IsSpace(s[i])
  {
    if s != [] && IsSpace(s[|s| - 1]) {
      TrimEndDropsSpace(s[..|s| - 1]);
    }
  }

  /** Python's s.strip(). */
  function Strip(s: string): (r: string)
    ensures |r| <= |s|
    ensures r == [] || (!IsSpace(r[0]) && !IsSpace(r[|r| - 1]))
    ensures s == [] || (!IsSpace(s[0]) && !IsSpace(s[|s| - 1])) ==> r == s
  {
    TrimEnd(TrimStart(s))
  }

  /** strip() leaves a piece of s, and yields the empty string exactly when s is all whitespace. */
  lemma StripEmpty(s: string)
    ensures Strip(s) == [] <==> forall i :: 0 <= i < |s| ==> IsSpace(s[i])
  {
    TrimStartDropsSpace(s);
    TrimStartSuffix(s);
    TrimEndDropsSpace(TrimStart(s));
    var t := TrimStart(s);
    forall i | 0 <= i < |t| ensures t[i] == s[|s| - |t| + i] {
    }
  }

  /** strip() of t padded with whitespace on both sides is t, when t has no whitespace at its ends. */
  lemma {:induction false} StripPadded(pre: string, t: string, post: string)
    requires forall i :: 0 <= i < |pre| ==> IsSpace(pre[i])
    requires forall i :: 0 <= i < |post| ==> IsSpace(post[i])
    requires t != [] && !IsSpace(t[0]) && !IsSpace(t[|t| - 1])
    ensures Strip(pre + t + post) == t
  {
    TrimStartPadded(pre, t + post);
    assert pre + t + post == pre + (t + post);
    TrimEndPadded(t, post);
  }

  lemma {:induction false} TrimStartPadded(pre: string, s: string)
    requires forall i :: 0 <= i < |pre| ==> IsSpace(pre[i])
    requires s != [] && !IsSpace(s[0])
    ensures TrimStart(pre + s) == s
  {
    if pre != [] {
      assert (pre + s)[1..] == pre[1..] + s;
      TrimStartPadded(pre[1..], s);
    } else {
      assert pre + s == s;
    }
  }

  lemma {:induction false} TrimEndPadded(s: string, post: string)
    requires forall i :: 0 <= i < |post| ==> IsSpace(post[i])
    requires s != [] && !IsSpace(s[|s| - 1])
    decreases |post|
    ensures TrimEnd(s + post) == s
  {
    if post != [] {
      var u := s + post;
      assert u[|u| - 1] == post[|post| - 1];
      assert u[..|u| - 1] == s + post[..|post| - 1];
      TrimEndPadded(s, post[..|post| - 1]);
    } else {
      assert s + post == s;
    }
  }

  /** The longest prefix of s that holds no whitespace. */
  function Word(s: string): (w: string)
    ensures |w| <= |s| && w == s[..|w|] && NoSpace(w)
    ensures s != [] && !IsSpace(s[0]) ==> w != []
  {
    if s == [] || IsSpace(s[0]) then [] else [s[0]] + Word(s[1..])
  }

  /** A token as str.split() yields it: non-empty, without whitespace. */
  predicate Solid(t: string) {
    t != [] && NoSpace(t)
  }

  /** Python's s.split() with no separator: the maximal runs of non-whitespace, in order. */
  function Tokens(s: string): (ts: seq<string>)
    ensures forall k :: 0 <= k < |ts| ==> Solid(ts[k])
    decreases |s|
  {
    if s == [] then []
    else if IsSpace(s[0]) then Tokens(s[1..])
    else
      var w := Word(s);
      [w] + Tokens(s[|w|..])
  }

  /** split() of the empty string has no tokens. */
  lemma TokensEmpty()
    ensures Tokens("") == []
  {
  }

  /** split() of a single token is that token. */
  lemma TokensOfSolid(t: string)
    requires Solid(t)
    ensures Tokens(t) == [t]
  {
    WordOfNoSpace(t, []);
    assert t + [] == t;
    assert t[|t|..] == [];
  }

  /** A word ends at the first whitespace, wherever it comes. */
  lemma {:induction false} WordBeforeSpace(x: string, c: char, y: string)
    requires IsSpace(c)
    ensures Word(x + [c] + y) == Word(x)
  {
    if x != [] && !IsSpace(x[0]) {
      assert (x + [c] + y)[1..] == x[1..] + [c] + y;
      WordBeforeSpace(x[1..], c, y);
    }
  }

  /**
   * Any whitespace character separates tokens: split() of x, a whitespace
   * character, then y is the tokens of x followed by the tokens of y. With
   * TokensEmpty and TokensOfSolid this fixes split() on every string, whatever
   * runs of whitespace it has and wherever they are.
   */
  lemma {:induction false} TokensSplitAtSpace(x: string, c: char, y: string)
    requires IsSpace(c)
    decreases |x|
    ensures Tokens(x + [c] + y) == Tokens(x) + Tokens(y)
  {
    var s := x + [c] + y;
    if x == [] {
      assert s == [c] + y && s[1..] == y;
    } else if IsSpace(x[0]) {
      assert s[1..] == x[1..] + [c] + y;
      TokensSplitAtSpace(x[1..], c, y);
    } else {
      WordBeforeSpace(x, c, y);
      var w := Word(x);
      assert s[|w|..] == x[|w|..] + [c] + y;
      TokensSplitAtSpace(x[|w|..], c, y);
    }
  }

  /** The tokens joined by single spaces: the inverse of Tokens on well-formed tokens. */
  function Unwords(ts: seq<string>): string {
    if ts == [] then ""
    else if |ts| == 1 then ts[0]
    else ts[0] + " " + Unwords(ts[1..])
  }

  lemma {:induction false} WordOfNoSpace(t: string, rest: string)
    requires NoSpace(t) && (rest == [] || IsSpace(rest[0]))
    ensures Word(t + rest) == t
  {
    if t != [] {
      assert (t + rest)[1..] == t[1..] + rest;
      WordOfNoSpace(t[1..], rest);
    }
  }

  /** Splitting single-space-joined tokens gives the tokens back. */
  lemma {:induction false} TokensOfUnwords(ts: seq<string>)
    requires forall k :: 0 <= k < |ts| ==> Solid(ts[k])
    ensures Tokens(Unwords(ts)) == ts
  {
    if |ts| == 1 {
      var t := ts[0];
      WordOfNoSpace(t, []);
      assert t + [] == t;
      assert t[|t|..] == [];
    } else if |ts| > 1 {
      var t, rest := ts[0], Unwords(ts[1..]);
      var s := t + " " + rest;
      assert s == t + (" " + rest);
      WordOfNoSpace(t, " " + rest);
      assert s[|t|..] == [' '] + rest;
      assert ([' '] + rest)[1..] == rest;
      TokensOfUnwords(ts[1..]);
    }
  }

  /** Number of occurrences of c in s. */
  function Count(s: string, c: char): nat {
    if s == [] then 0 else (if s[0] == c then 1 else 0) + Count(s[1..], c)
  }

  /** sep.join(parts) */
  function JoinWith(parts: seq<string>, sep: char): string {
    if parts == [] then ""
    else if |parts| == 1 then parts[0]
    else parts[0] + [sep] + JoinWith(parts[1..], sep)
  }

  /** Python's s.split(sep) for a one-character separator: empty fields are kept. */
  function SplitOn(s: string, sep: char): (parts: seq<string>)
    ensures |parts| == Count(s, sep) + 1
    ensures forall k :: 0 <= k < |parts| ==> sep !in parts[k]
    ensures JoinWith(parts, sep) == s
  {
    if s == [] then [[]]
    else
      var rest := SplitOn(s[1..], sep);
      if s[0] == sep then
        assert s == [sep] + s[1..];
        [[]] + rest
      else
        var parts := [[s[0]] + rest[0]] + rest[1..];
        assert parts[1..] == rest[1..];
        assert JoinWith(parts, sep) == [s[0]] + JoinWith(rest, sep) by {
          if |rest| > 1 {
            assert JoinWith(rest, sep) == rest[0] + [sep] + JoinWith(rest[1..], sep);
          }
        }
        assert s == [s[0]] + s[1..];
        parts
  }

  lemma {:induction false} SplitOnField(p: string, sep: char, rest: string)
    requires sep !in p
    ensures SplitOn(p + [sep] + rest, sep) == [p] + SplitOn(rest, sep)
  {
    if p != [] {
      assert (p + [sep] + rest)[1..] == p[1..] + [sep] + rest;
      SplitOnField(p[1..], sep, rest);
      assert [p[0]] + p[1..] == p;
    } else {
      assert (p + [sep] + rest)[1..] == rest;
    }
  }

  lemma {:induction false} SplitOnNoSep(p: string, sep: char)
    requires sep !in p
    ensures SplitOn(p, sep) == [p]
  {
    if p != [] {
      SplitOnNoSep(p[1..], sep);
      assert [p[0]] + p[1..] == p;
    }
  }

  /** Splitting separator-free fields joined by the separator gives the fields back. */
  lemma {:induction false} SplitOnJoinWith(parts: seq<string>, sep: char)
    requires |parts| >= 1
    requires forall k :: 0 <= k < |parts| ==> sep !in parts[k]
    ensures SplitOn(JoinWith(parts, sep), sep) == parts
  {
    if |parts| == 1 {
      SplitOnNoSep(parts[0], sep);
    } else {
      SplitOnJoinWith(parts[1..], sep);
      SplitOnField(parts[0], sep, JoinWith(parts[1..], sep));
    }
  }
}
