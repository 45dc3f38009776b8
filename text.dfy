/**
 * The Python string primitives the message router relies on: `str.isspace`,
 * `str.lower`, `str.startswith`, the `in` substring test, `str.strip`,
 * `str.split()` and `str.split(maxsplit=1)`.
 */
module Text {

  /** Python's `str.isspace()` on a single character. */
  predicate IsSpace(c: char) {
    var n := c as int;
    n == 0x20 || 0x09 <= n <= 0x0D || 0x1C <= n <= 0x1F || n == 0x85 || n == 0xA0
    || n == 0x1680 || 0x2000 <= n <= 0x200A || n == 0x2028 || n == 0x2029
    || n == 0x202F || n == 0x205F || n == 0x3000
  }

  /** Lower-casing of one character; only the ASCII letters are mapped. */
  function LowerChar(c: char): char {
    if 'A' <= c <= 'Z' then (c as int + 32) as char else c
  }

  /** `s.lower()` */
  function Lower(s: string): string {
    seq(|s|, i requires 0 <= i < |s| => LowerChar(s[i]))
  }

  /** `s.startswith(p)` */
  predicate StartsWith(s: string, p: string) {
    |p| <= |s| && s[..|p|] == p
  }

  /** `p` occurs in `s` starting at index `i`. */
  predicate OccursAt(s: string, p: string, i: int) {
    0 <= i <= |s| - |p| && s[i..i + |p|] == p
  }

  /** `p in s`, computed by scanning `s` from the left. */
  predicate Contains(s: string, p: string)
    decreases |s|
  {
    StartsWith(s, p) || (|s| > 0 && Contains(s[1..], p))
  }

  /** The scanning definition agrees with "occurs at some index". */
  lemma {:induction false} ContainsIff(s: string, p: string)
    ensures Contains(s, p) <==> exists i :: OccursAt(s, p, i)
  {
    if StartsWith(s, p) {
      assert OccursAt(s, p, 0);
    } else if |s| == 0 {
    } else {
      ContainsIff(s[1..], p);
      if exists i :: OccursAt(s[1..], p, i) {
        var i :| OccursAt(s[1..], p, i);
        assert s[i + 1..i + 1 + |p|] == s[1..][i..i + |p|];
        assert OccursAt(s, p, i + 1);
      }
      if exists i :: OccursAt(s, p, i) {
        var i :| OccursAt(s, p, i);
        assert i != 0;
        assert s[1..][i - 1..i - 1 + |p|] == s[i..i + |p|];
        assert OccursAt(s[1..], p, i - 1);
      }
    }
  }

  /** A whitespace-free, non-empty word, as `str.split()` produces. */
  predicate IsToken(w: string) {
    |w| > 0 && forall i :: 0 <= i < |w| ==> !IsSpace(w[i])
  }

  /** `s.lstrip()`: drops leading whitespace, so what is left starts with a non-space. */
  function TrimLeft(s: string): (r: string)
    ensures |r| <= |s|
    ensures r == [] || !IsSpace(r[0])
  {
    if s != [] && IsSpace(s[0]) then TrimLeft(s[1..]) else s
  }

  /** `lstrip()` leaves a suffix of `s` and removes only whitespace. */
  lemma {:induction false} TrimLeftSuffix(s: string)
    ensures TrimLeft(s) == s[|s| - |TrimLeft(s)|..]
    ensures forall i :: 0 <= i < |s| - |TrimLeft(s)| ==> IsSpace(s[i])
  {
    if s != [] && IsSpace(s[0]) {
      TrimLeftSuffix(s[1..]);
      assert s[1..][|s| - 1 - |TrimLeft(s)|..] == s[|s| - |TrimLeft(s)|..];
      forall i | 0 < i < |s| - |TrimLeft(s)|
        ensures IsSpace(s[i])
      {
        assert s[i] == s[1..][i - 1];
      }
    }
  }

  /** `s.rstrip()`: drops trailing whitespace, so what is left ends with a non-space. */
  function TrimRight(s: string): (r: string)
    ensures |r| <= |s|
    ensures r == [] || !IsSpace(r[|r| - 1])
  {
    if s != [] && IsSpace(s[|s| - 1]) then TrimRight(s[..|s| - 1]) else s
  }

  /** `rstrip()` leaves a prefix of `s` and removes only whitespace. */
  lemma {:induction false} TrimRightPrefix(s: string)
    ensures TrimRight(s) == s[..|TrimRight(s)|]
    ensures forall i :: |TrimRight(s)| <= i < |s| ==> IsSpace(s[i])
  {
    if s != [] && IsSpace(s[|s| - 1]) {
      TrimRightPrefix(s[..|s| - 1]);
      assert s[..|s| - 1][..|TrimRight(s)|] == s[..|TrimRight(s)|];
      forall i | |TrimRight(s)| <= i < |s| - 1
        ensures IsSpace(s[i])
      {
        assert s[i] == s[..|s| - 1][i];
      }
    }
  }

  /** `s.strip()` */
  function Strip(s: string): string {
    TrimRight(TrimLeft(s))
  }

  /** The length of the maximal whitespace-free prefix of `s`: it stops at whitespace or the end. */
  function TokenLen(s: string): (k: nat)
    ensures k <= |s|
    ensures k < |s| ==> IsSpace(s[k])
  {
    if s != [] && !IsSpace(s[0]) then 1 + TokenLen(s[1..]) else 0
  }

  /** The prefix `TokenLen` measures is whitespace-free, so a word when non-empty. */
  lemma {:induction false} TokenLenPrefix(s: string)
    ensures forall i :: 0 <= i < TokenLen(s) ==> !IsSpace(s[i])
    ensures s != [] && !IsSpace(s[0]) ==> IsToken(s[..TokenLen(s)])
  {
    if s != [] && !IsSpace(s[0]) {
      TokenLenPrefix(s[1..]);
      forall i | 0 < i < TokenLen(s)
        ensures !IsSpace(s[i])
      {
        assert s[i] == s[1..][i - 1];
      }
    }
  }

  /** `s.split()`: the maximal runs of non-whitespace characters, in order. */
  function Split(s: string): seq<string>
    decreases |s|
  {
    var t := TrimLeft(s);
    if t == [] then []
    else
      var k := TokenLen(t);
      [t[..k]] + Split(t[k..])
  }

  /** Every word `split()` returns is non-empty and free of whitespace. */
  lemma {:induction false} SplitTokens(s: string)
    ensures forall i :: 0 <= i < |Split(s)| ==> IsToken(Split(s)[i])
    decreases |s|
  {
    var t := TrimLeft(s);
    if t != [] {
      TokenLenPrefix(t);
      SplitTokens(t[TokenLen(t)..]);
    }
  }

  /** The first whitespace-delimited word of `s`, or "" when there is none. */
  function FirstWord(s: string): string {
    if s == [] then []
    else if IsSpace(s[0]) then FirstWord(s[1..])
    else s[..TokenLen(s)]
  }

  /** `FirstWord(s)` is `s.split()[0]`, and "" exactly when `s.split()` is empty. */
  lemma {:induction false} FirstWordOfSplit(s: string)
    ensures FirstWord(s) == [] <==> Split(s) == []
    ensures Split(s) != [] ==> FirstWord(s) == Split(s)[0]
  {
    if s != [] && IsSpace(s[0]) {
      FirstWordOfSplit(s[1..]);
      assert TrimLeft(s) == TrimLeft(s[1..]);
    }
  }

  /**
   * `s.split(maxsplit=1)`: the first word and, when anything but whitespace
   * follows it, the rest of the string with its leading whitespace removed.
   */
  function SplitOnce(s: string): (r: seq<string>)
    ensures |r| <= 2
    ensures |r| >= 1 ==> IsToken(r[0])
    ensures |r| == 2 ==> r[1] != [] && !IsSpace(r[1][0])
  {
    var t := TrimLeft(s);
    if t == [] then []
    else
      var k := TokenLen(t);
      var word := t[..k];
      TokenLenPrefix(t);
      var rest := TrimLeft(t[k..]);
      if rest == [] then [word] else [word, rest]
  }

  /** Words joined by single spaces: `" ".join(ws)`. */
  function Join(ws: seq<string>): string {
    if ws == [] then ""
    else if |ws| == 1 then ws[0]
    else ws[0] + " " + Join(ws[1..])
  }

  /** Joined words begin with the first word's first character and end with the last word's last one. */
  lemma {:induction false} JoinEnds(ws: seq<string>)
    requires |ws| > 0 && forall i :: 0 <= i < |ws| ==> IsToken(ws[i])
    ensures |Join(ws)| > 0
    ensures ws[0] != [] && Join(ws)[0] == ws[0][0]
    ensures ws[|ws| - 1] != [] && Join(ws)[|Join(ws)| - 1] == ws[|ws| - 1][|ws[|ws| - 1]| - 1]
  {
    if |ws| > 1 {
      JoinEnds(ws[1..]);
    }
  }

  /** A word followed by whitespace or by nothing is one token long. */
  lemma {:induction false} TokenLenOfWord(w: string, rest: string)
    requires forall i :: 0 <= i < |w| ==> !IsSpace(w[i])
    requires rest == [] || IsSpace(rest[0])
    ensures TokenLen(w + rest) == |w|
  {
    if w != [] {
      assert (w + rest)[1..] == w[1..] + rest;
      TokenLenOfWord(w[1..], rest);
    }
  }

  /** Text that starts with a non-space is unchanged by `lstrip`. */
  lemma TrimLeftNoop(s: string)
    requires s == [] || !IsSpace(s[0])
    ensures TrimLeft(s) == s
  {
  }

  /** A string with no surrounding whitespace is its own `strip()`. */
  lemma StripNoop(s: string)
    requires s == [] || (!IsSpace(s[0]) && !IsSpace(s[|s| - 1]))
    ensures Strip(s) == s
  {
    TrimLeftNoop(s);
  }

  /** Splitting the words joined by spaces gives the words back. */
  lemma {:induction false} SplitJoin(ws: seq<string>)
    requires forall i :: 0 <= i < |ws| ==> IsToken(ws[i])
    ensures Split(Join(ws)) == ws
  {
    if ws == [] {
    } else if |ws| == 1 {
      assert ws[0] + [] == ws[0];
      SplitCons(ws[0], []);
    } else {
      var rest := Join(ws[1..]);
      var tail := " " + rest;
      assert Join(ws) == ws[0] + tail;
      SplitCons(ws[0], tail);
      SplitLeadingSpace(rest);
      var more := ws[1..];
      assert forall i :: 0 <= i < |more| ==> IsToken(more[i]) by {
        forall i | 0 <= i < |more| ensures IsToken(more[i]) {
          assert more[i] == ws[i + 1];
        }
      }
      SplitJoin(more);
      assert ws == [ws[0]] + more;
    }
  }

  /** A word followed by whitespace or nothing is split off first. */
  lemma SplitCons(w: string, rest: string)
    requires IsToken(w)
    requires rest == [] || IsSpace(rest[0])
    ensures Split(w + rest) == [w] + Split(rest)
  {
    var s := w + rest;
    TrimLeftNoop(s);
    TokenLenOfWord(w, rest);
    assert s[..|w|] == w;
    assert s[|w|..] == rest;
  }

  /** A leading space does not change the words. */
  lemma SplitLeadingSpace(x: string)
    ensures Split(" " + x) == Split(x)
  {
    var s := " " + x;
    assert IsSpace(s[0]) && s[1..] == x;
    assert TrimLeft(s) == TrimLeft(x);
  }

  /** A word, one space, and a rest that starts with a non-space character. */
  lemma SplitOnceOfPair(w: string, rest: string)
    requires IsToken(w)
    requires rest != [] && !IsSpace(rest[0])
    ensures SplitOnce(w + " " + rest) == [w, rest]
  {
    var tail := " " + rest;
    var s := w + tail;
    assert s == w + " " + rest;
    TrimLeftNoop(s);
    TokenLenOfWord(w, tail);
    assert s[..|w|] == w;
    assert s[|w|..] == tail;
    TrimLeftNoop(rest);
    assert TrimLeft(tail) == rest;
  }

  /** Characters that are not whitespace survive `lstrip()`. */
  lemma {:induction false} TrimLeftKeeps(s: string, c: char)
    requires c in s && !IsSpace(c)
    ensures c in TrimLeft(s)
  {
    if s != [] && IsSpace(s[0]) {
      assert c in s[1..];
      TrimLeftKeeps(s[1..], c);
    }
  }

  /** Characters that are not whitespace survive `rstrip()`. */
  lemma {:induction false} TrimRightKeeps(s: string, c: char)
    requires c in s && !IsSpace(c)
    ensures c in TrimRight(s)
  {
    if s != [] && IsSpace(s[|s| - 1]) {
      assert c in s[..|s| - 1];
      TrimRightKeeps(s[..|s| - 1], c);
    }
  }

  /** Characters that are not whitespace survive `strip()`. */
  lemma StripKeeps(s: string, c: char)
    requires c in s && !IsSpace(c)
    ensures c in Strip(s)
  {
    TrimLeftKeeps(s, c);
    TrimRightKeeps(TrimLeft(s), c);
  }

  /** Lower-casing never turns whitespace into a letter or back. */
  lemma LowerCharSpace(c: char)
    ensures IsSpace(LowerChar(c)) <==> IsSpace(c)
  {
  }

  /** Lower-casing distributes over concatenation. */
  lemma LowerConcat(a: string, b: string)
    ensures Lower(a + b) == Lower(a) + Lower(b)
  {
    assert forall i :: 0 <= i < |a + b| ==> Lower(a + b)[i] == (Lower(a) + Lower(b))[i];
  }

  /** `s.lower().lower() == s.lower()` */
  lemma LowerIdempotent(s: string)
    ensures Lower(Lower(s)) == Lower(s)
  {
  }
}
