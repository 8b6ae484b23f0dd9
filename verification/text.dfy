/**
 * String helpers for the pipeline: character classes, ASCII lower-casing,
 * substring containment (Python's `in` on strings), `str.split()`,
 * `str.split(sep)`, `sep.join(...)`, `str.strip()` and list slicing `xs[:n]`.
 * Characters are taken to be ASCII; Unicode case mapping and Unicode
 * whitespace are not modelled.
 */
module Text {

  function Min(a: nat, b: nat): nat { if a <= b then a else b }

  predicate IsDigit(c: char) { '0' <= c <= '9' }

  predicate IsLetter(c: char) { 'a' <= c <= 'z' || 'A' <= c <= 'Z' }

  /** Whitespace as `str.isspace()` and the regex class `\s` see it, restricted to ASCII. */
  predicate IsSpace(c: char) {
    var n := c as int;
    n == 32 || 9 <= n <= 13 || 28 <= n <= 31
  }

  function LowerChar(c: char): char {
    if 'A' <= c <= 'Z' then (c as int + 32) as char else c
  }

  /** `str.lower()` on ASCII text. */
  function Lower(s: string): (r: string)
    ensures |r| == |s|
    ensures forall i :: 0 <= i < |s| ==> r[i] == LowerChar(s[i])
  {
    if s == [] then [] else [LowerChar(s[0])] + Lower(s[1..])
  }

  /** The character classes the scanners and the splitters use. */
  datatype CharClass = Digit | DigitOrComma | Letter | Space | NonSpace | CodeChar

  predicate InClass(k: CharClass, c: char) {
    match k
    case Digit => IsDigit(c)
    case DigitOrComma => IsDigit(c) || c == ','
    case Letter => IsLetter(c)
    case Space => IsSpace(c)
    case NonSpace => !IsSpace(c)
    case CodeChar => IsDigit(c) || IsLetter(c) || c == '-'
  }

  predicate AllIn(k: CharClass, s: string) {
    forall i :: 0 <= i < |s| ==> InClass(k, s[i])
  }

  /** The end of the longest run of class-`k` characters starting at `i`. */
  function RunEnd(k: CharClass, s: string, i: nat): (j: nat)
    requires i <= |s|
    ensures i <= j <= |s|
    ensures AllIn(k, s[i..j])
    ensures j < |s| ==> !InClass(k, s[j])
    decreases |s| - i
  {
    if i < |s| && InClass(k, s[i]) then RunEnd(k, s, i + 1) else i
  }

  /** `t` occurs in `s` starting at position `p`. */
  predicate OccursAt(s: string, t: string, p: nat) {
    p + |t| <= |s| && s[p..p + |t|] == t
  }

  /** Python's `t in s` for strings. */
  predicate Contains(s: string, t: string) {
    exists p: nat | p <= |s| :: OccursAt(s, t, p)
  }

  function Take<T>(xs: seq<T>, n: nat): (r: seq<T>)
    ensures |r| == Min(n, |xs|)
    ensures r == xs[..|r|]
  {
    xs[..Min(n, |xs|)]
  }

  /** A token of `str.split()`: non-empty and free of whitespace. */
  predicate IsWord(w: string) {
    |w| > 0 && AllIn(NonSpace, w)
  }

  /** `str.split()` with no argument: the maximal runs of non-whitespace characters. */
  function Words(s: string): (ws: seq<string>)
    ensures forall k :: 0 <= k < |ws| ==> IsWord(ws[k])
    decreases |s|
  {
    if s == [] then []
    else if IsSpace(s[0]) then Words(s[1..])
    else
      var k := RunEnd(NonSpace, s, 0);
      [s[..k]] + Words(s[k..])
  }

  function IndexOf(s: string, c: char): (k: nat)
    ensures k <= |s|
    ensures k < |s| ==> s[k] == c
    ensures forall i :: 0 <= i < k ==> s[i] != c
  {
    if s == [] then 0 else if s[0] == c then 0 else 1 + IndexOf(s[1..], c)
  }

  /** `s.split(c)`: the pieces between the occurrences of `c`, always at least one. */
  function SplitOn(s: string, c: char): (parts: seq<string>)
    ensures |parts| >= 1
    ensures forall k :: 0 <= k < |parts| ==> c !in parts[k]
    decreases |s|
  {
    var k := IndexOf(s, c);
    if k == |s| then [s] else [s[..k]] + SplitOn(s[k + 1..], c)
  }

  /** `sep.join(parts)`. */
  function Join(parts: seq<string>, sep: string): string {
    if |parts| == 0 then ""
    else if |parts| == 1 then parts[0]
    else parts[0] + sep + Join(parts[1..], sep)
  }

  function TrimStart(s: string): string {
    if s != [] && IsSpace(s[0]) then TrimStart(s[1..]) else s
  }

  function TrimEnd(s: string): string {
    if s != [] && IsSpace(s[|s| - 1]) then TrimEnd(s[..|s| - 1]) else s
  }

  /** `str.strip()` with no argument. */
  function Strip(s: string): string {
    TrimEnd(TrimStart(s))
  }

  /** Splitting on a character and joining back with it gives the text back. */
  lemma {:induction false} JoinSplitOn(s: string, c: char)
    ensures Join(SplitOn(s, c), [c]) == s
    decreases |s|
  {
    var k := IndexOf(s, c);
    if k < |s| {
      var rest := SplitOn(s[k + 1..], c);
      JoinSplitOn(s[k + 1..], c);
      assert SplitOn(s, c) == [s[..k]] + rest;
      assert ([s[..k]] + rest)[1..] == rest;
      assert s == s[..k] + [c] + s[k + 1..];
    }
  }

  /** Every piece of `s.split(c)` occurs in `s`. */
  lemma {:induction false} SplitOnPiecesOccur(s: string, c: char, k: nat)
    requires k < |SplitOn(s, c)|
    ensures exists q: nat :: q <= |s| && OccursAt(s, SplitOn(s, c)[k], q)
    decreases |s|
  {
    var i := IndexOf(s, c);
    if i == |s| {
      assert OccursAt(s, s, 0);
    } else if k == 0 {
      assert SplitOn(s, c)[0] == s[..i];
      assert OccursAt(s, s[..i], 0);
    } else {
      var rest := s[i + 1..];
      SplitOnPiecesOccur(rest, c, k - 1);
      var q: nat :| q <= |rest| && OccursAt(rest, SplitOn(rest, c)[k - 1], q);
      var piece := SplitOn(s, c)[k];
      assert piece == SplitOn(rest, c)[k - 1];
      assert s[i + 1 + q..i + 1 + q + |piece|] == rest[q..q + |piece|];
      assert OccursAt(s, piece, i + 1 + q);
    }
  }

  /** If `t` occurs in a part of `s`, it occurs in `s`. */
  lemma ContainsWithin(s: string, part: string, q: nat, t: string)
    requires OccursAt(s, part, q)
    requires Contains(part, t)
    ensures Contains(s, t)
  {
    var p: nat :| p <= |part| && OccursAt(part, t, p);
    forall i | 0 <= i < |t|
      ensures s[q + p + i] == t[i]
    {
      assert part[p + i] == t[i];
    }
    assert s[q + p..q + p + |t|] == t;
    assert OccursAt(s, t, q + p);
  }

  /**
   * A whitespace-free string that occurs in `s` occurs inside one of the
   * tokens of `s.split()`.
   */
  lemma {:induction false} ContainedInSomeWord(s: string, t: string)
    requires |t| > 0 && AllIn(NonSpace, t)
    requires Contains(s, t)
    ensures exists k :: 0 <= k < |Words(s)| && Contains(Words(s)[k], t)
    decreases |s|
  {
    var p: nat :| p <= |s| && OccursAt(s, t, p);
    assert s[p] == t[0];
    if IsSpace(s[0]) {
      assert p > 0;
      assert s[1..][p - 1..p - 1 + |t|] == t;
      assert OccursAt(s[1..], t, p - 1);
      ContainedInSomeWord(s[1..], t);
      assert Words(s) == Words(s[1..]);
    } else {
      var e := RunEnd(NonSpace, s, 0);
      var ws := Words(s);
      assert ws == [s[..e]] + Words(s[e..]);
      if p < e {
        assert p + |t| <= e;
        assert s[..e][p..p + |t|] == t;
        assert OccursAt(s[..e], t, p);
        assert Contains(ws[0], t);
      } else {
        assert s[e..][p - e..p - e + |t|] == t;
        assert OccursAt(s[e..], t, p - e);
        ContainedInSomeWord(s[e..], t);
        var k :| 0 <= k < |Words(s[e..])| && Contains(Words(s[e..])[k], t);
        assert ws[k + 1] == Words(s[e..])[k];
      }
    }
  }

  /** A string free of `c` that occurs in `s` occurs inside one of the pieces of `s.split(c)`. */
  lemma {:induction false} ContainedInSomePiece(s: string, c: char, t: string)
    requires c !in t
    requires Contains(s, t)
    ensures exists k :: 0 <= k < |SplitOn(s, c)| && Contains(SplitOn(s, c)[k], t)
    decreases |s|
  {
    var p: nat :| p <= |s| && OccursAt(s, t, p);
    var i := IndexOf(s, c);
    var parts := SplitOn(s, c);
    if i == |s| {
      assert parts[0] == s;
    } else {
      assert parts == [s[..i]] + SplitOn(s[i + 1..], c);
      if p + |t| <= i {
        assert s[..i][p..p + |t|] == s[p..p + |t|];
        assert OccursAt(parts[0], t, p);
      } else {
        assert p > i;
        var rest := s[i + 1..];
        assert rest[p - i - 1..p - i - 1 + |t|] == s[p..p + |t|];
        assert OccursAt(rest, t, p - i - 1);
        ContainedInSomePiece(rest, c, t);
        var k :| 0 <= k < |SplitOn(rest, c)| && Contains(SplitOn(rest, c)[k], t);
        assert parts[k + 1] == SplitOn(rest, c)[k];
      }
    }
  }

  /** A piece of a concatenation occurs in it, right after the pieces before it. */
  lemma ContainsPiece(a: string, b: string, c: string)
    ensures OccursAt(a + b + c, b, |a|)
    ensures Contains(a + b + c, b)
  {
    assert (a + b + c)[|a|..|a| + |b|] == b;
    assert OccursAt(a + b + c, b, |a|);
  }

  /** The concatenation of all the parts, in order. */
  function Concat(parts: seq<string>): string
    decreases |parts|
  {
    if parts == [] then "" else Concat(parts[..|parts| - 1]) + parts[|parts| - 1]
  }

  /** Each part occurs in the concatenation right after the parts before it. */
  lemma {:induction false} ConcatHoldsPart(parts: seq<string>, k: nat)
    requires k < |parts|
    ensures |Concat(parts[..k])| + |parts[k]| <= |Concat(parts)|
    ensures OccursAt(Concat(parts), parts[k], |Concat(parts[..k])|)
    ensures Contains(Concat(parts), parts[k])
    ensures k == |parts| - 1 ==> |Concat(parts)| == |Concat(parts[..k])| + |parts[k]|
    decreases |parts|
  {
    var init := parts[..|parts| - 1];
    var whole := Concat(parts);
    assert whole == Concat(init) + parts[|parts| - 1];
    if k == |parts| - 1 {
      assert whole[|Concat(init)|..|whole|] == parts[k];
    } else {
      ConcatHoldsPart(init, k);
      assert init[..k] == parts[..k];
      var q := |Concat(parts[..k])|;
      assert whole[q..q + |parts[k]|] == Concat(init)[q..q + |parts[k]|];
    }
    assert OccursAt(whole, parts[k], |Concat(parts[..k])|);
  }

  /** The first occurrence of `c` in `a + b` is where `b` starts, when `a` has none and `b` starts with it. */
  lemma IndexOfAfter(a: string, b: string, c: char)
    requires c !in a && |b| > 0 && b[0] == c
    ensures IndexOf(a + b, c) == |a|
  {
    var s := a + b;
    assert s[|a|] == c;
    assert forall i :: 0 <= i < |a| ==> s[i] == a[i];
  }

  /** Joined non-empty words start with the first word's first character and end with the last word's last character. */
  lemma {:induction false} JoinEnds(ws: seq<string>, sep: string)
    requires |ws| > 0
    requires forall k :: 0 <= k < |ws| ==> |ws[k]| > 0
    ensures |Join(ws, sep)| > 0
    ensures Join(ws, sep)[0] == ws[0][0]
    ensures Join(ws, sep)[|Join(ws, sep)| - 1] == ws[|ws| - 1][|ws[|ws| - 1]| - 1]
  {
    if |ws| > 1 {
      JoinEnds(ws[1..], sep);
    }
  }

  /** Stripping a string of joined `str.split()` tokens changes nothing. */
  lemma StripJoinedWords(ws: seq<string>)
    requires |ws| > 0
    requires forall k :: 0 <= k < |ws| ==> IsWord(ws[k])
    ensures Strip(Join(ws, " ")) == Join(ws, " ")
  {
    JoinEnds(ws, " ");
    var j := Join(ws, " ");
    assert !IsSpace(j[0]);
    assert !IsSpace(j[|j| - 1]);
  }
}
