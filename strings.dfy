/**
 * The handful of Python `str` operations the data preparation uses, on
 * `seq<char>`: `''.join`, `replace(c, '')`, `split(c)` and `c.join`,
 * `strip()`, ASCII `lower()`, and the line iteration of a text file.
 */
module Strings {

  /** Position of the first occurrence of `c` in `s`. */
  function IndexOf(s: string, c: char): (i: nat)
    requires c in s
    ensures i < |s| && s[i] == c
    ensures forall j :: 0 <= j < i ==> s[j] != c
  {
    if s[0] == c then 0 else IndexOf(s[1..], c) + 1
  }

  /** `''.join(parts)`: the pieces one after the other. */
  function Concat(parts: seq<string>): (r: string)
    ensures |parts| == 1 ==> r == parts[0]
  {
    if parts == [] then "" else parts[0] + Concat(parts[1..])
  }

  lemma ConcatCons(x: string, rest: seq<string>)
    ensures Concat([x] + rest) == x + Concat(rest)
  {
    assert ([x] + rest)[1..] == rest;
  }

  lemma {:induction false} ConcatAppend(a: seq<string>, b: seq<string>)
    ensures Concat(a + b) == Concat(a) + Concat(b)
  {
    if a == [] {
      assert a + b == b;
    } else {
      assert (a + b)[1..] == a[1..] + b;
      ConcatAppend(a[1..], b);
    }
  }

  /** `s.replace(c, '')`: `s` with every `c` deleted, the rest kept in order. */
  function RemoveChar(s: string, c: char): (r: string)
    ensures c !in r
  {
    if s == [] then ""
    else if s[0] == c then RemoveChar(s[1..], c) else [s[0]] + RemoveChar(s[1..], c)
  }

  /** Every `c` goes, and every other character stays as often as it occurs. */
  lemma {:induction false} RemoveCharCounts(s: string, c: char)
    ensures |RemoveChar(s, c)| == |s| - multiset(s)[c]
    ensures forall d :: d != c ==> multiset(RemoveChar(s, c))[d] == multiset(s)[d]
    decreases |s|
  {
    if s != [] {
      assert s == [s[0]] + s[1..];
      RemoveCharCounts(s[1..], c);
    }
  }

  /** Deleting `c` from a text of two parts deletes it from each, keeping their order. */
  lemma {:induction false} RemoveCharAppend(a: string, b: string, c: char)
    ensures RemoveChar(a + b, c) == RemoveChar(a, c) + RemoveChar(b, c)
    decreases |a|
  {
    if a == [] {
      assert a + b == b;
    } else {
      var ab := a + b;
      assert ab[0] == a[0] && ab[1..] == a[1..] + b;
      RemoveCharAppend(a[1..], b, c);
      if a[0] == c {
        assert RemoveChar(ab, c) == RemoveChar(a[1..] + b, c);
        assert RemoveChar(a, c) == RemoveChar(a[1..], c);
      } else {
        assert RemoveChar(ab, c) == [a[0]] + RemoveChar(a[1..] + b, c);
        assert RemoveChar(a, c) == [a[0]] + RemoveChar(a[1..], c);
      }
    }
  }

  /** A text without `c` is left as it is. */
  lemma {:induction false} RemoveCharAbsent(a: string, c: char)
    requires c !in a
    ensures RemoveChar(a, c) == a
    decreases |a|
  {
    if a != [] {
      assert a[1..] == a[1..] && c !in a[1..] by {
        assert forall j :: 0 <= j < |a[1..]| ==> a[1..][j] == a[j + 1];
      }
      RemoveCharAbsent(a[1..], c);
      assert a == [a[0]] + a[1..];
    }
  }

  /** `s.split(c)` for a one-character separator `c`; like Python, `"".split(c)` is `[""]`. */
  function Split(s: string, c: char): (r: seq<string>)
    ensures |r| >= 1
    decreases |s|
  {
    if c in s then
      var i := IndexOf(s, c);
      [s[..i]] + Split(s[i + 1..], c)
    else [s]
  }

  /** `c.join(parts)`. */
  function Join(parts: seq<string>, c: char): string
  {
    if |parts| == 0 then ""
    else if |parts| == 1 then parts[0]
    else parts[0] + [c] + Join(parts[1..], c)
  }

  lemma {:induction false} SplitPiecesFree(s: string, c: char)
    ensures forall p :: p in Split(s, c) ==> c !in p
    decreases |s|
  {
    if c in s {
      var i := IndexOf(s, c);
      var head := s[..i];
      assert c !in head by {
        assert forall j :: 0 <= j < |head| ==> head[j] == s[j];
      }
      SplitPiecesFree(s[i + 1..], c);
      assert Split(s, c) == [head] + Split(s[i + 1..], c);
    }
  }

  /** A character that `s` lacks is lacking from every piece of its split too. */
  lemma {:induction false} SplitPiecesAvoid(s: string, c: char, d: char)
    requires d !in s
    ensures forall p :: p in Split(s, c) ==> d !in p
    decreases |s|
  {
    if c in s {
      var i := IndexOf(s, c);
      var head, tail := s[..i], s[i + 1..];
      assert d !in head by {
        assert forall j :: 0 <= j < |head| ==> head[j] == s[j];
      }
      assert d !in tail by {
        assert forall j :: 0 <= j < |tail| ==> tail[j] == s[i + 1 + j];
      }
      SplitPiecesAvoid(tail, c, d);
      assert Split(s, c) == [head] + Split(tail, c);
    }
  }

  lemma {:induction false} SplitCount(s: string, c: char)
    ensures |Split(s, c)| == multiset(s)[c] + 1
    decreases |s|
  {
    if c in s {
      var i := IndexOf(s, c);
      assert s == s[..i] + [c] + s[i + 1..];
      assert multiset(s)[c] == multiset(s[..i])[c] + 1 + multiset(s[i + 1..])[c];
      SplitCount(s[i + 1..], c);
    } else {
      assert multiset(s)[c] == 0;
    }
  }

  lemma {:induction false} JoinSplit(s: string, c: char)
    ensures Join(Split(s, c), c) == s
    decreases |s|
  {
    if c in s {
      var i := IndexOf(s, c);
      var rest := Split(s[i + 1..], c);
      assert Split(s, c) == [s[..i]] + rest;
      assert ([s[..i]] + rest)[1..] == rest;
      JoinSplit(s[i + 1..], c);
      assert s == s[..i] + [c] + s[i + 1..];
    }
  }

  lemma {:induction false} SplitJoin(parts: seq<string>, c: char)
    requires |parts| >= 1
    requires forall p :: p in parts ==> c !in p
    ensures Split(Join(parts, c), c) == parts
  {
    if |parts| == 1 {
      assert c !in parts[0];
    } else {
      var p, tail := parts[0], Join(parts[1..], c);
      var s := p + [c] + tail;
      assert c !in p;
      assert s[|p|] == c;
      assert forall j :: 0 <= j < |p| ==> s[j] == p[j];
      assert IndexOf(s, c) == |p|;
      assert s[..|p|] == p;
      assert s[|p| + 1..] == tail;
      assert forall q :: q in parts[1..] ==> q in parts;
      SplitJoin(parts[1..], c);
      assert parts == [p] + parts[1..];
    }
  }

  /** The lines that iterating over a text file yields: each keeps its `'\n'`; a last line without one is kept too. */
  function Lines(t: string): seq<string>
    decreases |t|
  {
    if '\n' in t then
      var i := IndexOf(t, '\n');
      [t[..i + 1]] + Lines(t[i + 1..])
    else if t == "" then []
    else [t]
  }

  /** A line that ends in `'\n'` comes off the front of the text as one piece. */
  lemma LinesCons(x: string, rest: string)
    requires '\n' !in x
    ensures Lines(x + "\n" + rest) == [x + "\n"] + Lines(rest)
  {
    var t := x + "\n" + rest;
    assert t[|x|] == '\n';
    assert forall j :: 0 <= j < |x| ==> t[j] == x[j];
    assert IndexOf(t, '\n') == |x|;
    assert t[..|x| + 1] == x + "\n";
    assert t[|x| + 1..] == rest;
  }

  /** What Python's `str.isspace` says of one character. */
  predicate IsSpace(ch: char)
  {
    var n := ch as int;
    (9 <= n <= 13) || (28 <= n <= 32) || n == 0x85 || n == 0xA0 || n == 0x1680
    || (0x2000 <= n <= 0x200A) || n == 0x2028 || n == 0x2029 || n == 0x202F
    || n == 0x205F || n == 0x3000
  }

  function StripStart(s: string): (r: string)
    ensures r == [] || !IsSpace(r[0])
    ensures |r| <= |s| && r == s[|s| - |r|..]
  {
    if s != [] && IsSpace(s[0]) then StripStart(s[1..]) else s
  }

  function StripEnd(s: string): (r: string)
    ensures r == [] || !IsSpace(r[|r| - 1])
    ensures |r| <= |s| && r == s[..|r|]
  {
    if s != [] && IsSpace(s[|s| - 1]) then StripEnd(s[..|s| - 1]) else s
  }

  /** `s.strip()`: `s` without its leading and trailing whitespace. */
  function Strip(s: string): (r: string)
    ensures r == [] || (!IsSpace(r[0]) && !IsSpace(r[|r| - 1]))
  {
    StripEnd(StripStart(s))
  }

  function LowerChar(ch: char): char
  {
    if 'A' <= ch <= 'Z' then (ch as int + 32) as char else ch
  }

  /** `s.lower()` for ASCII letters; every other character is kept. */
  function Lower(s: string): (r: string)
    ensures |r| == |s|
  {
    seq(|s|, i requires 0 <= i < |s| => LowerChar(s[i]))
  }
}
