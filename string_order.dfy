/**
 * Python's ordering of `str` values (code point by code point; a proper
 * prefix comes first) and `sorted(set(xs))` over it.
 */
module StringOrder {

  /** `a < b` on Python strings. */
  predicate Less(a: string, b: string)
    decreases |a|
  {
    |b| > 0 && (|a| == 0 || (if a[0] == b[0] then Less(a[1..], b[1..]) else a[0] < b[0]))
  }

  lemma {:induction false} LessIrreflexive(a: string)
    ensures !Less(a, a)
    decreases |a|
  {
    if |a| > 0 {
      LessIrreflexive(a[1..]);
    }
  }

  lemma {:induction false} LessTransitive(a: string, b: string, c: string)
    requires Less(a, b) && Less(b, c)
    ensures Less(a, c)
    decreases |a|
  {
    if |a| > 0 && a[0] == b[0] && b[0] == c[0] {
      LessTransitive(a[1..], b[1..], c[1..]);
    }
  }

  lemma {:induction false} LessTotal(a: string, b: string)
    requires a != b
    ensures Less(a, b) || Less(b, a)
    decreases |a|
  {
    if |a| > 0 && |b| > 0 && a[0] == b[0] {
      assert a == [a[0]] + a[1..] && b == [b[0]] + b[1..];
      LessTotal(a[1..], b[1..]);
    }
  }

  /** Strictly increasing, hence also free of duplicates. */
  predicate StrictlySorted(s: seq<string>)
  {
    forall i, j :: 0 <= i < j < |s| ==> Less(s[i], s[j])
  }

  /** The elements of `xs`, each once. */
  function Elements(xs: seq<string>): set<string>
  {
    set i | 0 <= i < |xs| :: xs[i]
  }

  lemma ElementsCons(x: string, s: seq<string>)
    ensures Elements([x] + s) == {x} + Elements(s)
  {
    var r := [x] + s;
    forall y ensures y in Elements(r) <==> y == x || y in Elements(s) {
      if y in Elements(r) {
        var i :| 0 <= i < |r| && r[i] == y;
        if i > 0 { assert s[i - 1] == y; }
      }
      if y in Elements(s) {
        var i :| 0 <= i < |s| && s[i] == y;
        assert r[i + 1] == y;
      }
      if y == x { assert r[0] == y; }
    }
  }

  lemma ElementsHead(s: seq<string>)
    ensures |s| > 0 ==> s[0] in Elements(s)
  {
  }

  /** `x` put into its place in a strictly sorted list, unless it is already there. */
  function Insert(x: string, s: seq<string>): (r: seq<string>)
    requires StrictlySorted(s)
    ensures StrictlySorted(r)
    ensures Elements(r) == Elements(s) + {x}
  {
    if s == [] then
      ElementsCons(x, []);
      [x]
    else if x == s[0] then s
    else if Less(x, s[0]) then
      var r := [x] + s;
      forall j | 0 < j < |r| ensures Less(r[0], r[j]) {
        if j > 1 { LessTransitive(x, s[0], r[j]); }
      }
      ElementsCons(x, s);
      r
    else
      LessTotal(x, s[0]);
      var t := Insert(x, s[1..]);
      var r := [s[0]] + t;
      forall k | 0 <= k < |t| ensures Less(s[0], t[k]) {
        assert t[k] in Elements(t);
        if t[k] != x {
          var m :| 0 <= m < |s[1..]| && s[1..][m] == t[k];
          assert s[m + 1] == t[k];
        }
      }
      assert s == [s[0]] + s[1..];
      ElementsCons(s[0], s[1..]);
      ElementsCons(s[0], t);
      r
  }

  /** `sorted(set(xs))`. */
  function SortedSet(xs: seq<string>): (r: seq<string>)
    ensures StrictlySorted(r)
    ensures Elements(r) == Elements(xs)
    decreases |xs|
  {
    if xs == [] then []
    else
      var init := xs[..|xs| - 1];
      assert Elements(xs) == Elements(init) + {xs[|xs| - 1]} by {
        assert xs == init + [xs[|xs| - 1]];
      }
      Insert(xs[|xs| - 1], SortedSet(init))
  }

  /**
   * A strictly sorted list is determined by its elements: whatever order a
   * Python `set` happens to iterate in, `sorted` of it is this one list.
   */
  lemma {:induction false} StrictlySortedUnique(a: seq<string>, b: seq<string>)
    requires StrictlySorted(a) && StrictlySorted(b)
    requires Elements(a) == Elements(b)
    ensures a == b
    decreases |a|
  {
    if a != [] {
      assert a[0] in Elements(b);
      assert b != [];
      assert b[0] in Elements(a);
      var k :| 0 <= k < |b| && b[k] == a[0];
      var m :| 0 <= m < |a| && a[m] == b[0];
      if k > 0 {
        if m == 0 {
          LessIrreflexive(b[0]);
        } else {
          LessTransitive(b[0], b[k], b[0]);
          LessIrreflexive(b[0]);
        }
      }
      assert a[0] == b[0];
      assert Elements(a[1..]) == Elements(a) - {a[0]} by {
        forall i | 0 < i < |a| ensures a[i] != a[0] {
          LessIrreflexive(a[0]);
        }
        assert a == [a[0]] + a[1..];
        ElementsCons(a[0], a[1..]);
      }
      assert Elements(b[1..]) == Elements(b) - {b[0]} by {
        forall i | 0 < i < |b| ensures b[i] != b[0] {
          LessIrreflexive(b[0]);
        }
        assert b == [b[0]] + b[1..];
        ElementsCons(b[0], b[1..]);
      }
      StrictlySortedUnique(a[1..], b[1..]);
    } else {
      ElementsHead(b);
    }
  }
}
