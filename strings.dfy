/**
 * The string operations the theme borrows from Swift's standard library:
 * the ordering used by `Set<Tag>.sorted()` and `String.lowercased()`.
 */
module Strings {

  /** Strict lexicographic order by character code: Swift's `<` on strings. */
  predicate Less(a: string, b: string)
    decreases |a|
  {
    if |a| == 0 then |b| > 0
    else if |b| == 0 then false
    else if a[0] < b[0] then true
    else a[0] == b[0] && Less(a[1..], b[1..])
  }

  lemma {:induction false} LessIrreflexive(a: string)
    ensures !Less(a, a)
    decreases |a|
  {
    if |a| > 0 {
      LessIrreflexive(a[1..]);
    }
  }

  lemma {:induction false} LessTransitive(a: string, b: string, c: string)
    requires Less(a, b) && Less(b, c)
    ensures Less(a, c)
    decreases |a|
  {
    if |a| > 0 && |b| > 0 && |c| > 0 && a[0] == b[0] && b[0] == c[0] {
      LessTransitive(a[1..], b[1..], c[1..]);
    }
  }

  /** Any two different strings are ordered one way or the other. */
  lemma {:induction false} LessTotal(a: string, b: string)
    requires a != b
    ensures Less(a, b) || Less(b, a)
    decreases |a|
  {
    if |a| > 0 && |b| > 0 && a[0] == b[0] {
      assert a == [a[0]] + a[1..] && b == [b[0]] + b[1..];
      LessTotal(a[1..], b[1..]);
    }
  }

  lemma LessAsymmetric(a: string, b: string)
    requires Less(a, b)
    ensures !Less(b, a)
  {
    if Less(b, a) {
      LessTransitive(a, b, a);
      LessIrreflexive(a);
    }
  }

  predicate StrictlyAscending(s: seq<string>) {
    forall i, j :: 0 <= i < j < |s| ==> Less(s[i], s[j])
  }

  function Elems(s: seq<string>): set<string> {
    set x | x in s
  }

  lemma AscendingDistinct(s: seq<string>)
    requires StrictlyAscending(s)
    ensures forall i, j :: 0 <= i < j < |s| ==> s[i] != s[j]
  {
    forall i, j | 0 <= i < j < |s| ensures s[i] != s[j] {
      LessIrreflexive(s[i]);
    }
  }

  /** Inserts `t` into an ascending list of distinct strings, keeping it so. */
  function Insert(t: string, s: seq<string>): (r: seq<string>)
    requires StrictlyAscending(s)
    ensures StrictlyAscending(r)
    ensures Elems(r) == Elems(s) + {t}
  {
    if |s| == 0 then [t]
    else if t == s[0] then s
    else if Less(t, s[0]) then
      assert forall j :: 0 < j < |s| ==> Less(t, s[j]) by {
        forall j | 0 < j < |s| ensures Less(t, s[j]) {
          LessTransitive(t, s[0], s[j]);
        }
      }
      [t] + s
    else
      var rest := Insert(t, s[1..]);
      LessTotal(t, s[0]);
      LeastBeforeAll(s, t, rest);
      [s[0]] + rest
  }

  /** The head of an ascending list stays ahead when a larger `t` joins its tail. */
  lemma LeastBeforeAll(s: seq<string>, t: string, rest: seq<string>)
    requires |s| > 0 && StrictlyAscending(s) && StrictlyAscending(rest)
    requires Less(s[0], t)
    requires Elems(rest) == Elems(s[1..]) + {t}
    ensures StrictlyAscending([s[0]] + rest)
    ensures Elems([s[0]] + rest) == Elems(s) + {t}
  {
    assert s == [s[0]] + s[1..];
    assert Elems(s) == {s[0]} + Elems(s[1..]);
    forall k | 0 <= k < |rest| ensures Less(s[0], rest[k]) {
      var x := rest[k];
      assert x in Elems(rest);
      if x != t {
        var j :| 0 <= j < |s[1..]| && s[1..][j] == x;
        assert s[j + 1] == x;
      }
    }
    var r := [s[0]] + rest;
    forall i, j | 0 <= i < j < |r| ensures Less(r[i], r[j]) {
      if i > 0 {
        assert r[i] == rest[i - 1] && r[j] == rest[j - 1];
      }
    }
    assert forall x :: x in r <==> x == s[0] || x in rest;
    assert Elems(r) == {s[0]} + Elems(rest);
  }

  /**
   * `Set<Tag>.sorted()`: the set's elements, given in any iteration order and
   * possibly repeated, as an ascending list with each element once.
   */
  function SortedSet(s: seq<string>): (r: seq<string>)
    ensures StrictlyAscending(r)
    ensures Elems(r) == Elems(s)
  {
    if |s| == 0 then []
    else
      var init := s[..|s| - 1];
      assert s == init + [s[|s| - 1]];
      assert Elems(s) == Elems(init) + {s[|s| - 1]};
      Insert(s[|s| - 1], SortedSet(init))
  }

  /** An ascending list of distinct strings is determined by its elements. */
  lemma {:induction false} AscendingUnique(a: seq<string>, b: seq<string>)
    requires StrictlyAscending(a) && StrictlyAscending(b)
    requires Elems(a) == Elems(b)
    ensures a == b
    decreases |a|
  {
    EmptyElems(a);
    EmptyElems(b);
    if |a| > 0 {
      assert a[0] in Elems(b) && b[0] in Elems(a);
      if a[0] != b[0] {
        var k :| 0 <= k < |b| && b[k] == a[0];
        var j :| 0 <= j < |a| && a[j] == b[0];
        assert Less(b[0], a[0]) && Less(a[0], b[0]);
        LessAsymmetric(a[0], b[0]);
        assert false;
      }
      TailElems(a);
      TailElems(b);
      AscendingUnique(a[1..], b[1..]);
      assert a == [a[0]] + a[1..] && b == [b[0]] + b[1..];
    }
  }

  lemma EmptyElems(s: seq<string>)
    ensures Elems(s) == {} <==> |s| == 0
  {
    if |s| > 0 {
      assert s[0] in Elems(s);
    }
  }

  lemma TailElems(a: seq<string>)
    requires StrictlyAscending(a) && |a| > 0
    ensures Elems(a[1..]) == Elems(a) - {a[0]}
    ensures StrictlyAscending(a[1..])
  {
    assert a == [a[0]] + a[1..];
    AscendingDistinct(a);
    forall x | x in a[1..] ensures x != a[0] {
      var j :| 0 <= j < |a[1..]| && a[1..][j] == x;
      assert a[j + 1] == x;
    }
  }

  /**
   * Sorting a set gives the same list whatever order its elements were seen
   * in: the tag list is reproducible from build to build.
   */
  lemma SortedSetDeterministic(a: seq<string>, b: seq<string>)
    requires Elems(a) == Elems(b)
    ensures SortedSet(a) == SortedSet(b)
  {
    AscendingUnique(SortedSet(a), SortedSet(b));
  }

  function LowerChar(c: char): char {
    if 'A' <= c <= 'Z' then (c as int + ('a' as int - 'A' as int)) as char else c
  }

  /** `String.lowercased()`, restricted to ASCII letters. */
  function Lowercased(s: string): (r: string)
    ensures |r| == |s|
    ensures forall i :: 0 <= i < |s| ==> r[i] == LowerChar(s[i])
    ensures forall i :: 0 <= i < |r| ==> !('A' <= r[i] <= 'Z')
  {
    if |s| == 0 then "" else [LowerChar(s[0])] + Lowercased(s[1..])
  }
}
