/** Order-preserving filtering of sequences, the model of `Array.prototype.filter`. */
module SeqUtil {

  /** The elements of `s` that satisfy `p`, in their original order. */
  function Filter<T>(s: seq<T>, p: T -> bool): (r: seq<T>)
    ensures |r| <= |s|
  {
    if s == [] then [] else (if p(s[0]) then [s[0]] else []) + Filter(s[1..], p)
  }

  /** The test "is not `x`", as a function value. */
  function Other<T(==)>(x: T): T -> bool {
    y => y != x
  }

  /** The negation of a test, as a function value. */
  function Not<T>(p: T -> bool): T -> bool {
    x => !p(x)
  }

  /** No element occurs twice. */
  predicate NoDuplicates<T(==)>(s: seq<T>) {
    forall i, j :: 0 <= i < j < |s| ==> s[i] != s[j]
  }

  /** What a filter keeps: exactly the elements that satisfy `p`. */
  lemma {:induction false} FilterMembers<T>(s: seq<T>, p: T -> bool)
    ensures forall i :: 0 <= i < |Filter(s, p)| ==> Filter(s, p)[i] in s && p(Filter(s, p)[i])
    ensures forall i :: 0 <= i < |s| && p(s[i]) ==> s[i] in Filter(s, p)
  {
    if s != [] {
      FilterMembers(s[1..], p);
      var r := Filter(s, p);
      var tail := Filter(s[1..], p);
      var head := if p(s[0]) then [s[0]] else [];
      assert r == head + tail;
      forall i | 0 <= i < |r| ensures r[i] in s && p(r[i]) {
        if i >= |head| {
          assert r[i] == tail[i - |head|];
          assert tail[i - |head|] in s[1..];
        }
      }
      forall i | 0 <= i < |s| && p(s[i]) ensures s[i] in r {
        if i > 0 {
          assert s[i] == s[1..][i - 1];
          assert s[i] in tail;
        }
      }
    }
  }

  /** The same, stated for one element. */
  lemma FilterContains<T>(s: seq<T>, p: T -> bool, x: T)
    ensures x in Filter(s, p) <==> x in s && p(x)
  {
    FilterMembers(s, p);
    if x in Filter(s, p) {
      var i :| 0 <= i < |Filter(s, p)| && Filter(s, p)[i] == x;
    }
    if x in s && p(x) {
      var i :| 0 <= i < |s| && s[i] == x;
    }
  }

  lemma {:induction false} FilterConcat<T>(a: seq<T>, b: seq<T>, p: T -> bool)
    ensures Filter(a + b, p) == Filter(a, p) + Filter(b, p)
  {
    if a == [] {
      assert a + b == b;
    } else {
      var head := if p(a[0]) then [a[0]] else [];
      assert (a + b)[0] == a[0];
      assert (a + b)[1..] == a[1..] + b;
      FilterConcat(a[1..], b, p);
      assert Filter(a + b, p) == head + (Filter(a[1..], p) + Filter(b, p));
      assert Filter(a, p) == head + Filter(a[1..], p);
    }
  }

  /** Filtering a sequence extended by one element. */
  lemma FilterSnoc<T>(s: seq<T>, x: T, p: T -> bool)
    ensures Filter(s + [x], p) == Filter(s, p) + (if p(x) then [x] else [])
  {
    FilterConcat(s, [x], p);
    assert Filter([x], p) == (if p(x) then [x] else []) + Filter([x][1..], p);
    assert [x][1..] == [];
  }

  /** Filtering keeps everything when every element already satisfies `p`. */
  lemma {:induction false} FilterAll<T>(s: seq<T>, p: T -> bool)
    requires forall i :: 0 <= i < |s| ==> p(s[i])
    ensures Filter(s, p) == s
  {
    if s != [] {
      FilterAll(s[1..], p);
      assert s == [s[0]] + s[1..];
    }
  }

  /** Filtering drops everything when no element satisfies `p`. */
  lemma {:induction false} FilterNone<T>(s: seq<T>, p: T -> bool)
    requires forall i :: 0 <= i < |s| ==> !p(s[i])
    ensures Filter(s, p) == []
  {
    if s != [] {
      FilterNone(s[1..], p);
    }
  }

  /** Splitting by a predicate and its negation loses and duplicates nothing. */
  lemma {:induction false} FilterSplitMultiset<T>(s: seq<T>, p: T -> bool)
    ensures multiset(Filter(s, p)) + multiset(Filter(s, Not(p))) == multiset(s)
  {
    if s != [] {
      var x, rest := s[0], s[1..];
      FilterSplitMultiset(rest, p);
      assert s == [x] + rest;
      if p(x) {
        assert Filter(s, p) == [x] + Filter(rest, p);
        assert Filter(s, Not(p)) == Filter(rest, Not(p));
      } else {
        assert Filter(s, p) == Filter(rest, p);
        assert Filter(s, Not(p)) == [x] + Filter(rest, Not(p));
      }
    }
  }

  /** A filter preserves the absence of duplicates. */
  lemma {:induction false} FilterNoDuplicates<T>(s: seq<T>, p: T -> bool)
    requires NoDuplicates(s)
    ensures NoDuplicates(Filter(s, p))
  {
    if s != [] {
      FilterNoDuplicates(s[1..], p);
      FilterContains(s[1..], p, s[0]);
      assert s[0] !in s[1..];
    }
  }

  /** The longest prefix of `s` whose elements all satisfy `p`. */
  function TakeWhile<T>(s: seq<T>, p: T -> bool): (r: seq<T>)
    ensures |r| <= |s| && r == s[..|r|]
    ensures forall i :: 0 <= i < |r| ==> p(r[i])
    ensures |r| < |s| ==> !p(s[|r|])
  {
    if s == [] || !p(s[0]) then [] else [s[0]] + TakeWhile(s[1..], p)
  }

  /** Taking while `p` holds gives a prefix of filtering by `p`, and all of it when `p` holds throughout. */
  lemma {:induction false} TakeWhileIsFilterPrefix<T>(s: seq<T>, p: T -> bool)
    ensures |TakeWhile(s, p)| <= |Filter(s, p)|
    ensures TakeWhile(s, p) == Filter(s, p)[..|TakeWhile(s, p)|]
    ensures (forall i :: 0 <= i < |s| ==> p(s[i])) ==> TakeWhile(s, p) == Filter(s, p)
  {
    if s != [] {
      TakeWhileIsFilterPrefix(s[1..], p);
      if p(s[0]) {
        assert Filter(s, p) == [s[0]] + Filter(s[1..], p);
        assert TakeWhile(s, p) == [s[0]] + TakeWhile(s[1..], p);
        if forall i :: 0 <= i < |s| ==> p(s[i]) {
          forall i | 0 <= i < |s[1..]| ensures p(s[1..][i]) {
            assert s[1..][i] == s[i + 1];
          }
        }
      }
    }
  }

  /** An element failing `p` ends `TakeWhile` there, while `Filter` goes on past it. */
  lemma TakeWhileStops<T>(a: T, b: T, p: T -> bool)
    requires !p(a) && p(b)
    ensures TakeWhile([a, b], p) == []
    ensures Filter([a, b], p) == [b]
  {
    assert [a, b][1..] == [b];
    assert [b][1..] == [];
  }
}
