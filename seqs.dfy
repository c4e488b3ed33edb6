/** Counting and flattening over sequences: the list comprehensions and
    accumulating loops of the analyzer are stated with these. */
module Seqs {

  /** Number of elements of `s` that satisfy `p`, i.e. `len([x for x in s if p(x)])`. */
  function Count<T>(p: T -> bool, s: seq<T>): (n: nat)
    ensures n <= |s|
  {
    if s == [] then 0 else Count(p, s[..|s| - 1]) + (if p(s[|s| - 1]) then 1 else 0)
  }

  lemma {:induction false} CountConcat<T>(p: T -> bool, a: seq<T>, b: seq<T>)
    ensures Count(p, a + b) == Count(p, a) + Count(p, b)
  {
    if b == [] {
      assert a + b == a;
    } else {
      var ab := a + b;
      assert ab[..|ab| - 1] == a + b[..|b| - 1];
      assert ab[|ab| - 1] == b[|b| - 1];
      CountConcat(p, a, b[..|b| - 1]);
    }
  }

  /** Count of a prefix grows by one exactly at the elements satisfying `p`. */
  lemma CountPrefix<T>(p: T -> bool, s: seq<T>, i: nat)
    requires i < |s|
    ensures Count(p, s[..i + 1]) == Count(p, s[..i]) + (if p(s[i]) then 1 else 0)
  {
    assert s[..i + 1][..i] == s[..i];
  }

  lemma CountSingleton<T>(p: T -> bool, x: T)
    ensures Count(p, [x]) == (if p(x) then 1 else 0)
  {
    assert [x][..0] == [];
  }

  lemma {:induction false} AllCount<T>(p: T -> bool, s: seq<T>)
    requires forall x :: p(x)
    ensures Count(p, s) == |s|
  {
    if s != [] {
      AllCount(p, s[..|s| - 1]);
    }
  }

  /** No element of `s` satisfies `p` exactly when the count is zero. */
  lemma {:induction false} CountZero<T>(p: T -> bool, s: seq<T>)
    ensures Count(p, s) == 0 <==> forall x :: x in s ==> !p(x)
  {
    if s != [] {
      var init := s[..|s| - 1];
      CountZero(p, init);
      assert s == init + [s[|s| - 1]];
      forall x | x in s
        ensures x in init || x == s[|s| - 1]
      {
      }
    }
  }

  /** The concatenation of `f(x)` for the elements `x` of `s`, in order. */
  function FlatMap<T, U>(f: T -> seq<U>, s: seq<T>): seq<U>
  {
    if s == [] then [] else FlatMap(f, s[..|s| - 1]) + f(s[|s| - 1])
  }

  /** One loop step that appends `f(s[i])` extends the flattening of the prefix. */
  lemma FlatMapPrefix<T, U>(f: T -> seq<U>, s: seq<T>, i: nat)
    requires i < |s|
    ensures FlatMap(f, s[..i + 1]) == FlatMap(f, s[..i]) + f(s[i])
  {
    assert s[..i + 1][..i] == s[..i];
  }

  /** An element of the flattening comes from some element of `s`, and every
      piece `f(x)` of an element `x` of `s` is in the flattening. */
  lemma {:induction false} FlatMapMember<T, U>(f: T -> seq<U>, s: seq<T>, u: U)
    ensures u in FlatMap(f, s) <==> exists x :: x in s && u in f(x)
  {
    if s != [] {
      var init, last := s[..|s| - 1], s[|s| - 1];
      FlatMapMember(f, init, u);
      assert s == init + [last];
      if u in FlatMap(f, s) {
        if u in f(last) {
          assert last in s;
        } else {
          var x :| x in init && u in f(x);
          assert x in s;
        }
      } else {
        forall x | x in s
          ensures u !in f(x)
        {
          assert x in init || x == last;
        }
      }
    }
  }

  /** If each element of `s` contributes exactly one `q`-element when it
      satisfies `p` and none otherwise, the flattening holds as many
      `q`-elements as `s` holds `p`-elements. */
  lemma {:induction false} CountFlatMap<T, U>(q: U -> bool, p: T -> bool, f: T -> seq<U>, s: seq<T>)
    requires forall x :: x in s ==> Count(q, f(x)) == (if p(x) then 1 else 0)
    ensures Count(q, FlatMap(f, s)) == Count(p, s)
  {
    if s != [] {
      var init, last := s[..|s| - 1], s[|s| - 1];
      assert last in s;
      forall x | x in init
        ensures Count(q, f(x)) == (if p(x) then 1 else 0)
      {
        assert x in s;
      }
      CountFlatMap(q, p, f, init);
      CountConcat(q, FlatMap(f, init), f(last));
    }
  }

  /** If each element of `s` contributes one element for each of `p1` and
      `p2` that it satisfies, the flattening has length `Count(p1, s) + Count(p2, s)`. */
  lemma {:induction false} FlatMapLength<T, U>(f: T -> seq<U>, p1: T -> bool, p2: T -> bool, s: seq<T>)
    requires forall x :: x in s ==> |f(x)| == (if p1(x) then 1 else 0) + (if p2(x) then 1 else 0)
    ensures |FlatMap(f, s)| == Count(p1, s) + Count(p2, s)
  {
    if s != [] {
      var init, last := s[..|s| - 1], s[|s| - 1];
      assert last in s;
      forall x | x in init
        ensures |f(x)| == (if p1(x) then 1 else 0) + (if p2(x) then 1 else 0)
      {
        assert x in s;
      }
      FlatMapLength(f, p1, p2, init);
    }
  }

  /** A flattening is empty when no element of `s` contributes anything. */
  lemma FlatMapEmpty<T, U>(f: T -> seq<U>, s: seq<T>)
    requires forall x :: x in s ==> f(x) == []
    ensures FlatMap(f, s) == []
  {
    if FlatMap(f, s) != [] {
      FlatMapMember(f, s, FlatMap(f, s)[0]);
    }
  }
}
