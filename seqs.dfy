/** Sequence helpers shared by the list comprehensions of the core: filter-then-map in order,
    and the first n elements. */
module Seqs {

  /** `[f(x) for x in s if p(x)]`. */
  function FilterMap<A, B>(s: seq<A>, p: A -> bool, f: A -> B): (r: seq<B>)
    ensures |r| <= |s|
  {
    if s == [] then []
    else FilterMap(s[..|s| - 1], p, f) + (if p(s[|s| - 1]) then [f(s[|s| - 1])] else [])
  }

  /** An element is in the result exactly when it is the image of a kept element. */
  lemma {:induction false} FilterMapMembers<A, B>(s: seq<A>, p: A -> bool, f: A -> B, y: B)
    ensures y in FilterMap(s, p, f) <==> exists i :: 0 <= i < |s| && p(s[i]) && y == f(s[i])
  {
    if s != [] {
      var init := s[..|s| - 1];
      FilterMapMembers(init, p, f, y);
      if y in FilterMap(init, p, f) {
        var i :| 0 <= i < |init| && p(init[i]) && y == f(init[i]);
        assert s[i] == init[i];
      }
      if exists i :: 0 <= i < |s| && p(s[i]) && y == f(s[i]) {
        var i :| 0 <= i < |s| && p(s[i]) && y == f(s[i]);
        if i < |init| {
          assert init[i] == s[i];
        }
      }
    }
  }

  /** Nothing is kept exactly when no element satisfies the filter. */
  lemma FilterMapEmpty<A, B>(s: seq<A>, p: A -> bool, f: A -> B)
    ensures FilterMap(s, p, f) == [] <==> forall i :: 0 <= i < |s| ==> !p(s[i])
  {
    var r := FilterMap(s, p, f);
    if r != [] {
      FilterMapMembers(s, p, f, r[0]);
    }
    if exists i :: 0 <= i < |s| && p(s[i]) {
      var i :| 0 <= i < |s| && p(s[i]);
      FilterMapMembers(s, p, f, f(s[i]));
    }
  }

  /** Order is kept: appending an element to the input appends its image when it is kept. */
  lemma FilterMapAppend<A, B>(s: seq<A>, x: A, p: A -> bool, f: A -> B)
    ensures FilterMap(s + [x], p, f) == FilterMap(s, p, f) + (if p(x) then [f(x)] else [])
  {
    assert (s + [x])[..|s|] == s;
  }

  /** The step of a loop over `s` that keeps `FilterMap(s[..i], p, f)`. */
  lemma FilterMapStep<A, B>(s: seq<A>, i: nat, p: A -> bool, f: A -> B)
    requires i < |s|
    ensures FilterMap(s[..i + 1], p, f) == FilterMap(s[..i], p, f) + (if p(s[i]) then [f(s[i])] else [])
  {
    assert s[..i + 1][..i] == s[..i];
  }

  /** `s[:n]`. */
  function Take<T>(s: seq<T>, n: nat): (r: seq<T>)
    ensures |r| == if |s| < n then |s| else n
    ensures forall k :: 0 <= k < |r| ==> r[k] == s[k]
  {
    if |s| <= n then s else s[..n]
  }

  /** The concatenation of f over s, in order: `for x in s: out.extend(f(x))`. */
  function ConcatMap<A, B>(s: seq<A>, f: A -> seq<B>): seq<B>
    decreases |s|
  {
    if s == [] then [] else ConcatMap(s[..|s| - 1], f) + f(s[|s| - 1])
  }

  lemma ConcatMapAppend<A, B>(s: seq<A>, x: A, f: A -> seq<B>)
    ensures ConcatMap(s + [x], f) == ConcatMap(s, f) + f(x)
  {
    assert (s + [x])[..|s|] == s;
  }

  /** An element is in the concatenation exactly when one of the parts holds it. */
  lemma {:induction false} ConcatMapMembers<A, B>(s: seq<A>, f: A -> seq<B>, y: B)
    ensures y in ConcatMap(s, f) <==> exists i :: 0 <= i < |s| && y in f(s[i])
    decreases |s|
  {
    if s != [] {
      var init := s[..|s| - 1];
      ConcatMapMembers(init, f, y);
      if y in ConcatMap(init, f) {
        var i :| 0 <= i < |init| && y in f(init[i]);
        assert s[i] == init[i];
      }
      if exists i :: 0 <= i < |s| && y in f(s[i]) {
        var i :| 0 <= i < |s| && y in f(s[i]);
        if i < |init| {
          assert init[i] == s[i];
        }
      }
    }
  }
}
