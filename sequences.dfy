// Per-element updates of a sequence, as the scenes' systems apply them to
// every entity of a query in turn.

module Sequences {

  /// A value that may be absent, as Rust's `Option`.
  datatype Option<T> = None | Some(value: T)

  /// The first `n` elements of `data`, each mapped through `f`.
  function MapFirst<T>(data: seq<T>, n: nat, f: T -> T): (r: seq<T>)
    requires n <= |data|
    ensures |r| == n
  {
    if n == 0 then [] else MapFirst(data, n - 1, f) + [f(data[n - 1])]
  }

  /// Writing `f(data[i])` at index `i` of "the first `i` mapped, the rest
  /// as they were" maps one element more.
  lemma MapFirstNext<T>(data: seq<T>, i: nat, f: T -> T)
    requires i < |data|
    ensures (MapFirst(data, i, f) + data[i..])[i] == data[i]
    ensures (MapFirst(data, i, f) + data[i..])[i := f(data[i])] == MapFirst(data, i + 1, f) + data[i + 1..]
  {
    assert (MapFirst(data, i, f) + data[i..])[i := f(data[i])] == MapFirst(data, i, f) + [f(data[i])] + data[i + 1..];
  }

  /// Element `k` of the result is `f` of element `k`.
  lemma {:induction false} MapFirstAt<T>(data: seq<T>, n: nat, f: T -> T, k: nat)
    requires k < n <= |data|
    ensures MapFirst(data, n, f)[k] == f(data[k])
  {
    if k < n - 1 {
      MapFirstAt(data, n - 1, f, k);
    }
  }

  /// Whether each element of `s` satisfies `p`, in order.
  function Marks<T>(s: seq<T>, p: T -> bool): (r: seq<bool>)
    ensures |r| == |s|
  {
    if s == [] then [] else Marks(s[..|s| - 1], p) + [p(s[|s| - 1])]
  }

  lemma {:induction false} MarksAt<T>(s: seq<T>, p: T -> bool, k: nat)
    requires k < |s|
    ensures Marks(s, p)[k] == p(s[k])
  {
    if k < |s| - 1 {
      assert s[..|s| - 1][k] == s[k];
      MarksAt(s[..|s| - 1], p, k);
    }
  }

  /// Marking one more mapped element appends its mark.
  lemma MarksNext<T>(data: seq<T>, i: nat, f: T -> T, p: T -> bool)
    requires i < |data|
    ensures Marks(MapFirst(data, i + 1, f), p) == Marks(MapFirst(data, i, f), p) + [p(f(data[i]))]
  {
    assert MapFirst(data, i + 1, f)[..i] == MapFirst(data, i, f);
  }

  /// Every element of `s` mapped through `f`, in order.
  function Map<A, B>(s: seq<A>, f: A -> B): (r: seq<B>)
    ensures |r| == |s|
  {
    if s == [] then [] else Map(s[..|s| - 1], f) + [f(s[|s| - 1])]
  }

  lemma {:induction false} MapAt<A, B>(s: seq<A>, f: A -> B, k: nat)
    requires k < |s|
    ensures Map(s, f)[k] == f(s[k])
  {
    if k < |s| - 1 {
      assert s[..|s| - 1][k] == s[k];
      MapAt(s[..|s| - 1], f, k);
    }
  }

  /// Mapping one element more of a prefix appends its image.
  lemma MapPrefixNext<A, B>(s: seq<A>, f: A -> B, i: nat)
    requires i < |s|
    ensures Map(s[..i + 1], f) == Map(s[..i], f) + [f(s[i])]
  {
    assert s[..i + 1][..i] == s[..i];
  }

  /// Whether each element of `s` satisfies `p`, kept in order.
  function Filter<T>(s: seq<T>, p: T -> bool): (r: seq<T>)
    ensures |r| <= |s|
  {
    if s == [] then [] else Filter(s[..|s| - 1], p) + if p(s[|s| - 1]) then [s[|s| - 1]] else []
  }

  /// Filtering one element more of a prefix appends it exactly when it
  /// passes.
  lemma FilterPrefixNext<T>(s: seq<T>, p: T -> bool, i: nat)
    requires i < |s|
    ensures Filter(s[..i + 1], p) == Filter(s[..i], p) + if p(s[i]) then [s[i]] else []
  {
    assert s[..i + 1][..i] == s[..i];
  }

  /// The elements of every sequence of `ss`, one sequence after another.
  function Flatten<T>(ss: seq<seq<T>>): (r: seq<T>)
  {
    if ss == [] then [] else Flatten(ss[..|ss| - 1]) + ss[|ss| - 1]
  }

  /// Flattening the images of one element more of a prefix appends that
  /// element's image.
  lemma FlattenMapNext<A, B>(s: seq<A>, f: A -> seq<B>, i: nat)
    requires i < |s|
    ensures Flatten(Map(s[..i + 1], f)) == Flatten(Map(s[..i], f)) + f(s[i])
  {
    MapPrefixNext(s, f, i);
    var m := Map(s[..i + 1], f);
    assert m[..|m| - 1] == Map(s[..i], f);
  }

  /// Mapping a sequence with one element appended appends its image.
  lemma MapSnoc<A, B>(s: seq<A>, x: A, f: A -> B)
    ensures Map(s + [x], f) == Map(s, f) + [f(x)]
  {
    assert (s + [x])[..|s|] == s;
  }

  /// What a filter keeps comes from the sequence and passes the test.
  lemma {:induction false} FilterKeeps<T>(s: seq<T>, p: T -> bool, x: T)
    requires x in Filter(s, p)
    ensures x in s && p(x)
    decreases |s|
  {
    if x !in Filter(s[..|s| - 1], p) {
      assert x == s[|s| - 1];
    } else {
      FilterKeeps(s[..|s| - 1], p, x);
      assert s[..|s| - 1] <= s;
    }
  }

  /// The test that fails exactly where `p` passes.
  function Not<T>(p: T -> bool): T -> bool {
    x => !p(x)
  }

  /// One element more of a prefix goes to exactly one side of a split.
  lemma SplitNext<T>(s: seq<T>, p: T -> bool, i: nat)
    requires i < |s|
    ensures p(s[i]) ==> Filter(s[..i + 1], p) == Filter(s[..i], p) + [s[i]] &&
                        Filter(s[..i + 1], Not(p)) == Filter(s[..i], Not(p))
    ensures !p(s[i]) ==> Filter(s[..i + 1], p) == Filter(s[..i], p) &&
                         Filter(s[..i + 1], Not(p)) == Filter(s[..i], Not(p)) + [s[i]]
  {
    FilterPrefixNext(s, p, i);
    FilterPrefixNext(s, Not(p), i);
    assert Not(p)(s[i]) == !p(s[i]);
    if p(s[i]) {
      assert Filter(s[..i], Not(p)) + [] == Filter(s[..i], Not(p));
    } else {
      assert Filter(s[..i], p) + [] == Filter(s[..i], p);
    }
  }
}
