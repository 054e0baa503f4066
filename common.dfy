/** Small value types and sequence helpers shared by every module of the model. */
module Common {

  /** Python's `None` / value. */
  datatype Option<+T> = None | Some(value: T)

  /** Python's `xs[:n]` for a non-negative `n`. */
  function Take<T>(xs: seq<T>, n: nat): (r: seq<T>)
    ensures |r| == if n < |xs| then n else |xs|
    ensures r == xs[..|r|]
  {
    if n < |xs| then xs[..n] else xs
  }

  /** Concatenation of a sequence of sequences, defined from the right so that
      extending the argument by one element extends the result by one block. */
  function Flatten<T>(xss: seq<seq<T>>): seq<T>
  {
    if xss == [] then [] else Flatten(xss[..|xss| - 1]) + xss[|xss| - 1]
  }

  lemma {:induction false} FlattenAppend<T>(a: seq<seq<T>>, b: seq<seq<T>>)
    ensures Flatten(a + b) == Flatten(a) + Flatten(b)
    decreases |b|
  {
    if b == [] {
      assert a + b == a;
    } else {
      var b' := b[..|b| - 1];
      assert (a + b)[..|a + b| - 1] == a + b';
      FlattenAppend(a, b');
    }
  }

  lemma FlattenCons<T>(x: seq<T>, rest: seq<seq<T>>)
    ensures Flatten([x] + rest) == x + Flatten(rest)
  {
    FlattenAppend([x], rest);
    assert [x][..0] == [];
  }

  /** Element `s` of block `p` sits right after the elements of the blocks before `p`. */
  lemma FlattenIndex<T>(xss: seq<seq<T>>, p: nat, s: nat)
    requires p < |xss| && s < |xss[p]|
    ensures |Flatten(xss[..p])| + s < |Flatten(xss)|
    ensures Flatten(xss)[|Flatten(xss[..p])| + s] == xss[p][s]
  {
    assert xss == xss[..p] + ([xss[p]] + xss[p + 1..]);
    FlattenAppend(xss[..p], [xss[p]] + xss[p + 1..]);
    FlattenCons(xss[p], xss[p + 1..]);
  }

  /** Taking one more block lengthens the flattened prefix by that block's length. */
  lemma FlattenPrefixStep<T>(xss: seq<seq<T>>, p: nat)
    requires p < |xss|
    ensures |Flatten(xss[..p + 1])| == |Flatten(xss[..p])| + |xss[p]|
  {
    assert xss[..p + 1][..p] == xss[..p];
  }

  /** A non-empty sequence is its front followed by its last element. */
  lemma SplitLast<T>(s: seq<T>)
    requires s != []
    ensures s == s[..|s| - 1] + [s[|s| - 1]]
  {
  }

  /** The positions of the elements of `xs` that `keep` accepts, in increasing
      order: the index form of a list comprehension with an `if` filter. */
  function KeptIndices<T>(xs: seq<T>, keep: T -> bool): (ix: seq<nat>)
    ensures forall k :: 0 <= k < |ix| ==> ix[k] < |xs| && keep(xs[ix[k]])
    ensures forall k, l :: 0 <= k < l < |ix| ==> ix[k] < ix[l]
    ensures forall i :: 0 <= i < |xs| && keep(xs[i]) ==> i in ix
  {
    if xs == [] then []
    else
      var n := |xs| - 1;
      var ix := KeptIndices(xs[..n], keep);
      assert forall k :: 0 <= k < |ix| ==> xs[..n][ix[k]] == xs[ix[k]];
      ix + (if keep(xs[n]) then [n] else [])
  }

  /** Sum of a sequence of naturals. */
  function Sum(xs: seq<nat>): nat
  {
    if xs == [] then 0 else Sum(xs[..|xs| - 1]) + xs[|xs| - 1]
  }

  /** No element occurs twice. */
  predicate NoDuplicates<T(==)>(xs: seq<T>)
  {
    forall i, j :: 0 <= i < j < |xs| ==> xs[i] != xs[j]
  }

  /** Number of occurrences of `x` in `xs`. */
  function Count<T(==)>(xs: seq<T>, x: T): nat
  {
    if xs == [] then 0 else Count(xs[..|xs| - 1], x) + (if xs[|xs| - 1] == x then 1 else 0)
  }

  /** The elements of `xs` without repetitions, in order of first occurrence. */
  function Dedup<T(==,!new)>(xs: seq<T>): (r: seq<T>)
    ensures forall x :: x in r <==> x in xs
    ensures NoDuplicates(r)
  {
    if xs == [] then []
    else
      var r := Dedup(xs[..|xs| - 1]);
      if xs[|xs| - 1] in r then r else r + [xs[|xs| - 1]]
  }

  function Min(a: int, b: int): int
  {
    if a < b then a else b
  }

  /** The keys of an association list. */
  function KeysOf<K, V>(entries: seq<(K, V)>): (ks: seq<K>)
    ensures |ks| == |entries|
    ensures forall i :: 0 <= i < |entries| ==> ks[i] == entries[i].0
  {
    seq(|entries|, i requires 0 <= i < |entries| => entries[i].0)
  }

  /** The values of an association list, in order (`dict.values()`). */
  function ValuesOf<K, V>(entries: seq<(K, V)>): (vs: seq<V>)
    ensures |vs| == |entries|
    ensures forall i :: 0 <= i < |entries| ==> vs[i] == entries[i].1
  {
    seq(|entries|, i requires 0 <= i < |entries| => entries[i].1)
  }

  /** Dictionary lookup on an association list: the value of the first entry
      with key `k`, or `None` when no entry has it. */
  function Lookup<K(==), V>(entries: seq<(K, V)>, k: K): (r: Option<V>)
    ensures r.None? <==> forall i :: 0 <= i < |entries| ==> entries[i].0 != k
    ensures r.Some? ==> exists i :: 0 <= i < |entries| && entries[i] == (k, r.value)
  {
    if entries == [] then None
    else if entries[0].0 == k then Some(entries[0].1)
    else
      var r := Lookup(entries[1..], k);
      assert forall i :: 1 <= i < |entries| ==> entries[1..][i - 1] == entries[i];
      r
  }

  /** With distinct keys, looking up the key of an entry yields its value. */
  lemma {:induction false} LookupAt<K, V>(entries: seq<(K, V)>, i: nat)
    requires i < |entries| && NoDuplicates(KeysOf(entries))
    ensures Lookup(entries, entries[i].0) == Some(entries[i].1)
    decreases i
  {
    if i > 0 {
      assert KeysOf(entries)[0] != KeysOf(entries)[i];
      var tail := entries[1..];
      forall a, b | 0 <= a < b < |tail| ensures KeysOf(tail)[a] != KeysOf(tail)[b] {
        assert KeysOf(tail)[a] == KeysOf(entries)[a + 1] && KeysOf(tail)[b] == KeysOf(entries)[b + 1];
      }
      LookupAt(tail, i - 1);
    }
  }

  lemma NoDuplicatesAppend<T>(a: seq<T>, b: seq<T>)
    requires NoDuplicates(a) && NoDuplicates(b)
    requires forall i, j :: 0 <= i < |a| && 0 <= j < |b| ==> a[i] != b[j]
    ensures NoDuplicates(a + b)
  {
    forall i, j | 0 <= i < j < |a + b| ensures (a + b)[i] != (a + b)[j] {
      if j < |a| {
      } else if i >= |a| {
        assert (a + b)[i] == b[i - |a|] && (a + b)[j] == b[j - |a|];
      } else {
        assert (a + b)[j] == b[j - |a|];
      }
    }
  }
}
