/** The array operations the reducers and the MultiSelect helpers apply to id-keyed lists:
    `filter`, `some`, `findIndex`, replacement at the found index, and `map` over the
    elements whose id matches. Ids are read through `idOf`, so one definition serves every
    entity type. */
module Lists {

  /** `xs.filter(keep)` */
  function Filter<T(==)>(xs: seq<T>, keep: T -> bool): (r: seq<T>)
    ensures |r| <= |xs|
    ensures forall i :: 0 <= i < |r| ==> keep(r[i])
    ensures forall i :: 0 <= i < |r| ==> r[i] in xs
    ensures forall i :: 0 <= i < |xs| && keep(xs[i]) ==> xs[i] in r
    decreases |xs|
  {
    if xs == [] then []
    else (if keep(xs[0]) then [xs[0]] else []) + Filter(xs[1..], keep)
  }

  /** `idx` picks, in strictly increasing positions of `b`, the elements of `a` in order. */
  predicate IndexMap<T(==)>(idx: seq<nat>, a: seq<T>, b: seq<T>) {
    && |idx| == |a|
    && (forall k :: 0 <= k < |idx| ==> idx[k] < |b| && a[k] == b[idx[k]])
    && (forall k, l :: 0 <= k < l < |idx| ==> idx[k] < idx[l])
  }

  /** `a` is `b` with some elements dropped and the rest in their original order. */
  ghost predicate IsSubsequence<T>(a: seq<T>, b: seq<T>) {
    exists idx :: IndexMap(idx, a, b)
  }

  function Shift(idx: seq<nat>): (r: seq<nat>)
    ensures |r| == |idx| && forall k :: 0 <= k < |idx| ==> r[k] == idx[k] + 1
  {
    seq(|idx|, k requires 0 <= k < |idx| => idx[k] + 1)
  }

  /** An index map into the tail of `b` shifts to one into `b`, and may take `b[0]` in front. */
  lemma IndexMapCons<T>(idx: seq<nat>, a: seq<T>, b: seq<T>)
    requires |b| > 0 && IndexMap(idx, a, b[1..])
    ensures IndexMap(Shift(idx), a, b)
    ensures IndexMap([0] + Shift(idx), [b[0]] + a, b)
  {
    var s := Shift(idx);
    assert forall k :: 0 <= k < |s| ==> s[k] < |b| && a[k] == b[s[k]] by {
      forall k | 0 <= k < |s| ensures s[k] < |b| && a[k] == b[s[k]] {
        assert b[1..][idx[k]] == b[idx[k] + 1];
      }
    }
    var t := [0] + s;
    var c := [b[0]] + a;
    forall k | 0 <= k < |t|
      ensures t[k] < |b| && c[k] == b[t[k]]
    {
      if k > 0 { assert t[k] == s[k - 1] && c[k] == a[k - 1]; }
    }
    forall k, l | 0 <= k < l < |t|
      ensures t[k] < t[l]
    {
      if k > 0 { assert t[k] == s[k - 1] && t[l] == s[l - 1]; }
    }
  }

  /** The positions of `xs` that `Filter` keeps, in order. */
  lemma {:induction false} FilterIndexMap<T>(xs: seq<T>, keep: T -> bool) returns (idx: seq<nat>)
    ensures IndexMap(idx, Filter(xs, keep), xs)
    decreases |xs|
  {
    if xs == [] {
      idx := [];
    } else {
      var tail := FilterIndexMap(xs[1..], keep);
      IndexMapCons(tail, Filter(xs[1..], keep), xs);
      idx := if keep(xs[0]) then [0] + Shift(tail) else Shift(tail);
    }
  }

  lemma FilterIsSubsequence<T>(xs: seq<T>, keep: T -> bool)
    ensures IsSubsequence(Filter(xs, keep), xs)
  {
    var idx := FilterIndexMap(xs, keep);
  }

  /** A filter that rejects nothing returns the list itself. */
  lemma {:induction false} FilterKeepsAll<T>(xs: seq<T>, keep: T -> bool)
    requires forall i :: 0 <= i < |xs| ==> keep(xs[i])
    ensures Filter(xs, keep) == xs
    decreases |xs|
  {
    if xs != [] {
      FilterKeepsAll(xs[1..], keep);
    }
  }

  /** Filtering twice with the same test is filtering once. */
  lemma FilterIdempotent<T>(xs: seq<T>, keep: T -> bool)
    ensures Filter(Filter(xs, keep), keep) == Filter(xs, keep)
  {
    FilterKeepsAll(Filter(xs, keep), keep);
  }

  lemma {:induction false} FilterConcat<T>(a: seq<T>, b: seq<T>, keep: T -> bool)
    ensures Filter(a + b, keep) == Filter(a, keep) + Filter(b, keep)
    decreases |a|
  {
    if a == [] {
      assert a + b == b;
    } else {
      assert (a + b)[0] == a[0] && (a + b)[1..] == a[1..] + b;
      FilterConcat(a[1..], b, keep);
    }
  }

  /** One step of the partition: putting `x` in front of either part adds it once. */
  lemma PartitionStep<T>(x: T, rest: seq<T>, k: seq<T>, d: seq<T>, kx: seq<T>, dx: seq<T>, toKeep: bool)
    requires multiset(k + d) == multiset(rest)
    requires toKeep ==> kx == [x] + k && dx == d
    requires !toKeep ==> kx == k && dx == [x] + d
    ensures multiset(kx + dx) == multiset([x] + rest)
  {
    if toKeep {
      assert kx + dx == [x] + (k + d);
    } else {
      assert kx + dx == k + ([x] + d);
      assert multiset(k + ([x] + d)) == multiset([x]) + multiset(k + d);
    }
  }

  /** Splitting a list by a test and by its negation loses and duplicates nothing. */
  lemma {:induction false} FilterPartition<T>(xs: seq<T>, keep: T -> bool, drop: T -> bool)
    requires forall x :: drop(x) == !keep(x)
    ensures multiset(Filter(xs, keep) + Filter(xs, drop)) == multiset(xs)
    decreases |xs|
  {
    if xs != [] {
      var x, rest := xs[0], xs[1..];
      var k, d := Filter(rest, keep), Filter(rest, drop);
      FilterPartition(rest, keep, drop);
      assert drop(x) == !keep(x);
      assert [] + k == k && [] + d == d;
      PartitionStep(x, rest, k, d, Filter(xs, keep), Filter(xs, drop), keep(x));
      assert xs == [x] + rest;
    }
  }

  /** `xs.some(x => idOf(x) === id)` */
  predicate HasId<T>(xs: seq<T>, idOf: T -> string, id: string) {
    exists i :: 0 <= i < |xs| && idOf(xs[i]) == id
  }

  /** `i` is the first position of `xs` whose id is `id`. */
  predicate IsFirstMatch<T>(xs: seq<T>, idOf: T -> string, id: string, i: int) {
    && 0 <= i < |xs|
    && idOf(xs[i]) == id
    && forall j :: 0 <= j < i ==> idOf(xs[j]) != id
  }

  /** No two elements share an id. */
  predicate UniqueIds<T>(xs: seq<T>, idOf: T -> string) {
    forall i, j :: 0 <= i < j < |xs| ==> idOf(xs[i]) != idOf(xs[j])
  }

  /** `xs.findIndex(x => idOf(x) === id)`: the first matching position, or -1 when none. */
  function FindIndexById<T>(xs: seq<T>, idOf: T -> string, id: string): (r: int)
    ensures r == -1 || IsFirstMatch(xs, idOf, id, r)
    ensures r == -1 <==> !HasId(xs, idOf, id)
    decreases |xs|
  {
    if xs == [] then -1
    else if idOf(xs[0]) == id then 0
    else
      var k := FindIndexById(xs[1..], idOf, id);
      assert HasId(xs, idOf, id) ==> HasId(xs[1..], idOf, id) by {
        if HasId(xs, idOf, id) {
          var i :| 0 <= i < |xs| && idOf(xs[i]) == id;
          assert idOf(xs[1..][i - 1]) == id;
        }
      }
      if k == -1 then -1 else k + 1
  }

  /** The update reducers built on `findIndex`: the element at the first position whose id is
      the payload's id becomes the payload, every other element stays. */
  function ReplaceFirstById<T>(xs: seq<T>, idOf: T -> string, x: T): (r: seq<T>)
    ensures |r| == |xs|
    ensures forall i :: 0 <= i < |xs| ==> r[i] == if IsFirstMatch(xs, idOf, idOf(x), i) then x else xs[i]
    ensures !HasId(xs, idOf, idOf(x)) ==> r == xs
    ensures HasId(xs, idOf, idOf(x)) ==> x in r
  {
    var k := FindIndexById(xs, idOf, idOf(x));
    if k == -1 then xs else xs[k := x]
  }

  /** `xs.map(y => idOf(y) === id ? f(y) : y)`: every matching element is rewritten. */
  function MapMatching<T>(xs: seq<T>, idOf: T -> string, id: string, f: T -> T): (r: seq<T>)
    ensures |r| == |xs|
    ensures forall i :: 0 <= i < |xs| ==> r[i] == if idOf(xs[i]) == id then f(xs[i]) else xs[i]
    decreases |xs|
  {
    if xs == [] then []
    else [if idOf(xs[0]) == id then f(xs[0]) else xs[0]] + MapMatching(xs[1..], idOf, id, f)
  }

  /** `xs.filter(y => idOf(y) !== id)`: the delete reducers. */
  function RemoveById<T(==)>(xs: seq<T>, idOf: T -> string, id: string): (r: seq<T>)
    ensures !HasId(r, idOf, id)
    ensures forall i :: 0 <= i < |r| ==> r[i] in xs
    ensures forall i :: 0 <= i < |xs| && idOf(xs[i]) != id ==> xs[i] in r
  {
    Filter(xs, y => idOf(y) != id)
  }

  /** Deleting an id that is absent changes nothing. */
  lemma RemoveAbsentId<T>(xs: seq<T>, idOf: T -> string, id: string)
    requires !HasId(xs, idOf, id)
    ensures RemoveById(xs, idOf, id) == xs
  {
    FilterKeepsAll(xs, y => idOf(y) != id);
  }

  /** Appending an element whose id is new and then deleting that id gives back the list. */
  lemma RemoveAppended<T>(xs: seq<T>, idOf: T -> string, x: T)
    requires !HasId(xs, idOf, idOf(x))
    ensures RemoveById(xs + [x], idOf, idOf(x)) == xs
  {
    var keep := y => idOf(y) != idOf(x);
    FilterConcat(xs, [x], keep);
    RemoveAbsentId(xs, idOf, idOf(x));
    assert Filter([x], keep) == [];
  }

  /** Deleting one id leaves the presence of every other id as it was. */
  lemma RemoveByIdKeepsOtherIds<T>(xs: seq<T>, idOf: T -> string, id: string, other: string)
    requires other != id
    ensures HasId(RemoveById(xs, idOf, id), idOf, other) <==> HasId(xs, idOf, other)
  {
    var r := RemoveById(xs, idOf, id);
    if HasId(xs, idOf, other) {
      var i :| 0 <= i < |xs| && idOf(xs[i]) == other;
      assert xs[i] in r;
      var j :| 0 <= j < |r| && r[j] == xs[i];
    }
    if HasId(r, idOf, other) {
      var j :| 0 <= j < |r| && idOf(r[j]) == other;
      assert r[j] in xs;
      var i :| 0 <= i < |xs| && xs[i] == r[j];
    }
  }

  /** Deleting the same id twice is deleting it once. */
  lemma RemoveByIdIdempotent<T>(xs: seq<T>, idOf: T -> string, id: string)
    ensures RemoveById(RemoveById(xs, idOf, id), idOf, id) == RemoveById(xs, idOf, id)
  {
    RemoveAbsentId(RemoveById(xs, idOf, id), idOf, id);
  }

  /** Deleting keeps the surviving elements in their original order. */
  lemma RemoveByIdIsSubsequence<T>(xs: seq<T>, idOf: T -> string, id: string)
    ensures IsSubsequence(RemoveById(xs, idOf, id), xs)
  {
    FilterIsSubsequence(xs, y => idOf(y) != id);
  }

  /** When ids are unique, replacing the first match is the same as rewriting every match,
      so the `findIndex` reducers and the `map` reducer agree on such lists. */
  lemma ReplaceFirstIsMapWhenUnique<T>(xs: seq<T>, idOf: T -> string, x: T)
    requires UniqueIds(xs, idOf)
    ensures ReplaceFirstById(xs, idOf, x) == MapMatching(xs, idOf, idOf(x), _ => x)
  {
    var r := ReplaceFirstById(xs, idOf, x);
    var m := MapMatching(xs, idOf, idOf(x), _ => x);
    forall i | 0 <= i < |xs|
      ensures r[i] == m[i]
    {
      if idOf(xs[i]) == idOf(x) {
        assert IsFirstMatch(xs, idOf, idOf(x), i);
      }
    }
  }

  /** With a duplicated id the two update styles differ: only the first copy is replaced. */
  lemma ReplaceFirstDiffersFromMapOnDuplicates<T>(a: T, b: T, x: T, idOf: T -> string)
    requires idOf(a) == idOf(b) == idOf(x) && b != x
    ensures ReplaceFirstById([a, b], idOf, x) == [x, b]
    ensures MapMatching([a, b], idOf, idOf(x), _ => x) == [x, x]
  {
    assert IsFirstMatch([a, b], idOf, idOf(x), 0);
    assert !IsFirstMatch([a, b], idOf, idOf(x), 1);
  }

  /** Uniqueness of ids is kept by replacement at a matching position and by deletion, and by
      appending exactly when the appended id is new. */
  lemma ReplaceFirstKeepsUniqueIds<T>(xs: seq<T>, idOf: T -> string, x: T)
    requires UniqueIds(xs, idOf)
    ensures UniqueIds(ReplaceFirstById(xs, idOf, x), idOf)
  {
    var r := ReplaceFirstById(xs, idOf, x);
    forall i, j | 0 <= i < j < |r|
      ensures idOf(r[i]) != idOf(r[j])
    {
      assert idOf(r[i]) == idOf(xs[i]) && idOf(r[j]) == idOf(xs[j]);
    }
  }

  lemma {:induction false} FilterKeepsUniqueIds<T>(xs: seq<T>, idOf: T -> string, keep: T -> bool)
    requires UniqueIds(xs, idOf)
    ensures UniqueIds(Filter(xs, keep), idOf)
    decreases |xs|
  {
    if xs != [] {
      assert UniqueIds(xs[1..], idOf);
      FilterKeepsUniqueIds(xs[1..], idOf, keep);
      var rt := Filter(xs[1..], keep);
      forall i | 0 <= i < |rt|
        ensures idOf(rt[i]) != idOf(xs[0])
      {
        assert rt[i] in xs[1..];
        var j :| 0 <= j < |xs[1..]| && xs[1..][j] == rt[i];
        assert xs[j + 1] == rt[i];
      }
    }
  }

  lemma RemoveByIdKeepsUniqueIds<T>(xs: seq<T>, idOf: T -> string, id: string)
    requires UniqueIds(xs, idOf)
    ensures UniqueIds(RemoveById(xs, idOf, id), idOf)
  {
    FilterKeepsUniqueIds(xs, idOf, y => idOf(y) != id);
  }

  lemma AppendKeepsUniqueIds<T>(xs: seq<T>, idOf: T -> string, x: T)
    requires UniqueIds(xs, idOf)
    ensures UniqueIds(xs + [x], idOf) <==> !HasId(xs, idOf, idOf(x))
  {
    var r := xs + [x];
    if !HasId(xs, idOf, idOf(x)) {
      forall i, j | 0 <= i < j < |r|
        ensures idOf(r[i]) != idOf(r[j])
      {
        if j == |xs| { assert idOf(xs[i]) != idOf(x); }
      }
    } else {
      var i :| 0 <= i < |xs| && idOf(xs[i]) == idOf(x);
      assert idOf(r[i]) == idOf(r[|xs|]);
    }
  }
}
