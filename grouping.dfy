/** lodash's `groupBy(collection, iteratee)` as `saveAttestations` uses it,
    with the reference definition it is proved against (the order-preserving
    filter of the collection by key) and the partition property. The
    iteratee is any function from elements to property keys. */
module Grouping {

  /** The group stored under `id`, or the empty group. */
  function GroupAt<T>(g: map<string, seq<T>>, id: string): seq<T> {
    if id in g then g[id] else []
  }

  /** groupBy: walk the collection in order and push each element onto the
      array of its key, creating the array on first sight. */
  function GroupBy<T>(xs: seq<T>, key: T -> string): map<string, seq<T>> {
    if xs == [] then map[]
    else
      var v := xs[|xs| - 1];
      var g := GroupBy(xs[..|xs| - 1], key);
      g[key(v) := GroupAt(g, key(v)) + [v]]
  }

  /** Reference definition: the elements whose key is `id`, in input order. */
  function Filter<T>(xs: seq<T>, key: T -> string, id: string): seq<T> {
    if xs == [] then []
    else (if key(xs[0]) == id then [xs[0]] else []) + Filter(xs[1..], key, id)
  }

  /** The keys of the grouped object in insertion order: each key at the
      first element that has it. */
  function Ids<T>(xs: seq<T>, key: T -> string): seq<string> {
    if xs == [] then []
    else
      var r := Ids(xs[..|xs| - 1], key);
      var id := key(xs[|xs| - 1]);
      if id in r then r else r + [id]
  }

  /** The groups listed by `ids`, concatenated in that order. */
  function Flatten<T>(g: map<string, seq<T>>, ids: seq<string>): seq<T> {
    if ids == [] then [] else Flatten(g, ids[..|ids| - 1]) + GroupAt(g, ids[|ids| - 1])
  }

  predicate Distinct(ids: seq<string>) {
    forall i, j | 0 <= i < j < |ids| :: ids[i] != ids[j]
  }

  lemma {:induction false} FilterAppend<T>(a: seq<T>, b: seq<T>, key: T -> string, id: string)
    ensures Filter(a + b, key, id) == Filter(a, key, id) + Filter(b, key, id)
  {
    if a == [] {
      assert a + b == b;
    } else {
      var head := if key(a[0]) == id then [a[0]] else [];
      assert (a + b)[0] == a[0];
      assert (a + b)[1..] == a[1..] + b;
      assert Filter(a + b, key, id) == head + Filter(a[1..] + b, key, id);
      FilterAppend(a[1..], b, key, id);
      assert Filter(a, key, id) == head + Filter(a[1..], key, id);
    }
  }

  lemma {:induction false} FilterContains<T>(xs: seq<T>, key: T -> string, i: nat)
    requires i < |xs|
    ensures xs[i] in Filter(xs, key, key(xs[i]))
  {
    if i > 0 {
      assert xs[1..][i - 1] == xs[i];
      FilterContains(xs[1..], key, i - 1);
    }
  }

  /** Every element of a filtered group has the group's key and comes from
      the collection; the group is empty exactly when no element has that
      key. */
  lemma {:induction false} FilterMembers<T>(xs: seq<T>, key: T -> string, id: string)
    ensures forall v | v in Filter(xs, key, id) :: v in xs && key(v) == id
    ensures Filter(xs, key, id) == [] <==> forall i | 0 <= i < |xs| :: key(xs[i]) != id
  {
    if xs != [] {
      FilterMembers(xs[1..], key, id);
      assert forall i | 1 <= i < |xs| :: xs[i] == xs[1..][i - 1];
    }
  }

  /** groupBy computes exactly the filter: the group under `id` is the
      elements with that key in input order, and a group exists exactly
      when some element has that key. */
  lemma {:induction false} GroupByIsFilter<T>(xs: seq<T>, key: T -> string, id: string)
    ensures GroupAt(GroupBy(xs, key), id) == Filter(xs, key, id)
    ensures id in GroupBy(xs, key) <==> Filter(xs, key, id) != []
  {
    if xs != [] {
      var n := |xs| - 1;
      var front, v := xs[..n], xs[n];
      GroupByIsFilter(front, key, id);
      assert xs == front + [v];
      FilterAppend(front, [v], key, id);
      assert [v][1..] == [];
    }
  }

  /** Each element lands in the group of its own key. */
  lemma ElementInOwnGroup<T>(xs: seq<T>, key: T -> string, i: nat)
    requires i < |xs|
    ensures key(xs[i]) in GroupBy(xs, key) && xs[i] in GroupBy(xs, key)[key(xs[i])]
  {
    GroupByIsFilter(xs, key, key(xs[i]));
    FilterContains(xs, key, i);
  }

  /** A group holds only elements of the collection that have the group's
      key. */
  lemma GroupMembersHaveKey<T>(xs: seq<T>, key: T -> string, id: string)
    requires id in GroupBy(xs, key)
    ensures forall v | v in GroupBy(xs, key)[id] :: v in xs && key(v) == id
  {
    GroupByIsFilter(xs, key, id);
    FilterMembers(xs, key, id);
  }

  /** The ids listed by `Ids` are distinct and are exactly the keys of the
      grouped object. */
  lemma {:induction false} IdsAreKeys<T>(xs: seq<T>, key: T -> string)
    ensures Distinct(Ids(xs, key))
    ensures forall id :: id in Ids(xs, key) <==> id in GroupBy(xs, key)
  {
    if xs != [] {
      IdsAreKeys(xs[..|xs| - 1], key);
    }
  }

  lemma {:induction false} FlattenUpdateOther<T>(g: map<string, seq<T>>, ids: seq<string>, id: string, s: seq<T>)
    requires id !in ids
    ensures Flatten(g[id := s], ids) == Flatten(g, ids)
  {
    if ids != [] {
      FlattenUpdateOther(g, ids[..|ids| - 1], id, s);
    }
  }

  lemma {:induction false} FlattenAppendOne<T>(g: map<string, seq<T>>, ids: seq<string>, id: string, v: T)
    requires Distinct(ids) && id in ids
    ensures multiset(Flatten(g[id := GroupAt(g, id) + [v]], ids)) == multiset(Flatten(g, ids)) + multiset{v}
  {
    var n := |ids| - 1;
    var front := ids[..n];
    assert Distinct(front);
    if ids[n] == id {
      assert id !in front;
      FlattenAppendAtLast(g, ids, v);
    } else {
      assert id in front;
      FlattenAppendOne(g, front, id, v);
      FlattenAppendBeforeLast(g, ids, id, v);
    }
  }

  lemma FlattenAppendAtLast<T>(g: map<string, seq<T>>, ids: seq<string>, v: T)
    requires ids != [] && ids[|ids| - 1] !in ids[..|ids| - 1]
    ensures var id := ids[|ids| - 1];
      multiset(Flatten(g[id := GroupAt(g, id) + [v]], ids)) == multiset(Flatten(g, ids)) + multiset{v}
  {
    var n := |ids| - 1;
    var front, id := ids[..n], ids[n];
    var g' := g[id := GroupAt(g, id) + [v]];
    FlattenUpdateOther(g, front, id, GroupAt(g, id) + [v]);
    assert Flatten(g', ids) == Flatten(g, front) + (GroupAt(g, id) + [v]);
    assert Flatten(g, ids) == Flatten(g, front) + GroupAt(g, id);
  }

  lemma FlattenAppendBeforeLast<T>(g: map<string, seq<T>>, ids: seq<string>, id: string, v: T)
    requires ids != [] && ids[|ids| - 1] != id
    requires multiset(Flatten(g[id := GroupAt(g, id) + [v]], ids[..|ids| - 1])) ==
      multiset(Flatten(g, ids[..|ids| - 1])) + multiset{v}
    ensures multiset(Flatten(g[id := GroupAt(g, id) + [v]], ids)) == multiset(Flatten(g, ids)) + multiset{v}
  {
    var n := |ids| - 1;
    var front, last := ids[..n], ids[n];
    var g' := g[id := GroupAt(g, id) + [v]];
    assert Flatten(g', ids) == Flatten(g', front) + GroupAt(g, last);
    assert Flatten(g, ids) == Flatten(g, front) + GroupAt(g, last);
  }

  /** Grouping is a partition of the collection: laying the groups out in
      key order gives back every element exactly as often as it occurs, so
      the group sizes add up to the collection size. */
  lemma {:induction false} GroupingPartitions<T>(xs: seq<T>, key: T -> string)
    ensures multiset(Flatten(GroupBy(xs, key), Ids(xs, key))) == multiset(xs)
    ensures |Flatten(GroupBy(xs, key), Ids(xs, key))| == |xs|
  {
    var flat := Flatten(GroupBy(xs, key), Ids(xs, key));
    if xs != [] {
      var n := |xs| - 1;
      var front, v := xs[..n], xs[n];
      assert xs == front + [v];
      var g, ids, id := GroupBy(front, key), Ids(front, key), key(v);
      var g' := g[id := GroupAt(g, id) + [v]];
      assert GroupBy(xs, key) == g';
      GroupingPartitions(front, key);
      IdsAreKeys(front, key);
      if id in ids {
        assert Ids(xs, key) == ids;
        FlattenAppendOne(g, ids, id, v);
      } else {
        assert Ids(xs, key) == ids + [id];
        assert flat == Flatten(g', ids) + GroupAt(g', id);
        FlattenUpdateOther(g, ids, id, GroupAt(g, id) + [v]);
        assert GroupAt(g, id) == [];
      }
      assert multiset(xs) == multiset(front) + multiset{v};
    }
    assert |flat| == |multiset(flat)|;
  }
}
