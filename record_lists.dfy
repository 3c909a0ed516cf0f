/** The three list transformations every entity service of the portal is built
    from: `list.filter(keep)`, the id-matching merge
    `list.map(x => x.id === id ? { ...x, ...patch } : x)` and the id-removing
    filter `list.filter(x => x.id !== id)`. */
module RecordLists {
  import opened JsValues

  /** What an add/create service returns: the list it writes and the record it
      built. */
  datatype Inserted = Inserted(list: seq<Record>, record: Record)

  /** The `id` field of a stored record. */
  function IdOf(r: Record): Value
  {
    Get(r, "id")
  }

  /** The ids present in a list. */
  function Ids(list: seq<Record>): (ids: set<Value>)
    ensures forall i :: 0 <= i < |list| ==> IdOf(list[i]) in ids
    ensures forall v :: v in ids ==> exists i :: 0 <= i < |list| && IdOf(list[i]) == v
  {
    set i | 0 <= i < |list| :: IdOf(list[i])
  }

  // ---------------------------------------------------------------------
  // filter

  /** `s.filter(keep)`: the elements that satisfy `keep`, in their order. */
  function Filter<T(==)>(s: seq<T>, keep: T -> bool): (r: seq<T>)
    ensures |r| <= |s|
    ensures forall x :: x in r ==> x in s && keep(x)
    ensures forall x :: x in s && keep(x) ==> x in r
  {
    if s == [] then []
    else (if keep(s[0]) then [s[0]] else []) + Filter(s[1..], keep)
  }

  /** `a` is obtained from `b` by deleting elements (order is kept). */
  predicate IsSubsequence<T(==)>(a: seq<T>, b: seq<T>)
    decreases |b|
  {
    a == [] || (b != [] && if a[0] == b[0] then IsSubsequence(a[1..], b[1..]) else IsSubsequence(a, b[1..]))
  }

  /** Filtering works element by element: it distributes over concatenation,
      so the kept elements appear in the order they had. */
  lemma {:induction false} FilterAppend<T>(a: seq<T>, b: seq<T>, keep: T -> bool)
    ensures Filter(a + b, keep) == Filter(a, keep) + Filter(b, keep)
    decreases |a|
  {
    if a == [] {
      assert a + b == b;
    } else {
      assert (a + b)[0] == a[0];
      assert (a + b)[1..] == a[1..] + b;
      FilterAppend(a[1..], b, keep);
    }
  }

  /** The result of a filter is a subsequence of its input. */
  lemma {:induction false} FilterIsSubsequence<T>(s: seq<T>, keep: T -> bool)
    ensures IsSubsequence(Filter(s, keep), s)
    decreases |s|
  {
    if s != [] {
      FilterIsSubsequence(s[1..], keep);
      var rest := Filter(s[1..], keep);
      if keep(s[0]) {
        assert Filter(s, keep) == [s[0]] + rest;
        assert ([s[0]] + rest)[1..] == rest;
      } else {
        assert Filter(s, keep) == rest;
        SkipHead(rest, s);
      }
    }
  }

  /** A subsequence of the tail of `b` is a subsequence of `b`. */
  lemma {:induction false} SkipHead<T>(a: seq<T>, b: seq<T>)
    requires b != [] && IsSubsequence(a, b[1..])
    ensures IsSubsequence(a, b)
    decreases |b|, 0
  {
    if a != [] && a[0] == b[0] {
      // the greedy match takes b[0]; a[1..] still fits into the tail
      SubsequenceTail(a, b[1..]);
    }
  }

  /** Dropping the head of a subsequence keeps it a subsequence. */
  lemma {:induction false} SubsequenceTail<T>(a: seq<T>, b: seq<T>)
    requires a != [] && IsSubsequence(a, b)
    ensures IsSubsequence(a[1..], b)
    decreases |b|, 1
  {
    assert b != [];
    if a[0] == b[0] {
      if a[1..] != [] {
        SkipHead(a[1..], b);
      }
    } else {
      SubsequenceTail(a, b[1..]);
      if a[1..] != [] {
        SkipHead(a[1..], b);
      }
    }
  }

  /** A filter that keeps every element returns its input unchanged. */
  lemma {:induction false} FilterKeepsAll<T>(s: seq<T>, keep: T -> bool)
    requires forall x :: x in s ==> keep(x)
    ensures Filter(s, keep) == s
    decreases |s|
  {
    if s != [] {
      FilterKeepsAll(s[1..], keep);
    }
  }

  /** Filtering twice with the same predicate is filtering once. */
  lemma FilterIdempotent<T>(s: seq<T>, keep: T -> bool)
    ensures Filter(Filter(s, keep), keep) == Filter(s, keep)
  {
    FilterKeepsAll(Filter(s, keep), keep);
  }

  /** The number of elements of `s` that satisfy `keep`. */
  function Count<T(==)>(s: seq<T>, keep: T -> bool): (n: nat)
    ensures n <= |s|
    ensures n == 0 <==> forall x :: x in s ==> !keep(x)
  {
    var r := Filter(s, keep);
    assert r != [] ==> r[0] in r;
    |r|
  }

  /** Counting is additive over concatenation ... */
  lemma CountAppend<T>(a: seq<T>, b: seq<T>, keep: T -> bool)
    ensures Count(a + b, keep) == Count(a, keep) + Count(b, keep)
  {
    FilterAppend(a, b, keep);
  }

  /** ... and one element contributes one exactly when it qualifies, so
      together with `Count([], keep) == 0` these fix every count. */
  lemma CountSingle<T>(x: T, keep: T -> bool)
    ensures Count([x], keep) == if keep(x) then 1 else 0
  {
    assert [x][1..] == [];
  }

  // ---------------------------------------------------------------------
  // merge by id

  /** `list.map(x => x.id === id ? { ...x, ...patch } : x)`. */
  function MergeById(list: seq<Record>, id: Value, patch: Record): (r: seq<Record>)
    ensures |r| == |list|
    ensures forall i :: 0 <= i < |list| && IdOf(list[i]) == id ==> r[i] == Spread(list[i], patch)
    ensures forall i :: 0 <= i < |list| && IdOf(list[i]) != id ==> r[i] == list[i]
  {
    seq(|list|, i requires 0 <= i < |list| => if IdOf(list[i]) == id then Spread(list[i], patch) else list[i])
  }

  /** Merging a patch for an id that no entry carries changes nothing. */
  lemma MergeAbsentId(list: seq<Record>, id: Value, patch: Record)
    requires id !in Ids(list)
    ensures MergeById(list, id, patch) == list
  {
    var r := MergeById(list, id, patch);
    forall i | 0 <= i < |list| ensures r[i] == list[i] {
      assert IdOf(list[i]) in Ids(list);
    }
  }

  /** When only the first entry carries the id, the update patches that
      entry alone. */
  lemma MergeFront(x: Record, rest: seq<Record>, id: Value, patch: Record)
    requires IdOf(x) == id && id !in Ids(rest)
    ensures MergeById([x] + rest, id, patch) == [Spread(x, patch)] + rest
  {
    var r := MergeById([x] + rest, id, patch);
    forall i | 1 <= i < |r| ensures r[i] == rest[i - 1] {
      assert ([x] + rest)[i] == rest[i - 1];
      assert IdOf(rest[i - 1]) in Ids(rest);
    }
  }

  /** A patch that does not rename the entry leaves every id where it was. */
  lemma MergeKeepsIds(list: seq<Record>, id: Value, patch: Record)
    requires "id" !in patch || patch["id"] == id
    ensures forall i :: 0 <= i < |list| ==> IdOf(MergeById(list, id, patch)[i]) == IdOf(list[i])
  {
  }

  /** Applying the same patch twice is applying it once. */
  lemma MergeIdempotent(list: seq<Record>, id: Value, patch: Record)
    requires "id" !in patch || patch["id"] == id
    ensures MergeById(MergeById(list, id, patch), id, patch) == MergeById(list, id, patch)
  {
    var once := MergeById(list, id, patch);
    var twice := MergeById(once, id, patch);
    forall i | 0 <= i < |list| ensures twice[i] == once[i] {
      if IdOf(list[i]) == id {
        assert IdOf(once[i]) == id;
        assert Spread(Spread(list[i], patch), patch) == Spread(list[i], patch);
      }
    }
  }

  // ---------------------------------------------------------------------
  // remove by id

  /** The filter predicate `x => x.id !== id`. */
  function OtherThan(id: Value): Record -> bool
  {
    x => IdOf(x) != id
  }

  /** `list.filter(x => x.id !== id)`. */
  function RemoveById(list: seq<Record>, id: Value): (r: seq<Record>)
    ensures forall x :: x in r ==> x in list && IdOf(x) != id
    ensures forall x :: x in list && IdOf(x) != id ==> x in r
    ensures id !in Ids(r)
    ensures IsSubsequence(r, list)
  {
    FilterIsSubsequence(list, OtherThan(id));
    var r := Filter(list, OtherThan(id));
    assert forall i :: 0 <= i < |r| ==> r[i] in r;
    r
  }

  /** Removing an id no entry carries is a no-op. */
  lemma RemoveAbsentId(list: seq<Record>, id: Value)
    requires id !in Ids(list)
    ensures RemoveById(list, id) == list
  {
    forall x | x in list ensures OtherThan(id)(x) {
      var i :| 0 <= i < |list| && list[i] == x;
      assert IdOf(list[i]) in Ids(list);
    }
    FilterKeepsAll(list, OtherThan(id));
  }

  /** Removing twice is removing once. */
  lemma RemoveIdempotent(list: seq<Record>, id: Value)
    ensures RemoveById(RemoveById(list, id), id) == RemoveById(list, id)
  {
    RemoveAbsentId(RemoveById(list, id), id);
  }

  /** Removal shrinks the list by exactly the number of entries with that id. */
  lemma {:induction false} RemoveCount(list: seq<Record>, id: Value)
    ensures |RemoveById(list, id)| == |list| - Count(list, (x: Record) => IdOf(x) == id)
    decreases |list|
  {
    if list != [] {
      RemoveCount(list[1..], id);
    }
  }
}
