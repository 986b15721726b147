/**
 * `SharedElementCollection<T>`: hands out dense indices to values in order
 * of first occurrence, looks them up, and drains once, releasing each entry
 * as it goes. The shared-string table and the style table are both built on
 * it.
 */
module SharedElements {
  import opened Wrappers
  import opened Exceptions

  predicate Distinct<T(==,!new)>(s: seq<T>)
  {
    forall i, j :: 0 <= i < j < |s| ==> s[i] != s[j]
  }

  /** The distinct values of `xs`, each at the place of its first occurrence. */
  function Dedup<T(==,!new)>(xs: seq<T>): (r: seq<T>)
    ensures Distinct(r)
    ensures forall x :: x in r <==> x in xs
    ensures |r| <= |xs|
  {
    if xs == [] then []
    else
      var d := Dedup(xs[..|xs| - 1]);
      var last := xs[|xs| - 1];
      assert forall x :: x in xs <==> x in xs[..|xs| - 1] || x == last by {
        assert xs == xs[..|xs| - 1] + [last];
      }
      if last in d then d else d + [last]
  }

  /** Requesting one more value adds it at the end exactly when it is new. */
  lemma DedupAppend<T(!new)>(xs: seq<T>, x: T)
    ensures Dedup(xs + [x]) == if x in xs then Dedup(xs) else Dedup(xs) + [x]
  {
    assert (xs + [x])[..|xs + [x]| - 1] == xs;
  }

  /** The position of the first occurrence of `x` in `xs`. */
  function FirstIndex<T(==,!new)>(xs: seq<T>, x: T): (k: nat)
    requires x in xs
    ensures k < |xs| && xs[k] == x && forall i :: 0 <= i < k ==> xs[i] != x
  {
    if xs[0] == x then 0 else 1 + FirstIndex(xs[1..], x)
  }

  lemma FirstIndexOfPrefix<T(!new)>(xs: seq<T>, x: T, y: T)
    requires y in xs
    ensures FirstIndex(xs + [x], y) == FirstIndex(xs, y)
  {
    var k := FirstIndex(xs, y);
    var zs := xs + [x];
    assert zs[k] == y;
    FirstIndexIsUnique(zs, y, k);
  }

  /** `FirstIndex` is the one index holding `x` with no earlier `x`. */
  lemma {:induction false} FirstIndexIsUnique<T(!new)>(xs: seq<T>, x: T, k: nat)
    requires k < |xs| && xs[k] == x && forall i :: 0 <= i < k ==> xs[i] != x
    ensures FirstIndex(xs, x) == k
  {
    if xs[0] != x {
      FirstIndexIsUnique(xs[1..], x, k - 1);
    }
  }

  /**
   * Dedup lists the values in order of first occurrence: of two listed
   * values, the earlier one first occurs earlier in the requests.
   */
  lemma {:induction false} DedupIsFirstOccurrenceOrder<T(!new)>(xs: seq<T>)
    ensures forall i, j :: 0 <= i < j < |Dedup(xs)| ==> FirstIndex(xs, Dedup(xs)[i]) < FirstIndex(xs, Dedup(xs)[j])
  {
    if xs != [] {
      var init := xs[..|xs| - 1];
      var last := xs[|xs| - 1];
      assert xs == init + [last];
      DedupIsFirstOccurrenceOrder(init);
      var d := Dedup(init);
      forall i, j | 0 <= i < j < |Dedup(xs)|
        ensures FirstIndex(xs, Dedup(xs)[i]) < FirstIndex(xs, Dedup(xs)[j])
      {
        FirstIndexOfPrefix(init, last, d[i]);
        if j < |d| {
          FirstIndexOfPrefix(init, last, d[j]);
        } else {
          assert last !in init && Dedup(xs)[j] == last;
          FirstIndexIsUnique(xs, last, |init|);
        }
      }
    }
  }

  /** A sequence without repetitions has as many elements as its set. */
  lemma {:induction false} DistinctCardinality<T(!new)>(s: seq<T>)
    requires Distinct(s)
    ensures |set x | x in s| == |s|
  {
    if s != [] {
      var init := s[..|s| - 1];
      assert s == init + [s[|s| - 1]];
      assert Distinct(init);
      DistinctCardinality(init);
      assert (set x | x in s) == (set x | x in init) + {s[|s| - 1]};
    }
  }

  /** Dedup has one entry per distinct requested value. */
  lemma DedupCountsDistinctValues<T(!new)>(xs: seq<T>)
    ensures |Dedup(xs)| == |set x | x in xs|
  {
    DistinctCardinality(Dedup(xs));
    assert (set x | x in Dedup(xs)) == (set x | x in xs);
  }

  /** The position of a value in a sequence without repetitions. */
  function IndexOf<T(==,!new)>(s: seq<T>, x: T): (k: nat)
    requires x in s
    ensures k < |s| && s[k] == x
  {
    if s[0] == x then 0 else 1 + IndexOf(s[1..], x)
  }

  /** In a sequence without repetitions, the position of a value is the one index holding it. */
  lemma {:induction false} IndexOfDistinct<T(!new)>(s: seq<T>, i: nat)
    requires Distinct(s) && i < |s|
    ensures IndexOf(s, s[i]) == i
  {
    if s[0] != s[i] {
      assert Distinct(s[1..]) && s[1..][i - 1] == s[i];
      IndexOfDistinct(s[1..], i - 1);
    }
  }

  /** Appending values after a held value does not move it. */
  lemma {:induction false} IndexOfPrefix<T(!new)>(a: seq<T>, b: seq<T>, x: T)
    requires x in a
    ensures IndexOf(a + b, x) == IndexOf(a, x)
  {
    if a[0] != x {
      assert (a + b)[1..] == a[1..] + b;
      IndexOfPrefix(a[1..], b, x);
    }
  }

  class SharedElementCollection<T(==,!new)> {
    /** The queue of values still held, head first. */
    var items: seq<T>
    /** The index handed out for each value still held. */
    var indexByItem: map<T, int>
    /** Set when a drain starts. */
    var done: bool
    /** Every value passed to `GetOrAllocateElement`, in call order. */
    ghost var requests: seq<T>

    /**
     * The queue holds each value once and the map holds exactly the queued
     * values. Until a drain starts the queue is the requested values in
     * order of first occurrence and each value's index is its position.
     */
    ghost predicate Valid()
      reads this
    {
      Distinct(items) && (forall x :: x in indexByItem <==> x in items) &&
      (!done ==> items == Dedup(requests) && forall k :: 0 <= k < |items| ==> indexByItem[items[k]] == k)
    }

    constructor()
      ensures Valid() && items == [] && indexByItem == map[] && !done && requests == []
    {
      items := [];
      indexByItem := map[];
      done := false;
      requests := [];
    }

    /** `Count`: the number of values held; before a drain, the number of distinct requests. */
    function Count(): (n: int)
      reads this
      requires Valid()
      ensures n == |items|
      ensures !done ==> n == |Dedup(requests)| == |set x | x in requests|
    {
      DedupCountsDistinctValues(requests);
      |items|
    }

    /**
     * `GetOrAllocateElement`: the index already held for `x`, or the next
     * index — the current count — with `x` enqueued.
     */
    method GetOrAllocateElement(x: T) returns (index: int)
      requires Valid()
      modifies this
      ensures Valid()
      ensures requests == old(requests) + [x] && done == old(done)
      ensures x in old(indexByItem) ==>
        index == old(indexByItem[x]) && items == old(items) && indexByItem == old(indexByItem)
      ensures x !in old(indexByItem) ==>
        index == old(|items|) && items == old(items) + [x] && indexByItem == old(indexByItem)[x := index]
      ensures !done ==> 0 <= index < |items| && items[index] == x
    {
      DedupAppend(requests, x);
      requests := requests + [x];
      if x in indexByItem {
        index := indexByItem[x];
        if !done {
          assert items[IndexOf(items, x)] == x;
        }
        return;
      }
      index := |items|;
      items := items + [x];
      indexByItem := indexByItem[x := index];
    }

    /**
     * `GetElementIndex`: the index of a value still held, or
     * KeyNotFoundException. Before a drain a value is held exactly when it
     * was requested, and its index is its place in first-occurrence order.
     */
    method GetElementIndex(x: T) returns (r: Result<int, Exception>)
      requires Valid()
      ensures r.Ok? <==> x in items
      ensures r.Err? ==> r.error == KeyNotFound
      ensures !done ==> (r.Ok? <==> x in requests)
      ensures !done && r.Ok? ==> 0 <= r.value < |Dedup(requests)| && Dedup(requests)[r.value] == x
    {
      if x in indexByItem {
        r := Ok(indexByItem[x]);
        if !done {
          assert items[IndexOf(items, x)] == x;
        }
      } else {
        r := Err(KeyNotFound);
      }
    }

    /**
     * `GetAll`: the held values in index order, without consuming them; once
     * a drain has started, InvalidOperationException.
     */
    method GetAll() returns (r: Result<seq<T>, Exception>)
      requires Valid()
      ensures done <==> r.Err?
      ensures r.Err? ==> r.error == InvalidOperation
      ensures r.Ok? ==> r.value == Dedup(requests)
      ensures r.Ok? ==> forall k :: 0 <= k < |r.value| ==> r.value[k] in indexByItem && indexByItem[r.value[k]] == k
    {
      if done {
        return Err(InvalidOperation);
      }
      r := Ok(items);
    }

    /**
     * `DequeueAll`, enumerated to the end: the check and the `done` flag run
     * when enumeration begins; then each value is dequeued, removed from the
     * map and yielded, in index order, until the queue is empty.
     */
    method DequeueAll() returns (r: Result<seq<T>, Exception>)
      requires Valid()
      modifies this
      ensures Valid()
      ensures old(done) ==> r == Err(InvalidOperation) && items == old(items) && indexByItem == old(indexByItem) && done
      ensures !old(done) ==> r == Ok(old(items)) && r.value == Dedup(requests)
      ensures !old(done) ==> done && items == [] && indexByItem == map[]
      ensures requests == old(requests)
    {
      if done {
        return Err(InvalidOperation);
      }
      done := true;
      var yielded: seq<T> := [];
      while |items| > 0
        invariant yielded + items == old(items)
        invariant Distinct(items)
        invariant forall x :: x in indexByItem <==> x in items
        invariant done && requests == old(requests)
        decreases |items|
      {
        var token := DequeueNext();
        yielded := yielded + [token];
      }
      assert yielded == old(items);
      r := Ok(yielded);
    }

    /** One step of the drain: dequeue the front value and remove it from the map. */
    method DequeueNext() returns (token: T)
      requires |items| > 0 && Distinct(items) && forall x :: x in indexByItem <==> x in items
      modifies this
      ensures token == old(items[0]) && items == old(items[1..])
      ensures Distinct(items) && forall x :: x in indexByItem <==> x in items
      ensures done == old(done) && requests == old(requests)
    {
      token := items[0];
      items := items[1..];
      indexByItem := indexByItem - {token};
      assert forall x :: x in items ==> x != token;
    }
  }

  /**
   * The allocation sequence of the unit tests: "a", "b", "a" get 0, 1, 0,
   * the count is 2 and `GetAll` lists "a", "b".
   */
  method AllocationScenario()
  {
    var c := new SharedElementCollection<string>();
    var i := c.GetOrAllocateElement("a");
    var j := c.GetOrAllocateElement("b");
    assert c.items == ["a", "b"];
    var k := c.GetOrAllocateElement("a");
    assert i == 0 && j == 1 && k == 0 && c.Count() == 2;
    var all := c.GetAll();
    assert all == Ok(["a", "b"]);
  }

  /**
   * Draining: the drain yields "a", "b" and leaves nothing; a second drain
   * and a later `GetAll` both fail; a dequeued value is no longer found.
   */
  method DrainScenario()
  {
    var c := new SharedElementCollection<string>();
    var i := c.GetOrAllocateElement("a");
    var j := c.GetOrAllocateElement("b");
    assert c.items == ["a", "b"];
    var drained := c.DequeueAll();
    assert drained == Ok(["a", "b"]) && c.Count() == 0;
    var again := c.DequeueAll();
    assert again == Err(InvalidOperation);
    var late := c.GetAll();
    assert late == Err(InvalidOperation);
    var gone := c.GetElementIndex("a");
    assert gone == Err(KeyNotFound);
  }
}
