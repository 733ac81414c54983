/** Index-based list helpers and map helpers of the library's util package.
    A Kotlin `List<T>` is a `seq<T>`, a `MutableList<T>` is a `seq<T>` that a
    method returns in its new state, and a `Map<K, V>` is a `map<K, V>`. */
module Collections {
  import opened Wrappers

  // ---------------------------------------------------------------------------
  // firstNotNullOfOrNullIndices
  // ---------------------------------------------------------------------------

  /** Scans the list by index and returns the first non-null `transform`
      result, or null when every element transforms to null. */
  method FirstNotNullOfOrNull<R, T>(list: seq<R>, transform: R -> Option<T>) returns (r: Option<T>)
    ensures r.None? <==> forall i :: 0 <= i < |list| ==> transform(list[i]).None?
    ensures r.Some? ==>
      exists i :: 0 <= i < |list| && transform(list[i]) == r
                  && forall j :: 0 <= j < i ==> transform(list[j]).None?
  {
    var i := 0;
    while i < |list|
      invariant 0 <= i <= |list|
      invariant forall j :: 0 <= j < i ==> transform(list[j]).None?
    {
      var t := transform(list[i]);
      if t.Some? {
        return t;
      }
      i := i + 1;
    }
    return None;
  }

  // ---------------------------------------------------------------------------
  // removeIfIndices
  // ---------------------------------------------------------------------------

  /** Reference definition: the elements of `s` for which `predicate` is false,
      in their original order. Defined on the last element so that it grows
      with the prefix a left-to-right scan has already seen. */
  function Retained<T>(s: seq<T>, pred: T -> bool): (r: seq<T>)
  {
    if |s| == 0 then []
    else Retained(s[..|s| - 1], pred) + (if pred(s[|s| - 1]) then [] else [s[|s| - 1]])
  }

  /** An element survives exactly when it was in the list and the predicate rejects it. */
  lemma {:induction false} RetainedMembership<T>(s: seq<T>, pred: T -> bool, x: T)
    ensures x in Retained(s, pred) <==> x in s && !pred(x)
    decreases |s|
  {
    if |s| > 0 {
      var init := s[..|s| - 1];
      RetainedMembership(init, pred, x);
      assert s == init + [s[|s| - 1]];
    }
  }

  /** Retained never lengthens the list; it keeps it whole exactly when nothing matches. */
  lemma {:induction false} RetainedLength<T>(s: seq<T>, pred: T -> bool)
    ensures |Retained(s, pred)| <= |s|
    ensures |Retained(s, pred)| == |s| <==> forall i :: 0 <= i < |s| ==> !pred(s[i])
    decreases |s|
  {
    if |s| > 0 {
      var init := s[..|s| - 1];
      RetainedLength(init, pred);
      if pred(s[|s| - 1]) {
        assert !(forall i :: 0 <= i < |s| ==> !pred(s[i]));
      } else {
        assert (forall i :: 0 <= i < |s| ==> !pred(s[i]))
           <==> (forall i :: 0 <= i < |init| ==> !pred(init[i]));
      }
    }
  }

  /** Extending the scanned prefix by one element extends Retained by that
      element exactly when the predicate rejects it. */
  lemma RetainedStep<T>(list: seq<T>, k: nat, pred: T -> bool)
    requires k < |list|
    ensures Retained(list[..k + 1], pred)
         == Retained(list[..k], pred) + (if pred(list[k]) then [] else [list[k]])
  {
    assert list[..k + 1][..k] == list[..k];
  }

  /** The state of the removal loop after scanning `rawIndex` elements:
      `numDeleted` counts the removed ones, the list holds the retained part
      of the scanned prefix followed by the unscanned suffix, and the
      predicate has seen exactly the scanned prefix. */
  ghost predicate Scanned<T>(list: seq<T>, pred: T -> bool, rawIndex: int, numDeleted: int,
                             current: seq<T>, tested: seq<T>)
  {
    && 0 <= numDeleted <= rawIndex <= |list|
    && numDeleted == rawIndex - |Retained(list[..rawIndex], pred)|
    && current == Retained(list[..rawIndex], pred) + list[rawIndex..]
    && tested == list[..rawIndex]
  }

  /** One iteration of the removal loop: the next unscanned element sits at
      `rawIndex - numDeleted`, and testing it, then removing it when the
      predicate holds, gives the state for the next index. */
  lemma RemoveIfStep<T>(list: seq<T>, pred: T -> bool, rawIndex: int, numDeleted: int,
                        current: seq<T>, tested: seq<T>)
    requires rawIndex < |list|
    requires Scanned(list, pred, rawIndex, numDeleted, current, tested)
    ensures 0 <= rawIndex - numDeleted < |current| && current[rawIndex - numDeleted] == list[rawIndex]
    ensures pred(list[rawIndex]) ==>
      var index := rawIndex - numDeleted;
      Scanned(list, pred, rawIndex + 1, numDeleted + 1, current[..index] + current[index + 1..], tested + [list[rawIndex]])
    ensures !pred(list[rawIndex]) ==>
      Scanned(list, pred, rawIndex + 1, numDeleted, current, tested + [list[rawIndex]])
  {
    var kept := Retained(list[..rawIndex], pred);
    var x := list[rawIndex];
    assert |kept| <= |list[..rawIndex]| by { RetainedLength(list[..rawIndex], pred); }
    RetainedStep(list, rawIndex, pred);
    assert list[rawIndex..] == [x] + list[rawIndex + 1..];
    RemoveAtJoin(kept, x, list[rawIndex + 1..], current);
    assert list[..rawIndex + 1] == tested + [x];
  }

  /** Removing the element right after a prefix joins the prefix to the rest. */
  lemma RemoveAtJoin<T>(prefix: seq<T>, x: T, rest: seq<T>, current: seq<T>)
    requires current == prefix + [x] + rest
    ensures |prefix| < |current| && current[|prefix|] == x
    ensures current[..|prefix|] + current[|prefix| + 1..] == prefix + rest
  {
    assert current[..|prefix|] == prefix;
    assert current[|prefix| + 1..] == rest;
  }

  /** The in-place removal loop. `tested` records, in call order, every
      element handed to `pred`. The list shrinks under the loop, so the
      element that was at `rawIndex` is found at `rawIndex - numDeleted`. */
  method RemoveIf<T>(list: seq<T>, pred: T -> bool) returns (result: seq<T>, tested: seq<T>)
    ensures result == Retained(list, pred)
    ensures tested == list
  {
    result := list;
    tested := [];
    var numDeleted := 0;
    var rawIndex := 0;
    while rawIndex < |list|
      invariant Scanned(list, pred, rawIndex, numDeleted, result, tested)
    {
      RemoveIfStep(list, pred, rawIndex, numDeleted, result, tested);
      var index := rawIndex - numDeleted;
      var element := result[index];
      tested := tested + [element];
      if pred(element) {
        result := result[..index] + result[index + 1..];
        numDeleted := numDeleted + 1;
      }
      rawIndex := rawIndex + 1;
    }
    assert list[..rawIndex] == list && list[rawIndex..] == [];
  }

  // ---------------------------------------------------------------------------
  // toImmutableMap
  // ---------------------------------------------------------------------------

  lemma SingletonKeys<K>(keys: set<K>, k: K)
    requires |keys| == 1 && k in keys
    ensures keys == {k}
  {
    assert |keys - {k}| == 0;
  }

  /** Chooses an empty map, a singleton or a copy by size; every branch holds
      exactly the input's entries. */
  function ToImmutableMap<K, V>(m: map<K, V>): (r: map<K, V>)
    ensures r == m
  {
    if |m| == 0 then map[]
    else if |m| == 1 then
      var k :| k in m;
      SingletonKeys(m.Keys, k);
      map[k := m[k]]
    else m
  }

  // ---------------------------------------------------------------------------
  // forEachIndices
  // ---------------------------------------------------------------------------

  /** Reference definition: the effect of applying `action` to the elements
      of `s` one after the other, starting from state `start`. */
  function Applied<S, T>(action: (S, T) -> S, start: S, s: seq<T>): (r: S)
  {
    if |s| == 0 then start
    else action(Applied(action, start, s[..|s| - 1]), s[|s| - 1])
  }

  /** The index loop: the side effect of `action` is threaded through as a state. */
  method ForEach<S, T>(list: seq<T>, action: (S, T) -> S, start: S) returns (state: S)
    ensures state == Applied(action, start, list)
  {
    state := start;
    var i := 0;
    while i < |list|
      invariant 0 <= i <= |list|
      invariant state == Applied(action, start, list[..i])
    {
      assert list[..i + 1][..i] == list[..i];
      state := action(state, list[i]);
      i := i + 1;
    }
    assert list[..i] == list;
  }

  function Record<T>(log: seq<T>, x: T): (r: seq<T>) { log + [x] }

  /** An action that logs its argument sees every element exactly once, in index order. */
  lemma {:induction false} ForEachVisitsInOrder<T>(s: seq<T>, log: seq<T>)
    ensures Applied(Record, log, s) == log + s
    decreases |s|
  {
    if |s| > 0 {
      ForEachVisitsInOrder(s[..|s| - 1], log);
      assert s == s[..|s| - 1] + [s[|s| - 1]];
    }
  }

  // ---------------------------------------------------------------------------
  // mapNotNullValues
  // ---------------------------------------------------------------------------

  /** Visits every entry once (in an unspecified order) and keeps the
      non-null transform results under the entry's key. */
  method MapNotNullValues<K, V, R>(m: map<K, V>, transform: (K, V) -> Option<R>) returns (r: map<K, R>)
    ensures forall k :: k in r <==> k in m && transform(k, m[k]).Some?
    ensures forall k :: k in r ==> transform(k, m[k]) == Some(r[k])
  {
    r := map[];
    var remaining := m.Keys;
    while remaining != {}
      invariant remaining <= m.Keys
      invariant forall k :: k in r <==> k in m && k !in remaining && transform(k, m[k]).Some?
      invariant forall k :: k in r ==> transform(k, m[k]) == Some(r[k])
      decreases remaining
    {
      var key :| key in remaining;
      var value := transform(key, m[key]);
      if value.Some? {
        r := r[key := value.value];
      }
      remaining := remaining - {key};
    }
  }

  // ---------------------------------------------------------------------------
  // indexOfElement
  // ---------------------------------------------------------------------------

  /** What `List.get` throws for an index outside the list. */
  datatype ListError = IndexOutOfBounds(index: int)

  /** Linear search from `startIndex`; a miss answers `size`, not -1.
      A negative start makes the first `get` throw. */
  method IndexOfElement<T(==)>(list: seq<T>, element: T, startIndex: int) returns (r: Result<int, ListError>)
    ensures startIndex < 0 <==> r.Failure?
    ensures r.Failure? ==> r.error == IndexOutOfBounds(startIndex)
    ensures r.Success? ==> r.value == |list| || (startIndex <= r.value < |list| && list[r.value] == element)
    ensures r.Success? ==> forall i :: startIndex <= i < r.value && i < |list| ==> list[i] != element
  {
    if startIndex < 0 {
      return Failure(IndexOutOfBounds(startIndex));
    }
    var i := startIndex;
    while i < |list|
      invariant startIndex <= i
      invariant forall j :: startIndex <= j < i && j < |list| ==> list[j] != element
    {
      if list[i] == element {
        return Success(i);
      }
      i := i + 1;
    }
    return Success(|list|);
  }
}
