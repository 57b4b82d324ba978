/**
 * The Kotlin collection operations the view-models apply to their record
 * lists: `filter`, `find`, `indexOfFirst` followed by an indexed write,
 * `map` that swaps the records with a given id, and `sumOf`. Records are
 * identified through a key function (their `...Id` field).
 */
module ListOps {
  import opened Wrappers

  /** `filter(p)`: the elements satisfying `p`, in their original order. */
  function Filter<T>(s: seq<T>, p: T -> bool): (r: seq<T>)
    ensures |r| <= |s|
    ensures forall i :: 0 <= i < |r| ==> r[i] in s && p(r[i])
    ensures forall i :: 0 <= i < |s| && p(s[i]) ==> s[i] in r
  {
    if s == [] then [] else (if p(s[0]) then [s[0]] else []) + Filter(s[1..], p)
  }

  /**
   * Filtering by a predicate and by its negation splits a list: together
   * the two results hold exactly its elements, so their lengths add up.
   */
  lemma {:induction false} FilterPartition<T>(s: seq<T>, p: T -> bool, q: T -> bool)
    requires forall x :: q(x) == !p(x)
    ensures multiset(Filter(s, p)) + multiset(Filter(s, q)) == multiset(s)
    ensures |Filter(s, p)| + |Filter(s, q)| == |s|
  {
    if s != [] {
      var x, t := s[0], s[1..];
      FilterPartition(t, p, q);
      assert s == [x] + t;
      assert multiset(s) == multiset{x} + multiset(t);
      if p(x) {
        assert Filter(s, p) == [x] + Filter(t, p);
        assert Filter(s, q) == Filter(t, q);
      } else {
        assert Filter(s, p) == Filter(t, p);
        assert Filter(s, q) == [x] + Filter(t, q);
      }
    }
  }

  /** Filtering distributes over concatenation, so the kept elements stay in order. */
  lemma {:induction false} FilterConcat<T>(a: seq<T>, b: seq<T>, p: T -> bool)
    ensures Filter(a + b, p) == Filter(a, p) + Filter(b, p)
  {
    if a == [] {
      assert a + b == b;
    } else {
      assert (a + b)[1..] == a[1..] + b;
      FilterConcat(a[1..], b, p);
    }
  }

  /** A filter that keeps everything changes nothing. */
  lemma {:induction false} FilterAll<T>(s: seq<T>, p: T -> bool)
    requires forall i :: 0 <= i < |s| ==> p(s[i])
    ensures Filter(s, p) == s
  {
    if s != [] {
      FilterAll(s[1..], p);
    }
  }

  /** Filters whose conditions agree on every element give the same result. */
  lemma {:induction false} FilterCongruent<T>(s: seq<T>, p: T -> bool, q: T -> bool)
    requires forall i :: 0 <= i < |s| ==> p(s[i]) == q(s[i])
    ensures Filter(s, p) == Filter(s, q)
  {
    if s != [] {
      FilterCongruent(s[1..], p, q);
    }
  }

  /** Two successive filters keep what both conditions accept. */
  lemma {:induction false} FilterFilter<T>(s: seq<T>, p: T -> bool, q: T -> bool)
    ensures Filter(Filter(s, p), q) == Filter(s, (x: T) => p(x) && q(x))
  {
    if s != [] {
      FilterFilter(s[1..], p, q);
      var head := if p(s[0]) then [s[0]] else [];
      assert Filter(s, p) == head + Filter(s[1..], p);
      FilterConcat(head, Filter(s[1..], p), q);
    }
  }

  /** `indexOfFirst { key(it) == id }`, with `None` for -1. */
  function IndexWhere<T>(s: seq<T>, key: T -> int, id: int): (r: Option<nat>)
    ensures r.Some? ==> r.value < |s| && key(s[r.value]) == id
    ensures r.Some? ==> forall j :: 0 <= j < r.value ==> key(s[j]) != id
    ensures r.None? ==> forall j :: 0 <= j < |s| ==> key(s[j]) != id
  {
    if s == [] then None
    else if key(s[0]) == id then Some(0)
    else match IndexWhere(s[1..], key, id)
      case None => None
      case Some(k) => Some(k + 1)
  }

  /** `find { key(it) == id }`: the first element with that id, or null. */
  function FindById<T>(s: seq<T>, key: T -> int, id: int): (r: Option<T>)
    ensures r.None? <==> forall j :: 0 <= j < |s| ==> key(s[j]) != id
    ensures r.Some? ==> exists i :: (0 <= i < |s| && s[i] == r.value && key(s[i]) == id
      && forall j :: 0 <= j < i ==> key(s[j]) != id)
  {
    match IndexWhere(s, key, id)
    case None => None
    case Some(i) => Some(s[i])
  }

  /** `filter { key(it) != id }`: every element with that id dropped, the rest kept in order. */
  function RemoveById<T>(s: seq<T>, key: T -> int, id: int): (r: seq<T>)
    ensures |r| <= |s|
    ensures forall i :: 0 <= i < |r| ==> r[i] in s && key(r[i]) != id
    ensures forall i :: 0 <= i < |s| && key(s[i]) != id ==> s[i] in r
  {
    Filter(s, (x: T) => key(x) != id)
  }

  /** Removing an id that no element carries leaves the list as it was. */
  lemma RemoveAbsentId<T>(s: seq<T>, key: T -> int, id: int)
    requires forall j :: 0 <= j < |s| ==> key(s[j]) != id
    ensures RemoveById(s, key, id) == s
  {
    FilterAll(s, (x: T) => key(x) != id);
  }

  /** Removal distributes over concatenation: the order of survivors is kept. */
  lemma RemoveByIdConcat<T>(a: seq<T>, b: seq<T>, key: T -> int, id: int)
    ensures RemoveById(a + b, key, id) == RemoveById(a, key, id) + RemoveById(b, key, id)
  {
    FilterConcat(a, b, (x: T) => key(x) != id);
  }

  /**
   * `indexOfFirst` followed by `list[index] = x` when the index is not -1:
   * the first element with the id is overwritten, nothing else moves.
   */
  function ReplaceFirst<T>(s: seq<T>, key: T -> int, id: int, x: T): (r: seq<T>)
    ensures |r| == |s|
    ensures IndexWhere(s, key, id).None? ==> r == s
    ensures IndexWhere(s, key, id).Some? ==> r == s[IndexWhere(s, key, id).value := x]
  {
    if s == [] then []
    else if key(s[0]) == id then [x] + s[1..]
    else [s[0]] + ReplaceFirst(s[1..], key, id, x)
  }

  /**
   * `map { if (key(it) == id) data ?: it else it }`: every element with the
   * id becomes `data` when there is one; all others stay where they are.
   */
  function MapWhere<T>(s: seq<T>, key: T -> int, id: int, data: Option<T>): (r: seq<T>)
    ensures |r| == |s|
    ensures forall j :: 0 <= j < |s| && key(s[j]) != id ==> r[j] == s[j]
    ensures forall j :: 0 <= j < |s| && key(s[j]) == id ==> r[j] == data.GetOr(s[j])
  {
    if s == [] then []
    else [if key(s[0]) == id then data.GetOr(s[0]) else s[0]] + MapWhere(s[1..], key, id, data)
  }

  /** With no replacement record (a null payload) the list is unchanged. */
  lemma MapWhereNoData<T>(s: seq<T>, key: T -> int, id: int)
    ensures MapWhere(s, key, id, None) == s
  {
  }

  /** A replacement that keeps the id is what a lookup of that id finds afterwards. */
  lemma MapWhereFind<T>(s: seq<T>, key: T -> int, id: int, x: T)
    requires key(x) == id
    requires exists j :: 0 <= j < |s| && key(s[j]) == id
    ensures FindById(MapWhere(s, key, id, Some(x)), key, id) == Some(x)
  {
    var r := MapWhere(s, key, id, Some(x));
    var i := IndexWhere(r, key, id);
    assert i.Some? && r[i.value] == x;
  }

  /** After an append, a lookup of an id no earlier element has finds the appended element. */
  lemma AppendFind<T>(s: seq<T>, key: T -> int, x: T)
    requires forall j :: 0 <= j < |s| ==> key(s[j]) != key(x)
    ensures FindById(s + [x], key, key(x)) == Some(x)
  {
    var r := s + [x];
    assert r[|s|] == x;
    var i := IndexWhere(r, key, key(x));
    assert i.Some?;
  }

  /** `sumOf(f)`. */
  function SumOf<T>(s: seq<T>, f: T -> real): real {
    if s == [] then 0.0 else f(s[0]) + SumOf(s[1..], f)
  }

  /** The sum over a concatenation is the sum of the sums. */
  lemma {:induction false} SumOfConcat<T>(a: seq<T>, b: seq<T>, f: T -> real)
    ensures SumOf(a + b, f) == SumOf(a, f) + SumOf(b, f)
  {
    if a == [] {
      assert a + b == b;
    } else {
      assert (a + b)[1..] == a[1..] + b;
      SumOfConcat(a[1..], b, f);
    }
  }

  /** Terms that are never negative give a sum that is never negative. */
  lemma {:induction false} SumOfNonNegative<T>(s: seq<T>, f: T -> real)
    requires forall i :: 0 <= i < |s| ==> f(s[i]) >= 0.0
    ensures SumOf(s, f) >= 0.0
  {
    if s != [] {
      SumOfNonNegative(s[1..], f);
    }
  }

  /** Each element's key is at least the key of every later element. */
  predicate Descending<T>(s: seq<T>, key: T -> int) {
    forall i, j :: 0 <= i < j < |s| ==> key(s[i]) >= key(s[j])
  }

  /** Inserts `x` after every element whose key is at least its own, so that equal keys keep their order. */
  function InsertDescending<T>(x: T, s: seq<T>, key: T -> int): (r: seq<T>)
    ensures |r| == |s| + 1
  {
    if s == [] then [x]
    else if key(s[0]) >= key(x) then [s[0]] + InsertDescending(x, s[1..], key)
    else [x] + s
  }

  /** Inserting adds exactly `x`. */
  lemma {:induction false} InsertDescendingMultiset<T>(x: T, s: seq<T>, key: T -> int)
    ensures multiset(InsertDescending(x, s, key)) == multiset(s) + multiset{x}
  {
    if s != [] {
      assert s == [s[0]] + s[1..];
      if key(s[0]) >= key(x) {
        InsertDescendingMultiset(x, s[1..], key);
      }
    }
  }

  /** A bound on the keys of `x` and of `s` bounds the keys after inserting. */
  lemma {:induction false} InsertDescendingBound<T>(x: T, s: seq<T>, key: T -> int, m: int)
    requires key(x) <= m && forall i :: 0 <= i < |s| ==> key(s[i]) <= m
    ensures forall i :: 0 <= i < |InsertDescending(x, s, key)| ==> key(InsertDescending(x, s, key)[i]) <= m
  {
    if s != [] && key(s[0]) >= key(x) {
      InsertDescendingBound(x, s[1..], key, m);
      var t := InsertDescending(x, s[1..], key);
      assert InsertDescending(x, s, key) == [s[0]] + t;
    }
  }

  /** Inserting into a descending list keeps it descending. */
  lemma {:induction false} InsertDescendingSorted<T>(x: T, s: seq<T>, key: T -> int)
    requires Descending(s, key)
    ensures Descending(InsertDescending(x, s, key), key)
  {
    if s != [] {
      if key(s[0]) >= key(x) {
        var t := InsertDescending(x, s[1..], key);
        InsertDescendingSorted(x, s[1..], key);
        InsertDescendingBound(x, s[1..], key, key(s[0]));
        var r := [s[0]] + t;
        assert InsertDescending(x, s, key) == r;
        forall i, j | 0 <= i < j < |r| ensures key(r[i]) >= key(r[j]) {
          assert r[j] == t[j - 1];
          if i > 0 {
            assert r[i] == t[i - 1];
          }
        }
      } else {
        var r := [x] + s;
        forall i, j | 0 <= i < j < |r| ensures key(r[i]) >= key(r[j]) {
          assert r[j] == s[j - 1];
          if i > 0 {
            assert r[i] == s[i - 1];
          }
        }
      }
    }
  }

  /** `sortedByDescending(key)`: each element inserted after the ones before it. */
  function SortedByDescending<T>(s: seq<T>, key: T -> int): (r: seq<T>)
    ensures |r| == |s|
  {
    if s == [] then [] else InsertDescending(s[|s| - 1], SortedByDescending(s[..|s| - 1], key), key)
  }

  /** The sorted list is descending and holds the same elements. */
  lemma {:induction false} SortedByDescendingSorted<T>(s: seq<T>, key: T -> int)
    ensures Descending(SortedByDescending(s, key), key)
    ensures multiset(SortedByDescending(s, key)) == multiset(s)
  {
    if s != [] {
      var init := s[..|s| - 1];
      SortedByDescendingSorted(init, key);
      InsertDescendingSorted(s[|s| - 1], SortedByDescending(init, key), key);
      InsertDescendingMultiset(s[|s| - 1], SortedByDescending(init, key), key);
      assert s == init + [s[|s| - 1]];
    }
  }

  /** `take(n)`: the first `n` elements, or all of them when there are fewer. */
  function Primeras<T>(s: seq<T>, n: nat): (r: seq<T>)
    ensures |r| == if |s| < n then |s| else n
    ensures r == s[..|r|]
  {
    if |s| < n then s else s[..n]
  }

  /**
   * A prefix of a descending list is descending, drawn from the list, and
   * no element after it has a key greater than one inside it.
   */
  lemma DescendingPrefix<T>(o: seq<T>, key: T -> int, k: nat)
    requires Descending(o, key) && k <= |o|
    ensures Descending(o[..k], key)
    ensures multiset(o[..k]) <= multiset(o)
    ensures forall x, i | x in multiset(o) - multiset(o[..k]) && 0 <= i < k :: key(x) <= key(o[..k][i])
  {
    var r := o[..k];
    assert o == r + o[k..];
    assert multiset(o) == multiset(r) + multiset(o[k..]);
    forall x, i | x in multiset(o) - multiset(r) && 0 <= i < k
      ensures key(x) <= key(r[i])
    {
      assert x in multiset(o[k..]);
      var j :| 0 <= j < |o| - k && o[k..][j] == x;
      assert o[k + j] == x;
      assert r[i] == o[i];
    }
  }

  /**
   * The first `n` of the sorted list are the `n` greatest: descending,
   * drawn from the list, and every element left out has a key no greater
   * than any one taken.
   */
  lemma TakeOfSortedIsLatest<T>(s: seq<T>, key: T -> int, n: nat)
    ensures Descending(Primeras(SortedByDescending(s, key), n), key)
    ensures multiset(Primeras(SortedByDescending(s, key), n)) <= multiset(s)
    ensures forall x, i | x in multiset(s) - multiset(Primeras(SortedByDescending(s, key), n))
      && 0 <= i < |Primeras(SortedByDescending(s, key), n)| ::
      key(x) <= key(Primeras(SortedByDescending(s, key), n)[i])
  {
    var o := SortedByDescending(s, key);
    SortedByDescendingSorted(s, key);
    var r := Primeras(o, n);
    DescendingPrefix(o, key, |r|);
  }
}
