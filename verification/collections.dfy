/** The LINQ and collection operations the modelled code applies to lists of
    entities keyed by id: `FirstOrDefault(x => x.Id == k)`, `GroupBy(Id).Select(First)`,
    `ToDictionary(Id)` and the stable `OrderByDescending`. */
module Collections {
  import opened Wrappers
  import opened Text

  /** The keys of a sequence, in order. */
  function Keys<T>(s: seq<T>, key: T -> Snowflake): (r: seq<Snowflake>)
    ensures |r| == |s|
    ensures forall i :: 0 <= i < |s| ==> r[i] == key(s[i])
  {
    seq(|s|, i requires 0 <= i < |s| => key(s[i]))
  }

  /** No key occurs twice. */
  predicate DistinctBy<T>(s: seq<T>, key: T -> Snowflake) {
    forall i, j :: 0 <= i < j < |s| ==> key(s[i]) != key(s[j])
  }

  /** `FirstOrDefault(x => key(x) == k)`. */
  function FirstBy<T>(s: seq<T>, key: T -> Snowflake, k: Snowflake): (r: Option<T>)
    ensures r.Some? ==> key(r.value) == k && r.value in s
  {
    if s == [] then None
    else
      var f := FirstBy(s[..|s| - 1], key, k);
      if f.Some? then f else if key(s[|s| - 1]) == k then Some(s[|s| - 1]) else None
  }

  /** `FirstOrDefault` finds an element exactly when one has the key, and the
      one it finds comes before every other element with that key. */
  lemma {:induction false} FirstByFinds<T>(s: seq<T>, key: T -> Snowflake, k: Snowflake)
    ensures FirstBy(s, key, k).Some? <==> k in Keys(s, key)
    ensures FirstBy(s, key, k).Some? ==>
      exists i :: 0 <= i < |s| && s[i] == FirstBy(s, key, k).value
                  && forall j :: 0 <= j < i ==> key(s[j]) != k
  {
    if s != [] {
      var p := s[..|s| - 1];
      FirstByFinds(p, key, k);
      assert Keys(s, key) == Keys(p, key) + [key(s[|s| - 1])];
      if FirstBy(p, key, k).Some? {
        var i :| 0 <= i < |p| && p[i] == FirstBy(p, key, k).value
                 && forall j :: 0 <= j < i ==> key(p[j]) != k;
        assert s[i] == p[i];
      } else if key(s[|s| - 1]) == k {
        assert forall j :: 0 <= j < |p| ==> key(s[j]) != k by {
          forall j | 0 <= j < |p| ensures key(s[j]) != k {
            assert Keys(p, key)[j] == key(p[j]);
          }
        }
      }
    }
  }

  /** Appending never changes what an existing key finds. */
  lemma FirstByAppend<T>(s: seq<T>, x: T, key: T -> Snowflake, k: Snowflake)
    ensures FirstBy(s + [x], key, k) ==
      if FirstBy(s, key, k).Some? then FirstBy(s, key, k)
      else if key(x) == k then Some(x) else None
  {
    assert (s + [x])[..|s + [x]| - 1] == s;
  }

  /** In a sequence without repeated keys, the element at a position is the
      one its key finds. */
  lemma {:induction false} FirstByDistinct<T>(s: seq<T>, key: T -> Snowflake, i: int)
    requires DistinctBy(s, key) && 0 <= i < |s|
    ensures FirstBy(s, key, key(s[i])) == Some(s[i])
  {
    var p := s[..|s| - 1];
    if i < |s| - 1 {
      FirstByDistinct(p, key, i);
    } else {
      FirstByFinds(p, key, key(s[i]));
      forall j | 0 <= j < |p| ensures Keys(p, key)[j] != key(s[i]) {
        assert p[j] == s[j];
      }
    }
  }

  // ---------------------------------------------------------------------
  // `GroupBy(x => x.Id).Select(g => g.First())`

  /** One element per key, the first of its group, in order of first appearance. */
  function DedupBy<T>(s: seq<T>, key: T -> Snowflake): (r: seq<T>)
    ensures |r| <= |s|
  {
    if s == [] then []
    else
      var r := DedupBy(s[..|s| - 1], key);
      if key(s[|s| - 1]) in Keys(r, key) then r else r + [s[|s| - 1]]
  }

  /** Grouping keeps every key once, and keeps the first element of each group. */
  lemma {:induction false} DedupByKeeps<T>(s: seq<T>, key: T -> Snowflake)
    ensures DistinctBy(DedupBy(s, key), key)
    ensures forall k :: k in Keys(DedupBy(s, key), key) <==> k in Keys(s, key)
    ensures forall i :: 0 <= i < |DedupBy(s, key)| ==>
      FirstBy(s, key, key(DedupBy(s, key)[i])) == Some(DedupBy(s, key)[i])
  {
    if s != [] {
      var p := s[..|s| - 1];
      var x := s[|s| - 1];
      var rp := DedupBy(p, key);
      DedupByKeeps(p, key);
      assert Keys(s, key) == Keys(p, key) + [key(x)];
      var r := DedupBy(s, key);
      forall i | 0 <= i < |r|
        ensures FirstBy(s, key, key(r[i])) == Some(r[i])
      {
        FirstByAppend(p, x, key, key(r[i]));
        assert s == p + [x];
        if i < |rp| {
          assert r[i] == rp[i];
        } else {
          assert r == rp + [x] && r[i] == x;
          FirstByFinds(p, key, key(x));
        }
      }
      if key(x) !in Keys(rp, key) {
        assert Keys(r, key) == Keys(rp, key) + [key(x)];
        forall i, j | 0 <= i < j < |r| ensures key(r[i]) != key(r[j]) {
          if j == |rp| {
            assert key(r[i]) == Keys(rp, key)[i];
          }
        }
      }
    }
  }

  // ---------------------------------------------------------------------
  // `ToDictionary(x => x.Id)`

  /** The dictionary of a sequence; later elements win on a repeated key, which
      `ToDictionary` would reject (callers check `DistinctBy` first). */
  function ToMapBy<T>(s: seq<T>, key: T -> Snowflake): (m: map<Snowflake, T>)
    ensures forall k :: k in m <==> k in Keys(s, key)
    ensures forall k :: k in m ==> key(m[k]) == k
  {
    if s == [] then map[]
    else
      var p := s[..|s| - 1];
      assert Keys(s, key) == Keys(p, key) + [key(s[|s| - 1])];
      ToMapBy(p, key)[key(s[|s| - 1]) := s[|s| - 1]]
  }

  /** `ToDictionary(key)`, which throws on a repeated key. */
  function ToDictionary<T>(s: seq<T>, key: T -> Snowflake): Result<map<Snowflake, T>> {
    if DistinctBy(s, key) then Ok(ToMapBy(s, key)) else Err(DuplicateKey)
  }

  /** On a sequence without repeated keys the dictionary maps each key to the
      element `FirstOrDefault` finds. */
  lemma {:induction false} ToMapByFirst<T>(s: seq<T>, key: T -> Snowflake, k: Snowflake)
    requires DistinctBy(s, key) && k in Keys(s, key)
    ensures k in ToMapBy(s, key) && Some(ToMapBy(s, key)[k]) == FirstBy(s, key, k)
  {
    var i :| 0 <= i < |s| && Keys(s, key)[i] == k;
    FirstByDistinct(s, key, i);
    ToMapByAt(s, key, i);
  }

  lemma {:induction false} ToMapByAt<T>(s: seq<T>, key: T -> Snowflake, i: int)
    requires DistinctBy(s, key) && 0 <= i < |s|
    ensures key(s[i]) in ToMapBy(s, key) && ToMapBy(s, key)[key(s[i])] == s[i]
  {
    if i < |s| - 1 {
      var p := s[..|s| - 1];
      ToMapByAt(p, key, i);
      assert p[i] == s[i];
    }
  }

  // ---------------------------------------------------------------------
  // `OrderByDescending(key)` (a stable sort)

  predicate Descending<T>(s: seq<T>, key: T -> int) {
    forall i, j :: 0 <= i < j < |s| ==> key(s[i]) >= key(s[j])
  }

  predicate StrictlyDescending<T>(s: seq<T>, key: T -> int) {
    forall i, j :: 0 <= i < j < |s| ==> key(s[i]) > key(s[j])
  }

  /** Inserts `x` after every leading element whose key is at least its own. */
  function InsertDesc<T>(s: seq<T>, x: T, key: T -> int): (r: seq<T>)
    ensures multiset(r) == multiset(s) + multiset{x}
  {
    if s == [] then [x]
    else if key(s[0]) >= key(x) then
      assert s == [s[0]] + s[1..];
      [s[0]] + InsertDesc(s[1..], x, key)
    else [x] + s
  }

  /** A stable sort by descending key. */
  function SortDesc<T>(s: seq<T>, key: T -> int): (r: seq<T>)
    ensures multiset(r) == multiset(s)
  {
    if s == [] then []
    else
      assert s == s[..|s| - 1] + [s[|s| - 1]];
      InsertDesc(SortDesc(s[..|s| - 1], key), s[|s| - 1], key)
  }

  lemma {:induction false} InsertDescSorted<T>(s: seq<T>, x: T, key: T -> int)
    requires Descending(s, key)
    ensures Descending(InsertDesc(s, x, key), key)
  {
    if s != [] && key(s[0]) >= key(x) {
      InsertDescSorted(s[1..], x, key);
      var r := InsertDesc(s, x, key);
      forall j | 1 <= j < |r| ensures key(r[0]) >= key(r[j]) {
        assert r[j] in multiset(InsertDesc(s[1..], x, key));
        assert r[j] in multiset(s[1..]) + multiset{x};
        if r[j] != x {
          assert r[j] in s[1..];
        }
      }
    }
  }

  /** The result of `OrderByDescending` is ordered and a permutation of its input. */
  lemma {:induction false} SortDescSorted<T>(s: seq<T>, key: T -> int)
    ensures Descending(SortDesc(s, key), key)
    ensures multiset(SortDesc(s, key)) == multiset(s)
  {
    if s != [] {
      SortDescSorted(s[..|s| - 1], key);
      InsertDescSorted(SortDesc(s[..|s| - 1], key), s[|s| - 1], key);
    }
  }

  predicate DistinctKeys<T>(s: seq<T>, key: T -> int) {
    forall i, j :: 0 <= i < j < |s| ==> key(s[i]) != key(s[j])
  }

  /** With no repeated keys, the sorted sequence is strictly descending. */
  lemma SortDescStrict<T>(s: seq<T>, key: T -> int)
    requires DistinctKeys(s, key)
    ensures StrictlyDescending(SortDesc(s, key), key)
  {
    SortDescSorted(s, key);
    SortDescDistinct(s, key);
  }

  lemma {:induction false} SortDescDistinct<T>(s: seq<T>, key: T -> int)
    requires DistinctKeys(s, key)
    ensures DistinctKeys(SortDesc(s, key), key)
  {
    if s != [] {
      var p := s[..|s| - 1];
      var x := s[|s| - 1];
      SortDescDistinct(p, key);
      var sp := SortDesc(p, key);
      forall y | y in sp ensures key(y) != key(x) {
        assert y in multiset(sp);
        var i :| 0 <= i < |p| && p[i] == y;
        assert s[i] == y;
      }
      InsertDescDistinct(sp, x, key);
    }
  }

  lemma {:induction false} InsertDescDistinct<T>(s: seq<T>, x: T, key: T -> int)
    requires DistinctKeys(s, key)
    requires forall y :: y in s ==> key(y) != key(x)
    ensures DistinctKeys(InsertDesc(s, x, key), key)
  {
    var r := InsertDesc(s, x, key);
    if s != [] && key(s[0]) >= key(x) {
      InsertDescDistinct(s[1..], x, key);
      forall j | 1 <= j < |r| ensures key(r[0]) != key(r[j]) {
        assert r[j] in multiset(InsertDesc(s[1..], x, key));
        assert r[j] in multiset(s[1..]) + multiset{x};
        if r[j] != x {
          var k :| 0 <= k < |s[1..]| && s[1..][k] == r[j];
          assert s[k + 1] == r[j];
        }
      }
    } else if s != [] {
      forall j | 1 <= j < |r| ensures key(r[0]) != key(r[j]) {
        assert r[j] == s[j - 1];
      }
    }
  }
}
