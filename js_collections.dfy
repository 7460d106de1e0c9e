/** JavaScript's insertion-ordered `Set` and `Map`, as sequences.
    A `Set` is a duplicate-free sequence, `Array.from(set)` is the
    sequence itself; a `Map` from keys to arrays is a sequence of entries
    with distinct keys, in the order the keys were first set. */
module JsCollections {
  import opened Wrappers

  predicate NoDups<T(==,!new)>(s: seq<T>) {
    forall i, j :: 0 <= i < j < |s| ==> s[i] != s[j]
  }

  /** `new Set(arr)`: the first occurrence of each element, in order. */
  function SetOf<T(==,!new)>(s: seq<T>): (r: seq<T>)
    ensures NoDups(r)
    ensures forall x :: x in r <==> x in s
    ensures |r| <= |s|
    ensures NoDups(s) ==> r == s
    decreases |s|
  {
    if |s| == 0 then []
    else
      var front := SetOf(s[..|s| - 1]);
      assert s == s[..|s| - 1] + [s[|s| - 1]];
      if s[|s| - 1] in front then front else front + [s[|s| - 1]]
  }

  /** `set.add(x)`: appends `x` unless it is already there. */
  function Add<T(==,!new)>(s: seq<T>, x: T): (r: seq<T>)
    requires NoDups(s)
    ensures NoDups(r)
    ensures forall y :: y in r <==> y in s || y == x
    ensures x in s ==> r == s
    ensures x !in s ==> r == s + [x]
  {
    if x in s then s else s + [x]
  }

  /** `set.delete(x)`: removes `x`, keeping the order of the rest. */
  function Delete<T(==,!new)>(s: seq<T>, x: T): (r: seq<T>)
    requires NoDups(s)
    ensures NoDups(r)
    ensures forall y :: y in r <==> y in s && y != x
    ensures x in s ==> |r| == |s| - 1
    ensures x !in s ==> r == s
  {
    if |s| == 0 then []
    else if s[0] == x then
      assert forall y :: y in s[1..] ==> y != x;
      s[1..]
    else
      var rest := Delete(s[1..], x);
      assert s[0] !in s[1..];
      [s[0]] + rest
  }

  /** The tail of a sequence without duplicates has none either. */
  lemma NoDupsTail<T(!new)>(s: seq<T>)
    requires |s| > 0 && NoDups(s)
    ensures NoDups(s[1..])
  {
    forall i, j | 0 <= i < j < |s| - 1 ensures s[1..][i] != s[1..][j] {
      assert s[1..][i] == s[i + 1] && s[1..][j] == s[j + 1];
    }
  }

  lemma ConsConcat<T>(a: seq<T>, b: seq<T>)
    requires |a| > 0
    ensures a + b == [a[0]] + (a[1..] + b)
  {
    assert a == [a[0]] + a[1..];
  }

  /** Deleting another element keeps the head in front. */
  lemma DeleteKeepsHead<T(!new)>(s: seq<T>, x: T)
    requires |s| > 0 && NoDups(s) && NoDups(s[1..]) && s[0] != x
    ensures Delete(s, x) == [s[0]] + Delete(s[1..], x)
  {
  }

  /** Deleting an element removes it from where it stands. */
  lemma {:induction false} DeleteAt<T(!new)>(a: seq<T>, x: T, b: seq<T>)
    requires NoDups(a + [x] + b)
    ensures Delete(a + [x] + b, x) == a + b
    decreases |a|
  {
    var s := a + [x] + b;
    if |a| == 0 {
      assert s[1..] == b;
    } else {
      assert s[0] == a[0];
      assert s[1..] == a[1..] + [x] + b;
      assert s[0] != x by { assert s[|a|] == x; }
      NoDupsTail(s);
      DeleteKeepsHead(s, x);
      DeleteAt(a[1..], x, b);
      ConsConcat(a, b);
    }
  }

  /** One entry of an insertion-ordered `Map<K, V[]>`. */
  datatype Entry<K, V> = Entry(key: K, values: seq<V>)

  function Keys<K, V>(m: seq<Entry<K, V>>): (ks: seq<K>)
    ensures |ks| == |m|
    ensures forall i :: 0 <= i < |m| ==> ks[i] == m[i].key
  {
    if |m| == 0 then [] else [m[0].key] + Keys(m[1..])
  }

  predicate DistinctKeys<K(==,!new), V>(m: seq<Entry<K, V>>) {
    forall i, j :: 0 <= i < j < |m| ==> m[i].key != m[j].key
  }

  /** `map.get(k) || []`. */
  function Get<K(==,!new), V>(m: seq<Entry<K, V>>, k: K): seq<V>
    decreases |m|
  {
    if |m| == 0 then []
    else if m[0].key == k then m[0].values
    else Get(m[1..], k)
  }

  /** `if (!map.has(k)) map.set(k, []); map.get(k).push(v)`. */
  function Push<K(==,!new), V>(m: seq<Entry<K, V>>, k: K, v: V): (r: seq<Entry<K, V>>)
    requires DistinctKeys(m)
    ensures DistinctKeys(r)
    ensures forall t :: Get(r, t) == Get(m, t) + (if t == k then [v] else [])
    ensures Keys(r) == if k in Keys(m) then Keys(m) else Keys(m) + [k]
    decreases |m|
  {
    if |m| == 0 then
      [Entry(k, [v])]
    else if m[0].key == k then
      assert k !in Keys(m[1..]);
      assert Keys(m) == [k] + Keys(m[1..]);
      [Entry(k, m[0].values + [v])] + m[1..]
    else
      var rest := Push(m[1..], k, v);
      var r := [m[0]] + rest;
      assert r[1..] == rest;
      assert Keys(m) == [m[0].key] + Keys(m[1..]);
      assert Keys(r) == [m[0].key] + Keys(rest);
      assert m[0].key !in Keys(m[1..]);
      assert m[0].key !in Keys(rest);
      forall i, j | 0 <= i < j < |r| ensures r[i].key != r[j].key {
        if i == 0 { assert r[j].key == Keys(rest)[j - 1]; }
      }
      forall t ensures Get(r, t) == Get(m, t) + (if t == k then [v] else []) {
        if t != m[0].key { assert Get(r, t) == Get(rest, t); }
      }
      r
  }

  /** Two pushes in a row add, to the list of each key, the values pushed
      under that key, in order. */
  lemma PushTwice<K(!new), V>(m: seq<Entry<K, V>>, a: K, x: V, b: K, y: V, t: K)
    requires DistinctKeys(m)
    ensures Get(Push(Push(m, a, x), b, y), t) ==
      Get(m, t) + (if a == t then [x] else []) + (if b == t then [y] else [])
  {
    var m1 := Push(m, a, x);
    assert Get(m1, t) == Get(m, t) + (if t == a then [x] else []);
    assert Get(Push(m1, b, y), t) == Get(m1, t) + (if t == b then [y] else []);
  }

  /** `arr.filter(p)`: the elements satisfying `p`, in their order. */
  function Filter<T(!new)>(s: seq<T>, p: T -> bool): (r: seq<T>)
    ensures |r| <= |s|
    ensures forall x :: x in r <==> x in s && p(x)
    ensures forall k :: 0 <= k < |r| ==> p(r[k])
    decreases |s|
  {
    if |s| == 0 then []
    else if p(s[0]) then [s[0]] + Filter(s[1..], p)
    else Filter(s[1..], p)
  }

  /** Filtering distributes over concatenation, so the order of the kept
      elements is the order they had. */
  lemma {:induction false} FilterConcat<T(!new)>(a: seq<T>, b: seq<T>, p: T -> bool)
    ensures Filter(a + b, p) == Filter(a, p) + Filter(b, p)
    decreases |a|
  {
    if |a| > 0 {
      FilterConcat(a[1..], b, p);
      var c := a + b;
      assert c[0] == a[0] && c[1..] == a[1..] + b;
      FilterHead(c, p);
      FilterHead(a, p);
      ConcatAssoc(HeadKept(a, p), Filter(a[1..], p), Filter(b, p));
    } else {
      assert a + b == b;
    }
  }

  /** The first element, if the filter keeps it. */
  function HeadKept<T>(s: seq<T>, p: T -> bool): seq<T>
    requires |s| > 0
  {
    if p(s[0]) then [s[0]] else []
  }

  /** Filtering a non-empty sequence keeps or drops its head, then filters
      the rest. */
  lemma FilterHead<T(!new)>(s: seq<T>, p: T -> bool)
    requires |s| > 0
    ensures Filter(s, p) == HeadKept(s, p) + Filter(s[1..], p)
  {
  }

  lemma ConcatAssoc<T>(x: seq<T>, y: seq<T>, z: seq<T>)
    ensures x + (y + z) == (x + y) + z
  {
  }

  /** A filter that keeps everything is the identity. */
  lemma {:induction false} FilterAll<T(!new)>(s: seq<T>, p: T -> bool)
    requires forall k :: 0 <= k < |s| ==> p(s[k])
    ensures Filter(s, p) == s
    decreases |s|
  {
    if |s| > 0 {
      FilterAll(s[1..], p);
    }
  }

  /** One more element adds one to the count of a filter, or nothing. */
  lemma FilterSnocCount<T(!new)>(s: seq<T>, x: T, p: T -> bool)
    ensures |Filter(s + [x], p)| == |Filter(s, p)| + (if p(x) then 1 else 0)
  {
    FilterConcat(s, [x], p);
  }

  /** A filter that keeps exactly the first `n` elements gives them. */
  lemma {:induction false} FilterPrefix<T(!new)>(s: seq<T>, n: nat, p: T -> bool)
    requires n <= |s|
    requires forall k :: 0 <= k < n ==> p(s[k])
    requires forall k :: n <= k < |s| ==> !p(s[k])
    ensures Filter(s, p) == s[..n]
    decreases n
  {
    if n == 0 {
      FilterNone(s, p);
    } else {
      var t := s[1..];
      forall k | 0 <= k < n - 1 ensures p(t[k]) {
        assert t[k] == s[k + 1];
      }
      forall k | n - 1 <= k < |t| ensures !p(t[k]) {
        assert t[k] == s[k + 1];
      }
      FilterPrefix(t, n - 1, p);
      assert s[..n] == [s[0]] + t[..n - 1];
    }
  }

  /** A filter that keeps nothing is empty. */
  lemma FilterNone<T(!new)>(s: seq<T>, p: T -> bool)
    requires forall k :: 0 <= k < |s| ==> !p(s[k])
    ensures Filter(s, p) == []
  {
  }

  /** The test `y => y != x`, as one term. */
  function Unequal<T(==)>(x: T): T -> bool {
    (y: T) => y != x
  }

  /** `set.delete(x)` keeps what `filter(y => y !== x)` keeps, in the same
      order. */
  lemma {:induction false} DeleteIsFilter<T(!new)>(s: seq<T>, x: T)
    requires NoDups(s)
    ensures Delete(s, x) == Filter(s, Unequal(x))
    decreases |s|
  {
    if |s| > 0 {
      NoDupsTail(s);
      DeleteIsFilter(s[1..], x);
      FilterHead(s, Unequal(x));
      if s[0] == x {
        FilterAll(s[1..], Unequal(x));
      }
    }
  }

  /** Two disjoint filters whose union is a third keep, together, as many
      elements as the third. */
  lemma {:induction false} FilterSplit<T(!new)>(s: seq<T>, p: T -> bool, q: T -> bool, r: T -> bool)
    requires forall x :: !(p(x) && q(x))
    requires forall x :: r(x) <==> p(x) || q(x)
    ensures |Filter(s, p)| + |Filter(s, q)| == |Filter(s, r)|
    decreases |s|
  {
    if |s| > 0 {
      FilterSplit(s[1..], p, q, r);
    }
  }

  /** One step of deleting, in the order of a snapshot `keys`, every key
      that `keep` rejects: the live sequence is the filtered part of the
      snapshot seen so far followed by the unseen part. */
  lemma FilterDeleteStep<T(!new)>(keys: seq<T>, i: nat, keep: T -> bool)
    requires NoDups(keys)
    requires i < |keys|
    requires NoDups(Filter(keys[..i], keep) + keys[i..])
    ensures keep(keys[i]) ==>
      Filter(keys[..i + 1], keep) + keys[i + 1..] == Filter(keys[..i], keep) + keys[i..]
    ensures !keep(keys[i]) ==>
      Filter(keys[..i + 1], keep) + keys[i + 1..] == Delete(Filter(keys[..i], keep) + keys[i..], keys[i])
  {
    FilterOneMore(keys, i, keep);
    var front := Filter(keys[..i], keep);
    var rest := keys[i + 1..];
    assert keys[i..] == [keys[i]] + rest;
    if keep(keys[i]) {
      MoveAcross(front, keys[i], rest);
    } else {
      DeleteMiddle(front, keys[i], rest);
    }
  }

  lemma MoveAcross<T>(front: seq<T>, x: T, rest: seq<T>)
    ensures (front + [x]) + rest == front + ([x] + rest)
  {
  }

  lemma DeleteMiddle<T(!new)>(front: seq<T>, x: T, rest: seq<T>)
    requires NoDups(front + ([x] + rest))
    ensures (front + []) + rest == Delete(front + ([x] + rest), x)
  {
    assert front + ([x] + rest) == front + [x] + rest;
    assert front + [] == front;
    DeleteAt(front, x, rest);
  }

  /** Filtering one element more adds it or not. */
  lemma FilterOneMore<T(!new)>(keys: seq<T>, i: nat, keep: T -> bool)
    requires i < |keys|
    ensures Filter(keys[..i + 1], keep) == Filter(keys[..i], keep) + (if keep(keys[i]) then [keys[i]] else [])
  {
    assert keys[..i + 1] == keys[..i] + [keys[i]];
    FilterConcat(keys[..i], [keys[i]], keep);
  }

  /** `arr.findIndex(p)`, `None` for -1. */
  function FindIndex<T>(s: seq<T>, p: T -> bool): (r: Option<nat>)
    ensures r.None? <==> forall k :: 0 <= k < |s| ==> !p(s[k])
    ensures r.Some? ==> r.value < |s| && p(s[r.value]) && forall k :: 0 <= k < r.value ==> !p(s[k])
    decreases |s|
  {
    if |s| == 0 then None
    else if p(s[0]) then Some(0)
    else
      var rest := FindIndex(s[1..], p);
      if rest.None? then None else Some(rest.value + 1)
  }
}
