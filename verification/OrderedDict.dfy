/** Python's `OrderedDict`: a finite map that also remembers the order of its keys, oldest first. */
module OrderedDict {
  datatype Option<+T> = None | Some(value: T)

  /** `s` with every occurrence of `x` taken out. */
  function Without<T(==)>(s: seq<T>, x: T): (r: seq<T>)
    ensures |r| <= |s|
    ensures forall y :: y in r ==> y in s && y != x
    ensures forall y :: y in s && y != x ==> y in r
    ensures x !in s ==> r == s
  {
    if s == [] then []
    else if s[0] == x then Without(s[1..], x)
    else [s[0]] + Without(s[1..], x)
  }

  predicate Distinct<T(==)>(s: seq<T>) {
    forall i, j :: 0 <= i < j < |s| ==> s[i] != s[j]
  }

  /** `s` lists its elements in strictly increasing `rank`. */
  ghost predicate Ascending<T>(s: seq<T>, rank: map<T, nat>) {
    s != [] ==>
      && s[0] in rank
      && (forall y :: y in s[1..] ==> y in rank && rank[s[0]] < rank[y])
      && Ascending(s[1..], rank)
  }

  datatype OrderedDict<K(==), V> = OrderedDict(keys: seq<K>, values: map<K, V>) {
    ghost predicate Valid() {
      Distinct(keys) && (forall k :: k in keys ==> k in values) && (forall k :: k in values ==> k in keys)
    }

    function Get(k: K): Option<V> {
      if k in values then Some(values[k]) else None
    }

    /** `d[k] = v`: an existing key keeps its place, a new one goes last. */
    function Put(k: K, v: V): (d: OrderedDict<K, V>) {
      OrderedDict(if k in values then keys else keys + [k], values[k := v])
    }

    function MoveToEnd(k: K): (d: OrderedDict<K, V>)
      requires k in values
    {
      OrderedDict(Without(keys, k) + [k], values)
    }

    /** `d.pop(k, None)` and `del d[k]`. */
    function Pop(k: K): (d: OrderedDict<K, V>) {
      OrderedDict(Without(keys, k), values - {k})
    }

    /** `d.popitem(last=False)`. */
    function PopOldest(): (d: OrderedDict<K, V>)
      requires keys != []
    {
      OrderedDict(keys[1..], values - {keys[0]})
    }

    /** `popitem(last=False)` until at most `n` keys are left. */
    function Newest(n: nat): (d: OrderedDict<K, V>)
      decreases |keys|
    {
      if |keys| <= n then this else PopOldest().Newest(n)
    }
  }

  function Empty<K, V>(): OrderedDict<K, V> { OrderedDict([], map[]) }

  lemma {:induction false} WithoutDistinct<T>(s: seq<T>, x: T)
    requires Distinct(s)
    ensures Distinct(Without(s, x))
    ensures |Without(s, x)| == if x in s then |s| - 1 else |s|
  {
    if s != [] {
      WithoutDistinct(s[1..], x);
      if s[0] != x {
        assert forall y :: y in Without(s[1..], x) ==> y in s[1..];
        assert s[0] !in s[1..];
      } else {
        assert x !in s[1..];
      }
    }
  }

  lemma PutMoved<K, V>(d: OrderedDict<K, V>, k: K, v: V)
    requires d.Valid()
    ensures d.Put(k, v).MoveToEnd(k).Valid()
    ensures d.Put(k, v).MoveToEnd(k).keys == Without(d.keys, k) + [k]
    ensures |d.Put(k, v).keys| == |d.Put(k, v).MoveToEnd(k).keys| == |d.keys| + if k in d.values then 0 else 1
  {
    hide Distinct;
    if k in d.values {
      var p := OrderedDict(d.keys, d.values[k := v]);
      Moved(p, k);
    } else {
      Added(d, k, v);
      Moved(d.Put(k, v), k);
      WithoutSnoc(d.keys, k, k);
    }
  }

  lemma {:induction false} WithoutSnoc<T>(s: seq<T>, y: T, x: T)
    ensures Without(s + [y], x) == Without(s, x) + if y == x then [] else [y]
  {
    if s == [] {
      assert s + [y] == [y];
    } else {
      assert (s + [y])[1..] == s[1..] + [y];
      WithoutSnoc(s[1..], y, x);
    }
  }

  lemma Moved<K, V>(d: OrderedDict<K, V>, k: K)
    requires d.Valid() && k in d.values
    ensures d.MoveToEnd(k).Valid()
    ensures |d.MoveToEnd(k).keys| == |d.keys|
  {
    WithoutDistinct(d.keys, k);
  }

  lemma Added<K, V>(d: OrderedDict<K, V>, k: K, v: V)
    requires d.Valid() && k !in d.values
    ensures d.Put(k, v).Valid() && |d.Put(k, v).keys| == |d.keys| + 1
  {
  }

  lemma Popped<K, V>(d: OrderedDict<K, V>, k: K)
    requires d.Valid()
    ensures d.Pop(k).Valid()
    ensures |d.Pop(k).keys| == if k in d.values then |d.keys| - 1 else |d.keys|
  {
    WithoutDistinct(d.keys, k);
  }

  lemma PoppedOldest<K, V>(d: OrderedDict<K, V>)
    requires d.Valid() && d.keys != []
    ensures d.PopOldest().Valid()
  {
    assert d.keys == [d.keys[0]] + d.keys[1..];
  }

  /** What is left is the end of the key order, with the values unchanged. */
  lemma {:induction false} NewestValid<K, V>(d: OrderedDict<K, V>, n: nat)
    requires d.Valid()
    ensures d.Newest(n).Valid()
    ensures |d.Newest(n).keys| <= n
    ensures d.Newest(n).keys == d.keys[if |d.keys| > n then |d.keys| - n else 0..]
    ensures forall k :: k in d.Newest(n).values ==> k in d.values && d.Newest(n).values[k] == d.values[k]
    decreases |d.keys|
  {
    hide Distinct;
    if |d.keys| > n {
      PoppedOldest(d);
      NewestValid(d.PopOldest(), n);
    }
  }

  /** Moving a key to the end keeps the order sorted by last use when the key's rank becomes the highest. */
  lemma {:induction false} AscendingMoved<T>(s: seq<T>, rank: map<T, nat>, x: T, top: nat)
    requires Ascending(s, rank)
    requires forall y :: y in s ==> rank[y] < top
    ensures Ascending(Without(s, x) + [x], rank[x := top])
  {
    if s == [] {
      assert [x][1..] == [];
      assert Ascending([x][1..], rank[x := top]);
      assert Without(s, x) + [x] == [x];
    } else {
      AscendingMoved(s[1..], rank, x, top);
      var rest := Without(s[1..], x) + [x];
      if s[0] != x {
        assert Without(s, x) + [x] == [s[0]] + rest;
        assert ([s[0]] + rest)[1..] == rest;
      }
    }
  }

  lemma {:induction false} AscendingWithout<T>(s: seq<T>, rank: map<T, nat>, x: T)
    requires Ascending(s, rank)
    ensures Ascending(Without(s, x), rank)
  {
    if s != [] {
      AscendingWithout(s[1..], rank, x);
      if s[0] != x {
        assert Without(s, x)[1..] == Without(s[1..], x);
      }
    }
  }

  lemma {:induction false} AscendingSuffix<T>(s: seq<T>, rank: map<T, nat>, i: nat)
    requires Ascending(s, rank) && i <= |s|
    ensures Ascending(s[i..], rank)
    decreases i
  {
    if i > 0 {
      AscendingSuffix(s[1..], rank, i - 1);
      assert s[1..][i - 1..] == s[i..];
    }
  }

  lemma {:induction false} AscendingOrder<T>(s: seq<T>, rank: map<T, nat>, i: nat, j: nat)
    requires Ascending(s, rank) && i < j < |s|
    ensures s[i] in rank && s[j] in rank && rank[s[i]] < rank[s[j]]
  {
    if i == 0 {
      assert s[j] == s[1..][j - 1];
    } else {
      AscendingOrder(s[1..], rank, i - 1, j - 1);
    }
  }
}
