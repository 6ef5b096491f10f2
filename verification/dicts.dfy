/** A Python dict with string keys as the status engine uses it: entries in
    insertion order, assignment to an existing key keeping its position. */
module Dicts {
  import opened Wrappers

  datatype Entry<V> = Entry(key: string, value: V)

  function Keys<V>(d: seq<Entry<V>>): (ks: seq<string>)
    ensures |ks| == |d| && forall i :: 0 <= i < |d| ==> ks[i] == d[i].key
  {
    seq(|d|, i requires 0 <= i < |d| => d[i].key)
  }

  /** Keys are distinct, as in a dict. */
  predicate DistinctKeys<V>(d: seq<Entry<V>>)
  {
    forall i, j :: 0 <= i < j < |d| ==> d[i].key != d[j].key
  }

  /** The dict as a map. */
  function ToMap<V>(d: seq<Entry<V>>): (m: map<string, V>)
    ensures forall k :: k in m <==> k in Keys(d)
  {
    if |d| == 0 then map[]
    else
      assert Keys(d) == Keys(d[..|d| - 1]) + [d[|d| - 1].key];
      ToMap(d[..|d| - 1])[d[|d| - 1].key := d[|d| - 1].value]
  }

  /** d[k] = v: overwrite in place when k is present, append otherwise. */
  function Put<V>(d: seq<Entry<V>>, k: string, v: V): seq<Entry<V>>
  {
    var i := Position(d, k);
    if i < |d| then d[i := Entry(k, v)] else d + [Entry(k, v)]
  }

  /** The index of the first entry with key k, |d| when there is none. */
  function Position<V>(d: seq<Entry<V>>, k: string): (i: nat)
    ensures i <= |d|
    ensures i < |d| ==> d[i].key == k
  {
    if |d| == 0 then 0
    else if d[0].key == k then 0
    else 1 + Position(d[1..], k)
  }

  /** No entry before Position(d, k) has key k. */
  lemma {:induction false} PositionIsFirst<V>(d: seq<Entry<V>>, k: string)
    ensures forall j :: 0 <= j < Position(d, k) ==> d[j].key != k
  {
    if |d| > 0 && d[0].key != k {
      PositionIsFirst(d[1..], k);
      forall j | 1 <= j < Position(d, k) ensures d[j].key != k {
        assert d[j] == d[1..][j - 1];
      }
    }
  }

  /** Assignment rewrites the entry of k where it stands, or appends one. */
  lemma PutShape<V>(d: seq<Entry<V>>, k: string, v: V)
    requires DistinctKeys(d)
    ensures var r := Put(d, k, v);
      && |r| == (if k in Keys(d) then |d| else |d| + 1)
      && (forall i :: 0 <= i < |d| ==> r[i] == if d[i].key == k then Entry(k, v) else d[i])
      && (k !in Keys(d) ==> r[|d|] == Entry(k, v))
  {
    var i := Position(d, k);
    PositionIsFirst(d, k);
    if i == |d| {
      forall j | 0 <= j < |d| ensures Keys(d)[j] != k { }
    } else {
      assert Keys(d)[i] == k;
    }
  }

  /** Every key of a dict with distinct keys maps to its entry's value. */
  lemma {:induction false} ToMapAt<V>(d: seq<Entry<V>>, i: nat)
    requires DistinctKeys(d) && i < |d|
    ensures ToMap(d)[d[i].key] == d[i].value
  {
    if i < |d| - 1 {
      ToMapAt(d[..|d| - 1], i);
    }
  }

  /** Assignment keeps the keys distinct. */
  lemma PutDistinct<V>(d: seq<Entry<V>>, k: string, v: V)
    requires DistinctKeys(d)
    ensures DistinctKeys(Put(d, k, v))
  {
    var r := Put(d, k, v);
    PutShape(d, k, v);
    if k !in Keys(d) {
      forall i | 0 <= i < |d| ensures r[i].key != k {
        assert Keys(d)[i] == d[i].key;
      }
    }
  }

  lemma PutLookup<V>(d: seq<Entry<V>>, k: string, v: V, i: nat)
    requires DistinctKeys(d) && DistinctKeys(Put(d, k, v)) && i < |Put(d, k, v)|
    ensures Put(d, k, v)[i].key in ToMap(d)[k := v]
    ensures ToMap(Put(d, k, v))[Put(d, k, v)[i].key] == ToMap(d)[k := v][Put(d, k, v)[i].key]
  {
    var r := Put(d, k, v);
    PutShape(d, k, v);
    ToMapAt(r, i);
    if r[i].key != k {
      assert r[i] == d[i] && Keys(d)[i] == d[i].key;
      ToMapAt(d, i);
    }
  }

  /** Assignment adds k to the keys and no other. */
  lemma PutKeys<V>(d: seq<Entry<V>>, k: string, v: V)
    requires DistinctKeys(d)
    ensures forall x :: x in Keys(Put(d, k, v)) <==> x in Keys(d) || x == k
  {
    var r := Put(d, k, v);
    PutShape(d, k, v);
    forall x ensures x in Keys(r) <==> x in Keys(d) || x == k {
      if x in Keys(d) {
        var j :| 0 <= j < |d| && Keys(d)[j] == x;
        assert Keys(r)[j] == r[j].key;
      }
      if x in Keys(r) {
        var j :| 0 <= j < |r| && Keys(r)[j] == x;
        if j < |d| { assert Keys(d)[j] == d[j].key; }
      }
      if x == k && k in Keys(d) {
        var j :| 0 <= j < |d| && Keys(d)[j] == k;
        assert Keys(r)[j] == r[j].key;
      }
    }
  }

  /** Assignment keeps the order of the keys and appends a new key last. */
  lemma PutKeyOrder<V>(d: seq<Entry<V>>, k: string, v: V)
    requires DistinctKeys(d)
    ensures Keys(Put(d, k, v)) == if k in Keys(d) then Keys(d) else Keys(d) + [k]
  {
    PutShape(d, k, v);
  }

  /** Assignment acts on the map as an update. */
  lemma PutSpec<V>(d: seq<Entry<V>>, k: string, v: V)
    requires DistinctKeys(d)
    ensures DistinctKeys(Put(d, k, v))
    ensures ToMap(Put(d, k, v)) == ToMap(d)[k := v]
  {
    PutDistinct(d, k, v);
    PutKeys(d, k, v);
    var r := Put(d, k, v);
    var m, m' := ToMap(d)[k := v], ToMap(r);
    forall x | x in m' ensures m'[x] == m[x] {
      var i :| 0 <= i < |r| && Keys(r)[i] == x;
      PutLookup(d, k, v, i);
    }
  }

  /** The dict built by assigning the first n entries of src in order. */
  function PutAll<V>(src: seq<Entry<V>>, n: nat): seq<Entry<V>>
    requires n <= |src|
  {
    if n == 0 then [] else Put(PutAll(src, n - 1), src[n - 1].key, src[n - 1].value)
  }

  /** Assigning distinct keys in order appends each: the dict is the prefix
      of the entries. */
  lemma {:induction false} PutAllDistinct<V>(src: seq<Entry<V>>, n: nat)
    requires n <= |src| && DistinctKeys(src)
    ensures PutAll(src, n) == src[..n]
  {
    if n > 0 {
      PutAllDistinct(src, n - 1);
      var prev := src[..n - 1];
      assert DistinctKeys(prev);
      assert src[n - 1].key !in Keys(prev) by {
        forall j | 0 <= j < n - 1 ensures Keys(prev)[j] != src[n - 1].key { }
      }
      PutShape(prev, src[n - 1].key, src[n - 1].value);
      assert src[..n] == prev + [src[n - 1]];
    }
  }

  /** A loop that assigns d[key] = outcome for each entry in order and stops
      at the first outcome that raised: the dict after the first n entries,
      or that exception. */
  function Assigned<V>(outs: seq<Entry<Result<V>>>, n: nat): Result<seq<Entry<V>>>
    requires n <= |outs|
  {
    if n == 0 then Success([])
    else
      var prev := Assigned(outs, n - 1);
      if prev.Failure? then prev
      else
        var o := outs[n - 1].value;
        if o.Failure? then Failure(o.error) else Success(Put(prev.value, outs[n - 1].key, o.value))
  }

  /** The loop raises exactly when one of its outcomes did. */
  lemma {:induction false} AssignedFails<V>(outs: seq<Entry<Result<V>>>, n: nat)
    requires n <= |outs|
    ensures Assigned(outs, n).Failure? <==> exists i :: 0 <= i < n && outs[i].value.Failure?
  {
    if n > 0 {
      AssignedFails(outs, n - 1);
      if Assigned(outs, n - 1).Failure? {
        var i :| 0 <= i < n - 1 && outs[i].value.Failure?;
        assert 0 <= i < n && outs[i].value.Failure?;
      } else if outs[n - 1].value.Failure? {
        assert 0 <= n - 1 < n && outs[n - 1].value.Failure?;
      } else {
        forall i | 0 <= i < n ensures outs[i].value.Success? {
          if i < n - 1 {
            assert !(0 <= i < n - 1 && outs[i].value.Failure?);
          }
        }
      }
    }
  }

  /** When the loop does not raise and the keys are distinct, the dict has
      one entry per key, in order, holding that key's outcome. */
  lemma {:induction false} AssignedValue<V>(outs: seq<Entry<Result<V>>>, n: nat)
    requires n <= |outs| && DistinctKeys(outs) && Assigned(outs, n).Success?
    ensures var r := Assigned(outs, n).value;
      && |r| == n
      && forall i :: 0 <= i < n ==> outs[i].value.Success? && r[i] == Entry(outs[i].key, outs[i].value.value)
  {
    if n > 0 {
      AssignedValue(outs, n - 1);
      var prev := Assigned(outs, n - 1).value;
      var k := outs[n - 1].key;
      assert DistinctKeys(prev);
      assert k !in Keys(prev) by {
        forall j | 0 <= j < n - 1 ensures Keys(prev)[j] != k { }
      }
      PutShape(prev, k, outs[n - 1].value.value);
    }
  }

  /** Once an iteration has raised, later entries change nothing. */
  lemma {:induction false} AssignedFailureSticks<V>(outs: seq<Entry<Result<V>>>, n: nat, m: nat)
    requires n <= m <= |outs| && Assigned(outs, n).Failure?
    ensures Assigned(outs, m) == Assigned(outs, n)
    decreases m
  {
    if m > n {
      AssignedFailureSticks(outs, n, m - 1);
    }
  }

  /** One iteration of that loop: d[key] = outcome, or the exception, which
      is already the loop's result. */
  method AssignNext<V>(ghost outs: seq<Entry<Result<V>>>, n: nat, prev: seq<Entry<V>>, key: string, o: Result<V>)
    returns (next: Result<seq<Entry<V>>>)
    requires n < |outs| && outs[n] == Entry(key, o) && Assigned(outs, n) == Success(prev)
    ensures next == Assigned(outs, n + 1)
    ensures next.Failure? ==> next == Assigned(outs, |outs|)
  {
    if o.Failure? {
      next := Failure(o.error);
      AssignedFailureSticks(outs, n + 1, |outs|);
    } else {
      next := Success(Put(prev, key, o.value));
    }
  }
}
