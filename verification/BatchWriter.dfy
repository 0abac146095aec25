/** shared/cache/batch.go: items are written to every cache in batches, in the order they were sent. */
module BatchWriter {
  import opened Arithmetic

  datatype Item<V> = Item(key: string, value: V)

  type Cache<V> = map<string, V>

  /** The cache after one SET per item, one at a time. */
  function ApplyAll<V>(cache: Cache<V>, items: seq<Item<V>>): Cache<V> {
    if items == [] then cache
    else
      var n := |items| - 1;
      ApplyAll(cache, items[..n])[items[n].key := items[n].value]
  }

  function Flat<T>(batches: seq<seq<T>>): seq<T> {
    if batches == [] then [] else Flat(batches[..|batches| - 1]) + batches[|batches| - 1]
  }

  /** The batches of a closed stream: full ones, then a final shorter one, which may be empty. */
  function Chunks<T>(xs: seq<T>, size: nat): seq<seq<T>>
    requires size >= 1
    decreases |xs|
  {
    if |xs| < size then [xs] else [xs[..size]] + Chunks(xs[size..], size)
  }

  lemma {:induction false} ApplyAppend<V>(cache: Cache<V>, a: seq<Item<V>>, b: seq<Item<V>>)
    ensures ApplyAll(cache, a + b) == ApplyAll(ApplyAll(cache, a), b)
  {
    if b == [] {
      assert a + b == a;
    } else {
      var n := |b| - 1;
      ApplyAppend(cache, a, b[..n]);
      assert (a + b)[..|a + b| - 1] == a + b[..n];
    }
  }

  /** After any SETs a key holds what it held before if nobody set it, and otherwise the last value set. */
  lemma {:induction false} ApplyAt<V>(cache: Cache<V>, items: seq<Item<V>>, key: string)
    ensures var after := ApplyAll(cache, items);
      if exists i :: 0 <= i < |items| && items[i].key == key
      then key in after && exists i ::
        0 <= i < |items| && items[i] == Item(key, after[key]) && forall j | i < j < |items| :: items[j].key != key
      else (key in after <==> key in cache) && (key in cache ==> after[key] == cache[key])
  {
    if items != [] {
      var n := |items| - 1;
      ApplyAt(cache, items[..n], key);
      assert forall i | 0 <= i < n :: items[..n][i] == items[i];
      if items[n].key == key {
        assert items[n] == Item(key, ApplyAll(cache, items)[key]);
      } else if i :| 0 <= i < |items| && items[i].key == key {
        assert items[..n][i].key == key;
        var last :| 0 <= last < n && items[..n][last] == Item(key, ApplyAll(cache, items[..n])[key])
          && forall j | last < j < n :: items[..n][j].key != key;
        assert items[last] == Item(key, ApplyAll(cache, items)[key]);
      }
    }
  }

  /** The shape of the batches: n/size full ones, cut in order, and one remainder. */
  lemma {:induction false} ChunksShape<T>(xs: seq<T>, size: nat)
    requires size >= 1
    ensures var chunks := Chunks(xs, size);
      && |chunks| == |xs| / size + 1
      && (forall j | 0 <= j < |chunks| - 1 :: |chunks[j]| == size)
      && |chunks[|chunks| - 1]| == |xs| % size
    decreases |xs|
  {
    if |xs| >= size {
      ChunksShape(xs[size..], size);
      OneChunkLess(|xs|, size);
    } else {
      assert |xs| / size == 0 && |xs| % size == |xs|;
    }
  }

  lemma {:induction false} FlatPrepend<T>(x: seq<T>, batches: seq<seq<T>>)
    ensures Flat([x] + batches) == x + Flat(batches)
  {
    if batches == [] {
      assert [x] + batches == [x];
      assert [x][..0] == [];
    } else {
      var n := |batches| - 1;
      FlatPrepend(x, batches[..n]);
      assert ([x] + batches)[..n + 1] == [x] + batches[..n];
    }
  }

  /** Batching loses, doubles and reorders nothing. */
  lemma {:induction false} FlatChunks<T>(xs: seq<T>, size: nat)
    requires size >= 1
    ensures Flat(Chunks(xs, size)) == xs
    decreases |xs|
  {
    if |xs| < size {
      assert [xs][..0] == [];
    } else {
      FlatChunks(xs[size..], size);
      FlatPrepend(xs[..size], Chunks(xs[size..], size));
      assert xs == xs[..size] + xs[size..];
    }
  }

  /** Full batches followed by a shorter one are the chunks of what they hold together. */
  lemma {:induction false} FullThenShort<T>(full: seq<seq<T>>, last: seq<T>, size: nat)
    requires size >= 1 && |last| < size && forall j | 0 <= j < |full| :: |full[j]| == size
    ensures full + [last] == Chunks(Flat(full + [last]), size)
  {
    if full == [] {
      assert full + [last] == [last] && [last][..0] == [];
      assert Flat([last]) == last;
    } else {
      var rest := full[1..] + [last];
      FullThenShort(full[1..], last, size);
      FlatPrepend(full[0], rest);
      assert full + [last] == [full[0]] + rest;
      var all := full[0] + Flat(rest);
      assert all[..size] == full[0] && all[size..] == Flat(rest);
    }
  }

  /** Every cache has had exactly the SETs of `items` since it was as in `before`. */
  ghost predicate Applied<V>(before: seq<Cache<V>>, after: seq<Cache<V>>, items: seq<Item<V>>) {
    |after| == |before| && forall c | 0 <= c < |before| :: after[c] == ApplyAll(before[c], items)
  }

  lemma AppliedMore<V>(a: seq<Cache<V>>, b: seq<Cache<V>>, c: seq<Cache<V>>, x: seq<Item<V>>, y: seq<Item<V>>)
    requires Applied(a, b, x) && Applied(b, c, y)
    ensures Applied(a, c, x + y)
  {
    forall i | 0 <= i < |a| ensures c[i] == ApplyAll(a[i], x + y) {
      ApplyAppend(a[i], x, y);
    }
  }

  /** writeBatch: the items of one batch, in order, to every cache; all writes succeed. */
  method WriteBatch<V>(items: seq<Item<V>>, caches: array<Cache<V>>)
    modifies caches
    ensures Applied(old(caches[..]), caches[..], items)
  {
    for c := 0 to caches.Length
      invariant forall d | 0 <= d < c :: caches[d] == ApplyAll(old(caches[d]), items)
      invariant forall d | c <= d < caches.Length :: caches[d] == old(caches[d])
    {
      var cache := caches[c];
      for i := 0 to |items|
        invariant cache == ApplyAll(old(caches[c]), items[..i])
      {
        assert items[..i + 1][..i] == items[..i];
        cache := cache[items[i].key := items[i].value];
      }
      assert items[..|items|] == items;
      caches[c] := cache;
    }
  }

  /**
   monitorBatch over a channel that delivers `received` and is then closed: the batches are the chunks of the stream,
   and every cache ends as if each item had been written on its own.
   */
  method MonitorBatch<V>(received: seq<Item<V>>, batchSize: nat, caches: array<Cache<V>>)
    returns (ghost flushes: seq<seq<Item<V>>>)
    requires batchSize >= 1
    modifies caches
    ensures flushes == Chunks(received, batchSize)
    ensures Applied(old(caches[..]), caches[..], received)
  {
    var items: seq<Item<V>> := [];
    var next := 0;
    flushes := [];
    assert CutSoFar(received[..next], flushes, items, batchSize) && Applied(caches[..], caches[..], Flat(flushes));
    hide Flat, Applied, Chunks, CutSoFar;
    while true
      invariant next <= |received| && |items| < batchSize
      invariant CutSoFar(received[..next], flushes, items, batchSize)
      invariant Applied(old(caches[..]), caches[..], Flat(flushes))
      decreases |received| - next
    {
      var ok := next < |received|;
      if ok {
        OneMore(received, next, flushes, items, batchSize);
        items := items + [received[next]];
        next := next + 1;
      }
      if ok && |items| < batchSize {
        continue;
      }
      ghost var before := caches[..];
      WriteBatch(items, caches);
      AppliedMore(old(caches[..]), before, caches[..], Flat(flushes), items);
      FlatAppend(flushes, items);
      if !ok {
        assert received[..next] == received;
        LastCut(received, flushes, items, batchSize);
        flushes := flushes + [items];
        break;
      }
      CutFull(received[..next], flushes, items, batchSize);
      flushes := flushes + [items];
      items := [];
    }
  }

  /** What was received so far: full batches, then the items not yet written. */
  ghost predicate CutSoFar<T>(received: seq<T>, flushes: seq<seq<T>>, items: seq<T>, size: nat) {
    received == Flat(flushes) + items && forall j | 0 <= j < |flushes| :: |flushes[j]| == size
  }

  lemma OneMore<T>(received: seq<T>, next: nat, flushes: seq<seq<T>>, items: seq<T>, size: nat)
    requires next < |received| && CutSoFar(received[..next], flushes, items, size)
    ensures CutSoFar(received[..next + 1], flushes, items + [received[next]], size)
  {
    assert received[..next + 1] == received[..next] + [received[next]];
  }

  lemma CutFull<T>(received: seq<T>, flushes: seq<seq<T>>, items: seq<T>, size: nat)
    requires CutSoFar(received, flushes, items, size) && |items| == size
    ensures CutSoFar(received, flushes + [items], [], size)
  {
    FlatAppend(flushes, items);
  }

  lemma LastCut<T>(received: seq<T>, flushes: seq<seq<T>>, items: seq<T>, size: nat)
    requires CutSoFar(received, flushes, items, size) && |items| < size
    ensures flushes + [items] == Chunks(received, size) && Flat(flushes) + items == received
  {
    FlatAppend(flushes, items);
    FullThenShort(flushes, items, size);
  }

  lemma FlatAppend<T>(batches: seq<seq<T>>, last: seq<T>)
    ensures Flat(batches + [last]) == Flat(batches) + last
  {
    assert (batches + [last])[..|batches|] == batches;
  }
}
