/**
 shared/cache/batch.go as its users see it: a channel with room for one batch, and the monitor goroutine that takes
 items from it and writes them to every cache in batches, until the channel is closed and empty.
 */
module CacheWriter {
  import opened Arithmetic
  import opened BatchWriter

  datatype Monitor<V> = Receiving(items: seq<Item<V>>) | Writing(items: seq<Item<V>>, last: bool) | Exited

  /**
   `sent`, `flushes`, `flushed` and `written` are histories: the items sent, the batches written, their concatenation,
   and the SETs each cache has executed.
   */
  datatype Writer<V> = Writer(
    chan: seq<Item<V>>, closed: bool, mon: Monitor<V>,
    sent: seq<Item<V>>, flushes: seq<seq<Item<V>>>, flushed: seq<Item<V>>, written: seq<seq<Item<V>>>)

  datatype MonitorStep = Receive | Write(cache: nat) | FlushDone

  function Started<V>(caches: nat): Writer<V> {
    Writer([], false, Receiving([]), [], [], [], seq(caches, _ => []))
  }

  function Send<V>(w: Writer<V>, item: Item<V>): Writer<V> {
    w.(chan := w.chan + [item], sent := w.sent + [item])
  }

  function Close<V>(w: Writer<V>): Writer<V> {
    w.(closed := true)
  }

  predicate ReceiveEnabled<V>(w: Writer<V>) {
    w.mon.Receiving? && (w.chan != [] || w.closed)
  }

  function NextReceive<V>(w: Writer<V>, size: nat): Writer<V>
    requires ReceiveEnabled(w)
  {
    if w.chan == [] then w.(mon := Writing(w.mon.items, true))
    else
      var items := w.mon.items + [w.chan[0]];
      w.(chan := w.chan[1..], mon := if |items| < size then Receiving(items) else Writing(items, false))
  }

  /** Cache `c` still has a SET of the current batch to execute. */
  predicate WriteEnabled<V>(w: Writer<V>, c: nat) {
    w.mon.Writing? && c < |w.written| && |w.flushed| <= |w.written[c]| < |w.flushed| + |w.mon.items|
  }

  function NextWrite<V>(w: Writer<V>, c: nat): Writer<V>
    requires WriteEnabled(w, c)
  {
    w.(written := w.written[c := w.written[c] + [w.mon.items[|w.written[c]| - |w.flushed|]]])
  }

  predicate FlushDoneEnabled<V>(w: Writer<V>) {
    w.mon.Writing? && forall c | 0 <= c < |w.written| :: |w.written[c]| >= |w.flushed| + |w.mon.items|
  }

  function NextFlushDone<V>(w: Writer<V>): Writer<V>
    requires FlushDoneEnabled(w)
  {
    w.(flushes := w.flushes + [w.mon.items], flushed := w.flushed + w.mon.items,
       mon := if w.mon.last then Exited else Receiving([]))
  }

  predicate CanStep<V>(w: Writer<V>, step: MonitorStep) {
    match step
    case Receive => ReceiveEnabled(w)
    case Write(c) => WriteEnabled(w, c)
    case FlushDone => FlushDoneEnabled(w)
  }

  function Stepped<V>(w: Writer<V>, size: nat, step: MonitorStep): Writer<V>
    requires CanStep(w, step)
  {
    match step
    case Receive => NextReceive(w, size)
    case Write(c) => NextWrite(w, c)
    case FlushDone => NextFlushDone(w)
  }

  /** Received but not yet flushed. */
  function Pending<V>(w: Writer<V>): seq<Item<V>> {
    if w.mon.Exited? then [] else w.mon.items
  }

  /** The items the caches are being given: all earlier batches, and the current one while it is written. */
  function Offered<V>(w: Writer<V>): seq<Item<V>> {
    w.flushed + if w.mon.Writing? then w.mon.items else []
  }

  ghost predicate MonitorOk<V>(size: nat, w: Writer<V>) {
    match w.mon
    case Receiving(items) => |items| < size
    case Writing(items, last) => if last then |items| < size && w.chan == [] && w.closed else |items| == size
    case Exited => w.chan == [] && w.closed
  }

  ghost predicate BatchesOk<V>(size: nat, w: Writer<V>)
    requires size >= 1
  {
    && Flat(w.flushes) == w.flushed
    && if w.mon.Exited? then w.flushes == Chunks(w.flushed, size)
       else forall j | 0 <= j < |w.flushes| :: |w.flushes[j]| == size
  }

  ghost predicate WrittenOk<V>(w: Writer<V>, c: nat)
    requires c < |w.written|
  {
    |w.flushed| <= |w.written[c]| <= |Offered(w)| && w.written[c] == Offered(w)[..|w.written[c]|]
  }

  /** Written, pending and in the channel, one after the other, is what was sent. */
  ghost predicate StreamInv<V>(size: nat, caches: nat, w: Writer<V>)
    requires size >= 1
  {
    && w.sent == w.flushed + Pending(w) + w.chan
    && |w.chan| <= size
    && MonitorOk(size, w)
    && BatchesOk(size, w)
    && |w.written| == caches && forall c: nat | c < |w.written| :: WrittenOk(w, c)
  }

  lemma StreamShape<V>(size: nat, caches: nat, w: Writer<V>)
    requires size >= 1 && StreamInv(size, caches, w)
    ensures |w.written| == caches && (w.mon.Exited? ==> w.closed && w.chan == [])
  {
  }

  lemma StartedStream<V>(size: nat, caches: nat)
    requires size >= 1
    ensures StreamInv(size, caches, Started<V>(caches))
  {
  }

  lemma SendStream<V>(size: nat, caches: nat, w: Writer<V>, item: Item<V>)
    requires size >= 1 && StreamInv(size, caches, w) && !w.closed && |w.chan| < size
    ensures StreamInv(size, caches, Send(w, item))
  {
    hide Flat, Chunks;
    var w' := Send(w, item);
    assert forall c: nat | c < |w.written| :: WrittenOk(w, c) ==> WrittenOk(w', c);
  }

  lemma CloseStream<V>(size: nat, caches: nat, w: Writer<V>)
    requires size >= 1 && StreamInv(size, caches, w)
    ensures StreamInv(size, caches, Close(w))
  {
    hide Flat, Chunks;
    var w' := Close(w);
    assert forall c: nat | c < |w.written| :: WrittenOk(w, c) ==> WrittenOk(w', c);
  }

  lemma ReceiveStream<V>(size: nat, caches: nat, w: Writer<V>)
    requires size >= 1 && StreamInv(size, caches, w) && ReceiveEnabled(w)
    ensures StreamInv(size, caches, NextReceive(w, size))
  {
    hide Flat, Chunks;
    var w' := NextReceive(w, size);
    if w.chan != [] {
      assert w.chan == [w.chan[0]] + w.chan[1..];
      assert w.flushed + Pending(w') + w'.chan == w.sent;
    }
    forall c: nat | c < |w'.written| ensures WrittenOk(w', c) {
      assert WrittenOk(w, c);
      assert Offered(w) == w.flushed && w.written[c] == w.flushed;
      assert w.flushed == Offered(w')[..|w.flushed|];
    }
  }

  lemma WriteStream<V>(size: nat, caches: nat, w: Writer<V>, c: nat)
    requires size >= 1 && StreamInv(size, caches, w) && WriteEnabled(w, c)
    ensures StreamInv(size, caches, NextWrite(w, c))
  {
    hide Flat, Chunks;
    var w' := NextWrite(w, c);
    assert WrittenOk(w, c);
    var done, all := w.written[c], Offered(w);
    assert all[|done|] == w.mon.items[|done| - |w.flushed|];
    assert all[..|done| + 1] == all[..|done|] + [all[|done|]];
    forall d: nat | d < |w'.written| ensures WrittenOk(w', d) {
      assert WrittenOk(w, d);
    }
  }

  lemma FlushBatches<V>(size: nat, w: Writer<V>)
    requires size >= 1 && BatchesOk(size, w) && MonitorOk(size, w) && FlushDoneEnabled(w)
    ensures BatchesOk(size, NextFlushDone(w))
  {
    FlatAppend(w.flushes, w.mon.items);
    if w.mon.last {
      FullThenShort(w.flushes, w.mon.items, size);
    }
    hide Flat, Chunks;
  }

  lemma FlushStream<V>(size: nat, caches: nat, w: Writer<V>)
    requires size >= 1 && StreamInv(size, caches, w) && FlushDoneEnabled(w)
    ensures StreamInv(size, caches, NextFlushDone(w))
  {
    var w' := NextFlushDone(w);
    FlushBatches(size, w);
    hide BatchesOk;
    forall c: nat | c < |w'.written| ensures WrittenOk(w', c) {
      assert WrittenOk(w, c);
      assert w.written[c] == Offered(w)[..|Offered(w)|];
    }
  }

  /** Every step of the monitor keeps the stream. */
  lemma StreamKept<V>(size: nat, caches: nat, w: Writer<V>, step: MonitorStep)
    requires size >= 1 && StreamInv(size, caches, w) && CanStep(w, step)
    ensures StreamInv(size, caches, Stepped(w, size, step))
  {
    hide StreamInv;
    match step
    case Receive => ReceiveStream(size, caches, w);
    case Write(c) => WriteStream(size, caches, w, c);
    case FlushDone => FlushStream(size, caches, w);
  }

  /** What every cache has executed is a prefix of what was sent. */
  lemma WrittenIsPrefix<V>(size: nat, caches: nat, w: Writer<V>, c: nat)
    requires size >= 1 && StreamInv(size, caches, w) && c < |w.written|
    ensures w.written[c] <= w.sent
  {
    assert WrittenOk(w, c);
    hide Flat, Chunks;
    assert Offered(w) <= w.sent;
  }

  /** Once the monitor has exited, every cache has executed exactly what was sent, in the batches of `Chunks`. */
  lemma ExitedMeans<V>(size: nat, caches: nat, w: Writer<V>)
    requires size >= 1 && StreamInv(size, caches, w) && w.mon.Exited?
    ensures w.closed && w.flushed == w.sent && w.flushes == Chunks(w.sent, size)
    ensures |w.written| == caches && forall c: nat | c < caches :: w.written[c] == w.sent
  {
    hide Flat, Chunks;
    forall c: nat | c < caches ensures w.written[c] == w.sent {
      assert WrittenOk(w, c);
    }
  }

  /** A monitor with something to do can do it. */
  lemma MonitorCanMove<V>(size: nat, caches: nat, w: Writer<V>) returns (step: MonitorStep)
    requires size >= 1 && StreamInv(size, caches, w) && !w.mon.Exited?
    requires w.mon.Receiving? ==> w.chan != [] || w.closed
    ensures CanStep(w, step)
  {
    if w.mon.Receiving? {
      return Receive;
    }
    if c: nat :| c < |w.written| && |w.written[c]| < |w.flushed| + |w.mon.items| {
      assert WrittenOk(w, c);
      return Write(c);
    }
    return FlushDone;
  }

  /** SETs still to execute until every cache has executed `target` of them. */
  function Remaining<V>(written: seq<seq<Item<V>>>, target: nat): nat {
    if written == [] then 0
    else (if |written[0]| < target then target - |written[0]| else 0) + Remaining(written[1..], target)
  }

  lemma {:induction false} RemainingUpdate<V>(written: seq<seq<Item<V>>>, target: nat, c: nat, w: seq<Item<V>>)
    requires c < |written| && |written[c]| < target && |w| == |written[c]| + 1
    ensures Remaining(written[c := w], target) + 1 == Remaining(written, target)
  {
    if c == 0 {
      assert written[0 := w][1..] == written[1..];
    } else {
      assert written[c := w][1..] == written[1..][c - 1 := w];
      RemainingUpdate(written[1..], target, c - 1, w);
    }
  }

  lemma {:induction false} RemainingEven<V>(written: seq<seq<Item<V>>>, done: nat, more: nat)
    requires forall c: nat | c < |written| :: |written[c]| == done
    ensures Remaining(written, done + more) == Times(more, |written|)
  {
    if written != [] {
      RemainingEven(written[1..], done, more);
      hide Times;
      TimesNext(more, |written| - 1);
    }
  }

  function MonitorWork<V>(caches: nat, w: Writer<V>): nat {
    match w.mon
    case Receiving(items) => Times(|items|, caches) + |items| + 3
    case Writing(items, last) => Remaining(w.written, |w.flushed| + |items|) + if last then 1 else 4
    case Exited => 0
  }

  /** Work left in the channel and the monitor; an item in the channel stands for `caches + 2` steps. */
  function WriterWork<V>(caches: nat, w: Writer<V>): nat {
    Times(caches + 2, |w.chan|) + MonitorWork(caches, w)
  }

  lemma SendWork<V>(caches: nat, w: Writer<V>, item: Item<V>)
    ensures WriterWork(caches, Send(w, item)) == WriterWork(caches, w) + caches + 2
  {
    TimesNext(caches + 2, |w.chan|);
    hide Times;
  }

  lemma ReceiveDecreases<V>(size: nat, caches: nat, w: Writer<V>)
    requires size >= 1 && StreamInv(size, caches, w) && ReceiveEnabled(w)
    ensures WriterWork(caches, NextReceive(w, size)) < WriterWork(caches, w)
  {
    hide Times, Flat, Chunks;
    var m, w' := |w.mon.items|, NextReceive(w, size);
    forall c: nat | c < |w.written| ensures |w.written[c]| == |w.flushed| {
      assert WrittenOk(w, c);
    }
    if w'.mon.Writing? {
      RemainingEven(w.written, |w.flushed|, |w'.mon.items|);
      hide Remaining;
    }
    TimesNextLeft(m, caches);
    if w.chan != [] {
      TimesNext(caches + 2, |w.chan| - 1);
    }
  }

  lemma WriteDecreases<V>(caches: nat, w: Writer<V>, c: nat)
    requires WriteEnabled(w, c)
    ensures WriterWork(caches, NextWrite(w, c)) < WriterWork(caches, w)
  {
    RemainingUpdate(w.written, |w.flushed| + |w.mon.items|, c, NextWrite(w, c).written[c]);
    hide Times, Remaining;
  }

  lemma FlushDecreases<V>(caches: nat, w: Writer<V>)
    requires FlushDoneEnabled(w)
    ensures WriterWork(caches, NextFlushDone(w)) < WriterWork(caches, w)
  {
    assert Times(0, caches) == 0;
    hide Times, Remaining;
  }

  /** Every step of the monitor uses up work. */
  lemma WriterDecreases<V>(size: nat, caches: nat, w: Writer<V>, step: MonitorStep)
    requires size >= 1 && StreamInv(size, caches, w) && CanStep(w, step)
    ensures WriterWork(caches, Stepped(w, size, step)) < WriterWork(caches, w)
  {
    hide StreamInv, WriterWork;
    match step
    case Receive => ReceiveDecreases(size, caches, w);
    case Write(c) => WriteDecreases(caches, w, c);
    case FlushDone => FlushDecreases(caches, w);
  }
}
