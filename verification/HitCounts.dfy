/** get-cache.go, getSuccessAndFailureData: the counters of a region's cache find their way into its entries. */
module HitCounts {
  import opened Wrappers
  import opened Text
  import opened RegionHistory
  import opened ServiceLogs

  const SUCCESS_HITS := "success-hits"
  const FAILURE_HITS := "failure-hits"
  const FAILURE := "failure"

  /** A key with its value, read as a number if it is one, and as whether it is "true". */
  datatype Hit = Hit(key: string, number: Option<int>, isTrue: bool)

  datatype Kind = Successes | Failures | Failing

  datatype Value = Number(n: int) | Flag(b: bool)

  /** One assignment to a field of an entry. */
  datatype Write = Write(entry: string, kind: Kind, value: Value)

  function KindOf(key: string): Option<Kind> {
    if Contains(key, SUCCESS_HITS) then Some(Successes)
    else if Contains(key, FAILURE_HITS) then Some(Failures)
    else if Contains(key, FAILURE) then Some(Failing)
    else None
  }

  function FieldOf(app: AppData, kind: Kind): Value {
    match kind
    case Successes => Number(app.successes)
    case Failures => Number(app.failures)
    case Failing => Flag(app.failure)
  }

  predicate IsCount(key: string) {
    KindOf(key) == Some(Successes) || KindOf(key) == Some(Failures)
  }

  /** A key that cannot be parsed, or a counter of a known entry without a third part, stops the run. */
  predicate Panics(apps: AppDataMap, hit: Hit) {
    KeyOf(hit.key).None? || (KeyOf(hit.key).value in apps && IsCount(hit.key) && |Split(hit.key, '-')| < 3)
  }

  /** What a hit writes: counters only when they are numbers and of the session of the entry, the flag always. */
  function WriteOf(apps: AppDataMap, hit: Hit): Option<Write>
    requires !Panics(apps, hit)
  {
    var entry, kind := KeyOf(hit.key).value, KindOf(hit.key);
    if entry !in apps || kind.None? then None
    else if kind.value.Failing? then Some(Write(entry, Failing, Flag(hit.isTrue)))
    else if hit.number.None? || apps[entry].sessionKey != Split(hit.key, '-')[2] then None
    else Some(Write(entry, kind.value, Number(hit.number.value)))
  }

  predicate NonePanics(apps: AppDataMap, hits: seq<Hit>) {
    forall i | 0 <= i < |hits| :: !Panics(apps, hits[i])
  }

  /** The hit at `i` is the last one to write this field of this entry. */
  ghost predicate IsLastWrite(apps: AppDataMap, hits: seq<Hit>, i: int, entry: string, kind: Kind)
    requires NonePanics(apps, hits)
  {
    && 0 <= i < |hits| && WritesTo(apps, hits[i], entry, kind)
    && forall j | i < j < |hits| :: !WritesTo(apps, hits[j], entry, kind)
  }

  predicate WritesTo(apps: AppDataMap, hit: Hit, entry: string, kind: Kind)
    requires !Panics(apps, hit)
  {
    var w := WriteOf(apps, hit);
    w.Some? && w.value.entry == entry && w.value.kind == kind
  }

  /** Entries that differ in counters and flags only. */
  ghost predicate SameBut(before: AppDataMap, after: AppDataMap) {
    && after.Keys == before.Keys
    && forall e | e in before ::
         after[e] == before[e].(
           successes := after[e].successes, failures := after[e].failures, failure := after[e].failure)
  }

  /** Every field holds the value of the last hit that writes it, or what it held before if none does. */
  ghost predicate Counted(before: AppDataMap, hits: seq<Hit>, after: AppDataMap)
    requires NonePanics(before, hits)
  {
    && SameBut(before, after)
    && forall e, kind | e in before :: FieldOk(before, hits, after, e, kind)
  }

  ghost predicate FieldOk(before: AppDataMap, hits: seq<Hit>, after: AppDataMap, e: string, kind: Kind)
    requires NonePanics(before, hits) && e in before && e in after
  {
    && (forall i | IsLastWrite(before, hits, i, e, kind) ::
        FieldOf(after[e], kind) == WriteOf(before, hits[i]).value.value)
    && ((forall i | 0 <= i < |hits| :: !WritesTo(before, hits[i], e, kind)) ==>
          FieldOf(after[e], kind) == FieldOf(before[e], kind))
  }

  function Put(apps: AppDataMap, w: Write): AppDataMap
    requires w.entry in apps && (w.value.Flag? <==> w.kind.Failing?)
  {
    var app := apps[w.entry];
    apps[w.entry := match w.kind
                    case Successes => app.(successes := w.value.n)
                    case Failures => app.(failures := w.value.n)
                    case Failing => app.(failure := w.value.b)]
  }

  /** The loop of getSuccessAndFailureData; None is the panic. */
  method GetSuccessAndFailureData(apps: AppDataMap, hits: seq<Hit>) returns (after: Option<AppDataMap>)
    ensures after.Some? <==> NonePanics(apps, hits)
    ensures after.Some? ==> Counted(apps, hits, after.value)
  {
    var current := apps;
    CountedAtStart(apps);
    for n := 0 to |hits|
      invariant NonePanics(apps, hits[..n]) && Counted(apps, hits[..n], current)
    {
      var hit := hits[n];
      assert hits[..n + 1] == hits[..n] + [hit];
      SameParsing(apps, current, hit);
      if Panics(current, hit) {
        return None;
      }
      hide Panics, WriteOf, Counted, SameBut;
      CountedNext(apps, hits[..n], current, hit);
      var w := WriteOf(current, hit);
      if w.Some? {
        WriteFits(current, hit);
        current := Put(current, w.value);
      }
    }
    assert hits[..|hits|] == hits;
    after := Some(current);
  }

  lemma CountedAtStart(apps: AppDataMap)
    ensures Counted(apps, [], apps)
  {
  }

  lemma WriteFits(apps: AppDataMap, hit: Hit)
    requires !Panics(apps, hit) && WriteOf(apps, hit).Some?
    ensures var w := WriteOf(apps, hit).value; w.entry in apps && (w.value.Flag? <==> w.kind.Failing?)
  {
  }

  /** Counters and flags do not decide what a hit does. */
  lemma SameParsing(before: AppDataMap, after: AppDataMap, hit: Hit)
    requires SameBut(before, after)
    ensures Panics(after, hit) <==> Panics(before, hit)
    ensures !Panics(before, hit) ==> WriteOf(after, hit) == WriteOf(before, hit)
  {
    hide KeyOf, KindOf, IsCount, Split;
  }

  lemma CountedNext(before: AppDataMap, hits: seq<Hit>, after: AppDataMap, hit: Hit)
    requires NonePanics(before, hits) && Counted(before, hits, after) && !Panics(before, hit) && !Panics(after, hit)
    ensures NonePanics(before, hits + [hit])
    ensures WriteOf(after, hit).None? ==> Counted(before, hits + [hit], after)
    ensures WriteOf(after, hit).Some? ==>
      var w := WriteOf(after, hit).value;
      && w.entry in after && (w.value.Flag? <==> w.kind.Failing?)
      && Counted(before, hits + [hit], Put(after, w))
  {
    SameParsing(before, after, hit);
    var w := WriteOf(after, hit);
    if w.Some? {
      WriteFits(after, hit);
    }
    var next := if w.None? then after else Put(after, w.value);
    forall e, kind | e in before ensures FieldOk(before, hits + [hit], next, e, kind) {
      assert FieldOk(before, hits, after, e, kind);
      hide Panics, WriteOf;
      FieldNext(before, hits, after, hit, next, e, kind);
    }
  }

  lemma FieldNext(
    before: AppDataMap, hits: seq<Hit>, after: AppDataMap, hit: Hit, next: AppDataMap, e: string, kind: Kind)
    requires NonePanics(before, hits + [hit]) && NonePanics(before, hits) && !Panics(before, hit)
    requires e in before && e in after && e in next && FieldOk(before, hits, after, e, kind)
    requires FieldOf(next[e], kind) ==
      if WritesTo(before, hit, e, kind) then WriteOf(before, hit).value.value else FieldOf(after[e], kind)
    ensures FieldOk(before, hits + [hit], next, e, kind)
  {
    hide Panics, WriteOf, FieldOf;
    var more, n := hits + [hit], |hits|;
    assert more[n] == hit && forall i | 0 <= i < n :: more[i] == hits[i];
    forall i | IsLastWrite(before, more, i, e, kind)
      ensures FieldOf(next[e], kind) == WriteOf(before, more[i]).value.value
    {
      if i < n {
        assert !WritesTo(before, more[n], e, kind);
        assert IsLastWrite(before, hits, i, e, kind);
      }
    }
  }

  /** Entries stay well-keyed, so what is gathered from the caches still makes a well-formed snapshot run. */
  lemma CountedIsWellKeyed(before: AppDataMap, hits: seq<Hit>, after: AppDataMap)
    requires WellKeyed(before) && NonePanics(before, hits) && Counted(before, hits, after)
    ensures WellKeyed(after)
  {
    assert forall e | e in after :: e in before;
  }
}
