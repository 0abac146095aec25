/** The counters and flags of a region's cache, from the keys as they are printed to the fields of the entries. */
module PrintedHits {
  import opened Wrappers
  import opened Text
  import opened Keys
  import opened RegionHistory
  import opened ServiceLogs
  import opened HitCounts

  /** What one key of a region's cache is about, with its value. */
  datatype Reading = Reading(
    kind: Kind, commitHash: string, chain: string, node: string, session: string, number: Option<int>, isTrue: bool)

  function Head(r: Reading): string {
    r.commitHash + "{" + r.chain + "}"
  }

  function PrintedKey(r: Reading): string {
    match r.kind
    case Successes => Head(r) + "-" + r.node + "-" + r.session + "-success-hits"
    case Failures => Head(r) + "-" + r.node + "-" + r.session + "-failure-hits"
    case Failing => NodeFailureKey(r.chain, r.commitHash, r.node)
  }

  /** No separator inside a part. */
  predicate Clean(r: Reading) {
    && Free('-', r.commitHash) && Free('{', r.commitHash)
    && Free('-', r.chain) && Free('{', r.chain) && Free('}', r.chain)
    && Free('-', r.node) && Free('-', r.session)
  }

  /** Node and session read "success-hits" across their dash. */
  predicate LooksLikeSuccess(r: Reading) {
    EndsWith(r.node, "success") && "hits" <= r.session
  }

  /** The field a printed key is read for: its own, but for failure hits that look like success hits. */
  function KindRead(r: Reading): Kind {
    if r.kind.Failures? && LooksLikeSuccess(r) then Successes else r.kind
  }

  /** What every printed key has in common: head, node, and the rest. */
  function Tail(r: Reading): string {
    match r.kind
    case Successes => r.session + "-success-hits"
    case Failures => r.session + "-failure-hits"
    case Failing => "failure"
  }

  lemma KeyInThree(r: Reading)
    ensures PrintedKey(r) == Head(r) + ['-'] + (r.node + ['-'] + Tail(r))
  {
  }

  lemma HeadClean(r: Reading)
    requires Clean(r)
    ensures Free('-', Head(r)) && !EndsWith(Head(r), "success") && !EndsWith(Head(r), "failure")
  {
    var head := Head(r);
    assert head[|head| - 1] == '}';
  }

  /** The entry a printed key is about. */
  lemma EntryOfKey(r: Reading)
    requires Clean(r)
    ensures KeyOf(PrintedKey(r)) == Some(AppDataKey(r.node, r.chain))
  {
    var part := "{" + r.chain + "}";
    BraceOfKey(r, part + ['-'] + (r.node + ['-'] + Tail(r)));
    assert Free('-', part);
    StripBraces(r.chain);
    hide PrintedKey, Split, Index, Head, Tail, Free, RemoveAll;
    TwoParts(part, r.node, Tail(r), '-');
  }

  lemma BraceOfKey(r: Reading, tail: string)
    requires Clean(r) && tail == "{" + r.chain + "}" + ['-'] + (r.node + ['-'] + Tail(r))
    ensures var key := PrintedKey(r);
      Index(key, '{') == |r.commitHash| < |key| && key[|r.commitHash|..] == tail
  {
    KeyInThree(r);
    var rest := r.chain + "}" + ['-'] + (r.node + ['-'] + Tail(r));
    hide Tail;
    assert tail == ['{'] + rest;
    assert PrintedKey(r) == r.commitHash + ['{'] + rest;
    hide PrintedKey, Index;
    CutAt(r.commitHash, '{', rest);
  }

  lemma TailOfCounter(r: Reading, last: string)
    requires !r.kind.Failing? && last == if r.kind.Successes? then "success-hits" else "failure-hits"
    ensures Tail(r) == r.session + ['-'] + last
  {
  }

  /** The third part of a counter's key is its session. */
  lemma SessionOfKey(r: Reading)
    requires Clean(r) && !r.kind.Failing?
    ensures |Split(PrintedKey(r), '-')| >= 3 && Split(PrintedKey(r), '-')[2] == r.session
  {
    KeyInThree(r);
    HeadClean(r);
    var last := if r.kind.Successes? then "success-hits" else "failure-hits";
    TailOfCounter(r, last);
    hide PrintedKey, Split, Head, Tail, Free;
    ThirdPart(Head(r), r.node, r.session, last, '-');
  }

  /** Where "success-hits" or "failure-hits" occurs in a printed key: across node and rest, or in the rest. */
  lemma HitsInKey(r: Reading, a: string)
    requires Clean(r) && (a == "success" || a == "failure")
    ensures Contains(PrintedKey(r), a + "-hits") <==>
      (EndsWith(r.node, a) && "hits" <= Tail(r)) || Contains(Tail(r), a + "-hits")
  {
    KeyInThree(r);
    HeadClean(r);
    assert a + "-hits" == a + ['-'] + "hits";
    hide PrintedKey, Contains, Head, Tail, EndsWith;
    ContainsCut(Head(r), r.node + ['-'] + Tail(r), a, "hits", '-');
    ContainsCut(r.node, Tail(r), a, "hits", '-');
  }

  lemma HitsInTail(r: Reading, a: string)
    requires Clean(r) && (a == "success" || a == "failure")
    ensures !r.kind.Failing? ==> ("hits" <= Tail(r) <==> "hits" <= r.session)
    ensures r.kind.Failing? ==> !("hits" <= Tail(r)) && !Contains(Tail(r), a + "-hits")
    ensures r.kind.Successes? ==> (Contains(Tail(r), a + "-hits") <==> a == "success")
    ensures r.kind.Failures? ==> (Contains(Tail(r), a + "-hits") <==> a == "failure")
  {
    assert a + "-hits" == a + ['-'] + "hits";
    if r.kind.Failing? {
      HitsNotInFailure(a);
    } else {
      var word := if r.kind.Successes? then "success" else "failure";
      TailOfCounter(r, word + ['-'] + "hits");
      hide Contains, Tail;
      HitsInRest(r.session, word, a);
    }
  }

  lemma HitsNotInFailure(a: string)
    requires a == "success" || a == "failure"
    ensures !("hits" <= "failure") && !Contains("failure", a + ['-'] + "hits")
  {
    assert "failure"[0] == 'f' && "hits"[0] == 'h';
    WordsFree();
    hide Contains, Free;
    ContainsNoCut("failure", a, "hits", '-');
  }

  lemma HitsInRest(session: string, word: string, a: string)
    requires Free('-', session)
    requires (a == "success" || a == "failure") && (word == "success" || word == "failure")
    ensures var tail := session + ['-'] + (word + ['-'] + "hits");
      && ("hits" <= tail <==> "hits" <= session)
      && (Contains(tail, a + ['-'] + "hits") <==> a == word)
  {
    HitsInLast(word, a);
    WordsFree();
    hide Contains, Free, EndsWith;
    PrefixBeforeCut("hits", session, '-', word + ['-'] + "hits");
    ContainsCut(session, word + ['-'] + "hits", a, "hits", '-');
  }

  lemma HitsInLast(word: string, a: string)
    requires (a == "success" || a == "failure") && (word == "success" || word == "failure")
    ensures var last := word + ['-'] + "hits";
      !("hits" <= last) && (Contains(last, a + ['-'] + "hits") <==> a == word)
  {
    WordsFree();
    NotHits(word, word + ['-'] + "hits");
    hide Contains, Free;
    ContainsOnce(word, a, "hits", '-');
  }

  lemma WordsFree()
    ensures Free('-', "success") && Free('-', "failure") && Free('-', "hits")
  {
  }

  lemma NotHits(word: string, last: string)
    requires (word == "success" || word == "failure") && last == word + ['-'] + "hits"
    ensures !("hits" <= last)
  {
    assert last[0] == word[0];
  }

  /** A printed key holds "success-hits" or "failure-hits" as its last part, or across node and session. */
  lemma HitsSeen(r: Reading, a: string, hits: string)
    requires Clean(r) && (a == "success" || a == "failure") && hits == a + "-hits"
    ensures Contains(PrintedKey(r), hits) <==>
      !r.kind.Failing? && ((EndsWith(r.node, a) && "hits" <= r.session) || (a == "success" <==> r.kind.Successes?))
  {
    HitsInKey(r, a);
    HitsInTail(r, a);
    hide Contains, PrintedKey, EndsWith, Clean, Tail;
  }

  lemma FailureSeen(r: Reading)
    requires r.kind.Failing?
    ensures Contains(PrintedKey(r), "failure")
  {
    KeyInThree(r);
    hide Contains, PrintedKey, Head;
    var before := Head(r) + ['-'] + (r.node + ['-']);
    assert PrintedKey(r) == before + "failure";
    ContainsSuffix(before, "failure");
  }

  /**
   Which field a printed key is read for: a key of failure hits whose node and session read "success-hits" across their
   dash is taken for one of success hits, and every other key for what it is.
   */
  lemma KindOfKey(r: Reading)
    requires Clean(r)
    ensures KindOf(PrintedKey(r)) == Some(KindRead(r))
  {
    HitsSeen(r, "success", SUCCESS_HITS);
    HitsSeen(r, "failure", FAILURE_HITS);
    if r.kind.Failing? {
      FailureSeen(r);
    }
    hide Contains, PrintedKey, EndsWith, Clean;
  }

  /** A reading is for a field of an entry: of its node and chain; a counter must be a number of the entry's session. */
  predicate Concerns(r: Reading, app: AppData, kind: Kind) {
    && KindRead(r) == kind && r.node == app.publicKey && r.chain == app.chain
    && (kind.Failing? || (r.session == app.sessionKey && r.number.Some?))
  }

  function HitOf(r: Reading): Hit {
    Hit(PrintedKey(r), r.number, r.isTrue)
  }

  function HitsOf(readings: seq<Reading>): seq<Hit> {
    seq(|readings|, i requires 0 <= i < |readings| => HitOf(readings[i]))
  }

  ghost predicate AllClean(readings: seq<Reading>) {
    forall i | 0 <= i < |readings| :: Clean(readings[i])
  }

  /** What a printed key writes, in terms of what it was printed from. */
  lemma HitWrites(apps: AppDataMap, r: Reading)
    requires Clean(r)
    ensures !Panics(apps, HitOf(r))
    ensures var e := AppDataKey(r.node, r.chain);
      WriteOf(apps, HitOf(r)) ==
        if e !in apps then None
        else if r.kind.Failing? then Some(Write(e, Failing, Flag(r.isTrue)))
        else if r.number.None? || apps[e].sessionKey != r.session then None
        else Some(Write(e, KindRead(r), Number(r.number.value)))
  {
    KindOfKey(r);
    EntryOfKey(r);
    if !r.kind.Failing? {
      SessionOfKey(r);
    }
    hide KindOf, KeyOf, Split, PrintedKey, LooksLikeSuccess, AppDataKey, Clean;
  }

  /** Under its key, an entry's own node and chain. */
  lemma SameEntry(apps: AppDataMap, r: Reading, e: string)
    requires WellKeyed(apps) && Free('-', r.node) && e in apps
    ensures AppDataKey(r.node, r.chain) == e <==> r.node == apps[e].publicKey && r.chain == apps[e].chain
  {
    var app := apps[e];
    assert e == AppDataKey(app.publicKey, app.chain) && Free('-', app.publicKey);
    if e == AppDataKey(r.node, r.chain) {
      AppDataKeyInjective(r.node, r.chain, app.publicKey, app.chain);
    }
  }

  lemma HitConcerns(apps: AppDataMap, r: Reading, e: string, kind: Kind)
    requires WellKeyed(apps) && Clean(r) && e in apps
    ensures !Panics(apps, HitOf(r))
    ensures WritesTo(apps, HitOf(r), e, kind) <==> Concerns(r, apps[e], kind)
    ensures WritesTo(apps, HitOf(r), e, kind) ==>
      WriteOf(apps, HitOf(r)).value.value == if kind.Failing? then Flag(r.isTrue) else Number(r.number.value)
  {
    HitWrites(apps, r);
    SameEntry(apps, r, e);
    hide AppDataKey, WellKeyed, Free, Panics, WriteOf, HitOf, LooksLikeSuccess, Clean;
  }

  lemma ReadingsDoNotPanic(apps: AppDataMap, readings: seq<Reading>)
    requires WellKeyed(apps) && AllClean(readings)
    ensures NonePanics(apps, HitsOf(readings))
  {
    forall i | 0 <= i < |readings| ensures !Panics(apps, HitOf(readings[i])) {
      HitWrites(apps, readings[i]);
    }
    hide Panics, HitOf;
  }

  /** The reading at `i` is the last one to concern this field of this entry. */
  ghost predicate IsLastReading(readings: seq<Reading>, i: int, app: AppData, kind: Kind) {
    0 <= i < |readings| && Concerns(readings[i], app, kind)
    && forall j | i < j < |readings| :: !Concerns(readings[j], app, kind)
  }

  ghost predicate NoReading(readings: seq<Reading>, app: AppData, kind: Kind) {
    forall i | 0 <= i < |readings| :: !Concerns(readings[i], app, kind)
  }

  lemma FieldMeans(apps: AppDataMap, readings: seq<Reading>, after: AppDataMap, e: string, kind: Kind)
    requires WellKeyed(apps) && AllClean(readings) && NonePanics(apps, HitsOf(readings))
    requires e in apps && e in after && FieldOk(apps, HitsOf(readings), after, e, kind)
    ensures forall i | IsLastReading(readings, i, apps[e], kind) ::
      FieldOf(after[e], kind) == if kind.Failing? then Flag(readings[i].isTrue) else Number(readings[i].number.value)
    ensures NoReading(readings, apps[e], kind) ==> FieldOf(after[e], kind) == FieldOf(apps[e], kind)
  {
    var hits := HitsOf(readings);
    forall i | 0 <= i < |readings|
      ensures WritesTo(apps, hits[i], e, kind) <==> Concerns(readings[i], apps[e], kind)
      ensures WritesTo(apps, hits[i], e, kind) ==>
        WriteOf(apps, hits[i]).value.value ==
          if kind.Failing? then Flag(readings[i].isTrue) else Number(readings[i].number.value)
    {
      HitConcerns(apps, readings[i], e, kind);
    }
    hide WellKeyed, AllClean, WritesTo, WriteOf, Panics, FieldOf, HitOf;
    forall i | IsLastReading(readings, i, apps[e], kind) ensures IsLastWrite(apps, hits, i, e, kind) {
    }
    hide Concerns;
  }

  /**
   What getSuccessAndFailureData makes of printed keys: each entry's success counter ends as the last number read under
   a success-hits key of its node, chain and session, its failure counter as the last one under such a failure-hits
   key, and its flag as the last value under the failure key of its node and chain; what nothing is read for stays.
   Keys of failure hits that look like success hits count among those.
   */
  lemma ReadingsMean(apps: AppDataMap, readings: seq<Reading>, after: AppDataMap)
    requires WellKeyed(apps) && AllClean(readings)
    ensures NonePanics(apps, HitsOf(readings))
    ensures Counted(apps, HitsOf(readings), after) ==>
      after.Keys == apps.Keys && forall e | e in apps :: EntryRead(apps[e], readings, after[e])
  {
    ReadingsDoNotPanic(apps, readings);
    if Counted(apps, HitsOf(readings), after) {
      forall e | e in apps ensures EntryRead(apps[e], readings, after[e]) {
        assert FieldOk(apps, HitsOf(readings), after, e, Successes);
        assert FieldOk(apps, HitsOf(readings), after, e, Failures);
        assert FieldOk(apps, HitsOf(readings), after, e, Failing);
        hide FieldOk, NonePanics, WellKeyed, AllClean, HitsOf;
        FieldMeans(apps, readings, after, e, Successes);
        FieldMeans(apps, readings, after, e, Failures);
        FieldMeans(apps, readings, after, e, Failing);
        hide IsLastReading, NoReading;
      }
    }
  }

  ghost predicate EntryRead(before: AppData, readings: seq<Reading>, after: AppData) {
    && after == before.(successes := after.successes, failures := after.failures, failure := after.failure)
    && (forall i | IsLastReading(readings, i, before, Successes) :: after.successes == readings[i].number.value)
    && (forall i | IsLastReading(readings, i, before, Failures) :: after.failures == readings[i].number.value)
    && (forall i | IsLastReading(readings, i, before, Failing) :: after.failure == readings[i].isTrue)
    && (NoReading(readings, before, Successes) ==> after.successes == before.successes)
    && (NoReading(readings, before, Failures) ==> after.failures == before.failures)
    && (NoReading(readings, before, Failing) ==> after.failure == before.failure)
  }
}
