/** shared/utils/parse.go: looking up a dotted path in decoded JSON. */
module NestedLookup {
  import opened Wrappers
  import opened Text

  /** A decoded JSON value: `map[string]any`, or anything else. */
  datatype Json = Leaf(text: string) | Object(fields: map<string, Json>)

  datatype LookupError = KeyNotFound(key: string) | NotAMap

  function NestedMapLookup(m: map<string, Json>, keys: string): Result<Json, LookupError>
    decreases |keys|
  {
    var ks := Split(keys, '.');
    if ks[0] !in m then Failure(KeyNotFound(ks[0]))
    else if |ks| == 1 then Success(m[ks[0]])
    else
      match m[ks[0]]
      case Leaf(_) => Failure(NotAMap)
      case Object(fields) =>
        assert |Join(ks[1..], '.')| < |keys| by { TailIsShorter(keys, '.'); }
        NestedMapLookup(fields, Join(ks[1..], '.'))
  }

  lemma TailIsShorter(s: string, sep: char)
    requires |Split(s, sep)| > 1
    ensures |Join(Split(s, sep)[1..], sep)| < |s|
    ensures Split(Join(Split(s, sep)[1..], sep), sep) == Split(s, sep)[1..]
  {
    var i := Index(s, sep);
    var rest := s[i + 1..];
    assert Split(s, sep) == [s[..i]] + Split(rest, sep);
    assert Split(s, sep)[1..] == Split(rest, sep);
    JoinSplit(rest, sep);
  }

  /** Reference: follow the path one single lookup at a time. */
  function Walk(value: Json, path: seq<string>): Result<Json, LookupError> {
    if path == [] then Success(value)
    else
      match value
      case Leaf(_) => Failure(NotAMap)
      case Object(fields) =>
        if path[0] !in fields then Failure(KeyNotFound(path[0])) else Walk(fields[path[0]], path[1..])
  }

  /** For every map and every dotted key, the lookup is the walk along the key's components. */
  lemma {:induction false} LookupIsWalk(m: map<string, Json>, keys: string)
    ensures NestedMapLookup(m, keys) == Walk(Object(m), Split(keys, '.'))
    decreases |keys|
  {
    var ks := Split(keys, '.');
    if ks[0] in m && |ks| == 1 {
      assert ks[1..] == [];
    } else if ks[0] in m && m[ks[0]].Object? {
      TailIsShorter(keys, '.');
      LookupIsWalk(m[ks[0]].fields, Join(ks[1..], '.'));
    }
  }

  /** Values met on the way: each is an object, and the next one is its field of the path's next name. */
  ghost predicate IsTrail(trail: seq<Json>, path: seq<string>) {
    && 1 <= |trail| <= |path| + 1
    && forall i | 0 <= i < |trail| - 1 ::
         trail[i].Object? && path[i] in trail[i].fields && trail[i + 1] == trail[i].fields[path[i]]
  }

  /** What becomes of a walk whose trail cannot be prolonged. */
  ghost predicate EndsAs(trail: seq<Json>, path: seq<string>, result: Result<Json, LookupError>)
    requires IsTrail(trail, path)
  {
    var end := |trail| - 1;
    if end == |path| then result == Success(trail[end])
    else if trail[end].Leaf? then result == Failure(NotAMap)
    else path[end] !in trail[end].fields && result == Failure(KeyNotFound(path[end]))
  }

  lemma {:induction false} TrailOf(value: Json, path: seq<string>) returns (trail: seq<Json>)
    ensures IsTrail(trail, path) && trail[0] == value && EndsAs(trail, path, Walk(value, path))
  {
    if path == [] || value.Leaf? || path[0] !in value.fields {
      trail := [value];
    } else {
      var rest := TrailOf(value.fields[path[0]], path[1..]);
      trail := [value] + rest;
    }
  }

  /**
   For every map and every dotted key, the lookup follows the trail of values along the key's components as far as it
   goes: it answers the last value, or says that this value is not a map, or which component it lacks.
   */
  lemma LookupFollowsTrail(m: map<string, Json>, keys: string) returns (trail: seq<Json>)
    ensures IsTrail(trail, Split(keys, '.')) && trail[0] == Object(m)
    ensures EndsAs(trail, Split(keys, '.'), NestedMapLookup(m, keys))
  {
    LookupIsWalk(m, keys);
    trail := TrailOf(Object(m), Split(keys, '.'));
  }

  /** Every path of dot-free names is reached through its dotted key. */
  lemma LookupOfPath(m: map<string, Json>, path: seq<string>)
    requires |path| >= 1 && forall p | p in path :: Free('.', p)
    ensures NestedMapLookup(m, Join(path, '.')) == Walk(Object(m), path)
  {
    SplitJoin(path, '.');
    LookupIsWalk(m, Join(path, '.'));
  }
}
