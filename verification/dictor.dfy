/** `dictor`: a dotted-path lookup into a nested document that coerces numeric
    strings to floats after every step and answers a default on a missing key. */
module Dictor {
  import opened Wrappers
  import opened Text
  import opened PyValue

  /** The segments applied one after the other, coercing after each lookup. */
  function Walk(v: Value, segments: seq<string>): (r: Result<Value, PyError>)
    ensures segments == [] ==> r == Success(v)
    ensures segments != [] && r.Success? ==> !r.value.VStr? || ParseFloat(r.value.s).None?
    decreases |segments|
  {
    if segments == [] then Success(v)
    else
      var next :- Index(v, segments[0]);
      Walk(Coerce(next), segments[1..])
  }

  /** Only a `KeyError` is turned into the default; every other error escapes. */
  function CatchKeyError(r: Result<Value, PyError>, default: Value): (c: Result<Value, PyError>)
    ensures r.Failure? && r.error.KeyError? ==> c == Success(default)
    ensures !(r.Failure? && r.error.KeyError?) ==> c == r
  {
    if r.Failure? && r.error.KeyError? then Success(default) else r
  }

  function Dictor(data: Value, path: string, default: Value := VNone): (r: Result<Value, PyError>)
    ensures r.Failure? ==> !r.error.KeyError?
    ensures !data.VDict? ==> r.Failure? && r.error.TypeError?
  {
    CatchKeyError(Walk(data, Split(path, '.')), default)
  }

  /** Walking a concatenated path is walking the first part, then the second. */
  lemma {:induction false} WalkAppend(v: Value, p: seq<string>, q: seq<string>)
    ensures Walk(v, p + q) == (match Walk(v, p) case Success(w) => Walk(w, q) case Failure(e) => Failure(e))
    decreases |p|
  {
    if p != [] {
      assert (p + q)[0] == p[0];
      assert (p + q)[1..] == p[1..] + q;
      match Index(v, p[0])
      case Failure(_) =>
      case Success(next) => WalkAppend(Coerce(next), p[1..], q);
    } else {
      assert p + q == q;
    }
  }

  /** The path is split on '.' and its segments are applied left to right. */
  lemma DictorSegments(data: Value, segments: seq<string>, default: Value)
    requires |segments| >= 1
    requires forall i :: 0 <= i < |segments| ==> '.' !in segments[i]
    ensures Dictor(data, Join(segments, '.'), default) == CatchKeyError(Walk(data, segments), default)
  {
    SplitJoin(segments, '.');
  }

  /** The value `dictor(document, key, default)` answers for a single key of a
      dict (see `DictorKey`). */
  function FieldOr(entries: map<string, Value>, key: string, default: Value): Value {
    if key in entries then Coerce(entries[key]) else default
  }

  /** A single key on a dict: the coerced value when present, else the default. */
  lemma DictorKey(entries: map<string, Value>, key: string, default: Value)
    requires '.' !in key
    ensures key in entries ==> Dictor(VDict(entries), key, default) == Success(Coerce(entries[key]))
    ensures key !in entries ==> Dictor(VDict(entries), key, default) == Success(default)
    ensures key in entries && !entries[key].VStr? ==> Dictor(VDict(entries), key, default) == Success(entries[key])
    ensures Dictor(VDict(entries), key, default) == Success(FieldOr(entries, key, default))
  {
    DictorSegments(VDict(entries), [key], default);
    assert Join([key], '.') == key;
  }

  /** A missing key at a later step also yields the default. */
  lemma DictorMissingInner(outer: string, inner: map<string, Value>, key: string, default: Value)
    requires '.' !in outer && '.' !in key && key !in inner
    ensures Dictor(VDict(map[outer := VDict(inner)]), outer + "." + key, default) == Success(default)
  {
    DictorSegments(VDict(map[outer := VDict(inner)]), [outer, key], default);
    assert Join([outer, key], '.') == outer + "." + key;
  }

  /** Indexing further into a value that was coerced to a float escapes as a
      `TypeError` instead of producing the default. */
  lemma DictorThroughCoercedFloat(outer: string, text: string, key: string, default: Value)
    requires '.' !in outer && '.' !in key
    requires ParseFloat(text).Some?
    ensures var r := Dictor(VDict(map[outer := VStr(text)]), outer + "." + key, default);
      r.Failure? && r.error.TypeError?
  {
    DictorSegments(VDict(map[outer := VStr(text)]), [outer, key], default);
    assert Join([outer, key], '.') == outer + "." + key;
  }
}
