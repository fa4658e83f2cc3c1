/** The merge `FieldTypeAbstract.setOptions` applies to the stored options:
    `lodash.merge(options, argument)`, restricted to plain objects. A source
    entry that is a plain object is merged recursively into the destination's
    entry (or into a fresh object when that entry is not a plain object); an
    `undefined` source entry keeps an existing destination entry; any other
    source entry replaces the destination's. */
module OptionsMerge {
  import opened JsValue

  /** A source entry that `lodash.merge` assigns as it is: neither a plain
      object (merged recursively) nor `undefined` (kept out when the key exists). */
  predicate Overwrites(v: Value)
  {
    !v.VObj? && !v.VUndef?
  }

  /** The entries of the destination's `k` that a nested merge starts from. */
  function Nested(dst: map<string, Value>, k: string): map<string, Value>
  {
    if k in dst && dst[k].VObj? then dst[k].fields else map[]
  }

  /** `lodash.merge(dst, src)` on plain objects, as a value. */
  function Merge(dst: map<string, Value>, src: map<string, Value>): (r: map<string, Value>)
    // no key of either side is lost
    ensures r.Keys == dst.Keys + src.Keys
    // keys the source does not mention keep their value
    ensures forall k :: k in dst && k !in src ==> r[k] == dst[k]
    // a later scalar wins
    ensures forall k :: k in src && Overwrites(src[k]) ==> r[k] == src[k]
    // an undefined source entry never removes a value
    ensures forall k :: k in dst && k in src && src[k].VUndef? ==> r[k] == dst[k]
    // nested objects keep the keys of both sides
    ensures forall k :: k in src && src[k].VObj? ==>
              r[k].VObj? && r[k].fields.Keys == Nested(dst, k).Keys + src[k].fields.Keys
    decreases VObj(src)
  {
    map k | k in dst.Keys + src.Keys ::
      if k !in src then dst[k]
      else if src[k].VObj? then VObj(Merge(Nested(dst, k), src[k].fields))
      else if src[k].VUndef? && k in dst then dst[k]
      else src[k]
  }

  /** Merging into an empty object yields a deep copy equal to the source. */
  lemma {:induction false} MergeIntoEmpty(src: map<string, Value>)
    ensures Merge(map[], src) == src
    decreases VObj(src)
  {
    forall k | k in src
      ensures Merge(map[], src)[k] == src[k]
    {
      if src[k].VObj? {
        MergeIntoEmpty(src[k].fields);
      }
    }
  }

  /** Merging the same source a second time changes nothing. */
  lemma {:induction false} MergeIdempotent(dst: map<string, Value>, src: map<string, Value>)
    ensures Merge(Merge(dst, src), src) == Merge(dst, src)
    decreases VObj(src)
  {
    var once := Merge(dst, src);
    forall k | k in once
      ensures Merge(once, src)[k] == once[k]
    {
      if k in src && src[k].VObj? {
        assert Nested(once, k) == Merge(Nested(dst, k), src[k].fields);
        MergeIdempotent(Nested(dst, k), src[k].fields);
      }
    }
  }

  /** `setOptions(o1); …; setOptions(on)` from options `start`, when every
      argument is a plain object: the merges applied in call order. */
  function MergeAll(start: map<string, Value>, sources: seq<map<string, Value>>): (r: map<string, Value>)
    decreases |sources|
  {
    if sources == [] then start
    else MergeAll(Merge(start, sources[0]), sources[1..])
  }

  /** Repeated merges are cumulative: every key present at the start and every
      key of every argument is present at the end. */
  lemma {:induction false} MergeAllKeepsKeys(start: map<string, Value>, sources: seq<map<string, Value>>)
    ensures start.Keys <= MergeAll(start, sources).Keys
    ensures forall i :: 0 <= i < |sources| ==> sources[i].Keys <= MergeAll(start, sources).Keys
    decreases |sources|
  {
    if sources != [] {
      var next := Merge(start, sources[0]);
      MergeAllKeepsKeys(next, sources[1..]);
      forall i | 0 <= i < |sources|
        ensures sources[i].Keys <= MergeAll(start, sources).Keys
      {
        if i > 0 {
          assert sources[i] == sources[1..][i - 1];
        }
      }
    }
  }
}
