/** Deep merge of two documents (merge.go). */
module Merger {
  import opened Values

  const ConfigUnset: int := -2
  const ConfigUnknown: int := -1
  const ConfigString: int := 1
  const ConfigArray: int := 2
  const ConfigMap: int := 3
  const ConfigBool: int := 4

  /** ConfigType: the four shapes merge cares about; numbers, null and anything
      else are unknown. */
  function ConfigType(v: Value): (t: int)
    ensures t == ConfigString <==> v.Str?
    ensures t == ConfigMap <==> v.Obj?
    ensures t == ConfigBool <==> v.Bool?
    ensures t == ConfigArray <==> v.Arr?
    ensures t == ConfigUnknown <==> !(v.Str? || v.Obj? || v.Bool? || v.Arr?)
    ensures t != ConfigUnset
  {
    match v
    case Str(_) => ConfigString
    case Obj(_) => ConfigMap
    case Bool(_) => ConfigBool
    case Arr(_) => ConfigArray
    case _ => ConfigUnknown
  }

  /** MergeArrays: `a` followed by `b`, in order, duplicates kept. */
  function MergeArrays(a: seq<Value>, b: seq<Value>): (r: seq<Value>)
    ensures |r| == |a| + |b|
    ensures r[..|a|] == a && r[|a|..] == b
  {
    a + b
  }

  /** The conflict rule for a key present on both sides: two maps merge
      recursively, two arrays concatenate when `mergeArrays` is set, and in
      every other case the additional value replaces the existing one. */
  function Combine(existing: Value, incoming: Value, mergeArrays: bool): (r: Value)
    ensures existing.Obj? && incoming.Obj? ==>
      r.Obj? && r.fields.Keys == existing.fields.Keys + incoming.fields.Keys
    ensures mergeArrays && existing.Arr? && incoming.Arr? ==> r == Arr(existing.items + incoming.items)
    ensures !(existing.Obj? && incoming.Obj?) && !(mergeArrays && existing.Arr? && incoming.Arr?) ==>
      r == incoming
    decreases incoming, 1
  {
    var existingType, newType := ConfigType(existing), ConfigType(incoming);
    if existingType == ConfigMap && newType == ConfigMap then
      Obj(Merged(existing.fields, incoming.fields, mergeArrays))
    else if mergeArrays && existingType == ConfigArray && newType == ConfigArray then
      Arr(MergeArrays(existing.items, incoming.items))
    else
      incoming
  }

  /** What Merge leaves in `base`: every key of either side; keys only in
      `base` keep their value, keys only in `additional` take its value as it
      is, keys on both sides follow Combine. */
  function Merged(base: Node, additional: Node, mergeArrays: bool): (r: Node)
    ensures r.Keys == base.Keys + additional.Keys
    ensures forall k | k in base && k !in additional :: r[k] == base[k]
    ensures forall k | k in additional && k !in base :: r[k] == additional[k]
    ensures forall k | k in additional && k in base :: r[k] == Combine(base[k], additional[k], mergeArrays)
    decreases Obj(additional), 0
  {
    map k | k in base.Keys + additional.Keys ::
      if k in additional then
        if k in base then Combine(base[k], additional[k], mergeArrays) else additional[k]
      else base[k]
  }

  /** The entry Merge writes for `key` when `additional` holds `value` there. */
  function MergedEntry(base: Node, key: string, value: Value, mergeArrays: bool): Value
  {
    if key in base then Combine(base[key], value, mergeArrays) else value
  }

  /** Adding one more key of `additional` changes only that key of the result. */
  lemma MergedStep(base: Node, done: Node, key: string, value: Value, mergeArrays: bool)
    requires key !in done
    ensures Merged(base, done[key := value], mergeArrays)
         == Merged(base, done, mergeArrays)[key := MergedEntry(base, key, value, mergeArrays)]
  {
  }

  /** The part of `additional` already processed when `remaining` is left. */
  function Processed(additional: Node, remaining: set<string>): Node
  {
    map k | k in additional && k !in remaining :: additional[k]
  }

  /** Merge: for each key of `additional`, in whatever order the map yields
      them, write the merged entry into `base`; `base` itself is returned. */
  method Merge(base: Document, additional: Node, mergeArrays: bool) returns (r: Document)
    modifies base
    ensures r == base
    ensures base.root == Merged(old(base.root), additional, mergeArrays)
    decreases Obj(additional), 0
  {
    ghost var original := base.root;
    var remaining := additional.Keys;
    while remaining != {}
      invariant remaining <= additional.Keys
      invariant base.root == Merged(original, Processed(additional, remaining), mergeArrays)
      decreases remaining
    {
      var key :| key in remaining;
      MergeLoopStep(original, additional, remaining, key, base.root, mergeArrays);
      MergeEntry(base, key, additional[key], mergeArrays);
      remaining := remaining - {key};
    }
    assert Processed(additional, remaining) == additional;
    return base;
  }

  /** Why one iteration keeps Merge's invariant: the key is still as it was
      in the original base, and merging it extends the processed part. */
  lemma MergeLoopStep(original: Node, additional: Node, remaining: set<string>, key: string,
                      root: Node, mergeArrays: bool)
    requires remaining <= additional.Keys && key in remaining
    requires root == Merged(original, Processed(additional, remaining), mergeArrays)
    ensures MergedEntry(root, key, additional[key], mergeArrays)
         == MergedEntry(original, key, additional[key], mergeArrays)
    ensures root[key := MergedEntry(root, key, additional[key], mergeArrays)]
         == Merged(original, Processed(additional, remaining - {key}), mergeArrays)
  {
    var done := Processed(additional, remaining);
    assert key !in done;
    MergedStep(original, done, key, additional[key], mergeArrays);
    ProcessedStep(additional, remaining, key);
  }

  lemma ProcessedStep(additional: Node, remaining: set<string>, key: string)
    requires key in remaining && key in additional
    ensures Processed(additional, remaining - {key}) == Processed(additional, remaining)[key := additional[key]]
  {
  }

  /** One iteration of Merge's loop: the conflict rule for `key`. A nested map
      of `base` is merged in place in Go; here it is merged as a Document of
      its own and written back. */
  method MergeEntry(base: Document, key: string, value: Value, mergeArrays: bool)
    modifies base
    ensures base.root == old(base.root)[key := MergedEntry(old(base.root), key, value, mergeArrays)]
    decreases value, 1
  {
    if key in base.root {
      var existingEntry := base.root[key];
      var existingEntryType, newEntryType := ConfigType(existingEntry), ConfigType(value);
      if existingEntryType == ConfigMap && newEntryType == ConfigMap {
        var nested := new Document(existingEntry.fields);
        var _ := Merge(nested, value.fields, mergeArrays);
        base.root := base.root[key := Obj(nested.root)];
      } else if mergeArrays && existingEntryType == ConfigArray && newEntryType == ConfigArray {
        base.root := base.root[key := Arr(MergeArrays(existingEntry.items, value.items))];
      } else {
        base.root := base.root[key := value];
      }
    } else {
      base.root := base.root[key := value];
    }
  }

  /** No array anywhere in the map structure of `v`. */
  predicate ArrayFree(v: Value)
  {
    match v
    case Arr(_) => false
    case Obj(fields) => forall k | k in fields :: ArrayFree(fields[k])
    case _ => true
  }

  /** Merging a value with itself is the identity unless arrays concatenate. */
  lemma {:induction false} CombineSelf(v: Value, mergeArrays: bool)
    requires !mergeArrays || ArrayFree(v)
    ensures Combine(v, v, mergeArrays) == v
    decreases v, 1
  {
    if v.Obj? {
      MergedSelf(v.fields, mergeArrays);
    }
  }

  lemma {:induction false} MergedSelf(m: Node, mergeArrays: bool)
    requires !mergeArrays || ArrayFree(Obj(m))
    ensures Merged(m, m, mergeArrays) == m
    decreases Obj(m), 0
  {
    forall k | k in m
      ensures Merged(m, m, mergeArrays)[k] == m[k]
    {
      CombineSelf(m[k], mergeArrays);
    }
  }

  lemma {:induction false} CombineTwice(e: Value, i: Value, mergeArrays: bool)
    requires !mergeArrays || ArrayFree(i)
    ensures Combine(Combine(e, i, mergeArrays), i, mergeArrays) == Combine(e, i, mergeArrays)
    decreases i, 1
  {
    if e.Obj? && i.Obj? {
      MergeIdempotent(e.fields, i.fields, mergeArrays);
    } else {
      CombineSelf(i, mergeArrays);
    }
  }

  /** Merging the same additions twice is merging them once, provided arrays
      do not concatenate (with concatenation every repeat appends again). */
  lemma {:induction false} MergeIdempotent(base: Node, additional: Node, mergeArrays: bool)
    requires !mergeArrays || ArrayFree(Obj(additional))
    ensures Merged(Merged(base, additional, mergeArrays), additional, mergeArrays)
         == Merged(base, additional, mergeArrays)
    decreases Obj(additional), 0
  {
    var once := Merged(base, additional, mergeArrays);
    forall k | k in additional
      ensures Merged(once, additional, mergeArrays)[k] == once[k]
    {
      if k in base {
        CombineTwice(base[k], additional[k], mergeArrays);
      } else {
        CombineSelf(additional[k], mergeArrays);
      }
    }
  }

  /** With concatenation on, merging the same additions again appends again,
      so the condition of MergeIdempotent cannot be dropped. */
  lemma ConcatenationRepeats()
    ensures Merged(map["a" := Arr([Float(1.0)])], map["a" := Arr([Float(2.0)])], true)
         == map["a" := Arr([Float(1.0), Float(2.0)])]
    ensures Merged(map["a" := Arr([Float(1.0), Float(2.0)])], map["a" := Arr([Float(2.0)])], true)
         == map["a" := Arr([Float(1.0), Float(2.0), Float(2.0)])]
  {
    var once := Merged(map["a" := Arr([Float(1.0)])], map["a" := Arr([Float(2.0)])], true);
    assert once.Keys == {"a"};
    assert once["a"] == Arr([Float(1.0)] + [Float(2.0)]);
    assert [Float(1.0)] + [Float(2.0)] == [Float(1.0), Float(2.0)];
    var twice := Merged(map["a" := Arr([Float(1.0), Float(2.0)])], map["a" := Arr([Float(2.0)])], true);
    assert twice.Keys == {"a"};
    assert twice["a"] == Arr([Float(1.0), Float(2.0)] + [Float(2.0)]);
    assert [Float(1.0), Float(2.0)] + [Float(2.0)] == [Float(1.0), Float(2.0), Float(2.0)];
  }

  /** The base document of the package's merge tests. */
  function TestBase(): Node
  {
    map[
      "baseOnly" := Str("def"), "baseString" := Str("abc"), "baseNumber" := Float(100.0),
      "baseBool" := Bool(true), "baseArray" := Arr([Float(1.0), Float(2.0), Float(3.0)]),
      "baseObject" := Obj(map["objectField1" := Str("inBase")])]
  }

  /** The additions document of the package's merge tests. */
  function TestAdditions(): Node
  {
    map[
      "baseString" := Str("xyz"), "baseNumber" := Float(200.0), "baseBool" := Bool(false),
      "baseArray" := Arr([Float(4.0)]),
      "baseObject" := Obj(map["objectField2" := Str("inAdditions")])]
  }

  /** Merging the test documents with arrays replaced: base-only keys survive,
      scalars are replaced. */
  lemma MergeScenarioScalars()
    ensures Merged(TestBase(), TestAdditions(), false)["baseOnly"] == Str("def")
    ensures Merged(TestBase(), TestAdditions(), false)["baseString"] == Str("xyz")
    ensures Merged(TestBase(), TestAdditions(), false)["baseNumber"] == Float(200.0)
  {
    var base, additions := TestBase(), TestAdditions();
    assert "baseOnly" in base && "baseOnly" !in additions;
    assert "baseString" in base && "baseString" in additions;
    assert "baseNumber" in base && "baseNumber" in additions;
  }

  /** Merging the test documents with arrays replaced: a bool and an array
      are replaced too. */
  lemma MergeScenarioReplace()
    ensures Merged(TestBase(), TestAdditions(), false)["baseBool"] == Bool(false)
    ensures Merged(TestBase(), TestAdditions(), false)["baseArray"] == Arr([Float(4.0)])
  {
    var base, additions := TestBase(), TestAdditions();
    assert "baseBool" in base && "baseBool" in additions;
    assert "baseArray" in base && "baseArray" in additions;
  }

  /** Merging the test documents: the nested objects keep keys from both sides. */
  lemma MergeScenarioNested()
    ensures Merged(TestBase(), TestAdditions(), false)["baseObject"]
         == Obj(map["objectField1" := Str("inBase"), "objectField2" := Str("inAdditions")])
  {
    var base, additions := TestBase(), TestAdditions();
    assert "baseObject" in base && "baseObject" in additions;
    NestedScenario();
    assert Merged(base, additions, false)["baseObject"]
        == Combine(base["baseObject"], additions["baseObject"], false);
  }

  /** The nested objects of the merge tests keep the keys of both sides. */
  lemma NestedScenario()
    ensures Merged(map["objectField1" := Str("inBase")], map["objectField2" := Str("inAdditions")], false)
         == map["objectField1" := Str("inBase"), "objectField2" := Str("inAdditions")]
  {
    var inner := Merged(map["objectField1" := Str("inBase")], map["objectField2" := Str("inAdditions")], false);
    assert inner.Keys == {"objectField1", "objectField2"};
    assert inner["objectField1"] == Str("inBase");
    assert inner["objectField2"] == Str("inAdditions");
  }

  /** Merging the test documents with arrays concatenated. */
  lemma MergeScenarioConcatenate()
    ensures Merged(TestBase(), TestAdditions(), true)["baseArray"]
         == Arr([Float(1.0), Float(2.0), Float(3.0), Float(4.0)])
  {
    var base, additions := TestBase(), TestAdditions();
    assert "baseArray" in base && "baseArray" in additions;
    assert [Float(1.0), Float(2.0), Float(3.0)] + [Float(4.0)] == [Float(1.0), Float(2.0), Float(3.0), Float(4.0)];
  }
}
