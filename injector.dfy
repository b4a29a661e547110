/** Filling a Go struct from a document (injector.go). The struct is a
    Record: a fixed set of named fields, each of a fixed kind, whose values
    SetField replaces. Go's reflection is reduced to the field kinds the code
    dispatches on; JSON encoding is reduced to whether it succeeds. */
module Injector {
  import opened Values
  import opened Resolve
  import Access

  /** The reflect.Kind of a target field, as far as SetField distinguishes. */
  datatype Kind = StringKind | BoolKind | IntKind | Float64Kind | MapKind | SliceKind | OtherKind

  /** A value stored in a map field: the document value itself, or the
      []string that arrayVal builds from an array. */
  datatype MapEntry = Plain(v: Value) | Strings(s: seq<string>)

  /** The contents of a target field; a nil map is `MapField(None)`, and a
      slice field holds the document value it was decoded from. */
  datatype FieldValue =
    | StrField(s: string)
    | BoolField(b: bool)
    | IntField(i: int)
    | FloatField(f: real)
    | MapField(entries: Option<map<string, MapEntry>>)
    | SliceField(source: Value)
    | OtherField

  /** A field's contents agree with its kind. */
  predicate Fits(k: Kind, v: FieldValue)
  {
    match k
    case StringKind => v.StrField?
    case BoolKind => v.BoolField?
    case IntKind => v.IntField?
    case Float64Kind => v.FloatField?
    case MapKind => v.MapField?
    case SliceKind => v.SliceField?
    case OtherKind => v.OtherField?
  }

  /** Go's zero value for each kind. */
  function Zero(k: Kind): (z: FieldValue)
    ensures Fits(k, z)
  {
    match k
    case StringKind => StrField("")
    case BoolKind => BoolField(false)
    case IntKind => IntField(0)
    case Float64Kind => FloatField(0.0)
    case MapKind => MapField(None)
    case SliceKind => SliceField(Null)
    case OtherKind => OtherField
  }

  /** arrayVal: an array used as a map value must be a non-empty array of
      strings. An empty array and an array whose first element is neither a
      string nor null are errors; a null first element has no type, and
      reflect.Zero of that panics; a later element that is not a string makes
      reflect.Append panic. On success the strings come in array order. */
  method ArrayVal(items: seq<Value>) returns (r: Outcome<seq<string>>)
    ensures r == Return([], Some(EmptyMapArray)) <==> items == []
    ensures r == Return([], Some(BadMapArray)) <==> items != [] && !items[0].Str? && !items[0].Null?
    ensures r.Panic? <==>
      items != [] && (items[0].Null? || (items[0].Str? && !(forall i | 0 <= i < |items| :: items[i].Str?)))
    ensures r.Succeeded() <==> items != [] && forall i | 0 <= i < |items| :: items[i].Str?
    ensures r.Succeeded() ==> Access.StringsOf(items, r.value)
  {
    if |items| == 0 {
      return Return([], Some(EmptyMapArray));
    }
    if items[0].Null? {
      // reflect.TypeOf(nil) is the nil Type, and reflect.Zero(nil) panics
      return Panic;
    }
    if !items[0].Str? {
      return Return([], Some(BadMapArray));
    }
    var s: seq<string> := [];
    for i := 0 to |items|
      invariant Access.StringsOf(items[..i], s)
    {
      if !items[i].Str? {
        return Panic;
      }
      s := s + [items[i].s];
    }
    assert items[..|items|] == items;
    return Return(s, None);
  }

  /** What populateMapField does with one entry of the document map. */
  datatype EntryStep = Insert(entry: MapEntry) | Skip | Fail(err: Error) | Crash

  function EntryFor(v: Value): EntryStep
  {
    match v
    case Null => Skip   // SetMapIndex with the invalid Value of nil deletes the key
    case Arr(items) =>
      if items == [] then Fail(EmptyMapArray)
      else if items[0].Null? then Crash
      else if !items[0].Str? then Fail(BadMapArray)
      else if forall i | 0 <= i < |items| :: items[i].Str? then Insert(Strings(Access.StringsFrom(items)))
      else Crash
    case _ => Insert(Plain(v))
  }

  /** One iteration of populateMapField's loop: an array goes through
      arrayVal, whose error or panic ends the fill; null is removed by
      SetMapIndex; any other value is stored as it is. */
  method ConvertEntry(value: Value) returns (step: EntryStep)
    ensures step == EntryFor(value)
  {
    if value.Arr? {
      var a := ArrayVal(value.items);
      if a.Panic? {
        return Crash;
      }
      if a.err.Some? {
        return Fail(a.err.value);
      }
      Access.StringsOfUnique(value.items, a.value, Access.StringsFrom(value.items));
      return Insert(Strings(a.value));
    } else if value == Null {
      return Skip;
    } else {
      return Insert(Plain(value));
    }
  }

  /** The entry accepted from `v`, if any; an error or panic depends only on
      the entry that raises it. */
  predicate Accepted(v: Value)
  {
    EntryFor(v).Insert? || EntryFor(v).Skip?
  }

  /** The map populateMapField builds when no entry fails. */
  function Converted(contents: Node): (m: map<string, MapEntry>)
    ensures m.Keys <= contents.Keys
    ensures forall k | k in contents && contents[k] == Null :: k !in m
    ensures forall k | k in contents && contents[k] != Null && !contents[k].Arr? :: k in m && m[k] == Plain(contents[k])
  {
    map k | k in contents && EntryFor(contents[k]).Insert? :: EntryFor(contents[k]).entry
  }

  /** The outcome of populateMapField(field `name`, contents): the field holds
      a fresh map from the start, so even a failed call leaves part of the
      converted entries in it; it succeeds exactly when every entry is
      accepted, and then holds all of them; an error or a panic comes from
      one of the entries. */
  ghost predicate MapFilled(before: map<string, FieldValue>, after: map<string, FieldValue>,
                            name: string, contents: Node, r: Completion<Option<Error>>)
  {
    after.Keys == before.Keys &&
    (forall f | f in before && f != name :: after[f] == before[f]) &&
    name in after && after[name].MapField? && after[name].entries.Some? &&
    (forall k | k in after[name].entries.value ::
       k in Converted(contents) && after[name].entries.value[k] == Converted(contents)[k]) &&
    (r == Normal(None) <==> forall k | k in contents :: Accepted(contents[k])) &&
    (r == Normal(None) ==> after[name].entries.value == Converted(contents)) &&
    (r.Normal? && r.value.Some? ==> exists k | k in contents :: EntryFor(contents[k]) == Fail(r.value.value)) &&
    (r.Panicked? ==> exists k | k in contents :: EntryFor(contents[k]) == Crash)
  }

  /** The entries populateMapField has written once only `remaining` is left. */
  function Part(contents: Node, remaining: set<string>): map<string, MapEntry>
  {
    map k | k in contents && k !in remaining && EntryFor(contents[k]).Insert? :: EntryFor(contents[k]).entry
  }

  /** Handling one more entry changes the written map at that key only. */
  lemma PartStep(contents: Node, remaining: set<string>, key: string)
    requires key in remaining && remaining <= contents.Keys
    ensures EntryFor(contents[key]).Insert? ==>
      Part(contents, remaining - {key}) == Part(contents, remaining)[key := EntryFor(contents[key]).entry]
    ensures EntryFor(contents[key]).Skip? ==>
      Part(contents, remaining - {key}) == Part(contents, remaining) - {key}
  {
  }

  /** Stopping at a rejected entry leaves a part of the converted map. */
  lemma Stopped(before: map<string, FieldValue>, name: string, contents: Node,
                remaining: set<string>, key: string, r: Completion<Option<Error>>)
    requires name in before && key in remaining && remaining <= contents.Keys
    requires r == Panicked ==> EntryFor(contents[key]) == Crash
    requires r != Panicked ==> r.Normal? && r.value.Some? && EntryFor(contents[key]) == Fail(r.value.value)
    ensures MapFilled(before, before[name := MapField(Some(Part(contents, remaining)))], name, contents, r)
  {
    assert !Accepted(contents[key]);
  }

  /** With every entry accepted the field holds the whole converted map. */
  lemma Completed(before: map<string, FieldValue>, name: string, contents: Node)
    requires name in before
    requires forall k | k in contents :: Accepted(contents[k])
    ensures MapFilled(before, before[name := MapField(Some(Part(contents, {})))], name, contents, Normal(None))
  {
    assert Part(contents, {}) == Converted(contents);
  }

  /** A second write to a key overrides the first. A general fact about maps with no
      counterpart in the source; it keeps PopulateMapField's proof small. */
  lemma UpdateTwice<K, V>(m: map<K, V>, k: K, a: V, b: V)
    ensures m[k := a][k := b] == m[k := b]
  {
  }

  class Record {
    /** The struct type: field names and kinds. */
    const kinds: map<string, Kind>
    /** The struct value. */
    var fields: map<string, FieldValue>

    ghost predicate Valid()
      reads this
    {
      fields.Keys == kinds.Keys && forall f | f in fields :: Fits(kinds[f], fields[f])
    }

    /** A zero-valued struct of the given type. */
    constructor (kinds: map<string, Kind>)
      ensures this.kinds == kinds
      ensures fields == map f | f in kinds :: Zero(kinds[f])
      ensures Valid()
    {
      this.kinds := kinds;
      fields := map f | f in kinds :: Zero(kinds[f]);
    }

    /** populateMapField: install a new empty map in the field, then add the
        entries of `contents` one by one, in whatever order the map yields
        them, stopping at the first entry arrayVal rejects. */
    method PopulateMapField(name: string, contents: Node) returns (r: Completion<Option<Error>>)
      requires Valid() && name in kinds && kinds[name] == MapKind
      modifies this`fields
      ensures Valid()
      ensures MapFilled(old(fields), fields, name, contents, r)
    {
      var built: map<string, MapEntry> := map[];
      fields := fields[name := MapField(Some(built))];
      var remaining := contents.Keys;
      assert built == Part(contents, remaining);
      while remaining != {}
        invariant remaining <= contents.Keys
        invariant fields == old(fields)[name := MapField(Some(built))]
        invariant built == Part(contents, remaining)
        invariant forall k | k in contents && k !in remaining :: Accepted(contents[k])
        decreases remaining
      {
        var key :| key in remaining;
        var step := ConvertEntry(contents[key]);
        match step {
          case Crash =>
            Stopped(old(fields), name, contents, remaining, key, Panicked);
            return Panicked;
          case Fail(e) =>
            Stopped(old(fields), name, contents, remaining, key, Normal(Some(e)));
            return Normal(Some(e));
          case Skip =>
            built := built - {key};
          case Insert(entry) =>
            built := built[key := entry];
        }
        PartStep(contents, remaining, key);
        UpdateTwice(old(fields), name, fields[name], MapField(Some(built)));
        fields := fields[name := MapField(Some(built))];
        remaining := remaining - {key};
      }
      Completed(old(fields), name, contents);
      return Normal(None);
    }

    /** What SetField does once the path is known to hold a value, by the
        kind of the named field. Scalar fields take the accessor's value,
        its error ignored; a map field takes the map at the path; a slice
        field takes the value at the path; other kinds are refused. */
    ghost predicate Filled(name: string, path: string, config: Option<Node>,
                           before: map<string, FieldValue>, after: map<string, FieldValue>,
                           r: Completion<Option<Error>>)
    {
      if name !in kinds then r == Panicked && after == before
      else match kinds[name]
        case StringKind =>
          var o := Access.StringVal(path, config);
          o.Return? && r == Normal(None) && after == before[name := StrField(o.value)]
        case BoolKind =>
          var o := Access.BoolVal(path, config);
          o.Return? && r == Normal(None) && after == before[name := BoolField(o.value)]
        case IntKind =>
          var o := Access.IntVal(path, config);
          o.Return? && r == Normal(None) && after == before[name := IntField(o.value)]
        case Float64Kind =>
          var o := Access.Float64Val(path, config);
          o.Return? && r == Normal(None) && after == before[name := FloatField(o.value)]
        case MapKind =>
          (match Access.ObjectVal(path, config, false)
           case Panic => r == Panicked && after == before
           case Return(_, Some(e)) => r == Normal(Some(e)) && after == before
           case Return(v, None) => MapFilled(before, after, name, if v.Some? then v.value else map[], r))
        case SliceKind =>
          Access.Value(path, config).Found? && r == Normal(None) &&
          after == before[name := SliceField(Access.Value(path, config).v)]
        case OtherKind => r == Normal(Some(UnsupportedKind)) && after == before
    }

    /** SetField: a path without a value is a MissingPathError and leaves the
        struct alone; a name that is not a field of the struct panics. */
    method SetField(fieldName: string, path: string, config: Option<Node>) returns (r: Completion<Option<Error>>)
      requires Valid()
      modifies this`fields
      ensures Valid()
      ensures Access.PathExists(path, config).Panicked? ==> r == Panicked && fields == old(fields)
      ensures Access.PathExists(path, config) == Normal(false) ==>
        r == Normal(Some(MissingPath("No value found at " + path))) && fields == old(fields)
      ensures Access.PathExists(path, config) == Normal(true) ==>
        Filled(fieldName, path, config, old(fields), fields, r)
    {
      var found := Access.PathExists(path, config);
      if found.Panicked? {
        return Panicked;
      }
      if !found.value {
        return Normal(Some(MissingPath("No value found at " + path)));
      }
      // FieldByName yields the zero Value, whose Type() panics
      if fieldName !in kinds {
        return Panicked;
      }
      match kinds[fieldName] {
      case StringKind =>
        var s := Access.StringVal(path, config);
        fields := fields[fieldName := StrField(s.value)];
      case BoolKind =>
        var b := Access.BoolVal(path, config);
        fields := fields[fieldName := BoolField(b.value)];
      case IntKind =>
        var i := Access.IntVal(path, config);
        fields := fields[fieldName := IntField(i.value)];
      case Float64Kind =>
        var f := Access.Float64Val(path, config);
        fields := fields[fieldName := FloatField(f.value)];
      case MapKind =>
        var o := Access.ObjectVal(path, config, false);
        if o.Panic? {
          return Panicked;
        }
        if o.err.Some? {
          return Normal(o.err);
        }
        r := PopulateMapField(fieldName, if o.value.Some? then o.value.value else map[]);
        return r;
      case SliceKind =>
        fields := fields[fieldName := SliceField(Access.Value(path, config).v)];
      case OtherKind =>
        return Normal(Some(UnsupportedKind));
      }
      return Normal(None);
    }
  }

  /** Populate as written: the object at the path (nil when it is not a map)
      is marshalled to JSON and decoded into the target. `decodeOk` is
      whether json.Unmarshal accepts that data for the target; the code
      tests the marshalling error a second time instead of the decoding
      error, so the verdict never reaches the caller. */
  function PopulateAsWritten(path: string, config: Option<Node>, decodeOk: bool): (r: Completion<Option<Error>>)
    ensures r.Panicked? <==> Access.Value(path, config).BadDescent?
    ensures r == Normal(Some(MissingPath("No value found at " + path))) <==> Access.Value(path, config).Absent?
    ensures r == Normal(Some(NotMarshalable)) <==>
      (Access.Value(path, config).Found? && Access.Value(path, config).v.Obj? && !Serializable(Access.Value(path, config).v))
    ensures r == Normal(None) <==>
      (Access.Value(path, config).Found? && (Access.Value(path, config).v.Obj? ==> Serializable(Access.Value(path, config).v)))
  {
    match Access.PathExists(path, config)
    case Panicked => Panicked
    case Normal(found) =>
      if !found then Normal(Some(MissingPath("No value found at " + path)))
      else
        match Access.ObjectVal(path, config, false)
        case Panic => Panicked
        case Return(obj, _) =>
          if obj.Some? && !Serializable(Obj(obj.value)) then Normal(Some(NotMarshalable))
          else Normal(None)
  }

  /** Populate with the decoding error reported, as its error message
      ("cannot be populated with …") shows was meant. */
  function Populate(path: string, config: Option<Node>, decodeOk: bool): (r: Completion<Option<Error>>)
    ensures r.Panicked? <==> Access.Value(path, config).BadDescent?
    ensures r == Normal(Some(MissingPath("No value found at " + path))) <==> Access.Value(path, config).Absent?
    ensures r == Normal(Some(NotMarshalable)) <==>
      (Access.Value(path, config).Found? && Access.Value(path, config).v.Obj? && !Serializable(Access.Value(path, config).v))
    ensures r == Normal(Some(NotPopulatable)) <==>
      (!decodeOk && Access.Value(path, config).Found? &&
       (Access.Value(path, config).v.Obj? ==> Serializable(Access.Value(path, config).v)))
    ensures r == Normal(None) ==> decodeOk
    ensures decodeOk ==> r == PopulateAsWritten(path, config, decodeOk)
  {
    var written := PopulateAsWritten(path, config, decodeOk);
    if written == Normal(None) && !decodeOk then Normal(Some(NotPopulatable)) else written
  }

  /** The as-written Populate reports success even when decoding fails. */
  lemma PopulateHidesDecodeFailure()
    ensures PopulateAsWritten("a", Some(map["a" := Obj(map[])]), false) == Normal(None)
    ensures Populate("a", Some(map["a" := Obj(map[])]), false) == Normal(Some(NotPopulatable))
  {
    SplitPlain("a");
  }

  /** PopulateFromRoot as written: the whole document, wrapped under the key
      "root", handed to the Populate as written. The path always exists, so
      only marshalling can fail; a rejected decode is still reported as
      success. */
  function PopulateFromRootAsWritten(config: Node, decodeOk: bool): (r: Completion<Option<Error>>)
    ensures !Serializable(Obj(config)) ==> r == Normal(Some(NotMarshalable))
    ensures Serializable(Obj(config)) ==> r == Normal(None)
  {
    SplitPlain("root");
    PopulateAsWritten("root", Some(map["root" := Obj(config)]), decodeOk)
  }

  /** PopulateFromRoot over the corrected Populate: the path always exists,
      so it fails only in marshalling or decoding. */
  function PopulateFromRoot(config: Node, decodeOk: bool): (r: Completion<Option<Error>>)
    ensures !Serializable(Obj(config)) ==> r == Normal(Some(NotMarshalable))
    ensures Serializable(Obj(config)) && !decodeOk ==> r == Normal(Some(NotPopulatable))
    ensures Serializable(Obj(config)) && decodeOk ==> r == Normal(None)
    ensures decodeOk ==> r == PopulateFromRootAsWritten(config, decodeOk)
  {
    SplitPlain("root");
    Populate("root", Some(map["root" := Obj(config)]), decodeOk)
  }
}
