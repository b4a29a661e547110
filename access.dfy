/** Typed access to a document (package config_access, access.go). Every
    accessor first guards against a nil document, then resolves the path and
    converts the value found, narrowly: no coercion between shapes. */
module Access {
  import opened Values
  import opened Resolve

  /** Value: nothing for a nil document, otherwise the walk of the split path. */
  function Value(path: string, node: Option<Node>): (r: Resolved)
    ensures node.None? ==> r == Absent
    ensures r.Found? ==> r.v != Null && node.Some?
  {
    if node.None? then Absent else ConfigVal(Split(path), node.value)
  }

  /** PathExists: the path resolves to a non-null value. */
  function PathExists(path: string, node: Option<Node>): (r: Completion<bool>)
    ensures r == Normal(true) <==> Value(path, node).Found?
    ensures r == Normal(false) <==> Value(path, node).Absent?
    ensures r.Panicked? <==> Value(path, node).BadDescent?
  {
    match Value(path, node)
    case BadDescent => Panicked
    case Found(_) => Normal(true)
    case Absent => Normal(false)
  }

  /** ObjectVal: the map at the path; a nil map without error when the path is
      absent and `errIfMissing` is false. */
  function ObjectVal(path: string, node: Option<Node>, errIfMissing: bool): (r: Outcome<Option<Node>>)
    ensures node.None? ==> r == Return(None, Some(NilDocument))
    ensures r.Panic? <==> Value(path, node).BadDescent?
    ensures r.Failed() ==> r.value.None?
    ensures (r.Succeeded() && r.value.Some?) <==> (Value(path, node).Found? && Value(path, node).v.Obj?)
    ensures r.Succeeded() && r.value.Some? ==> Value(path, node) == Found(Obj(r.value.value))
    ensures r == Return(None, None) <==> (node.Some? && !errIfMissing && Value(path, node).Absent?)
    ensures r == Return(None, Some(NoSuchPath)) <==> (node.Some? && errIfMissing && Value(path, node).Absent?)
    ensures r == Return(None, Some(NotConvertible)) <==> (Value(path, node).Found? && !Value(path, node).v.Obj?)
  {
    if node.None? then Return(None, Some(NilDocument))
    else
      match PathExists(path, node)
      case Panicked => Panic
      case Normal(found) =>
        if errIfMissing && !found then Return(None, Some(NoSuchPath))
        else
          match Value(path, node)
          case Absent => Return(None, None)
          case Found(Obj(m)) => Return(Some(m), None)
          case Found(_) => Return(None, Some(NotConvertible))
          case BadDescent => Panic
  }

  /** StringVal: only a string value converts; any failure gives "". */
  function StringVal(path: string, node: Option<Node>): (r: Outcome<string>)
    ensures node.None? ==> r == Return("", Some(NilDocument))
    ensures r.Panic? <==> Value(path, node).BadDescent?
    ensures r.Succeeded() <==> (Value(path, node).Found? && Value(path, node).v.Str?)
    ensures r.Succeeded() ==> Value(path, node) == Found(Str(r.value))
    ensures r.Failed() ==> r.value == ""
    ensures node.Some? && Value(path, node).Absent? ==> r.err == Some(NoSuchPath)
    ensures Value(path, node).Found? && !Value(path, node).v.Str? ==> r.err == Some(NotConvertible)
  {
    if node.None? then Return("", Some(NilDocument))
    else
      match Value(path, node)
      case Absent => Return("", Some(NoSuchPath))
      case BadDescent => Panic
      case Found(Str(s)) => Return(s, None)
      case Found(_) => Return("", Some(NotConvertible))
  }

  /** IntVal: a float is truncated toward zero, a native int is taken as it is;
      any other shape fails with 0. */
  function IntVal(path: string, node: Option<Node>): (r: Outcome<int>)
    ensures node.None? ==> r == Return(0, Some(NilDocument))
    ensures r.Panic? <==> Value(path, node).BadDescent?
    ensures r.Succeeded() <==>
      (Value(path, node).Found? && (Value(path, node).v.Float? || Value(path, node).v.Int?))
    ensures forall f :: Value(path, node) == Found(Float(f)) ==> r == Return(Trunc(f), None)
    ensures forall i :: Value(path, node) == Found(Int(i)) ==> r == Return(i, None)
    ensures r.Failed() ==> r.value == 0
    ensures node.Some? && Value(path, node).Absent? ==> r.err == Some(NoSuchPath)
    ensures Value(path, node).Found? && !(Value(path, node).v.Float? || Value(path, node).v.Int?) ==>
      r == Return(0, Some(NotConvertible))
  {
    if node.None? then Return(0, Some(NilDocument))
    else
      match Value(path, node)
      case Absent => Return(0, Some(NoSuchPath))
      case BadDescent => Panic
      case Found(Float(f)) => Return(Trunc(f), None)
      case Found(Int(i)) => Return(i, None)
      case Found(_) => Return(0, Some(NotConvertible))
  }

  /** Float64Val: only a float converts; a native int does not. */
  function Float64Val(path: string, node: Option<Node>): (r: Outcome<real>)
    ensures node.None? ==> r == Return(0.0, Some(NilDocument))
    ensures r.Panic? <==> Value(path, node).BadDescent?
    ensures r.Succeeded() <==> (Value(path, node).Found? && Value(path, node).v.Float?)
    ensures r.Succeeded() ==> Value(path, node) == Found(Float(r.value))
    ensures r.Failed() ==> r.value == 0.0
    ensures node.Some? && Value(path, node).Absent? ==> r.err == Some(NoSuchPath)
    ensures Value(path, node).Found? && !Value(path, node).v.Float? ==> r.err == Some(NotConvertible)
  {
    if node.None? then Return(0.0, Some(NilDocument))
    else
      match Value(path, node)
      case Absent => Return(0.0, Some(NoSuchPath))
      case BadDescent => Panic
      case Found(Float(f)) => Return(f, None)
      case Found(_) => Return(0.0, Some(NotConvertible))
  }

  /** BoolVal: only the boolean literal converts. */
  function BoolVal(path: string, node: Option<Node>): (r: Outcome<bool>)
    ensures node.None? ==> r == Return(false, Some(NilDocument))
    ensures r.Panic? <==> Value(path, node).BadDescent?
    ensures r.Succeeded() <==> (Value(path, node).Found? && Value(path, node).v.Bool?)
    ensures r.Succeeded() ==> Value(path, node) == Found(Bool(r.value))
    ensures r.Failed() ==> !r.value
    ensures node.Some? && Value(path, node).Absent? ==> r.err == Some(NoSuchPath)
    ensures Value(path, node).Found? && !Value(path, node).v.Bool? ==> r.err == Some(NotConvertible)
  {
    if node.None? then Return(false, Some(NilDocument))
    else
      match Value(path, node)
      case Absent => Return(false, Some(NoSuchPath))
      case BadDescent => Panic
      case Found(Bool(b)) => Return(b, None)
      case Found(_) => Return(false, Some(NotConvertible))
  }

  /** Array: the generic array at the path, with the same missing-path policy
      as ObjectVal. */
  function Array(path: string, node: Option<Node>, errIfMissing: bool): (r: Outcome<Option<seq<Values.Value>>>)
    ensures node.None? ==> r == Return(None, Some(NilDocument))
    ensures r.Panic? <==> Value(path, node).BadDescent?
    ensures r.Failed() ==> r.value.None?
    ensures (r.Succeeded() && r.value.Some?) <==> (Value(path, node).Found? && Value(path, node).v.Arr?)
    ensures r.Succeeded() && r.value.Some? ==> Value(path, node) == Found(Arr(r.value.value))
    ensures r == Return(None, None) <==> (node.Some? && !errIfMissing && Value(path, node).Absent?)
    ensures r == Return(None, Some(NoSuchPath)) <==> (node.Some? && errIfMissing && Value(path, node).Absent?)
    ensures r == Return(None, Some(NotConvertible)) <==> (Value(path, node).Found? && !Value(path, node).v.Arr?)
  {
    if node.None? then Return(None, Some(NilDocument))
    else
      match PathExists(path, node)
      case Panicked => Panic
      case Normal(found) =>
        if errIfMissing && !found then Return(None, Some(NoSuchPath))
        else
          match Value(path, node)
          case Absent => Return(None, None)
          case Found(Arr(items)) => Return(Some(items), None)
          case Found(_) => Return(None, Some(NotConvertible))
          case BadDescent => Panic
  }

  /** Every element is a string, and `s` lists them in order. */
  predicate StringsOf(items: seq<Values.Value>, s: seq<string>)
  {
    |s| == |items| && forall i | 0 <= i < |items| :: items[i] == Str(s[i])
  }

  /** `k` is the index of the first element that is not a string. */
  predicate FirstNonString(items: seq<Values.Value>, k: nat)
  {
    k < |items| && !items[k].Str? && forall j | 0 <= j < k :: items[j].Str?
  }

  /** The strings of an array of strings, in order. */
  function StringsFrom(items: seq<Values.Value>): (s: seq<string>)
    requires forall i | 0 <= i < |items| :: items[i].Str?
    ensures StringsOf(items, s)
  {
    seq(|items|, i requires 0 <= i < |items| => items[i].s)
  }

  /** An array has only one list of strings. */
  lemma StringsOfUnique(items: seq<Values.Value>, s: seq<string>, t: seq<string>)
    requires StringsOf(items, s) && StringsOf(items, t)
    ensures s == t
  {
    forall i | 0 <= i < |s| ensures s[i] == t[i] {
      assert Str(s[i]) == items[i] == Str(t[i]);
    }
  }

  /** StringsFrom is the only list of strings of an array of strings. */
  lemma StringsFromOnly(items: seq<Values.Value>)
    requires forall i | 0 <= i < |items| :: items[i].Str?
    ensures forall s | StringsOf(items, s) :: s == StringsFrom(items)
  {
    forall s | StringsOf(items, s) ensures s == StringsFrom(items) {
      StringsOfUnique(items, s, StringsFrom(items));
    }
  }

  /** The index of the first element that is not a string; the length when
      every element is one. */
  function FirstNonStringIndex(items: seq<Values.Value>): (k: nat)
    ensures k <= |items|
    ensures forall j | 0 <= j < k :: items[j].Str?
    ensures k < |items| ==> !items[k].Str?
    decreases |items|
  {
    if items == [] || !items[0].Str? then 0
    else
      var k := FirstNonStringIndex(items[1..]);
      assert forall j | 1 <= j < k + 1 :: items[j] == items[1..][j - 1];
      k + 1
  }

  /** What StringArray returns: the error or panic of Array with errIfMissing
      forced on; otherwise the strings of the array in order, or an error
      naming the first element that is not a string. */
  function StringArrayOf(path: string, node: Option<Node>): (r: Outcome<Option<seq<string>>>)
    ensures Array(path, node, true).Panic? <==> r.Panic?
    ensures Array(path, node, true).Failed() ==> r == Return(None, Array(path, node, true).err)
    ensures r.Succeeded() ==>
      r.value.Some? && exists items :: Value(path, node) == Found(Arr(items)) && StringsOf(items, r.value.value)
    ensures forall items: seq<Values.Value> :: Value(path, node) == Found(Arr(items)) ==>
      (r.Succeeded() <==> forall i | 0 <= i < |items| :: items[i].Str?)
    ensures forall items: seq<Values.Value>, s: seq<string> :: Value(path, node) == Found(Arr(items)) && StringsOf(items, s) ==>
      r == Return(Some(s), None)
    ensures forall items: seq<Values.Value>, k: nat :: Value(path, node) == Found(Arr(items)) && FirstNonString(items, k) ==>
      r == Return(None, Some(BadElement(k)))
  {
    match Array(path, node, true)
    case Panic => Panic
    case Return(_, Some(e)) => Return(None, Some(e))
    case Return(v, None) =>
      var items := if v.Some? then v.value else [];
      var k := FirstNonStringIndex(items);
      if k < |items| then Return(None, Some(BadElement(k)))
      else StringsFromOnly(items); Return(Some(StringsFrom(items)), None)
  }

  /** StringArray: a missing path (or nil document) is always an error; the
      first element that is not a string aborts with an error naming its index;
      otherwise the strings, in order. */
  method StringArray(path: string, node: Option<Node>) returns (r: Outcome<Option<seq<string>>>)
    ensures r == StringArrayOf(path, node)
  {
    var ival := Array(path, node, true);
    if ival.Panic? {
      return Panic;
    }
    if ival.err.Some? {
      return Return(None, ival.err);
    }
    var items := if ival.value.Some? then ival.value.value else [];
    var sval := new string[|items|];
    for i := 0 to |items|
      invariant forall j | 0 <= j < i :: items[j] == Str(sval[j])
    {
      if !items[i].Str? {
        assert FirstNonString(items, i);
        return Return(None, Some(BadElement(i)));
      }
      sval[i] := items[i].s;
    }
    assert StringsOf(items, sval[..]);
    StringsOfUnique(items, sval[..], StringsFrom(items));
    return Return(Some(sval[..]), None);
  }

  /** Resolving `a.b` resolves `a`, then `b` inside the map found there;
      anything but a map at `a` is the failed assertion. */
  lemma ValueDotted(a: string, b: string, node: Node)
    ensures Value(a + [Separator] + b, Some(node)) ==
      match Value(a, Some(node))
      case Absent => Absent
      case BadDescent => BadDescent
      case Found(v) => if v.Obj? then Value(b, Some(v.fields)) else BadDescent
  {
    SplitDotted(a, b);
    ConfigValAppend(Split(a), Split(b), node);
  }

  /** Paths whose first segment is empty ("" or "....." among them) resolve
      only through a non-null "" key. */
  lemma EmptySegmentMissing(path: string, node: Node)
    requires path == [] || path[0] == Separator
    requires "" !in node || node[""] == Null
    ensures Value(path, Some(node)) == Absent
    ensures PathExists(path, Some(node)) == Normal(false)
  {
    LeadingSegmentEmpty(path);
  }

  /** An explicit null is indistinguishable from a missing key. */
  lemma NullEntryIsMissing(path: string, node: Node, k: string)
    ensures Value(path, Some(node[k := Null])) == Value(path, Some(node - {k}))
    ensures PathExists(path, Some(node[k := Null])) == PathExists(path, Some(node - {k}))
  {
    NullIsMissing(Split(path), node, k);
  }
}
