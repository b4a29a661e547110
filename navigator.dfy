/** The older duplicate package config_navigator (config.go): the same engine
    and accessors as config_access, but with no nil-document guard (a nil map
    reads like an empty one) and an IntVal that accepts floats only. */
module Navigator {
  import opened Values
  import opened Resolve
  import Access

  /** A nil ConfigNode: indexing a nil Go map yields nothing. */
  function Contents(node: Option<Node>): Node
  {
    if node.Some? then node.value else map[]
  }

  function Value(path: string, node: Option<Node>): (r: Resolved)
    ensures r.Found? ==> r.v != Null
    ensures node.None? ==> r == Absent
  {
    ConfigVal(Split(path), Contents(node))
  }

  function PathExists(path: string, node: Option<Node>): (r: Completion<bool>)
    ensures r == Normal(true) <==> Value(path, node).Found?
    ensures r == Normal(false) <==> Value(path, node).Absent?
    ensures r.Panicked? <==> Value(path, node).BadDescent?
  {
    match Value(path, node)
    case BadDescent => Panicked
    case Found(_) => Normal(true)
    case Absent => Normal(false)
  }

  function ObjectVal(path: string, node: Option<Node>, errIfMissing: bool): (r: Outcome<Option<Node>>)
    ensures r.Panic? <==> Value(path, node).BadDescent?
    ensures r.Failed() ==> r.value.None?
    ensures (r.Succeeded() && r.value.Some?) <==> (Value(path, node).Found? && Value(path, node).v.Obj?)
    ensures r.Succeeded() && r.value.Some? ==> Value(path, node) == Found(Obj(r.value.value))
    ensures r == Return(None, None) <==> (!errIfMissing && Value(path, node).Absent?)
    ensures r == Return(None, Some(NoSuchPath)) <==> (errIfMissing && Value(path, node).Absent?)
    ensures r == Return(None, Some(NotConvertible)) <==> (Value(path, node).Found? && !Value(path, node).v.Obj?)
  {
    match PathExists(path, node)
    case Panicked => Panic
    case Normal(found) =>
      if errIfMissing && !found then Return(None, Some(NoSuchPath))
      else
        match Value(path, node)
        case Absent => Return(None, None)
        case Found(Obj(m)) => Return(Some(m), None)
        case Found(_) => Return(None, Some(NotConvertible))
        case BadDescent => Panic
  }

  function StringVal(path: string, node: Option<Node>): (r: Outcome<string>)
    ensures r.Panic? <==> Value(path, node).BadDescent?
    ensures r.Succeeded() <==> (Value(path, node).Found? && Value(path, node).v.Str?)
    ensures r.Succeeded() ==> Value(path, node) == Found(Str(r.value))
    ensures r.Failed() ==> r.value == ""
    ensures Value(path, node).Absent? ==> r.err == Some(NoSuchPath)
  {
    match Value(path, node)
    case Absent => Return("", Some(NoSuchPath))
    case BadDescent => Panic
    case Found(Str(s)) => Return(s, None)
    case Found(_) => Return("", Some(NotConvertible))
  }

  /** IntVal: a float, truncated toward zero; a native int is a conversion error. */
  function IntVal(path: string, node: Option<Node>): (r: Outcome<int>)
    ensures r.Panic? <==> Value(path, node).BadDescent?
    ensures r.Succeeded() <==> (Value(path, node).Found? && Value(path, node).v.Float?)
    ensures forall f :: Value(path, node) == Found(Float(f)) ==> r == Return(Trunc(f), None)
    ensures r.Failed() ==> r.value == 0
    ensures Value(path, node).Absent? ==> r.err == Some(NoSuchPath)
    ensures Value(path, node).Found? && !Value(path, node).v.Float? ==> r == Return(0, Some(NotConvertible))
  {
    match Value(path, node)
    case Absent => Return(0, Some(NoSuchPath))
    case BadDescent => Panic
    case Found(Float(f)) => Return(Trunc(f), None)
    case Found(_) => Return(0, Some(NotConvertible))
  }

  function Float64Val(path: string, node: Option<Node>): (r: Outcome<real>)
    ensures r.Panic? <==> Value(path, node).BadDescent?
    ensures r.Succeeded() <==> (Value(path, node).Found? && Value(path, node).v.Float?)
    ensures r.Succeeded() ==> Value(path, node) == Found(Float(r.value))
    ensures r.Failed() ==> r.value == 0.0
    ensures Value(path, node).Absent? ==> r.err == Some(NoSuchPath)
  {
    match Value(path, node)
    case Absent => Return(0.0, Some(NoSuchPath))
    case BadDescent => Panic
    case Found(Float(f)) => Return(f, None)
    case Found(_) => Return(0.0, Some(NotConvertible))
  }

  function Array(path: string, node: Option<Node>, errIfMissing: bool): (r: Outcome<Option<seq<Values.Value>>>)
    ensures r.Panic? <==> Value(path, node).BadDescent?
    ensures r.Failed() ==> r.value.None?
    ensures (r.Succeeded() && r.value.Some?) <==> (Value(path, node).Found? && Value(path, node).v.Arr?)
    ensures r.Succeeded() && r.value.Some? ==> Value(path, node) == Found(Arr(r.value.value))
    ensures r == Return(None, None) <==> (!errIfMissing && Value(path, node).Absent?)
    ensures r == Return(None, Some(NoSuchPath)) <==> (errIfMissing && Value(path, node).Absent?)
    ensures r == Return(None, Some(NotConvertible)) <==> (Value(path, node).Found? && !Value(path, node).v.Arr?)
  {
    match PathExists(path, node)
    case Panicked => Panic
    case Normal(found) =>
      if errIfMissing && !found then Return(None, Some(NoSuchPath))
      else
        match Value(path, node)
        case Absent => Return(None, None)
        case Found(Arr(items)) => Return(Some(items), None)
        case Found(_) => Return(None, Some(NotConvertible))
        case BadDescent => Panic
  }

  function BoolVal(path: string, node: Option<Node>): (r: Outcome<bool>)
    ensures r.Panic? <==> Value(path, node).BadDescent?
    ensures r.Succeeded() <==> (Value(path, node).Found? && Value(path, node).v.Bool?)
    ensures r.Succeeded() ==> Value(path, node) == Found(Bool(r.value))
    ensures r.Failed() ==> !r.value
    ensures Value(path, node).Absent? ==> r.err == Some(NoSuchPath)
  {
    match Value(path, node)
    case Absent => Return(false, Some(NoSuchPath))
    case BadDescent => Panic
    case Found(Bool(b)) => Return(b, None)
    case Found(_) => Return(false, Some(NotConvertible))
  }

  /** Without a nil guard, a nil document is an empty one: every accessor
      reports a missing path, never a nil-document error. */
  lemma NilIsEmpty(path: string, errIfMissing: bool)
    ensures Value(path, None) == Value(path, Some(map[])) == Absent
    ensures PathExists(path, None) == Normal(false)
    ensures ObjectVal(path, None, errIfMissing) == ObjectVal(path, Some(map[]), errIfMissing)
      == (if errIfMissing then Return(None, Some(NoSuchPath)) else Return(None, None))
    ensures Array(path, None, errIfMissing) == Array(path, Some(map[]), errIfMissing)
      == (if errIfMissing then Return(None, Some(NoSuchPath)) else Return(None, None))
    ensures StringVal(path, None) == Return("", Some(NoSuchPath))
    ensures IntVal(path, None) == Return(0, Some(NoSuchPath))
    ensures Float64Val(path, None) == Return(0.0, Some(NoSuchPath))
    ensures BoolVal(path, None) == Return(false, Some(NoSuchPath))
  {
  }

  /** On a non-nil document the two packages agree on everything but IntVal. */
  lemma AgreesWithAccess(path: string, node: Node, errIfMissing: bool)
    ensures Value(path, Some(node)) == Access.Value(path, Some(node))
    ensures PathExists(path, Some(node)) == Access.PathExists(path, Some(node))
    ensures ObjectVal(path, Some(node), errIfMissing) == Access.ObjectVal(path, Some(node), errIfMissing)
    ensures Array(path, Some(node), errIfMissing) == Access.Array(path, Some(node), errIfMissing)
    ensures StringVal(path, Some(node)) == Access.StringVal(path, Some(node))
    ensures Float64Val(path, Some(node)) == Access.Float64Val(path, Some(node))
    ensures BoolVal(path, Some(node)) == Access.BoolVal(path, Some(node))
  {
  }

  /** IntVal differs exactly on native ints, which only config_access converts. */
  lemma IntValDiffers(path: string, node: Node)
    ensures IntVal(path, Some(node)) != Access.IntVal(path, Some(node)) <==>
      (Value(path, Some(node)).Found? && Value(path, Some(node)).v.Int?)
    ensures forall i :: Value(path, Some(node)) == Found(Int(i)) ==>
      IntVal(path, Some(node)) == Return(0, Some(NotConvertible)) &&
      Access.IntVal(path, Some(node)) == Return(i, None)
  {
  }

  /** A path with an empty first segment ("" or ".....") names nothing unless
      the document has a "" key; a nil document has none. */
  lemma EmptySegmentMissing(path: string, node: Option<Node>)
    requires path == [] || path[0] == Separator
    requires node.Some? ==> "" !in node.value || node.value[""] == Null
    ensures Value(path, node) == Absent
    ensures PathExists(path, node) == Normal(false)
  {
    LeadingSegmentEmpty(path);
  }
}
