/** DefaultSelector (selector.go): a document reference plus two policies,
    forwarding every read to the package-level accessors. */
module Selector {
  import opened Values
  import opened Resolve
  import Access

  /** The package functions IntArray and Float64Array are called by the
      selector, but their bodies are not part of this model; they enter as
      parameters. */
  type IntArrayFn = (string, Option<Node>) -> Outcome<Option<seq<int>>>
  type Float64ArrayFn = (string, Option<Node>) -> Outcome<Option<seq<real>>>

  class DefaultSelector {
    var errorOnMissingObjectPath: bool
    var errorOnMissingArrayPath: bool
    /** The bound document, shared with whoever created it; null after Flush. */
    var config: Document?

    /** NewDefaultSelector: binds the document and both policies as given. */
    constructor (config: Document?, errorOnMissingObjectPath: bool, errorOnMissingArrayPath: bool)
      ensures this.config == config
      ensures this.errorOnMissingObjectPath == errorOnMissingObjectPath
      ensures this.errorOnMissingArrayPath == errorOnMissingArrayPath
    {
      this.config := config;
      this.errorOnMissingArrayPath := errorOnMissingArrayPath;
      this.errorOnMissingObjectPath := errorOnMissingObjectPath;
    }

    /** NewGraniticSelector: both policies left at false. */
    constructor Granitic(config: Document?)
      ensures this.config == config
      ensures !errorOnMissingObjectPath && !errorOnMissingArrayPath
    {
      this.config := config;
      // new(DefaultSelector) leaves both flags at Go's zero value
      this.errorOnMissingObjectPath, this.errorOnMissingArrayPath := false, false;
    }

    /** The document as the accessors see it: nil, or the current contents of
        the shared document. */
    function Doc(): Option<Node>
      reads this, config
    {
      if config == null then None else Some(config.root)
    }

    /** Flush: drops the document reference; only `config` may change, so the
        policies survive, and a second Flush changes nothing. */
    method Flush()
      modifies this`config
      ensures config == null
    {
      config := null;
    }

    function PathExists(path: string): (r: Completion<bool>)
      reads this, config
      ensures r == Access.PathExists(path, Doc())
      ensures config == null ==> r == Normal(false)
    {
      Access.PathExists(path, Doc())
    }

    function Value(path: string): (r: Resolved)
      reads this, config
      ensures r == Access.Value(path, Doc())
      ensures config == null ==> r == Absent
    {
      Access.Value(path, Doc())
    }

    /** ObjectVal applies errorOnMissingObjectPath. */
    function ObjectVal(path: string): (r: Outcome<Option<Node>>)
      reads this, config
      ensures r == Access.ObjectVal(path, Doc(), errorOnMissingObjectPath)
      ensures config == null ==> r == Return(None, Some(NilDocument))
      ensures config != null && Value(path).Absent? ==>
        r == if errorOnMissingObjectPath then Return(None, Some(NoSuchPath)) else Return(None, None)
    {
      Access.ObjectVal(path, Doc(), errorOnMissingObjectPath)
    }

    function StringVal(path: string): (r: Outcome<string>)
      reads this, config
      ensures r == Access.StringVal(path, Doc())
      ensures config == null ==> r == Return("", Some(NilDocument))
    {
      Access.StringVal(path, Doc())
    }

    function IntVal(path: string): (r: Outcome<int>)
      reads this, config
      ensures r == Access.IntVal(path, Doc())
      ensures config == null ==> r == Return(0, Some(NilDocument))
    {
      Access.IntVal(path, Doc())
    }

    function Float64Val(path: string): (r: Outcome<real>)
      reads this, config
      ensures r == Access.Float64Val(path, Doc())
      ensures config == null ==> r == Return(0.0, Some(NilDocument))
    {
      Access.Float64Val(path, Doc())
    }

    /** Array applies errorOnMissingArrayPath. */
    function Array(path: string): (r: Outcome<Option<seq<Values.Value>>>)
      reads this, config
      ensures r == Access.Array(path, Doc(), errorOnMissingArrayPath)
      ensures config == null ==> r == Return(None, Some(NilDocument))
      ensures config != null && Value(path).Absent? ==>
        r == if errorOnMissingArrayPath then Return(None, Some(NoSuchPath)) else Return(None, None)
    {
      Access.Array(path, Doc(), errorOnMissingArrayPath)
    }

    /** StringArray forwards to the package method, which loops. */
    method StringArray(path: string) returns (r: Outcome<Option<seq<string>>>)
      ensures r == Access.StringArrayOf(path, Doc())
      ensures Access.Array(path, Doc(), true).Panic? <==> r.Panic?
      ensures config == null ==> r == Return(None, Some(NilDocument))
      ensures config != null && Value(path).Absent? ==> r == Return(None, Some(NoSuchPath))
      ensures r.Succeeded() ==>
        r.value.Some? && exists items :: Value(path) == Found(Arr(items)) && Access.StringsOf(items, r.value.value)
      ensures forall items: seq<Values.Value>, s: seq<string> :: Value(path) == Found(Arr(items)) && Access.StringsOf(items, s) ==>
        r == Return(Some(s), None)
      ensures forall items: seq<Values.Value>, k: nat :: Value(path) == Found(Arr(items)) && Access.FirstNonString(items, k) ==>
        r == Return(None, Some(BadElement(k)))
    {
      r := Access.StringArray(path, Doc());
    }

    function IntArray(path: string, intArray: IntArrayFn): (r: Outcome<Option<seq<int>>>)
      reads this, config
      ensures r == intArray(path, Doc())
    {
      intArray(path, Doc())
    }

    function Float64Array(path: string, float64Array: Float64ArrayFn): (r: Outcome<Option<seq<real>>>)
      reads this, config
      ensures r == float64Array(path, Doc())
    {
      float64Array(path, Doc())
    }

    function BoolVal(path: string): (r: Outcome<bool>)
      reads this, config
      ensures r == Access.BoolVal(path, Doc())
      ensures config == null ==> r == Return(false, Some(NilDocument))
    {
      Access.BoolVal(path, Doc())
    }

    /** Config: the bound document itself, not a copy. */
    function Config(): (d: Document?)
      reads this
      ensures d == config
    {
      config
    }
  }
}
