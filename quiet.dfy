/** DeferredErrorQuietSelector (quiet.go): wraps a selector; a failing call is
    reported to the handler and answered with the type's zero value. The
    handler's side effects are not modelled: the object keeps the log of the
    calls made to it. */
module Quiet {
  import opened Values
  import opened Resolve
  import opened Selector
  import Access

  /** One invocation of the handler: handleError(path, err). */
  datatype HandlerCall = HandlerCall(path: string, err: Error)

  /** The deferred-error rule for one call whose wrapped outcome is `o`: a
      success is passed through and the log is untouched; a failure appends
      exactly one handler call with the same path and error and yields `zero`;
      a panic in the wrapped call propagates. */
  ghost predicate Deferred<T>(o: Outcome<T>, zero: T, path: string, r: Completion<T>,
                              before: seq<HandlerCall>, after: seq<HandlerCall>)
  {
    match o
    case Panic => r == Panicked && after == before
    case Return(v, None) => r == Normal(v) && after == before
    case Return(_, Some(e)) => r == Normal(zero) && after == before + [HandlerCall(path, e)]
  }

  /** The log grows by exactly one entry, the failing call's, on failure only. */
  lemma DeferredLog<T>(o: Outcome<T>, zero: T, path: string, r: Completion<T>,
                       before: seq<HandlerCall>, after: seq<HandlerCall>)
    requires Deferred(o, zero, path, r, before, after)
    ensures |after| == |before| + (if o.Failed() then 1 else 0)
    ensures after[..|before|] == before
    ensures o.Failed() ==> after[|before|] == HandlerCall(path, o.err.value) && r == Normal(zero)
    ensures o.Succeeded() ==> r == Normal(o.value)
  {
  }

  class DeferredErrorQuietSelector {
    /** The wrapped selector, fixed at construction. */
    const conf: DefaultSelector
    /** The calls made to the handler so far. */
    var log: seq<HandlerCall>

    /** NewDeferredErrorQuietSelector. */
    constructor (conf: DefaultSelector)
      ensures this.conf == conf && log == []
    {
      this.conf := conf;
      log := [];
    }

    /** The handler invocation. */
    method HandleError(path: string, err: Error)
      modifies this`log
      ensures log == old(log) + [HandlerCall(path, err)]
    {
      log := log + [HandlerCall(path, err)];
    }

    /** The shape shared by every fallible method: on error call the handler
        and return the zero value. */
    method Defer<T>(path: string, o: Outcome<T>, zero: T) returns (r: Completion<T>)
      modifies this`log
      ensures Deferred(o, zero, path, r, old(log), log)
    {
      match o
      case Panic =>
        r := Panicked;
      case Return(v, err) =>
        if err.Some? {
          HandleError(path, err.value);
          r := Normal(zero);
        } else {
          r := Normal(v);
        }
    }

    /** PathExists and Value have no failure to report: they never reach the handler. */
    function PathExists(path: string): (r: Completion<bool>)
      reads this, conf, conf.config
      ensures r == conf.PathExists(path)
    {
      conf.PathExists(path)
    }

    function Value(path: string): (r: Resolved)
      reads this, conf, conf.config
      ensures r == conf.Value(path)
    {
      conf.Value(path)
    }

    method ObjectVal(path: string) returns (r: Completion<Option<Node>>)
      modifies this`log
      ensures Deferred(conf.ObjectVal(path), None, path, r, old(log), log)
    {
      r := Defer(path, conf.ObjectVal(path), None);
    }

    method StringVal(path: string) returns (r: Completion<string>)
      modifies this`log
      ensures Deferred(conf.StringVal(path), "", path, r, old(log), log)
    {
      r := Defer(path, conf.StringVal(path), "");
    }

    method IntVal(path: string) returns (r: Completion<int>)
      modifies this`log
      ensures Deferred(conf.IntVal(path), 0, path, r, old(log), log)
    {
      r := Defer(path, conf.IntVal(path), 0);
    }

    method Float64Val(path: string) returns (r: Completion<real>)
      modifies this`log
      ensures Deferred(conf.Float64Val(path), 0.0, path, r, old(log), log)
    {
      r := Defer(path, conf.Float64Val(path), 0.0);
    }

    method Array(path: string) returns (r: Completion<Option<seq<Values.Value>>>)
      modifies this`log
      ensures Deferred(conf.Array(path), None, path, r, old(log), log)
    {
      r := Defer(path, conf.Array(path), None);
    }

    /** StringArray: every element a string means the strings and no handler
        call; the first element that is not a string is reported with its
        index and yields nil. */
    method StringArray(path: string) returns (r: Completion<Option<seq<string>>>)
      modifies this`log
      ensures Deferred(Access.StringArrayOf(path, conf.Doc()), None, path, r, old(log), log)
      ensures forall items: seq<Values.Value>, s: seq<string> ::
        conf.Value(path) == Found(Arr(items)) && Access.StringsOf(items, s) ==>
        r == Normal(Some(s)) && log == old(log)
      ensures forall items: seq<Values.Value>, k: nat ::
        conf.Value(path) == Found(Arr(items)) && Access.FirstNonString(items, k) ==>
        r == Normal(None) && log == old(log) + [HandlerCall(path, BadElement(k))]
      ensures conf.config == null ==> r == Normal(None) && log == old(log) + [HandlerCall(path, NilDocument)]
      ensures conf.config != null && conf.Value(path).Absent? ==>
        r == Normal(None) && log == old(log) + [HandlerCall(path, NoSuchPath)]
    {
      var o := conf.StringArray(path);
      r := Defer(path, o, None);
    }

    method IntArray(path: string, intArray: IntArrayFn) returns (r: Completion<Option<seq<int>>>)
      modifies this`log
      ensures Deferred(conf.IntArray(path, intArray), None, path, r, old(log), log)
    {
      r := Defer(path, conf.IntArray(path, intArray), None);
    }

    method Float64Array(path: string, float64Array: Float64ArrayFn) returns (r: Completion<Option<seq<real>>>)
      modifies this`log
      ensures Deferred(conf.Float64Array(path, float64Array), None, path, r, old(log), log)
    {
      r := Defer(path, conf.Float64Array(path, float64Array), None);
    }

    method BoolVal(path: string) returns (r: Completion<bool>)
      modifies this`log
      ensures Deferred(conf.BoolVal(path), false, path, r, old(log), log)
    {
      r := Defer(path, conf.BoolVal(path), false);
    }
  }
}
