/** Client code over the selectors: the bound document is shared, Flush drops
    it, and the quiet wrapper reports each failing call once. */
module Scenarios {
  import opened Values
  import opened Resolve
  import Selector
  import Quiet
  import Merger

  /** A write through the document Config returns is seen by the selector's
      next read: Config hands out the bound document, not a copy. */
  method WriteThroughConfig(sel: Selector.DefaultSelector, key: string, v: Value)
    requires sel.config != null && Separator !in key && v != Null
    modifies sel.config
    ensures sel.Value(key) == Found(v)
    ensures sel.PathExists(key) == Normal(true)
  {
    var d := sel.Config();
    d.root := d.root[key := v];
    SplitPlain(key);
  }

  /** Merging into the bound document changes what the selector reads. */
  method MergeIntoBoundDocument(sel: Selector.DefaultSelector, additional: Node, mergeArrays: bool)
    requires sel.config != null
    modifies sel.config
    ensures sel.Doc() == Some(Merger.Merged(old(sel.config.root), additional, mergeArrays))
  {
    var _ := Merger.Merge(sel.config, additional, mergeArrays);
  }

  /** After Flush every read fails with the nil-document error whatever the
      policies, which Flush leaves as they were. */
  method FlushThenRead(sel: Selector.DefaultSelector, path: string)
    modifies sel
    ensures sel.errorOnMissingObjectPath == old(sel.errorOnMissingObjectPath)
    ensures sel.errorOnMissingArrayPath == old(sel.errorOnMissingArrayPath)
    ensures sel.PathExists(path) == Normal(false) && sel.Value(path) == Absent
    ensures sel.ObjectVal(path) == Return(None, Some(NilDocument))
    ensures sel.Array(path) == Return(None, Some(NilDocument))
    ensures sel.StringVal(path) == Return("", Some(NilDocument))
    ensures sel.IntVal(path) == Return(0, Some(NilDocument))
    ensures sel.Float64Val(path) == Return(0.0, Some(NilDocument))
    ensures sel.BoolVal(path) == Return(false, Some(NilDocument))
  {
    sel.Flush();
    sel.Flush();
  }

  /** A quiet selector over a document without the key: the string read
      yields "" and one handler call, the object read under the Granitic
      policies yields nil and none. */
  method QuietMissingKey(key: string) returns (s: Completion<string>, o: Completion<Option<Node>>,
                                               log: seq<Quiet.HandlerCall>)
    requires Separator !in key
    ensures s == Normal("") && o == Normal(None)
    ensures log == [Quiet.HandlerCall(key, NoSuchPath)]
  {
    var doc := new Document(map[]);
    var sel := new Selector.DefaultSelector.Granitic(doc);
    var quiet := new Quiet.DeferredErrorQuietSelector(sel);
    SplitPlain(key);
    s := quiet.StringVal(key);
    o := quiet.ObjectVal(key);
    log := quiet.log;
  }
}
