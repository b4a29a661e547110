# config-access in Dafny

A model of the Go library graniticio/config-access, with proofs about the model.
The library gives typed access to an already-decoded configuration document, a
`map[string]interface{}` tree. The model covers these parts:

- Path resolution. A dotted path is split on `.` and the tree is walked one map
  at a time.
- The typed accessors of package `config_access`, and the older duplicate
  package `config_navigator`. The older package has no nil-document guard, and
  its `IntVal` accepts floats only.
- `DefaultSelector`. It holds a document reference and two missing-path
  policies, and `Flush` drops the reference.
- `DeferredErrorQuietSelector`. It reports each failing call to a handler and
  answers with the type's zero value.
- The in-place deep `Merge` with its four-way conflict rule.
- The field-population dispatch of `SetField`, `populateMapField`, `arrayVal`
  and `Populate`.

How the source is represented:

- One tagged `Value` type stands for a document value: string, bool, float (a
  real), native int (as YAML produces), null, array, object, and `Other` for any
  Go value outside the document model.
- A document is `Option<Node>`, because a nil document is not an empty one in
  `config_access`.
- A shared document is a `Document` object, because Go maps are references.
- A Go call that returns `(T, error)` or panics is an `Outcome`. A call that
  returns a plain value or panics is a `Completion`.
- The unchecked assertion `result.(ConfigNode)` in `configVal` is its own
  resolution outcome, `BadDescent`. Every accessor turns it into a panic.

Files:

| file | module | source |
|---|---|---|
| values.dfy | Values | the shared value, error and result types |
| resolve.dfy | Resolve | `strings.Split` and `configVal` |
| access.dfy | Access | access.go |
| navigator.dfy | Navigator | config.go |
| selector.dfy | Selector | selector.go |
| quiet.dfy | Quiet | quiet.go |
| merge.dfy | Merger | merge.go |
| injector.dfy | Injector | injector.go |
| scenarios.dfy | Scenarios | client code over the selectors, after the package's tests |

Where the code does more than its comments say, the model follows the code:

- Descending through a non-map panics; the comment on `Value`
  (access.go:15) speaks only of a missing path or a null value.
- `IntVal` in `config_access` also accepts native ints; its comment
  (access.go:78-81) speaks only of JSON numbers held as float64.
- `populateMapField` skips null entries: it never inserts their keys.
- A failed map fill leaves the entries already written in the field.
- In a map-valued array, a null first element panics, and so does a later
  non-string element. Any other first element that is not a string is an
  error.

The last three have no comment in the source at all.

## Model

| member | source | states |
|---|---|---|
| Values.Trunc | access.go:92-93 | `int(f)` truncates toward zero: the result is within one of `f`, on the side of zero |
| Resolve.Split | access.go:22 | `strings.Split` on `.` yields at least one segment, and no segment contains the separator |
| Resolve.JoinSplit | access.go:22 | Splitting a path loses nothing: joining the segments with `.` gives the path back |
| Resolve.SplitJoin | access.go:22 | Splitting a join of separator-free segments gives the segments back |
| Resolve.SplitCons | access.go:22 | Splitting one character more either opens a new empty segment, at a separator, or extends the first segment |
| Resolve.SplitPlain | access.go:22 | A path without a separator is a single segment |
| Resolve.SplitPrefix | access.go:22 | A leading separator-free word followed by `.` is the first segment, and the rest splits on its own |
| Resolve.LeadingSegmentEmpty | access.go:22 | `""` and any path starting with `.` have an empty first segment |
| Resolve.ConfigVal | access.go:194-209 | Resolution never yields null; a missing or null first key gives absent; a single present segment gives its value |
| Resolve.ConfigValAppend | access.go:194-209 | Walking `p + q` is walking `p`, then walking `q` inside the map it found; a non-map found is a bad descent |
| Resolve.NullIsMissing | access.go:199-201 | An entry set to null resolves exactly like a missing entry, along every path |
| Access.Value | access.go:16-26 | A nil document gives absent; a found value is never null |
| Access.PathExists | access.go:9-13 | True exactly when resolution finds a value, false exactly when it finds nothing, a panic exactly on a bad descent |
| Access.ObjectVal | access.go:33-52 | Nil document is an error even with `errIfMissing` false; absent gives `(nil, nil)` or, with `errIfMissing`, a missing-path error; a map is returned as found; any other shape is a conversion error |
| Access.StringVal | access.go:56-76 | Succeeds exactly on a string, returning it; nil document, missing path and wrong shape are distinct errors, each with `""` |
| Access.IntVal | access.go:82-100 | Succeeds exactly on a float (truncated) or a native int; a found value of any other shape is a conversion error, not a missing path; every failure returns 0 |
| Access.Float64Val | access.go:103-118 | Succeeds exactly on a float, returning it unchanged; a native int is a conversion error; failures return 0 |
| Access.BoolVal | access.go:174-192 | Succeeds exactly on a bool, returning it; failures return false |
| Access.Array | access.go:125-145 | The same nil, missing-path and shape rules as ObjectVal, for arrays |
| Access.StringsFrom | access.go:162-166 | The strings of an all-string array, in array order |
| Access.StringsOfUnique | access.go:162-166 | An all-string array has exactly one string list |
| Access.StringsFromOnly | access.go:162-166 | Every string list of an all-string array is StringsFrom of it |
| Access.FirstNonStringIndex | access.go:162-166 | The first index holding a non-string, or the length when there is none: every element before it is a string |
| Access.StringArrayOf | access.go:150-169 | The Array error or panic with errIfMissing forced on passes through; an array whose elements are all strings succeeds with those strings in order; otherwise an error naming the index of the first non-string element |
| Access.StringArray | access.go:150-169 | The loop over a fresh string buffer returns exactly StringArrayOf |
| Resolve.SplitDotted | access.go:22 | Splitting `a.b` gives the segments of `a` followed by those of `b` |
| Access.ValueDotted | access.go:16-26 | Resolving `a.b` is resolving `a`, then `b` inside the map it found |
| Access.EmptySegmentMissing | access.go:16-26 | `""` and `"....."` name nothing unless the document has a `""` key |
| Access.NullEntryIsMissing | access.go:9-13 | Setting an entry to null is the same, to Value and PathExists, as deleting it |
| Navigator.Value | config.go:23-29 | No nil guard: a nil document reads as empty, so the result is absent |
| Navigator.PathExists | config.go:16-20 | True, false or a panic exactly as resolution finds a value, nothing, or a bad descent |
| Navigator.ObjectVal | config.go:36-51 | A missing-path error only when `errIfMissing` is set and the path is absent; absent otherwise gives `(nil, nil)`; a wrong shape is a conversion error |
| Navigator.StringVal | config.go:55-71 | Exact-shape string conversion; `""` on every failure; absent is a missing-path error |
| Navigator.IntVal | config.go:77-89 | Succeeds exactly on a float, truncated; a found native int, or any other non-float, is a conversion error |
| Navigator.Float64Val | config.go:92-103 | Exact-shape float conversion; 0 on every failure |
| Navigator.Array | config.go:110-126 | The `errIfMissing` rule of ObjectVal, for arrays |
| Navigator.BoolVal | config.go:131-145 | Exact-shape bool conversion; false on every failure |
| Navigator.NilIsEmpty | config.go:23-29 | A nil document behaves exactly like an empty one in every accessor: a missing path, never a nil-document error |
| Navigator.AgreesWithAccess | config.go:147-162 | On a non-nil document both packages return the same from every accessor except IntVal |
| Navigator.IntValDiffers | config.go:77-89 | The two IntVals differ exactly on native ints, which only `config_access` converts |
| Navigator.EmptySegmentMissing | config.go:16-20 | `PathExists` of `""` and `"....."` is false on a nil document, and on any document without a `""` key |
| Selector.DefaultSelector.constructor | selector.go:36-43 | NewDefaultSelector stores the document and both policies as given |
| Selector.DefaultSelector.Granitic | selector.go:45-50 | NewGraniticSelector binds the document with both policies false |
| Selector.DefaultSelector.Flush | selector.go:58-60 | The document reference becomes nil, and nothing else changes |
| Selector.DefaultSelector.PathExists | selector.go:62-64 | Forwards the bound document; false after Flush |
| Selector.DefaultSelector.Value | selector.go:66-68 | Forwards the bound document; absent after Flush |
| Selector.DefaultSelector.ObjectVal | selector.go:70-72 | Forwards `errorOnMissingObjectPath`; a nil-document error after Flush; an absent path is an error exactly when the policy is set |
| Selector.DefaultSelector.StringVal | selector.go:74-76 | Forwards the bound document; a nil-document error after Flush |
| Selector.DefaultSelector.IntVal | selector.go:78-80 | Forwards the bound document; a nil-document error after Flush |
| Selector.DefaultSelector.Float64Val | selector.go:82-84 | Forwards the bound document; a nil-document error after Flush |
| Selector.DefaultSelector.Array | selector.go:86-88 | Forwards `errorOnMissingArrayPath`; a nil-document error after Flush; an absent path is an error exactly when the policy is set |
| Selector.DefaultSelector.StringArray | selector.go:90-92 | Exactly StringArrayOf on the bound document: an all-string array succeeds with its strings, the first non-string is reported by index; a nil-document error after Flush |
| Selector.DefaultSelector.IntArray | selector.go:94-96 | Forwards the bound document to the package IntArray |
| Selector.DefaultSelector.Float64Array | selector.go:98-100 | Forwards the bound document to the package Float64Array |
| Selector.DefaultSelector.BoolVal | selector.go:102-104 | Forwards the bound document; a nil-document error after Flush |
| Selector.DefaultSelector.Config | selector.go:106-108 | Returns the bound document itself, not a copy |
| Quiet.DeferredLog | quiet.go:45-136 | Under the deferred rule the log grows by exactly one entry, the failing call's path and error, and only on failure; a success returns the wrapped value |
| Quiet.DeferredErrorQuietSelector.constructor | quiet.go:18-24 | Wraps the given selector; no handler call has been made |
| Quiet.DeferredErrorQuietSelector.HandleError | quiet.go:28-31 | One handler invocation appends `(path, err)` to the log |
| Quiet.DeferredErrorQuietSelector.Defer | quiet.go:45-54 | The shared shape: on error, one handler call and the zero value; on success, the value and no call |
| Quiet.DeferredErrorQuietSelector.PathExists | quiet.go:33-37 | The wrapped selector's answer; no handler call is possible |
| Quiet.DeferredErrorQuietSelector.Value | quiet.go:39-43 | The wrapped selector's answer; no handler call is possible |
| Quiet.DeferredErrorQuietSelector.ObjectVal | quiet.go:45-54 | The deferred rule over the wrapped ObjectVal, with nil as zero |
| Quiet.DeferredErrorQuietSelector.StringVal | quiet.go:56-65 | The deferred rule over the wrapped StringVal, with `""` as zero |
| Quiet.DeferredErrorQuietSelector.IntVal | quiet.go:67-76 | The deferred rule over the wrapped IntVal, with 0 as zero |
| Quiet.DeferredErrorQuietSelector.Float64Val | quiet.go:78-87 | The deferred rule over the wrapped Float64Val, with 0 as zero |
| Quiet.DeferredErrorQuietSelector.Array | quiet.go:89-98 | The deferred rule over the wrapped Array, with nil as zero |
| Quiet.DeferredErrorQuietSelector.StringArray | quiet.go:100-107 | The deferred rule over StringArrayOf on the wrapped document: an all-string array gives its strings and no handler call; a non-string element, a flushed selector or a missing path logs exactly one call with that error and returns nil |
| Quiet.DeferredErrorQuietSelector.IntArray | quiet.go:109-116 | The deferred rule over the wrapped IntArray, with nil as zero |
| Quiet.DeferredErrorQuietSelector.Float64Array | quiet.go:118-125 | The deferred rule over the wrapped Float64Array, with nil as zero |
| Quiet.DeferredErrorQuietSelector.BoolVal | quiet.go:127-136 | The deferred rule over the wrapped BoolVal, with false as zero |
| Merger.ConfigType | merge.go:13-27 | String, map, bool and array each get their own constant; numbers, null and anything else are unknown; never unset |
| Merger.MergeArrays | merge.go:58-60 | `a` followed by `b`: both halves in order, duplicates kept |
| Merger.Combine | merge.go:39-48 | Two maps merge recursively, keeping the keys of both; two arrays concatenate when the flag is set; otherwise the additional value wins |
| Merger.Merged | merge.go:33-56 | The key set is the union; base-only keys keep their value; additional-only keys are copied as they are; shared keys follow Combine |
| Merger.MergedStep | merge.go:35-53 | Adding one key to `additional` changes the result at that key only, so the order of iteration does not matter |
| Merger.Merge | merge.go:33-56 | Mutates `base` in place and returns it; the new contents are Merged of the old contents, whatever order the keys are visited in |
| Merger.MergeLoopStep | merge.go:35-53 | A key not yet visited still holds its original entry, and writing its merged entry extends the processed part by that key |
| Merger.MergeEntry | merge.go:37-51 | One loop iteration writes exactly the conflict rule's entry for its key and changes no other key |
| Merger.CombineSelf | merge.go:39-48 | Merging a value into itself changes nothing unless arrays concatenate |
| Merger.MergedSelf | merge.go:33-56 | Merging a map into itself changes nothing unless arrays concatenate |
| Merger.CombineTwice | merge.go:39-48 | Applying the same incoming value twice is applying it once, unless arrays concatenate |
| Merger.MergeIdempotent | merge.go:33-56 | Merging the same additions twice equals merging them once, when arrays are replaced or the additions hold no arrays |
| Merger.ConcatenationRepeats | merge.go:44-45 | With concatenation on, a repeated merge appends again, so idempotence needs its condition |
| Merger.MergeScenarioScalars | merge_test.go:32-44 | On the test documents: a base-only string survives, a string and a number are replaced |
| Merger.MergeScenarioReplace | merge_test.go:44-49 | On the test documents with arrays replaced: a bool and an array are replaced |
| Merger.MergeScenarioNested | merge_test.go:51-55 | On the test documents: the nested objects keep the keys of both sides |
| Merger.NestedScenario | merge.go:42-43 | Merging `{objectField1}` with `{objectField2}` keeps both keys |
| Merger.MergeScenarioConcatenate | merge_test.go:59-78 | On the test documents with arrays concatenated, `[1,2,3]` and `[4]` give `[1,2,3,4]` |
| Injector.Zero | injector_test.go:9-26 | Every field kind has a zero value of its own shape |
| Injector.ArrayVal | injector.go:131-159 | An empty array, and an array whose first element is neither a string nor null, are distinct errors; a null first element panics in `reflect.Zero`, and a later non-string element panics in `reflect.Append`; success exactly on a non-empty all-string array, and then the same strings in order |
| Injector.ConvertEntry | injector.go:111-124 | One entry of the map fill: an array goes through arrayVal, whose error or panic stops the fill (a null first element is a panic); null is removed; any other value is stored as it is |
| Injector.Converted | injector.go:111-126 | The map a successful fill builds: null entries are left out, non-array values are copied unchanged |
| Injector.PartStep | injector.go:111-126 | Filling one more entry changes the map at that key only, whatever the order |
| Injector.Stopped | injector.go:117-121 | Stopping at a rejected entry leaves part of the converted map in the field, and the error or panic comes from that entry |
| Injector.Completed | injector.go:124-128 | When every entry is accepted the field holds the whole converted map |
| Injector.Record.constructor | injector_test.go:9-26 | A struct value starts with every field at its kind's zero value |
| Injector.Record.PopulateMapField | injector.go:105-129 | A fresh map is installed first; the call succeeds exactly when no entry is rejected, and the map then holds every converted entry; otherwise the error or panic comes from a rejected entry and a part of the entries stays; other fields are untouched |
| Injector.Record.SetField | injector.go:10-52 | A missing path is a MissingPathError with "No value found at " and the path, and leaves the struct alone; a bad descent or an unknown field panics; scalars take the accessor's value, its error dropped; a map field takes the ObjectVal error or the fill; a slice field takes the value; other kinds are refused; every field keeps its kind |
| Injector.PopulateAsWritten | injector.go:69-86 | Missing path, panic, a marshalling error exactly when the object holds an unserialisable value, and otherwise success, whatever the decode step did |
| Injector.Populate | injector.go:69-86 | As PopulateAsWritten, but a rejected decode is reported; success implies the decode succeeded |
| Injector.PopulateHidesDecodeFailure | injector.go:80-81 | On `{a: {}}` with the decode rejected, the code as written reports success and the corrected Populate reports the decode error |
| Injector.PopulateFromRootAsWritten | injector.go:57-64 | The wrapped path always exists, so the code as written fails only when the document cannot be marshalled, and reports success even when the decode is rejected |
| Injector.PopulateFromRoot | injector.go:57-64 | Over the corrected Populate: a marshalling error, a decode error or success; it agrees with the as-written function whenever the decode is accepted |
| Scenarios.WriteThroughConfig | selector.go:106-108 | A write through the document Config returns is seen by the selector's next read |
| Scenarios.MergeIntoBoundDocument | merge.go:33-56 | Merging into a selector's document changes what the selector reads |
| Scenarios.FlushThenRead | selector.go:58-60 | After Flush, and after a second Flush, every read fails with the nil-document error whatever the policies, and the policies are unchanged |
| Scenarios.QuietMissingKey | quiet.go:45-65 | Over an empty document with Granitic policies, a string read yields `""` and one handler call; an object read yields nil and no call |

## Left out

- Float semantics: `Float` is a real. IEEE rounding, NaN, infinities and `int(f)` out of the int range are not modelled.
- Values.Trunc: only the in-range behaviour of `int(f)` is stated; Go leaves out-of-range conversions implementation-defined.
- Error texts are reduced to error kinds. The exception is MissingPathError, whose message is its content. `MissingPathError.Error()` (selector.go:16-18) returns that message.
- The package functions `IntArray`, `Float64Array` and `SelectorFromPathValues`, and so `QuietSelectorFromPathValues` (quiet.go:139-141), are called but their bodies are not part of this model. The two array functions enter DefaultSelector as function parameters.
- Quiet.DeferredErrorQuietSelector: the handler's own side effects are not modelled; the object keeps a log of its calls instead. The wrapped selector is a DefaultSelector; other Selector implementations are not modelled.
- Concurrency: the document is shared but not synchronised. The model shows the sharing (`Document`, `Config`), not data races.
- `encoding/json`:
  - Marshalling is reduced to whether the object holds a value outside the document model (`Serializable`).
  - Decoding into the target is reduced to a verdict passed in as `decodeOk`, and its effect on the target is not modelled.
- Injector.Record.SetField:
  - a slice field records the document value at the path, instead of the result of the JSON round trip in `populateSlice` (injector.go:88-103);
  - the panics of `reflect` on a target that is not a pointer to a struct, and on values not assignable to the field's element type in `SetMapIndex` and `SetString`, and on an unexported field in `SetString`, `SetInt` and the like, are not modelled;
  - `int64(i)` is written without wrap-around.
- Merger.Merge:
  - a nil `base` map, which panics on the first write, is not modelled;
  - nested maps of `base` are merged in place in Go; the model merges a fresh Document and writes it back, so aliasing of the nested map with other references is not modelled;
  - sharing between `base` and `additional`, whose values are copied by reference, is not modelled;
  - `append` in MergeArrays may write into spare capacity of `a`'s backing array; arrays are values here.
- Injector.PopulateFromRoot: a nil `config` is not modelled. It becomes a typed nil inside the wrapper, which Go's `!= nil` test counts as present.
- Access.ObjectVal, Access.Array, the `ObjectVal` and `Array` of Navigator, Selector.DefaultSelector and Quiet.DeferredErrorQuietSelector: Go returns the document's own nested map or slice, so a client's write through the result is seen by later reads; here the result is a value, and that aliasing is not modelled. Only the root map is shared, as a `Document`, through `Config`.
- Opts, default values and environment-variable indirection: nothing in the modelled files implements them.
- The test loaders (`loadTestFile` and friends) are file I/O and parsing. The documents the tests use appear as values in the scenario lemmas.

## Findings

| source | as written | input that shows it | evidently intended | confidence | as-written member | corrected member |
|---|---|---|---|---|---|---|
| injector.go:77-81 | `else if json.Unmarshal(data, target); err != nil` re-tests the marshal error, which is nil in that branch, so a decode failure is never reported | path `a` on `{a: {}}` with a target the decoder rejects: the result is nil | return the decode error, as the message "cannot be populated with" shows; the tests at injector_test.go:48-57 and 136-143 expect no error, so they may rely on the behaviour as written | medium (not executed) | Injector.PopulateAsWritten, Injector.PopulateHidesDecodeFailure, Injector.PopulateFromRootAsWritten | Injector.Populate, Injector.PopulateFromRoot |
