# Data Collector core, modelled in Dafny

This project models six pieces of the StreamSets Data Collector and proves what each of them promises.

- **Record and its field-paths** (`field_path.dfy`, `record.dfy`). A record is a Header plus a root Field. A Field is a tree of scalars, lists and maps. Nodes are addressed by field-paths:
  - `""` is the root;
  - `/NAME` selects a map entry, with `/`, `[` and `]` doubled inside NAME;
  - `[INDEX]` selects a list position.

  The pure functions `Parse`, `Render`, `Get`, `Delete`, `SetPath` and `FieldPathsOf` say what `get`, `has`, `delete`, `set` and `getFieldPaths` compute. The classes `Record` and `Header` hold the mutable state and update it through those functions.
- **BadRecordsHandler** (`bad_records_handler.dfy`). It wraps the error stage's runtime and hands it the failed records as one batch on lane `errorStage`.
- **ProductionPipelineBuilder.build** (`production_pipeline_builder.dfy`). It covers:
  - the validation gate (error CONTAINER_0158);
  - the `:production` pipeline name;
  - the choice of the runner's offset tracker;
  - the resulting ProductionPipeline.
- **TargetRunner as its tests fix it** (`target_runner.dfy`). A builder refuses output lanes. The runner's lifecycle is init, then write, then destroy. Batches reach the Target with a non-null offset and exactly the given records. The tests' two Targets walk the record iterator step by step.
- **EmbeddedSDC** (`embedded_sdc.dfy`). Instance ids come from a process-wide counter with Java `int` wrap-around. The cluster source is settable, and the instance's error state is taken from that source.
- **FileEvent** (`file_event.dfy`). A value type with a null-checking constructor, `equals` and `hashCode`.

`wrappers.dfy` holds the Option/Result/Outcome types, `java_int.dfy` holds Java `int` addition, and `stages.dfy` holds batches, issues and the stage lifecycle.

## Model

| member | source | states |
|---|---|---|
| FieldPaths.Escape | api/src/main/java/com/streamsets/pipeline/api/Record.java:65-68 | an escaped key is at least as long as the key and starts with its first character |
| FieldPaths.EscapeRoundTrip | api/src/main/java/com/streamsets/pipeline/api/Record.java:65-68 | unescaping the escaped form of any key gives that key back |
| FieldPaths.UnescapeInverse | api/src/main/java/com/streamsets/pipeline/api/Record.java:65-68 | a text that unescapes to a key is exactly that key's escaped form, so escaping is a bijection on single keys |
| FieldPaths.EscapeExample | api/src/main/java/com/streamsets/pipeline/api/Record.java:65-68 | the key `foo/bar` is written `/foo//bar`, and that text is read back as the one key `foo/bar` |
| FieldPaths.DigitsRoundTrip | api/src/main/java/com/streamsets/pipeline/api/Record.java:39-40 | the decimal digits written for an index denote that index |
| FieldPaths.ReadIndexDigits | api/src/main/java/com/streamsets/pipeline/api/Record.java:39-40 | `INDEX]` followed by any text is read as that index, and the text after `]` is left over |
| FieldPaths.Parse | api/src/main/java/com/streamsets/pipeline/api/Record.java:37-41 | a path text tokenizes to the empty segment list exactly when it is `""`, the root; what it accepts and refuses otherwise is stated by ParseRender, RenderParse and MalformedPaths |
| FieldPaths.Render | api/src/main/java/com/streamsets/pipeline/api/Record.java:37-41 | the written path is `""` exactly when the segment list is empty |
| FieldPaths.RenderAppend | api/src/main/java/com/streamsets/pipeline/api/Record.java:43-44 | the path of p followed by q is the text of p followed by the text of q |
| FieldPaths.ParseRender | api/src/main/java/com/streamsets/pipeline/api/Record.java:36-41 | every separable segment path is read back exactly as it was written |
| FieldPaths.MalformedPaths | api/src/main/java/com/streamsets/pipeline/api/Record.java:37-41 | `[-1]`, `[x]`, `[]` and `[1` (a negative, non-numeric, empty or unclosed index), `/a]` and `/a/b]` (a lone `]` in a key) and `a` (a step that is neither `/` nor `[`) are all refused |
| FieldPaths.CanonicalDigits | api/src/main/java/com/streamsets/pipeline/api/Record.java:39-40 | a digit run without a leading zero is exactly the decimal writing of the index it denotes |
| FieldPaths.RenderParse | api/src/main/java/com/streamsets/pipeline/api/Record.java:36-41 | a text that tokenizes is exactly the rendering of the segment path read from it if and only if none of the indexes it reads is written with a leading zero; digits inside escaped keys do not matter |
| FieldPaths.RenderUnpadded | api/src/main/java/com/streamsets/pipeline/api/Record.java:39-40 | rendering a separable path never writes an index with a leading zero |
| FieldPaths.KeyDigitsNotAnIndex | api/src/main/java/com/streamsets/pipeline/api/Record.java:65-68 | the escaped key `a[01`, written `/a[[01`, holds no index: it reads back as that one key and counts as unpadded |
| FieldPaths.AmbiguousEscaping | api/src/main/java/com/streamsets/pipeline/api/Record.java:65-68 | `[a, /b]` and `[a/, b]` are both written `/a///b`, and that text reads as `[a/, b]` |
| Records.ResolveAppend | api/src/main/java/com/streamsets/pipeline/api/Record.java:43-44 | resolving p + q is resolving q from the node p reaches, and nothing when p reaches none |
| Records.EmptyPathIsRoot | api/src/main/java/com/streamsets/pipeline/api/Record.java:112-116 | get("") finds the root field |
| Records.KeyLookup | api/src/main/java/com/streamsets/pipeline/api/Record.java:38 | get("/" + escaped NAME) finds entry NAME of a map root, and finds nothing when the root is not a map or lacks NAME |
| Records.IndexLookup | api/src/main/java/com/streamsets/pipeline/api/Record.java:39-40 | get("[i]") finds item i of a list root when i is in range, and nothing otherwise |
| Records.Get | api/src/main/java/com/streamsets/pipeline/api/Record.java:116 | get(path) refuses a path exactly when it does not tokenize, finds the root for `""`, and a field it finds is the node the parsed path leads to |
| Records.Has | api/src/main/java/com/streamsets/pipeline/api/Record.java:120 | has(path) holds exactly when the path tokenizes and its segments lead to a node |
| Records.GetComposes | api/src/main/java/com/streamsets/pipeline/api/Record.java:43-44 | for a separable path, get(p + q) is get(q) on the field get(p) finds, and is not-found when has(p) is false |
| Records.SegmentPathsResolve | api/src/main/java/com/streamsets/pipeline/api/Record.java:122 | the enumerated node paths are exactly the segment paths that resolve, in both directions |
| Records.FieldPathsOf | api/src/main/java/com/streamsets/pipeline/api/Record.java:122 | getFieldPaths() always lists the root `""`, and for a scalar root nothing else |
| Records.FieldPathsComplete | api/src/main/java/com/streamsets/pipeline/api/Record.java:122 | getFieldPaths lists the path of every node that resolves |
| Records.FieldPathsResolvable | api/src/main/java/com/streamsets/pipeline/api/Record.java:116-122 | in a tree whose nested map keys are free-standing, every listed path passes has() and get() returns that path's node |
| Records.FieldPathsExactlyHas | api/src/main/java/com/streamsets/pipeline/api/Record.java:116-122 | with safe keys, getFieldPaths() lists exactly the paths that has() accepts and whose indexes are written without leading zeros; without safe keys every such path is still listed |
| Records.FieldPathsAmbiguity | api/src/main/java/com/streamsets/pipeline/api/Record.java:65-68 | a listed path can fail has(): key `/b` under key `a` is listed as `/a///b`, which get reads as a different path |
| Records.DeleteMapEntry | api/src/main/java/com/streamsets/pipeline/api/Record.java:118 | deleting entry n under q returns the entry, and the parent map loses exactly n. Every path that parts from q/n reads as before |
| Records.DeleteListItem | api/src/main/java/com/streamsets/pipeline/api/Record.java:118 | deleting item i of a list returns the item and shifts the later items down. Paths outside the list read as before |
| Records.Delete | api/src/main/java/com/streamsets/pipeline/api/Record.java:118 | delete(path) refuses exactly the paths that do not tokenize, removes nothing for `""`, and leaves the tree as it was whenever it removes nothing |
| Records.DeleteReturnsGet | api/src/main/java/com/streamsets/pipeline/api/Record.java:116-118 | the field delete(path) returns is the one get(path) found before |
| Records.DeletedEntryIsGone | api/src/main/java/com/streamsets/pipeline/api/Record.java:118-122 | for any path text that tokenizes to a map entry: delete(path) returns the entry, has(path) is then false, every path that parts from it is unchanged, and with safe keys getFieldPaths() no longer lists the path |
| Records.SetThenGet | api/src/main/java/com/streamsets/pipeline/api/Record.java:124 | set(p, v) succeeds exactly when p is the root, an existing node, or a new key of an existing map. Then p holds v and every path that parts from p is unchanged |
| Records.SetGetIdentity | api/src/main/java/com/streamsets/pipeline/api/Record.java:124 | set(p, get(p)) leaves the tree unchanged |
| Records.SetPath | api/src/main/java/com/streamsets/pipeline/api/Record.java:124 | set(path, v) refuses exactly the paths that do not tokenize, changes nothing unless it stores, and reports as previous field what get(path) found before |
| Records.SetPathThenGet | api/src/main/java/com/streamsets/pipeline/api/Record.java:124 | for any path text that tokenizes and whose parent exists, set(path, v) stores and reports the previous field, and get(path) then finds v |
| Records.SetEmptyKeyExample | api/src/main/java/com/streamsets/pipeline/api/Record.java:124 | set("/a/", v) on a map holding an empty map under `a` stores v under the empty key, and get("/a/") then finds v |
| Records.Header.constructor | api/src/main/java/com/streamsets/pipeline/api/Record.java:72-106 | the lineage, raw data, MIME type, error fields and attributes are those given |
| Records.Header.GetAttributeNames | api/src/main/java/com/streamsets/pipeline/api/Record.java:88 | the names are exactly those getAttribute answers for |
| Records.Header.GetAttribute | api/src/main/java/com/streamsets/pipeline/api/Record.java:90 | a value exactly for a name that is set, and then that name's value; none (Java's null) otherwise |
| Records.Header.SetAttribute | api/src/main/java/com/streamsets/pipeline/api/Record.java:88-92 | the attribute then has the value, the name set gains exactly that name, and every other attribute is unchanged |
| Records.Header.DeleteAttribute | api/src/main/java/com/streamsets/pipeline/api/Record.java:94 | the attribute is then absent, the name set loses exactly that name, and every other attribute is unchanged |
| Records.Record.constructor | api/src/main/java/com/streamsets/pipeline/api/Record.java:110-112 | the record owns the given header and root field |
| Records.Record.GetPath | api/src/main/java/com/streamsets/pipeline/api/Record.java:112-116 | get("") is the root; a path that does not tokenize is refused; a field found is the node the parsed path leads to |
| Records.Record.HasPath | api/src/main/java/com/streamsets/pipeline/api/Record.java:120 | has("") is true, and has() is false on a path that does not tokenize |
| Records.Record.GetFieldPaths | api/src/main/java/com/streamsets/pipeline/api/Record.java:122 | the root `""` is listed, and with safe keys has() accepts every listed path |
| Records.Record.SetRoot | api/src/main/java/com/streamsets/pipeline/api/Record.java:112-116 | set(field) returns the previous root, and get("") then finds the new field |
| Records.Record.DeletePath | api/src/main/java/com/streamsets/pipeline/api/Record.java:118 | the new root and the answer are those of Delete on the old root |
| Records.Record.SetFieldAt | api/src/main/java/com/streamsets/pipeline/api/Record.java:124 | the new root and the answer are those of SetPath on the old root |
| BadRecords.BadRecordsHandler.constructor | container/src/main/java/com/streamsets/datacollector/runner/production/BadRecordsHandler.java:31-35 | the handler holds the given error-stage runtime |
| BadRecords.BadRecordsHandler.GetInstanceName | container/src/main/java/com/streamsets/datacollector/runner/production/BadRecordsHandler.java:37-39 | the error stage's instance name |
| BadRecords.BadRecordsHandler.Init | container/src/main/java/com/streamsets/datacollector/runner/production/BadRecordsHandler.java:41-43 | exactly the error stage's init issues. The stage is initialized, no batch is written, and the context is not used |
| BadRecords.BadRecordsHandler.Handle | container/src/main/java/com/streamsets/datacollector/runner/production/BadRecordsHandler.java:45-47 | exactly one batch is appended to the error stage's writes: lane `errorStage`, the given offset and the records in order. The stage's write failure comes out unchanged. The records and their headers are not modified |
| BadRecords.BadRecordsHandler.Destroy | container/src/main/java/com/streamsets/datacollector/runner/production/BadRecordsHandler.java:49-51 | the error stage is destroyed and no batch is written |
| BadRecords.HandleOnce | container/src/main/java/com/streamsets/datacollector/runner/production/BadRecordsHandler.java:33-51 | init, handle and destroy on a healthy stage: no issue, no failure, and the stage saw the one batch |
| ProductionBuild.ProductionPipelineBuilder.constructor | container/src/main/java/com/streamsets/datacollector/execution/runner/common/ProductionPipelineBuilder.java:59-69 | the builder holds exactly the given name, revision, configuration, runtime info, stage library, runner and observer |
| ProductionBuild.ProductionPipelineBuilder.RequestFor | container/src/main/java/com/streamsets/datacollector/execution/runner/common/ProductionPipelineBuilder.java:79-80 | the pipeline is requested under `name + ":production"`, with the pipeline name, the revision, the validated configuration and the builder's observer |
| ProductionBuild.ProductionPipelineBuilder.Build | container/src/main/java/com/streamsets/datacollector/execution/runner/common/ProductionPipelineBuilder.java:71-90 | any validation issue fails the build with CONTAINER_0158 and the first issue, with the runner untouched. A pipeline-build failure also leaves the runner untouched. Otherwise setOffsetTracker is called exactly once, and the tracker it installs is the one logged: a committer tracker over an OffsetCommitter source, the store-backed tracker otherwise. The result carries the name, revision, validated configuration, configuration, pipeline and shouldRetry |
| ProductionBuild.BuildWithCommitter | container/src/main/java/com/streamsets/datacollector/execution/runner/common/ProductionPipelineBuilder.java:73-89 | with a rewriting validator and a committing source: the validated configuration is the one used, the pipeline is named `p:production`, and the runner gets the committer tracker |
| ProductionBuild.BuildRefused | container/src/main/java/com/streamsets/datacollector/execution/runner/common/ProductionPipelineBuilder.java:73-78 | one validation issue: CONTAINER_0158 with that issue, and the runner keeps no tracker |
| TargetRunners.RecordIterator.Next | sdk/src/test/java/com/streamsets/pipeline/sdk/TestTargetRunner.java:52-56 | next() yields the record at the cursor and advances by one, or yields nothing at the end |
| TargetRunners.DummyTarget.Write | sdk/src/test/java/com/streamsets/pipeline/sdk/TestTargetRunner.java:33-60 | write passes exactly when the batch has a non-null offset and no record (DummyTargetEmptyBatch) or exactly one (DummyTarget). The `write` flag is set exactly when it passes |
| TargetRunners.TargetRunnerBuilder.AddOutputLane | sdk/src/test/java/com/streamsets/pipeline/sdk/TestTargetRunner.java:65 | the lane is appended to the builder's lanes |
| TargetRunners.TargetRunnerBuilder.Build | sdk/src/test/java/com/streamsets/pipeline/sdk/TestTargetRunner.java:62-67 | build fails exactly when an output lane was added. Otherwise a fresh runner over the Target is returned, not yet initialized |
| TargetRunners.TargetRunner.RunInit | sdk/src/test/java/com/streamsets/pipeline/sdk/TestTargetRunner.java:69-81 | init succeeds from the created state and moves to initialized. From any other state it fails and changes nothing |
| TargetRunners.TargetRunner.RunWrite | sdk/src/test/java/com/streamsets/pipeline/sdk/TestTargetRunner.java:83-105 | write fails before init and after destroy, and the Target is untouched. When initialized, the Target receives one batch with a non-null offset and exactly the given records, and write passes exactly when the Target accepts it |
| TargetRunners.TargetRunner.RunDestroy | sdk/src/test/java/com/streamsets/pipeline/sdk/TestTargetRunner.java:69-81 | destroy always succeeds and leaves the runner destroyed |
| TargetRunners.TestBuilderOutputLane | sdk/src/test/java/com/streamsets/pipeline/sdk/TestTargetRunner.java:62-67 | a Target runner with output lane `a` is not built |
| TargetRunners.TestProcessEmptyBatch | sdk/src/test/java/com/streamsets/pipeline/sdk/TestTargetRunner.java:107-120 | init, then an empty write, succeed, and the Target's `write` flag is set |
| TargetRunners.TestInvalidProcess1 | sdk/src/test/java/com/streamsets/pipeline/sdk/TestTargetRunner.java:83-94 | write before init fails |
| TargetRunners.TestInvalidProcess2 | sdk/src/test/java/com/streamsets/pipeline/sdk/TestTargetRunner.java:96-105 | write after destroy fails |
| TargetRunners.TestProcessNonEmptyBatch | sdk/src/test/java/com/streamsets/pipeline/sdk/TestTargetRunner.java:122-134 | a one-record write succeeds, and DummyTarget's `write` flag is set |
| JavaInts.AddInt | commonlib/src/main/java/com/streamsets/pipeline/lib/io/FileEvent.java:59-62 | Java int addition: the result is an int, congruent to the sum modulo 2^32, and equal to the sum when that fits |
| JavaInts.MaxPlusOneWraps | cluster-common/src/main/java/com/streamsets/pipeline/EmbeddedSDC.java:29-35 | Integer.MAX_VALUE + 1 is Integer.MIN_VALUE |
| Embedded.InstanceIdCounter.constructor | cluster-common/src/main/java/com/streamsets/pipeline/EmbeddedSDC.java:29 | the counter starts at 0, a Java int |
| Embedded.InstanceIdCounter.GetAndIncrement | cluster-common/src/main/java/com/streamsets/pipeline/EmbeddedSDC.java:29-35 | returns the counter's value and advances it by one in int arithmetic, so the counter stays a Java int |
| Embedded.EmbeddedSDC.constructor | cluster-common/src/main/java/com/streamsets/pipeline/EmbeddedSDC.java:29-35 | the new instance's id is the counter's value, the counter advances by one, and the source starts absent |
| Embedded.EmbeddedSDC.GetInstanceId | cluster-common/src/main/java/com/streamsets/pipeline/EmbeddedSDC.java:37-39 | the id fixed at construction (a `const`, never changed) |
| Embedded.EmbeddedSDC.GetSource | cluster-common/src/main/java/com/streamsets/pipeline/EmbeddedSDC.java:41-43 | the current source |
| Embedded.EmbeddedSDC.SetSource | cluster-common/src/main/java/com/streamsets/pipeline/EmbeddedSDC.java:45-47 | the source becomes the given one |
| Embedded.EmbeddedSDC.InErrorState | cluster-common/src/main/java/com/streamsets/pipeline/EmbeddedSDC.java:49-51 | false without a source; with one, exactly that source's error state |
| Embedded.IdsFrom | cluster-common/src/main/java/com/streamsets/pipeline/EmbeddedSDC.java:29-35 | k constructions in a row take k ids, the first being the counter's value |
| Embedded.Advance | cluster-common/src/main/java/com/streamsets/pipeline/EmbeddedSDC.java:29-35 | n increments from c leave an int, c + n when that fits |
| Embedded.AdvanceLast | cluster-common/src/main/java/com/streamsets/pipeline/EmbeddedSDC.java:34 | one more getAndIncrement moves the counter one int step further |
| Embedded.IdsFromAt | cluster-common/src/main/java/com/streamsets/pipeline/EmbeddedSDC.java:29-35 | the i-th id taken is the counter's value after i increments |
| Embedded.IdsCountUp | cluster-common/src/main/java/com/streamsets/pipeline/EmbeddedSDC.java:29-35 | until the counter passes Integer.MAX_VALUE, the i-th construction gets the start value plus i |
| Embedded.KthInstanceId | cluster-common/src/main/java/com/streamsets/pipeline/EmbeddedSDC.java:29-35 | counted from a zero counter, the k-th instance gets id k - 1 |
| Embedded.IdsIncreasing | cluster-common/src/main/java/com/streamsets/pipeline/EmbeddedSDC.java:29-35 | ids taken in sequence before the wrap strictly increase and are pairwise distinct |
| Embedded.IdsWrap | cluster-common/src/main/java/com/streamsets/pipeline/EmbeddedSDC.java:29-35 | after Integer.MAX_VALUE the next instance gets Integer.MIN_VALUE |
| Embedded.ConstructTwo | cluster-common/src/main/java/com/streamsets/pipeline/EmbeddedSDC.java:29-35 | two constructions take exactly the ids IdsFrom gives, and neither instance has a source |
| Embedded.ConstructMany | cluster-common/src/main/java/com/streamsets/pipeline/EmbeddedSDC.java:29-35 | k constructions in a row: the i-th instance gets the i-th id of IdsFrom, each is new and without a source, and the counter ends k steps on. Before the wrap the ids are c, c + 1, ... and strictly increase |
| Embedded.SourceRoundTrip | cluster-common/src/main/java/com/streamsets/pipeline/EmbeddedSDC.java:31-51 | with no source, the instance is not in error. getSource returns exactly the source object last set, and the error state is then that source's |
| FileEvents.NewFileEvent | commonlib/src/main/java/com/streamsets/pipeline/lib/io/FileEvent.java:32-53 | construction succeeds exactly when neither argument is null. The file is checked first, then the action. The getters return exactly the arguments |
| FileEvents.HashCode | commonlib/src/main/java/com/streamsets/pipeline/lib/io/FileEvent.java:59-62 | the hash is a Java int |
| FileEvents.HashOfParts | commonlib/src/main/java/com/streamsets/pipeline/lib/io/FileEvent.java:59-62 | the hash is the file hash plus the action hash, wrapped at most once into the int range |
| FileEvents.Equals | commonlib/src/main/java/com/streamsets/pipeline/lib/io/FileEvent.java:64-75 | only another FileEvent can be equal, and then exactly when the files are equal and the actions the same |
| FileEvents.ActionValues | commonlib/src/main/java/com/streamsets/pipeline/lib/io/FileEvent.java:27 | every Action is START, END or ERROR, and these three are distinct |
| FileEvents.NotEqualToNullOrOther | commonlib/src/main/java/com/streamsets/pipeline/lib/io/FileEvent.java:64-75 | equals(null) is false, and equals on an object of another class is false |
| FileEvents.EqualsMeansSameFileAndAction | commonlib/src/main/java/com/streamsets/pipeline/lib/io/FileEvent.java:69-71 | with value equality on files, two events are equal exactly when their files and actions are |
| FileEvents.EqualsReflexive | commonlib/src/main/java/com/streamsets/pipeline/lib/io/FileEvent.java:64-75 | equals is reflexive when LiveFile.equals is |
| FileEvents.EqualsSymmetric | commonlib/src/main/java/com/streamsets/pipeline/lib/io/FileEvent.java:64-75 | equals is symmetric when LiveFile.equals is |
| FileEvents.EqualsTransitive | commonlib/src/main/java/com/streamsets/pipeline/lib/io/FileEvent.java:64-75 | equals is transitive when LiveFile.equals is |
| FileEvents.EqualEventsEqualHash | commonlib/src/main/java/com/streamsets/pipeline/lib/io/FileEvent.java:59-75 | equal events have equal hash codes whenever LiveFile's equals and hashCode agree |

## Left out

- Records.FieldPathsResolvable: requires every map key nested directly in a map to be non-empty and not to start with `/`. Doubling alone cannot separate such a key from the key before it, as Records.FieldPathsAmbiguity shows. Under that condition the round trip of getFieldPaths through get and has is proved.
- Records.GetComposes: stated for separable paths only, for the same reason: it joins two written paths, and doubling cannot keep the last key of the first apart from the first key of the second.
- Records.DeletedEntryIsGone: says that getFieldPaths() drops the path only for trees with safe keys.
- Records.FieldPathsExactlyHas: for trees with safe keys, getFieldPaths() never lists a text whose indexes are written with leading zeros, although get and has accept it: `[01]` and `[1]` read alike, and only `[1]` is listed (FieldPaths.RenderParse gives the exact condition). That no rendering carries a padded index is proved for separable paths only (FieldPaths.RenderUnpadded), so for trees without safe keys the model does not promise it.
- Record.java is an interface, and its implementation is not part of this model. Several behaviours follow the interface's documentation and are choices of the model:
  - a malformed path makes get answer "invalid path" and has answer false;
  - `delete("")` removes nothing;
  - `set` on a list stores only at an existing index (no append);
  - `set` on a map may add a new key;
  - an index may be written with leading zeros;
  - a list index is an unbounded natural number, where Java list positions are `int`: an index beyond Integer.MAX_VALUE, such as `[2147483648]`, is accepted and finds nothing.
- The order of map keys and of getFieldPaths is not modelled: maps and sets are unordered here.
- Scalar Field values and their types are opaque strings; type conversion is not modelled.
- The Header's lineage, raw data and error getters are constant fields; nothing in the model writes them, and BadRecordsHandler does not set them either.
- The Target behind the error stage is not modelled; a configured StageException stands for its failure. The stage-runtime, Pipeline.Builder, validator and PipelineBeanCreator code is not part of this model. The builder receives them as functions. A null config bean from PipelineBeanCreator is not modelled.
- ProductionBuild.ProductionPipelineBuilder.Build: any issue at all refuses the build, as `hasIssues()` does. Severity is not distinguished.
- ProductionBuild.ProductionPipelineBuilder.Build: Java hands the runner to `Pipeline.Builder.build(runner)`, but the model's `assemble` does not receive it. What Pipeline.Builder does with the runner is not part of this model, so "the runner is untouched" on the failure paths means that no tracker is set.
- Logging is not modelled.
- TargetRunner's own code is not part of this model. Its behaviour is what the tests fix, and three choices are the model's:
  - RunInit fails when the runner is not freshly created;
  - RunDestroy succeeds from every state, including a runner never initialized. The tests fix only destroy after init (testInitProcessDestroy, TestTargetRunner.java lines 69-81). In testInvalidProcess1 (lines 83-94) destroy runs in a finally block after the expected write failure, and the test asks nothing of it;
  - the batch offset is one fixed non-null token and the batch instance name is the stage class name given to the builder.
- Java's `null` record cannot occur, because Dafny references are non-null; DummyTarget's assertion that the record is non-null is therefore implied.
- The static AtomicInteger is modelled as one sequential counter object passed to the constructor; thread safety is not modelled.
- ClusterSource is reduced to its error state.
- LiveFile's equals and hashCode and Action.hashCode are parameters, not modelled code.
- FileEvent.toString is not modelled.
- UpdateChecker, DataRuleDefinition, ElFunctionDefinition, TestInnerClassStages and TypesProvider are not part of this model.
