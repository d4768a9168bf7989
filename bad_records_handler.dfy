/**
 * BadRecordsHandler: wraps the runtime of the pipeline's error stage and hands
 * it the records that failed, as one batch written to its Target.
 */
module BadRecords {
  import opened Wrappers
  import opened Stages
  import Records

  /** The instance name of every batch the handler builds. */
  const ErrorStageLane := "errorStage"

  /** StagePipe.Context, which BadRecordsHandler.init receives and does not use. */
  datatype PipeContext = PipeContext(pipelineName: string)

  /**
   * The runtime of the error stage, as far as BadRecordsHandler uses it: its
   * instance name, the issues its init() reports, its lifecycle, and every batch
   * passed to its Target's write(). What the Target does with a batch is outside
   * the model; `writeFailure` is the StageException its write() raises, if any.
   */
  class StageRuntime {
    const instanceName: string
    const initIssues: seq<Issue>
    const writeFailure: Option<StageError>
    var state: Lifecycle
    var written: seq<Batch>

    constructor (instanceName: string, initIssues: seq<Issue>, writeFailure: Option<StageError>)
      ensures this.instanceName == instanceName && this.initIssues == initIssues
      ensures this.writeFailure == writeFailure
      ensures state == Created && written == []
    {
      this.instanceName := instanceName;
      this.initIssues := initIssues;
      this.writeFailure := writeFailure;
      state := Created;
      written := [];
    }

    method Init() returns (issues: seq<Issue>)
      modifies this
      ensures issues == initIssues
      ensures state == Initialized && written == old(written)
    {
      issues := initIssues;
      state := Initialized;
    }

    method Destroy()
      modifies this
      ensures state == Destroyed && written == old(written)
    {
      state := Destroyed;
    }

    /** The wrapped Target's write(batch): the call is recorded, then it returns or throws. */
    method Write(batch: Batch) returns (r: Outcome<StageError>)
      modifies this
      ensures written == old(written) + [batch] && state == old(state)
      ensures r == if writeFailure.Some? then Fail(writeFailure.value) else Pass
    {
      written := written + [batch];
      r := if writeFailure.Some? then Fail(writeFailure.value) else Pass;
    }
  }

  class BadRecordsHandler {
    const errorStage: StageRuntime

    constructor (errorStage: StageRuntime)
      ensures this.errorStage == errorStage
    {
      this.errorStage := errorStage;
    }

    /** getInstanceName(): the error stage's instance name. */
    method GetInstanceName() returns (name: string)
      ensures name == errorStage.instanceName
    {
      name := errorStage.instanceName;
    }

    /** init(context): exactly the issues of the error stage's init(); the context is not used. */
    method Init(context: PipeContext) returns (issues: seq<Issue>)
      modifies errorStage
      ensures issues == errorStage.initIssues
      ensures errorStage.state == Initialized && errorStage.written == old(errorStage.written)
    {
      issues := errorStage.Init();
    }

    /**
     * handle(sourceOffset, badRecords): exactly one write() on the error stage,
     * of a batch on lane "errorStage" carrying the offset and the records in
     * order; a StageException from write() comes out unchanged. The records
     * themselves are not modified.
     */
    method Handle(sourceOffset: Option<string>, badRecords: seq<Records.Record>) returns (r: Outcome<StageError>)
      modifies errorStage
      ensures errorStage.written == old(errorStage.written) + [Batch(ErrorStageLane, sourceOffset, badRecords)]
      ensures r == if errorStage.writeFailure.Some? then Fail(errorStage.writeFailure.value) else Pass
      ensures errorStage.state == old(errorStage.state)
      ensures forall rec | rec in badRecords :: unchanged(rec) && unchanged(rec.header)
    {
      r := errorStage.Write(Batch(ErrorStageLane, sourceOffset, badRecords));
    }

    /** destroy(): the error stage's destroy(). */
    method Destroy()
      modifies errorStage
      ensures errorStage.state == Destroyed && errorStage.written == old(errorStage.written)
    {
      errorStage.Destroy();
    }
  }

  /** A handler's life: init, one handle, destroy; the error stage sees one batch. */
  method HandleOnce(name: string, offset: Option<string>, bad: seq<Records.Record>)
    returns (issues: seq<Issue>, r: Outcome<StageError>, batches: seq<Batch>)
    ensures issues == [] && r == Pass
    ensures batches == [Batch(ErrorStageLane, offset, bad)]
  {
    var stage := new StageRuntime(name, [], None);
    var handler := new BadRecordsHandler(stage);
    issues := handler.Init(PipeContext("p"));
    r := handler.Handle(offset, bad);
    handler.Destroy();
    batches := stage.written;
  }
}
