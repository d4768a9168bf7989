/**
 * The SDK's TargetRunner as its tests fix it: a runner is built for a Target with
 * no output lane, goes through init, write and destroy, and hands each write to
 * the Target as one batch with a non-null source offset and exactly the records
 * given. DummyTarget and DummyTargetEmptyBatch are the tests' Targets: each walks
 * the batch's record iterator and sets its `write` flag when the batch is as it
 * expects.
 */
module TargetRunners {
  import opened Wrappers
  import opened Stages
  import Records

  /**
   * The source offset the runner stamps on the batches it builds. The tests only
   * fix that it is not null; the model uses one fixed token.
   */
  const RunnerSourceOffset := "sdk:sourceOffset"

  /** Why a runner call throws. */
  datatype RunnerError =
    | OutputLanesNotAllowed
    | NotInitialized(state: Lifecycle)
    | WriteFailed(message: string)

  /** Iterator<Record> over a batch's records. */
  class RecordIterator {
    const records: seq<Records.Record>
    var position: nat

    constructor (records: seq<Records.Record>)
      ensures this.records == records && position == 0
    {
      this.records := records;
      position := 0;
    }

    predicate HasNext()
      reads this
    {
      position < |records|
    }

    /** next(): the record at the cursor, or None where Java throws NoSuchElementException. */
    method Next() returns (r: Option<Records.Record>)
      modifies this
      ensures old(position) < |records| ==> r == Some(records[old(position)]) && position == old(position) + 1
      ensures old(position) >= |records| ==> r == None && position == old(position)
    {
      if position < |records| {
        r := Some(records[position]);
        position := position + 1;
      } else {
        r := None;
      }
    }
  }

  /** What a test Target asserts about the batch: DummyTargetEmptyBatch or DummyTarget. */
  datatype Expectation = EmptyBatch | SingleRecord

  /** The batches a test Target accepts: a non-null offset and no record, or exactly one. */
  predicate Accepts(expectation: Expectation, batch: Batch)
  {
    && batch.sourceOffset.Some?
    && match expectation
       case EmptyBatch => |batch.records| == 0
       case SingleRecord => |batch.records| == 1
  }

  class DummyTarget {
    const expectation: Expectation
    /** The public `write` flag: set once a batch has passed the Target's assertions. */
    var write: bool
    /** Every batch handed to write(), in order. */
    ghost var received: seq<Batch>

    constructor (expectation: Expectation)
      ensures this.expectation == expectation && !write && received == []
    {
      this.expectation := expectation;
      write := false;
      received := [];
    }

    /**
     * write(batch): asserts the offset is not null, then walks the iterator as the
     * Target's assertions do. An assertion that fails is a failure and leaves the
     * flag as it was.
     */
    method Write(batch: Batch) returns (r: Outcome<string>)
      modifies this
      ensures r.Pass? <==> Accepts(expectation, batch)
      ensures write == (old(write) || r.Pass?)
      ensures received == old(received) + [batch]
    {
      received := received + [batch];
      if batch.sourceOffset.None? {
        return Fail("source offset is null");
      }
      var it := new RecordIterator(batch.records);
      match expectation {
        case EmptyBatch =>
          if it.HasNext() {
            return Fail("batch is not empty");
          }
        case SingleRecord =>
          if !it.HasNext() {
            return Fail("batch is empty");
          }
          var record := it.Next();
          if record.None? {
            return Fail("no record");
          }
          if it.HasNext() {
            return Fail("batch has more than one record");
          }
      }
      write := true;
      r := Pass;
    }
  }

  class TargetRunnerBuilder {
    /** The stage class name given to the builder. */
    const stageClass: string
    const target: DummyTarget
    var outputLanes: seq<string>

    constructor (stageClass: string, target: DummyTarget)
      ensures this.stageClass == stageClass && this.target == target && outputLanes == []
    {
      this.stageClass := stageClass;
      this.target := target;
      outputLanes := [];
    }

    method AddOutputLane(lane: string)
      modifies this
      ensures outputLanes == old(outputLanes) + [lane]
    {
      outputLanes := outputLanes + [lane];
    }

    /** build(): a Target has no output lane, so any lane makes the build throw. */
    method Build() returns (r: Result<TargetRunner, RunnerError>)
      ensures r.Failure? <==> outputLanes != []
      ensures r.Failure? ==> r.error == OutputLanesNotAllowed
      ensures r.Success? ==> fresh(r.value) && r.value.target == target
      ensures r.Success? ==> r.value.instanceName == stageClass && r.value.state == Created
    {
      if outputLanes != [] {
        return Failure(OutputLanesNotAllowed);
      }
      var runner := new TargetRunner(stageClass, target);
      r := Success(runner);
    }
  }

  class TargetRunner {
    const instanceName: string
    const target: DummyTarget
    var state: Lifecycle

    constructor (instanceName: string, target: DummyTarget)
      ensures this.instanceName == instanceName && this.target == target && state == Created
    {
      this.instanceName := instanceName;
      this.target := target;
      state := Created;
    }

    /** runInit(): a runner is initialized once, from its created state. */
    method RunInit() returns (r: Outcome<RunnerError>)
      modifies this
      ensures old(state) == Created ==> r == Pass && state == Initialized
      ensures old(state) != Created ==> r == Fail(NotInitialized(old(state))) && state == old(state)
    {
      if state != Created {
        return Fail(NotInitialized(state));
      }
      state := Initialized;
      r := Pass;
    }

    /**
     * runWrite(records): only an initialized runner writes; it hands the Target one
     * batch with a non-null offset and exactly the given records, and a failure of
     * the Target's write() comes out of runWrite.
     */
    method RunWrite(records: seq<Records.Record>) returns (r: Outcome<RunnerError>)
      modifies target
      ensures old(state) != Initialized ==> r == Fail(NotInitialized(old(state))) && unchanged(target)
      ensures old(state) == Initialized ==>
        var batch := Batch(instanceName, Some(RunnerSourceOffset), records);
        && target.received == old(target.received) + [batch]
        && (r.Pass? <==> Accepts(target.expectation, batch))
        && target.write == (old(target.write) || r.Pass?)
    {
      if state != Initialized {
        return Fail(NotInitialized(state));
      }
      var written := target.Write(Batch(instanceName, Some(RunnerSourceOffset), records));
      r := if written.Pass? then Pass else Fail(WriteFailed(written.error));
    }

    /** runDestroy(): always succeeds and leaves the runner destroyed, whatever its state. */
    method RunDestroy()
      modifies this
      ensures state == Destroyed
    {
      state := Destroyed;
    }
  }

  /** testBuilderOutputLane: a Target with an output lane cannot be run. */
  method TestBuilderOutputLane() returns (built: bool)
    ensures !built
  {
    var stage := new DummyTarget(SingleRecord);
    var builder := new TargetRunnerBuilder("DummyTarget", stage);
    builder.AddOutputLane("a");
    var r := builder.Build();
    built := r.Success?;
  }

  /** testInitProcessDestroy and testProcessEmptyBatch: init, write [], destroy on DummyTargetEmptyBatch. */
  method TestProcessEmptyBatch() returns (init: Outcome<RunnerError>, write: Outcome<RunnerError>, wrote: bool)
    ensures init == Pass && write == Pass && wrote
  {
    var stage := new DummyTarget(EmptyBatch);
    var builder := new TargetRunnerBuilder("DummyTarget", stage);
    var r := builder.Build();
    var runner := r.value;
    init := runner.RunInit();
    write := runner.RunWrite([]);
    wrote := stage.write;
    runner.RunDestroy();
  }

  /** testInvalidProcess1: write before init fails. */
  method TestInvalidProcess1() returns (write: Outcome<RunnerError>)
    ensures write == Fail(NotInitialized(Created))
  {
    var stage := new DummyTarget(SingleRecord);
    var builder := new TargetRunnerBuilder("DummyTarget", stage);
    var r := builder.Build();
    var runner := r.value;
    write := runner.RunWrite([]);
    runner.RunDestroy();
  }

  /** testInvalidProcess2: write after destroy fails. */
  method TestInvalidProcess2() returns (write: Outcome<RunnerError>)
    ensures write == Fail(NotInitialized(Destroyed))
  {
    var stage := new DummyTarget(SingleRecord);
    var builder := new TargetRunnerBuilder("DummyTarget", stage);
    var r := builder.Build();
    var runner := r.value;
    var init := runner.RunInit();
    runner.RunDestroy();
    write := runner.RunWrite([]);
  }

  /** testProcessNonEmptyBatch: one record reaches DummyTarget, which sees it and then the end. */
  method TestProcessNonEmptyBatch(record: Records.Record) returns (write: Outcome<RunnerError>, wrote: bool)
    ensures write == Pass && wrote
  {
    var stage := new DummyTarget(SingleRecord);
    var builder := new TargetRunnerBuilder("DummyTarget", stage);
    var r := builder.Build();
    var runner := r.value;
    var init := runner.RunInit();
    write := runner.RunWrite([record]);
    wrote := stage.write;
    runner.RunDestroy();
  }
}
