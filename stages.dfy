/**
 * The values that pass between the pipeline container and its stages: batches,
 * configuration issues, stage exceptions and the stage lifecycle.
 */
module Stages {
  import opened Wrappers
  import Records

  /**
   * A batch: the stage instance (lane) it was built for, the source offset that
   * produced it (Java allows null), and its records in order.
   */
  datatype Batch = Batch(instanceName: string, sourceOffset: Option<string>, records: seq<Records.Record>)

  /** A configuration issue, as reported by validation or by a stage's init(). */
  datatype Issue = Issue(instanceName: string, code: string, message: string)

  /** A StageException raised by a stage's work call. */
  datatype StageError = StageError(code: string, message: string)

  /** Where a stage runtime is in its lifecycle. */
  datatype Lifecycle = Created | Initialized | Destroyed
}
