/**
 * ProductionPipelineBuilder.build: the validation gate, the construction of the
 * pipeline under its production name, the choice of the offset tracker installed
 * on the runner, and the assembly of the ProductionPipeline.
 *
 * The validator, Pipeline.Builder and PipelineBeanCreator are collaborators whose
 * code is not part of this model; the builder receives them as functions.
 */
module ProductionBuild {
  import opened Wrappers
  import opened Stages

  /** The suffix of the name under which the production pipeline is built. */
  const ProductionPipelineSuffix := ":production"

  /** The error code of a build refused by validation. */
  const Container0158 := "CONTAINER_0158"

  /** A pipeline configuration, opaque to the builder. */
  datatype PipelineConfiguration = PipelineConfiguration(body: string)

  /** The Data Collector's configuration, runtime information, stage library and observer: opaque handles. */
  datatype Configuration = Configuration(id: string)
  datatype RuntimeInfo = RuntimeInfo(id: string)
  datatype StageLibrary = StageLibrary(id: string)
  datatype Observer = Observer(id: string)

  /** What PipelineConfigurationValidator.validate() yields: a configuration and its issues. */
  datatype Validation = Validation(conf: PipelineConfiguration, issues: seq<Issue>)

  /** The source stage of a built pipeline; `committer` says whether it implements OffsetCommitter. */
  datatype Source = Source(instanceName: string, committer: bool)

  /** The arguments given to Pipeline.Builder, and the observer set on it. */
  datatype PipelineRequest = PipelineRequest(
    stageLib: StageLibrary, configuration: Configuration, name: string, pipelineName: string,
    rev: string, conf: PipelineConfiguration, observer: Observer)

  /** A built pipeline: what it was built from, and its source stage. */
  datatype Pipeline = Pipeline(request: PipelineRequest, source: Source)

  /** The two offset trackers the builder can install on the runner. */
  datatype OffsetTracker =
    | CommitterOffsetTracker(name: string, rev: string, runtimeInfo: RuntimeInfo, committer: Source)
    | StoreOffsetTracker(name: string, rev: string, runtimeInfo: RuntimeInfo)

  datatype ProductionPipeline = ProductionPipeline(
    name: string, rev: string, conf: PipelineConfiguration, configuration: Configuration,
    pipeline: Pipeline, shouldRetry: bool)

  /** Why build() throws: validation refused the configuration, or Pipeline.Builder failed. */
  datatype BuildError =
    | ValidationFailed(code: string, pipelineName: string, firstIssue: Issue)
    | PipelineBuildFailed(reason: string)

  /** The production runner, as far as the builder touches it: its offset tracker. */
  class ProductionPipelineRunner {
    var offsetTracker: Option<OffsetTracker>
    /** Every tracker passed to setOffsetTracker, in call order. */
    ghost var trackerUpdates: seq<OffsetTracker>

    constructor ()
      ensures offsetTracker == None && trackerUpdates == []
    {
      offsetTracker := None;
      trackerUpdates := [];
    }

    method SetOffsetTracker(tracker: OffsetTracker)
      modifies this
      ensures offsetTracker == Some(tracker)
      ensures trackerUpdates == old(trackerUpdates) + [tracker]
    {
      offsetTracker := Some(tracker);
      trackerUpdates := trackerUpdates + [tracker];
    }
  }

  class ProductionPipelineBuilder {
    const name: string
    const rev: string
    const configuration: Configuration
    const runtimeInfo: RuntimeInfo
    const stageLib: StageLibrary
    const runner: ProductionPipelineRunner
    const observer: Observer
    /** PipelineConfigurationValidator(stageLib, name, conf).validate() with its issues. */
    const validate: (StageLibrary, string, PipelineConfiguration) -> Validation
    /** Pipeline.Builder(...).setObserver(observer).build(runner). */
    const assemble: PipelineRequest -> Result<Pipeline, string>
    /** PipelineBeanCreator.get().create(conf, issues).shouldRetry. */
    const shouldRetryOf: PipelineConfiguration -> bool

    constructor (name: string, rev: string, configuration: Configuration, runtimeInfo: RuntimeInfo,
                 stageLib: StageLibrary, runner: ProductionPipelineRunner, observer: Observer,
                 validate: (StageLibrary, string, PipelineConfiguration) -> Validation,
                 assemble: PipelineRequest -> Result<Pipeline, string>,
                 shouldRetryOf: PipelineConfiguration -> bool)
      ensures this.name == name && this.rev == rev && this.configuration == configuration
      ensures this.runtimeInfo == runtimeInfo && this.stageLib == stageLib
      ensures this.runner == runner && this.observer == observer
      ensures this.validate == validate && this.assemble == assemble
      ensures this.shouldRetryOf == shouldRetryOf
    {
      this.name := name;
      this.rev := rev;
      this.configuration := configuration;
      this.runtimeInfo := runtimeInfo;
      this.stageLib := stageLib;
      this.runner := runner;
      this.observer := observer;
      this.validate := validate;
      this.assemble := assemble;
      this.shouldRetryOf := shouldRetryOf;
    }

    /** The request build() hands to Pipeline.Builder for a validated configuration. */
    function RequestFor(validated: PipelineConfiguration): (req: PipelineRequest)
      ensures req.name == name + ProductionPipelineSuffix && req.pipelineName == name
      ensures req.conf == validated && req.observer == observer && req.rev == rev
    {
      PipelineRequest(stageLib, configuration, name + ProductionPipelineSuffix, name, rev, validated, observer)
    }

    /**
     * build(pipelineConf). Any validation issue refuses the build with CONTAINER_0158
     * and the first issue, before a pipeline is built or a tracker set. Otherwise the
     * validated configuration is used from then on; once the pipeline is built, the
     * runner's tracker is set exactly once, to a committer tracker over the source if
     * the source is an OffsetCommitter and to the store-backed tracker if not.
     */
    method Build(pipelineConf: PipelineConfiguration) returns (r: Result<ProductionPipeline, BuildError>)
      modifies runner
      ensures var v := validate(stageLib, name, pipelineConf);
        v.issues != [] ==>
          r == Failure(ValidationFailed(Container0158, name, v.issues[0])) && unchanged(runner)
      ensures var v := validate(stageLib, name, pipelineConf);
        v.issues == [] && assemble(RequestFor(v.conf)).Failure? ==>
          r == Failure(PipelineBuildFailed(assemble(RequestFor(v.conf)).error)) && unchanged(runner)
      ensures var v := validate(stageLib, name, pipelineConf);
        v.issues == [] && assemble(RequestFor(v.conf)).Success? ==>
          var p := assemble(RequestFor(v.conf)).value;
          && r == Success(ProductionPipeline(name, rev, v.conf, configuration, p, shouldRetryOf(v.conf)))
          && (p.source.committer ==> runner.offsetTracker == Some(CommitterOffsetTracker(name, rev, runtimeInfo, p.source)))
          && (!p.source.committer ==> runner.offsetTracker == Some(StoreOffsetTracker(name, rev, runtimeInfo)))
          && runner.trackerUpdates == old(runner.trackerUpdates) + [runner.offsetTracker.value]
    {
      var validation := validate(stageLib, name, pipelineConf);
      var conf := validation.conf;
      if validation.issues != [] {
        return Failure(ValidationFailed(Container0158, name, validation.issues[0]));
      }
      var built := assemble(RequestFor(conf));
      if built.Failure? {
        return Failure(PipelineBuildFailed(built.error));
      }
      var pipeline := built.value;
      if pipeline.source.committer {
        runner.SetOffsetTracker(CommitterOffsetTracker(name, rev, runtimeInfo, pipeline.source));
      } else {
        runner.SetOffsetTracker(StoreOffsetTracker(name, rev, runtimeInfo));
      }
      var shouldRetry := shouldRetryOf(conf);
      r := Success(ProductionPipeline(name, rev, conf, configuration, pipeline, shouldRetry));
    }
  }

  /** A validator that rewrites the configuration and reports no issue, and a source that commits offsets. */
  method BuildWithCommitter(runner: ProductionPipelineRunner) returns (r: Result<ProductionPipeline, BuildError>)
    modifies runner
    ensures r.Success? && r.value.conf == PipelineConfiguration("validated")
    ensures r.value.pipeline.request.name == "p:production"
    ensures runner.offsetTracker == Some(CommitterOffsetTracker("p", "1", RuntimeInfo("rt"), Source("origin", true)))
  {
    var builder := new ProductionPipelineBuilder(
      "p", "1", Configuration("c"), RuntimeInfo("rt"), StageLibrary("lib"), runner, Observer("o"),
      (lib, n, conf) => Validation(PipelineConfiguration("validated"), []),
      req => Success(Pipeline(req, Source("origin", true))),
      conf => true);
    r := builder.Build(PipelineConfiguration("raw"));
  }

  /** A validator with one issue: the build is refused and the runner keeps no tracker. */
  method BuildRefused() returns (r: Result<ProductionPipeline, BuildError>, tracker: Option<OffsetTracker>)
    ensures r == Failure(ValidationFailed(Container0158, "p", Issue("src", "VALIDATION_0001", "bad")))
    ensures tracker == None
  {
    var runner := new ProductionPipelineRunner();
    var builder := new ProductionPipelineBuilder(
      "p", "1", Configuration("c"), RuntimeInfo("rt"), StageLibrary("lib"), runner, Observer("o"),
      (lib, n, conf) => Validation(conf, [Issue("src", "VALIDATION_0001", "bad")]),
      req => Success(Pipeline(req, Source("origin", false))),
      conf => false);
    r := builder.Build(PipelineConfiguration("raw"));
    tracker := runner.offsetTracker;
  }
}
