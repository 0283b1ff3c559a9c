/** `ImportOtherBuildEnvVarsBuilder`: the build step that imports another
    build's variables into the running build, and fails the build, without
    throwing, when it cannot. */
module BuildStep {
  import opened Outcomes
  import opened Jenkins
  import opened ImportErrors
  import opened Templates
  import opened BuildProviders
  import opened Execution

  /** The executor the default factory builds: the importer over the
      display-name build provider. */
  const DEFAULT_EXECUTOR: Executor := ImporterImpl(NamedBuildExternalBuildProvider)

  /** What `perform` ends with: the import result it logs, the import error
      it logs, or the failure to obtain an environment. */
  datatype BuildStepOutcome =
    | Imported(result: ImportVarsResult)
    | ImportError(exception: ImportException)
    | FailedToObtainEnvironment(failure: EnvironmentFailure)

  class ImportOtherBuildEnvVarsBuilder {
    const projectName: string
    const buildId: string
    const varImporter: ValidImporter
    /** The executor factory, collapsed to the executor it creates; `None`
        until set. */
    var baseBuilderFactory: Option<Executor>

    /** The four-argument constructor. */
    constructor (projectName: string, buildId: string, varImporter: ValidImporter, baseBuilderFactory: Option<Executor>)
      ensures this.projectName == projectName && this.buildId == buildId
      ensures this.varImporter == varImporter && this.baseBuilderFactory == baseBuilderFactory
    {
      this.projectName := projectName;
      this.buildId := buildId;
      this.varImporter := varImporter;
      this.baseBuilderFactory := baseBuilderFactory;
    }

    /** The three-argument constructor: the default factory. */
    constructor WithDefaultFactory(projectName: string, buildId: string, varImporter: ValidImporter)
      ensures this.projectName == projectName && this.buildId == buildId
      ensures this.varImporter == varImporter && baseBuilderFactory == Some(DEFAULT_EXECUTOR)
    {
      this.projectName := projectName;
      this.buildId := buildId;
      this.varImporter := varImporter;
      baseBuilderFactory := Some(DEFAULT_EXECUTOR);
    }

    /** `prePerform`: installs the default factory only when none is set. */
    method PrePerform()
      modifies this`baseBuilderFactory
      ensures baseBuilderFactory == if old(baseBuilderFactory).None? then Some(DEFAULT_EXECUTOR) else old(baseBuilderFactory)
    {
      if baseBuilderFactory.None? {
        baseBuilderFactory := Some(DEFAULT_EXECUTOR);
      }
    }

    /** The configuration `perform` hands to the executor. */
    function Configuration(): ImportVarsConfiguration {
      ImportVarsConfiguration(projectName, buildId, Some(varImporter))
    }

    /** `perform(build, workspace, launcher, listener)`. `currentEnvironment`
        is what `build.getEnvironment(listener)` yields; `build` stands for an
        `AbstractBuild`. Every import, I/O or interruption failure is caught:
        the build's result becomes FAILURE and nothing is thrown. On
        success the result is left as it was and the executor's report is
        returned. */
    method Perform(
      build: Run,
      currentEnvironment: Result<map<string, string>, EnvironmentFailure>,
      listener: TaskListener,
      host: Host) returns (outcome: BuildStepOutcome)
      modifies this`baseBuilderFactory, build
      ensures baseBuilderFactory == if old(baseBuilderFactory).None? then Some(DEFAULT_EXECUTOR) else old(baseBuilderFactory)
      ensures outcome.Imported? ==> build.result == old(build.result)
      ensures !outcome.Imported? ==> build.result == Some(Failure)
      ensures currentEnvironment.Err? ==>
                outcome == FailedToObtainEnvironment(currentEnvironment.error) && build.actions == old(build.actions)
      ensures currentEnvironment.Ok? ==>
                var executor := baseBuilderFactory.value;
                var resolved := Resolve(executor.buildProvider, Configuration(), currentEnvironment.value, listener, host);
                (resolved.Err? && resolved.error.ImportFailure? ==> outcome == ImportError(resolved.error.exception))
                && (resolved.Err? && resolved.error.EnvironmentFailed? ==> outcome == FailedToObtainEnvironment(resolved.error.failure))
                && (resolved.Err? ==> build.actions == old(build.actions))
                && (resolved.Ok? ==> outcome.Imported? && outcome.result.projectName == projectName
                                     && outcome.result.buildId == buildId)
                && (resolved.Ok? && executor.ImporterImpl? ==>
                      outcome.result.totalVarsImported == 0
                      && build.actions == Replaced(old(build.actions),
                                                   ContributingAction(resolved.value, varImporter.varNameTemplate)))
    {
      PrePerform();
      if currentEnvironment.Err? {
        build.SetResult(Failure);
        return FailedToObtainEnvironment(currentEnvironment.error);
      }
      var env := new EnvVars(currentEnvironment.value);
      var result := Execution.Perform(baseBuilderFactory.value, Configuration(), varImporter, env, listener, build, host);
      match result {
        case Ok(r) =>
          outcome := Imported(r);
        case Err(ImportFailure(e)) =>
          build.SetResult(Failure);
          outcome := ImportError(e);
        case Err(EnvironmentFailed(f)) =>
          build.SetResult(Failure);
          outcome := FailedToObtainEnvironment(f);
      }
    }
  }

  /** The data-bound constructor: builds the importer from the template and
      fails, as `new EnvContributingVarsImporter` does, on an invalid one;
      the step then reports that template back. */
  method NewImportOtherBuildEnvVarsBuilder(projectName: string, buildId: string, varNameTemplate: string)
    returns (r: Result<ImportOtherBuildEnvVarsBuilder, IllegalArgumentException>)
    ensures r.Ok? <==> ValidTemplate(varNameTemplate)
    ensures r.Ok? ==> fresh(r.value) && r.value.varImporter.varNameTemplate == varNameTemplate
                      && r.value.projectName == projectName && r.value.buildId == buildId
                      && r.value.baseBuilderFactory == Some(DEFAULT_EXECUTOR)
    ensures r.Err? ==> r.error.message == "Var name template " + varNameTemplate + " is invalid"
  {
    var importer := NewEnvContributingVarsImporter(varNameTemplate);
    if importer.Err? {
      return Err(importer.error);
    }
    var step := new ImportOtherBuildEnvVarsBuilder.WithDefaultFactory(projectName, buildId, importer.value);
    return Ok(step);
  }
}
