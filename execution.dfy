/** `ImportVarsExecutor`: resolve the other project, then its build, read the
    build's environment and hand it to a transfer agent; report what was
    asked for and how much the current variables grew. */
module Execution {
  import opened Outcomes
  import opened Jenkins
  import opened ImportErrors
  import opened Templates
  import opened BuildProviders
  import opened ProjectProvider

  /** `ImportVarsConfiguration`: an immutable triple. The templater is absent
      when no variable import is configured. */
  datatype ImportVarsConfiguration = ImportVarsConfiguration(
    projectName: string,
    buildId: string,
    varTemplater: Option<ValidImporter>)

  /** `ImportVarsResult`: an immutable triple. The count is the growth of the
      current variable map, so overwritten variables are not counted. */
  datatype ImportVarsResult = ImportVarsResult(
    projectName: string,
    buildId: string,
    totalVarsImported: int)

  /** The host calls the executor makes, as values:
      the registry lookup reached through the Jenkins singleton,
      `EnvVars.expand`, `AbstractBuild.getEnvironment(listener)`, and the
      copier's `copyEnvVars(source, target)` as the new contents of the target. */
  datatype Host = Host(
    getItemByFullName: string -> ItemLookup,
    expand: (map<string, string>, string) -> string,
    getEnvironment: (Build, TaskListener) -> Result<map<string, string>, EnvironmentFailure>,
    copyEnvVars: (ValidImporter, map<string, string>, map<string, string>) -> map<string, string>)

  /** The two executors. Both look projects up through the Jenkins singleton;
      they differ in the build provider and in how the variables travel. */
  datatype Executor = CopierImpl(buildProvider: BuildProvider) | ImporterImpl(buildProvider: BuildProvider)

  /** The first three steps of `perform`: the project by its raw name, the
      build under the id expanded against the current variables, and that
      build's environment. The first failure is the answer. */
  function Resolve(
    buildProvider: BuildProvider,
    configuration: ImportVarsConfiguration,
    currentVars: map<string, string>,
    listener: TaskListener,
    host: Host): (r: Result<map<string, string>, PerformFailure>)
    ensures ProvideProject(host.getItemByFullName, configuration.projectName).Err? ==>
              r == Err(ImportFailure(ProvideProject(host.getItemByFullName, configuration.projectName).error))
    ensures r.Ok? ==>
              var project := ProvideProject(host.getItemByFullName, configuration.projectName);
              var build := buildProvider.ProvideBuild(project.value, host.expand(currentVars, configuration.buildId));
              project.Ok? && build.Ok? && host.getEnvironment(build.value, listener) == Ok(r.value)
    ensures var project := ProvideProject(host.getItemByFullName, configuration.projectName);
            project.Ok? && buildProvider.ProvideBuild(project.value, host.expand(currentVars, configuration.buildId)).Err? ==>
              r == Err(ImportFailure(buildProvider.ProvideBuild(project.value, host.expand(currentVars, configuration.buildId)).error))
    ensures r.Err? && r.error.EnvironmentFailed? ==>
              var project := ProvideProject(host.getItemByFullName, configuration.projectName);
              var build := buildProvider.ProvideBuild(project.value, host.expand(currentVars, configuration.buildId));
              project.Ok? && build.Ok? && host.getEnvironment(build.value, listener) == Err(r.error.failure)
    ensures var project := ProvideProject(host.getItemByFullName, configuration.projectName);
            project.Ok? ==>
              var build := buildProvider.ProvideBuild(project.value, host.expand(currentVars, configuration.buildId));
              build.Ok? && host.getEnvironment(build.value, listener).Err? ==>
                r == Err(EnvironmentFailed(host.getEnvironment(build.value, listener).error))
    ensures var project := ProvideProject(host.getItemByFullName, configuration.projectName);
            project.Ok? ==>
              var build := buildProvider.ProvideBuild(project.value, host.expand(currentVars, configuration.buildId));
              build.Ok? && host.getEnvironment(build.value, listener).Ok? ==>
                r == Ok(host.getEnvironment(build.value, listener).value)
  {
    match ProvideProject(host.getItemByFullName, configuration.projectName)
    case Err(e) => Err(ImportFailure(e))
    case Ok(project) =>
      match buildProvider.ProvideBuild(project, host.expand(currentVars, configuration.buildId))
      case Err(e) => Err(ImportFailure(e))
      case Ok(build) =>
        match host.getEnvironment(build, listener)
        case Err(f) => Err(EnvironmentFailed(f))
        case Ok(vars) => Ok(vars)
  }

  /** A build that cannot be found is reported under the expanded id, never
      the raw one, and names the project that was found. */
  lemma BuildLookedUpUnderExpandedId(
    buildProvider: BuildProvider,
    configuration: ImportVarsConfiguration,
    currentVars: map<string, string>,
    listener: TaskListener,
    host: Host)
    requires ProvideProject(host.getItemByFullName, configuration.projectName).Ok?
    ensures var project := ProvideProject(host.getItemByFullName, configuration.projectName).value;
            var r := Resolve(buildProvider, configuration, currentVars, listener, host);
            r.Err? && r.error.ImportFailure? ==>
              r.error.exception == BuildNotFoundException(project.name, host.expand(currentVars, configuration.buildId))
  {
  }

  /** Once the project lookup fails, nothing later matters: the id
      expansion, the build lookup and the environment read are not reached. */
  lemma ProjectFailureStops(
    buildProvider: BuildProvider, other: BuildProvider,
    configuration: ImportVarsConfiguration,
    currentVars: map<string, string>,
    listener: TaskListener,
    host: Host, otherHost: Host)
    requires ProvideProject(host.getItemByFullName, configuration.projectName).Err?
    requires otherHost.getItemByFullName == host.getItemByFullName
    ensures Resolve(buildProvider, configuration, currentVars, listener, host)
         == Resolve(other, configuration, currentVars, listener, otherHost)
  {
  }

  /** `currentBuildVars.size()` after the transfer minus before, for a
      transfer that only adds or overwrites: the number of keys that are new.
      Overwriting a variable that was already set counts zero. */
  lemma {:induction false} GrowthCountsNewKeys(before: map<string, string>, after: map<string, string>)
    requires before.Keys <= after.Keys
    ensures |after| - |before| == |after.Keys - before.Keys|
  {
    var added := after.Keys - before.Keys;
    assert after.Keys == before.Keys + added;
    assert before.Keys * added == {};
    assert |before.Keys + added| + |before.Keys * added| == |before.Keys| + |added|;
  }

  /** A transfer through the contributing importer's names adds one
      variable per captured key whose templated name was not set yet. */
  lemma ContributionCount(before: map<string, string>, captured: map<string, string>, t: string)
    requires ValidTemplate(t)
    ensures |Contribute(before, captured, t)| - |before| == |ContributedNames(captured, t) - before.Keys|
    ensures 0 <= |Contribute(before, captured, t)| - |before| <= |captured|
  {
    var after := Contribute(before, captured, t);
    GrowthCountsNewKeys(before, after);
    assert after.Keys - before.Keys == ContributedNames(captured, t) - before.Keys;
    ContributeSize(before, captured, t);
  }

  /** `AbstractImpl.perform`. The copier variant makes one
      `copyEnvVars(other build's variables, current variables)`; the importer
      variant makes one `importVars(currentBuild, other build's variables)` and
      leaves the current variables alone. Failures propagate unchanged, with
      nothing written. */
  method Perform(
    executor: Executor,
    configuration: ImportVarsConfiguration,
    envVarTransferAgent: ValidImporter,
    currentBuildVars: EnvVars,
    listener: TaskListener,
    currentBuild: Run?,
    host: Host) returns (r: Result<ImportVarsResult, PerformFailure>)
    requires executor.ImporterImpl? ==> currentBuild != null
    modifies currentBuildVars, currentBuild
    ensures var resolved := Resolve(executor.buildProvider, configuration, old(currentBuildVars.vars), listener, host);
            resolved.Err? ==>
              r == Err(resolved.error)
              && currentBuildVars.vars == old(currentBuildVars.vars)
              && (currentBuild != null ==> currentBuild.actions == old(currentBuild.actions))
    ensures var resolved := Resolve(executor.buildProvider, configuration, old(currentBuildVars.vars), listener, host);
            resolved.Ok? && executor.CopierImpl? ==>
              currentBuildVars.vars == host.copyEnvVars(envVarTransferAgent, resolved.value, old(currentBuildVars.vars))
              && (currentBuild != null ==> currentBuild.actions == old(currentBuild.actions))
    ensures var resolved := Resolve(executor.buildProvider, configuration, old(currentBuildVars.vars), listener, host);
            resolved.Ok? && executor.ImporterImpl? ==>
              currentBuildVars.vars == old(currentBuildVars.vars)
              && currentBuild.actions
                 == Replaced(old(currentBuild.actions),
                             ContributingAction(resolved.value, envVarTransferAgent.varNameTemplate))
    ensures var resolved := Resolve(executor.buildProvider, configuration, old(currentBuildVars.vars), listener, host);
            resolved.Ok? && executor.ImporterImpl? ==>
              forall a :: a in currentBuild.actions && a.ContributingAction? ==> ValidTemplate(a.varNameTemplate)
    ensures r.Ok? <==> Resolve(executor.buildProvider, configuration, old(currentBuildVars.vars), listener, host).Ok?
    ensures r.Ok? ==>
              r.value == ImportVarsResult(configuration.projectName, configuration.buildId,
                                          |currentBuildVars.vars| - |old(currentBuildVars.vars)|)
    ensures r.Ok? && executor.ImporterImpl? ==> r.value.totalVarsImported == 0
    ensures currentBuild != null ==> currentBuild.result == old(currentBuild.result)
  {
    var originalSize := |currentBuildVars.vars|;
    var projectName := configuration.projectName;
    var buildId := configuration.buildId;

    var otherProject := ProvideProject(host.getItemByFullName, projectName);
    if otherProject.Err? {
      return Err(ImportFailure(otherProject.error));
    }
    var otherBuild := executor.buildProvider.ProvideBuild(otherProject.value, host.expand(currentBuildVars.vars, buildId));
    if otherBuild.Err? {
      return Err(ImportFailure(otherBuild.error));
    }
    var otherBuildEnvVars := host.getEnvironment(otherBuild.value, listener);
    if otherBuildEnvVars.Err? {
      return Err(EnvironmentFailed(otherBuildEnvVars.error));
    }

    match executor {
      case CopierImpl(_) =>
        currentBuildVars.vars := host.copyEnvVars(envVarTransferAgent, otherBuildEnvVars.value, currentBuildVars.vars);
      case ImporterImpl(_) =>
        envVarTransferAgent.ImportVars(currentBuild, otherBuildEnvVars.value);
    }

    return Ok(ImportVarsResult(projectName, buildId, |currentBuildVars.vars| - originalSize));
  }
}
