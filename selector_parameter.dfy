/** The build parameter that selects a build of another project, and its
    value, which also contributes that build's variables to the environment
    when a template is configured. */
module SelectorParameter {
  import opened Outcomes
  import opened Jenkins
  import opened ImportErrors
  import opened Templates
  import opened BuildProviders
  import opened Execution

  /** The executor the definition's default factory builds: the copier over
      the display-name build provider. */
  const DEFAULT_EXECUTOR: Executor := CopierImpl(NamedBuildExternalBuildProvider)

  /** `validateVarNameTemplate`: an importer holding the template when import
      is wanted and the template is valid; nothing otherwise. */
  method ValidateVarNameTemplate(doVariableImport: bool, varNameTemplate: string) returns (r: Option<ValidImporter>)
    ensures r.Some? <==> doVariableImport && ValidTemplate(varNameTemplate)
    ensures r.Some? ==> r.value.varNameTemplate == varNameTemplate
  {
    if !doVariableImport {
      return None;
    }
    var importer := NewEnvContributingVarsImporter(varNameTemplate);
    if importer.Err? {
      return None;
    }
    return Some(importer.value);
  }

  /** The exception `doEnvImport` throws: a runtime exception wrapping the
      executor's failure. */
  datatype RuntimeException = RuntimeException(cause: PerformFailure)

  /** `OtherBuildSelectorParameterValue`: a string parameter whose value is the
      configuration's build id. */
  datatype OtherBuildSelectorParameterValue = OtherBuildSelectorParameterValue(
    name: string,
    value: string,
    configuration: ImportVarsConfiguration,
    executor: Executor,
    listener: TaskListener)
  {
    /** `buildEnvironment(build, env)`: first the string parameter's own
        entry, then, only when a templater is configured, one `perform` of the
        executor on the same map with no current build. A failure of
        `perform` comes back as a runtime exception caused by it; the entry
        written first stays. */
    method BuildEnvironment(build: Run?, env: EnvVars, host: Host) returns (thrown: Option<RuntimeException>)
      requires executor.CopierImpl?
      modifies env
      ensures var base := old(env.vars)[name := value];
              configuration.varTemplater.None? ==> env.vars == base && thrown == None
      ensures var base := old(env.vars)[name := value];
              var resolved := Resolve(executor.buildProvider, configuration, base, listener, host);
              configuration.varTemplater.Some? ==>
                (resolved.Err? ==> env.vars == base && thrown == Some(RuntimeException(resolved.error)))
                && (resolved.Ok? ==>
                      thrown == None
                      && env.vars == host.copyEnvVars(configuration.varTemplater.value, resolved.value, base))
    {
      env.Put(name, value);
      thrown := None;
      if configuration.varTemplater.Some? {
        thrown := DoEnvImport(configuration.varTemplater.value, env, host);
      }
    }

    /** `doEnvImport`: the executor run, with its failure wrapped. */
    method DoEnvImport(varCopier: ValidImporter, env: EnvVars, host: Host) returns (thrown: Option<RuntimeException>)
      requires executor.CopierImpl?
      modifies env
      ensures var resolved := Resolve(executor.buildProvider, configuration, old(env.vars), listener, host);
              (resolved.Err? ==> env.vars == old(env.vars) && thrown == Some(RuntimeException(resolved.error)))
              && (resolved.Ok? ==> thrown == None && env.vars == host.copyEnvVars(varCopier, resolved.value, old(env.vars)))
    {
      var result := Execution.Perform(executor, configuration, varCopier, env, listener, null, host);
      if result.Err? {
        return Some(RuntimeException(result.error));
      }
      return None;
    }
  }

  /** The four-argument value constructor: the string value is the
      configuration's build id. */
  function NewParameterValue(parameterName: string, configuration: ImportVarsConfiguration, executor: Executor, listener: TaskListener)
    : (v: OtherBuildSelectorParameterValue)
    ensures v.name == parameterName && v.value == configuration.buildId
    ensures v.configuration == configuration && v.executor == executor && v.listener == listener
  {
    OtherBuildSelectorParameterValue(parameterName, configuration.buildId, configuration, executor, listener)
  }

  /** The three-argument value constructor: the null listener. */
  function NewParameterValueWithNullListener(parameterName: string, configuration: ImportVarsConfiguration, executor: Executor)
    : (v: OtherBuildSelectorParameterValue)
    ensures v == NewParameterValue(parameterName, configuration, executor, NullListener)
    ensures v.listener == NullListener && v.value == configuration.buildId
  {
    OtherBuildSelectorParameterValue(parameterName, configuration.buildId, configuration, executor, NullListener)
  }

  class OtherBuildSelectorParameterDefinition {
    const name: string
    const description: string
    const projectName: string
    const buildResultFilter: Option<string>
    const varImporter: Option<ValidImporter>
    /** The executor factory, collapsed to the executor it creates; `None`
        until set. */
    var executorFactory: Option<Executor>

    /** The six-argument constructor. */
    constructor (
      name: string, description: string, projectName: string,
      buildResultFilter: Option<string>, varImporter: Option<ValidImporter>, executorFactory: Option<Executor>)
      ensures this.name == name && this.description == description && this.projectName == projectName
      ensures this.buildResultFilter == buildResultFilter && this.varImporter == varImporter
      ensures this.executorFactory == executorFactory
    {
      this.name := name;
      this.description := description;
      this.projectName := projectName;
      this.buildResultFilter := buildResultFilter;
      this.varImporter := varImporter;
      this.executorFactory := executorFactory;
    }

    /** The data-bound constructor: the filter is kept only when filtering is
        switched on, the importer only when import is switched on and the
        template is valid, and the copier factory is installed. */
    constructor DataBound(
      name: string, description: string, projectName: string,
      filterByBuildResult: bool, buildResultFilter: Option<string>,
      doVariableImport: bool, varNameTemplate: string)
      ensures this.name == name && this.description == description && this.projectName == projectName
      ensures this.buildResultFilter == if filterByBuildResult then buildResultFilter else None
      ensures IsFilterByBuildResult() <==> filterByBuildResult && buildResultFilter.Some?
      ensures IsDoVariableImport() <==> doVariableImport && ValidTemplate(varNameTemplate)
      ensures GetVarNameTemplate() == if IsDoVariableImport() then Some(varNameTemplate) else None
      ensures executorFactory == Some(DEFAULT_EXECUTOR)
    {
      var importer := ValidateVarNameTemplate(doVariableImport, varNameTemplate);
      this.name := name;
      this.description := description;
      this.projectName := projectName;
      this.buildResultFilter := if filterByBuildResult then buildResultFilter else None;
      this.varImporter := importer;
      executorFactory := Some(DEFAULT_EXECUTOR);
    }

    /** `isFilterByBuildResult`, and `getFilterByBuildResult` with it. */
    predicate IsFilterByBuildResult() {
      buildResultFilter.Some?
    }

    /** `isDoVariableImport`, and `getDoVariableImport` with it. */
    predicate IsDoVariableImport() {
      varImporter.Some?
    }

    /** `getVarNameTemplate`: the importer's template, or null without one. */
    function GetVarNameTemplate(): Option<string> {
      if varImporter.Some? then Some(varImporter.value.varNameTemplate) else None
    }

    /** `preCreateValue`: installs the copier factory only when none is set. */
    method PreCreateValue()
      modifies this`executorFactory
      ensures executorFactory == if old(executorFactory).None? then Some(DEFAULT_EXECUTOR) else old(executorFactory)
    {
      if executorFactory.None? {
        executorFactory := Some(DEFAULT_EXECUTOR);
      }
    }

    /** `createValue(request, jo)`, the submitted form reduced to its string
        entries: no value unless both `name` and `value` were submitted;
        otherwise a value for this definition's project, the submitted build
        id and this definition's importer, run by the factory's executor with
        the null listener. */
    method CreateValue(jo: map<string, string>) returns (v: Option<OtherBuildSelectorParameterValue>)
      modifies this`executorFactory
      ensures executorFactory == if old(executorFactory).None? then Some(DEFAULT_EXECUTOR) else old(executorFactory)
      ensures v.Some? <==> "name" in jo && "value" in jo
      ensures v.Some? ==>
                v.value == NewParameterValueWithNullListener(
                  jo["name"], ImportVarsConfiguration(projectName, jo["value"], varImporter), executorFactory.value)
    {
      PreCreateValue();
      if "name" !in jo || "value" !in jo {
        return None;
      }
      var configuration := ImportVarsConfiguration(projectName, jo["value"], varImporter);
      return Some(NewParameterValueWithNullListener(jo["name"], configuration, executorFactory.value));
    }
  }
}
