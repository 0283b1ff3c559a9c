# Other-build environment-variable import, modelled in Dafny

This project models the core of a Jenkins plugin. The plugin lets one build
pick a build of another project and import that build's environment
variables. Each imported variable is renamed through a template holding one
`%s`. The model covers these parts:

- the template validator and the template itself (`EnvContributingVarsImporter`);
- the deferred `ContributingAction` that writes the captured variables into an environment;
- the two build providers and the project provider, with their exceptions;
- the executor that chains the lookups and the transfer, and its report;
- the build-option listing helpers: result filter, option label and the fixed result list;
- the decision logic of the build step, of the parameter definition and of the parameter value.

The Jenkins host appears only as values:
- a project's history is a sequence of nullable builds, and `getBuild(id)` is a finite map;
- the registry lookup, `EnvVars.expand`, `getEnvironment` and the copier's `copyEnvVars` are function-valued fields of `Execution.Host`.

The objects that change in place are classes, and the operations on them are methods with `modifies` clauses: `Jenkins.EnvVars`, `Jenkins.Run`, `BuildOptions.ListBoxModel`, the build step `BuildStep.ImportOtherBuildEnvVarsBuilder` and the parameter definition `SelectorParameter.OtherBuildSelectorParameterDefinition`.

An importer can only be obtained through its validating constructor, so everywhere an importer is held or passed it has the subset type `Templates.ValidImporter`: its template holds exactly one `%s`.

Files and modules:

| file | module | models |
|---|---|---|
| outcomes.dfy | Outcomes | `Option` and `Result` |
| sequences.dfy | Sequences | order-preserving filter (`RunList.filter`) and its lemmas |
| jenkins.dfy | Jenkins | builds, projects, registry answers, `EnvVars`, the running build and `replaceAction` |
| import_errors.dfy | ImportErrors | `ProjectNotFoundException`, `BuildNotFoundException` and their messages |
| templates.dfy | Templates | `EnvContributingVarsImporter` and its `ContributingAction` |
| build_providers.dfy | BuildProviders | `BuildNumberExternalBuildProvider`, `NamedBuildExternalBuildProvider` |
| project_provider.dfy | ProjectProvider | `SingletonCallExternalProjectProvider` |
| execution.dfy | Execution | `ImportVarsConfiguration`, `ImportVarsResult`, `ImportVarsExecutor` |
| build_options.dfy | BuildOptions | result filter, option formatters, option lists, result options |
| descriptors.dfy | Descriptors | the shared `doCheckVarNameTemplate` |
| build_step.dfy | BuildStep | `ImportOtherBuildEnvVarsBuilder` |
| selector_parameter.dfy | SelectorParameter | `OtherBuildSelectorParameterDefinition`, `OtherBuildSelectorParameterValue` |

Some classes become datatypes: the configuration, the result, the importer, the providers and the parameter value. Their getters are the datatype's fields.

## Model

| member | source | states |
|---|---|---|
| Templates.Find | src/main/java/com/mattdw/jenkins/plugins/otherbuild/envvars/importer/EnvContributingVarsImporter.java:115-120 | `Matcher.find` from a position gives the first `%s` at or after it, or reports that none follows |
| Templates.IsVarNameTemplateValid | src/main/java/com/mattdw/jenkins/plugins/otherbuild/envvars/importer/EnvContributingVarsImporter.java:112-134 | the counting loop, early exit at a third match included, answers true exactly when the template has one `%s` |
| Templates.NoOccurrenceIffNoMarker | src/main/java/com/mattdw/jenkins/plugins/otherbuild/envvars/importer/EnvContributingVarsImporter.java:112-134 | the matcher counts zero exactly when no `%s` occurs anywhere |
| Templates.ValidIffUniqueMarker | src/main/java/com/mattdw/jenkins/plugins/otherbuild/envvars/importer/EnvContributingVarsImporter.java:112-134 | a template is valid exactly when one position holds `%s` and no other does |
| Templates.Format | src/main/java/com/mattdw/jenkins/plugins/otherbuild/envvars/importer/EnvContributingVarsImporter.java:176-179 | `String.format(template, key)` replaces the one `%s` and the key can be read back from the name |
| Templates.UnformatRoundTrip | src/main/java/com/mattdw/jenkins/plugins/otherbuild/envvars/importer/EnvContributingVarsImporter.java:176-179 | every name that reads back as a key is that key's formatted name |
| Templates.FormatInjective | src/main/java/com/mattdw/jenkins/plugins/otherbuild/envvars/importer/EnvContributingVarsImporter.java:175-180 | two keys share a formatted name only if they are equal |
| Templates.Contribute | src/main/java/com/mattdw/jenkins/plugins/otherbuild/envvars/importer/EnvContributingVarsImporter.java:173-181 | the environment after the contribution holds exactly the old keys and the formatted names of the captured keys |
| Templates.ContributeMeaning | src/main/java/com/mattdw/jenkins/plugins/otherbuild/envvars/importer/EnvContributingVarsImporter.java:173-181 | every captured key k ends up as format(t, k) with its value; no key is removed; every other entry is unchanged |
| Templates.ContributeCharacterized | src/main/java/com/mattdw/jenkins/plugins/otherbuild/envvars/importer/EnvContributingVarsImporter.java:173-181 | the properties of `ContributeMeaning` and the key set determine the resulting environment |
| Templates.ContributeStep | src/main/java/com/mattdw/jenkins/plugins/otherbuild/envvars/importer/EnvContributingVarsImporter.java:175-180 | contributing one more captured key is one more `put` of its formatted name |
| Templates.ContributedNamesCount | src/main/java/com/mattdw/jenkins/plugins/otherbuild/envvars/importer/EnvContributingVarsImporter.java:175-180 | there are as many formatted names as captured variables |
| Templates.ContributeSize | src/main/java/com/mattdw/jenkins/plugins/otherbuild/envvars/importer/EnvContributingVarsImporter.java:175-180 | the environment grows by at most the number of captured variables, and by exactly that many when no formatted name was set before |
| Templates.ContributeExample | src/main/java/com/mattdw/jenkins/plugins/otherbuild/envvars/importer/EnvContributingVarsImporter.java:173-181 | template `NS_%s` over `{FOO: bar}` writes `NS_FOO = bar` |
| Templates.VarsImporter.ImportVars | src/main/java/com/mattdw/jenkins/plugins/otherbuild/envvars/importer/EnvContributingVarsImporter.java:96-99 | the only effect is one `replaceAction` on the target build with an action capturing the given variables and the template; afterwards that action is the build's only contributing action |
| Jenkins.Replaced | src/main/java/com/mattdw/jenkins/plugins/otherbuild/envvars/importer/EnvContributingVarsImporter.java:96-99 | `replaceAction` ends the list with the new action, drops every action of its class (no action before the new one is of its class), and keeps the other actions in order and with their multiplicity |
| Templates.NewEnvContributingVarsImporter | src/main/java/com/mattdw/jenkins/plugins/otherbuild/envvars/importer/EnvContributingVarsImporter.java:65-73 | construction succeeds exactly for a valid template and keeps it; otherwise it fails with `Var name template <t> is invalid` |
| Templates.BuildEnvVars | src/main/java/com/mattdw/jenkins/plugins/otherbuild/envvars/importer/EnvContributingVarsImporter.java:173-181 | the `put` loop, in any key order, leaves the environment equal to `Contribute` of the old one; the build argument is not used |
| ImportErrors.ProjectMessageNamesProject | src/main/java/com/mattdw/jenkins/plugins/otherbuild/envvars/provider/project/ProjectNotFoundException.java:52-56 | the message is the fixed prefix followed by the project name |
| ImportErrors.BuildMessageIsAmbiguous | src/main/java/com/mattdw/jenkins/plugins/otherbuild/envvars/provider/build/BuildNotFoundException.java:59-64 | for all names and ids, an id containing ` in project ` gives the same message as a project name containing it, so the message `Could not find a build with id <id> in project <project>` does not determine the pair |
| BuildProviders.ProvideBuildByNumber | src/main/java/com/mattdw/jenkins/plugins/otherbuild/envvars/provider/build/BuildNumberExternalBuildProvider.java:53-65 | success exactly when `getBuild(id)` knows the id, returning that build; otherwise BuildNotFound with the project's name and the unmodified id |
| BuildProviders.FindBuildByName | src/main/java/com/mattdw/jenkins/plugins/otherbuild/envvars/provider/build/NamedBuildExternalBuildProvider.java:78-107 | a failure is BuildNotFound with the project's name and the name asked for |
| BuildProviders.FindBuildByNameIsFirstMatch | src/main/java/com/mattdw/jenkins/plugins/otherbuild/envvars/provider/build/NamedBuildExternalBuildProvider.java:85-103 | success exactly when some non-null entry with a non-null display name equal to the name exists; the result is the earliest such entry |
| BuildProviders.BuildProvider.ProvideBuild | src/main/java/com/mattdw/jenkins/plugins/otherbuild/envvars/provider/build/NamedBuildExternalBuildProvider.java:53-63 | any build returned is either `getBuild(id)` or, for the named provider, a history entry whose display name is the id; a failure is BuildNotFound(project name, id) |
| BuildProviders.NamedProviderFallsBack | src/main/java/com/mattdw/jenkins/plugins/otherbuild/envvars/provider/build/NamedBuildExternalBuildProvider.java:58-62 | the named provider fails exactly when neither name nor number finds a build; with no name match its outcome is the by-number outcome |
| BuildProviders.NameTakesPrecedenceExample | src/main/java/com/mattdw/jenkins/plugins/otherbuild/envvars/provider/build/NamedBuildExternalBuildProvider.java:58-59 | a display-name match wins over a different build with that number |
| BuildProviders.NameTakesPrecedence | src/main/java/com/mattdw/jenkins/plugins/otherbuild/envvars/provider/build/NamedBuildExternalBuildProvider.java:58-59 | for every project and id, when some build carries the display name `id`, the named provider returns the earliest such build, whatever build is numbered `id` |
| ProjectProvider.ProvideProject | src/main/java/com/mattdw/jenkins/plugins/otherbuild/envvars/provider/project/SingletonCallExternalProjectProvider.java:74-97 | a found project is returned; a null answer gives ProjectNotFound(name) without cause; a reflective failure gives ProjectNotFound(name) with that cause |
| Execution.Resolve | src/main/java/com/mattdw/jenkins/plugins/otherbuild/envvars/execution/ImportVarsExecutor.java:323-336 | project, then build under the expanded id, then environment; a failed project lookup is the answer; after a found project, a failed build lookup is the answer with the provider's own exception; after a found build, a failed environment read is the answer with the host's own failure, and an environment failure happens only then; when all three are found, the answer is `Ok` of that environment |
| Execution.BuildLookedUpUnderExpandedId | src/main/java/com/mattdw/jenkins/plugins/otherbuild/envvars/execution/ImportVarsExecutor.java:331-334 | a missing build is reported under the expanded id and the found project's name |
| Execution.ProjectFailureStops | src/main/java/com/mattdw/jenkins/plugins/otherbuild/envvars/execution/ImportVarsExecutor.java:327-336 | after a failed project lookup, the expansion, build provider and environment read do not affect the outcome |
| Execution.GrowthCountsNewKeys | src/main/java/com/mattdw/jenkins/plugins/otherbuild/envvars/execution/ImportVarsResult.java:52-55 | for a transfer that only adds or overwrites, the size difference is the number of new keys, so overwrites count zero |
| Execution.ContributionCount | src/main/java/com/mattdw/jenkins/plugins/otherbuild/envvars/importer/EnvContributingVarsImporter.java:173-181 | when `buildEnvVars` applies a contribution, the environment grows, measured as the size delta that ImportVarsResult.java:52-55 defines as the count, by the number of formatted names not set before: between zero and the number of captured variables (the importer's `perform` itself reports 0) |
| Execution.Perform | src/main/java/com/mattdw/jenkins/plugins/otherbuild/envvars/execution/ImportVarsExecutor.java:316-361 | failures propagate unchanged with nothing written; the copier makes one `copyEnvVars(other vars, current vars)`; the importer only replaces the build's action, leaving one contributing action whose template is valid, and counts 0; the report holds the raw name, the raw id and the size delta |
| BuildOptions.NatToDecimal | src/main/java/com/mattdw/jenkins/plugins/otherbuild/envvars/provider/options/ResultFilteringOtherProjectBuildOptionsProvider.java:107 | the digits of a build number are decimal digits without a leading zero |
| BuildOptions.DecimalRoundTrip | src/main/java/com/mattdw/jenkins/plugins/otherbuild/envvars/provider/options/ResultFilteringOtherProjectBuildOptionsProvider.java:107 | reading the decimal digits back gives the number |
| BuildOptions.IntToStringInjective | src/main/java/com/mattdw/jenkins/plugins/otherbuild/envvars/provider/options/ResultFilteringOtherProjectBuildOptionsProvider.java:107 | `String.valueOf` gives distinct numbers distinct option values |
| BuildOptions.FilterBuilds | src/main/java/com/mattdw/jenkins/plugins/otherbuild/envvars/provider/options/ResultFilteringOtherProjectBuildOptionsProvider.java:124-137 | with no filter the input is returned unchanged; with a filter every build kept has the wanted result |
| BuildOptions.FilterBuildsExact | src/main/java/com/mattdw/jenkins/plugins/otherbuild/envvars/provider/options/ResultFilteringOtherProjectBuildOptionsProvider.java:131-136 | the output is a subsequence of the input and holds each build with the wanted result as often as the input, and no other build |
| BuildOptions.FilterBuildsEmpty | src/main/java/com/mattdw/jenkins/plugins/otherbuild/envvars/provider/options/ResultFilteringOtherProjectBuildOptionsProvider.java:124-137 | the filter leaves nothing exactly when no build has the wanted result |
| BuildOptions.ResultTextFaithful | src/main/java/com/mattdw/jenkins/plugins/otherbuild/envvars/provider/options/BuildOptionFormatter.java:105-110 | the label shows `NO RESULT` exactly for a build without a result, and different results differently |
| BuildOptions.LabelParts | src/main/java/com/mattdw/jenkins/plugins/otherbuild/envvars/provider/options/BuildOptionFormatter.java:103-113 | the label splits into display name (`null` when absent), ` - `, result text and ` (<date>)` with the date from the injected format; `OtherProjectBuildOptionFormatter.DefaultImpl` (lines 65-75 of its file) is the same code |
| BuildOptions.DefaultFormatter | src/main/java/com/mattdw/jenkins/plugins/otherbuild/envvars/provider/options/BuildOptionFormatter.java:68-93 | the no-argument formatter uses the pattern `yyyy-MM-dd HH:mm:ss z` |
| BuildOptions.LabelShowsResult | src/main/java/com/mattdw/jenkins/plugins/otherbuild/envvars/provider/options/BuildOptionFormatter.java:103-113 | builds with equal display name and date text get equal labels only when their results agree |
| BuildOptions.NewOptionsProvider | src/main/java/com/mattdw/jenkins/plugins/otherbuild/envvars/provider/options/ResultFilteringOtherProjectBuildOptionsProvider.java:84-86 | the one-argument provider keeps the filter and uses the default formatter |
| BuildOptions.GetOptionsForProject | src/main/java/com/mattdw/jenkins/plugins/otherbuild/envvars/provider/options/ResultFilteringOtherProjectBuildOptionsProvider.java:97-113 | a fresh list with one option per filtered build, in filtered order, labelled by the formatter and valued by the build number |
| BuildOptions.ResultsCoverEveryResult | src/main/java/com/mattdw/jenkins/plugins/otherbuild/envvars/provider/options/ResultOptionsProvider.java:63-69 | every build result is offered exactly once |
| BuildOptions.GetBuildResultOptions | src/main/java/com/mattdw/jenkins/plugins/otherbuild/envvars/provider/options/ResultOptionsProvider.java:78-87 | a fresh list of five options, SUCCESS, FAILURE, UNSTABLE, ABORTED, NOT_BUILT, each with label and value the result's name |
| Descriptors.DoCheckVarNameTemplate | src/main/java/com/mattdw/jenkins/plugins/otherbuild/envvars/ImportOtherBuildEnvVarsBuilder.java:326-332 | passes exactly the empty field and valid templates; otherwise an error with the fixed text; the parameter definition's descriptor (lines 513-519 of its file) makes the same check |
| BuildStep.ImportOtherBuildEnvVarsBuilder.constructor | src/main/java/com/mattdw/jenkins/plugins/otherbuild/envvars/ImportOtherBuildEnvVarsBuilder.java:99-109 | keeps all four arguments |
| BuildStep.ImportOtherBuildEnvVarsBuilder.WithDefaultFactory | src/main/java/com/mattdw/jenkins/plugins/otherbuild/envvars/ImportOtherBuildEnvVarsBuilder.java:123-133 | installs the importer factory over the display-name provider |
| BuildStep.ImportOtherBuildEnvVarsBuilder.PrePerform | src/main/java/com/mattdw/jenkins/plugins/otherbuild/envvars/ImportOtherBuildEnvVarsBuilder.java:204-208 | installs the default factory only when none is set |
| BuildStep.ImportOtherBuildEnvVarsBuilder.Perform | src/main/java/com/mattdw/jenkins/plugins/otherbuild/envvars/ImportOtherBuildEnvVarsBuilder.java:224-273 | any import, I/O or interruption failure, including reading the current environment, sets FAILURE and is not thrown; success leaves the result and reports project and id, with a zero count for the importer executor |
| BuildStep.NewImportOtherBuildEnvVarsBuilder | src/main/java/com/mattdw/jenkins/plugins/otherbuild/envvars/ImportOtherBuildEnvVarsBuilder.java:150-161 | fails as the importer does on an invalid template; otherwise the step holds that template and the default factory |
| SelectorParameter.ValidateVarNameTemplate | src/main/java/com/mattdw/jenkins/plugins/otherbuild/envvars/OtherBuildSelectorParameterDefinition.java:184-198 | an importer exactly when import is wanted and the template is valid, holding that template |
| SelectorParameter.NewParameterValue | src/main/java/com/mattdw/jenkins/plugins/otherbuild/envvars/OtherBuildSelectorParameterValue.java:90-101 | the string value is the configuration's build id and every argument is kept |
| SelectorParameter.NewParameterValueWithNullListener | src/main/java/com/mattdw/jenkins/plugins/otherbuild/envvars/OtherBuildSelectorParameterValue.java:117-123 | the three-argument form uses the null listener |
| SelectorParameter.OtherBuildSelectorParameterValue.BuildEnvironment | src/main/java/com/mattdw/jenkins/plugins/otherbuild/envvars/OtherBuildSelectorParameterValue.java:145-165 | the parameter's own entry is written first; without a templater nothing else happens; with one, the executor copies the other build's variables or its failure comes back wrapped |
| SelectorParameter.OtherBuildSelectorParameterValue.DoEnvImport | src/main/java/com/mattdw/jenkins/plugins/otherbuild/envvars/OtherBuildSelectorParameterValue.java:178-193 | one executor run with no current build; a failure becomes a runtime exception caused by it |
| SelectorParameter.OtherBuildSelectorParameterDefinition.constructor | src/main/java/com/mattdw/jenkins/plugins/otherbuild/envvars/OtherBuildSelectorParameterDefinition.java:113-127 | keeps all six arguments |
| SelectorParameter.OtherBuildSelectorParameterDefinition.DataBound | src/main/java/com/mattdw/jenkins/plugins/otherbuild/envvars/OtherBuildSelectorParameterDefinition.java:150-167 | the filter is kept only when filtering is on; the import indicator holds exactly when import is on and the template valid; the template is reported only then; the copier factory is installed |
| SelectorParameter.OtherBuildSelectorParameterDefinition.PreCreateValue | src/main/java/com/mattdw/jenkins/plugins/otherbuild/envvars/OtherBuildSelectorParameterDefinition.java:284-288 | installs the copier factory only when none is set |
| SelectorParameter.OtherBuildSelectorParameterDefinition.CreateValue | src/main/java/com/mattdw/jenkins/plugins/otherbuild/envvars/OtherBuildSelectorParameterDefinition.java:304-321 | no value unless both `name` and `value` were submitted; otherwise (project name, submitted id, importer) with the factory's executor and the null listener |

## Left out

- Jenkins host internals are parameters or values: the reflective singleton call, `getItemByFullName`, `getBuilds`, `getBuild`, `getEnvironment`. Their blocking, interruption and call counts are not modelled, so "each lookup happens exactly once" is not stated.
- `EnvVars.expand` is an uninterpreted function of the current variables and the id.
- `hudson.EnvVars` is a plain string map; its key-case handling is not modelled.
- Templates: `String.format` is modelled only as replacing the single `%s`; `%%s` and other format directives are not.
- Dates: `SimpleDateFormat` rendering, time zone and locale are a function parameter.
- Logging and messages: `Messages` bundles, printed lines and stack traces are not modelled; the build step returns the outcome it would log instead.
- Descriptor and UI plumbing (list-box filling, `load()`, display names, `createValue(request)`) is not modelled.
- The executor factories collapse to the executor they create; `createExecutor` on the definition is read as `createBuilder`.
- No `EnvVarsCopier` implementation exists in the repository, so `copyEnvVars` is an abstract host function. No copy or overwrite semantics are asserted for it.
- `ContributingAction` holds a snapshot of the captured map; the Java code keeps a reference, so later changes to that map are not seen.
- Java null strings (a null template, project name or id) are not modelled, except for nullable build entries and display names.
- Execution.Perform: the call counts of the host lookups and the listener's use are not stated.
- Jenkins.Run.SetResult: assigns the result outright; Jenkins' rule that a result only gets worse is not modelled.
- BuildOptions.GetOptionsForProject: requires a history without null entries; the Java code throws a NullPointerException on one.
- SelectorParameter.OtherBuildSelectorParameterValue.BuildEnvironment: requires a copier executor; an importer executor with no current build throws a NullPointerException. The upper-case alias that Jenkins' string parameter also writes is not modelled.
- SelectorParameter.OtherBuildSelectorParameterValue.DoEnvImport: requires a copier executor, for the same reason as `BuildEnvironment`: an importer executor with no current build throws a NullPointerException.
- Execution.Perform: requires a current build for the importer executor; without one the Java code throws a NullPointerException.
- BuildStep.ImportOtherBuildEnvVarsBuilder.Perform: the current run is modelled as an `AbstractBuild`. For any other run, such as a Pipeline run, the Java code's cast fails with a ClassCastException that no catch clause handles, so the result stays unset. That case is not modelled.
- The result-list property "each call yields identical contents" is stated only as each call's contents, together with freshness.
