/** The plugin's failure taxonomy: the two `OtherBuildVarImportException`
    subclasses, and everything `ImportVarsExecutor.perform` can throw. */
module ImportErrors {
  import opened Outcomes
  import opened Jenkins

  const PROJECT_NOT_FOUND_PREFIX := "Could not find project with name: "
  const BUILD_NOT_FOUND_PREFIX := "Could not find a build with id "
  const BUILD_NOT_FOUND_INFIX := " in project "

  /** `OtherBuildVarImportException`, with its two concrete subclasses. */
  datatype ImportException =
    | ProjectNotFoundException(project: string, cause: Option<ReflectiveFailure>)
    | BuildNotFoundException(project: string, id: string)
  {
    /** `Throwable.getMessage()`. */
    function GetMessage(): string {
      match this
      case ProjectNotFoundException(project, _) => PROJECT_NOT_FOUND_PREFIX + project
      case BuildNotFoundException(project, id) => BUILD_NOT_FOUND_PREFIX + id + BUILD_NOT_FOUND_INFIX + project
    }

    /** `Throwable.getCause()`: a build that is not found never has one. */
    function GetCause(): Option<ReflectiveFailure> {
      if ProjectNotFoundException? then cause else None
    }
  }

  /** Everything `perform` throws: an import failure, or the I/O failure or
      interruption raised while reading a build's environment. */
  datatype PerformFailure =
    | ImportFailure(exception: ImportException)
    | EnvironmentFailed(failure: EnvironmentFailure)

  /** The message of a missing project ends with the name, after a fixed
      prefix, so the name can be read back from it. */
  lemma ProjectMessageNamesProject(e: ImportException)
    requires e.ProjectNotFoundException?
    ensures PROJECT_NOT_FOUND_PREFIX <= e.GetMessage()
    ensures e.GetMessage()[|PROJECT_NOT_FOUND_PREFIX|..] == e.project
  {
  }

  /** The message of a missing build does not identify the pair: an id that
      itself contains the infix gives the same text as a project name that
      does, which is why the exception also keeps both as fields. */
  lemma BuildMessageIsAmbiguous(project: string, id: string, other: string)
    ensures BuildNotFoundException(project, id + BUILD_NOT_FOUND_INFIX + other).GetMessage()
         == BuildNotFoundException(other + BUILD_NOT_FOUND_INFIX + project, id).GetMessage()
  {
    var a, b, c, d, e := BUILD_NOT_FOUND_PREFIX, id, BUILD_NOT_FOUND_INFIX, other, project;
    assert a + (b + c + d) + c + e == a + b + c + (d + c + e);
  }
}
