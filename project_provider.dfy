/** `SingletonCallExternalProjectProvider`: finds the other project through
    the Jenkins singleton, reached by reflection. */
module ProjectProvider {
  import opened Outcomes
  import opened Jenkins
  import opened ImportErrors

  /** `provideProject(name)`. `lookup` stands for the reflective call to
      `getItemByFullName` on the Jenkins instance. A null answer and a
      reflective exception both become a project-not-found error for the
      name; only the latter carries a cause. */
  function ProvideProject(lookup: string -> ItemLookup, name: string): (r: Result<Project, ImportException>)
    ensures r.Ok? <==> lookup(name).Found?
    ensures r.Ok? ==> r.value == lookup(name).project
    ensures r.Err? ==> r.error.ProjectNotFoundException? && r.error.project == name
    ensures r.Err? ==> (r.error.GetCause().Some? <==> lookup(name).Threw?)
    ensures r.Err? && lookup(name).Threw? ==> r.error.GetCause() == Some(lookup(name).cause)
  {
    match lookup(name)
    case Found(project) => Ok(project)
    case Null => Err(ProjectNotFoundException(name, None))
    case Threw(cause) => Err(ProjectNotFoundException(name, Some(cause)))
  }
}
