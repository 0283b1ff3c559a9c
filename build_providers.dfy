/** The two `ExternalBuildProvider`s: by build number, and by display name
    falling back to build number. */
module BuildProviders {
  import opened Outcomes
  import opened Jenkins
  import opened ImportErrors
  import Sequences

  /** The predicate of `findBuildByName`: the entry is not null, its display
      name is not null, and that name equals the one asked for. */
  predicate NameMatches(name: string, entry: Option<Build>) {
    entry.Some? && entry.value.displayName == Some(name)
  }

  /** `BuildNumberExternalBuildProvider.provideBuild`: `getBuild(id)`, or a
      build-not-found error naming the project and the id. */
  function ProvideBuildByNumber(project: Project, id: string): (r: Result<Build, ImportException>)
    ensures r.Ok? <==> id in project.numbered
    ensures r.Ok? ==> r.value == project.numbered[id]
    ensures r.Err? ==> r.error == BuildNotFoundException(project.name, id)
  {
    match project.GetBuild(id)
    case Some(build) => Ok(build)
    case None => Err(BuildNotFoundException(project.name, id))
  }

  /** `findBuildByName`: the first build of the history, in the order
      `getBuilds()` lists it, whose display name is `name`. */
  function FindBuildByName(project: Project, name: string): (r: Result<Build, ImportException>)
    ensures r.Err? ==> r.error == BuildNotFoundException(project.name, name)
  {
    var matching := Sequences.Filter(project.builds, (entry: Option<Build>) => NameMatches(name, entry));
    if |matching| > 0 then
      assert NameMatches(name, matching[0]);
      Ok(matching[0].value)
    else
      Err(BuildNotFoundException(project.name, name))
  }

  /** The name lookup finds a build exactly when some entry of the history
      carries that display name, and then it is the earliest such entry. */
  lemma FindBuildByNameIsFirstMatch(project: Project, name: string)
    ensures FindBuildByName(project, name).Ok?
        <==> exists i :: 0 <= i < |project.builds| && NameMatches(name, project.builds[i])
    ensures FindBuildByName(project, name).Ok? ==>
      exists i :: 0 <= i < |project.builds| && NameMatches(name, project.builds[i])
        && FindBuildByName(project, name).value == project.builds[i].value
        && forall j :: 0 <= j < i ==> !NameMatches(name, project.builds[j])
  {
    var p := (entry: Option<Build>) => NameMatches(name, entry);
    Sequences.FilterEmpty(project.builds, p);
    if exists i :: 0 <= i < |project.builds| && NameMatches(name, project.builds[i]) {
      var i := FirstIndex(project.builds, name);
      Sequences.FilterFirst(project.builds, p, i);
    }
  }

  /** The position of the earliest entry named `name`. */
  lemma FirstIndex(builds: seq<Option<Build>>, name: string) returns (i: nat)
    requires exists i :: 0 <= i < |builds| && NameMatches(name, builds[i])
    ensures i < |builds| && NameMatches(name, builds[i])
    ensures forall j :: 0 <= j < i ==> !NameMatches(name, builds[j])
  {
    i := 0;
    while !NameMatches(name, builds[i])
      invariant i < |builds|
      invariant forall j :: 0 <= j < i ==> !NameMatches(name, builds[j])
      invariant exists k :: i <= k < |builds| && NameMatches(name, builds[k])
      decreases |builds| - i
    {
      i := i + 1;
    }
  }

  /** `getBuild(id)` answers `build`. */
  predicate NumberedAs(project: Project, id: string, build: Build) {
    id in project.numbered && project.numbered[id] == build
  }

  /** `build` is in the history and carries the display name `name`. */
  predicate NamedIn(project: Project, name: string, build: Build) {
    exists i :: 0 <= i < |project.builds| && project.builds[i] == Some(build) && NameMatches(name, project.builds[i])
  }

  /** The strategies for picking the other build. */
  datatype BuildProvider = BuildNumberExternalBuildProvider | NamedBuildExternalBuildProvider {

    /** `provideBuild(project, id)`. The named provider tries the display
        name first and, when no build carries it, the build number. */
    function ProvideBuild(project: Project, id: string): (r: Result<Build, ImportException>)
      ensures r.Err? ==> r.error == BuildNotFoundException(project.name, id)
      ensures r.Ok? ==> NumberedAs(project, id, r.value) || (NamedBuildExternalBuildProvider? && NamedIn(project, id, r.value))
    {
      match this
      case BuildNumberExternalBuildProvider => ProvideBuildByNumber(project, id)
      case NamedBuildExternalBuildProvider =>
        FindBuildByNameIsFirstMatch(project, id);
        var byName := FindBuildByName(project, id);
        if byName.Ok? then byName else ProvideBuildByNumber(project, id)
    }
  }

  /** The named provider fails only when neither the display name nor the
      build number finds a build, and the number is used only when no build
      carries the name. */
  lemma NamedProviderFallsBack(project: Project, id: string)
    ensures NamedBuildExternalBuildProvider.ProvideBuild(project, id).Err?
        <==> (forall i :: 0 <= i < |project.builds| ==> !NameMatches(id, project.builds[i]))
             && id !in project.numbered
    ensures (forall i :: 0 <= i < |project.builds| ==> !NameMatches(id, project.builds[i])) ==>
              (NamedBuildExternalBuildProvider.ProvideBuild(project, id)
               == BuildNumberExternalBuildProvider.ProvideBuild(project, id))
  {
    FindBuildByNameIsFirstMatch(project, id);
  }

  /** A display name wins over a build number: when some build carries the
      name `id`, the named provider returns the earliest such build, whatever
      build is numbered `id`. */
  lemma NameTakesPrecedence(project: Project, id: string, i: nat)
    requires i < |project.builds| && NameMatches(id, project.builds[i])
    requires forall j :: 0 <= j < i ==> !NameMatches(id, project.builds[j])
    ensures NamedBuildExternalBuildProvider.ProvideBuild(project, id) == Ok(project.builds[i].value)
  {
    FindBuildByNameIsFirstMatch(project, id);
  }

  /** A display name wins over a build number: a build named "1" is returned
      for the id "1" even though build number 1 is a different build. */
  lemma NameTakesPrecedenceExample()
    ensures var named := Build(7, Some("1"), None, 0);
            var first := Build(1, Some("#1"), None, 0);
            var project := Project("p", [None, Some(named), Some(first)], map["1" := first, "7" := named]);
            NamedBuildExternalBuildProvider.ProvideBuild(project, "1") == Ok(named)
            && BuildNumberExternalBuildProvider.ProvideBuild(project, "1") == Ok(first)
  {
    var named := Build(7, Some("1"), None, 0);
    var first := Build(1, Some("#1"), None, 0);
    var project := Project("p", [None, Some(named), Some(first)], map["1" := first, "7" := named]);
    assert !NameMatches("1", project.builds[0]) && NameMatches("1", project.builds[1]);
    FindBuildByNameIsFirstMatch(project, "1");
  }
}
