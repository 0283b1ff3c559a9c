/** The parts of the Jenkins host that the plugin touches, reduced to values
    (builds, projects, registry answers) and to the two objects the plugin
    changes in place: an environment-variable map and the running build. */
module Jenkins {
  import opened Outcomes
  import Sequences

  /** `hudson.model.Result`: the five outcomes a finished build can have. */
  datatype BuildResult = Success | Failure | Unstable | Aborted | NotBuilt {
    /** `Result.toString()`: the constant's name. */
    function ToString(): string {
      match this
      case Success => "SUCCESS"
      case Failure => "FAILURE"
      case Unstable => "UNSTABLE"
      case Aborted => "ABORTED"
      case NotBuilt => "NOT_BUILT"
    }
  }

  /** A past build as the plugin reads it: number, display name (may be
      null), result (null while running) and start time in milliseconds. */
  datatype Build = Build(
    number: int,
    displayName: Option<string>,
    result: Option<BuildResult>,
    timestamp: int)

  /** A project: its name, its build history as `getBuilds()` lists it (an
      entry may be null) and what `getBuild(id)` answers for each id it knows. */
  datatype Project = Project(
    name: string,
    builds: seq<Option<Build>>,
    numbered: map<string, Build>)
  {
    /** `AbstractProject.getBuild(id)`: null for an unknown id. */
    function GetBuild(id: string): Option<Build> {
      if id in numbered then Some(numbered[id]) else None
    }
  }

  /** The exceptions the reflective call to the Jenkins singleton can raise. */
  datatype ReflectiveFailure =
    | NoSuchMethod
    | Security
    | IllegalAccess
    | IllegalArgument
    | InvocationTarget

  /** What `Jenkins.getActiveInstance().getItemByFullName(name)`, reached by
      reflection, does for one name: finds a project, answers null, or throws. */
  datatype ItemLookup = Found(project: Project) | Null | Threw(cause: ReflectiveFailure)

  /** The failures of `AbstractBuild.getEnvironment(listener)`. */
  datatype EnvironmentFailure = IOException(message: string) | InterruptedException

  /** A task listener: the do-nothing `TaskListener.NULL` or a live one. */
  datatype TaskListener = NullListener | Listener(id: nat)

  /** `hudson.EnvVars`: a string-to-string map changed in place. */
  class EnvVars {
    var vars: map<string, string>

    constructor (initial: map<string, string>)
      ensures vars == initial
    {
      vars := initial;
    }

    /** `Map.put`: one entry written, every other entry left as it was. */
    method Put(key: string, value: string)
      modifies this
      ensures vars == old(vars)[key := value]
    {
      vars := vars[key := value];
    }
  }

  /** The actions a running build carries. `ContributingAction` is the inner
      class of `EnvContributingVarsImporter`: it holds the variables of the
      other build and the importer's name template. */
  datatype RunAction =
    | ContributingAction(otherBuildEnvVars: map<string, string>, varNameTemplate: string)
    | OtherAction(className: string)
  {
    predicate SameClass(other: RunAction) {
      (ContributingAction? && other.ContributingAction?)
      || (OtherAction? && other.OtherAction? && className == other.className)
    }
  }

  /** `Actionable.replaceAction(a)`: every action of the same class as `a` is
      removed and `a` is added at the end; the actions of other classes stay,
      in their order and with their multiplicity. */
  function Replaced(actions: seq<RunAction>, a: RunAction): (r: seq<RunAction>)
    ensures |r| > 0 && r[|r| - 1] == a
    ensures forall x :: x in r && x != a ==> x in actions && !x.SameClass(a)
    ensures forall i :: 0 <= i < |r| - 1 ==> !r[i].SameClass(a)
    ensures Sequences.IsSubsequence(r[..|r| - 1], actions)
    ensures forall x :: x in actions && !x.SameClass(a) ==> multiset(r)[x] == multiset(actions)[x]
  {
    var p := (x: RunAction) => !x.SameClass(a);
    var kept := Sequences.Filter(actions, p);
    forall x | x in kept ensures x in actions && !x.SameClass(a) {
      Sequences.FilterMembership(actions, p, x);
    }
    Sequences.FilterIsSubsequence(actions, p);
    assert (kept + [a])[..|kept|] == kept;
    forall x | x in actions && !x.SameClass(a) ensures multiset(kept + [a])[x] == multiset(actions)[x] {
      Sequences.FilterCounts(actions, p, x);
      assert x != a by { assert a.SameClass(a); }
      assert multiset(kept + [a]) == multiset(kept) + multiset{a};
    }
    kept + [a]
  }

  /** The build that is running: its actions and its result so far. */
  class Run {
    var actions: seq<RunAction>
    var result: Option<BuildResult>

    constructor (actions: seq<RunAction>)
      ensures this.actions == actions && result == None
    {
      this.actions := actions;
      result := None;
    }

    method ReplaceAction(a: RunAction)
      modifies this`actions
      ensures actions == Replaced(old(actions), a)
    {
      actions := Replaced(actions, a);
    }

    method SetResult(r: BuildResult)
      modifies this`result
      ensures result == Some(r)
    {
      result := Some(r);
    }
  }
}
