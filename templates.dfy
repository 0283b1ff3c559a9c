/** `EnvContributingVarsImporter`: variable-name templates with exactly one
    `%s`, and the deferred contribution that writes the other build's
    variables under their templated names. */
module Templates {
  import opened Outcomes
  import opened Jenkins

  /** The two characters `%s` start at index `k` of `t`. */
  predicate MarkerAt(t: string, k: int) {
    0 <= k && k + 1 < |t| && t[k] == '%' && t[k + 1] == 's'
  }

  /** The number of matches of the pattern `(%s)` that a regular-expression
      matcher finds scanning `t` from left to right. */
  function Occurrences(t: string): nat
    decreases |t|
  {
    if |t| < 2 then 0
    else if MarkerAt(t, 0) then 1 + Occurrences(t[2..])
    else Occurrences(t[1..])
  }

  /** A template is valid when it holds one, and only one, `%s`. */
  predicate ValidTemplate(t: string) {
    Occurrences(t) == 1
  }

  /** `Matcher.find()` from position `from`: the first match at or after it. */
  function Find(t: string, from: nat): (r: Option<nat>)
    ensures r.Some? ==> from <= r.value && MarkerAt(t, r.value)
    ensures r.Some? ==> forall j :: from <= j < r.value ==> !MarkerAt(t, j)
    ensures r.None? ==> forall j :: from <= j ==> !MarkerAt(t, j)
    decreases |t| - from
  {
    if from + 1 >= |t| then None
    else if MarkerAt(t, from) then Some(from)
    else Find(t, from + 1)
  }

  /** Skipping a stretch without a match leaves the count unchanged. */
  lemma {:induction false} OccurrencesSkip(t: string, from: nat, k: nat)
    requires from <= k <= |t|
    requires forall j :: from <= j < k ==> !MarkerAt(t, j)
    ensures Occurrences(t[from..]) == Occurrences(t[k..])
    decreases k - from
  {
    if from < k {
      var s := t[from..];
      if |s| >= 2 {
        assert !MarkerAt(t, from);
        assert !MarkerAt(s, 0);
        assert s[1..] == t[from + 1..];
      } else {
        assert |t[k..]| < 2;
      }
      OccurrencesSkip(t, from + 1, k);
    }
  }

  /** A match at `k` adds one to the count of what follows it. */
  lemma OccurrencesAtMarker(t: string, k: nat)
    requires MarkerAt(t, k)
    ensures Occurrences(t[k..]) == 1 + Occurrences(t[k + 2..])
  {
    var s := t[k..];
    assert MarkerAt(s, 0);
    assert s[2..] == t[k + 2..];
  }

  /** `isVarNameTemplateValid`: counts matches with `Matcher.find()` and
      gives up as soon as a third one turns up. */
  method IsVarNameTemplateValid(t: string) returns (valid: bool)
    ensures valid <==> ValidTemplate(t)
  {
    var from := 0;
    var count := 0;
    assert t[0..] == t;
    while true
      invariant 0 <= from <= |t|
      invariant count <= 2
      invariant count + Occurrences(t[from..]) == Occurrences(t)
      decreases |t| - from
    {
      var found := Find(t, from);
      if found.None? {
        OccurrencesSkip(t, from, |t|);
        break;
      }
      var k := found.value;
      OccurrencesSkip(t, from, k);
      OccurrencesAtMarker(t, k);
      if count > 1 {
        return false;
      }
      count := count + 1;
      from := k + 2;
    }
    return count == 1;
  }

  /** Markers of a suffix are the markers of the whole, shifted. */
  lemma MarkerShift(t: string, d: nat)
    requires d <= |t|
    ensures forall j :: 0 <= j ==> (MarkerAt(t[d..], j) <==> MarkerAt(t, j + d))
    ensures forall j :: d <= j ==> (MarkerAt(t, j) <==> MarkerAt(t[d..], j - d))
  {
  }

  /** No `%s` is counted exactly when `t` holds no `%s` at all. */
  lemma {:induction false} NoOccurrenceIffNoMarker(t: string)
    ensures Occurrences(t) == 0 <==> forall k :: !MarkerAt(t, k)
    decreases |t|
  {
    if |t| >= 2 && !MarkerAt(t, 0) {
      NoOccurrenceIffNoMarker(t[1..]);
      MarkerShift(t, 1);
      if Occurrences(t) == 0 {
        forall k ensures !MarkerAt(t, k) {
          if k >= 1 {
            assert !MarkerAt(t[1..], k - 1);
          }
        }
      }
    }
  }

  /** `t` holds a `%s` at `k` and nowhere else. */
  ghost predicate UniqueMarker(t: string, k: int) {
    MarkerAt(t, k) && forall j :: MarkerAt(t, j) ==> j == k
  }

  /** A template is valid exactly when it has one `%s` position and no other:
      the count of the matcher agrees with counting positions. */
  lemma {:induction false} ValidIffUniqueMarker(t: string)
    ensures ValidTemplate(t) <==> exists k :: UniqueMarker(t, k)
    decreases |t|
  {
    if |t| < 2 {
      assert forall k :: !MarkerAt(t, k);
    } else if MarkerAt(t, 0) {
      var rest := t[2..];
      NoOccurrenceIffNoMarker(rest);
      MarkerShift(t, 2);
      assert !MarkerAt(t, 1);
      if ValidTemplate(t) {
        assert UniqueMarker(t, 0);
      }
      if exists k :: UniqueMarker(t, k) {
        var k :| UniqueMarker(t, k);
        assert k == 0;
        assert forall j :: !MarkerAt(rest, j);
      }
    } else {
      var rest := t[1..];
      ValidIffUniqueMarker(rest);
      MarkerShift(t, 1);
      assert Occurrences(t) == Occurrences(rest);
      if exists k :: UniqueMarker(rest, k) {
        var k :| UniqueMarker(rest, k);
        assert MarkerAt(t, k + 1);
        forall j | MarkerAt(t, j) ensures j == k + 1 {
          assert j >= 1 && MarkerAt(rest, j - 1);
        }
        assert UniqueMarker(t, k + 1);
      }
      if exists k :: UniqueMarker(t, k) {
        var k :| UniqueMarker(t, k);
        assert k >= 1 && MarkerAt(rest, k - 1);
        forall j | MarkerAt(rest, j) ensures j == k - 1 {
          assert MarkerAt(t, j + 1);
        }
        assert UniqueMarker(rest, k - 1);
      }
    }
  }

  /** The index of the one `%s` of a valid template. */
  function MarkerIndex(t: string): (k: nat)
    requires ValidTemplate(t)
    ensures UniqueMarker(t, k)
  {
    NoOccurrenceIffNoMarker(t);
    ValidIffUniqueMarker(t);
    var found := Find(t, 0);
    assert found.Some?;
    found.value
  }

  /** Reads the key back out of a name written through the template, if the
      name has the template's shape. */
  function Unformat(t: string, name: string): (key: Option<string>)
    requires ValidTemplate(t)
  {
    var k := MarkerIndex(t);
    var tail := |t| - k - 2;
    if |name| >= k + tail && name[..k] == t[..k] && name[|name| - tail..] == t[k + 2..]
    then Some(name[k..|name| - tail])
    else None
  }

  /** `String.format(t, key)` for a valid template: the one `%s` replaced by
      the key, so that the key can be read back from the name. */
  function Format(t: string, key: string): (name: string)
    requires ValidTemplate(t)
    ensures Unformat(t, name) == Some(key)
  {
    var k := MarkerIndex(t);
    var name := t[..k] + key + t[k + 2..];
    assert name[..k] == t[..k];
    assert name[|name| - (|t| - k - 2)..] == t[k + 2..];
    assert name[k..|name| - (|t| - k - 2)] == key;
    name
  }

  /** Reading back is inverse to formatting: every name that yields a key is
      that key's name. */
  lemma UnformatRoundTrip(t: string, name: string)
    requires ValidTemplate(t)
    ensures Unformat(t, name).Some? ==> Format(t, Unformat(t, name).value) == name
  {
    if Unformat(t, name).Some? {
      var k := MarkerIndex(t);
      var tail := |t| - k - 2;
      assert name == name[..k] + name[k..|name| - tail] + name[|name| - tail..];
    }
  }

  /** Distinct variables never share a templated name. */
  lemma FormatInjective(t: string, a: string, b: string)
    requires ValidTemplate(t)
    ensures Format(t, a) == Format(t, b) <==> a == b
  {
  }

  /** The names under which a contribution writes the captured variables. */
  function ContributedNames(captured: map<string, string>, t: string): set<string>
    requires ValidTemplate(t)
  {
    set k | k in captured :: Format(t, k)
  }

  /** The environment after the contribution: the old variables and the
      templated names of the captured ones. */
  function Contribute(env: map<string, string>, captured: map<string, string>, t: string): (r: map<string, string>)
    requires ValidTemplate(t)
    ensures r.Keys == env.Keys + ContributedNames(captured, t)
  {
    var names := ContributedNames(captured, t);
    forall n | n in names ensures Unformat(t, n).Some? && Unformat(t, n).value in captured {
      var k :| k in captured && n == Format(t, k);
    }
    map n | n in env.Keys + names ::
      if n in names then captured[Unformat(t, n).value] else env[n]
  }

  /** What the contribution writes: each captured key `k` as `Format(t, k)`
      with its value; nothing removed; every other entry kept. */
  lemma ContributeMeaning(env: map<string, string>, captured: map<string, string>, t: string)
    requires ValidTemplate(t)
    ensures var r := Contribute(env, captured, t);
            (forall k :: k in captured ==> Format(t, k) in r && r[Format(t, k)] == captured[k])
            && (forall n :: n in env ==> n in r)
            && (forall n :: n in r && n !in ContributedNames(captured, t) ==> n in env && r[n] == env[n])
  {
  }

  /** The captured variables restricted to the keys in `keys`. */
  function Restrict(captured: map<string, string>, keys: set<string>): map<string, string> {
    map k | k in captured && k in keys :: captured[k]
  }

  /** The contract of `Contribute` determines it: any map meeting it is the
      contribution. */
  lemma ContributeCharacterized(env: map<string, string>, captured: map<string, string>, t: string, r: map<string, string>)
    requires ValidTemplate(t)
    requires r.Keys == env.Keys + ContributedNames(captured, t)
    requires forall k :: k in captured ==> r[Format(t, k)] == captured[k]
    requires forall n :: n in r && n !in ContributedNames(captured, t) ==> r[n] == env[n]
    ensures r == Contribute(env, captured, t)
  {
    var c := Contribute(env, captured, t);
    ContributeMeaning(env, captured, t);
    forall n | n in r ensures r[n] == c[n] {
      if n in ContributedNames(captured, t) {
        var k :| k in captured && n == Format(t, k);
      }
    }
  }

  /** Restricting to one more key adds exactly that key's name. */
  lemma NamesStep(captured: map<string, string>, t: string, done: set<string>, key: string)
    requires ValidTemplate(t)
    requires key in captured
    ensures ContributedNames(Restrict(captured, done + {key}), t)
         == ContributedNames(Restrict(captured, done), t) + {Format(t, key)}
  {
    var small := Restrict(captured, done);
    var large := Restrict(captured, done + {key});
    forall n | n in ContributedNames(large, t)
      ensures n in ContributedNames(small, t) + {Format(t, key)}
    {
      var k :| k in large && n == Format(t, k);
      if k != key {
        assert k in small;
      }
    }
    forall n | n in ContributedNames(small, t)
      ensures n in ContributedNames(large, t)
    {
      var k :| k in small && n == Format(t, k);
      assert k in large;
    }
    assert Format(t, key) in ContributedNames(large, t);
    assert ContributedNames(large, t) == ContributedNames(small, t) + {Format(t, key)};
  }

  /** Contributing one more key is one more `put`. */
  lemma ContributeStep(env: map<string, string>, captured: map<string, string>, t: string, done: set<string>, key: string)
    requires ValidTemplate(t)
    requires key in captured && key !in done
    ensures Contribute(env, Restrict(captured, done + {key}), t)
         == Contribute(env, Restrict(captured, done), t)[Format(t, key) := captured[key]]
  {
    var small := Restrict(captured, done);
    var large := Restrict(captured, done + {key});
    var before := Contribute(env, small, t);
    ContributeMeaning(env, small, t);
    var expected := before[Format(t, key) := captured[key]];
    assert large.Keys == small.Keys + {key};
    NamesStep(captured, t, done, key);
    forall k | k in large ensures expected[Format(t, k)] == large[k] {
      if k != key {
        assert k in small;
        FormatInjective(t, k, key);
      }
    }
    ContributeCharacterized(env, large, t, expected);
  }

  /** The templated names are as many as the captured variables. */
  lemma {:induction false} ContributedNamesCount(captured: map<string, string>, t: string)
    requires ValidTemplate(t)
    ensures |ContributedNames(captured, t)| == |captured|
    decreases |captured|
  {
    if captured != map[] {
        var key :| key in captured;
      var rest := map k | k in captured && k != key :: captured[k];
      assert rest.Keys == captured.Keys - {key};
      ContributedNamesCount(rest, t);
      assert ContributedNames(captured, t) == ContributedNames(rest, t) + {Format(t, key)};
      assert Format(t, key) !in ContributedNames(rest, t);
    }
  }

  /** The contribution adds at most one variable per captured key, and exactly
      one per key when none of the templated names was set before. */
  lemma ContributeSize(env: map<string, string>, captured: map<string, string>, t: string)
    requires ValidTemplate(t)
    ensures |env| <= |Contribute(env, captured, t)| <= |env| + |captured|
    ensures ContributedNames(captured, t) !! env.Keys ==> |Contribute(env, captured, t)| == |env| + |captured|
  {
    ContributedNamesCount(captured, t);
    var names := ContributedNames(captured, t);
    assert |env.Keys + names| == |env.Keys - names| + |names - env.Keys| + |env.Keys * names|;
    assert |env.Keys| == |env.Keys - names| + |env.Keys * names|;
    assert |env.Keys + names| + |env.Keys * names| == |env.Keys| + |names|;
  }

  /** The error `new EnvContributingVarsImporter(t)` throws for a bad template. */
  datatype IllegalArgumentException = IllegalArgumentException(message: string)

  /** An importer: holds its template, and imports by adding a
      `ContributingAction` to the target build. */
  datatype VarsImporter = EnvContributingVarsImporter(varNameTemplate: string) {

    /** `importVars`: one `replaceAction` on the target build with an action
        capturing the given variables; no environment map is written. */
    method ImportVars(targetBuild: Run, otherBuildEnvVars: map<string, string>)
      modifies targetBuild`actions
      ensures targetBuild.actions
           == Replaced(old(targetBuild.actions), ContributingAction(otherBuildEnvVars, varNameTemplate))
      ensures forall a :: a in targetBuild.actions && a.ContributingAction? ==>
                a == ContributingAction(otherBuildEnvVars, varNameTemplate)
    {
      targetBuild.ReplaceAction(ContributingAction(otherBuildEnvVars, varNameTemplate));
    }
  }

  /** The importers that can exist: the only way to obtain one is the
      validating constructor, so every importer's template holds exactly one
      `%s`, and so does every action it installs. */
  type ValidImporter = i: VarsImporter | ValidTemplate(i.varNameTemplate)
    witness EnvContributingVarsImporter("%s")

  /** The constructor: fails fast on an invalid template, otherwise keeps the
      template as given. */
  method NewEnvContributingVarsImporter(varNameTemplate: string)
    returns (r: Result<ValidImporter, IllegalArgumentException>)
    ensures r.Ok? <==> ValidTemplate(varNameTemplate)
    ensures r.Ok? ==> r.value.varNameTemplate == varNameTemplate
    ensures r.Err? ==> r.error.message == "Var name template " + varNameTemplate + " is invalid"
  {
    var valid := IsVarNameTemplateValid(varNameTemplate);
    if !valid {
      return Err(IllegalArgumentException("Var name template " + varNameTemplate + " is invalid"));
    }
    return Ok(EnvContributingVarsImporter(varNameTemplate));
  }

  /** `ContributingAction.buildEnvVars(build, env)`: puts every captured
      variable into `env` under its templated name, in whatever order the
      captured map yields its keys. The build argument is not used. */
  method BuildEnvVars(action: RunAction, build: Run?, env: EnvVars)
    requires action.ContributingAction? && ValidTemplate(action.varNameTemplate)
    modifies env
    ensures env.vars == Contribute(old(env.vars), action.otherBuildEnvVars, action.varNameTemplate)
  {
    var t := action.varNameTemplate;
    var captured := action.otherBuildEnvVars;
    var remaining := captured.Keys;
    ghost var done: set<string> := {};
    assert Restrict(captured, done) == map[];
    while remaining != {}
      invariant remaining + done == captured.Keys && remaining !! done
      invariant env.vars == Contribute(old(env.vars), Restrict(captured, done), t)
      decreases |remaining|
    {
      var key :| key in remaining;
      ContributeStep(old(env.vars), captured, t, done, key);
      env.Put(Format(t, key), captured[key]);
      remaining := remaining - {key};
      done := done + {key};
    }
    assert Restrict(captured, done) == captured;
  }

  /** The worked case of a template `NS_%s` applied to `{FOO: bar}` on an
      empty environment. */
  lemma ContributeExample()
    ensures ValidTemplate("NS_%s")
    ensures Format("NS_%s", "FOO") == "NS_FOO"
    ensures Contribute(map[], map["FOO" := "bar"], "NS_%s") == map["NS_FOO" := "bar"]
  {
    var t := "NS_%s";
    assert t[1..] == "S_%s" && t[1..][1..] == "_%s" && t[1..][1..][1..] == "%s";
    assert "%s"[2..] == [];
    assert Occurrences(t) == 1;
    assert MarkerAt(t, 3);
    assert MarkerIndex(t) == 3;
    assert Format(t, "FOO") == "NS_FOO";
    var captured := map["FOO" := "bar"];
    assert ContributedNames(captured, t) == {"NS_FOO"};
    ContributeCharacterized(map[], captured, t, map["NS_FOO" := "bar"]);
  }
}
