/** The listing helpers behind the parameter's drop-downs: the result filter
    over a project's builds, the option label of a build, the option lists and
    the fixed list of build results. */
module BuildOptions {
  import opened Outcomes
  import opened Jenkins
  import Sequences

  /** One `ListBoxModel.Option`: the label shown and the value submitted. */
  datatype ListBoxOption = ListBoxOption(name: string, value: string)

  /** `hudson.util.ListBoxModel`: a list of options appended to in place. */
  class ListBoxModel {
    var options: seq<ListBoxOption>

    constructor ()
      ensures options == []
    {
      options := [];
    }

    /** `add(name, value)`. */
    method Add(name: string, value: string)
      modifies this
      ensures options == old(options) + [ListBoxOption(name, value)]
    {
      options := options + [ListBoxOption(name, value)];
    }

    /** `add(nameAndValue)`: the one string is both label and value. */
    method AddNameAsValue(nameAndValue: string)
      modifies this
      ensures options == old(options) + [ListBoxOption(nameAndValue, nameAndValue)]
    {
      options := options + [ListBoxOption(nameAndValue, nameAndValue)];
    }
  }

  /** The character of a single decimal digit. */
  function Digit(d: nat): (c: char)
    requires d < 10
    ensures '0' <= c <= '9' && c as int - '0' as int == d
  {
    ('0' as int + d) as char
  }

  /** The decimal digits of `n`, most significant first, without leading zeros. */
  function NatToDecimal(n: nat): (s: string)
    ensures |s| >= 1 && forall i :: 0 <= i < |s| ==> '0' <= s[i] <= '9'
    ensures |s| > 1 ==> s[0] != '0'
    decreases n
  {
    if n < 10 then [Digit(n)] else NatToDecimal(n / 10) + [Digit(n % 10)]
  }

  /** The number a string of decimal digits denotes. */
  function DecimalValue(s: string): nat
    requires forall i :: 0 <= i < |s| ==> '0' <= s[i] <= '9'
  {
    if |s| == 0 then 0 else DecimalValue(s[..|s| - 1]) * 10 + (s[|s| - 1] as int - '0' as int)
  }

  /** Reading the digits back gives the number. */
  lemma {:induction false} DecimalRoundTrip(n: nat)
    ensures DecimalValue(NatToDecimal(n)) == n
    decreases n
  {
    if n >= 10 {
      DecimalRoundTrip(n / 10);
      var s := NatToDecimal(n);
      assert s[..|s| - 1] == NatToDecimal(n / 10);
    }
  }

  /** `String.valueOf(int)`: a minus sign before the digits of a negative
      number. */
  function IntToString(n: int): (s: string)
  {
    if n < 0 then "-" + NatToDecimal(-n) else NatToDecimal(n)
  }

  /** A negative number's text starts with a minus sign, a non-negative
      number's with a digit. */
  lemma SignDiffers(negative: int, nonNegative: int)
    requires negative < 0 <= nonNegative
    ensures IntToString(negative) != IntToString(nonNegative)
  {
    var digits := NatToDecimal(nonNegative);
    assert IntToString(negative)[0] == '-';
    assert IntToString(nonNegative)[0] == digits[0];
  }

  /** Different natural numbers have different digits. */
  lemma NatToDecimalInjective(a: nat, b: nat)
    requires NatToDecimal(a) == NatToDecimal(b)
    ensures a == b
  {
    DecimalRoundTrip(a);
    DecimalRoundTrip(b);
  }

  /** Different build numbers never give the same option value. */
  lemma IntToStringInjective(a: int, b: int)
    ensures IntToString(a) == IntToString(b) <==> a == b
  {
    if a < 0 <= b {
      SignDiffers(a, b);
    } else if b < 0 <= a {
      SignDiffers(b, a);
    } else if IntToString(a) == IntToString(b) {
      if a < 0 {
        assert IntToString(a)[1..] == NatToDecimal(-a);
        assert IntToString(b)[1..] == NatToDecimal(-b);
        NatToDecimalInjective(-a, -b);
      } else {
        NatToDecimalInjective(a, b);
      }
    }
  }

  /** `filterBuilds`: with no result filter the builds as listed; otherwise
      those whose result is the filter's, in the order listed. */
  function FilterBuilds(runs: seq<Build>, result: Option<BuildResult>): (r: seq<Build>)
    ensures result.None? ==> r == runs
    ensures result.Some? ==> forall i :: 0 <= i < |r| ==> r[i].result == result
    ensures |r| <= |runs|
  {
    if result.None? then runs else Sequences.Filter(runs, (b: Build) => b.result == result)
  }

  /** The filter keeps order and drops nothing it should keep: the output is a
      subsequence of the input, holding every build with the wanted result
      exactly as often as the input does, and no other build. */
  lemma FilterBuildsExact(runs: seq<Build>, result: BuildResult, b: Build)
    ensures Sequences.IsSubsequence(FilterBuilds(runs, Some(result)), runs)
    ensures multiset(FilterBuilds(runs, Some(result)))[b]
         == if b.result == Some(result) then multiset(runs)[b] else 0
  {
    var p := (x: Build) => x.result == Some(result);
    Sequences.FilterIsSubsequence(runs, p);
    Sequences.FilterCounts(runs, p, b);
  }

  /** A filter that no build meets leaves nothing. */
  lemma FilterBuildsEmpty(runs: seq<Build>, result: BuildResult)
    ensures |FilterBuilds(runs, Some(result))| == 0
        <==> forall i :: 0 <= i < |runs| ==> runs[i].result != Some(result)
  {
    Sequences.FilterEmpty(runs, (x: Build) => x.result == Some(result));
  }

  /** `java.text.SimpleDateFormat`, known by its pattern. */
  datatype DateFormat = SimpleDateFormat(pattern: string)

  /** The date format of the formatters' no-argument constructors. */
  const DEFAULT_DATE_FORMAT: DateFormat := SimpleDateFormat("yyyy-MM-dd HH:mm:ss z")

  const NO_RESULT := "NO RESULT"

  /** The result part of a label: the result's name, or `NO RESULT`. */
  function ResultText(result: Option<BuildResult>): string {
    if result.Some? then result.value.ToString() else NO_RESULT
  }

  /** The label shows `NO RESULT` exactly for a build without a result, and
      different results are shown differently. */
  lemma ResultTextFaithful(a: Option<BuildResult>, b: Option<BuildResult>)
    ensures ResultText(a) == NO_RESULT <==> a.None?
    ensures ResultText(a) == ResultText(b) <==> a == b
  {
  }

  /** `String.format("%s", displayName)`: a null name prints as `null`. */
  function DisplayText(displayName: Option<string>): string {
    if displayName.Some? then displayName.value else "null"
  }

  /** `BuildOptionFormatter.DefaultImpl` and its twin
      `OtherProjectBuildOptionFormatter.DefaultImpl`: the same label from
      the same build and date format. */
  datatype BuildOptionFormatter = DefaultImpl(dateFormat: DateFormat) {

    /** `formatBuild`: `<display name> - <result or NO RESULT> (<date>)`,
        the date being what `render` makes of the build's timestamp with the
        formatter's date format. */
    function FormatBuild(build: Build, render: (DateFormat, int) -> string): string {
      DisplayText(build.displayName) + " - " + ResultText(build.result) + " (" + render(dateFormat, build.timestamp) + ")"
    }
  }

  /** A label splits back into its parts: the display name, the separator,
      the result text, and the date in parentheses. */
  lemma LabelParts(f: BuildOptionFormatter, build: Build, render: (DateFormat, int) -> string)
    ensures var text := f.FormatBuild(build, render);
            var name := DisplayText(build.displayName);
            var date := render(f.dateFormat, build.timestamp);
            |text| == |name| + 3 + |ResultText(build.result)| + 2 + |date| + 1
            && text[..|name|] == name
            && text[|name|..|name| + 3] == " - "
            && text[|name| + 3..|text| - |date| - 3] == ResultText(build.result)
            && text[|text| - |date| - 3..] == " (" + date + ")"
  {
  }

  /** The no-argument constructors. */
  function DefaultFormatter(): (f: BuildOptionFormatter)
    ensures f.dateFormat.pattern == "yyyy-MM-dd HH:mm:ss z"
  {
    DefaultImpl(DEFAULT_DATE_FORMAT)
  }

  /** Two builds with the same display name and the same date text get the
      same label only when their results agree: the label shows the result. */
  lemma LabelShowsResult(f: BuildOptionFormatter, a: Build, b: Build, render: (DateFormat, int) -> string)
    requires a.displayName == b.displayName
    requires render(f.dateFormat, a.timestamp) == render(f.dateFormat, b.timestamp)
    requires f.FormatBuild(a, render) == f.FormatBuild(b, render)
    ensures a.result == b.result
  {
    LabelParts(f, a, render);
    LabelParts(f, b, render);
    ResultTextFaithful(a.result, b.result);
  }

  /** The option a build gets: its label, and its number as the value. */
  function BuildOption(formatter: BuildOptionFormatter, render: (DateFormat, int) -> string, build: Build): ListBoxOption {
    ListBoxOption(formatter.FormatBuild(build, render), IntToString(build.number))
  }

  /** `ResultFilteringOtherProjectBuildOptionsProvider`: an optional result
      filter and a formatter. */
  datatype ResultFilteringOtherProjectBuildOptionsProvider =
    ResultFilteringOtherProjectBuildOptionsProvider(result: Option<BuildResult>, formatter: BuildOptionFormatter)

  /** The one-argument constructor: the default formatter. */
  function NewOptionsProvider(result: Option<BuildResult>): (p: ResultFilteringOtherProjectBuildOptionsProvider)
    ensures p.result == result && p.formatter.dateFormat == DEFAULT_DATE_FORMAT
  {
    ResultFilteringOtherProjectBuildOptionsProvider(result, DefaultFormatter())
  }

  /** The builds of a history in which no entry is null. */
  function Entries(builds: seq<Option<Build>>): (r: seq<Build>)
    requires forall i :: 0 <= i < |builds| ==> builds[i].Some?
    ensures |r| == |builds| && forall i :: 0 <= i < |r| ==> builds[i] == Some(r[i])
  {
    seq(|builds|, i requires 0 <= i < |builds| => builds[i].value)
  }

  /** `getOptionsForProject`: a fresh list with one option per build that
      passes the filter, in the filtered order, labelled by the formatter and
      valued by the build number. */
  method GetOptionsForProject(
    provider: ResultFilteringOtherProjectBuildOptionsProvider,
    project: Project,
    render: (DateFormat, int) -> string) returns (model: ListBoxModel)
    requires forall i :: 0 <= i < |project.builds| ==> project.builds[i].Some?
    ensures fresh(model)
    ensures var builds := FilterBuilds(Entries(project.builds), provider.result);
            |model.options| == |builds|
            && forall i :: 0 <= i < |builds| ==>
                 model.options[i] == BuildOption(provider.formatter, render, builds[i])
  {
    model := new ListBoxModel();
    var builds := FilterBuilds(Entries(project.builds), provider.result);
    if |builds| > 0 {
      for i := 0 to |builds|
        invariant |model.options| == i
        invariant forall j :: 0 <= j < i ==> model.options[j] == BuildOption(provider.formatter, render, builds[j])
      {
        var option := BuildOption(provider.formatter, render, builds[i]);
        model.Add(option.name, option.value);
      }
    }
  }

  /** The results offered for filtering, in the order offered. */
  const RESULTS: seq<BuildResult> := [Success, Failure, Unstable, Aborted, NotBuilt]

  /** Every result is offered, once. */
  lemma ResultsCoverEveryResult(r: BuildResult)
    ensures multiset(RESULTS)[r] == 1
  {
  }

  /** `ResultOptionsProvider.Impl.getBuildResultOptions`: a fresh list of
      the five results, each option's label and value both the result's name. */
  method GetBuildResultOptions() returns (model: ListBoxModel)
    ensures fresh(model)
    ensures |model.options| == |RESULTS|
    ensures forall i :: 0 <= i < |RESULTS| ==>
              model.options[i] == ListBoxOption(RESULTS[i].ToString(), RESULTS[i].ToString())
  {
    model := new ListBoxModel();
    for i := 0 to |RESULTS|
      invariant |model.options| == i
      invariant forall j :: 0 <= j < i ==>
                  model.options[j] == ListBoxOption(RESULTS[j].ToString(), RESULTS[j].ToString())
    {
      model.AddNameAsValue(RESULTS[i].ToString());
    }
  }
}
