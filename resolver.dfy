/**
 * Choosing the dataframe framework (`_dataframe_framework` in pybabynames/__init__.py).
 *
 * The environment is made explicit: the value of `DATAFRAME_FRAMEWORK` is an
 * `Option<string>` (None when the variable is unset) and the availability map
 * `FRAMEWORK_AVAILABLE` is a function from framework to bool. Warnings are
 * recorded, in the order they are emitted, as a list of warning kinds.
 */
module FrameworkResolver {
  import opened Outcomes

  /** The closed set of supported dataframe libraries. */
  datatype Framework = Pandas | Polars

  /** `VALID_FRAMEWORKS`, in its declaration order: pandas first. */
  const ValidFrameworks: seq<Framework> := [Pandas, Polars]

  /** `DEFAULT_DATAFRAME_FRAMEWORK`. */
  const Default: Framework := Polars

  /** The name under which each framework is configured and imported. */
  function Name(f: Framework): string
  {
    match f
    case Pandas => "pandas"
    case Polars => "polars"
  }

  /** The non-fatal warnings emitted while importing the package. */
  datatype Warning =
    | InvalidFramework(requested: string)                  // :35, the lower-cased value that was not recognised
    | FrameworkSwitched(preferred: Framework, alternative: Framework)  // :43
    | LibraryUnavailable                                   // :80, an ImportError while loading
    | LoadFailed                                           // :83, any other failure while loading

  /** `_dataframe_framework` raises ImportError when nothing is installed (:46). */
  datatype ResolveError = NoFrameworkInstalled

  /** What resolution returns (or raises) together with the warnings it emitted. */
  datatype Resolution = Resolution(result: Result<Framework, ResolveError>, warnings: seq<Warning>)

  /** Lower-case one ASCII letter; every other character is left alone. */
  function AsciiLower(c: char): (r: char)
    ensures !('A' <= r <= 'Z')
    ensures 'A' <= c <= 'Z' ==> r as int == c as int + ('a' as int - 'A' as int)
    ensures !('A' <= c <= 'Z') ==> r == c
  {
    if 'A' <= c <= 'Z' then (c as int - 'A' as int + 'a' as int) as char else c
  }

  /** `str.lower()`, restricted to ASCII letters. */
  function Lower(s: string): (r: string)
    ensures |r| == |s|
    ensures forall i :: 0 <= i < |s| ==> r[i] == AsciiLower(s[i])
  {
    if s == [] then [] else [AsciiLower(s[0])] + Lower(s[1..])
  }

  /** Lower-casing leaves a string without upper-case ASCII letters as it is. */
  lemma {:induction false} LowerKeepsLowercase(s: string)
    requires forall i :: 0 <= i < |s| ==> !('A' <= s[i] <= 'Z')
    ensures Lower(s) == s
  {
    if s != [] {
      assert !('A' <= s[0] <= 'Z');
      LowerKeepsLowercase(s[1..]);
    }
  }

  /** Two strings that are equal once ASCII letters are lower-cased. */
  ghost predicate EqualIgnoringCase(a: string, b: string)
  {
    |a| == |b| && forall i :: 0 <= i < |a| ==> AsciiLower(a[i]) == AsciiLower(b[i])
  }

  /** The framework called `s`, if `s` is one of `VALID_FRAMEWORKS` (the test at :34). */
  function FromName(s: string): (r: Option<Framework>)
    ensures forall f :: r == Some(f) <==> Name(f) == s
    ensures r.None? <==> forall f :: f in ValidFrameworks ==> Name(f) != s
  {
    if s == Name(Pandas) then Some(Pandas)
    else if s == Name(Polars) then Some(Polars)
    else None
  }

  /** The lower-cased configured value, or the default name when the variable is unset (:32). */
  function Requested(config: Option<string>): (r: string)
    ensures config.None? ==> r == Name(Default)
    ensures config.Some? ==> r == Lower(config.value)
    ensures forall i :: 0 <= i < |r| ==> !('A' <= r[i] <= 'Z')
  {
    LowerKeepsLowercase(Name(Default));
    Lower(config.GetOr(Name(Default)))
  }

  /** The framework asked for once an unrecognised value is replaced by the default (:34-36). */
  function Preferred(config: Option<string>): (r: Framework)
    ensures Name(r) == Requested(config) || (FromName(Requested(config)).None? && r == Default)
    ensures config.None? ==> r == Default
  {
    FromName(Requested(config)).GetOr(Default)
  }

  /** The warning emitted while reading the configuration: one when it is not recognised (:35). */
  function ConfigWarnings(config: Option<string>): (r: seq<Warning>)
    ensures r == [] <==> FromName(Requested(config)).Some?
    ensures r != [] ==> r == [InvalidFramework(Requested(config))]
  {
    if FromName(Requested(config)).None? then [InvalidFramework(Requested(config))] else []
  }

  /** `f` occurs in `order` and every framework before it is unavailable. */
  ghost predicate IsFirstAvailable(f: Framework, order: seq<Framework>, available: Framework -> bool)
  {
    available(f) &&
    exists k :: 0 <= k < |order| && order[k] == f && forall j :: 0 <= j < k ==> !available(order[j])
  }

  /** `next((f for f in order if available[f]), None)` (:41). */
  function FirstAvailable(order: seq<Framework>, available: Framework -> bool): (r: Option<Framework>)
    ensures r.None? <==> forall f :: f in order ==> !available(f)
    ensures r.Some? ==> IsFirstAvailable(r.value, order, available)
  {
    if order == [] then None
    else if available(order[0]) then
      assert order[0] == order[0];  // k == 0 witnesses IsFirstAvailable
      Some(order[0])
    else
      var r := FirstAvailable(order[1..], available);
      assert forall f :: f in order ==> f == order[0] || f in order[1..];
      if r.Some? then
        var k :| 0 <= k < |order[1..]| && order[1..][k] == r.value
                 && forall j :: 0 <= j < k ==> !available(order[1..][j]);
        assert order[k + 1] == r.value && forall j :: 0 <= j < k + 1 ==> !available(order[j]);
        r
      else r
  }

  /**
   * The second half of `_dataframe_framework()` (:38-46): the preferred framework
   * when it is available, else the first available one in declaration order with a
   * "switching" warning, else failure.
   */
  function Choose(preferred: Framework, available: Framework -> bool): (r: Resolution)
    ensures r.result.Ok? ==> r.result.value in ValidFrameworks && available(r.result.value)
    ensures r.result.Err? <==> forall f :: f in ValidFrameworks ==> !available(f)
    ensures available(preferred) ==> r == Resolution(Ok(preferred), [])
    ensures !available(preferred) && r.result.Ok? ==>
      r.result.value != preferred && r.warnings == [FrameworkSwitched(preferred, r.result.value)]
    ensures r.result.Err? ==> r.warnings == []
  {
    if available(preferred) then
      assert preferred == ValidFrameworks[if preferred == Pandas then 0 else 1];
      Resolution(Ok(preferred), [])
    else
      match FirstAvailable(ValidFrameworks, available)
      case Some(alternative) =>
        Resolution(Ok(alternative), [FrameworkSwitched(preferred, alternative)])
      case None =>
        Resolution(Err(NoFrameworkInstalled), [])
  }

  /**
   * `_dataframe_framework()` (:22-46): lower-case the configured name, replace an
   * unrecognised one by the default with a warning, then choose among the
   * installed frameworks.
   */
  function Resolve(config: Option<string>, available: Framework -> bool): (r: Resolution)
    ensures r.result.Ok? ==> r.result.value in ValidFrameworks && available(r.result.value)
    ensures r.result.Err? <==> forall f :: f in ValidFrameworks ==> !available(f)
    ensures r.result.Ok? && r.result.value != Preferred(config) ==> !available(Preferred(config))
    ensures |r.warnings| <= 2
  {
    var chosen := Choose(Preferred(config), available);
    Resolution(chosen.result, ConfigWarnings(config) + chosen.warnings)
  }

  /** A recognised configured value whose framework is installed is used as it is, silently (:32-39). */
  lemma PreferredAvailableIsChosen(config: string, f: Framework, available: Framework -> bool)
    requires Lower(config) == Name(f) && available(f)
    ensures Resolve(Some(config), available) == Resolution(Ok(f), [])
  {
    assert FromName(Requested(Some(config))) == Some(f);
  }

  /** Strings equal up to ASCII letter case have the same lower-case form. */
  lemma {:induction false} LowerIgnoresCase(a: string, b: string)
    requires EqualIgnoringCase(a, b)
    ensures Lower(a) == Lower(b)
  {
    if a != [] {
      assert EqualIgnoringCase(a[1..], b[1..]) by {
        forall i | 0 <= i < |a| - 1 ensures AsciiLower(a[1..][i]) == AsciiLower(b[1..][i]) {
          assert AsciiLower(a[i + 1]) == AsciiLower(b[i + 1]);
        }
      }
      LowerIgnoresCase(a[1..], b[1..]);
      assert AsciiLower(a[0]) == AsciiLower(b[0]);
    }
  }

  /** Resolution ignores the ASCII letter case of the configured value (:32). */
  lemma {:induction false} ResolveIgnoresCase(a: string, b: string, available: Framework -> bool)
    requires EqualIgnoringCase(a, b)
    ensures Resolve(Some(a), available) == Resolve(Some(b), available)
  {
    LowerIgnoresCase(a, b);
  }

  /** With the variable unset, the default is preferred and nothing is reported about the configuration. */
  lemma UnsetPrefersDefault()
    ensures Requested(None) == Name(Default)
    ensures Preferred(None) == Default && ConfigWarnings(None) == []
  {
    assert FromName(Name(Default)) == Some(Default);
  }

  /** A mixed-case setting naming an installed framework selects it silently: `PaNdAs` is `pandas`. */
  lemma MixedCaseSelects(available: Framework -> bool)
    requires available(Pandas)
    ensures Resolve(Some("PaNdAs"), available) == Resolution(Ok(Pandas), [])
  {
    assert Lower("PaNdAs") == "pandas";
    PreferredAvailableIsChosen("PaNdAs", Pandas, available);
  }

  /** An unset variable behaves exactly like configuring the default name (:14, :32). */
  lemma UnsetIsDefault(available: Framework -> bool)
    ensures Resolve(None, available) == Resolve(Some(Name(Default)), available)
    ensures Resolve(None, available).warnings == [] || Resolve(None, available).warnings == [FrameworkSwitched(Default, Pandas)]
  {
    UnsetPrefersDefault();
  }

  /** An unrecognised value is replaced by the default and reported once (:34-36). */
  lemma InvalidPrefersDefault(config: string)
    requires Lower(config) !in [Name(Pandas), Name(Polars)]
    ensures Preferred(Some(config)) == Default
    ensures ConfigWarnings(Some(config)) == [InvalidFramework(Lower(config))]
  {
    assert FromName(Requested(Some(config))) == None;
  }

  /**
   * An unrecognised value emits one "invalid" warning and then resolves exactly as
   * the default would (:34-36).
   */
  lemma InvalidIsDefault(config: string, available: Framework -> bool)
    requires Lower(config) !in [Name(Pandas), Name(Polars)]
    ensures Resolve(Some(config), available).result == Resolve(None, available).result
    ensures Resolve(Some(config), available).warnings
         == [InvalidFramework(Lower(config))] + Resolve(None, available).warnings
  {
    InvalidPrefersDefault(config);
    UnsetPrefersDefault();
    var chosen := Choose(Default, available);
    assert Resolve(None, available) == Resolution(chosen.result, chosen.warnings);
    assert Resolve(Some(config), available)
        == Resolution(chosen.result, [InvalidFramework(Lower(config))] + chosen.warnings);
  }

  /**
   * When the preferred framework is missing but some framework is installed, the
   * result is the first installed one in the order pandas, polars, announced by a
   * single "switching" warning (:11, :41-44).
   */
  lemma FallbackIsFirstAvailable(config: Option<string>, available: Framework -> bool)
    requires !available(Preferred(config))
    requires available(Pandas) || available(Polars)
    ensures var r := Resolve(config, available);
      && r.result.Ok?
      && r.result.value == (if available(Pandas) then Pandas else Polars)
      && r.result.value != Preferred(config)
      && r.warnings == ConfigWarnings(config) + [FrameworkSwitched(Preferred(config), r.result.value)]
  {
    var alt := FirstAvailable(ValidFrameworks, available);
    assert alt.Some? && IsFirstAvailable(alt.value, ValidFrameworks, available);
  }

  /**
   * With two frameworks, the fallback can only return the one other than the
   * missing preferred framework, so pandas wins whenever the preferred one is
   * missing and pandas is installed.
   */
  lemma FallbackPrefersPandas(config: Option<string>, available: Framework -> bool)
    requires !available(Preferred(config)) && available(Pandas)
    ensures Resolve(config, available).result == Ok(Pandas)
  {
    FallbackIsFirstAvailable(config, available);
  }
}
