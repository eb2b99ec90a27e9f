/**
 The declared options of the timestamp field, how the constructor reads them,
 the mutual-exclusivity check run over them, and how `deconstruct` keeps the
 one option the host framework does not know about.
 */
module TimestampOptions {
  import opened Wrappers

  /** A declared default: the null value, or any other value by its `str()` form. */
  datatype DefaultVal = NullDefault | Given(text: string)

  /**
   The timestamp field's options. `default` is `None` when no default was
   declared, which is distinct from a declared null default.
   */
  datatype Config = Config(
    autoNow: bool,
    autoNowAdd: bool,
    autoNowUpdate: bool,
    nullable: bool,
    default: Option<DefaultVal>)

  predicate HasDefault(c: Config) {
    c.default.Some?
  }

  // ---------------------------------------------------------------------
  // Construction
  // ---------------------------------------------------------------------

  /**
   A keyword argument value: a boolean, Python's `None`, or any other
   object by its `str()` form (a datetime, say), which is truthy.
   */
  datatype Arg = Flag(b: bool) | NoneArg | Value(text: string)

  predicate Truthy(a: Arg) {
    match a
    case Flag(b) => b
    case NoneArg => false
    case Value(_) => true
  }

  /** A boolean option: false when the keyword is absent. */
  predicate OptionSet(kwargs: map<string, Arg>, key: string) {
    key in kwargs && Truthy(kwargs[key])
  }

  function DefaultOf(a: Arg): DefaultVal {
    match a
    case NoneArg => NullDefault
    case Flag(b) => Given(if b then "True" else "False")
    case Value(t) => Given(t)
  }

  /**
   The field built from its keyword arguments. The timestamp field itself
   takes `auto_now_update` (false when absent) and hands the rest to the host
   framework, which reads `auto_now`, `auto_now_add`, `null` and `default`.
   */
  function Init(kwargs: map<string, Arg>): (c: Config)
    ensures c.autoNowUpdate <==> OptionSet(kwargs, "auto_now_update")
    ensures c.autoNow <==> OptionSet(kwargs, "auto_now")
    ensures c.autoNowAdd <==> OptionSet(kwargs, "auto_now_add")
    ensures c.nullable <==> OptionSet(kwargs, "null")
    ensures HasDefault(c) <==> "default" in kwargs
    ensures "default" in kwargs && kwargs["default"] == NoneArg ==> c.default == Some(NullDefault)
    ensures "default" in kwargs && kwargs["default"].Value? ==> c.default == Some(Given(kwargs["default"].text))
    ensures "default" in kwargs && kwargs["default"].Flag? ==>
      c.default == Some(Given(if kwargs["default"].b then "True" else "False"))
  {
    Config(
      OptionSet(kwargs, "auto_now"),
      OptionSet(kwargs, "auto_now_add"),
      OptionSet(kwargs, "auto_now_update"),
      OptionSet(kwargs, "null"),
      if "default" in kwargs then Some(DefaultOf(kwargs["default"])) else None)
  }

  // ---------------------------------------------------------------------
  // Mutual-exclusivity check
  // ---------------------------------------------------------------------

  /**
   The two failures of the check. `ExclusiveDefaultOptions` is the inherited
   date-time check's error; `AutoNowWithAutoNowUpdate` is the field's own.
   */
  datatype CheckError = ExclusiveDefaultOptions | AutoNowWithAutoNowUpdate

  /** The identifier each failure is reported under. */
  function ErrorId(e: CheckError): string {
    match e
    case ExclusiveDefaultOptions => "fields.E160"
    case AutoNowWithAutoNowUpdate => "django_forcedfields.E160"
  }

  /** How many of the options that each claim the DEFAULT clause are set. */
  function DefaultClaimants(c: Config): (n: nat)
    ensures n <= 3
    ensures n == 0 <==> !c.autoNow && !c.autoNowAdd && !HasDefault(c)
  {
    (if c.autoNow then 1 else 0) + (if c.autoNowAdd then 1 else 0) + (if HasDefault(c) then 1 else 0)
  }

  /**
   The failed checks, in report order: first the inherited exclusivity of
   `auto_now`, `auto_now_add` and `default`, then `auto_now` with
   `auto_now_update`.
   */
  function MutualExclusionErrors(c: Config): (r: seq<CheckError>)
    ensures ExclusiveDefaultOptions in r <==> DefaultClaimants(c) > 1
    ensures AutoNowWithAutoNowUpdate in r <==> c.autoNow && c.autoNowUpdate
    ensures |r| <= 2
    ensures |r| == 2 ==> r == [ExclusiveDefaultOptions, AutoNowWithAutoNowUpdate]
  {
    var inherited := if DefaultClaimants(c) > 1 then [ExclusiveDefaultOptions] else [];
    inherited + (if c.autoNow && c.autoNowUpdate then [AutoNowWithAutoNowUpdate] else [])
  }

  /** The check passes. */
  predicate Valid(c: Config) {
    MutualExclusionErrors(c) == []
  }

  /** Declaring `auto_now` with `auto_now_update` always reports the field's own E160 error. */
  lemma AutoNowWithUpdateReportsE160(c: Config)
    requires c.autoNow && c.autoNowUpdate
    ensures exists e :: e in MutualExclusionErrors(c) && ErrorId(e) == "django_forcedfields.E160"
    ensures !Valid(c)
  {
    assert AutoNowWithAutoNowUpdate in MutualExclusionErrors(c);
  }

  /** The option names, for listing which options a configuration sets. */
  datatype OptionName = AutoNowOpt | AutoNowAddOpt | AutoNowUpdateOpt | NullOpt | DefaultOpt

  function Enabled(c: Config): (s: set<OptionName>)
    ensures AutoNowOpt in s <==> c.autoNow
    ensures AutoNowAddOpt in s <==> c.autoNowAdd
    ensures AutoNowUpdateOpt in s <==> c.autoNowUpdate
    ensures NullOpt in s <==> c.nullable
    ensures DefaultOpt in s <==> HasDefault(c)
  {
    (if c.autoNow then {AutoNowOpt} else {})
    + (if c.autoNowAdd then {AutoNowAddOpt} else {})
    + (if c.autoNowUpdate then {AutoNowUpdateOpt} else {})
    + (if c.nullable then {NullOpt} else {})
    + (if HasDefault(c) then {DefaultOpt} else {})
  }

  /** The fourteen option sets the field documents as valid. */
  const ValidPermutations: seq<set<OptionName>> := [
    {},
    {NullOpt},
    {AutoNowOpt},
    {AutoNowOpt, NullOpt},
    {AutoNowAddOpt},
    {AutoNowAddOpt, AutoNowUpdateOpt},
    {AutoNowAddOpt, AutoNowUpdateOpt, NullOpt},
    {AutoNowAddOpt, NullOpt},
    {AutoNowUpdateOpt},
    {AutoNowUpdateOpt, NullOpt},
    {DefaultOpt},
    {DefaultOpt, AutoNowUpdateOpt},
    {DefaultOpt, AutoNowUpdateOpt, NullOpt},
    {DefaultOpt, NullOpt}
  ]

  /** The documented list has no repeats, so it names fourteen different option sets. */
  lemma ValidPermutationsAreDistinct()
    ensures |ValidPermutations| == 14
    ensures forall i, j :: 0 <= i < j < |ValidPermutations| ==> ValidPermutations[i] != ValidPermutations[j]
  {
  }

  /** The check passes exactly for the documented option sets. */
  lemma ValidIffDocumentedPermutation(c: Config)
    ensures Valid(c) <==> Enabled(c) in ValidPermutations
  {
    var e, p := Enabled(c), ValidPermutations;
    if Valid(c) {
      if c.autoNow {
        if c.nullable { assert e == p[3]; } else { assert e == p[2]; }
      } else if c.autoNowAdd {
        if c.autoNowUpdate {
          if c.nullable { assert e == p[6]; } else { assert e == p[5]; }
        } else {
          if c.nullable { assert e == p[7]; } else { assert e == p[4]; }
        }
      } else if HasDefault(c) {
        if c.autoNowUpdate {
          if c.nullable { assert e == p[12]; } else { assert e == p[11]; }
        } else {
          if c.nullable { assert e == p[13]; } else { assert e == p[10]; }
        }
      } else if c.autoNowUpdate {
        if c.nullable { assert e == p[9]; } else { assert e == p[8]; }
      } else {
        if c.nullable { assert e == p[1]; } else { assert e == p[0]; }
      }
    }
    if e in p {
      var k :| 0 <= k < |p| && p[k] == e;
      assert !(AutoNowOpt in p[k] && AutoNowUpdateOpt in p[k]);
      assert !(AutoNowOpt in p[k] && AutoNowAddOpt in p[k]);
      assert !(AutoNowOpt in p[k] && DefaultOpt in p[k]);
      assert !(AutoNowAddOpt in p[k] && DefaultOpt in p[k]);
    }
  }

  // ---------------------------------------------------------------------
  // Deconstruction
  // ---------------------------------------------------------------------

  /** What `deconstruct` returns: name, import path, positional and keyword arguments. */
  datatype Deconstructed = Deconstructed(name: string, path: string, args: seq<Arg>, kwargs: map<string, Arg>)

  /**
   The field's deconstruction, from the inherited one: `auto_now_update=True`
   is added when that option is set, and nothing else changes.
   */
  function Deconstruct(c: Config, inherited: Deconstructed): (r: Deconstructed)
    ensures r.name == inherited.name && r.path == inherited.path && r.args == inherited.args
    ensures c.autoNowUpdate ==> "auto_now_update" in r.kwargs && r.kwargs["auto_now_update"] == Flag(true)
    ensures !c.autoNowUpdate ==> r == inherited
    ensures forall k :: k != "auto_now_update" ==> (k in r.kwargs <==> k in inherited.kwargs)
    ensures forall k :: k in inherited.kwargs && k != "auto_now_update" ==> r.kwargs[k] == inherited.kwargs[k]
  {
    if c.autoNowUpdate then inherited.(kwargs := inherited.kwargs["auto_now_update" := Flag(true)])
    else inherited
  }

  /**
   Rebuilding the field from its deconstruction gives back the same options,
   provided the inherited deconstruction rebuilds everything but
   `auto_now_update`, which the host framework does not know.
   */
  lemma DeconstructRoundTrip(c: Config, inherited: Deconstructed)
    requires "auto_now_update" !in inherited.kwargs
    requires Init(inherited.kwargs) == c.(autoNowUpdate := false)
    ensures Init(Deconstruct(c, inherited).kwargs) == c
  {
  }
}
