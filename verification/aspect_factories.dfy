/**
 * The aspect factories: what applying each test aspect to a rule produces. The shared base
 * factory and the parametrized aspect publish an information string aggregated with the
 * `AspectInfo` data of the rule's prerequisites.
 */
module AspectFactories {
  import opened Optional
  import opened Providers
  import opened Rules
  import opened Aggregation
  import opened Parameters
  import opened Definitions

  /** The first value of `baz`; the source dereferences null when `baz` is absent. */
  function FirstBaz(params: AspectParameters): Result<string> {
    match GetAttribute(params, "baz")
    case Some(values) => Ok(values[0])
    case None => Err(NullDereference("getAttribute(\"baz\")"))
  }

  /**
   * The string the base aspect publishes for the rule labelled `ruleLabel`: "aspect <ruleLabel>",
   * followed by " data <first baz value>" unless the parameters are empty. Non-empty
   * parameters without `baz` make the source dereference null.
   */
  function BaseAspectInfo(ruleLabel: string, params: AspectParameters): (r: Result<string>)
    ensures r.Ok? <==> IsEmpty(params) || "baz" in params
    ensures r.Ok? ==> "aspect " + ruleLabel <= r.value
    ensures r.Ok? && IsEmpty(params) ==> |r.value| == |"aspect " + ruleLabel|
    ensures r.Ok? && !IsEmpty(params) ==>
      r.value[|"aspect " + ruleLabel|..] == " data " + params["baz"][0]
  {
    if IsEmpty(params) then Ok("aspect " + ruleLabel)
    else
      match FirstBaz(params)
      case Ok(v) => Ok("aspect " + ruleLabel + " data " + v)
      case Err(f) => Err(f)
  }

  /** The labels of `deps`, each preceded by a space. */
  function DepLabels(deps: seq<Target>): (r: string)
    ensures |r| >= |deps|
    ensures deps == [] <==> r == []
    ensures |deps| == 1 ==> r == " " + deps[0].targetLabel
  {
    if deps == [] then "" else " " + deps[0].targetLabel + DepLabels(deps[1..])
  }

  /** The label list of a concatenation is the concatenation of the label lists, in order. */
  lemma {:induction false} DepLabelsAppend(xs: seq<Target>, ys: seq<Target>)
    ensures DepLabels(xs + ys) == DepLabels(xs) + DepLabels(ys)
    decreases |xs|
  {
    if xs == [] {
      assert xs + ys == ys;
    } else {
      assert (xs + ys)[1..] == xs[1..] + ys;
      DepLabelsAppend(xs[1..], ys);
    }
  }

  /**
   * The string the parametrized aspect publishes: "aspect <label>", then " data <baz> " unless
   * the parameters are empty, then "$dep:[" and the labels of the `$dep` prerequisites, then "]".
   */
  function ParametrizedInfo(ctx: RuleContext, params: AspectParameters): (r: Result<string>)
    ensures r.Ok? <==> IsEmpty(params) || "baz" in params
    ensures r.Ok? ==> "aspect " + ctx.ruleLabel <= r.value
    ensures r.Ok? ==> |r.value| > 0 && r.value[|r.value| - 1] == ']'
    ensures r.Ok? && !IsEmpty(params) ==>
      " data " + params["baz"][0] + " " <= r.value[|"aspect " + ctx.ruleLabel|..]
    ensures r.Ok? && IsEmpty(params) ==>
      r.value[|"aspect " + ctx.ruleLabel|..] == "$dep:[" + DepLabels(Prerequisites(ctx, "$dep")) + "]"
    ensures r.Ok? && !IsEmpty(params) ==>
      r.value[|"aspect " + ctx.ruleLabel + " data " + params["baz"][0] + " "|..]
        == "$dep:[" + DepLabels(Prerequisites(ctx, "$dep")) + "]"
  {
    var deps := "$dep:[" + DepLabels(Prerequisites(ctx, "$dep")) + "]";
    if IsEmpty(params) then Ok("aspect " + ctx.ruleLabel + deps)
    else
      match FirstBaz(params)
      case Ok(v) => Ok("aspect " + ctx.ruleLabel + " data " + v + " " + deps)
      case Err(f) => Err(f)
  }

  /**
   * For one rule context, the parametrized string determines whether parameters were given,
   * and the first `baz` value.
   */
  lemma ParametrizedInfoDeterminesData(ctx: RuleContext, p1: AspectParameters, p2: AspectParameters)
    ensures ParametrizedInfo(ctx, p1).Ok? && ParametrizedInfo(ctx, p2).Ok?
            && ParametrizedInfo(ctx, p1).value == ParametrizedInfo(ctx, p2).value
      ==> (IsEmpty(p1) <==> IsEmpty(p2)) && (!IsEmpty(p1) ==> p1["baz"][0] == p2["baz"][0])
  {
    if ParametrizedInfo(ctx, p1).Ok? && ParametrizedInfo(ctx, p2).Ok?
       && ParametrizedInfo(ctx, p1).value == ParametrizedInfo(ctx, p2).value
    {
      var s := ParametrizedInfo(ctx, p1).value;
      var n := |"aspect " + ctx.ruleLabel|;
      var d := "$dep:[" + DepLabels(Prerequisites(ctx, "$dep")) + "]";
      assert |s| == n + |d| + (if IsEmpty(p1) then 0 else 7 + |p1["baz"][0]|);
      assert |s| == n + |d| + (if IsEmpty(p2) then 0 else 7 + |p2["baz"][0]|);
      if !IsEmpty(p1) && !IsEmpty(p2) {
        var v1, v2 := p1["baz"][0], p2["baz"][0];
        assert s == "aspect " + ctx.ruleLabel + " data " + v1 + " " + d;
        assert s == "aspect " + ctx.ruleLabel + " data " + v2 + " " + d;
        assert v1 == s[n + 6..n + 6 + |v1|];
        assert v2 == s[n + 6..n + 6 + |v2|];
      }
    }
  }

  /**
   * For one label and one set of parameters, the parametrized string determines the labels of
   * the `$dep` prerequisites.
   */
  lemma ParametrizedInfoDeterminesDeps(c1: RuleContext, c2: RuleContext, params: AspectParameters)
    ensures c1.ruleLabel == c2.ruleLabel
            && ParametrizedInfo(c1, params).Ok? && ParametrizedInfo(c2, params).Ok?
            && ParametrizedInfo(c1, params).value == ParametrizedInfo(c2, params).value
      ==> DepLabels(Prerequisites(c1, "$dep")) == DepLabels(Prerequisites(c2, "$dep"))
  {
    if c1.ruleLabel == c2.ruleLabel
       && ParametrizedInfo(c1, params).Ok? && ParametrizedInfo(c2, params).Ok?
       && ParametrizedInfo(c1, params).value == ParametrizedInfo(c2, params).value
    {
      var s := ParametrizedInfo(c1, params).value;
      var l1, l2 := DepLabels(Prerequisites(c1, "$dep")), DepLabels(Prerequisites(c2, "$dep"));
      var k := if IsEmpty(params) then |"aspect " + c1.ruleLabel|
               else |"aspect " + c1.ruleLabel + " data " + params["baz"][0] + " "|;
      assert s[k..] == "$dep:[" + l1 + "]";
      assert s[k..] == "$dep:[" + l2 + "]";
      DepListCancels(l1, l2);
    }
  }

  /** The bracketed label list can be read back. */
  lemma DepListCancels(l1: string, l2: string)
    requires "$dep:[" + l1 + "]" == "$dep:[" + l2 + "]"
    ensures l1 == l2
  {
    var s := "$dep:[" + l1 + "]";
    assert l1 == s[6..|s| - 1];
    assert l2 == s[6..|s| - 1];
  }

  /** The base factory: one `AspectInfo` aggregating the base string with the prerequisites' data. */
  function PublishInfo(info: Result<string>, ctx: RuleContext): Outcome {
    match info
    case Ok(s) => Built(NoProviders.(aspectInfo := Some(AspectData(s, ctx))), [])
    case Err(f) => Failed(f)
  }

  /** Applies aspect `a` with parameters `params` to the rule described by `ctx`. */
  function CreateAspect(a: AspectClass, ctx: RuleContext, params: AspectParameters): (o: Outcome)
    ensures o.Built? <==>
      a != ErrorAspect
      && ((IsBaseAspect(a) || a == ParametrizedDefinitionAspect) ==> IsEmpty(params) || "baz" in params)
    ensures a == ErrorAspect ==> o == Failed(ReportedError("Aspect error"))
    ensures o.Built? ==>
      && (o.providers.aspectInfo.Some? <==> IsBaseAspect(a) || a == ParametrizedDefinitionAspect)
      && (o.providers.foo <==> a == FooProviderAspect)
      && (o.providers.bar <==> a == BarProviderAspect)
      && (o.providers.fileTarget.Some? <==> a == AspectApplyingToFiles)
      && !o.providers.required && !o.providers.required2
      && o.providers.ruleInfo.None? && !o.providers.runfiles
      && (o.warnings != [] <==> a == WarningAspect)
    ensures o.Built? && IsBaseAspect(a) ==>
      o.providers.aspectInfo == Some(AspectData(BaseAspectInfo(ctx.ruleLabel, params).value, ctx))
    ensures o.Built? && a == ParametrizedDefinitionAspect ==>
      o.providers.aspectInfo == Some(AspectData(ParametrizedInfo(ctx, params).value, ctx))
  {
    if IsBaseAspect(a) then PublishInfo(BaseAspectInfo(ctx.ruleLabel, params), ctx)
    else
      match a
      case FooProviderAspect => Built(NoProviders.(foo := true), [])
      case BarProviderAspect => Built(NoProviders.(bar := true), [])
      case ParametrizedDefinitionAspect => PublishInfo(ParametrizedInfo(ctx, params), ctx)
      case WarningAspect => Built(NoProviders, ["Aspect warning on " + ctx.ruleLabel])
      case ErrorAspect => Failed(ReportedError("Aspect error"))
      case FalseAdvertisementAspect => Built(NoProviders, [])
      case AspectApplyingToFiles => Built(NoProviders.(fileTarget := Some(ctx.ruleLabel)), [])
  }

  /**
   * The prerequisite `t` as an attribute with aspect `a` attached sees it: `t`'s providers with
   * the aspect's merged in, the aspect applied to `t`'s own rule context `ctx`. A failing aspect
   * leaves no target.
   */
  function ApplyAspect(t: Target, a: AspectClass, ctx: RuleContext, params: AspectParameters): (r: Result<Target>)
    ensures r.Ok? <==> CreateAspect(a, ctx, params).Built?
    ensures r.Ok? ==> r.value.targetLabel == t.targetLabel
    ensures r.Ok? ==> forall pt :: (Has(r.value.providers, pt)
      <==> Has(t.providers, pt) || Has(CreateAspect(a, ctx, params).providers, pt))
    ensures r.Ok? ==> r.value.providers.ruleInfo == t.providers.ruleInfo
    ensures r.Ok? ==>
      r.value.providers.aspectInfo
        == (if CreateAspect(a, ctx, params).providers.aspectInfo.Some?
            then CreateAspect(a, ctx, params).providers.aspectInfo else t.providers.aspectInfo)
    ensures r.Ok? ==>
      r.value.providers.fileTarget
        == (if CreateAspect(a, ctx, params).providers.fileTarget.Some?
            then CreateAspect(a, ctx, params).providers.fileTarget else t.providers.fileTarget)
  {
    match CreateAspect(a, ctx, params)
    case Built(p, _) => MergeHas(t.providers, p); Ok(Target(t.targetLabel, Merge(t.providers, p)))
    case Failed(f) => Err(f)
  }

  /** The base information string determines whether parameters were given, and the first `baz`. */
  lemma BaseInfoDeterminesData(ruleLabel: string, p1: AspectParameters, p2: AspectParameters)
    ensures BaseAspectInfo(ruleLabel, p1).Ok? && BaseAspectInfo(ruleLabel, p2).Ok?
            && BaseAspectInfo(ruleLabel, p1).value == BaseAspectInfo(ruleLabel, p2).value
      ==> (IsEmpty(p1) <==> IsEmpty(p2)) && (!IsEmpty(p1) ==> p1["baz"][0] == p2["baz"][0])
  {
    var n := |"aspect " + ruleLabel|;
    if BaseAspectInfo(ruleLabel, p1).Ok? && BaseAspectInfo(ruleLabel, p2).Ok?
       && BaseAspectInfo(ruleLabel, p1).value == BaseAspectInfo(ruleLabel, p2).value
       && !IsEmpty(p1) && !IsEmpty(p2)
    {
      var s := BaseAspectInfo(ruleLabel, p1).value;
      assert s[n..] == " data " + p1["baz"][0] == " data " + p2["baz"][0];
      assert p1["baz"][0] == (" data " + p1["baz"][0])[6..];
    }
  }

  /** The parameters a rule's `baz` attribute yields always reach the base string intact. */
  lemma ExtractedParametersReachBaseInfo(ctx: RuleContext, ruleLabel: string)
    ensures BaseAspectInfo(ruleLabel, ExtractBazParameters(ctx)).Ok?
    ensures IsAttrDefined(ctx, "baz", Str) && StringValue(ctx, "baz") != "" ==>
      BaseAspectInfo(ruleLabel, ExtractBazParameters(ctx)).value
        == "aspect " + ruleLabel + " data " + StringValue(ctx, "baz")
    ensures !(IsAttrDefined(ctx, "baz", Str) && StringValue(ctx, "baz") != "") ==>
      BaseAspectInfo(ruleLabel, ExtractBazParameters(ctx)).value == "aspect " + ruleLabel
  {
  }

  /**
   * The parametrized aspect applied with the parameters of a rule gets its `$dep` attribute
   * exactly when the rule sets `baz`, pointing at the label `baz` names.
   */
  lemma ExtractedParametersSelectDep(ctx: RuleContext)
    ensures ImplicitLabel(GetDefinition(ParametrizedDefinitionAspect, ExtractBazParameters(ctx)), "$dep")
      == (if IsAttrDefined(ctx, "baz", Str) && StringValue(ctx, "baz") != ""
          then Some(StringValue(ctx, "baz")) else None)
  {
  }

  /**
   * Advertisement is kept by every aspect but the false-advertisement one, which promises
   * `RequiredProvider` and a Starlark provider and attaches neither.
   */
  lemma AspectAdvertisementHonesty(a: AspectClass, ctx: RuleContext, params: AspectParameters)
    ensures CreateAspect(a, ctx, params).Built? ==>
      (MissingAdvertised(GetDefinition(a, params).advertised, CreateAspect(a, ctx, params).providers) != {}
       <==> a == FalseAdvertisementAspect)
    ensures a == FalseAdvertisementAspect ==>
      CreateAspect(a, ctx, params).Built? &&
      MissingAdvertised(GetDefinition(a, params).advertised, CreateAspect(a, ctx, params).providers)
        == {RequiredType, Starlark("advertised_provider")}
  {
    var o := CreateAspect(a, ctx, params);
    var adv := GetDefinition(a, params).advertised;
    AdvertisedTable(a, params);
    if a == FalseAdvertisementAspect {
      assert o == Built(NoProviders, []);
      assert RequiredType in MissingAdvertised(adv, o.providers);
    } else {
      assert adv == {};
    }
  }

  /** Only the false-advertisement aspect advertises providers. */
  lemma AdvertisedTable(a: AspectClass, params: AspectParameters)
    ensures GetDefinition(a, params).advertised
      == if a == FalseAdvertisementAspect then {RequiredType, Starlark("advertised_provider")} else {}
  {
  }
}
