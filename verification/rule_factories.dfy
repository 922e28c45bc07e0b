/**
 * The rule factories of the test rule classes and the one fact about each rule class they
 * need: which factory builds it and which providers it advertises.
 */
module RuleFactories {
  import opened Optional
  import opened Providers
  import opened Rules
  import opened Aggregation

  datatype RuleFactory = DummyRuleFactory | DummyRuleFactory2 | MultiAspectRuleFactory

  /** The names of the test rule classes. */
  const KnownRuleClasses: set<string> := {
    "base", "aspect", "multi_aspect", "aspect_requiring_provider",
    "aspect_requiring_provider_sets", "rule_with_extra_deps_aspect",
    "parametrized_definition_aspect", "extra_attribute_aspect_requiring_provider",
    "all_attributes_aspect", "all_attributes_with_tool_aspect", "warning_aspect",
    "error_aspect", "simple", "liar", "honest", "honest2", "implicit_dep", "late_bound_dep",
    "false_advertisement_aspect"}

  /** The factory each rule class names. */
  function FactoryOf(ruleClass: string): RuleFactory {
    if ruleClass == "multi_aspect" then MultiAspectRuleFactory
    else if ruleClass == "honest2" then DummyRuleFactory2
    else DummyRuleFactory
  }

  /** The providers each rule class advertises. */
  function AdvertisedBy(ruleClass: string): set<ProviderType> {
    if ruleClass == "liar" || ruleClass == "honest" then {RequiredType}
    else if ruleClass == "honest2" then {Required2Type}
    else {}
  }

  /** `RuleInfo` aggregating "rule <label>" with the prerequisites' `AspectInfo` data, plus runfiles. */
  function RuleBase(ctx: RuleContext): Providers {
    NoProviders.(ruleInfo := Some(AspectData("rule " + ctx.ruleLabel, ctx)), runfiles := true)
  }

  /**
   * The common factory: `RuleInfo` and runfiles always, `RequiredProvider` only for the rule
   * class named "honest".
   */
  function DummyCreate(ctx: RuleContext): (p: Providers)
    ensures p.ruleInfo.Some? && "rule " + ctx.ruleLabel in p.ruleInfo.value
    ensures p.ruleInfo.value == AspectData("rule " + ctx.ruleLabel, ctx)
    ensures p.required <==> ctx.ruleClass == "honest"
    ensures p.runfiles
    ensures p.aspectInfo.None? && !p.foo && !p.bar && !p.required2 && p.fileTarget.None?
  {
    var p := RuleBase(ctx);
    if ctx.ruleClass == "honest" then p.(required := true) else p
  }

  /** The factory of "honest2": `RuleInfo`, runfiles, and both required providers, always. */
  function Dummy2Create(ctx: RuleContext): (p: Providers)
    ensures p.ruleInfo == Some(AspectData("rule " + ctx.ruleLabel, ctx))
    ensures p.required && p.required2 && p.runfiles
    ensures p.aspectInfo.None? && !p.foo && !p.bar && p.fileTarget.None?
  {
    RuleBase(ctx).(required := true, required2 := true)
  }

  /**
   * The factory of "multi_aspect": its `RuleInfo` holds "foo" when the `foo` prerequisite
   * carries `FooProvider` and "bar" when the `bar` prerequisite carries `BarProvider`.
   * A missing prerequisite is dereferenced as null, `foo` before `bar`.
   */
  function MultiAspectCreate(ctx: RuleContext): (o: Outcome)
    ensures o.Built? <==> Prerequisite(ctx, "foo").Some? && Prerequisite(ctx, "bar").Some?
    ensures Prerequisite(ctx, "foo").None? ==> o == Failed(NullDereference("foo"))
    ensures Prerequisite(ctx, "foo").Some? && Prerequisite(ctx, "bar").None? ==>
      o == Failed(NullDereference("bar"))
    ensures o.Built? ==>
      && o.providers.ruleInfo.Some?
      && o.providers.ruleInfo.value <= {"foo", "bar"}
      && ("foo" in o.providers.ruleInfo.value <==> Prerequisite(ctx, "foo").value.providers.foo)
      && ("bar" in o.providers.ruleInfo.value <==> Prerequisite(ctx, "bar").value.providers.bar)
      && o.providers.runfiles && o.warnings == []
      && !o.providers.required && !o.providers.required2 && o.providers.aspectInfo.None?
      && !o.providers.foo && !o.providers.bar && o.providers.fileTarget.None?
  {
    match (Prerequisite(ctx, "foo"), Prerequisite(ctx, "bar"))
    case (None, _) => Failed(NullDereference("foo"))
    case (Some(_), None) => Failed(NullDereference("bar"))
    case (Some(foo), Some(bar)) =>
      var info := (if foo.providers.foo then {"foo"} else {}) + (if bar.providers.bar then {"bar"} else {});
      Built(NoProviders.(ruleInfo := Some(info), runfiles := true), [])
  }

  /** Builds a target of a test rule class with the factory its class names. */
  function BuildRule(ctx: RuleContext): (o: Outcome)
    requires ctx.ruleClass in KnownRuleClasses
    ensures ctx.ruleClass != "multi_aspect" ==> o.Built? && o.warnings == []
    ensures ctx.ruleClass == "multi_aspect" ==> o == MultiAspectCreate(ctx)
    ensures ctx.ruleClass == "honest2" ==> o == Built(Dummy2Create(ctx), [])
    ensures ctx.ruleClass != "multi_aspect" && ctx.ruleClass != "honest2" ==> o == Built(DummyCreate(ctx), [])
  {
    match FactoryOf(ctx.ruleClass)
    case DummyRuleFactory => Built(DummyCreate(ctx), [])
    case DummyRuleFactory2 => Built(Dummy2Create(ctx), [])
    case MultiAspectRuleFactory => MultiAspectCreate(ctx)
  }

  /**
   * "liar" is the one test rule class whose built targets lack a provider it advertises;
   * "honest" advertises the same provider and always attaches it.
   */
  lemma RuleAdvertisementHonesty(ctx: RuleContext)
    requires ctx.ruleClass in KnownRuleClasses && BuildRule(ctx).Built?
    ensures MissingAdvertised(AdvertisedBy(ctx.ruleClass), BuildRule(ctx).providers) != {}
      <==> ctx.ruleClass == "liar"
    ensures ctx.ruleClass == "liar" ==>
      MissingAdvertised(AdvertisedBy(ctx.ruleClass), BuildRule(ctx).providers) == {RequiredType}
  {
    if ctx.ruleClass == "liar" {
      assert RequiredType in MissingAdvertised(AdvertisedBy(ctx.ruleClass), BuildRule(ctx).providers);
    }
  }

  /** A "liar" target is an "honest" one without `RequiredProvider`, and nothing else differs. */
  lemma LiarDiffersFromHonestOnlyInRequired(ctx: RuleContext)
    ensures DummyCreate(ctx.(ruleClass := "liar"))
         == DummyCreate(ctx.(ruleClass := "honest")).(required := false)
  {
    AttributesDataFrame(ctx.(ruleClass := "liar"), ctx.(ruleClass := "honest"), ctx.attributes);
  }
}
