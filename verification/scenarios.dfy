/**
 * Small target graphs analysed end to end, stated for arbitrary labels as equations on the
 * aggregated sets.
 */
module Scenarios {
  import opened Optional
  import opened Providers
  import opened Rules
  import opened Aggregation
  import opened Parameters
  import opened Definitions
  import opened AspectFactories
  import opened RuleFactories

  /** A leaf rule of class `ruleClass` with no attributes and no prerequisites. */
  function Leaf(name: string, ruleClass: string): RuleContext {
    RuleContext(name, ruleClass, [], map[], map[])
  }

  /**
   * A generic test rule of class `ruleClass`: a `foo` label list resolving to `deps`, as every
   * test rule class declares, and a STRING attribute `txt`, as "simple" declares. The classes'
   * other attributes are left out; string attributes contribute nothing to the aggregate
   * (`NonLabelAttributeAddsNothing`).
   */
  function Root(name: string, ruleClass: string, deps: seq<Target>): RuleContext {
    RuleContext(name, ruleClass, [AttrDecl("foo", LabelList), AttrDecl("txt", Str)],
                map["txt" := "hello"], map["foo" := deps])
  }

  /** The target a rule builds, with no aspect applied. */
  function Plain(ctx: RuleContext): Target {
    Target(ctx.ruleLabel, DummyCreate(ctx))
  }

  /**
   * The target a rule builds, merged with the `AspectInfo` the simple aspect publishes for it
   * (`SimpleAspectApplied` shows this is what applying the aspect produces).
   */
  function WithSimpleAspect(ctx: RuleContext): Target {
    Target(ctx.ruleLabel, DummyCreate(ctx).(aspectInfo := Some(AspectData("aspect " + ctx.ruleLabel, ctx))))
  }

  lemma LeafData(me: string, name: string, ruleClass: string)
    ensures AspectData(me, Leaf(name, ruleClass)) == {me}
  {
  }

  /** The data of a root is its own string and the data of its `foo` prerequisites. */
  lemma RootData(me: string, name: string, ruleClass: string, deps: seq<Target>)
    ensures AspectData(me, Root(name, ruleClass, deps)) == {me} + TargetsData(deps)
  {
    var ctx := Root(name, ruleClass, deps);
    assert ctx.attributes[..1] == [AttrDecl("foo", LabelList)];
    assert ctx.attributes[..1][..0] == [];
    assert Prerequisites(ctx, "foo") == deps;
    assert AttributesData(ctx, ctx.attributes[..1]) == TargetsData(deps);
    assert AttributesData(ctx, ctx.attributes) == AttributesData(ctx, ctx.attributes[..1]);
  }

  lemma PairData(a: Target, b: Target)
    ensures TargetsData([a, b]) == InfoOf(a) + InfoOf(b)
  {
    assert [a, b][..1] == [a];
    assert [a][..0] == [];
    assert TargetsData([a]) == InfoOf(a);
  }

  lemma SingleData(a: Target)
    ensures TargetsData([a]) == InfoOf(a)
  {
    assert [a][..0] == [];
  }

  /** The simple aspect with empty parameters publishes "aspect <label>" aggregated over the rule. */
  lemma SimpleAspectInfo(ctx: RuleContext)
    ensures CreateAspect(SimpleAspect, ctx, Empty).Built?
    ensures CreateAspect(SimpleAspect, ctx, Empty).providers.aspectInfo
         == WithSimpleAspect(ctx).providers.aspectInfo
  {
  }

  /** Without an aspect on `foo`, a rule's `RuleInfo` holds its own string only. */
  lemma NoAspectNoTransitiveData(r: string, n1: string, n2: string)
    ensures DummyCreate(Root(r, "simple", [Plain(Leaf(n1, "simple")), Plain(Leaf(n2, "simple"))])).ruleInfo
         == Some({"rule " + r})
  {
    var deps := [Plain(Leaf(n1, "simple")), Plain(Leaf(n2, "simple"))];
    assert InfoOf(deps[0]) == {} && InfoOf(deps[1]) == {};
    PairData(deps[0], deps[1]);
    RootData("rule " + r, r, "simple", deps);
    assert AspectData("rule " + r, Root(r, "simple", deps)) == {"rule " + r};
  }

  /** With the simple aspect on `foo`, each leaf's aspect string reaches the rule's `RuleInfo`. */
  lemma AspectDataReachesRoot(r: string, n1: string, n2: string)
    ensures
      var deps := [WithSimpleAspect(Leaf(n1, "simple")), WithSimpleAspect(Leaf(n2, "simple"))];
      DummyCreate(Root(r, "aspect", deps)).ruleInfo == Some({"rule " + r, "aspect " + n1, "aspect " + n2})
  {
    var deps := [WithSimpleAspect(Leaf(n1, "simple")), WithSimpleAspect(Leaf(n2, "simple"))];
    assert InfoOf(deps[0]) == {"aspect " + n1} by {
      LeafData("aspect " + n1, n1, "simple");
    }
    assert InfoOf(deps[1]) == {"aspect " + n2} by {
      LeafData("aspect " + n2, n2, "simple");
    }
    PairData(deps[0], deps[1]);
    RootData("rule " + r, r, "aspect", deps);
    assert AspectData("rule " + r, Root(r, "aspect", deps)) == {"rule " + r, "aspect " + n1, "aspect " + n2};
  }

  /** A rule's plain target with the simple aspect, applied with empty parameters, merged in. */
  lemma SimpleAspectApplied(ctx: RuleContext)
    ensures ApplyAspect(Plain(ctx), SimpleAspect, ctx, Empty) == Ok(WithSimpleAspect(ctx))
  {
  }

  /**
   * The target `base` of the rule described by `ctx`, as a rule attaching the all-attributes
   * aspect sees it: with the aspect's providers, computed over `ctx`, merged in.
   */
  function WithAllAttributesAspect(base: Target, ctx: RuleContext): Target {
    ApplyAspect(base, AllAttributesAspect, ctx, Empty).value
  }

  /** The all-attributes aspect publishes the aggregate of "aspect <label>" over its context. */
  lemma AllAttributesAspectInfo(base: Target, ctx: RuleContext)
    ensures WithAllAttributesAspect(base, ctx).targetLabel == base.targetLabel
    ensures InfoOf(WithAllAttributesAspect(base, ctx)) == AspectData("aspect " + ctx.ruleLabel, ctx)
  {
    assert BaseAspectInfo(ctx.ruleLabel, Empty) == Ok("aspect " + ctx.ruleLabel);
  }

  /**
   * A diamond: an "all_attributes_aspect" rule `a` lists `b` and `c` under `foo`, and both list
   * `d`. The all-attributes aspect is attached to `foo` and propagates along every attribute,
   * so it runs on `b`, `c` and `d`, whatever targets `tb`, `tc` and `td` those rules built;
   * at `b` and `c` it sees `d` with the aspect applied. `a`'s `RuleInfo` holds each of the
   * four strings, `d`'s once.
   */
  lemma DiamondContributesOnce(a: string, b: string, c: string, d: string, tb: Target, tc: Target, td: Target)
    ensures
      var bottom := WithAllAttributesAspect(td, Leaf(d, "simple"));
      var left := WithAllAttributesAspect(tb, Root(b, "simple", [bottom]));
      var right := WithAllAttributesAspect(tc, Root(c, "simple", [bottom]));
      DummyCreate(Root(a, "all_attributes_aspect", [left, right])).ruleInfo
        == Some({"rule " + a, "aspect " + b, "aspect " + c, "aspect " + d})
  {
    var bottom := WithAllAttributesAspect(td, Leaf(d, "simple"));
    AllAttributesAspectInfo(td, Leaf(d, "simple"));
    LeafData("aspect " + d, d, "simple");
    var left := WithAllAttributesAspect(tb, Root(b, "simple", [bottom]));
    AspectOverOne(tb, b, bottom);
    var right := WithAllAttributesAspect(tc, Root(c, "simple", [bottom]));
    AspectOverOne(tc, c, bottom);
    RuleOverPair(a, left, right);
    DiamondSets("rule " + a, "aspect " + b, "aspect " + c, "aspect " + d,
                InfoOf(left), InfoOf(right), InfoOf(bottom));
  }

  /** The set arithmetic of the diamond: the shared bottom's data is counted once. */
  lemma DiamondSets(x: string, y: string, z: string, w: string,
                    left: set<string>, right: set<string>, bottom: set<string>)
    requires bottom == {w} && left == {y} + bottom && right == {z} + bottom
    ensures {x} + left + right == {x, y, z, w}
  {
  }

  /** A rule listing `left` and `right` under `foo` publishes its own string and their data. */
  lemma RuleOverPair(a: string, left: Target, right: Target)
    ensures DummyCreate(Root(a, "all_attributes_aspect", [left, right])).ruleInfo
         == Some({"rule " + a} + InfoOf(left) + InfoOf(right))
  {
    var ctx := Root(a, "all_attributes_aspect", [left, right]);
    PairData(left, right);
    RootData("rule " + a, a, "all_attributes_aspect", [left, right]);
    assert AspectData("rule " + a, ctx) == {"rule " + a} + (InfoOf(left) + InfoOf(right));
    assert DummyCreate(ctx).ruleInfo.Some?;
    assert DummyCreate(ctx).ruleInfo.value == AspectData("rule " + a, ctx);
    assert {"rule " + a} + (InfoOf(left) + InfoOf(right)) == {"rule " + a} + InfoOf(left) + InfoOf(right);
  }

  /** Over one prerequisite `t`, the all-attributes aspect at `name` adds "aspect <name>" to `t`'s data. */
  lemma AspectOverOne(base: Target, name: string, t: Target)
    ensures InfoOf(WithAllAttributesAspect(base, Root(name, "simple", [t]))) == {"aspect " + name} + InfoOf(t)
  {
    AllAttributesAspectInfo(base, Root(name, "simple", [t]));
    RootData("aspect " + name, name, "simple", [t]);
    SingleData(t);
  }

  /**
   * A "parametrized_definition_aspect" rule `r` whose `baz` names `dep` and whose `foo` lists
   * the target `t`. The aspect is attached to `foo`, so it runs on `t`, not on `r`.
   */
  function ParametrizedRule(r: string, dep: string, t: Target): RuleContext {
    RuleContext(r, "parametrized_definition_aspect",
                [AttrDecl("foo", LabelList), AttrDecl("baz", Str)],
                map["baz" := dep],
                map["foo" := [t]])
  }

  /**
   * The rule context the parametrized aspect sees at a leaf `t`: the leaf's own (empty)
   * attributes plus the aspect's label attribute `$dep`, resolved to the target `dep`.
   */
  function AspectNode(t: string, dep: string): RuleContext {
    RuleContext(t, "simple", [AttrDecl("$dep", Label)], map[],
                map["$dep" := [Plain(Leaf(dep, "simple"))]])
  }

  /** A rule setting `baz` to a non-empty `dep` gives the aspect exactly the parameter `baz` = [dep]. */
  lemma ParametrizedRuleParameters(r: string, dep: string, t: Target)
    requires dep != ""
    ensures ExtractBazParameters(ParametrizedRule(r, dep, t)) == map["baz" := [dep]]
  {
    var rule := ParametrizedRule(r, dep, t);
    assert rule.attributes[1] == AttrDecl("baz", Str);
  }

  /** The `$dep` list at the leaf renders as " <dep>", so the leaf's string is fixed. */
  lemma ParametrizedInfoAtLeaf(t: string, dep: string)
    ensures ParametrizedInfo(AspectNode(t, dep), map["baz" := [dep]])
         == Ok("aspect " + t + " data " + dep + " $dep:[ " + dep + "]")
  {
    var deps := Prerequisites(AspectNode(t, dep), "$dep");
    assert DepLabels(deps) == " " + dep;
    assert "aspect " + t + " data " + dep + " " + ("$dep:[" + DepLabels(deps) + "]")
        == "aspect " + t + " data " + dep + " $dep:[ " + dep + "]";
  }

  /** The leaf's only prerequisite, `$dep`, carries no `AspectInfo`, so nothing joins the string. */
  lemma AspectNodeData(me: string, t: string, dep: string)
    ensures AspectData(me, AspectNode(t, dep)) == {me}
  {
    var node := AspectNode(t, dep);
    var deps := Prerequisites(node, "$dep");
    SingleData(deps[0]);
    assert node.attributes[..0] == [];
    assert AttributesData(node, node.attributes) == TargetsData(deps);
  }

  /**
   * At the leaf `t`, with `baz` = [dep] and `$dep` resolved to the target `dep`, the
   * parametrized aspect publishes only "aspect <t> data <dep> $dep:[ <dep>]".
   */
  lemma ParametrizedAspectAtLeaf(t: string, dep: string)
    ensures CreateAspect(ParametrizedDefinitionAspect, AspectNode(t, dep), map["baz" := [dep]])
         == Built(NoProviders.(aspectInfo := Some({"aspect " + t + " data " + dep + " $dep:[ " + dep + "]"})), [])
  {
    var info := "aspect " + t + " data " + dep + " $dep:[ " + dep + "]";
    ParametrizedInfoAtLeaf(t, dep);
    AspectNodeData(info, t, dep);
  }

  /**
   * The parametrized aspect attached to `foo` of a rule whose `baz` names `dep`: the rule's
   * parameters give the aspect a `$dep` attribute labelled `dep`, and at the `foo` leaf `t`
   * the aspect publishes only "aspect <t> data <dep> $dep:[ <dep>]".
   */
  lemma ParametrizedScenario(r: string, t: string, dep: string)
    requires dep != ""
    ensures
      var params := ExtractBazParameters(ParametrizedRule(r, dep, Plain(Leaf(t, "simple"))));
      && ImplicitLabel(GetDefinition(ParametrizedDefinitionAspect, params), "$dep") == Some(dep)
      && CreateAspect(ParametrizedDefinitionAspect, AspectNode(t, dep), params)
         == Built(NoProviders.(aspectInfo := Some({"aspect " + t + " data " + dep + " $dep:[ " + dep + "]"})), [])
  {
    ParametrizedRuleParameters(r, dep, Plain(Leaf(t, "simple")));
    ParametrizedAspectAtLeaf(t, dep);
    var params: AspectParameters := map["baz" := [dep]];
    SingleLabel(ImplicitAttribute("$dep", Label, dep), "$dep");
    assert GetDefinition(ParametrizedDefinitionAspect, params).implicitAttributes
        == [ImplicitAttribute("$dep", Label, dep)];
  }

  /** A "multi_aspect" rule `m` whose `foo` and `bar` are the targets given. */
  function MultiAspectContext(m: string, foo: Target, bar: Target): RuleContext {
    RuleContext(m, "multi_aspect", [AttrDecl("foo", Label), AttrDecl("bar", Label)],
                map[], map["foo" := [foo], "bar" := [bar]])
  }

  /**
   * Whatever aspects `a1` on `foo` and `a2` on `bar` are attached, the multi-aspect rule
   * records "foo" exactly when `FooProvider` reaches it, from the target or from `a1`, and
   * "bar" likewise from `bar` or `a2`.
   */
  lemma MultiAspectSeesAttachedAspects(m: string, foo: Target, bar: Target, fooCtx: RuleContext,
                                       barCtx: RuleContext, a1: AspectClass, a2: AspectClass)
    ensures ApplyAspect(foo, a1, fooCtx, Empty).Ok? && ApplyAspect(bar, a2, barCtx, Empty).Ok? ==>
      var o := MultiAspectCreate(MultiAspectContext(m, ApplyAspect(foo, a1, fooCtx, Empty).value,
                                                    ApplyAspect(bar, a2, barCtx, Empty).value));
      && o.Built?
      && ("foo" in o.providers.ruleInfo.value <==> foo.providers.foo || a1 == FooProviderAspect)
      && ("bar" in o.providers.ruleInfo.value <==> bar.providers.bar || a2 == BarProviderAspect)
  {
    if ApplyAspect(foo, a1, fooCtx, Empty).Ok? && ApplyAspect(bar, a2, barCtx, Empty).Ok? {
      var f := ApplyAspect(foo, a1, fooCtx, Empty).value;
      var b := ApplyAspect(bar, a2, barCtx, Empty).value;
      assert Has(f.providers, FooType)
        <==> Has(foo.providers, FooType) || Has(CreateAspect(a1, fooCtx, Empty).providers, FooType);
      assert Has(b.providers, BarType)
        <==> Has(bar.providers, BarType) || Has(CreateAspect(a2, barCtx, Empty).providers, BarType);
      var ctx := MultiAspectContext(m, f, b);
      assert Prerequisite(ctx, "foo") == Some(f);
      assert Prerequisite(ctx, "bar") == Some(b);
    }
  }

  /**
   * With the aspects the multi-aspect rule attaches, `FooProvider` on `foo` and `BarProvider`
   * on `bar`, it records both, whatever the targets themselves provide.
   */
  lemma MultiAspectRuleSeesBoth(m: string, foo: Target, bar: Target, fooCtx: RuleContext, barCtx: RuleContext)
    ensures ApplyAspect(foo, FooProviderAspect, fooCtx, Empty).Ok?
    ensures ApplyAspect(bar, BarProviderAspect, barCtx, Empty).Ok?
    ensures MultiAspectCreate(MultiAspectContext(m, ApplyAspect(foo, FooProviderAspect, fooCtx, Empty).value,
                                                 ApplyAspect(bar, BarProviderAspect, barCtx, Empty).value))
         == Built(NoProviders.(ruleInfo := Some({"foo", "bar"}), runfiles := true), [])
  {
    MultiAspectSeesAttachedAspects(m, foo, bar, fooCtx, barCtx, FooProviderAspect, BarProviderAspect);
    var o := MultiAspectCreate(MultiAspectContext(m, ApplyAspect(foo, FooProviderAspect, fooCtx, Empty).value,
                                                  ApplyAspect(bar, BarProviderAspect, barCtx, Empty).value));
    var info := o.providers.ruleInfo.value;
    assert "foo" in info && "bar" in info && info <= {"foo", "bar"};
    assert info == {"foo", "bar"};
  }

  /** The multi-aspect rule sees `FooProvider` on `foo` but no `BarProvider` on `bar`. */
  lemma MultiAspectScenario(m: string, foo: Target, bar: Target)
    requires foo.providers.foo && !bar.providers.bar
    ensures BuildRule(MultiAspectContext(m, foo, bar))
         == Built(NoProviders.(ruleInfo := Some({"foo"}), runfiles := true), [])
  {
    var ctx := MultiAspectContext(m, foo, bar);
    assert Prerequisite(ctx, "foo") == Some(foo);
    assert Prerequisite(ctx, "bar") == Some(bar);
    assert FactoryOf(ctx.ruleClass) == MultiAspectRuleFactory;
    assert MultiAspectCreate(ctx).Built?;
    var info := MultiAspectCreate(ctx).providers.ruleInfo.value;
    assert "foo" in info && "bar" !in info && info <= {"foo", "bar"};
    assert info == {"foo"};
  }
}
