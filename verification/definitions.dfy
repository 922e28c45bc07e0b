/**
 * Aspect classes of the test fixture and the definitions they return: where each aspect
 * propagates, which providers it requires or advertises, which implicit attributes it adds.
 */
module Definitions {
  import opened Optional
  import opened Providers
  import opened Rules
  import opened Parameters

  datatype AspectClass =
    | SimpleAspect
    | FooProviderAspect
    | BarProviderAspect
    | ExtraAttributeAspect
    | ExtraAttributeAspectRequiringProvider
    | AttributeAspect
    | AllAttributesAspect
    | AllAttributesWithToolAspect
    | AspectRequiringProvider
    | AspectRequiringProviderSets
    | ParametrizedDefinitionAspect
    | WarningAspect
    | ErrorAspect
    | FalseAdvertisementAspect
    | AspectApplyingToFiles

  /** The aspects whose factory is the shared base one that publishes `AspectInfo`. */
  predicate IsBaseAspect(a: AspectClass) {
    a in {SimpleAspect, ExtraAttributeAspect, ExtraAttributeAspectRequiringProvider,
          AttributeAspect, AllAttributesAspect, AllAttributesWithToolAspect,
          AspectRequiringProvider, AspectRequiringProviderSets}
  }

  /** Either the named attributes or every attribute. */
  datatype Propagation = AlongAttributes(names: set<string>) | AlongAllAttributes

  /** An attribute an aspect adds to the node it is applied to, with its label value. */
  datatype ImplicitAttribute = ImplicitAttribute(name: string, typ: AttrType, value: string)

  /**
   * `requiredProviders` is a disjunction of conjunctions: the empty list accepts every target.
   */
  datatype AspectDefinition = AspectDefinition(
    aspect: AspectClass,
    propagation: Propagation,
    requiredProviders: seq<set<ProviderType>>,
    advertised: set<ProviderType>,
    implicitAttributes: seq<ImplicitAttribute>,
    applyToFiles: bool)

  /** What a fresh definition builder yields before anything is added. */
  function Builder(a: AspectClass): AspectDefinition {
    AspectDefinition(a, AlongAttributes({}), [], {}, [], false)
  }

  const ExtraDep := ImplicitAttribute("$dep", Label, "//extra:extra")
  const Tool := ImplicitAttribute("$tool", Label, "//a:tool")

  /**
   * The constant definition of every aspect whose definition ignores its parameters. Only the
   * two extra-attribute aspects add `$dep` (labelled "//extra:extra"), only the tool aspect adds
   * `$tool` (labelled "//a:tool"), only the false-advertisement aspect advertises, and only the
   * file aspect applies to files.
   */
  function StaticDefinition(a: AspectClass): (d: AspectDefinition)
    requires a != ParametrizedDefinitionAspect
    ensures d.aspect == a
    ensures d.applyToFiles <==> a == AspectApplyingToFiles
    ensures d.advertised != {} <==> a == FalseAdvertisementAspect
    ensures d.implicitAttributes == [ImplicitAttribute("$dep", Label, "//extra:extra")]
      <==> a == ExtraAttributeAspect || a == ExtraAttributeAspectRequiringProvider
    ensures d.implicitAttributes == [ImplicitAttribute("$tool", Label, "//a:tool")]
      <==> a == AllAttributesWithToolAspect
    ensures d.implicitAttributes == []
      <==> !(a in {ExtraAttributeAspect, ExtraAttributeAspectRequiringProvider,
                   AllAttributesWithToolAspect})
  {
    match a
    case SimpleAspect => Builder(a)
    case FooProviderAspect => Builder(a)
    case BarProviderAspect => Builder(a)
    case ExtraAttributeAspect => Builder(a).(implicitAttributes := [ExtraDep])
    case ExtraAttributeAspectRequiringProvider =>
      Builder(a).(implicitAttributes := [ExtraDep], requiredProviders := [{RequiredType}])
    case AttributeAspect => Builder(a).(propagation := AlongAttributes({"foo"}))
    case AllAttributesAspect => Builder(a).(propagation := AlongAllAttributes)
    case AllAttributesWithToolAspect =>
      Builder(a).(propagation := AlongAllAttributes, implicitAttributes := [Tool])
    case AspectRequiringProvider =>
      Builder(a).(requiredProviders := [{RequiredType}], propagation := AlongAttributes({"foo"}))
    case AspectRequiringProviderSets =>
      Builder(a).(requiredProviders := [{RequiredType}, {Required2Type}])
    case WarningAspect => Builder(a).(propagation := AlongAttributes({"bar"}))
    case ErrorAspect => Builder(a).(propagation := AlongAttributes({"bar"}))
    case FalseAdvertisementAspect =>
      Builder(a).(advertised := {RequiredType, Starlark("advertised_provider")})
    case AspectApplyingToFiles => Builder(a).(applyToFiles := true)
  }

  /**
   * `getDefinition`. Only the parametrized aspect looks at its parameters: it always propagates
   * along `foo`, and adds the label attribute `$dep` when a `baz` parameter is present, taking
   * the label from the first `baz` value. Every other aspect returns its constant definition.
   */
  function GetDefinition(a: AspectClass, params: AspectParameters): (d: AspectDefinition)
    ensures d.aspect == a
    ensures d.applyToFiles <==> a == AspectApplyingToFiles
    ensures a != ParametrizedDefinitionAspect ==> d == StaticDefinition(a)
    ensures a == ParametrizedDefinitionAspect ==>
      && d.propagation == AlongAttributes({"foo"})
      && d.requiredProviders == [] && d.advertised == {} && !d.applyToFiles
      && (|d.implicitAttributes| > 0 <==> "baz" in params)
      && ("baz" in params ==> d.implicitAttributes == [ImplicitAttribute("$dep", Label, params["baz"][0])])
  {
    if a == ParametrizedDefinitionAspect then
      var d := Builder(a).(propagation := AlongAttributes({"foo"}));
      match GetAttribute(params, "baz")
      case Some(baz) => d.(implicitAttributes := [ImplicitAttribute("$dep", Label, baz[0])])
      case None => d
    else
      StaticDefinition(a)
  }

  /** The label of the implicit attribute `name` of a definition, if it declares one. */
  function ImplicitLabel(d: AspectDefinition, name: string): Option<string> {
    FirstLabelNamed(d.implicitAttributes, name)
  }

  function FirstLabelNamed(attrs: seq<ImplicitAttribute>, name: string): Option<string> {
    if attrs == [] then None
    else if attrs[0].name == name then Some(attrs[0].value)
    else FirstLabelNamed(attrs[1..], name)
  }

  /**
   * Which aspects give the nodes they visit an implicit `$tool` or `$dep` label, and which label.
   * The parametrized aspect's `$dep` comes from its parameters (`GetDefinition`).
   */
  lemma ImplicitLabelTable(a: AspectClass, params: AspectParameters)
    ensures ImplicitLabel(GetDefinition(a, params), "$tool")
      == if a == AllAttributesWithToolAspect then Some("//a:tool") else None
    ensures a != ParametrizedDefinitionAspect ==>
      ImplicitLabel(GetDefinition(a, params), "$dep")
        == if a == ExtraAttributeAspect || a == ExtraAttributeAspectRequiringProvider
           then Some("//extra:extra") else None
  {
    var attrs := GetDefinition(a, params).implicitAttributes;
    if attrs != [] {
      assert attrs == [attrs[0]];
      SingleLabel(attrs[0], "$tool");
      SingleLabel(attrs[0], "$dep");
    }
  }

  lemma SingleLabel(x: ImplicitAttribute, name: string)
    ensures FirstLabelNamed([x], name) == if x.name == name then Some(x.value) else None
  {
    assert [x][1..] == [];
  }

  /** Every aspect but the parametrized one ignores its parameters. */
  lemma DefinitionIgnoresParameters(a: AspectClass, p1: AspectParameters, p2: AspectParameters)
    requires a != ParametrizedDefinitionAspect
    ensures GetDefinition(a, p1) == GetDefinition(a, p2)
  {
  }

  /** Parametrized definitions differ only in the `$dep` attribute the parameters select. */
  lemma ParametrizedDefinitionsAgreeOnFirstBaz(p1: AspectParameters, p2: AspectParameters)
    requires ("baz" in p1) == ("baz" in p2)
    requires "baz" in p1 ==> p1["baz"][0] == p2["baz"][0]
    ensures GetDefinition(ParametrizedDefinitionAspect, p1) == GetDefinition(ParametrizedDefinitionAspect, p2)
  {
  }

  /** Which aspects propagate along which attributes. */
  lemma PropagationTable(a: AspectClass, params: AspectParameters)
    ensures GetDefinition(a, params).propagation == AlongAllAttributes
      <==> a == AllAttributesAspect || a == AllAttributesWithToolAspect
    ensures GetDefinition(a, params).propagation == AlongAttributes({"foo"})
      <==> a in {AttributeAspect, AspectRequiringProvider, ParametrizedDefinitionAspect}
    ensures GetDefinition(a, params).propagation == AlongAttributes({"bar"})
      <==> a == WarningAspect || a == ErrorAspect
    ensures GetDefinition(a, params).propagation == AlongAttributes({})
      <==> a in {SimpleAspect, FooProviderAspect, BarProviderAspect, ExtraAttributeAspect,
                 ExtraAttributeAspectRequiringProvider, AspectRequiringProviderSets,
                 FalseAdvertisementAspect, AspectApplyingToFiles}
  {
  }

  /** Which aspects restrict the targets they apply to by required providers. */
  lemma RequiredProvidersTable(a: AspectClass, params: AspectParameters)
    ensures GetDefinition(a, params).requiredProviders == [{RequiredType}]
      <==> a == ExtraAttributeAspectRequiringProvider || a == AspectRequiringProvider
    ensures GetDefinition(a, params).requiredProviders == [{RequiredType}, {Required2Type}]
      <==> a == AspectRequiringProviderSets
    ensures |GetDefinition(a, params).requiredProviders| == 0
      <==> !(a in {ExtraAttributeAspectRequiringProvider, AspectRequiringProvider,
                   AspectRequiringProviderSets})
  {
  }
}
