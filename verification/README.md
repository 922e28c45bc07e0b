# Aspect test fixtures of the analysis phase, modelled in Dafny

This project models the decision logic of `TestAspects.java`. That file holds the mock rules
and aspects used to test a build tool's aspect machinery. The framework objects become plain
data:

- A rule context is a label, a rule-class name, the declared attributes with their types, the
  values of string attributes, and the prerequisites (configured targets) of each attribute.
- A configured target is a label plus a `Providers` record with one field per provider type.
  This makes "at most one value per provider type" structural.
- Aspect parameters are an immutable multimap `map<string, seq<string>>` in which every key
  has at least one value.
- Every factory is a pure function. A factory that can fail returns an `Outcome`: either
  `Built(providers, warnings)` or `Failed(...)`.

Modules:

- `Aggregation`: `collectAspectData`, as a loop (`CollectAspectData`) and as a recursive
  definition (`AspectData`), with lemmas about what enters the aggregate.
- `Parameters`: the `baz` parameter extractor.
- `Definitions`: the aspect classes, the static definition table and `getDefinition`.
- `AspectFactories`: the aspects' `create` methods and their information strings.
- `RuleFactories`: the three rule factories, and which factory and advertised providers
  each test rule class has.
- `Scenarios`: small target graphs worked end to end, stated for arbitrary labels.

Two consequences of the code are worth stating:

- `SimpleAspect`'s definition does not propagate. The aspect therefore runs only on the `foo`
  prerequisites it is attached to, and not on the rule itself. The root's `RuleInfo` is
  `{"rule <r>", "aspect <leaf1>", "aspect <leaf2>"}` (`Scenarios.AspectDataReachesRoot`).
  The parametrized aspect, by contrast, also propagates along `foo`. At each `foo`
  prerequisite it runs with that prerequisite's label and context, and with the attaching
  rule's parameters (`Scenarios.ParametrizedScenario`).
- The "liar" rule class and the false-advertisement aspect only leave the advertised provider
  out. The model states exactly which advertised providers are missing.

## Model

| member | source | states |
|---|---|---|
| Aggregation.AspectData | src/test/java/com/google/devtools/build/lib/analysis/util/TestAspects.java:137-154 | The node's own string is always in the aggregate, and so is the data of every label-typed attribute. |
| Aggregation.AspectDataMembership | src/test/java/com/google/devtools/build/lib/analysis/util/TestAspects.java:141-153 | A string is in the aggregate if and only if it is the node's own string or is carried by the `AspectInfo` of a prerequisite of a `LABEL` or `LABEL_LIST` attribute. Nothing else enters. |
| Aggregation.CollectAspectData | src/test/java/com/google/devtools/build/lib/analysis/util/TestAspects.java:137-154 | The source's nested loop over attributes and prerequisites, which skips non-label attributes and prerequisites without `AspectInfo`, computes exactly the aggregate `AspectData` defines. |
| Aggregation.TargetsDataMembership | src/test/java/com/google/devtools/build/lib/analysis/util/TestAspects.java:147-151 | The data gathered from one attribute's prerequisites is exactly the union of the `AspectInfo` data of those that carry it. Prerequisites without it are skipped. |
| Aggregation.AttributesDataMembership | src/test/java/com/google/devtools/build/lib/analysis/util/TestAspects.java:142-152 | The data gathered over the attribute list comes exactly from the label-typed attributes. |
| Aggregation.NonLabelAttributeAddsNothing | src/test/java/com/google/devtools/build/lib/analysis/util/TestAspects.java:143-146 | An attribute of any other type (STRING, BOOLEAN, STRING_LIST, NODEP_LABEL_LIST) leaves the aggregate unchanged, wherever it is declared and whatever prerequisites it lists. |
| Aggregation.SharedPrerequisiteCountsOnce | src/test/java/com/google/devtools/build/lib/analysis/util/TestAspects.java:147-153 | Listing again a prerequisite that a label-typed attribute already reaches, under any attribute, leaves the aggregate unchanged. Shared data counts once. |
| Parameters.ExtractBazParameters | src/test/java/com/google/devtools/build/lib/analysis/util/TestAspects.java:644-653 | The parameters have `baz` if and only if `baz` is declared as STRING with a non-empty value. `baz` then maps to exactly that one value, and no other key is ever produced. Otherwise the result is the empty parameters. |
| Parameters.ExtractorSeparatesValues | src/test/java/com/google/devtools/build/lib/analysis/util/TestAspects.java:730-739 | The second, identical extractor copy shares the same definition. Two rules whose STRING `baz` values differ get different parameters. |
| Definitions.GetDefinition | src/test/java/com/google/devtools/build/lib/analysis/util/TestAspects.java:417-431 | A definition names its own aspect class, and it applies to files exactly for the file aspect. Every aspect other than the parametrized one returns its constant definition, `StaticDefinition`. The parametrized aspect always propagates along exactly `foo`, with no required or advertised providers. It has an implicit attribute if and only if `baz` is present, and that attribute is the label attribute `$dep` valued at the first `baz` value. |
| Definitions.StaticDefinition | src/test/java/com/google/devtools/build/lib/analysis/util/TestAspects.java:251-549 | The constant table. Exactly the two extra-attribute aspects add the label attribute `$dep` = "//extra:extra". Exactly the tool aspect adds `$tool` = "//a:tool". Every other aspect adds no implicit attribute. Only the false-advertisement aspect advertises providers. Only the file aspect applies to files; its definition is at lines 1057-1060. |
| Definitions.ImplicitLabelTable | src/test/java/com/google/devtools/build/lib/analysis/util/TestAspects.java:307-372 | A definition has a `$tool` label exactly for the tool aspect, and it is "//a:tool". Apart from the parametrized aspect, a definition has a `$dep` label exactly for the two extra-attribute aspects, and it is "//extra:extra". |
| Definitions.DefinitionIgnoresParameters | src/test/java/com/google/devtools/build/lib/analysis/util/TestAspects.java:262-266 | Every aspect other than the parametrized one returns the same definition for any two parameter values. |
| Definitions.ParametrizedDefinitionsAgreeOnFirstBaz | src/test/java/com/google/devtools/build/lib/analysis/util/TestAspects.java:419-430 | Parameters that agree on whether `baz` is present, and on its first value, give equal parametrized definitions. |
| Definitions.PropagationTable | src/test/java/com/google/devtools/build/lib/analysis/util/TestAspects.java:251-523 | From the static table: only the two all-attributes aspects propagate along every attribute. Exactly the attribute aspect, the provider-requiring aspect and the parametrized aspect propagate along `foo`. Exactly the warning and error aspects propagate along `bar`. The other eight aspects, `SimpleAspect` among them, propagate along no attribute. |
| Definitions.RequiredProvidersTable | src/test/java/com/google/devtools/build/lib/analysis/util/TestAspects.java:313-473 | Exactly two aspects require `RequiredProvider`: the extra-attribute-requiring-provider aspect and the provider-requiring aspect. Exactly the provider-sets aspect accepts `RequiredProvider` or `RequiredProvider2`. Every other aspect requires nothing. |
| AspectFactories.BaseAspectInfo | src/test/java/com/google/devtools/build/lib/analysis/util/TestAspects.java:236-238 | The string starts with "aspect <label>". With empty parameters it is exactly that. Otherwise " data <first baz>" follows. It fails (null dereference) exactly when the parameters are non-empty but lack `baz`. |
| AspectFactories.BaseInfoDeterminesData | src/test/java/com/google/devtools/build/lib/analysis/util/TestAspects.java:236-242 | Two parameter values whose base strings for one label are equal agree on emptiness and on the first `baz` value. The string loses none of that information. |
| AspectFactories.ParametrizedInfo | src/test/java/com/google/devtools/build/lib/analysis/util/TestAspects.java:436-448 | The string starts with "aspect <label>" and ends with "]". When parameters are given, " data <first baz> " follows the prefix. In both cases the rest is exactly "$dep:[" plus the space-prefixed labels of the `$dep` prerequisites plus "]". It fails exactly when non-empty parameters lack `baz`. |
| AspectFactories.DepLabelsAppend | src/test/java/com/google/devtools/build/lib/analysis/util/TestAspects.java:444-447 | The rendered `$dep` labels of a concatenation are the rendered labels of each part, in order. One target renders as a space followed by its label. |
| AspectFactories.ParametrizedInfoDeterminesData | src/test/java/com/google/devtools/build/lib/analysis/util/TestAspects.java:436-448 | For one rule context, two parameter values with equal parametrized strings agree on emptiness and on the first `baz` value. |
| AspectFactories.ParametrizedInfoDeterminesDeps | src/test/java/com/google/devtools/build/lib/analysis/util/TestAspects.java:436-448 | For one label and one parameter value, two contexts with equal parametrized strings render the same `$dep` labels. The string loses none of them. |
| AspectFactories.CreateAspect | src/test/java/com/google/devtools/build/lib/analysis/util/TestAspects.java:233-244 | Which aspects build and which fail: the error aspect reports "Aspect error", and the base and parametrized aspects fail on non-empty parameters without `baz`. `AspectInfo` is present exactly for the base and parametrized aspects, and it equals the aggregate of their string. `FooProvider` comes only from the foo aspect, `BarProvider` only from the bar aspect, and the file provider only from the aspect that applies to files. Only the warning aspect emits a warning. No aspect attaches `RequiredProvider`. |
| AspectFactories.ApplyAspect | src/test/java/com/google/devtools/build/lib/analysis/util/TestAspects.java:617-622 | A prerequisite reached through an attribute with an aspect attached carries its own providers plus those of the aspect applied to it, and nothing else. It exists exactly when the aspect builds, and it keeps its label. Its `RuleInfo` is the target's own. Its `AspectInfo` and file provider carry the aspect's data when the aspect attaches one, and the target's otherwise. |
| AspectFactories.ExtractedParametersReachBaseInfo | src/test/java/com/google/devtools/build/lib/analysis/util/TestAspects.java:642-662 | Parameters produced by the extractor never make the base aspect fail. Its string is "aspect <label> data <baz>" when `baz` is set to a non-empty value, and "aspect <label>" otherwise. |
| AspectFactories.ExtractedParametersSelectDep | src/test/java/com/google/devtools/build/lib/analysis/util/TestAspects.java:728-750 | The parametrized aspect, attached with the extractor, gets a `$dep` label exactly when the rule sets a non-empty `baz`, and that label is the `baz` value. |
| AspectFactories.AdvertisedTable | src/test/java/com/google/devtools/build/lib/analysis/util/TestAspects.java:544-549 | Of all the aspect definitions, only the false-advertisement aspect advertises providers. It advertises exactly `RequiredProvider` and the Starlark provider "advertised_provider". |
| AspectFactories.AspectAdvertisementHonesty | src/test/java/com/google/devtools/build/lib/analysis/util/TestAspects.java:525-549 | Every built aspect holds every provider its definition advertises, except the false-advertisement aspect. That aspect is missing exactly `RequiredProvider` and the Starlark provider "advertised_provider". |
| RuleFactories.DummyCreate | src/test/java/com/google/devtools/build/lib/analysis/util/TestAspects.java:159-177 | `RuleInfo` is always attached. It holds "rule <label>" and equals the aggregate of that string. Runfiles are always attached. `RequiredProvider` is attached if and only if the rule class is "honest". `RequiredProvider2`, `AspectInfo`, `FooProvider` and `BarProvider` are never attached. |
| RuleFactories.Dummy2Create | src/test/java/com/google/devtools/build/lib/analysis/util/TestAspects.java:182-195 | `RuleInfo` holds the aggregate of "rule <label>". `RequiredProvider`, `RequiredProvider2` and runfiles are always attached. Nothing else is. |
| RuleFactories.MultiAspectCreate | src/test/java/com/google/devtools/build/lib/analysis/util/TestAspects.java:201-226 | The target builds if and only if both `foo` and `bar` have a prerequisite. A missing `foo` fails before `bar` is looked at. The info set holds "foo" if and only if the `foo` prerequisite carries `FooProvider`, and "bar" if and only if the `bar` prerequisite carries `BarProvider`. Nothing else is added. A missing `bar` then fails in turn. The built target carries only that `RuleInfo` and runfiles, and no other provider. |
| RuleFactories.BuildRule | src/test/java/com/google/devtools/build/lib/analysis/util/TestAspects.java:575-582 | Each test rule class is built by the factory it names. "multi_aspect" uses the multi-aspect factory. "honest2" uses `DummyRuleFactory2`. Every other class uses `DummyRuleFactory`. The latter two always build, without warnings. |
| RuleFactories.RuleAdvertisementHonesty | src/test/java/com/google/devtools/build/lib/analysis/util/TestAspects.java:904-943 | Of the test rule classes, only "liar" builds targets that lack an advertised provider. It lacks exactly `RequiredProvider`. "honest" advertises the same provider and always supplies it. |
| RuleFactories.LiarDiffersFromHonestOnlyInRequired | src/test/java/com/google/devtools/build/lib/analysis/util/TestAspects.java:171-173 | For the same context, a "liar" target equals an "honest" target with `RequiredProvider` removed. Nothing else differs. |
| Scenarios.SimpleAspectInfo | src/test/java/com/google/devtools/build/lib/analysis/util/TestAspects.java:262-266 | With empty parameters the simple aspect always builds. It publishes the aggregate of "aspect <label>". |
| Scenarios.SimpleAspectApplied | src/test/java/com/google/devtools/build/lib/analysis/util/TestAspects.java:262-266 | A rule's plain target with the simple aspect applied through `ApplyAspect` is exactly the `WithSimpleAspect` target the scenarios use. |
| Scenarios.AllAttributesAspectInfo | src/test/java/com/google/devtools/build/lib/analysis/util/TestAspects.java:233-244 | The all-attributes aspect, applied with empty parameters to any target, keeps the target's label. It publishes exactly the aggregate of "aspect <label>" over its rule context. |
| Scenarios.NoAspectNoTransitiveData | src/test/java/com/google/devtools/build/lib/analysis/util/TestAspects.java:881-899 | A "simple" rule whose `foo` lists two plain targets publishes exactly {"rule <r>"}. Without an aspect, no transitive data arrives, and the STRING attribute `txt` adds nothing. |
| Scenarios.AspectDataReachesRoot | src/test/java/com/google/devtools/build/lib/analysis/util/TestAspects.java:588-596 | With the simple aspect on both `foo` leaves, the rule publishes exactly {"rule <r>", "aspect <leaf1>", "aspect <leaf2>"}. |
| Scenarios.DiamondContributesOnce | src/test/java/com/google/devtools/build/lib/analysis/util/TestAspects.java:789-806 | Consider an "all_attributes_aspect" rule `a` over `b` and `c`, both over `d`, with the attached all-attributes aspect propagating to all three. Whatever targets those rules built, `a`'s `RuleInfo` is exactly {"rule <a>", "aspect <b>", "aspect <c>", "aspect <d>"}. The shared `d` contributes once. |
| Scenarios.ParametrizedScenario | src/test/java/com/google/devtools/build/lib/analysis/util/TestAspects.java:726-761 | The parametrized aspect is attached to `foo` of a rule whose `baz` names `dep`. The rule's parameters give the aspect a `$dep` label `dep`. At a `foo` leaf `t`, whose `$dep` resolves to `dep`, the aspect publishes exactly {"aspect <t> data <dep> $dep:[ <dep>]"}. |
| Scenarios.ParametrizedRuleParameters | src/test/java/com/google/devtools/build/lib/analysis/util/TestAspects.java:728-739 | A rule setting `baz` to a non-empty `dep` gives exactly the parameter `baz` = [dep]. |
| Scenarios.ParametrizedAspectAtLeaf | src/test/java/com/google/devtools/build/lib/analysis/util/TestAspects.java:434-451 | With `baz` = [dep] at a leaf whose `$dep` is the plain target `dep`, the aspect builds with exactly the one string "aspect <t> data <dep> $dep:[ <dep>]". |
| Scenarios.MultiAspectScenario | src/test/java/com/google/devtools/build/lib/analysis/util/TestAspects.java:613-635 | A "multi_aspect" rule whose `foo` carries `FooProvider` and whose `bar` lacks `BarProvider` builds with exactly {"foo"} and runfiles. |
| Scenarios.MultiAspectSeesAttachedAspects | src/test/java/com/google/devtools/build/lib/analysis/util/TestAspects.java:617-622 | Whatever aspects are attached to `foo` and `bar`, if both build, the multi-aspect rule records "foo" exactly when `FooProvider` reaches it, from the target or from the aspect on `foo`. "bar" is recorded likewise. |
| Scenarios.MultiAspectRuleSeesBoth | src/test/java/com/google/devtools/build/lib/analysis/util/TestAspects.java:613-635 | With the aspects the rule attaches, `FooProvider` on `foo` and `BarProvider` on `bar`, both aspects build. The rule then builds with exactly {"foo", "bar"} and runfiles, whatever the targets themselves provide. |

## Left out

- Order of the nested sets: `NestedSet` and its stable order are library code that this model does not include. Aggregates are modelled as sets, and no ordering is claimed.
- Framework plumbing: files to build, runfiles contents, `setRunfilesSupport`, and the target and aspect builders. These are framework calls with no local decisions. Runfiles appear only as a flag.
- Rule definitions: attribute lists, file-type constraints, ancestors, and which aspect each rule attaches with which extractor. These are registration wiring. Only each rule class's factory and advertised providers are kept.
- Provider-requirement semantics: the effect of `requireProviders`, `requireProviderSets` and `advertiseProvider`, dependency resolution, aspect propagation and gating. These live in framework code that is not part of this model. The definitions only record the data given to them.
- `LateBoundDepRule`'s late-bound plugin list: it reads the external build configuration.
- Label parsing: labels are opaque strings. `parseAbsolute` and its `LabelSyntaxException` path in the parametrized definition are not modelled.
- Reporting: the warning and error aspects are modelled by their outcome, a warning text or a reported error. The reporter that records them is not.
- `getPrerequisite`: it is modelled as the attribute's first listed prerequisite, or null when there is none. The framework's own checks on the attribute's type are not modelled.
- Caching, at-most-once construction per key, and concurrency: none of these appear in the fixture.
- AspectFactories.BaseAspectInfo: the failure on non-empty parameters without `baz` assumes that `AspectParameters.getAttribute` returns null for a missing key, so that `Iterables.getFirst` throws. That library is not part of this model. The basis is the `baz != null` test of the same call at src/test/java/com/google/devtools/build/lib/analysis/util/TestAspects.java:423. The same assumption underlies `ParametrizedInfo` and `CreateAspect`.
- AspectFactories.CreateAspect: the file aspect records the rule context's label. The source records the base target's label (line 1066), which differs when the base is an output file. File targets are not part of this model.
- Providers.Merge: when a target and an aspect both carry a provider type, the framework reports a conflict. Here the aspect's value is kept. Duplicate-provider checking is framework code.
