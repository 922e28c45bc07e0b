/**
 * Transitive info providers of the test rules and aspects.
 *
 * A provider type is a nominal identity; a configured target or aspect exposes at most one
 * value per type, which the `Providers` record enforces by having one field per type.
 */
module Providers {
  import opened Optional

  /** The provider types the rules and aspects of the test fixture know about. */
  datatype ProviderType =
    | RuleInfoType
    | AspectInfoType
    | FooType
    | BarType
    | RequiredType
    | Required2Type
    | RunfilesType
    | FileTargetType
    | Starlark(name: string)   // a legacy Starlark provider identified by name

  /**
   * The providers of one configured target, with the aspects applied to it merged in.
   * `ruleInfo` and `aspectInfo` carry the aggregated strings of `RuleInfo` and `AspectInfo`;
   * `fileTarget` carries the label held by the provider of the aspect that applies to files.
   */
  datatype Providers = Providers(
    ruleInfo: Option<set<string>>,
    aspectInfo: Option<set<string>>,
    foo: bool,
    bar: bool,
    required: bool,
    required2: bool,
    runfiles: bool,
    fileTarget: Option<string>)

  const NoProviders := Providers(None, None, false, false, false, false, false, None)

  /** Does the bundle hold a value of provider type `t`? */
  predicate Has(p: Providers, t: ProviderType) {
    match t
    case RuleInfoType => p.ruleInfo.Some?
    case AspectInfoType => p.aspectInfo.Some?
    case FooType => p.foo
    case BarType => p.bar
    case RequiredType => p.required
    case Required2Type => p.required2
    case RunfilesType => p.runfiles
    case FileTargetType => p.fileTarget.Some?
    case Starlark(_) => false
  }

  /**
   * The providers of a configured target with those of an aspect applied to it merged in.
   * The framework refuses two values of one provider type; here the aspect's value is kept.
   */
  function Merge(base: Providers, added: Providers): Providers {
    Providers(
      if added.ruleInfo.Some? then added.ruleInfo else base.ruleInfo,
      if added.aspectInfo.Some? then added.aspectInfo else base.aspectInfo,
      base.foo || added.foo,
      base.bar || added.bar,
      base.required || added.required,
      base.required2 || added.required2,
      base.runfiles || added.runfiles,
      if added.fileTarget.Some? then added.fileTarget else base.fileTarget)
  }

  /**
   * A merged bundle holds exactly the provider types held by either part; a provider that
   * carries data carries the aspect's when the aspect has one, and the target's otherwise.
   */
  lemma MergeHas(base: Providers, added: Providers)
    ensures forall t :: Has(Merge(base, added), t) <==> Has(base, t) || Has(added, t)
    ensures Merge(base, added).ruleInfo == if added.ruleInfo.Some? then added.ruleInfo else base.ruleInfo
    ensures Merge(base, added).aspectInfo == if added.aspectInfo.Some? then added.aspectInfo else base.aspectInfo
    ensures Merge(base, added).fileTarget == if added.fileTarget.Some? then added.fileTarget else base.fileTarget
  {
    forall t ensures Has(Merge(base, added), t) <==> Has(base, t) || Has(added, t) {
      MergeHasOne(base, added, t);
    }
  }

  lemma MergeHasOne(base: Providers, added: Providers, t: ProviderType)
    ensures Has(Merge(base, added), t) <==> Has(base, t) || Has(added, t)
  {
  }

  /** The advertised provider types that the built bundle does not actually hold. */
  function MissingAdvertised(advertised: set<ProviderType>, p: Providers): set<ProviderType> {
    set t | t in advertised && !Has(p, t)
  }

  /** Why a factory produced no node. */
  datatype Failure =
    | ReportedError(message: string)   // the factory reported an error and returned null
    | NullDereference(site: string)    // a null reference was dereferenced at `site`

  /** What a rule or aspect factory produces: a node with its warnings, or a failure. */
  datatype Outcome =
    | Built(providers: Providers, warnings: seq<string>)
    | Failed(failure: Failure)

  /** A value, or the failure that prevented computing it. */
  datatype Result<+T> = Ok(value: T) | Err(failure: Failure)
}
