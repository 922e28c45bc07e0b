/**
 * Aspect parameters and the extraction function the test rules attach to their aspects.
 */
module Parameters {
  import opened Optional
  import opened Rules

  /**
   * An immutable multimap from parameter name to values: a key is present only with at least
   * one value, in the order the values were added.
   */
  type AspectParameters = m: map<string, seq<string>> | forall k :: k in m ==> |m[k]| > 0
    witness map[]

  /** The distinguished empty parameters. */
  const Empty: AspectParameters := map[]

  predicate IsEmpty(p: AspectParameters) {
    |p| == 0
  }

  /** The values of parameter `key`, or null when the key is absent. */
  function GetAttribute(p: AspectParameters, key: string): Option<seq<string>> {
    if key in p then Some(p[key]) else None
  }

  /**
   * The parameter extractor of the rules that attach a parametrized aspect: a `baz` attribute
   * declared with type STRING and set to a non-empty value becomes the single parameter
   * `baz` with that one value; every other rule yields the empty parameters.
   */
  function ExtractBazParameters(ctx: RuleContext): (p: AspectParameters)
    ensures p.Keys <= {"baz"}
    ensures "baz" in p <==> IsAttrDefined(ctx, "baz", Str) && StringValue(ctx, "baz") != ""
    ensures "baz" in p ==> p["baz"] == [StringValue(ctx, "baz")]
  {
    if IsAttrDefined(ctx, "baz", Str) && StringValue(ctx, "baz") != "" then
      map["baz" := [StringValue(ctx, "baz")]]
    else
      Empty
  }


  /** Rules whose string attribute `baz` differs in a non-empty value yield different parameters. */
  lemma ExtractorSeparatesValues(c1: RuleContext, c2: RuleContext)
    requires IsAttrDefined(c1, "baz", Str) && IsAttrDefined(c2, "baz", Str)
    requires StringValue(c1, "baz") != StringValue(c2, "baz")
    ensures ExtractBazParameters(c1) != ExtractBazParameters(c2)
  {
    if StringValue(c1, "baz") != "" {
      assert ExtractBazParameters(c1)["baz"] == [StringValue(c1, "baz")];
    } else {
      assert ExtractBazParameters(c2)["baz"] == [StringValue(c2, "baz")];
    }
  }
}
