/**
 * The rule context a factory sees, reduced to plain data: the rule's label and rule-class
 * name, its declared attributes with their types, the values of its string attributes and,
 * per attribute, the prerequisites (configured targets) the attribute resolved to.
 */
module Rules {
  import opened Optional
  import opened Providers

  /** Attribute types used by the test rule classes. */
  datatype AttrType = Label | LabelList | NodepLabelList | Str | Bool | StrList

  datatype AttrDecl = AttrDecl(name: string, typ: AttrType)

  /** A prerequisite: a configured target with the providers it exposes. */
  datatype Target = Target(targetLabel: string, providers: Providers)

  datatype RuleContext = RuleContext(
    ruleLabel: string,
    ruleClass: string,
    attributes: seq<AttrDecl>,
    strings: map<string, string>,
    prerequisites: map<string, seq<Target>>)

  /** Only `LABEL` and `LABEL_LIST` attributes are followed when aggregating data. */
  predicate IsLabelType(t: AttrType) {
    t == Label || t == LabelList
  }

  /** The prerequisites of attribute `name`; an attribute without any yields none. */
  function Prerequisites(ctx: RuleContext, name: string): seq<Target> {
    if name in ctx.prerequisites then ctx.prerequisites[name] else []
  }

  /** The single prerequisite of a `LABEL` attribute, or null when it has none. */
  function Prerequisite(ctx: RuleContext, name: string): Option<Target> {
    var ts := Prerequisites(ctx, name);
    if |ts| == 0 then None else Some(ts[0])
  }

  /** Is an attribute `name` of type `typ` declared by the rule's class? */
  predicate IsAttrDefined(ctx: RuleContext, name: string, typ: AttrType) {
    AttrDecl(name, typ) in ctx.attributes
  }

  /** The value of a string attribute; one that was never set holds the empty default. */
  function StringValue(ctx: RuleContext, name: string): string {
    if name in ctx.strings then ctx.strings[name] else ""
  }
}
