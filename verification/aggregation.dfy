/**
 * `collectAspectData`: the set of strings a rule or aspect publishes is its own string plus the
 * `AspectInfo` data of every prerequisite reached through a `LABEL` or `LABEL_LIST` attribute.
 * The nested set built by the source is modelled by its contents; its iteration order is not.
 */
module Aggregation {
  import opened Optional
  import opened Providers
  import opened Rules

  /** The `AspectInfo` data of a prerequisite; a prerequisite without it is skipped. */
  function InfoOf(t: Target): set<string> {
    if t.providers.aspectInfo.Some? then t.providers.aspectInfo.value else {}
  }

  /** The data of all prerequisites in `ts` that carry `AspectInfo`. */
  function TargetsData(ts: seq<Target>): set<string> {
    if ts == [] then {} else TargetsData(ts[..|ts| - 1]) + InfoOf(ts[|ts| - 1])
  }

  /** The data contributed by the attributes `attrs`, each looked up in `ctx`. */
  function AttributesData(ctx: RuleContext, attrs: seq<AttrDecl>): set<string> {
    if attrs == [] then {}
    else
      var a := attrs[|attrs| - 1];
      AttributesData(ctx, attrs[..|attrs| - 1])
        + (if IsLabelType(a.typ) then TargetsData(Prerequisites(ctx, a.name)) else {})
  }

  /** `s` is in the data of `ts` exactly when some prerequisite of `ts` carries it. */
  lemma {:induction false} TargetsDataMembership(ts: seq<Target>, s: string)
    ensures s in TargetsData(ts) <==> exists j :: 0 <= j < |ts| && s in InfoOf(ts[j])
    decreases |ts|
  {
    if ts != [] {
      var ts' := ts[..|ts| - 1];
      TargetsDataMembership(ts', s);
      if s in TargetsData(ts') {
        var j :| 0 <= j < |ts'| && s in InfoOf(ts'[j]);
        assert ts[j] == ts'[j];
      }
      if exists j :: 0 <= j < |ts| && s in InfoOf(ts[j]) {
        var j :| 0 <= j < |ts| && s in InfoOf(ts[j]);
        if j < |ts| - 1 {
          assert ts'[j] == ts[j];
        }
      }
    }
  }

  /** `s` is in the data of `attrs` exactly when some label-typed attribute of `attrs` yields it. */
  lemma {:induction false} AttributesDataMembership(ctx: RuleContext, attrs: seq<AttrDecl>, s: string)
    ensures s in AttributesData(ctx, attrs) <==>
      exists i :: 0 <= i < |attrs| && IsLabelType(attrs[i].typ)
                  && s in TargetsData(Prerequisites(ctx, attrs[i].name))
    decreases |attrs|
  {
    if attrs != [] {
      var attrs' := attrs[..|attrs| - 1];
      AttributesDataMembership(ctx, attrs', s);
      if s in AttributesData(ctx, attrs') {
        var i :| 0 <= i < |attrs'| && IsLabelType(attrs'[i].typ)
                 && s in TargetsData(Prerequisites(ctx, attrs'[i].name));
        assert attrs[i] == attrs'[i];
      }
      if exists i :: 0 <= i < |attrs| && IsLabelType(attrs[i].typ)
                     && s in TargetsData(Prerequisites(ctx, attrs[i].name)) {
        var i :| 0 <= i < |attrs| && IsLabelType(attrs[i].typ)
                 && s in TargetsData(Prerequisites(ctx, attrs[i].name));
        if i < |attrs| - 1 {
          assert attrs'[i] == attrs[i];
        }
      }
    }
  }

  /** `s` is carried by the `AspectInfo` of some prerequisite of a label-typed attribute. */
  ghost predicate Contributes(ctx: RuleContext, s: string) {
    exists i, j :: 0 <= i < |ctx.attributes| && IsLabelType(ctx.attributes[i].typ)
                   && 0 <= j < |Prerequisites(ctx, ctx.attributes[i].name)|
                   && s in InfoOf(Prerequisites(ctx, ctx.attributes[i].name)[j])
  }

  /** The aggregate published under the string `me` for the rule context `ctx`. */
  function AspectData(me: string, ctx: RuleContext): (r: set<string>)
    ensures me in r
    ensures AttributesData(ctx, ctx.attributes) <= r
  {
    {me} + AttributesData(ctx, ctx.attributes)
  }

  /**
   * Exactly `me` and the strings carried by prerequisites of label-typed attributes are in
   * the aggregate: nothing else enters.
   */
  lemma AspectDataMembership(me: string, ctx: RuleContext, s: string)
    ensures s in AspectData(me, ctx) <==> s == me || Contributes(ctx, s)
  {
    AttributesDataMembership(ctx, ctx.attributes, s);
    forall i | 0 <= i < |ctx.attributes|
      ensures s in TargetsData(Prerequisites(ctx, ctx.attributes[i].name)) <==>
        exists j :: 0 <= j < |Prerequisites(ctx, ctx.attributes[i].name)|
                    && s in InfoOf(Prerequisites(ctx, ctx.attributes[i].name)[j])
    {
      TargetsDataMembership(Prerequisites(ctx, ctx.attributes[i].name), s);
    }
  }

  /** The loop of the source: start from `me`, then add the data of each eligible prerequisite. */
  method CollectAspectData(me: string, ctx: RuleContext) returns (r: set<string>)
    ensures r == AspectData(me, ctx)
  {
    r := {me};
    var i := 0;
    while i < |ctx.attributes|
      invariant 0 <= i <= |ctx.attributes|
      invariant r == {me} + AttributesData(ctx, ctx.attributes[..i])
    {
      var a := ctx.attributes[i];
      assert ctx.attributes[..i + 1][..i] == ctx.attributes[..i];
      if IsLabelType(a.typ) {
        var ts := Prerequisites(ctx, a.name);
        var j := 0;
        while j < |ts|
          invariant 0 <= j <= |ts|
          invariant r == {me} + AttributesData(ctx, ctx.attributes[..i]) + TargetsData(ts[..j])
        {
          assert ts[..j + 1][..j] == ts[..j];
          if ts[j].providers.aspectInfo.Some? {
            r := r + ts[j].providers.aspectInfo.value;
          }
          j := j + 1;
        }
        assert ts[..|ts|] == ts;
      }
      i := i + 1;
    }
    assert ctx.attributes[..|ctx.attributes|] == ctx.attributes;
  }

  /** Attribute data distributes over concatenation of the attribute list. */
  lemma {:induction false} AttributesDataAppend(ctx: RuleContext, xs: seq<AttrDecl>, ys: seq<AttrDecl>)
    ensures AttributesData(ctx, xs + ys) == AttributesData(ctx, xs) + AttributesData(ctx, ys)
    decreases |ys|
  {
    if ys == [] {
      assert xs + ys == xs;
    } else {
      var ys' := ys[..|ys| - 1];
      assert (xs + ys)[..|xs + ys| - 1] == xs + ys';
      assert (xs + ys)[|xs + ys| - 1] == ys[|ys| - 1];
      AttributesDataAppend(ctx, xs, ys');
    }
  }

  /**
   * An attribute that is not label-typed contributes nothing, wherever it is declared and
   * whatever prerequisites the context lists for it.
   */
  lemma NonLabelAttributeAddsNothing(me: string, ctx: RuleContext, a: AttrDecl, k: nat)
    requires !IsLabelType(a.typ)
    requires k <= |ctx.attributes|
    ensures AspectData(me, ctx.(attributes := ctx.attributes[..k] + [a] + ctx.attributes[k..]))
         == AspectData(me, ctx)
  {
    var xs, ys := ctx.attributes[..k], ctx.attributes[k..];
    var ctx' := ctx.(attributes := xs + [a] + ys);
    AttributesDataAppend(ctx, xs + [a], ys);
    AttributesDataAppend(ctx, xs, [a]);
    AttributesDataAppend(ctx, xs, ys);
    assert [a][..0] == [];
    assert AttributesData(ctx, [a]) == {};
    assert xs + ys == ctx.attributes;
    AttributesDataFrame(ctx', ctx, ctx'.attributes);
  }

  /** Attribute data reads nothing of the context but its prerequisites. */
  lemma {:induction false} AttributesDataFrame(ctx: RuleContext, ctx': RuleContext, attrs: seq<AttrDecl>)
    requires ctx.prerequisites == ctx'.prerequisites
    ensures AttributesData(ctx, attrs) == AttributesData(ctx', attrs)
    decreases |attrs|
  {
    if attrs != [] {
      AttributesDataFrame(ctx, ctx', attrs[..|attrs| - 1]);
    }
  }

  /** Each prerequisite's data is part of the data of the list holding it. */
  lemma {:induction false} TargetsDataIncludes(ts: seq<Target>, k: nat)
    requires k < |ts|
    ensures InfoOf(ts[k]) <= TargetsData(ts)
    decreases |ts|
  {
    if k < |ts| - 1 {
      TargetsDataIncludes(ts[..|ts| - 1], k);
    }
  }

  /** The prerequisites' data of each label-typed attribute is part of the attributes' data. */
  lemma {:induction false} AttributesDataIncludes(ctx: RuleContext, attrs: seq<AttrDecl>, i: nat)
    requires i < |attrs| && IsLabelType(attrs[i].typ)
    ensures TargetsData(Prerequisites(ctx, attrs[i].name)) <= AttributesData(ctx, attrs)
    decreases |attrs|
  {
    if i < |attrs| - 1 {
      AttributesDataIncludes(ctx, attrs[..|attrs| - 1], i);
    }
  }

  /**
   * When every attribute's prerequisites gain at most the strings `extra` and lose none, the
   * attributes' data does the same.
   */
  lemma {:induction false} AttributesDataBounds(ctx: RuleContext, ctx': RuleContext,
                                                attrs: seq<AttrDecl>, extra: set<string>)
    requires forall x :: TargetsData(Prerequisites(ctx, x)) <= TargetsData(Prerequisites(ctx', x))
    requires forall x :: TargetsData(Prerequisites(ctx', x)) <= TargetsData(Prerequisites(ctx, x)) + extra
    ensures AttributesData(ctx, attrs) <= AttributesData(ctx', attrs)
    ensures AttributesData(ctx', attrs) <= AttributesData(ctx, attrs) + extra
    decreases |attrs|
  {
    if attrs != [] {
      AttributesDataBounds(ctx, ctx', attrs[..|attrs| - 1], extra);
    }
  }

  /**
   * A prerequisite already reached through some label-typed attribute adds nothing when it is
   * listed again, under the same attribute or any other: shared data counts once.
   */
  lemma SharedPrerequisiteCountsOnce(me: string, ctx: RuleContext, t: Target, i: nat, name: string)
    requires i < |ctx.attributes| && IsLabelType(ctx.attributes[i].typ)
    requires t in Prerequisites(ctx, ctx.attributes[i].name)
    ensures AspectData(me, ctx.(prerequisites :=
              ctx.prerequisites[name := Prerequisites(ctx, name) + [t]]))
         == AspectData(me, ctx)
  {
    var ctx' := ctx.(prerequisites := ctx.prerequisites[name := Prerequisites(ctx, name) + [t]]);
    var ts := Prerequisites(ctx, name);
    assert (ts + [t])[..|ts + [t]| - 1] == ts;
    forall x
      ensures TargetsData(Prerequisites(ctx, x)) <= TargetsData(Prerequisites(ctx', x))
      ensures TargetsData(Prerequisites(ctx', x)) <= TargetsData(Prerequisites(ctx, x)) + InfoOf(t)
    {
      if x != name {
        assert Prerequisites(ctx', x) == Prerequisites(ctx, x);
      }
    }
    AttributesDataBounds(ctx, ctx', ctx.attributes, InfoOf(t));
    var us := Prerequisites(ctx, ctx.attributes[i].name);
    var k :| 0 <= k < |us| && us[k] == t;
    TargetsDataIncludes(us, k);
    AttributesDataIncludes(ctx, ctx.attributes, i);
  }
}
