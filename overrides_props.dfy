/**
  Properties of the overrides a derived builder emits: they walk the ancestor
  chain nearest first, cover every getter-having inherited property, and
  re-declare the signatures the ancestor's builder declared.
 */
module OverrideProperties {
  import opened Wrappers
  import opened CodeModel
  import opened Lookup
  import opened Members
  import opened Overrides

  lemma {:induction false} AncestorsDispatchable(s: ClassOutline)
    requires ChainElementTypesKnown(s)
    ensures forall a, p :: a in Ancestors(s) && p in a.declaredFields ==> Dispatchable(p)
    decreases s
  {
    if s.superClass.Some? {
      AncestorsDispatchable(s.superClass.value);
    }
  }

  /** The overrides for a list of ancestors, nearest first. */
  function ChainOverrides(c: Config, anc: seq<ClassOutline>): seq<MethodSpec>
    requires forall a, p :: a in anc && p in a.declaredFields ==> Dispatchable(p)
    decreases |anc|
  {
    if anc == [] then [] else OverridesOfFields(c, anc[0].declaredFields) + ChainOverrides(c, anc[1..])
  }

  /** generateBuilderMemberOverrides emits, for each ancestor in turn from the nearest upward, that ancestor's overrides. */
  lemma {:induction false} OverridesWalkChain(c: Config, s: ClassOutline)
    requires ChainElementTypesKnown(s)
    ensures forall a, p :: a in Ancestors(s) && p in a.declaredFields ==> Dispatchable(p)
    ensures OverridesOf(c, s) == ChainOverrides(c, Ancestors(s))
    decreases s
  {
    AncestorsDispatchable(s);
    match s.superClass
    case None =>
      assert Ancestors(s) == [s];
      assert OverridesOfFields(c, s.declaredFields) + [] == OverridesOfFields(c, s.declaredFields);
    case Some(sup) =>
      OverridesWalkChain(c, sup);
      assert Ancestors(s)[1..] == Ancestors(sup);
  }

  lemma OverrideNames(c: Config, p: PropertyOutline)
    requires ElementTypeKnown(p)
    ensures exists m :: m in OverrideMembers(c, p) && m.name == WithName(p) && m.params != [] && m.isOverride == c.Implement()
  {
    var ms := OverrideMembers(c, p);
    if p.isCollection && !p.rawType.IsArray() {
      assert ms[2] in ms;
    } else {
      assert ms[0] in ms;
    }
  }

  /** Over one ancestor's properties: a with-override for every getter-having property, and only overrides of those. */
  lemma {:induction false} FieldOverridesCover(c: Config, fs: seq<PropertyOutline>)
    requires forall p :: p in fs ==> Dispatchable(p)
    ensures forall p :: p in fs && p.hasGetter ==>
      exists m :: m in OverridesOfFields(c, fs) && m.name == WithName(p) && m.params != [] && m.isOverride == c.Implement()
    ensures forall m :: m in OverridesOfFields(c, fs) ==>
      exists p {:trigger p in fs} :: p in fs && p.hasGetter && (m.name == WithName(p) || m.name == AddName(p))
    decreases |fs|
  {
    if fs != [] {
      var init := fs[..|fs| - 1];
      var last := fs[|fs| - 1];
      assert forall p :: p in init ==> p in fs;
      assert fs == init + [last];
      assert last in fs;
      FieldOverridesCover(c, init);
      if last.hasGetter {
        OverrideNames(c, last);
      }
      var before := OverridesOfFields(c, init);
      var added := PropertyOverrides(c, last);
      assert OverridesOfFields(c, fs) == before + added;
      forall m: MethodSpec | m in before + added
        ensures exists p {:trigger p in fs} :: p in fs && p.hasGetter && (m.name == WithName(p) || m.name == AddName(p))
      {
        if m in before {
          var p {:trigger p in init} :| p in init && p.hasGetter && (m.name == WithName(p) || m.name == AddName(p));
          assert p in fs;
        } else {
          assert m in OverrideMembers(c, last) && last.hasGetter;
        }
      }
    }
  }

  /** Over a list of ancestors: every getter-having property of each gets a with-override. */
  lemma {:induction false} ChainOverridesCover(c: Config, anc: seq<ClassOutline>)
    requires forall a, p :: a in anc && p in a.declaredFields ==> Dispatchable(p)
    ensures forall a, p :: a in anc && p in a.declaredFields && p.hasGetter ==>
      exists m :: m in ChainOverrides(c, anc) && m.name == WithName(p) && m.params != [] && m.isOverride == c.Implement()
    decreases |anc|
  {
    if anc != [] {
      var own := OverridesOfFields(c, anc[0].declaredFields);
      var rest := ChainOverrides(c, anc[1..]);
      assert forall a :: a in anc[1..] ==> a in anc;
      FieldOverridesCover(c, anc[0].declaredFields);
      ChainOverridesCover(c, anc[1..]);
      assert ChainOverrides(c, anc) == own + rest;
      forall a, p | a in anc && p in a.declaredFields && p.hasGetter
        ensures exists m: MethodSpec :: m in own + rest && m.name == WithName(p) && m.params != [] && m.isOverride == c.Implement()
      {
        if a == anc[0] {
          var m :| m in own && m.name == WithName(p) && m.params != [] && m.isOverride == c.Implement();
          assert m in own + rest;
        } else {
          assert a in anc[1..];
          var m :| m in rest && m.name == WithName(p) && m.params != [] && m.isOverride == c.Implement();
          assert m in own + rest;
        }
      }
    }
  }

  /** Over a list of ancestors: every override belongs to a getter-having property of one of them. */
  lemma {:induction false} ChainOverridesBelong(c: Config, anc: seq<ClassOutline>)
    requires forall a, p :: a in anc && p in a.declaredFields ==> Dispatchable(p)
    ensures forall m :: m in ChainOverrides(c, anc) ==>
      exists a, p {:trigger p in a.declaredFields, a in anc} :: a in anc && p in a.declaredFields && p.hasGetter && (m.name == WithName(p) || m.name == AddName(p))
    decreases |anc|
  {
    if anc != [] {
      var own := OverridesOfFields(c, anc[0].declaredFields);
      var rest := ChainOverrides(c, anc[1..]);
      assert forall a :: a in anc[1..] ==> a in anc;
      FieldOverridesCover(c, anc[0].declaredFields);
      ChainOverridesBelong(c, anc[1..]);
      assert ChainOverrides(c, anc) == own + rest;
      forall m: MethodSpec | m in own + rest
        ensures exists a, p {:trigger p in a.declaredFields, a in anc} :: a in anc && p in a.declaredFields && p.hasGetter && (m.name == WithName(p) || m.name == AddName(p))
      {
        if m in own {
          var p {:trigger p in anc[0].declaredFields} :| p in anc[0].declaredFields && p.hasGetter && (m.name == WithName(p) || m.name == AddName(p));
          assert anc[0] in anc;
        } else {
          var tail := anc[1..];
          var a: ClassOutline, p: PropertyOutline {:trigger p in a.declaredFields, a in tail} :| a in tail && p in a.declaredFields && p.hasGetter && (m.name == WithName(p) || m.name == AddName(p));
          assert a in anc;
        }
      }
    }
  }

  /**
    Over the whole chain: every getter-having property of every ancestor gets a
    with-override, and every override belongs to such a property.
   */
  lemma OverridesCoverChain(c: Config, s: ClassOutline)
    requires ChainElementTypesKnown(s)
    ensures forall a, p :: a in Ancestors(s) && p in a.declaredFields && p.hasGetter ==>
      exists m :: m in OverridesOf(c, s) && m.name == WithName(p) && m.params != [] && m.isOverride == c.Implement()
    ensures forall m :: m in OverridesOf(c, s) ==>
      exists a, p {:trigger p in a.declaredFields, a in Ancestors(s)} :: a in Ancestors(s) && p in a.declaredFields && p.hasGetter && (m.name == WithName(p) || m.name == AddName(p))
  {
    var anc := Ancestors(s);
    OverridesWalkChain(c, s);
    var os := OverridesOf(c, s);
    assert os == ChainOverrides(c, anc);
    ChainOverridesCover(c, anc);
    ChainOverridesBelong(c, anc);
    forall a, p | a in anc && p in a.declaredFields && p.hasGetter
      ensures exists m :: m in os && m.name == WithName(p) && m.params != [] && m.isOverride == c.Implement()
    {
      var m :| m in ChainOverrides(c, anc) && m.name == WithName(p) && m.params != [] && m.isOverride == c.Implement();
      assert m in os;
    }
    forall m | m in os
      ensures exists a, p {:trigger p in a.declaredFields, a in anc} :: a in anc && p in a.declaredFields && p.hasGetter && (m.name == WithName(p) || m.name == AddName(p))
    {
      assert m in ChainOverrides(c, anc);
    }
  }

  /** Same name, parameters and result type. */
  predicate SameSignature(m: MethodSpec, b: MethodSpec) {
    m.name == b.name && m.params == b.params && m.resultType == b.resultType
  }

  /** The signatures of the overrides of a collection property, in emission order. */
  lemma CollectionOverrideShape(c: Config, p: PropertyOutline)
    requires p.isCollection && !p.rawType.IsArray() && |p.rawType.TypeParameters()| > 0
    ensures var ms := OverrideMembers(c, p); var elem := p.rawType.TypeParameters()[0];
      var iter := [Param(IterableOf(elem, true), p.fieldName, false)]; var varargs := [Param(Plain(elem), p.fieldName, true)];
      && |ms| >= 4
      && ms[0].name == AddName(p) && ms[0].params == iter && ms[0].resultType == SelfBuilder
      && ms[1].name == AddName(p) && ms[1].params == varargs && ms[1].resultType == SelfBuilder
      && ms[2].name == WithName(p) && ms[2].params == iter && ms[2].resultType == SelfBuilder
      && ms[3].name == WithName(p) && ms[3].params == varargs && ms[3].resultType == SelfBuilder
      && (|ms| == 5 <==> HasConcreteBuilder(c, elem))
      && (|ms| == 5 ==>
            ms[4].name == AddName(p) && ms[4].params == []
            && ms[4].resultType == ChildBuilderWildcard(Builder(c, elem).value.builderClass.name))
  {
  }

  /**
    Four overrides add-Iterable, add-varargs, with-Iterable, with-varargs and an
    optional no-argument add, against the base's add-Iterable, with-Iterable,
    add-varargs, with-varargs and optional no-argument add.
   */
  lemma CollectionSignaturesMatch(ms: seq<MethodSpec>, bs: seq<MethodSpec>)
    requires |ms| >= 4 && |bs| >= 4 && (|ms| == 5 ==> |bs| == 5)
    requires SameSignature(ms[0], bs[0]) && SameSignature(ms[1], bs[2])
    requires SameSignature(ms[2], bs[1]) && SameSignature(ms[3], bs[3])
    requires |ms| <= 5 && (|ms| == 5 ==> SameSignature(ms[4], bs[4]))
    ensures forall m :: m in ms ==> exists b :: b in bs && SameSignature(m, b)
  {
    forall m | m in ms
      ensures exists b :: b in bs && SameSignature(m, b)
    {
      var i :| 0 <= i < |ms| && ms[i] == m;
      var j := if i == 1 then 2 else if i == 2 then 1 else i;
      assert bs[j] in bs;
    }
  }

  lemma CollectionOverridesMatch(c: Config, base: Config, p: PropertyOutline)
    requires p.isCollection && !p.rawType.IsArray() && |p.rawType.TypeParameters()| > 0
    requires c.api == base.api && c.outlines == base.outlines
    ensures forall m :: m in OverrideMembers(c, p) ==>
      exists b :: b in CollectionMembers(base, p, p.rawType.TypeParameters()[0]).methods && SameSignature(m, b)
  {
    var elem := p.rawType.TypeParameters()[0];
    var ms := OverrideMembers(c, p);
    var bs := CollectionMembers(base, p, elem).methods;
    assert Builder(c, elem) == Builder(base, elem);
    CollectionOverrideShape(c, p);
    CollectionSignaturesMatch(ms, bs);
  }

  lemma SingularOverridesMatch(c: Config, base: Config, p: PropertyOutline)
    requires !p.isCollection
    requires c.api == base.api && c.outlines == base.outlines
    ensures forall m :: m in OverrideMembers(c, p) ==>
      exists b :: b in SingularMembers(base, p).methods && SameSignature(m, b)
  {
    var ms := OverrideMembers(c, p);
    var bs := SingularMembers(base, p).methods;
    assert Builder(c, p.rawType) == Builder(base, p.rawType);
    assert bs[0] in bs && SameSignature(ms[0], bs[0]);
    if |ms| == 2 {
      assert bs[1] in bs && SameSignature(ms[1], bs[1]);
    }
    assert forall m :: m in ms ==> exists i :: 0 <= i < |ms| && ms[i] == m;
  }

  /**
    For an array property, the varargs override (with the corrected element type)
    re-declares the ancestor's only method, and it is the only override.
   */
  lemma ArrayOverridesAgainstInherited(c: Config, base: Config, p: PropertyOutline)
    requires p.isCollection && p.rawType.IsArray()
    ensures |OverrideMembers(c, p)| == 1 && |MemberEmission(base, p).methods| == 1
    ensures SameSignature(OverrideMembers(c, p)[0], MemberEmission(base, p).methods[0])
    ensures forall m :: m in OverrideMembers(c, p) ==>
      exists b :: b in MemberEmission(base, p).methods && SameSignature(m, b)
  {
    assert MemberEmission(base, p).methods[0] in MemberEmission(base, p).methods;
  }

  /**
    The Iterable with-override the source emits for an array property matches no
    method of the ancestor's builder, yet carries @Override when implementing:
    the generated builder does not compile.
   */
  lemma ArrayIterableOverrideOverridesNothing(c: Config, base: Config, p: PropertyOutline)
    requires p.isCollection && p.rawType.IsArray()
    ensures ArrayIterableOverrideAsWritten(c, p).isOverride == c.Implement()
    ensures forall b :: b in MemberEmission(base, p).methods ==> !SameSignature(ArrayIterableOverrideAsWritten(c, p), b)
  {
  }

  /**
    For every property, every override re-declares a method the ancestor's
    builder declared for that property, given that both builders resolve child
    builders alike.
   */
  lemma OverridesMatchInherited(c: Config, base: Config, p: PropertyOutline)
    requires ElementTypeKnown(p)
    requires c.api == base.api && c.outlines == base.outlines
    ensures forall m :: m in OverrideMembers(c, p) ==>
      exists b :: b in MemberEmission(base, p).methods && SameSignature(m, b)
  {
    if p.isCollection && p.rawType.IsArray() {
      ArrayOverridesAgainstInherited(c, base, p);
    } else if p.isCollection {
      CollectionOverridesMatch(c, base, p);
    } else {
      SingularOverridesMatch(c, base, p);
    }
  }
}
