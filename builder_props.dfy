/**
  Properties of the whole builder the generator produces for one class.
 */
module BuilderProperties {
  import opened Wrappers
  import opened CodeModel
  import opened Lookup
  import opened Members
  import opened Overrides
  import opened Copy
  import opened Factories
  import opened Synthesis
  import opened MemberProperties
  import opened OverrideProperties

  /** Every method of the builder other than end, init and build is named with<Name> or add<Name> for some property. */
  lemma PropertyMethodNames(c: Config)
    requires Generatable(c)
    ensures forall m :: m in MembersOf(c, c.classOutline.declaredFields).methods ==>
      m.name != END_METHOD && m.name != INIT_METHOD && m.name != BUILD_METHOD
    ensures !c.IsRoot() ==> forall m :: m in OverridesOf(c, c.classOutline.superClass.value) ==>
      m.name != END_METHOD && m.name != INIT_METHOD && m.name != BUILD_METHOD
  {
    // A with- or add-prefixed name is never end, init or build: its first letter differs.
    forall x: string
      ensures WITH_PREFIX + x != END_METHOD && WITH_PREFIX + x != INIT_METHOD && WITH_PREFIX + x != BUILD_METHOD
      ensures ADD_PREFIX + x != END_METHOD && ADD_PREFIX + x != INIT_METHOD && ADD_PREFIX + x != BUILD_METHOD
    {
      assert (WITH_PREFIX + x)[0] == 'w';
      assert (ADD_PREFIX + x)[0] == 'a';
    }
    var fs := c.classOutline.declaredFields;
    MembersCoverGetters(c, fs);
    forall m: MethodSpec | m in MembersOf(c, fs).methods
      ensures m.name != END_METHOD && m.name != INIT_METHOD && m.name != BUILD_METHOD
    {
      var p: PropertyOutline {:trigger p in fs} :| p in fs && p.hasGetter && (m.name == WithName(p) || m.name == AddName(p));
    }
    if !c.IsRoot() {
      var s := c.classOutline.superClass.value;
      OverridesCoverChain(c, s);
      var anc := Ancestors(s);
      forall m: MethodSpec | m in OverridesOf(c, s)
        ensures m.name != END_METHOD && m.name != INIT_METHOD && m.name != BUILD_METHOD
      {
        var a: ClassOutline, p: PropertyOutline {:trigger p in a.declaredFields, a in anc} :|
          a in anc && p in a.declaredFields && p.hasGetter && (m.name == WithName(p) || m.name == AddName(p));
      }
    }
  }

  /**
    The outline of the builder: an extends clause exactly below the root; the copy
    constructors only in implementation mode; end only on the root builder; init
    only in implementation mode; build last; the root's storage fields first.
   */
  lemma BuilderShape(c: Config)
    requires Generatable(c)
    ensures var b := BuilderSpecOf(c);
      && (b.extendsClause.Some? <==> !c.IsRoot())
      && (!c.IsRoot() ==> b.extendsClause == Some(SuperBuilderName(c)))
      && |b.constructors| == (if c.Implement() then (if c.settings.partialCopy then 2 else 1) else 0)
      && |b.methods| > 0 && b.methods[|b.methods| - 1] == BuildMethod(c)
      && ((exists m :: m in b.methods && m.name == END_METHOD) <==> c.IsRoot())
      && ((exists m :: m in b.methods && m.name == INIT_METHOD) <==> c.Implement())
      && (c.IsRoot() && c.Implement() ==> |b.fields| >= 2 && b.fields[..2] == RootFields())
  {
    var b := BuilderSpecOf(c);
    PropertyMethodNames(c);
    var members := MembersOf(c, c.classOutline.declaredFields).methods;
    var overrides := if c.IsRoot() then [] else OverridesOf(c, c.classOutline.superClass.value);
    var front := (if c.IsRoot() then [EndMethod(c)] else []) + (if c.Implement() then [InitMethod()] else []);
    assert b.methods == front + members + overrides + [BuildMethod(c)];
    NamedOnlyInFront(front, members, overrides, BuildMethod(c), END_METHOD);
    NamedOnlyInFront(front, members, overrides, BuildMethod(c), INIT_METHOD);
    if c.IsRoot() {
      assert EndMethod(c) in front;
    }
    if c.Implement() {
      assert InitMethod() in front;
    }
    if c.IsRoot() && c.Implement() {
      assert b.fields == RootFields() + MembersOf(c, c.classOutline.declaredFields).fields;
    }
  }

  /** A name that no member, no override and not the last method carries occurs in the methods only where it occurs in the front part. */
  lemma NamedOnlyInFront(front: seq<MethodSpec>, members: seq<MethodSpec>, overrides: seq<MethodSpec>, last: MethodSpec, n: string)
    requires forall m :: m in members ==> m.name != n
    requires forall m :: m in overrides ==> m.name != n
    requires last.name != n
    ensures (exists m :: m in front + members + overrides + [last] && m.name == n) <==> (exists m :: m in front && m.name == n)
  {
  }

  lemma InitOfBuilder(c: Config)
    requires Generatable(c)
    ensures BuilderSpecOf(c).init == MembersOf(c, c.classOutline.declaredFields).init + InitReturn(c)
  {
    var own := MembersOf(c, c.classOutline.declaredFields).init;
    assert Constructed(c).init == [];
    assert [] + own == own;
  }

  /**
    init assigns the class's own properties first, in declaration order, and only
    then hands the product to the superclass builder's init (or returns it at the
    root); no statement before the hand-off returns.
   */
  lemma InitHandOff(c: Config)
    requires Generatable(c)
    ensures var init := BuilderSpecOf(c).init;
      && (!c.Implement() ==> init == [])
      && (c.Implement() ==>
            && |init| > 0
            && init[|init| - 1] == (if c.IsRoot() then Return(InitParam) else Return(Call(Super, INIT_METHOD, [InitParam])))
            && init[..|init| - 1] == MembersOf(c, c.classOutline.declaredFields).init
            && forall k :: 0 <= k < |init| - 1 ==> !init[k].Return?)
  {
    var own := MembersOf(c, c.classOutline.declaredFields).init;
    MembersInitHasNoReturn(c, c.classOutline.declaredFields);
    InitOfBuilder(c);
    var init := BuilderSpecOf(c).init;
    if !c.Implement() {
      InterfaceModeMembers(c, c.classOutline.declaredFields);
      assert init == [] + [];
    } else {
      assert init == own + InitReturn(c);
      assert init[..|init| - 1] == own;
      forall k | 0 <= k < |init| - 1
        ensures !init[k].Return?
      {
        assert init[k] == own[k] && own[k] in own;
      }
    }
  }

  lemma InterfaceModeOverride(c: Config, p: PropertyOutline)
    requires ElementTypeKnown(p) && !c.Implement()
    ensures forall m :: m in OverrideMembers(c, p) ==> m.body == NoBody
  {
  }

  lemma {:induction false} InterfaceModeFieldOverrides(c: Config, fs: seq<PropertyOutline>)
    requires forall p :: p in fs ==> Dispatchable(p)
    requires !c.Implement()
    ensures forall m :: m in OverridesOfFields(c, fs) ==> m.body == NoBody
    decreases |fs|
  {
    if fs != [] {
      var init := fs[..|fs| - 1];
      assert forall p :: p in init ==> p in fs;
      assert fs[|fs| - 1] in fs;
      InterfaceModeFieldOverrides(c, init);
      if fs[|fs| - 1].hasGetter {
        InterfaceModeOverride(c, fs[|fs| - 1]);
      }
    }
  }

  lemma {:induction false} InterfaceModeOverrides(c: Config, s: ClassOutline)
    requires ChainElementTypesKnown(s) && !c.Implement()
    ensures forall m :: m in OverridesOf(c, s) ==> m.body == NoBody
    decreases s
  {
    InterfaceModeFieldOverrides(c, s.declaredFields);
    if s.superClass.Some? {
      InterfaceModeOverrides(c, s.superClass.value);
    }
  }

  /**
    A builder that is an interface declares signatures only: no fields, no
    constructors, no init statements, no method body, and the copy-builder
    methods of the built class carry no modifiers.
   */
  lemma InterfaceModeBuilder(c: Config)
    requires Generatable(c) && !c.Implement()
    ensures var b := BuilderSpecOf(c);
      && b.fields == [] && b.constructors == [] && b.init == []
      && (forall m :: m in b.methods ==> m.body == NoBody)
      && (forall m :: m in b.productMethods ==> m.body == NoBody && m.mods == NO_MODS)
  {
    var fs := c.classOutline.declaredFields;
    InterfaceModeMembers(c, fs);
    var members := MembersOf(c, fs).methods;
    var overrides := if c.IsRoot() then [] else OverridesOf(c, c.classOutline.superClass.value);
    if !c.IsRoot() {
      InterfaceModeOverrides(c, c.classOutline.superClass.value);
    }
    var front := if c.IsRoot() then [EndMethod(c)] else [];
    var b := BuilderSpecOf(c);
    assert b.methods == front + [] + members + overrides + [BuildMethod(c)];
    BodilessConcat(front + [], members);
    BodilessConcat(front + [] + members, overrides);
    BodilessConcat(front + [] + members + overrides, [BuildMethod(c)]);
    var copyBuilders := if c.settings.newCopyBuilderMethod then CopyBuilderMethods(c) else [];
    assert forall m :: m in copyBuilders ==> m.body == NoBody && m.mods == NO_MODS;
    assert b.productMethods == [] + copyBuilders + [];
  }

  lemma BodilessConcat(xs: seq<MethodSpec>, ys: seq<MethodSpec>)
    requires forall m :: m in xs ==> m.body == NoBody
    requires forall m :: m in ys ==> m.body == NoBody
    ensures forall m :: m in xs + ys ==> m.body == NoBody
  {
  }

  /** The static factories (builder, copyOf, and the partial copies) are added to the built class exactly when it is concrete and the builder is implemented. */
  lemma FactoriesOnlyForConcrete(c: Config)
    requires Generatable(c)
    ensures var b := BuilderSpecOf(c);
      (exists m :: m in b.productMethods && m.mods.isStatic) <==> c.Implement() && !c.classOutline.isAbstract
  {
    var b := BuilderSpecOf(c);
    var copyBuilders := if c.settings.newCopyBuilderMethod then CopyBuilderMethods(c) else [];
    assert b.productMethods == [] + copyBuilders + (if c.Implement() && !c.classOutline.isAbstract then FactoryMethods(c) else []);
    if c.Implement() && !c.classOutline.isAbstract {
      assert FactoryMethods(c)[0] in b.productMethods;
    }
  }

  /** For an abstract class, newCopyBuilder is declared abstract and has no body. */
  lemma AbstractCopyBuilder(c: Config)
    requires Generatable(c) && c.settings.newCopyBuilderMethod && c.Implement() && c.classOutline.isAbstract
    ensures var b := BuilderSpecOf(c);
      |b.productMethods| > 0 && forall m :: m in b.productMethods ==> m.mods.isAbstract && !m.body.Code?
  {
    var b := BuilderSpecOf(c);
    assert b.productMethods == [] + CopyBuilderMethods(c) + [];
  }

  /** Every getter-having property of fs has a public, non-overriding with<Name> method in ms. */
  predicate HasWithers(ms: seq<MethodSpec>, fs: seq<PropertyOutline>) {
    forall p :: p in fs && p.hasGetter ==>
      exists m :: m in ms && m.name == WithName(p) && m.mods == PUBLIC && !m.isOverride
  }

  /** Every getter-having property of every class in anc has a with<Name> override in ms. */
  predicate HasWithOverrides(ms: seq<MethodSpec>, anc: seq<ClassOutline>, impl: bool) {
    forall a, p :: a in anc && p in a.declaredFields && p.hasGetter ==>
      exists m :: m in ms && m.name == WithName(p) && m.params != [] && m.isOverride == impl
  }

  /**
    Every getter-having declared property gets a with<Name> method, and every
    getter-having property of every ancestor gets a with<Name> override.
   */
  lemma BuilderCoversProperties(c: Config)
    requires Generatable(c)
    ensures HasWithers(BuilderSpecOf(c).methods, c.classOutline.declaredFields)
    ensures !c.IsRoot() ==>
      HasWithOverrides(BuilderSpecOf(c).methods, Ancestors(c.classOutline.superClass.value), c.Implement())
  {
    DeclaredWithers(c);
    if !c.IsRoot() {
      InheritedWithOverrides(c);
    }
  }

  lemma DeclaredWithers(c: Config)
    requires Generatable(c)
    ensures HasWithers(BuilderSpecOf(c).methods, c.classOutline.declaredFields)
  {
    var fs := c.classOutline.declaredFields;
    MembersInBuilder(c);
    MembersCoverGetters(c, fs);
    WithersLift(BuilderSpecOf(c).methods, MembersOf(c, fs).methods, fs);
  }

  lemma InheritedWithOverrides(c: Config)
    requires Generatable(c) && !c.IsRoot()
    ensures HasWithOverrides(BuilderSpecOf(c).methods, Ancestors(c.classOutline.superClass.value), c.Implement())
  {
    var s := c.classOutline.superClass.value;
    OverridesInBuilder(c);
    OverridesCoverChain(c, s);
    WithOverridesLift(BuilderSpecOf(c).methods, OverridesOf(c, s), Ancestors(s), c.Implement());
  }

  /** The members are methods of the finished builder. */
  lemma MembersInBuilder(c: Config)
    requires Generatable(c)
    ensures forall m :: m in MembersOf(c, c.classOutline.declaredFields).methods ==> m in BuilderSpecOf(c).methods
  {
    var members := MembersOf(c, c.classOutline.declaredFields).methods;
    var overrides := if c.IsRoot() then [] else OverridesOf(c, c.classOutline.superClass.value);
    var front := (if c.IsRoot() then [EndMethod(c)] else []) + (if c.Implement() then [InitMethod()] else []);
    assert BuilderSpecOf(c).methods == front + members + overrides + [BuildMethod(c)];
  }

  /** Below the root, the overrides are methods of the finished builder. */
  lemma OverridesInBuilder(c: Config)
    requires Generatable(c) && !c.IsRoot()
    ensures forall m :: m in OverridesOf(c, c.classOutline.superClass.value) ==> m in BuilderSpecOf(c).methods
  {
    var members := MembersOf(c, c.classOutline.declaredFields).methods;
    var overrides := OverridesOf(c, c.classOutline.superClass.value);
    var front := [] + (if c.Implement() then [InitMethod()] else []);
    assert BuilderSpecOf(c).methods == front + members + overrides + [BuildMethod(c)];
  }

  lemma WithersLift(ms: seq<MethodSpec>, sub: seq<MethodSpec>, fs: seq<PropertyOutline>)
    requires forall m :: m in sub ==> m in ms
    requires forall p :: p in fs && p.hasGetter ==>
      exists m :: m in sub && m.name == WithName(p) && m.mods == PUBLIC && !m.isOverride
    ensures HasWithers(ms, fs)
  {
    forall p | p in fs && p.hasGetter
      ensures exists m :: m in ms && m.name == WithName(p) && m.mods == PUBLIC && !m.isOverride
    {
      var m :| m in sub && m.name == WithName(p) && m.mods == PUBLIC && !m.isOverride;
      assert m in ms;
    }
  }

  lemma WithOverridesLift(ms: seq<MethodSpec>, sub: seq<MethodSpec>, anc: seq<ClassOutline>, impl: bool)
    requires forall m :: m in sub ==> m in ms
    requires forall a, p :: a in anc && p in a.declaredFields && p.hasGetter ==>
      exists m :: m in sub && m.name == WithName(p) && m.params != [] && m.isOverride == impl
    ensures HasWithOverrides(ms, anc, impl)
  {
    forall a, p | a in anc && p in a.declaredFields && p.hasGetter
      ensures exists m :: m in ms && m.name == WithName(p) && m.params != [] && m.isOverride == impl
    {
      var m :| m in sub && m.name == WithName(p) && m.params != [] && m.isOverride == impl;
      assert m in ms;
    }
  }
}
