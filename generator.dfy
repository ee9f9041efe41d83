/**
  The BuilderGenerator object: it accumulates the generated builder step by step.
  Each generate* method appends to the builder it is building and is proved to
  append exactly what the corresponding function of the specification modules emits.
 */
module Generator {
  import opened Wrappers
  import opened CodeModel
  import opened Lookup
  import opened Members
  import opened Overrides
  import opened Copy
  import opened Factories
  import opened Synthesis

  lemma Assoc<T>(a: seq<T>, b: seq<T>, c: seq<T>)
    ensures (a + b) + c == a + (b + c)
  {
  }

  lemma AppendNothing<T>(a: seq<T>)
    ensures a + [] == a
  {
  }

  lemma OverridesStep(c: Config, fs: seq<PropertyOutline>, i: nat)
    requires i < |fs| && forall p :: p in fs ==> Dispatchable(p)
    ensures forall p :: p in fs[..i] ==> Dispatchable(p)
    ensures OverridesOfFields(c, fs[..i + 1]) == OverridesOfFields(c, fs[..i]) + PropertyOverrides(c, fs[i])
  {
    assert fs[..i + 1][..i] == fs[..i];
  }

  lemma MembersStep(c: Config, fs: seq<PropertyOutline>, i: nat)
    requires i < |fs| && forall p :: p in fs ==> Dispatchable(p)
    ensures forall p :: p in fs[..i] ==> Dispatchable(p)
    ensures MembersOf(c, fs[..i + 1]) == Join(MembersOf(c, fs[..i]), PropertyEmission(c, fs[i]))
  {
    assert fs[..i + 1][..i] == fs[..i];
  }

  lemma FullCopyStep(c: Config, fs: seq<PropertyOutline>, i: nat)
    requires i < |fs| && FieldsResolvable(c, fs)
    ensures FieldsResolvable(c, fs[..i]) && (fs[i].fieldVar.Some? ==> CopyResolvable(c, fs[i].fieldVar.value.fieldType))
    ensures FullCopyFieldStmts(c, fs[..i + 1]) == FullCopyFieldStmts(c, fs[..i]) + FullCopyOf(c, fs[i])
  {
    assert fs[..i + 1][..i] == fs[..i];
    assert fs[i] in fs;
  }

  lemma PartialCopyStep(c: Config, fs: seq<PropertyOutline>, i: nat)
    requires i < |fs| && FieldsResolvable(c, fs)
    ensures FieldsResolvable(c, fs[..i]) && (fs[i].fieldVar.Some? ==> CopyResolvable(c, fs[i].fieldVar.value.fieldType))
    ensures PartialCopyFieldStmts(c, fs[..i + 1]) == PartialCopyFieldStmts(c, fs[..i]) + PartialCopyOf(c, fs[i])
  {
    assert fs[..i + 1][..i] == fs[..i];
    assert fs[i] in fs;
  }

  class BuilderGenerator {
    const config: Config
    var extendsClause: Option<string>
    var fields: seq<FieldSpec>
    var constructors: seq<ConstructorSpec>
    var methods: seq<MethodSpec>
    var initBody: seq<Stmt>
    /** The methods added to the built class itself. */
    var productMethods: seq<MethodSpec>

    /** The builder built so far. */
    function Snapshot(): BuilderSpec
      reads this
    {
      BuilderSpec(extendsClause, fields, constructors, methods, initBody, productMethods)
    }

    /** The end method and root storage of a root builder, then the copy constructors. */
    constructor (api: Api, outlines: map<string, BuilderOutline>, outline: BuilderOutline, settings: Settings)
      requires var c := ConfigOf(api, outlines, outline, settings);
        c.Implement() ==> FieldsResolvable(c, c.classOutline.declaredFields)
      ensures config == ConfigOf(api, outlines, outline, settings)
      ensures Snapshot() == Constructed(config)
    {
      config := ConfigOf(api, outlines, outline, settings);
      extendsClause := None;
      fields := [];
      constructors := [];
      methods := [];
      initBody := [];
      productMethods := [];
      new;
      if config.IsRoot() {
        methods := methods + [EndMethod(config)];
        if config.Implement() {
          fields := fields + RootFields();
        }
      }
      assert methods == if config.IsRoot() then [EndMethod(config)] else [];
      assert fields == if config.IsRoot() && config.Implement() then RootFields() else [];
      if config.Implement() {
        GenerateCopyConstructor();
        if config.settings.partialCopy {
          GeneratePartialCopyConstructor();
        }
      }
      assert constructors == Constructors(config);
    }

    /** Appends what one property contributes to the builder. */
    method Emit(e: Emission)
      modifies this`methods, this`fields, this`initBody
      ensures methods == old(methods) + e.methods
      ensures fields == old(fields) + e.fields
      ensures initBody == old(initBody) + e.init
    {
      methods := methods + e.methods;
      fields := fields + e.fields;
      initBody := initBody + e.init;
    }

    method GenerateSingularProperty(p: PropertyOutline)
      modifies this`methods, this`fields, this`initBody
      ensures methods == old(methods) + SingularMembers(config, p).methods
      ensures fields == old(fields) + SingularMembers(config, p).fields
      ensures initBody == old(initBody) + SingularMembers(config, p).init
    {
      Emit(SingularMembers(config, p));
    }

    method GenerateCollectionProperty(p: PropertyOutline, elem: TypeRef)
      modifies this`methods, this`fields, this`initBody
      ensures methods == old(methods) + CollectionMembers(config, p, elem).methods
      ensures fields == old(fields) + CollectionMembers(config, p, elem).fields
      ensures initBody == old(initBody) + CollectionMembers(config, p, elem).init
    {
      Emit(CollectionMembers(config, p, elem));
    }

    method GenerateArrayProperty(p: PropertyOutline, elem: TypeRef)
      modifies this`methods, this`fields, this`initBody
      ensures methods == old(methods) + ArrayMembers(config, p, elem).methods
      ensures fields == old(fields) + ArrayMembers(config, p, elem).fields
      ensures initBody == old(initBody) + ArrayMembers(config, p, elem).init
    {
      Emit(ArrayMembers(config, p, elem));
    }

    /** Dispatches on the property's shape. */
    method GenerateBuilderMember(p: PropertyOutline)
      requires ElementTypeKnown(p)
      modifies this`methods, this`fields, this`initBody
      ensures methods == old(methods) + MemberEmission(config, p).methods
      ensures fields == old(fields) + MemberEmission(config, p).fields
      ensures initBody == old(initBody) + MemberEmission(config, p).init
    {
      if p.isCollection {
        if p.rawType.IsArray() {
          GenerateArrayProperty(p, p.rawType.elem);
        } else {
          GenerateCollectionProperty(p, p.rawType.TypeParameters()[0]);
        }
      } else {
        GenerateSingularProperty(p);
      }
    }

    method GenerateBuilderMemberOverride(p: PropertyOutline)
      requires ElementTypeKnown(p)
      modifies this`methods
      ensures methods == old(methods) + OverrideMembers(config, p)
    {
      methods := methods + OverrideMembers(config, p);
    }

    /** The overrides for the getter-having properties of s, then for those of its ancestors. */
    method GenerateBuilderMemberOverrides(s: ClassOutline)
      requires ChainElementTypesKnown(s)
      modifies this`methods
      ensures methods == old(methods) + OverridesOf(config, s)
      decreases s
    {
      var fs := s.declaredFields;
      var i := 0;
      while i < |fs|
        invariant 0 <= i <= |fs|
        invariant methods == old(methods) + OverridesOfFields(config, fs[..i])
      {
        OverridesStep(config, fs, i);
        Assoc(old(methods), OverridesOfFields(config, fs[..i]), PropertyOverrides(config, fs[i]));
        assert fs[i] in fs;
        if fs[i].hasGetter {
          GenerateBuilderMemberOverride(fs[i]);
        } else {
          AppendNothing(methods);
        }
        i := i + 1;
      }
      assert fs[..i] == fs;
      var own := OverridesOfFields(config, fs);
      if s.superClass.Some? {
        var sup := s.superClass.value;
        assert OverridesOf(config, s) == own + OverridesOf(config, sup);
        Assoc(old(methods), own, OverridesOf(config, sup));
        GenerateBuilderMemberOverrides(sup);
      } else {
        assert OverridesOf(config, s) == own + [];
        AppendNothing(own);
      }
    }

    method GenerateCopyConstructor()
      requires FieldsResolvable(config, config.classOutline.declaredFields)
      modifies this`constructors
      ensures constructors == old(constructors) + [CopyConstructor(config)]
    {
      var fs := config.classOutline.declaredFields;
      var body: seq<Stmt> := [];
      var i := 0;
      while i < |fs|
        invariant 0 <= i <= |fs|
        invariant FieldsResolvable(config, fs[..i])
        invariant body == FullCopyFieldStmts(config, fs[..i])
        invariant constructors == old(constructors)
      {
        FullCopyStep(config, fs, i);
        var piece: seq<Stmt> := [];
        if fs[i].fieldVar.Some? {
          piece := [CopyStmt(config, fs[i].fieldVar.value, false)];
        }
        assert piece == FullCopyOf(config, fs[i]);
        body := body + piece;
        i := i + 1;
      }
      assert fs[..i] == fs;
      constructors := constructors + [ConstructorSpec(ConstructorVisibility(config), CopyConstructorParams(config),
        [Prologue(config, false),
         If(Var(COPY_PARAM), ProductWhenCopying(config) + [Block(body)], ProductWhenNotCopying(config))])];
    }

    method GeneratePartialCopyConstructor()
      requires FieldsResolvable(config, config.classOutline.declaredFields)
      modifies this`constructors
      ensures constructors == old(constructors) + [PartialCopyConstructor(config)]
    {
      var fs := config.classOutline.declaredFields;
      var body: seq<Stmt> := ProductWhenCopying(config);
      AppendNothing(body);
      assert fs[..0] == [];
      var i := 0;
      while i < |fs|
        invariant 0 <= i <= |fs|
        invariant FieldsResolvable(config, fs[..i])
        invariant body == ProductWhenCopying(config) + PartialCopyFieldStmts(config, fs[..i])
        invariant constructors == old(constructors)
      {
        PartialCopyStep(config, fs, i);
        Assoc(ProductWhenCopying(config), PartialCopyFieldStmts(config, fs[..i]), PartialCopyOf(config, fs[i]));
        var fv := fs[i].fieldVar;
        var piece: seq<Stmt> := [];
        if fv.Some? && !fv.value.isFinal && !fv.value.isStatic {
          var name := fv.value.name;
          piece := [DeclTreeVar(name), If(IncludeCondition(TreeVar(name)), [CopyStmt(config, fv.value, true)], [])];
        }
        assert piece == PartialCopyOf(config, fs[i]);
        body := body + piece;
        i := i + 1;
      }
      assert fs[..i] == fs;
      constructors := constructors + [ConstructorSpec(ConstructorVisibility(config), CopyConstructorParams(config) + [TreeParams],
        [Prologue(config, true), If(Var(COPY_PARAM), body, ProductWhenNotCopying(config))])];
    }

    method GenerateBuildMethod()
      modifies this`methods
      ensures methods == old(methods) + [BuildMethod(config)]
    {
      var body := NoBody;
      if config.Implement() {
        var product := ThisField(PRODUCT_FIELD);
        if config.classOutline.isAbstract {
          body := Code([Return(Cast(Product, product))]);
        } else {
          body := Code([If(IsNull(product), [Return(Call(This, INIT_METHOD, [New(Product, [])]))], [Return(Cast(Product, product))])]);
        }
      }
      methods := methods + [MethodSpec(PUBLIC, Product, BUILD_METHOD, [], body, false)];
    }

    method GenerateConveniencePartialCopyMethod(name: string, use: Use)
      modifies this`productMethods
      ensures productMethods == old(productMethods) + [ConveniencePartialCopyMethod(config, name, use)]
    {
      productMethods := productMethods + [ConveniencePartialCopyMethod(config, name, use)];
    }

    /** builder() and copyOf(other), then the tree-driven copies when partial copy is on. */
    method GenerateBuilderMethod()
      modifies this`productMethods
      ensures productMethods == old(productMethods) + FactoryMethods(config)
    {
      productMethods := productMethods + [MethodSpec(PUBLIC_STATIC, BuilderOfVoid, config.settings.newBuilderMethodName, [],
        Code([Return(New(BuilderOfVoid, [Null, Null, BoolLit(false)]))]), false)];
      productMethods := productMethods + [MethodSpec(PUBLIC_STATIC, BuilderOfP, config.api.buildCopyMethodName, [OtherParam()],
        Code([Return(New(BuilderOfP, [Null, Var(OTHER_PARAM), BoolLit(true)]))]), false)];
      if config.settings.partialCopy {
        productMethods := productMethods + [PartialCopyOfMethod(config)];
        GenerateConveniencePartialCopyMethod(config.api.copyExceptMethodName, Exclude);
        GenerateConveniencePartialCopyMethod(config.api.copyOnlyMethodName, Include);
      }
    }

    method GenerateCopyBuilderMethod()
      modifies this`productMethods
      ensures productMethods == old(productMethods) + CopyBuilderMethods(config)
    {
      var impl := config.Implement();
      var mods := if impl then (if config.classOutline.isAbstract then PUBLIC_ABSTRACT else PUBLIC) else NO_MODS;
      var hasBody := impl && !config.classOutline.isAbstract;
      productMethods := productMethods + [MethodSpec(mods, BuilderOfP, config.settings.newCopyBuilderMethodName, [],
        BodyIf(hasBody, [Return(Invoke(config.api.buildCopyMethodName, [This]))]), false)];
      if config.settings.partialCopy {
        productMethods := productMethods + [MethodSpec(mods, BuilderOfP, config.settings.newCopyBuilderMethodName,
          [TreeParamDecl(), TreeUseParamDecl()],
          BodyIf(hasBody, [Return(Invoke(config.api.buildCopyMethodName, [This, Var(TREE_PARAM), Var(TREE_USE_PARAM)]))]), false)];
      }
    }

    /** The loop of buildProperties: the members of every getter-having declared property, in order. */
    method GenerateBuilderMembers()
      requires forall p :: p in config.classOutline.declaredFields ==> Dispatchable(p)
      modifies this`fields, this`methods, this`initBody
      ensures methods == old(methods) + MembersOf(config, config.classOutline.declaredFields).methods
      ensures fields == old(fields) + MembersOf(config, config.classOutline.declaredFields).fields
      ensures initBody == old(initBody) + MembersOf(config, config.classOutline.declaredFields).init
    {
      var fs := config.classOutline.declaredFields;
      assert fs[..0] == [];
      AppendNothing(methods);
      AppendNothing(fields);
      AppendNothing(initBody);
      var i := 0;
      while i < |fs|
        invariant 0 <= i <= |fs|
        invariant methods == old(methods) + MembersOf(config, fs[..i]).methods
        invariant fields == old(fields) + MembersOf(config, fs[..i]).fields
        invariant initBody == old(initBody) + MembersOf(config, fs[..i]).init
      {
        MembersStep(config, fs, i);
        assert fs[i] in fs;
        var e := PropertyEmission(config, fs[i]);
        Assoc(old(methods), MembersOf(config, fs[..i]).methods, e.methods);
        Assoc(old(fields), MembersOf(config, fs[..i]).fields, e.fields);
        Assoc(old(initBody), MembersOf(config, fs[..i]).init, e.init);
        if fs[i].hasGetter {
          GenerateBuilderMember(fs[i]);
        } else {
          AppendNothing(methods);
          AppendNothing(fields);
          AppendNothing(initBody);
        }
        i := i + 1;
      }
      assert fs[..i] == fs;
    }

    /** The builder extends the builder of the superclass. */
    method GenerateExtendsClause(b: BuilderOutline)
      modifies this`extendsClause
      ensures extendsClause == Some(b.builderClass.name)
    {
      extendsClause := Some(b.builderClass.name);
    }

    /**
      The init method, the members of the declared properties, the extends clause
      with the init hand-off and the overrides, then build and the methods of the
      built class.
     */
    method BuildProperties()
      requires Generatable(config)
      modifies this`extendsClause, this`fields, this`methods, this`initBody, this`productMethods
      ensures Snapshot() == BuildPropertiesSpec(old(Snapshot()), config)
    {
      ghost var s0 := Snapshot();
      ghost var members := MembersOf(config, config.classOutline.declaredFields);
      var impl := config.Implement();
      if impl {
        methods := methods + [InitMethod()];
      } else {
        AppendNothing(methods);
      }
      ghost var s1 := Snapshot();
      assert s1 == s0.(methods := s0.methods + if impl then [InitMethod()] else []);
      GenerateBuilderMembers();
      ghost var s2 := Snapshot();
      assert s2 == s1.(fields := s1.fields + members.fields, methods := s1.methods + members.methods,
                       init := s1.init + members.init);
      var sup := config.classOutline.superClass;
      if sup.Some? {
        GenerateExtendsClause(Builder(config, sup.value.implClass).value);
        if impl {
          initBody := initBody + [Return(Call(Super, INIT_METHOD, [InitParam]))];
        } else {
          AppendNothing(initBody);
        }
        GenerateBuilderMemberOverrides(sup.value);
      } else {
        if impl {
          initBody := initBody + [Return(InitParam)];
        } else {
          AppendNothing(initBody);
        }
        AppendNothing(methods);
      }
      ghost var s3 := Snapshot();
      assert s3 == s2.(extendsClause := if sup.None? then s2.extendsClause else Some(SuperBuilderName(config)),
                       init := s2.init + InitReturn(config),
                       methods := s2.methods + if sup.None? then [] else OverridesOf(config, sup.value));
      GenerateBuildMethod();
      ghost var s4 := Snapshot();
      assert s4 == s3.(methods := s3.methods + [BuildMethod(config)]);
      if config.settings.newCopyBuilderMethod {
        GenerateCopyBuilderMethod();
      } else {
        AppendNothing(productMethods);
      }
      ghost var s5 := Snapshot();
      assert s5 == s4.(productMethods := s4.productMethods
                         + if config.settings.newCopyBuilderMethod then CopyBuilderMethods(config) else []);
      if impl && !config.classOutline.isAbstract {
        GenerateBuilderMethod();
      } else {
        AppendNothing(productMethods);
      }
      assert Snapshot() == s5.(productMethods := s5.productMethods
                                 + if impl && !config.classOutline.isAbstract then FactoryMethods(config) else []);
    }
  }

  /** Runs the generator on one class and returns the builder it produced. */
  method GenerateBuilder(api: Api, outlines: map<string, BuilderOutline>, outline: BuilderOutline, settings: Settings)
    returns (spec: BuilderSpec)
    requires Generatable(ConfigOf(api, outlines, outline, settings))
    ensures spec == BuilderSpecOf(ConfigOf(api, outlines, outline, settings))
  {
    var g := new BuilderGenerator(api, outlines, outline, settings);
    g.BuildProperties();
    spec := g.Snapshot();
  }
}
