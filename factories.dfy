/**
  The terminal methods of the builder (end, init, build), the root builder's
  storage fields, and the static entry points and copy-builder methods added to
  the built class (generateBuildMethod, generateBuilderMethod,
  generateCopyBuilderMethod, generateConveniencePartialCopyMethod).
 */
module Factories {
  import opened Wrappers
  import opened CodeModel
  import opened Members

  /** end(): returns the parent builder; emitted only on the root builder. */
  function EndMethod(c: Config): MethodSpec {
    MethodSpec(PUBLIC, ParentBuilderParam, END_METHOD, [],
      BodyIf(c.Implement(), [Return(ThisField(PARENT_BUILDER_FIELD))]), false)
  }

  /** The storage only the root builder of a hierarchy owns. */
  function RootFields(): seq<FieldSpec> {
    [FieldSpec(PROTECTED_FINAL, ParentBuilderParam, PARENT_BUILDER_FIELD, None),
     FieldSpec(PROTECTED_FINAL, Product, PRODUCT_FIELD, None)]
  }

  /** init(P product): protected; its body is the builder's init statements. */
  function InitMethod(): MethodSpec {
    MethodSpec(PROTECTED, ProductVar, INIT_METHOD, [ProductParam], InitStatements, false)
  }

  /** The statement that closes init: hand the product to the superclass builder's init, or return it. */
  function InitReturn(c: Config): seq<Stmt> {
    if !c.Implement() then []
    else if c.IsRoot() then [Return(InitParam)]
    else [Return(Call(Super, INIT_METHOD, [InitParam]))]
  }

  /** generateBuildMethod. */
  function BuildMethod(c: Config): (m: MethodSpec)
    ensures m.name == BUILD_METHOD && m.params == [] && m.resultType == Product
    ensures c.Implement() && c.classOutline.isAbstract ==>
      m.body == Code([Return(Cast(Product, ThisField(PRODUCT_FIELD)))])
    ensures c.Implement() && !c.classOutline.isAbstract ==>
      m.body == Code([If(IsNull(ThisField(PRODUCT_FIELD)),
                        [Return(Call(This, INIT_METHOD, [New(Product, [])]))],
                        [Return(Cast(Product, ThisField(PRODUCT_FIELD)))])])
    ensures !c.Implement() ==> m.body == NoBody
  {
    var product := ThisField(PRODUCT_FIELD);
    MethodSpec(PUBLIC, Product, BUILD_METHOD, [],
      BodyIf(c.Implement(),
        if c.classOutline.isAbstract then [Return(Cast(Product, product))]
        else [If(IsNull(product), [Return(Call(This, INIT_METHOD, [New(Product, [])]))], [Return(Cast(Product, product))])]),
      false)
  }

  function OtherParam(): Param { Param(Product, OTHER_PARAM, false) }
  function TreeParamDecl(): Param { Param(PropertyTreeType, TREE_PARAM, false) }
  function TreeUseParamDecl(): Param { Param(PropertyTreeUseType, TREE_USE_PARAM, false) }

  /** The general partial copyOf(other, tree, use). */
  function PartialCopyOfMethod(c: Config): MethodSpec {
    MethodSpec(PUBLIC_STATIC, BuilderOfP, c.api.buildCopyMethodName, [OtherParam(), TreeParamDecl(), TreeUseParamDecl()],
      Code([Return(New(BuilderOfP, [Null, Var(OTHER_PARAM), BoolLit(true), Var(TREE_PARAM), Var(TREE_USE_PARAM)]))]), false)
  }

  /** generateConveniencePartialCopyMethod: copyOf(other, tree, use) with the use fixed. */
  function ConveniencePartialCopyMethod(c: Config, name: string, use: Use): (m: MethodSpec)
    ensures m.name == name && m.mods == PUBLIC_STATIC && m.params == [OtherParam(), TreeParamDecl()]
    ensures m.body == Code([Return(Invoke(PartialCopyOfMethod(c).name, [Var(OTHER_PARAM), Var(TREE_PARAM), UseConst(use)]))])
  {
    MethodSpec(PUBLIC_STATIC, BuilderOfVoid, name, [OtherParam(), TreeParamDecl()],
      Code([Return(Invoke(c.api.buildCopyMethodName, [Var(OTHER_PARAM), Var(TREE_PARAM), UseConst(use)]))]), false)
  }

  /** generateBuilderMethod: builder(), copyOf(other) and, with partial copy, the three tree-driven copies. */
  function FactoryMethods(c: Config): (ms: seq<MethodSpec>)
    ensures |ms| == if c.settings.partialCopy then 5 else 2
    ensures forall m :: m in ms ==> m.mods == PUBLIC_STATIC && m.body.Code?
    ensures ms[0].name == c.settings.newBuilderMethodName && ms[0].params == []
    ensures ms[0].body == Code([Return(New(BuilderOfVoid, [Null, Null, BoolLit(false)]))])
    ensures ms[1].name == c.api.buildCopyMethodName && ms[1].params == [OtherParam()]
    ensures ms[1].body == Code([Return(New(BuilderOfP, [Null, Var(OTHER_PARAM), BoolLit(true)]))])
    ensures ms[0].resultType == BuilderOfVoid && ms[1].resultType == BuilderOfP
    ensures c.settings.partialCopy ==>
      && ms[2].name == c.api.buildCopyMethodName && ms[2].resultType == BuilderOfP
      && ms[2].params == [OtherParam(), TreeParamDecl(), TreeUseParamDecl()]
      && ms[2].body == Code([Return(New(BuilderOfP, [Null, Var(OTHER_PARAM), BoolLit(true), Var(TREE_PARAM), Var(TREE_USE_PARAM)]))])
    ensures c.settings.partialCopy ==>
      ms[3] == ConveniencePartialCopyMethod(c, c.api.copyExceptMethodName, Exclude)
      && ms[4] == ConveniencePartialCopyMethod(c, c.api.copyOnlyMethodName, Include)
  {
    var builder := MethodSpec(PUBLIC_STATIC, BuilderOfVoid, c.settings.newBuilderMethodName, [],
      Code([Return(New(BuilderOfVoid, [Null, Null, BoolLit(false)]))]), false);
    var copyOf := MethodSpec(PUBLIC_STATIC, BuilderOfP, c.api.buildCopyMethodName, [OtherParam()],
      Code([Return(New(BuilderOfP, [Null, Var(OTHER_PARAM), BoolLit(true)]))]), false);
    [builder, copyOf]
    + if c.settings.partialCopy then
        [PartialCopyOfMethod(c),
         ConveniencePartialCopyMethod(c, c.api.copyExceptMethodName, Exclude),
         ConveniencePartialCopyMethod(c, c.api.copyOnlyMethodName, Include)]
      else []
  }

  /**
    copyExcept and copyOnly call the partial copyOf among the factories: the same
    name with three arguments, passing their own two parameters through and a
    fixed use in the third place, so the call resolves to that three-parameter
    overload and not to copyOf(other).
   */
  lemma ConvenienceCopiesCallPartialCopyOf(c: Config)
    requires c.settings.partialCopy
    ensures var ms := FactoryMethods(c);
      forall k :: 3 <= k < 5 ==>
        && ms[k].params == ms[2].params[..2]
        && ms[k].body.Code? && |ms[k].body.stmts| == 1 && ms[k].body.stmts[0].Return?
        && var call := ms[k].body.stmts[0].e;
           call.Invoke? && call.callee == ms[2].name && |call.args| == |ms[2].params| != |ms[1].params|
           && call.args[0] == Var(ms[2].params[0].name) && call.args[1] == Var(ms[2].params[1].name)
           && call.args[2].UseConst?
  {
  }

  /** generateCopyBuilderMethod: newCopyBuilder() and, with partial copy, newCopyBuilder(tree, use). */
  function CopyBuilderMethods(c: Config): (ms: seq<MethodSpec>)
    ensures |ms| == if c.settings.partialCopy then 2 else 1
    ensures forall m :: m in ms ==> m.name == c.settings.newCopyBuilderMethodName && m.resultType == BuilderOfP && !m.mods.isStatic
    ensures forall m :: m in ms ==>
      (m.body.Code? <==> c.Implement() && !c.classOutline.isAbstract)
      && (m.mods.isAbstract <==> c.Implement() && c.classOutline.isAbstract)
    ensures !c.Implement() ==> forall m :: m in ms ==> m.mods == NO_MODS
    ensures c.Implement() && !c.classOutline.isAbstract ==>
      ms[0].body == Code([Return(Invoke(c.api.buildCopyMethodName, [This]))])
  {
    var impl := c.Implement();
    var mods := if impl then (if c.classOutline.isAbstract then PUBLIC_ABSTRACT else PUBLIC) else NO_MODS;
    var hasBody := impl && !c.classOutline.isAbstract;
    [MethodSpec(mods, BuilderOfP, c.settings.newCopyBuilderMethodName, [],
       BodyIf(hasBody, [Return(Invoke(c.api.buildCopyMethodName, [This]))]), false)]
    + if c.settings.partialCopy then
        [MethodSpec(mods, BuilderOfP, c.settings.newCopyBuilderMethodName, [TreeParamDecl(), TreeUseParamDecl()],
           BodyIf(hasBody, [Return(Invoke(c.api.buildCopyMethodName, [This, Var(TREE_PARAM), Var(TREE_USE_PARAM)]))]), false)]
      else []
  }
}
