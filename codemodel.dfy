/**
  The values the builder generator reads (class and property outlines, the builder
  registry, the plugin settings) and the code-model values it produces (methods,
  fields, constructors and the statements and expressions of their bodies).
  Code-model objects are plain datatypes; types of the generated Java code are
  symbolic tags.
 */
module CodeModel {
  import opened Wrappers

  // Method-name constants of ApiConstructs and the names BuilderGenerator itself uses.
  const WITH_PREFIX: string := "with"
  const ADD_PREFIX: string := "add"
  const BUILD_METHOD: string := "build"
  const INIT_METHOD: string := "init"
  const END_METHOD: string := "end"
  const PARENT_BUILDER_FIELD: string := "_parentBuilder"
  const PRODUCT_FIELD: string := "_product"
  const ITEM_VAR: string := "_item"
  const OTHER_PARAM: string := "_other"
  const COPY_PARAM: string := "_copy"
  const TREE_PARAM: string := "_propertyTree"
  const TREE_USE_PARAM: string := "_propertyTreeUse"

  /** A type of the input model, as the type-model provider hands it over. */
  datatype TypeRef =
    | Primitive(name: string)
    | ClassRef(name: string, typeArgs: seq<TypeRef>)
    | ArrayOf(elem: TypeRef)
  {
    predicate IsArray() { ArrayOf? }
    predicate IsReference() { !Primitive? }

    /** JClass.getTypeParameters(): only a parameterised class has any; an array class has none. */
    function TypeParameters(): seq<TypeRef> {
      if ClassRef? then typeArgs else []
    }

    /** The key of the builder registry. */
    function FullName(): string {
      match this
      case Primitive(n) => n
      case ClassRef(n, _) => n
      case ArrayOf(e) => e.FullName() + "[]"
    }
  }

  /** The Java field behind a property, as far as the copy constructors look at it. */
  datatype FieldVar = FieldVar(name: string, fieldType: TypeRef, isFinal: bool, isStatic: bool)

  /** PropertyOutline: one declared property of a class. */
  datatype PropertyOutline = PropertyOutline(
    baseName: string,
    fieldName: string,
    rawType: TypeRef,
    isCollection: bool,
    hasGetter: bool,
    fieldVar: Option<FieldVar>)

  /** TypeOutline of a generated class: its implementation class, declared properties and superclass chain. */
  datatype ClassOutline = ClassOutline(
    implClass: TypeRef,
    isAbstract: bool,
    declaredFields: seq<PropertyOutline>,
    superClass: Option<ClassOutline>)

  /** The builder class that belongs to a class (interface in interface-only mode). */
  datatype BuilderClass = BuilderClass(name: string, isInterface: bool, isAbstract: bool)

  /** BuilderOutline: a class together with its builder class. */
  datatype BuilderOutline = BuilderOutline(classOutline: ClassOutline, builderClass: BuilderClass)

  /**
    What ApiConstructs contributes: the type predicates it answers (each given as the
    set of types for which it holds), the resolver for builders of classes outside the
    current model, the configurable method names, and whether the immutable plugin is active.
   */
  datatype Api = Api(
    collectionTypes: set<TypeRef>,
    cloneableTypes: set<TypeRef>,
    partialCopyableTypes: set<TypeRef>,
    instantiableTypes: set<TypeRef>,
    referencedBuilders: map<TypeRef, BuilderOutline>,
    buildCopyMethodName: string,
    copyExceptMethodName: string,
    copyOnlyMethodName: string,
    cloneMethodName: string,
    copyMethodName: string,
    immutablePlugin: bool)

  /** BuilderGeneratorSettings. */
  datatype Settings = Settings(
    narrowCopy: bool,
    partialCopy: bool,
    newCopyBuilderMethod: bool,
    newBuilderMethodName: string,
    newCopyBuilderMethodName: string,
    builderFieldSuffix: string)

  /** Everything one BuilderGenerator is constructed from. */
  datatype Config = Config(
    api: Api,
    outlines: map<string, BuilderOutline>,
    settings: Settings,
    classOutline: ClassOutline,
    builderClass: BuilderClass)
  {
    /** Implementation mode: the builder is a class, not an interface. */
    predicate Implement() { !builderClass.isInterface }
    predicate IsRoot() { classOutline.superClass.None? }
  }

  /** Types of the generated code, as symbolic tags. */
  datatype TypeTag =
    | Plain(t: TypeRef)                    // a type of the input model
    | SelfBuilder                          // the builder narrowed to TParentBuilder
    | ParentBuilderParam                   // TParentBuilder
    | ChildBuilder(builder: string)        // a child builder narrowed to this builder's type
    | ChildBuilderWildcard(builder: string) // a child builder narrowed to a wildcard of this builder's type
    | IterableOf(elem: TypeRef, wildcard: bool)
    | ArrayListOf(of: TypeTag)
    | ListOf(of: TypeTag)
    | Product                              // the class the builder builds
    | ProductVar                           // the type variable P of init
    | BuilderOfVoid
    | BuilderOfP
    | BooleanType
    | PropertyTreeType
    | PropertyTreeUseType

  datatype Use = Include | Exclude

  datatype Expr =
    | This
    | Super
    | Null
    | BoolLit(b: bool)
    | Var(name: string)
    | InitParam                                   // the product parameter of init
    | FieldOf(target: Expr, field: string)
    | New(ty: TypeTag, args: seq<Expr>)
    | Invoke(callee: string, args: seq<Expr>)     // unqualified call of a method of this class
    | Call(target: Expr, callee: string, args: seq<Expr>)
    | TypedCall(target: Expr, callee: string, typeArg: TypeTag, args: seq<Expr>)
    | IsNull(e: Expr)
    | NotNull(e: Expr)
    | Cond(test: Expr, thn: Expr, els: Expr)
    | Cast(ty: TypeTag, e: Expr)
    | AssignExpr(lhs: Expr, rhs: Expr)
    | AsList(e: Expr)                             // ApiConstructs.asList
    | CastOnDemand(t: TypeRef, e: Expr)           // ApiConstructs.castOnDemand
    | TreeVar(field: string)                      // the property-tree variable PartialCopyGenerator declares for a field
    | TreeParam                                   // PartialCopyGenerator's property-tree parameter
    | UseParam                                    // PartialCopyGenerator's include/exclude parameter
    | IncludeCondition(treeVar: Expr)             // PartialCopyGenerator's include test
    | UseConst(use: Use)

  datatype Stmt =
    | Assign(lhs: Expr, rhs: Expr)
    | Eval(e: Expr)
    | Return(e: Expr)
    | If(cond: Expr, thn: seq<Stmt>, els: seq<Stmt>)
    | ForEach(elemType: TypeTag, item: string, source: Expr, body: seq<Stmt>)
    | Decl(ty: TypeTag, name: string, init: Expr)
    | Block(body: seq<Stmt>)
    | CatchCloneNotSupported(t: TypeRef, body: seq<Stmt>) // ApiConstructs.catchCloneNotSupported
    | DeclTreeVar(field: string)                          // PartialCopyGenerator.generatePropertyTreeVarDeclaration
    | SuperConstructor(args: seq<Expr>)
    | ImmutableInit(field: string)                        // the ImmutablePlugin.immutableInit hook

  /** nullSafe(test, expr): `test == null ? null : expr`. */
  function NullSafe(test: Expr, e: Expr): Expr {
    Cond(IsNull(test), Null, e)
  }

  datatype Visibility = Public | Protected | Private | PackagePrivate
  datatype Mods = Mods(visibility: Visibility, isStatic: bool, isAbstract: bool, isFinal: bool)

  const PUBLIC := Mods(Public, false, false, false)
  const PUBLIC_STATIC := Mods(Public, true, false, false)
  const PUBLIC_ABSTRACT := Mods(Public, false, true, false)
  const PROTECTED := Mods(Protected, false, false, false)
  const PROTECTED_FINAL := Mods(Protected, false, false, true)
  const PRIVATE := Mods(Private, false, false, false)
  const NO_MODS := Mods(PackagePrivate, false, false, false)

  datatype Param =
    | Param(ty: TypeTag, name: string, varargs: bool)
    | ProductParam       // init's parameter, typed by its type variable P
    | TreeParams         // the two parameters PartialCopyGenerator adds

  /** A method body: none (interface or abstract method), a block, or the shared init body. */
  datatype Body = NoBody | Code(stmts: seq<Stmt>) | InitStatements

  datatype MethodSpec = MethodSpec(
    mods: Mods, resultType: TypeTag, name: string, params: seq<Param>, body: Body, isOverride: bool)

  datatype FieldSpec = FieldSpec(mods: Mods, ty: TypeTag, name: string, init: Option<Expr>)

  datatype ConstructorSpec = ConstructorSpec(visibility: Visibility, params: seq<Param>, body: seq<Stmt>)

  /** What one property (or one group of properties) contributes to the builder. */
  datatype Emission = Emission(methods: seq<MethodSpec>, fields: seq<FieldSpec>, init: seq<Stmt>)

  function Join(a: Emission, b: Emission): Emission {
    Emission(a.methods + b.methods, a.fields + b.fields, a.init + b.init)
  }

  const NOTHING := Emission([], [], [])

  /** The generated builder of one class, and the methods added to the class itself. */
  datatype BuilderSpec = BuilderSpec(
    extendsClause: Option<string>,
    fields: seq<FieldSpec>,
    constructors: seq<ConstructorSpec>,
    methods: seq<MethodSpec>,
    init: seq<Stmt>,
    productMethods: seq<MethodSpec>)
}
