/**
  What generateBuilderMember emits for one property: the with/add methods, the
  private builder field and the init statements, per property shape
  (generateSingularProperty, generateCollectionProperty, generateArrayProperty),
  and what buildProperties emits for the declared properties of a class.
 */
module Members {
  import opened Wrappers
  import opened CodeModel
  import opened Lookup

  function WithName(p: PropertyOutline): string { WITH_PREFIX + p.baseName }
  function AddName(p: PropertyOutline): string { ADD_PREFIX + p.baseName }
  function ThisField(name: string): Expr { FieldOf(This, name) }

  /** A method body that exists only in implementation mode. */
  function BodyIf(implement: bool, stmts: seq<Stmt>): Body {
    if implement then Code(stmts) else NoBody
  }

  /** generateSingularProperty. */
  function SingularMembers(c: Config, p: PropertyOutline): (e: Emission)
    ensures |e.methods| == if HasBuilder(c, p.rawType) then 2 else 1
    ensures forall m :: m in e.methods ==> m.name == WithName(p) && !m.isOverride && m.mods == PUBLIC
    ensures e.methods[0].params == [Param(Plain(p.rawType), p.fieldName, false)]
    ensures e.methods[0].resultType == SelfBuilder
    ensures HasBuilder(c, p.rawType) ==>
      e.methods[1].params == [] && e.methods[1].resultType == ChildBuilderWildcard(Builder(c, p.rawType).value.builderClass.name)
    ensures |e.fields| == |e.init| == if c.Implement() then 1 else 0
    ensures c.Implement() ==> e.fields[0] == FieldSpec(PRIVATE,
      if HasBuilder(c, p.rawType) then ChildBuilder(Builder(c, p.rawType).value.builderClass.name) else Plain(p.rawType),
      p.fieldName, None)
    ensures c.Implement() ==> e.init[0].Assign? && e.init[0].lhs == FieldOf(InitParam, p.fieldName)
    ensures forall m :: m in e.methods ==> (m.body.Code? <==> c.Implement())
    // A plain property: with<Name>(v) stores v, and init hands the stored value to the product.
    ensures c.Implement() && !HasBuilder(c, p.rawType) ==>
      && e.methods[0].body == Code([Assign(ThisField(p.fieldName), Var(p.fieldName)), Return(This)])
      && e.init[0].rhs == ThisField(p.fieldName)
    // A buildable property: with<Name>(v) stores a child builder around v (null stays null),
    // with<Name>() stores and returns an empty child builder, and init hands the product
    // what the stored child builder builds (null stays null).
    ensures c.Implement() && HasBuilder(c, p.rawType) ==>
      var f := p.fieldName;
      var child := ChildBuilder(Builder(c, p.rawType).value.builderClass.name);
      && e.methods[0].body == Code([Assign(ThisField(f), NullSafe(Var(f), New(child, [This, Var(f), BoolLit(false)]))), Return(This)])
      && e.methods[1].body == Code([Return(AssignExpr(ThisField(f), New(child, [This, Null, BoolLit(false)])))])
      && e.init[0].rhs == NullSafe(ThisField(f), Call(ThisField(f), BUILD_METHOD, []))
  {
    var f := p.fieldName;
    var t := p.rawType;
    var impl := c.Implement();
    match Builder(c, t)
    case None =>
      Emission(
        [MethodSpec(PUBLIC, SelfBuilder, WithName(p), [Param(Plain(t), f, false)],
           BodyIf(impl, [Assign(ThisField(f), Var(f)), Return(This)]), false)],
        if impl then [FieldSpec(PRIVATE, Plain(t), f, None)] else [],
        if impl then [Assign(FieldOf(InitParam, f), ThisField(f))] else [])
    case Some(b) =>
      var child := ChildBuilder(b.builderClass.name);
      Emission(
        [MethodSpec(PUBLIC, SelfBuilder, WithName(p), [Param(Plain(t), f, false)],
           BodyIf(impl, [Assign(ThisField(f), NullSafe(Var(f), New(child, [This, Var(f), BoolLit(false)]))), Return(This)]), false),
         MethodSpec(PUBLIC, ChildBuilderWildcard(b.builderClass.name), WithName(p), [],
           BodyIf(impl, [Return(AssignExpr(ThisField(f), New(child, [This, Null, BoolLit(false)])))]), false)],
        if impl then [FieldSpec(PRIVATE, child, f, None)] else [],
        if impl then [Assign(FieldOf(InitParam, f), NullSafe(ThisField(f), Call(ThisField(f), BUILD_METHOD, [])))] else [])
  }

  /** The body of add<Name>(Iterable): allocate the list lazily, then append. */
  function AddListBody(c: Config, p: PropertyOutline, elem: TypeRef): seq<Stmt> {
    var f := p.fieldName;
    match Builder(c, elem)
    case None =>
      [If(IsNull(ThisField(f)), [Assign(ThisField(f), New(ArrayListOf(Plain(elem)), []))], []),
       Eval(Call(ThisField(f), "addAll", [Var(f)])),
       Return(This)]
    case Some(b) =>
      var child := ChildBuilder(b.builderClass.name);
      [If(IsNull(ThisField(f)), [Assign(ThisField(f), New(ArrayListOf(child), []))], []),
       ForEach(Plain(elem), ITEM_VAR, Var(f),
         [Eval(Call(ThisField(f), "add", [New(child, [This, Var(ITEM_VAR), BoolLit(false)])]))]),
       Return(This)]
  }

  /** The body of with<Name>(Iterable): clear an existing list, then delegate to add<Name>. */
  function WithListBody(p: PropertyOutline): seq<Stmt> {
    [If(NotNull(ThisField(p.fieldName)), [Eval(Call(ThisField(p.fieldName), "clear", []))], []),
     Return(Invoke(AddName(p), [Var(p.fieldName)]))]
  }

  /** A varargs method that wraps its arguments with asList and calls the Iterable form. */
  function VarargsBody(p: PropertyOutline, target: string): seq<Stmt> {
    [Eval(Invoke(target, [AsList(Var(p.fieldName))])), Return(This)]
  }

  /** The no-argument add<Name>() of a collection of buildable elements. */
  function AddBuilderMethod(c: Config, p: PropertyOutline, b: BuilderOutline): MethodSpec {
    var f := p.fieldName;
    var child := ChildBuilder(b.builderClass.name);
    var local := f + c.settings.builderFieldSuffix;
    MethodSpec(PUBLIC, ChildBuilderWildcard(b.builderClass.name), AddName(p), [],
      BodyIf(c.Implement(),
        [If(IsNull(ThisField(f)), [Assign(ThisField(f), New(ArrayListOf(child), []))], []),
         Decl(child, local, New(child, [This, Null, BoolLit(false)])),
         Eval(Call(ThisField(f), "add", [Var(local)])),
         Return(Var(local))]), false)
  }

  /** The init statements of a collection property. */
  function CollectionInit(c: Config, p: PropertyOutline, elem: TypeRef): seq<Stmt> {
    var f := p.fieldName;
    match Builder(c, elem)
    case None => [Assign(FieldOf(InitParam, f), ThisField(f))]
    case Some(b) =>
      var child := ChildBuilder(b.builderClass.name);
      [If(NotNull(ThisField(f)),
         [Decl(ListOf(Plain(elem)), f, New(ArrayListOf(Plain(elem)), [Call(ThisField(f), "size", [])])),
          ForEach(child, ITEM_VAR, ThisField(f), [Eval(Call(Var(f), "add", [Call(Var(ITEM_VAR), BUILD_METHOD, [])]))]),
          Assign(FieldOf(InitParam, f), Var(f))],
         [])]
  }

  /** generateCollectionProperty. */
  function CollectionMembers(c: Config, p: PropertyOutline, elem: TypeRef): (e: Emission)
    ensures |e.methods| == if HasBuilder(c, elem) then 5 else 4
    ensures e.methods[0].name == e.methods[2].name == AddName(p)
    ensures e.methods[1].name == e.methods[3].name == WithName(p)
    ensures HasBuilder(c, elem) ==>
      e.methods[4].name == AddName(p) && e.methods[4].params == [] && e.methods[4].resultType == ChildBuilderWildcard(Builder(c, elem).value.builderClass.name)
    ensures e.methods[0].params == e.methods[1].params == [Param(IterableOf(elem, true), p.fieldName, false)]
    ensures e.methods[2].params == e.methods[3].params == [Param(Plain(elem), p.fieldName, true)]
    ensures forall i :: 0 <= i < 4 ==> e.methods[i].resultType == SelfBuilder
    ensures c.Implement() ==>
      e.methods[2].body == Code(VarargsBody(p, AddName(p))) && e.methods[3].body == Code(VarargsBody(p, WithName(p)))
    ensures forall m :: m in e.methods ==> !m.isOverride && m.mods == PUBLIC && (m.body.Code? <==> c.Implement())
    ensures |e.fields| == if c.Implement() then 1 else 0
    ensures c.Implement() ==> e.fields[0] == FieldSpec(PRIVATE,
      if HasBuilder(c, elem) then ListOf(ChildBuilder(Builder(c, elem).value.builderClass.name)) else Plain(p.rawType),
      p.fieldName, None)
    ensures |e.init| == if c.Implement() then (if c.api.immutablePlugin then 2 else 1) else 0
    ensures c.Implement() && c.api.immutablePlugin ==> e.init[1] == ImmutableInit(p.fieldName)
    // with<Name>(Iterable) clears an existing list and delegates to add<Name>(Iterable).
    ensures c.Implement() ==>
      e.methods[1].body == Code([If(NotNull(ThisField(p.fieldName)), [Eval(Call(ThisField(p.fieldName), "clear", []))], []),
                                 Return(Invoke(AddName(p), [Var(p.fieldName)]))])
    // A plain element: add<Name>(Iterable) allocates the list lazily and adds all
    // elements; init hands the builder's own list to the product.
    ensures c.Implement() && !HasBuilder(c, elem) ==>
      var f := p.fieldName;
      && e.methods[0].body == Code([If(IsNull(ThisField(f)), [Assign(ThisField(f), New(ArrayListOf(Plain(elem)), []))], []),
                                    Eval(Call(ThisField(f), "addAll", [Var(f)])),
                                    Return(This)])
      && e.init[0] == Assign(FieldOf(InitParam, f), ThisField(f))
    // A buildable element: add<Name>(Iterable) wraps each element in a child builder;
    // add<Name>() appends and returns an empty child builder; init builds every child
    // builder into a new list of the product.
    ensures c.Implement() && HasBuilder(c, elem) ==>
      var f := p.fieldName;
      var child := ChildBuilder(Builder(c, elem).value.builderClass.name);
      var local := f + c.settings.builderFieldSuffix;
      && e.methods[0].body == Code([If(IsNull(ThisField(f)), [Assign(ThisField(f), New(ArrayListOf(child), []))], []),
                                    ForEach(Plain(elem), ITEM_VAR, Var(f),
                                      [Eval(Call(ThisField(f), "add", [New(child, [This, Var(ITEM_VAR), BoolLit(false)])]))]),
                                    Return(This)])
      && e.methods[4].body == Code([If(IsNull(ThisField(f)), [Assign(ThisField(f), New(ArrayListOf(child), []))], []),
                                    Decl(child, local, New(child, [This, Null, BoolLit(false)])),
                                    Eval(Call(ThisField(f), "add", [Var(local)])),
                                    Return(Var(local))])
      && e.init[0] == If(NotNull(ThisField(f)),
                         [Decl(ListOf(Plain(elem)), f, New(ArrayListOf(Plain(elem)), [Call(ThisField(f), "size", [])])),
                          ForEach(child, ITEM_VAR, ThisField(f), [Eval(Call(Var(f), "add", [Call(Var(ITEM_VAR), BUILD_METHOD, [])]))]),
                          Assign(FieldOf(InitParam, f), Var(f))],
                         [])
  {
    var f := p.fieldName;
    var impl := c.Implement();
    var iter := IterableOf(elem, true);
    var four := [
      MethodSpec(PUBLIC, SelfBuilder, AddName(p), [Param(iter, f, false)], BodyIf(impl, AddListBody(c, p, elem)), false),
      MethodSpec(PUBLIC, SelfBuilder, WithName(p), [Param(iter, f, false)], BodyIf(impl, WithListBody(p)), false),
      MethodSpec(PUBLIC, SelfBuilder, AddName(p), [Param(Plain(elem), f, true)], BodyIf(impl, VarargsBody(p, AddName(p))), false),
      MethodSpec(PUBLIC, SelfBuilder, WithName(p), [Param(Plain(elem), f, true)], BodyIf(impl, VarargsBody(p, WithName(p))), false)];
    var hook := if c.api.immutablePlugin && impl then [ImmutableInit(f)] else [];
    match Builder(c, elem)
    case None =>
      Emission(four,
        if impl then [FieldSpec(PRIVATE, Plain(p.rawType), f, None)] else [],
        (if impl then CollectionInit(c, p, elem) else []) + hook)
    case Some(b) =>
      Emission(four + [AddBuilderMethod(c, p, b)],
        if impl then [FieldSpec(PRIVATE, ListOf(ChildBuilder(b.builderClass.name)), f, None)] else [],
        (if impl then CollectionInit(c, p, elem) else []) + hook)
  }

  /** generateArrayProperty. */
  function ArrayMembers(c: Config, p: PropertyOutline, elem: TypeRef): (e: Emission)
    ensures |e.methods| == 1
    ensures e.methods[0].name == WithName(p) && e.methods[0].resultType == SelfBuilder
    ensures e.methods[0].params == [Param(Plain(elem), p.fieldName, true)]
    ensures c.Implement() ==> e.methods[0].body == Code([Assign(ThisField(p.fieldName), Var(p.fieldName)), Return(This)])
    ensures !c.Implement() ==> e.methods[0].body == NoBody
    ensures e.fields == if c.Implement() then [FieldSpec(PRIVATE, Plain(p.rawType), p.fieldName, Some(Null))] else []
    ensures e.init == if c.Implement() then [Assign(FieldOf(InitParam, p.fieldName), ThisField(p.fieldName))] else []
  {
    var f := p.fieldName;
    var impl := c.Implement();
    Emission(
      [MethodSpec(PUBLIC, SelfBuilder, WithName(p), [Param(Plain(elem), f, true)],
         BodyIf(impl, [Assign(ThisField(f), Var(f)), Return(This)]), false)],
      if impl then [FieldSpec(PRIVATE, Plain(p.rawType), f, Some(Null))] else [],
      if impl then [Assign(FieldOf(InitParam, f), ThisField(f))] else [])
  }

  /** generateBuilderMember: dispatch on the property's shape. */
  function MemberEmission(c: Config, p: PropertyOutline): Emission
    requires ElementTypeKnown(p)
  {
    match ShapeOf(p)
    case ArrayShape(elem) => ArrayMembers(c, p, elem)
    case CollectionShape(elem) => CollectionMembers(c, p, elem)
    case SingularShape => SingularMembers(c, p)
  }

  /** What one declared property contributes: nothing unless it has a getter. */
  function PropertyEmission(c: Config, p: PropertyOutline): Emission
    requires Dispatchable(p)
  {
    if p.hasGetter then MemberEmission(c, p) else NOTHING
  }

  /** The loop of buildProperties over the declared properties, in declaration order. */
  function MembersOf(c: Config, fs: seq<PropertyOutline>): Emission
    requires forall p :: p in fs ==> Dispatchable(p)
    decreases |fs|
  {
    if fs == [] then NOTHING
    else Join(MembersOf(c, fs[..|fs| - 1]), PropertyEmission(c, fs[|fs| - 1]))
  }
}
