/**
  The builder's copy constructors: generateCopyConstructor (full copy) and
  generatePartialCopyConstructor (copy gated by a property tree), the copy
  strategy each picks per declared field, and the loop helper they share.
 */
module Copy {
  import opened Wrappers
  import opened CodeModel
  import opened Lookup
  import opened Members

  datatype CopyStrategy =
    | AssignValue              // primitive: plain assignment
    | NarrowBuilderLoop        // collection: a child builder of the declared element type per element
    | PolymorphicBuilderLoop   // collection: each element's own newCopyBuilder
    | PartialCopyLoop          // collection: each element's partial copy method
    | CloneLoop                // collection: clone each element
    | ShallowListCopy          // collection: a new list holding the same elements
    | NarrowBuilder            // singular: a child builder of the declared type
    | PolymorphicBuilder       // singular: the value's own newCopyBuilder
    | PartialCopyValue         // singular: the value's partial copy method
    | CloneValue               // singular: clone the value
    | AssignReference          // singular: plain assignment

  /**
    What the copy constructors demand of a field's type: a collection type has an
    element type, and where the narrow-copy branch applies a child builder exists
    (the source dereferences it unchecked).
   */
  predicate CopyResolvable(c: Config, t: TypeRef) {
    t.IsReference() ==>
      if t in c.api.collectionTypes then
        |t.TypeParameters()| > 0
        && (c.settings.narrowCopy && t.TypeParameters()[0] in c.api.instantiableTypes ==> HasBuilder(c, t.TypeParameters()[0]))
      else
        c.settings.narrowCopy && t in c.api.instantiableTypes ==> HasBuilder(c, t)
  }

  predicate IsLoop(s: CopyStrategy) {
    s.NarrowBuilderLoop? || s.PolymorphicBuilderLoop? || s.PartialCopyLoop? || s.CloneLoop? || s.ShallowListCopy?
  }

  /** The strategy table of generateCopyConstructor, tried in this order. */
  function FullCopyStrategy(c: Config, t: TypeRef): (s: CopyStrategy)
    requires CopyResolvable(c, t)
    ensures s.AssignValue? <==> !t.IsReference()
    ensures IsLoop(s) <==> t.IsReference() && t in c.api.collectionTypes
    ensures !s.PartialCopyLoop? && !s.PartialCopyValue?
    ensures IsLoop(s) ==> var e := t.TypeParameters()[0];
      && (s.NarrowBuilderLoop? <==> c.settings.narrowCopy && e in c.api.instantiableTypes)
      && (s.PolymorphicBuilderLoop? <==> !(c.settings.narrowCopy && e in c.api.instantiableTypes) && HasBuilder(c, e))
      && (s.CloneLoop? <==> !(c.settings.narrowCopy && e in c.api.instantiableTypes) && !HasBuilder(c, e) && e in c.api.cloneableTypes)
    ensures t.IsReference() && t !in c.api.collectionTypes ==>
      && (s.NarrowBuilder? <==> c.settings.narrowCopy && t in c.api.instantiableTypes)
      && (s.PolymorphicBuilder? <==> !(c.settings.narrowCopy && t in c.api.instantiableTypes) && HasBuilder(c, t))
      && (s.CloneValue? <==> !(c.settings.narrowCopy && t in c.api.instantiableTypes) && !HasBuilder(c, t) && t in c.api.cloneableTypes)
  {
    if !t.IsReference() then AssignValue
    else if t in c.api.collectionTypes then
      var e := t.TypeParameters()[0];
      if c.settings.narrowCopy && e in c.api.instantiableTypes then NarrowBuilderLoop
      else if HasBuilder(c, e) then PolymorphicBuilderLoop
      else if e in c.api.cloneableTypes then CloneLoop
      else ShallowListCopy
    else
      if c.settings.narrowCopy && t in c.api.instantiableTypes then NarrowBuilder
      else if HasBuilder(c, t) then PolymorphicBuilder
      else if t in c.api.cloneableTypes then CloneValue
      else AssignReference
  }

  /** The strategy table of generatePartialCopyConstructor: the partial-copyable branch comes before cloning. */
  function PartialCopyStrategy(c: Config, t: TypeRef): (s: CopyStrategy)
    requires CopyResolvable(c, t)
    ensures s.AssignValue? <==> !t.IsReference()
    ensures IsLoop(s) <==> t.IsReference() && t in c.api.collectionTypes
    ensures IsLoop(s) ==> var e := t.TypeParameters()[0];
      && (s.NarrowBuilderLoop? <==> c.settings.narrowCopy && e in c.api.instantiableTypes)
      && (s.PolymorphicBuilderLoop? <==> !(c.settings.narrowCopy && e in c.api.instantiableTypes) && HasBuilder(c, e))
      && (s.PartialCopyLoop? <==>
            !(c.settings.narrowCopy && e in c.api.instantiableTypes) && !HasBuilder(c, e) && e in c.api.partialCopyableTypes)
      && (s.CloneLoop? <==>
            !(c.settings.narrowCopy && e in c.api.instantiableTypes) && !HasBuilder(c, e)
            && e !in c.api.partialCopyableTypes && e in c.api.cloneableTypes)
    ensures t.IsReference() && t !in c.api.collectionTypes ==>
      && (s.NarrowBuilder? <==> c.settings.narrowCopy && t in c.api.instantiableTypes)
      && (s.PolymorphicBuilder? <==> !(c.settings.narrowCopy && t in c.api.instantiableTypes) && HasBuilder(c, t))
      && (s.PartialCopyValue? <==>
            !(c.settings.narrowCopy && t in c.api.instantiableTypes) && !HasBuilder(c, t) && t in c.api.partialCopyableTypes)
      && (s.CloneValue? <==>
            !(c.settings.narrowCopy && t in c.api.instantiableTypes) && !HasBuilder(c, t)
            && t !in c.api.partialCopyableTypes && t in c.api.cloneableTypes)
  {
    if !t.IsReference() then AssignValue
    else if t in c.api.collectionTypes then
      var e := t.TypeParameters()[0];
      if c.settings.narrowCopy && e in c.api.instantiableTypes then NarrowBuilderLoop
      else if HasBuilder(c, e) then PolymorphicBuilderLoop
      else if e in c.api.partialCopyableTypes then PartialCopyLoop
      else if e in c.api.cloneableTypes then CloneLoop
      else ShallowListCopy
    else
      if c.settings.narrowCopy && t in c.api.instantiableTypes then NarrowBuilder
      else if HasBuilder(c, t) then PolymorphicBuilder
      else if t in c.api.partialCopyableTypes then PartialCopyValue
      else if t in c.api.cloneableTypes then CloneValue
      else AssignReference
  }

  /**
    loop: null when the source is null, otherwise a fresh list filled by a for-each
    over the source whose body the caller supplies.
   */
  function Loop(source: Expr, sourceElem: TypeRef, target: Expr, targetElem: TypeTag, body: seq<Stmt>): Stmt {
    If(IsNull(source),
      [Assign(target, Null)],
      [Assign(target, New(ArrayListOf(targetElem), [])), ForEach(Plain(sourceElem), ITEM_VAR, source, body)])
  }

  /**
    The statement that copies one field; `partial` selects the partial copy
    constructor, which passes the field's tree node and the include parameter to
    the builder and partial-copy branches.
   */
  function CopyStmt(c: Config, fv: FieldVar, partial: bool): Stmt
    requires CopyResolvable(c, fv.fieldType)
  {
    var t := fv.fieldType;
    var nf := ThisField(fv.name);
    var src := FieldOf(Var(OTHER_PARAM), fv.name);
    var item := Var(ITEM_VAR);
    var tree := if partial then [TreeVar(fv.name), UseParam] else [];
    var s := if partial then PartialCopyStrategy(c, t) else FullCopyStrategy(c, t);
    match s
    case AssignValue => Assign(nf, src)
    case NarrowBuilderLoop =>
      var e := t.TypeParameters()[0];
      var child := ChildBuilder(Builder(c, e).value.builderClass.name);
      Loop(src, e, nf, child, [Eval(Call(nf, "add", [NullSafe(item, New(child, [This, item, BoolLit(true)] + tree))]))])
    case PolymorphicBuilderLoop =>
      var e := t.TypeParameters()[0];
      var child := ChildBuilder(Builder(c, e).value.builderClass.name);
      // the full copy guards on the source field, the partial copy on the element
      var guard := if partial then item else src;
      Loop(src, e, nf, child, [Eval(Call(nf, "add", [NullSafe(guard, TypedCall(item, c.settings.newCopyBuilderMethodName, SelfBuilder, tree))]))])
    case PartialCopyLoop =>
      var e := t.TypeParameters()[0];
      Loop(src, e, nf, Plain(e), [Eval(Call(nf, "add", [NullSafe(item, CastOnDemand(e, Call(item, c.api.copyMethodName, tree)))]))])
    case CloneLoop =>
      var e := t.TypeParameters()[0];
      CatchCloneNotSupported(e, [Loop(src, e, nf, Plain(e), [Eval(Call(nf, "add", [NullSafe(item, CastOnDemand(e, Call(item, c.api.cloneMethodName, [])))]))])])
    case ShallowListCopy =>
      var e := t.TypeParameters()[0];
      Assign(nf, NullSafe(src, New(ArrayListOf(Plain(e)), [src])))
    case NarrowBuilder =>
      var child := ChildBuilder(Builder(c, t).value.builderClass.name);
      Assign(nf, NullSafe(src, New(child, [This, src, BoolLit(true)] + tree)))
    case PolymorphicBuilder =>
      Assign(nf, NullSafe(src, TypedCall(src, c.settings.newCopyBuilderMethodName, SelfBuilder, tree)))
    case PartialCopyValue =>
      Assign(nf, NullSafe(src, CastOnDemand(t, Call(src, c.api.copyMethodName, tree))))
    case CloneValue =>
      CatchCloneNotSupported(t, [Assign(nf, NullSafe(src, CastOnDemand(t, Call(src, c.api.cloneMethodName, []))))])
    case AssignReference => Assign(nf, src)
  }

  /** The fields the full copy handles: every declared property backed by a field, in order. */
  function CopiedFields(fs: seq<PropertyOutline>): (r: seq<FieldVar>)
    ensures forall fv :: fv in r ==> exists p :: p in fs && p.fieldVar == Some(fv)
    decreases |fs|
  {
    if fs == [] then []
    else
      var last := fs[|fs| - 1];
      CopiedFields(fs[..|fs| - 1]) + (if last.fieldVar.Some? then [last.fieldVar.value] else [])
  }

  /** The fields the partial copy handles: those backed by a field that is neither final nor static. */
  function PartiallyCopiedFields(fs: seq<PropertyOutline>): (r: seq<FieldVar>)
    ensures forall fv :: fv in r ==> !fv.isFinal && !fv.isStatic && exists p :: p in fs && p.fieldVar == Some(fv)
    decreases |fs|
  {
    if fs == [] then []
    else
      var last := fs[|fs| - 1];
      PartiallyCopiedFields(fs[..|fs| - 1])
      + (if last.fieldVar.Some? && !last.fieldVar.value.isFinal && !last.fieldVar.value.isStatic then [last.fieldVar.value] else [])
  }

  predicate FieldsResolvable(c: Config, fs: seq<PropertyOutline>) {
    forall p :: p in fs && p.fieldVar.Some? ==> CopyResolvable(c, p.fieldVar.value.fieldType)
  }

  /** The statements the loop of generateCopyConstructor appends for one declared property. */
  function FullCopyOf(c: Config, p: PropertyOutline): seq<Stmt>
    requires p.fieldVar.Some? ==> CopyResolvable(c, p.fieldVar.value.fieldType)
  {
    if p.fieldVar.Some? then [CopyStmt(c, p.fieldVar.value, false)] else []
  }

  /** The statements the loop of generatePartialCopyConstructor appends for one declared property. */
  function PartialCopyOf(c: Config, p: PropertyOutline): seq<Stmt>
    requires p.fieldVar.Some? ==> CopyResolvable(c, p.fieldVar.value.fieldType)
  {
    match p.fieldVar
    case Some(fv) =>
      if !fv.isFinal && !fv.isStatic then
        [DeclTreeVar(fv.name), If(IncludeCondition(TreeVar(fv.name)), [CopyStmt(c, fv, true)], [])]
      else []
    case None => []
  }

  /** The per-field block of the full copy: one copy statement per copied field, in declaration order. */
  function FullCopyFieldStmts(c: Config, fs: seq<PropertyOutline>): (r: seq<Stmt>)
    requires FieldsResolvable(c, fs)
    ensures |r| == |CopiedFields(fs)|
    ensures forall i :: 0 <= i < |r| ==>
      CopyResolvable(c, CopiedFields(fs)[i].fieldType) && r[i] == CopyStmt(c, CopiedFields(fs)[i], false)
    decreases |fs|
  {
    if fs == [] then []
    else
      var init, last := fs[..|fs| - 1], fs[|fs| - 1];
      assert fs == init + [last];
      assert forall p :: p in init ==> p in fs;
      FullCopyFieldStmts(c, init) + FullCopyOf(c, last)
  }

  /**
    The per-field statements of the partial copy: for every partially copied field,
    its tree-node declaration, then its copy statement under that node's include condition.
   */
  function PartialCopyFieldStmts(c: Config, fs: seq<PropertyOutline>): (r: seq<Stmt>)
    requires FieldsResolvable(c, fs)
    ensures |r| == 2 * |PartiallyCopiedFields(fs)|
    ensures forall i :: 0 <= i < |PartiallyCopiedFields(fs)| ==>
      var fv := PartiallyCopiedFields(fs)[i];
      CopyResolvable(c, fv.fieldType)
      && r[2 * i] == DeclTreeVar(fv.name)
      && r[2 * i + 1] == If(IncludeCondition(TreeVar(fv.name)), [CopyStmt(c, fv, true)], [])
    decreases |fs|
  {
    if fs == [] then []
    else
      var init, last := fs[..|fs| - 1], fs[|fs| - 1];
      assert fs == init + [last];
      assert forall p :: p in init ==> p in fs;
      PartialCopyFieldStmts(c, init) + PartialCopyOf(c, last)
  }

  function CopyConstructorParams(c: Config): seq<Param> {
    [Param(ParentBuilderParam, PARENT_BUILDER_FIELD, false),
     Param(Plain(c.classOutline.implClass), OTHER_PARAM, false),
     Param(BooleanType, COPY_PARAM, false)]
  }

  /** The first statement of both copy constructors. */
  function Prologue(c: Config, partial: bool): Stmt {
    if c.IsRoot() then Assign(ThisField(PARENT_BUILDER_FIELD), Var(PARENT_BUILDER_FIELD))
    else SuperConstructor([Var(PARENT_BUILDER_FIELD), Var(OTHER_PARAM), Var(COPY_PARAM)] + (if partial then [TreeParam, UseParam] else []))
  }

  /** At the root, copying starts from no product ... */
  function ProductWhenCopying(c: Config): seq<Stmt> {
    if c.IsRoot() then [Assign(ThisField(PRODUCT_FIELD), Null)] else []
  }

  /** ... and not copying keeps the given instance as the product. */
  function ProductWhenNotCopying(c: Config): seq<Stmt> {
    if c.IsRoot() then [Assign(ThisField(PRODUCT_FIELD), Var(OTHER_PARAM))] else []
  }

  function ConstructorVisibility(c: Config): Visibility {
    if c.builderClass.isAbstract then Protected else Public
  }

  /** generateCopyConstructor. */
  function CopyConstructor(c: Config): ConstructorSpec
    requires FieldsResolvable(c, c.classOutline.declaredFields)
  {
    ConstructorSpec(ConstructorVisibility(c), CopyConstructorParams(c),
      [Prologue(c, false),
       If(Var(COPY_PARAM),
         ProductWhenCopying(c) + [Block(FullCopyFieldStmts(c, c.classOutline.declaredFields))],
         ProductWhenNotCopying(c))])
  }

  /** generatePartialCopyConstructor. */
  function PartialCopyConstructor(c: Config): ConstructorSpec
    requires FieldsResolvable(c, c.classOutline.declaredFields)
  {
    ConstructorSpec(ConstructorVisibility(c), CopyConstructorParams(c) + [TreeParams],
      [Prologue(c, true),
       If(Var(COPY_PARAM),
         ProductWhenCopying(c) + PartialCopyFieldStmts(c, c.classOutline.declaredFields),
         ProductWhenNotCopying(c))])
  }
}
