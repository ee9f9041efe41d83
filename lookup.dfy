/**
  Builder lookup (getBuilderDeclaration) and the classification of a property
  into array, collection or singular shape (the dispatch of generateBuilderMember).
 */
module Lookup {
  import opened Wrappers
  import opened CodeModel

  /**
    getBuilderDeclaration: the builder of a type, looked up by full name in the
    builders of the current model, falling back to the resolver for builders known
    from outside the model.
   */
  function BuilderDeclaration(outlines: map<string, BuilderOutline>, api: Api, t: TypeRef): (r: Option<BuilderOutline>)
    ensures r.Some? <==> (t.FullName() in outlines || t in api.referencedBuilders)
    ensures t.FullName() in outlines ==> r == Some(outlines[t.FullName()])
    ensures t.FullName() !in outlines && t in api.referencedBuilders ==> r == Some(api.referencedBuilders[t])
  {
    if t.FullName() in outlines then Some(outlines[t.FullName()])
    else if t in api.referencedBuilders then Some(api.referencedBuilders[t])
    else None
  }

  function Builder(c: Config, t: TypeRef): Option<BuilderOutline> {
    BuilderDeclaration(c.outlines, c.api, t)
  }

  predicate HasBuilder(c: Config, t: TypeRef) {
    Builder(c, t).Some?
  }

  /** A builder exists and the class it builds is not abstract (the condition of the cast overrides). */
  predicate HasConcreteBuilder(c: Config, t: TypeRef) {
    Builder(c, t).Some? && !Builder(c, t).value.classOutline.isAbstract
  }

  /**
    What generateBuilderMember and generateBuilderMemberOverride demand of a property:
    a non-array collection has a type parameter 0 (its element type).
   */
  predicate ElementTypeKnown(p: PropertyOutline) {
    p.isCollection && !p.rawType.IsArray() ==> |p.rawType.TypeParameters()| > 0
  }

  /** Only properties with a getter are dispatched. */
  predicate Dispatchable(p: PropertyOutline) {
    p.hasGetter ==> ElementTypeKnown(p)
  }

  /** Dispatchable for every declared property of a class and of all its superclasses. */
  predicate ChainElementTypesKnown(s: ClassOutline)
    decreases s
  {
    (forall p :: p in s.declaredFields ==> Dispatchable(p))
    && (s.superClass.Some? ==> ChainElementTypesKnown(s.superClass.value))
  }

  datatype Shape =
    | ArrayShape(elem: TypeRef)
    | CollectionShape(elem: TypeRef)
    | SingularShape

  /** The dispatch of generateBuilderMember. */
  function ShapeOf(p: PropertyOutline): (s: Shape)
    requires ElementTypeKnown(p)
    ensures s.ArrayShape? <==> p.isCollection && p.rawType.IsArray()
    ensures s.ArrayShape? ==> s.elem == p.rawType.elem
    ensures s.CollectionShape? <==> p.isCollection && !p.rawType.IsArray()
    ensures s.CollectionShape? ==> s.elem == p.rawType.TypeParameters()[0]
    ensures s.SingularShape? <==> !p.isCollection
  {
    if p.isCollection then
      if p.rawType.IsArray() then ArrayShape(p.rawType.elem)
      else CollectionShape(p.rawType.TypeParameters()[0])
    else SingularShape
  }
}
