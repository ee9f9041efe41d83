/**
  generateBuilderMemberOverride(s): the methods a derived builder re-declares for
  every getter-having property of every ancestor, so that chained calls keep
  returning the derived builder type.
 */
module Overrides {
  import opened Wrappers
  import opened CodeModel
  import opened Lookup
  import opened Members

  /** An override that calls the same-named inherited method and returns this. */
  function SuperDelegate(c: Config, name: string, param: Param, argName: string): MethodSpec {
    MethodSpec(PUBLIC, SelfBuilder, name, [param],
      BodyIf(c.Implement(), [Eval(Call(Super, name, [Var(argName)])), Return(This)]), c.Implement())
  }

  /** A no-argument override that returns the inherited child builder, cast to this builder's wildcard. */
  function CastOverride(c: Config, name: string, b: BuilderOutline, annotated: bool): MethodSpec {
    var ty := ChildBuilderWildcard(b.builderClass.name);
    MethodSpec(PUBLIC, ty, name, [], BodyIf(c.Implement(), [Return(Cast(ty, Call(Super, name, [])))]), annotated)
  }

  /**
    The element type the source passes to the varargs with-override of an array
    property: type parameter 0 of the array type, which an array type does not have.
   */
  function ArrayOverrideVarargsTypeAsWritten(t: TypeRef): Option<TypeRef> {
    if |t.TypeParameters()| > 0 then Some(t.TypeParameters()[0]) else None
  }

  /** For every array type, the lookup fails: the source throws while emitting the override. */
  lemma ArrayOverrideAsWrittenFails(elem: TypeRef)
    ensures ArrayOverrideVarargsTypeAsWritten(ArrayOf(elem)) == None
  {
  }

  /**
    The Iterable with-override the source also emits for an array property,
    annotated @Override when implementing. An array property's builder declares
    only the varargs with<Name>, so this method overrides nothing.
   */
  function ArrayIterableOverrideAsWritten(c: Config, p: PropertyOutline): (m: MethodSpec)
    requires p.isCollection && p.rawType.IsArray()
    ensures m.name == WithName(p) && m.params == [Param(IterableOf(p.rawType.elem, false), p.fieldName, false)]
    ensures m.isOverride == c.Implement()
  {
    SuperDelegate(c, WithName(p), Param(IterableOf(p.rawType.elem, false), p.fieldName, false), p.fieldName)
  }

  /** The corrected element type of the varargs with-override of an array property. */
  function ArrayOverrideVarargsType(t: TypeRef): TypeRef
    requires t.IsArray()
  {
    t.elem
  }

  /** generateBuilderMemberOverride. */
  function OverrideMembers(c: Config, p: PropertyOutline): (ms: seq<MethodSpec>)
    requires ElementTypeKnown(p)
    ensures p.isCollection && !p.rawType.IsArray() ==>
      |ms| == if HasConcreteBuilder(c, p.rawType.TypeParameters()[0]) then 5 else 4
    ensures p.isCollection && p.rawType.IsArray() ==>
      ms == [SuperDelegate(c, WithName(p), Param(Plain(p.rawType.elem), p.fieldName, true), p.fieldName)]
    ensures !p.isCollection ==> |ms| == if HasConcreteBuilder(c, p.rawType) then 2 else 1
    ensures forall m :: m in ms ==> m.name == WithName(p) || m.name == AddName(p)
    ensures forall m :: m in ms ==> (m.body.Code? <==> c.Implement())
    ensures forall m :: m in ms && m.params != [] ==>
      m.resultType == SelfBuilder && m.isOverride == c.Implement()
      && (c.Implement() ==> m.body == Code([Eval(Call(Super, m.name, [Var(p.fieldName)])), Return(This)]))
    ensures forall m :: m in ms && m.params == [] ==>
      m.resultType.ChildBuilderWildcard?
      && (c.Implement() ==> m.body == Code([Return(Cast(m.resultType, Call(Super, m.name, [])))]))
  {
    var f := p.fieldName;
    var t := p.rawType;
    if p.isCollection then
      if !t.IsArray() then
        var elem := t.TypeParameters()[0];
        var iter := IterableOf(elem, true);
        var four := [
          SuperDelegate(c, AddName(p), Param(iter, f, false), f),
          SuperDelegate(c, AddName(p), Param(Plain(elem), f, true), f),
          SuperDelegate(c, WithName(p), Param(iter, f, false), f),
          SuperDelegate(c, WithName(p), Param(Plain(elem), f, true), f)];
        if HasConcreteBuilder(c, elem) then four + [CastOverride(c, AddName(p), Builder(c, elem).value, c.Implement())]
        else four
      else
        // Corrected: only the varargs override, the one method the array property's builder declares.
        [SuperDelegate(c, WithName(p), Param(Plain(ArrayOverrideVarargsType(t)), f, true), f)]
    else
      var with := SuperDelegate(c, WithName(p), Param(Plain(t), f, false), f);
      if HasConcreteBuilder(c, t) then [with, CastOverride(c, WithName(p), Builder(c, t).value, false)]
      else [with]
  }

  /** What one inherited property contributes: nothing unless it has a getter. */
  function PropertyOverrides(c: Config, p: PropertyOutline): seq<MethodSpec>
    requires Dispatchable(p)
  {
    if p.hasGetter then OverrideMembers(c, p) else []
  }

  /** The loop of generateBuilderMemberOverrides over one ancestor's declared properties. */
  function OverridesOfFields(c: Config, fs: seq<PropertyOutline>): seq<MethodSpec>
    requires forall p :: p in fs ==> Dispatchable(p)
    decreases |fs|
  {
    if fs == [] then []
    else OverridesOfFields(c, fs[..|fs| - 1]) + PropertyOverrides(c, fs[|fs| - 1])
  }

  /** generateBuilderMemberOverrides: an ancestor's properties, then recursively its superclass. */
  function OverridesOf(c: Config, s: ClassOutline): seq<MethodSpec>
    requires ChainElementTypesKnown(s)
    decreases s
  {
    OverridesOfFields(c, s.declaredFields)
    + match s.superClass
      case None => []
      case Some(sup) => OverridesOf(c, sup)
  }

  /** The chain of classes from s upward. */
  function Ancestors(s: ClassOutline): (r: seq<ClassOutline>)
    ensures |r| >= 1 && r[0] == s
    decreases s
  {
    [s] + match s.superClass
          case None => []
          case Some(sup) => Ancestors(sup)
  }

  /** Along the chain each entry's superclass is the next one, and the last entry has none. */
  lemma {:induction false} AncestorsFollowSuperclasses(s: ClassOutline)
    ensures var r := Ancestors(s);
      && (forall i :: 0 <= i < |r| - 1 ==> r[i].superClass == Some(r[i + 1]))
      && r[|r| - 1].superClass.None?
    decreases s
  {
    match s.superClass
    case None =>
    case Some(sup) =>
      AncestorsFollowSuperclasses(sup);
      var r := Ancestors(s);
      assert r == [s] + Ancestors(sup);
      forall i | 0 <= i < |r| - 1
        ensures r[i].superClass == Some(r[i + 1])
      {
        if i > 0 {
          assert r[i] == Ancestors(sup)[i - 1];
        }
      }
  }
}
