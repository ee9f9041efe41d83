/**
  Properties of the two copy constructors: how the partial strategy table differs
  from the full one, which copy statements the two share, how the tree is
  forwarded, which fields each copies, and how their prologues and product
  handling agree.
 */
module CopyProperties {
  import opened Wrappers
  import opened CodeModel
  import opened Lookup
  import opened Members
  import opened Copy

  /** The partial table picks something else than the full table exactly when it picks a partial-copy branch. */
  lemma PartialStrategyDiffers(c: Config, t: TypeRef)
    requires CopyResolvable(c, t)
    ensures PartialCopyStrategy(c, t) != FullCopyStrategy(c, t) <==>
      PartialCopyStrategy(c, t).PartialCopyLoop? || PartialCopyStrategy(c, t).PartialCopyValue?
    ensures PartialCopyStrategy(c, t).PartialCopyLoop? ==>
      FullCopyStrategy(c, t).CloneLoop? || FullCopyStrategy(c, t).ShallowListCopy?
    ensures PartialCopyStrategy(c, t).PartialCopyValue? ==>
      FullCopyStrategy(c, t).CloneValue? || FullCopyStrategy(c, t).AssignReference?
  {
  }

  /** A type that is not partial-copyable (nor, for a collection, its element type) gets the same strategy from both tables. */
  lemma NotPartialCopyableSameStrategy(c: Config, t: TypeRef)
    requires CopyResolvable(c, t)
    requires t.IsReference() && t in c.api.collectionTypes ==> t.TypeParameters()[0] !in c.api.partialCopyableTypes
    requires t.IsReference() && t !in c.api.collectionTypes ==> t !in c.api.partialCopyableTypes
    ensures PartialCopyStrategy(c, t) == FullCopyStrategy(c, t)
  {
  }

  /** Strategies that take no property tree: a clone, a shallow list copy or an assignment is the same statement in both constructors. */
  lemma TreeFreeCopiesAgree(c: Config, fv: FieldVar)
    requires CopyResolvable(c, fv.fieldType)
    requires PartialCopyStrategy(c, fv.fieldType) == FullCopyStrategy(c, fv.fieldType)
    requires var s := FullCopyStrategy(c, fv.fieldType);
      s.AssignValue? || s.CloneLoop? || s.ShallowListCopy? || s.CloneValue? || s.AssignReference?
    ensures CopyStmt(c, fv, true) == CopyStmt(c, fv, false)
  {
  }

  /** The narrow child-builder copy of a singular field passes the field's tree node and the include parameter as two extra arguments. */
  lemma NarrowBuilderForwardsTree(c: Config, fv: FieldVar)
    requires CopyResolvable(c, fv.fieldType)
    requires FullCopyStrategy(c, fv.fieldType).NarrowBuilder?
    ensures var full := CopyStmt(c, fv, false);
      && full.Assign? && full.rhs.Cond? && full.rhs.test == IsNull(FieldOf(Var(OTHER_PARAM), fv.name))
      && full.rhs.els.New?
      && CopyStmt(c, fv, true) == Assign(full.lhs, Cond(full.rhs.test, Null,
           New(full.rhs.els.ty, full.rhs.els.args + [TreeVar(fv.name), UseParam])))
  {
    var src := FieldOf(Var(OTHER_PARAM), fv.name);
    var args := [This, src, BoolLit(true)];
    assert args + [] == args;
    assert PartialCopyStrategy(c, fv.fieldType).NarrowBuilder?;
  }

  /** The polymorphic copy of a singular field passes the tree node and include parameter to newCopyBuilder. */
  lemma PolymorphicBuilderForwardsTree(c: Config, fv: FieldVar)
    requires CopyResolvable(c, fv.fieldType)
    requires FullCopyStrategy(c, fv.fieldType).PolymorphicBuilder?
    ensures var full := CopyStmt(c, fv, false);
      && full.Assign? && full.rhs.Cond? && full.rhs.els.TypedCall? && full.rhs.els.args == []
      && CopyStmt(c, fv, true) == Assign(full.lhs, Cond(full.rhs.test, Null,
           TypedCall(full.rhs.els.target, full.rhs.els.callee, full.rhs.els.typeArg, [TreeVar(fv.name), UseParam])))
  {
  }

  /** The null test inside the per-element body of a copy loop. */
  function LoopElementGuard(s: Stmt): Option<Expr> {
    if s.If? && |s.els| == 2 && s.els[1].ForEach? && |s.els[1].body| == 1 && s.els[1].body[0].Eval?
       && s.els[1].body[0].e.Call? && |s.els[1].body[0].e.args| == 1 && s.els[1].body[0].e.args[0].Cond?
    then Some(s.els[1].body[0].e.args[0].test)
    else None
  }

  /**
    The polymorphic collection loop: the full copy tests the source field for
    null inside the loop, where it is known not to be null, so a null element is
    dereferenced; the partial copy tests the element.
   */
  lemma PolymorphicLoopGuards(c: Config, fv: FieldVar)
    requires CopyResolvable(c, fv.fieldType)
    requires FullCopyStrategy(c, fv.fieldType).PolymorphicBuilderLoop?
    ensures CopyStmt(c, fv, false).If? && CopyStmt(c, fv, false).cond == IsNull(FieldOf(Var(OTHER_PARAM), fv.name))
    ensures LoopElementGuard(CopyStmt(c, fv, false)) == Some(IsNull(FieldOf(Var(OTHER_PARAM), fv.name)))
    ensures LoopElementGuard(CopyStmt(c, fv, true)) == Some(IsNull(Var(ITEM_VAR)))
  {
  }

  /** The full copy copies every declared property that is backed by a field. */
  lemma {:induction false} FullCopyCoversFields(fs: seq<PropertyOutline>)
    ensures forall p :: p in fs && p.fieldVar.Some? ==> p.fieldVar.value in CopiedFields(fs)
    decreases |fs|
  {
    if fs != [] {
      FullCopyCoversFields(fs[..|fs| - 1]);
      assert fs == fs[..|fs| - 1] + [fs[|fs| - 1]];
    }
  }

  /** The partial copy copies exactly the field-backed properties whose field is neither final nor static. */
  lemma {:induction false} PartialCopyCoversFields(fs: seq<PropertyOutline>)
    ensures forall p :: p in fs && p.fieldVar.Some? && !p.fieldVar.value.isFinal && !p.fieldVar.value.isStatic ==>
      p.fieldVar.value in PartiallyCopiedFields(fs)
    decreases |fs|
  {
    if fs != [] {
      PartialCopyCoversFields(fs[..|fs| - 1]);
      assert fs == fs[..|fs| - 1] + [fs[|fs| - 1]];
    }
  }

  /**
    The two constructors agree except for the tree: the partial one takes the
    tree parameters as well, forwards them to the superclass constructor, and
    handles the product the same way.
   */
  lemma CopyConstructorsAgree(c: Config)
    requires FieldsResolvable(c, c.classOutline.declaredFields)
    ensures var full := CopyConstructor(c); var part := PartialCopyConstructor(c);
      && part.visibility == full.visibility
      && part.params == full.params + [TreeParams]
      && |full.body| == |part.body| == 2
      && (c.IsRoot() ==> part.body[0] == full.body[0])
      && (!c.IsRoot() ==>
            full.body[0].SuperConstructor? && part.body[0] == SuperConstructor(full.body[0].args + [TreeParam, UseParam]))
      && full.body[1].If? && part.body[1].If?
      && part.body[1].cond == full.body[1].cond == Var(COPY_PARAM)
      && part.body[1].els == full.body[1].els
      && full.body[1].thn[..|ProductWhenCopying(c)|] == part.body[1].thn[..|ProductWhenCopying(c)|] == ProductWhenCopying(c)
  {
  }

  /** At the root copying starts from a null product and not copying keeps the given instance; below the root neither constructor touches the product. */
  lemma RootOwnsProduct(c: Config)
    requires FieldsResolvable(c, c.classOutline.declaredFields)
    ensures c.IsRoot() ==> CopyConstructor(c).body[1].thn[0] == Assign(FieldOf(This, PRODUCT_FIELD), Null)
    ensures c.IsRoot() ==> CopyConstructor(c).body[1].els == [Assign(FieldOf(This, PRODUCT_FIELD), Var(OTHER_PARAM))]
    ensures !c.IsRoot() ==> CopyConstructor(c).body[1].els == [] && |CopyConstructor(c).body[1].thn| == 1
  {
  }
}
