/**
  Properties of the members buildProperties emits for a class's declared
  properties: declaration order, the getter filter, coverage, naming, and what
  interface mode (a builder that is an interface) leaves out.
 */
module MemberProperties {
  import opened Wrappers
  import opened CodeModel
  import opened Lookup
  import opened Members

  lemma JoinAssoc(a: Emission, b: Emission, d: Emission)
    ensures Join(Join(a, b), d) == Join(a, Join(b, d))
  {
    assert (a.methods + b.methods) + d.methods == a.methods + (b.methods + d.methods);
    assert (a.fields + b.fields) + d.fields == a.fields + (b.fields + d.fields);
    assert (a.init + b.init) + d.init == a.init + (b.init + d.init);
  }

  lemma JoinNothing(a: Emission)
    ensures Join(a, NOTHING) == a
  {
    assert a.methods + [] == a.methods;
    assert a.fields + [] == a.fields;
    assert a.init + [] == a.init;
  }

  /** The emission for a concatenation of property lists is the concatenation of the emissions: declaration order is kept. */
  lemma {:induction false} MembersOfAppend(c: Config, a: seq<PropertyOutline>, b: seq<PropertyOutline>)
    requires forall p :: p in a ==> Dispatchable(p)
    requires forall p :: p in b ==> Dispatchable(p)
    ensures forall p :: p in a + b ==> Dispatchable(p)
    ensures MembersOf(c, a + b) == Join(MembersOf(c, a), MembersOf(c, b))
    decreases |b|
  {
    if b == [] {
      assert a + b == a;
      JoinNothing(MembersOf(c, a));
    } else {
      var b' := b[..|b| - 1];
      assert (a + b)[..|a + b| - 1] == a + b';
      assert (a + b)[|a + b| - 1] == b[|b| - 1];
      MembersOfAppend(c, a, b');
      JoinAssoc(MembersOf(c, a), MembersOf(c, b'), PropertyEmission(c, b[|b| - 1]));
    }
  }

  /** The properties that have a getter, in declaration order. */
  function Getters(fs: seq<PropertyOutline>): (r: seq<PropertyOutline>)
    ensures forall p :: p in r <==> p in fs && p.hasGetter
    decreases |fs|
  {
    if fs == [] then []
    else Getters(fs[..|fs| - 1]) + (if fs[|fs| - 1].hasGetter then [fs[|fs| - 1]] else [])
  }

  /** Properties without a getter contribute nothing: the emission is that of the getter-having properties alone. */
  lemma {:induction false} OnlyGettersContribute(c: Config, fs: seq<PropertyOutline>)
    requires forall p :: p in fs ==> Dispatchable(p)
    ensures forall p :: p in Getters(fs) ==> Dispatchable(p)
    ensures MembersOf(c, fs) == MembersOf(c, Getters(fs))
    decreases |fs|
  {
    if fs != [] {
      var init := fs[..|fs| - 1];
      var last := fs[|fs| - 1];
      assert forall p :: p in init ==> p in fs;
      assert last in fs;
      OnlyGettersContribute(c, init);
      assert MembersOf(c, fs) == Join(MembersOf(c, Getters(init)), PropertyEmission(c, last));
      if last.hasGetter {
        var g := Getters(init) + [last];
        assert Getters(fs) == g;
        assert g[..|g| - 1] == Getters(init);
        assert MembersOf(c, g) == Join(MembersOf(c, Getters(init)), PropertyEmission(c, last));
      } else {
        JoinNothing(MembersOf(c, Getters(init)));
        assert Getters(fs) == Getters(init) + [];
        assert Getters(init) + [] == Getters(init);
      }
    }
  }

  /** Every method emitted for one property is named with<Name> or add<Name>. */
  lemma MemberNames(c: Config, p: PropertyOutline)
    requires ElementTypeKnown(p)
    ensures forall m :: m in MemberEmission(c, p).methods ==> m.name == WithName(p) || m.name == AddName(p)
    ensures exists m :: m in MemberEmission(c, p).methods && m.name == WithName(p) && m.mods == PUBLIC && !m.isOverride
  {
    var e := MemberEmission(c, p);
    match ShapeOf(p)
    case ArrayShape(elem) =>
      assert e.methods[0] in e.methods;
    case CollectionShape(elem) =>
      assert e.methods[1] in e.methods;
      assert forall m :: m in e.methods ==> exists i :: 0 <= i < |e.methods| && e.methods[i] == m;
    case SingularShape =>
      assert e.methods[0] in e.methods;
  }

  /**
    The member methods are exactly for the getter-having properties: every one of
    those has a public with<Name>, and every emitted method belongs to one of them.
   */
  lemma {:induction false} MembersCoverGetters(c: Config, fs: seq<PropertyOutline>)
    requires forall p :: p in fs ==> Dispatchable(p)
    ensures forall p :: p in fs && p.hasGetter ==>
      exists m :: m in MembersOf(c, fs).methods && m.name == WithName(p) && m.mods == PUBLIC && !m.isOverride
    ensures forall m :: m in MembersOf(c, fs).methods ==>
      exists p {:trigger p in fs} :: p in fs && p.hasGetter && (m.name == WithName(p) || m.name == AddName(p))
    decreases |fs|
  {
    if fs != [] {
      var init := fs[..|fs| - 1];
      var last := fs[|fs| - 1];
      assert forall p :: p in init ==> p in fs;
      assert fs == init + [last];
      assert last in fs;
      MembersCoverGetters(c, init);
      if last.hasGetter {
        MemberNames(c, last);
      }
      var before := MembersOf(c, init).methods;
      var added := PropertyEmission(c, last).methods;
      assert MembersOf(c, fs).methods == before + added;
      forall m: MethodSpec | m in before + added
        ensures exists p {:trigger p in fs} :: p in fs && p.hasGetter && (m.name == WithName(p) || m.name == AddName(p))
      {
        if m in before {
          var p {:trigger p in init} :| p in init && p.hasGetter && (m.name == WithName(p) || m.name == AddName(p));
          assert p in fs;
        } else {
          assert m in MemberEmission(c, last).methods && last.hasGetter;
        }
      }
    }
  }

  /** In interface mode a property contributes method signatures only: no bodies, no fields, no init statements. */
  lemma InterfaceModeMember(c: Config, p: PropertyOutline)
    requires ElementTypeKnown(p) && !c.Implement()
    ensures forall m :: m in MemberEmission(c, p).methods ==> m.body == NoBody
    ensures MemberEmission(c, p).fields == [] && MemberEmission(c, p).init == []
  {
  }

  lemma {:induction false} InterfaceModeMembers(c: Config, fs: seq<PropertyOutline>)
    requires forall p :: p in fs ==> Dispatchable(p)
    requires !c.Implement()
    ensures forall m :: m in MembersOf(c, fs).methods ==> m.body == NoBody
    ensures MembersOf(c, fs).fields == [] && MembersOf(c, fs).init == []
    decreases |fs|
  {
    if fs != [] {
      var init := fs[..|fs| - 1];
      assert forall p :: p in init ==> p in fs;
      assert fs[|fs| - 1] in fs;
      InterfaceModeMembers(c, init);
      if fs[|fs| - 1].hasGetter {
        InterfaceModeMember(c, fs[|fs| - 1]);
      }
    }
  }

  /** No init statement of a property returns: the hand-off to the product can only come after them. */
  lemma MemberInitHasNoReturn(c: Config, p: PropertyOutline)
    requires ElementTypeKnown(p)
    ensures forall s :: s in MemberEmission(c, p).init ==> !s.Return?
  {
  }

  lemma {:induction false} MembersInitHasNoReturn(c: Config, fs: seq<PropertyOutline>)
    requires forall p :: p in fs ==> Dispatchable(p)
    ensures forall s :: s in MembersOf(c, fs).init ==> !s.Return?
    decreases |fs|
  {
    if fs != [] {
      var init := fs[..|fs| - 1];
      assert forall p :: p in init ==> p in fs;
      assert fs[|fs| - 1] in fs;
      MembersInitHasNoReturn(c, init);
      if fs[|fs| - 1].hasGetter {
        MemberInitHasNoReturn(c, fs[|fs| - 1]);
      }
    }
  }
}
