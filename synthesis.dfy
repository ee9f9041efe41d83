/**
  The whole builder the generator produces for one class: what its constructor
  emits, what buildProperties then adds, and the composition of the two.
 */
module Synthesis {
  import opened Wrappers
  import opened CodeModel
  import opened Lookup
  import opened Members
  import opened Overrides
  import opened Copy
  import opened Factories

  /** The configuration a BuilderGenerator is constructed with. */
  function ConfigOf(api: Api, outlines: map<string, BuilderOutline>, outline: BuilderOutline, settings: Settings): Config {
    Config(api, outlines, settings, outline.classOutline, outline.builderClass)
  }

  /** What the generator demands of its inputs. */
  predicate Generatable(c: Config) {
    && (c.Implement() ==> FieldsResolvable(c, c.classOutline.declaredFields))
    && (forall p :: p in c.classOutline.declaredFields ==> Dispatchable(p))
    && (c.classOutline.superClass.Some? ==>
          HasBuilder(c, c.classOutline.superClass.value.implClass)
          && ChainElementTypesKnown(c.classOutline.superClass.value))
  }

  /** The copy constructors, emitted in implementation mode only. */
  function Constructors(c: Config): seq<ConstructorSpec>
    requires c.Implement() ==> FieldsResolvable(c, c.classOutline.declaredFields)
  {
    if c.Implement() then
      [CopyConstructor(c)] + (if c.settings.partialCopy then [PartialCopyConstructor(c)] else [])
    else []
  }

  /** The state the BuilderGenerator constructor leaves behind. */
  function Constructed(c: Config): BuilderSpec
    requires c.Implement() ==> FieldsResolvable(c, c.classOutline.declaredFields)
  {
    BuilderSpec(
      None,
      if c.IsRoot() && c.Implement() then RootFields() else [],
      Constructors(c),
      if c.IsRoot() then [EndMethod(c)] else [],
      [],
      [])
  }

  function SuperBuilderName(c: Config): string
    requires c.classOutline.superClass.Some? && HasBuilder(c, c.classOutline.superClass.value.implClass)
  {
    Builder(c, c.classOutline.superClass.value.implClass).value.builderClass.name
  }

  /** What buildProperties appends to a builder state s. */
  function BuildPropertiesSpec(s: BuilderSpec, c: Config): BuilderSpec
    requires Generatable(c)
  {
    var members := MembersOf(c, c.classOutline.declaredFields);
    BuilderSpec(
      if c.IsRoot() then s.extendsClause else Some(SuperBuilderName(c)),
      s.fields + members.fields,
      s.constructors,
      s.methods
        + (if c.Implement() then [InitMethod()] else [])
        + members.methods
        + (if c.IsRoot() then [] else OverridesOf(c, c.classOutline.superClass.value))
        + [BuildMethod(c)],
      s.init + members.init + InitReturn(c),
      s.productMethods
        + (if c.settings.newCopyBuilderMethod then CopyBuilderMethods(c) else [])
        + (if c.Implement() && !c.classOutline.isAbstract then FactoryMethods(c) else []))
  }

  /** The builder of one class: construction followed by buildProperties. */
  function BuilderSpecOf(c: Config): BuilderSpec
    requires Generatable(c)
  {
    BuildPropertiesSpec(Constructed(c), c)
  }
}
