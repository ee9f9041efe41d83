# Builder synthesis of the fluent-builder plugin, in Dafny

This project models `BuilderGenerator`, the part of the JAXB2 rich-contract
plugin that writes a fluent builder class for each class generated from a
schema. Given a class outline, it decides what the builder and the built
class receive:

- the storage fields;
- the `end`, `with<Name>`, `add<Name>`, `init` and `build` methods;
- the plain copy constructor and the partial copy constructor;
- the overrides that re-type the inherited `with`/`add` methods of every
  ancestor's builder;
- the static factory methods of the built class (`builder`, `copyOf`,
  `copyExcept`, `copyOnly`) and its `newCopyBuilder` methods.

The code-model library (JCodeModel) becomes a small abstract syntax of
emitted declarations (`CodeModel`): type references, statements,
expressions, method, field and constructor specifications, and a
`BuilderSpec` record describing a whole builder. The model has three layers:

1. **Pure decision functions.** `Lookup`, `Members`, `Overrides`, `Copy`,
   `Factories` and `Synthesis` say what each generator step emits.
   `Synthesis.BuilderSpecOf` is the complete builder for one class.
2. **An imperative generator.** `Generator.BuilderGenerator` is a class whose
   fields are the builder under construction. Its constructor and its
   `generate*` methods append to those fields step by step, in the source's
   order and with the source's loops. Each one is proved to append exactly
   what the matching decision function says. `Generator.GenerateBuilder`,
   the constructor followed by `BuildProperties`, builds exactly
   `BuilderSpecOf`.
3. **Properties.** `MemberProperties`, `OverrideProperties`,
   `CopyProperties` and `BuilderProperties` prove what the generator promises
   of the builder it emits. `Runtime` models what the emitted code does when it runs.

### Where the model follows the code rather than the intent

- **Order in `init`.** `init` assigns the builder's own fields to the product
  first and hands the product to `super.init` last
  (BuilderGenerator.java:615-629). `BuilderProperties.InitHandOff` states this.
- **`build` never caches.** `_product` is `final` (line 81), and the copy
  constructor sets it to `null` when copying (lines 445-451). `build` creates
  a new object whenever `_product` is null and never stores it
  (lines 364-376), so calling `build()` twice on such a builder yields two
  objects (`Runtime.BuildIsNotCached`).
- **A null element becomes a fresh object.** On a collection whose element
  type has a builder, `with`/`add` wraps a null element in a child builder
  with no product. `init` then builds that child builder, so the null turns
  into a fresh object when the element class is concrete
  (`Runtime.WithThenInitRoundTrip`).
- **The product shares the builder's list.** For a plain collection, `init`
  stores the builder's own list in the product (line 203). Later `add` calls
  on the builder show up in the product already built
  (`Runtime.AddAfterInit`). Handing the product's list back to the builder's
  `with<Name>` empties it, because `clear()` runs on the very list being added
  (`Runtime.PlainCollectionField.With`, `Runtime.WithOwnProductList`).
- **The two copy loops guard differently on a polymorphic builder.** The full
  copy loop guards each element copy on the source field, `_other.f`
  (line 473). The partial copy loop guards it on the element, `_item`
  (line 559). The full copy therefore dereferences a null element
  (`CopyProperties.PolymorphicLoopGuards`,
  `Runtime.PolymorphicLoopsOnNullElement`). The model keeps both forms as
  written.

## Model

Source paths are relative to the repository root.

| member | source | states |
|---|---|---|
| Lookup.BuilderDeclaration | src/main/java/com/kscs/util/plugins/xjc/BuilderGenerator.java:657-664 | a builder is found iff the type's full name is among this run's builder outlines or the type has a referenced builder; a builder of this run takes precedence over a referenced one |
| Lookup.ShapeOf | src/main/java/com/kscs/util/plugins/xjc/BuilderGenerator.java:102-118 | a property is dispatched as an array exactly when it is a collection whose raw type is an array (element = the array's element type); as a collection exactly when it is a non-array collection (element = type parameter 0); as a singular property exactly when it is not a collection |
| Members.SingularMembers | src/main/java/com/kscs/util/plugins/xjc/BuilderGenerator.java:120-156 | one `with<Name>(value)` returning the builder, plus a second `with<Name>()` returning a child builder exactly when the field type has a builder; all public non-overrides; in implementation mode one private field and one init assignment to the product's field, and method bodies exactly in implementation mode; for a plain type `with` stores the value and init copies the field (131-133); for a buildable type `with(v)` stores `nullSafe(v, new Child(this, v, false))`, `with()` stores and returns `new Child(this, null, false)`, and init assigns `nullSafe(this.f, this.f.build())` (148-152) |
| Members.CollectionMembers | src/main/java/com/kscs/util/plugins/xjc/BuilderGenerator.java:158-243 | add/with over an Iterable of the wildcarded element type, then add/with varargs of the element type, plus `add<Name>()` returning a child builder exactly when the element type has a builder; in implementation mode the varargs forms delegate to the Iterable forms through asList, there is one storage field, and the immutable plugin's init hook follows the init assignment exactly when that plugin is active; `with<Name>(Iterable)` clears an existing list and returns `add<Name>(Iterable)` (199-201, 228-230); for a plain element `add<Name>(Iterable)` allocates an `ArrayList` lazily and calls `addAll`, and init stores the builder's own list in the product (193-203); for a buildable element `add<Name>(Iterable)` adds `new Child(this, item, false)` per element (221-226), `add<Name>()` adds and returns `new Child(this, null, false)` (216-220), and init, when the list is not null, fills a new `ArrayList` of the list's size with each child builder's `build()` and stores it in the product (232-236) |
| Members.ArrayMembers | src/main/java/com/kscs/util/plugins/xjc/BuilderGenerator.java:666-680 | exactly one varargs `with<Name>` of the element type; in implementation mode it assigns the field and returns this, a private field initialised to null is added, and init copies the field to the product; otherwise no body, no field, no init |
| Overrides.OverrideMembers | src/main/java/com/kscs/util/plugins/xjc/BuilderGenerator.java:246-342 | per inherited property: four overrides for a collection, plus a cast `add<Name>()` when the element has a builder; for an array, only the varargs `with<Name>` typed by the array's element type (the corrected form of lines 301-316, see "## Findings"); one for a singular property, plus a cast `with<Name>()` exactly when the field type has a concrete builder; every override is named with/add of the property, has a body exactly in implementation mode, and each one with a parameter calls the super method of the same name with that parameter and returns this |
| Overrides.ArrayOverrideAsWrittenFails | src/main/java/com/kscs/util/plugins/xjc/BuilderGenerator.java:307-308 | the varargs type, taken as written from type parameter 0 of an array type, does not exist for any element type |
| Overrides.Ancestors | src/main/java/com/kscs/util/plugins/xjc/BuilderGenerator.java:643-655 | the superclass chain walked by the override generation starts at the given superclass |
| Overrides.AncestorsFollowSuperclasses | src/main/java/com/kscs/util/plugins/xjc/BuilderGenerator.java:643-655 | along that chain each entry's successor is its superclass, and the last entry has no superclass |
| Overrides.ArrayIterableOverrideAsWritten | src/main/java/com/kscs/util/plugins/xjc/BuilderGenerator.java:301-303 | the Iterable `with<Name>` override the source emits for an array property: named with the property, taking an `Iterable` of the element type, annotated `@Override` exactly in implementation mode |
| Copy.FullCopyStrategy | src/main/java/com/kscs/util/plugins/xjc/BuilderGenerator.java:456-502 | a primitive is assigned; a reference collection is copied by a loop, and any other reference by a single assignment; the branch order is narrow builder, then builder via newCopyBuilder, then clone, then plain copy; the partial-copy forms are never chosen |
| Copy.PartialCopyStrategy | src/main/java/com/kscs/util/plugins/xjc/BuilderGenerator.java:538-590 | the same split by primitive and collection, and for each branch the exact condition under which it is taken: narrow builder, then builder via newCopyBuilder, then the PartialCopyable copy by property tree, then clone, then plain copy, both for elements and for values |
| Copy.CopiedFields | src/main/java/com/kscs/util/plugins/xjc/BuilderGenerator.java:456-458 | every field the copy constructor copies is the field variable of a declared property |
| Copy.PartiallyCopiedFields | src/main/java/com/kscs/util/plugins/xjc/BuilderGenerator.java:538-541 | every field the partial copy constructor copies is the non-final, non-static field variable of a declared property |
| Copy.FullCopyFieldStmts | src/main/java/com/kscs/util/plugins/xjc/BuilderGenerator.java:456-504 | one copy statement per copied field, in order, each being the statement its full copy strategy prescribes |
| Copy.PartialCopyFieldStmts | src/main/java/com/kscs/util/plugins/xjc/BuilderGenerator.java:538-593 | two statements per partially copied field, in order: the declaration of the field's property-tree node, then an `if` on the include condition whose then-branch is the statement of its partial copy strategy |
| Factories.BuildMethod | src/main/java/com/kscs/util/plugins/xjc/BuilderGenerator.java:364-376 | `build()` returns the product; in implementation mode it returns the cast `_product` for an abstract class, and for a concrete class it returns `init(new T())` when `_product` is null and the cast `_product` otherwise; in interface mode it has no body |
| Factories.ConveniencePartialCopyMethod | src/main/java/com/kscs/util/plugins/xjc/BuilderGenerator.java:425-431 | a public static method `(other, propertyTree)` that returns the partial `copyOf` called with the given include/exclude constant |
| Factories.FactoryMethods | src/main/java/com/kscs/util/plugins/xjc/BuilderGenerator.java:378-401 | `builder()` returns `new Builder<Void>(null, null, false)` and `copyOf(other)` returns `new Builder<P>(null, other, true)`; with partial copy there are three more: the partial `copyOf(other, tree, treeUse)` returning `new Builder<P>(null, other, true, tree, treeUse)`, then `copyExcept` and `copyOnly`; all are public static with bodies |
| Factories.ConvenienceCopiesCallPartialCopyOf | src/main/java/com/kscs/util/plugins/xjc/BuilderGenerator.java:386-431 | `copyExcept` and `copyOnly` take the partial `copyOf`'s first two parameters and return a three-argument call of that `copyOf`, passing those parameters through and a fixed use constant third, so the call resolves to the partial overload and not to `copyOf(other)` |
| Factories.CopyBuilderMethods | src/main/java/com/kscs/util/plugins/xjc/BuilderGenerator.java:403-423 | one `newCopyBuilder`, and a second one with the two tree parameters under partial copy; neither is static; public abstract without a body for an abstract class, public with a `copyOf(this, …)` body for a concrete one, no modifiers and no body in interface mode |
| Generator.BuilderGenerator.constructor | src/main/java/com/kscs/util/plugins/xjc/BuilderGenerator.java:63-100 | the new generator holds the configuration it was given, and its builder state is `Constructed`: the end method and the two root storage fields on a root builder, then the copy constructor and, with partial copy, the partial copy constructor in implementation mode |
| Generator.BuilderGenerator.GenerateSingularProperty | src/main/java/com/kscs/util/plugins/xjc/BuilderGenerator.java:120-156 | appends exactly `SingularMembers` to the methods, the fields and the init body |
| Generator.BuilderGenerator.GenerateCollectionProperty | src/main/java/com/kscs/util/plugins/xjc/BuilderGenerator.java:158-243 | appends exactly `CollectionMembers` to the methods, the fields and the init body |
| Generator.BuilderGenerator.GenerateArrayProperty | src/main/java/com/kscs/util/plugins/xjc/BuilderGenerator.java:666-680 | appends exactly `ArrayMembers` to the methods, the fields and the init body |
| Generator.BuilderGenerator.GenerateBuilderMember | src/main/java/com/kscs/util/plugins/xjc/BuilderGenerator.java:102-118 | dispatches on the property's shape and appends exactly its `MemberEmission` |
| Generator.BuilderGenerator.GenerateBuilderMemberOverride | src/main/java/com/kscs/util/plugins/xjc/BuilderGenerator.java:246-342 | appends exactly `OverrideMembers` of the inherited property and changes nothing else |
| Generator.BuilderGenerator.GenerateBuilderMemberOverrides | src/main/java/com/kscs/util/plugins/xjc/BuilderGenerator.java:643-655 | the loop over the superclass's getter properties, then the recursion up the chain, appends exactly `OverridesOf` the superclass |
| Generator.BuilderGenerator.GenerateCopyConstructor | src/main/java/com/kscs/util/plugins/xjc/BuilderGenerator.java:433-505 | the loop over the declared fields builds the body, and exactly `CopyConstructor` is appended to the constructors |
| Generator.BuilderGenerator.GeneratePartialCopyConstructor | src/main/java/com/kscs/util/plugins/xjc/BuilderGenerator.java:515-595 | the loop over the declared fields builds the body, and exactly `PartialCopyConstructor` is appended to the constructors |
| Generator.BuilderGenerator.GenerateBuildMethod | src/main/java/com/kscs/util/plugins/xjc/BuilderGenerator.java:364-376 | appends exactly `BuildMethod` to the builder's methods |
| Generator.BuilderGenerator.GenerateConveniencePartialCopyMethod | src/main/java/com/kscs/util/plugins/xjc/BuilderGenerator.java:425-431 | appends exactly one `ConveniencePartialCopyMethod` to the built class's methods |
| Generator.BuilderGenerator.GenerateBuilderMethod | src/main/java/com/kscs/util/plugins/xjc/BuilderGenerator.java:378-401 | appends exactly `FactoryMethods` to the built class, in their order of emission |
| Generator.BuilderGenerator.GenerateCopyBuilderMethod | src/main/java/com/kscs/util/plugins/xjc/BuilderGenerator.java:403-423 | appends exactly `CopyBuilderMethods` to the built class |
| Generator.BuilderGenerator.GenerateBuilderMembers | src/main/java/com/kscs/util/plugins/xjc/BuilderGenerator.java:615-621 | the loop over the declared fields appends exactly `MembersOf` the declared fields (getterless properties contribute nothing) |
| Generator.BuilderGenerator.GenerateExtendsClause | src/main/java/com/kscs/util/plugins/xjc/BuilderGenerator.java:344-346 | the builder's extends clause becomes the builder class of the given superclass builder |
| Generator.BuilderGenerator.BuildProperties | src/main/java/com/kscs/util/plugins/xjc/BuilderGenerator.java:597-640 | the builder state afterwards is `BuildPropertiesSpec` of the state before |
| Generator.GenerateBuilder | src/main/java/com/kscs/util/plugins/xjc/BuilderGenerator.java:597-640 | constructing a generator and running buildProperties yields exactly `BuilderSpecOf` the configuration |
| MemberProperties.MembersOfAppend | src/main/java/com/kscs/util/plugins/xjc/BuilderGenerator.java:615-621 | the members of two field lists concatenated are the members of the first followed by those of the second |
| MemberProperties.Getters | src/main/java/com/kscs/util/plugins/xjc/BuilderGenerator.java:616-617 | a property is kept iff it is declared and has a getter |
| MemberProperties.OnlyGettersContribute | src/main/java/com/kscs/util/plugins/xjc/BuilderGenerator.java:615-621 | the builder members of the declared fields are those of their getter-having properties alone |
| MemberProperties.MemberNames | src/main/java/com/kscs/util/plugins/xjc/BuilderGenerator.java:102-118 | every method emitted for a property is named with<Name> or add<Name>, and there is always a public non-override with<Name> |
| MemberProperties.MembersCoverGetters | src/main/java/com/kscs/util/plugins/xjc/BuilderGenerator.java:615-621 | both directions: every getter-having property gets a public with<Name>, and every emitted method is the with/add of some getter-having property |
| MemberProperties.InterfaceModeMember | src/main/java/com/kscs/util/plugins/xjc/BuilderGenerator.java:120-243 | in interface mode a property's methods have no body, and it gets no field and no init statement |
| MemberProperties.InterfaceModeMembers | src/main/java/com/kscs/util/plugins/xjc/BuilderGenerator.java:615-621 | in interface mode no member of any declared field has a body, a field or an init statement |
| MemberProperties.MemberInitHasNoReturn | src/main/java/com/kscs/util/plugins/xjc/BuilderGenerator.java:120-243 | no init statement emitted for a property returns |
| MemberProperties.MembersInitHasNoReturn | src/main/java/com/kscs/util/plugins/xjc/BuilderGenerator.java:615-621 | no init statement emitted for the declared fields returns |
| OverrideProperties.AncestorsDispatchable | src/main/java/com/kscs/util/plugins/xjc/BuilderGenerator.java:643-655 | every property of every ancestor on the walked chain can be dispatched |
| OverrideProperties.OverridesWalkChain | src/main/java/com/kscs/util/plugins/xjc/BuilderGenerator.java:643-655 | the overrides are the per-class overrides of each ancestor, nearest first, concatenated |
| OverrideProperties.OverrideNames | src/main/java/com/kscs/util/plugins/xjc/BuilderGenerator.java:246-342 | every inherited property gets a with<Name> override with a parameter, marked @Override exactly in implementation mode |
| OverrideProperties.FieldOverridesCover | src/main/java/com/kscs/util/plugins/xjc/BuilderGenerator.java:643-651 | both directions for one class: every getter-having property gets a with<Name> override, and every override is the with/add of some getter-having property |
| OverrideProperties.OverridesCoverChain | src/main/java/com/kscs/util/plugins/xjc/BuilderGenerator.java:643-655 | both directions for the whole chain: every getter-having property of every ancestor is overridden, and every override belongs to one |
| OverrideProperties.CollectionOverridesMatch | src/main/java/com/kscs/util/plugins/xjc/BuilderGenerator.java:250-298 | every override of a collection property has the name, parameters and result type of a method the ancestor's builder declared for the property |
| OverrideProperties.SingularOverridesMatch | src/main/java/com/kscs/util/plugins/xjc/BuilderGenerator.java:321-341 | every override of a singular property has the signature of a method the ancestor's builder declared for it |
| OverrideProperties.OverridesMatchInherited | src/main/java/com/kscs/util/plugins/xjc/BuilderGenerator.java:246-342 | every override, array properties included, has the signature of a method the ancestor's builder declared for the property |
| OverrideProperties.ArrayOverridesAgainstInherited | src/main/java/com/kscs/util/plugins/xjc/BuilderGenerator.java:299-320 | an array property gets exactly one override, the varargs one with the corrected type, and it has the signature of the ancestor's only method for that property (671-672) |
| OverrideProperties.ArrayIterableOverrideOverridesNothing | src/main/java/com/kscs/util/plugins/xjc/BuilderGenerator.java:301-316 | the source's Iterable override of an array property carries `@Override` in implementation mode, yet no method of the ancestor's builder for that property has its signature |
| CopyProperties.PartialStrategyDiffers | src/main/java/com/kscs/util/plugins/xjc/BuilderGenerator.java:549-586 | the partial copy picks a different strategy from the full copy exactly when it takes a PartialCopyable branch, and in that case the full copy would clone or copy plainly |
| CopyProperties.NotPartialCopyableSameStrategy | src/main/java/com/kscs/util/plugins/xjc/BuilderGenerator.java:549-586 | for a type, or an element type, that is not PartialCopyable, both copy constructors choose the same strategy |
| CopyProperties.TreeFreeCopiesAgree | src/main/java/com/kscs/util/plugins/xjc/BuilderGenerator.java:538-590 | when the strategy is the same and does not go through a child builder, both constructors emit the same copy statement |
| CopyProperties.NarrowBuilderForwardsTree | src/main/java/com/kscs/util/plugins/xjc/BuilderGenerator.java:573-575 | the partial narrow copy is the full one with the property-tree node and the include parameter appended to the child builder's constructor arguments |
| CopyProperties.PolymorphicBuilderForwardsTree | src/main/java/com/kscs/util/plugins/xjc/BuilderGenerator.java:576-578 | the partial polymorphic copy passes the property-tree node and the include parameter to newCopyBuilder; the full one passes nothing |
| CopyProperties.PolymorphicLoopGuards | src/main/java/com/kscs/util/plugins/xjc/BuilderGenerator.java:470-473 | the full polymorphic copy loop tests `_other.f` for null, both around the loop and per element; the partial loop tests `_item` per element (lines 556-559) |
| CopyProperties.FullCopyCoversFields | src/main/java/com/kscs/util/plugins/xjc/BuilderGenerator.java:456-458 | every declared property with a field variable is copied |
| CopyProperties.PartialCopyCoversFields | src/main/java/com/kscs/util/plugins/xjc/BuilderGenerator.java:538-541 | every declared property whose field is neither final nor static is partially copied |
| CopyProperties.CopyConstructorsAgree | src/main/java/com/kscs/util/plugins/xjc/BuilderGenerator.java:515-534 | both copy constructors have the same visibility; the partial one's parameters are the full one's plus the property tree; below the root its super call forwards the tree; both test `_copy`; they share the not-copying branch; both copying branches begin with the same product handling |
| CopyProperties.RootOwnsProduct | src/main/java/com/kscs/util/plugins/xjc/BuilderGenerator.java:445-451 | the root's copy constructor sets `_product` to null when copying and to `_other` otherwise; below the root `_product` is not touched |
| BuilderProperties.PropertyMethodNames | src/main/java/com/kscs/util/plugins/xjc/BuilderGenerator.java:615-629 | no property method or override is named end, init or build |
| BuilderProperties.BuilderShape | src/main/java/com/kscs/util/plugins/xjc/BuilderGenerator.java:597-640 | an extends clause (the superclass's builder) exactly below the root; one copy constructor, or two with partial copy, exactly in implementation mode; `end` exactly on the root builder; `init` exactly in implementation mode; `build` last; on an implemented root the two storage fields come first |
| BuilderProperties.InitOfBuilder | src/main/java/com/kscs/util/plugins/xjc/BuilderGenerator.java:615-629 | the init body is the declared properties' init statements followed by the hand-off |
| BuilderProperties.InitHandOff | src/main/java/com/kscs/util/plugins/xjc/BuilderGenerator.java:623-629 | in interface mode there is no init body; otherwise its only return is the last statement, which returns the product at the root and `super.init(product)` below it, after all of the class's own field assignments |
| BuilderProperties.InterfaceModeOverride | src/main/java/com/kscs/util/plugins/xjc/BuilderGenerator.java:246-342 | in interface mode no override has a body |
| BuilderProperties.InterfaceModeFieldOverrides | src/main/java/com/kscs/util/plugins/xjc/BuilderGenerator.java:643-651 | in interface mode no override of one class's properties has a body |
| BuilderProperties.InterfaceModeOverrides | src/main/java/com/kscs/util/plugins/xjc/BuilderGenerator.java:643-655 | in interface mode no override on the whole chain has a body |
| BuilderProperties.InterfaceModeBuilder | src/main/java/com/kscs/util/plugins/xjc/BuilderGenerator.java:597-640 | an interface builder has no fields, no constructors and no init, no method with a body, and only bodiless, modifier-free methods on the built class |
| BuilderProperties.FactoriesOnlyForConcrete | src/main/java/com/kscs/util/plugins/xjc/BuilderGenerator.java:636-638 | the built class gets a static method exactly when the builder is implemented and the class is concrete |
| BuilderProperties.AbstractCopyBuilder | src/main/java/com/kscs/util/plugins/xjc/BuilderGenerator.java:403-410 | for an abstract class every newCopyBuilder is abstract and has no body |
| BuilderProperties.BuilderCoversProperties | src/main/java/com/kscs/util/plugins/xjc/BuilderGenerator.java:615-626 | the finished builder has a public with<Name> for every getter-having declared property, and below the root a with<Name> override for every getter-having property of every ancestor |
| Runtime.Build | src/main/java/com/kscs/util/plugins/xjc/BuilderGenerator.java:364-376 | a stored product is returned; without one a concrete class's builder returns a new object and an abstract class's builder returns null |
| Runtime.BuildReturnsGivenProduct | src/main/java/com/kscs/util/plugins/xjc/BuilderGenerator.java:445-451 | a builder constructed around an existing object without copying builds exactly that object |
| Runtime.BuildIsNotCached | src/main/java/com/kscs/util/plugins/xjc/BuilderGenerator.java:364-376 | a concrete builder without a product builds a different object on each call |
| Runtime.CopyBuildsNewObject | src/main/java/com/kscs/util/plugins/xjc/BuilderGenerator.java:445-451 | `copyOf(o).build()` yields the next new object; that it is not `o` is the assumed freshness of `new`, stated as its requirement |
| Runtime.WithNewBuilder | src/main/java/com/kscs/util/plugins/xjc/BuilderGenerator.java:150 | `with<Name>()` on a buildable singular property stores and returns the same child builder, one without a product |
| Runtime.WithBuilderThenInit | src/main/java/com/kscs/util/plugins/xjc/BuilderGenerator.java:150-152 | what init builds from the stored child builder is what building the returned one yields: a new object for a concrete class, null for an abstract one |
| Runtime.SingularRoundTrip | src/main/java/com/kscs/util/plugins/xjc/BuilderGenerator.java:134-153 | what `with<Name>(v)` stores on a buildable singular property, init hands to the product unchanged, null included |
| Runtime.PlainCollectionField.Add | src/main/java/com/kscs/util/plugins/xjc/BuilderGenerator.java:194-197 | the list is allocated when null and kept otherwise; afterwards it holds the old elements followed by the argument list's elements as they were on entry |
| Runtime.PlainCollectionField.With | src/main/java/com/kscs/util/plugins/xjc/BuilderGenerator.java:199-201 | the list object is kept when one existed; afterwards it holds exactly the argument list's elements, except when the argument is the builder's own list, which clear() empties first and which then stays empty |
| Runtime.PlainCollectionField.Init | src/main/java/com/kscs/util/plugins/xjc/BuilderGenerator.java:203 | the product's field is the builder's own list object |
| Runtime.AddAfterInit | src/main/java/com/kscs/util/plugins/xjc/BuilderGenerator.java:190-204 | after `with(xs)`, init and `add(ys)`, the product's list holds `xs + ys` |
| Runtime.WithOwnProductList | src/main/java/com/kscs/util/plugins/xjc/BuilderGenerator.java:199-203 | after `with(xs)` and init, handing the product's list back to `with` leaves the product's list empty |
| Runtime.Wrap | src/main/java/com/kscs/util/plugins/xjc/BuilderGenerator.java:224-225 | one child builder per element, in order, each constructed around that element without copying |
| Runtime.BuildAll | src/main/java/com/kscs/util/plugins/xjc/BuilderGenerator.java:234-235 | one built value per child builder, in order |
| Runtime.BuildableCollectionField.Add | src/main/java/com/kscs/util/plugins/xjc/BuilderGenerator.java:222-226 | the list is allocated when null; afterwards it holds the old child builders followed by one wrapped child builder per added element |
| Runtime.BuildableCollectionField.AddNew | src/main/java/com/kscs/util/plugins/xjc/BuilderGenerator.java:216-220 | appends and returns a new child builder without a product |
| Runtime.BuildableCollectionField.With | src/main/java/com/kscs/util/plugins/xjc/BuilderGenerator.java:228-230 | afterwards the list holds exactly one wrapped child builder per given element |
| Runtime.BuildableCollectionField.Init | src/main/java/com/kscs/util/plugins/xjc/BuilderGenerator.java:232-236 | nothing is stored when the builder list is null; otherwise the product gets the builds of the child builders, in order |
| Runtime.WithThenInitRoundTrip | src/main/java/com/kscs/util/plugins/xjc/BuilderGenerator.java:205-236 | after with then init, every non-null element reaches the product unchanged and in place; a null element becomes a new object for a concrete element class and null for an abstract one |
| Runtime.CopyElements | src/main/java/com/kscs/util/plugins/xjc/BuilderGenerator.java:682-686 | the loop body evaluated once per source element, in order |
| Runtime.PolymorphicLoopsOnNullElement | src/main/java/com/kscs/util/plugins/xjc/BuilderGenerator.java:470-473 | a null source list gives a null target for both loops; otherwise both keep length and order, on a non-null element the full loop stores `item.newCopyBuilder()` and the partial loop `item.newCopyBuilder(tree, use)`, each given as its own copy function, and on a null element the full copy throws a NullPointerException while the partial copy stores null |

## Left out

- Javadoc generation (lines 689-713) and the resource bundle are left out because they do not affect the declarations that are emitted.
- `JTypedInvocation` and `JDirectInnerClassRef` (lines 715-805) are code-model plumbing. Generic type arguments become symbolic type tags (`BuilderOfP`, `SelfBuilder`, `IterableOf`). An explicitly typed invocation is kept as `TypedCall` with its type argument; the inner-class reference serves only the implements clause (line 361), which is left out below.
- The extends clause narrows the superclass builder by the builder's own type parameter (line 345). The model keeps only the superclass builder's class name.
- `generateImplementsClause` (lines 348-362) depends on the group-interface plugin, which is not part of this model. The model does not record the implements clause.
- `ImmutablePlugin.immutableInit` is not part of this model. It is one opaque `ImmutableInit` statement after a collection's init assignment, present exactly when the plugin is active.
- `ApiConstructs` is not part of this model. The type tests it offers become input sets: collection, cloneable, `PartialCopyable` and instantiable types, and referenced builders. The method-name constants `with`, `add`, `build` and `init`, and the `copyOf`/`copyExcept`/`copyOnly` names, are inputs or constants taken as the names the generator uses.
- `PartialCopyGenerator` is not part of this model. Its tree-node declaration, include condition and tree parameters are opaque statement and parameter tags.
- `catchCloneNotSupported` becomes the statement `CatchCloneNotSupported`, and `castOnDemand` and `asList` become the expressions `CastOnDemand` and `AsList`; what they expand to is not modelled. `generateRuntimeTypeExpression` (lines 507-513) is folded into `Copy.CopyStmt`.
- The `SAXException` that `buildProperties` declares is left out; it can only come from the implements clause.
- When the narrow copy is chosen for a type that has no builder, the source throws a NullPointerException (lines 466-467, 484-485, 552-553, 573-574). The model requires instead that a builder exists (`Copy.CopyResolvable`).
- The source also throws when a non-array collection has no type parameter: `get(0)` at lines 112 and 252 while emitting members and overrides, and at lines 464 and 550 while emitting the copy constructors. It throws too when the superclass has no builder (line 624). The model requires instead that the type parameter exists (`Lookup.ElementTypeKnown` and `Lookup.Dispatchable` for lines 112 and 252, `Copy.CopyResolvable` for lines 464 and 550) and that the superclass's builder resolves (`Synthesis.Generatable`).
- Runtime.PlainCollectionField.With: a null argument, on which the source's `addAll` throws a NullPointerException, is not modelled; the argument is a list object.
- Runtime.PlainCollectionField.Add: the same null argument is not modelled.
- Runtime.CopyBuildsNewObject: the model has no allocator, so the freshness of the object `build` creates is assumed as the requirement that it differs from `o`, not proved.
- Clashes between member names of different properties (for example, a property named `_product`) are not checked. The code model does not reject duplicate declarations.
- The `generate*` methods of `Generator.BuilderGenerator` state that they append exactly the value of their decision function. What that value means is proved about the function, in its own contract and in the property modules.
- Runtime models the emitted Java code at the level of references and lists. Concurrency, exceptions other than the null dereference of the copy loop, and the element-wise clone and copy paths are left out.

## Findings

| source | as written | input that shows it | evidently intended | confidence | as-written member | corrected member |
|---|---|---|---|---|---|---|
| src/main/java/com/kscs/util/plugins/xjc/BuilderGenerator.java:308 | the varargs parameter of the array override is typed by type parameter 0 of the field's raw type | any subclass of a class with an array-typed collection property, e.g. a repeated element bound with `collectionType="indexed"`: an array type has no type parameters, so `get(0)` fails | the array's element type, which `generateArrayProperty` gives the ancestor's varargs method (line 671) | medium, not executed | Overrides.ArrayOverrideAsWrittenFails | OverrideProperties.ArrayOverridesAgainstInherited |
| src/main/java/com/kscs/util/plugins/xjc/BuilderGenerator.java:301-316 | an array property also gets an Iterable `with<Name>` override, annotated `@Override` in implementation mode and delegating to `super.with<Name>(Iterable)` | the same subclass, once line 308 is corrected: the ancestor's builder declares only the varargs `with<Name>` for an array (lines 671-672), so `@Override` annotates a method that overrides nothing and `super.with<Name>(Iterable)` does not resolve | only the varargs override, which re-declares the ancestor's one method | medium, not executed | OverrideProperties.ArrayIterableOverrideOverridesNothing | OverrideProperties.OverridesMatchInherited |
