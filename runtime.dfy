/**
  What the emitted builder code does when it runs: build() against the final
  _product field, the with methods of a buildable singular property, the lazily
  allocated list behind a collection property's add and with methods, init over
  a list of child builders, and the per-element copy loops.
 */
module Runtime {
  import opened Wrappers

  /** A Java reference: null or an object identity. */
  datatype Ref = Null | Obj(id: nat)

  /** The part of a generated builder's state that build() reads: its final _product and whether the built class is abstract. */
  datatype ChildBuilder = ChildBuilder(product: Ref, productAbstract: bool)

  /** new Builder(parent, other, copy) at the root: the product is `other` unless copying, when it starts out null. */
  function NewBuilder(other: Ref, copy: bool, productAbstract: bool): ChildBuilder {
    ChildBuilder(if copy then Null else other, productAbstract)
  }

  /**
    build(): the stored product if there is one; otherwise a concrete class's
    builder runs init on a new object (identity `next`) and an abstract class's
    builder returns the null it holds. build() never stores what it built.
   */
  function Build(b: ChildBuilder, next: nat): (r: Ref)
    ensures b.product != Null ==> r == b.product
    ensures b.product == Null ==> r == if b.productAbstract then Null else Obj(next)
  {
    if b.productAbstract then b.product
    else if b.product.Null? then Obj(next)
    else b.product
  }

  /** A builder made around an existing object (copy false) builds exactly that object. */
  lemma BuildReturnsGivenProduct(other: Ref, productAbstract: bool, next: nat)
    requires other != Null
    ensures Build(NewBuilder(other, false, productAbstract), next) == other
  {
  }

  /**
    Because _product is final and build() does not assign it, a concrete builder
    without a product builds a different object on every call.
   */
  lemma BuildIsNotCached(b: ChildBuilder, first: nat, second: nat)
    requires b.product == Null && !b.productAbstract && first != second
    ensures Build(b, first) != Build(b, second)
  {
  }

  /**
    copyOf(o).build() yields a new object, never o itself. The model does not
    allocate: that build's `new` produces a fresh reference is assumed, as the
    requirement that the next object is not o, rather than proved.
   */
  lemma CopyBuildsNewObject(other: Ref, next: nat)
    requires other != Obj(next)
    ensures Build(NewBuilder(other, true, false), next) == Obj(next) != other
  {
  }

  /** with<Name>(v) on a buildable singular property: nullSafe(v, new Child(this, v, false)). */
  function WithValue(v: Ref, productAbstract: bool): Option<ChildBuilder> {
    if v.Null? then None else Some(NewBuilder(v, false, productAbstract))
  }

  /** The init statement of a buildable singular property: nullSafe(field, field.build()). */
  function InitSingular(field: Option<ChildBuilder>, next: nat): Ref {
    match field
    case None => Null
    case Some(b) => Build(b, next)
  }

  /** What with<Name>(v) stores, init hands to the product unchanged, null included. */
  lemma SingularRoundTrip(v: Ref, productAbstract: bool, next: nat)
    ensures InitSingular(WithValue(v, productAbstract), next) == v
  {
  }

  /**
    with<Name>() on a buildable singular property: `return this.f = new Child(this, null, false)`.
    The result pairs what the field holds afterwards with the builder handed to the caller.
   */
  function WithNewBuilder(productAbstract: bool): (r: (Option<ChildBuilder>, ChildBuilder))
    ensures r.0 == Some(r.1)
    ensures r.1.product == Null && r.1.productAbstract == productAbstract
  {
    var b := NewBuilder(Null, false, productAbstract);
    (Some(b), b)
  }

  /**
    After with<Name>(), init builds the very child builder the caller was handed:
    a new object for a concrete class, null for an abstract one.
   */
  lemma WithBuilderThenInit(productAbstract: bool, next: nat)
    ensures var (stored, returned) := WithNewBuilder(productAbstract);
      InitSingular(stored, next) == Build(returned, next)
      && Build(returned, next) == if productAbstract then Null else Obj(next)
  {
  }

  /** A java.util.List instance. */
  class JavaList<T> {
    var elems: seq<T>

    constructor ()
      ensures elems == []
    {
      elems := [];
    }

    /** A list holding the given elements, as Arrays.asList or a filled ArrayList. */
    constructor Of(xs: seq<T>)
      ensures elems == xs
    {
      elems := xs;
    }

    method Add(x: T)
      modifies this
      ensures elems == old(elems) + [x]
    {
      elems := elems + [x];
    }

    /** addAll(src): the elements src held on entry are appended, even when src is this list. */
    method AddAll(src: JavaList<T>)
      modifies this
      ensures elems == old(elems) + old(src.elems)
    {
      elems := elems + src.elems;
    }

    method Clear()
      modifies this
      ensures elems == []
    {
      elems := [];
    }
  }

  /** The product's field of a plain (non-buildable) collection property. */
  class PlainProduct {
    var items: JavaList?<Ref>

    constructor ()
      ensures items == null
    {
      items := null;
    }
  }

  /** The builder's field of a plain collection property: null until the first add. */
  class PlainCollectionField {
    var list: JavaList?<Ref>

    constructor ()
      ensures list == null
    {
      list := null;
    }

    /** add<Name>(Iterable): allocate the list when it is null, then append all elements of xs in order. */
    method Add(xs: JavaList<Ref>)
      modifies this, list
      ensures list != null
      ensures old(list) != null ==> list == old(list)
      ensures old(list) == null ==> fresh(list)
      ensures list.elems == (if old(list) == null then [] else old(list.elems)) + old(xs.elems)
    {
      if list == null {
        list := new JavaList();
      }
      list.AddAll(xs);
    }

    /**
      with<Name>(Iterable): clear an existing list, then add. Afterwards the list
      holds exactly the argument's elements, unless the argument is the builder's
      own list: clear() has emptied it first, and the list stays empty.
     */
    method With(xs: JavaList<Ref>)
      modifies this, list
      ensures list != null
      ensures old(list) != null ==> list == old(list)
      ensures old(list) == null ==> fresh(list)
      ensures xs != old(list) ==> list.elems == old(xs.elems)
      ensures xs == old(list) ==> list.elems == []
    {
      if list != null {
        list.Clear();
      }
      Add(xs);
    }

    /** The init statement: the product's field is stored the builder's own list, not a copy. */
    method Init(product: PlainProduct)
      modifies product
      ensures product.items == list
    {
      product.items := list;
    }
  }

  /**
    The plain collection's product shares the builder's list: elements added
    through the builder after init show up in the product already built.
   */
  method AddAfterInit(xs: seq<Ref>, ys: seq<Ref>) returns (seen: seq<Ref>)
    ensures seen == xs + ys
  {
    var builder := new PlainCollectionField();
    var first := new JavaList.Of(xs);
    builder.With(first);
    var product := new PlainProduct();
    builder.Init(product);
    var more := new JavaList.Of(ys);
    builder.Add(more);
    seen := product.items.elems;
  }

  /**
    Because of that sharing, handing a built product's list back to the same
    builder's with<Name> empties it: clear() runs on the very list being added.
   */
  method WithOwnProductList(xs: seq<Ref>) returns (seen: seq<Ref>)
    ensures seen == []
  {
    var builder := new PlainCollectionField();
    var first := new JavaList.Of(xs);
    builder.With(first);
    var product := new PlainProduct();
    builder.Init(product);
    builder.With(product.items);
    seen := product.items.elems;
  }

  /** The child builders add<Name>(Iterable) makes for the elements, in order: new Child(this, item, false) each. */
  function Wrap(xs: seq<Ref>, productAbstract: bool): (r: seq<ChildBuilder>)
    ensures |r| == |xs|
    ensures forall i :: 0 <= i < |xs| ==> r[i] == NewBuilder(xs[i], false, productAbstract)
    decreases |xs|
  {
    if xs == [] then []
    else Wrap(xs[..|xs| - 1], productAbstract) + [NewBuilder(xs[|xs| - 1], false, productAbstract)]
  }

  /** build() mapped over child builders, the i-th build making its new object with identity next + i. */
  function BuildAll(bs: seq<ChildBuilder>, next: nat): (r: seq<Ref>)
    ensures |r| == |bs|
    ensures forall i :: 0 <= i < |bs| ==> r[i] == Build(bs[i], next + i)
    decreases |bs|
  {
    if bs == [] then []
    else BuildAll(bs[..|bs| - 1], next) + [Build(bs[|bs| - 1], next + |bs| - 1)]
  }

  /** The builder's field of a collection property whose element type has a builder: a list of child builders. */
  class BuildableCollectionField {
    var list: JavaList?<ChildBuilder>
    const elemAbstract: bool

    constructor (elemAbstract: bool)
      ensures list == null && this.elemAbstract == elemAbstract
    {
      list := null;
      this.elemAbstract := elemAbstract;
    }

    /** add<Name>(Iterable): allocate the list when it is null, then wrap each element in a child builder. */
    method Add(xs: seq<Ref>)
      modifies this, list
      ensures list != null
      ensures old(list) != null ==> list == old(list)
      ensures old(list) == null ==> fresh(list)
      ensures list.elems == (if old(list) == null then [] else old(list.elems)) + Wrap(xs, elemAbstract)
    {
      if list == null {
        list := new JavaList();
      }
      ghost var start := list.elems;
      var i := 0;
      while i < |xs|
        invariant 0 <= i <= |xs|
        invariant list == old(list) || (old(list) == null && fresh(list))
        invariant list != null && list.elems == start + Wrap(xs[..i], elemAbstract)
        modifies list
      {
        assert xs[..i + 1][..i] == xs[..i];
        list.Add(NewBuilder(xs[i], false, elemAbstract));
        i := i + 1;
      }
      assert xs[..i] == xs;
    }

    /** The no-argument add<Name>(): append a new empty child builder and return it. */
    method AddNew() returns (b: ChildBuilder)
      modifies this, list
      ensures list != null
      ensures old(list) != null ==> list == old(list)
      ensures old(list) == null ==> fresh(list)
      ensures b == NewBuilder(Null, false, elemAbstract)
      ensures list.elems == (if old(list) == null then [] else old(list.elems)) + [b]
    {
      if list == null {
        list := new JavaList();
      }
      b := NewBuilder(Null, false, elemAbstract);
      list.Add(b);
    }

    /** with<Name>(Iterable): clear an existing list, then add; afterwards the list holds exactly one child builder per element. */
    method With(xs: seq<Ref>)
      modifies this, list
      ensures list != null && list.elems == Wrap(xs, elemAbstract)
      ensures old(list) != null ==> list == old(list)
      ensures old(list) == null ==> fresh(list)
    {
      if list != null {
        list.Clear();
      }
      Add(xs);
    }

    /**
      The init statements: when the builder list is not null, a new list of the
      same length holding each child builder's build() in order; when it is null,
      the product's field is not stored (None).
     */
    method Init(next: nat) returns (stored: Option<seq<Ref>>)
      ensures list == null ==> stored == None
      ensures list != null ==> stored == Some(BuildAll(list.elems, next))
    {
      if list == null {
        return None;
      }
      var bs := list.elems;
      var built: seq<Ref> := [];
      var i := 0;
      while i < |bs|
        invariant 0 <= i <= |bs|
        invariant built == BuildAll(bs[..i], next)
      {
        assert bs[..i + 1][..i] == bs[..i];
        built := built + [Build(bs[i], next + i)];
        i := i + 1;
      }
      assert bs[..i] == bs;
      stored := Some(built);
    }
  }

  /**
    with(xs) followed by init hands every non-null element to the product
    unchanged and in order; a null element becomes a new object, built by its
    empty child builder, when the element class is concrete.
   */
  lemma {:induction false} WithThenInitRoundTrip(xs: seq<Ref>, productAbstract: bool, next: nat)
    ensures |BuildAll(Wrap(xs, productAbstract), next)| == |xs|
    ensures forall i :: 0 <= i < |xs| && xs[i] != Null ==> BuildAll(Wrap(xs, productAbstract), next)[i] == xs[i]
    ensures forall i :: 0 <= i < |xs| && xs[i] == Null ==>
      BuildAll(Wrap(xs, productAbstract), next)[i] == if productAbstract then Null else Obj(next + i)
  {
    var bs := Wrap(xs, productAbstract);
    var r := BuildAll(bs, next);
    forall i | 0 <= i < |xs|
      ensures r[i] == Build(NewBuilder(xs[i], false, productAbstract), next + i)
    {
      assert bs[i] == NewBuilder(xs[i], false, productAbstract);
    }
  }

  /** The outcome of evaluating an element copy: a value, or a NullPointerException. */
  datatype Outcome = Value(r: Ref) | NullPointer

  /**
    One element of a polymorphic copy loop: nullSafe(test, copy of item), the copy given as a function of the item.
    Guarding on the element tests the element; guarding on the source list tests a
    reference already known not to be null, so a null element is dereferenced.
   */
  function CopyElement(item: Ref, guardOnElement: bool, copy: nat -> Ref): Outcome {
    if guardOnElement && item.Null? then Value(Null)
    else if item.Null? then NullPointer
    else Value(copy(item.id))
  }

  /** The per-element body of a copy loop mapped over the source elements. */
  function CopyElements(xs: seq<Ref>, guardOnElement: bool, copy: nat -> Ref): (r: seq<Outcome>)
    ensures |r| == |xs|
    ensures forall i :: 0 <= i < |xs| ==> r[i] == CopyElement(xs[i], guardOnElement, copy)
    decreases |xs|
  {
    if xs == [] then []
    else CopyElements(xs[..|xs| - 1], guardOnElement, copy) + [CopyElement(xs[|xs| - 1], guardOnElement, copy)]
  }

  /** loop: a null source list gives a null target; otherwise a new list with one entry per source element. */
  function CopyLoop(source: Option<seq<Ref>>, guardOnElement: bool, copy: nat -> Ref): Option<seq<Outcome>> {
    match source
    case None => None
    case Some(xs) => Some(CopyElements(xs, guardOnElement, copy))
  }

  /**
    The two polymorphic copy loops keep length and order and differ on a null
    element: the full copy throws, the partial copy stores null. On a non-null
    element each stores its own copy: item.newCopyBuilder() in the full copy,
    item.newCopyBuilder(tree, use) in the partial copy.
   */
  lemma {:induction false} PolymorphicLoopsOnNullElement(xs: seq<Ref>, fullCopy: nat -> Ref, partialCopy: nat -> Ref)
    ensures CopyLoop(None, false, fullCopy) == None && CopyLoop(None, true, partialCopy) == None
    ensures var full := CopyLoop(Some(xs), false, fullCopy).value; var part := CopyLoop(Some(xs), true, partialCopy).value;
      && |full| == |part| == |xs|
      && (forall i :: 0 <= i < |xs| && xs[i] != Null ==> full[i] == Value(fullCopy(xs[i].id)) && part[i] == Value(partialCopy(xs[i].id)))
      && (forall i :: 0 <= i < |xs| && xs[i] == Null ==> full[i] == NullPointer && part[i] == Value(Null))
  {
    var full := CopyElements(xs, false, fullCopy);
    var part := CopyElements(xs, true, partialCopy);
    assert forall i :: 0 <= i < |xs| ==> full[i] == CopyElement(xs[i], false, fullCopy) && part[i] == CopyElement(xs[i], true, partialCopy);
  }
}
