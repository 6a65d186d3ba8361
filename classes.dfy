/** `PB_Class`: the binding of one C++ class. While it is being built its member lists grow
    (`PBClass`, whose methods are the source's `add`, `inherit` and `process`); once built it is
    copied by value into its parent (`ClassBinding`), printed and never changed again. */
module Classes {
  import opened Text
  import opened Names
  import opened Cppast
  import opened Printing
  import opened Bindings

  /** A built class binding: the value `PB_Class` copies into enclosing lists. */
  datatype ClassBinding = ClassBinding(
    name: Name,
    parent: Name,
    bases: seq<string>,
    mems: seq<Def>,
    meths: seq<Meth>,
    conss: seq<Cons>,
    cls: seq<ClassBinding>)

  // ---------------------------------------------------------------- add(PB_Meth)

  /** `erase_if(meths, same_sig(m, .))`: the methods whose signature differs from m's, in order. */
  function Erased(ms: seq<Meth>, m: Meth): (r: seq<Meth>)
    ensures |r| <= |ms|
    ensures forall k :: k in r <==> k in ms && !SameSig(m, k)
    decreases |ms|
  {
    if ms == [] then []
    else
      var init, last := ms[..|ms| - 1], ms[|ms| - 1];
      assert ms == init + [last];
      var kept := Erased(init, m);
      if SameSig(m, last) then kept else kept + [last]
  }

  /** Erasing keeps relative order: erasing from a concatenation erases from each part in place. */
  lemma {:induction false} ErasedAppend(a: seq<Meth>, b: seq<Meth>, m: Meth)
    ensures Erased(a + b, m) == Erased(a, m) + Erased(b, m)
    decreases |b|
  {
    if b == [] {
      assert a + b == a;
    } else {
      var n := |b|;
      assert (a + b)[..|a + b| - 1] == a + b[..n - 1];
      assert (a + b)[|a + b| - 1] == b[n - 1];
      ErasedAppend(a, b[..n - 1], m);
    }
  }

  /** Erasing a signature that no element has changes nothing. */
  lemma {:induction false} ErasedNoMatch(ms: seq<Meth>, m: Meth)
    requires forall i :: 0 <= i < |ms| ==> !SameSig(m, ms[i])
    ensures Erased(ms, m) == ms
    decreases |ms|
  {
    if ms != [] {
      ErasedNoMatch(ms[..|ms| - 1], m);
    }
  }

  /** `PB_Class::add(PB_Meth)`: drop every method with m's signature, then append m. */
  function AddedMeth(ms: seq<Meth>, m: Meth): (r: seq<Meth>)
    ensures |r| >= 1 && r[|r| - 1] == m
    ensures |r| <= |ms| + 1
  {
    Erased(ms, m) + [m]
  }

  /** After `add(m)`, m is the only method with its signature, every method of another signature
      is still there, and nothing else was added. */
  lemma AddedMethContents(ms: seq<Meth>, m: Meth)
    ensures forall i :: 0 <= i < |AddedMeth(ms, m)| - 1 ==> !SameSig(m, AddedMeth(ms, m)[i])
    ensures forall k :: k in ms && !SameSig(m, k) ==> k in AddedMeth(ms, m)
    ensures forall k :: k in AddedMeth(ms, m) ==> k in ms || k == m
  {
    var r := AddedMeth(ms, m);
    forall i | 0 <= i < |r| - 1
      ensures !SameSig(m, r[i])
    {
      assert r[i] in Erased(ms, m);
    }
  }

  /** Adding the methods of `ns` one after the other. */
  function AddedMeths(ms: seq<Meth>, ns: seq<Meth>): seq<Meth>
    decreases |ns|
  {
    if ns == [] then ms else AddedMeth(AddedMeths(ms, ns[..|ns| - 1]), ns[|ns| - 1])
  }

  /** No two methods of the list share a signature. */
  ghost predicate UniqueSigs(ms: seq<Meth>) {
    forall i, j {:trigger SameSig(ms[i], ms[j])} :: 0 <= i < j < |ms| ==> !SameSig(ms[i], ms[j])
  }

  lemma {:induction false} ErasedUnique(ms: seq<Meth>, m: Meth)
    requires UniqueSigs(ms)
    ensures UniqueSigs(Erased(ms, m))
    decreases |ms|
  {
    if ms != [] {
      var init, last := ms[..|ms| - 1], ms[|ms| - 1];
      ErasedUnique(init, m);
      var kept := Erased(init, m);
      forall i | 0 <= i < |kept|
        ensures !SameSig(kept[i], last)
      {
        assert kept[i] in init;
        var j :| 0 <= j < |init| && init[j] == kept[i];
        assert ms[j] == kept[i];
      }
    }
  }

  /** `add(PB_Meth)` keeps a class's methods free of duplicate signatures. */
  lemma AddedMethUnique(ms: seq<Meth>, m: Meth)
    requires UniqueSigs(ms)
    ensures UniqueSigs(AddedMeth(ms, m))
  {
    ErasedUnique(ms, m);
    AddedMethContents(ms, m);
    var r := AddedMeth(ms, m);
    forall i, j | 0 <= i < j < |r|
      ensures !SameSig(r[i], r[j])
    {
      if j == |r| - 1 {
        SameSigEquivalence(m, r[i], r[i]);
      }
    }
  }

  lemma {:induction false} AddedMethsUnique(ms: seq<Meth>, ns: seq<Meth>)
    requires UniqueSigs(ms)
    ensures UniqueSigs(AddedMeths(ms, ns))
    decreases |ns|
  {
    if ns != [] {
      AddedMethsUnique(ms, ns[..|ns| - 1]);
      AddedMethUnique(AddedMeths(ms, ns[..|ns| - 1]), ns[|ns| - 1]);
    }
  }

  /** Adding a method whose signature no method of the list has appends it. */
  lemma AddedMethNoMatch(ms: seq<Meth>, m: Meth)
    requires forall i :: 0 <= i < |ms| ==> !SameSig(m, ms[i])
    ensures AddedMeth(ms, m) == ms + [m]
  {
    ErasedNoMatch(ms, m);
  }

  /** Adding, one after the other, methods whose signatures are pairwise distinct to an empty
      list keeps all of them, in order. */
  lemma {:induction false} AddedMethsToEmpty(ns: seq<Meth>)
    requires UniqueSigs(ns)
    ensures AddedMeths([], ns) == ns
    decreases |ns|
  {
    if ns != [] {
      var init, last := ns[..|ns| - 1], ns[|ns| - 1];
      assert ns == init + [last];
      UniqueSigsSplit(init, last);
      AddedMethsToEmpty(init);
      AddedMethNoMatch(init, last);
      assert AddedMeths([], ns) == AddedMeth(AddedMeths([], init), last);
    }
  }

  /** A list without duplicate signatures: so is all of it but the last method, and the last
      method's signature is none of the others'. */
  lemma UniqueSigsSplit(init: seq<Meth>, last: Meth)
    requires UniqueSigs(init + [last])
    ensures UniqueSigs(init)
    ensures forall i :: 0 <= i < |init| ==> !SameSig(last, init[i])
  {
    var ns := init + [last];
    forall i, j | 0 <= i < j < |init|
      ensures !SameSig(init[i], init[j])
    {
      assert init[i] == ns[i] && init[j] == ns[j];
    }
    forall i | 0 <= i < |init|
      ensures !SameSig(last, init[i])
    {
      assert init[i] == ns[i] && last == ns[|init|];
      SameSigEquivalence(init[i], last, last);
    }
  }

  // ---------------------------------------------------------------- construction, as a specification

  /** A class binding before any base or child is processed. */
  function EmptyClass(cl: Entity, parent: Name): (c: ClassBinding)
    ensures c.name == parent.Child(cl.name) && c.parent == parent
    ensures c.bases == [] && c.mems == [] && c.meths == [] && c.conss == [] && c.cls == []
  {
    ClassBinding(parent.Child(cl.name), parent, [], [], [], [], [])
  }

  /** The copy-down of `inherit`: every member, method (through `add`) and nested class of the base. */
  function CopyDown(c: ClassBinding, base: ClassBinding): ClassBinding {
    c.(mems := c.mems + base.mems, meths := AddedMeths(c.meths, base.meths), cls := c.cls + base.cls)
  }

  /** The class binding `PB_Class(cl, parent, idx)` builds. */
  ghost function ClassSpec(cl: Entity, parent: Name, idx: Index, depth: nat): (c: ClassBinding)
    requires BasesWithin(idx, cl, depth)
    ensures c.name == parent.Child(cl.name)
    decreases depth, cl, |cl.bases| + |cl.children| + 2
  {
    ProcessedUpTo(cl, parent, idx, depth, |cl.children|)
  }

  /** After the first `n` bases of the constructor's base loop. */
  ghost function InheritedUpTo(cl: Entity, parent: Name, idx: Index, depth: nat, n: nat): (c: ClassBinding)
    requires n <= |cl.bases| && BasesWithin(idx, cl, depth)
    ensures c.name == parent.Child(cl.name) && c.conss == []
    decreases depth, cl, n
  {
    if n == 0 then EmptyClass(cl, parent)
    else
      var b := cl.bases[n - 1];
      assert b in cl.bases;
      InheritStep(InheritedUpTo(cl, parent, idx, depth, n - 1), b, idx, depth)
  }

  /** `bases.push_back(base.name()); inherit(base, idx);` -- the base is built anchored at `Name()`. */
  ghost function InheritStep(c: ClassBinding, b: BaseClass, idx: Index, depth: nat): (r: ClassBinding)
    requires ResolvesToClass(idx, b) && depth > 0 && BasesWithin(idx, idx[b.id], depth - 1)
    ensures r.name == c.name && r.conss == c.conss
    decreases depth - 1, idx[b.id], |idx[b.id].bases| + |idx[b.id].children| + 3
  {
    CopyDown(c.(bases := c.bases + [b.name]), ClassSpec(idx[b.id], Anonymous, idx, depth - 1))
  }

  /** After all bases and the first `n` children of the constructor's child loop. */
  ghost function ProcessedUpTo(cl: Entity, parent: Name, idx: Index, depth: nat, n: nat): (c: ClassBinding)
    requires n <= |cl.children| && BasesWithin(idx, cl, depth)
    ensures c.name == parent.Child(cl.name)
    decreases depth, cl, |cl.bases| + 1 + n
  {
    if n == 0 then InheritedUpTo(cl, parent, idx, depth, |cl.bases|)
    else
      var e := cl.children[n - 1];
      assert e in cl.children;
      ProcessStep(ProcessedUpTo(cl, parent, idx, depth, n - 1), e, idx, depth)
  }

  /** `PB_Class::process`: dispatch one child by kind; every other kind is ignored. */
  ghost function ProcessStep(c: ClassBinding, e: Entity, idx: Index, depth: nat): (r: ClassBinding)
    requires e.kind == ClassKind ==> BasesWithin(idx, e, depth)
    ensures r.name == c.name
    decreases depth, e, |e.bases| + |e.children| + 3
  {
    match e.kind
    case MemberFunctionKind => c.(meths := AddedMeth(c.meths, MethOf(e, c.name)))
    case ConstructorKind => c.(conss := c.conss + [ConsOf(e, c.name)])
    case MemberVariableKind => c.(mems := c.mems + [MemberVariableDef(e, c.name)])
    case VariableKind => c.(mems := c.mems + [VariableDef(e, c.name)])
    case ClassKind => c.(cls := c.cls + [ClassSpec(e, c.name, idx, depth)])
    case _ => c
  }

  // ---------------------------------------------------------------- construction, as the source does it

  class PBClass {
    const name: Name
    const parent: Name
    var bases: seq<string>
    var mems: seq<Def>
    var meths: seq<Meth>
    var conss: seq<Cons>
    var cls: seq<ClassBinding>

    /** The value this object is copied as. */
    function Value(): ClassBinding
      reads this
    {
      ClassBinding(name, parent, bases, mems, meths, conss, cls)
    }

    /** `PB_Class(cl, parent, idx)`: inherit every base, then process every child. */
    constructor (cl: Entity, parent: Name, idx: Index, ghost depth: nat)
      requires BasesWithin(idx, cl, depth)
      ensures Value() == ClassSpec(cl, parent, idx, depth)
      decreases depth, cl, 1
    {
      this.name := parent.Child(cl.name);
      this.parent := parent;
      bases, mems, meths, conss, cls := [], [], [], [], [];
      new;
      for i := 0 to |cl.bases|
        invariant Value() == InheritedUpTo(cl, parent, idx, depth, i)
      {
        var base := cl.bases[i];
        assert base in cl.bases;
        bases := bases + [base.name];
        Inherit(base, idx, depth);
      }
      for i := 0 to |cl.children|
        invariant Value() == ProcessedUpTo(cl, parent, idx, depth, i)
      {
        var e := cl.children[i];
        assert e in cl.children;
        Process(e, idx, depth);
      }
    }

    /** `PB_Class::inherit`: build the base anchored at `Name()` and add its members, methods and
        nested classes to this class. */
    method Inherit(base: BaseClass, idx: Index, ghost depth: nat)
      requires ResolvesToClass(idx, base) && depth > 0 && BasesWithin(idx, idx[base.id], depth - 1)
      modifies this
      ensures Value() == CopyDown(old(Value()), ClassSpec(idx[base.id], Anonymous, idx, depth - 1))
      decreases depth - 1, idx[base.id], 2
    {
      var baseClass := new PBClass(idx[base.id], Anonymous, idx, depth - 1);
      var b := baseClass.Value();
      AddDefs(b.mems);
      AddMeths(b.meths);
      AddClasses(b.cls);
    }

    /** `for (auto const& k : base_class.mems) add(k);` */
    method AddDefs(ds: seq<Def>)
      modifies this
      ensures Value() == old(Value()).(mems := old(mems) + ds)
    {
      for k := 0 to |ds|
        invariant mems == old(mems) + ds[..k]
        invariant bases == old(bases) && meths == old(meths) && conss == old(conss) && cls == old(cls)
      {
        AppendAssoc(old(mems), ds[..k], [ds[k]]);
        assert ds[..k + 1] == ds[..k] + [ds[k]];
        AddDef(ds[k]);
      }
      assert ds[..|ds|] == ds;
    }

    /** `for (auto const& k : base_class.meths) add(k);` */
    method AddMeths(ns: seq<Meth>)
      modifies this
      ensures Value() == old(Value()).(meths := AddedMeths(old(meths), ns))
    {
      for k := 0 to |ns|
        invariant meths == AddedMeths(old(meths), ns[..k])
        invariant bases == old(bases) && mems == old(mems) && conss == old(conss) && cls == old(cls)
      {
        assert ns[..k + 1][..k] == ns[..k];
        AddMeth(ns[k]);
      }
      assert ns[..|ns|] == ns;
    }

    /** `for (auto const& k : base_class.cls) add(k);` */
    method AddClasses(cs: seq<ClassBinding>)
      modifies this
      ensures Value() == old(Value()).(cls := old(cls) + cs)
    {
      for k := 0 to |cs|
        invariant cls == old(cls) + cs[..k]
        invariant bases == old(bases) && mems == old(mems) && meths == old(meths) && conss == old(conss)
      {
        AppendAssoc(old(cls), cs[..k], [cs[k]]);
        assert cs[..k + 1] == cs[..k] + [cs[k]];
        AddClass(cs[k]);
      }
      assert cs[..|cs|] == cs;
    }

    /** `add(PB_Def)`. */
    method AddDef(d: Def)
      modifies this
      ensures Value() == old(Value()).(mems := old(mems) + [d])
    {
      mems := mems + [d];
    }

    /** `add(PB_Meth)`: `erase_if` the methods with m's signature, then `push_back(m)`. */
    method AddMeth(m: Meth)
      modifies this
      ensures Value() == old(Value()).(meths := AddedMeth(old(meths), m))
    {
      var kept: seq<Meth> := [];
      for i := 0 to |meths|
        invariant kept == Erased(meths[..i], m)
      {
        assert meths[..i + 1][..i] == meths[..i];
        if !SameSig(m, meths[i]) {
          kept := kept + [meths[i]];
        }
      }
      assert meths[..|meths|] == meths;
      meths := kept + [m];
    }

    /** `add(PB_Cons)`. */
    method AddCons(c: Cons)
      modifies this
      ensures Value() == old(Value()).(conss := old(conss) + [c])
    {
      conss := conss + [c];
    }

    /** `add(PB_Class)`. */
    method AddClass(c: ClassBinding)
      modifies this
      ensures Value() == old(Value()).(cls := old(cls) + [c])
    {
      cls := cls + [c];
    }

    /** `PB_Class::process`. */
    method Process(e: Entity, idx: Index, ghost depth: nat)
      requires e.kind == ClassKind ==> BasesWithin(idx, e, depth)
      modifies this
      ensures Value() == ProcessStep(old(Value()), e, idx, depth)
      decreases depth, e, 2
    {
      if e.kind == MemberFunctionKind {
        AddMeth(MethOf(e, name));
      } else if e.kind == ConstructorKind {
        AddCons(ConsOf(e, name));
      } else if e.kind == MemberVariableKind {
        AddDef(MemberVariableDef(e, name));
      } else if e.kind == VariableKind {
        AddDef(VariableDef(e, name));
      } else if e.kind == ClassKind {
        var nested := new PBClass(e, name, idx, depth);
        AddClass(nested.Value());
      }
      // Any other kind is ignored (the source prints a warning).
    }
  }

  // ---------------------------------------------------------------- properties of construction

  lemma {:induction false} InheritedUnique(cl: Entity, parent: Name, idx: Index, depth: nat, n: nat)
    requires n <= |cl.bases| && BasesWithin(idx, cl, depth)
    ensures UniqueSigs(InheritedUpTo(cl, parent, idx, depth, n).meths)
    decreases n
  {
    if n > 0 {
      InheritedUnique(cl, parent, idx, depth, n - 1);
      InheritedUniqueStep(cl, parent, idx, depth, n);
    }
  }

  lemma InheritedUniqueStep(cl: Entity, parent: Name, idx: Index, depth: nat, n: nat)
    requires 0 < n <= |cl.bases| && BasesWithin(idx, cl, depth)
    requires UniqueSigs(InheritedUpTo(cl, parent, idx, depth, n - 1).meths)
    ensures UniqueSigs(InheritedUpTo(cl, parent, idx, depth, n).meths)
  {
    var b := cl.bases[n - 1];
    InheritedMeths(cl, parent, idx, depth, n);
    AddedMethsUnique(InheritedUpTo(cl, parent, idx, depth, n - 1).meths, ClassSpec(idx[b.id], Anonymous, idx, depth - 1).meths);
  }

  lemma {:induction false} ProcessedUnique(cl: Entity, parent: Name, idx: Index, depth: nat, n: nat)
    requires n <= |cl.children| && BasesWithin(idx, cl, depth)
    ensures UniqueSigs(ProcessedUpTo(cl, parent, idx, depth, n).meths)
    decreases n
  {
    if n == 0 {
      InheritedUnique(cl, parent, idx, depth, |cl.bases|);
    } else {
      ProcessedUnique(cl, parent, idx, depth, n - 1);
      var c := ProcessedUpTo(cl, parent, idx, depth, n - 1);
      var e := cl.children[n - 1];
      assert e in cl.children;
      assert ProcessedUpTo(cl, parent, idx, depth, n) == ProcessStep(c, e, idx, depth);
      ProcessStepParts(c, e, idx, depth);
      if e.kind == MemberFunctionKind {
        AddedMethUnique(c.meths, MethOf(e, c.name));
      }
    }
  }

  /** What the `n`-th base adds to the methods: its own, through `add`. */
  lemma InheritedMeths(cl: Entity, parent: Name, idx: Index, depth: nat, n: nat)
    requires 0 < n <= |cl.bases| && BasesWithin(idx, cl, depth)
    ensures ResolvesToClass(idx, cl.bases[n - 1]) && depth > 0 && BasesWithin(idx, idx[cl.bases[n - 1].id], depth - 1)
    ensures InheritedUpTo(cl, parent, idx, depth, n).meths
         == AddedMeths(InheritedUpTo(cl, parent, idx, depth, n - 1).meths, ClassSpec(idx[cl.bases[n - 1].id], Anonymous, idx, depth - 1).meths)
  {
    assert cl.bases[n - 1] in cl.bases;
  }

  /** What one child adds: a method through `add`, a constructor at the end; the name stays. */
  lemma ProcessStepParts(c: ClassBinding, e: Entity, idx: Index, depth: nat)
    requires e.kind == ClassKind ==> BasesWithin(idx, e, depth)
    ensures ProcessStep(c, e, idx, depth).meths == (if e.kind == MemberFunctionKind then AddedMeth(c.meths, MethOf(e, c.name)) else c.meths)
    ensures ProcessStep(c, e, idx, depth).conss == c.conss + (if e.kind == ConstructorKind then [ConsOf(e, c.name)] else [])
    ensures ProcessStep(c, e, idx, depth).name == c.name
  {
  }

  /** No class binding ever holds two methods with the same signature, however its bases and
      children are arranged: inherited and own methods all go through `add`. */
  lemma ClassMethodsUnique(cl: Entity, parent: Name, idx: Index, depth: nat)
    requires BasesWithin(idx, cl, depth)
    ensures UniqueSigs(ClassSpec(cl, parent, idx, depth).meths)
  {
    ProcessedUnique(cl, parent, idx, depth, |cl.children|);
  }

  /** The constructors of a class in the order of their declaration, built with the class's name. */
  function DeclaredConss(children: seq<Entity>, owner: Name): (r: seq<Cons>)
    ensures |r| <= |children|
    decreases |children|
  {
    if children == [] then []
    else
      var e := children[|children| - 1];
      DeclaredConss(children[..|children| - 1], owner) + (if e.kind == ConstructorKind then [ConsOf(e, owner)] else [])
  }

  lemma {:induction false} ProcessedConss(cl: Entity, parent: Name, idx: Index, depth: nat, n: nat)
    requires n <= |cl.children| && BasesWithin(idx, cl, depth)
    ensures ProcessedUpTo(cl, parent, idx, depth, n).conss == DeclaredConss(cl.children[..n], parent.Child(cl.name))
    decreases n
  {
    if n > 0 {
      ProcessedConss(cl, parent, idx, depth, n - 1);
      ProcessedConssStep(cl, parent, idx, depth, n);
    }
  }

  lemma ProcessedConssStep(cl: Entity, parent: Name, idx: Index, depth: nat, n: nat)
    requires 0 < n <= |cl.children| && BasesWithin(idx, cl, depth)
    requires ProcessedUpTo(cl, parent, idx, depth, n - 1).conss == DeclaredConss(cl.children[..n - 1], parent.Child(cl.name))
    ensures ProcessedUpTo(cl, parent, idx, depth, n).conss == DeclaredConss(cl.children[..n], parent.Child(cl.name))
  {
    var c := ProcessedUpTo(cl, parent, idx, depth, n - 1);
    var e := cl.children[n - 1];
    assert e in cl.children;
    assert ProcessedUpTo(cl, parent, idx, depth, n) == ProcessStep(c, e, idx, depth);
    ProcessStepParts(c, e, idx, depth);
    assert cl.children[..n][..n - 1] == cl.children[..n - 1];
  }

  /** A class binding's constructors are exactly its own declared constructors, in declaration
      order: constructors are neither inherited nor deduplicated. */
  lemma ClassConstructors(cl: Entity, parent: Name, idx: Index, depth: nat)
    requires BasesWithin(idx, cl, depth)
    ensures ClassSpec(cl, parent, idx, depth).conss == DeclaredConss(cl.children, parent.Child(cl.name))
  {
    ProcessedConss(cl, parent, idx, depth, |cl.children|);
    assert cl.children[..|cl.children|] == cl.children;
  }

  /** A class with a single base and no members of its own gets the base's data members, methods
      and nested classes exactly as the base has them: same order, and still named and registered
      in the base's scope (nothing is re-parented). */
  lemma InheritOnly(cl: Entity, parent: Name, idx: Index, depth: nat)
    requires BasesWithin(idx, cl, depth)
    requires |cl.bases| == 1 && cl.children == []
    ensures depth > 0 && ResolvesToClass(idx, cl.bases[0]) && BasesWithin(idx, idx[cl.bases[0].id], depth - 1)
    ensures ClassSpec(cl, parent, idx, depth).bases == [cl.bases[0].name]
    ensures ClassSpec(cl, parent, idx, depth).mems == ClassSpec(idx[cl.bases[0].id], Anonymous, idx, depth - 1).mems
    ensures ClassSpec(cl, parent, idx, depth).meths == ClassSpec(idx[cl.bases[0].id], Anonymous, idx, depth - 1).meths
    ensures ClassSpec(cl, parent, idx, depth).cls == ClassSpec(idx[cl.bases[0].id], Anonymous, idx, depth - 1).cls
    ensures ClassSpec(cl, parent, idx, depth).conss == []
  {
    var b := cl.bases[0];
    assert b in cl.bases;
    var base := ClassSpec(idx[b.id], Anonymous, idx, depth - 1);
    var c0 := InheritedUpTo(cl, parent, idx, depth, 0);
    assert c0 == EmptyClass(cl, parent);
    var c1 := InheritedUpTo(cl, parent, idx, depth, 1);
    assert c1 == InheritStep(c0, b, idx, depth);
    assert c0.bases + [b.name] == [b.name];
    assert c1 == CopyDown(c0.(bases := [b.name]), base);
    assert ClassSpec(cl, parent, idx, depth) == ProcessedUpTo(cl, parent, idx, depth, 0) == c1;
    ClassMethodsUnique(idx[b.id], Anonymous, idx, depth - 1);
    AddedMethsToEmpty(base.meths);
  }

  // ---------------------------------------------------------------- emitted text

  /** `PB_Class::needs_trampoline`: some method needs one. */
  function AnyNeedsTrampoline(ms: seq<Meth>): (r: bool)
    ensures r <==> exists k :: 0 <= k < |ms| && NeedsTrampoline(ms[k])
    decreases |ms|
  {
    if ms == [] then false
    else NeedsTrampoline(ms[|ms| - 1]) || AnyNeedsTrampoline(ms[..|ms| - 1])
  }

  function TrampolineName(c: ClassBinding): string {
    "Tr" + c.name.BindName()
  }

  /** ", <base>" for every base, in order. */
  function BaseList(bases: seq<string>): string
    decreases |bases|
  {
    if bases == [] then "" else BaseList(bases[..|bases| - 1]) + ", " + bases[|bases| - 1]
  }

  /** The `py::class_<...>` declaration: the class, its bases, and the trampoline if one is needed. */
  function ClassDecl(c: ClassBinding): string {
    "py::class_<" + c.name.CppName() + BaseList(c.bases)
    + (if AnyNeedsTrampoline(c.meths) then ", " + TrampolineName(c) else "")
    + "> " + c.name.BindName() + "(" + c.parent.BindName() + ", \"" + c.name.PyName() + "\");"
  }

  /** A class that needs a trampoline names it in its declaration, whether or not that class is
      nested in another. */
  lemma DeclNamesTrampoline(c: ClassBinding)
    requires AnyNeedsTrampoline(c.meths)
    ensures var k := |"py::class_<" + c.name.CppName() + BaseList(c.bases) + ", "|;
      k + |TrampolineName(c)| <= |ClassDecl(c)| && ClassDecl(c)[k..k + |TrampolineName(c)|] == TrampolineName(c)
  {
  }

  function ConsLines(cs: seq<Cons>, p: string): (r: seq<string>)
    ensures |r| == |cs| && forall i :: 0 <= i < |cs| ==> r[i] == p + ConsLine(cs[i])
    decreases |cs|
  {
    if cs == [] then [] else ConsLines(cs[..|cs| - 1], p) + [p + ConsLine(cs[|cs| - 1])]
  }

  function DefLines(ds: seq<Def>, p: string): (r: seq<string>)
    ensures |r| == |ds| && forall i :: 0 <= i < |ds| ==> r[i] == p + DefLine(ds[i])
    decreases |ds|
  {
    if ds == [] then [] else DefLines(ds[..|ds| - 1], p) + [p + DefLine(ds[|ds| - 1])]
  }

  function MethLines(ms: seq<Meth>, p: string): (r: seq<string>)
    ensures |r| == |ms| && forall i :: 0 <= i < |ms| ==> r[i] == p + DefLine(ms[i].def)
    decreases |ms|
  {
    if ms == [] then [] else MethLines(ms[..|ms| - 1], p) + [p + DefLine(ms[|ms| - 1].def)]
  }

  /** The default constructor line, emitted only when the class has no constructor. */
  function InitLines(c: ClassBinding, p: string): seq<string> {
    if c.conss == [] then [p + ConsLine(DefaultCons(c.name))] else []
  }

  /** The lines of `PB_Class::print_content`. */
  function ContentLines(c: ClassBinding, p: string): seq<string>
    decreases c, 1
  {
    InitLines(c, p) + ConsLines(c.conss, p) + DefLines(c.mems, p) + MethLines(c.meths, p) + ClassBlocks(c.cls, p)
  }

  /** The lines of `PB_Class::print`. */
  function ClassLines(c: ClassBinding, p: string): seq<string>
    decreases c, 2
  {
    [p + (ClassDecl(c) + " {")] + ContentLines(c, p + "  ") + [p + "}", ""]
  }

  /** The blocks of a list of classes, in order. */
  function ClassBlocks(cs: seq<ClassBinding>, p: string): seq<string>
    decreases cs, 0
  {
    if cs == [] then [] else ClassBlocks(cs[..|cs| - 1], p) + ClassLines(cs[|cs| - 1], p)
  }

  /** A class's body lists its constructors -- exactly one default `py::init<>()` when it declares
      none -- then its data members, then its methods, then its nested classes, each in insertion
      order. */
  lemma ContentLayout(c: ClassBinding, p: string)
    ensures |ContentLines(c, p)| == ConsCount(c) + |c.mems| + |c.meths| + |ClassBlocks(c.cls, p)|
    ensures c.conss == [] ==> ContentLines(c, p)[0] == p + (c.name.BindName() + ".def(py::init<>());")
    ensures c.conss != [] ==> ContentLines(c, p)[..ConsCount(c)] == ConsLines(c.conss, p)
    ensures ContentLines(c, p)[ConsCount(c)..ConsCount(c) + |c.mems|] == DefLines(c.mems, p)
    ensures ContentLines(c, p)[ConsCount(c) + |c.mems|..ConsCount(c) + |c.mems| + |c.meths|] == MethLines(c.meths, p)
    ensures ContentLines(c, p)[ConsCount(c) + |c.mems| + |c.meths|..] == ClassBlocks(c.cls, p)
  {
    var I, C, D, M, B := InitLines(c, p), ConsLines(c.conss, p), DefLines(c.mems, p), MethLines(c.meths, p), ClassBlocks(c.cls, p);
    assert ContentLines(c, p) == I + C + D + M + B;
    if c.conss == [] {
      DefaultConsLine(c.name);
    }
    BlocksAt(ContentLines(c, p), I, C, D, M, B, ConsCount(c), |c.mems|, |c.meths|);
  }

  /** Where the five blocks of a class body sit: the first two take `k` lines together, the
      next two `d` and `m` lines. */
  lemma BlocksAt<T>(L: seq<T>, I: seq<T>, C: seq<T>, D: seq<T>, M: seq<T>, B: seq<T>, k: nat, d: nat, m: nat)
    requires L == I + C + D + M + B && |I| + |C| == k && |D| == d && |M| == m
    ensures |L| == k + d + m + |B|
    ensures I == [] ==> L[..k] == C
    ensures L[k..k + d] == D
    ensures L[k + d..k + d + m] == M
    ensures L[k + d + m..] == B
  {
  }

  /** The number of constructor lines of a class body: one default constructor when the class
      declares none, one per declared constructor otherwise. */
  function ConsCount(c: ClassBinding): nat {
    if c.conss == [] then 1 else |c.conss|
  }

  /** The lines of `PB_Meth::print_trampoline` for every method, in order. */
  function MethsTrampolineLines(ms: seq<Meth>, p: string): seq<string>
    decreases |ms|
  {
    if ms == [] then [] else MethsTrampolineLines(ms[..|ms| - 1], p) + MethTrampolineLines(ms[|ms| - 1], p)
  }

  /** The lines of `PB_Class::print_trampoline`. */
  function ClassTrampolineLines(c: ClassBinding, p: string): seq<string> {
    if !AnyNeedsTrampoline(c.meths) then []
    else
      [ p + ("struct " + TrampolineName(c) + " : public " + c.name.CppName() + " {"),
        (p + "  ") + ("using " + c.name.CppName() + "::" + c.name.CppSimpleName() + ";"),
        "" ]
      + MethsTrampolineLines(c.meths, p + "  ")
      + [p + "};", ""]
  }

  /** The total length of the forwarding methods: nine lines and one per parameter, for each
      method that needs a trampoline, and nothing for the others. */
  function ForwardingSize(ms: seq<Meth>): nat
    decreases |ms|
  {
    if ms == [] then 0
    else
      var m := ms[|ms| - 1];
      ForwardingSize(ms[..|ms| - 1]) + (if NeedsTrampoline(m) then 9 + |m.params| else 0)
  }

  lemma {:induction false} MethsTrampolineSize(ms: seq<Meth>, p: string)
    ensures |MethsTrampolineLines(ms, p)| == ForwardingSize(ms)
    ensures ForwardingSize(ms) == 0 <==> !AnyNeedsTrampoline(ms)
    decreases |ms|
  {
    if ms != [] {
      MethsTrampolineSize(ms[..|ms| - 1], p);
      MethTrampolineShape(ms[|ms| - 1], p);
    }
  }

  /** A trampoline struct is emitted exactly for classes with a method that needs one; it holds one
      forwarding method per such method and nothing for the others. */
  lemma ClassTrampolineShape(c: ClassBinding, p: string)
    ensures ClassTrampolineLines(c, p) == [] <==> !AnyNeedsTrampoline(c.meths)
    ensures AnyNeedsTrampoline(c.meths) ==> |ClassTrampolineLines(c, p)| == 5 + ForwardingSize(c.meths)
  {
    MethsTrampolineSize(c.meths, p + "  ");
  }

  // ---------------------------------------------------------------- printing, as the source does it

  /** The class declaration, with the base list built by the source's loop. */
  method BuildClassDecl(c: ClassBinding) returns (decl: string)
    ensures decl == ClassDecl(c)
  {
    var head := "py::class_<" + c.name.CppName();
    decl := head;
    for i := 0 to |c.bases|
      invariant decl == head + BaseList(c.bases[..i])
    {
      assert c.bases[..i + 1][..i] == c.bases[..i];
      ghost var prior := BaseList(c.bases[..i]);
      assert BaseList(c.bases[..i + 1]) == prior + ", " + c.bases[i];
      AppendAssoc(head, prior, ", ");
      AppendAssoc(head, prior + ", ", c.bases[i]);
      decl := decl + ", " + c.bases[i];
    }
    assert c.bases[..|c.bases|] == c.bases;
    if AnyNeedsTrampoline(c.meths) {
      decl := decl + ", " + TrampolineName(c);
    }
    decl := decl + "> " + c.name.BindName() + "(" + c.parent.BindName() + ", \"" + c.name.PyName() + "\");";
  }

  /** `PB_Class::print`. */
  method PrintClass(c: ClassBinding, pr: Printer)
    modifies pr.sink
    ensures pr.sink.lines == old(pr.sink.lines) + ClassLines(c, pr.prefix)
    decreases c, 2
  {
    var decl := BuildClassDecl(c);
    pr.Line(decl + " {");
    PrintContent(c, pr.Plus("  "));
    pr.Line("}");
    pr.Blank();
  }

  /** `PB_Class::print_content`. */
  method PrintContent(c: ClassBinding, pr: Printer)
    modifies pr.sink
    ensures pr.sink.lines == old(pr.sink.lines) + ContentLines(c, pr.prefix)
    decreases c, 1
  {
    ghost var s0 := pr.sink.lines;
    PrintInit(c, pr);
    ghost var s1 := pr.sink.lines;
    PrintConsList(c.conss, pr);
    ghost var s2 := pr.sink.lines;
    PrintDefList(c.mems, pr);
    ghost var s3 := pr.sink.lines;
    PrintMethDefs(c.meths, pr);
    ghost var s4 := pr.sink.lines;
    PrintClassList(c.cls, pr);
    ContentSteps(c, pr.prefix, s0, s1, s2, s3, s4, pr.sink.lines);
  }

  lemma ContentSteps(c: ClassBinding, p: string, s0: seq<string>, s1: seq<string>, s2: seq<string>,
                     s3: seq<string>, s4: seq<string>, s5: seq<string>)
    requires s1 == s0 + InitLines(c, p) && s2 == s1 + ConsLines(c.conss, p) && s3 == s2 + DefLines(c.mems, p)
    requires s4 == s3 + MethLines(c.meths, p) && s5 == s4 + ClassBlocks(c.cls, p)
    ensures s5 == s0 + ContentLines(c, p)
  {
    var I, C, D, M := InitLines(c, p), ConsLines(c.conss, p), DefLines(c.mems, p), MethLines(c.meths, p);
    AppendAssoc(s0, I, C);
    AppendAssoc(s0, I + C, D);
    AppendAssoc(s0, I + C + D, M);
    AppendAssoc(s0, I + C + D + M, ClassBlocks(c.cls, p));
  }

  /** The default constructor, printed when the class declares none. */
  method PrintInit(c: ClassBinding, pr: Printer)
    modifies pr.sink
    ensures pr.sink.lines == old(pr.sink.lines) + InitLines(c, pr.prefix)
  {
    if c.conss == [] {
      PrintCons(DefaultCons(c.name), pr);
    }
  }

  method PrintClassList(cs: seq<ClassBinding>, pr: Printer)
    modifies pr.sink
    ensures pr.sink.lines == old(pr.sink.lines) + ClassBlocks(cs, pr.prefix)
    decreases cs, 0
  {
    ghost var start := pr.sink.lines;
    for i := 0 to |cs|
      invariant pr.sink.lines == start + ClassBlocks(cs[..i], pr.prefix)
    {
      assert cs[..i + 1][..i] == cs[..i];
      PrintClass(cs[i], pr);
    }
    assert cs[..|cs|] == cs;
  }

  method PrintConsList(cs: seq<Cons>, pr: Printer)
    modifies pr.sink
    ensures pr.sink.lines == old(pr.sink.lines) + ConsLines(cs, pr.prefix)
  {
    ghost var start := pr.sink.lines;
    for i := 0 to |cs|
      invariant pr.sink.lines == start + ConsLines(cs[..i], pr.prefix)
    {
      assert cs[..i + 1][..i] == cs[..i];
      PrintCons(cs[i], pr);
    }
    assert cs[..|cs|] == cs;
  }

  method PrintDefList(ds: seq<Def>, pr: Printer)
    modifies pr.sink
    ensures pr.sink.lines == old(pr.sink.lines) + DefLines(ds, pr.prefix)
  {
    ghost var start := pr.sink.lines;
    for i := 0 to |ds|
      invariant pr.sink.lines == start + DefLines(ds[..i], pr.prefix)
    {
      assert ds[..i + 1][..i] == ds[..i];
      PrintDef(ds[i], pr);
    }
    assert ds[..|ds|] == ds;
  }

  method PrintMethDefs(ms: seq<Meth>, pr: Printer)
    modifies pr.sink
    ensures pr.sink.lines == old(pr.sink.lines) + MethLines(ms, pr.prefix)
  {
    ghost var start := pr.sink.lines;
    for i := 0 to |ms|
      invariant pr.sink.lines == start + MethLines(ms[..i], pr.prefix)
    {
      assert ms[..i + 1][..i] == ms[..i];
      PrintDef(ms[i].def, pr);
    }
    assert ms[..|ms|] == ms;
  }

  method PrintMethsTrampolines(ms: seq<Meth>, pr: Printer)
    modifies pr.sink
    ensures pr.sink.lines == old(pr.sink.lines) + MethsTrampolineLines(ms, pr.prefix)
  {
    ghost var start := pr.sink.lines;
    for i := 0 to |ms|
      invariant pr.sink.lines == start + MethsTrampolineLines(ms[..i], pr.prefix)
    {
      ghost var before := pr.sink.lines;
      PrintMethTrampoline(ms[i], pr);
      TrampolinesSnoc(ms, i, pr.prefix, start, before, pr.sink.lines);
    }
    assert ms[..|ms|] == ms;
  }

  lemma TrampolinesSnoc(ms: seq<Meth>, i: nat, p: string, start: seq<string>, before: seq<string>, after: seq<string>)
    requires i < |ms|
    requires before == start + MethsTrampolineLines(ms[..i], p)
    requires after == before + MethTrampolineLines(ms[i], p)
    ensures after == start + MethsTrampolineLines(ms[..i + 1], p)
  {
    assert ms[..i + 1][..i] == ms[..i];
    AppendAssoc(start, MethsTrampolineLines(ms[..i], p), MethTrampolineLines(ms[i], p));
  }

  /** `PB_Class::print_trampoline`: nothing unless some method needs a trampoline. */
  method PrintClassTrampoline(c: ClassBinding, pr: Printer)
    modifies pr.sink
    ensures pr.sink.lines == old(pr.sink.lines) + ClassTrampolineLines(c, pr.prefix)
  {
    if !AnyNeedsTrampoline(c.meths) {
      return;
    }
    ghost var s0 := pr.sink.lines;
    pr.Line("struct " + TrampolineName(c) + " : public " + c.name.CppName() + " {");
    ghost var s1 := pr.sink.lines;
    var pr2 := pr.Plus("  ");
    pr2.Line("using " + c.name.CppName() + "::" + c.name.CppSimpleName() + ";");
    ghost var s2 := pr.sink.lines;
    pr2.Blank();
    ghost var s3 := pr.sink.lines;
    PrintMethsTrampolines(c.meths, pr2);
    ghost var s4 := pr.sink.lines;
    pr.Line("};");
    ghost var s5 := pr.sink.lines;
    pr.Blank();
    ThreeLines(s0, s1, s2, s3, pr.prefix + ("struct " + TrampolineName(c) + " : public " + c.name.CppName() + " {"),
               (pr.prefix + "  ") + ("using " + c.name.CppName() + "::" + c.name.CppSimpleName() + ";"), "");
    Framed(s0, s3, s4, s5, pr.sink.lines, s3[|s0|..], MethsTrampolineLines(c.meths, pr.prefix + "  "), pr.prefix + "};", "");
  }
}
