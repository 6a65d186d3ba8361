/** The binding nodes of the generator: a definition (`PB_Def`), a method (`PB_Meth`) and a
    constructor (`PB_Cons`), how each is built from an entity and the lines each emits. */
module Bindings {
  import opened Text
  import opened Names
  import opened Cppast
  import opened Printing

  /** `PB_Def`: the registered name, the scope it is registered in, and the registration call. */
  datatype Def = Def(name: Name, parent: Name, call: string)

  /** `PB_Meth`: a `PB_Def` together with virtual information and the signature texts. */
  datatype Meth = Meth(
    def: Def,
    isVirtual: bool,
    isPure: bool,
    isOverride: bool,
    isFinal: bool,
    retType: string,
    params: seq<string>)

  /** `PB_Cons`: the class it constructs and the parameter type texts. */
  datatype Cons = Cons(parent: Name, params: seq<string>)

  const ReadWrite := "def_readwrite"
  const ReadOnly := "def_readonly"
  const ReadWriteStatic := "def_readwrite_static"
  const ReadOnlyStatic := "def_readonly_static"

  predicate IsStaticCall(call: string) { call == ReadWriteStatic || call == ReadOnlyStatic }
  predicate IsReadOnlyCall(call: string) { call == ReadOnly || call == ReadOnlyStatic }

  /** `PB_Def(name, parent)`: a plain `def` of the child `parent + name`. */
  function NewDef(name: string, parent: Name): (d: Def)
    ensures d.call == "def" && d.parent == parent
    ensures d.name.CppSimpleName() == name && d.name.CppName() == parent.AsScope() + name
  {
    Def(parent.Child(name), parent, "def")
  }

  /** `PB_Def(cpp_function, parent)`: a free function is always registered with `def`. */
  function FunctionDef(f: Entity, parent: Name): (d: Def)
    ensures d.call == "def" && d.parent == parent && d.name == parent.Child(f.name)
  {
    NewDef(f.name, parent)
  }

  /** `PB_Def(cpp_member_variable, parent)`: a data member is read-only exactly when its type is
      const at the top level, and is never registered as static. */
  function MemberVariableDef(v: Entity, parent: Name): (d: Def)
    ensures d.call == ReadOnly || d.call == ReadWrite
    ensures d.call == ReadOnly <==> v.constQualified
    ensures d.parent == parent && d.name == parent.Child(v.name)
  {
    var d := NewDef(v.name, parent);
    if v.constQualified then d.(call := ReadOnly) else d.(call := ReadWrite)
  }

  /** `PB_Def(cpp_variable, parent)`: one of four calls; read-only exactly when the type is const
      at the top level, `_static` exactly when the storage class is static. */
  function VariableDef(v: Entity, parent: Name): (d: Def)
    ensures d.call in {ReadWrite, ReadOnly, ReadWriteStatic, ReadOnlyStatic}
    ensures IsReadOnlyCall(d.call) <==> v.constQualified
    ensures IsStaticCall(d.call) <==> v.staticStorage
    ensures d.parent == parent && d.name == parent.Child(v.name)
  {
    var isStatic := v.staticStorage;
    var isWritable := !v.constQualified;
    var d := NewDef(v.name, parent);
    if isWritable then d.(call := if isStatic then ReadWriteStatic else ReadWrite)
    else d.(call := if isStatic then ReadOnlyStatic else ReadOnly)
  }

  /** `PB_Meth(cpp_member_function, parent)`. */
  function MethOf(f: Entity, parent: Name): (m: Meth)
    ensures m.def == NewDef(f.name, parent)
    ensures m.retType == f.returnType && m.params == f.parameterTypes
    ensures m.isVirtual == f.virtualInfo.isVirtual && m.isPure == f.virtualInfo.isPure
    ensures m.isOverride == f.virtualInfo.isOverriding && m.isFinal == f.virtualInfo.isFinal
    ensures NeedsTrampoline(m) <==> (f.virtualInfo.isVirtual || f.virtualInfo.isOverriding) && !f.virtualInfo.isFinal
  {
    var vi := f.virtualInfo;
    Meth(NewDef(f.name, parent), vi.isVirtual, vi.isPure, vi.isOverriding, vi.isFinal, f.returnType, f.parameterTypes)
  }

  /** A method must be forwarded by a trampoline when it can be overridden from the bound language. */
  predicate NeedsTrampoline(m: Meth) {
    (m.isVirtual || m.isOverride) && !m.isFinal
  }

  /** Two methods have the same signature: same return type, parameter types and simple name. */
  predicate SameSig(a: Meth, b: Meth) {
    a.retType == b.retType && a.params == b.params && a.def.name.CppSimpleName() == b.def.name.CppSimpleName()
  }

  /** `same_sig` is an equivalence, so "the methods with m's signature" is a well-defined class. */
  lemma SameSigEquivalence(a: Meth, b: Meth, c: Meth)
    ensures SameSig(a, a)
    ensures SameSig(a, b) ==> SameSig(b, a)
    ensures SameSig(a, b) && SameSig(b, c) ==> SameSig(a, c)
  {
  }

  /** `PB_Cons(cpp_constructor, parent)`. */
  function ConsOf(c: Entity, parent: Name): (r: Cons)
    ensures r.parent == parent && r.params == c.parameterTypes
  {
    Cons(parent, c.parameterTypes)
  }

  /** `PB_Cons(parent)`: the implicit default constructor. */
  function DefaultCons(parent: Name): (r: Cons)
    ensures r.parent == parent && r.params == []
  {
    Cons(parent, [])
  }

  // ---------------------------------------------------------------- emitted text

  /** The line of `PB_Def::print` (also used for methods, which do not override it). */
  function DefLine(d: Def): string {
    d.parent.BindName() + "." + d.call + "(\"" + d.name.PyName() + "\", &" + d.name.CppName() + ");"
  }

  /** The line of `PB_Cons::print`. */
  function ConsLine(c: Cons): string {
    c.parent.BindName() + ".def(py::init<" + Join(c.params, ", ") + ">());"
  }

  /** The default constructor registers `py::init<>()` with no template arguments. */
  lemma DefaultConsLine(parent: Name)
    ensures ConsLine(DefaultCons(parent)) == parent.BindName() + ".def(py::init<>());"
  {
    assert Join([], ", ") == "";
  }

  method PrintDef(d: Def, pr: Printer)
    modifies pr.sink
    ensures pr.sink.lines == old(pr.sink.lines) + [pr.prefix + DefLine(d)]
  {
    pr.Line(d.parent.BindName() + "." + d.call + "(\"" + d.name.PyName() + "\", &" + d.name.CppName() + ");");
  }

  /** `PB_Cons::str_params`: the parameter texts separated by ", ", no separator after the last. */
  method StrParams(c: Cons) returns (ret: string)
    ensures ret == Join(c.params, ", ")
  {
    var params := c.params;
    ret := "";
    var k := 0;
    while k < |params|
      invariant 0 <= k <= |params|
      invariant ret == Join(params[..k], ", ") + (if 0 < k < |params| then ", " else "")
    {
      assert params[..k + 1][..k] == params[..k];
      ret := ret + params[k];
      if k + 1 < |params| {
        ret := ret + ", ";
      }
      k := k + 1;
    }
    assert params[..k] == params;
  }

  method PrintCons(c: Cons, pr: Printer)
    modifies pr.sink
    ensures pr.sink.lines == old(pr.sink.lines) + [pr.prefix + ConsLine(c)]
  {
    var params := StrParams(c);
    pr.Line(c.parent.BindName() + ".def(py::init<" + params + ">());");
  }

  // ---------------------------------------------------------------- trampoline forwarding method

  /** The declared parameters of a forwarding method: each type text followed by ` arg_<k>`. */
  function NamedArgs(params: seq<string>): (r: seq<string>)
    ensures |r| == |params|
    decreases |params|
  {
    if params == [] then []
    else NamedArgs(params[..|params| - 1]) + [params[|params| - 1] + " arg_" + NatToString(|params| - 1)]
  }

  /** The k-th declared parameter is the k-th type text followed by ` arg_<k>`. */
  lemma {:induction false} NamedArgsAt(params: seq<string>)
    ensures forall k :: 0 <= k < |params| ==> NamedArgs(params)[k] == params[k] + " arg_" + NatToString(k)
    decreases |params|
  {
    if params != [] {
      var init := params[..|params| - 1];
      NamedArgsAt(init);
      assert forall k :: 0 <= k < |init| ==> params[k] == init[k];
    }
  }

  /** The head of the forwarding method: original return type, name and parameters, `override`. */
  function TrampolineDecl(m: Meth): string {
    m.retType + " " + m.def.name.CppSimpleName() + "(" + Join(NamedArgs(m.params), ", ") + ") override"
  }

  /** One `, arg_<k>` forwarding line per parameter. */
  function ArgLines(n: nat, p: string): (r: seq<string>)
    ensures |r| == n
  {
    if n == 0 then [] else ArgLines(n - 1, p) + [p + ("    , arg_" + NatToString(n - 1))]
  }

  /** The k-th forwarding line passes `arg_<k>`. */
  lemma {:induction false} ArgLinesAt(n: nat, p: string)
    ensures forall k :: 0 <= k < n ==> ArgLines(n, p)[k] == p + ("    , arg_" + NatToString(k))
  {
    if n > 0 {
      ArgLinesAt(n - 1, p);
    }
  }

  /** The first five lines of a forwarding method: head, override macro, return type, class, name. */
  function TrampolineHead(m: Meth, p: string): seq<string> {
    [ p + (TrampolineDecl(m) + " {"),
      p + (if m.isPure then "  PYBIND11_OVERRIDE_PURE(" else "  PYBIND11_OVERRIDE("),
      p + ("    /* return type:   */ " + m.retType),
      p + ("  , /* parent class:  */ " + m.def.parent.CppName()),
      p + ("  , /* function name: */ " + m.def.name.CppSimpleName()) ]
  }

  /** The argument part of the macro call: a lone comma without parameters, else one line per argument. */
  function TrampolineArgs(m: Meth, p: string): seq<string> {
    if m.params == [] then [p + "    ,"] else [p + "    /* arguments: */"] + ArgLines(|m.params|, p)
  }

  /** The lines of `PB_Meth::print_trampoline` under prefix `p`. */
  function MethTrampolineLines(m: Meth, p: string): seq<string> {
    if !NeedsTrampoline(m) then []
    else TrampolineHead(m, p) + TrampolineArgs(m, p) + [p + "  );", p + "}", ""]
  }

  /** A forwarding method is emitted exactly for methods that need one; it has nine lines besides
      one forwarding line per parameter, names every argument `arg_<k>` with distinct k, and
      chooses the pure macro exactly for pure methods. */
  lemma MethTrampolineShape(m: Meth, p: string)
    ensures MethTrampolineLines(m, p) == [] <==> !NeedsTrampoline(m)
    ensures NeedsTrampoline(m) ==> |MethTrampolineLines(m, p)| == 9 + |m.params|
    ensures NeedsTrampoline(m) ==>
      (MethTrampolineLines(m, p)[1] == p + "  PYBIND11_OVERRIDE_PURE(" <==> m.isPure)
    ensures NeedsTrampoline(m) ==>
      forall k :: 0 <= k < |m.params| ==> MethTrampolineLines(m, p)[6 + k] == p + ("    , arg_" + NatToString(k))
  {
    ArgLinesAt(|m.params|, p);
    if NeedsTrampoline(m) && !m.isPure {
      var a, b := "  PYBIND11_OVERRIDE_PURE(", "  PYBIND11_OVERRIDE(";
      assert (p + b)[|p| + 19] != (p + a)[|p| + 19];
    }
  }

  /** The argument list of a forwarding method is the ", "-join of its named arguments, so the
      k-th argument is `arg_<k>` and no two arguments share a name. */
  lemma NamedArgsDistinct(params: seq<string>, i: nat, j: nat)
    requires i < j < |params|
    ensures NamedArgs(params)[i] != NamedArgs(params)[j]
  {
    NamedArgsAt(params);
    if NamedArgs(params)[i] == NamedArgs(params)[j] {
      var a, b := NatToString(i), NatToString(j);
      var x, y := params[i] + " arg_", params[j] + " arg_";
      // Both end in "arg_" followed by digits only; the digit runs must then coincide.
      DigitsSuffix(x, a, y, b);
      NatToStringInjective(i, j);
    }
  }

  /** If two texts `x + a` and `y + b` agree, where `x` and `y` end in a non-digit and `a` and `b`
      are non-empty digit strings, then `a == b`. */
  lemma DigitsSuffix(x: string, a: string, y: string, b: string)
    requires x + a == y + b
    requires |x| > 0 && |y| > 0 && !('0' <= x[|x| - 1] <= '9') && !('0' <= y[|y| - 1] <= '9')
    requires forall i :: 0 <= i < |a| ==> '0' <= a[i] <= '9'
    requires forall i :: 0 <= i < |b| ==> '0' <= b[i] <= '9'
    ensures a == b
  {
    var s := x + a;
    assert a == s[|s| - |a|..];
    assert b == s[|s| - |b|..];
  }

  /** The head of the forwarding method, built by the source's index loop. */
  method BuildTrampolineDecl(m: Meth) returns (decl: string)
    ensures decl == TrampolineDecl(m)
  {
    var params := m.params;
    var head := m.retType + " " + m.def.name.CppSimpleName() + "(";
    decl := head;
    ghost var args := NamedArgs(params);
    NamedArgsAt(params);
    for k := 0 to |params|
      invariant decl == head + Join(args[..k], ", ")
    {
      assert args[..k + 1][..k] == args[..k];
      decl := decl + (if k > 0 then ", " else "") + params[k] + " arg_" + NatToString(k);
    }
    assert args[..|params|] == args;
    decl := decl + ") override";
  }

  /** The forwarding lines of a method with at least one parameter. */
  method PrintArgLines(n: nat, pr: Printer)
    modifies pr.sink
    ensures pr.sink.lines == old(pr.sink.lines) + ArgLines(n, pr.prefix)
  {
    ghost var start := pr.sink.lines;
    for k := 0 to n
      invariant pr.sink.lines == start + ArgLines(k, pr.prefix)
    {
      pr.Line("    , arg_" + NatToString(k));
    }
  }

  /** The five head lines of a forwarding method. */
  method PrintTrampolineHead(m: Meth, pr: Printer)
    modifies pr.sink
    ensures pr.sink.lines == old(pr.sink.lines) + TrampolineHead(m, pr.prefix)
  {
    var decl := BuildTrampolineDecl(m);
    pr.Line(decl + " {");
    if m.isPure {
      pr.Line("  PYBIND11_OVERRIDE_PURE(");
    } else {
      pr.Line("  PYBIND11_OVERRIDE(");
    }
    pr.Line("    /* return type:   */ " + m.retType);
    pr.Line("  , /* parent class:  */ " + m.def.parent.CppName());
    pr.Line("  , /* function name: */ " + m.def.name.CppSimpleName());
  }

  /** `PB_Meth::print_trampoline`: nothing unless the method needs a trampoline. */
  method PrintMethTrampoline(m: Meth, pr: Printer)
    modifies pr.sink
    ensures pr.sink.lines == old(pr.sink.lines) + MethTrampolineLines(m, pr.prefix)
  {
    if !NeedsTrampoline(m) {
      return;
    }
    ghost var p := pr.prefix;
    ghost var start := pr.sink.lines;
    PrintTrampolineHead(m, pr);
    ghost var head := pr.sink.lines;
    if |m.params| == 0 {
      pr.Line("    ,");
    } else {
      pr.Line("    /* arguments: */");
      PrintArgLines(|m.params|, pr);
    }
    assert pr.sink.lines == head + TrampolineArgs(m, p);
    pr.Line("  );");
    pr.Line("}");
    pr.Blank();
  }
}
