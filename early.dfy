/** The earlier, simpler engine of `bind/main.cpp`: names are plain strings, classes bind only
    their methods and constructors, and `PB_File` prints the header and include lines around the
    root module. */
module Early {
  import opened Text
  import opened Cppast
  import opened Printing

  /** `PB_Def`: a free function registered by name. */
  datatype Def = Def(name: string)

  /** `PB_Meth`: a member function registered by name, printed with a qualified pointer. */
  datatype Meth = Meth(name: string)

  /** `PB_Cons`: a constructor, by its parameter type texts. */
  datatype Cons = Cons(params: seq<string>)

  datatype ClassBinding = ClassBinding(name: string, meths: seq<Meth>, conss: seq<Cons>)

  datatype ModuleContent = ModuleContent(mods: seq<SubModule>, defs: seq<Def>, cls: seq<ClassBinding>)

  datatype SubModule = SubModule(moduleName: string, content: ModuleContent)

  datatype RootModule = RootModule(moduleName: string, libName: string, content: ModuleContent)

  /** `PB_File`: the included paths and the root module. */
  datatype FileBinding = FileBinding(includes: seq<string>, root: RootModule)

  // ---------------------------------------------------------------- emitted lines of the nodes

  /** `PB_Def::print`: `super.def("name", &name);`. */
  function DefLine(d: Def, super: string): string {
    super + ".def(\"" + d.name + "\", &" + d.name + ");"
  }

  /** `PB_Meth::print`: `super.def("name", &super::name);`. */
  function MethLine(m: Meth, super: string): string {
    super + ".def(\"" + m.name + "\", &" + super + "::" + m.name + ");"
  }

  /** `PB_Cons::print`. */
  function ConsLine(c: Cons, super: string): string {
    super + ".def(py::init<" + Join(c.params, ", ") + ">());"
  }

  /** A method is registered as a free function would be, except that the member pointer is
      qualified with the enclosing scope: `&super::name` in place of `&name`. */
  lemma MethLineQualified(name: string, super: string)
    ensures var head := super + ".def(\"" + name + "\", &";
      && DefLine(Def(name), super) == head + name + ");"
      && MethLine(Meth(name), super) == head + (super + "::" + name) + ");"
      && |MethLine(Meth(name), super)| == |DefLine(Def(name), super)| + |super| + 2
  {
    var head := super + ".def(\"" + name + "\", &";
    assert MethLine(Meth(name), super) == head + super + "::" + name + ");";
    assert head + super + "::" + name + ");" == head + (super + "::" + name) + ");";
  }

  /** `PB_Cons::str_params`: each parameter, followed by ", " unless it is the last. */
  method StrParams(c: Cons) returns (ret: string)
    ensures ret == Join(c.params, ", ")
  {
    ret := "";
    var n := |c.params|;
    for k := 0 to n
      invariant ret == Join(c.params[..k], ", ") + (if 0 < k < n then ", " else "")
    {
      assert c.params[..k + 1][..k] == c.params[..k];
      ret := ret + c.params[k];
      if k + 1 < n {
        ret := ret + ", ";
      }
    }
    assert c.params[..n] == c.params;
  }

  method PrintDef(d: Def, pr: Printer, super: string)
    modifies pr.sink
    ensures pr.sink.lines == old(pr.sink.lines) + [pr.prefix + DefLine(d, super)]
  {
    pr.Line(super + ".def(\"" + d.name + "\", &" + d.name + ");");
  }

  method PrintMeth(m: Meth, pr: Printer, super: string)
    modifies pr.sink
    ensures pr.sink.lines == old(pr.sink.lines) + [pr.prefix + MethLine(m, super)]
  {
    pr.Line(super + ".def(\"" + m.name + "\", &" + super + "::" + m.name + ");");
  }

  method PrintCons(c: Cons, pr: Printer, super: string)
    modifies pr.sink
    ensures pr.sink.lines == old(pr.sink.lines) + [pr.prefix + ConsLine(c, super)]
  {
    var params := StrParams(c);
    pr.Line(super + ".def(py::init<" + params + ">());");
  }

  // ---------------------------------------------------------------- construction, as a specification

  /** The member functions among the children, in order. */
  function DeclaredMeths(children: seq<Entity>): (r: seq<Meth>)
    ensures |r| <= |children|
    decreases |children|
  {
    if children == [] then []
    else
      var e := children[|children| - 1];
      DeclaredMeths(children[..|children| - 1]) + (if e.kind == MemberFunctionKind then [Meth(e.name)] else [])
  }

  /** The constructors among the children, in order. */
  function DeclaredConss(children: seq<Entity>): (r: seq<Cons>)
    ensures |r| <= |children|
    decreases |children|
  {
    if children == [] then []
    else
      var e := children[|children| - 1];
      DeclaredConss(children[..|children| - 1]) + (if e.kind == ConstructorKind then [Cons(e.parameterTypes)] else [])
  }

  /** The binding `PB_Class(cl)` builds: its member functions and its constructors, in order. */
  function ClassSpec(cl: Entity): ClassBinding {
    ClassBinding(cl.name, DeclaredMeths(cl.children), DeclaredConss(cl.children))
  }

  /** How many children have the given kind. */
  function KindCount(children: seq<Entity>, k: Kind): (n: nat)
    ensures n <= |children|
    decreases |children|
  {
    if children == [] then 0
    else KindCount(children[..|children| - 1], k) + (if children[|children| - 1].kind == k then 1 else 0)
  }

  /** A class binding holds one method per member function and one constructor per constructor of
      the class, and nothing for any other child. */
  lemma {:induction false} ClassCounts(children: seq<Entity>)
    ensures |DeclaredMeths(children)| == KindCount(children, MemberFunctionKind)
    ensures |DeclaredConss(children)| == KindCount(children, ConstructorKind)
    ensures (forall i :: 0 <= i < |children| ==> children[i].kind != MemberFunctionKind && children[i].kind != ConstructorKind)
            ==> DeclaredMeths(children) == [] && DeclaredConss(children) == []
    decreases |children|
  {
    if children != [] {
      var init := children[..|children| - 1];
      ClassCounts(init);
      assert forall i :: 0 <= i < |init| ==> init[i] == children[i];
    }
  }

  /** The namespaces among the children, each built as a sub-module. */
  function DeclaredSubModules(children: seq<Entity>): (r: seq<SubModule>)
    ensures |r| <= |children|
    decreases children, 0
  {
    if children == [] then []
    else
      var e := children[|children| - 1];
      DeclaredSubModules(children[..|children| - 1]) + (if e.kind == NamespaceKind then [SubModuleSpec(e)] else [])
  }

  function DeclaredDefs(children: seq<Entity>): (r: seq<Def>)
    ensures |r| <= |children|
    decreases |children|
  {
    if children == [] then []
    else
      var e := children[|children| - 1];
      DeclaredDefs(children[..|children| - 1]) + (if e.kind == FunctionKind then [Def(e.name)] else [])
  }

  function DeclaredClasses(children: seq<Entity>): (r: seq<ClassBinding>)
    ensures |r| <= |children|
    decreases |children|
  {
    if children == [] then []
    else
      var e := children[|children| - 1];
      DeclaredClasses(children[..|children| - 1]) + (if e.kind == ClassKind then [ClassSpec(e)] else [])
  }

  /** The content a module builds from these children: namespaces, functions and classes. */
  function ContentOf(children: seq<Entity>): ModuleContent
    decreases children, 1
  {
    ModuleContent(DeclaredSubModules(children), DeclaredDefs(children), DeclaredClasses(children))
  }

  /** `PB_SubModule(ns)`. */
  function SubModuleSpec(ns: Entity): SubModule
    decreases ns, 2
  {
    SubModule(ns.name, ContentOf(ns.children))
  }

  /** `PB_File(file, lib_name)`. */
  function FileSpec(file: Entity, libName: string): FileBinding {
    FileBinding([file.name], RootModule("m", libName, ContentOf(file.children)))
  }

  /** A module holds one entry per function, namespace and class child, and nothing for any other
      child. */
  lemma {:induction false} ModuleCounts(children: seq<Entity>)
    ensures |ContentOf(children).defs| == KindCount(children, FunctionKind)
    ensures |ContentOf(children).mods| == KindCount(children, NamespaceKind)
    ensures |ContentOf(children).cls| == KindCount(children, ClassKind)
    decreases |children|
  {
    if children != [] {
      ModuleCounts(children[..|children| - 1]);
    }
  }

  // ---------------------------------------------------------------- construction, as the source does it

  class EarlyClass {
    const name: string
    var meths: seq<Meth>
    var conss: seq<Cons>

    function Value(): ClassBinding
      reads this
    {
      ClassBinding(name, meths, conss)
    }

    /** `PB_Class(cl)`: process every child. */
    constructor (cl: Entity)
      ensures Value() == ClassSpec(cl)
    {
      name := cl.name;
      meths, conss := [], [];
      new;
      for i := 0 to |cl.children|
        invariant Value() == ClassBinding(cl.name, DeclaredMeths(cl.children[..i]), DeclaredConss(cl.children[..i]))
      {
        assert cl.children[..i + 1][..i] == cl.children[..i];
        Process(cl.children[i]);
      }
      assert cl.children[..|cl.children|] == cl.children;
    }

    /** `add(PB_Meth)`. */
    method AddMeth(m: Meth)
      modifies this
      ensures Value() == old(Value()).(meths := old(meths) + [m])
    {
      meths := meths + [m];
    }

    /** `add(PB_Cons)`. */
    method AddCons(c: Cons)
      modifies this
      ensures Value() == old(Value()).(conss := old(conss) + [c])
    {
      conss := conss + [c];
    }

    /** `PB_Class::process`: member functions and constructors are added, anything else ignored. */
    method Process(e: Entity)
      modifies this
      ensures e.kind == MemberFunctionKind ==> Value() == old(Value()).(meths := old(meths) + [Meth(e.name)])
      ensures e.kind == ConstructorKind ==> Value() == old(Value()).(conss := old(conss) + [Cons(e.parameterTypes)])
      ensures e.kind != MemberFunctionKind && e.kind != ConstructorKind ==> Value() == old(Value())
    {
      if e.kind == MemberFunctionKind {
        AddMeth(Meth(e.name));
      } else if e.kind == ConstructorKind {
        var params := [];
        for k := 0 to |e.parameterTypes|
          invariant params == e.parameterTypes[..k]
        {
          params := params + [e.parameterTypes[k]];
        }
        assert params == e.parameterTypes;
        AddCons(Cons(params));
      }
      // Any other kind is ignored (the source prints an error message).
    }
  }

  class EarlyModule {
    const moduleName: string
    var mods: seq<SubModule>
    var defs: seq<Def>
    var cls: seq<ClassBinding>

    function Content(): ModuleContent
      reads this
    {
      ModuleContent(mods, defs, cls)
    }

    /** `PB_Module(module_name)`. */
    constructor (moduleName: string)
      ensures this.moduleName == moduleName && Content() == ModuleContent([], [], [])
    {
      this.moduleName := moduleName;
      mods, defs, cls := [], [], [];
    }

    method AddSubModule(s: SubModule)
      modifies this
      ensures Content() == old(Content()).(mods := old(mods) + [s])
    {
      mods := mods + [s];
    }

    method AddDef(d: Def)
      modifies this
      ensures Content() == old(Content()).(defs := old(defs) + [d])
    {
      defs := defs + [d];
    }

    method AddClass(c: ClassBinding)
      modifies this
      ensures Content() == old(Content()).(cls := old(cls) + [c])
    {
      cls := cls + [c];
    }

    /** `PB_Module::process`: functions, namespaces and classes are added, anything else ignored. */
    method Process(e: Entity)
      modifies this
      ensures e.kind == FunctionKind ==> Content() == old(Content()).(defs := old(defs) + [Def(e.name)])
      ensures e.kind == NamespaceKind ==> Content() == old(Content()).(mods := old(mods) + [SubModuleSpec(e)])
      ensures e.kind == ClassKind ==> Content() == old(Content()).(cls := old(cls) + [ClassSpec(e)])
      ensures e.kind != FunctionKind && e.kind != NamespaceKind && e.kind != ClassKind ==> Content() == old(Content())
      decreases e, 3
    {
      if e.kind == FunctionKind {
        AddDef(Def(e.name));
      } else if e.kind == NamespaceKind {
        var s := NewSubModule(e);
        AddSubModule(s);
      } else if e.kind == ClassKind {
        var c := new EarlyClass(e);
        AddClass(c.Value());
      }
      // Any other kind is ignored (the source prints an error message).
    }

    /** The constructors' loop over the children of a namespace or file. */
    method ProcessAll(e: Entity)
      requires Content() == ModuleContent([], [], [])
      modifies this
      ensures Content() == ContentOf(e.children)
      decreases e, 1
    {
      for i := 0 to |e.children|
        invariant Content() == ContentOf(e.children[..i])
      {
        assert e.children[..i + 1][..i] == e.children[..i];
        var child := e.children[i];
        assert child in e.children;
        Process(child);
      }
      assert e.children[..|e.children|] == e.children;
    }
  }

  /** `PB_SubModule(ns)`. */
  method NewSubModule(ns: Entity) returns (s: SubModule)
    ensures s == SubModuleSpec(ns)
    decreases ns, 2
  {
    var m := new EarlyModule(ns.name);
    m.ProcessAll(ns);
    s := SubModule(m.moduleName, m.Content());
  }

  /** `PB_File(file, lib_name)`: includes the file, and its root module `m` processes every
      top-level entity. */
  method NewFile(file: Entity, libName: string) returns (f: FileBinding)
    ensures f == FileSpec(file, libName)
    ensures f.includes == [file.name]
    ensures f.root.moduleName == "m" && f.root.libName == libName
  {
    var mod := new EarlyModule("m");
    var includes := [];
    includes := includes + [file.name];
    mod.ProcessAll(file);
    f := FileBinding(includes, RootModule(mod.moduleName, libName, mod.Content()));
  }

  // ---------------------------------------------------------------- emitted text

  function ConsLines(cs: seq<Cons>, p: string, super: string): (r: seq<string>)
    ensures |r| == |cs| && forall i :: 0 <= i < |cs| ==> r[i] == p + ConsLine(cs[i], super)
    decreases |cs|
  {
    if cs == [] then [] else ConsLines(cs[..|cs| - 1], p, super) + [p + ConsLine(cs[|cs| - 1], super)]
  }

  function MethLines(ms: seq<Meth>, p: string, super: string): (r: seq<string>)
    ensures |r| == |ms| && forall i :: 0 <= i < |ms| ==> r[i] == p + MethLine(ms[i], super)
    decreases |ms|
  {
    if ms == [] then [] else MethLines(ms[..|ms| - 1], p, super) + [p + MethLine(ms[|ms| - 1], super)]
  }

  function DefLines(ds: seq<Def>, p: string, super: string): (r: seq<string>)
    ensures |r| == |ds| && forall i :: 0 <= i < |ds| ==> r[i] == p + DefLine(ds[i], super)
    decreases |ds|
  {
    if ds == [] then [] else DefLines(ds[..|ds| - 1], p, super) + [p + DefLine(ds[|ds| - 1], super)]
  }

  /** The lines of `PB_Class::print_content`. */
  function ClassContentLines(c: ClassBinding, p: string): seq<string> {
    ConsLines(c.conss, p, c.name) + MethLines(c.meths, p, c.name)
  }

  /** Constructors come before methods, each in insertion order, all registered on the class;
      there is no implicit default constructor. */
  lemma ClassContentOrder(c: ClassBinding, p: string)
    ensures |ClassContentLines(c, p)| == |c.conss| + |c.meths|
    ensures forall i :: 0 <= i < |c.conss| ==> ClassContentLines(c, p)[i] == p + ConsLine(c.conss[i], c.name)
    ensures forall i :: 0 <= i < |c.meths| ==> ClassContentLines(c, p)[|c.conss| + i] == p + MethLine(c.meths[i], c.name)
  {
    var C, M := ConsLines(c.conss, p, c.name), MethLines(c.meths, p, c.name);
    assert ClassContentLines(c, p) == C + M;
  }

  /** The lines of `PB_Class::print`. */
  function ClassLines(c: ClassBinding, p: string, super: string): seq<string> {
    [p + ("py::class_<" + c.name + "> " + c.name + "(" + super + ", \"" + c.name + "\"); {")]
    + ClassContentLines(c, p + "  ")
    + [p + "}", ""]
  }

  function ClassBlocks(cs: seq<ClassBinding>, p: string, super: string): seq<string>
    decreases |cs|
  {
    if cs == [] then [] else ClassBlocks(cs[..|cs| - 1], p, super) + ClassLines(cs[|cs| - 1], p, super)
  }

  /** The lines of `PB_SubModule::print`. */
  function SubModuleLines(s: SubModule, p: string, super: string): seq<string>
    decreases s, 2
  {
    [ p + ("py::module " + s.moduleName + " = " + super + ".def_submodule(\"" + s.moduleName + "\"); {"),
      p + ("  using namespace " + s.moduleName + ";") ]
    + ContentLines(s.content, p + "  ", s.moduleName)
    + [p + "}", ""]
  }

  /** The lines of `PB_Module::print_content`: sub-modules, classes, then functions, all
      registered on the module. */
  function ContentLines(c: ModuleContent, p: string, name: string): seq<string>
    decreases c, 1
  {
    SubModuleBlocks(c.mods, p, name) + ClassBlocks(c.cls, p, name) + DefLines(c.defs, p, name)
  }

  function SubModuleBlocks(ms: seq<SubModule>, p: string, super: string): seq<string>
    decreases ms, 0
  {
    if ms == [] then [] else SubModuleBlocks(ms[..|ms| - 1], p, super) + SubModuleLines(ms[|ms| - 1], p, super)
  }

  /** The lines of `PB_RootModule::print`. */
  function RootLines(r: RootModule, p: string): seq<string> {
    [p + ("PYBIND11_MODULE(" + r.libName + ", " + r.moduleName + ") {")]
    + ContentLines(r.content, p + "  ", r.moduleName)
    + [p + "}", ""]
  }

  function IncludeLines(paths: seq<string>): (r: seq<string>)
    ensures |r| == |paths| && forall i :: 0 <= i < |paths| ==> r[i] == "#include \"" + paths[i] + "\""
    decreases |paths|
  {
    if paths == [] then [] else IncludeLines(paths[..|paths| - 1]) + ["#include \"" + paths[|paths| - 1] + "\""]
  }

  /** The lines of `PB_File::print`. */
  function FileLines(f: FileBinding): seq<string> {
    ["#include <pybind11/pybind11.h>", "namespace py = pybind11;", ""]
    + IncludeLines(f.includes) + [""]
    + RootLines(f.root, "")
  }

  /** The file printed for an entity tree: the two header lines, a blank line, one include of the
      file itself, a blank line, then the module block `PYBIND11_MODULE(<lib>, m) {`. */
  lemma FileHead(file: Entity, libName: string)
    ensures var out := FileLines(FileSpec(file, libName));
      && |out| >= 8
      && out[..5] == ["#include <pybind11/pybind11.h>", "namespace py = pybind11;", "", "#include \"" + file.name + "\"", ""]
      && out[5] == "" + ("PYBIND11_MODULE(" + libName + ", m) {")
      && out[|out| - 2..] == ["" + "}", ""]
  {
    var f := FileSpec(file, libName);
    var H := ["#include <pybind11/pybind11.h>", "namespace py = pybind11;", ""];
    var I := IncludeLines(f.includes);
    var R := RootLines(f.root, "");
    var out := FileLines(f);
    assert out == H + I + [""] + R;
    assert |I| == 1;
    assert R[0] == "" + ("PYBIND11_MODULE(" + libName + ", " + "m" + ") {");
    assert "PYBIND11_MODULE(" + libName + ", " + "m" + ") {" == "PYBIND11_MODULE(" + libName + ", m) {";
    assert out[|out| - 2..] == R[|R| - 2..];
  }

  // ---------------------------------------------------------------- printing, as the source does it

  /** `PB_Class::print_content`. */
  method PrintClassContent(c: ClassBinding, pr: Printer)
    modifies pr.sink
    ensures pr.sink.lines == old(pr.sink.lines) + ClassContentLines(c, pr.prefix)
  {
    ghost var s0 := pr.sink.lines;
    for i := 0 to |c.conss|
      invariant pr.sink.lines == s0 + ConsLines(c.conss[..i], pr.prefix, c.name)
    {
      assert c.conss[..i + 1][..i] == c.conss[..i];
      PrintCons(c.conss[i], pr, c.name);
    }
    assert c.conss[..|c.conss|] == c.conss;
    ghost var s1 := pr.sink.lines;
    for i := 0 to |c.meths|
      invariant pr.sink.lines == s1 + MethLines(c.meths[..i], pr.prefix, c.name)
    {
      assert c.meths[..i + 1][..i] == c.meths[..i];
      PrintMeth(c.meths[i], pr, c.name);
    }
    assert c.meths[..|c.meths|] == c.meths;
    AppendAssoc(s0, ConsLines(c.conss, pr.prefix, c.name), MethLines(c.meths, pr.prefix, c.name));
  }

  /** `PB_Class::print`. */
  method PrintClass(c: ClassBinding, pr: Printer, super: string)
    modifies pr.sink
    ensures pr.sink.lines == old(pr.sink.lines) + ClassLines(c, pr.prefix, super)
  {
    ghost var s0 := pr.sink.lines;
    pr.Line("py::class_<" + c.name + "> " + c.name + "(" + super + ", \"" + c.name + "\"); {");
    ghost var s1 := pr.sink.lines;
    PrintClassContent(c, pr.Plus("  "));
    ghost var s2 := pr.sink.lines;
    pr.Line("}");
    pr.Blank();
    ThreeSteps(s0, s1, s2, pr.sink.lines, s1[|s0|..], ClassContentLines(c, pr.prefix + "  "), [pr.prefix + "}", ""]);
  }

  method PrintClasses(cs: seq<ClassBinding>, pr: Printer, super: string)
    modifies pr.sink
    ensures pr.sink.lines == old(pr.sink.lines) + ClassBlocks(cs, pr.prefix, super)
  {
    ghost var start := pr.sink.lines;
    for i := 0 to |cs|
      invariant pr.sink.lines == start + ClassBlocks(cs[..i], pr.prefix, super)
    {
      assert cs[..i + 1][..i] == cs[..i];
      AppendAssoc(start, ClassBlocks(cs[..i], pr.prefix, super), ClassLines(cs[i], pr.prefix, super));
      PrintClass(cs[i], pr, super);
    }
    assert cs[..|cs|] == cs;
  }

  method PrintDefs(ds: seq<Def>, pr: Printer, super: string)
    modifies pr.sink
    ensures pr.sink.lines == old(pr.sink.lines) + DefLines(ds, pr.prefix, super)
  {
    ghost var start := pr.sink.lines;
    for i := 0 to |ds|
      invariant pr.sink.lines == start + DefLines(ds[..i], pr.prefix, super)
    {
      assert ds[..i + 1][..i] == ds[..i];
      PrintDef(ds[i], pr, super);
    }
    assert ds[..|ds|] == ds;
  }

  /** `PB_SubModule::print`. */
  method PrintSubModule(s: SubModule, pr: Printer, super: string)
    modifies pr.sink
    ensures pr.sink.lines == old(pr.sink.lines) + SubModuleLines(s, pr.prefix, super)
    decreases s, 2
  {
    ghost var s0 := pr.sink.lines;
    pr.Line("py::module " + s.moduleName + " = " + super + ".def_submodule(\"" + s.moduleName + "\"); {");
    pr.Line("  using namespace " + s.moduleName + ";");
    ghost var s1 := pr.sink.lines;
    PrintContent(s.content, pr.Plus("  "), s.moduleName);
    ghost var s2 := pr.sink.lines;
    pr.Line("}");
    pr.Blank();
    ThreeSteps(s0, s1, s2, pr.sink.lines, s1[|s0|..], ContentLines(s.content, pr.prefix + "  ", s.moduleName), [pr.prefix + "}", ""]);
  }

  /** `PB_Module::print_content`. */
  method PrintContent(c: ModuleContent, pr: Printer, name: string)
    modifies pr.sink
    ensures pr.sink.lines == old(pr.sink.lines) + ContentLines(c, pr.prefix, name)
    decreases c, 1
  {
    ghost var s0 := pr.sink.lines;
    PrintSubModules(c.mods, pr, name);
    ghost var s1 := pr.sink.lines;
    PrintClasses(c.cls, pr, name);
    ghost var s2 := pr.sink.lines;
    PrintDefs(c.defs, pr, name);
    ThreeSteps(s0, s1, s2, pr.sink.lines, SubModuleBlocks(c.mods, pr.prefix, name), ClassBlocks(c.cls, pr.prefix, name), DefLines(c.defs, pr.prefix, name));
  }

  method PrintSubModules(ms: seq<SubModule>, pr: Printer, super: string)
    modifies pr.sink
    ensures pr.sink.lines == old(pr.sink.lines) + SubModuleBlocks(ms, pr.prefix, super)
    decreases ms, 0
  {
    ghost var start := pr.sink.lines;
    for i := 0 to |ms|
      invariant pr.sink.lines == start + SubModuleBlocks(ms[..i], pr.prefix, super)
    {
      assert ms[..i + 1][..i] == ms[..i];
      AppendAssoc(start, SubModuleBlocks(ms[..i], pr.prefix, super), SubModuleLines(ms[i], pr.prefix, super));
      PrintSubModule(ms[i], pr, super);
    }
    assert ms[..|ms|] == ms;
  }

  /** `PB_RootModule::print`. */
  method PrintRoot(r: RootModule, pr: Printer)
    modifies pr.sink
    ensures pr.sink.lines == old(pr.sink.lines) + RootLines(r, pr.prefix)
  {
    ghost var s0 := pr.sink.lines;
    pr.Line("PYBIND11_MODULE(" + r.libName + ", " + r.moduleName + ") {");
    ghost var s1 := pr.sink.lines;
    PrintContent(r.content, pr.Plus("  "), r.moduleName);
    ghost var s2 := pr.sink.lines;
    pr.Line("}");
    pr.Blank();
    ThreeSteps(s0, s1, s2, pr.sink.lines, s1[|s0|..], ContentLines(r.content, pr.prefix + "  ", r.moduleName), [pr.prefix + "}", ""]);
  }

  /** `PB_File::print`: the header and include lines go straight to the stream, then the root
      module is printed with an empty prefix. */
  method PrintFile(f: FileBinding, out: Sink)
    modifies out
    ensures out.lines == old(out.lines) + FileLines(f)
  {
    ghost var s0 := out.lines;
    out.lines := out.lines + ["#include <pybind11/pybind11.h>"];
    ghost var s1 := out.lines;
    out.lines := out.lines + ["namespace py = pybind11;"];
    ghost var s2 := out.lines;
    out.lines := out.lines + [""];
    ghost var s3 := out.lines;
    ThreeLines(s0, s1, s2, s3, "#include <pybind11/pybind11.h>", "namespace py = pybind11;", "");
    for i := 0 to |f.includes|
      invariant out.lines == s3 + IncludeLines(f.includes[..i])
    {
      assert f.includes[..i + 1][..i] == f.includes[..i];
      AppendAssoc(s3, IncludeLines(f.includes[..i]), ["#include \"" + f.includes[i] + "\""]);
      out.lines := out.lines + ["#include \"" + f.includes[i] + "\""];
    }
    assert f.includes[..|f.includes|] == f.includes;
    ghost var s4 := out.lines;
    out.lines := out.lines + [""];
    ghost var s5 := out.lines;
    PrintRoot(f.root, Printer(out, ""));
    FourSteps(s0, s3, s4, s5, out.lines, s3[|s0|..], IncludeLines(f.includes), [""], RootLines(f.root, ""));
  }

  /** `process_file`: the file binding for library `example`, printed. */
  method ProcessFile(file: Entity) returns (out: seq<string>)
    ensures out == FileLines(FileSpec(file, "example"))
  {
    var sink := new Sink();
    var f := NewFile(file, "example");
    PrintFile(f, sink);
    out := sink.lines;
  }
}
