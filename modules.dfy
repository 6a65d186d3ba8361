/** `PB_Module` and its two kinds: a sub-module per C++ namespace (`PB_SubModule`) and the root
    module of a file (`PB_RootModule`), and `process_file`, which builds the root module of a
    file and prints the whole generated binding source. */
module Modules {
  import opened Text
  import opened Names
  import opened Cppast
  import opened Printing
  import opened Bindings
  import opened Classes

  /** What every module holds: sub-modules, free functions and classes, each in insertion order. */
  datatype ModuleContent = ModuleContent(mods: seq<SubModule>, defs: seq<Def>, cls: seq<ClassBinding>)

  /** `PB_SubModule`: the binding of one namespace, registered in its parent module. */
  datatype SubModule = SubModule(moduleName: Name, parent: Name, content: ModuleContent)

  /** `PB_RootModule`: the binding of one file. */
  datatype RootModule = RootModule(moduleName: Name, libName: string, includes: seq<string>, content: ModuleContent)

  const EmptyContent := ModuleContent([], [], [])

  /** The name the root module registers everything under. */
  const RootName := Plain("m")

  /** The library name `process_file` passes. */
  const LibName := "example"

  /** A child of a namespace or file can be processed: its classes and namespaces are buildable. */
  ghost predicate ChildWithin(idx: Index, e: Entity, depth: nat) {
    && (e.kind == ClassKind ==> BasesWithin(idx, e, depth))
    && (e.kind == NamespaceKind ==> ModulesWithin(idx, e, depth))
  }

  // ---------------------------------------------------------------- construction, as a specification

  /** `PB_Module::process`: functions, namespaces and classes are added; every other kind
      (variables included) is ignored. */
  ghost function ModuleStep(c: ModuleContent, owner: Name, e: Entity, idx: Index, depth: nat): ModuleContent
    requires ChildWithin(idx, e, depth)
    decreases e, 2, 0
  {
    match e.kind
    case FunctionKind => c.(defs := c.defs + [FunctionDef(e, owner)])
    case NamespaceKind => c.(mods := c.mods + [SubModuleSpec(e, owner, idx, depth)])
    case ClassKind => c.(cls := c.cls + [ClassSpec(e, owner, idx, depth)])
    case _ => c
  }

  /** The content after processing the first `n` children of `e` in a module named `owner`. */
  ghost function ContentUpTo(e: Entity, owner: Name, idx: Index, depth: nat, n: nat): ModuleContent
    requires n <= |e.children| && ModulesWithin(idx, e, depth)
    decreases e, 0, n
  {
    if n == 0 then EmptyContent
    else
      var child := e.children[n - 1];
      assert child in e.children;
      ModuleStep(ContentUpTo(e, owner, idx, depth, n - 1), owner, child, idx, depth)
  }

  /** `PB_SubModule(ns, parent, idx)`: named after the namespace, holding its processed children. */
  ghost function SubModuleSpec(ns: Entity, parent: Name, idx: Index, depth: nat): SubModule
    requires ModulesWithin(idx, ns, depth)
    decreases ns, 1, 0
  {
    SubModule(Plain(ns.name), parent, ContentUpTo(ns, Plain(ns.name), idx, depth, |ns.children|))
  }

  /** `PB_RootModule(file, lib_name, idx)`: named `m`, including the file, holding its processed
      top-level entities. */
  ghost function RootSpec(file: Entity, libName: string, idx: Index, depth: nat): RootModule
    requires ModulesWithin(idx, file, depth)
  {
    RootModule(RootName, libName, [file.name], ContentUpTo(file, RootName, idx, depth, |file.children|))
  }

  // ---------------------------------------------------------------- construction, as the source does it

  class PBModule {
    const moduleName: Name
    var mods: seq<SubModule>
    var defs: seq<Def>
    var cls: seq<ClassBinding>

    function Content(): ModuleContent
      reads this
    {
      ModuleContent(mods, defs, cls)
    }

    /** `PB_Module(module_name, idx)`: an empty module. */
    constructor (moduleName: Name)
      ensures this.moduleName == moduleName && Content() == EmptyContent
    {
      this.moduleName := moduleName;
      mods, defs, cls := [], [], [];
    }

    /** `add(PB_SubModule)`. */
    method AddSubModule(s: SubModule)
      modifies this
      ensures Content() == old(Content()).(mods := old(mods) + [s])
    {
      mods := mods + [s];
    }

    /** `add(PB_Def)`. */
    method AddDef(d: Def)
      modifies this
      ensures Content() == old(Content()).(defs := old(defs) + [d])
    {
      defs := defs + [d];
    }

    /** `add(PB_Class)`. */
    method AddClass(c: ClassBinding)
      modifies this
      ensures Content() == old(Content()).(cls := old(cls) + [c])
    {
      cls := cls + [c];
    }

    /** `PB_Module::process`. */
    method Process(e: Entity, idx: Index, ghost depth: nat)
      requires ChildWithin(idx, e, depth)
      modifies this
      ensures Content() == ModuleStep(old(Content()), moduleName, e, idx, depth)
      decreases e, 3
    {
      if e.kind == FunctionKind {
        AddDef(FunctionDef(e, moduleName));
      } else if e.kind == NamespaceKind {
        var s := NewSubModule(e, moduleName, idx, depth);
        AddSubModule(s);
      } else if e.kind == ClassKind {
        var c := new PBClass(e, moduleName, idx, depth);
        AddClass(c.Value());
      }
      // Any other kind is ignored (the source prints a warning).
    }

    /** The constructors' loop over the children of a namespace or file. */
    method ProcessAll(e: Entity, idx: Index, ghost depth: nat)
      requires ModulesWithin(idx, e, depth) && Content() == EmptyContent
      modifies this
      ensures Content() == ContentUpTo(e, moduleName, idx, depth, |e.children|)
      decreases e, 1
    {
      for i := 0 to |e.children|
        invariant Content() == ContentUpTo(e, moduleName, idx, depth, i)
      {
        var child := e.children[i];
        assert child in e.children;
        Process(child, idx, depth);
      }
    }
  }

  /** `PB_SubModule(ns, parent, idx)`. */
  method NewSubModule(ns: Entity, parent: Name, idx: Index, ghost depth: nat) returns (s: SubModule)
    requires ModulesWithin(idx, ns, depth)
    ensures s == SubModuleSpec(ns, parent, idx, depth)
    decreases ns, 2
  {
    var m := new PBModule(Plain(ns.name));
    m.ProcessAll(ns, idx, depth);
    s := SubModule(m.moduleName, parent, m.Content());
  }

  /** `PB_RootModule(file, lib_name, idx)`. */
  method NewRootModule(file: Entity, libName: string, idx: Index, ghost depth: nat) returns (r: RootModule)
    requires ModulesWithin(idx, file, depth)
    ensures r == RootSpec(file, libName, idx, depth)
  {
    var m := new PBModule(RootName);
    var includes := [];
    includes := includes + [file.name];
    m.ProcessAll(file, idx, depth);
    r := RootModule(m.moduleName, libName, includes, m.Content());
  }

  // ---------------------------------------------------------------- properties of construction

  /** Reference definitions: the children of one kind, each turned into its binding. */
  function DeclaredFunctions(children: seq<Entity>, owner: Name): (r: seq<Def>)
    ensures |r| <= |children|
    decreases |children|
  {
    if children == [] then []
    else
      var e := children[|children| - 1];
      DeclaredFunctions(children[..|children| - 1], owner) + (if e.kind == FunctionKind then [FunctionDef(e, owner)] else [])
  }

  ghost function DeclaredClasses(children: seq<Entity>, owner: Name, idx: Index, depth: nat): (r: seq<ClassBinding>)
    requires forall c <- children :: c.kind == ClassKind ==> BasesWithin(idx, c, depth)
    ensures |r| <= |children|
    decreases |children|
  {
    if children == [] then []
    else
      var e := children[|children| - 1];
      assert e in children;
      DeclaredClasses(children[..|children| - 1], owner, idx, depth)
      + (if e.kind == ClassKind then [ClassSpec(e, owner, idx, depth)] else [])
  }

  ghost function DeclaredNamespaces(children: seq<Entity>, owner: Name, idx: Index, depth: nat): (r: seq<SubModule>)
    requires forall c <- children :: c.kind == NamespaceKind ==> ModulesWithin(idx, c, depth)
    ensures |r| <= |children|
    decreases |children|
  {
    if children == [] then []
    else
      var e := children[|children| - 1];
      assert e in children;
      DeclaredNamespaces(children[..|children| - 1], owner, idx, depth)
      + (if e.kind == NamespaceKind then [SubModuleSpec(e, owner, idx, depth)] else [])
  }

  /** How many of the children are functions, namespaces or classes. */
  function BoundCount(children: seq<Entity>): nat
    decreases |children|
  {
    if children == [] then 0
    else
      var k := children[|children| - 1].kind;
      BoundCount(children[..|children| - 1]) + (if k == FunctionKind || k == NamespaceKind || k == ClassKind then 1 else 0)
  }

  /** The content after `n` children holds, kind by kind, exactly the bindings of the children of
      that kind, in order; every function, namespace and class child is bound once. */
  lemma ContentByKind(e: Entity, owner: Name, idx: Index, depth: nat, n: nat)
    requires n <= |e.children| && ModulesWithin(idx, e, depth)
    ensures var c := ContentUpTo(e, owner, idx, depth, n);
      && c.defs == DeclaredFunctions(e.children[..n], owner)
      && c.cls == DeclaredClasses(e.children[..n], owner, idx, depth)
      && c.mods == DeclaredNamespaces(e.children[..n], owner, idx, depth)
      && |c.defs| + |c.cls| + |c.mods| == BoundCount(e.children[..n])
  {
    FunctionsByKind(e, owner, idx, depth, n);
    ClassesByKind(e, owner, idx, depth, n);
    NamespacesByKind(e, owner, idx, depth, n);
    CountByKind(e, owner, idx, depth, n);
  }

  /** One child adds to the list of its own kind only. */
  lemma ModuleStepParts(c: ModuleContent, owner: Name, child: Entity, idx: Index, depth: nat)
    requires ChildWithin(idx, child, depth)
    ensures ModuleStep(c, owner, child, idx, depth).defs == c.defs + (if child.kind == FunctionKind then [FunctionDef(child, owner)] else [])
    ensures ModuleStep(c, owner, child, idx, depth).cls == c.cls + (if child.kind == ClassKind then [ClassSpec(child, owner, idx, depth)] else [])
    ensures ModuleStep(c, owner, child, idx, depth).mods == c.mods + (if child.kind == NamespaceKind then [SubModuleSpec(child, owner, idx, depth)] else [])
  {
  }

  lemma {:induction false} FunctionsByKind(e: Entity, owner: Name, idx: Index, depth: nat, n: nat)
    requires n <= |e.children| && ModulesWithin(idx, e, depth)
    ensures ContentUpTo(e, owner, idx, depth, n).defs == DeclaredFunctions(e.children[..n], owner)
    decreases n
  {
    if n > 0 {
      FunctionsByKind(e, owner, idx, depth, n - 1);
      var child := e.children[n - 1];
      assert e.children[..n][..n - 1] == e.children[..n - 1];
      assert e.children[..n][n - 1] == child;
      assert child in e.children;
      ModuleStepParts(ContentUpTo(e, owner, idx, depth, n - 1), owner, child, idx, depth);
    }
  }

  lemma {:induction false} ClassesByKind(e: Entity, owner: Name, idx: Index, depth: nat, n: nat)
    requires n <= |e.children| && ModulesWithin(idx, e, depth)
    ensures ContentUpTo(e, owner, idx, depth, n).cls == DeclaredClasses(e.children[..n], owner, idx, depth)
    decreases n
  {
    if n > 0 {
      ClassesByKind(e, owner, idx, depth, n - 1);
      var child := e.children[n - 1];
      assert e.children[..n][..n - 1] == e.children[..n - 1];
      assert e.children[..n][n - 1] == child;
      assert child in e.children;
      ModuleStepParts(ContentUpTo(e, owner, idx, depth, n - 1), owner, child, idx, depth);
    }
  }

  lemma {:induction false} NamespacesByKind(e: Entity, owner: Name, idx: Index, depth: nat, n: nat)
    requires n <= |e.children| && ModulesWithin(idx, e, depth)
    ensures ContentUpTo(e, owner, idx, depth, n).mods == DeclaredNamespaces(e.children[..n], owner, idx, depth)
    decreases n
  {
    if n > 0 {
      NamespacesByKind(e, owner, idx, depth, n - 1);
      var child := e.children[n - 1];
      assert e.children[..n][..n - 1] == e.children[..n - 1];
      assert e.children[..n][n - 1] == child;
      assert child in e.children;
      ModuleStepParts(ContentUpTo(e, owner, idx, depth, n - 1), owner, child, idx, depth);
    }
  }

  lemma {:induction false} CountByKind(e: Entity, owner: Name, idx: Index, depth: nat, n: nat)
    requires n <= |e.children| && ModulesWithin(idx, e, depth)
    ensures var c := ContentUpTo(e, owner, idx, depth, n);
      |c.defs| + |c.cls| + |c.mods| == BoundCount(e.children[..n])
    decreases n
  {
    if n > 0 {
      CountByKind(e, owner, idx, depth, n - 1);
      var child := e.children[n - 1];
      assert e.children[..n][..n - 1] == e.children[..n - 1];
      assert e.children[..n][n - 1] == child;
      assert child in e.children;
      ModuleStepParts(ContentUpTo(e, owner, idx, depth, n - 1), owner, child, idx, depth);
    }
  }

  /** A module holds exactly the bindings of its function, class and namespace children, each list
      in declaration order and registered under the module's name; every other child (variables
      included) adds nothing. */
  lemma ModuleContents(e: Entity, owner: Name, idx: Index, depth: nat)
    requires ModulesWithin(idx, e, depth)
    ensures var c := ContentUpTo(e, owner, idx, depth, |e.children|);
      && c.defs == DeclaredFunctions(e.children, owner)
      && c.cls == DeclaredClasses(e.children, owner, idx, depth)
      && c.mods == DeclaredNamespaces(e.children, owner, idx, depth)
      && |c.defs| + |c.cls| + |c.mods| == BoundCount(e.children)
  {
    ContentByKind(e, owner, idx, depth, |e.children|);
    assert e.children[..|e.children|] == e.children;
  }

  /** Every free function of a module is registered with `def` on that module. */
  lemma {:induction false} DeclaredFunctionsRegistered(children: seq<Entity>, owner: Name)
    ensures forall d <- DeclaredFunctions(children, owner) :: d.parent == owner && d.call == "def"
    decreases |children|
  {
    if children != [] {
      DeclaredFunctionsRegistered(children[..|children| - 1], owner);
    }
  }

  // ---------------------------------------------------------------- emitted text

  /** The lines of `PB_SubModule::print`. */
  function SubModuleLines(s: SubModule, p: string): seq<string>
    decreases s, 2
  {
    [ p + ("py::module " + s.moduleName.BindName() + " = " + s.parent.BindName()
           + ".def_submodule(\"" + s.moduleName.PyName() + "\"); {"),
      p + ("  using namespace " + s.moduleName.CppName() + ";") ]
    + ModuleContentLines(s.content, p + "  ")
    + [p + "}", ""]
  }

  /** The lines of `PB_Module::print_content`: sub-modules, then classes, then functions. */
  function ModuleContentLines(c: ModuleContent, p: string): seq<string>
    decreases c, 1
  {
    SubModuleBlocks(c.mods, p) + ClassBlocks(c.cls, p) + DefLines(c.defs, p)
  }

  function SubModuleBlocks(ms: seq<SubModule>, p: string): seq<string>
    decreases ms, 0
  {
    if ms == [] then [] else SubModuleBlocks(ms[..|ms| - 1], p) + SubModuleLines(ms[|ms| - 1], p)
  }

  /** The lines of `PB_SubModule::print_prelude`. */
  function SubPreludeLines(s: SubModule, p: string): seq<string>
    decreases s, 2
  {
    [p + ("namespace " + s.moduleName.BindName() + " {")] + PreludeContentLines(s.content, p + "  ") + [p + "}"]
  }

  /** The lines of `PB_Module::print_prelude_content`: sub-module preludes, then the trampolines of
      the module's classes. */
  function PreludeContentLines(c: ModuleContent, p: string): seq<string>
    decreases c, 1
  {
    SubPreludeBlocks(c.mods, p) + TrampolineBlocks(c.cls, p)
  }

  function SubPreludeBlocks(ms: seq<SubModule>, p: string): seq<string>
    decreases ms, 0
  {
    if ms == [] then [] else SubPreludeBlocks(ms[..|ms| - 1], p) + SubPreludeLines(ms[|ms| - 1], p)
  }

  function TrampolineBlocks(cs: seq<ClassBinding>, p: string): seq<string>
    decreases |cs|
  {
    if cs == [] then [] else TrampolineBlocks(cs[..|cs| - 1], p) + ClassTrampolineLines(cs[|cs| - 1], p)
  }

  /** The classes with their nested classes removed. */
  function WithoutNested(cs: seq<ClassBinding>): (r: seq<ClassBinding>)
    ensures |r| == |cs|
    decreases |cs|
  {
    if cs == [] then [] else WithoutNested(cs[..|cs| - 1]) + [cs[|cs| - 1].(cls := [])]
  }

  /** The prelude defines trampolines only for the classes held by the module itself: removing
      their nested classes changes nothing in it, so the trampoline that a nested class's
      declaration names is never defined. */
  lemma {:induction false} TrampolinesIgnoreNested(cs: seq<ClassBinding>, p: string)
    ensures TrampolineBlocks(cs, p) == TrampolineBlocks(WithoutNested(cs), p)
    decreases |cs|
  {
    if cs != [] {
      var n := |cs|;
      TrampolinesIgnoreNested(cs[..n - 1], p);
      var w := WithoutNested(cs);
      assert w[..n - 1] == WithoutNested(cs[..n - 1]);
      ClassTrampolineIgnoresNested(cs[n - 1], p);
    }
  }

  /** A class's trampoline does not depend on its nested classes. */
  lemma ClassTrampolineIgnoresNested(c: ClassBinding, p: string)
    ensures ClassTrampolineLines(c.(cls := []), p) == ClassTrampolineLines(c, p)
  {
  }

  function IncludeLines(paths: seq<string>, p: string): (r: seq<string>)
    ensures |r| == |paths|
    ensures forall i :: 0 <= i < |paths| ==> r[i] == p + ("#include \"" + paths[i] + "\"")
    decreases |paths|
  {
    if paths == [] then [] else IncludeLines(paths[..|paths| - 1], p) + [p + ("#include \"" + paths[|paths| - 1] + "\"")]
  }

  /** The lines of `PB_RootModule::print_prelude`. */
  function RootPreludeLines(r: RootModule, p: string): seq<string> {
    [p + "#include <pybind11/pybind11.h>", p + "namespace py = pybind11;", ""]
    + IncludeLines(r.includes, p) + [""]
    + PreludeContentLines(r.content, p) + [""]
  }

  /** The lines of `PB_RootModule::print_module`. */
  function RootModuleLines(r: RootModule, p: string): seq<string> {
    [p + ("PYBIND11_MODULE(" + r.libName + ", " + r.moduleName.BindName() + ") {")]
    + ModuleContentLines(r.content, p + "  ")
    + [p + "}", ""]
  }

  /** The lines of `PB_RootModule::print_file`. */
  function FileLines(r: RootModule, p: string): seq<string> {
    RootPreludeLines(r, p) + RootModuleLines(r, p)
  }

  /** Only classes with a method that needs a trampoline contribute to the prelude. */
  lemma {:induction false} TrampolineBlocksEmpty(cs: seq<ClassBinding>, p: string)
    ensures TrampolineBlocks(cs, p) == [] <==> forall i :: 0 <= i < |cs| ==> !AnyNeedsTrampoline(cs[i].meths)
    decreases |cs|
  {
    if cs != [] {
      TrampolineBlocksEmpty(cs[..|cs| - 1], p);
      ClassTrampolineShape(cs[|cs| - 1], p);
      assert forall i :: 0 <= i < |cs| - 1 ==> cs[..|cs| - 1][i] == cs[i];
    }
  }

  /** The layout of `print_file` under any prefix: the pybind11 header and namespace alias, a
      blank line, one include per included path, a blank line, the module prelude, a blank line;
      then the module block, opened with `PYBIND11_MODULE(<lib>, <module>) {` and closed by `}`
      and a blank line. */
  lemma FileLayout(r: RootModule, p: string)
    ensures |RootPreludeLines(r, p)| == 5 + |r.includes| + |PreludeContentLines(r.content, p)|
    ensures |FileLines(r, p)| == |RootPreludeLines(r, p)| + 3 + |ModuleContentLines(r.content, p + "  ")|
    ensures FileLines(r, p)[..3] == [p + "#include <pybind11/pybind11.h>", p + "namespace py = pybind11;", ""]
    ensures forall i :: 0 <= i < |r.includes| ==> FileLines(r, p)[3 + i] == p + ("#include \"" + r.includes[i] + "\"")
    ensures FileLines(r, p)[3 + |r.includes|] == ""
    ensures FileLines(r, p)[|RootPreludeLines(r, p)| - 1] == ""
    ensures FileLines(r, p)[|RootPreludeLines(r, p)|] == p + ("PYBIND11_MODULE(" + r.libName + ", " + r.moduleName.BindName() + ") {")
    ensures FileLines(r, p)[|FileLines(r, p)| - 2..] == [p + "}", ""]
  {
    var pre := RootPreludeLines(r, p);
    PreludeLayout(r, p);
    var mdl := RootModuleLines(r, p);
    var M := ModuleContentLines(r.content, p + "  ");
    assert mdl == [p + ("PYBIND11_MODULE(" + r.libName + ", " + r.moduleName.BindName() + ") {")] + M + [p + "}", ""];
    assert |mdl| == 3 + |M|;
    assert mdl[|mdl| - 2..] == [p + "}", ""];
    TwoBlocks(pre, mdl);
    assert FileLines(r, p) == pre + mdl;
    assert pre[..3] == FileLines(r, p)[..3];
    assert FileLines(r, p)[|FileLines(r, p)| - 2..] == (pre + mdl)[|pre| + |mdl| - 2..];
    assert (pre + mdl)[|pre|..] == mdl;
  }

  /** Where the header, the includes and the closing blank line sit in the prelude. */
  lemma PreludeLayout(r: RootModule, p: string)
    ensures |RootPreludeLines(r, p)| == 5 + |r.includes| + |PreludeContentLines(r.content, p)|
    ensures RootPreludeLines(r, p)[..3] == [p + "#include <pybind11/pybind11.h>", p + "namespace py = pybind11;", ""]
    ensures forall i :: 0 <= i < |r.includes| ==> RootPreludeLines(r, p)[3 + i] == p + ("#include \"" + r.includes[i] + "\"")
    ensures RootPreludeLines(r, p)[3 + |r.includes|] == ""
    ensures RootPreludeLines(r, p)[|RootPreludeLines(r, p)| - 1] == ""
  {
    var H := [p + "#include <pybind11/pybind11.h>", p + "namespace py = pybind11;", ""];
    var I, PC := IncludeLines(r.includes, p), PreludeContentLines(r.content, p);
    var pre := RootPreludeLines(r, p);
    assert pre == H + I + [""] + PC + [""];
    FiveBlocks(H, I, [""], PC, [""]);
    assert pre[..3] == H;
  }

  /** What `process_file` writes: the pybind11 header, the namespace alias, a blank line, an
      include of the bound file, a blank line; the prelude ends with a blank line right before the
      module block `PYBIND11_MODULE(example, PB__m) {`, and the output ends by closing that block. */
  lemma ProcessFileLayout(file: Entity, idx: Index, depth: nat)
    requires ModulesWithin(idx, file, depth)
    ensures var out := FileLines(RootSpec(file, LibName, idx, depth), "");
      var k := |RootPreludeLines(RootSpec(file, LibName, idx, depth), "")|;
      && k >= 6 && |out| >= k + 3
      && out[0] == "#include <pybind11/pybind11.h>"
      && out[1] == "namespace py = pybind11;"
      && out[2] == ""
      && out[3] == "#include \"" + file.name + "\""
      && out[4] == ""
      && out[k - 1] == ""
      && out[k] == "PYBIND11_MODULE(example, PB__m) {"
      && out[|out| - 2] == "}" && out[|out| - 1] == ""
  {
    var r := RootSpec(file, LibName, idx, depth);
    FileLayout(r, "");
    var out := FileLines(r, "");
    assert out[0] == "" + "#include <pybind11/pybind11.h>";
    assert out[1] == "" + "namespace py = pybind11;";
    assert r.includes[0] == file.name;
    assert out[3] == "" + ("#include \"" + file.name + "\"");
    assert r.moduleName.BindName() == "PB__m";
    assert out[|RootPreludeLines(r, "")|] == "" + ("PYBIND11_MODULE(" + "example" + ", " + "PB__m" + ") {");
    assert out[|out| - 2] == "" + "}";
  }

  // ---------------------------------------------------------------- printing, as the source does it

  /** `PB_SubModule::print`. */
  method PrintSubModule(s: SubModule, pr: Printer)
    modifies pr.sink
    ensures pr.sink.lines == old(pr.sink.lines) + SubModuleLines(s, pr.prefix)
    decreases s, 2
  {
    ghost var s0 := pr.sink.lines;
    pr.Line("py::module " + s.moduleName.BindName() + " = " + s.parent.BindName()
            + ".def_submodule(\"" + s.moduleName.PyName() + "\"); {");
    pr.Line("  using namespace " + s.moduleName.CppName() + ";");
    ghost var s1 := pr.sink.lines;
    PrintModuleContent(s.content, pr.Plus("  "));
    ghost var s2 := pr.sink.lines;
    pr.Line("}");
    pr.Blank();
    ThreeSteps(s0, s1, s2, pr.sink.lines, s1[|s0|..], ModuleContentLines(s.content, pr.prefix + "  "), [pr.prefix + "}", ""]);
  }

  /** `PB_Module::print_content`. */
  method PrintModuleContent(c: ModuleContent, pr: Printer)
    modifies pr.sink
    ensures pr.sink.lines == old(pr.sink.lines) + ModuleContentLines(c, pr.prefix)
    decreases c, 1
  {
    ghost var s0 := pr.sink.lines;
    PrintSubModules(c.mods, pr);
    ghost var s1 := pr.sink.lines;
    PrintClassList(c.cls, pr);
    ghost var s2 := pr.sink.lines;
    PrintDefList(c.defs, pr);
    ThreeSteps(s0, s1, s2, pr.sink.lines, SubModuleBlocks(c.mods, pr.prefix), ClassBlocks(c.cls, pr.prefix), DefLines(c.defs, pr.prefix));
  }

  method PrintSubModules(ms: seq<SubModule>, pr: Printer)
    modifies pr.sink
    ensures pr.sink.lines == old(pr.sink.lines) + SubModuleBlocks(ms, pr.prefix)
    decreases ms, 0
  {
    ghost var start := pr.sink.lines;
    for i := 0 to |ms|
      invariant pr.sink.lines == start + SubModuleBlocks(ms[..i], pr.prefix)
    {
      assert ms[..i + 1][..i] == ms[..i];
      AppendAssoc(start, SubModuleBlocks(ms[..i], pr.prefix), SubModuleLines(ms[i], pr.prefix));
      PrintSubModule(ms[i], pr);
    }
    assert ms[..|ms|] == ms;
  }

  /** `PB_SubModule::print_prelude`. */
  method PrintSubPrelude(s: SubModule, pr: Printer)
    modifies pr.sink
    ensures pr.sink.lines == old(pr.sink.lines) + SubPreludeLines(s, pr.prefix)
    decreases s, 2
  {
    ghost var s0 := pr.sink.lines;
    pr.Line("namespace " + s.moduleName.BindName() + " {");
    ghost var s1 := pr.sink.lines;
    PrintPreludeContent(s.content, pr.Plus("  "));
    ghost var s2 := pr.sink.lines;
    pr.Line("}");
    ThreeSteps(s0, s1, s2, pr.sink.lines, s1[|s0|..], PreludeContentLines(s.content, pr.prefix + "  "), [pr.prefix + "}"]);
  }

  /** `PB_Module::print_prelude_content`. */
  method PrintPreludeContent(c: ModuleContent, pr: Printer)
    modifies pr.sink
    ensures pr.sink.lines == old(pr.sink.lines) + PreludeContentLines(c, pr.prefix)
    decreases c, 1
  {
    ghost var s0 := pr.sink.lines;
    PrintSubPreludes(c.mods, pr);
    ghost var s1 := pr.sink.lines;
    PrintTrampolineBlocks(c.cls, pr);
    AppendAssoc(s0, SubPreludeBlocks(c.mods, pr.prefix), TrampolineBlocks(c.cls, pr.prefix));
  }

  method PrintSubPreludes(ms: seq<SubModule>, pr: Printer)
    modifies pr.sink
    ensures pr.sink.lines == old(pr.sink.lines) + SubPreludeBlocks(ms, pr.prefix)
    decreases ms, 0
  {
    ghost var start := pr.sink.lines;
    for i := 0 to |ms|
      invariant pr.sink.lines == start + SubPreludeBlocks(ms[..i], pr.prefix)
    {
      assert ms[..i + 1][..i] == ms[..i];
      AppendAssoc(start, SubPreludeBlocks(ms[..i], pr.prefix), SubPreludeLines(ms[i], pr.prefix));
      PrintSubPrelude(ms[i], pr);
    }
    assert ms[..|ms|] == ms;
  }

  method PrintTrampolineBlocks(cs: seq<ClassBinding>, pr: Printer)
    modifies pr.sink
    ensures pr.sink.lines == old(pr.sink.lines) + TrampolineBlocks(cs, pr.prefix)
  {
    ghost var start := pr.sink.lines;
    for i := 0 to |cs|
      invariant pr.sink.lines == start + TrampolineBlocks(cs[..i], pr.prefix)
    {
      assert cs[..i + 1][..i] == cs[..i];
      AppendAssoc(start, TrampolineBlocks(cs[..i], pr.prefix), ClassTrampolineLines(cs[i], pr.prefix));
      PrintClassTrampoline(cs[i], pr);
    }
    assert cs[..|cs|] == cs;
  }

  method PrintIncludes(paths: seq<string>, pr: Printer)
    modifies pr.sink
    ensures pr.sink.lines == old(pr.sink.lines) + IncludeLines(paths, pr.prefix)
  {
    ghost var start := pr.sink.lines;
    for i := 0 to |paths|
      invariant pr.sink.lines == start + IncludeLines(paths[..i], pr.prefix)
    {
      assert paths[..i + 1][..i] == paths[..i];
      pr.Line("#include \"" + paths[i] + "\"");
    }
    assert paths[..|paths|] == paths;
  }

  /** `PB_RootModule::print_prelude`. */
  method PrintRootPrelude(r: RootModule, pr: Printer)
    modifies pr.sink
    ensures pr.sink.lines == old(pr.sink.lines) + RootPreludeLines(r, pr.prefix)
  {
    ghost var s0 := pr.sink.lines;
    pr.Line("#include <pybind11/pybind11.h>");
    ghost var s1 := pr.sink.lines;
    pr.Line("namespace py = pybind11;");
    ghost var s2 := pr.sink.lines;
    pr.Blank();
    ghost var s3 := pr.sink.lines;
    ThreeLines(s0, s1, s2, s3, pr.prefix + "#include <pybind11/pybind11.h>", pr.prefix + "namespace py = pybind11;", "");
    PrintIncludes(r.includes, pr);
    ghost var s4 := pr.sink.lines;
    pr.Blank();
    ghost var s5 := pr.sink.lines;
    PrintPreludeContent(r.content, pr);
    ghost var s6 := pr.sink.lines;
    pr.Blank();
    FiveSteps(s0, s3, s4, s5, s6, pr.sink.lines, s3[|s0|..], IncludeLines(r.includes, pr.prefix), [""],
              PreludeContentLines(r.content, pr.prefix), [""]);
  }

  /** `PB_RootModule::print_module`. */
  method PrintRootModule(r: RootModule, pr: Printer)
    modifies pr.sink
    ensures pr.sink.lines == old(pr.sink.lines) + RootModuleLines(r, pr.prefix)
  {
    ghost var s0 := pr.sink.lines;
    pr.Line("PYBIND11_MODULE(" + r.libName + ", " + r.moduleName.BindName() + ") {");
    ghost var s1 := pr.sink.lines;
    PrintModuleContent(r.content, pr.Plus("  "));
    ghost var s2 := pr.sink.lines;
    pr.Line("}");
    pr.Blank();
    ThreeSteps(s0, s1, s2, pr.sink.lines, s1[|s0|..], ModuleContentLines(r.content, pr.prefix + "  "), [pr.prefix + "}", ""]);
  }

  /** `PB_RootModule::print_file`: the prelude, then the module block. */
  method PrintFile(r: RootModule, pr: Printer)
    modifies pr.sink
    ensures pr.sink.lines == old(pr.sink.lines) + FileLines(r, pr.prefix)
  {
    ghost var s0 := pr.sink.lines;
    PrintRootPrelude(r, pr);
    PrintRootModule(r, pr);
    AppendAssoc(s0, RootPreludeLines(r, pr.prefix), RootModuleLines(r, pr.prefix));
  }

  /** `process_file`: the root module of the file, for library `example`, printed with an empty
      prefix; the result is every line written to the output stream. */
  method ProcessFile(file: Entity, idx: Index, ghost depth: nat) returns (out: seq<string>)
    requires ModulesWithin(idx, file, depth)
    ensures out == FileLines(RootSpec(file, LibName, idx, depth), "")
  {
    var sink := new Sink();
    var root := NewRootModule(file, LibName, idx, depth);
    PrintFile(root, Printer(sink, ""));
    out := sink.lines;
  }
}
