# cppast-pybind binding generator, modelled in Dafny

The repository generates pybind11 registration code from a C++ header parsed by cppast. It
walks the parsed entity tree (files, namespaces, classes, functions, variables, constructors) and
writes C++ source text that registers every bound entity with pybind11. It also emits
"trampoline" structs so that Python subclasses can override virtual methods. This project models
three parts of it:

- **The current engine** (`bind/pb.cpp`), in these modules:
  - `Names`: scoped names.
  - `Printing`: the line printer.
  - `Bindings`: the definition, method and constructor nodes and their emitted lines.
  - `Classes`: the class binding. Its builder inherits the members of base classes and
    deduplicates methods by signature. The module also covers its declaration, body and
    trampoline text.
  - `Modules`: sub-modules per namespace, the root module per file, and `process_file`.
- **The earlier engine** (`bind/main.cpp`), in module `Early`. Names are plain strings there, and
  classes bind only methods and constructors.
- **The astdump front end** (`src/astdump/parse_functions.cpp`), in module `Astdump`. It reads
  clang's JSON dump and covers locations, global ids, comment flattening, the range check of
  unexposed entities, and `parse_entity` with its two exception handlers.

`Cppast` holds the entity tree that the generator walks. `Text` holds joins and decimal
rendering.

Every builder the source mutates is a Dafny class:

- `PB_Class` is `Classes.PBClass`.
- `PB_Module` is `Modules.PBModule`.
- The early engine's `PB_Class` and `PB_Module` are `Early.EarlyClass` and `Early.EarlyModule`.
- `parse_context` is `Astdump.ParseContext`.

Each of these methods states its new state as a function of the old state. Each builder
constructor is proved equal to a recursive specification function (`ClassSpec`, `ContentUpTo`,
`SubModuleSpec`, `RootSpec`); the lemmas are stated about those functions.

A finished binding is copied by value into its parent, so it is a datatype. Every print method
appends to a `Sink` of output lines. It is proved to append exactly the lines of a pure
function, and the layout lemmas are stated about those functions.

The entity index of cppast is a map from ids to entities. A ghost bound `depth` on the chains of
base classes stands for "the inheritance graph is resolvable and acyclic"
(`Cppast.BasesWithin`). This is what makes building a class terminate.

## Model

| member | source | states |
|---|---|---|
| Names.Name.AsScope | bind/pb.cpp:42-45 | An auto-scoped name passes its own scope on to its children; any other name passes its qualified name followed by `::`. |
| Names.Name.Child | bind/pb.cpp:55-57 | `parent + son` has simple name `son`, is never auto-scoped, and its qualified name is the parent's scope for children followed by `son`. |
| Names.ChildOfNamed | bind/pb.cpp:42-57 | A child of a named parent is qualified by the parent's full qualified name and `::`. |
| Names.ChildOfAutoScope | bind/pb.cpp:42-57 | A child of an auto-scoped root adds no qualifier. The child of that child is qualified by it. |
| Names.ChildQualifiedInjective | bind/pb.cpp:34-57 | Two children of one parent with the same qualified name have the same simple name. |
| Printing.Printer.Plus | bind/pb.cpp:14-16 | `pr + str` writes to the same stream, with `str` appended to the prefix. |
| Printing.Printer.Line | bind/pb.cpp:22-24 | `line(str)` appends exactly one line, the prefix followed by `str`. |
| Printing.Printer.Blank | bind/pb.cpp:18-20 | `line()` appends one empty line and does not write the prefix. |
| Printing.PlusCompose | bind/pb.cpp:14-16 | Adding two prefixes in turn equals adding their concatenation, so nested indentation composes. |
| Text.JoinLength | bind/pb.cpp:159-166 | A ", "-joined parameter list is as long as the parts plus one separator between each consecutive pair. |
| Text.JoinEndsWithLast | bind/pb.cpp:159-166 | No separator follows the last part. |
| Text.NatToString | bind/pb.cpp:122 | The decimal rendering of an argument index is non-empty and made of digits only. |
| Text.NatToStringInjective | bind/pb.cpp:121-123 | Different indices render differently. |
| Bindings.NewDef | bind/pb.cpp:61 | A plain definition registers the child `parent + name` with `def`, in `parent`. |
| Bindings.FunctionDef | bind/pb.cpp:63 | A free function is always registered with `def` under its own name in the enclosing scope. |
| Bindings.MemberVariableDef | bind/pb.cpp:65-72 | A data member uses `def_readonly` exactly when its type is const at the top level, and `def_readwrite` otherwise; it is never static. |
| Bindings.VariableDef | bind/pb.cpp:74-90 | The call is one of the four field calls. It is read-only exactly when the type is const at the top level, and `_static` exactly when the storage class is static. |
| Bindings.MethOf | bind/pb.cpp:98-115 | A method keeps the return type, the parameter texts and the four virtual flags (virtual, pure, override, final) of the function. It needs a trampoline exactly when it is virtual or overriding, and not final. |
| Bindings.SameSigEquivalence | bind/pb.cpp:145-147 | Signature equality is reflexive, symmetric and transitive. |
| Bindings.ConsOf | bind/pb.cpp:153-157 | A constructor binding keeps the parameter type texts in order and belongs to the given class. |
| Bindings.DefaultCons | bind/pb.cpp:151 | The implicit constructor has no parameters. |
| Bindings.DefaultConsLine | bind/pb.cpp:168-170 | The implicit constructor registers `py::init<>()` with an empty template argument list. |
| Bindings.PrintDef | bind/pb.cpp:92-94 | Printing a definition appends its one registration line under the printer's prefix. |
| Bindings.StrParams | bind/pb.cpp:159-166 | The loop produces the parameter texts with ", " between consecutive ones and nowhere else. |
| Bindings.PrintCons | bind/pb.cpp:168-170 | Printing a constructor appends its one `py::init<...>` line. |
| Bindings.NamedArgs | bind/pb.cpp:120-123 | There is one declared parameter per parameter type. |
| Bindings.NamedArgsAt | bind/pb.cpp:120-123 | The k-th declared parameter is the k-th type text followed by ` arg_<k>`. |
| Bindings.NamedArgsDistinct | bind/pb.cpp:120-123 | No two declared parameters of a forwarding method have the same text. |
| Bindings.ArgLinesAt | bind/pb.cpp:136-138 | The k-th forwarding line passes `arg_<k>`. |
| Bindings.MethTrampolineShape | bind/pb.cpp:117-143 | A forwarding method is emitted exactly for methods that need a trampoline. It has nine lines plus one per parameter, and uses the pure macro exactly for pure methods. |
| Bindings.BuildTrampolineDecl | bind/pb.cpp:120-124 | The index loop builds the head `ret name(T0 arg_0, ...) override`, that is, the ", "-join of the named arguments. |
| Bindings.PrintArgLines | bind/pb.cpp:136-138 | The loop appends one `, arg_<k>` line per parameter, in order. |
| Bindings.PrintTrampolineHead | bind/pb.cpp:126-131 | Appends the head, the override macro, the return type, the parent class and the function name. |
| Bindings.PrintMethTrampoline | bind/pb.cpp:117-143 | `print_trampoline` appends exactly the lines of the forwarding method, and nothing when none is needed. |
| Classes.Erased | bind/pb.cpp:196 | `erase_if` keeps exactly the methods whose signature differs from the new method's. |
| Classes.ErasedAppend | bind/pb.cpp:196 | Erasing preserves relative order: erasing from a concatenation erases from each part in place. |
| Classes.ErasedNoMatch | bind/pb.cpp:196 | Erasing a signature that no method has changes nothing. |
| Classes.AddedMeth | bind/pb.cpp:195-198 | After `add(m)`, the last method is `m`, and the list grew by at most one. |
| Classes.AddedMethContents | bind/pb.cpp:195-198 | After `add(m)`, no earlier method shares `m`'s signature, and every method of another signature is kept. Nothing but `m` is new. |
| Classes.ErasedUnique | bind/pb.cpp:196 | Erasing keeps a list free of duplicate signatures. |
| Classes.AddedMethUnique | bind/pb.cpp:195-198 | `add(m)` keeps the method list free of duplicate signatures. |
| Classes.AddedMethsUnique | bind/pb.cpp:189-198 | Adding a base's methods one by one keeps the list free of duplicate signatures. |
| Classes.AddedMethNoMatch | bind/pb.cpp:195-198 | Adding a method whose signature is new simply appends it. |
| Classes.AddedMethsToEmpty | bind/pb.cpp:189-198 | Adding methods with pairwise distinct signatures to an empty class keeps all of them, in order. |
| Classes.EmptyClass | bind/pb.cpp:174 | A class binding starts empty, named `parent + cl.name()` and registered in `parent`. |
| Classes.ClassSpec | bind/pb.cpp:174-184 | The built class is named `parent + cl.name()`. |
| Classes.InheritedUpTo | bind/pb.cpp:175-179 | During the base loop, the name is fixed and no constructor has been added. |
| Classes.InheritStep | bind/pb.cpp:176-191 | Inheriting one base keeps the name and the constructors. |
| Classes.ProcessedUpTo | bind/pb.cpp:181-183 | During the child loop, the name is fixed. |
| Classes.ProcessStep | bind/pb.cpp:203-217 | Processing one child keeps the name. |
| Classes.PBClass.constructor | bind/pb.cpp:174-184 | Inherits every base in order, then processes every child in order, and builds exactly `ClassSpec`. |
| Classes.PBClass.Inherit | bind/pb.cpp:186-191 | Builds the base anchored at `Name()`. Its members and nested classes are appended, and its methods are added through `add`. |
| Classes.PBClass.AddDefs | bind/pb.cpp:188 | Appends every data member of the base, in order. |
| Classes.PBClass.AddMeths | bind/pb.cpp:189 | Adds every method of the base through `add`, in order. |
| Classes.PBClass.AddClasses | bind/pb.cpp:190 | Appends every nested class of the base, in order. |
| Classes.PBClass.AddDef | bind/pb.cpp:193 | Appends one data member; nothing else changes. |
| Classes.PBClass.AddMeth | bind/pb.cpp:195-198 | Erases the methods with the new method's signature, then appends it; nothing else changes. |
| Classes.PBClass.AddCons | bind/pb.cpp:200 | Appends one constructor; nothing else changes. |
| Classes.PBClass.AddClass | bind/pb.cpp:201 | Appends one nested class; nothing else changes. |
| Classes.PBClass.Process | bind/pb.cpp:203-217 | Dispatches one child by kind, as `ProcessStep` does. Every other kind leaves the class unchanged. |
| Classes.InheritedUnique | bind/pb.cpp:175-198 | After any number of bases, no two methods share a signature. |
| Classes.ProcessedUnique | bind/pb.cpp:181-205 | After any number of children, no two methods share a signature. |
| Classes.ClassMethodsUnique | bind/pb.cpp:174-198 | A built class never holds two methods with the same signature. |
| Classes.DeclaredConss | bind/pb.cpp:206-207 | Reference definition: the constructor children in declaration order, at most one per child. |
| Classes.ProcessedConss | bind/pb.cpp:181-207 | After `n` children, the constructors are exactly the declared constructors among them. |
| Classes.ClassConstructors | bind/pb.cpp:174-207 | A class's constructors are exactly its own declared ones, in order. None is inherited or deduplicated. |
| Classes.InheritOnly | bind/pb.cpp:186-191 | A class with one base and no members of its own gets the base's members, methods and nested classes unchanged and in order. They are not re-parented. |
| Classes.AnyNeedsTrampoline | bind/pb.cpp:248-250 | A class needs a trampoline exactly when some method needs one. |
| Classes.ConsLines | bind/pb.cpp:223-225 | One line per constructor, each that constructor's `py::init` line. |
| Classes.DefLines | bind/pb.cpp:226-228 | One line per data member, each its registration line. |
| Classes.MethLines | bind/pb.cpp:229-231 | One line per method. A method prints its definition line, because it does not override `PB_Def::print`. |
| Classes.ContentLayout | bind/pb.cpp:219-235 | The class body has the constructors, or a single default `py::init<>()` when there are none, then data members, methods and nested classes, each block in insertion order. |
| Classes.MethsTrampolineSize | bind/pb.cpp:263-266 | The forwarding methods take nine lines plus one per parameter for each method that needs one. They are empty exactly when no method needs one. |
| Classes.ClassTrampolineShape | bind/pb.cpp:256-269 | A trampoline struct is emitted exactly for classes that need one, and it has five lines besides its forwarding methods. |
| Classes.BuildClassDecl | bind/pb.cpp:238-241 | The declaration loop lists the class, every base in order, and the trampoline exactly when one is needed. |
| Classes.PrintClass | bind/pb.cpp:237-246 | Appends exactly the declaration line, the indented body, `}` and a blank line. |
| Classes.PrintContent | bind/pb.cpp:219-235 | Appends exactly the lines of the class body. |
| Classes.PrintInit | bind/pb.cpp:220-222 | Appends the default constructor exactly when the class has no constructor. |
| Classes.DeclNamesTrampoline | bind/pb.cpp:236-241 | A class with a method that needs a trampoline names `Tr<bind name>` in its declaration, at a fixed position after its bases, whether it is nested or not. |
| Classes.PrintClassList | bind/pb.cpp:232-234 | Appends every nested class's block, in order. |
| Classes.PrintConsList | bind/pb.cpp:223-225 | Appends every constructor line, in order. |
| Classes.PrintDefList | bind/pb.cpp:226-228 | Appends every data member line, in order. |
| Classes.PrintMethDefs | bind/pb.cpp:229-231 | Appends every method line, in order. |
| Classes.PrintMethsTrampolines | bind/pb.cpp:263-266 | Appends every method's forwarding lines, in order. |
| Classes.PrintClassTrampoline | bind/pb.cpp:256-269 | Appends exactly the trampoline struct, or nothing when no method needs one. |
| Modules.PBModule.constructor | bind/pb.cpp:273 | A new module has the given name and no content. |
| Modules.PBModule.AddSubModule | bind/pb.cpp:299 | Appends one sub-module; nothing else changes. |
| Modules.PBModule.AddDef | bind/pb.cpp:300 | Appends one function; nothing else changes. |
| Modules.PBModule.AddClass | bind/pb.cpp:301 | Appends one class; nothing else changes. |
| Modules.PBModule.Process | bind/pb.cpp:303-316 | Functions, namespaces and classes are added to their own list. Every other kind, variables included, changes nothing. |
| Modules.PBModule.ProcessAll | bind/pb.cpp:321-323 | Processing every child in order builds `ContentUpTo` over all children. |
| Modules.NewSubModule | bind/pb.cpp:320-324 | A namespace becomes a sub-module named after it, holding its processed children. |
| Modules.NewRootModule | bind/pb.cpp:351-357 | A file becomes module `m`, which includes the file and holds its processed top-level entities. |
| Modules.DeclaredFunctions | bind/pb.cpp:304-305 | Reference definition: the function children, each bound with `def`, at most one per child. |
| Modules.DeclaredClasses | bind/pb.cpp:308-309 | Reference definition: the class children, each built as a class binding. |
| Modules.DeclaredNamespaces | bind/pb.cpp:306-307 | Reference definition: the namespace children, each built as a sub-module. |
| Modules.ContentByKind | bind/pb.cpp:303-316 | After `n` children, each list holds exactly the bindings of the children of its kind, in order. Every function, class and namespace is bound once. |
| Modules.FunctionsByKind | bind/pb.cpp:304-305 | After `n` children, the functions are exactly the declared function children. |
| Modules.ClassesByKind | bind/pb.cpp:308-309 | After `n` children, the classes are exactly the declared class children. |
| Modules.NamespacesByKind | bind/pb.cpp:306-307 | After `n` children, the sub-modules are exactly the declared namespace children. |
| Modules.CountByKind | bind/pb.cpp:303-316 | After `n` children, the module holds one entry per function, class or namespace child. |
| Modules.ModuleContents | bind/pb.cpp:303-324 | A module holds exactly the bindings of its function, class and namespace children, in declaration order; nothing else. |
| Modules.DeclaredFunctionsRegistered | bind/pb.cpp:304-305 | Every free function is registered with `def` on its own module. |
| Modules.IncludeLines | bind/pb.cpp:364-366 | One `#include "<path>"` line per included path, in order. |
| Modules.TrampolinesIgnoreNested | bind/pb.cpp:294-296 | The prelude's trampolines are the same when every class's nested classes are removed: a nested class's trampoline is never defined there. |
| Modules.TrampolineBlocksEmpty | bind/pb.cpp:294-296 | The prelude gets trampolines exactly from classes with a method that needs one. |
| Modules.FileLayout | bind/pb.cpp:359-376 | The layout of `print_file`, in order: header, alias, blank line, includes, blank line, prelude, blank line. Then the `PYBIND11_MODULE` block, closed by `}` and a blank line. |
| Modules.PreludeLayout | bind/pb.cpp:359-371 | Where the header, the includes and the closing blank line sit within the prelude. |
| Modules.ProcessFileLayout | bind/pb.cpp:380-382 | The output of `process_file` starts with the pybind11 header and the include of the bound file. The module block `PYBIND11_MODULE(example, PB__m) {` follows the prelude's blank line, and the output ends by closing it. |
| Modules.PrintSubModule | bind/pb.cpp:332-338 | Appends the `def_submodule` line, the `using namespace` line, the indented content, `}` and a blank line. |
| Modules.PrintModuleContent | bind/pb.cpp:275-287 | Appends sub-modules, then classes, then functions. |
| Modules.PrintSubModules | bind/pb.cpp:276-278 | Appends every sub-module's block, in order. |
| Modules.PrintSubPrelude | bind/pb.cpp:326-330 | Appends the namespace wrapper around the indented prelude content. |
| Modules.PrintPreludeContent | bind/pb.cpp:289-297 | Appends the sub-module preludes, then the trampolines of the module's own classes. |
| Modules.PrintSubPreludes | bind/pb.cpp:290-292 | Appends every sub-module's prelude, in order. |
| Modules.PrintTrampolineBlocks | bind/pb.cpp:294-296 | Appends every class's trampoline, in order. |
| Modules.PrintIncludes | bind/pb.cpp:364-366 | Appends one include line per path. |
| Modules.PrintRootPrelude | bind/pb.cpp:359-371 | Appends exactly the root prelude. |
| Modules.PrintRootModule | bind/pb.cpp:342-347 | Appends the `PYBIND11_MODULE` block. |
| Modules.PrintFile | bind/pb.cpp:373-376 | Appends the prelude, then the module block. |
| Modules.ProcessFile | bind/pb.cpp:380-382 | The output is exactly the file text of the root module of library `example`, printed without a prefix. |
| Early.MethLineQualified | bind/main.cpp:55-65 | A method line differs from a function line only in qualifying the member pointer with the enclosing scope. |
| Early.StrParams | bind/main.cpp:77-84 | The loop produces the ", "-join of the parameter texts. |
| Early.PrintDef | bind/main.cpp:55-57 | Appends the function's registration line on the enclosing module. |
| Early.PrintMeth | bind/main.cpp:63-65 | Appends the method's registration line on the enclosing class. |
| Early.PrintCons | bind/main.cpp:86-88 | Appends the constructor's `py::init` line. |
| Early.DeclaredMeths | bind/main.cpp:103-104 | Reference definition: the member function children, in order. |
| Early.DeclaredConss | bind/main.cpp:105-106 | Reference definition: the constructor children, in order. |
| Early.ClassCounts | bind/main.cpp:102-116 | A class holds one method per member function and one constructor per constructor. A class without either holds nothing. |
| Early.DeclaredSubModules | bind/main.cpp:233-234 | Reference definition: the namespace children as sub-modules. |
| Early.DeclaredDefs | bind/main.cpp:231-232 | Reference definition: the function children as definitions. |
| Early.DeclaredClasses | bind/main.cpp:235-236 | Reference definition: the class children as class bindings. |
| Early.ModuleCounts | bind/main.cpp:230-240 | A module holds one entry per function, namespace and class child; nothing else. |
| Early.EarlyClass.constructor | bind/main.cpp:112-116 | Processing every child builds exactly the methods and constructors among them. |
| Early.EarlyClass.AddMeth | bind/main.cpp:99 | Appends one method; nothing else changes. No deduplication happens in this engine. |
| Early.EarlyClass.AddCons | bind/main.cpp:100 | Appends one constructor; nothing else changes. |
| Early.EarlyClass.Process | bind/main.cpp:102-110 | Member functions and constructors are appended. Every other kind changes nothing. |
| Early.EarlyModule.constructor | bind/main.cpp:143 | A new module has the given name and no content. |
| Early.EarlyModule.AddSubModule | bind/main.cpp:199 | Appends one sub-module; nothing else changes. |
| Early.EarlyModule.AddDef | bind/main.cpp:148 | Appends one function; nothing else changes. |
| Early.EarlyModule.AddClass | bind/main.cpp:149 | Appends one class; nothing else changes. |
| Early.EarlyModule.Process | bind/main.cpp:230-240 | Functions, namespaces and classes are appended to their own list. Every other kind changes nothing. |
| Early.EarlyModule.ProcessAll | bind/main.cpp:157-161 | Processing every child builds exactly `ContentOf` the children. |
| Early.NewSubModule | bind/main.cpp:157-161 | A namespace becomes the sub-module of its children. |
| Early.NewFile | bind/main.cpp:208-214 | A file binding includes exactly the file, and its root module is `m` for the given library. |
| Early.ConsLines | bind/main.cpp:119-121 | One line per constructor, registered on the class. |
| Early.MethLines | bind/main.cpp:122-124 | One line per method, registered on the class. |
| Early.DefLines | bind/main.cpp:194-196 | One line per function, registered on the module. |
| Early.ClassContentOrder | bind/main.cpp:118-125 | Constructors come first, then methods, in insertion order. There is no implicit default constructor. |
| Early.IncludeLines | bind/main.cpp:221-223 | One include line per path, in order. |
| Early.FileHead | bind/main.cpp:216-227 | The file starts with the header, the alias, a blank line, the include of the file and a blank line. Then comes `PYBIND11_MODULE(<lib>, m) {`. |
| Early.PrintClassContent | bind/main.cpp:118-125 | Appends exactly the class body. |
| Early.PrintClass | bind/main.cpp:127-132 | Appends the declaration, the indented body, `}` and a blank line. |
| Early.PrintClasses | bind/main.cpp:190-192 | Appends every class block, in order. |
| Early.PrintDefs | bind/main.cpp:194-196 | Appends every function line, in order. |
| Early.PrintSubModule | bind/main.cpp:163-169 | Appends the sub-module block. |
| Early.PrintContent | bind/main.cpp:185-197 | Appends sub-modules, then classes, then functions. |
| Early.PrintSubModules | bind/main.cpp:186-188 | Appends every sub-module block, in order. |
| Early.PrintRoot | bind/main.cpp:177-182 | Appends the `PYBIND11_MODULE` block. |
| Early.PrintFile | bind/main.cpp:216-227 | Appends the header and include lines, then the root module without a prefix. |
| Early.ProcessFile | bind/main.cpp:242-244 | The output is exactly the file text for library `example`. |
| Astdump.Lookup | src/astdump/parse_functions.cpp:13-14 | `object[key]` fails with no-such-field exactly when no field has that key; otherwise it gives a value stored under the key. |
| Astdump.AsString | src/astdump/parse_functions.cpp:87 | `get_string` succeeds exactly on a string value. |
| Astdump.AsUint | src/astdump/parse_functions.cpp:119 | `get_uint64` succeeds exactly on an unsigned number. |
| Astdump.RawToken | src/astdump/parse_functions.cpp:64-66 | The raw token of a scalar value is its exact source text. A failed lookup passes its error on. An object or array is a type error (see "## Left out"). |
| Astdump.ActualLocation | src/astdump/parse_functions.cpp:11-19 | A location without `expansionLoc` is used as it is; otherwise that sub-object is used. It fails only when the field is not an object. |
| Astdump.GlobalId | src/astdump/parse_functions.cpp:46-51 | The global id is the file path followed by the translation-unit id. |
| Astdump.GlobalIdInjective | src/astdump/parse_functions.cpp:46-51 | Within one file, different translation-unit ids give different global ids. |
| Astdump.TuId | src/astdump/parse_functions.cpp:56-67 | The raw `previousDecl` token is used when that field exists; otherwise the raw `id` token. |
| Astdump.EntityId | src/astdump/parse_functions.cpp:53-70 | Succeeds exactly when the translation-unit id can be read, and then is its global form. |
| Astdump.RedeclarationsShareId | src/astdump/parse_functions.cpp:55-67 | A declaration and its redeclaration get the same global id. |
| Astdump.StripLead | src/astdump/parse_functions.cpp:88-89 | Exactly one leading space or tab is removed, if present. |
| Astdump.CommentErrorSticks | src/astdump/parse_functions.cpp:76-92 | Once a child of a comment fails, the whole comment fails with that error. |
| Astdump.Stripped | src/astdump/parse_functions.cpp:85-90 | Each text child contributes its text with one leading blank removed. |
| Astdump.TextChildrenJoin | src/astdump/parse_functions.cpp:72-94 | A comment whose children are objects with readable `kind` and `text` fields is those texts, as long as each text is non-empty after stripping, and no child is a paragraph. The result is each text stripped and joined by line breaks, with none before the first or after the last. A child may carry any other fields, such as `id` and `range`. |
| Astdump.TextChildStep | src/astdump/parse_functions.cpp:83-91 | Any object whose `kind` (not a paragraph) and `text` read as strings appends its stripped text, whatever other fields it has. A line break comes first unless the result is still empty. |
| Astdump.ParagraphAppends | src/astdump/parse_functions.cpp:78-82 | A paragraph's flattened text is appended with no separator. |
| Astdump.ParseComment | src/astdump/parse_functions.cpp:72-94 | The loop with its recursion into paragraphs computes exactly the comment text, or the error that aborts it. |
| Astdump.ParseChild | src/astdump/parse_functions.cpp:78-91 | One iteration of the loop, for one child. |
| Astdump.RangeOf | src/astdump/parse_functions.cpp:117-122 | A range that is accepted never starts after it ends. |
| Astdump.RangeCheck | src/astdump/parse_functions.cpp:117-122 | Once both offsets are read, the range is rejected exactly when begin exceeds end; otherwise it is exactly the two offsets. |
| Astdump.InvalidRangeOnlyFromOffsets | src/astdump/parse_functions.cpp:117-122 | An invalid range is reported only after both offsets were read, and then begin exceeds end. |
| Astdump.UnexposedOf | src/astdump/parse_functions.cpp:114-137 | A built unexposed entity has the checked range, and it carries a name and id exactly when the entity has a name. The id is `EntityId` of the entity and the name is its `name` string. Without a name, the result is the bare range. A range error is passed on unchanged. With a readable range, id and name, the result is the named entity with that range, id and name. With a name present, an unreadable id fails with the id's error, and otherwise an unreadable name fails with the name's error. Reading the id first is a choice of the model (see "## Left out"). |
| Astdump.EntityOutcome | src/astdump/parse_functions.cpp:139-208 | A failure yields no entity and sets no comment. Only a `FullComment` sets the parent's comment. |
| Astdump.FullCommentOutcome | src/astdump/parse_functions.cpp:150-155 | A comment never yields an entity. Its text becomes the parent's comment exactly when it can be read; otherwise the parse is flagged as failed. |
| Astdump.UnexposedOutcome | src/astdump/parse_functions.cpp:190-208 | An entity of any other kind is flagged as failed exactly when its unexposed form cannot be built, for example because of an inverted range. Otherwise it is that unexposed entity. |
| Astdump.DelegatedOutcome | src/astdump/parse_functions.cpp:156-188 | A kind with its own parser is never unexposed. It yields what that parser yields (nothing for a using-shadow declaration), or fails as that parser fails. |
| Astdump.ParseEntity | src/astdump/parse_functions.cpp:139-208 | Returns the outcome's result and sets the context's error flag on failure without ever clearing it. It sets the parent's comment only from a readable `FullComment`. |

## Where the model follows the code

The behaviour below follows `bind/pb.cpp`.

- Registration handles are named `PB__` followed by the simple name. The name is not
  sanitized, and the qualified name is not used.
- A variable counts as const only when its top-level type is const-qualified. There is no
  recursion through array element types.
- Children are not filtered by access level.
- Methods carry no overload flags and no deleted, const or static flags. `add` only erases
  methods with the same signature.
- Inherited members keep the name and scope they have in the base, which is anchored at
  `Name()`. They are not re-parented to the derived class.
- Every base is copied down, not only the first. Its nested classes are copied too.
- A class needs a trampoline exactly when some method does. There is no `final` check on the
  class itself.
- Classes are kept in plain lists in insertion order. There is no keyed class collection, no
  merge, and no topological ordering.
- `PB_Module::process` ignores variables.
- A method prints through `PB_Def::print`, because `bind/pb.cpp` defines no `PB_Meth::print`.
- The prelude prints the trampolines of the classes directly in each module. The trampoline of
  a nested class is never printed, although that class's declaration names it
  (`Classes.DeclNamesTrampoline`, `Modules.TrampolinesIgnoreNested`).
- The declarations of `Name`'s constructors, with their default arguments, are not part of
  this model: `bind/pb.cpp:28` defines only the three-argument constructor. The model assumes
  that a `Name` built from a single string has an empty scope and is auto-scoped, and that
  `Name()` is the same with an empty name. Under this assumption the root module `m` and the
  namespace modules are auto-scoped.

## Left out

- Output goes to a list of lines (`Printing.Sink`), not a byte stream. `std::endl` flushing is
  not modelled.
- `print_warn` and `print_error` write to the error stream only, so the model drops them.
- cppast itself is not part of this model: its parser, entity classes, `to_string` of types and
  `get_class`. Parameter and return types arrive as already rendered text. The index is a map
  from ids to entities.
- Names.Plain / Names.Anonymous: the defaults of `Name` are assumed, as described above. Several
  parts of the output depend on that assumption. These are the qualified names of classes and
  functions in the root module and in namespace modules, the names of inherited members (whose
  base is built at `Name()`), and the parent class named in a forwarding method. If `Name()`
  were not auto-scoped, inherited members would be qualified as `::Base::f`, not `Base::f`.
- Modules.PBModule.constructor: the index parameter is not modelled, because the source does not
  use it.
- `main()` and `parse_file` in `bind/main.cpp` and `bind/pb.cpp` are not part of this model. The
  command-line handling, logging and file reading there are I/O.
- Termination relies on the ghost bound `depth`. The bound holds when the inheritance graph is
  resolvable and acyclic. On a cyclic graph the source recurses forever, and the model does not
  capture that case.
- Astdump: the verbose logging of `parse_entity` and `get_location` are not modelled. So the
  model does not capture what happens when an entity's `loc` cannot be read. With verbose
  logging on, `get_location` throws before any parsing (`src/astdump/parse_functions.cpp:143-148`).
  Inside either handler, a throwing `get_location` (`src/astdump/parse_functions.cpp:193-207`)
  means the exception leaves `parse_entity`. `context.error` is then not set, and the caller
  gets the exception instead of a null entity. `Astdump.ParseEntity` always flags the context
  and returns no entity.
- Astdump: `parse_unexposed_entity` reads the byte range from the file and tokenizes it. This is
  not modelled; the result keeps the two offsets instead of the tokens. A file read past its
  end is not modelled either.
- Astdump: the parsers of the delegated kinds (linkage, namespace, namespace alias, using
  directive, using declaration, using-shadow, type alias, typedef and enum) are not part of
  this model. Whether the one called throws is the parameter `delegateFails`.
- Astdump: `handle_comment_child` (`src/astdump/parse_functions.cpp:96-112`) is not part of this
  model.
- Astdump.UnexposedOf: the id and the name are two arguments of one call
  (`src/astdump/parse_functions.cpp:132-134`), and C++ does not fix the order in which they are
  evaluated. The model reads the id first. So when both fail, it reports the id's error, where the
  source may report the name's. In both cases the same handler flags the context.
- Astdump.RawToken: the model treats the raw token of an object or array as an `IncorrectType`
  failure, because the JSON value does not keep its text. simdjson returns the text there. An
  entity whose `id` or `previousDecl` is an object or array is therefore a failed parse in
  `TuId`, `EntityId`, `UnexposedOf` and `EntityOutcome`, unlike the source.
- Astdump: `get_uint64` is modelled on unbounded naturals. A number outside 64 bits is a
  different JSON value (`Other`), so the conversion fails on it as simdjson's does.
