/** The entity tree the generator walks, as the C++ parser hands it over: every entity has a
    kind, a name and ordered children; classes have bases; functions have virtual information,
    a return type and parameter types (already rendered to text); variables have a top-level
    const qualification and a storage class. */
module Cppast {

  datatype Kind =
    | FileKind
    | NamespaceKind
    | ClassKind
    | FunctionKind
    | MemberFunctionKind
    | ConstructorKind
    | MemberVariableKind
    | VariableKind
    | OtherKind(tag: string)  // enums, aliases, access specifiers, templates, ...

  /** A base-class specifier: the spelling written in the class head, and the id through which
      the entity index resolves it. */
  datatype BaseClass = BaseClass(name: string, id: string)

  datatype VirtualInfo = VirtualInfo(isVirtual: bool, isPure: bool, isOverriding: bool, isFinal: bool)

  datatype Entity = Entity(
    kind: Kind,
    name: string,
    children: seq<Entity>,
    bases: seq<BaseClass>,
    virtualInfo: VirtualInfo,
    returnType: string,
    parameterTypes: seq<string>,
    constQualified: bool,  // the type is cv-qualified at the top level and the qualifier includes const
    staticStorage: bool)

  /** The parser's entity index, from id to the declaring entity. */
  type Index = map<string, Entity>

  /** `get_class(idx, base)` has a value. */
  predicate ResolvesToClass(idx: Index, b: BaseClass) {
    b.id in idx && idx[b.id].kind == ClassKind
  }

  /** Building a class binding for `e` terminates and never meets an unresolved base: every base
      reachable from `e` (through bases and nested classes) resolves to a class, and no chain of
      bases is longer than `depth`. For a finite index this holds for some depth exactly when the
      inheritance graph reachable from `e` is resolvable and acyclic. */
  ghost predicate BasesWithin(idx: Index, e: Entity, depth: nat)
    decreases depth, e
  {
    && (forall i :: 0 <= i < |e.bases| ==>
          ResolvesToClass(idx, e.bases[i]) && depth > 0 && BasesWithin(idx, idx[e.bases[i].id], depth - 1))
    && (forall i :: 0 <= i < |e.children| ==> e.children[i].kind == ClassKind ==> BasesWithin(idx, e.children[i], depth))
  }

  /** The same for every class found in a namespace or file, through nested namespaces. */
  ghost predicate ModulesWithin(idx: Index, e: Entity, depth: nat)
    decreases e
  {
    forall i :: 0 <= i < |e.children| ==>
      && (e.children[i].kind == ClassKind ==> BasesWithin(idx, e.children[i], depth))
      && (e.children[i].kind == NamespaceKind ==> ModulesWithin(idx, e.children[i], depth))
  }
}
