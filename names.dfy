/** The `Name` value of the binding generator: a simple name, the scope text in front of it,
    and whether the scope is taken over unchanged by children (an "auto scope", used for the
    synthetic root and namespace modules). */
module Names {

  datatype Name = Name(name: string, scope: string, autoScope: bool) {

    function CppSimpleName(): string { name }

    /** The fully qualified C++ spelling used after `&` in registrations. */
    function CppName(): string { scope + name }

    function SelfScope(): string { scope }

    /** The scope text that children of this name are placed in. */
    function AsScope(): (s: string)
      ensures autoScope ==> s == scope
      ensures !autoScope ==> s == CppName() + "::"
    {
      if autoScope then SelfScope() else scope + name + "::"
    }

    /** The variable name of the registration handle: `PB__` and the simple name only. */
    function BindName(): string { "PB__" + name }

    function PyName(): string { name }

    /** `parent + son`: the name of a child declared inside this one. */
    function Child(son: string): (r: Name)
      ensures r.CppSimpleName() == son && r.SelfScope() == AsScope() && !r.autoScope
      ensures r.CppName() == AsScope() + son
    {
      Name(son, AsScope(), false)
    }
  }

  /** The implicit conversion from a plain string: no scope, auto-scoped. */
  function Plain(s: string): Name { Name(s, "", true) }

  /** The default `Name()`, used to anchor base classes. */
  const Anonymous: Name := Plain("")

  /** A child of a named (not auto-scoped) parent is qualified by the parent's full name. */
  lemma ChildOfNamed(p: Name, son: string)
    requires !p.autoScope
    ensures p.Child(son).CppName() == p.CppName() + "::" + son
  {
  }

  /** A child of an auto-scoped parent lives in the parent's own scope: the parent adds no qualifier. */
  lemma ChildOfAutoScope(p: Name, son: string)
    requires p.autoScope
    ensures p.Child(son).CppName() == p.scope + son
    ensures p.Child(son).Child(son).CppName() == p.scope + son + "::" + son
  {
  }

  /** Two children of one parent have the same qualified name only if they have the same simple name. */
  lemma ChildQualifiedInjective(p: Name, s: string, t: string)
    requires p.Child(s).CppName() == p.Child(t).CppName()
    ensures s == t
  {
    var a := p.AsScope();
    assert s == (a + s)[|a|..];
    assert t == (a + t)[|a|..];
  }
}
