/**
  The static types the for-each lowering looks at, and the finite class hierarchy that
  answers its two questions about them: does a type implement an interface, and where is
  a zero-argument `iterator()` method found.
*/
module JavaTypes {

  import opened Wrappers

  /** The primitive kinds. `void` counts as primitive for the compiler's type helper,
      so it is listed here although no array holds it. */
  datatype PrimKind = Boolean | Char | Byte | Short | Int | Long | Float | Double | Void

  /** A resolved static type: a primitive, an array of a component type, or a class
      or interface named by its fully qualified name. */
  datatype JType =
    | Prim(kind: PrimKind)
    | Array(component: JType)
    | Ref(name: string)

  const IntType: JType := Prim(Int)
  const ObjectType: JType := Ref("java.lang.Object")
  const EnumerationName: string := "java.util.Enumeration"
  const IteratorName: string := "java.util.Iterator"
  const EnumerationType: JType := Ref(EnumerationName)
  const IteratorType: JType := Ref(IteratorName)

  /** Long and double values take two operand-stack words. */
  predicate IsTwoSlot(t: JType) {
    t == Prim(Long) || t == Prim(Double)
  }

  /** A zero-argument `iterator()` method: the class it is declared in and its return type. */
  datatype Method = Method(owner: string, returnType: JType)

  /**
    The part of the class hierarchy the lowering consults, keyed by class name.
    - `implemented[c]`: every interface `c` implements, directly or through supertypes;
    - `interfaces[c]`: the interfaces and superinterfaces of `c`, in the order the
      compiler enumerates them (the "first match" of the iterator lookup depends on it);
    - `iteratorMethod[c]`: the zero-argument `iterator()` a method lookup on `c` finds.
    Array and primitive types implement nothing and declare no `iterator()`: the only
    interfaces of a Java array, `Cloneable` and `Serializable`, declare no such method.
  */
  datatype Hierarchy = Hierarchy(
    implemented: map<string, set<string>>,
    interfaces: map<string, seq<string>>,
    iteratorMethod: map<string, Method>)

  /** The type is the named interface itself, or implements it. */
  predicate IsOrImplements(h: Hierarchy, t: JType, iface: string) {
    t == Ref(iface) || (t.Ref? && t.name in h.implemented && iface in h.implemented[t.name])
  }

  /** The ordered interfaces and superinterfaces of a type. */
  function InterfacesOf(h: Hierarchy, t: JType): seq<string> {
    if t.Ref? && t.name in h.interfaces then h.interfaces[t.name] else []
  }

  /** The `iterator()` method a lookup on the type itself finds, if any. */
  function DeclaredIterator(h: Hierarchy, t: JType): Option<Method> {
    if t.Ref? && t.name in h.iteratorMethod then Some(h.iteratorMethod[t.name]) else None
  }

}
