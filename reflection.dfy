/**
 * The part of Java reflection the container relies on, as data: a finite
 * universe of classes, each with its supertypes, the behaviour of its
 * no-argument constructor, its declared fields and its class annotations,
 * and the bean objects that reflective construction produces.
 */
module Reflection {

  /** A class (or interface, or primitive type) by its name. */
  type ClassName = string

  /** What `getDeclaredConstructor()` followed by `newInstance()` does for a class. */
  datatype Ctor =
    | NoArg     // a declared no-argument constructor that returns normally
    | Missing   // no no-argument constructor is declared: the lookup fails
    | Throwing  // the constructor exists, but invoking it fails (it throws, or the class is abstract)

  /** The value a field holds right after the no-argument constructor has run. */
  datatype Init =
    | DefaultInit        // never assigned by the constructor: null (or 0 / false)
    | ObjectInit(id: nat) // some object the constructor itself stored there

  /**
   * A declared field: its name, its declared type, whether it carries
   * `@Inject`, and whether a reflective write can succeed once the field has
   * been made accessible (false only for `static final` fields).
   */
  datatype FieldDecl = FieldDecl(
    name: string,
    fieldType: ClassName,
    inject: bool,
    writable: bool,
    init: Init)

  /**
   * A class of the universe. `supertypes` lists every proper supertype
   * (superclasses and interfaces, transitively); `fields` are the fields the
   * class itself declares, in the order `getDeclaredFields` returns them,
   * which Java leaves unspecified (inherited fields are not
   * among them); `service` and `repository` say whether the class carries the
   * `@Service` or `@Repository` annotation.
   */
  datatype ClassDecl = ClassDecl(
    supertypes: set<ClassName>,
    ctor: Ctor,
    fields: seq<FieldDecl>,
    service: bool,
    repository: bool)

  type Universe = map<ClassName, ClassDecl>

  /**
   * `t.isInstance(x)` for an object `x` whose class is `c`: `c` is `t` itself
   * or one of its supertypes is.
   */
  predicate IsSubtype(u: Universe, c: ClassName, t: ClassName)
  {
    c == t || (c in u && t in u[c].supertypes)
  }

  /** The content of a field of a bean. */
  datatype Value =
    | Default             // null, or the primitive default
    | Object(id: nat)     // an object that is not a bean of the container
    | Ref(target: Bean)   // a reference to a bean

  function InitialValue(f: FieldDecl): Value
  {
    match f.init
    case DefaultInit => Default
    case ObjectInit(id) => Object(id)
  }

  /** The fields of a freshly constructed object, one slot per declared field. */
  function InitialSlots(fields: seq<FieldDecl>): seq<Value>
  {
    seq(|fields|, k requires 0 <= k < |fields| => InitialValue(fields[k]))
  }

  /**
   * An object built by the container. Its class never changes; its declared
   * fields, slot `k` for the `k`-th declared field, are written in place.
   */
  class Bean {
    const cls: ClassName
    var slots: seq<Value>

    constructor (cls: ClassName, slots: seq<Value>)
      ensures this.cls == cls && this.slots == slots
    {
      this.cls := cls;
      this.slots := slots;
    }
  }

  predicate NoDuplicates<T(==)>(s: seq<T>)
  {
    forall i, j :: 0 <= i < j < |s| ==> s[i] != s[j]
  }

  /** The classes of a sequence of beans, position by position. */
  function ClassesOf(beans: seq<Bean>): (r: seq<ClassName>)
    ensures |r| == |beans|
    ensures forall i :: 0 <= i < |r| ==> r[i] == beans[i].cls
  {
    seq(|beans|, i requires 0 <= i < |beans| => beans[i].cls)
  }
}
