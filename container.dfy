/**
 * The container pipeline shared by both variants: build one bean per class,
 * then wire every eligible field of every bean to the beans that are
 * instances of the field's type (the last one wins), then answer lookups.
 */
module Container {
  import opened Wrappers
  import opened Reflection

  /** Which declared fields the wiring phase fills. */
  datatype Variant =
    | AllDeclaredFields  // the plain container: every declared field
    | InjectFieldsOnly   // the annotation container: only fields tagged `@Inject`

  /** Why building a container failed; the container is then never produced. */
  datatype BuildError =
    | NoDefaultConstructor(cls: ClassName)
    | InstantiationFailure(cls: ClassName)
    | FieldAssignmentFailure(cls: ClassName, field: string)

  /** Why a lookup failed. */
  datatype LookupError = NoSuchBean(requested: ClassName)

  predicate Eligible(v: Variant, f: FieldDecl)
  {
    v.AllDeclaredFields? || f.inject
  }

  /** Some class among `classes` is an instance type of `t`. */
  predicate HasInstanceOf(u: Universe, classes: seq<ClassName>, t: ClassName)
  {
    exists i :: 0 <= i < |classes| && IsSubtype(u, classes[i], t)
  }

  /**
   * Wiring field `f` throws: the field is wired, some bean matches its type,
   * and the field cannot be written.
   */
  predicate Blocked(u: Universe, v: Variant, classes: seq<ClassName>, f: FieldDecl)
  {
    Eligible(v, f) && !f.writable && HasInstanceOf(u, classes, f.fieldType)
  }

  // ---------------------------------------------------------------------
  // Construction phase

  /** The outcome of looking up and invoking the no-argument constructor of `c`. */
  function InstantiationOutcome(u: Universe, c: ClassName): Outcome<BuildError>
    requires c in u
  {
    match u[c].ctor
    case NoArg => Pass
    case Missing => Fail(NoDefaultConstructor(c))
    case Throwing => Fail(InstantiationFailure(c))
  }

  /**
   * The error of the first class, in iteration order, whose constructor
   * cannot be found or fails; `Pass` if every constructor succeeds.
   */
  function FirstCtorError(u: Universe, classes: seq<ClassName>): (r: Outcome<BuildError>)
    requires forall c :: c in classes ==> c in u
    ensures r.Pass? <==> forall i :: 0 <= i < |classes| ==> u[classes[i]].ctor.NoArg?
    ensures r.Fail? ==>
      exists i :: 0 <= i < |classes| && r == InstantiationOutcome(u, classes[i]) &&
        forall j :: 0 <= j < i ==> u[classes[j]].ctor.NoArg?
  {
    if |classes| == 0 then Pass
    else if InstantiationOutcome(u, classes[0]).Fail? then InstantiationOutcome(u, classes[0])
    else
      var r := FirstCtorError(u, classes[1..]);
      assert forall i :: 1 <= i < |classes| ==> classes[1..][i - 1] == classes[i];
      r
  }

  /** Construction stops at class `i` when it is the first one that fails. */
  lemma FirstCtorErrorAt(u: Universe, classes: seq<ClassName>, i: nat)
    requires forall c :: c in classes ==> c in u
    requires i < |classes| && InstantiationOutcome(u, classes[i]).Fail?
    requires forall j :: 0 <= j < i ==> u[classes[j]].ctor.NoArg?
    ensures FirstCtorError(u, classes) == InstantiationOutcome(u, classes[i])
  {
  }

  // ---------------------------------------------------------------------
  // Wiring phase

  /** The field's new content: the last matching bean if there is one, else what it held. */
  function Matched(m: Option<Bean>, prior: Value): Value
  {
    match m
    case Some(b) => Ref(b)
    case None => prior
  }

  /** The last bean, in iteration order, that is an instance of `t`. */
  function LastMatch(u: Universe, beans: seq<Bean>, t: ClassName): (r: Option<Bean>)
    ensures r.None? <==> forall i :: 0 <= i < |beans| ==> !IsSubtype(u, beans[i].cls, t)
    ensures r.Some? ==>
      exists i :: 0 <= i < |beans| && beans[i] == r.value && IsSubtype(u, r.value.cls, t) &&
        forall j :: i < j < |beans| ==> !IsSubtype(u, beans[j].cls, t)
  {
    if |beans| == 0 then None
    else if IsSubtype(u, beans[|beans| - 1].cls, t) then Some(beans[|beans| - 1])
    else LastMatch(u, beans[..|beans| - 1], t)
  }

  /**
   * What field `f` holds once wiring is over, given what it held before:
   * a field that is not wired, or whose type no bean matches, keeps its
   * value; otherwise it refers to the last matching bean of the whole set.
   */
  function WiredValue(u: Universe, v: Variant, beans: seq<Bean>, f: FieldDecl, prior: Value): (r: Value)
    ensures !Eligible(v, f) ==> r == prior
    ensures r != prior ==> r.Ref? && r.target in beans && IsSubtype(u, r.target.cls, f.fieldType)
    ensures Eligible(v, f) && HasInstanceOf(u, ClassesOf(beans), f.fieldType) ==>
      r.Ref? && r.target in beans && IsSubtype(u, r.target.cls, f.fieldType)
    ensures !HasInstanceOf(u, ClassesOf(beans), f.fieldType) ==> r == prior
  {
    if Eligible(v, f) then Matched(LastMatch(u, beans, f.fieldType), prior) else prior
  }

  /** The fields of one bean after wiring, from their values before. */
  function WiredSlots(u: Universe, v: Variant, beans: seq<Bean>, fields: seq<FieldDecl>, prior: seq<Value>): seq<Value>
    requires |prior| == |fields|
  {
    seq(|fields|, k requires 0 <= k < |fields| => WiredValue(u, v, beans, fields[k], prior[k]))
  }

  /**
   * The error of the first field, in the order `getDeclaredFields` returns
   * them (an order Java leaves unspecified), whose wiring throws;
   * `Pass` if none does.
   */
  function FirstBlocked(u: Universe, v: Variant, classes: seq<ClassName>, owner: ClassName, fields: seq<FieldDecl>): Outcome<BuildError>
  {
    if |fields| == 0 then Pass
    else if Blocked(u, v, classes, fields[0]) then Fail(FieldAssignmentFailure(owner, fields[0].name))
    else FirstBlocked(u, v, classes, owner, fields[1..])
  }

  /**
   * Wiring the fields of a bean of class `owner` throws exactly when one of
   * them is blocked, and then it names the first blocked one.
   */
  lemma {:induction false} FirstBlockedMeaning(u: Universe, v: Variant, classes: seq<ClassName>, owner: ClassName, fields: seq<FieldDecl>)
    ensures FirstBlocked(u, v, classes, owner, fields).Pass? <==>
      forall k :: 0 <= k < |fields| ==> !Blocked(u, v, classes, fields[k])
    ensures FirstBlocked(u, v, classes, owner, fields).Fail? ==>
      exists k :: 0 <= k < |fields| && Blocked(u, v, classes, fields[k]) &&
        FirstBlocked(u, v, classes, owner, fields).error == FieldAssignmentFailure(owner, fields[k].name) &&
        forall j :: 0 <= j < k ==> !Blocked(u, v, classes, fields[j])
  {
    if |fields| > 0 && !Blocked(u, v, classes, fields[0]) {
      FirstBlockedMeaning(u, v, classes, owner, fields[1..]);
      assert forall k :: 1 <= k < |fields| ==> fields[1..][k - 1] == fields[k];
      if FirstBlocked(u, v, classes, owner, fields).Fail? {
        var k' :| 0 <= k' < |fields[1..]| && Blocked(u, v, classes, fields[1..][k']) &&
          FirstBlocked(u, v, classes, owner, fields).error == FieldAssignmentFailure(owner, fields[1..][k'].name) &&
          forall j :: 0 <= j < k' ==> !Blocked(u, v, classes, fields[1..][j]);
        assert fields[1..][k'] == fields[k' + 1];
      }
    }
  }

  function FieldsOf(u: Universe, c: ClassName): seq<FieldDecl>
  {
    if c in u then u[c].fields else []
  }

  /**
   * The error of wiring the beans of `pending` in order against the whole
   * bean set `classes`: the first bean with a blocked field stops it.
   */
  function WiringOutcome(u: Universe, v: Variant, classes: seq<ClassName>, pending: seq<ClassName>): Outcome<BuildError>
  {
    if |pending| == 0 then Pass
    else
      var first := FirstBlocked(u, v, classes, pending[0], FieldsOf(u, pending[0]));
      if first.Fail? then first else WiringOutcome(u, v, classes, pending[1..])
  }

  /** No field of class `c` is blocked. */
  predicate NoBlockedField(u: Universe, v: Variant, classes: seq<ClassName>, c: ClassName)
  {
    forall k :: 0 <= k < |FieldsOf(u, c)| ==> !Blocked(u, v, classes, FieldsOf(u, c)[k])
  }

  /**
   * Wiring a bean set fails exactly when some field of some bean is blocked;
   * the error then names a blocked field of the first bean that has one,
   * since the iteration stops at the first bean whose wiring throws.
   */
  lemma {:induction false} WiringOutcomeMeaning(u: Universe, v: Variant, classes: seq<ClassName>, pending: seq<ClassName>)
    ensures WiringOutcome(u, v, classes, pending).Pass? <==>
      forall i, k :: 0 <= i < |pending| && 0 <= k < |FieldsOf(u, pending[i])| ==>
        !Blocked(u, v, classes, FieldsOf(u, pending[i])[k])
    ensures WiringOutcome(u, v, classes, pending).Fail? ==>
      exists i, k :: 0 <= i < |pending| && 0 <= k < |FieldsOf(u, pending[i])| &&
        Blocked(u, v, classes, FieldsOf(u, pending[i])[k]) &&
        WiringOutcome(u, v, classes, pending).error == FieldAssignmentFailure(pending[i], FieldsOf(u, pending[i])[k].name) &&
        forall j :: 0 <= j < i ==> NoBlockedField(u, v, classes, pending[j])
  {
    if |pending| > 0 {
      FirstBlockedMeaning(u, v, classes, pending[0], FieldsOf(u, pending[0]));
      WiringOutcomeMeaning(u, v, classes, pending[1..]);
      assert forall i :: 1 <= i < |pending| ==> pending[1..][i - 1] == pending[i];
      if FirstBlocked(u, v, classes, pending[0], FieldsOf(u, pending[0])).Pass? &&
         WiringOutcome(u, v, classes, pending).Fail? {
        var i', k' :| 0 <= i' < |pending[1..]| && 0 <= k' < |FieldsOf(u, pending[1..][i'])| &&
          Blocked(u, v, classes, FieldsOf(u, pending[1..][i'])[k']) &&
          WiringOutcome(u, v, classes, pending).error == FieldAssignmentFailure(pending[1..][i'], FieldsOf(u, pending[1..][i'])[k'].name) &&
          forall j :: 0 <= j < i' ==> NoBlockedField(u, v, classes, pending[1..][j]);
        assert pending[1..][i'] == pending[i' + 1];
        assert NoBlockedField(u, v, classes, pending[0]);
        assert forall j :: 1 <= j < i' + 1 ==> NoBlockedField(u, v, classes, pending[j]) by {
          forall j | 1 <= j < i' + 1 ensures NoBlockedField(u, v, classes, pending[j]) {
            assert pending[1..][j - 1] == pending[j];
          }
        }
      }
    }
  }

  /** Wiring can only throw on a field that cannot be written. */
  lemma WritableFieldsNeverBlock(u: Universe, v: Variant, classes: seq<ClassName>, pending: seq<ClassName>)
    requires forall i, k :: 0 <= i < |pending| && 0 <= k < |FieldsOf(u, pending[i])| ==>
      FieldsOf(u, pending[i])[k].writable
    ensures WiringOutcome(u, v, classes, pending) == Pass
  {
    WiringOutcomeMeaning(u, v, classes, pending);
  }

  // ---------------------------------------------------------------------
  // Lookup

  /** The first bean, in iteration order, that is an instance of `t`. */
  function FirstMatch(u: Universe, beans: seq<Bean>, t: ClassName): (r: Option<Bean>)
    ensures r.None? <==> forall i :: 0 <= i < |beans| ==> !IsSubtype(u, beans[i].cls, t)
    ensures r.Some? ==>
      exists i :: 0 <= i < |beans| && beans[i] == r.value && IsSubtype(u, r.value.cls, t) &&
        forall j :: 0 <= j < i ==> !IsSubtype(u, beans[j].cls, t)
  {
    if |beans| == 0 then None
    else if IsSubtype(u, beans[0].cls, t) then Some(beans[0])
    else
      var r := FirstMatch(u, beans[1..], t);
      assert forall i :: 1 <= i < |beans| ==> beans[1..][i - 1] == beans[i];
      r
  }

  /**
   * When exactly one bean is an instance of `t`, the iteration order stops
   * mattering: in any order of the same bean set, a wired field of type `t`
   * refers to that bean, and a lookup of `t` returns it.
   */
  lemma {:induction false} UniqueMatchWired(u: Universe, v: Variant, beans: seq<Bean>, reordered: seq<Bean>, f: FieldDecl, m: Bean, prior: Value)
    requires multiset(reordered) == multiset(beans)
    requires m in beans && IsSubtype(u, m.cls, f.fieldType)
    requires forall i :: 0 <= i < |beans| && IsSubtype(u, beans[i].cls, f.fieldType) ==> beans[i] == m
    ensures Eligible(v, f) ==> WiredValue(u, v, reordered, f, prior) == Ref(m)
    ensures FirstMatch(u, reordered, f.fieldType) == Some(m)
  {
    assert forall i :: 0 <= i < |reordered| ==> reordered[i] in multiset(beans);
    assert m in multiset(reordered);
    var last := LastMatch(u, reordered, f.fieldType);
    var first := FirstMatch(u, reordered, f.fieldType);
    assert last.Some? && first.Some?;
  }

  // ---------------------------------------------------------------------
  // The container

  class DIContainer {
    const u: Universe
    const variant: Variant
    /** The bean set, in its iteration order; fixed once the container exists. */
    const beans: seq<Bean>

    /** The objects whose fields wiring may write. */
    function Footprint(): set<object>
    {
      set i | 0 <= i < |beans| :: beans[i]
    }

    function BeanClasses(): seq<ClassName>
    {
      ClassesOf(beans)
    }

    /**
     * One bean per class: no class occurs twice (so no bean does either), and
     * every bean has one slot per field its class declares.
     */
    ghost predicate Valid()
      reads Footprint()
    {
      NoDuplicates(BeanClasses()) &&
      forall i :: 0 <= i < |beans| ==> beans[i].cls in u && |beans[i].slots| == |u[beans[i].cls].fields|
    }

    /** The fields of `b` are the wired form of `prior`, its fields before wiring. */
    ghost predicate WiredFrom(b: Bean, prior: seq<Value>)
      reads b
    {
      |prior| == |FieldsOf(u, b.cls)| && b.slots == WiredSlots(u, variant, beans, FieldsOf(u, b.cls), prior)
    }

    /** The field assignment `this.beans = ...`, before any wiring. */
    constructor (u: Universe, variant: Variant, beans: seq<Bean>)
      ensures this.u == u && this.variant == variant && this.beans == beans
    {
      this.u := u;
      this.variant := variant;
      this.beans := beans;
    }

    /**
     * Builds one fresh bean per class, in order, by its no-argument
     * constructor; the first constructor that is missing or fails aborts.
     */
    static method CreateBeans(u: Universe, classes: seq<ClassName>) returns (r: Result<seq<Bean>, BuildError>)
      requires forall c :: c in classes ==> c in u
      ensures r.Failure? <==> FirstCtorError(u, classes).Fail?
      ensures r.Failure? ==> r.error == FirstCtorError(u, classes).error
      ensures r.Success? ==> |r.value| == |classes| && ClassesOf(r.value) == classes
      ensures r.Success? ==> forall i :: 0 <= i < |classes| ==>
        fresh(r.value[i]) && r.value[i].slots == InitialSlots(u[classes[i]].fields)
      ensures r.Success? ==> NoDuplicates(r.value)
    {
      var built: seq<Bean> := [];
      for i := 0 to |classes|
        invariant |built| == i
        invariant forall j :: 0 <= j < i ==> built[j].cls == classes[j]
        invariant forall j :: 0 <= j < i ==> fresh(built[j])
        invariant forall j :: 0 <= j < i ==> built[j].slots == InitialSlots(u[classes[j]].fields)
        invariant NoDuplicates(built)
        invariant forall j :: 0 <= j < i ==> u[classes[j]].ctor.NoArg?
      {
        var outcome := InstantiationOutcome(u, classes[i]);
        if outcome.Fail? {
          FirstCtorErrorAt(u, classes, i);
          return Failure(outcome.error);
        }
        var bean := new Bean(classes[i], InitialSlots(u[classes[i]].fields));
        built := built + [bean];
      }
      assert ClassesOf(built) == classes;
      return Success(built);
    }

    /**
     * Writes, one after another, every bean that is an instance of the
     * type of field `k` of `bean` into that field, so the last match stays;
     * a field no bean matches is left alone. Writing a field that cannot be
     * written throws at the first match, before anything is written.
     */
    method Assign(bean: Bean, k: nat) returns (r: Outcome<BuildError>)
      requires bean.cls in u && k < |u[bean.cls].fields| && |bean.slots| == |u[bean.cls].fields|
      modifies bean
      ensures var f := u[bean.cls].fields[k];
        r.Fail? <==> !f.writable && HasInstanceOf(u, BeanClasses(), f.fieldType)
      ensures r.Fail? ==>
        r.error == FieldAssignmentFailure(bean.cls, u[bean.cls].fields[k].name) && bean.slots == old(bean.slots)
      ensures r.Pass? ==>
        bean.slots == old(bean.slots)[k := Matched(LastMatch(u, beans, u[bean.cls].fields[k].fieldType), old(bean.slots[k]))]
    {
      var f := u[bean.cls].fields[k];
      var i := 0;
      while i < |beans|
        invariant 0 <= i <= |beans|
        invariant bean.slots == old(bean.slots)[k := Matched(LastMatch(u, beans[..i], f.fieldType), old(bean.slots[k]))]
        invariant !f.writable ==> LastMatch(u, beans[..i], f.fieldType).None?
      {
        assert beans[..i + 1][..i] == beans[..i];
        if IsSubtype(u, beans[i].cls, f.fieldType) {
          if !f.writable {
            assert BeanClasses()[i] == beans[i].cls;
            return Fail(FieldAssignmentFailure(bean.cls, f.name));
          }
          bean.slots := bean.slots[k := Ref(beans[i])];
        }
        i := i + 1;
      }
      assert beans[..i] == beans;
      return Pass;
    }

    /**
     * Visits every declared field of `bean` in order and assigns those the
     * variant wires; the first assignment that throws aborts.
     */
    method SetFields(bean: Bean) returns (r: Outcome<BuildError>)
      requires bean.cls in u && |bean.slots| == |u[bean.cls].fields|
      modifies bean
      ensures r == FirstBlocked(u, variant, BeanClasses(), bean.cls, u[bean.cls].fields)
      ensures r.Pass? ==> WiredFrom(bean, old(bean.slots))
      ensures |bean.slots| == |old(bean.slots)|
    {
      var fields := u[bean.cls].fields;
      for k := 0 to |fields|
        invariant |bean.slots| == |fields|
        invariant forall j :: 0 <= j < k ==> bean.slots[j] == WiredValue(u, variant, beans, fields[j], old(bean.slots[j]))
        invariant forall j :: k <= j < |fields| ==> bean.slots[j] == old(bean.slots[j])
        invariant FirstBlocked(u, variant, BeanClasses(), bean.cls, fields) ==
                  FirstBlocked(u, variant, BeanClasses(), bean.cls, fields[k..])
      {
        assert fields[k..][1..] == fields[k + 1..];
        if Eligible(variant, fields[k]) {
          var outcome := Assign(bean, k);
          if outcome.Fail? {
            return outcome;
          }
        }
      }
      return Pass;
    }

    /** `beans.forEach(this::setFields)`: wires the beans in iteration order. */
    method WireBeans() returns (r: Outcome<BuildError>)
      requires Valid()
      modifies Footprint()
      ensures Valid()
      ensures r == WiringOutcome(u, variant, BeanClasses(), BeanClasses())
      ensures r.Pass? ==> forall i :: 0 <= i < |beans| ==> WiredFrom(beans[i], old(beans[i].slots))
    {
      var classes := BeanClasses();
      for i := 0 to |beans|
        invariant forall j :: 0 <= j < |beans| ==> |beans[j].slots| == |u[beans[j].cls].fields|
        invariant forall j :: 0 <= j < i ==> WiredFrom(beans[j], old(beans[j].slots))
        invariant forall j :: i <= j < |beans| ==> beans[j].slots == old(beans[j].slots)
        invariant WiringOutcome(u, variant, classes, classes) == WiringOutcome(u, variant, classes, classes[i..])
      {
        assert classes[i..][1..] == classes[i + 1..];
        assert classes[i] == beans[i].cls;
        forall j | 0 <= j < |beans| && j != i ensures beans[j] != beans[i] {
          assert classes[j] != classes[i];
        }
        var outcome := SetFields(beans[i]);
        if outcome.Fail? {
          return outcome;
        }
      }
      return Pass;
    }

    /**
     * The container's constructor: builds the beans of `classes`, then,
     * only once all of them exist, wires them against the whole set. Any
     * failure aborts and no container is produced.
     */
    static method Create(u: Universe, v: Variant, classes: seq<ClassName>) returns (r: Result<DIContainer, BuildError>)
      requires forall c :: c in classes ==> c in u
      requires NoDuplicates(classes)
      ensures r.Success? <==> FirstCtorError(u, classes).Pass? && WiringOutcome(u, v, classes, classes).Pass?
      ensures r.Failure? ==>
        r.error == (if FirstCtorError(u, classes).Fail? then FirstCtorError(u, classes).error
                    else WiringOutcome(u, v, classes, classes).error)
      ensures r.Success? ==>
        var c := r.value;
        fresh(c) && c.u == u && c.variant == v && c.Valid() && c.BeanClasses() == classes &&
        forall i :: 0 <= i < |classes| ==>
          fresh(c.beans[i]) &&
          c.beans[i].slots == WiredSlots(u, v, c.beans, u[classes[i]].fields, InitialSlots(u[classes[i]].fields))
    {
      var created := CreateBeans(u, classes);
      if created.Failure? {
        return Failure(created.error);
      }
      var c := new DIContainer(u, v, created.value);
      var wired := c.WireBeans();
      if wired.Fail? {
        return Failure(wired.error);
      }
      return Success(c);
    }

    /**
     * The first bean, in iteration order, that is an instance of `t`;
     * `NoSuchBean` when there is none.
     */
    function GetBean(t: ClassName): (r: Result<Bean, LookupError>)
      ensures r.Failure? <==> forall i :: 0 <= i < |beans| ==> !IsSubtype(u, beans[i].cls, t)
      ensures r.Failure? ==> r.error == NoSuchBean(t)
      ensures r.Success? ==>
        exists i :: 0 <= i < |beans| && beans[i] == r.value && IsSubtype(u, r.value.cls, t) &&
          forall j :: 0 <= j < i ==> !IsSubtype(u, beans[j].cls, t)
    {
      match FirstMatch(u, beans, t)
      case Some(b) => Success(b)
      case None => Failure(NoSuchBean(t))
    }
  }
}
