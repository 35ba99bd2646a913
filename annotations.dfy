/**
 * The annotation-driven entry point: scan a package, keep the classes
 * tagged `@Service` or `@Repository`, and build a container that wires only
 * `@Inject` fields.
 */
module Annotations {
  import opened Wrappers
  import opened Reflection
  import opened Container

  /** The class carries `@Service` or `@Repository`. */
  predicate IsComponent(u: Universe, c: ClassName)
    requires c in u
  {
    u[c].service || u[c].repository
  }

  /** The scanned classes that are components, in scan order. */
  function FilterComponents(u: Universe, scanned: seq<ClassName>): (r: seq<ClassName>)
    requires forall c :: c in scanned ==> c in u
    ensures forall c :: c in r <==> c in scanned && IsComponent(u, c)
    ensures NoDuplicates(scanned) ==> NoDuplicates(r)
    ensures r == [] <==> forall c :: c in scanned ==> !IsComponent(u, c)
  {
    if |scanned| == 0 then []
    else
      var rest := FilterComponents(u, scanned[1..]);
      assert NoDuplicates(scanned) ==> scanned[0] !in scanned[1..];
      if IsComponent(u, scanned[0]) then [scanned[0]] + rest else rest
  }

  /** The distinct classes of `s` that `keep` selects. */
  function Selected(u: Universe, s: seq<ClassName>, keep: bool): set<ClassName>
    requires forall c :: c in s ==> c in u
  {
    set c | c in s && IsComponent(u, c) == keep
  }

  lemma SelectedSplit(u: Universe, s: seq<ClassName>, keep: bool)
    requires |s| > 0 && forall c :: c in s ==> c in u
    ensures Selected(u, s, keep) ==
      Selected(u, s[1..], keep) + (if IsComponent(u, s[0]) == keep then {s[0]} else {})
  {
  }

  /**
   * Among N tagged and M untagged distinct classes, exactly the N tagged
   * ones are kept, and N + M is the number scanned.
   */
  lemma {:induction false} ComponentCount(u: Universe, scanned: seq<ClassName>)
    requires forall c :: c in scanned ==> c in u
    requires NoDuplicates(scanned)
    ensures |FilterComponents(u, scanned)| == |Selected(u, scanned, true)|
    ensures |FilterComponents(u, scanned)| + |Selected(u, scanned, false)| == |scanned|
  {
    if |scanned| > 0 {
      var tail := scanned[1..];
      assert NoDuplicates(tail) by {
        forall i, j | 0 <= i < j < |tail| ensures tail[i] != tail[j] {
          assert tail[i] == scanned[i + 1] && tail[j] == scanned[j + 1];
        }
      }
      assert scanned[0] !in tail by {
        forall i | 0 <= i < |tail| ensures tail[i] != scanned[0] {
          assert tail[i] == scanned[i + 1];
        }
      }
      ComponentCount(u, tail);
      SelectedSplit(u, scanned, true);
      SelectedSplit(u, scanned, false);
      assert scanned[0] !in Selected(u, tail, true) && scanned[0] !in Selected(u, tail, false);
    }
  }

  /**
   * `createContainerForPackage`: the classes the scanner finds under
   * `rootPackageName`, filtered to components, go to the container's
   * constructor; only `@Inject` fields are wired.
   */
  method CreateContainerForPackage(u: Universe, scan: string -> seq<ClassName>, rootPackageName: string)
    returns (r: Result<DIContainer, BuildError>)
    requires forall c :: c in scan(rootPackageName) ==> c in u
    requires NoDuplicates(scan(rootPackageName))
    ensures var classes := FilterComponents(u, scan(rootPackageName));
      r.Success? <==>
        FirstCtorError(u, classes).Pass? && WiringOutcome(u, InjectFieldsOnly, classes, classes).Pass?
    ensures var classes := FilterComponents(u, scan(rootPackageName));
      r.Failure? ==>
        r.error == (if FirstCtorError(u, classes).Fail? then FirstCtorError(u, classes).error
                    else WiringOutcome(u, InjectFieldsOnly, classes, classes).error)
    ensures var classes := FilterComponents(u, scan(rootPackageName));
      r.Success? ==>
        var c := r.value;
        fresh(c) && c.u == u && c.variant == InjectFieldsOnly && c.Valid() && c.BeanClasses() == classes &&
        forall i :: 0 <= i < |classes| ==>
          fresh(c.beans[i]) &&
          c.beans[i].slots == WiredSlots(u, InjectFieldsOnly, c.beans, u[classes[i]].fields, InitialSlots(u[classes[i]].fields))
    ensures (forall c :: c in scan(rootPackageName) ==> !IsComponent(u, c)) ==> r.Success? && r.value.beans == []
  {
    var scanned := scan(rootPackageName);
    var classes := FilterComponents(u, scanned);
    r := DIContainer.Create(u, InjectFieldsOnly, classes);
  }
}
