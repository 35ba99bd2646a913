/**
 * Small fixed class universes built into containers, each with its expected
 * outcome.
 */
module Scenarios {
  import opened Wrappers
  import opened Reflection
  import opened Container
  import opened Annotations

  const ObjectType: ClassName := "java.lang.Object"

  /** A field of declared type `t`, writable and null after construction. */
  function Plain(name: string, t: ClassName, inject: bool): FieldDecl
  {
    FieldDecl(name, t, inject, true, DefaultInit)
  }

  /** `UserService` declares a `UserRepository` field; `UserRepository` declares none. */
  function UserUniverse(): Universe
  {
    map[
      "UserService" := ClassDecl({ObjectType}, NoArg, [Plain("userRepository", "UserRepository", false)], false, false),
      "UserRepository" := ClassDecl({ObjectType}, NoArg, [], false, false)
    ]
  }

  /** In a bean set of these two classes, the service's field gets the repository bean. */
  lemma UserServiceWiring(beans: seq<Bean>)
    requires ClassesOf(beans) == ["UserService", "UserRepository"]
    ensures var fields := UserUniverse()["UserService"].fields;
      WiredSlots(UserUniverse(), AllDeclaredFields, beans, fields, InitialSlots(fields)) == [Ref(beans[1])]
    ensures FirstMatch(UserUniverse(), beans, "UserService") == Some(beans[0])
    ensures FirstMatch(UserUniverse(), beans, "UserRepository") == Some(beans[1])
  {
    assert beans[0].cls == "UserService" && beans[1].cls == "UserRepository";
    assert LastMatch(UserUniverse(), beans, "UserRepository") == Some(beans[1]);
  }

  /**
   * Registering `UserService` and `UserRepository` gives two beans, and the
   * service bean's field refers to the repository bean of the same container.
   */
  method UserServiceScenario() returns (c: DIContainer, service: Bean, repository: Bean)
    ensures |c.beans| == 2
    ensures c.GetBean("UserService") == Success(service) && service.cls == "UserService"
    ensures c.GetBean("UserRepository") == Success(repository) && repository.cls == "UserRepository"
    ensures service.slots == [Ref(repository)]
  {
    var u := UserUniverse();
    var classes := ["UserService", "UserRepository"];
    WritableFieldsNeverBlock(u, AllDeclaredFields, classes, classes);
    var r := DIContainer.Create(u, AllDeclaredFields, classes);
    assert r.Success?;
    c := r.value;
    UserServiceWiring(c.beans);
    service, repository := c.beans[0], c.beans[1];
  }

  /** Looking up a class that was never registered fails with `NoSuchBean`. */
  method UnregisteredLookupScenario() returns (r: Result<Bean, LookupError>)
    ensures r == Failure(NoSuchBean("ServiceB"))
  {
    var u := map[
      "ServiceA" := ClassDecl({ObjectType}, NoArg, [], false, false),
      "ServiceB" := ClassDecl({ObjectType}, NoArg, [], false, false)
    ];
    WritableFieldsNeverBlock(u, AllDeclaredFields, ["ServiceA"], ["ServiceA"]);
    var built := DIContainer.Create(u, AllDeclaredFields, ["ServiceA"]);
    assert built.Success?;
    r := built.value.GetBean("ServiceB");
  }

  /**
   * Registering a class without a no-argument constructor next to classes
   * that would build fine aborts the whole construction.
   */
  method FailFastScenario() returns (r: Result<DIContainer, BuildError>)
    ensures r == Failure(NoDefaultConstructor("Helper"))
  {
    var u := PackageUniverse();
    r := DIContainer.Create(u, AllDeclaredFields, ["UserService", "Helper", "UserRepository"]);
  }

  /** Two repositories implementing `Repo`, and a client with a `Repo` field. */
  function RepoUniverse(): Universe
  {
    map[
      "JdbcRepo" := ClassDecl({"Repo", ObjectType}, NoArg, [], false, false),
      "MemoryRepo" := ClassDecl({"Repo", ObjectType}, NoArg, [], false, false),
      "Client" := ClassDecl({ObjectType}, NoArg, [Plain("repo", "Repo", false)], false, false)
    ]
  }

  /** The client's field gets the later repository; a lookup of `Repo` the earlier one. */
  lemma AmbiguousWiring(beans: seq<Bean>)
    requires ClassesOf(beans) == ["JdbcRepo", "MemoryRepo", "Client"]
    ensures var fields := RepoUniverse()["Client"].fields;
      WiredSlots(RepoUniverse(), AllDeclaredFields, beans, fields, InitialSlots(fields)) == [Ref(beans[1])]
    ensures FirstMatch(RepoUniverse(), beans, "Repo") == Some(beans[0])
  {
    assert beans[0].cls == "JdbcRepo" && beans[1].cls == "MemoryRepo" && beans[2].cls == "Client";
    assert beans[..2][..1] == beans[..1];
    assert LastMatch(RepoUniverse(), beans, "Repo") == Some(beans[1]);
  }

  /**
   * Two beans implement `Repo`: a `Repo` field ends up holding the later one
   * in iteration order, and a lookup of `Repo` returns the earlier one.
   */
  method AmbiguousMatchScenario() returns (c: DIContainer, first: Bean, second: Bean, client: Bean)
    ensures c.BeanClasses() == ["JdbcRepo", "MemoryRepo", "Client"]
    ensures first.cls == "JdbcRepo" && second.cls == "MemoryRepo" && client.cls == "Client"
    ensures client.slots == [Ref(second)]
    ensures c.GetBean("Repo") == Success(first)
  {
    var u := RepoUniverse();
    var classes := ["JdbcRepo", "MemoryRepo", "Client"];
    WritableFieldsNeverBlock(u, AllDeclaredFields, classes, classes);
    var r := DIContainer.Create(u, AllDeclaredFields, classes);
    assert r.Success?;
    c := r.value;
    AmbiguousWiring(c.beans);
    first, second, client := c.beans[0], c.beans[1], c.beans[2];
  }

  /** A `@Service`, a `@Repository` and an untagged helper without a no-argument constructor. */
  function PackageUniverse(): Universe
  {
    map[
      "UserService" := ClassDecl({ObjectType}, NoArg,
        [Plain("userRepository", "UserRepository", true), Plain("backup", "UserRepository", false)], true, false),
      "UserRepository" := ClassDecl({ObjectType}, NoArg, [], false, true),
      "Helper" := ClassDecl({ObjectType}, Missing, [], false, false)
    ]
  }

  /** The class-path scanner: what it finds under each package name. */
  function ScanPackage(p: string): seq<ClassName>
  {
    if p == "nextstep.study" then ["UserService", "UserRepository", "Helper"] else []
  }

  /** The untagged helper is dropped by the filter, before its constructor could fail. */
  lemma PackageFilter()
    ensures forall c :: c in ScanPackage("nextstep.study") ==> c in PackageUniverse()
    ensures NoDuplicates(ScanPackage("nextstep.study"))
    ensures FilterComponents(PackageUniverse(), ScanPackage("nextstep.study")) == ["UserService", "UserRepository"]
  {
    var u := PackageUniverse();
    var scanned := ScanPackage("nextstep.study");
    assert scanned[1..] == ["UserRepository", "Helper"] && scanned[1..][1..] == ["Helper"];
    assert FilterComponents(u, ["Helper"]) == [];
    assert FilterComponents(u, scanned[1..]) == ["UserRepository"];
  }

  /** Only the `@Inject` field of the service gets the repository bean. */
  lemma PackageWiring(beans: seq<Bean>)
    requires ClassesOf(beans) == ["UserService", "UserRepository"]
    ensures var fields := PackageUniverse()["UserService"].fields;
      WiredSlots(PackageUniverse(), InjectFieldsOnly, beans, fields, InitialSlots(fields)) == [Ref(beans[1]), Default]
  {
    assert beans[0].cls == "UserService" && beans[1].cls == "UserRepository";
    assert LastMatch(PackageUniverse(), beans, "UserRepository") == Some(beans[1]);
  }

  /**
   * Scanning that package gives two beans; the service's `@Inject` field is
   * wired and its untagged field of the same type is left null.
   */
  method PackageScanScenario() returns (c: DIContainer, service: Bean, repository: Bean)
    ensures c.BeanClasses() == ["UserService", "UserRepository"]
    ensures service == c.beans[0] && repository == c.beans[1]
    ensures service.slots == [Ref(repository), Default]
  {
    var u := PackageUniverse();
    var classes := ["UserService", "UserRepository"];
    PackageFilter();
    WritableFieldsNeverBlock(u, InjectFieldsOnly, classes, classes);
    var r := CreateContainerForPackage(u, ScanPackage, "nextstep.study");
    assert r.Success?;
    c := r.value;
    PackageWiring(c.beans);
    service, repository := c.beans[0], c.beans[1];
  }
}
