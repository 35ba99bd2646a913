# A verified model of a reflective dependency-injection container

The repository's one piece of original logic is a small dependency-injection
container, the counterpart of Spring's `BeanFactory`/`ApplicationContext`,
in two variants:

- the plain container (`stage3/context/DIContainer`) takes a set of classes,
  builds one bean per class with its no-argument constructor, and then wires
  **every declared field** of every bean: each bean of the set that is an
  instance of the field's type is written into the field in turn, so the last
  one stays;
- the annotation container (`stage4/annotations/DIContainer`) runs the same
  pipeline, but its package-scan entry point keeps only classes tagged
  `@Service` or `@Repository`, and only fields tagged `@Inject` are wired.

Both answer `getBean(T)` with the first bean that is an instance of `T`, or
throw.

## How the model is built

- `reflection.dfy` (module `Reflection`): Java reflection as data. A
  `Universe` maps class names to a `ClassDecl`: every proper supertype,
  what the no-argument constructor does (`NoArg`, `Missing`, `Throwing`),
  the fields the class itself declares (name, declared type, `@Inject`,
  writable, value after construction), and the `@Service`/`@Repository`
  tags. `IsSubtype` is `Class.isInstance`. A `Bean` is an object with a
  fixed class and one mutable slot per declared field.
- `container.dfy` (module `Container`): the shared pipeline. The
  specification functions (`FirstCtorError`, `LastMatch`, `WiredValue`,
  `WiredSlots`, `FirstBlocked`, `WiringOutcome`, `FirstMatch`) say what
  each phase computes. The class `DIContainer` holds the bean set as a
  `const` sequence, like the Java `final Set<Object>`. Its method
  `CreateBeans` is a loop that allocates the beans; `SetFields`, `Assign`
  and `WireBeans` are loops that write the beans' fields in place. Each is
  proved against those functions.
  `Variant` selects the fields that are wired: all declared fields, or only
  the `@Inject` ones.
- `annotations.dfy` (module `Annotations`): the `@Service`/`@Repository`
  filter and `createContainerForPackage`.
- `scenarios.dfy` (module `Scenarios`): fixed universes built into
  containers, each with its expected outcome: a service wired to its repository, an unregistered lookup, a
  class without a no-argument constructor, two beans matching one field, and
  a package scan.
- `wrappers.dfy` (module `Wrappers`): `Option`, `Result` and `Outcome`.

The Java constructor can throw, and a Dafny constructor cannot fail, so the
constructor is `DIContainer.Create`, a static method returning a `Result`.
It builds the beans, allocates the container (the Dafny constructor is the
assignment `this.beans = ...`), and then wires. When wiring throws, the
allocated object is dropped and only the error is returned. In Java, the
half-built object becomes unreachable in the same way.

Java reports failures as exceptions. Here they are values:
`NoDefaultConstructor` (no no-argument constructor),
`InstantiationFailure` (the constructor throws, or the class is abstract),
`FieldAssignmentFailure` (a matched field cannot be written: a `static final`
field) and `NoSuchBean` (`orElseThrow` on an empty lookup).

A field that no bean matches keeps whatever it held before wiring: null, or
an object its constructor stored there. `Init`/`InitialValue` model this,
and the lemmas speak of the field's prior value.

## Model

| member | source | states |
|---|---|---|
| Container.DIContainer.Create | di/src/test/java/nextstep/study/di/stage3/context/DIContainer.java:18-21 | Building succeeds exactly when every constructor succeeds and no wired field is blocked. Otherwise the error is that of the first failing constructor, or else the first blocked field, and no container exists. On success there is exactly one fresh bean per input class, in input order, with no class twice. Every field holds its wired value, computed against the whole completed bean set from its value after construction. |
| Container.DIContainer.CreateBeans | di/src/test/java/nextstep/study/di/stage3/context/DIContainer.java:23-29 | Builds one fresh bean per class, in order, with its fields as the no-argument constructor leaves them; no bean occurs twice. It fails with the first class's error as soon as a constructor is missing or throws. |
| Container.FirstCtorErrorAt | di/src/test/java/nextstep/study/di/stage3/context/DIContainer.java:24-27 | When class `i` is the first whose constructor is missing or throws, construction fails with that class's error; later classes are never reached. |
| Container.FirstCtorError | di/src/test/java/nextstep/study/di/stage3/context/DIContainer.java:24-27 | Construction passes exactly when every class has a working no-argument constructor. Otherwise the error is the one of the first class, in iteration order, whose constructor is missing or throws. |
| Container.DIContainer.SetFields | di/src/test/java/nextstep/study/di/stage3/context/DIContainer.java:31-35 | Every declared field of the bean is visited, in the order `getDeclaredFields` returns them (which Java leaves unspecified), and the variant's eligible ones are assigned. The bean's new fields are WiredSlots of its old ones. The method fails exactly with the first blocked field's error. |
| Container.DIContainer.Assign | di/src/test/java/nextstep/study/di/stage3/context/DIContainer.java:37-42 | Scans the whole bean set, including the bean being wired, and overwrites the field on every match. The field ends up holding the last match, or keeps its old value when nothing matches. It throws, with nothing written, exactly when the field cannot be written and some bean matches. |
| Container.LastMatch | di/src/test/java/nextstep/study/di/stage3/context/DIContainer.java:39-41 | None exactly when no bean is an instance of the type. Otherwise it gives a matching bean of the set that no later bean in iteration order matches. |
| Container.WiredValue | di/src/test/java/nextstep/study/di/stage4/annotations/DIContainer.java:39-51 | A field that is not eligible keeps its value; in the annotation variant, only @Inject fields are eligible. A field whose type no bean matches keeps its value. An eligible field with a match holds a bean of the set that is an instance of its declared type. A field that changed always holds such a bean. |
| Container.FirstBlockedMeaning | di/src/test/java/nextstep/study/di/stage3/context/DIContainer.java:31-42 | Wiring one bean's fields throws exactly when one of its eligible fields is unwritable and matched. The error names the first such field in the order `getDeclaredFields` returns them, which Java leaves unspecified. |
| Container.WiringOutcomeMeaning | di/src/test/java/nextstep/study/di/stage3/context/DIContainer.java:20 | Wiring the bean set throws exactly when some field of some bean is blocked. The error names a blocked field of the first bean, in iteration order, that has one; `forEach` stops at that bean. |
| Container.DIContainer.WireBeans | di/src/test/java/nextstep/study/di/stage3/context/DIContainer.java:20 | `beans.forEach(setFields)`: wires the beans in iteration order and keeps the container valid. Each bean's fields become WiredSlots of their previous values, and no other bean is touched. The outcome is WiringOutcome of the bean set. |
| Container.WritableFieldsNeverBlock | di/src/test/java/nextstep/study/di/stage3/context/DIContainer.java:37-42 | Wiring always passes when every field of every bean to be wired can be written. Only an unwritable field can make it throw. |
| Container.UniqueMatchWired | di/src/test/java/nextstep/study/di/stage3/context/DIContainer.java:37-51 | When exactly one bean is an instance of a field's type, iteration order stops mattering. In every order of the bean set, an eligible field of that type holds that bean, and getBean of that type returns it. |
| Container.FirstMatch | di/src/test/java/nextstep/study/di/stage3/context/DIContainer.java:46-48 | None exactly when no bean is an instance of the type. Otherwise it gives a matching bean of the set that no earlier bean in iteration order matches. |
| Container.DIContainer.GetBean | di/src/test/java/nextstep/study/di/stage3/context/DIContainer.java:44-51 | Fails with NoSuchBean(T) exactly when no bean is an instance of T. Otherwise it returns the first bean, in iteration order, that is an instance of T. It reads and changes nothing else. |
| Annotations.FilterComponents | di/src/test/java/nextstep/study/di/stage4/annotations/DIContainer.java:26-28 | Keeps exactly the scanned classes tagged @Service or @Repository (logical OR), without duplicates. It is empty exactly when no scanned class is tagged. |
| Annotations.ComponentCount | di/src/test/java/nextstep/study/di/stage4/annotations/DIContainer.java:23-29 | Of N tagged and M untagged distinct scanned classes, the filter keeps exactly N, and N + M is the number scanned. |
| Annotations.CreateContainerForPackage | di/src/test/java/nextstep/study/di/stage4/annotations/DIContainer.java:23-29 | Builds the container from the filtered classes with only @Inject fields wired, and has Create's outcome for them. A package with no tagged class gives a valid container with no beans. |
| Scenarios.UserServiceWiring | di/src/test/java/nextstep/study/di/stage3/context/DIContainer.java:37-51 | In any bean set of UserService and UserRepository, in that order, the service's field is wired to the repository bean, and each class's lookup finds its own bean. |
| Scenarios.UserServiceScenario | di/src/test/java/nextstep/study/di/stage3/context/DIContainer.java:18-51 | Registering {UserService, UserRepository} gives two beans. getBean finds each of them, and the service's field refers to the repository bean of the same container. |
| Scenarios.UnregisteredLookupScenario | di/src/test/java/nextstep/study/di/stage3/context/DIContainer.java:44-51 | A container built from {ServiceA} fails the lookup of ServiceB with NoSuchBean. |
| Scenarios.FailFastScenario | di/src/test/java/nextstep/study/di/stage3/context/DIContainer.java:18-29 | A class without a no-argument constructor among classes that would build fine makes construction fail with NoDefaultConstructor, and no container is produced. |
| Scenarios.AmbiguousWiring | di/src/test/java/nextstep/study/di/stage3/context/DIContainer.java:37-51 | Among beans JdbcRepo, MemoryRepo and Client, in that order, the client's Repo field is wired to MemoryRepo, the last match. A lookup of Repo finds JdbcRepo, the first. |
| Scenarios.AmbiguousMatchScenario | di/src/test/java/nextstep/study/di/stage3/context/DIContainer.java:37-51 | With two beans implementing Repo, a Repo field holds the later one in iteration order, and getBean(Repo) returns the earlier one. |
| Scenarios.PackageFilter | di/src/test/java/nextstep/study/di/stage4/annotations/DIContainer.java:26-28 | Scanning a package with a @Service, a @Repository and an untagged class keeps the two tagged classes, in scan order. The scan returns distinct classes that the universe knows. |
| Scenarios.PackageWiring | di/src/test/java/nextstep/study/di/stage4/annotations/DIContainer.java:39-51 | In that package's bean set, the service's @Inject field gets the repository bean, and its untagged field of the same type keeps null. |
| Scenarios.PackageScanScenario | di/src/test/java/nextstep/study/di/stage4/annotations/DIContainer.java:18-60 | Building that package gives two beans. The service's @Inject field refers to the repository bean, and its untagged field of the same type stays null. |

Lines 31-37, 46-51 and 53-60 of `di/src/test/java/nextstep/study/di/stage4/annotations/DIContainer.java` (createBeans, assign, getBean) and lines
18-21 (the constructor) repeat the plain container's code line for line.
The shared members above model both files. The variant differs only in
`Eligible`, which keeps only @Inject fields (line 41).

## Left out

- Reflection mechanics (`getDeclaredConstructor`, `setAccessible`, `newInstance`, `Field.set`, `isInstance`, `isAnnotationPresent`) are replaced by the `Universe` data. What a constructor does besides returning is not modelled, and neither is anything it does to other objects.
- `ClassPathScanner.getAllClassesInPackage` is not part of this model. It does class-path I/O, so it is the parameter `scan` of `CreateContainerForPackage`, assumed to return distinct classes that the universe knows.
- `FunctionWrapper` and `ConsumerWrapper` are not part of this model. They are taken to rethrow every checked exception, so any failure aborts the whole operation.
- HashSet iteration order: the input class set is a duplicate-free sequence in an arbitrary order. The bean set is iterated in the order its beans were created. In Java the two orders are unrelated, and both are unspecified. Every property above holds for every input order. Where the result depends on the order (several matches, several failures), the contracts state it relative to that order.
- The bean set is a list of distinct objects. A bean class that overrides `equals`/`hashCode` so that two beans compare equal would shrink the Java set; this is not modelled.
- Field order: `getDeclaredFields` returns fields in an order Java leaves unspecified, and the model takes it as the order of `fields`. When a bean has several blocked fields, which one the `FieldAssignmentFailure` names depends on that order.
- Static fields are treated like instance fields of the one bean of their class. Only their writability matters: a `static final` field cannot be written.
- `IsSubtype` takes each class's `supertypes` set to be transitively closed, as Java's class hierarchy is. It does not check this.
