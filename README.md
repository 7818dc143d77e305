# DarkMagic runtime toolkit — a Dafny model

This project models the core of DarkMagic, a small Swift toolkit over the Objective-C runtime.
It has two independent parts and one client of the first:

- **Associated objects** (`AssociatedObjects.swift`): typed accessors over the runtime's side table.
  The table maps (object, key) to a value. The repository adds three things on top of the raw
  `objc_getAssociatedObject` / `objc_setAssociatedObject` / `objc_removeAssociatedObjects`:
  get-or-initialise (read, conditional write, re-read), an optional get that writes only when an
  initializer is given and the slot is empty, and remove-returning-the-old-value.
- **Method swizzling** (`Swizzler.swift`): `swizzle(_:with:methodType:)` uses add-if-missing, then
  replace or exchange. `replace(_:withBlock:methodType:)` sets a block's implementation on the
  entry that lookup finds. The older internal `swizzle(_:with:)` only exchanges, and does nothing
  when an instance method is missing.
- **KVObserver** (`KVObserver.swift`): an object keeps its observation handles in a set stored under
  one associated-object key. The set is created empty on first access. `observe` inserts into it
  and `clearObservations` empties it.

Module layout: `wrappers.dfy` (Option, Result), `associated_objects.dfy` (module `AssociatedObjects`),
`swizzler.dfy` (module `Swizzler`), `kv_observer.dfy` (module `KVObserver`).

How the runtime is represented:

- The association table is the class `AssociationTable<V>`. Its field `entries: map<(ObjectId, Key), V>`
  is changed in place by its primitives. A missing slot means "no association".
- Keys are objects of the class `Key`. The runtime compares keys by the address of the C string
  buffer that each key instance allocates, so key identity is Dafny reference identity. Two keys
  built from the same string are different slots.
- The class `ObjcRuntime` holds the registered classes. Each class has a superclass pointer and two
  tables of its *own* methods: instance methods and class methods (the metaclass's table).
- `FindMethod` is `class_getInstanceMethod`. It returns the entry of the nearest class in the chain
  that owns the selector. That (owner, selector) entry is the runtime's `Method`.
- The root metaclass's superclass is the root class, as in the Objective-C runtime.
- The runtime primitives (`class_addMethod`, `class_replaceMethod`, `method_exchangeImplementations`,
  `method_setImplementation`) follow Apple's documented behaviour. They are pure functions over the
  table value, and `ObjcRuntime` methods apply them in place.
- The Swift operations are methods over the runtime object. Each is specified by a pure function.
  The lemmas state what that function guarantees.

Facts about the code that shape the model:

- Keys compare by the address of their own C string buffer, so two keys built from the same string
  are different slots (`SameNameKeysScenario`).
- `clearObservations` only empties the set of handles.
- `KVObserver.swift:18` and `:21` call `getAssociatedObject(for:initialValue:)` and
  `setAssociatedObject(_:for:)`. `AssociatedObjects.swift` declares only the `forKey:` labels. The
  model calls the `forKey:` operations.

## Model

| member | source | states |
|---|---|---|
| AssociatedObjects.Key.constructor | Sources/Shared/AssociatedObjects.swift:15-18 | a key keeps its name and the default policy OBJC_ASSOCIATION_RETAIN_NONATOMIC; every key is a fresh identity |
| AssociatedObjects.Key.WithPolicy | Sources/Shared/AssociatedObjects.swift:15-18 | a key built with an explicit policy keeps that policy |
| AssociatedObjects.Put | Sources/Shared/AssociatedObjects.swift:68-70 | after a set, the slot holds exactly the given optional (nil clears it), and every other (object, key) slot is unchanged |
| AssociatedObjects.RemoveAll | Sources/Shared/AssociatedObjects.swift:117-120 | removing all associations empties every slot of that object and leaves other objects' slots untouched |
| AssociatedObjects.GetOrInit | Sources/Shared/AssociatedObjects.swift:42-49 | the initializer runs iff the slot was empty; afterwards the slot holds the returned value; an occupied slot is returned with the table unchanged; an empty one gets the initializer's value; other slots unchanged |
| AssociatedObjects.GetOptional | Sources/Shared/AssociatedObjects.swift:76-83 | with no initializer the table never changes and the slot's value is returned; with one, the initializer runs and its result is stored and returned only when the slot was empty; other slots unchanged |
| AssociatedObjects.Remove | Sources/Shared/AssociatedObjects.swift:85-96 | remove returns the association present before the call; afterwards the slot is empty; other slots unchanged |
| AssociatedObjects.GetOrInitIsStable | Sources/Shared/AssociatedObjects.swift:42-49 | a second get-with-initializer returns the value the first stored, runs no initializer and leaves the table unchanged |
| AssociatedObjects.SetThenGet | Sources/Shared/AssociatedObjects.swift:68-96 | after setting a value, a plain get returns it without writing, and remove returns it |
| AssociatedObjects.AssociationTable.GetAssociated | Sources/Shared/AssociatedObjects.swift:43 | objc_getAssociatedObject returns the slot's association, or nil |
| AssociatedObjects.AssociationTable.SetAssociated | Sources/Shared/AssociatedObjects.swift:35 | objc_setAssociatedObject replaces the table by the set described by Put |
| AssociatedObjects.AssociationTable.RemoveAssociated | Sources/Shared/AssociatedObjects.swift:119 | objc_removeAssociatedObjects replaces the table by the one described by RemoveAll |
| AssociatedObjects.SetAssociatedObject | Sources/Shared/AssociatedObjects.swift:34-36 | setting a required key stores the value in the receiver's slot and changes no other slot |
| AssociatedObjects.GetAssociatedObject | Sources/Shared/AssociatedObjects.swift:42-49 | read, conditional write, re-read and force unwrap return exactly what GetOrInit specifies and leave its table |
| AssociatedObjects.SubscriptGet | Sources/Shared/AssociatedObjects.swift:51-54 | the required-key subscript getter behaves exactly as getAssociatedObject(forKey:initialValue:) |
| AssociatedObjects.SubscriptSet | Sources/Shared/AssociatedObjects.swift:55-57 | the required-key subscript setter behaves exactly as setAssociatedObject(_:forKey:) |
| AssociatedObjects.SetOptionalAssociatedObject | Sources/Shared/AssociatedObjects.swift:68-70 | setting an optional key stores the optional; nil clears the association |
| AssociatedObjects.GetOptionalAssociatedObject | Sources/Shared/AssociatedObjects.swift:76-83 | the optional get returns exactly what GetOptional specifies and leaves its table |
| AssociatedObjects.RemoveAssociatedObject | Sources/Shared/AssociatedObjects.swift:89-96 | get then set nil returns the previous association and leaves the slot empty, as Remove specifies |
| AssociatedObjects.OptionalSubscriptGet | Sources/Shared/AssociatedObjects.swift:98-101 | the optional-key subscript getter with a `(() -> T)?` initializer behaves exactly as the optional get |
| AssociatedObjects.PlainOptionalSubscriptGet | Sources/Shared/AssociatedObjects.swift:107-110 | the optional-key subscript getter without initializer returns the slot's association and never writes |
| AssociatedObjects.OptionalSubscriptSet | Sources/Shared/AssociatedObjects.swift:102-104 | both optional-key subscript setters behave exactly as setAssociatedObject(_:forKey:) on an optional key |
| AssociatedObjects.RemoveAllAssociatedObjects | Sources/Shared/AssociatedObjects.swift:117-120 | the receiver's slots are all emptied, other objects' slots untouched |
| AssociatedObjects.AttachReadRemoveScenario | Sources/Shared/AssociatedObjects.swift:68-96 | on an object with no associations: set "a", get gives "a", remove returns "a", get gives nil |
| AssociatedObjects.SameNameKeysScenario | Sources/Shared/AssociatedObjects.swift:13-16 | a value set through one key is not visible through another key built from the same string |
| Swizzler.FindMethod | Sources/Shared/Swizzler.swift:15-16 | class_getInstanceMethod returns an entry for the selector owned by a class in the chain, the class's own entry when it has one, the nearest owner's entry (every other owner in the chain is an ancestor of it), and nil only when no class in the chain owns the selector |
| Swizzler.ClassGetMethod | Sources/Shared/Swizzler.swift:84-89 | `.instance` looks up in the chain of the given class, `.class` in the chain of its metaclass; a found entry belongs to the nearest owner in that chain, nil means no class of that chain owns it |
| Swizzler.ReplaceMethod | Sources/Shared/Swizzler.swift:51-54 | class_replaceMethod binds the selector in the class's own table, adding it if missing, and changes no other table or superclass |
| Swizzler.AddMethod | Sources/Shared/Swizzler.swift:45-48 | class_addMethod adds iff the class does not own the selector, says whether it did, and otherwise changes nothing |
| Swizzler.SetImplementation | Sources/Shared/Swizzler.swift:78 | method_setImplementation rebinds the entry in its owner's table and changes no other entry or ownership |
| Swizzler.Exchange | Sources/Shared/Swizzler.swift:56 | method_exchangeImplementations swaps the two entries' implementations wherever they live and changes no other entry or ownership |
| Swizzler.ImplOf | Sources/Shared/Swizzler.swift:47 | method_getImplementation reads the entry's implementation from its owner's table: the instance-method table of a class, the class-method table of a metaclass |
| Swizzler.ObjcRuntime.MethodGetImplementation | Sources/Shared/Swizzler.swift:47-53 | method_getImplementation on the runtime returns the implementation ImplOf gives for the entry and changes nothing |
| Swizzler.ImplementationWithBlock | Sources/Shared/Swizzler.swift:76 | imp_implementationWithBlock yields the trampoline of the given block, never the address of a compiled method |
| Swizzler.ObjectGetClass | Sources/Shared/Swizzler.swift:37 | object_getClass on a class object yields the metaclass of that same class |
| Swizzler.TargetClass | Sources/Shared/Swizzler.swift:37 | the class edited is the target itself or its metaclass, and it is the metaclass exactly when the method type is `.class` |
| Swizzler.Swizzled | Sources/Shared/Swizzler.swift:35-58 | swizzle fails with methodNotFound iff a lookup at the chosen scope fails; on success the class hierarchy is unchanged and well formed |
| Swizzler.Replaced | Sources/Shared/Swizzler.swift:67-80 | replace fails with methodNotFound iff the lookup fails; on success only implementations change, never which class owns which selector |
| Swizzler.ExchangedInstanceMethods | Sources/Shared/Swizzler.swift:14-18 | the internal swizzle changes nothing when either instance method is missing, and otherwise is exactly the exchange of the two entries lookup found; it never changes ownership |
| Swizzler.FindMethodFollowsOwnership | Sources/Shared/Swizzler.swift:39-42 | lookup depends only on which classes own which selectors, so exchanging or setting implementations never changes what lookup finds |
| Swizzler.LookupAvoidsUnrelatedClass | Sources/Shared/Swizzler.swift:45-54 | editing one class's table changes no lookup and no dispatch from a class whose chain avoids it |
| Swizzler.ExchangeIsInvolution | Sources/Shared/Swizzler.swift:56 | exchanging the same two entries twice restores every table |
| Swizzler.SwizzleLocalizesInheritedOriginal | Sources/Shared/Swizzler.swift:45-54 | when the class does not own the original selector, it afterwards owns original bound to the old swizzled implementation and swizzled bound to the old original implementation, and no other table changes, including the ancestor that supplied the original |
| Swizzler.SwizzleExchangesWhenOwned | Sources/Shared/Swizzler.swift:50-57 | when the class owns the original selector, the two resolved entries swap implementations (an inherited swizzled entry is swapped in its ancestor); the hierarchy and which class owns which selector are unchanged, and no other entry changes |
| Swizzler.SwizzleTwiceRestoresOwnedPair | Sources/Shared/Swizzler.swift:56 | when the class owns both selectors, swizzling twice restores every table |
| Swizzler.SwizzleTwiceRestoresDispatch | Sources/Shared/Swizzler.swift:45-57 | after any successful swizzle, a second one succeeds and restores what both selectors dispatch to on the class |
| Swizzler.SwizzleLeavesOtherBranchesAlone | Sources/Shared/Swizzler.swift:45-54 | swizzling an inherited original leaves every class whose chain avoids the target, such as a sibling, dispatching as before |
| Swizzler.SwizzleEditsOnlyLookupChain | Sources/Shared/Swizzler.swift:37-57 | a successful swizzle edits only tables in the lookup chain of the class it targets |
| Swizzler.ReplaceEditsOnlyLookupChain | Sources/Shared/Swizzler.swift:69-78 | a successful replace edits only a table in the lookup chain of the class it targets |
| Swizzler.ClassChainHasNoMetaclass | Sources/Shared/Swizzler.swift:86 | the instance lookup chain of a class contains only classes |
| Swizzler.MetaclassChainReachesOnlyRootClass | Sources/Shared/Swizzler.swift:87 | the class-method lookup chain reaches a class's instance table only at the root class |
| Swizzler.ScopeSelectsTables | Sources/Shared/Swizzler.swift:37 | an edit confined to the target's chain at `.instance` never touches a class-method table, and at `.class` never touches the instance table of a non-root class |
| Swizzler.ReplaceInstallsOnResolvedEntry | Sources/Shared/Swizzler.swift:71-78 | replace installs the new implementation on the entry lookup returned (owned by the nearest defining ancestor when inherited) and changes no other entry |
| Swizzler.ReplaceReachesEveryInheritor | Sources/Shared/Swizzler.swift:71-78 | after replace, every class that resolved the selector to that entry, including the ancestor's other subclasses, dispatches to the new implementation |
| Swizzler.InternalSwizzleExchangesResolvedEntries | Sources/Shared/Swizzler.swift:14-18 | the internal swizzle exchanges the resolved entries in place: ownership does not change, and every class resolving to the original entry now runs the replacement's old implementation |
| Swizzler.ObjcRuntime.ClassAddMethod | Sources/Shared/Swizzler.swift:45-48 | class_addMethod applies AddMethod to the runtime's tables in place |
| Swizzler.ObjcRuntime.ClassReplaceMethod | Sources/Shared/Swizzler.swift:51-54 | class_replaceMethod applies ReplaceMethod in place |
| Swizzler.ObjcRuntime.MethodExchangeImplementations | Sources/Shared/Swizzler.swift:56 | method_exchangeImplementations applies Exchange in place |
| Swizzler.ObjcRuntime.MethodSetImplementation | Sources/Shared/Swizzler.swift:78 | method_setImplementation applies SetImplementation in place |
| Swizzler.Swizzle | Sources/Shared/Swizzler.swift:35-58 | two lookups, then add and replace or exchange, step by step: throws methodNotFound with the tables unchanged, or leaves exactly the tables Swizzled specifies |
| Swizzler.Replace | Sources/Shared/Swizzler.swift:67-80 | throws methodNotFound with the tables unchanged, or sets the block's implementation on the found entry as Replaced specifies |
| Swizzler.SwizzleInstanceMethods | Sources/Shared/Swizzler.swift:14-18 | returns silently when either instance method is missing, otherwise exchanges them, as ExchangedInstanceMethods specifies |
| Swizzler.SiblingScenario | Sources/Shared/Swizzler.swift:45-54 | with C and D both inheriting foo from Base, swizzling foo with bar on C makes C's foo run C's old bar and C's bar run Base's foo, while Base and D still run Base's foo |
| KVObserver.GetObservations | Sources/Shared/KVObserver.swift:16-19 | reading `observations` returns the stored set, or stores an empty set and returns it when none is stored |
| KVObserver.SetObservations | Sources/Shared/KVObserver.swift:20-22 | assigning `observations` stores exactly the given set under the observations key |
| KVObserver.Observe | Sources/Shared/KVObserver.swift:35-42 | observe returns a new handle; the stored set becomes the previous set plus that handle and grows by exactly one; no other slot changes |
| KVObserver.ClearObservations | Sources/Shared/KVObserver.swift:44-46 | afterwards the stored set is empty and no other slot changes |

## Left out

- Association policies: lifetime is not modelled. This covers weak (`assign`) references that go stale, copying, atomic variants, and teardown when the host object is deallocated. The table keeps every stored value.
- AssociatedObjects.GetAssociatedObject: requires a retaining policy. Under `assign` the re-read at `AssociatedObjects.swift:46` could find the value already released, and the force unwrap at `:48` would trap.
- Dynamic casting with `as? T`: each table has one value type `V`, so the cast always succeeds. A value of another type stored under the same key is not modelled.
- Thread safety and atomicity: the code does no synchronisation, and the model is sequential.
- Implementation plumbing: type encodings (`method_getTypeEncoding`), block trampolines and executing implementations. An implementation is an opaque token.
- Swizzler.ImplementationWithBlock: `imp_implementationWithBlock` makes a new trampoline on every call. The model names the trampoline by its block, so two calls with one block give equal tokens.
- Failed runtime calls: `object_getClass` on a class always yields its metaclass, so the force unwrap at `Swizzler.swift:37` never fails. A call on a nil class is not modelled.
- Registration order: classes are numbered in registration order, and a superclass always has a smaller number than its subclasses. This gives lookup its termination measure. Registering classes at run time is not modelled.
- KVObserver.ClearObservations: the observations are cancelled by Foundation when their handles are released, which is not modelled; the operation only empties the stored set.
- Key-value observing: Foundation's `observe`, its options and change handlers, and the invalidation of a handle when it is released are not modelled. A handle is a fresh object, and the observed object and key path are parameters that are not used.
- KVObserver: the static key `AssociatedObjectKeys.observations` is passed to each operation as the parameter `key`.
- `Package.swift` is not part of this model (build descriptor).
