/**
 * Method swizzling (Sources/Shared/Swizzler.swift) over an explicit model of
 * the Objective-C runtime's method tables.
 *
 * Every registered class has a superclass pointer and two tables of its OWN
 * methods: the instance methods, and the class methods (the methods of its
 * metaclass). Lookup walks the superclass chain to the nearest class that owns
 * the selector; the runtime's `Method` handle is that (owner, selector) entry.
 * The runtime's primitives are pure functions over the table value here, and
 * methods of the class `ObjcRuntime`, which holds the tables and changes them in
 * place. `swizzle` and `replace` are methods over that runtime object.
 */
module Swizzler {
  import opened Wrappers

  /** A selector (SEL). The runtime interns selectors by name, so equal names are one selector. */
  type Selector = string

  /** An implementation pointer (IMP), an opaque token. `BlockImp` is the trampoline made for a block. */
  datatype Impl = Imp(address: nat) | BlockImp(block: nat)

  /** DarkMagicError; `methodNotFound` is the only case these operations throw. */
  datatype DarkMagicError = MethodNotFound

  /** MethodType: patch an instance method or a class method. */
  datatype MethodType = Instance | Class

  /** Classes are numbered in registration order: a superclass is always registered before its subclasses. */
  type ClassId = nat

  /** A registered class: its superclass and the methods it defines itself, for instances and for the class. */
  datatype ClassRecord = ClassRecord(
    superclass: Option<ClassId>,
    instanceMethods: map<Selector, Impl>,
    classMethods: map<Selector, Impl>)

  type Classes = map<ClassId, ClassRecord>

  /** A class object, or the metaclass of a class (whose own methods are the class methods). */
  datatype ClassRef = Cls(id: ClassId) | Meta(id: ClassId)

  /** The runtime's `Method`: the entry for `name` in the own table of `owner`. */
  datatype Method = Method(owner: ClassRef, name: Selector)

  /** Every superclass pointer names a class registered earlier. */
  ghost predicate WellFormed(h: Classes)
  {
    forall c | c in h && h[c].superclass.Some? :: h[c].superclass.value in h && h[c].superclass.value < c
  }

  /**
   * The superclass of a class or metaclass. A metaclass's superclass is the
   * superclass's metaclass, and the root metaclass's superclass is the root class.
   */
  function Superclass(h: Classes, r: ClassRef): Option<ClassRef>
    requires r.id in h
  {
    var sup := h[r.id].superclass;
    match r
    case Cls(_) => if sup.Some? then Some(Cls(sup.value)) else None
    case Meta(id) => if sup.Some? then Some(Meta(sup.value)) else Some(Cls(id))
  }

  /** The own method table of a class (its instance methods) or of a metaclass (the class methods). */
  function Methods(h: Classes, r: ClassRef): map<Selector, Impl>
    requires r.id in h
  {
    match r
    case Cls(id) => h[id].instanceMethods
    case Meta(id) => h[id].classMethods
  }

  /** `r` itself defines `sel`. */
  predicate Owns(h: Classes, r: ClassRef, sel: Selector)
  {
    r.id in h && sel in Methods(h, r)
  }

  /** `a` is `r` or one of its superclasses. */
  ghost predicate InChain(h: Classes, r: ClassRef, a: ClassRef)
    requires WellFormed(h)
    decreases if r.Meta? then 1 else 0, r.id
  {
    r.id in h &&
    (r == a ||
     match Superclass(h, r)
     case None => false
     case Some(s) => InChain(h, s, a))
  }

  /**
   * class_getInstanceMethod: the entry of the nearest class in the chain of `r`
   * that defines `sel`, or nil when no class in the chain defines it.
   */
  function FindMethod(h: Classes, r: ClassRef, sel: Selector): (m: Option<Method>)
    requires WellFormed(h)
    ensures m.Some? ==> m.value.name == sel && Owns(h, m.value.owner, sel) && InChain(h, r, m.value.owner)
    ensures Owns(h, r, sel) ==> m == Some(Method(r, sel))
    ensures m.None? ==> forall a | InChain(h, r, a) :: !Owns(h, a, sel)
    ensures m.Some? ==> forall a | InChain(h, r, a) && Owns(h, a, sel) :: InChain(h, m.value.owner, a)
    decreases if r.Meta? then 1 else 0, r.id
  {
    if r.id !in h then None
    else if sel in Methods(h, r) then Some(Method(r, sel))
    else
      match Superclass(h, r)
      case None => None
      case Some(s) => FindMethod(h, s, sel)
  }

  /** method_getImplementation */
  function ImplOf(h: Classes, m: Method): (imp: Impl)
    requires Owns(h, m.owner, m.name)
    ensures m.owner.Cls? ==> imp == h[m.owner.id].instanceMethods[m.name]
    ensures m.owner.Meta? ==> imp == h[m.owner.id].classMethods[m.name]
  {
    Methods(h, m.owner)[m.name]
  }

  /** What a message `sel` sent to an instance of `r` (or to `r` itself, for a metaclass) runs. */
  function Dispatch(h: Classes, r: ClassRef, sel: Selector): Option<Impl>
    requires WellFormed(h)
  {
    match FindMethod(h, r, sel)
    case None => None
    case Some(m) => Some(ImplOf(h, m))
  }

  /** `h'` registers the same classes with the same superclasses as `h`. */
  ghost predicate SameHierarchy(h: Classes, h': Classes)
  {
    h'.Keys == h.Keys && forall c | c in h :: h'[c].superclass == h[c].superclass
  }

  /** Every class and metaclass defines the same selectors in `h'` as in `h` (implementations may differ). */
  ghost predicate SameOwnership(h: Classes, h': Classes)
    requires SameHierarchy(h, h')
  {
    forall r: ClassRef | r.id in h :: Methods(h', r).Keys == Methods(h, r).Keys
  }

  /** class_replaceMethod: binds `sel` to `imp` in the own table of `r`, adding the entry when it is missing. */
  function ReplaceMethod(h: Classes, r: ClassRef, sel: Selector, imp: Impl): (h': Classes)
    requires r.id in h
    ensures SameHierarchy(h, h') && (WellFormed(h) ==> WellFormed(h'))
    ensures Methods(h', r) == Methods(h, r)[sel := imp]
    ensures forall y | y != r && y.id in h :: Methods(h', y) == Methods(h, y)
  {
    var c := h[r.id];
    match r
    case Cls(id) => h[id := c.(instanceMethods := c.instanceMethods[sel := imp])]
    case Meta(id) => h[id := c.(classMethods := c.classMethods[sel := imp])]
  }

  /** class_addMethod: adds the entry only when `r` does not define `sel` itself, and says whether it did. */
  function AddMethod(h: Classes, r: ClassRef, sel: Selector, imp: Impl): (res: (bool, Classes))
    ensures res.0 <==> r.id in h && !Owns(h, r, sel)
    ensures !res.0 ==> res.1 == h
    ensures res.0 ==> res.1 == ReplaceMethod(h, r, sel, imp)
  {
    if r.id in h && !Owns(h, r, sel) then (true, ReplaceMethod(h, r, sel, imp)) else (false, h)
  }

  /** method_setImplementation: rebinds the entry in its owner's table, wherever that owner is. */
  function SetImplementation(h: Classes, m: Method, imp: Impl): (h': Classes)
    requires Owns(h, m.owner, m.name)
    ensures SameHierarchy(h, h') && SameOwnership(h, h') && (WellFormed(h) ==> WellFormed(h'))
    ensures ImplOf(h', m) == imp
    ensures forall y, s | Owns(h, y, s) && Method(y, s) != m :: Methods(h', y)[s] == Methods(h, y)[s]
  {
    ReplaceMethod(h, m.owner, m.name, imp)
  }

  /** method_exchangeImplementations: swaps the implementations of two entries, wherever they live. */
  function Exchange(h: Classes, m1: Method, m2: Method): (h': Classes)
    requires Owns(h, m1.owner, m1.name) && Owns(h, m2.owner, m2.name)
    ensures SameHierarchy(h, h') && SameOwnership(h, h') && (WellFormed(h) ==> WellFormed(h'))
    ensures ImplOf(h', m1) == ImplOf(h, m2) && ImplOf(h', m2) == ImplOf(h, m1)
    ensures forall y, s | Owns(h, y, s) && Method(y, s) != m1 && Method(y, s) != m2 :: Methods(h', y)[s] == Methods(h, y)[s]
  {
    var i1 := ImplOf(h, m1);
    var i2 := ImplOf(h, m2);
    SetImplementation(SetImplementation(h, m1, i2), m2, i1)
  }

  /** imp_implementationWithBlock: the trampoline that calls `block`. */
  function ImplementationWithBlock(block: nat): (imp: Impl)
    ensures imp.BlockImp? && imp.block == block
    ensures forall address :: imp != Imp(address)
  {
    BlockImp(block)
  }

  /** object_getClass on a class object: its metaclass. */
  function ObjectGetClass(target: ClassId): (c: ClassRef)
    ensures c.Meta? && c.id == target
  {
    Meta(target)
  }

  /** The class whose tables a patch of `target` at `methodType` edits: the class itself, or its metaclass. */
  function TargetClass(target: ClassId, methodType: MethodType): (r: ClassRef)
    ensures r.id == target
    ensures r.Meta? <==> methodType == Class
  {
    match methodType
    case Instance => Cls(target)
    case Class => ObjectGetClass(target)
  }

  /**
   * `class_getMethod`: class_getInstanceMethod, or class_getClassMethod, which
   * looks the selector up on the metaclass of `cls` (on `cls` itself when it
   * already is a metaclass).
   */
  function ClassGetMethod(h: Classes, cls: ClassRef, name: Selector, methodType: MethodType): (m: Option<Method>)
    requires WellFormed(h)
    ensures var start := if methodType == Instance then cls else Meta(cls.id);
            && (m.Some? ==> m.value.name == name && Owns(h, m.value.owner, name) && InChain(h, start, m.value.owner))
            && (m.None? ==> forall a | InChain(h, start, a) :: !Owns(h, a, name))
            && (m.Some? ==> forall a | InChain(h, start, a) && Owns(h, a, name) :: InChain(h, m.value.owner, a))
  {
    match methodType
    case Instance => FindMethod(h, cls, name)
    case Class => FindMethod(h, Meta(cls.id), name)
  }

  /**
   * The tables after `swizzle(_:with:methodType:)` on the class `target`: both
   * lookups, then add `original` to the target class bound to the swizzled
   * implementation; if that added an entry, bind `swizzled` in the target class
   * to the original implementation, and otherwise exchange the two entries.
   */
  function Swizzled(h: Classes, target: ClassId, original: Selector, swizzled: Selector, methodType: MethodType)
    : (r: Result<Classes, DarkMagicError>)
    requires WellFormed(h)
    ensures var cls := TargetClass(target, methodType);
            r.Failure? <==> ClassGetMethod(h, cls, original, methodType).None? || ClassGetMethod(h, cls, swizzled, methodType).None?
    ensures r.Failure? ==> r.error == MethodNotFound
    ensures r.Success? ==> WellFormed(r.value) && SameHierarchy(h, r.value)
  {
    var cls := TargetClass(target, methodType);
    match (ClassGetMethod(h, cls, original, methodType), ClassGetMethod(h, cls, swizzled, methodType))
    case (Some(om), Some(sm)) =>
      var added := AddMethod(h, cls, original, ImplOf(h, sm));
      if added.0 then
        Success(ReplaceMethod(added.1, cls, swizzled, ImplOf(h, om)))
      else
        Success(Exchange(h, om, sm))
    case _ => Failure(MethodNotFound)
  }

  /** The tables after `replace(_:withBlock:methodType:)` installs `imp` on the entry that lookup finds. */
  function Replaced(h: Classes, target: ClassId, original: Selector, imp: Impl, methodType: MethodType)
    : (r: Result<Classes, DarkMagicError>)
    requires WellFormed(h)
    ensures r.Failure? <==> ClassGetMethod(h, TargetClass(target, methodType), original, methodType).None?
    ensures r.Failure? ==> r.error == MethodNotFound
    ensures r.Success? ==> WellFormed(r.value) && SameHierarchy(h, r.value) && SameOwnership(h, r.value)
  {
    var cls := TargetClass(target, methodType);
    match ClassGetMethod(h, cls, original, methodType)
    case None => Failure(MethodNotFound)
    case Some(m) => Success(SetImplementation(h, m, imp))
  }

  /** The tables after the internal `swizzle(_:with:)`: a plain exchange of the two instance methods, or nothing. */
  function ExchangedInstanceMethods(h: Classes, target: ClassId, original: Selector, replacement: Selector): (h': Classes)
    requires WellFormed(h)
    ensures WellFormed(h') && SameHierarchy(h, h') && SameOwnership(h, h')
    ensures FindMethod(h, Cls(target), original).None? || FindMethod(h, Cls(target), replacement).None? ==> h' == h
    ensures FindMethod(h, Cls(target), original).Some? && FindMethod(h, Cls(target), replacement).Some? ==>
              h' == Exchange(h, FindMethod(h, Cls(target), original).value, FindMethod(h, Cls(target), replacement).value)
  {
    match (FindMethod(h, Cls(target), original), FindMethod(h, Cls(target), replacement))
    case (Some(om), Some(sm)) => Exchange(h, om, sm)
    case _ => h
  }

  /** Lookup depends only on which classes define which selectors, not on what they are bound to. */
  lemma {:induction false} FindMethodFollowsOwnership(h: Classes, h': Classes, r: ClassRef, sel: Selector)
    requires WellFormed(h) && SameHierarchy(h, h') && SameOwnership(h, h')
    ensures WellFormed(h') && FindMethod(h', r, sel) == FindMethod(h, r, sel)
    decreases if r.Meta? then 1 else 0, r.id
  {
    if r.id in h && sel !in Methods(h, r) {
      match Superclass(h, r)
      case None =>
      case Some(s) => FindMethodFollowsOwnership(h, h', s, sel);
    }
  }

  /** Changing only the own table of `x` changes no lookup and no dispatch from a class whose chain avoids `x`. */
  lemma {:induction false} LookupAvoidsUnrelatedClass(h: Classes, h': Classes, r: ClassRef, sel: Selector, x: ClassRef)
    requires WellFormed(h) && SameHierarchy(h, h')
    requires forall y | y != x && y.id in h :: Methods(h', y) == Methods(h, y)
    requires !InChain(h, r, x)
    ensures WellFormed(h')
    ensures FindMethod(h', r, sel) == FindMethod(h, r, sel)
    ensures Dispatch(h', r, sel) == Dispatch(h, r, sel)
    decreases if r.Meta? then 1 else 0, r.id
  {
    if r.id in h && sel !in Methods(h, r) {
      match Superclass(h, r)
      case None =>
      case Some(s) => LookupAvoidsUnrelatedClass(h, h', s, sel, x);
    }
  }

  /** Classes with the same superclasses and the same own tables are the same classes. */
  lemma TablesDetermineClasses(h: Classes, h': Classes)
    requires SameHierarchy(h, h')
    requires forall y: ClassRef | y.id in h :: Methods(h', y) == Methods(h, y)
    ensures h' == h
  {
    forall c | c in h
      ensures h'[c] == h[c]
    {
      assert Methods(h', Cls(c)) == Methods(h, Cls(c));
      assert Methods(h', Meta(c)) == Methods(h, Meta(c));
    }
  }

  /** Exchanging the same two entries twice restores the entry for `s` in the table of `y`. */
  lemma ExchangeTwiceAt(h: Classes, m1: Method, m2: Method, y: ClassRef, s: Selector)
    requires Owns(h, m1.owner, m1.name) && Owns(h, m2.owner, m2.name) && Owns(h, y, s)
    ensures var h1 := Exchange(h, m1, m2);
            Owns(h1, m1.owner, m1.name) && Owns(h1, m2.owner, m2.name) && Owns(h1, y, s) &&
            Methods(Exchange(h1, m1, m2), y)[s] == Methods(h, y)[s]
  {
    var h1 := Exchange(h, m1, m2);
    assert Owns(h1, y, s);
    var h2 := Exchange(h1, m1, m2);
    if Method(y, s) == m1 {
      assert Methods(h2, y)[s] == ImplOf(h2, m1) == ImplOf(h1, m2) == ImplOf(h, m1);
    } else if Method(y, s) == m2 {
      assert Methods(h2, y)[s] == ImplOf(h2, m2) == ImplOf(h1, m1) == ImplOf(h, m2);
    }
  }

  /** Exchanging the same two entries twice restores every table. */
  lemma ExchangeIsInvolution(h: Classes, m1: Method, m2: Method)
    requires Owns(h, m1.owner, m1.name) && Owns(h, m2.owner, m2.name)
    ensures Owns(Exchange(h, m1, m2), m1.owner, m1.name) && Owns(Exchange(h, m1, m2), m2.owner, m2.name)
    ensures Exchange(Exchange(h, m1, m2), m1, m2) == h
  {
    var h1 := Exchange(h, m1, m2);
    var h2 := Exchange(h1, m1, m2);
    forall y: ClassRef | y.id in h
      ensures Methods(h2, y) == Methods(h, y)
    {
      assert Methods(h2, y).Keys == Methods(h, y).Keys;
      forall s | s in Methods(h, y)
        ensures Methods(h2, y)[s] == Methods(h, y)[s]
      {
        ExchangeTwiceAt(h, m1, m2, y, s);
      }
    }
    TablesDetermineClasses(h, h2);
  }

  /**
   * When the target class does not define `original` itself, swizzling gives
   * it its own `original`, bound to what `swizzled` dispatched to, and its own
   * `swizzled`, bound to what `original` dispatched to. No other table changes;
   * in particular the ancestor that supplied `original` keeps its entry.
   */
  lemma SwizzleLocalizesInheritedOriginal(h: Classes, target: ClassId, original: Selector, swizzled: Selector, methodType: MethodType)
    requires WellFormed(h)
    requires var cls := TargetClass(target, methodType);
             FindMethod(h, cls, original).Some? && FindMethod(h, cls, swizzled).Some? && !Owns(h, cls, original)
    ensures var cls := TargetClass(target, methodType);
            var r := Swizzled(h, target, original, swizzled, methodType);
            && r.Success?
            && Methods(r.value, cls) == Methods(h, cls)[original := Dispatch(h, cls, swizzled).value][swizzled := Dispatch(h, cls, original).value]
            && forall y | y != cls && y.id in h :: Methods(r.value, y) == Methods(h, y)
  {
  }

  /**
   * When the target class defines `original` itself, swizzling exchanges the
   * two entries that lookup found: the target's `original`, and the entry for
   * `swizzled` in whichever class of the chain defines it. Nothing else changes.
   */
  lemma SwizzleExchangesWhenOwned(h: Classes, target: ClassId, original: Selector, swizzled: Selector, methodType: MethodType)
    requires WellFormed(h)
    requires var cls := TargetClass(target, methodType);
             Owns(h, cls, original) && FindMethod(h, cls, swizzled).Some?
    ensures var cls := TargetClass(target, methodType);
            var om := Method(cls, original);
            var sm := FindMethod(h, cls, swizzled).value;
            var r := Swizzled(h, target, original, swizzled, methodType);
            && r.Success?
            && Owns(r.value, cls, original) && Owns(r.value, sm.owner, swizzled)
            && ImplOf(r.value, om) == ImplOf(h, sm)
            && ImplOf(r.value, sm) == ImplOf(h, om)
            && SameHierarchy(h, r.value) && SameOwnership(h, r.value)
            && (forall y, s | Owns(h, y, s) && Method(y, s) != om && Method(y, s) != sm :: Methods(r.value, y)[s] == Methods(h, y)[s])
  {
  }

  /** When the target class defines both selectors, swizzling twice restores every table. */
  lemma SwizzleTwiceRestoresOwnedPair(h: Classes, target: ClassId, original: Selector, swizzled: Selector, methodType: MethodType)
    requires WellFormed(h)
    requires var cls := TargetClass(target, methodType);
             Owns(h, cls, original) && Owns(h, cls, swizzled)
    ensures var r := Swizzled(h, target, original, swizzled, methodType);
            r.Success? && Swizzled(r.value, target, original, swizzled, methodType) == Success(h)
  {
    var cls := TargetClass(target, methodType);
    var h1 := Swizzled(h, target, original, swizzled, methodType).value;
    ExchangeIsInvolution(h, Method(cls, original), Method(cls, swizzled));
    assert Owns(h1, cls, original) && Owns(h1, cls, swizzled);
  }

  /**
   * Swizzling twice, from any tables where the first call succeeds, restores
   * what messages `original` and `swizzled` to the target class dispatch to.
   */
  lemma SwizzleTwiceRestoresDispatch(h: Classes, target: ClassId, original: Selector, swizzled: Selector, methodType: MethodType)
    requires WellFormed(h) && Swizzled(h, target, original, swizzled, methodType).Success?
    ensures var cls := TargetClass(target, methodType);
            var h1 := Swizzled(h, target, original, swizzled, methodType).value;
            var r := Swizzled(h1, target, original, swizzled, methodType);
            && r.Success?
            && Dispatch(r.value, cls, original) == Dispatch(h, cls, original)
            && Dispatch(r.value, cls, swizzled) == Dispatch(h, cls, swizzled)
  {
    var cls := TargetClass(target, methodType);
    var h1 := Swizzled(h, target, original, swizzled, methodType).value;
    var om := FindMethod(h, cls, original).value;
    var sm := FindMethod(h, cls, swizzled).value;
    if Owns(h, cls, original) {
      FindMethodFollowsOwnership(h, h1, cls, swizzled);
      ExchangeIsInvolution(h, om, sm);
      assert Swizzled(h1, target, original, swizzled, methodType) == Success(h);
    } else {
      SwizzleLocalizesInheritedOriginal(h, target, original, swizzled, methodType);
      assert Owns(h1, cls, original) && Owns(h1, cls, swizzled);
      SwizzleExchangesWhenOwned(h1, target, original, swizzled, methodType);
    }
  }

  /**
   * Swizzling an inherited `original` on one class leaves every class whose
   * chain does not pass through it, such as a sibling under the same
   * superclass, dispatching exactly as before.
   */
  lemma SwizzleLeavesOtherBranchesAlone(h: Classes, target: ClassId, original: Selector, swizzled: Selector, methodType: MethodType, d: ClassRef, sel: Selector)
    requires WellFormed(h)
    requires var cls := TargetClass(target, methodType);
             FindMethod(h, cls, original).Some? && FindMethod(h, cls, swizzled).Some? && !Owns(h, cls, original)
    requires !InChain(h, d, TargetClass(target, methodType))
    ensures var r := Swizzled(h, target, original, swizzled, methodType);
            r.Success? && Dispatch(r.value, d, sel) == Dispatch(h, d, sel)
  {
    SwizzleLocalizesInheritedOriginal(h, target, original, swizzled, methodType);
    var h1 := Swizzled(h, target, original, swizzled, methodType).value;
    LookupAvoidsUnrelatedClass(h, h1, d, sel, TargetClass(target, methodType));
  }

  /** Every table `h'` changed belongs to a class or metaclass in the chain of `r`. */
  ghost predicate EditsOnlyChain(h: Classes, h': Classes, r: ClassRef)
    requires WellFormed(h) && SameHierarchy(h, h')
  {
    forall y: ClassRef | y.id in h && !InChain(h, r, y) :: Methods(h', y) == Methods(h, y)
  }

  /** A swizzle edits only tables in the lookup chain of the class it targets. */
  lemma SwizzleEditsOnlyLookupChain(h: Classes, target: ClassId, original: Selector, swizzled: Selector, methodType: MethodType)
    requires WellFormed(h) && Swizzled(h, target, original, swizzled, methodType).Success?
    ensures var h' := Swizzled(h, target, original, swizzled, methodType).value;
            SameHierarchy(h, h') && EditsOnlyChain(h, h', TargetClass(target, methodType))
  {
    var cls := TargetClass(target, methodType);
    var h' := Swizzled(h, target, original, swizzled, methodType).value;
    if Owns(h, cls, original) {
      var sm := FindMethod(h, cls, swizzled).value;
      forall y: ClassRef | y.id in h && !InChain(h, cls, y)
        ensures Methods(h', y) == Methods(h, y)
      {
        assert y != cls && y != sm.owner;
        forall s | s in Methods(h, y)
          ensures Methods(h', y)[s] == Methods(h, y)[s]
        {
          assert Owns(h, y, s);
        }
      }
    }
  }

  /** A replace edits only the table of the entry lookup found, which is in the chain of the class it targets. */
  lemma ReplaceEditsOnlyLookupChain(h: Classes, target: ClassId, original: Selector, imp: Impl, methodType: MethodType)
    requires WellFormed(h) && Replaced(h, target, original, imp, methodType).Success?
    ensures var h' := Replaced(h, target, original, imp, methodType).value;
            SameHierarchy(h, h') && EditsOnlyChain(h, h', TargetClass(target, methodType))
  {
    var cls := TargetClass(target, methodType);
    var h' := Replaced(h, target, original, imp, methodType).value;
    var m := FindMethod(h, cls, original).value;
    forall y: ClassRef | y.id in h && !InChain(h, cls, y)
      ensures Methods(h', y) == Methods(h, y)
    {
      assert y != m.owner;
      forall s | s in Methods(h, y)
        ensures Methods(h', y)[s] == Methods(h, y)[s]
      {
        assert Owns(h, y, s);
      }
    }
  }

  /** The chain of a class holds only classes, never metaclasses. */
  lemma {:induction false} ClassChainHasNoMetaclass(h: Classes, c: ClassId, a: ClassRef)
    requires WellFormed(h) && InChain(h, Cls(c), a)
    ensures a.Cls?
    decreases c
  {
    if a != Cls(c) {
      ClassChainHasNoMetaclass(h, Superclass(h, Cls(c)).value.id, a);
    }
  }

  /** The chain of a metaclass reaches a class, rather than a metaclass, only at the root class. */
  lemma {:induction false} MetaclassChainReachesOnlyRootClass(h: Classes, c: ClassId, a: ClassRef)
    requires WellFormed(h) && InChain(h, Meta(c), a) && a.Cls?
    ensures a.id in h && h[a.id].superclass.None?
    decreases c
  {
    match h[c].superclass
    case None =>
      assert InChain(h, Cls(c), a);
    case Some(p) =>
      MetaclassChainReachesOnlyRootClass(h, p, a);
  }

  /**
   * The scope picks the tables: a patch at `.instance` never edits a class-method
   * table, and a patch at `.class` never edits the instance methods of a class
   * that has a superclass (only the root class's, which the root metaclass inherits).
   */
  lemma ScopeSelectsTables(h: Classes, h': Classes, target: ClassId, methodType: MethodType, y: ClassId)
    requires WellFormed(h) && SameHierarchy(h, h') && EditsOnlyChain(h, h', TargetClass(target, methodType)) && y in h
    ensures methodType == Instance ==> Methods(h', Meta(y)) == Methods(h, Meta(y))
    ensures methodType == Class && h[y].superclass.Some? ==> Methods(h', Cls(y)) == Methods(h, Cls(y))
  {
    if methodType == Instance && InChain(h, Cls(target), Meta(y)) {
      ClassChainHasNoMetaclass(h, target, Meta(y));
    }
    if methodType == Class && InChain(h, Meta(target), Cls(y)) {
      MetaclassChainReachesOnlyRootClass(h, target, Cls(y));
    }
  }

  /**
   * `replace` installs the implementation on the entry lookup found, whichever
   * class of the chain owns it, and changes no other entry.
   */
  lemma ReplaceInstallsOnResolvedEntry(h: Classes, target: ClassId, original: Selector, imp: Impl, methodType: MethodType)
    requires WellFormed(h)
    requires ClassGetMethod(h, TargetClass(target, methodType), original, methodType).Some?
    ensures var cls := TargetClass(target, methodType);
            var m := ClassGetMethod(h, cls, original, methodType).value;
            var r := Replaced(h, target, original, imp, methodType);
            && r.Success?
            && (!Owns(h, cls, original) ==> m.owner != cls)
            && Owns(r.value, m.owner, original) && ImplOf(r.value, m) == imp
            && (forall y, s | Owns(h, y, s) && Method(y, s) != m :: Methods(r.value, y)[s] == Methods(h, y)[s])
  {
  }

  /**
   * After `replace`, every class that resolved the selector to the replaced
   * entry now dispatches to the new implementation: for an inherited selector,
   * that is the defining ancestor and all its other subclasses too.
   */
  lemma ReplaceReachesEveryInheritor(h: Classes, target: ClassId, original: Selector, imp: Impl, methodType: MethodType, d: ClassRef)
    requires WellFormed(h)
    requires var m := ClassGetMethod(h, TargetClass(target, methodType), original, methodType);
             m.Some? && FindMethod(h, d, original) == m
    ensures var r := Replaced(h, target, original, imp, methodType);
            r.Success? && Dispatch(r.value, d, original) == Some(imp)
  {
    var h' := Replaced(h, target, original, imp, methodType).value;
    FindMethodFollowsOwnership(h, h', d, original);
  }

  /**
   * The internal `swizzle(_:with:)` exchanges the two entries lookup found,
   * with no add step: when `original` is inherited, the defining ancestor's
   * entry changes, and so does what every class resolving to it dispatches.
   */
  lemma InternalSwizzleExchangesResolvedEntries(h: Classes, target: ClassId, original: Selector, replacement: Selector, d: ClassRef)
    requires WellFormed(h)
    requires FindMethod(h, Cls(target), original).Some? && FindMethod(h, Cls(target), replacement).Some?
    requires FindMethod(h, d, original) == FindMethod(h, Cls(target), original)
    ensures var h' := ExchangedInstanceMethods(h, target, original, replacement);
            && Owns(h', Cls(target), original) == Owns(h, Cls(target), original)
            && Dispatch(h', d, original) == Dispatch(h, Cls(target), replacement)
            && Dispatch(h', Cls(target), replacement) == Dispatch(h, Cls(target), original)
  {
    var h' := ExchangedInstanceMethods(h, target, original, replacement);
    FindMethodFollowsOwnership(h, h', d, original);
    FindMethodFollowsOwnership(h, h', Cls(target), replacement);
  }

  /** The runtime's registered classes, changed in place by its primitives. */
  class ObjcRuntime {
    var classes: Classes

    ghost predicate Valid()
      reads this
    {
      WellFormed(classes)
    }

    constructor (classes: Classes)
      requires WellFormed(classes)
      ensures Valid() && this.classes == classes
    {
      this.classes := classes;
    }

    /** method_getImplementation */
    method MethodGetImplementation(m: Method) returns (imp: Impl)
      requires Owns(classes, m.owner, m.name)
      ensures imp == ImplOf(classes, m)
    {
      imp := ImplOf(classes, m);
    }

    /** class_addMethod */
    method ClassAddMethod(cls: ClassRef, name: Selector, imp: Impl) returns (added: bool)
      requires Valid()
      modifies this
      ensures Valid()
      ensures (added, classes) == AddMethod(old(classes), cls, name, imp)
    {
      var res := AddMethod(classes, cls, name, imp);
      added := res.0;
      classes := res.1;
    }

    /** class_replaceMethod */
    method ClassReplaceMethod(cls: ClassRef, name: Selector, imp: Impl)
      requires Valid() && cls.id in classes
      modifies this
      ensures Valid()
      ensures classes == ReplaceMethod(old(classes), cls, name, imp)
    {
      classes := ReplaceMethod(classes, cls, name, imp);
    }

    /** method_exchangeImplementations */
    method MethodExchangeImplementations(m1: Method, m2: Method)
      requires Valid() && Owns(classes, m1.owner, m1.name) && Owns(classes, m2.owner, m2.name)
      modifies this
      ensures Valid()
      ensures classes == Exchange(old(classes), m1, m2)
    {
      classes := Exchange(classes, m1, m2);
    }

    /** method_setImplementation */
    method MethodSetImplementation(m: Method, imp: Impl)
      requires Valid() && Owns(classes, m.owner, m.name)
      modifies this
      ensures Valid()
      ensures classes == SetImplementation(old(classes), m, imp)
    {
      classes := SetImplementation(classes, m, imp);
    }
  }

  /** `swizzle(_:with:methodType:)` sent to the class `target`; a thrown error is returned. */
  method Swizzle(rt: ObjcRuntime, target: ClassId, originalSelector: Selector, swizzledSelector: Selector, methodType: MethodType)
    returns (error: Option<DarkMagicError>)
    requires rt.Valid()
    modifies rt
    ensures rt.Valid()
    ensures match Swizzled(old(rt.classes), target, originalSelector, swizzledSelector, methodType)
            case Failure(e) => error == Some(e) && rt.classes == old(rt.classes)
            case Success(h) => error == None && rt.classes == h
  {
    var cls := TargetClass(target, methodType);
    var originalMethod := ClassGetMethod(rt.classes, cls, originalSelector, methodType);
    var swizzledMethod := ClassGetMethod(rt.classes, cls, swizzledSelector, methodType);
    if originalMethod.None? || swizzledMethod.None? {
      return Some(MethodNotFound);
    }
    var swizzledImplementation := rt.MethodGetImplementation(swizzledMethod.value);
    var didAddMethod := rt.ClassAddMethod(cls, originalSelector, swizzledImplementation);
    if didAddMethod {
      var originalImplementation := rt.MethodGetImplementation(originalMethod.value);
      rt.ClassReplaceMethod(cls, swizzledSelector, originalImplementation);
    } else {
      rt.MethodExchangeImplementations(originalMethod.value, swizzledMethod.value);
    }
    error := None;
  }

  /** `replace(_:withBlock:methodType:)` sent to the class `target`; a thrown error is returned. */
  method Replace(rt: ObjcRuntime, target: ClassId, originalSelector: Selector, block: nat, methodType: MethodType)
    returns (error: Option<DarkMagicError>)
    requires rt.Valid()
    modifies rt
    ensures rt.Valid()
    ensures match Replaced(old(rt.classes), target, originalSelector, ImplementationWithBlock(block), methodType)
            case Failure(e) => error == Some(e) && rt.classes == old(rt.classes)
            case Success(h) => error == None && rt.classes == h
  {
    var cls := TargetClass(target, methodType);
    var originalMethod := ClassGetMethod(rt.classes, cls, originalSelector, methodType);
    if originalMethod.None? {
      return Some(MethodNotFound);
    }
    var swizzledImplementation := ImplementationWithBlock(block);
    rt.MethodSetImplementation(originalMethod.value, swizzledImplementation);
    error := None;
  }

  /** The internal `swizzle(_:with:)` sent to the class `target`: silent when either instance method is missing. */
  method SwizzleInstanceMethods(rt: ObjcRuntime, target: ClassId, original: Selector, replacement: Selector)
    requires rt.Valid()
    modifies rt
    ensures rt.Valid()
    ensures rt.classes == ExchangedInstanceMethods(old(rt.classes), target, original, replacement)
  {
    var originalMethod := FindMethod(rt.classes, Cls(target), original);
    if originalMethod.None? {
      return;
    }
    var swizzledMethod := FindMethod(rt.classes, Cls(target), replacement);
    if swizzledMethod.None? {
      return;
    }
    rt.MethodExchangeImplementations(originalMethod.value, swizzledMethod.value);
  }

  /**
   * Two subclasses C (1) and D (2) of Base (0), which defines `foo`; C defines
   * `bar`. Swizzling `foo` with `bar` on C makes C's `foo` run what its `bar`
   * ran and C's `bar` run Base's `foo`, while Base and D still run Base's `foo`.
   */
  method SiblingScenario() returns (cFoo: Option<Impl>, cBar: Option<Impl>, dFoo: Option<Impl>, baseFoo: Option<Impl>)
    ensures cFoo == Some(Imp(2)) && cBar == Some(Imp(1))
    ensures dFoo == Some(Imp(1)) && baseFoo == Some(Imp(1))
  {
    var classes := map[
      0 := ClassRecord(None, map["foo" := Imp(1)], map[]),
      1 := ClassRecord(Some(0), map["bar" := Imp(2)], map[]),
      2 := ClassRecord(Some(0), map[], map[])];
    var rt := new ObjcRuntime(classes);
    var error := Swizzle(rt, 1, "foo", "bar", Instance);
    cFoo := Dispatch(rt.classes, Cls(1), "foo");
    cBar := Dispatch(rt.classes, Cls(1), "bar");
    dFoo := Dispatch(rt.classes, Cls(2), "foo");
    baseFoo := Dispatch(rt.classes, Cls(0), "foo");
  }
}
