/**
 * The associated-object store: the Objective-C runtime's side table from
 * (object, key) to value, and the typed accessors that DarkMagic layers on it
 * (Sources/Shared/AssociatedObjects.swift).
 *
 * The runtime table is a class whose primitives (objc_getAssociatedObject,
 * objc_setAssociatedObject, objc_removeAssociatedObjects) change it in place;
 * the NSObject extension methods are methods over that table taking the
 * receiver as a parameter. Pure functions over the table value specify both.
 */
module AssociatedObjects {
  import opened Wrappers

  /** Identity of a host object: the runtime keys associations by the object's address. */
  type ObjectId = nat

  /** objc_AssociationPolicy. */
  datatype Policy = Assign | RetainNonatomic | CopyNonatomic | Retain | Copy

  /** Every policy but `Assign` makes the table keep its own reference to the value. */
  predicate Retains(p: Policy)
  {
    p != Assign
  }

  /**
   * AssociatedObjectKeys, and its subclasses AssociatedObjectKey<T> and
   * AssociatedOptionalObjectKey<T>, which differ only in the accessors they
   * admit. The runtime compares keys by the address of the C string buffer
   * that each key instance allocates for itself, so a key is an identity:
   * two keys built from the same string are two different keys.
   */
  class Key {
    const name: string
    const policy: Policy

    /** `init(_:)` with the default policy OBJC_ASSOCIATION_RETAIN_NONATOMIC. */
    constructor (name: string)
      ensures this.name == name && policy == RetainNonatomic
    {
      this.name := name;
      policy := RetainNonatomic;
    }

    /** `init(_:policy:)` with an explicit policy. */
    constructor WithPolicy(name: string, policy: Policy)
      ensures this.name == name && this.policy == policy
    {
      this.name := name;
      this.policy := policy;
    }
  }

  /** The runtime's side table: a slot (object, key) is present exactly when it holds an association. */
  type Table<V> = map<(ObjectId, Key), V>

  /** The association in slot (o, k), if any. */
  function Get<V>(t: Table<V>, o: ObjectId, k: Key): Option<V>
  {
    if (o, k) in t then Some(t[(o, k)]) else None
  }

  /** objc_setAssociatedObject on the table value: a value is stored, nil removes the association. */
  function Put<V>(t: Table<V>, o: ObjectId, k: Key, v: Option<V>): (t': Table<V>)
    ensures Get(t', o, k) == v
    ensures t' - {(o, k)} == t - {(o, k)}
  {
    match v
    case Some(x) => t[(o, k) := x]
    case None => t - {(o, k)}
  }

  /** objc_removeAssociatedObjects on the table value. */
  function RemoveAll<V>(t: Table<V>, o: ObjectId): (t': Table<V>)
    ensures forall s | s in t' :: s.0 != o && s in t && t'[s] == t[s]
    ensures forall s | s in t && s.0 != o :: s in t'
  {
    map s | s in t && s.0 != o :: t[s]
  }

  /** What a get-with-initializer call returns and leaves behind, and whether it ran the initializer. */
  datatype Fetched<V> = Fetched(value: V, table: Table<V>, evaluated: bool)

  /**
   * `getAssociatedObject(forKey:initialValue:)` on a required key: read the
   * slot; if it is empty, store the initializer's value and read it back.
   */
  function GetOrInit<V>(t: Table<V>, o: ObjectId, k: Key, initial: V): (r: Fetched<V>)
    ensures Get(r.table, o, k) == Some(r.value)
    ensures r.evaluated <==> Get(t, o, k) == None
    ensures !r.evaluated ==> r.table == t
    ensures r.evaluated ==> r.value == initial
    ensures r.table - {(o, k)} == t - {(o, k)}
  {
    var current := Get(t, o, k);
    if current.None? then
      var t' := Put(t, o, k, Some(initial));
      Fetched(Get(t', o, k).value, t', true)
    else
      Fetched(current.value, t, false)
  }

  /** The optional initializer `(() -> T?)?`: absent, or a closure whose result may itself be nil. */
  datatype Initializer<V> = NoInitializer | Initializer(result: Option<V>)

  /** What an optional get returns and leaves behind, and whether it ran the initializer. */
  datatype Looked<V> = Looked(value: Option<V>, table: Table<V>, evaluated: bool)

  /**
   * `getAssociatedObject(forKey:initialValue:)` on an optional key: read the
   * slot; only when an initializer is given and the slot is empty, store the
   * initializer's result and read the slot again.
   */
  function GetOptional<V>(t: Table<V>, o: ObjectId, k: Key, init: Initializer<V>): (r: Looked<V>)
    ensures Get(r.table, o, k) == r.value
    ensures r.evaluated <==> init.Initializer? && Get(t, o, k) == None
    ensures !r.evaluated ==> r.table == t
    ensures r.evaluated ==> r.value == init.result
    ensures r.table - {(o, k)} == t - {(o, k)}
  {
    var current := Get(t, o, k);
    if init.Initializer? && current.None? then
      var t' := Put(t, o, k, init.result);
      Looked(Get(t', o, k), t', true)
    else
      Looked(current, t, false)
  }

  /** What `removeAssociatedObject(forKey:)` returns and leaves behind. */
  datatype Removed<V> = Removed(previous: Option<V>, table: Table<V>)

  /** `removeAssociatedObject(forKey:)`: an optional get without initializer, then a set to nil. */
  function Remove<V>(t: Table<V>, o: ObjectId, k: Key): (r: Removed<V>)
    ensures r.previous == Get(t, o, k)
    ensures Get(r.table, o, k) == None
    ensures r.table - {(o, k)} == t - {(o, k)}
  {
    var value := GetOptional(t, o, k, NoInitializer).value;
    Removed(value, Put(t, o, k, None))
  }

  /** A second get-with-initializer finds the value the first one stored and runs nothing. */
  lemma GetOrInitIsStable<V>(t: Table<V>, o: ObjectId, k: Key, first: V, second: V)
    ensures var r := GetOrInit(t, o, k, first);
            GetOrInit(r.table, o, k, second) == Fetched(r.value, r.table, false)
  {
  }

  /** A read after a set of a value yields that value, until the slot is set or removed again. */
  lemma SetThenGet<V>(t: Table<V>, o: ObjectId, k: Key, v: V)
    ensures GetOptional(Put(t, o, k, Some(v)), o, k, NoInitializer) == Looked(Some(v), Put(t, o, k, Some(v)), false)
    ensures Remove(Put(t, o, k, Some(v)), o, k).previous == Some(v)
  {
  }

  /**
   * The Objective-C runtime's association table. Its primitives change the
   * table in place; the policy only governs the lifetime of the value.
   */
  class AssociationTable<V> {
    var entries: Table<V>

    constructor ()
      ensures entries == map[]
    {
      entries := map[];
    }

    /** objc_getAssociatedObject */
    method GetAssociated(o: ObjectId, k: Key) returns (r: Option<V>)
      ensures r == Get(entries, o, k)
    {
      r := Get(entries, o, k);
    }

    /** objc_setAssociatedObject */
    method SetAssociated(o: ObjectId, k: Key, v: Option<V>, policy: Policy)
      modifies this
      ensures entries == Put(old(entries), o, k, v)
    {
      entries := Put(entries, o, k, v);
    }

    /** objc_removeAssociatedObjects */
    method RemoveAssociated(o: ObjectId)
      modifies this
      ensures entries == RemoveAll(old(entries), o)
    {
      entries := RemoveAll(entries, o);
    }
  }

  /** `setAssociatedObject(_:forKey:)` on a required key, with `obj` the receiver. */
  method SetAssociatedObject<V>(rt: AssociationTable<V>, obj: ObjectId, value: V, key: Key)
    modifies rt
    ensures rt.entries == Put(old(rt.entries), obj, key, Some(value))
  {
    rt.SetAssociated(obj, key, Some(value), key.policy);
  }

  /**
   * `getAssociatedObject(forKey:initialValue:)` on a required key. The
   * initializer is an autoclosure: `initialValue` is what it would produce and
   * `evaluated` says whether it ran. The force unwrap of the re-read cannot
   * fail because the key's policy keeps the stored value alive.
   */
  method GetAssociatedObject<V>(rt: AssociationTable<V>, obj: ObjectId, key: Key, initialValue: V)
    returns (r: V, evaluated: bool)
    requires Retains(key.policy)
    modifies rt
    ensures Fetched(r, rt.entries, evaluated) == GetOrInit(old(rt.entries), obj, key, initialValue)
  {
    var currentObj := rt.GetAssociated(obj, key);
    evaluated := false;
    if currentObj == None {
      evaluated := true;
      SetAssociatedObject(rt, obj, initialValue, key);
      currentObj := rt.GetAssociated(obj, key);
    }
    r := currentObj.value;
  }

  /** The getter of `subscript(key:initialValue:)` on a required key. */
  method SubscriptGet<V>(rt: AssociationTable<V>, obj: ObjectId, key: Key, initialValue: V)
    returns (r: V, evaluated: bool)
    requires Retains(key.policy)
    modifies rt
    ensures Fetched(r, rt.entries, evaluated) == GetOrInit(old(rt.entries), obj, key, initialValue)
  {
    r, evaluated := GetAssociatedObject(rt, obj, key, initialValue);
  }

  /** The setter of `subscript(key:initialValue:)` on a required key. */
  method SubscriptSet<V>(rt: AssociationTable<V>, obj: ObjectId, key: Key, newValue: V)
    modifies rt
    ensures rt.entries == Put(old(rt.entries), obj, key, Some(newValue))
  {
    SetAssociatedObject(rt, obj, newValue, key);
  }

  /** `setAssociatedObject(_:forKey:)` on an optional key: nil clears the association. */
  method SetOptionalAssociatedObject<V>(rt: AssociationTable<V>, obj: ObjectId, value: Option<V>, key: Key)
    modifies rt
    ensures rt.entries == Put(old(rt.entries), obj, key, value)
  {
    rt.SetAssociated(obj, key, value, key.policy);
  }

  /** `getAssociatedObject(forKey:initialValue:)` on an optional key; the initializer defaults to nil. */
  method GetOptionalAssociatedObject<V>(rt: AssociationTable<V>, obj: ObjectId, key: Key, initialValue: Initializer<V>)
    returns (r: Option<V>, evaluated: bool)
    modifies rt
    ensures Looked(r, rt.entries, evaluated) == GetOptional(old(rt.entries), obj, key, initialValue)
  {
    var currentObj := rt.GetAssociated(obj, key);
    evaluated := false;
    if initialValue.Initializer? && currentObj == None {
      evaluated := true;
      SetOptionalAssociatedObject(rt, obj, initialValue.result, key);
      currentObj := rt.GetAssociated(obj, key);
    }
    r := currentObj;
  }

  /** `removeAssociatedObject(forKey:)`: returns the association present before the call. */
  method RemoveAssociatedObject<V>(rt: AssociationTable<V>, obj: ObjectId, key: Key) returns (value: Option<V>)
    modifies rt
    ensures Removed(value, rt.entries) == Remove(old(rt.entries), obj, key)
  {
    var evaluated;
    value, evaluated := GetOptionalAssociatedObject(rt, obj, key, NoInitializer);
    SetOptionalAssociatedObject(rt, obj, None, key);
  }

  /**
   * The getter of `subscript(key:initialValue:)` on an optional key, whose
   * initializer `(() -> T)?` is nil or always yields a value.
   */
  method OptionalSubscriptGet<V>(rt: AssociationTable<V>, obj: ObjectId, key: Key, initialValue: Option<V>)
    returns (r: Option<V>, evaluated: bool)
    modifies rt
    ensures var init := if initialValue.Some? then Initializer(initialValue) else NoInitializer;
            Looked(r, rt.entries, evaluated) == GetOptional(old(rt.entries), obj, key, init)
  {
    var init := if initialValue.Some? then Initializer(initialValue) else NoInitializer;
    r, evaluated := GetOptionalAssociatedObject(rt, obj, key, init);
  }

  /** The getter of `subscript(key:)` on an optional key: an optional get with no initializer, never a write. */
  method PlainOptionalSubscriptGet<V>(rt: AssociationTable<V>, obj: ObjectId, key: Key) returns (r: Option<V>)
    modifies rt
    ensures r == Get(old(rt.entries), obj, key)
    ensures rt.entries == old(rt.entries)
  {
    var evaluated;
    r, evaluated := GetOptionalAssociatedObject(rt, obj, key, NoInitializer);
  }

  /** The setter shared by both subscripts on an optional key. */
  method OptionalSubscriptSet<V>(rt: AssociationTable<V>, obj: ObjectId, key: Key, newValue: Option<V>)
    modifies rt
    ensures rt.entries == Put(old(rt.entries), obj, key, newValue)
  {
    SetOptionalAssociatedObject(rt, obj, newValue, key);
  }

  /** `removeAllAssociatedObjects()`: empties every slot of the receiver and no other. */
  method RemoveAllAssociatedObjects<V>(rt: AssociationTable<V>, obj: ObjectId)
    modifies rt
    ensures rt.entries == RemoveAll(old(rt.entries), obj)
  {
    rt.RemoveAssociated(obj);
  }

  /**
   * A fresh object with no associations: set "a", read it, remove it (which
   * returns "a"), and read again (absent).
   */
  method AttachReadRemoveScenario() returns (read: Option<string>, removed: Option<string>, after: Option<string>)
    ensures read == Some("a") && removed == Some("a") && after == None
  {
    var rt := new AssociationTable<string>();
    var key := new Key("key1");
    var x: ObjectId := 7;
    SetOptionalAssociatedObject(rt, x, Some("a"), key);
    read := PlainOptionalSubscriptGet(rt, x, key);
    removed := RemoveAssociatedObject(rt, x, key);
    after := PlainOptionalSubscriptGet(rt, x, key);
  }

  /** Two keys built from the same string address different slots. */
  method SameNameKeysScenario() returns (viaFirst: Option<int>, viaSecond: Option<int>)
    ensures viaFirst == Some(1) && viaSecond == None
  {
    var rt := new AssociationTable<int>();
    var first := new Key("observations");
    var second := new Key("observations");
    var x: ObjectId := 7;
    SetOptionalAssociatedObject(rt, x, Some(1), first);
    viaFirst := PlainOptionalSubscriptGet(rt, x, first);
    viaSecond := PlainOptionalSubscriptGet(rt, x, second);
  }
}
