/**
 * Managed key-value observations (Sources/Shared/KVObserver.swift): an
 * observing object keeps the handles of its observations in a set stored in
 * the associated-object store under the private `observations` key, created
 * empty on first access.
 *
 * The source calls the store's accessors with the labels `for:`; the store
 * declares them with `forKey:`. This model calls the `forKey:` accessors.
 */
module KVObserver {
  import opened Wrappers
  import opened AssociatedObjects

  /** An NSKeyValueObservation handle; only its identity matters here. */
  class Observation {
    constructor ()
    {
    }
  }

  type ObservationSet = set<Observation>

  /** The set stored in the observations slot of `obj`, or the empty set when there is none yet. */
  function StoredObservations(t: Table<ObservationSet>, obj: ObjectId, key: Key): ObservationSet
  {
    match Get(t, obj, key)
    case Some(s) => s
    case None => {}
  }

  /**
   * The getter of `observations` on the receiver `obj`; `key` is the private
   * static key AssociatedObjectKeys.observations. A missing set is stored empty.
   */
  method GetObservations(rt: AssociationTable<ObservationSet>, obj: ObjectId, key: Key) returns (s: ObservationSet)
    requires Retains(key.policy)
    modifies rt
    ensures s == StoredObservations(old(rt.entries), obj, key)
    ensures rt.entries == Put(old(rt.entries), obj, key, Some(s))
  {
    var evaluated;
    s, evaluated := GetAssociatedObject(rt, obj, key, {});
  }

  /** The setter of `observations`: stores exactly the given set. */
  method SetObservations(rt: AssociationTable<ObservationSet>, obj: ObjectId, key: Key, newValue: ObservationSet)
    modifies rt
    ensures rt.entries == Put(old(rt.entries), obj, key, Some(newValue))
  {
    SetAssociatedObject(rt, obj, newValue, key);
  }

  /**
   * `observe(object:_:options:changeHandler:)`: Foundation's `observe` yields a
   * new handle, which is inserted into the receiver's set and returned. The
   * observed object, key path and handler only matter to Foundation.
   */
  method Observe(rt: AssociationTable<ObservationSet>, obj: ObjectId, key: Key, observed: ObjectId, keyPath: string)
    returns (observation: Observation)
    requires Retains(key.policy)
    modifies rt
    ensures fresh(observation)
    ensures observation !in StoredObservations(old(rt.entries), obj, key)
    ensures rt.entries == Put(old(rt.entries), obj, key, Some(StoredObservations(old(rt.entries), obj, key) + {observation}))
    ensures |StoredObservations(rt.entries, obj, key)| == |StoredObservations(old(rt.entries), obj, key)| + 1
    ensures rt.entries - {(obj, key)} == old(rt.entries) - {(obj, key)}
  {
    observation := new Observation();
    var observations := GetObservations(rt, obj, key);
    observations := observations + {observation};
    SetObservations(rt, obj, key, observations);
  }

  /** `clearObservations()`: the receiver's set becomes empty; nothing else changes. */
  method ClearObservations(rt: AssociationTable<ObservationSet>, obj: ObjectId, key: Key)
    requires Retains(key.policy)
    modifies rt
    ensures rt.entries == Put(old(rt.entries), obj, key, Some({}))
    ensures StoredObservations(rt.entries, obj, key) == {}
    ensures rt.entries - {(obj, key)} == old(rt.entries) - {(obj, key)}
  {
    var observations := GetObservations(rt, obj, key);
    observations := {};
    SetObservations(rt, obj, key, observations);
  }
}
