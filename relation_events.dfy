/**
 * The input shared by both relation-changed handlers: the remote unit the
 * event names, if any, and the key/value data that unit has published on
 * the relation.
 */
module RelationEvents {
  import opened Wrappers

  /** Relation data as published by one unit: string keys to string values. */
  type RelationData = map<string, string>

  /** The key under which a remote unit publishes its address. */
  const IngressAddressKey: string := "ingress-address"

  /** The key under which a remote unit publishes its port. */
  const PortKey: string := "port"

  /**
   * A remote unit together with the data it has published. `name` is only
   * the unit's identity; neither handler reads it.
   */
  datatype RemoteUnit = RemoteUnit(name: string, data: RelationData)

  /** A relation-changed event; `unit` is `None` when the event names no unit. */
  datatype RelationChanged = RelationChanged(unit: Option<RemoteUnit>)

  /** Looking a key up in relation data the way `dict.get` does: `None` when absent. */
  function Get(data: RelationData, key: string): (r: Option<string>)
    ensures r.Some? <==> key in data
    ensures r.Some? ==> r.value == data[key]
  {
    if key in data then Some(data[key]) else None
  }

  /** Two relation-data mappings that hold the same value, or no value, at `key`. */
  predicate AgreeOn(d1: RelationData, d2: RelationData, key: string)
  {
    (key in d1 <==> key in d2) && (key in d1 ==> d1[key] == d2[key])
  }
}
