/**
 * The client side of the Grafana HTTP interface: the server details a data
 * source announces, the event that carries them, and the relation-changed
 * handler that either defers or emits that event.
 */
module InterfaceHttp {
  import opened Wrappers
  import opened RelationEvents

  /** Keys of a server-details snapshot. */
  const HostSnapshotKey: string := "server_details.host"
  const PortSnapshotKey: string := "server_details.port"

  /** A snapshot: what the framework stores for an event between deliveries. */
  type SnapshotData = map<string, Option<string>>

  /** The outcome of restoring server details from a snapshot. */
  datatype RestoreResult =
    | Restored(details: ServerDetails)
    | KeyError(key: string)  // the first key the snapshot lacks

  /** Host and port of a data source; either may be absent. */
  datatype ServerDetails = ServerDetails(host: Option<string>, port: Option<string>)
  {
    /** The snapshot holds exactly the two server-details keys, with host and port. */
    function Snapshot(): (r: SnapshotData)
      ensures r.Keys == {HostSnapshotKey, PortSnapshotKey}
      ensures r[HostSnapshotKey] == host && r[PortSnapshotKey] == port
    {
      map[HostSnapshotKey := host, PortSnapshotKey := port]
    }

    /**
     * Rebuilding server details from a snapshot. The host key is read
     * first, so a snapshot lacking both keys fails on the host key.
     */
    static function Restore(snapshot: SnapshotData): (r: RestoreResult)
      ensures r.Restored? <==> HostSnapshotKey in snapshot && PortSnapshotKey in snapshot
      ensures r.Restored? ==>
        r.details.host == snapshot[HostSnapshotKey] && r.details.port == snapshot[PortSnapshotKey]
      ensures HostSnapshotKey !in snapshot ==> r == KeyError(HostSnapshotKey)
      ensures HostSnapshotKey in snapshot && PortSnapshotKey !in snapshot ==> r == KeyError(PortSnapshotKey)
    {
      if HostSnapshotKey !in snapshot then KeyError(HostSnapshotKey)
      else if PortSnapshotKey !in snapshot then KeyError(PortSnapshotKey)
      else Restored(ServerDetails(snapshot[HostSnapshotKey], snapshot[PortSnapshotKey]))
    }
  }

  /** Restoring a snapshot gives back the details it was taken of. */
  lemma RestoreSnapshot(d: ServerDetails)
    ensures ServerDetails.Restore(d.Snapshot()) == Restored(d)
  {
  }

  /**
   * A snapshot that restores is, on its two keys, the snapshot of what it
   * restores to; any other keys it has are ignored.
   */
  lemma SnapshotRestore(snapshot: SnapshotData)
    requires ServerDetails.Restore(snapshot).Restored?
    ensures ServerDetails.Restore(snapshot).details.Snapshot()
         == map k | k in snapshot && k in {HostSnapshotKey, PortSnapshotKey} :: snapshot[k]
  {
  }

  /** The event that announces an available server, carrying its details. */
  class ServerAvailableEvent {
    var serverDetails: ServerDetails

    constructor (serverDetails: ServerDetails)
      ensures this.serverDetails == serverDetails
    {
      this.serverDetails := serverDetails;
    }

    /** The event's snapshot is its details' snapshot, and restores to them. */
    function Snapshot(): (r: SnapshotData)
      reads this
      ensures r.Keys == {HostSnapshotKey, PortSnapshotKey}
      ensures ServerDetails.Restore(r) == Restored(serverDetails)
    {
      serverDetails.Snapshot()
    }

    /**
     * Replacing the event's details by those restored from `snapshot`. A
     * missing key is reported in `result` and leaves the details as they were.
     */
    method Restore(snapshot: SnapshotData) returns (result: RestoreResult)
      modifies this
      ensures result.Restored? <==> HostSnapshotKey in snapshot && PortSnapshotKey in snapshot
      ensures result.Restored? ==>
        result.details == ServerDetails(snapshot[HostSnapshotKey], snapshot[PortSnapshotKey])
        && serverDetails == result.details
      ensures result.KeyError? ==>
        serverDetails == old(serverDetails) && result == ServerDetails.Restore(snapshot)
      ensures snapshot == old(Snapshot()) ==> result.Restored? && serverDetails == old(serverDetails)
    {
      result := ServerDetails.Restore(snapshot);
      if result.Restored? {
        serverDetails := result.details;
      }
    }
  }

  /** What the client's handler does with an event: defer it, or emit one server-available event. */
  datatype Outcome = Defer | Emit(details: ServerDetails)

  /**
   * The client's relation-changed handler. It defers when the event names
   * no unit or that unit has not published both `ingress-address` and
   * `port`; otherwise it emits exactly one server-available event with the
   * published host and port.
   */
  function OnRelationChanged(event: RelationChanged): (o: Outcome)
    ensures event.unit.None? ==> o == Defer
    ensures event.unit.Some? ==>
      var data := event.unit.value.data;
      && (o.Defer? <==> IngressAddressKey !in data || PortKey !in data)
      && (o.Emit? ==>
            o.details.host == Some(data[IngressAddressKey]) && o.details.port == Some(data[PortKey]))
  {
    match event.unit
    case None => Defer
    case Some(u) =>
      var host := Get(u.data, IngressAddressKey);
      var port := Get(u.data, PortKey);
      if host.None? || port.None? then Defer
      else Emit(ServerDetails(host, port))
  }

  /** Only the `ingress-address` and `port` entries of the relation data matter to the client. */
  lemma ClientReadsOnlyAddressKeys(name: string, d1: RelationData, d2: RelationData)
    requires AgreeOn(d1, d2, IngressAddressKey) && AgreeOn(d1, d2, PortKey)
    ensures OnRelationChanged(RelationChanged(Some(RemoteUnit(name, d1))))
         == OnRelationChanged(RelationChanged(Some(RemoteUnit(name, d2))))
  {
  }
}
