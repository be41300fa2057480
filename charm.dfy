/**
 * The base Grafana charm: the connection record it keeps for its data
 * source, the unit status it reports, the two stored flags it initialises,
 * and the handler that runs when a data-source relation changes.
 */
module Charm {
  import opened Wrappers
  import opened RelationEvents

  /** The unit statuses the charm sets, plus the one it starts with. */
  datatype Status =
    | Unknown
    | Active(message: string)
    | Blocked(message: string)

  const InvalidSourceMessage: string := "Invalid data source host/port"
  const ReadySourceMessage: string := "Ready to connect to data source."

  /** Names of the two flags kept in the charm's stored state. */
  const ConfiguredFlag: string := "configured"
  const StartedFlag: string := "started"

  /** The `grafana_source_conn` record: the data source's host and port as last read. */
  datatype SourceConn = SourceConn(host: Option<string>, port: Option<string>)

  /** The record every new charm starts from. */
  const NoSource := SourceConn(None, None)

  /** What the data-source handler reads and writes: the record and the status. */
  datatype HandlerState = HandlerState(conn: SourceConn, status: Status)

  /** One delivery of a relation-changed event, with the leadership the unit had at the time. */
  datatype Delivery = Delivery(isLeader: bool, event: RelationChanged)

  /** A delivery the handler acts on: the unit leads and the event names a remote unit. */
  predicate Acts(d: Delivery)
  {
    d.isLeader && d.event.unit.Some?
  }

  /**
   * The data-source handler as a function of the state it finds. A
   * non-leader and an event without a unit leave everything as it was;
   * otherwise the record is overwritten with whatever the remote unit
   * published under `ingress-address` and `port`, absent values included,
   * and the status says whether both were there.
   */
  function SourceAvailable(s: HandlerState, d: Delivery): (r: HandlerState)
    ensures !Acts(d) ==> r == s
    ensures Acts(d) ==>
      var data := d.event.unit.value.data;
      && (r.conn.host.Some? <==> IngressAddressKey in data)
      && (r.conn.host.Some? ==> r.conn.host.value == data[IngressAddressKey])
      && (r.conn.port.Some? <==> PortKey in data)
      && (r.conn.port.Some? ==> r.conn.port.value == data[PortKey])
    ensures Acts(d) ==>
      var data := d.event.unit.value.data;
      && (r.status == Active(ReadySourceMessage) <==> IngressAddressKey in data && PortKey in data)
      && (r.status == Blocked(InvalidSourceMessage) <==> IngressAddressKey !in data || PortKey !in data)
  {
    if !d.isLeader then s
    else match d.event.unit
      case None => s
      case Some(u) =>
        var host := Get(u.data, IngressAddressKey);
        var port := Get(u.data, PortKey);
        var status := if host.None? || port.None? then Blocked(InvalidSourceMessage)
                      else Active(ReadySourceMessage);
        HandlerState(SourceConn(host, port), status)
  }

  /** The charm object: the source record, the status, and the stored flags. */
  class GrafanaBase {
    var sourceConn: SourceConn
    var status: Status
    var configured: bool
    var started: bool

    /** The part of the object the data-source handler works on. */
    function State(): HandlerState
      reads this
    {
      HandlerState(sourceConn, status)
    }

    /**
     * A new charm object. `persisted` is the stored state that survived
     * earlier runs; a flag keeps its persisted value and defaults to false
     * when there is none. `initialStatus` is the status the runtime reports
     * before the charm sets one.
     */
    constructor (persisted: map<string, bool>, initialStatus: Status)
      ensures sourceConn == NoSource && status == initialStatus
      ensures configured == (ConfiguredFlag in persisted && persisted[ConfiguredFlag])
      ensures started == (StartedFlag in persisted && persisted[StartedFlag])
      ensures persisted == map[] ==> !configured && !started
    {
      sourceConn := SourceConn(None, None);
      status := initialStatus;
      configured := if ConfiguredFlag in persisted then persisted[ConfiguredFlag] else false;
      started := if StartedFlag in persisted then persisted[StartedFlag] else false;
    }

    /**
     * The relation-changed handler for the data-source relation. Only the
     * record and the status may change, and they change as
     * `SourceAvailable` says.
     */
    method OnHttpSourceAvailable(isLeader: bool, event: RelationChanged)
      modifies this`sourceConn, this`status
      ensures State() == SourceAvailable(old(State()), Delivery(isLeader, event))
      ensures !isLeader || event.unit.None? ==>
        sourceConn == old(sourceConn) && status == old(status)
      ensures isLeader && event.unit.Some? ==>
        var data := event.unit.value.data;
        && sourceConn == SourceConn(Get(data, IngressAddressKey), Get(data, PortKey))
        && status == (if IngressAddressKey in data && PortKey in data
                      then Active(ReadySourceMessage) else Blocked(InvalidSourceMessage))
    {
      if !isLeader {
        return;
      }
      if event.unit.None? {
        return;
      }
      var data := event.unit.value.data;
      var host := Get(data, IngressAddressKey);
      var port := Get(data, PortKey);
      if host.None? || port.None? {
        status := Blocked(InvalidSourceMessage);
      } else {
        status := Active(ReadySourceMessage);
      }
      sourceConn := sourceConn.(host := host);
      sourceConn := sourceConn.(port := port);
    }
  }

  /** Only the `ingress-address` and `port` entries of the relation data matter. */
  lemma OnlyAddressKeysMatter(s: HandlerState, isLeader: bool, name: string, d1: RelationData, d2: RelationData)
    requires AgreeOn(d1, d2, IngressAddressKey) && AgreeOn(d1, d2, PortKey)
    ensures SourceAvailable(s, Delivery(isLeader, RelationChanged(Some(RemoteUnit(name, d1)))))
         == SourceAvailable(s, Delivery(isLeader, RelationChanged(Some(RemoteUnit(name, d2)))))
  {
  }

  /** An acting delivery leaves nothing of the previous record or status behind. */
  lemma SourceAvailableForgetsPrevious(s1: HandlerState, s2: HandlerState, d: Delivery)
    requires Acts(d)
    ensures SourceAvailable(s1, d) == SourceAvailable(s2, d)
  {
  }

  /** Delivering the same event twice has the effect of delivering it once. */
  lemma SourceAvailableIdempotent(s: HandlerState, d: Delivery)
    ensures SourceAvailable(SourceAvailable(s, d), d) == SourceAvailable(s, d)
  {
  }

  /** The state after a series of deliveries to one charm object, in order. */
  function Replay(s: HandlerState, ds: seq<Delivery>): HandlerState
    decreases |ds|
  {
    if ds == [] then s else Replay(SourceAvailable(s, ds[0]), ds[1..])
  }

  /** Deliveries the handler does not act on, however many, change nothing. */
  lemma {:induction false} ReplayIgnored(s: HandlerState, ds: seq<Delivery>)
    requires forall i :: 0 <= i < |ds| ==> !Acts(ds[i])
    ensures Replay(s, ds) == s
    decreases |ds|
  {
    if ds != [] {
      ReplayIgnored(SourceAvailable(s, ds[0]), ds[1..]);
    }
  }

  /**
   * Last write wins: after a series of deliveries, the record and status
   * are those the last acting delivery wrote, whatever came before it.
   */
  lemma {:induction false} ReplayLastWins(s: HandlerState, ds: seq<Delivery>, k: nat)
    requires k < |ds| && Acts(ds[k])
    requires forall j :: k < j < |ds| ==> !Acts(ds[j])
    ensures Replay(s, ds) == SourceAvailable(HandlerState(NoSource, Unknown), ds[k])
    decreases |ds|
  {
    if k == 0 {
      ReplayIgnored(SourceAvailable(s, ds[0]), ds[1..]);
      SourceAvailableForgetsPrevious(s, HandlerState(NoSource, Unknown), ds[0]);
    } else {
      ReplayLastWins(SourceAvailable(s, ds[0]), ds[1..], k - 1);
    }
  }
}
