# Grafana charm base: data-source relation handling

A model of two small pieces of a Grafana operator charm that react to a
data source (for example Prometheus) publishing its address on a relation.

- `charm.dfy` models `GrafanaBase`: the charm keeps a connection record
  `grafana_source_conn = {host, port}`, a unit status, and two stored flags
  `configured` and `started`. Its relation-changed handler for the
  `grafana-source` relation does nothing unless the unit is the leader and
  the event names a remote unit. Otherwise it overwrites the record with the
  unit's `ingress-address` and `port` values, absent ones included. The
  status becomes Blocked("Invalid data source host/port") when either value
  is missing and Active("Ready to connect to data source.") when both are
  present. The handler is a class method (`GrafanaBase.OnHttpSourceAvailable`)
  proved against a pure function (`SourceAvailable`). Lemmas about that
  function cover which keys matter, that the previous record never
  survives, idempotence, and last-write-wins over any series of deliveries.
- `interface_http.dfy` models the client side of the HTTP interface.
  `ServerDetails` is a value with a `Snapshot`/`Restore` pair proved to
  round-trip. `ServerAvailableEvent` is a class whose `Restore` replaces its
  details in place. The client's relation-changed handler either defers the
  event or emits exactly one server-available event with the host and port
  it read (`Outcome = Defer | Emit(details)`).
- `handlers_agree.dfy` relates the two handlers. Both read the same two
  keys, so for a leader the charm reports Active exactly when the client
  emits, and the record the charm stores is the one the client announces.
- `relation_events.dfy` holds the input both handlers share: an optional
  remote unit and the `map<string, string>` it published. `wrappers.dfy`
  holds `Option`.

Host and port are opaque strings; nothing is parsed. Whether the unit leads
is passed to the handler as a parameter. The status the runtime reports
before the charm sets one is passed to the constructor, and so is the
stored state persisted by earlier runs.

The handler keeps a single record, not one per relation id. It reads only
`ingress-address` and `port`, has no `source-type` or `source-name`
handling, and stores `None` values instead of deleting anything.
`test/unit/test_charm.py` tests a charm class (`GrafanaK8s`, with a
`datastore`) that `src/charm.py` does not define; it is not part of this
model.

## Model

| member | source | states |
|---|---|---|
| `Charm.GrafanaBase.constructor` | src/charm.py:23-40 | the record starts as `{host: None, port: None}`; each stored flag keeps its persisted value and is false when none was persisted, so a fresh store gives `configured = started = false` |
| `Charm.SourceAvailable` | src/charm.py:42-71 | a non-leader delivery or one without a unit changes nothing; otherwise host (port) is present exactly when `ingress-address` (`port`) is in the data and equals its value; the status is Active(ready) iff both keys are present and Blocked(invalid) iff either is missing |
| `Charm.GrafanaBase.OnHttpSourceAvailable` | src/charm.py:42-71 | changes only the record and the status, exactly as `SourceAvailable` says; spells out the table: unchanged when not leader or no unit, else record = the two looked-up values (None included) and status Blocked/Active |
| `Charm.OnlyAddressKeysMatter` | src/charm.py:57-58 | two relation-data mappings that agree on `ingress-address` and `port` give the same record and status; other keys are ignored |
| `Charm.SourceAvailableForgetsPrevious` | src/charm.py:57-71 | an acting delivery gives the same result from any prior record and status: a partial update overwrites and no field of the old record survives |
| `Charm.SourceAvailableIdempotent` | src/charm.py:64-71 | delivering the same event twice leaves the same record and status as delivering it once |
| `Charm.ReplayIgnored` | src/charm.py:45-52 | any series of non-leader or unit-less deliveries leaves the record and status unchanged |
| `Charm.ReplayLastWins` | src/charm.py:57-71 | after any series of deliveries, the record and status are exactly those written by the last acting delivery, independent of everything before it |
| `InterfaceHttp.ServerDetails.Snapshot` | src/interface_http.py:35-39 | the snapshot has exactly the keys `server_details.host` and `server_details.port`, holding host and port |
| `InterfaceHttp.ServerDetails.Restore` | src/interface_http.py:30-33 | succeeds iff both snapshot keys are present, with host and port read from them; a missing host key fails on that key first, else a missing port key fails on it |
| `InterfaceHttp.RestoreSnapshot` | src/interface_http.py:31-39 | restoring the snapshot of any details gives back those same details |
| `InterfaceHttp.SnapshotRestore` | src/interface_http.py:31-39 | a snapshot that restores equals, on its two keys, the snapshot of the restored details; other keys are dropped |
| `InterfaceHttp.ServerAvailableEvent.constructor` | src/interface_http.py:47-49 | the event carries the given server details |
| `InterfaceHttp.ServerAvailableEvent.Snapshot` | src/interface_http.py:55-56 | the event's snapshot has the two server-details keys and restores to the event's own details |
| `InterfaceHttp.ServerAvailableEvent.Restore` | src/interface_http.py:58-59 | on a complete snapshot it returns the restored details and the event takes them; on a missing key the result is the `KeyError` naming it and the details are unchanged; restoring the event's own snapshot keeps its host and port |
| `InterfaceHttp.OnRelationChanged` | src/interface_http.py:85-104 | defers when there is no unit; with a unit, defers iff `ingress-address` or `port` is missing, and otherwise emits exactly one server-available event whose host and port are the looked-up values; every call ends in exactly one of the two |
| `InterfaceHttp.ClientReadsOnlyAddressKeys` | src/interface_http.py:95-96 | relation data that agree on `ingress-address` and `port` give the same outcome |
| `HandlersAgree.LeaderCharmMatchesClient` | src/interface_http.py:89-104 | for a leader and an event with a unit, the charm's status is Active iff the client emits, the emitted details equal the record the charm stores, and a deferral goes with Blocked |

## Left out

- Fetching the container image (`OCIImageResource`, `OCIImageResourceError`): it calls a library that is not part of this model.
- The operator framework's wiring: `framework.observe`, `EventSource`/`ClientEvents` registration, `Client.__init__` and its `relation_name` property, and the mechanics of `emit` and `defer`. Their effect is modelled as the `Defer | Emit` outcome.
- Persistence of stored state: the constructor takes the persisted flags as a map instead.
- Leadership (`unit.is_leader()`) and the runtime's initial status are parameters, not queries.
- Logging, `setuppath` and the `main` entry point.
- Lifetime of the record: in the source, `grafana_source_conn` is a plain attribute that each new charm object resets to `{None, None}`. `ReplayIgnored` and `ReplayLastWins` describe deliveries to one object; they do not model restarts of the charm process.
- Value types: the source stores whatever the relation data holds; the model treats host and port as strings.
- Default arguments of `ServerDetails(host=None, port=None)`: the model has no default constructor; both fields are always given.
- Deferral in the charm's handler: its comment speaks of deferring an event without a unit, but the code only logs and returns, and the model follows the code; the handler never defers.
