/**
 * The charm's data-source handler and the interface client's handler read
 * the same two keys of the same relation data. For a leader they agree: the
 * charm reports Active exactly when the client emits, and what the charm
 * then records is what the client announces.
 */
module HandlersAgree {
  import opened Wrappers
  import opened RelationEvents
  import opened Charm
  import opened InterfaceHttp

  lemma LeaderCharmMatchesClient(s: HandlerState, event: RelationChanged)
    requires event.unit.Some?
    ensures var r := SourceAvailable(s, Delivery(true, event));
      && (r.status == Active(ReadySourceMessage) <==> OnRelationChanged(event).Emit?)
      && (OnRelationChanged(event).Emit? ==>
            OnRelationChanged(event).details == ServerDetails(r.conn.host, r.conn.port))
      && (OnRelationChanged(event).Defer? ==> r.status == Blocked(InvalidSourceMessage))
  {
  }
}
