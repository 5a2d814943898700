/**
 The small rules of a till that its screen, its disk and its sync engine share.
 */
module TillRules {
  import opened Domain
  import opened ProjectQueue
  import opened Server

  function RequestOf(row: Row): MutationInput {
    MutationInput(row.orderId, row.mutationId, row.terminalId, row.restaurantId, row.baseVersion, row.command)
  }

  // The send gate: a group goes out only while every row in it is pending or in the air.
  predicate IsSendable(group: seq<Row>) {
    forall row <- group :: row.status == Pending || row.status == Syncing
  }

  // A snapshot only moves forward; one of another order is always accepted.
  predicate AcceptsSnapshot(held: Option<Snapshot>, incoming: Snapshot) {
    held.Some? && held.value.id == incoming.id ==> incoming.version >= held.value.version
  }
}
