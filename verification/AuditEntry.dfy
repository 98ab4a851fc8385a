/** One audit-log entry. */
module AuditEntry {
  import opened Wrappers

  type Uuid = nat

  datatype Entry = Entry(
    actor: Option<Uuid>,
    entityType: string,
    entityId: Option<Uuid>,
    action: string,
    metadata: map<string, string>,
    createdAt: int)
}
