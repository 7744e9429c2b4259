/** Values shared by the whole model. */
module Types {
  datatype Option<+T> = None | Some(value: T)

  /** An alert is identified by its tenant and its deduplication key. */
  datatype Key = Key(tenant: string, alertId: string)

  /** Every phase a document of the checkpoint index can carry. */
  datatype Phase =
    | Perceiving | PendingApproval                                          // live checkpoints
    | NoActionProtectedAsset | AutoIsolated | Executed | IsolationFailed    // finished checkpoints
    | Claimed | Released | Resolved                                         // claim documents
}
