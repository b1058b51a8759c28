/** The law record of Redis (schema 7.1) and the statuses it moves through. */
module Laws {
  import opened Platform

  datatype Status = PendingQueue | InDeliberation | InWindow | Promulgated | Discarded | Repealed

  /** law:<id>. requestedBy is "" until the first enqueueing; silent counts consecutive unanswered
      deliberations. */
  datatype Law = Law(
    lawId: string, author: string, requestedBy: string, textHash: string, textCompressed: string,
    textOriginalLen: int, createdAt: string, status: Status, action: Action, category: string, silent: int)

  /** turn_holder: who is charged for the next window of this law. */
  function TurnHolder(law: Law): string {
    if law.requestedBy != "" then law.requestedBy else law.author
  }
}
