/** A scheduled task, as the scheduler keeps it in memory and as a state file holds it. */
module Tasks {

  datatype Status = Pending | Delivered | Failed | Cancelled

  /** What delivery attempts rewrite. */
  datatype Fields = Fields(attempts: nat, deliverAt: int, lastError: string)

  /** What never changes. */
  datatype Info = Info(id: string, target: string, payload: string, project: string, createdAt: int)

  datatype Task = Task(info: Info, status: Status, fields: Fields)
}
