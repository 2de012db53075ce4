/**
 * The queued jobs the order controller dispatches. Their handlers do nothing
 * and delivery is asynchronous, so a job is only its class and the order
 * array it was constructed with.
 */
module Jobs {
  import opened Values

  datatype JobName = ProcessOrder | OrderShipped | OrderCompleted | OrderCancelled

  datatype Job = Job(name: JobName, payload: Attributes)
}
