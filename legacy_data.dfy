/** The task descriptor of the earlier push-based variant. */
module LegacyData {

  /** One scheduled run: the task id, the earliest run time and the ack wait
      of the task's consumer (both in nanoseconds), and the requested number
      of occurrences, which nothing in the variant reads back. */
  datatype LegacyPayload = LegacyPayload(
    taskId: string,
    executionTimestamp: int,
    ackWait: int,
    maxOccurrences: int)
}
