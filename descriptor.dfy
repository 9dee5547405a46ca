/** The task descriptor of the wired scheduler. */
module Descriptor {

  /** One occurrence of a task: its id, the earliest time it may run (ns), the
      ack wait as unparsed duration text, which doubles as the delay between
      occurrences, the current iteration and the iteration bound. */
  datatype TaskPayload = TaskPayload(
    taskId: string,
    nextExec: int,
    ackWait: string,
    iter: int,
    maxIter: int)
}
