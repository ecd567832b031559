/** The status of an execution row, which the poller reads and the reconciliation writes. */
module ExecutionStatuses {

  datatype ExecutionStatus = PENDING | RUNNING | SUCCESS | FAILED

  predicate IsTerminal(status: ExecutionStatus) {
    status == SUCCESS || status == FAILED
  }
}
