/** What the modules about executions share. */
module Executions {

  type ExecutionId = string

  datatype Status = New | Running | Waiting | Success | Error | Canceled
}
