/** What the executor reports about one launched or observed process. */
module Execution {
  import opened Wrappers

  /** No exit code means the process has not been seen to finish. */
  datatype ExecutionOutput = ExecutionOutput(stdout: string, stderr: string, exitCode: Option<int>, executionId: string)
}
