/** The options a runner is started with. */
module Interfaces {

  /**
    The only option: a time limit, in seconds, on the runner's whole run.
    The value is an exact real, not a 32-bit float.
   */
  datatype RunnerOptions = RunnerOptions(globalTimeoutSeconds: real)
}
