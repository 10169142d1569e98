/** Data/Repositories/Utlis/RepositoryTask.swift: the `Cancellable` every
    repository returns; it forwards `cancel()` to the network task it wraps. */
module RepositoryTasks {
  import opened NetworkService

  class RepositoryTask {
    var networkTask: NetworkTask?
    var isCancelled: bool

    constructor ()
      ensures networkTask == null && !isCancelled
    {
      networkTask := null;
      isCancelled := false;
    }

    /** `cancel()`: one cancel forwarded to the network task when there is one,
        and the flag set (never cleared again: nothing assigns it false). */
    method Cancel()
      modifies this, networkTask
      ensures isCancelled
      ensures networkTask == old(networkTask)
      ensures networkTask != null ==> networkTask.cancelCount == old(networkTask.cancelCount) + 1
    {
      if networkTask != null {
        networkTask.Cancel();
      }
      isCancelled := true;
    }
  }
}
