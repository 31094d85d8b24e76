/**
 * Worker allocation at start-up of the test engine
 * (test_engine_app/test_engine_app.py): with at least three processes
 * available, one API worker, one service worker and the rest as process
 * workers are submitted to the pool, numbered consecutively from 1.
 */
module AppLauncher {
  import opened Wrappers
  import opened Enums

  /** One submission to the process pool: the worker's role and its id. */
  datatype Future = Future(role: WorkerType, workerId: int)

  const MinNumberOfProcesses := 3

  /** The submissions `run` makes when `available` processes are free, in order. */
  function Allocation(available: int): (r: seq<Future>)
    requires available >= MinNumberOfProcesses
    ensures |r| == available
  {
    [Future(ApiServer, 1)] +
    seq(available - 2, i requires 0 <= i < available - 2 => Future(ProcessWorker, i + 2)) +
    [Future(ServiceWorker, available)]
  }

  /** Ids are 1..n in submission order; the first is the API worker and the last the service worker. */
  lemma AllocationShape(available: int)
    requires available >= MinNumberOfProcesses
    ensures forall i :: 0 <= i < available ==> Allocation(available)[i].workerId == i + 1
    ensures Allocation(available)[0].role == ApiServer
    ensures Allocation(available)[available - 1].role == ServiceWorker
    ensures forall i :: 0 < i < available - 1 ==> Allocation(available)[i].role == ProcessWorker
  {
  }

  /** How many submissions have the given role. */
  function CountRole(fs: seq<Future>, role: WorkerType): (n: nat)
    ensures n <= |fs|
  {
    if fs == [] then 0 else CountRole(fs[..|fs| - 1], role) + (if fs[|fs| - 1].role == role then 1 else 0)
  }

  lemma {:induction false} CountRoleAppend(a: seq<Future>, b: seq<Future>, role: WorkerType)
    ensures CountRole(a + b, role) == CountRole(a, role) + CountRole(b, role)
    decreases |b|
  {
    if b == [] {
      assert a + b == a;
    } else {
      assert (a + b)[..|a + b| - 1] == a + b[..|b| - 1];
      CountRoleAppend(a, b[..|b| - 1], role);
    }
  }

  lemma {:induction false} CountUniform(fs: seq<Future>, role: WorkerType, other: WorkerType)
    requires forall i :: 0 <= i < |fs| ==> fs[i].role == role
    ensures CountRole(fs, role) == |fs|
    ensures other != role ==> CountRole(fs, other) == 0
    decreases |fs|
  {
    if fs != [] {
      CountUniform(fs[..|fs| - 1], role, other);
    }
  }

  /** Exactly one API worker, one service worker, and n - 2 process workers. */
  lemma AllocationCounts(available: int)
    requires available >= MinNumberOfProcesses
    ensures CountRole(Allocation(available), ApiServer) == 1
    ensures CountRole(Allocation(available), ServiceWorker) == 1
    ensures CountRole(Allocation(available), ProcessWorker) == available - 2
  {
    var first: seq<Future> := [Future(ApiServer, 1)];
    var middle := seq(available - 2, i requires 0 <= i < available - 2 => Future(ProcessWorker, i + 2));
    var last: seq<Future> := [Future(ServiceWorker, available)];
    assert Allocation(available) == first + middle + last;
    CountRoleAppend(first + middle, last, ApiServer);
    CountRoleAppend(first, middle, ApiServer);
    CountRoleAppend(first + middle, last, ServiceWorker);
    CountRoleAppend(first, middle, ServiceWorker);
    CountRoleAppend(first + middle, last, ProcessWorker);
    CountRoleAppend(first, middle, ProcessWorker);
    CountUniform(middle, ProcessWorker, ApiServer);
    CountUniform(middle, ProcessWorker, ServiceWorker);
    assert first[..0] == [] && last[..0] == [];
  }

  class TestEngineApp {
    /** `os.cpu_count()` when the app was built: None when the count cannot be determined. */
    const availableNumberOfProcesses: Option<int>
    var workerFutures: seq<Future>

    constructor (cpuCount: Option<int>)
      ensures availableNumberOfProcesses == cpuCount && workerFutures == []
    {
      availableNumberOfProcesses := cpuCount;
      workerFutures := [];
    }

    /**
     * `run`: comparing an unknown count (None) with the minimum raises
     * TypeError before anything is submitted; otherwise submit nothing when
     * too few processes are free, else the allocation.
     */
    method Run() returns (raised: bool)
      modifies this
      ensures raised <==> availableNumberOfProcesses.None?
      ensures raised ==> workerFutures == old(workerFutures)
      ensures availableNumberOfProcesses.Some? && availableNumberOfProcesses.value < MinNumberOfProcesses ==>
        workerFutures == old(workerFutures)
      ensures availableNumberOfProcesses.Some? && availableNumberOfProcesses.value >= MinNumberOfProcesses ==>
        workerFutures == old(workerFutures) + Allocation(availableNumberOfProcesses.value)
    {
      if availableNumberOfProcesses.None? {
        return true;
      }
      raised := false;
      var available := availableNumberOfProcesses.value;
      if available < MinNumberOfProcesses {
        return;
      }
      var numOfApiWorkers := 1;
      var numOfServiceWorkers := 1;
      var numOfProcessWorkers := available - numOfServiceWorkers - numOfApiWorkers;
      ghost var start := workerFutures;
      ghost var middle := seq(numOfProcessWorkers, i requires 0 <= i < numOfProcessWorkers => Future(ProcessWorker, i + 2));
      var workerCount := 0;
      for count := 0 to numOfApiWorkers
        invariant workerCount == count
        invariant workerFutures == start + (if count == 0 then [] else [Future(ApiServer, 1)])
      {
        workerCount := workerCount + 1;
        workerFutures := workerFutures + [Future(ApiServer, workerCount)];
      }
      for count := 0 to numOfProcessWorkers
        invariant workerCount == 1 + count
        invariant workerFutures == start + [Future(ApiServer, 1)] + middle[..count]
      {
        workerCount := workerCount + 1;
        assert middle[..count + 1] == middle[..count] + [Future(ProcessWorker, workerCount)];
        workerFutures := workerFutures + [Future(ProcessWorker, workerCount)];
      }
      for count := 0 to numOfServiceWorkers
        invariant workerCount == 1 + numOfProcessWorkers + count
        invariant workerFutures == start + [Future(ApiServer, 1)] + middle + (if count == 0 then [] else [Future(ServiceWorker, available)])
      {
        workerCount := workerCount + 1;
        workerFutures := workerFutures + [Future(ServiceWorker, workerCount)];
      }
      assert middle[..numOfProcessWorkers] == middle;
    }
  }
}
