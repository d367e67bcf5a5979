/** The worker management panel: how many workers are occupied, available and
    absent, and the state cells the panel keeps those numbers in. */
module WorkerManagement {
  import opened Common
  import opened Pickup

  const Occupied: string := "occupied"
  const Available: string := "available"
  const Absent: string := "absent"

  /** The three statistics cards of the panel. */
  datatype WorkerStats = WorkerStats(occupied: nat, available: nat, absent: nat)

  /** Statuses compare with `===`: exact string equality, letter case included. */
  predicate IsCountedStatus(status: string)
  {
    status == Occupied || status == Available || status == Absent
  }

  /** `workers.filter(w => w.status === status).length`. */
  function CountStatus(workers: seq<Worker>, status: string): (n: nat)
    ensures n <= |workers|
  {
    Count(workers, (w: Worker) => w.status == status)
  }

  /** Workers whose status is none of the three counted ones. */
  function CountUncounted(workers: seq<Worker>): nat
  {
    Count(workers, (w: Worker) => !IsCountedStatus(w.status))
  }

  /** Every worker falls in exactly one of the three counts or in none of them. */
  lemma {:induction false} StatusPartition(workers: seq<Worker>)
    ensures CountStatus(workers, Occupied) + CountStatus(workers, Available)
          + CountStatus(workers, Absent) + CountUncounted(workers) == |workers|
  {
    if workers != [] {
      StatusPartition(workers[..|workers| - 1]);
    }
  }

  /** The counts the effect computes from the current `workers`. */
  function StatusCounts(workers: seq<Worker>): (s: WorkerStats)
    ensures s.occupied + s.available + s.absent <= |workers|
    ensures s.occupied + s.available + s.absent == |workers|
        <==> forall i :: 0 <= i < |workers| ==> IsCountedStatus(workers[i].status)
  {
    StatusPartition(workers);
    CountExtremes(workers, (w: Worker) => !IsCountedStatus(w.status));
    WorkerStats(CountStatus(workers, Occupied), CountStatus(workers, Available),
                CountStatus(workers, Absent))
  }

  /** A worker whose status is none of the three exact strings changes no count. */
  lemma UncountedStatusIgnored(workers: seq<Worker>, w: Worker)
    requires !IsCountedStatus(w.status)
    ensures StatusCounts(workers + [w]) == StatusCounts(workers)
  {
    assert (workers + [w])[..|workers|] == workers;
  }

  /** A status differing from "occupied" only in letter case is not counted as occupied. */
  lemma CapitalisedStatusIgnored()
    ensures StatusCounts([Worker("w1", "Asha", "Occupied")]) == WorkerStats(0, 0, 0)
  {
    UncountedStatusIgnored([], Worker("w1", "Asha", "Occupied"));
    assert [] + [Worker("w1", "Asha", "Occupied")] == [Worker("w1", "Asha", "Occupied")];
  }

  /** The counts do not depend on the order of the workers. */
  lemma StatusCountsPermutation(a: seq<Worker>, b: seq<Worker>)
    requires multiset(a) == multiset(b)
    ensures StatusCounts(a) == StatusCounts(b)
  {
    CountPermutation(a, b, (w: Worker) => w.status == Occupied);
    CountPermutation(a, b, (w: Worker) => w.status == Available);
    CountPermutation(a, b, (w: Worker) => w.status == Absent);
  }

  /** The panel's three state cells. */
  class WorkerDashboard {
    var occupiedWorkers: nat
    var availableWorkers: nat
    var absentWorkers: nat

    function Shown(): WorkerStats
      reads this
    {
      WorkerStats(occupiedWorkers, availableWorkers, absentWorkers)
    }

    /** The cells start at zero. */
    constructor ()
      ensures occupiedWorkers == 0 && availableWorkers == 0 && absentWorkers == 0
    {
      occupiedWorkers, availableWorkers, absentWorkers := 0, 0, 0;
    }

    /** The effect that runs whenever `workers` changes: recount and store. */
    method RecountStatuses(workers: seq<Worker>)
      modifies this
      ensures Shown() == StatusCounts(workers)
    {
      var occupied := CountStatus(workers, Occupied);
      var available := CountStatus(workers, Available);
      var absent := CountStatus(workers, Absent);
      occupiedWorkers := occupied;
      availableWorkers := available;
      absentWorkers := absent;
    }
  }
}
