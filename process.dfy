/** Process control blocks as seen by the CPU scheduler.
    Only the fields the scheduler reads or writes are modelled: the identifier,
    the status and the time of the last dispatch. */
module Process {

  /** The four states a process can be in (`running, ready, waiting, done`). */
  datatype Status = Running | Ready | Waiting | Done

  /** A process control block. The scheduler only holds references to it;
      it is created and owned by the simulation kernel. */
  class PCB {
    /** The process identifier; the scheduler never rewrites it. */
    const id: int
    var status: Status
    /** Simulated time at which the process was last dispatched. */
    var lastDispatch: int

    constructor (id: int, status: Status)
      ensures this.id == id && this.status == status && lastDispatch == 0
    {
      this.id := id;
      this.status := status;
      lastDispatch := 0;
    }
  }

  /** Some process in `q` carries identifier `id`. */
  ghost predicate HasId(q: seq<PCB>, id: int) {
    exists i :: 0 <= i < |q| && q[i].id == id
  }

  /** No identifier occurs twice in `q`. */
  ghost predicate NoDupIds(q: seq<PCB>) {
    forall i, j :: 0 <= i < j < |q| ==> q[i].id != q[j].id
  }
}
