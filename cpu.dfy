/** The round-robin CPU scheduler: the ready queue, the active-process
    register (the page-table base register, which designates the running
    process's page table and through it the process) and the time quantum,
    gathered in one object. */
module Cpu {
  import opened Process
  import opened ReadyQueue
  import opened RoundRobin

  class Scheduler {
    /** The ready queue; it is reset in place, never replaced. */
    const ready: Queue
    /** The process whose page table is active, or null when the CPU is idle. */
    var active: PCB?
    /** The time quantum; the kernel may change it between calls. */
    var quantum: int
    /** The quanta passed to the timer facility, oldest first. */
    ghost var timerArms: seq<int>

    /** The scheduler's invariant: a well-formed queue without duplicate
        identifiers whose processes are all ready. */
    ghost predicate Valid()
      reads this, ready, ready.Repr, ready.Contents
    {
      ready.Valid() && NoDupIds(ready.Contents) &&
      (forall i :: 0 <= i < |ready.Contents| ==> ready.Contents[i].status == Ready)
    }

    /** The scheduler before initialisation: an empty queue and no active
        process. */
    constructor (quantum: int)
      ensures Valid() && fresh(ready) && fresh(ready.Repr)
      ensures ready.Contents == [] && active == null
      ensures this.quantum == quantum && timerArms == []
    {
      ready := new Queue();
      active := null;
      this.quantum := quantum;
      timerArms := [];
    }

    /** Arms the timer with the quantum, then empties the ready queue. The
        active process is left as it was. */
    method Init()
      modifies this, ready
      ensures Valid() && ready.Contents == [] && ready.IsEmpty() && ready.Repr == {}
      ensures timerArms == old(timerArms) + [quantum]
      ensures active == old(active) && quantum == old(quantum)
    {
      timerArms := timerArms + [quantum];
      ready.Reset();
    }

    /** Admission: a process whose identifier is already queued is left
        alone; any other process becomes ready and joins the tail. */
    method InsertReady(p: PCB)
      requires Valid()
      modifies ready, ready.Repr, p
      ensures Valid()
      ensures ready.Contents == Admit(old(ready.Contents), p)
      ensures p.status == if old(HasId(ready.Contents, p.id)) then old(p.status) else Ready
      ensures p.lastDispatch == old(p.lastDispatch)
      ensures fresh(ready.Repr - old(ready.Repr))
    {
      var found := ready.Contains(p);
      if !found {
        p.status := Ready;
        var n := new Node(p);
        ready.Append(n);
      }
    }

    /** Dispatch at simulated time `clock`: the outgoing process goes back to
        the tail if it is still running, then the head of the queue becomes
        the running, active process and the timer is armed with the quantum;
        with nothing to run the CPU goes idle and the timer is not armed. */
    method Dispatch(clock: int)
      requires Valid()
      modifies this, ready, ready.Repr, ready.Contents, active
      ensures Valid()
      ensures var s := DispatchStep(old(ready.Contents), old(active),
                                    old(active != null && active.status == Running));
        ready.Contents == s.queue && active == s.active
      ensures active != null ==> active.status == Running && active.lastDispatch == clock
      ensures active != null ==> !HasId(ready.Contents, active.id)
      ensures timerArms == if active != null then old(timerArms) + [quantum] else old(timerArms)
      ensures quantum == old(quantum)
      ensures old(active) != null && old(active) != active ==>
        old(active).lastDispatch == old(active.lastDispatch) &&
        old(active).status ==
          if old(active.status == Running && !HasId(ready.Contents, active.id)) then Ready
          else old(active.status)
      ensures forall q | q in old(ready.Contents) && q != active ::
        q.status == old(q.status) && q.lastDispatch == old(q.lastDispatch)
      ensures fresh(ready.Repr - old(ready.Repr))
    {
      ghost var q0, a0 := ready.Contents, active;
      ghost var running := active != null && active.status == Running;
      DispatchStepKeepsNoDup(q0, a0, running);
      if active != null && active.status == Running {
        InsertReady(active);
      }
      assert ready.Contents == if running then Admit(q0, a0) else q0;
      ActivateNext(clock);
    }

    /** The second half of a dispatch: the head of the queue, if any, becomes
        the running, active process and the timer is armed; otherwise the CPU
        goes idle. */
    method ActivateNext(clock: int)
      requires Valid()
      modifies this, ready, ready.Contents
      ensures Valid()
      ensures old(ready.Contents) == [] ==>
        active == null && ready.Contents == [] && timerArms == old(timerArms)
      ensures old(ready.Contents) != [] ==>
        active == old(ready.Contents)[0] && ready.Contents == old(ready.Contents)[1..] &&
        active.status == Running && active.lastDispatch == clock &&
        timerArms == old(timerArms) + [quantum]
      ensures quantum == old(quantum)
      ensures forall q | q in old(ready.Contents) && q != active ::
        q.status == old(q.status) && q.lastDispatch == old(q.lastDispatch)
      ensures ready.Repr <= old(ready.Repr)
    {
      ghost var q0 := ready.Contents;
      var next := ready.Dequeue();
      if next != null {
        assert forall i :: 0 <= i < |ready.Contents| ==> ready.Contents[i] != next by {
          forall i | 0 <= i < |ready.Contents| ensures ready.Contents[i] != next {
            assert q0[i + 1] == ready.Contents[i] && q0[0] == next;
          }
        }
        active := next;
        next.status := Running;
        // prepage(next) prepares the process's pages; it is outside this model.
        next.lastDispatch := clock;
        timerArms := timerArms + [quantum];
      } else {
        active := null;
      }
    }
  }

  /** `k` dispatches in a row, at the simulated times `clocks`, with no
      outside change of status in between:
      the scheduler ends in the state `Run` predicts, so the round-robin
      properties proved about `Run` hold of the scheduler itself. */
  method DispatchRepeatedly(cpu: Scheduler, k: nat, clocks: seq<int>)
    requires |clocks| == k
    requires cpu.Valid() && (cpu.active != null ==> cpu.active.status == Running)
    modifies cpu, cpu.ready, cpu.ready.Repr, cpu.ready.Contents, cpu.active
    ensures cpu.Valid() && (cpu.active != null ==> cpu.active.status == Running)
    ensures Step(cpu.ready.Contents, cpu.active) == Run(old(cpu.ready.Contents), old(cpu.active), k)
    ensures fresh(cpu.ready.Repr - old(cpu.ready.Repr))
    decreases k
  {
    if k > 0 {
      ghost var q0, a0 := cpu.ready.Contents, cpu.active;
      cpu.Dispatch(clocks[0]);
      ghost var s := DispatchStep(q0, a0, a0 != null);
      assert cpu.ready.Contents == s.queue && cpu.active == s.active;
      DispatchRepeatedly(cpu, k - 1, clocks[1..]);
      RunFirstStep(q0, a0, k - 1);
    }
  }

  /** Two processes admitted in order P1, P2 under quantum 5, then three
      dispatches: the active process alternates P1, P2, P1 and the queue
      head alternates P2, P1, P2. */
  method RoundRobinScenario() returns (actives: seq<int>, heads: seq<int>)
    ensures actives == [1, 2, 1]
    ensures heads == [2, 1, 2]
  {
    var cpu := new Scheduler(5);
    cpu.Init();
    var p1 := new PCB(1, Waiting);
    var p2 := new PCB(2, Waiting);
    cpu.InsertReady(p1);
    assert !HasId([p1], p2.id);
    cpu.InsertReady(p2);
    assert cpu.ready.Contents == [p1, p2];
    actives, heads := [], [];

    assert DispatchStep([p1, p2], null, false) == Step([p2], p1);
    DispatchSwaps(p1, p2);
    DispatchSwaps(p2, p1);
    cpu.Dispatch(10);
    assert cpu.active == p1 && cpu.ready.Contents == [p2];
    assert p1.status == Running;
    actives, heads := actives + [cpu.active.id], heads + [cpu.ready.head.pcb.id];

    cpu.Dispatch(15);
    assert cpu.active == p2 && cpu.ready.Contents == [p1];
    assert p1.status == Ready && p2.status == Running;
    actives, heads := actives + [cpu.active.id], heads + [cpu.ready.head.pcb.id];

    cpu.Dispatch(20);
    assert cpu.active == p1 && cpu.ready.Contents == [p2];
    assert p1.status == Running && p2.status == Ready;
    actives, heads := actives + [cpu.active.id], heads + [cpu.ready.head.pcb.id];
  }
}
