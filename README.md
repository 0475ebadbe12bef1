# Round-robin CPU scheduler of the OSP simulator, in Dafny

This project models the CPU-scheduling module of the OSP teaching operating
system simulator (`cpu1.intel/cpu.c`) and proves its round-robin properties.
The module has two parts:

- **The ready queue.** A singly linked FIFO of process control blocks
  (`Fila`/`No`) with a head pointer (`cabeca`) and a tail pointer (`cauda`).
  Its operations are reset, emptiness test, node creation, append at the tail,
  pop from the front, and a membership scan by process identifier.
- **The scheduler.** `cpu_init`, `insert_ready` and `dispatch` work over the
  global ready queue, the page-table base register `PTBR` (which designates
  the running process) and the global `Quantum`.

The files follow that structure:

- `process.dfy` (module `Process`): the process status and the PCB class. A
  PCB has a constant identifier and a mutable status and last-dispatch time.
  The file also holds the predicates "some queued process has this
  identifier" (`HasId`) and "no identifier occurs twice" (`NoDupIds`).
- `ready_queue.dfy` (module `ReadyQueue`): `Node` and `Queue` as heap
  objects with real `head`, `tail` and `next` pointers.
  - The ghost sequence `nodes` lists the linked nodes from head to tail.
  - `Contents` is the sequence of processes they carry.
  - `Valid()` ties the pointers to these: an acyclic chain of distinct nodes
    from head to tail, with head absent exactly when tail is absent.
- `round_robin.dfy` (module `RoundRobin`): the policy stated on values.
  - Admission (`Admit`) and one dispatch step (`DispatchStep`) as functions of
    the queue contents and the active process.
  - `Run`, the result of k successive dispatches.
  - Lemmas for no duplicates, FIFO admission order, no process lost, strict
    rotation and periodicity.
- `cpu.dfy` (module `Cpu`): the `Scheduler` class.
  - The ready queue, the active process (for `PTBR->pcb`), the quantum, and a
    ghost log of the quanta given to the timer.
  - Methods for `cpu_init`, `insert_ready` and `dispatch`, whose
    postconditions tie the new state to `Admit` and `DispatchStep`.
  - The invariant `Scheduler.Valid()`: the queue is well formed, has no
    duplicate identifiers, and every queued process is `Ready`.
  - `DispatchRepeatedly`: k dispatches of the scheduler in a row end in the
    state `Run` predicts, which carries the round-robin lemmas over to it.
  - A concrete scenario: two processes, three dispatches.

Behaviours of the code that the model keeps, although a reader might expect otherwise:

- Membership compares `pcb_id`, not record identity. So a running process
  whose identifier is already queued under another record is not re-queued
  by `dispatch`, and it keeps its `running` status.
- A failed allocation is not reported; the source passes the possibly-null
  node on to `inserirNo`. Here allocation always succeeds (see "Left out").
- `cpu_init` arms the timer before it resets the queue, and it leaves `PTBR`
  as it was.
- An idle dispatch (nothing to run) clears the active process and does not
  arm the timer.

## Model

| member | source | states |
|---|---|---|
| `ReadyQueue.Node.constructor` | cpu1.intel/cpu.c:136-143 | a new node holds the given process and has no successor |
| `ReadyQueue.Queue.constructor` | cpu1.intel/cpu.c:114-117 | a new queue is valid and empty |
| `ReadyQueue.Queue.Reset` | cpu1.intel/cpu.c:122-125 | after reset both pointers are absent, the queue is valid and its contents are empty |
| `ReadyQueue.Queue.IsEmpty` | cpu1.intel/cpu.c:128-133 | on a valid queue the result is true iff the contents are empty, iff the head is absent, iff the tail is absent |
| `ReadyQueue.Queue.Append` | cpu1.intel/cpu.c:146-154 | appending an unlinked node keeps the queue valid; the contents become the old contents followed by the node's process; the tail becomes the node; on an empty queue the head also becomes the node, otherwise the head is unchanged |
| `ReadyQueue.Queue.Dequeue` | cpu1.intel/cpu.c:157-175 | on an empty queue it returns null and changes nothing; otherwise it returns the first process and the contents become the rest; a one-element queue ends with both pointers absent |
| `ReadyQueue.Queue.Contains` | cpu1.intel/cpu.c:178-191 | the scan returns true iff some queued process has the argument's identifier; it terminates within queue-length steps |
| `RoundRobin.AdmitKeepsIds` | cpu1.intel/cpu.c:202-211 | admission keeps the queue free of duplicate identifiers; afterwards an identifier is queued iff it was queued before or is the admitted one |
| `RoundRobin.AdmitIdempotent` | cpu1.intel/cpu.c:202-211 | admitting the same process a second time changes nothing |
| `RoundRobin.AdmitAllAppends` | cpu1.intel/cpu.c:202-211 | a run of admissions with new, distinct identifiers appends them at the tail in admission order |
| `RoundRobin.AdmitAllKeepsNoDup` | cpu1.intel/cpu.c:202-211 | after any run of admissions the queue holds no duplicate identifiers |
| `RoundRobin.AdmitAllKeepsFirst` | cpu1.intel/cpu.c:202-211 | any run of admissions, repeated identifiers included, keeps the old queue as a prefix and ends holding exactly the old and the admitted identifiers, so a repeated identifier keeps its first place |
| `RoundRobin.DispatchStepKeepsNoDup` | cpu1.intel/cpu.c:215-243 | a dispatch keeps the queue duplicate-free; the new active process is not in the queue; the CPU goes idle iff the queue was empty and the outgoing process was not running |
| `RoundRobin.DispatchStepTracksAll` | cpu1.intel/cpu.c:215-221 | when the outgoing process is still running, the identifiers tracked after a dispatch (queued or active) are exactly those tracked before |
| `RoundRobin.DispatchSwaps` | cpu1.intel/cpu.c:215-243 | with B queued behind a running A, a dispatch leaves A queued and B active |
| `RoundRobin.RunRotates` | cpu1.intel/cpu.c:215-243 | from running process a with queue q, the queue followed by the active process after k dispatches (k at most one cycle) is `q + [a]` rotated left by k |
| `RoundRobin.RoundRobinTurn` | cpu1.intel/cpu.c:215-243 | within one cycle, the k-th dispatch activates the k-th element of `q + [a]`: the queued processes in queue order, then a |
| `RoundRobin.RunPeriodic` | cpu1.intel/cpu.c:215-243 | after as many dispatches as there are processes, the scheduler is back in its starting state, so the rotation repeats for ever |
| `RoundRobin.AdmittedRunInOrder` | cpu1.intel/cpu.c:202-243 | processes admitted in order into an empty queue of an idle CPU are dispatched in admission order |
| `RoundRobin.AdmittedRunRepeats` | cpu1.intel/cpu.c:202-243 | after the first dispatch, the states of such a run repeat with period equal to the number of processes |
| `RoundRobin.TwoProcessesAlternate` | cpu1.intel/cpu.c:202-243 | with A and B admitted in that order, the (k+1)-th dispatch activates A for even k and B for odd k, for every k |
| `Cpu.Scheduler.constructor` | cpu1.intel/cpu.c:71-194 | the initial state of the zero-initialised globals: an empty queue (`filaDePronto`, line 194), no active process (`PTBR`) and the given quantum (`Quantum`, lines 71-79) |
| `Cpu.Scheduler.Init` | cpu1.intel/cpu.c:197-200 | the timer is armed with the quantum and the queue becomes empty; the active process and the quantum are unchanged; the invariant holds |
| `Cpu.Scheduler.InsertReady` | cpu1.intel/cpu.c:202-211 | the new queue contents are `Admit` of the old: unchanged if the identifier is already queued, otherwise the process is appended; the process becomes `Ready` exactly when it is appended; the invariant (no duplicates, all queued ready) is kept |
| `Cpu.Scheduler.Dispatch` | cpu1.intel/cpu.c:215-243 | the new queue and active process are `DispatchStep` of the old state; the active process, if any, is running, stamped with the clock and not queued; the timer is armed exactly when a process was activated; a re-admitted outgoing process becomes `Ready`; other queued processes are untouched; the invariant is kept |
| `Cpu.Scheduler.ActivateNext` | cpu1.intel/cpu.c:221-242 | pops the head; if there is one it becomes active and running, gets the clock as last-dispatch time, and the timer is armed; on an empty queue the active process is cleared and the timer is not armed |
| `Cpu.DispatchRepeatedly` | cpu1.intel/cpu.c:215-243 | k dispatches of the scheduler in a row, at the given clock readings and with no outside change of status, end in the state `Run` gives for k steps, so the rotation, periodicity and alternation lemmas hold of the scheduler object |
| `Cpu.RoundRobinScenario` | cpu1.intel/cpu.c:197-243 | quantum 5, admit P1 then P2, three dispatches: the active identifiers are 1, 2, 1 and the queue heads are 2, 1, 2 (with the statuses asserted at each step) |

## Left out

- Allocation and release of nodes (`malloc`/`free`, cpu1.intel/cpu.c:136-143, 172): node creation always succeeds, and the source's unhandled null node, which would break the head/tail agreement, is not modelled. Release is not modelled either. The single-element branch of `desenfileirar` (cpu1.intel/cpu.c:162-165) resets the queue without freeing the node; the model drops the node from `Repr` in both branches.
- `ReadyQueue.Queue.Append`: requires the node to be unlinked and not already in the queue. The source puts no check there; its only caller passes a freshly created node.
- `prepage` and `start_cost` are calls into code outside this module. `prepage` is a no-op at the place dispatch calls it.
- `set_timer` is recorded as the ghost log `timerArms`: only the quantum passed is kept, not the timer's effect.
- `get_clock` becomes the `clock` parameter of `Dispatch`.
- Page tables (`PAGE_TBL`, `PAGE_ENTRY`, `MAX_PAGE`): `PTBR` is modelled as the active process. This assumes `pcb->page_tbl->pcb == pcb` for every scheduled process.
- The PCB fields the scheduler never reads: size, creation time, CPU burst, accumulated CPU, event, priority, queue links and hooks.
- Machine integer width: identifiers and clock values are unbounded integers. The scheduler does no arithmetic on them, so wrap-around cannot arise.
- The C `BOOL` enumeration is Dafny's `bool`. The global variables become fields of one `Scheduler` object, and `Quantum` is its public field `quantum`.
- Status changes made by the kernel between calls (running to waiting or done) are not modelled as operations. They are observed through the statuses `Dispatch` reads.
- `Cpu.Scheduler.Valid`: takes "every queued process is ready" as an invariant. A kernel that changes the status of a queued process breaks it, and that is outside the model.
- `RoundRobin.Run`: describes successive dispatches with no outside change of status in between. Each active process is therefore still running at the next dispatch.
- `Cpu.Scheduler.Dispatch`: states "exactly one running" only for the processes the scheduler tracks. The active process is running, and every queued one is ready. No claim is made about processes outside the queue.
- The do-while loop of `estaNaFila` is written as a while loop whose first test always holds on a non-empty queue.
