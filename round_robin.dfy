/** The scheduling policy on values: admission to the ready queue and one
    dispatch step, stated as functions of the queue's contents and the active
    process, and the round-robin properties proved about them. The methods of
    `Cpu.Scheduler` are specified by these functions. */
module RoundRobin {
  import opened Process

  // ---------------------------------------------------------------- admission

  /** The queue after admitting `p`: unchanged when a process with the same
      identifier is already queued, otherwise `p` joins at the tail. */
  ghost function Admit(q: seq<PCB>, p: PCB): seq<PCB> {
    if HasId(q, p.id) then q else q + [p]
  }

  /** After admission the queue holds exactly the old identifiers and that of
      `p`, still without duplicates. */
  lemma AdmitKeepsIds(q: seq<PCB>, p: PCB, id: int)
    requires NoDupIds(q)
    ensures NoDupIds(Admit(q, p))
    ensures HasId(Admit(q, p), id) <==> HasId(q, id) || id == p.id
  {
    if !HasId(q, p.id) {
      var r := q + [p];
      if HasId(r, id) {
        var i :| 0 <= i < |r| && r[i].id == id;
        assert i < |q| ==> q[i].id == id;
      }
      if HasId(q, id) {
        var i :| 0 <= i < |q| && q[i].id == id;
        assert r[i].id == id;
      }
      assert r[|q|].id == p.id;
    } else if id == p.id {
      assert HasId(q, id);
    }
  }

  /** Admitting the same process twice is the same as admitting it once. */
  lemma AdmitIdempotent(q: seq<PCB>, p: PCB)
    ensures Admit(Admit(q, p), p) == Admit(q, p)
  {
    if !HasId(q, p.id) {
      assert (q + [p])[|q|] == p;
    }
  }

  /** A run of admissions, in order, with no dispatch in between. */
  ghost function AdmitAll(q: seq<PCB>, ps: seq<PCB>): seq<PCB>
    decreases |ps|
  {
    if ps == [] then q else AdmitAll(Admit(q, ps[0]), ps[1..])
  }

  /** Admitting processes whose identifiers are new and pairwise distinct
      appends them at the tail in admission order. */
  lemma {:induction false} AdmitAllAppends(q: seq<PCB>, ps: seq<PCB>)
    requires NoDupIds(q + ps)
    ensures AdmitAll(q, ps) == q + ps
    decreases |ps|
  {
    if ps != [] {
      var r := q + ps;
      assert !HasId(q, ps[0].id) by {
        forall i | 0 <= i < |q| ensures q[i].id != ps[0].id {
          assert r[i] == q[i] && r[|q|] == ps[0];
        }
      }
      assert q + [ps[0]] + ps[1..] == r;
      AdmitAllAppends(q + [ps[0]], ps[1..]);
    }
  }

  /** Whatever is admitted, the queue never holds two processes with the same
      identifier. */
  lemma {:induction false} AdmitAllKeepsNoDup(q: seq<PCB>, ps: seq<PCB>)
    requires NoDupIds(q)
    ensures NoDupIds(AdmitAll(q, ps))
    decreases |ps|
  {
    if ps != [] {
      AdmitKeepsIds(q, ps[0], ps[0].id);
      AdmitAllKeepsNoDup(Admit(q, ps[0]), ps[1..]);
    }
  }

  /** Any run of admissions, repeated identifiers included, keeps the old
      queue as a prefix and ends holding exactly the old identifiers and those
      admitted: a repeated identifier keeps its first place in the queue. */
  lemma {:induction false} AdmitAllKeepsFirst(q: seq<PCB>, ps: seq<PCB>, id: int)
    requires NoDupIds(q)
    ensures var r := AdmitAll(q, ps);
      |q| <= |r| && r[..|q|] == q &&
      (HasId(r, id) <==> HasId(q, id) || HasId(ps, id))
    decreases |ps|
  {
    if ps != [] {
      var q1 := Admit(q, ps[0]);
      AdmitKeepsIds(q, ps[0], id);
      AdmitAllKeepsFirst(q1, ps[1..], id);
      var r := AdmitAll(q, ps);
      assert r[..|q|] == r[..|q1|][..|q|];
      assert q1[..|q|] == q;
      if HasId(ps, id) {
        var i :| 0 <= i < |ps| && ps[i].id == id;
        if i > 0 {
          assert ps[1..][i - 1].id == id;
        }
      }
      if HasId(ps[1..], id) {
        var i :| 0 <= i < |ps[1..]| && ps[1..][i].id == id;
        assert ps[i + 1].id == id;
      }
      assert ps[0].id == id ==> HasId(ps, id);
    }
  }

  // ----------------------------------------------------------------- dispatch

  /** The ready queue and the active process after a dispatch. */
  datatype Step = Step(queue: seq<PCB>, active: PCB?)

  /** One dispatch: the active process is re-admitted when it is still
      running, then the head of the queue (if any) becomes active; on an empty
      queue the CPU goes idle. */
  ghost function DispatchStep(q: seq<PCB>, a: PCB?, running: bool): Step {
    var q1 := if a != null && running then Admit(q, a) else q;
    if q1 == [] then Step([], null) else Step(q1[1..], q1[0])
  }

  /** A dispatch keeps the queue free of duplicates, never leaves the new
      active process in the queue, and idles the CPU exactly when there was
      nothing to run. */
  lemma DispatchStepKeepsNoDup(q: seq<PCB>, a: PCB?, running: bool)
    requires NoDupIds(q)
    ensures var s := DispatchStep(q, a, running);
      NoDupIds(s.queue) &&
      (s.active != null ==> !HasId(s.queue, s.active.id)) &&
      (s.active == null <==> q == [] && !(a != null && running))
  {
  }

  /** No process is lost by a dispatch: when the outgoing process is still
      running, the processes tracked afterwards (queued or active) are exactly
      those tracked before. */
  lemma DispatchStepTracksAll(q: seq<PCB>, a: PCB, id: int)
    requires NoDupIds(q)
    ensures var s := DispatchStep(q, a, true);
      HasId(s.queue, id) || (s.active != null && s.active.id == id)
      <==> HasId(q, id) || a.id == id
  {
    var q1 := Admit(q, a);
    AdmitKeepsIds(q, a, id);
    var s := DispatchStep(q, a, true);
    assert q1 != [];
    assert q1 == [q1[0]] + s.queue;
    if HasId(q1, id) {
      var i :| 0 <= i < |q1| && q1[i].id == id;
      if i > 0 {
        assert s.queue[i - 1].id == id;
      }
    }
    if HasId(s.queue, id) {
      var i :| 0 <= i < |s.queue| && s.queue[i].id == id;
      assert q1[i + 1].id == id;
    }
    if s.active.id == id {
      assert q1[0].id == id;
    }
  }

  /** With one process queued behind a running one, a dispatch swaps them. */
  lemma DispatchSwaps(a: PCB, b: PCB)
    requires a.id != b.id
    ensures DispatchStep([b], a, true) == Step([a], b)
  {
  }

  /** `k` successive dispatches with no outside change of status: after each
      dispatch the active process is running. */
  ghost function Run(q: seq<PCB>, a: PCB?, k: nat): Step
    decreases k
  {
    if k == 0 then Step(q, a)
    else
      var s := Run(q, a, k - 1);
      DispatchStep(s.queue, s.active, s.active != null)
  }

  /** `r` rotated left by `k` places, for `k` up to `|r|`. */
  function Rotate<T>(r: seq<T>, k: nat): (t: seq<T>)
    requires k <= |r|
    ensures |t| == |r|
  {
    r[k..] + r[..k]
  }

  lemma RotateStep<T>(r: seq<T>, k: nat)
    requires k < |r|
    ensures var t := Rotate(r, k); Rotate(r, k + 1) == t[1..] + [t[0]]
  {
  }

  lemma RotateOnceKeepsNoDup(r: seq<PCB>)
    requires r != [] && NoDupIds(r)
    ensures NoDupIds(r[1..] + [r[0]])
  {
  }

  /** Round robin: from a running process `a` and queue `q`, the state after
      k dispatches (k at most one full cycle) is the cycle `q + [a]` rotated
      by k, with the active process at its end. */
  lemma {:induction false} RunRotates(q: seq<PCB>, a: PCB, k: nat)
    requires NoDupIds(q + [a]) && k <= |q| + 1
    ensures var s := Run(q, a, k);
      s.active != null && s.queue + [s.active] == Rotate(q + [a], k) &&
      NoDupIds(s.queue + [s.active])
    decreases k
  {
    var r := q + [a];
    if k == 0 {
      assert Rotate(r, 0) == r;
    } else {
      RunRotates(q, a, k - 1);
      var s := Run(q, a, k - 1);
      var t := s.queue + [s.active];
      assert !HasId(s.queue, s.active.id) by {
        forall i | 0 <= i < |s.queue| ensures s.queue[i].id != s.active.id {
          assert t[i] == s.queue[i] && t[|s.queue|] == s.active;
        }
      }
      assert Admit(s.queue, s.active) == t;
      RotateStep(r, k - 1);
      RotateOnceKeepsNoDup(t);
    }
  }

  /** Within one cycle, the k-th dispatch activates the k-th element of the
      cycle `q + [a]`: first the queued processes in queue order, then `a`. */
  lemma RoundRobinTurn(q: seq<PCB>, a: PCB, k: nat)
    requires NoDupIds(q + [a]) && 1 <= k <= |q| + 1
    ensures Run(q, a, k).active == (q + [a])[k - 1]
  {
    RunRotates(q, a, k);
    var s, r := Run(q, a, k), q + [a];
    assert s.active == (s.queue + [s.active])[|q|];
    assert Rotate(r, k)[|q|] == r[..k][k - 1];
  }

  /** Running `i` and then `j` dispatches is running `i + j`. */
  lemma {:induction false} RunSplit(q: seq<PCB>, a: PCB?, i: nat, j: nat)
    ensures var s := Run(q, a, i); Run(q, a, i + j) == Run(s.queue, s.active, j)
    decreases j
  {
    if j > 0 {
      RunSplit(q, a, i, j - 1);
    }
  }

  /** After one full cycle of dispatches the scheduler is back where it
      started, so the rotation repeats for ever. */
  lemma RunPeriodic(q: seq<PCB>, a: PCB, j: nat)
    requires NoDupIds(q + [a])
    ensures Run(q, a, j + |q| + 1) == Run(q, a, j)
  {
    var n := |q| + 1;
    RunRotates(q, a, n);
    var s := Run(q, a, n);
    assert s.queue + [s.active] == q + [a];
    assert s.queue == (s.queue + [s.active])[..|q|] == q;
    assert s.active == (s.queue + [s.active])[|q|] == a;
    RunSplit(q, a, n, j);
    assert j + n == n + j;
  }

  /** Splitting off the first dispatch of a run. */
  lemma {:induction false} RunFirstStep(q: seq<PCB>, a: PCB?, k: nat)
    ensures var s := DispatchStep(q, a, a != null);
      Run(q, a, k + 1) == Run(s.queue, s.active, k)
    decreases k
  {
    if k > 0 {
      RunFirstStep(q, a, k - 1);
    }
  }

  /** FIFO fairness: processes admitted in order `ps` into an empty queue of
      an idle CPU are run in admission order, the (k+1)-th dispatch
      activating `ps[k]`. */
  lemma AdmittedRunInOrder(ps: seq<PCB>, k: nat)
    requires NoDupIds(ps) && k < |ps|
    ensures Run(AdmitAll([], ps), null, k + 1).active == ps[k]
  {
    AdmittedStart(ps);
    RunFirstStep(ps, null, k);
    var q, a := ps[1..], ps[0];
    if k == 0 {
      assert Run(q, a, 0).active == a;
    } else {
      RoundRobinTurn(q, a, k);
      assert (q + [a])[k - 1] == ps[k];
    }
  }

  /** ...and then again in the same order, cycle after cycle. */
  lemma AdmittedRunRepeats(ps: seq<PCB>, k: nat)
    requires NoDupIds(ps) && ps != []
    ensures Run(AdmitAll([], ps), null, k + 1 + |ps|) == Run(AdmitAll([], ps), null, k + 1)
  {
    AdmittedStart(ps);
    RunFirstStep(ps, null, k + |ps|);
    RunFirstStep(ps, null, k);
    RunPeriodic(ps[1..], ps[0], k);
  }

  lemma AdmittedStart(ps: seq<PCB>)
    requires NoDupIds(ps)
    ensures AdmitAll([], ps) == ps
    ensures ps != [] ==>
      NoDupIds(ps[1..] + [ps[0]]) && DispatchStep(ps, null, false) == Step(ps[1..], ps[0])
  {
    assert [] + ps == ps;
    AdmitAllAppends([], ps);
    if ps != [] {
      RotateOnceKeepsNoDup(ps);
    }
  }

  /** With two processes A and B admitted in that order, dispatches
      alternate strictly: A, B, A, B, ... */
  lemma {:induction false} TwoProcessesAlternate(a: PCB, b: PCB, k: nat)
    requires a.id != b.id
    ensures Run(AdmitAll([], [a, b]), null, k + 1).active == if k % 2 == 0 then a else b
    decreases k
  {
    var ps := [a, b];
    if k < 2 {
      AdmittedRunInOrder(ps, k);
    } else {
      AdmittedRunRepeats(ps, k - 2);
      TwoProcessesAlternate(a, b, k - 2);
    }
  }
}
