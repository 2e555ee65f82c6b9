/** The durable run record, its conditional writes, and what every write must keep. */
module AutopilotStore {
  import opened Options
  import opened AutopilotPlan

  const MAX_TOTAL_CYCLES: nat := 50
  const MAX_ADAPTIVE_CHECKPOINTS: nat := 6

  datatype RunStatus =
    | Ready | PlanningRun | RunningRun | PausedRun | BlockedRun | InterruptedRun
    | CompletedRun | FailedRun | CancelledRun

  datatype Run = Run(
    plan: Plan, criteria: seq<string>, maxTasks: nat, maxReplans: nat, maxFailures: nat, adaptive: bool,
    observe: bool, cycles: nat, replans: nat, failures: nat, checkpoints: nat, status: RunStatus)

  predicate Terminal(s: RunStatus) {
    s.CompletedRun? || s.FailedRun? || s.CancelledRun?
  }

  // ----- what holds of every stored run --------------------------------------

  ghost predicate RunOk(r: Run) {
    && 3 <= r.maxTasks <= 24 && r.maxReplans <= 6
    && r.cycles <= MAX_TOTAL_CYCLES && r.replans <= r.maxReplans && r.checkpoints <= MAX_ADAPTIVE_CHECKPOINTS
    && (r.plan == [] || (WellFormed(r.plan, r.maxTasks) && r.criteria != []))
    && (forall c <- r.criteria :: c != "")
    && PassedFit(r.plan)
    && (forall t <- r.plan :: t.infraRetries <= MAX_INFRA_RETRIES)
    && (r.status.CompletedRun? ==> CompletionGate(r.plan, r.criteria))
  }

  /** Statuses nothing ever takes a task out of. */
  predicate Fixed(t: Task) {
    || t.status.Superseded? || t.status.Uncertain? || t.status.Cancelled? || t.status.PassedUnverified?
    || (t.status.Passed? && !t.kind.Validate?)
  }

  ghost predicate TaskGrows(t: Task, u: Task) {
    && u.id == t.id && u.kind == t.kind && u.title == t.title
    && t.infraRetries <= u.infraRetries
    && (Fixed(t) ==> u.status == t.status)
  }

  ghost predicate PlanGrows(p: Plan, q: Plan) {
    |p| <= |q| && forall i | 0 <= i < |p| :: TaskGrows(p[i], q[i])
  }

  ghost predicate RunGrows(r: Run, s: Run) {
    && s.maxTasks == r.maxTasks && s.maxReplans == r.maxReplans
    && r.cycles <= s.cycles && r.replans <= s.replans
    && PlanGrows(r.plan, s.plan)
  }

  lemma RunGrowsFurther(a: Run, b: Run, c: Run)
    requires RunGrows(a, b) && RunGrows(b, c)
    ensures RunGrows(a, c)
  {
    forall i | 0 <= i < |a.plan| ensures TaskGrows(a.plan[i], c.plan[i]) {
      assert TaskGrows(a.plan[i], b.plan[i]) && TaskGrows(b.plan[i], c.plan[i]);
    }
  }

  // ----- the history of hand-overs ---------------------------------------------

  /** A plan task was given to the workbench, or the outcome of one was recorded. */
  datatype Mark = Handed(task: nat) | Settled(task: nat)

  ghost function Open(trace: seq<Mark>): set<nat> {
    if trace == [] then {}
    else
      var before := Open(trace[..|trace| - 1]);
      match trace[|trace| - 1]
      case Handed(i) => before + {i}
      case Settled(i) => before - {i}
  }

  /** No task is handed over twice without a recorded outcome in between. */
  ghost predicate NoReplay(trace: seq<Mark>) {
    forall a, b | 0 <= a < b < |trace| && trace[a].Handed? && trace[b] == trace[a] ::
      Settled(trace[a].task) in trace[a..b]
  }

  lemma {:induction false} StillOpen(trace: seq<Mark>, a: nat)
    requires a < |trace| && trace[a].Handed? && Settled(trace[a].task) !in trace[a..]
    ensures trace[a].task in Open(trace)
  {
    var n := |trace| - 1;
    if a < n {
      var before := trace[..n];
      assert trace[a..] == before[a..] + [trace[n]];
      StillOpen(before, a);
      assert trace[n] != Settled(trace[a].task);
    }
  }

  lemma HandOnce(trace: seq<Mark>, i: nat)
    requires NoReplay(trace) && i !in Open(trace)
    ensures NoReplay(trace + [Handed(i)]) && Open(trace + [Handed(i)]) == Open(trace) + {i}
  {
    var more := trace + [Handed(i)];
    assert more[..|more| - 1] == trace;
    forall a, b | 0 <= a < b < |more| && more[a].Handed? && more[b] == more[a]
      ensures Settled(more[a].task) in more[a..b]
    {
      if b < |trace| {
        assert trace[a] == more[a] && trace[b] == more[b];
        assert more[a..b] == trace[a..b];
      } else {
        assert more[a..b] == trace[a..];
        if Settled(i) !in trace[a..] {
          StillOpen(trace, a);
          assert false;
        }
      }
    }
  }

  lemma SettleOnce(trace: seq<Mark>, i: nat)
    requires NoReplay(trace)
    ensures NoReplay(trace + [Settled(i)]) && Open(trace + [Settled(i)]) == Open(trace) - {i}
  {
    var more := trace + [Settled(i)];
    assert more[..|more| - 1] == trace;
    forall a, b | 0 <= a < b < |more| && more[a].Handed? && more[b] == more[a]
      ensures Settled(more[a].task) in more[a..b]
    {
      assert b < |trace| && trace[a] == more[a] && trace[b] == more[b];
      assert more[a..b] == trace[a..b];
    }
  }

  predicate InDoubt(s: Status) {
    s.Running? || s.Uncertain? || s.Cancelled?
  }

  /** A task without a recorded outcome is visibly so. */
  ghost predicate OpenOk(plan: Plan, trace: seq<Mark>) {
    forall i <- Open(trace) :: i < |plan| && InDoubt(plan[i].status)
  }

  // ----- views -------------------------------------------------------------------

  datatype View = View(run: Run, lost: bool, cancel: bool, now: int, trace: seq<Mark>)

  ghost predicate Inv(v: View) {
    RunOk(v.run) && OpenOk(v.run.plan, v.trace) && NoReplay(v.trace)
  }

  /** Only tasks whose fate was still open at `a` are handed over by `b`. */
  ghost predicate HandsOnlyOpen(a: View, b: View)
    requires |a.trace| <= |b.trace|
  {
    forall n | |a.trace| <= n < |b.trace| && b.trace[n].Handed? && b.trace[n].task < |a.run.plan| ::
      !Fixed(a.run.plan[b.trace[n].task])
  }

  /** What may happen between two moments of one or more invocations. */
  ghost predicate Later(a: View, b: View) {
    && RunGrows(a.run, b.run) && a.now <= b.now && (a.cancel ==> b.cancel)
    && |a.trace| <= |b.trace| && b.trace[..|a.trace|] == a.trace
    && HandsOnlyOpen(a, b)
  }

  lemma LaterStill(a: View, b: View, c: View)
    requires Later(a, b) && Later(b, c)
    ensures Later(a, c)
  {
    RunGrowsFurther(a.run, b.run, c.run);
    assert c.trace[..|a.trace|] == c.trace[..|b.trace|][..|a.trace|];
    forall n | |a.trace| <= n < |c.trace| && c.trace[n].Handed? && c.trace[n].task < |a.run.plan|
      ensures !Fixed(a.run.plan[c.trace[n].task])
    {
      var i := c.trace[n].task;
      assert TaskGrows(a.run.plan[i], b.run.plan[i]);
      if n < |b.trace| {
        assert c.trace[n] == b.trace[n];
      }
    }
  }

  // ----- the environment ---------------------------------------------------------

  datatype WorkOutcome = Raises | Unavailable | Returned(result: WorkResult)

  datatype Decision = Complete | Continue | Retry | ReplanPlease | PausePlease

  datatype Review = Review(decision: Decision, instruction: string, tasks: seq<Raw>, stale: set<nat>)

  /** Everything outside the host's logic, by the number of the operation it answers:
      lost leases (a dead controller counts as one), operator requests, time, models
      and the workbench. A callback that raises answers `None`; `tracked` says whether
      the workspace is one whose state is recorded beside the run. */
  datatype Env = Env(
    loses: nat -> bool, cancels: nat -> bool, pauses: nat -> bool, delay: nat -> nat,
    proposal: nat -> Option<Proposal>, work: nat -> WorkOutcome, review: nat -> Option<Review>,
    realityPending: nat -> bool, tracked: bool)

  datatype Flags = Flags(lost: bool, pause: bool, cancel: bool)

  function ClosedTask(t: Task): Task {
    if t.status.Pending? || t.status.Running? then t.(status := Cancelled) else t
  }

  function ClosedPlan(plan: Plan): (r: Plan)
    ensures |r| == |plan| && forall i | 0 <= i < |plan| :: r[i] == ClosedTask(plan[i])
  {
    seq(|plan|, i requires 0 <= i < |plan| => ClosedTask(plan[i]))
  }

  /** A plan keeps its validation as long as nothing is superseded. */
  lemma StillValidates(p: Plan, q: Plan)
    requires |p| == |q| && HasValidation(p)
    requires forall i | 0 <= i < |p| :: q[i].kind == p[i].kind && (q[i].status.Superseded? ==> p[i].status.Superseded?)
    ensures HasValidation(q)
  {
    var i :| 0 <= i < |p| && p[i].kind.Validate? && !p[i].status.Superseded?;
    assert q[i].kind.Validate? && !q[i].status.Superseded?;
  }

  lemma ClosedKeeps(r: Run, trace: seq<Mark>)
    requires RunOk(r) && OpenOk(r.plan, trace)
    ensures var c := r.(plan := ClosedPlan(r.plan), status := CancelledRun);
            RunOk(c) && RunGrows(r, c) && OpenOk(c.plan, trace)
  {
    var c := ClosedPlan(r.plan);
    if r.plan != [] {
      StillValidates(r.plan, c);
    }
    forall t <- c ensures t.infraRetries <= MAX_INFRA_RETRIES
                          && (t.status.Passed? ==> t.receipt.Some? && Fit(t.kind, t.receipt.value))
    {
      var i :| 0 <= i < |c| && c[i] == t;
      assert r.plan[i] in r.plan;
    }
  }

  // ----- the store ------------------------------------------------------------------

  class RunStore {
    var run: Run
    var lost: bool
    var cancel: bool
    var pause: bool
    var now: int
    var ops: nat
    ghost var trace: seq<Mark>

    ghost function Now(): View
      reads this
    {
      View(run, lost, cancel, now, trace)
    }

    ghost predicate Closed()
      reads this
    {
      lost || cancel
    }

    constructor (maxFailures: int, maxTasks: int, maxReplans: int, adaptive: bool, observe: bool)
      ensures Inv(Now()) && run.plan == [] && run.status.Ready? && trace == [] && !cancel
    {
      run := Run([], [], ClampTasks(maxTasks), if maxReplans < 0 then 0 else if maxReplans > 6 then 6 else maxReplans,
                 if maxFailures < 1 then 1 else if maxFailures > 10 then 10 else maxFailures,
                 adaptive, observe, 0, 0, 0, 0, Ready);
      lost, cancel, pause, now, ops := false, false, false, 0, 0;
      trace := [];
    }

    /** The world moves on before each operation. */
    method Tick(e: Env)
      modifies this
      ensures ops == old(ops) + 1 && (old(pause) ==> pause)
      ensures run == old(run) && trace == old(trace) && now >= old(now)
      ensures (old(lost) ==> lost) && (old(cancel) ==> cancel)
    {
      now := now + e.delay(ops);
      lost := lost || e.loses(ops);
      cancel := cancel || e.cancels(ops);
      pause := pause || e.pauses(ops);
      ops := ops + 1;
    }

    /** `control_flags`. */
    method ControlFlags(e: Env) returns (f: Flags)
      modifies this
      ensures ops == old(ops) + 1 && (old(pause) ==> pause) && (!lost ==> f.pause == pause)
      ensures run == old(run) && trace == old(trace) && now >= old(now)
      ensures (old(lost) ==> lost) && (old(cancel) ==> cancel)
      ensures f.lost == lost && (lost ==> f.cancel) && (!lost ==> f.cancel == cancel)
    {
      Tick(e);
      f := if lost then Flags(true, false, true) else Flags(false, pause, cancel);
    }

    /** Records what the workspace looks like; raises (answers false) when refused. */
    method Observe(e: Env) returns (ok: bool)
      modifies this
      ensures ops >= old(ops) && (old(pause) ==> pause)
      ensures run == old(run) && trace == old(trace) && now >= old(now)
      ensures (old(lost) ==> lost) && (old(cancel) ==> cancel)
    {
      ok := true;
      if e.tracked {
        Tick(e);
        ok := !(lost || cancel);
      }
    }

    /** `save_progress`: refused exactly when the lease is lost or a cancel is set. */
    method Save(e: Env, next: Run) returns (ok: bool)
      requires Inv(Now()) && RunOk(next) && RunGrows(run, next) && OpenOk(next.plan, trace)
      modifies this
      ensures ops == old(ops) + 1 && (old(pause) ==> pause)
      ensures Inv(Now()) && Later(old(Now()), Now()) && trace == old(trace)
      ensures (old(lost) ==> lost) && (old(cancel) ==> cancel)
      ensures ok == !Closed() && run == if ok then next else old(run)
    {
      Tick(e);
      ok := !(lost || cancel);
      if ok {
        run := next;
      }
    }

    /** A save that records the outcome of a handed-over task. */
    method SaveOutcome(e: Env, next: Run, i: nat) returns (ok: bool)
      requires Inv(Now()) && RunOk(next) && RunGrows(run, next)
      requires OpenOk(next.plan, trace + [Settled(i)])
      modifies this
      ensures ops == old(ops) + 1 && (old(pause) ==> pause)
      ensures Inv(Now()) && Later(old(Now()), Now())
      ensures (old(lost) ==> lost) && (old(cancel) ==> cancel)
      ensures ok == !Closed() && run == if ok then next else old(run)
      ensures trace == if ok then old(trace) + [Settled(i)] else old(trace)
    {
      Tick(e);
      ok := !(lost || cancel);
      if ok {
        run := next;
        SettleOnce(trace, i);
        trace := trace + [Settled(i)];
      }
    }

    /** `finish_run`: releases the run; completion is refused without durable evidence. */
    method Finish(e: Env, status: RunStatus) returns (ok: bool)
      requires Inv(Now())
      modifies this
      ensures ops == old(ops) + 1 && (old(pause) ==> pause)
      ensures Inv(Now()) && Later(old(Now()), Now()) && trace == old(trace)
      ensures (old(lost) ==> lost) && (old(cancel) ==> cancel)
      ensures ok ==> !lost && run == old(run).(plan := run.plan, status := status)
      ensures ok ==> run.plan == if status.CancelledRun? then ClosedPlan(old(run.plan)) else old(run.plan)
      ensures !ok ==> run == old(run)
      ensures !ok ==> lost || (status.CompletedRun? && (e.realityPending(old(ops))
                                                        || !EvidenceOk(run.plan, run.criteria)))
    {
      var pending := e.realityPending(ops);
      Tick(e);
      if lost {
        return false;
      }
      if status.CompletedRun? {
        GatesAgree(run.plan, run.criteria);
        if pending || !EvidenceOk(run.plan, run.criteria) {
          return false;
        }
      }
      if status.CancelledRun? {
        ClosedKeeps(run, trace);
        run := run.(plan := ClosedPlan(run.plan), status := status);
      } else {
        run := run.(status := status);
      }
      return true;
    }

    /** Hands one started task to the workbench. Its precondition is the promise that
        nothing is ever replayed. */
    method HandOver(e: Env, i: nat) returns (w: WorkOutcome)
      requires Inv(Now()) && i < |run.plan| && run.plan[i].status.Running? && i !in Open(trace)
      modifies this
      ensures Inv(Now()) && Later(old(Now()), Now())
      ensures (old(lost) ==> lost) && (old(cancel) ==> cancel)
      ensures run == old(run) && trace == old(trace) + [Handed(i)] && Open(trace) == old(Open(trace)) + {i}
      ensures w == e.work(old(ops)) && ops == old(ops) + 1
    {
      w := e.work(ops);
      HandOnce(trace, i);
      trace := trace + [Handed(i)];
      Tick(e);
    }

    /** `claim_run`, once a stale owner, if any, has been found dead (`free`). */
    method Claim(free: bool) returns (ok: bool)
      requires Inv(Now())
      modifies this
      ensures Inv(Now()) && Later(old(Now()), Now()) && trace == old(trace)
      ensures ok == !(Terminal(old(run.status)) || old(cancel)
                      || ((old(run.status).PlanningRun? || old(run.status).RunningRun?) && !free))
      ensures if ok then !lost && !cancel && run.plan == old(run.plan) && !Terminal(run.status)
              else old(Now()) == Now()
    {
      if Terminal(run.status) || cancel || ((run.status.PlanningRun? || run.status.RunningRun?) && !free) {
        return false;
      }
      run := run.(status := if run.plan == [] then PlanningRun else RunningRun);
      lost, pause := false, false;
      return true;
    }

    /** `request_cancel` of a run nobody is working on. */
    method CancelIdle()
      requires Inv(Now()) && !run.status.PlanningRun? && !run.status.RunningRun?
      modifies this
      ensures Inv(Now()) && Later(old(Now()), Now()) && trace == old(trace)
      ensures if Terminal(old(run.status)) then old(Now()) == Now() else run.status.CancelledRun? && cancel
    {
      if !Terminal(run.status) {
        ClosedKeeps(run, trace);
        run, cancel := run.(plan := ClosedPlan(run.plan), status := CancelledRun), true;
      }
    }
  }
}
