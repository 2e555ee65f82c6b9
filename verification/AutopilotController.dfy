/** The controller loop: budgets, resume, replanning and completion, for every answer
    the callbacks may give and every moment a lease may be lost. */
module AutopilotController {
  import opened Options
  import opened AutopilotPlan
  import opened AutopilotStore

  /** How an invocation goes on: another round of the loop, an answer to the caller, or
      an exception for the outer handler. */
  datatype Next = Again | Answer | Throw

  // ----- writes that keep the invariant ---------------------------------------

  /** One task of a run replaced. */
  function WithTask(r: Run, i: nat, t: Task): Run
    requires i < |r.plan|
  {
    r.(plan := r.plan[i := t])
  }

  lemma TaskUpdateKeeps(r: Run, i: nat, t: Task)
    requires RunOk(r) && !r.status.CompletedRun? && i < |r.plan| && TaskGrows(r.plan[i], t)
    requires !t.status.Superseded? || r.plan[i].status.Superseded?
    requires t.infraRetries <= MAX_INFRA_RETRIES
    requires t.status.Passed? ==> t.receipt.Some? && Fit(t.kind, t.receipt.value)
    ensures RunOk(WithTask(r, i, t)) && RunGrows(r, WithTask(r, i, t))
  {
    var plan := r.plan[i := t];
    var v :| 0 <= v < |r.plan| && r.plan[v].kind.Validate? && !r.plan[v].status.Superseded?;
    assert plan[v].kind.Validate? && !plan[v].status.Superseded?;
    forall u <- plan ensures u == t || u in r.plan {
    }
    forall j | 0 <= j < |r.plan| ensures TaskGrows(r.plan[j], plan[j]) {
    }
  }

  lemma TasksStayFit(p: Plan, q: Plan)
    requires |p| == |q| && PassedFit(p) && (forall t <- p :: t.infraRetries <= MAX_INFRA_RETRIES)
    requires forall i | 0 <= i < |q| ::
               q[i].kind == p[i].kind && q[i].infraRetries == p[i].infraRetries
               && (q[i].status.Passed? ==> p[i].status.Passed? && q[i].receipt == p[i].receipt)
    ensures PassedFit(q) && (forall t <- q :: t.infraRetries <= MAX_INFRA_RETRIES)
  {
    forall j | 0 <= j < |q| ensures
        && q[j].infraRetries <= MAX_INFRA_RETRIES
        && (q[j].status.Passed? ==> q[j].receipt.Some? && Fit(q[j].kind, q[j].receipt.value))
    {
      assert p[j] in p;
    }
  }

  /** The same plan task by task, each changed without losing anything. */
  lemma PlanUpdateKeeps(r: Run, plan: Plan)
    requires RunOk(r) && !r.status.CompletedRun? && |plan| == |r.plan|
    requires forall i | 0 <= i < |plan| ::
               TaskGrows(r.plan[i], plan[i]) && plan[i].infraRetries == r.plan[i].infraRetries
               && (plan[i].status.Superseded? ==> r.plan[i].status.Superseded?)
               && (plan[i].status.Passed? ==> r.plan[i].status.Passed? && plan[i].receipt == r.plan[i].receipt)
    ensures RunOk(r.(plan := plan)) && RunGrows(r, r.(plan := plan))
  {
    if r.plan != [] {
      StillValidates(r.plan, plan);
    }
    TasksStayFit(r.plan, plan);
  }

  lemma ReplannedTasks(plan: Plan, after: Plan, c: Change)
    requires PassedFit(plan) && (forall t <- plan :: t.infraRetries <= MAX_INFRA_RETRIES) && |plan| <= |after|
    requires c.failed.Some? ==> c.failed.value < |plan| && plan[c.failed.value].status.Failed?
    requires forall i | 0 <= i < |plan| ::
               after[i] == RetiredTask(plan[i], c.failed == Some(i), c.supersede, c.stale)
    requires forall i | |plan| <= i < |after| :: FreshTask(after[i])
    ensures PassedFit(after) && (forall t <- after :: t.infraRetries <= MAX_INFRA_RETRIES)
    ensures PlanGrows(plan, after)
  {
    forall j | 0 <= j < |after| ensures
        && after[j].infraRetries <= MAX_INFRA_RETRIES
        && (after[j].status.Passed? ==> after[j].receipt.Some? && Fit(after[j].kind, after[j].receipt.value))
    {
      if j < |plan| {
        assert plan[j] in plan;
      }
    }
  }

  lemma ReplannedOpen(plan: Plan, after: Plan, c: Change, trace: seq<Mark>)
    requires OpenOk(plan, trace) && |plan| <= |after|
    requires c.failed.Some? ==> c.failed.value < |plan| && plan[c.failed.value].status.Failed?
    requires forall i | 0 <= i < |plan| ::
               after[i] == RetiredTask(plan[i], c.failed == Some(i), c.supersede, c.stale)
    ensures OpenOk(after, trace)
  {
  }

  /** An accepted replan within budget may be saved. */
  lemma ReplanKeeps(r: Run, c: Change, trace: seq<Mark>)
    requires RunOk(r) && !r.status.CompletedRun? && r.criteria != [] && r.replans < r.maxReplans
    requires OpenOk(r.plan, trace)
    requires c.failed.Some? ==> c.failed.value < |r.plan| && r.plan[c.failed.value].status.Failed?
    requires Replan(r.plan, r.maxTasks, r.observe, c).Ok?
    ensures var next := r.(plan := Replan(r.plan, r.maxTasks, r.observe, c).value, replans := r.replans + 1);
            RunOk(next) && RunGrows(r, next) && OpenOk(next.plan, trace)
  {
    ReplanIsWellFormed(r.plan, r.maxTasks, r.observe, c);
    var plan := Replan(r.plan, r.maxTasks, r.observe, c).value;
    ReplannedTasks(r.plan, plan, c);
    ReplannedOpen(r.plan, plan, c, trace);
  }

  // ----- reviews -------------------------------------------------------------------

  /** Asks a reviewer, then checks the operator's flags as every review does. */
  method AskReviewer(s: RunStore, e: Env) returns (next: Next, review: Review, pause: bool)
    requires Inv(s.Now())
    modifies s
    ensures Inv(s.Now()) && Later(old(s.Now()), s.Now()) && s.trace == old(s.trace)
    ensures next.Again? ==> !s.Closed() && !old(s.Closed()) && s.run == old(s.run)
    ensures next.Again? ==> e.review(old(s.ops)) == Some(review) && pause == s.pause
    ensures !next.Again? ==> e.review(old(s.ops)).None? || s.Closed()
    ensures s.ops > old(s.ops)
    ensures s.run.cycles == old(s.run.cycles) && (s.run.status.CompletedRun? ==> old(s.run.status.CompletedRun?))
  {
    pause, review := false, Review(Continue, "", [], {});
    var answer := e.review(s.ops);
    s.Tick(e);
    if answer.None? {
      return Throw, review, false;
    }
    review := answer.value;
    var flags := s.ControlFlags(e);
    if flags.lost {
      return Throw, review, false;
    }
    if flags.cancel {
      var _ := s.Finish(e, CancelledRun);
      return Answer, review, false;
    }
    return Again, review, flags.pause;
  }

  method Release(s: RunStore, e: Env, status: RunStatus) returns (next: Next)
    requires Inv(s.Now()) && !status.CompletedRun?
    modifies s
    ensures Inv(s.Now()) && Later(old(s.Now()), s.Now()) && s.trace == old(s.trace) && next.Answer?
    ensures s.lost || s.run.status == status
    ensures (old(s.pause) ==> s.pause) && (old(s.cancel) ==> s.cancel) && s.ops > old(s.ops)
    ensures s.run.cycles == old(s.run.cycles) && (s.run.status.CompletedRun? ==> old(s.run.status.CompletedRun?))
  {
    var _ := s.Finish(e, status);
    return Answer;
  }

  /** The replan budget, the host's check of the new plan, and its conditional save. */
  method TryReplan(s: RunStore, e: Env, c: Change, checkpoints: nat) returns (next: Next)
    requires Inv(s.Now()) && !s.run.status.CompletedRun? && s.run.plan != []
    requires s.run.checkpoints + checkpoints <= MAX_ADAPTIVE_CHECKPOINTS
    requires c.failed.Some? ==> c.failed.value < |s.run.plan| && s.run.plan[c.failed.value].status.Failed?
    modifies s
    ensures Inv(s.Now()) && Later(old(s.Now()), s.Now()) && s.trace == old(s.trace)
    ensures next.Again? <==> CanReplan(old(s.run), c)
    ensures !next.Again? ==> next.Answer? && (s.lost || s.run.status.BlockedRun?)
    ensures (old(s.pause) ==> s.pause) && (old(s.cancel) ==> s.cancel)
    ensures next.Again? ==> if s.Closed() then s.run == old(s.run) else s.run == Replanned(old(s.run), c, checkpoints)
    ensures s.run.cycles == old(s.run.cycles) && !s.run.status.CompletedRun?
  {
    if s.run.replans >= s.run.maxReplans {
      next := Blocked(s, e, checkpoints);
      return;
    }
    var plan := AppendReplan(s.run.plan, s.run.maxTasks, s.run.observe, c);
    if plan.Err? {
      next := Blocked(s, e, checkpoints);
      return;
    }
    SaveReplan(s, e, c, plan.value, checkpoints);
    return Again;
  }

  method SaveReplan(s: RunStore, e: Env, c: Change, plan: Plan, checkpoints: nat)
    requires Inv(s.Now()) && !s.run.status.CompletedRun? && s.run.plan != []
    requires s.run.checkpoints + checkpoints <= MAX_ADAPTIVE_CHECKPOINTS
    requires c.failed.Some? ==> c.failed.value < |s.run.plan| && s.run.plan[c.failed.value].status.Failed?
    requires s.run.replans < s.run.maxReplans && Replan(s.run.plan, s.run.maxTasks, s.run.observe, c) == Ok(plan)
    modifies s
    ensures Inv(s.Now()) && Later(old(s.Now()), s.Now()) && s.trace == old(s.trace)
    ensures if s.Closed() then s.run == old(s.run) else s.run == Replanned(old(s.run), c, checkpoints)
    ensures (old(s.pause) ==> s.pause) && (old(s.cancel) ==> s.cancel)
  {
    ReplanKeeps(s.run, c, s.trace);
    var _ := s.Save(e, s.run.(plan := plan, replans := s.run.replans + 1,
                              checkpoints := s.run.checkpoints + checkpoints));
  }

  predicate CanReplan(r: Run, c: Change) {
    r.replans < r.maxReplans && Replan(r.plan, r.maxTasks, r.observe, c).Ok?
  }

  function Replanned(r: Run, c: Change, checkpoints: nat): Run
    requires CanReplan(r, c)
  {
    r.(plan := Replan(r.plan, r.maxTasks, r.observe, c).value, replans := r.replans + 1,
       checkpoints := r.checkpoints + checkpoints)
  }

  method Blocked(s: RunStore, e: Env, checkpoints: nat) returns (next: Next)
    requires Inv(s.Now()) && !s.run.status.CompletedRun?
    requires s.run.checkpoints + checkpoints <= MAX_ADAPTIVE_CHECKPOINTS
    modifies s
    ensures Inv(s.Now()) && Later(old(s.Now()), s.Now()) && s.trace == old(s.trace) && next.Answer?
    ensures s.lost || s.run.status.BlockedRun?
    ensures (old(s.pause) ==> s.pause) && (old(s.cancel) ==> s.cancel)
    ensures s.run.cycles == old(s.run.cycles) && !s.run.status.CompletedRun?
  {
    ghost var start := s.Now();
    if checkpoints > 0 {
      var _ := s.Save(e, s.run.(checkpoints := s.run.checkpoints + checkpoints));
    }
    ghost var mid := s.Now();
    next := Release(s, e, BlockedRun);
    LaterStill(start, mid, s.Now());
  }

  // ----- no runnable task is left -----------------------------------------------------

  predicate SaysComplete(review: Option<Review>) {
    review.Some? && review.value.decision.Complete?
  }

  /** With nothing runnable: the run completes exactly when both gates pass, the reviewer
      says so and nothing interferes. */
  method ReviewCompletion(s: RunStore, e: Env) returns (next: Next)
    requires Inv(s.Now()) && !s.run.status.CompletedRun? && s.run.plan != []
    modifies s
    ensures Inv(s.Now()) && Later(old(s.Now()), s.Now()) && s.trace == old(s.trace)
    ensures next.Again? ==> s.Closed() || s.run.replans == old(s.run.replans) + 1
    ensures next.Again? ==> !s.run.status.CompletedRun?
    ensures s.run.status.CompletedRun? ==>
              CompletionGate(old(s.run.plan), old(s.run.criteria)) && SaysComplete(e.review(old(s.ops)))
    ensures (&& CompletionGate(old(s.run.plan), old(s.run.criteria)) && SaysComplete(e.review(old(s.ops)))
             && !s.Closed() && !s.pause && (forall n :: !e.realityPending(n)))
            ==> s.run.status.CompletedRun?
    ensures s.run.cycles == old(s.run.cycles)
  {
    if exists t <- s.run.plan :: t.status.PassedUnverified? || (t.status.Pending? && t.deferred) {
      next := Release(s, e, PausedRun);
      return;
    }
    ghost var start := s.Now();
    var review, pause;
    next, review, pause := AskReviewer(s, e);
    if !next.Again? {
      return;
    }
    ghost var mid := s.Now();
    next := Conclude(s, e, review, pause);
    LaterStill(start, mid, s.Now());
  }

  /** What the completion review decides. */
  method Conclude(s: RunStore, e: Env, review: Review, pause: bool) returns (next: Next)
    requires Inv(s.Now()) && !s.run.status.CompletedRun? && s.run.plan != []
    modifies s
    ensures Inv(s.Now()) && Later(old(s.Now()), s.Now()) && s.trace == old(s.trace)
    ensures next.Again? ==> s.Closed() || s.run.replans == old(s.run.replans) + 1
    ensures next.Again? ==> !s.run.status.CompletedRun?
    ensures s.run.status.CompletedRun? ==>
              !pause && review.decision.Complete? && CompletionGate(old(s.run.plan), old(s.run.criteria))
    ensures (!pause && review.decision.Complete? && CompletionGate(old(s.run.plan), old(s.run.criteria))
             && !s.lost && !e.realityPending(old(s.ops))) ==> s.run.status.CompletedRun?
    ensures s.run.cycles == old(s.run.cycles) && (old(s.pause) ==> s.pause) && (old(s.cancel) ==> s.cancel)
  {
    if pause {
      next := Release(s, e, PausedRun);
    } else if review.decision.Complete? && CompletionGate(s.run.plan, s.run.criteria) {
      GatesAgree(s.run.plan, s.run.criteria);
      var _ := s.Finish(e, CompletedRun);
      next := Answer;
    } else if review.decision.ReplanPlease? && review.tasks != [] {
      next := TryReplan(s, e, Change(None, review.tasks, false, {}), 0);
    } else {
      next := Release(s, e, PausedRun);
    }
  }

  // ----- one task -----------------------------------------------------------------------

  datatype Outcome =
    | Stopped(next: Next)
    | Retried                      // provider unavailable: try again later
    | Refused                      // a save was refused: back to the checkpoint
    | Worked(passed: bool, deferred: bool, saved: bool)

  function InfraLeft(plan: Plan): nat {
    if plan == [] then 0
    else (if plan[0].infraRetries <= MAX_INFRA_RETRIES then MAX_INFRA_RETRIES - plan[0].infraRetries else 0)
         + InfraLeft(plan[1..])
  }

  lemma InfraLeftUpdate(plan: Plan, i: nat, t: Task)
    requires i < |plan| && plan[i].infraRetries < t.infraRetries <= MAX_INFRA_RETRIES
    ensures InfraLeft(plan[i := t]) < InfraLeft(plan)
  {
    if i == 0 {
      assert plan[0 := t][1..] == plan[1..];
    } else {
      assert plan[i := t][1..] == plan[1..][i - 1 := t] && plan[i := t][0] == plan[0];
      InfraLeftUpdate(plan[1..], i - 1, t);
    }
  }

  lemma InfraLeftSame(p: Plan, q: Plan)
    requires |p| == |q| && forall i | 0 <= i < |p| :: p[i].infraRetries == q[i].infraRetries
    ensures InfraLeft(p) == InfraLeft(q)
  {
    if p != [] {
      InfraLeftSame(p[1..], q[1..]);
    }
  }

  /** The status a finished task gets. */
  function StatusAfter(kind: Kind, passed: bool, deferred: bool): Status {
    if deferred && kind.Implement? && passed then PassedUnverified
    else if deferred && kind.Validate? then Pending
    else if passed then Passed else Failed
  }

  /** The task as the host records it after the workbench returned. */
  function Recorded(t: Task, result: WorkResult): Task {
    var passed := TaskPassed(result, t.kind);
    var deferred := result.HostResult? && result.deferred;
    t.(status := StatusAfter(t.kind, passed, deferred),
       deferred := t.deferred || (deferred && t.kind.Validate?),
       receipt := if result.HostResult? then Some(result.receipt) else None)
  }

  /** The run once the outcome of task `i` is recorded: a cycle is spent, and a failure
      counted unless the task passed or its validation was only deferred. */
  function Settlement(r: Run, i: nat, result: WorkResult): Run
    requires i < |r.plan|
  {
    var t := Recorded(r.plan[i], result);
    var fine := t.status.Passed? || t.status.PassedUnverified? || t.status.Pending?;
    WithTask(r, i, t).(cycles := r.cycles + 1, failures := r.failures + if fine then 0 else 1)
  }

  lemma SettlementIs(r: Run, i: nat, result: WorkResult)
    requires i < |r.plan|
    ensures var t := Recorded(r.plan[i], result);
            var fine := TaskPassed(result, t.kind) || (result.HostResult? && result.deferred && t.kind.Validate?);
            Settlement(r, i, result)
            == WithTask(r, i, t).(cycles := r.cycles + 1, failures := r.failures + if fine then 0 else 1)
  {
  }

  /** The provider was unavailable: the attempt does not count, a retry may. */
  function Unavailing(t: Task, retry: bool): Task {
    t.(status := InfraRetry, attempts := t.attempts - 1, infraRetries := t.infraRetries + if retry then 1 else 0)
  }

  /** A running task may be saved as anything but superseded, with its outcome settled. */
  lemma OutcomeKeeps(r: Run, i: nat, t: Task, trace: seq<Mark>)
    requires RunOk(r) && !r.status.CompletedRun? && i < |r.plan| && r.plan[i].status.Running?
    requires OpenOk(r.plan, trace) && NoReplay(trace)
    requires t.id == r.plan[i].id && t.kind == r.plan[i].kind && t.title == r.plan[i].title
    requires r.plan[i].infraRetries <= t.infraRetries <= MAX_INFRA_RETRIES && !t.status.Superseded?
    requires t.status.Passed? ==> t.receipt.Some? && Fit(t.kind, t.receipt.value)
    ensures RunOk(WithTask(r, i, t)) && RunGrows(r, WithTask(r, i, t))
    ensures OpenOk(WithTask(r, i, t).plan, trace + [Settled(i)])
  {
    TaskUpdateKeeps(r, i, t);
    SettleOnce(trace, i);
  }

  lemma InfraBounded(r: Run, i: nat)
    requires RunOk(r) && i < |r.plan|
    ensures r.plan[i].infraRetries <= MAX_INFRA_RETRIES
  {
    assert r.plan[i] in r.plan;
  }

  /** Starts task `i` durably; no work happens under a lost lease or after a cancel. */
  method StartTask(s: RunStore, e: Env, i: nat) returns (next: Next)
    requires Inv(s.Now()) && !s.run.status.CompletedRun?
    requires i < |s.run.plan| && Runnable(s.run.plan[i])
    modifies s
    ensures Inv(s.Now()) && Later(old(s.Now()), s.Now()) && s.trace == old(s.trace)
    ensures next.Again? ==>
              && s.run == WithTask(old(s.run), i, s.run.plan[i]).(status := RunningRun)
              && s.run.plan[i] == old(s.run.plan[i]).(status := Running, attempts := old(s.run.plan[i]).attempts + 1)
              && i !in Open(s.trace)
    ensures s.run.cycles == old(s.run.cycles)
  {
    var task := s.run.plan[i].(status := Running, attempts := s.run.plan[i].attempts + 1);
    TaskUpdateKeeps(s.run, i, task);
    ghost var start := s.Now();
    var started := s.Save(e, WithTask(s.run, i, task).(status := RunningRun));
    if started {
      return Again;
    }
    ghost var mid := s.Now();
    var flags := s.ControlFlags(e);
    if flags.cancel && !flags.lost {
      next := Release(s, e, CancelledRun);
    } else {
      next := Throw;
    }
    LaterStill(start, mid, s.Now());
  }

  method ProviderFailed(s: RunStore, e: Env, i: nat, infraLimit: nat) returns (o: Outcome)
    requires Inv(s.Now()) && !s.run.status.CompletedRun? && infraLimit <= MAX_INFRA_RETRIES
    requires i < |s.run.plan| && s.run.plan[i].status.Running?
    modifies s
    ensures Inv(s.Now()) && Later(old(s.Now()), s.Now())
    ensures o.Stopped? ==> !o.next.Again?
    ensures !o.Worked? && (o.Refused? ==> s.Closed())
    ensures s.run.cycles == old(s.run.cycles)
    ensures o.Retried? ==> s.run == WithTask(old(s.run), i, Unavailing(old(s.run.plan[i]), true))
                           && s.run.plan[i].infraRetries <= MAX_INFRA_RETRIES
    ensures !s.run.status.CompletedRun?
  {
    var flags := s.ControlFlags(e);
    if flags.lost {
      return Stopped(Throw);
    }
    ghost var start := s.Now();
    if flags.cancel {
      var next := Release(s, e, CancelledRun);
      return Stopped(next);
    }
    var retry := s.run.plan[i].infraRetries < infraLimit && !flags.pause;
    var task := Unavailing(s.run.plan[i], retry);
    InfraBounded(s.run, i);
    OutcomeKeeps(s.run, i, task, s.trace);
    var saved := s.SaveOutcome(e, WithTask(s.run, i, task), i);
    if !saved {
      return Refused;
    }
    if retry {
      return Retried;
    }
    ghost var mid := s.Now();
    var next := Release(s, e, PausedRun);
    LaterStill(start, mid, s.Now());
    return Stopped(next);
  }

  method RecordOutcome(s: RunStore, e: Env, i: nat, result: WorkResult) returns (o: Outcome)
    requires Inv(s.Now()) && !s.run.status.CompletedRun? && s.run.cycles < MAX_TOTAL_CYCLES
    requires i < |s.run.plan| && s.run.plan[i].status.Running?
    modifies s
    ensures Inv(s.Now()) && Later(old(s.Now()), s.Now())
    ensures o.Stopped? ==> !o.next.Again?
    ensures o.Stopped? || o.Worked?
    ensures o.Worked? ==> o.passed == TaskPassed(result, old(s.run.plan[i]).kind)
                          && o.deferred == (result.HostResult? && result.deferred)
                          && |s.run.plan| == |old(s.run.plan)| && s.run.plan[i].kind == old(s.run.plan[i]).kind
    ensures o.Worked? ==> if o.saved then s.run == Settlement(old(s.run), i, result)
                          else s.Closed() && s.run == old(s.run)
    ensures !s.run.status.CompletedRun?
    ensures o.Stopped? ==> s.run.cycles == old(s.run.cycles)
  {
    var flags := s.ControlFlags(e);
    if flags.lost {
      return Stopped(Throw);
    }
    if flags.cancel {
      var next := Release(s, e, CancelledRun);
      return Stopped(next);
    }
    var passed := TaskPassed(result, s.run.plan[i].kind);
    var deferred := result.HostResult? && result.deferred;
    var saved := SettleTask(s, e, i, result, passed, deferred);
    return Worked(passed, deferred, saved);
  }

  lemma RecordedFits(t: Task, result: WorkResult)
    ensures var u := Recorded(t, result);
            && u.id == t.id && u.kind == t.kind && u.title == t.title && u.infraRetries == t.infraRetries
            && !u.status.Superseded? && (u.status.Passed? ==> u.receipt.Some? && Fit(u.kind, u.receipt.value))
  {
  }

  /** A recorded outcome may be saved, and closes its hand-over. */
  lemma SettlementKeeps(r: Run, i: nat, result: WorkResult, trace: seq<Mark>)
    requires RunOk(r) && !r.status.CompletedRun? && r.cycles < MAX_TOTAL_CYCLES
    requires i < |r.plan| && r.plan[i].status.Running? && OpenOk(r.plan, trace) && NoReplay(trace)
    ensures RunOk(Settlement(r, i, result)) && RunGrows(r, Settlement(r, i, result))
    ensures OpenOk(Settlement(r, i, result).plan, trace + [Settled(i)])
  {
    RecordedFits(r.plan[i], result);
    InfraBounded(r, i);
    OutcomeKeeps(r, i, Recorded(r.plan[i], result), trace);
  }

  method SettleTask(s: RunStore, e: Env, i: nat, result: WorkResult, passed: bool, deferred: bool)
    returns (saved: bool)
    requires Inv(s.Now()) && !s.run.status.CompletedRun? && s.run.cycles < MAX_TOTAL_CYCLES
    requires i < |s.run.plan| && s.run.plan[i].status.Running?
    requires passed == TaskPassed(result, s.run.plan[i].kind) && deferred == (result.HostResult? && result.deferred)
    modifies s
    ensures Inv(s.Now()) && Later(old(s.Now()), s.Now())
    ensures if saved then s.run == Settlement(old(s.run), i, result) else s.Closed() && s.run == old(s.run)
  {
    var task := Recorded(s.run.plan[i], result);
    var failures := if passed || (deferred && task.kind.Validate?) then 0 else 1;
    SettlementKeeps(s.run, i, result, s.trace);
    SettlementIs(s.run, i, result);
    saved := s.SaveOutcome(
      e, WithTask(s.run, i, task).(cycles := s.run.cycles + 1, failures := s.run.failures + failures), i);
  }

  /** Starts task `i` and hands it over. */
  method StartWork(s: RunStore, e: Env, i: nat) returns (next: Next, work: WorkOutcome)
    requires Inv(s.Now()) && !s.run.status.CompletedRun? && i < |s.run.plan| && Runnable(s.run.plan[i])
    modifies s
    ensures Inv(s.Now()) && Later(old(s.Now()), s.Now())
    ensures s.run.cycles == old(s.run.cycles)
    ensures next.Again? ==>
              && s.run.replans == old(s.run.replans)
              && !s.run.status.CompletedRun? && |s.run.plan| == |old(s.run.plan)|
              && s.run.plan[i].status.Running? && InfraLeft(s.run.plan) == old(InfraLeft(s.run.plan))
  {
    ghost var v0 := s.Now();
    work := Raises;
    next := StartTask(s, e, i);
    if next.Again? {
      InfraLeftSame(v0.run.plan, s.run.plan);
      ghost var v1 := s.Now();
      work := s.HandOver(e, i);
      LaterStill(v0, v1, s.Now());
    }
  }

  method RunTask(s: RunStore, e: Env, i: nat, infraLimit: nat) returns (o: Outcome)
    requires Inv(s.Now()) && !s.run.status.CompletedRun? && s.run.cycles < MAX_TOTAL_CYCLES
    requires i < |s.run.plan| && Runnable(s.run.plan[i]) && infraLimit <= MAX_INFRA_RETRIES
    modifies s
    ensures Inv(s.Now()) && Later(old(s.Now()), s.Now())
    ensures o.Stopped? ==> !o.next.Again?
    ensures o.Refused? ==> s.Closed()
    ensures o.Retried? ==> s.run.replans == old(s.run.replans) && InfraLeft(s.run.plan) < old(InfraLeft(s.run.plan))
    ensures !o.Stopped? ==> !s.run.status.CompletedRun? && i < |s.run.plan|
    ensures o.Worked? && !o.passed && !(o.deferred && s.run.plan[i].kind.Validate?)
            ==> s.Closed() || s.run.plan[i].status.Failed?
    ensures s.run.cycles <= old(s.run.cycles) + if o.Worked? then 1 else 0
  {
    var next, work := StartWork(s, e, i);
    if !next.Again? {
      return Stopped(next);
    }
    if work.Raises? {
      return Stopped(Throw);
    }
    ghost var v0, v1 := old(s.Now()), s.Now();
    if work.Unavailable? {
      o := ProviderFailed(s, e, i, infraLimit);
      if o.Retried? {
        InfraLeftUpdate(v1.run.plan, i, s.run.plan[i]);
      }
    } else {
      o := RecordOutcome(s, e, i, work.result);
    }
    LaterStill(v0, v1, s.Now());
  }

  // ----- after a task -------------------------------------------------------------------

  /** The adaptive checkpoint after a discovery task. */
  method AfterPass(s: RunStore, e: Env, kind: Kind) returns (next: Next)
    requires Inv(s.Now()) && !s.run.status.CompletedRun? && s.run.plan != []
    modifies s
    ensures Inv(s.Now()) && Later(old(s.Now()), s.Now()) && s.trace == old(s.trace)
    ensures s.run.cycles == old(s.run.cycles) && !s.run.status.CompletedRun?
    ensures next.Again? && !s.Closed() ==>
              || s.run == old(s.run)
              || s.run == old(s.run).(checkpoints := old(s.run.checkpoints) + 1)
              || (s.run.replans == old(s.run.replans) + 1 && s.run.checkpoints == old(s.run.checkpoints) + 1)
  {
    var runnable := NextPending(s.run.plan);
    if !(s.run.adaptive && (kind.Inspect? || kind.Research?) && runnable.Some?
         && s.run.checkpoints < MAX_ADAPTIVE_CHECKPOINTS) {
      return Again;
    }
    var flags := s.ControlFlags(e);
    if flags.lost {
      return Throw;
    }
    if flags.cancel {
      next := Release(s, e, CancelledRun);
      return;
    }
    if flags.pause {
      next := Release(s, e, PausedRun);
      return;
    }
    ghost var v0 := s.Now();
    var review, pause;
    next, review, pause := AskReviewer(s, e);
    ghost var v1 := s.Now();
    LaterStill(old(s.Now()), v0, v1);
    if !next.Again? {
      return;
    }
    if !pause && review.decision.ReplanPlease? && (review.tasks != [] || review.stale != {}) {
      next := TryReplan(s, e, Change(None, review.tasks, review.stale == {}, review.stale), 1);
    } else {
      var _ := s.Save(e, s.run.(checkpoints := s.run.checkpoints + 1));
      ghost var v2 := s.Now();
      if pause || review.decision.PausePlease? {
        next := Release(s, e, PausedRun);
      }
      LaterStill(v1, v2, s.Now());
    }
    LaterStill(old(s.Now()), v1, s.Now());
  }

  method AfterFailure(s: RunStore, e: Env, i: nat) returns (next: Next)
    requires Inv(s.Now()) && !s.run.status.CompletedRun? && i < |s.run.plan|
    requires s.Closed() || s.run.plan[i].status.Failed?
    modifies s
    ensures Inv(s.Now()) && Later(old(s.Now()), s.Now()) && s.trace == old(s.trace)
    ensures s.run.cycles == old(s.run.cycles) && !s.run.status.CompletedRun?
    ensures next.Again? ==> old(s.run.failures) < old(s.run.maxFailures)
    ensures next.Again? && !s.Closed() ==>
              || s.run.replans == old(s.run.replans) + 1
              || (old(s.run.plan[i]).attempts < 2 && s.run == WithTask(old(s.run), i, s.run.plan[i])
                  && s.run.plan[i] == old(s.run.plan[i]).(status := Pending, instruction := s.run.plan[i].instruction))
  {
    if s.run.failures >= s.run.maxFailures {
      next := Release(s, e, BlockedRun);
      return;
    }
    ghost var v0 := s.Now();
    var review, pause;
    next, review, pause := AskReviewer(s, e);
    if !next.Again? {
      return;
    }
    ghost var v1 := s.Now();
    var task := s.run.plan[i];
    if pause {
      next := Release(s, e, PausedRun);
    } else if review.decision.Retry? && task.attempts < 2 {
      var again := task.(status := Pending,
                         instruction := if review.instruction != "" then review.instruction else task.instruction);
      assert task in s.run.plan;
      TaskUpdateKeeps(s.run, i, again);
      assert i !in Open(s.trace);
      var _ := s.Save(e, WithTask(s.run, i, again));
    } else if review.decision.ReplanPlease? && review.tasks != [] {
      next := TryReplan(s, e, Change(Some(i), review.tasks, false, {}), 0);
    } else {
      next := Release(s, e, if review.decision.PausePlease? then PausedRun else BlockedRun);
    }
    LaterStill(v0, v1, s.Now());
  }

  // ----- resume -----------------------------------------------------------------------------

  const ReadTools: set<string> := {"file_read", "file_list", "file_search", "search_files", "read_file"}

  /** A validation that passed against a workspace that has since changed must be redone. */
  function Stale(t: Task): Task {
    if t.kind.Validate? && t.status.Passed? then t.(status := Pending, receipt := None) else t
  }

  function StalePlan(plan: Plan): (r: Plan)
    ensures |r| == |plan| && forall i | 0 <= i < |plan| :: r[i] == Stale(plan[i])
  {
    seq(|plan|, i requires 0 <= i < |plan| => Stale(plan[i]))
  }

  /** The workbench looked around, read-only, between two operations. */
  ghost predicate WasInspected(e: Env, from: nat, upto: nat) {
    exists n: nat | from <= n < upto :: e.work(n).Returned? && Inspected(e.work(n).result)
  }

  /** Withdraws the verdicts of earlier validations. */
  method WithdrawVerdicts(s: RunStore, e: Env)
    requires Inv(s.Now()) && !s.run.status.CompletedRun?
    modifies s
    ensures Inv(s.Now()) && Later(old(s.Now()), s.Now()) && s.trace == old(s.trace) && s.ops > old(s.ops)
    ensures s.run == if s.Closed() then old(s.run) else old(s.run).(plan := StalePlan(old(s.run.plan)))
  {
    PlanUpdateKeeps(s.run, StalePlan(s.run.plan));
    StaleKeepsOpen(s.run.plan, StalePlan(s.run.plan), s.trace);
    var _ := s.Save(e, s.run.(plan := StalePlan(s.run.plan)));
  }

  /** Lets the workbench look around, read-only, at the price of one cycle. */
  method LookAround(s: RunStore, e: Env) returns (next: Next)
    requires Inv(s.Now()) && !s.run.status.CompletedRun?
    modifies s
    ensures Inv(s.Now()) && Later(old(s.Now()), s.Now()) && s.trace == old(s.trace)
    ensures next.Again? ==> WasInspected(e, old(s.ops), s.ops) && (old(s.Closed()) ==> s.Closed())
    ensures next.Again? ==> (s.run == old(s.run) && s.Closed())
                            || s.run == old(s.run).(cycles := old(s.run.cycles) + 1)
  {
    if s.run.cycles >= MAX_TOTAL_CYCLES {
      next := Release(s, e, PausedRun);
      return;
    }
    var _ := s.Save(e, s.run.(cycles := s.run.cycles + 1));
    ghost var v1, n := s.Now(), s.ops;
    var work := e.work(s.ops);
    s.Tick(e);
    if !work.Returned? {
      next := Throw;
    } else if Inspected(work.result) {
      assert old(s.ops) <= n < s.ops && e.work(n).Returned?;
      next := Again;
    } else {
      next := Release(s, e, PausedRun);
    }
    LaterStill(old(s.Now()), v1, s.Now());
  }

  method InspectWorkspace(s: RunStore, e: Env) returns (next: Next)
    requires Inv(s.Now()) && !s.run.status.CompletedRun? && s.run.plan != []
    modifies s
    ensures Inv(s.Now()) && Later(old(s.Now()), s.Now()) && s.trace == old(s.trace)
    ensures next.Again? ==> s.run.replans == old(s.run.replans) && s.run.plan != [] && !s.run.status.CompletedRun?
    ensures next.Again? ==> s.Closed() || s.run == old(s.run).(plan := StalePlan(old(s.run.plan)),
                                                               cycles := old(s.run.cycles) + 1)
    ensures next.Again? ==> WasInspected(e, old(s.ops), s.ops)
  {
    WithdrawVerdicts(s, e);
    ghost var v1, n := s.Now(), s.ops;
    next := LookAround(s, e);
    LaterStill(old(s.Now()), v1, s.Now());
    if next.Again? {
      InspectedWithin(e, old(s.ops), n, s.ops, s.ops);
    }
  }

  lemma InspectedWithin(e: Env, from: nat, a: nat, b: nat, upto: nat)
    requires WasInspected(e, a, b) && from <= a && b <= upto
    ensures WasInspected(e, from, upto)
  {
    var n: nat :| a <= n < b && e.work(n).Returned? && Inspected(e.work(n).result);
    assert from <= n < upto;
  }

  predicate Inspected(result: WorkResult) {
    && TaskPassed(result, Inspect) && !result.receipt.mutated
    && (exists tool <- result.receipt.tools :: tool in ReadTools)
  }

  /** A read-only inspection, then a replacement plan the host accepts. */
  method RecoverWorkspace(s: RunStore, e: Env) returns (next: Next)
    requires Inv(s.Now()) && !s.run.status.CompletedRun? && s.run.plan != []
    modifies s
    ensures Inv(s.Now()) && Later(old(s.Now()), s.Now()) && s.trace == old(s.trace)
    ensures next.Again? ==> s.run.replans == old(s.run.replans) + 1
                            && s.run.plan != [] && !s.run.status.CompletedRun?
    ensures next.Again? ==> WasInspected(e, old(s.ops), s.ops)
  {
    next := InspectWorkspace(s, e);
    if !next.Again? {
      return;
    }
    ghost var v1, ops := s.Now(), s.ops;
    if s.run.replans >= s.run.maxReplans {
      next := Release(s, e, PausedRun);
    } else {
      var answer := e.review(s.ops);
      s.Tick(e);
      if answer.None? {
        next := Throw;
      } else {
        next := ReplacePlan(s, e, answer.value);
      }
    }
    LaterStill(old(s.Now()), v1, s.Now());
    InspectedWithin(e, old(s.ops), old(s.ops), ops, s.ops);
  }

  method ReplacePlan(s: RunStore, e: Env, review: Review) returns (next: Next)
    requires Inv(s.Now()) && !s.run.status.CompletedRun? && s.run.plan != [] && s.run.replans < s.run.maxReplans
    modifies s
    ensures s.ops >= old(s.ops)
    ensures Inv(s.Now()) && Later(old(s.Now()), s.Now()) && s.trace == old(s.trace)
    ensures next.Again? ==> s.run.replans == old(s.run.replans) + 1
                            && s.run.plan != [] && !s.run.status.CompletedRun?
  {
    var change := Change(None, review.tasks, true, {});
    var plan := AppendReplan(s.run.plan, s.run.maxTasks, s.run.observe, change);
    if !review.decision.ReplanPlease? || review.tasks == [] || plan.Err? {
      next := Release(s, e, PausedRun);
      return;
    }
    ReplanKeeps(s.run, change, s.trace);
    var saved := s.Save(e, s.run.(plan := plan.value, replans := s.run.replans + 1));
    if !saved {
      return Throw;
    }
    var observed := s.Observe(e);
    return if observed then Again else Throw;
  }

  lemma StaleKeepsOpen(plan: Plan, after: Plan, trace: seq<Mark>)
    requires OpenOk(plan, trace) && |after| == |plan|
    requires forall i | 0 <= i < |plan| :: after[i] == Stale(plan[i])
    ensures OpenOk(after, trace)
  {
  }

  /** Interrupted work is fenced, deferred validations become runnable, a changed
      workspace is looked at again. Nothing is handed over here. */
  method Resume(s: RunStore, e: Env, changed: bool) returns (next: Next)
    requires Inv(s.Now()) && !s.run.status.CompletedRun?
    modifies s
    ensures Inv(s.Now()) && Later(old(s.Now()), s.Now()) && s.trace == old(s.trace)
    ensures next.Again? ==> !s.run.status.CompletedRun? && !Interruption(old(s.run.plan))
    ensures Interruption(old(s.run.plan)) ==> next.Answer? && (s.Closed() || Fenced(old(s.run.plan), s.run.plan))
  {
    var fenced, interrupted := MarkInterrupted(s.run.plan);
    if interrupted > 0 {
      next := Fence(s, e, fenced);
      return;
    }
    next := Reopen(s, e);
    if next.Again? && changed && s.run.plan != [] {
      ghost var v1 := s.Now();
      next := RecoverWorkspace(s, e);
      LaterStill(old(s.Now()), v1, s.Now());
    }
  }

  /** Deferred validations become runnable again. */
  method Reopen(s: RunStore, e: Env) returns (next: Next)
    requires Inv(s.Now()) && !s.run.status.CompletedRun?
    modifies s
    ensures Inv(s.Now()) && Later(old(s.Now()), s.Now()) && s.trace == old(s.trace)
    ensures next.Again? ==> !s.run.status.CompletedRun?
  {
    var cleared, retryable := ClearDeferred(s.run.plan);
    if retryable {
      PlanUpdateKeeps(s.run, cleared);
      var _ := s.Save(e, s.run.(plan := cleared, status := RunningRun));
    }
    var observed := s.Observe(e);
    next := if observed then Again else Throw;
  }

  ghost predicate Interruption(plan: Plan) {
    exists t <- plan :: t.status.Running?
  }

  ghost predicate Fenced(before: Plan, after: Plan) {
    |after| == |before| && forall i | 0 <= i < |after| :: after[i] == Interrupted(before[i])
  }

  method Fence(s: RunStore, e: Env, fenced: Plan) returns (next: Next)
    requires Inv(s.Now()) && !s.run.status.CompletedRun?
    requires |fenced| == |s.run.plan| && forall i | 0 <= i < |fenced| :: fenced[i] == Interrupted(s.run.plan[i])
    modifies s
    ensures Inv(s.Now()) && Later(old(s.Now()), s.Now()) && s.trace == old(s.trace) && next.Answer?
    ensures s.Closed() || s.run.plan == fenced
  {
    ghost var v0 := s.Now();
    PlanUpdateKeeps(s.run, fenced);
    var _ := s.Save(e, s.run.(plan := fenced, status := RunningRun));
    ghost var v1 := s.Now();
    var _ := s.Finish(e, PausedRun);
    LaterStill(v0, v1, s.Now());
    return Answer;
  }

  // ----- planning -----------------------------------------------------------------------------

  method MakePlan(s: RunStore, e: Env) returns (next: Next)
    requires Inv(s.Now()) && !s.run.status.CompletedRun? && s.run.plan == []
    modifies s
    ensures Inv(s.Now()) && Later(old(s.Now()), s.Now()) && s.trace == old(s.trace)
    ensures next.Again? ==> !s.run.status.CompletedRun? && (s.Closed() || s.run.plan != [])
    ensures next.Again? && !s.Closed() ==>
              var p := e.proposal(old(s.ops));
              && p.Some? && NormalizePlan(p.value, old(s.run.maxTasks)).Ok?
              && Accepted(s.run.criteria, s.run.plan) == NormalizePlan(p.value, old(s.run.maxTasks)).value
  {
    var proposal := e.proposal(s.ops);
    s.Tick(e);
    if proposal.None? {
      return Throw;
    }
    var accepted := NormalizePlan(proposal.value, s.run.maxTasks);
    if accepted.Err? {
      return Throw;
    }
    var flags := s.ControlFlags(e);
    if flags.lost {
      return Throw;
    }
    if flags.cancel {
      next := Release(s, e, CancelledRun);
      return;
    }
    PlannedKeeps(s.run, proposal.value, s.trace);
    var _ := s.Save(
      e, s.run.(plan := accepted.value.plan, criteria := accepted.value.criteria, status := RunningRun));
    return Again;
  }

  lemma PlannedKeeps(r: Run, p: Proposal, trace: seq<Mark>)
    requires RunOk(r) && r.plan == [] && OpenOk(r.plan, trace) && NormalizePlan(p, r.maxTasks).Ok?
    ensures var a := NormalizePlan(p, r.maxTasks).value;
            var next := r.(plan := a.plan, criteria := a.criteria, status := RunningRun);
            RunOk(next) && RunGrows(r, next) && OpenOk(next.plan, trace)
  {
    NormalizedIsWellFormed(p, r.maxTasks);
    var a := NormalizePlan(p, r.maxTasks).value;
    assert forall t <- a.plan :: FreshTask(t);
  }

  // ----- the loop -----------------------------------------------------------------------------

  /** The limits of one invocation; time is counted in ticks. */
  datatype Limits = Limits(maxCycles: int, infraLimit: int, wall: int, second: int)

  function Clamp(low: int, x: int, high: int): int {
    if x < low then low else if x > high then high else x
  }

  function Backoff(retryAt: int, now: int): nat {
    if retryAt > now then retryAt - now else 0
  }

  function Doubled(n: nat): nat {
    if n == 0 then 1 else 2 * Doubled(n - 1)
  }

  /** Waits a little, without working, while a provider recovers. */
  method Wait(s: RunStore, e: Env, retryAt: int, second: int, left: int)
    requires Inv(s.Now()) && second > 0 && left > 0 && retryAt > s.now
    modifies s
    ensures s.run == old(s.run) && s.trace == old(s.trace)
    ensures (old(s.lost) ==> s.lost) && (old(s.cancel) ==> s.cancel)
    ensures s.now > old(s.now) || s.now >= retryAt
  {
    s.Tick(e);
    var d := if retryAt - s.now < second then retryAt - s.now else second;
    d := if left < d then left else d;
    s.now := s.now + if d < 0 then 0 else d;
    s.Tick(e);
  }

  /** What comes after a task that was worked on. */
  method AfterWork(s: RunStore, e: Env, i: nat, o: Outcome) returns (next: Next)
    requires Inv(s.Now()) && !s.run.status.CompletedRun? && i < |s.run.plan| && o.Worked?
    requires !o.passed && !(o.deferred && s.run.plan[i].kind.Validate?)
             ==> s.Closed() || s.run.plan[i].status.Failed?
    modifies s
    ensures Inv(s.Now()) && Later(old(s.Now()), s.Now()) && s.trace == old(s.trace)
    ensures s.run.cycles == old(s.run.cycles) && !s.run.status.CompletedRun?
  {
    if o.saved {
      var observed := s.Observe(e);
      if !observed {
        return Throw;
      }
    }
    ghost var v1 := s.Now();
    if o.deferred && (o.passed || s.run.plan[i].kind.Validate?) {
      next := Again;
    } else if o.passed {
      next := AfterPass(s, e, s.run.plan[i].kind);
    } else {
      next := AfterFailure(s, e, i);
    }
    LaterStill(old(s.Now()), v1, s.Now());
  }

  datatype Round = Round(next: Next, worked: bool, retryAt: int)

  /** One round once every checkpoint has let it through. */
  method WorkRound(s: RunStore, e: Env, infraLimit: nat, second: int, retryAt: int) returns (r: Round)
    requires Inv(s.Now()) && !s.run.status.CompletedRun? && infraLimit <= MAX_INFRA_RETRIES
    requires s.run.plan != []
    modifies s
    ensures Inv(s.Now()) && Later(old(s.Now()), s.Now())
    ensures r.next.Again? ==> !s.run.status.CompletedRun?
    ensures r.next.Again? && !r.worked ==>
              || s.run.replans > old(s.run.replans)
              || s.Closed()
              || (s.run.replans == old(s.run.replans) && InfraLeft(s.run.plan) < old(InfraLeft(s.run.plan)))
    ensures s.run.cycles <= old(s.run.cycles) + if r.worked then 1 else 0
  {
    if s.run.cycles >= MAX_TOTAL_CYCLES {
      var next := Release(s, e, BlockedRun);
      return Round(next, false, retryAt);
    }
    var index := NextPending(s.run.plan);
    if index.None? {
      var next := ReviewCompletion(s, e);
      return Round(next, false, retryAt);
    }
    var i := index.value;
    var retried := s.run.plan[i].infraRetries;
    var o := RunTask(s, e, i, infraLimit);
    match o
    case Stopped(next) => return Round(next, false, retryAt);
    case Refused => return Round(Again, false, retryAt);
    case Retried =>
      var delay := if 30 * Doubled(retried) < 120 then 30 * Doubled(retried) else 120;
      return Round(Again, false, s.now + delay * second);
    case Worked(_, _, _) =>
      ghost var v1 := s.Now();
      var next := AfterWork(s, e, i, o);
      LaterStill(old(s.Now()), v1, s.Now());
      return Round(next, true, retryAt);
  }

  /** The operator's flags and the wall clock, before anything else in a round. */
  method Checkpoint(s: RunStore, e: Env, started: int, wall: int) returns (next: Next, elapsed: int)
    requires Inv(s.Now()) && !s.run.status.CompletedRun?
    modifies s
    ensures Inv(s.Now()) && Later(old(s.Now()), s.Now()) && s.trace == old(s.trace)
    ensures next.Again? ==> s.run == old(s.run) && !old(s.Closed()) && elapsed < wall
    ensures s.run.cycles == old(s.run.cycles)
  {
    elapsed := 0;
    var flags := s.ControlFlags(e);
    if flags.lost {
      return Throw, 0;
    }
    if flags.cancel {
      next := Release(s, e, CancelledRun);
      return;
    }
    if flags.pause {
      next := Release(s, e, PausedRun);
      return;
    }
    s.Tick(e);
    elapsed := s.now - started;
    if elapsed >= wall {
      next := Release(s, e, PausedRun);
      return;
    }
    return Again, elapsed;
  }

  /** The loop: it ends, whatever the callbacks answer, and spends at most the cycles of
      this invocation. */
  method Loop(s: RunStore, e: Env, limits: Limits, started: int) returns (next: Next)
    requires Inv(s.Now()) && !s.run.status.CompletedRun? && limits.second > 0
    requires s.Closed() || s.run.plan != []
    modifies s
    ensures Inv(s.Now()) && Later(old(s.Now()), s.Now())
    ensures next.Again? ==> !s.run.status.CompletedRun?
    ensures s.run.cycles <= old(s.run.cycles) + Clamp(1, limits.maxCycles, 12)
  {
    var maxCycles := Clamp(1, limits.maxCycles, 12);
    var infraLimit := Clamp(0, limits.infraLimit, MAX_INFRA_RETRIES);
    var invoked, retryAt := 0, 0;
    while invoked < maxCycles
      invariant Inv(s.Now()) && Later(old(s.Now()), s.Now()) && !s.run.status.CompletedRun?
      invariant 0 <= invoked <= maxCycles && (s.Closed() || s.run.plan != [])
      invariant s.run.cycles <= old(s.run.cycles) + invoked
      decreases maxCycles - invoked, s.run.maxReplans - s.run.replans, if s.Closed() then 0 else 1,
                InfraLeft(s.run.plan), Backoff(retryAt, s.now)
    {
      ghost var v0 := s.Now();
      var elapsed;
      next, elapsed := Checkpoint(s, e, started, limits.wall);
      ghost var v1 := s.Now();
      LaterStill(old(s.Now()), v0, v1);
      if !next.Again? {
        return;
      }
      if retryAt > s.now {
        Wait(s, e, retryAt, limits.second, limits.wall - elapsed);
        LaterStill(old(s.Now()), v1, s.Now());
        continue;
      }
      var round := WorkRound(s, e, infraLimit, limits.second, retryAt);
      LaterStill(old(s.Now()), v1, s.Now());
      if !round.next.Again? {
        assert invoked + 1 <= maxCycles;
        return round.next;
      }
      retryAt := round.retryAt;
      if round.worked {
        invoked := invoked + 1;
      }
    }
    return Again;
  }

  // ----- whole invocations ----------------------------------------------------------------------

  /** The last look after the cycle budget of an invocation is used up. */
  method FinalReview(s: RunStore, e: Env) returns (next: Next)
    requires Inv(s.Now()) && !s.run.status.CompletedRun?
    modifies s
    ensures Inv(s.Now()) && Later(old(s.Now()), s.Now()) && s.trace == old(s.trace) && !next.Again?
  {
    if NextPending(s.run.plan).Some? {
      next := Release(s, e, PausedRun);
      return;
    }
    var gate := CompletionGate(s.run.plan, s.run.criteria);
    var review, pause;
    next, review, pause := AskReviewer(s, e);
    if !next.Again? {
      return;
    }
    ghost var v1 := s.Now();
    var _ := s.Finish(e, if !pause && review.decision.Complete? && gate then CompletedRun else PausedRun);
    LaterStill(old(s.Now()), v1, s.Now());
    next := Answer;
  }

  /** The outer exception handler. */
  method Unwind(s: RunStore, e: Env) returns (handled: bool)
    requires Inv(s.Now())
    modifies s
    ensures Inv(s.Now()) && Later(old(s.Now()), s.Now()) && s.trace == old(s.trace)
    ensures handled || s.lost
  {
    var flags := s.ControlFlags(e);
    if !flags.lost && flags.cancel {
      handled := s.Finish(e, CancelledRun);
      if handled {
        return;
      }
    }
    ghost var v1 := s.Now();
    handled := s.Finish(e, FailedRun);
    LaterStill(old(s.Now()), v1, s.Now());
  }

  /** Resume, plan, loop and final review of a claimed run. */
  method Advance(s: RunStore, e: Env, limits: Limits, planOnly: bool, changed: bool) returns (next: Next)
    requires Inv(s.Now()) && !s.run.status.CompletedRun? && limits.second > 0
    modifies s
    ensures Inv(s.Now()) && Later(old(s.Now()), s.Now()) && !next.Again?
    ensures Interruption(old(s.run.plan)) ==> next.Answer? && s.trace == old(s.trace)
    ensures Interruption(old(s.run.plan)) ==> s.Closed() || Fenced(old(s.run.plan), s.run.plan)
  {
    ghost var v0 := s.Now();
    var started := s.now;
    next := Resume(s, e, changed);
    ghost var v1 := s.Now();
    if !next.Again? {
      return;
    }
    if s.run.plan == [] {
      next := MakePlan(s, e);
    }
    ghost var v2 := s.Now();
    LaterStill(v0, v1, v2);
    if !next.Again? {
      return;
    }
    if planOnly {
      next := Release(s, e, PausedRun);
    } else {
      next := Loop(s, e, limits, started);
      if next.Again? {
        ghost var v3 := s.Now();
        next := FinalReview(s, e);
        LaterStill(v2, v3, s.Now());
      }
    }
    LaterStill(v0, v2, s.Now());
  }

  datatype Exit = Unclaimed | Answered | Raised

  /** `execute_run`. It always ends. A run with a task left running by a dead controller
      hands nothing over; the task becomes uncertain, unless the lease is lost again or
      a cancel arrives first. */
  method ExecuteRun(s: RunStore, e: Env, limits: Limits, planOnly: bool, changed: bool, free: bool)
    returns (exit: Exit)
    requires Inv(s.Now()) && limits.second > 0
    modifies s
    ensures Inv(s.Now()) && Later(old(s.Now()), s.Now())
    ensures exit.Unclaimed? ==> s.Now() == old(s.Now())
    ensures exit.Raised? ==> s.lost
    ensures Terminal(old(s.run.status)) || old(s.cancel) ==> exit.Unclaimed?
    ensures Interruption(old(s.run.plan)) ==> s.trace == old(s.trace)
    ensures Interruption(old(s.run.plan)) && !exit.Unclaimed? ==>
              s.Closed() || Fenced(old(s.run.plan), s.run.plan)
  {
    ghost var v0 := s.Now();
    var claimed := s.Claim(free);
    if !claimed {
      return Unclaimed;
    }
    ghost var v1 := s.Now();
    var next := Advance(s, e, limits, planOnly, changed);
    ghost var v2 := s.Now();
    LaterStill(v0, v1, v2);
    if next.Answer? {
      return Answered;
    }
    var handled := Unwind(s, e);
    LaterStill(v0, v2, s.Now());
    return if handled then Answered else Raised;
  }

  // ----- whole histories ------------------------------------------------------------------------

  datatype Episode =
    | Invoke(env: Env, limits: Limits, planOnly: bool, changed: bool, free: bool)
    | OperatorCancels

  method Live(s: RunStore, episode: Episode)
    requires Inv(s.Now()) && (episode.Invoke? ==> episode.limits.second > 0)
    modifies s
    ensures Inv(s.Now()) && Later(old(s.Now()), s.Now())
  {
    match episode
    case Invoke(env, limits, planOnly, changed, free) =>
      var _ := ExecuteRun(s, env, limits, planOnly, changed, free);
    case OperatorCancels =>
      if !s.run.status.PlanningRun? && !s.run.status.RunningRun? {
        s.CancelIdle();
      }
  }

  /** Over any number of resumes, crashes and cancels of one run the invariant holds:
      budgets, plan shape, sound completion, no task handed over twice without a
      recorded outcome in between, and tasks whose fate is sealed stay sealed. */
  method History(s: RunStore, episodes: seq<Episode>)
    requires Inv(s.Now())
    requires forall i | 0 <= i < |episodes| :: episodes[i].Invoke? ==> episodes[i].limits.second > 0
    modifies s
    ensures Inv(s.Now()) && Later(old(s.Now()), s.Now())
  {
    for n := 0 to |episodes|
      invariant Inv(s.Now()) && Later(old(s.Now()), s.Now())
    {
      ghost var v0 := s.Now();
      Live(s, episodes[n]);
      LaterStill(old(s.Now()), v0, s.Now());
    }
  }

  /** What the invariant means for an uncertain task: at no later moment of the run is
      it anything else, is it handed over, or is the run completed. */
  lemma UncertainForever(a: View, b: View, i: nat)
    requires Later(a, b) && Inv(b) && i < |a.run.plan| && a.run.plan[i].status.Uncertain?
    ensures b.run.plan[i].status.Uncertain? && !b.run.status.CompletedRun?
    ensures Handed(i) !in b.trace[|a.trace|..]
  {
    assert TaskGrows(a.run.plan[i], b.run.plan[i]);
    assert b.run.plan[i] in b.run.plan;
  }

  /** What the invariant means for a completed run: every task passed on evidence fit
      for its kind or was superseded, a validation among them, and nothing is in doubt. */
  lemma CompletionIsSound(v: View)
    requires Inv(v) && v.run.status.CompletedRun?
    ensures EvidenceOk(v.run.plan, v.run.criteria) && Open(v.trace) == {}
  {
    GatesAgree(v.run.plan, v.run.criteria);
    assert forall i | 0 <= i < |v.run.plan| :: v.run.plan[i] in v.run.plan;
  }
}
