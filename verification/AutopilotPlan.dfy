/** Plans of the autopilot controller: tasks, planning, replanning and the gates. */
module AutopilotPlan {
  import opened Options

  datatype Result<T> = Ok(value: T) | Err(error: PlanError)

  datatype PlanError =
    | NoCriterion | NoTask | BadTask | LostValidation
    | NoRoom | NoRoomForValidation | ObservePolicy | NothingNew

  datatype Kind = Inspect | Research | Implement | Validate | Report

  datatype Status =
    | Pending | Running | Passed | PassedUnverified | Failed | InfraRetry | Superseded | Uncertain | Cancelled

  /** What the host saw while a task ran; never taken from model text. */
  datatype Receipt = Receipt(tools: seq<string>, mutated: bool, attempted: bool, validated: bool)

  datatype Task = Task(
    id: nat, title: string, instruction: string, kind: Kind, status: Status,
    attempts: int, infraRetries: nat, receipt: Option<Receipt>, deferred: bool)

  type Plan = seq<Task>

  /** A task as a model proposes it, text already cleaned; `None` is an unknown kind. */
  datatype Raw = Raw(title: string, instruction: string, kind: Option<Kind>)

  const MAX_INFRA_RETRIES: nat := 3

  // ----- well-formed plans ---------------------------------------------------

  predicate HasValidation(plan: Plan) {
    exists t <- plan :: t.kind.Validate? && !t.status.Superseded?
  }

  /** Ids follow positions, the length respects the task budget and a validation that
      still matters is present. */
  ghost predicate WellFormed(plan: Plan, maxTasks: nat) {
    && |plan| <= maxTasks
    && (forall i | 0 <= i < |plan| :: plan[i].id == i + 1)
    && HasValidation(plan)
  }

  /** A plan that was just made: nothing has been attempted. */
  predicate FreshTask(t: Task) {
    t.status.Pending? && t.attempts == 0 && t.infraRetries == 0 && t.receipt.None? && !t.deferred
  }

  // ----- text ------------------------------------------------------------------

  function Lower(s: string): string {
    if s == [] then []
    else [if 'A' <= s[0] <= 'Z' then (s[0] - 'A') + 'a' else s[0]] + Lower(s[1..])
  }

  type Signature = (string, string)

  function Sig(t: Task): Signature {
    (Lower(t.title), Lower(t.instruction))
  }

  predicate StartsWith(s: string, prefix: string) {
    |prefix| <= |s| && s[..|prefix|] == prefix
  }

  // ----- planning ----------------------------------------------------------------

  function Draft(raw: Raw): (t: Option<Task>)
    ensures t.Some? ==> FreshTask(t.value)
  {
    if raw.title == "" || raw.instruction == "" || raw.kind.None? then None
    else Some(Task(0, raw.title, raw.instruction, raw.kind.value, Pending, 0, 0, None, false))
  }

  function Drafts(raws: seq<Raw>): (r: Result<Plan>)
    ensures r.Ok? ==> |r.value| == |raws| && forall t <- r.value :: FreshTask(t)
  {
    if raws == [] then Ok([])
    else match Draft(raws[0])
      case None => Err(BadTask)
      case Some(t) =>
        match Drafts(raws[1..])
        case Err(e) => Err(e)
        case Ok(rest) => Ok([t] + rest)
  }

  function ValidationTask(): Task {
    Task(0, "Validate the objective", "Run grounded checks and verify every success criterion",
         Validate, Pending, 0, 0, None, false)
  }

  function Numbered(tasks: Plan, from: nat): (r: Plan)
    ensures |r| == |tasks|
    ensures forall i | 0 <= i < |tasks| :: r[i] == tasks[i].(id := from + i + 1)
  {
    seq(|tasks|, i requires 0 <= i < |tasks| => tasks[i].(id := from + i + 1))
  }

  function Deduped(tasks: Plan, seen: set<Signature>): (r: Plan)
    ensures |r| <= |tasks| && forall t <- r :: t in tasks
  {
    if tasks == [] then []
    else if Sig(tasks[0]) in seen then Deduped(tasks[1..], seen)
    else [tasks[0]] + Deduped(tasks[1..], seen + {Sig(tasks[0])})
  }

  function Criteria(raw: seq<string>, seen: set<string>): (r: seq<string>)
    ensures forall c <- r :: c != ""
  {
    if raw == [] then []
    else if raw[0] == "" || Lower(raw[0]) in seen then Criteria(raw[1..], seen)
    else [raw[0]] + Criteria(raw[1..], seen + {Lower(raw[0])})
  }

  function ClampTasks(maxTasks: int): nat {
    if maxTasks < 3 then 3 else if maxTasks > 24 then 24 else maxTasks
  }

  datatype Proposal = Proposal(criteria: seq<string>, tasks: seq<Raw>)

  datatype Accepted = Accepted(criteria: seq<string>, plan: Plan)

  /** Makes sure some task validates, at the cost of the last one if the plan is full. */
  function Checked(tasks: Plan, max: nat): (r: Plan)
    requires 0 < max && |tasks| <= max
    ensures |r| <= max
    ensures forall t <- r :: t in tasks || t == ValidationTask()
  {
    if exists t <- tasks :: t.kind.Validate? then tasks
    else (if |tasks| >= max then tasks[..max - 1] else tasks) + [ValidationTask()]
  }

  /** `normalize_plan`. */
  function NormalizePlan(p: Proposal, maxTasks: int): Result<Accepted> {
    var max := ClampTasks(maxTasks);
    var criteria := Criteria(p.criteria, {});
    if criteria == [] then Err(NoCriterion)
    else match Drafts(if |p.tasks| <= max then p.tasks else p.tasks[..max])
      case Err(e) => Err(e)
      case Ok(tasks) =>
        if tasks == [] then Err(NoTask)
        else
          var plan := Numbered(Deduped(Checked(tasks, max), {}), 0);
          if HasValidation(plan) then Ok(Accepted(if |criteria| <= 12 then criteria else criteria[..12], plan))
          else Err(LostValidation)
  }

  /** An accepted plan is well formed, untouched and has a criterion to be judged by. */
  lemma NormalizedIsWellFormed(p: Proposal, maxTasks: int)
    requires NormalizePlan(p, maxTasks).Ok?
    ensures var a := NormalizePlan(p, maxTasks).value;
            && WellFormed(a.plan, ClampTasks(maxTasks)) && a.plan != []
            && (forall t <- a.plan :: FreshTask(t))
            && a.criteria != [] && |a.criteria| <= 12 && (forall c <- a.criteria :: c != "")
  {
    var max := ClampTasks(maxTasks);
    var a := NormalizePlan(p, maxTasks).value;
    var tasks := Drafts(if |p.tasks| <= max then p.tasks else p.tasks[..max]).value;
    var deduped := Deduped(Checked(tasks, max), {});
    assert a.plan == Numbered(deduped, 0);
    forall i | 0 <= i < |deduped| ensures FreshTask(a.plan[i]) {
      assert deduped[i] in Checked(tasks, max);
    }
    var criteria := Criteria(p.criteria, {});
    assert forall c <- a.criteria :: c in criteria;
  }

  // ----- replanning ------------------------------------------------------------------

  predicate Stale(t: Task, supersede: bool, stale: set<nat>) {
    t.status.Pending? && (supersede || t.id in stale)
  }

  function RetiredTask(t: Task, failed: bool, supersede: bool, stale: set<nat>): Task {
    if failed || Stale(t, supersede, stale) then t.(status := Superseded) else t
  }

  function Retired(plan: Plan, failed: Option<nat>, supersede: bool, stale: set<nat>): (r: Plan)
    ensures |r| == |plan|
    ensures forall i | 0 <= i < |plan| :: r[i] == RetiredTask(plan[i], failed == Some(i), supersede, stale)
  {
    seq(|plan|, i requires 0 <= i < |plan| => RetiredTask(plan[i], failed == Some(i), supersede, stale))
  }

  function Signatures(plan: Plan): set<Signature> {
    set t <- plan :: Sig(t)
  }

  /** The proposed tasks that are new, in order, as many as there is room for. */
  function Admitted(raws: seq<Raw>, seen: set<Signature>, room: nat, observe: bool): (r: Result<Plan>)
    ensures r.Ok? ==> |r.value| <= room && (forall t <- r.value :: FreshTask(t))
    ensures r.Ok? && observe ==> forall t <- r.value :: !t.kind.Implement?
    ensures r.Ok? ==> forall t <- r.value :: Sig(t) !in seen
  {
    if raws == [] || room == 0 then Ok([])
    else match Draft(raws[0])
      case None => Err(BadTask)
      case Some(t) =>
        if observe && t.kind.Implement? then Err(ObservePolicy)
        else if Sig(t) in seen then Admitted(raws[1..], seen, room, observe)
        else match Admitted(raws[1..], seen + {Sig(t)}, room - 1, observe)
          case Err(e) => Err(e)
          case Ok(rest) => Ok([t] + rest)
  }

  /** Adds a validation when none is left, in place of the last task if there is no room. */
  function WithValidation(plan: Plan, novel: Plan, room: nat): Result<Plan> {
    if HasValidation(plan + novel) then Ok(novel)
    else if room == 0 then Err(NoRoomForValidation)
    else if |novel| >= room then Ok(novel[..|novel| - 1] + [ValidationTask()])
    else Ok(novel + [ValidationTask()])
  }

  datatype Change = Change(failed: Option<nat>, tasks: seq<Raw>, supersede: bool, stale: set<nat>)

  function RoomLeft(plan: Plan, maxTasks: nat): nat {
    if |plan| <= maxTasks then maxTasks - |plan| else 0
  }

  /** `_append_replan`. */
  function Replan(plan: Plan, maxTasks: nat, observe: bool, c: Change): Result<Plan> {
    var room := RoomLeft(plan, maxTasks);
    var kept := Retired(plan, c.failed, c.supersede, c.stale);
    if room == 0 && c.tasks != [] then Err(NoRoom)
    else match Admitted(c.tasks, Signatures(kept), room, observe)
      case Err(e) => Err(e)
      case Ok(novel) =>
        match WithValidation(kept, novel, room)
        case Err(e) => Err(e)
        case Ok(added) =>
          if added == [] && !SomeStale(plan, c.failed, c.supersede, c.stale) then Err(NothingNew)
          else Ok(kept + Numbered(added, |plan|))
  }

  predicate SomeStale(plan: Plan, failed: Option<nat>, supersede: bool, stale: set<nat>) {
    exists i | 0 <= i < |plan| :: failed != Some(i) && Stale(plan[i], supersede, stale)
  }

  lemma ValidationIn(plan: Plan, more: Plan)
    requires HasValidation(more)
    ensures HasValidation(plan + more)
  {
    var t :| t in more && t.kind.Validate? && !t.status.Superseded?;
    assert t in plan + more;
  }

  lemma NumberedValidation(plan: Plan, added: Plan)
    requires HasValidation(plan + added)
    ensures HasValidation(plan + Numbered(added, |plan|))
  {
    var all := plan + added;
    var i :| 0 <= i < |all| && all[i].kind.Validate? && !all[i].status.Superseded?;
    assert (plan + Numbered(added, |plan|))[i].kind.Validate?;
  }

  lemma AddedAreFresh(kept: Plan, novel: Plan, room: nat, observe: bool)
    requires |novel| <= room && WithValidation(kept, novel, room).Ok?
    requires forall t <- novel :: FreshTask(t) && (observe ==> !t.kind.Implement?)
    ensures var added := WithValidation(kept, novel, room).value;
            && |added| <= room && HasValidation(kept + added)
            && (forall i | 0 <= i < |added| :: FreshTask(added[i]) && (observe ==> !added[i].kind.Implement?))
  {
    var added := WithValidation(kept, novel, room).value;
    if !HasValidation(kept + novel) {
      assert added[|added| - 1] == ValidationTask();
      assert ValidationTask() in added;
      ValidationIn(kept, added);
    }
  }

  lemma Joined(kept: Plan, added: Plan, maxTasks: nat, observe: bool)
    requires |kept| + |added| <= maxTasks && HasValidation(kept + added)
    requires forall i | 0 <= i < |kept| :: kept[i].id == i + 1
    requires forall i | 0 <= i < |added| :: FreshTask(added[i]) && (observe ==> !added[i].kind.Implement?)
    ensures var after := kept + Numbered(added, |kept|);
            && WellFormed(after, maxTasks) && after[..|kept|] == kept
            && (forall i | |kept| <= i < |after| :: FreshTask(after[i]) && (observe ==> !after[i].kind.Implement?))
  {
    var after := kept + Numbered(added, |kept|);
    NumberedValidation(kept, added);
    assert forall i | |kept| <= i < |after| :: after[i] == added[i - |kept|].(id := i + 1);
  }

  /** Whatever a reviewer asks for, an accepted replan is well formed, changes earlier
      tasks only by superseding the failed or stale ones, and adds only fresh tasks. */
  lemma ReplanIsWellFormed(plan: Plan, maxTasks: nat, observe: bool, c: Change)
    requires |plan| <= maxTasks && (forall i | 0 <= i < |plan| :: plan[i].id == i + 1)
    requires Replan(plan, maxTasks, observe, c).Ok?
    ensures var after := Replan(plan, maxTasks, observe, c).value;
            && WellFormed(after, maxTasks) && |plan| <= |after|
            && (forall i | 0 <= i < |plan| ::
                  after[i] == RetiredTask(plan[i], c.failed == Some(i), c.supersede, c.stale))
            && (forall i | |plan| <= i < |after| ::
                  FreshTask(after[i]) && (observe ==> !after[i].kind.Implement?))
  {
    var room := RoomLeft(plan, maxTasks);
    var kept := Retired(plan, c.failed, c.supersede, c.stale);
    var novel := Admitted(c.tasks, Signatures(kept), room, observe).value;
    AddedAreFresh(kept, novel, room, observe);
    Joined(kept, WithValidation(kept, novel, room).value, maxTasks, observe);
  }

  // ----- the loops ------------------------------------------------------------------

  /** The in-place supersession of `_append_replan`. */
  method Retire(plan: Plan, failed: Option<nat>, supersede: bool, stale: set<nat>)
    returns (r: Plan, count: nat)
    ensures r == Retired(plan, failed, supersede, stale)
    ensures count > 0 <==> SomeStale(plan, failed, supersede, stale)
  {
    r, count := plan, 0;
    if failed.Some? && failed.value < |r| {
      r := r[failed.value := r[failed.value].(status := Superseded)];
    }
    for i := 0 to |plan|
      invariant |r| == |plan|
      invariant forall j | 0 <= j < i :: r[j] == RetiredTask(plan[j], failed == Some(j), supersede, stale)
      invariant forall j | i <= j < |plan| :: r[j] == RetiredTask(plan[j], failed == Some(j), false, {})
      invariant count > 0 <==> SomeStale(plan[..i], failed, supersede, stale)
    {
      assert plan[..i + 1] == plan[..i] + [plan[i]];
      if Stale(r[i], supersede, stale) {
        r := r[i := r[i].(status := Superseded)];
        count := count + 1;
      }
    }
    assert plan[..|plan|] == plan;
  }

  function Prepend(done: Plan, r: Result<Plan>): Result<Plan> {
    match r case Ok(rest) => Ok(done + rest) case Err(e) => Err(e)
  }

  /** The loop over proposed tasks. */
  method Admit(raws: seq<Raw>, seen: set<Signature>, room: nat, observe: bool) returns (r: Result<Plan>)
    ensures r == Admitted(raws, seen, room, observe)
  {
    var normalized: Plan := [];
    var signatures := seen;
    var i := 0;
    assert raws[0..] == raws;
    assert forall rest: Plan :: [] + rest == rest;
    while i < |raws| && |normalized| < room
      invariant i <= |raws| && |normalized| <= room
      invariant Admitted(raws, seen, room, observe)
                == Prepend(normalized, Admitted(raws[i..], signatures, room - |normalized|, observe))
    {
      var task := Draft(raws[i]);
      if task.None? {
        return Err(BadTask);
      }
      if observe && task.value.kind.Implement? {
        return Err(ObservePolicy);
      }
      var signature := Sig(task.value);
      assert raws[i..][1..] == raws[i + 1..];
      if signature !in signatures {
        signatures := signatures + {signature};
        assert forall rest: Plan :: (normalized + [task.value]) + rest == normalized + ([task.value] + rest);
        normalized := normalized + [task.value];
      }
      i := i + 1;
    }
    assert normalized + [] == normalized;
    return Ok(normalized);
  }

  method AppendReplan(plan: Plan, maxTasks: nat, observe: bool, c: Change) returns (r: Result<Plan>)
    ensures r == Replan(plan, maxTasks, observe, c)
  {
    var kept, count := Retire(plan, c.failed, c.supersede, c.stale);
    var room := RoomLeft(plan, maxTasks);
    if room == 0 && c.tasks != [] {
      return Err(NoRoom);
    }
    var novel := Admit(c.tasks, Signatures(kept), room, observe);
    if novel.Err? {
      return novel;
    }
    var added := WithValidation(kept, novel.value, room);
    if added.Err? {
      return added;
    }
    if added.value == [] && count == 0 {
      return Err(NothingNew);
    }
    r := Ok(kept + Numbered(added.value, |plan|));
  }

  // ----- gates ------------------------------------------------------------------------

  datatype WorkResult =
    | NoReceipt                   // the workbench returned something other than a host result
    | HostResult(output: string, receipt: Receipt, deferred: bool)

  const FailurePrefixes: seq<string> := ["ERROR:", "VALIDATION_FAILED:", "EVIDENCE_REQUIRED", "CANCELLED"]

  /** Evidence fit for a task of this kind. */
  predicate Fit(kind: Kind, r: Receipt) {
    && r.tools != []
    && (kind.Implement? ==> r.mutated)
    && (kind.Validate? ==> r.attempted && r.validated)
  }

  /** `_task_passed`, on output with its surrounding white space removed. */
  predicate TaskPassed(result: WorkResult, kind: Kind) {
    && result.HostResult? && result.output != ""
    && (forall prefix <- FailurePrefixes :: !StartsWith(result.output, prefix))
    && result.receipt.tools != []
    && (kind.Implement? ==> result.receipt.mutated)
    && (kind.Validate? ==> result.receipt.attempted && result.receipt.validated)
  }

  predicate Runnable(t: Task) {
    (t.status.Pending? || t.status.InfraRetry?) && !t.deferred
  }

  /** The first runnable task, if any. */
  function NextPending(plan: Plan): (n: Option<nat>)
    ensures n.Some? ==> n.value < |plan| && Runnable(plan[n.value])
                        && forall i | 0 <= i < n.value :: !Runnable(plan[i])
    ensures n.None? ==> forall i | 0 <= i < |plan| :: !Runnable(plan[i])
  {
    NextFrom(plan, 0)
  }

  function NextFrom(plan: Plan, from: nat): (n: Option<nat>)
    requires from <= |plan|
    ensures n.Some? ==> from <= n.value < |plan| && Runnable(plan[n.value])
                        && forall i | from <= i < n.value :: !Runnable(plan[i])
    ensures n.None? ==> forall i | from <= i < |plan| :: !Runnable(plan[i])
    decreases |plan| - from
  {
    if from == |plan| then None else if Runnable(plan[from]) then Some(from) else NextFrom(plan, from + 1)
  }

  /** `_completion_gate`. */
  predicate CompletionGate(plan: Plan, criteria: seq<string>) {
    && plan != []
    && (forall t <- plan :: t.status.Passed? || t.status.Superseded?)
    && (exists t <- plan :: t.kind.Validate? && t.status.Passed? && t.receipt.Some? && t.receipt.value.validated)
    && criteria != []
  }

  /** The store's own evidence check before a run becomes completed. */
  predicate EvidenceOk(plan: Plan, criteria: seq<string>) {
    && plan != []
    && (exists c <- criteria :: c != "")
    && (forall t <- plan :: t.status.Superseded?
                            || (t.status.Passed? && t.receipt.Some? && Fit(t.kind, t.receipt.value)))
    && (exists t <- plan :: t.kind.Validate? && t.status.Passed?)
  }

  ghost predicate PassedFit(plan: Plan) {
    forall t <- plan | t.status.Passed? :: t.receipt.Some? && Fit(t.kind, t.receipt.value)
  }

  /** On plans whose passed tasks carry fit receipts the controller's gate and the
      store's evidence check agree. */
  lemma GatesAgree(plan: Plan, criteria: seq<string>)
    requires PassedFit(plan) && (forall c <- criteria :: c != "")
    ensures CompletionGate(plan, criteria) <==> EvidenceOk(plan, criteria)
  {
    if CompletionGate(plan, criteria) {
      assert criteria[0] in criteria;
    }
  }

  // ----- resume -----------------------------------------------------------------------

  function Interrupted(t: Task): Task {
    if t.status.Running? then t.(status := Uncertain) else t
  }

  function Retryable(t: Task): Task {
    if t.status.Pending? && t.deferred then t.(deferred := false) else t
  }

  /** Fences every task whose outcome died with its controller. */
  method MarkInterrupted(plan: Plan) returns (r: Plan, changed: nat)
    ensures |r| == |plan| && forall i | 0 <= i < |plan| :: r[i] == Interrupted(plan[i])
    ensures changed > 0 <==> exists t <- plan :: t.status.Running?
    ensures changed == 0 ==> r == plan
  {
    r, changed := plan, 0;
    for i := 0 to |plan|
      invariant |r| == |plan|
      invariant forall j | 0 <= j < i :: r[j] == Interrupted(plan[j])
      invariant forall j | i <= j < |plan| :: r[j] == plan[j]
      invariant changed > 0 <==> exists t <- plan[..i] :: t.status.Running?
    {
      assert plan[..i + 1] == plan[..i] + [plan[i]];
      if r[i].status.Running? {
        r := r[i := r[i].(status := Uncertain)];
        changed := changed + 1;
      }
    }
    assert plan[..|plan|] == plan;
    if changed == 0 {
      assert forall i | 0 <= i < |plan| :: plan[i] in plan;
    }
  }

  method ClearDeferred(plan: Plan) returns (r: Plan, changed: bool)
    ensures |r| == |plan| && forall i | 0 <= i < |plan| :: r[i] == Retryable(plan[i])
    ensures !changed ==> r == plan
  {
    r, changed := plan, false;
    for i := 0 to |plan|
      invariant |r| == |plan|
      invariant forall j | 0 <= j < i :: r[j] == Retryable(plan[j])
      invariant forall j | i <= j < |plan| :: r[j] == plan[j]
      invariant !changed ==> r == plan
    {
      if r[i].status.Pending? && r[i].deferred {
        r := r[i := r[i].(deferred := false)];
        changed := true;
      }
    }
  }
}
