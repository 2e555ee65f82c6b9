/** How far a run can be driven: the constructions behind the exact conditions for
    routing safety. */
module DeploymentConverse {
  import opened Options
  import opened DeploymentModel
  import opened DeploymentInvariant
  import opened DeploymentRouting
  import opened DeploymentTakeover
  import opened DeploymentRecovery
  import opened DeploymentRuns

  // ----- continuations -----------------------------------------------------------

  /** Commands of the given kinds, their steps and kills; nothing else happens. */
  predicate Plain(actions: seq<Action>, ops: set<Op>) {
    forall a <- actions :: a.Step? || a.Crash? || (a.Start? && a.op in ops)
  }

  ghost predicate Reaches(w: World, e: World, ops: set<Op>) {
    exists actions :: Plain(actions, ops) && Exec(w, actions) == e
  }

  lemma {:induction false} ExecAppend(w: World, a: seq<Action>, b: seq<Action>)
    ensures Exec(w, a + b) == Exec(Exec(w, a), b)
    decreases |b|
  {
    if b == [] {
      assert a + b == a;
    } else {
      var n := |b| - 1;
      assert (a + b)[..|a + b| - 1] == a + b[..n] && (a + b)[|a + b| - 1] == b[n];
      ExecAppend(w, a, b[..n]);
    }
  }

  lemma ReachesItself(w: World, ops: set<Op>)
    ensures Reaches(w, w, ops)
  {
    assert Plain([], ops) && Exec(w, []) == w;
  }

  lemma ReachesAct(w: World, a: Action, ops: set<Op>)
    requires a.Step? || a.Crash? || (a.Start? && a.op in ops)
    ensures Reaches(w, Act(w, a), ops)
  {
    var actions := [a];
    assert actions[..0] == [] && Exec(w, []) == w;
    assert Exec(w, actions) == Act(w, a) && Plain(actions, ops);
  }

  lemma ReachesThen(w: World, e: World, f: World, ops: set<Op>)
    requires Reaches(w, e, ops) && Reaches(e, f, ops)
    ensures Reaches(w, f, ops)
  {
    var a :| Plain(a, ops) && Exec(w, a) == e;
    var b :| Plain(b, ops) && Exec(e, b) == f;
    ExecAppend(w, a, b);
    assert Plain(a + b, ops);
  }

  lemma {:induction false} DriveReaches(w: World, n: nat, ops: set<Op>)
    ensures Reaches(w, Drive(w, n), ops)
    decreases n
  {
    if n == 0 || w.process.None? || w.process.value.policy !in w.disk.files {
      ReachesItself(w, ops);
    } else {
      var c := Faultless(w.disk, w.process.value.policy);
      var v := Act(w, Step(c));
      ReachesAct(w, Step(c), ops);
      DriveReaches(v, n - 1, ops);
      ReachesThen(w, v, Drive(v, n - 1), ops);
    }
  }

  lemma ReachesKeeps(w: World, e: World, ops: set<Op>)
    requires Inv(w) && Reaches(w, e, ops)
    ensures Inv(e)
  {
    var actions :| Plain(actions, ops) && Exec(w, actions) == e;
    ExecKeeps(w, actions);
  }

  // ----- whose files a command touches ---------------------------------------------

  predicate OwnFiles(d: Disk, e: Disk, p: PolicyId) {
    p in d.files && p in e.files && e.files == d.files[p := e.files[p]]
  }

  lemma OwnFilesThen(d: Disk, e: Disk, f: Disk, p: PolicyId)
    requires OwnFiles(d, e, p) && OwnFiles(e, f, p)
    ensures OwnFiles(d, f, p)
  {
  }

  /** The step of a command agrees with what was asked for. */
  predicate OpMatches(pr: Process) {
    && (pr.pc == Entry(Adopt) ==> pr.op.AdoptOp?)
    && (pr.pc == Entry(Release) ==> pr.op.ReleaseOp?)
    && (pr.pc.Proposing? ==> pr.op.DeployOp?)
  }

  /** The command goes on as the same command of the same policy, or recovers instead;
      only a release removes the owner record. */
  predicate Follows(d: Disk, pr: Process, v: World) {
    && (d.owner.Some? && pr.pc != Entry(Release) ==> v.disk.owner.Some?)
    && (v.process.Some? ==>
          var next := v.process.value;
          && next.policy == pr.policy && (next.op == pr.op || next.op.RecoverOnly?)
          && (OpMatches(pr) ==> OpMatches(next)))
  }

  lemma EntryFollows(d: Disk, pr: Process, pc: EntryPc, c: Choice)
    requires pr.policy in d.files && pr.pc == Entry(pc)
    ensures Follows(d, pr, StepEntry(d, pr, pc, c))
  {
  }

  lemma RecoverJournalFollows(d: Disk, pr: Process, c: Choice, j: Journal)
    requires pr.policy in d.files && pr.pc.Recovering?
    ensures if j.RollbackJournal? then Follows(d, pr, RecoverRollback(d, pr, c, j))
            else Follows(d, pr, RecoverCommitted(d, pr, c, j))
  {
  }

  lemma RecoverFollows(d: Disk, pr: Process, c: Choice)
    requires pr.policy in d.files && pr.pc.Recovering?
    ensures Follows(d, pr, RecoverStep(d, pr, c))
  {
    if d.files[pr.policy].journal.Some? {
      RecoverJournalFollows(d, pr, c, d.files[pr.policy].journal.value);
    }
  }

  lemma RestoreFollows(d: Disk, pr: Process, c: Choice, j: Journal)
    requires pr.policy in d.files && pr.pc.Recovering? && j.DeployJournal?
    ensures Follows(d, pr, RestoreAlias(d, pr, c, j)) && Follows(d, pr, RestorePolicy(d, pr, c, j))
  {
  }

  lemma RemoveFollows(d: Disk, pr: Process, c: Choice)
    requires pr.policy in d.files && pr.pc.Recovering? && d.files[pr.policy].journal.Some?
    ensures Follows(d, pr, RollbackNoteStep(d, pr, c)) && Follows(d, pr, RecoverOwnerStep(d, pr, c))
    ensures Follows(d, pr, RemoveAliasStep(d, pr, c)) && Follows(d, pr, RemoveLedgerStep(d, pr, c))
  {
  }

  lemma RecoveringFollows(d: Disk, pr: Process, pc: RecoverPc, c: Choice)
    requires pr.policy in d.files && pr.pc == Recovering(pc)
    ensures Follows(d, pr, StepRecover(d, pr, pc, c))
  {
    if pc.Recover? {
      RecoverFollows(d, pr, c);
    } else if d.files[pr.policy].journal.Some? {
      var j := d.files[pr.policy].journal.value;
      if j.DeployJournal? {
        RestoreFollows(d, pr, c, j);
      }
      RemoveFollows(d, pr, c);
    }
  }

  lemma ClearingFollows(d: Disk, pr: Process, pc: ClearPc, c: Choice)
    requires pr.policy in d.files && pr.pc == ClearingJournal(pc)
    ensures Follows(d, pr, StepClear(d, pr, pc, c))
  {
  }

  lemma ProposingFollows(d: Disk, pr: Process, pc: ProposePc, c: Choice)
    requires pr.policy in d.files && pr.pc == Proposing(pc)
    ensures Follows(d, pr, StepPropose(d, pr, pc, c))
  {
  }

  lemma PublishingFollows(d: Disk, pr: Process, pc: PublishPc, c: Choice)
    requires pr.policy in d.files && pr.pc == Publishing(pc)
    ensures Follows(d, pr, StepPublish(d, pr, pc, c))
  {
  }

  lemma UndoingFollows(d: Disk, pr: Process, pc: UndoPc, c: Choice)
    requires pr.policy in d.files && pr.pc == Undoing(pc)
    ensures Follows(d, pr, StepUndo(d, pr, pc, c))
  {
  }

  lemma RollingBackFollows(d: Disk, pr: Process, pc: RollbackPc, c: Choice)
    requires pr.policy in d.files && pr.pc == RollingBack(pc)
    ensures Follows(d, pr, StepRollback(d, pr, pc, c))
  {
  }

  lemma StepFollows(d: Disk, pr: Process, c: Choice)
    requires pr.policy in d.files
    ensures Follows(d, pr, StepProcess(d, pr, c))
  {
    match pr.pc {
      case Entry(pc) => EntryFollows(d, pr, pc, c);
      case Recovering(pc) => RecoveringFollows(d, pr, pc, c);
      case ClearingJournal(pc) => ClearingFollows(d, pr, pc, c);
      case Proposing(pc) => ProposingFollows(d, pr, pc, c);
      case Publishing(pc) => PublishingFollows(d, pr, pc, c);
      case Undoing(pc) => UndoingFollows(d, pr, pc, c);
      case RollingBack(pc) => RollingBackFollows(d, pr, pc, c);
    }
  }

  lemma StepOwnFiles(w: World, c: Choice)
    requires Inv(w) && w.process.Some?
    ensures OwnFiles(w.disk, Act(w, Step(c)).disk, w.process.value.policy)
    ensures var v := Act(w, Step(c)); v.process.Some? ==> v.process.value.policy == w.process.value.policy
  {
    StepFollows(w.disk, w.process.value, c);
    StepFrame(w.disk, w.process.value, c);
  }

  lemma {:induction false} DriveOwnFiles(w: World, n: nat, p: PolicyId)
    requires Inv(w) && p in w.disk.files && (w.process.Some? ==> w.process.value.policy == p)
    ensures OwnFiles(w.disk, Drive(w, n).disk, p)
    decreases n
  {
    if n > 0 && w.process.Some? {
      var c := Faultless(w.disk, p);
      var v := Act(w, Step(c));
      StepOwnFiles(w, c);
      ActKeeps(w, Step(c));
      DriveOwnFiles(v, n - 1, p);
      OwnFilesThen(w.disk, v.disk, Drive(v, n - 1).disk, p);
    }
  }

  /** A faultless command of p, killed after n steps. */
  lemma CommandReaches(w: World, p: PolicyId, op: Op, n: nat, ops: set<Op>) returns (e: World)
    requires Inv(w) && w.process.None? && p in w.disk.files && op in ops && !op.RecoverOnly?
    ensures e == World(Drive(Act(w, Start(p, op)), n).disk, None)
    ensures Reaches(w, e, ops) && Inv(e) && OwnFiles(w.disk, e.disk, p)
  {
    var s := Act(w, Start(p, op));
    var v := Drive(s, n);
    ActKeeps(w, Start(p, op));
    DriveKeeps(s, n);
    DriveOwnFiles(s, n, p);
    e := Act(v, Crash);
    ReachesAct(w, Start(p, op), ops);
    DriveReaches(s, n, ops);
    ReachesAct(v, Crash, ops);
    ReachesThen(w, s, v, ops);
    ReachesThen(w, v, e, ops);
    ReachesKeeps(w, e, ops);
  }

  // ----- a claim becomes a route ----------------------------------------------------

  /** Recovery of a policy that would route makes it route, with nothing else pending. */
  lemma RouteRestored(w: World, p: PolicyId, ops: set<Op>) returns (e: World)
    requires Inv(w) && w.process.None? && p in w.disk.files && RollbackOp in ops
    requires WouldRoute(w.disk, p) || NamesPersonal(w.disk.files[p].policy.models)
    requires w.disk.transition.None? || (HasDeploy(w.disk, p) && WouldRoute(w.disk, p))
    ensures Reaches(w, e, ops) && Inv(e) && e.process.None? && e.disk.transition.None?
    ensures OwnFiles(w.disk, e.disk, p) && NamesPersonal(e.disk.files[p].policy.models)
    ensures e.disk.owner == w.disk.owner
    ensures !HasDeploy(w.disk, p) ==> PersonalContent(e.disk) == PersonalContent(w.disk)
  {
    var d := w.disk;
    if !WouldRoute(d, p) {
      ReachesItself(w, ops);
      e := w;
    } else if HasDeploy(d, p) {
      InterruptedDeploymentRecovers(w, p, RollbackOp);
      e := CommandReaches(w, p, RollbackOp, UndoSteps(d, p), ops);
    } else {
      InterruptedRollbackRecovers(w, p);
      e := CommandReaches(w, p, RollbackOp, EntrySteps(d, p) + RollbackSteps(d.files[p]), ops);
    }
  }

  // ----- a deployment that publishes something untrusted --------------------------

  /** Whoever deploys now is admitted: the owner of what the alias holds, or anyone if
      there is neither an alias nor an owner. */
  predicate Admissible(d: Disk, q: PolicyId) {
    if d.owner.Some? then d.owner.value.policy == q && PersonalContent(d) == Some(d.owner.value.content)
    else Personal !in d.aliases
  }

  /** Every call succeeds and the candidate turns out to be x. */
  function Succeeds(x: Content): Choice {
    Choice(true, true, true, true, true, x, {})
  }

  lemma UnusedContent(s: set<Content>) returns (x: Content)
    ensures x !in s
  {
    var bound: nat := 0;
    var rest := s;
    while rest != {}
      invariant forall y <- s :: y in rest || y < bound
      decreases rest
    {
      var y :| y in rest;
      bound := if y < bound then bound else y + 1;
      rest := rest - {y};
    }
    x := bound;
  }

  /** Policy q deploys content x, and has come to this step without being refused. */
  ghost predicate Deploying(w: World, q: PolicyId, x: Content, pc: Pc) {
    && Inv(w) && w.process.Some? && w.process.value.policy == q && w.process.value.pc == pc
    && w.process.value.candidate == x && Admissible(w.disk, q)
  }

  predicate SameSetting(d: Disk, e: Disk, q: PolicyId) {
    OwnFiles(d, e, q) && e.owner == d.owner && e.trusted == d.trusted && e.failSafe == d.failSafe
  }

  /** The next step when nothing fails. */
  function NextStep(pr: Process): Pc {
    match pr.pc
    case Proposing(Create) => Proposing(Gate)
    case Proposing(Gate) => Proposing(Claim)
    case Proposing(Claim) => Proposing(Reserve)
    case Proposing(Reserve) => Proposing(AdvanceTransition)
    case Proposing(AdvanceTransition) => Proposing(Check)
    case Proposing(Check) => if pr.previous.Some? then Proposing(Backup) else Publishing(Quiesce)
    case Proposing(Backup) => Proposing(NoteBackedUp)
    case Proposing(NoteBackedUp) => Publishing(Quiesce)
    case Publishing(Quiesce) =>
      if NamesPersonal(pr.prior) then Publishing(NoteQuiesced) else Publishing(NotePublishing)
    case Publishing(NoteQuiesced) => Publishing(NotePublishing)
    case Publishing(NotePublishing) => Publishing(Publish)
    case _ => pr.pc
  }

  predicate Early(pc: Pc) {
    || (pc.Proposing? && (pc.propose.Create? || pc.propose.Gate? || pc.propose.Claim? || pc.propose.Reserve?))
  }

  predicate Late(pc: Pc) {
    || (pc.Proposing? && (pc.propose.AdvanceTransition? || pc.propose.Check? || pc.propose.Backup?
                          || pc.propose.NoteBackedUp?))
  }

  predicate Quieting(pc: Pc) {
    pc.Publishing? && (pc.publish.Quiesce? || pc.publish.NoteQuiesced? || pc.publish.NotePublishing?)
  }

  function StepsLeft(pc: Pc): nat {
    match pc
    case Proposing(Create) => 11
    case Proposing(Gate) => 10
    case Proposing(Claim) => 9
    case Proposing(Reserve) => 8
    case Proposing(AdvanceTransition) => 7
    case Proposing(Check) => 6
    case Proposing(Backup) => 5
    case Proposing(NoteBackedUp) => 4
    case Publishing(Quiesce) => 3
    case Publishing(NoteQuiesced) => 2
    case Publishing(NotePublishing) => 1
    case _ => 0
  }

  lemma EarlyStep(w: World, q: PolicyId, x: Content, pc: Pc)
    requires Deploying(w, q, x, pc) && Early(pc)
    ensures var v := Act(w, Step(Succeeds(x)));
            && v.process.Some? && v.process.value.pc == NextStep(w.process.value)
            && v.process.value.policy == q && v.process.value.candidate == x
            && Admissible(v.disk, q) && SameSetting(w.disk, v.disk, q)
  {
  }

  lemma LateStep(w: World, q: PolicyId, x: Content, pc: Pc)
    requires Deploying(w, q, x, pc) && Late(pc)
    ensures var v := Act(w, Step(Succeeds(x)));
            && v.process.Some? && v.process.value.pc == NextStep(w.process.value)
            && v.process.value.policy == q && v.process.value.candidate == x
            && Admissible(v.disk, q) && SameSetting(w.disk, v.disk, q)
  {
  }

  lemma QuietingStep(w: World, q: PolicyId, x: Content, pc: Pc)
    requires Deploying(w, q, x, pc) && Quieting(pc)
    ensures var v := Act(w, Step(Succeeds(x)));
            && v.process.Some? && v.process.value.pc == NextStep(w.process.value)
            && v.process.value.policy == q && v.process.value.candidate == x
            && Admissible(v.disk, q) && SameSetting(w.disk, v.disk, q)
  {
  }

  lemma PublishStepGoes(w: World, q: PolicyId, x: Content)
    requires Deploying(w, q, x, Publishing(Publish))
    ensures var v := Act(w, Step(Succeeds(x)));
            PersonalContent(v.disk) == Some(x) && SameSetting(w.disk, v.disk, q)
  {
  }

  predicate OnTheWay(pc: Pc) {
    Early(pc) || Late(pc) || Quieting(pc)
  }

  lemma StepsDwindle(pr: Process)
    requires OnTheWay(pr.pc)
    ensures StepsLeft(NextStep(pr)) < StepsLeft(pr.pc)
    ensures OnTheWay(NextStep(pr)) || NextStep(pr) == Publishing(Publish)
  {
  }

  lemma StepSucceeds(w: World, q: PolicyId, x: Content, pc: Pc)
    requires Deploying(w, q, x, pc) && OnTheWay(pc)
    ensures var v := Act(w, Step(Succeeds(x)));
            && v.process.Some? && v.process.value.pc == NextStep(w.process.value)
            && v.process.value.policy == q && v.process.value.candidate == x
            && Admissible(v.disk, q) && SameSetting(w.disk, v.disk, q)
  {
    if Early(pc) {
      EarlyStep(w, q, x, pc);
    } else if Late(pc) {
      LateStep(w, q, x, pc);
    } else {
      QuietingStep(w, q, x, pc);
    }
  }

  lemma DeploymentStep(w: World, q: PolicyId, x: Content, pc: Pc, ops: set<Op>) returns (v: World, next: Pc)
    requires Deploying(w, q, x, pc) && OnTheWay(pc)
    ensures Reaches(w, v, ops) && Deploying(v, q, x, next) && SameSetting(w.disk, v.disk, q)
    ensures StepsLeft(next) < StepsLeft(pc) && (OnTheWay(next) || next == Publishing(Publish))
  {
    StepsDwindle(w.process.value);
    StepSucceeds(w, q, x, pc);
    ActKeeps(w, Step(Succeeds(x)));
    ReachesAct(w, Step(Succeeds(x)), ops);
    v, next := Act(w, Step(Succeeds(x))), NextStep(w.process.value);
  }

  lemma LastStep(w: World, q: PolicyId, x: Content, ops: set<Op>) returns (v: World)
    requires Deploying(w, q, x, Publishing(Publish))
    ensures Reaches(w, v, ops) && PersonalContent(v.disk) == Some(x) && SameSetting(w.disk, v.disk, q)
  {
    v := Act(w, Step(Succeeds(x)));
    ReachesAct(w, Step(Succeeds(x)), ops);
    PublishStepGoes(w, q, x);
  }

  lemma SettingThen(d: Disk, e: Disk, f: Disk, q: PolicyId)
    requires SameSetting(d, e, q) && SameSetting(e, f, q)
    ensures SameSetting(d, f, q)
  {
  }

  /** From any of these steps the deployment publishes its candidate. */
  lemma {:induction false} Publishes(w: World, q: PolicyId, x: Content, pc: Pc, ops: set<Op>) returns (e: World)
    requires Deploying(w, q, x, pc) && (OnTheWay(pc) || pc == Publishing(Publish))
    ensures Reaches(w, e, ops) && PersonalContent(e.disk) == Some(x) && SameSetting(w.disk, e.disk, q)
    decreases StepsLeft(pc)
  {
    if pc == Publishing(Publish) {
      e := LastStep(w, q, x, ops);
    } else {
      var v, next := DeploymentStep(w, q, x, pc, ops);
      e := Publishes(v, q, x, next, ops);
      ReachesThen(w, v, e, ops);
      SettingThen(w.disk, v.disk, e.disk, q);
    }
  }

  /** An admissible policy with nothing pending can begin a deployment. */
  lemma BeginsDeployment(w: World, q: PolicyId, ops: set<Op>) returns (e: World)
    requires Inv(w) && w.process.None? && q in w.disk.files && w.disk.transition.None? && DeployOp in ops
    requires Admissible(w.disk, q)
    ensures Reaches(w, e, ops) && Inv(e) && At(e, q, DeployOp, Proposing(Record))
    ensures OwnFiles(w.disk, e.disk, q) && Admissible(e.disk, q)
  {
    var s := Act(w, Start(q, DeployOp));
    var k := EntrySteps(w.disk, q);
    EnteringIdle(w.disk, q, DeployOp);
    ActKeeps(w, Start(q, DeployOp));
    var v := Drive(s, k);
    assert FileOk(w.disk.files[q], q, w.disk.nextId);
    var n := if HasRollback(v.disk, q) then RollbackSteps(v.disk.files[q]) else 1;
    e := Drive(v, n);
    DriveAdd(s, k, n);
    DriveKeeps(s, k + n);
    DriveOwnFiles(s, k + n, q);
    ReachesAct(w, Start(q, DeployOp), ops);
    DriveReaches(s, k + n, ops);
    ReachesThen(w, s, e, ops);
    assert !HasDeploy(w.disk, q);
    if HasRollback(v.disk, q) {
      RollbackTail(v, q, DeployOp);
    } else {
      NothingToRecover(v, q);
    }
  }

  lemma NothingToRecover(v: World, q: PolicyId)
    requires At(v, q, DeployOp, Recovering(Recover)) && v.disk.files[q].journal.None?
    ensures var e := Drive(v, 1); At(e, q, DeployOp, Proposing(Record)) && e.disk == v.disk
  {
    var c := Faultless(v.disk, q);
    var e := StepProcess(v.disk, v.process.value, c);
    assert e == RecoverStep(v.disk, v.process.value, c);
    assert Drive(v, 1) == Drive(e, 0) == e;
  }

  lemma RecordStepGoes(w: World, q: PolicyId, x: Content)
    requires Inv(w) && At(w, q, DeployOp, Proposing(Record)) && Admissible(w.disk, q)
    ensures var v := Act(w, Step(Succeeds(x)));
            Deploying(v, q, x, Proposing(Create)) && SameSetting(w.disk, v.disk, q)
  {
    ActKeeps(w, Step(Succeeds(x)));
  }

  /** An admissible policy with nothing pending can put something untrusted on the alias. */
  lemma PublishesUntrusted(w: World, q: PolicyId, ops: set<Op>) returns (e: World)
    requires Inv(w) && w.process.None? && q in w.disk.files && w.disk.transition.None? && DeployOp in ops
    requires Admissible(w.disk, q)
    ensures Reaches(w, e, ops) && OwnFiles(w.disk, e.disk, q) && !TrustedPersonal(e.disk)
  {
    var s := BeginsDeployment(w, q, ops);
    var x := UnusedContent(s.disk.trusted);
    var v := Act(s, Step(Succeeds(x)));
    RecordStepGoes(s, q, x);
    ReachesAct(s, Step(Succeeds(x)), ops);
    e := Publishes(v, q, x, Proposing(Create), ops);
    ReachesThen(w, s, v, ops);
    ReachesThen(w, v, e, ops);
    OwnFilesThen(w.disk, s.disk, v.disk, q);
    OwnFilesThen(w.disk, v.disk, e.disk, q);
  }

  /** Someone routes while another policy may deploy: the route goes to an untrusted alias. */
  lemma RouteMeetsDeployment(w: World, p: PolicyId, q: PolicyId, ops: set<Op>) returns (e: World)
    requires Inv(w) && w.process.None? && p in w.disk.files && q in w.disk.files && p != q
    requires w.disk.transition.None? && DeployOp in ops
    requires NamesPersonal(w.disk.files[p].policy.models) && Admissible(w.disk, q)
    ensures Reaches(w, e, ops) && !RoutingSafe(e.disk)
  {
    e := PublishesUntrusted(w, q, ops);
    assert e.disk.files[p] == w.disk.files[p];
  }

  /** A claim and an owner besides: the claim becomes a route, the owner deploys. */
  lemma ClaimMeetsOwner(w: World, p: PolicyId, q: PolicyId, ops: set<Op>) returns (e: World)
    requires Inv(w) && w.process.None? && p in w.disk.files && q in w.disk.files && p != q
    requires w.disk.transition.None? && DeployOp in ops && RollbackOp in ops
    requires Claims(w.disk, p) && OwnedBy(w.disk, q) && PersonalContent(w.disk) == Some(w.disk.owner.value.content)
    ensures Reaches(w, e, ops) && !RoutingSafe(e.disk)
  {
    assert !HasDeploy(w.disk, p);
    var v := RouteRestored(w, p, ops);
    e := RouteMeetsDeployment(v, p, q, ops);
    ReachesThen(w, v, e, ops);
  }
}
