/** Properties of whole runs of the deployment protocol: alias ownership, the
    candidate ledger, and recovery back to the state before the reservation. */
module DeploymentRuns {
  import opened Options
  import opened DeploymentModel
  import opened DeploymentInvariant
  import opened DeploymentRecovery

  // ----- what each group of steps may touch --------------------------------

  predicate SameEndpoint(d: Disk, e: Disk) {
    e.transition == d.transition && e.owner == d.owner && PersonalContent(e) == PersonalContent(d)
  }

  lemma FinallyTouchesNothing(d: Disk, pr: Process, pc: UndoPc, c: Choice)
    requires pr.policy in d.files && (pc.FinallyRemove? || pc.FinallyLedger?)
    ensures SameEndpoint(d, StepUndo(d, pr, pc, c).disk)
  {
  }

  lemma RollbackTouchesNothing(d: Disk, pr: Process, pc: RollbackPc, c: Choice)
    requires pr.policy in d.files
    ensures SameEndpoint(d, StepRollback(d, pr, pc, c).disk)
  {
  }

  /** While a transition record exists, actions other than steps of its own policy
      change neither the record, nor the owner, nor the personal alias: a crashed
      deployment blocks every other policy until its own policy recovers it. */
  lemma OthersAreBlocked(w: World, a: Action)
    requires Inv(w) && w.disk.transition.Some?
    requires !(a.Step? && w.process.Some? && w.process.value.policy == w.disk.transition.value.policy)
    ensures SameEndpoint(w.disk, Act(w, a).disk)
  {
    if a.Step? && w.process.Some? {
      var d, pr, c := w.disk, w.process.value, a.choice;
      match pr.pc {
        case Entry(pc) => assert pc.Prepare?;
        case Undoing(pc) => FinallyTouchesNothing(d, pr, pc, c);
        case RollingBack(pc) => RollbackTouchesNothing(d, pr, pc, c);
        case _ =>
      }
    }
  }

  lemma EntryWritesNothing(d: Disk, pr: Process, pc: EntryPc, c: Choice)
    requires pr.policy in d.files && Personal !in d.files[pr.policy].ledger
    ensures PersonalContent(StepEntry(d, pr, pc, c).disk) == PersonalContent(d)
  {
  }

  lemma RecoveryWritesNothing(d: Disk, pr: Process, pc: RecoverPc, c: Choice)
    requires pr.policy in d.files && !pc.RecoverAlias? && (pc.RemoveAlias? ==> Personal !in pr.todo)
    ensures PersonalContent(StepRecover(d, pr, pc, c).disk) == PersonalContent(d)
  {
  }

  lemma ClearingWritesNothing(d: Disk, pr: Process, pc: ClearPc, c: Choice)
    requires pr.policy in d.files
    ensures PersonalContent(StepClear(d, pr, pc, c).disk) == PersonalContent(d)
  {
  }

  lemma ProposalWritesNothing(d: Disk, pr: Process, pc: ProposePc, c: Choice)
    requires pr.policy in d.files
    ensures PersonalContent(StepPropose(d, pr, pc, c).disk) == PersonalContent(d)
  {
  }

  lemma OtherPublishingWritesNothing(d: Disk, pr: Process, pc: PublishPc, c: Choice)
    requires pr.policy in d.files && !pc.Publish?
    requires pc.OldRemove? && HasDeploy(d, pr.policy) ==> d.files[pr.policy].journal.value.oldRecovery != Some(Personal)
    ensures PersonalContent(StepPublish(d, pr, pc, c).disk) == PersonalContent(d)
  {
  }

  lemma OtherUndoingWritesNothing(d: Disk, pr: Process, pc: UndoPc, c: Choice)
    requires pr.policy in d.files && !pc.UndoAlias?
    ensures PersonalContent(StepUndo(d, pr, pc, c).disk) == PersonalContent(d)
  {
  }

  /** Steps that never write the personal alias. */
  lemma OnlyThreeStepsWrite(d: Disk, pr: Process, c: Choice)
    requires pr.policy in d.files && Personal !in d.files[pr.policy].ledger
    requires pr.pc == Recovering(RemoveAlias) ==> Personal !in pr.todo
    requires pr.pc == Publishing(OldRemove) && HasDeploy(d, pr.policy) ==>
               d.files[pr.policy].journal.value.oldRecovery != Some(Personal)
    requires pr.pc != Recovering(RecoverAlias) && pr.pc != Publishing(Publish) && pr.pc != Undoing(UndoAlias)
    ensures PersonalContent(StepProcess(d, pr, c).disk) == PersonalContent(d)
  {
    match pr.pc {
      case Entry(pc) => EntryWritesNothing(d, pr, pc, c);
      case Recovering(pc) => RecoveryWritesNothing(d, pr, pc, c);
      case ClearingJournal(pc) => ClearingWritesNothing(d, pr, pc, c);
      case Proposing(pc) => ProposalWritesNothing(d, pr, pc, c);
      case Publishing(pc) => OtherPublishingWritesNothing(d, pr, pc, c);
      case Undoing(pc) => OtherUndoingWritesNothing(d, pr, pc, c);
      case RollingBack(pc) => RollbackTouchesNothing(d, pr, pc, c);
    }
  }

  /** The personal alias is written only by the process of the policy that holds the
      transition record, with no other policy as recorded owner; and a candidate is
      put there only by an admitted deployment. */
  lemma AliasWrittenByHolder(w: World, a: Action)
    requires Inv(w) && PersonalContent(Act(w, a).disk) != PersonalContent(w.disk)
    ensures && w.process.Some? && w.disk.transition.Some?
            && w.disk.transition.value.policy == w.process.value.policy
            && !ForeignOwner(w.disk, w.process.value.policy)
    ensures w.process.value.pc == Publishing(Publish) ==> Admitted(w.disk, w.process.value)
  {
    var d, pr := w.disk, w.process.value;
    assert FileOk(d.files[pr.policy], pr.policy, d.nextId);
    if pr.pc != Recovering(RecoverAlias) && pr.pc != Publishing(Publish) && pr.pc != Undoing(UndoAlias) {
      if pr.pc == Publishing(OldRemove) {
        assert Holding(d) && DeployOk(d, pr.policy, d.files[pr.policy].journal.value);
      }
      OnlyThreeStepsWrite(d, pr, a.choice);
    }
  }

  // ----- candidates --------------------------------------------------------

  /** In every reachable state each existing candidate alias is named in the cleanup
      ledger of the policy that built it. */
  lemma NoLeakedCandidate(w: World, actions: seq<Action>, p: PolicyId, id: DeployId)
    requires Init(w) && Candidate(p, id) in Exec(w, actions).disk.aliases
    ensures var d := Exec(w, actions).disk; p in d.files && Candidate(p, id) in d.files[p].ledger
  {
    InitInv(w);
    ExecKeeps(w, actions);
  }

  ghost predicate OneCandidate(d: Disk) {
    forall a <- d.aliases, b <- d.aliases | a.Candidate? && b.Candidate? && a.policy == b.policy :: a == b
  }

  lemma OneCandidateStep(w: World, a: Action)
    requires Inv(w) && OneCandidate(w.disk)
    ensures OneCandidate(Act(w, a).disk)
  {
    var e := Act(w, a).disk;
    if a.Step? && w.process.Some? && w.process.value.pc != Proposing(Create) {
      StepFrame(w.disk, w.process.value, a.choice);
    }
  }

  /** At most one candidate exists per policy at any time. */
  lemma AtMostOneCandidate(w: World, actions: seq<Action>)
    requires Init(w)
    ensures OneCandidate(Exec(w, actions).disk)
  {
    if actions != [] {
      var before := actions[..|actions| - 1];
      AtMostOneCandidate(w, before);
      InitInv(w);
      ExecKeeps(w, before);
      OneCandidateStep(Exec(w, before), actions[|actions| - 1]);
    }
  }

  // ----- the journal remembers the state before the reservation -------------

  /** A pending deploy journal keeps its identity and what it would restore, and a
      commit is never forgotten, until the journal is cleared. */
  predicate Remembers(f: Files, g: Files) {
    f.journal.Some? && f.journal.value.DeployJournal? && g.journal.Some? ==>
      var i, j := f.journal.value, g.journal.value;
      && j.DeployJournal? && j.id == i.id && j.prior == i.prior && j.previous == i.previous
      && j.candidate == i.candidate
      && (CommittedDeploy(f, i) ==> CommittedDeploy(g, j))
  }

  /** What any step leaves alone: other policies, what the journal remembers, and,
      unless it is the step that builds one, the set of candidates. */
  ghost predicate Framed(d: Disk, e: Disk, p: PolicyId, builds: bool) {
    && p in d.files && p in e.files && e.files == d.files[p := e.files[p]]
    && Remembers(d.files[p], e.files[p])
    && (builds || forall a <- e.aliases | a.Candidate? :: a in d.aliases)
  }

  lemma EntryFrame(d: Disk, pr: Process, pc: EntryPc, c: Choice)
    requires pr.policy in d.files
    ensures Framed(d, StepEntry(d, pr, pc, c).disk, pr.policy, false)
  {
  }

  lemma RecoveringFrame(d: Disk, pr: Process, pc: RecoverPc, c: Choice)
    requires pr.policy in d.files
    ensures Framed(d, StepRecover(d, pr, pc, c).disk, pr.policy, false)
  {
  }

  lemma ClearingFrame(d: Disk, pr: Process, pc: ClearPc, c: Choice)
    requires pr.policy in d.files
    ensures Framed(d, StepClear(d, pr, pc, c).disk, pr.policy, false)
  {
  }

  lemma ProposingFrame(d: Disk, pr: Process, pc: ProposePc, c: Choice)
    requires pr.policy in d.files
    ensures Framed(d, StepPropose(d, pr, pc, c).disk, pr.policy, pc.Create?)
  {
  }

  lemma PublishingFrame(d: Disk, pr: Process, pc: PublishPc, c: Choice)
    requires pr.policy in d.files
    requires pc.CommitState? && HasDeploy(d, pr.policy) ==> d.files[pr.policy].journal.value.id == pr.id
    ensures Framed(d, StepPublish(d, pr, pc, c).disk, pr.policy, false)
  {
  }

  lemma UndoingFrame(d: Disk, pr: Process, pc: UndoPc, c: Choice)
    requires pr.policy in d.files
    ensures Framed(d, StepUndo(d, pr, pc, c).disk, pr.policy, false)
  {
  }

  lemma RollingBackFrame(d: Disk, pr: Process, pc: RollbackPc, c: Choice)
    requires pr.policy in d.files
    ensures Framed(d, StepRollback(d, pr, pc, c).disk, pr.policy, false)
  {
  }

  lemma StepFrame(d: Disk, pr: Process, c: Choice)
    requires pr.policy in d.files
    requires pr.pc == Publishing(CommitState) && HasDeploy(d, pr.policy) ==>
               d.files[pr.policy].journal.value.id == pr.id
    ensures Framed(d, StepProcess(d, pr, c).disk, pr.policy, pr.pc == Proposing(Create))
  {
    match pr.pc {
      case Entry(pc) => EntryFrame(d, pr, pc, c);
      case Recovering(pc) => RecoveringFrame(d, pr, pc, c);
      case ClearingJournal(pc) => ClearingFrame(d, pr, pc, c);
      case Proposing(pc) => ProposingFrame(d, pr, pc, c);
      case Publishing(pc) => PublishingFrame(d, pr, pc, c);
      case Undoing(pc) => UndoingFrame(d, pr, pc, c);
      case RollingBack(pc) => RollingBackFrame(d, pr, pc, c);
    }
  }

  lemma ActRemembers(w: World, a: Action, p: PolicyId)
    requires Inv(w) && p in w.disk.files
    ensures p in Act(w, a).disk.files && Remembers(w.disk.files[p], Act(w, a).disk.files[p])
  {
    if a.Step? && w.process.Some? {
      StepFrame(w.disk, w.process.value, a.choice);
    }
  }

  /** Policy p's deployment stays pending throughout these actions. */
  ghost predicate StaysPending(w: World, actions: seq<Action>, p: PolicyId) {
    && HasDeploy(Exec(w, actions).disk, p)
    && (actions == [] || StaysPending(w, actions[..|actions| - 1], p))
  }

  lemma PendingRemembers(w: World, actions: seq<Action>, p: PolicyId)
    requires Inv(w) && p in w.disk.files && StaysPending(w, actions, p)
    ensures HasDeploy(w.disk, p) && Inv(Exec(w, actions))
    ensures Remembers(w.disk.files[p], Exec(w, actions).disk.files[p])
  {
    ExecKeeps(w, actions);
    if actions != [] {
      var before := actions[..|actions| - 1];
      PendingRemembers(w, before, p);
      ActRemembers(Exec(w, before), actions[|actions| - 1], p);
    }
  }

  /** The reservation records the alias and the models as they are at that moment. */
  lemma ReservationRecords(w: World, c: Choice)
    requires Inv(w) && w.process.Some? && w.process.value.pc == Proposing(Reserve)
    requires c.ok && w.disk.files[w.process.value.policy].journal.None?
    ensures var p := w.process.value.policy;
            var e := Act(w, Step(c)).disk;
            && HasDeploy(e, p) && e.files[p].journal.value.previous == PersonalContent(w.disk)
            && e.files[p].journal.value.prior == w.disk.files[p].policy.models
  {
  }

  /** Crash recovery over whole runs.  A deployment reserves the policy in state `w`;
      anything at all happens while it stays pending, including other policies, failing
      calls, crashes and crashed recoveries; then the process dies uncommitted, with no
      fail-safe routing written.  One undisturbed command of the same policy brings
      alias and models back to what they were in `w` and clears the journal. */
  lemma CrashRecoveryRestores(w: World, c: Choice, actions: seq<Action>, op: Op)
    requires Inv(w) && w.process.Some? && w.process.value.pc == Proposing(Reserve)
    requires c.ok && w.disk.files[w.process.value.policy].journal.None? && (op.DeployOp? || op.RollbackOp?)
    requires var p := w.process.value.policy;
             var s := Act(w, Step(c));
             StaysPending(s, actions, p)
    requires var p := w.process.value.policy;
             var f := Exec(Act(w, Step(c)), actions).disk.files[p];
             !CommittedDeploy(f, f.journal.value)
             && f.journal.value.id !in Exec(Act(w, Step(c)), actions).disk.failSafe
    ensures var p := w.process.value.policy;
            var dead := Act(Exec(Act(w, Step(c)), actions), Crash);
            var e := Drive(Act(dead, Start(p, op)), UndoSteps(dead.disk, p)).disk;
            && PersonalContent(e) == PersonalContent(w.disk)
            && p in e.files && e.files[p].policy.models == w.disk.files[p].policy.models
            && e.files[p].journal.None? && e.transition.None?
  {
    var p := w.process.value.policy;
    var s := Act(w, Step(c));
    ActKeeps(w, Step(c));
    ReservationRecords(w, c);
    PendingRemembers(s, actions, p);
    var dead := Act(Exec(s, actions), Crash);
    InvRecoverable(dead.disk, p);
    InterruptedDeploymentRecovers(dead, p, op);
  }

  /** A committed deployment stays committed while it is pending, and the alias keeps
      its verified content throughout. */
  lemma CommitIsNeverUndone(w: World, actions: seq<Action>, p: PolicyId)
    requires Inv(w) && HasDeploy(w.disk, p) && StaysPending(w, actions, p)
    requires CommittedDeploy(w.disk.files[p], w.disk.files[p].journal.value)
    ensures var d := Exec(w, actions).disk;
            && CommittedDeploy(d.files[p], d.files[p].journal.value)
            && PersonalContent(d) == Some(w.disk.files[p].journal.value.candidate)
            && w.disk.files[p].journal.value.candidate in d.trusted
  {
    PendingRemembers(w, actions, p);
    InvRecoverable(Exec(w, actions).disk, p);
  }
}
