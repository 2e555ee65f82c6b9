/** The inductive invariant of the deployment protocol: what holds in every
    reachable state, with a process at any step or none. */
module DeploymentInvariant {
  import opened Options
  import opened DeploymentModel

  predicate HasDeploy(d: Disk, p: PolicyId) {
    p in d.files && d.files[p].journal.Some? && d.files[p].journal.value.DeployJournal?
  }

  /** What the alias holds is something that may be routed to. */
  predicate TrustedPersonal(d: Disk) {
    Personal in d.aliases ==> d.aliases[Personal] in d.trusted
  }

  predicate HasBackup(d: Disk, p: PolicyId, id: DeployId, previous: Option<Content>) {
    previous.Some? ==>
      Get(d, Previous(p, id)) == previous && p in d.files && Previous(p, id) !in d.files[p].ledger
  }

  // ----- the parts of the invariant ----------------------------------------

  /** The single transition record: only its policy may have a deploy journal,
      and no other policy owns the alias while it exists. */
  ghost predicate Linked(d: Disk) {
    && (d.transition.Some? ==>
          var t := d.transition.value;
          && t.policy in d.files && t.id < d.nextId && !ForeignOwner(d, t.policy)
          && (t.phase.Reserving? ==> HasDeploy(d, t.policy))
          && (d.files[t.policy].journal.None? || HasDeploy(d, t.policy)))
    && (forall p <- d.files | HasDeploy(d, p) ::
          d.transition.Some? && d.transition.value.policy == p
          && d.transition.value.id == d.files[p].journal.value.id)
  }

  /** Every candidate alias is named in its policy's cleanup ledger. */
  ghost predicate Ledgered(d: Disk) {
    forall a <- d.aliases | a.Candidate? :: a.policy in d.files && a in d.files[a.policy].ledger
  }

  predicate RollbackOk(f: Files, j: Journal) {
    var onRollback := f.policy.models.code.RollbackModel? && f.policy.models.general.RollbackModel?;
    if f.state.rolledBack == Some(j.id) then
      f.state.policyRevision == f.policy.revision && f.policy.revision == j.lastRevision && onRollback
    else
      || f.policy.models == j.prior
      || (f.policy.source.RollbackSource? && onRollback
          && (f.policy.revision == j.lastRevision || f.policy.revision == j.priorRevision + 1))
  }

  /** What one policy's files satisfy on their own: recorded ids are used ones, the
      ledger never names the personal alias, and a pending rollback can be finished. */
  ghost predicate FileOk(f: Files, p: PolicyId, nextId: DeployId) {
    && (f.state.deployed.Some? ==> f.state.deployed.value < nextId)
    && (f.state.rolledBack.Some? ==> f.state.rolledBack.value < nextId)
    && (f.state.previousModel.Some? ==>
          f.state.previousModel.value.Previous? && f.state.previousModel.value.policy == p
          && f.state.deployed == Some(f.state.previousModel.value.id))
    && (f.journal.Some? ==> f.journal.value.id < nextId)
    && (f.journal.Some? && f.journal.value.RollbackJournal? ==> RollbackOk(f, f.journal.value))
    && (forall a <- f.ledger :: !a.Personal? && a.policy == p && a.id < nextId)
  }

  /** A pending deployment can always be undone or, once committed, finalized. */
  predicate DeployOk(d: Disk, p: PolicyId, j: Journal)
    requires p in d.files && j.DeployJournal?
  {
    var f := d.files[p];
    && (j.previous.Some? ==> j.previous.value in d.trusted)
    && (j.oldRecovery.Some? ==> j.oldRecovery.value.Previous? && j.oldRecovery.value.policy == p
                                && j.oldRecovery.value.id < d.nextId)
    && (if CommittedDeploy(f, j) then
          && PersonalContent(d) == Some(j.candidate) && j.candidate in d.trusted
          && (j.id !in d.failSafe ==>
                f.policy.models == Activated(j.prior) && f.state.policyRevision == f.policy.revision)
        else
          && (|| PersonalContent(d) == j.previous
              || (&& MayHavePublished(j.phase) && PersonalContent(d) == Some(j.candidate)
                  && HasBackup(d, p, j.id, j.previous)))
          && (TrustedPersonal(d) || !NamesPersonal(f.policy.models))
          && (j.id !in d.failSafe ==> PolicyRecoverable(f.policy, j)))
  }

  predicate Holding(d: Disk) {
    d.transition.Some? && HasDeploy(d, d.transition.value.policy)
  }

  /** The endpoint: a pending deployment is in order, and without one the alias is trusted. */
  predicate Settled(d: Disk) {
    if Holding(d) then DeployOk(d, d.transition.value.policy, d.files[d.transition.value.policy].journal.value)
    else TrustedPersonal(d)
  }

  // ----- the running process -----------------------------------------------

  ghost predicate NoCandidates(d: Disk, p: PolicyId) {
    forall a <- d.aliases :: !(a.Candidate? && a.policy == p)
  }

  predicate Entered(d: Disk, pr: Process) {
    && (d.transition.None? || (d.transition.value.policy == pr.policy && HasDeploy(d, pr.policy)))
    && (pr.op.DeployOp? ==> !ForeignOwner(d, pr.policy))
  }

  /** The deployment is over one way or the other: its journal may be cleared. */
  predicate Finished(d: Disk, p: PolicyId)
    requires HasDeploy(d, p)
  {
    var f := d.files[p];
    var j := f.journal.value;
    if CommittedDeploy(f, j) then OwnedBy(d, p)
    else PersonalContent(d) == j.previous && f.policy.models == j.prior
  }

  predicate Mine(d: Disk, pr: Process) {
    && HasDeploy(d, pr.policy)
    && var j := d.files[pr.policy].journal.value;
       j.id == pr.id && j.candidate == pr.candidate && j.previous == pr.previous && j.prior == pr.prior
  }

  /** The candidate exists, is ledgered, and no earlier deployment used this id. */
  predicate Building(d: Disk, pr: Process)
    requires pr.policy in d.files
  {
    && pr.id < d.nextId && pr.id !in d.failSafe
    && d.files[pr.policy].state.deployed != Some(pr.id)
    && Candidate(pr.policy, pr.id) in d.files[pr.policy].ledger
    && Previous(pr.policy, pr.id) !in d.files[pr.policy].ledger
    && !ForeignOwner(d, pr.policy)
  }

  predicate Built(d: Disk, pr: Process)
    requires pr.policy in d.files
  {
    Building(d, pr) && Get(d, Candidate(pr.policy, pr.id)) == Some(pr.candidate)
  }

  predicate PolicyAt(d: Disk, pr: Process, m: Models)
    requires pr.policy in d.files
  {
    d.files[pr.policy].policy.models == m && d.files[pr.policy].policy.revision == pr.revision
  }

  /** This policy may publish: it is the recorded owner of what the alias held when
      the deployment began, or the alias was absent and nobody owned it. */
  predicate Admitted(d: Disk, pr: Process) {
    if d.owner.Some? then d.owner.value.policy == pr.policy && pr.previous == Some(d.owner.value.content)
    else pr.previous.None?
  }

  /** The policy before publication: quiesced if it used the alias, else untouched. */
  predicate Quiet(d: Disk, pr: Process)
    requires pr.policy in d.files
  {
    PolicyAt(d, pr, if pr.mutated then Quiesced(pr.prior) else pr.prior)
    && (!pr.mutated ==> !NamesPersonal(pr.prior))
  }

  /** A committed deployment of this process. */
  predicate Done(d: Disk, pr: Process) {
    HasDeploy(d, pr.policy) && CommittedDeploy(d.files[pr.policy], d.files[pr.policy].journal.value)
    && d.files[pr.policy].journal.value.id == pr.id
  }

  ghost predicate RecoverInv(d: Disk, pr: Process, pc: RecoverPc)
    requires pr.policy in d.files
  {
    var p := pr.policy;
    var f := d.files[p];
    && NoCandidates(d, p)
    && (pr.op.DeployOp? ==> !ForeignOwner(d, p))
    && match pc {
         case Recover => Entered(d, pr)
         case RollbackNote =>
           d.transition.None? && f.journal.Some? && f.journal.value.RollbackJournal?
           && f.policy.models == f.journal.value.prior && f.state.rolledBack != Some(f.journal.value.id)
         case RecoverOwner => HasDeploy(d, p) && CommittedDeploy(f, f.journal.value)
         case RecoverAlias => HasDeploy(d, p) && !CommittedDeploy(f, f.journal.value)
         case RecoverPolicy =>
           HasDeploy(d, p) && !CommittedDeploy(f, f.journal.value)
           && (pr.restored ==> PersonalContent(d) == f.journal.value.previous)
         case RemoveAlias =>
           HasDeploy(d, p) && Finished(d, p)
           && (forall a <- pr.todo :: !a.Personal? && a.policy == p && a.id < d.nextId)
         case RemoveLedger =>
           HasDeploy(d, p) && Finished(d, p) && pr.todo != []
           && (forall a <- pr.todo :: !a.Personal? && a.policy == p && a.id < d.nextId)
       }
  }

  ghost predicate ClearInv(d: Disk, pr: Process, pc: ClearPc)
    requires pr.policy in d.files
  {
    var p := pr.policy;
    var f := d.files[p];
    && (pr.after.InDeploy? ==> pr.id < d.nextId)
    && (pr.after.InRecovery? ==> NoCandidates(d, p) && (pr.op.DeployOp? ==> !ForeignOwner(d, p)))
    && (if pc.ClearTransition? then
          d.transition.Some? && d.transition.value.policy == p && f.journal.None?
        else
          && f.journal.Some?
          && (if f.journal.value.RollbackJournal? then d.transition.None? else Finished(d, p))
          && (pc.ClearFinish? && HasDeploy(d, p) ==> d.transition.Some? && d.transition.value.phase.Clearing?))
  }

  ghost predicate ProposeInv(d: Disk, pr: Process, pc: ProposePc)
    requires pr.policy in d.files
  {
    var p := pr.policy;
    var f := d.files[p];
    match pc
    case Record => d.transition.None? && f.journal.None? && NoCandidates(d, p) && !ForeignOwner(d, p)
    case Create => d.transition.None? && f.journal.None? && NoCandidates(d, p) && Building(d, pr) && !pr.mutated
    case Gate => d.transition.None? && f.journal.None? && Built(d, pr) && !pr.mutated
    case Claim =>
      d.transition.None? && f.journal.None? && Built(d, pr) && !pr.mutated && PersonalContent(d) == pr.previous
    case Reserve =>
      && d.transition == Some(Transition(pr.id, p, Claiming)) && f.journal.None?
      && Built(d, pr) && !pr.mutated && PersonalContent(d) == pr.previous
    case _ =>
      && Mine(d, pr) && Built(d, pr) && !pr.mutated && PolicyAt(d, pr, pr.prior)
      && PersonalContent(d) == pr.previous
      && f.journal.value.lastRevision == pr.revision
      && (pc.AdvanceTransition? || pc.Check? || (pr.previous.Some? && Admitted(d, pr)))
      && (pc.NoteBackedUp? ==> HasBackup(d, p, pr.id, pr.previous))
  }

  /** The alias has not been written yet. */
  predicate Unpublished(pc: PublishPc) {
    pc.Quiesce? || pc.NoteQuiesced? || pc.NotePublishing? || pc.Publish?
  }

  /** The policy has been switched to the personal alias. */
  predicate Switched(pc: PublishPc) {
    pc.NoteActivated? || pc.NoteOld? || pc.CommitState?
  }

  /** The record, the candidate and the backup of this deployment are in place, and the
      endpoint admits it. */
  predicate Underway(d: Disk, pr: Process)
    requires pr.policy in d.files
  {
    Mine(d, pr) && Built(d, pr) && HasBackup(d, pr.policy, pr.id, pr.previous) && Admitted(d, pr)
  }

  /** How far it has come: what the alias holds, which models are in force, and how the
      recorded phase and revision lag behind. */
  predicate Progress(d: Disk, pr: Process, pc: PublishPc)
    requires HasDeploy(d, pr.policy)
  {
    var j := d.files[pr.policy].journal.value;
    && (if Unpublished(pc) then PersonalContent(d) == pr.previous
        else PersonalContent(d) == Some(pr.candidate) && MayHavePublished(j.phase))
    && (if Switched(pc) then pr.mutated && PolicyAt(d, pr, Activated(pr.prior))
        else if pc.Quiesce? then !pr.mutated && PolicyAt(d, pr, pr.prior)
        else Quiet(d, pr))
    && (Switched(pc) || pc.NoteVerified? || pc.Activate? ==> pr.candidate in d.trusted)
    && pr.revision == (if pc.NoteQuiesced? || pc.NoteActivated? then j.lastRevision + 1 else j.lastRevision)
    && (pc.NoteQuiesced? ==> pr.mutated)
    && (pc.Publish? ==> MayHavePublished(j.phase))
  }

  predicate AfterCommit(pc: PublishPc) {
    pc.WriteOwner? || pc.OldRemove? || pc.OldLedger?
  }

  predicate PublishInv(d: Disk, pr: Process, pc: PublishPc)
    requires pr.policy in d.files
  {
    if AfterCommit(pc) then pr.id < d.nextId && Done(d, pr) && (!pc.WriteOwner? ==> OwnedBy(d, pr.policy))
    else Underway(d, pr) && Progress(d, pr, pc)
  }

  ghost predicate UndoInv(d: Disk, pr: Process, pc: UndoPc)
    requires pr.policy in d.files
  {
    var p := pr.policy;
    var f := d.files[p];
    && pr.id < d.nextId
    && (!pc.FinallyRemove? && !pc.FinallyLedger? ==>
          && Mine(d, pr) && !CommittedDeploy(f, f.journal.value)
          && (pc.UndoBackup? || pr.id !in d.failSafe)
          && (pc.UndoBackup? || HasBackup(d, p, pr.id, pr.previous))
          && (!pc.UndoAlias? && pr.restored ==> PersonalContent(d) == pr.previous)
          && (!pc.UndoBackup? && !pr.mutated ==> f.policy.models == pr.prior)
          && (pc.UndoBackup? && pr.restored && pr.clean ==> f.policy.models == pr.prior))
  }

  ghost predicate RollbackInv(d: Disk, pr: Process, pc: RollbackPc)
    requires pr.policy in d.files
  {
    var p := pr.policy;
    var f := d.files[p];
    && d.transition.None? && NoCandidates(d, p)
    && (!pc.RollbackReserve? ==>
          && f.journal.Some? && f.journal.value.RollbackJournal? && f.journal.value.id == pr.id
          && f.policy.revision == pr.revision
          && var j := f.journal.value;
             match pc {
               case RollbackUpdate =>
                 f.policy.models == j.prior && f.state.rolledBack != Some(pr.id) && j.priorRevision == pr.revision
               case RollbackNoteUpdate =>
                 f.policy.models == RolledBack(j.prior) && f.state.rolledBack != Some(pr.id)
                 && f.policy.source.RollbackSource? && j.priorRevision + 1 == pr.revision
               case RollbackState =>
                 f.policy.models == RolledBack(j.prior) && f.state.rolledBack != Some(pr.id)
                 && j.lastRevision == pr.revision
               case _ => true
             })
  }

  ghost predicate ProcessOk(d: Disk, pr: Process) {
    && pr.policy in d.files
    && match pr.pc {
         case Entry(pc) => pc.Prepare? || Entered(d, pr)
         case Recovering(pc) => RecoverInv(d, pr, pc)
         case ClearingJournal(pc) => ClearInv(d, pr, pc)
         case Proposing(pc) => ProposeInv(d, pr, pc)
         case Publishing(pc) => PublishInv(d, pr, pc)
         case Undoing(pc) => UndoInv(d, pr, pc)
         case RollingBack(pc) => RollbackInv(d, pr, pc)
       }
  }

  ghost predicate Base(d: Disk) {
    && Linked(d) && Ledgered(d) && Settled(d)
    && (forall p <- d.files :: FileOk(d.files[p], p, d.nextId))
    && (forall id <- d.failSafe :: id < d.nextId)
  }

  ghost predicate Inv(w: World) {
    Base(w.disk) && (w.process.Some? ==> ProcessOk(w.disk, w.process.value))
  }

  // ----- it is inductive ---------------------------------------------------

  lemma InitInv(w: World)
    requires Init(w)
    ensures Inv(w)
  {
  }

  // How each kind of durable effect keeps the process-independent part.

  lemma AliasesKeep(d: Disk, m: map<Alias, Content>)
    requires Base(d) && Settled(d.(aliases := m))
    requires forall a <- m | a.Candidate? :: a in d.aliases
    ensures Base(d.(aliases := m))
  {
  }

  lemma RemovalKeeps(d: Disk, gone: set<Alias>)
    requires Base(d) && Personal !in gone
    requires Holding(d) ==>
               var p := d.transition.value.policy;
               var j := d.files[p].journal.value;
               || Previous(p, j.id) !in gone || j.previous.None?
               || PersonalContent(d) == j.previous || CommittedDeploy(d.files[p], j)
    ensures Base(d.(aliases := d.aliases - gone))
  {
    var m := d.aliases - gone;
    assert PersonalContent(d.(aliases := m)) == PersonalContent(d);
    AliasesKeep(d, m);
  }

  lemma LedgerKeeps(d: Disk, p: PolicyId, l: set<Alias>)
    requires Base(d) && p in d.files
    requires forall a <- l :: !a.Personal? && a.policy == p && a.id < d.nextId
    requires forall a <- d.files[p].ledger :: a in l || a !in d.aliases
    requires Holding(d) && d.transition.value.policy == p ==>
               var j := d.files[p].journal.value;
               || PersonalContent(d) == j.previous || CommittedDeploy(d.files[p], j)
               || (Previous(p, j.id) in l ==> Previous(p, j.id) in d.files[p].ledger)
    ensures Base(WithLedger(d, p, l))
  {
    var e := WithLedger(d, p, l);
    assert forall q <- e.files | q != p :: e.files[q] == d.files[q];
    assert Holding(e) == Holding(d);
  }

  /** A journal note for a pending deployment. */
  lemma NoteKeeps(d: Disk, pr: Process, c: Choice, phase: Phase, next: Pc, failed: Pc)
    requires Base(d) && Mine(d, pr) && !CommittedDeploy(d.files[pr.policy], d.files[pr.policy].journal.value)
    requires d.files[pr.policy].policy.revision == pr.revision
    requires || PersonalContent(d) == pr.previous
             || (PersonalContent(d) == Some(pr.candidate) && MayHavePublished(phase)
                 && HasBackup(d, pr.policy, pr.id, pr.previous))
    ensures Base(Note(d, pr, c, phase, next, failed).disk)
  {
    var e := Note(d, pr, c, phase, next, failed).disk;
    assert forall q <- e.files | q != pr.policy :: e.files[q] == d.files[q];
  }

  /** A policy update for a pending deployment. */
  lemma PolicyKeeps(d: Disk, p: PolicyId, m: Models, s: Source, written: set<DeployId>)
    requires Base(d) && HasDeploy(d, p)
    requires var j := d.files[p].journal.value;
             var e := WithPolicy(d, p, m, s).(failSafe := d.failSafe + written);
             && written <= {j.id}
             && (if CommittedDeploy(d.files[p], j) then written == {j.id}
                 else (TrustedPersonal(d) || !NamesPersonal(m))
                      && (written == {} ==> m == j.prior || RevisionAllowed(e.files[p].policy, j)))
    ensures Base(WithPolicy(d, p, m, s).(failSafe := d.failSafe + written))
  {
    var e := WithPolicy(d, p, m, s).(failSafe := d.failSafe + written);
    assert forall q <- e.files | q != p :: e.files[q] == d.files[q];
    var j := d.files[p].journal.value;
    assert Settled(d) && Holding(d) && Holding(e);
  }

  lemma FinishKeeps(d: Disk, p: PolicyId)
    requires Base(d) && p in d.files
    requires HasDeploy(d, p) ==> Finished(d, p) && d.transition.value.phase.Clearing?
    ensures Base(WithJournal(d, p, None))
  {
    var e := WithJournal(d, p, None);
    assert forall q <- e.files | q != p :: e.files[q] == d.files[q];
  }

  lemma RecoverCommittedKeeps(d: Disk, pr: Process, c: Choice, j: Journal)
    requires Base(d) && HasDeploy(d, pr.policy) && j == d.files[pr.policy].journal.value
    requires CommittedDeploy(d.files[pr.policy], j)
    ensures Base(RecoverCommitted(d, pr, c, j).disk)
  {
    var e := RecoverCommitted(d, pr, c, j).disk;
    assert forall q <- e.files | q != pr.policy :: e.files[q] == d.files[q];
  }

  lemma RecoverRollbackKeeps(d: Disk, pr: Process, c: Choice, j: Journal)
    requires Base(d) && pr.policy in d.files && d.files[pr.policy].journal == Some(j) && j.RollbackJournal?
    ensures Base(RecoverRollback(d, pr, c, j).disk)
  {
    var e := RecoverRollback(d, pr, c, j).disk;
    assert forall q <- e.files | q != pr.policy :: e.files[q] == d.files[q];
  }

  lemma RecoverRollbackGoes(d: Disk, pr: Process, c: Choice, j: Journal)
    requires pr.policy in d.files && RecoverInv(d, pr, Recover) && d.transition.None?
    requires d.files[pr.policy].journal == Some(j) && j.RollbackJournal? && RollbackOk(d.files[pr.policy], j)
    ensures var w := RecoverRollback(d, pr, c, j); w.process.Some? ==> ProcessOk(w.disk, w.process.value)
  {
  }

  lemma RecoverCommittedGoes(d: Disk, pr: Process, c: Choice, j: Journal)
    requires HasDeploy(d, pr.policy) && j == d.files[pr.policy].journal.value && RecoverInv(d, pr, Recover)
    requires CommittedDeploy(d.files[pr.policy], j)
    ensures var w := RecoverCommitted(d, pr, c, j); w.process.Some? ==> ProcessOk(w.disk, w.process.value)
  {
  }

  lemma RestoreAliasGoes(d: Disk, pr: Process, c: Choice, j: Journal)
    requires HasDeploy(d, pr.policy) && j == d.files[pr.policy].journal.value && RecoverInv(d, pr, RecoverAlias)
    ensures var w := RestoreAlias(d, pr, c, j);
            && w.process.Some? && w.process.value.pc == Recovering(RecoverPolicy)
            && w.process.value.policy == pr.policy
            && w.disk.files == d.files && RecoverInv(w.disk, w.process.value, RecoverPolicy)
  {
    var w := RestoreAlias(d, pr, c, j);
    assert w.disk == d.(aliases := w.disk.aliases);
    assert forall a <- w.disk.aliases | a.Candidate? :: a in d.aliases;
  }

  lemma AfterClear(d: Disk, pr: Process)
    requires Base(d) && pr.policy in d.files && d.transition.None? && d.files[pr.policy].journal.None?
    requires pr.after.InDeploy? ==> pr.id < d.nextId
    requires pr.after.InRecovery? ==> NoCandidates(d, pr.policy) && (pr.op.DeployOp? ==> !ForeignOwner(d, pr.policy))
    ensures Inv(ClearDone(d, pr))
  {
  }

  lemma ClearFails(d: Disk, pr: Process)
    requires Base(d) && pr.policy in d.files && (pr.after.InDeploy? ==> pr.id < d.nextId)
    ensures Inv(ClearFailed(d, pr))
  {
  }

  lemma EnterGoes(d: Disk, pr: Process)
    requires pr.policy in d.files
    ensures AfterPrepare(d, pr).process.Some?
    ensures Entered(d, pr) ==> ProcessOk(AfterPrepare(d, pr).disk, AfterPrepare(d, pr).process.value)
  {
  }

  lemma PrepareKeeps(d: Disk, pr: Process, c: Choice)
    requires Base(d) && pr.policy in d.files
    ensures Base(PrepareStep(d, pr, c).disk)
  {
    var e := d.(transition := None);
    assert d.transition.Some? && d.files[pr.policy].journal.None? && d.transition.value.policy == pr.policy ==> Base(e);
  }

  lemma PrepareGoes(d: Disk, pr: Process, c: Choice)
    requires Linked(d) && pr.policy in d.files
    ensures var w := PrepareStep(d, pr, c); w.process.Some? ==> ProcessOk(w.disk, w.process.value)
  {
    EnterGoes(d, pr);
    EnterGoes(d.(transition := None), pr);
  }

  lemma CleanRemoveKeeps(d: Disk, pr: Process, c: Choice)
    requires Base(d) && pr.policy in d.files && Entered(d, pr)
    ensures Base(CleanRemoveStep(d, pr, c).disk)
  {
    var p := pr.policy;
    var gone := c.removed * d.files[p].ledger;
    assert FileOk(d.files[p], p, d.nextId);
    assert Holding(d) ==> d.transition.value.policy == p;
    RemovalKeeps(d, gone);
  }

  lemma CleanRemoveGoes(d: Disk, pr: Process, c: Choice)
    requires Base(d) && pr.policy in d.files && Entered(d, pr)
    ensures var w := CleanRemoveStep(d, pr, c); w.process.Some? ==> ProcessOk(w.disk, w.process.value)
  {
  }

  lemma CleanForgetKeepsBase(d: Disk, pr: Process, c: Choice)
    requires Base(d) && pr.policy in d.files && Entered(d, pr)
    ensures Base(CleanForgetStep(d, pr, c).disk)
  {
    var l := d.files[pr.policy].ledger;
    var gone := set m | m in l && m !in d.aliases && m in c.removed;
    LedgerKeeps(d, pr.policy, l - gone);
  }

  lemma CleanForgetGoes(d: Disk, pr: Process, c: Choice)
    requires Base(d) && pr.policy in d.files && Entered(d, pr)
    ensures var w := CleanForgetStep(d, pr, c); w.process.Some? ==> ProcessOk(w.disk, w.process.value)
  {
  }

  lemma KeepCleanForget(d: Disk, pr: Process, c: Choice)
    requires Base(d) && pr.policy in d.files && Entered(d, pr)
    ensures Inv(CleanForgetStep(d, pr, c))
  {
    CleanForgetKeepsBase(d, pr, c);
    CleanForgetGoes(d, pr, c);
  }

  lemma KeepAdopt(d: Disk, pr: Process, c: Choice)
    requires Base(d) && pr.policy in d.files && Entered(d, pr)
    ensures Inv(AdoptStep(d, pr, c))
  {
  }

  lemma KeepRelease(d: Disk, pr: Process, c: Choice)
    requires Base(d) && pr.policy in d.files && Entered(d, pr)
    ensures Inv(ReleaseStep(d, pr, c))
  {
  }

  lemma RecoverKeeps(d: Disk, pr: Process, c: Choice)
    requires Base(d) && pr.policy in d.files && RecoverInv(d, pr, Recover)
    ensures Base(RecoverStep(d, pr, c).disk)
  {
    var p := pr.policy;
    if HasDeploy(d, p) {
      var j := d.files[p].journal.value;
      if CommittedDeploy(d.files[p], j) {
        RecoverCommittedKeeps(d, pr, c, j);
      }
    } else if d.files[p].journal.Some? {
      RecoverRollbackKeeps(d, pr, c, d.files[p].journal.value);
    }
  }

  lemma RecoverGoes(d: Disk, pr: Process, c: Choice)
    requires Base(d) && pr.policy in d.files && RecoverInv(d, pr, Recover)
    ensures var w := RecoverStep(d, pr, c); w.process.Some? ==> ProcessOk(w.disk, w.process.value)
  {
    var f := d.files[pr.policy];
    if HasDeploy(d, pr.policy) {
      if CommittedDeploy(f, f.journal.value) {
        RecoverCommittedGoes(d, pr, c, f.journal.value);
      }
    } else if f.journal.Some? {
      RecoverRollbackGoes(d, pr, c, f.journal.value);
    }
  }

  lemma KeepRollbackNote(d: Disk, pr: Process, c: Choice)
    requires Base(d) && pr.policy in d.files && RecoverInv(d, pr, RollbackNote)
    ensures Inv(RollbackNoteStep(d, pr, c))
  {
  }

  lemma KeepRecoverOwner(d: Disk, pr: Process, c: Choice)
    requires Base(d) && pr.policy in d.files && RecoverInv(d, pr, RecoverOwner)
    ensures Inv(RecoverOwnerStep(d, pr, c))
  {
  }

  lemma RecoverAliasKeeps(d: Disk, pr: Process, c: Choice)
    requires Base(d) && pr.policy in d.files && RecoverInv(d, pr, RecoverAlias)
    ensures Base(RecoverAliasStep(d, pr, c).disk)
  {
    var j := d.files[pr.policy].journal.value;
    if j.previous.Some? {
      AliasesKeep(d, d.aliases[Personal := j.previous.value]);
    } else {
      AliasesKeep(d, d.aliases - {Personal});
    }
  }

  lemma RecoverAliasGoes(d: Disk, pr: Process, c: Choice)
    requires Settled(d) && Linked(d) && pr.policy in d.files && RecoverInv(d, pr, RecoverAlias)
    ensures var w := RecoverAliasStep(d, pr, c); w.process.Some? ==> ProcessOk(w.disk, w.process.value)
  {
    RestoreAliasGoes(d, pr, c, d.files[pr.policy].journal.value);
  }

  lemma RecoverPolicyKeepsBase(d: Disk, pr: Process, c: Choice)
    requires Base(d) && pr.policy in d.files && RecoverInv(d, pr, RecoverPolicy)
    ensures Base(RecoverPolicyStep(d, pr, c).disk)
  {
  }

  lemma RecoverPolicyGoes(d: Disk, pr: Process, c: Choice)
    requires Base(d) && pr.policy in d.files && RecoverInv(d, pr, RecoverPolicy)
    ensures var w := RecoverPolicyStep(d, pr, c); w.process.Some? ==> ProcessOk(w.disk, w.process.value)
  {
  }

  lemma KeepRecoverPolicy(d: Disk, pr: Process, c: Choice)
    requires Base(d) && pr.policy in d.files && RecoverInv(d, pr, RecoverPolicy)
    ensures Inv(RecoverPolicyStep(d, pr, c))
  {
    RecoverPolicyKeepsBase(d, pr, c);
    RecoverPolicyGoes(d, pr, c);
  }

  lemma RemoveAliasKeeps(d: Disk, pr: Process, c: Choice)
    requires Base(d) && pr.policy in d.files && RecoverInv(d, pr, RemoveAlias)
    ensures Base(RemoveAliasStep(d, pr, c).disk)
  {
    if pr.todo != [] {
      assert pr.todo[0] in pr.todo;
      RemovalKeeps(d, {pr.todo[0]});
    }
  }

  lemma RemoveAliasGoes(d: Disk, pr: Process, c: Choice)
    requires Linked(d) && pr.policy in d.files && RecoverInv(d, pr, RemoveAlias)
    ensures var w := RemoveAliasStep(d, pr, c); w.process.Some? ==> ProcessOk(w.disk, w.process.value)
  {
    var e := d.(aliases := if pr.todo != [] then d.aliases - {pr.todo[0]} else d.aliases);
    if pr.todo != [] {
      assert pr.todo[0] in pr.todo;
      assert PersonalContent(e) == PersonalContent(d);
    }
  }

  lemma RemoveLedgerKeeps(d: Disk, pr: Process, c: Choice)
    requires Base(d) && pr.policy in d.files && RecoverInv(d, pr, RemoveLedger)
    ensures Base(RemoveLedgerStep(d, pr, c).disk)
  {
    var l := d.files[pr.policy].ledger;
    LedgerKeeps(d, pr.policy, l + {pr.todo[0]});
    if pr.todo[0] !in d.aliases {
      LedgerKeeps(d, pr.policy, l - {pr.todo[0]});
    }
  }

  lemma RemoveLedgerGoes(d: Disk, pr: Process, c: Choice)
    requires Linked(d) && pr.policy in d.files && RecoverInv(d, pr, RemoveLedger)
    ensures var w := RemoveLedgerStep(d, pr, c); w.process.Some? ==> ProcessOk(w.disk, w.process.value)
  {
  }

  lemma ClearMarkKeeps(d: Disk, pr: Process, c: Choice)
    requires Base(d) && pr.policy in d.files && ClearInv(d, pr, ClearMark)
    ensures Base(ClearMarkStep(d, pr, c).disk)
  {
  }

  lemma ClearMarkGoes(d: Disk, pr: Process, c: Choice)
    requires Linked(d) && pr.policy in d.files && ClearInv(d, pr, ClearMark)
    ensures var w := ClearMarkStep(d, pr, c); w.process.Some? ==> ProcessOk(w.disk, w.process.value)
  {
  }

  lemma KeepClearFinish(d: Disk, pr: Process, c: Choice)
    requires Base(d) && pr.policy in d.files && ClearInv(d, pr, ClearFinish)
    ensures Inv(ClearFinishStep(d, pr, c))
  {
    ClearFails(d, pr);
    FinishKeeps(d, pr.policy);
    if d.files[pr.policy].journal.value.RollbackJournal? {
      AfterClear(WithJournal(d, pr.policy, None), pr);
    }
  }

  lemma KeepClearTransition(d: Disk, pr: Process, c: Choice)
    requires Base(d) && pr.policy in d.files && ClearInv(d, pr, ClearTransition)
    ensures Inv(ClearTransitionStep(d, pr, c))
  {
    ClearFails(d, pr);
    AfterClear(d.(transition := None), pr);
  }

  lemma KeepRecord(d: Disk, pr: Process, c: Choice)
    requires Base(d) && pr.policy in d.files && ProposeInv(d, pr, Record)
    ensures Inv(RecordStep(d, pr, c))
  {
  }

  lemma KeepCreate(d: Disk, pr: Process, c: Choice)
    requires Base(d) && pr.policy in d.files && ProposeInv(d, pr, Create)
    ensures Inv(CreateStep(d, pr, c))
  {
  }

  lemma KeepGate(d: Disk, pr: Process, c: Choice)
    requires Base(d) && pr.policy in d.files && ProposeInv(d, pr, Gate)
    ensures Inv(GateStep(d, pr, c))
  {
  }

  lemma KeepClaim(d: Disk, pr: Process, c: Choice)
    requires Base(d) && pr.policy in d.files && ProposeInv(d, pr, Claim)
    ensures Inv(ClaimStep(d, pr, c))
  {
  }

  lemma ReserveKeepsBase(d: Disk, pr: Process, c: Choice)
    requires Base(d) && pr.policy in d.files && ProposeInv(d, pr, Reserve)
    ensures Base(ReserveStep(d, pr, c).disk)
  {
  }

  lemma ReserveGoes(d: Disk, pr: Process, c: Choice)
    requires Base(d) && pr.policy in d.files && ProposeInv(d, pr, Reserve)
    ensures var w := ReserveStep(d, pr, c); w.process.Some? ==> ProcessOk(w.disk, w.process.value)
  {
  }

  lemma KeepReserve(d: Disk, pr: Process, c: Choice)
    requires Base(d) && pr.policy in d.files && ProposeInv(d, pr, Reserve)
    ensures Inv(ReserveStep(d, pr, c))
  {
    ReserveKeepsBase(d, pr, c);
    ReserveGoes(d, pr, c);
  }

  lemma KeepAdvanceTransition(d: Disk, pr: Process, c: Choice)
    requires Base(d) && pr.policy in d.files && ProposeInv(d, pr, AdvanceTransition)
    ensures Inv(AdvanceTransitionStep(d, pr, c))
  {
  }

  lemma KeepCheck(d: Disk, pr: Process, c: Choice)
    requires Base(d) && pr.policy in d.files && ProposeInv(d, pr, Check)
    ensures Inv(CheckStep(d, pr, c))
  {
  }

  lemma KeepBackup(d: Disk, pr: Process, c: Choice)
    requires Base(d) && pr.policy in d.files && ProposeInv(d, pr, Backup)
    ensures Inv(BackupStep(d, pr, c))
  {
  }

  lemma KeepBackupRemove(d: Disk, pr: Process, c: Choice)
    requires Base(d) && pr.policy in d.files && ProposeInv(d, pr, BackupRemove)
    ensures Inv(BackupRemoveStep(d, pr, c))
  {
  }

  lemma KeepBackupLedger(d: Disk, pr: Process, c: Choice)
    requires Base(d) && pr.policy in d.files && ProposeInv(d, pr, BackupLedger)
    ensures Inv(BackupLedgerStep(d, pr, c))
  {
  }

  lemma KeepNoteBackedUp(d: Disk, pr: Process, c: Choice)
    requires Base(d) && pr.policy in d.files && ProposeInv(d, pr, NoteBackedUp)
    ensures Inv(NoteBackedUpStep(d, pr, c))
  {
    NoteKeeps(d, pr, c, BackedUpPhase, Publishing(Quiesce), Undoing(FinallyRemove));
  }

  lemma QuiesceKeeps(d: Disk, pr: Process, c: Choice)
    requires Base(d) && pr.policy in d.files && PublishInv(d, pr, Quiesce)
    ensures Base(QuiesceStep(d, pr, c).disk)
  {
    if NamesPersonal(pr.prior) {
      PolicyKeeps(d, pr.policy, Quiesced(pr.prior), QuiesceSource, {});
    }
  }

  /** Every failure before the commit goes to the unwind. */
  lemma UnwindGoes(d: Disk, pr: Process, pc: PublishPc)
    requires pr.policy in d.files && !AfterCommit(pc) && PublishInv(d, pr, pc)
    ensures ProcessOk(d, pr.(pc := Undoing(UndoAlias)))
  {
  }

  /** A policy update leaves the deployment underway. */
  lemma UpdateUnderway(d: Disk, pr: Process, m: Models, s: Source, next: Process)
    requires pr.policy in d.files && Underway(d, pr)
    requires next == pr.(pc := next.pc, revision := next.revision, mutated := next.mutated)
    ensures Underway(WithPolicy(d, pr.policy, m, s), next)
  {
  }

  lemma QuiesceGoes(d: Disk, pr: Process, c: Choice)
    requires pr.policy in d.files && PublishInv(d, pr, Quiesce)
    ensures var w := QuiesceStep(d, pr, c); w.process.Some? && ProcessOk(w.disk, w.process.value)
  {
    var w := QuiesceStep(d, pr, c);
    if !NamesPersonal(pr.prior) {
      assert Quiet(d, w.process.value);
    } else if w.process.value.pc == Undoing(UndoAlias) {
      UnwindGoes(d, pr, Quiesce);
    } else {
      UpdateUnderway(d, pr, Quiesced(pr.prior), QuiesceSource, w.process.value);
    }
  }

  /** The disk after `advance_journal` has recorded a phase. */
  function Noted(d: Disk, pr: Process, phase: Phase): Disk
    requires HasDeploy(d, pr.policy)
  {
    WithJournal(d, pr.policy,
                Some(d.files[pr.policy].journal.value.(phase := phase, lastRevision := pr.revision)))
  }

  lemma NotedUnderway(d: Disk, pr: Process, phase: Phase, next: Pc)
    requires pr.policy in d.files && Underway(d, pr)
    ensures Underway(Noted(d, pr, phase), pr.(pc := next))
  {
  }

  /** Which phase each note records, and the step it leads to. */
  predicate Notes(pc: PublishPc, phase: Phase, next: PublishPc) {
    || (pc.NoteQuiesced? && phase.QuiescedPhase? && next.NotePublishing?)
    || (pc.NotePublishing? && phase.PublishingPhase? && next.Publish?)
    || (pc.NotePublished? && phase.PublishedPhase? && next.FinalSuite?)
    || (pc.NoteVerified? && phase.VerifiedPhase? && next.Activate?)
    || (pc.NoteActivated? && phase.ActivatedPhase? && next.NoteOld?)
  }

  lemma NotedProgress(d: Disk, pr: Process, pc: PublishPc, phase: Phase, next: PublishPc)
    requires HasDeploy(d, pr.policy) && Progress(d, pr, pc) && Notes(pc, phase, next)
    ensures Progress(Noted(d, pr, phase), pr.(pc := Publishing(next)), next)
  {
    var e := Noted(d, pr, phase);
    assert e.files[pr.policy].policy == d.files[pr.policy].policy && PersonalContent(e) == PersonalContent(d);
  }

  lemma NoteGoes(d: Disk, pr: Process, c: Choice, pc: PublishPc, phase: Phase, next: PublishPc)
    requires pr.policy in d.files && PublishInv(d, pr, pc) && Notes(pc, phase, next)
    ensures var w := Note(d, pr, c, phase, Publishing(next), Undoing(UndoAlias));
            w.process.Some? && ProcessOk(w.disk, w.process.value)
  {
    if c.ok {
      NotedUnderway(d, pr, phase, Publishing(next));
      NotedProgress(d, pr, pc, phase, next);
    } else {
      UnwindGoes(d, pr, pc);
    }
  }

  lemma KeepNoteQuiesced(d: Disk, pr: Process, c: Choice)
    requires Base(d) && pr.policy in d.files && PublishInv(d, pr, NoteQuiesced)
    ensures Inv(NoteQuiescedStep(d, pr, c))
  {
    NoteKeeps(d, pr, c, QuiescedPhase, Publishing(NotePublishing), Undoing(UndoAlias));
    NoteGoes(d, pr, c, NoteQuiesced, QuiescedPhase, NotePublishing);
  }

  lemma NotePublishingKeepsBase(d: Disk, pr: Process, c: Choice)
    requires Base(d) && pr.policy in d.files && PublishInv(d, pr, NotePublishing)
    ensures Base(NotePublishingStep(d, pr, c).disk)
  {
    NoteKeeps(d, pr, c, PublishingPhase, Publishing(Publish), Undoing(UndoAlias));
  }

  lemma NotePublishingGoes(d: Disk, pr: Process, c: Choice)
    requires pr.policy in d.files && PublishInv(d, pr, NotePublishing)
    ensures var w := NotePublishingStep(d, pr, c); w.process.Some? && ProcessOk(w.disk, w.process.value)
  {
    NoteGoes(d, pr, c, NotePublishing, PublishingPhase, Publish);
  }

  lemma KeepNotePublishing(d: Disk, pr: Process, c: Choice)
    requires Base(d) && pr.policy in d.files && PublishInv(d, pr, NotePublishing)
    ensures Inv(NotePublishingStep(d, pr, c))
  {
    NotePublishingKeepsBase(d, pr, c);
    NotePublishingGoes(d, pr, c);
  }

  lemma PublishKeepsBase(d: Disk, pr: Process, c: Choice)
    requires Base(d) && pr.policy in d.files && PublishInv(d, pr, Publish)
    ensures Base(PublishStep(d, pr, c).disk)
  {
  }

  lemma PublishGoes(d: Disk, pr: Process, c: Choice)
    requires Base(d) && pr.policy in d.files && PublishInv(d, pr, Publish)
    ensures var w := PublishStep(d, pr, c); w.process.Some? ==> ProcessOk(w.disk, w.process.value)
  {
    var w := PublishStep(d, pr, c);
    assert w.disk.files == d.files && w.disk.owner == d.owner;
  }

  lemma KeepPublish(d: Disk, pr: Process, c: Choice)
    requires Base(d) && pr.policy in d.files && PublishInv(d, pr, Publish)
    ensures Inv(PublishStep(d, pr, c))
  {
    PublishKeepsBase(d, pr, c);
    PublishGoes(d, pr, c);
  }

  lemma NotePublishedKeeps(d: Disk, pr: Process, c: Choice)
    requires Base(d) && pr.policy in d.files && PublishInv(d, pr, NotePublished)
    ensures Base(NotePublishedStep(d, pr, c).disk)
  {
    NoteKeeps(d, pr, c, PublishedPhase, Publishing(FinalSuite), Undoing(UndoAlias));
  }

  lemma NotePublishedGoes(d: Disk, pr: Process, c: Choice)
    requires pr.policy in d.files && PublishInv(d, pr, NotePublished)
    ensures var w := NotePublishedStep(d, pr, c); w.process.Some? && ProcessOk(w.disk, w.process.value)
  {
    NoteGoes(d, pr, c, NotePublished, PublishedPhase, FinalSuite);
  }

  lemma FinalSuiteKeeps(d: Disk, pr: Process, c: Choice)
    requires Base(d) && pr.policy in d.files && PublishInv(d, pr, FinalSuite)
    ensures Base(FinalSuiteStep(d, pr, c).disk)
  {
  }

  lemma FinalSuiteGoes(d: Disk, pr: Process, c: Choice)
    requires pr.policy in d.files && PublishInv(d, pr, FinalSuite)
    ensures var w := FinalSuiteStep(d, pr, c); w.process.Some? && ProcessOk(w.disk, w.process.value)
  {
    if FinalSuiteStep(d, pr, c).process.value.pc == Undoing(UndoAlias) {
      UnwindGoes(d, pr, FinalSuite);
    }
  }

  lemma NoteVerifiedKeeps(d: Disk, pr: Process, c: Choice)
    requires Base(d) && pr.policy in d.files && PublishInv(d, pr, NoteVerified)
    ensures Base(NoteVerifiedStep(d, pr, c).disk)
  {
    NoteKeeps(d, pr, c, VerifiedPhase, Publishing(Activate), Undoing(UndoAlias));
  }

  lemma NoteVerifiedGoes(d: Disk, pr: Process, c: Choice)
    requires pr.policy in d.files && PublishInv(d, pr, NoteVerified)
    ensures var w := NoteVerifiedStep(d, pr, c); w.process.Some? && ProcessOk(w.disk, w.process.value)
  {
    NoteGoes(d, pr, c, NoteVerified, VerifiedPhase, Activate);
  }

  lemma ActivateKeeps(d: Disk, pr: Process, c: Choice)
    requires Base(d) && pr.policy in d.files && PublishInv(d, pr, Activate)
    ensures Base(ActivateStep(d, pr, c).disk)
  {
    PolicyKeeps(d, pr.policy, Activated(pr.prior), ActivationSource, {});
  }

  lemma ActivateGoes(d: Disk, pr: Process, c: Choice)
    requires pr.policy in d.files && PublishInv(d, pr, Activate)
    ensures var w := ActivateStep(d, pr, c); w.process.Some? && ProcessOk(w.disk, w.process.value)
  {
    var w := ActivateStep(d, pr, c);
    if w.process.value.pc == Undoing(UndoAlias) {
      UnwindGoes(d, pr, Activate);
    } else {
      UpdateUnderway(d, pr, Activated(pr.prior), ActivationSource, w.process.value);
    }
  }

  lemma KeepNoteActivated(d: Disk, pr: Process, c: Choice)
    requires Base(d) && pr.policy in d.files && PublishInv(d, pr, NoteActivated)
    ensures Inv(NoteActivatedStep(d, pr, c))
  {
    NoteKeeps(d, pr, c, ActivatedPhase, Publishing(NoteOld), Undoing(UndoAlias));
    NoteGoes(d, pr, c, NoteActivated, ActivatedPhase, NoteOld);
  }

  lemma NoteOldKeeps(d: Disk, pr: Process, c: Choice)
    requires Base(d) && pr.policy in d.files && PublishInv(d, pr, NoteOld)
    ensures Base(NoteOldStep(d, pr, c).disk)
  {
  }

  lemma NoteOldGoes(d: Disk, pr: Process, c: Choice)
    requires pr.policy in d.files && PublishInv(d, pr, NoteOld)
    ensures var w := NoteOldStep(d, pr, c); w.process.Some? && ProcessOk(w.disk, w.process.value)
  {
    if NoteOldStep(d, pr, c).process.value.pc == Undoing(UndoAlias) {
      UnwindGoes(d, pr, NoteOld);
    }
  }

  lemma CommitStateKeepsBase(d: Disk, pr: Process, c: Choice)
    requires Base(d) && pr.policy in d.files && PublishInv(d, pr, CommitState)
    ensures Base(CommitStateStep(d, pr, c).disk)
  {
  }

  lemma CommitStateGoes(d: Disk, pr: Process, c: Choice)
    requires Base(d) && pr.policy in d.files && PublishInv(d, pr, CommitState)
    ensures var w := CommitStateStep(d, pr, c); w.process.Some? ==> ProcessOk(w.disk, w.process.value)
  {
  }

  lemma KeepCommitState(d: Disk, pr: Process, c: Choice)
    requires Base(d) && pr.policy in d.files && PublishInv(d, pr, CommitState)
    ensures Inv(CommitStateStep(d, pr, c))
  {
    CommitStateKeepsBase(d, pr, c);
    CommitStateGoes(d, pr, c);
  }

  lemma KeepWriteOwner(d: Disk, pr: Process, c: Choice)
    requires Base(d) && pr.policy in d.files && PublishInv(d, pr, WriteOwner)
    ensures Inv(WriteOwnerStep(d, pr, c))
  {
  }

  lemma OldRemoveKeeps(d: Disk, pr: Process, c: Choice)
    requires Base(d) && pr.policy in d.files && PublishInv(d, pr, OldRemove)
    ensures Base(OldRemoveStep(d, pr, c).disk)
  {
    var j := d.files[pr.policy].journal.value;
    if j.oldRecovery.Some? {
      RemovalKeeps(d, {j.oldRecovery.value});
    }
  }

  lemma CommittedClears(d: Disk, pr: Process, pc: PublishPc)
    requires pr.policy in d.files && PublishInv(d, pr, pc) && (pc.OldRemove? || pc.OldLedger?)
    ensures ProcessOk(d, pr.(after := InDeploy, pc := ClearingJournal(ClearMark)))
    ensures ProcessOk(d, pr.(pc := Undoing(FinallyRemove)))
  {
  }

  lemma OldRemoveGoes(d: Disk, pr: Process, c: Choice)
    requires pr.policy in d.files && PublishInv(d, pr, OldRemove)
    ensures var w := OldRemoveStep(d, pr, c); w.process.Some? && ProcessOk(w.disk, w.process.value)
  {
    var w := OldRemoveStep(d, pr, c);
    if w.process.value.pc.Publishing? {
      assert w.disk.files == d.files && w.disk.owner == d.owner && w.disk.nextId == d.nextId;
    } else {
      CommittedClears(d, pr, OldRemove);
    }
  }

  lemma OldLedgerKeeps(d: Disk, pr: Process, c: Choice)
    requires Base(d) && pr.policy in d.files && PublishInv(d, pr, OldLedger)
    ensures Base(OldLedgerStep(d, pr, c).disk)
  {
    var j := d.files[pr.policy].journal.value;
    if j.oldRecovery.Some? {
      LedgerKeeps(d, pr.policy, d.files[pr.policy].ledger + {j.oldRecovery.value});
    }
  }

  lemma LedgerStaysCommitted(d: Disk, pr: Process, l: set<Alias>)
    requires pr.policy in d.files && PublishInv(d, pr, OldLedger)
    ensures PublishInv(WithLedger(d, pr.policy, l), pr, OldLedger)
  {
  }

  lemma OldLedgerGoes(d: Disk, pr: Process, c: Choice)
    requires pr.policy in d.files && PublishInv(d, pr, OldLedger)
    ensures var w := OldLedgerStep(d, pr, c); w.process.Some? && ProcessOk(w.disk, w.process.value)
  {
    var f := d.files[pr.policy];
    CommittedClears(d, pr, OldLedger);
    if f.journal.value.oldRecovery.Some? {
      var l := f.ledger + {f.journal.value.oldRecovery.value};
      LedgerStaysCommitted(d, pr, l);
      CommittedClears(WithLedger(d, pr.policy, l), pr, OldLedger);
    }
  }

  lemma UndoAliasKeeps(d: Disk, pr: Process, c: Choice)
    requires Base(d) && pr.policy in d.files && UndoInv(d, pr, UndoAlias)
    ensures Base(UndoAliasStep(d, pr, c).disk)
  {
    if pr.previous.Some? {
      AliasesKeep(d, d.aliases[Personal := pr.previous.value]);
    } else {
      AliasesKeep(d, d.aliases - {Personal});
    }
  }

  /** Writing or removing the personal alias leaves the backup in place. */
  lemma BackupSurvives(d: Disk, m: map<Alias, Content>, p: PolicyId, id: DeployId, previous: Option<Content>)
    requires HasBackup(d, p, id, previous)
    requires forall a | a != Personal :: (a in m <==> a in d.aliases) && (a in m ==> m[a] == d.aliases[a])
    ensures HasBackup(d.(aliases := m), p, id, previous)
  {
  }

  lemma UndoAliasGoes(d: Disk, pr: Process, c: Choice)
    requires pr.policy in d.files && UndoInv(d, pr, UndoAlias)
    ensures var w := UndoAliasStep(d, pr, c);
            && w.process.Some? && w.process.value.pc == Undoing(UndoPolicy)
            && w.process.value.policy in w.disk.files && UndoInv(w.disk, w.process.value, UndoPolicy)
  {
    var w := UndoAliasStep(d, pr, c);
    assert w.disk.files == d.files && w.disk == d.(aliases := w.disk.aliases);
    BackupSurvives(d, w.disk.aliases, pr.policy, pr.id, pr.previous);
  }

  lemma KeepUndoAlias(d: Disk, pr: Process, c: Choice)
    requires Base(d) && pr.policy in d.files && UndoInv(d, pr, UndoAlias)
    ensures Inv(UndoAliasStep(d, pr, c))
  {
    UndoAliasKeeps(d, pr, c);
    UndoAliasGoes(d, pr, c);
  }

  lemma UndoPolicyKeeps(d: Disk, pr: Process, c: Choice)
    requires Base(d) && pr.policy in d.files && UndoInv(d, pr, UndoPolicy)
    ensures Base(UndoPolicyStep(d, pr, c).disk)
  {
    var f := d.files[pr.policy];
    if pr.restored {
      PolicyKeeps(d, pr.policy, pr.prior, RestoreSource, {});
    } else {
      PolicyKeeps(d, pr.policy, FailSafe(f.policy.models), FailSafeSource, {pr.id});
    }
  }

  lemma UndoPolicyGoes(d: Disk, pr: Process, c: Choice)
    requires Linked(d) && pr.policy in d.files && UndoInv(d, pr, UndoPolicy)
    ensures var w := UndoPolicyStep(d, pr, c); w.process.Some? ==> ProcessOk(w.disk, w.process.value)
  {
  }

  lemma KeepUndoBackup(d: Disk, pr: Process, c: Choice)
    requires Base(d) && pr.policy in d.files && UndoInv(d, pr, UndoBackup)
    ensures Inv(UndoBackupStep(d, pr, c))
  {
    if pr.restored {
      RemovalKeeps(d, {Previous(pr.policy, pr.id)});
    }
  }

  lemma KeepFinallyRemove(d: Disk, pr: Process, c: Choice)
    requires Base(d) && pr.policy in d.files && UndoInv(d, pr, FinallyRemove)
    ensures Inv(FinallyRemoveStep(d, pr, c))
  {
    RemovalKeeps(d, {Candidate(pr.policy, pr.id)});
  }

  lemma KeepFinallyLedger(d: Disk, pr: Process, c: Choice)
    requires Base(d) && pr.policy in d.files && UndoInv(d, pr, FinallyLedger)
    ensures Inv(FinallyLedgerStep(d, pr, c))
  {
    var l := d.files[pr.policy].ledger;
    var a := Candidate(pr.policy, pr.id);
    LedgerKeeps(d, pr.policy, l + {a});
    if a !in d.aliases {
      LedgerKeeps(d, pr.policy, l - {a});
    }
  }

  lemma KeepRollbackReserve(d: Disk, pr: Process, c: Choice)
    requires Base(d) && pr.policy in d.files && RollbackInv(d, pr, RollbackReserve)
    ensures Inv(RollbackReserveStep(d, pr, c))
  {
  }

  lemma RollbackUpdateKeepsBase(d: Disk, pr: Process, c: Choice)
    requires Base(d) && pr.policy in d.files && RollbackInv(d, pr, RollbackUpdate)
    ensures Base(RollbackUpdateStep(d, pr, c).disk)
  {
  }

  lemma RollbackUpdateGoes(d: Disk, pr: Process, c: Choice)
    requires Base(d) && pr.policy in d.files && RollbackInv(d, pr, RollbackUpdate)
    ensures var w := RollbackUpdateStep(d, pr, c); w.process.Some? ==> ProcessOk(w.disk, w.process.value)
  {
  }

  lemma KeepRollbackUpdate(d: Disk, pr: Process, c: Choice)
    requires Base(d) && pr.policy in d.files && RollbackInv(d, pr, RollbackUpdate)
    ensures Inv(RollbackUpdateStep(d, pr, c))
  {
    RollbackUpdateKeepsBase(d, pr, c);
    RollbackUpdateGoes(d, pr, c);
  }

  lemma RollbackNoteUpdateKeepsBase(d: Disk, pr: Process, c: Choice)
    requires Base(d) && pr.policy in d.files && RollbackInv(d, pr, RollbackNoteUpdate)
    ensures Base(RollbackNoteUpdateStep(d, pr, c).disk)
  {
  }

  lemma RollbackNoteUpdateGoes(d: Disk, pr: Process, c: Choice)
    requires Base(d) && pr.policy in d.files && RollbackInv(d, pr, RollbackNoteUpdate)
    ensures var w := RollbackNoteUpdateStep(d, pr, c); w.process.Some? ==> ProcessOk(w.disk, w.process.value)
  {
  }

  lemma KeepRollbackNoteUpdate(d: Disk, pr: Process, c: Choice)
    requires Base(d) && pr.policy in d.files && RollbackInv(d, pr, RollbackNoteUpdate)
    ensures Inv(RollbackNoteUpdateStep(d, pr, c))
  {
    RollbackNoteUpdateKeepsBase(d, pr, c);
    RollbackNoteUpdateGoes(d, pr, c);
  }

  lemma RollbackStateKeepsBase(d: Disk, pr: Process, c: Choice)
    requires Base(d) && pr.policy in d.files && RollbackInv(d, pr, RollbackState)
    ensures Base(RollbackStateStep(d, pr, c).disk)
  {
  }

  lemma RollbackStateGoes(d: Disk, pr: Process, c: Choice)
    requires Base(d) && pr.policy in d.files && RollbackInv(d, pr, RollbackState)
    ensures var w := RollbackStateStep(d, pr, c); w.process.Some? ==> ProcessOk(w.disk, w.process.value)
  {
  }

  lemma KeepRollbackState(d: Disk, pr: Process, c: Choice)
    requires Base(d) && pr.policy in d.files && RollbackInv(d, pr, RollbackState)
    ensures Inv(RollbackStateStep(d, pr, c))
  {
    RollbackStateKeepsBase(d, pr, c);
    RollbackStateGoes(d, pr, c);
  }

  lemma RollbackNoteCommitKeepsBase(d: Disk, pr: Process, c: Choice)
    requires Base(d) && pr.policy in d.files && RollbackInv(d, pr, RollbackNoteCommit)
    ensures Base(RollbackNoteCommitStep(d, pr, c).disk)
  {
  }

  lemma RollbackNoteCommitGoes(d: Disk, pr: Process, c: Choice)
    requires Base(d) && pr.policy in d.files && RollbackInv(d, pr, RollbackNoteCommit)
    ensures var w := RollbackNoteCommitStep(d, pr, c); w.process.Some? ==> ProcessOk(w.disk, w.process.value)
  {
  }

  lemma KeepRollbackNoteCommit(d: Disk, pr: Process, c: Choice)
    requires Base(d) && pr.policy in d.files && RollbackInv(d, pr, RollbackNoteCommit)
    ensures Inv(RollbackNoteCommitStep(d, pr, c))
  {
    RollbackNoteCommitKeepsBase(d, pr, c);
    RollbackNoteCommitGoes(d, pr, c);
  }

  lemma EntryKeeps(d: Disk, pr: Process, c: Choice)
    requires Base(d) && ProcessOk(d, pr) && pr.pc.Entry?
    ensures Inv(StepEntry(d, pr, pr.pc.entry, c))
  {
    match pr.pc.entry {
      case Prepare => PrepareKeeps(d, pr, c); PrepareGoes(d, pr, c);
      case CleanRemove => CleanRemoveKeeps(d, pr, c); CleanRemoveGoes(d, pr, c);
      case CleanForget => KeepCleanForget(d, pr, c);
      case Adopt => KeepAdopt(d, pr, c);
      case Release => KeepRelease(d, pr, c);
    }
  }

  lemma RecoveringKeeps(d: Disk, pr: Process, c: Choice)
    requires Base(d) && ProcessOk(d, pr) && pr.pc.Recovering?
    ensures Inv(StepRecover(d, pr, pr.pc.recover, c))
  {
    match pr.pc.recover {
      case Recover => RecoverKeeps(d, pr, c); RecoverGoes(d, pr, c);
      case RollbackNote => KeepRollbackNote(d, pr, c);
      case RecoverOwner => KeepRecoverOwner(d, pr, c);
      case RecoverAlias => RecoverAliasKeeps(d, pr, c); RecoverAliasGoes(d, pr, c);
      case RecoverPolicy => KeepRecoverPolicy(d, pr, c);
      case RemoveAlias => RemoveAliasKeeps(d, pr, c); RemoveAliasGoes(d, pr, c);
      case RemoveLedger => RemoveLedgerKeeps(d, pr, c); RemoveLedgerGoes(d, pr, c);
    }
  }

  lemma ClearingJournalKeeps(d: Disk, pr: Process, c: Choice)
    requires Base(d) && ProcessOk(d, pr) && pr.pc.ClearingJournal?
    ensures Inv(StepClear(d, pr, pr.pc.clear, c))
  {
    match pr.pc.clear {
      case ClearMark => ClearMarkKeeps(d, pr, c); ClearMarkGoes(d, pr, c);
      case ClearFinish => KeepClearFinish(d, pr, c);
      case ClearTransition => KeepClearTransition(d, pr, c);
    }
  }

  lemma ProposingKeeps(d: Disk, pr: Process, c: Choice)
    requires Base(d) && ProcessOk(d, pr) && pr.pc.Proposing?
    ensures Inv(StepPropose(d, pr, pr.pc.propose, c))
  {
    match pr.pc.propose {
      case Record => KeepRecord(d, pr, c);
      case Create => KeepCreate(d, pr, c);
      case Gate => KeepGate(d, pr, c);
      case Claim => KeepClaim(d, pr, c);
      case Reserve => KeepReserve(d, pr, c);
      case AdvanceTransition => KeepAdvanceTransition(d, pr, c);
      case Check => KeepCheck(d, pr, c);
      case Backup => KeepBackup(d, pr, c);
      case BackupRemove => KeepBackupRemove(d, pr, c);
      case BackupLedger => KeepBackupLedger(d, pr, c);
      case NoteBackedUp => KeepNoteBackedUp(d, pr, c);
    }
  }

  lemma BeforePublishKeeps(d: Disk, pr: Process, c: Choice)
    requires Base(d) && ProcessOk(d, pr) && pr.pc.Publishing? && Unpublished(pr.pc.publish)
    ensures Inv(StepPublish(d, pr, pr.pc.publish, c))
  {
    match pr.pc.publish {
      case Quiesce => QuiesceKeeps(d, pr, c); QuiesceGoes(d, pr, c);
      case NoteQuiesced => KeepNoteQuiesced(d, pr, c);
      case NotePublishing => KeepNotePublishing(d, pr, c);
      case Publish => KeepPublish(d, pr, c);
    }
  }

  lemma PublishingKeeps(d: Disk, pr: Process, c: Choice)
    requires Base(d) && ProcessOk(d, pr) && pr.pc.Publishing?
    ensures Inv(StepPublish(d, pr, pr.pc.publish, c))
  {
    match pr.pc.publish {
      case NotePublished => NotePublishedKeeps(d, pr, c); NotePublishedGoes(d, pr, c);
      case FinalSuite => FinalSuiteKeeps(d, pr, c); FinalSuiteGoes(d, pr, c);
      case NoteVerified => NoteVerifiedKeeps(d, pr, c); NoteVerifiedGoes(d, pr, c);
      case Activate => ActivateKeeps(d, pr, c); ActivateGoes(d, pr, c);
      case NoteActivated => KeepNoteActivated(d, pr, c);
      case NoteOld => NoteOldKeeps(d, pr, c); NoteOldGoes(d, pr, c);
      case CommitState => KeepCommitState(d, pr, c);
      case WriteOwner => KeepWriteOwner(d, pr, c);
      case OldRemove => OldRemoveKeeps(d, pr, c); OldRemoveGoes(d, pr, c);
      case OldLedger => OldLedgerKeeps(d, pr, c); OldLedgerGoes(d, pr, c);
      case _ => BeforePublishKeeps(d, pr, c);
    }
  }

  lemma UndoingKeeps(d: Disk, pr: Process, c: Choice)
    requires Base(d) && ProcessOk(d, pr) && pr.pc.Undoing?
    ensures Inv(StepUndo(d, pr, pr.pc.undo, c))
  {
    match pr.pc.undo {
      case UndoAlias => KeepUndoAlias(d, pr, c);
      case UndoPolicy => UndoPolicyKeeps(d, pr, c); UndoPolicyGoes(d, pr, c);
      case UndoBackup => KeepUndoBackup(d, pr, c);
      case FinallyRemove => KeepFinallyRemove(d, pr, c);
      case FinallyLedger => KeepFinallyLedger(d, pr, c);
    }
  }

  lemma RollingBackKeeps(d: Disk, pr: Process, c: Choice)
    requires Base(d) && ProcessOk(d, pr) && pr.pc.RollingBack?
    ensures Inv(StepRollback(d, pr, pr.pc.rollback, c))
  {
    match pr.pc.rollback {
      case RollbackReserve => KeepRollbackReserve(d, pr, c);
      case RollbackUpdate => KeepRollbackUpdate(d, pr, c);
      case RollbackNoteUpdate => KeepRollbackNoteUpdate(d, pr, c);
      case RollbackState => KeepRollbackState(d, pr, c);
      case RollbackNoteCommit => KeepRollbackNoteCommit(d, pr, c);
    }
  }

  lemma StepKeeps(d: Disk, pr: Process, c: Choice)
    requires Base(d) && ProcessOk(d, pr)
    ensures Inv(StepProcess(d, pr, c))
  {
    match pr.pc {
      case Entry(_) => EntryKeeps(d, pr, c);
      case Recovering(_) => RecoveringKeeps(d, pr, c);
      case ClearingJournal(_) => ClearingJournalKeeps(d, pr, c);
      case Proposing(_) => ProposingKeeps(d, pr, c);
      case Publishing(_) => PublishingKeeps(d, pr, c);
      case Undoing(_) => UndoingKeeps(d, pr, c);
      case RollingBack(_) => RollingBackKeeps(d, pr, c);
    }
  }

  /** Changing the policy or the state of a policy with nothing pending. */
  lemma QuietFileKeeps(d: Disk, p: PolicyId, f: Files)
    requires Base(d) && p in d.files && d.files[p].journal.None?
    requires f.journal.None? && f.ledger == d.files[p].ledger
    requires f.state == d.files[p].state || f.state == TrainingState(None, None, 0, None)
    ensures Base(WithFiles(d, p, f))
  {
    var e := WithFiles(d, p, f);
    assert forall q <- e.files | q != p :: e.files[q] == d.files[q];
    assert Holding(e) == Holding(d);
  }

  lemma QuietFileGoes(d: Disk, p: PolicyId, f: Files, pr: Process)
    requires ProcessOk(d, pr) && p in d.files && d.files[p].journal.None?
    requires f.journal.None? && f.ledger == d.files[p].ledger && f.state == d.files[p].state
    ensures ProcessOk(WithFiles(d, p, f), pr)
  {
    var e := WithFiles(d, p, f);
    assert HasDeploy(e, pr.policy) == HasDeploy(d, pr.policy) && PersonalContent(e) == PersonalContent(d);
    match pr.pc {
      case Proposing(_) => assert p == pr.policy || e.files[pr.policy] == d.files[pr.policy];
      case _ =>
    }
  }

  lemma UserKeeps(w: World, p: PolicyId, m: Models)
    requires Inv(w) && p in w.disk.files && w.disk.files[p].journal.None?
    ensures Inv(World(WithPolicy(w.disk, p, m, UserSource), w.process))
  {
    var f := w.disk.files[p];
    var f1 := f.(policy := Policy(m, f.policy.revision + 1, UserSource));
    assert WithPolicy(w.disk, p, m, UserSource) == WithFiles(w.disk, p, f1);
    QuietFileKeeps(w.disk, p, f1);
    if w.process.Some? {
      QuietFileGoes(w.disk, p, f1, w.process.value);
    }
  }

  lemma ActKeeps(w: World, a: Action)
    requires Inv(w)
    ensures Inv(Act(w, a))
  {
    match a {
      case Start(p, op) =>
      case Step(c) => if w.process.Some? { StepKeeps(w.disk, w.process.value, c); }
      case Crash =>
      case UserUpdate(p, m) =>
        if p in w.disk.files && w.disk.files[p].journal.None? {
          UserKeeps(w, p, m);
        }
      case StartTraining(p) =>
        if p in w.disk.files && w.disk.files[p].journal.None? {
          QuietFileKeeps(w.disk, p, w.disk.files[p].(state := TrainingState(None, None, 0, None)));
        }
    }
  }

  /** Every reachable state satisfies the invariant. */
  lemma ExecKeeps(w: World, actions: seq<Action>)
    requires Inv(w)
    ensures Inv(Exec(w, actions))
  {
    if actions != [] {
      ExecKeeps(w, actions[..|actions| - 1]);
      ActKeeps(Exec(w, actions[..|actions| - 1]), actions[|actions| - 1]);
    }
  }
}
