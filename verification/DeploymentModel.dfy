/** The personal-model deployment protocol as a state machine.

    Several runtime policies share one Ollama endpoint.  Each policy has its own
    policy file, transition journal, cleanup ledger and training-state file; the
    endpoint has the aliases, one transition record and one owner record.  A
    lifecycle command holds the endpoint lock, so at most one process is active,
    and a crash only forgets that process: every file keeps its last content.

    One step is one durable effect together with the probes that lead to it.
    Every external outcome is an input (`Choice`): Ollama calls may fail after or
    without taking effect, probes may be unreadable, file writes may fail, and the
    behaviour suites may say no.  Identities and digests are opaque contents. */
module DeploymentModel {
  import opened Options

  type PolicyId = nat
  type DeployId = nat
  type Content = nat

  datatype Alias =
    | Personal
    | Candidate(policy: PolicyId, id: DeployId)
    | Previous(policy: PolicyId, id: DeployId)

  datatype Model = PersonalModel | RollbackModel | OtherModel(name: nat)

  /** The five local tiers of a policy. */
  datatype Models = Models(fast: Model, code: Model, general: Model, reasoning: Model, vision: Model)

  predicate NamesPersonal(m: Models) {
    m.fast.PersonalModel? || m.code.PersonalModel? || m.general.PersonalModel?
    || m.reasoning.PersonalModel? || m.vision.PersonalModel?
  }

  function OffPersonal(m: Model): Model {
    if m.PersonalModel? then RollbackModel else m
  }

  /** Every tier on the personal alias is moved to the rollback model. */
  function Quiesced(m: Models): Models {
    Models(OffPersonal(m.fast), OffPersonal(m.code), OffPersonal(m.general),
           OffPersonal(m.reasoning), OffPersonal(m.vision))
  }

  function RolledBack(m: Models): Models {
    m.(code := RollbackModel, general := RollbackModel)
  }

  function FailSafe(m: Models): Models {
    RolledBack(Quiesced(m))
  }

  function Activated(m: Models): Models {
    m.(code := PersonalModel, general := PersonalModel)
  }

  /** An unprivileged policy update may keep or drop the personal alias, never add it. */
  predicate UserMay(before: Models, after: Models) {
    && (after.fast.PersonalModel? ==> before.fast.PersonalModel?)
    && (after.code.PersonalModel? ==> before.code.PersonalModel?)
    && (after.general.PersonalModel? ==> before.general.PersonalModel?)
    && (after.reasoning.PersonalModel? ==> before.reasoning.PersonalModel?)
    && (after.vision.PersonalModel? ==> before.vision.PersonalModel?)
  }

  datatype Source =
    | UserSource | QuiesceSource | ActivationSource | RestoreSource | FailSafeSource
    | RecoverySource | RollbackSource | RollbackRestoreSource

  datatype Policy = Policy(models: Models, revision: nat, source: Source)

  datatype Phase =
    | ReservedPhase | BackedUpPhase | QuiescedPhase | PublishingPhase | PublishedPhase
    | VerifiedPhase | ActivatedPhase | PolicyUpdatedPhase | CommittedPhase

  datatype Journal =
    | DeployJournal(id: DeployId, phase: Phase, prior: Models, priorRevision: nat, lastRevision: nat,
                    candidate: Content, previous: Option<Content>, oldRecovery: Option<Alias>)
    | RollbackJournal(id: DeployId, phase: Phase, prior: Models, priorRevision: nat, lastRevision: nat)

  predicate MayHavePublished(phase: Phase) {
    phase.PublishingPhase? || phase.PublishedPhase? || phase.VerifiedPhase?
    || phase.ActivatedPhase? || phase.CommittedPhase?
  }

  datatype TransitionPhase = Claiming | Reserving | Clearing
  datatype Transition = Transition(id: DeployId, policy: PolicyId, phase: TransitionPhase)

  datatype Owner = Owner(policy: PolicyId, content: Content)

  datatype TrainingState = TrainingState(
    deployed: Option<DeployId>, rolledBack: Option<DeployId>, policyRevision: nat, previousModel: Option<Alias>)

  datatype Files = Files(policy: Policy, journal: Option<Journal>, ledger: set<Alias>, state: TrainingState)

  datatype Op = DeployOp | RollbackOp | RecoverOnly | AdoptOp | ReleaseOp

  /** Where `_clear_deployment_journal` returns to. */
  datatype After = InRecovery | InDeploy | InRollback

  datatype EntryPc = Prepare | CleanRemove | CleanForget | Adopt | Release
  datatype RecoverPc = Recover | RollbackNote | RecoverOwner | RecoverAlias | RecoverPolicy | RemoveAlias | RemoveLedger
  datatype ClearPc = ClearMark | ClearFinish | ClearTransition
  datatype ProposePc =
    | Record | Create | Gate | Claim | Reserve | AdvanceTransition | Check | Backup | BackupRemove | BackupLedger
    | NoteBackedUp
  datatype PublishPc =
    | Quiesce | NoteQuiesced | NotePublishing | Publish | NotePublished | FinalSuite | NoteVerified | Activate
    | NoteActivated | NoteOld | CommitState | WriteOwner | OldRemove | OldLedger
  datatype UndoPc = UndoAlias | UndoPolicy | UndoBackup | FinallyRemove | FinallyLedger
  datatype RollbackPc = RollbackReserve | RollbackUpdate | RollbackNoteUpdate | RollbackState | RollbackNoteCommit

  datatype Pc =
    | Entry(entry: EntryPc)
    | Recovering(recover: RecoverPc)
    | ClearingJournal(clear: ClearPc)
    | Proposing(propose: ProposePc)
    | Publishing(publish: PublishPc)
    | Undoing(undo: UndoPc)
    | RollingBack(rollback: RollbackPc)

  /** The running command: its program counter and local variables. */
  datatype Process = Process(
    policy: PolicyId, op: Op, pc: Pc, after: After,
    id: DeployId, candidate: Content, previous: Option<Content>, prior: Models, revision: nat,
    mutated: bool, restored: bool, clean: bool, todo: seq<Alias>)

  /** Everything that survives a crash. */
  datatype Disk = Disk(
    files: map<PolicyId, Files>,
    aliases: map<Alias, Content>,
    transition: Option<Transition>,
    owner: Option<Owner>,
    nextId: DeployId,
    // Contents that may be routed to: what the endpoint started with, and every
    // candidate from the moment it passes the final suite.
    trusted: set<Content>,
    // Deployments for which fail-safe routing has been written.
    failSafe: set<DeployId>)

  datatype World = World(disk: Disk, process: Option<Process>)

  /** What the outside world answers during one step. */
  datatype Choice = Choice(
    ok: bool,          // the write or call reports success
    applied: bool,     // an Ollama call took effect (a successful one always did)
    probe: bool,       // the probes of this step were readable
    verified: bool,    // the probe after the effect was readable
    pass: bool,        // the behaviour suite passed
    content: Content,  // what the candidate build produced
    removed: set<Alias>)

  datatype Action =
    | Start(policy: PolicyId, op: Op)
    | Step(choice: Choice)
    | Crash
    | UserUpdate(policy: PolicyId, models: Models)
    | StartTraining(policy: PolicyId)

  // ----- small accessors ---------------------------------------------------

  function PersonalContent(d: Disk): Option<Content> {
    if Personal in d.aliases then Some(d.aliases[Personal]) else None
  }

  function Get(d: Disk, a: Alias): Option<Content> {
    if a in d.aliases then Some(d.aliases[a]) else None
  }

  predicate ForeignOwner(d: Disk, p: PolicyId) {
    d.owner.Some? && d.owner.value.policy != p
  }

  predicate OwnedBy(d: Disk, p: PolicyId) {
    d.owner.Some? && d.owner.value.policy == p
  }

  function WithFiles(d: Disk, p: PolicyId, f: Files): Disk {
    d.(files := d.files[p := f])
  }

  function WithPolicy(d: Disk, p: PolicyId, m: Models, s: Source): Disk
    requires p in d.files
  {
    WithFiles(d, p, d.files[p].(policy := Policy(m, d.files[p].policy.revision + 1, s)))
  }

  function WithJournal(d: Disk, p: PolicyId, j: Option<Journal>): Disk
    requires p in d.files
  {
    WithFiles(d, p, d.files[p].(journal := j))
  }

  function WithLedger(d: Disk, p: PolicyId, l: set<Alias>): Disk
    requires p in d.files
  {
    WithFiles(d, p, d.files[p].(ledger := l))
  }

  function Goto(d: Disk, pr: Process, pc: Pc): World {
    World(d, Some(pr.(pc := pc)))
  }

  function Stop(d: Disk): World {
    World(d, None)
  }

  predicate CommittedDeploy(f: Files, j: Journal) {
    f.state.deployed == Some(j.id)
  }

  /** The revision test of recovery: the policy is one this deployment wrote. */
  predicate RevisionAllowed(policy: Policy, j: Journal) {
    || policy.revision == j.priorRevision || policy.revision == j.lastRevision
    || ((policy.source.QuiesceSource? || policy.source.ActivationSource?)
        && (policy.revision == j.priorRevision + 1 || policy.revision == j.lastRevision + 1))
  }

  /** Recovery can bring the policy back to the recorded prior models. */
  predicate PolicyRecoverable(policy: Policy, j: Journal) {
    policy.models == j.prior || RevisionAllowed(policy, j)
  }

  // ----- lifecycle entry ---------------------------------------------------

  function AfterPrepare(d: Disk, pr: Process): World {
    match pr.op
    case AdoptOp => Goto(d, pr, Entry(Adopt))
    case ReleaseOp => Goto(d, pr, Entry(Release))
    case _ => Goto(d, pr, Entry(CleanRemove))
  }

  function PrepareStep(d: Disk, pr: Process, c: Choice): World
    requires pr.policy in d.files
  {
    var p := pr.policy;
    var f := d.files[pr.policy];
    if pr.op.DeployOp? && ForeignOwner(d, p) then Stop(d)
    else if d.transition.None? then
      if ForeignOwner(d, p) && f.journal.Some? && f.journal.value.DeployJournal? then Stop(d)
      else AfterPrepare(d, pr)
    else if ForeignOwner(d, p) || d.transition.value.policy != p then Stop(d)
    else if f.journal.Some? then AfterPrepare(d, pr)
    else if !d.transition.value.phase.Reserving? && c.ok then AfterPrepare(d.(transition := None), pr)
    else Stop(d)
  }

  function CleanRemoveStep(d: Disk, pr: Process, c: Choice): World
    requires pr.policy in d.files
  {
    var f := d.files[pr.policy];
    if f.ledger == {} then Goto(d, pr, Recovering(Recover))
    else Goto(d.(aliases := d.aliases - (c.removed * f.ledger)), pr, Entry(CleanForget))
  }

  function CleanForgetStep(d: Disk, pr: Process, c: Choice): World
    requires pr.policy in d.files
  {
    var p := pr.policy;
    var f := d.files[pr.policy];
    if !c.ok then Stop(d)
    else
      var gone := set m | m in f.ledger && m !in d.aliases && m in c.removed;
      var d1 := WithLedger(d, p, f.ledger - gone);
      if gone == f.ledger then Goto(d1, pr, Recovering(Recover)) else Stop(d1)
  }

  function AdoptStep(d: Disk, pr: Process, c: Choice): World
    requires pr.policy in d.files
  {
    var p := pr.policy;
    if d.owner.None? && c.probe && c.ok && Personal in d.aliases
    then Stop(d.(owner := Some(Owner(p, d.aliases[Personal])))) else Stop(d)
  }

  function ReleaseStep(d: Disk, pr: Process, c: Choice): World
    requires pr.policy in d.files
  {
    var p := pr.policy;
    var f := d.files[pr.policy];
    if OwnedBy(d, p) && !NamesPersonal(f.policy.models) && c.ok then Stop(d.(owner := None)) else Stop(d)
  }

  function StepEntry(d: Disk, pr: Process, pc: EntryPc, c: Choice): World
    requires pr.policy in d.files
  {
    match pc
    case Prepare => PrepareStep(d, pr, c)
    case CleanRemove => CleanRemoveStep(d, pr, c)
    case CleanForget => CleanForgetStep(d, pr, c)
    case Adopt => AdoptStep(d, pr, c)
    case Release => ReleaseStep(d, pr, c)
  }

  // ----- clearing the journal ----------------------------------------------

  function AfterRecovery(d: Disk, pr: Process): World {
    match pr.op
    case DeployOp => Goto(d, pr, Proposing(Record))
    case RollbackOp => Goto(d, pr, RollingBack(RollbackReserve))
    case _ => Stop(d)
  }

  function ClearFailed(d: Disk, pr: Process): World {
    if pr.after.InDeploy? then Goto(d, pr, Undoing(FinallyRemove)) else Stop(d)
  }

  function ClearDone(d: Disk, pr: Process): World {
    match pr.after
    case InDeploy => Goto(d, pr, Undoing(FinallyRemove))
    case InRollback => Stop(d)
    case InRecovery => if pr.clean then AfterRecovery(d, pr) else Stop(d)
  }

  function ClearMarkStep(d: Disk, pr: Process, c: Choice): World
    requires pr.policy in d.files
  {
    var f := d.files[pr.policy];
    if f.journal.None? then ClearFailed(d, pr)
    else if f.journal.value.RollbackJournal? then Goto(d, pr, ClearingJournal(ClearFinish))
    else if d.transition.None? || !c.ok then ClearFailed(d, pr)
    else Goto(d.(transition := Some(d.transition.value.(phase := Clearing))), pr, ClearingJournal(ClearFinish))
  }

  function ClearFinishStep(d: Disk, pr: Process, c: Choice): World
    requires pr.policy in d.files
  {
    var p := pr.policy;
    var f := d.files[pr.policy];
    if f.journal.None? || !c.ok then ClearFailed(d, pr)
    else if f.journal.value.RollbackJournal? then ClearDone(WithJournal(d, p, None), pr)
    else Goto(WithJournal(d, p, None), pr, ClearingJournal(ClearTransition))
  }

  function ClearTransitionStep(d: Disk, pr: Process, c: Choice): World
    requires pr.policy in d.files
  {
    var p := pr.policy;
    if d.transition.None? || d.transition.value.policy != p || !c.ok then ClearFailed(d, pr)
    else ClearDone(d.(transition := None), pr)
  }

  function StepClear(d: Disk, pr: Process, pc: ClearPc, c: Choice): World
    requires pr.policy in d.files
  {
    match pc
    case ClearMark => ClearMarkStep(d, pr, c)
    case ClearFinish => ClearFinishStep(d, pr, c)
    case ClearTransition => ClearTransitionStep(d, pr, c)
  }

  // ----- recovery ----------------------------------------------------------

  function BeginClear(d: Disk, pr: Process, after: After): World {
    Goto(d, pr.(after := after), ClearingJournal(ClearMark))
  }

  function RecoverRollback(d: Disk, pr: Process, c: Choice, j: Journal): World
    requires pr.policy in d.files
  {
    var f := d.files[pr.policy];
    var onRollback := f.policy.models.code.RollbackModel? && f.policy.models.general.RollbackModel?;
    if f.state.rolledBack == Some(j.id) && f.state.policyRevision == f.policy.revision then
      if c.probe && f.policy.revision == j.lastRevision && onRollback
      then BeginClear(d, pr.(clean := true), InRecovery) else Stop(d)
    else if f.policy.models == j.prior then BeginClear(d, pr.(clean := true), InRecovery)
    else if f.policy.source.RollbackSource? && onRollback && c.ok
            && (f.policy.revision == j.lastRevision || f.policy.revision == j.priorRevision + 1)
    then Goto(WithPolicy(d, pr.policy, j.prior, RollbackRestoreSource), pr, Recovering(RollbackNote))
    else Stop(d)
  }

  function RecoverCommitted(d: Disk, pr: Process, c: Choice, j: Journal): World
    requires pr.policy in d.files && j.DeployJournal?
  {
    var f := d.files[pr.policy];
    var matches :=
      && c.probe && PersonalContent(d) == Some(j.candidate)
      && f.state.policyRevision == f.policy.revision
      && f.policy.models.code.PersonalModel? && f.policy.models.general.PersonalModel?;
    if matches then Goto(d, pr, Recovering(RecoverOwner))
    else if FailSafe(f.policy.models) != f.policy.models && c.ok then
      var d1 := WithPolicy(d, pr.policy, FailSafe(f.policy.models), FailSafeSource);
      var d2 := if c.verified then WithJournal(d1, pr.policy, Some(j.(lastRevision := f.policy.revision + 1))) else d1;
      Stop(d2.(failSafe := d.failSafe + {j.id}))
    else Stop(d)
  }

  /** Put the recorded previous content back, or remove a first publication. */
  function RestoreAlias(d: Disk, pr: Process, c: Choice, j: Journal): World
    requires j.DeployJournal?
  {
    var now := PersonalContent(d);
    var backup := Get(d, Previous(pr.policy, j.id));
    var published := c.probe && MayHavePublished(j.phase) && now == Some(j.candidate);
    if c.probe && now == j.previous then Goto(d, pr.(restored := true), Recovering(RecoverPolicy))
    else if published && j.previous.Some? && backup == j.previous then
      var d1 := if c.ok || c.applied then d.(aliases := d.aliases[Personal := backup.value]) else d;
      Goto(d1, pr.(restored := c.ok && c.verified), Recovering(RecoverPolicy))
    else if published && j.previous.None? then
      var d1 := if c.applied then d.(aliases := d.aliases - {Personal}) else d;
      Goto(d1, pr.(restored := c.verified && Personal !in d1.aliases), Recovering(RecoverPolicy))
    else Goto(d, pr.(restored := false), Recovering(RecoverPolicy))
  }

  function RestorePolicy(d: Disk, pr: Process, c: Choice, j: Journal): World
    requires pr.policy in d.files && j.DeployJournal?
  {
    var f := d.files[pr.policy];
    var target := if pr.restored then j.prior else FailSafe(j.prior);
    var update := f.policy.models != target && RevisionAllowed(f.policy, j) && c.ok;
    var d1 := if update then
                WithPolicy(d, pr.policy, target, RecoverySource)
                .(failSafe := if pr.restored then d.failSafe else d.failSafe + {j.id})
              else d;
    if pr.restored && (f.policy.models == target || update) then
      Goto(d1, pr.(clean := true,
                   todo := [Candidate(pr.policy, j.id)]
                           + (if j.previous.Some? then [Previous(pr.policy, j.id)] else [])), Recovering(RemoveAlias))
    else Stop(d1)
  }

  function RecoverStep(d: Disk, pr: Process, c: Choice): World
    requires pr.policy in d.files
  {
    var p := pr.policy;
    var f := d.files[pr.policy];
    if f.journal.None? then AfterRecovery(d, pr)
    else
      var j := f.journal.value;
      if j.RollbackJournal? then RecoverRollback(d, pr, c, j)
      else if d.transition.None? || d.transition.value.id != j.id || d.transition.value.policy != p
              || ForeignOwner(d, p) then Stop(d)
      else if CommittedDeploy(f, j) then RecoverCommitted(d, pr, c, j)
      else Goto(d, pr, Recovering(RecoverAlias))
  }

  function RollbackNoteStep(d: Disk, pr: Process, c: Choice): World
    requires pr.policy in d.files && d.files[pr.policy].journal.Some?
  {
    var p := pr.policy;
    var f := d.files[pr.policy];
    var j := f.journal.value;
    if c.ok then BeginClear(WithJournal(d, p, Some(j.(lastRevision := f.policy.revision))),
                            pr.(clean := true), InRecovery)
    else Stop(d)
  }

  function RecoverOwnerStep(d: Disk, pr: Process, c: Choice): World
    requires pr.policy in d.files && d.files[pr.policy].journal.Some?
  {
    var p := pr.policy;
    var j := d.files[pr.policy].journal.value;
    if !c.ok || j.RollbackJournal? then Stop(d)
    else Goto(d.(owner := Some(Owner(p, j.candidate))),
              pr.(clean := true,
                  todo := [Candidate(p, j.id)] + (if j.oldRecovery.Some? then [j.oldRecovery.value] else [])),
              Recovering(RemoveAlias))
  }

  function RecoverAliasStep(d: Disk, pr: Process, c: Choice): World
    requires pr.policy in d.files && d.files[pr.policy].journal.Some?
  {
    var j := d.files[pr.policy].journal.value;
    if j.RollbackJournal? then Stop(d) else RestoreAlias(d, pr, c, j)
  }

  function RecoverPolicyStep(d: Disk, pr: Process, c: Choice): World
    requires pr.policy in d.files && d.files[pr.policy].journal.Some?
  {
    var j := d.files[pr.policy].journal.value;
    if j.RollbackJournal? then Stop(d) else RestorePolicy(d, pr, c, j)
  }

  function RemoveAliasStep(d: Disk, pr: Process, c: Choice): World
    requires pr.policy in d.files && d.files[pr.policy].journal.Some?
  {
    if pr.todo == [] then BeginClear(d, pr, InRecovery)
    else Goto(if c.applied then d.(aliases := d.aliases - {pr.todo[0]}) else d, pr, Recovering(RemoveLedger))
  }

  function RemoveLedgerStep(d: Disk, pr: Process, c: Choice): World
    requires pr.policy in d.files && d.files[pr.policy].journal.Some?
  {
    var p := pr.policy;
    var f := d.files[pr.policy];
    if pr.todo == [] then Stop(d)
    else
      var m, next := pr.todo[0], pr.(todo := pr.todo[1..]);
      if m !in d.aliases && c.probe then
        Goto(if c.ok then WithLedger(d, p, f.ledger - {m}) else d, next, Recovering(RemoveAlias))
      else if c.ok then Goto(WithLedger(d, p, f.ledger + {m}), next.(clean := false), Recovering(RemoveAlias))
      else Stop(d)
  }

  function StepRecover(d: Disk, pr: Process, pc: RecoverPc, c: Choice): World
    requires pr.policy in d.files
  {
    if pc.Recover? then RecoverStep(d, pr, c)
    else if d.files[pr.policy].journal.None? then Stop(d)
    else
      match pc
      case Recover => RecoverStep(d, pr, c)
      case RollbackNote => RollbackNoteStep(d, pr, c)
      case RecoverOwner => RecoverOwnerStep(d, pr, c)
      case RecoverAlias => RecoverAliasStep(d, pr, c)
      case RecoverPolicy => RecoverPolicyStep(d, pr, c)
      case RemoveAlias => RemoveAliasStep(d, pr, c)
      case RemoveLedger => RemoveLedgerStep(d, pr, c)
  }

  // ----- deployment --------------------------------------------------------

  /** `advance_journal`: record the phase and the latest policy revision. */
  function Note(d: Disk, pr: Process, c: Choice, phase: Phase, next: Pc, failed: Pc): World
    requires pr.policy in d.files
  {
    var f := d.files[pr.policy];
    if !c.ok || f.journal.None? then Goto(d, pr, failed)
    else Goto(WithJournal(d, pr.policy, Some(f.journal.value.(phase := phase, lastRevision := pr.revision))), pr, next)
  }

  function RecordStep(d: Disk, pr: Process, c: Choice): World
    requires pr.policy in d.files
  {
    var p := pr.policy;
    var f := d.files[pr.policy];
    var d1 := d.(nextId := d.nextId + 1);
    if !c.ok then Stop(d1)
    else Goto(WithLedger(d1, p, f.ledger + {Candidate(p, d.nextId)}),
              pr.(id := d.nextId, candidate := c.content, mutated := false), Proposing(Create))
  }

  function CreateStep(d: Disk, pr: Process, c: Choice): World
    requires pr.policy in d.files
  {
    var p := pr.policy;
    var d1 := if c.ok || c.applied then d.(aliases := d.aliases[Candidate(p, pr.id) := pr.candidate]) else d;
    Goto(d1, pr, if c.ok then Proposing(Gate) else Undoing(FinallyRemove))
  }

  function GateStep(d: Disk, pr: Process, c: Choice): World
    requires pr.policy in d.files
  {
    if c.pass && c.probe then Goto(d, pr.(previous := PersonalContent(d)), Proposing(Claim))
    else Goto(d, pr, Undoing(FinallyRemove))
  }

  function ClaimStep(d: Disk, pr: Process, c: Choice): World
    requires pr.policy in d.files
  {
    var p := pr.policy;
    if d.transition.Some? || !c.ok then Goto(d, pr, Undoing(FinallyRemove))
    else Goto(d.(transition := Some(Transition(pr.id, p, Claiming))), pr, Proposing(Reserve))
  }

  function ReserveStep(d: Disk, pr: Process, c: Choice): World
    requires pr.policy in d.files
  {
    var p := pr.policy;
    var f := d.files[pr.policy];
    if f.journal.Some? || !c.ok then
      Goto(if c.applied then d.(transition := None) else d, pr, Undoing(FinallyRemove))
    else
      var rev := f.policy.revision;
      Goto(WithJournal(d, p, Some(DeployJournal(pr.id, ReservedPhase, f.policy.models, rev, rev,
                                                pr.candidate, pr.previous, None))),
           pr.(prior := f.policy.models, revision := rev), Proposing(AdvanceTransition))
  }

  function AdvanceTransitionStep(d: Disk, pr: Process, c: Choice): World
    requires pr.policy in d.files
  {
    if !c.ok || d.transition.None? then BeginClear(d, pr, InDeploy)
    else Goto(d.(transition := Some(d.transition.value.(phase := Reserving))), pr, Proposing(Check))
  }

  function CheckStep(d: Disk, pr: Process, c: Choice): World
    requires pr.policy in d.files
  {
    var p := pr.policy;
    var same := c.probe && PersonalContent(d) == pr.previous;
    var ownerOk := if d.owner.Some? then d.owner.value.policy == p && pr.previous == Some(d.owner.value.content)
                   else pr.previous.None?;
    if !same || !ownerOk then BeginClear(d, pr, InDeploy)
    else Goto(d, pr, if pr.previous.Some? then Proposing(Backup) else Publishing(Quiesce))
  }

  function BackupStep(d: Disk, pr: Process, c: Choice): World
    requires pr.policy in d.files
  {
    var p := pr.policy;
    var d1 := if (c.ok || c.applied) && Personal in d.aliases
              then d.(aliases := d.aliases[Previous(p, pr.id) := d.aliases[Personal]]) else d;
    Goto(d1, pr, if c.ok && c.verified && Get(d1, Previous(p, pr.id)) == pr.previous
                 then Proposing(NoteBackedUp) else Proposing(BackupRemove))
  }

  function BackupRemoveStep(d: Disk, pr: Process, c: Choice): World
    requires pr.policy in d.files
  {
    var p := pr.policy;
    Goto(if c.applied then d.(aliases := d.aliases - {Previous(p, pr.id)}) else d, pr, Proposing(BackupLedger))
  }

  function BackupLedgerStep(d: Disk, pr: Process, c: Choice): World
    requires pr.policy in d.files
  {
    var p := pr.policy;
    var f := d.files[pr.policy];
    if Previous(p, pr.id) !in d.aliases && c.probe then BeginClear(d, pr, InDeploy)
    else if c.ok then BeginClear(WithLedger(d, p, f.ledger + {Previous(p, pr.id)}), pr, InDeploy)
    else Goto(d, pr, Undoing(FinallyRemove))
  }

  function NoteBackedUpStep(d: Disk, pr: Process, c: Choice): World
    requires pr.policy in d.files
  {
    Note(d, pr, c, BackedUpPhase, Publishing(Quiesce), Undoing(FinallyRemove))
  }

  function StepPropose(d: Disk, pr: Process, pc: ProposePc, c: Choice): World
    requires pr.policy in d.files
  {
    match pc
    case Record => RecordStep(d, pr, c)
    case Create => CreateStep(d, pr, c)
    case Gate => GateStep(d, pr, c)
    case Claim => ClaimStep(d, pr, c)
    case Reserve => ReserveStep(d, pr, c)
    case AdvanceTransition => AdvanceTransitionStep(d, pr, c)
    case Check => CheckStep(d, pr, c)
    case Backup => BackupStep(d, pr, c)
    case BackupRemove => BackupRemoveStep(d, pr, c)
    case BackupLedger => BackupLedgerStep(d, pr, c)
    case NoteBackedUp => NoteBackedUpStep(d, pr, c)
  }

  /** A policy update under the transition token: compare-and-swap on the revision. */
  function Swap(d: Disk, pr: Process, c: Choice, m: Models, s: Source, next: Pc): World
    requires pr.policy in d.files
  {
    if c.ok && d.files[pr.policy].policy.revision == pr.revision
    then Goto(WithPolicy(d, pr.policy, m, s), pr.(revision := pr.revision + 1, mutated := true), next)
    else Goto(d, pr, Undoing(UndoAlias))
  }

  function QuiesceStep(d: Disk, pr: Process, c: Choice): World
    requires pr.policy in d.files
  {
    if NamesPersonal(pr.prior) then Swap(d, pr, c, Quiesced(pr.prior), QuiesceSource, Publishing(NoteQuiesced))
    else Goto(d, pr, Publishing(NotePublishing))
  }

  function NoteQuiescedStep(d: Disk, pr: Process, c: Choice): World
    requires pr.policy in d.files
  {
    Note(d, pr, c, QuiescedPhase, Publishing(NotePublishing), Undoing(UndoAlias))
  }

  function NotePublishingStep(d: Disk, pr: Process, c: Choice): World
    requires pr.policy in d.files
  {
    Note(d, pr, c, PublishingPhase, Publishing(Publish), Undoing(UndoAlias))
  }

  function PublishStep(d: Disk, pr: Process, c: Choice): World
    requires pr.policy in d.files
  {
    var p := pr.policy;
    if Candidate(p, pr.id) !in d.aliases then Goto(d, pr, Undoing(UndoAlias))
    else
      var d1 := if c.ok || c.applied then d.(aliases := d.aliases[Personal := d.aliases[Candidate(p, pr.id)]]) else d;
      Goto(d1, pr, if c.ok then Publishing(NotePublished) else Undoing(UndoAlias))
  }

  function NotePublishedStep(d: Disk, pr: Process, c: Choice): World
    requires pr.policy in d.files
  {
    Note(d, pr, c, PublishedPhase, Publishing(FinalSuite), Undoing(UndoAlias))
  }

  function FinalSuiteStep(d: Disk, pr: Process, c: Choice): World
    requires pr.policy in d.files
  {
    if c.probe && c.pass && PersonalContent(d) == Some(pr.candidate)
    then Goto(d.(trusted := d.trusted + {pr.candidate}), pr, Publishing(NoteVerified))
    else Goto(d, pr, Undoing(UndoAlias))
  }

  function NoteVerifiedStep(d: Disk, pr: Process, c: Choice): World
    requires pr.policy in d.files
  {
    Note(d, pr, c, VerifiedPhase, Publishing(Activate), Undoing(UndoAlias))
  }

  function ActivateStep(d: Disk, pr: Process, c: Choice): World
    requires pr.policy in d.files
  {
    if c.probe && PersonalContent(d) == Some(pr.candidate)
    then Swap(d, pr, c, Activated(pr.prior), ActivationSource, Publishing(NoteActivated))
    else Goto(d, pr, Undoing(UndoAlias))
  }

  function NoteActivatedStep(d: Disk, pr: Process, c: Choice): World
    requires pr.policy in d.files
  {
    Note(d, pr, c, ActivatedPhase, Publishing(NoteOld), Undoing(UndoAlias))
  }

  function NoteOldStep(d: Disk, pr: Process, c: Choice): World
    requires pr.policy in d.files
  {
    var p := pr.policy;
    var f := d.files[pr.policy];
    if !c.ok || f.journal.None? || f.journal.value.RollbackJournal? then Goto(d, pr, Undoing(UndoAlias))
    else
      var j := f.journal.value.(oldRecovery := f.state.previousModel);
      Goto(WithJournal(d, p, Some(j)), pr, Publishing(CommitState))
  }

  function CommitStateStep(d: Disk, pr: Process, c: Choice): World
    requires pr.policy in d.files
  {
    var p := pr.policy;
    var f := d.files[pr.policy];
    if !c.ok then Goto(d, pr, Undoing(UndoAlias))
    else Goto(WithFiles(d, p, f.(state := f.state.(
                deployed := Some(pr.id), policyRevision := pr.revision,
                previousModel := if pr.previous.Some? then Some(Previous(p, pr.id)) else None))),
              pr.(mutated := false), Publishing(WriteOwner))
  }

  function WriteOwnerStep(d: Disk, pr: Process, c: Choice): World
    requires pr.policy in d.files
  {
    var p := pr.policy;
    if c.ok then Goto(d.(owner := Some(Owner(p, pr.candidate))), pr, Publishing(OldRemove))
    else Goto(d, pr, Undoing(FinallyRemove))
  }

  function OldRemoveStep(d: Disk, pr: Process, c: Choice): World
    requires pr.policy in d.files
  {
    var p := pr.policy;
    var f := d.files[pr.policy];
    if f.journal.None? || f.journal.value.RollbackJournal? || f.journal.value.oldRecovery.None?
       || f.journal.value.oldRecovery.value == Previous(p, pr.id)
    then BeginClear(d, pr, InDeploy)
    else
      var removed := d.(aliases := d.aliases - {f.journal.value.oldRecovery.value});
      Goto(if c.applied then removed else d, pr, Publishing(OldLedger))
  }

  function OldLedgerStep(d: Disk, pr: Process, c: Choice): World
    requires pr.policy in d.files
  {
    var p := pr.policy;
    var f := d.files[pr.policy];
    if f.journal.None? || f.journal.value.RollbackJournal? || f.journal.value.oldRecovery.None?
    then Goto(d, pr, Undoing(FinallyRemove))
    else if f.journal.value.oldRecovery.value !in d.aliases && c.probe then BeginClear(d, pr, InDeploy)
    else if c.ok then BeginClear(WithLedger(d, p, f.ledger + {f.journal.value.oldRecovery.value}), pr, InDeploy)
    else Goto(d, pr, Undoing(FinallyRemove))
  }

  function StepPublish(d: Disk, pr: Process, pc: PublishPc, c: Choice): World
    requires pr.policy in d.files
  {
    match pc
    case Quiesce => QuiesceStep(d, pr, c)
    case NoteQuiesced => NoteQuiescedStep(d, pr, c)
    case NotePublishing => NotePublishingStep(d, pr, c)
    case Publish => PublishStep(d, pr, c)
    case NotePublished => NotePublishedStep(d, pr, c)
    case FinalSuite => FinalSuiteStep(d, pr, c)
    case NoteVerified => NoteVerifiedStep(d, pr, c)
    case Activate => ActivateStep(d, pr, c)
    case NoteActivated => NoteActivatedStep(d, pr, c)
    case NoteOld => NoteOldStep(d, pr, c)
    case CommitState => CommitStateStep(d, pr, c)
    case WriteOwner => WriteOwnerStep(d, pr, c)
    case OldRemove => OldRemoveStep(d, pr, c)
    case OldLedger => OldLedgerStep(d, pr, c)
  }

  /** The failure unwind of a deployment and its `finally` block. */
  function UndoAliasStep(d: Disk, pr: Process, c: Choice): World
    requires pr.policy in d.files
  {
    var p := pr.policy;
    if pr.previous.Some? then
      if !c.probe || Get(d, Previous(p, pr.id)) != pr.previous then Goto(d, pr.(restored := false), Undoing(UndoPolicy))
      else
        var d1 := if c.ok || c.applied then d.(aliases := d.aliases[Personal := pr.previous.value]) else d;
        Goto(d1, pr.(restored := c.ok && c.verified), Undoing(UndoPolicy))
    else
      var d1 := if c.applied then d.(aliases := d.aliases - {Personal}) else d;
      Goto(d1, pr.(restored := c.verified && Personal !in d1.aliases), Undoing(UndoPolicy))
  }

  function UndoPolicyStep(d: Disk, pr: Process, c: Choice): World
    requires pr.policy in d.files
  {
    var p := pr.policy;
    var f := d.files[pr.policy];
    var current := f.policy.revision == pr.revision;
    if !pr.mutated then Goto(d, pr.(clean := true), Undoing(UndoBackup))
    else if pr.restored then
      if c.ok && current
      then Goto(WithPolicy(d, p, pr.prior, RestoreSource),
                pr.(revision := pr.revision + 1, mutated := false, clean := true), Undoing(UndoBackup))
      else Goto(d, pr.(clean := false), Undoing(UndoBackup))
    else if !c.probe || !current then Goto(d, pr.(clean := false), Undoing(UndoBackup))
    else if FailSafe(f.policy.models) == f.policy.models then
      Goto(d, pr.(mutated := false, clean := true), Undoing(UndoBackup))
    else if c.ok then
      Goto(WithPolicy(d, p, FailSafe(f.policy.models), FailSafeSource).(failSafe := d.failSafe + {pr.id}),
           pr.(revision := pr.revision + 1, mutated := false, clean := true), Undoing(UndoBackup))
    else Goto(d, pr.(clean := false), Undoing(UndoBackup))
  }

  function UndoBackupStep(d: Disk, pr: Process, c: Choice): World
    requires pr.policy in d.files
  {
    var p := pr.policy;
    if !pr.restored then Goto(d, pr, Undoing(FinallyRemove))
    else
      var d1 := if pr.previous.Some? && c.applied then d.(aliases := d.aliases - {Previous(p, pr.id)}) else d;
      var cleaned := pr.previous.None? || (c.probe && Previous(p, pr.id) !in d1.aliases);
      if pr.clean && cleaned then BeginClear(d1, pr, InDeploy) else Goto(d1, pr, Undoing(FinallyRemove))
  }

  function FinallyRemoveStep(d: Disk, pr: Process, c: Choice): World
    requires pr.policy in d.files
  {
    var p := pr.policy;
    Goto(if c.applied then d.(aliases := d.aliases - {Candidate(p, pr.id)}) else d, pr, Undoing(FinallyLedger))
  }

  function FinallyLedgerStep(d: Disk, pr: Process, c: Choice): World
    requires pr.policy in d.files
  {
    var p := pr.policy;
    var f := d.files[pr.policy];
    if !c.ok then Stop(d)
    else if Candidate(p, pr.id) !in d.aliases && c.probe then Stop(WithLedger(d, p, f.ledger - {Candidate(p, pr.id)}))
    else Stop(WithLedger(d, p, f.ledger + {Candidate(p, pr.id)}))
  }

  function StepUndo(d: Disk, pr: Process, pc: UndoPc, c: Choice): World
    requires pr.policy in d.files
  {
    match pc
    case UndoAlias => UndoAliasStep(d, pr, c)
    case UndoPolicy => UndoPolicyStep(d, pr, c)
    case UndoBackup => UndoBackupStep(d, pr, c)
    case FinallyRemove => FinallyRemoveStep(d, pr, c)
    case FinallyLedger => FinallyLedgerStep(d, pr, c)
  }

  // ----- rollback ----------------------------------------------------------

  function RecoverInstead(d: Disk, pr: Process): World {
    Goto(d, pr.(op := RecoverOnly), Recovering(Recover))
  }

  function RollbackReserveStep(d: Disk, pr: Process, c: Choice): World
    requires pr.policy in d.files
  {
    var p := pr.policy;
    var f := d.files[pr.policy];
    if !c.probe || !c.ok || f.journal.Some? then Stop(d)
    else
      var rev := f.policy.revision;
      Goto(WithJournal(d.(nextId := d.nextId + 1), p,
                       Some(RollbackJournal(d.nextId, ReservedPhase, f.policy.models, rev, rev))),
           pr.(id := d.nextId, prior := f.policy.models, revision := rev), RollingBack(RollbackUpdate))
  }

  function RollbackUpdateStep(d: Disk, pr: Process, c: Choice): World
    requires pr.policy in d.files
  {
    var p := pr.policy;
    var f := d.files[pr.policy];
    if c.probe && c.ok && f.policy.revision == pr.revision
    then Goto(WithPolicy(d, p, RolledBack(f.policy.models), RollbackSource),
              pr.(revision := pr.revision + 1), RollingBack(RollbackNoteUpdate))
    else RecoverInstead(d, pr)
  }

  function RollbackNoteUpdateStep(d: Disk, pr: Process, c: Choice): World
    requires pr.policy in d.files
  {
    var p := pr.policy;
    var f := d.files[pr.policy];
    if !c.ok || f.journal.None? then RecoverInstead(d, pr)
    else Goto(WithJournal(d, p, Some(f.journal.value.(phase := PolicyUpdatedPhase, lastRevision := pr.revision))),
              pr, RollingBack(RollbackState))
  }

  function RollbackStateStep(d: Disk, pr: Process, c: Choice): World
    requires pr.policy in d.files
  {
    var p := pr.policy;
    var f := d.files[pr.policy];
    if !c.ok || !c.probe then RecoverInstead(d, pr)
    else Goto(WithFiles(d, p, f.(state := f.state.(rolledBack := Some(pr.id), policyRevision := pr.revision))),
              pr, RollingBack(RollbackNoteCommit))
  }

  function RollbackNoteCommitStep(d: Disk, pr: Process, c: Choice): World
    requires pr.policy in d.files
  {
    var p := pr.policy;
    var f := d.files[pr.policy];
    if !c.ok || f.journal.None? then RecoverInstead(d, pr)
    else BeginClear(WithJournal(d, p, Some(f.journal.value.(phase := CommittedPhase))), pr, InRollback)
  }

  function StepRollback(d: Disk, pr: Process, pc: RollbackPc, c: Choice): World
    requires pr.policy in d.files
  {
    match pc
    case RollbackReserve => RollbackReserveStep(d, pr, c)
    case RollbackUpdate => RollbackUpdateStep(d, pr, c)
    case RollbackNoteUpdate => RollbackNoteUpdateStep(d, pr, c)
    case RollbackState => RollbackStateStep(d, pr, c)
    case RollbackNoteCommit => RollbackNoteCommitStep(d, pr, c)
  }

  // ----- runs --------------------------------------------------------------

  function StepProcess(d: Disk, pr: Process, c: Choice): World
    requires pr.policy in d.files
  {
    match pr.pc
    case Entry(pc) => StepEntry(d, pr, pc, c)
    case Recovering(pc) => StepRecover(d, pr, pc, c)
    case ClearingJournal(pc) => StepClear(d, pr, pc, c)
    case Proposing(pc) => StepPropose(d, pr, pc, c)
    case Publishing(pc) => StepPublish(d, pr, pc, c)
    case Undoing(pc) => StepUndo(d, pr, pc, c)
    case RollingBack(pc) => StepRollback(d, pr, pc, c)
  }

  function NewProcess(p: PolicyId, op: Op, m: Models): Process {
    Process(p, op, Entry(Prepare), InRecovery, 0, 0, None, m, 0, false, false, true, [])
  }

  /** One action of the whole system.  An action that is not enabled changes nothing. */
  function Act(w: World, a: Action): World {
    var d := w.disk;
    match a
    case Start(p, op) =>
      if w.process.Some? || p !in d.files || op.RecoverOnly? then w
      else World(d, Some(NewProcess(p, op, d.files[p].policy.models)))
    case Step(c) =>
      if w.process.None? || w.process.value.policy !in d.files then w
      else StepProcess(d, w.process.value, c)
    case Crash => Stop(d)
    case UserUpdate(p, m) =>
      if p !in d.files || d.files[p].journal.Some? || !UserMay(d.files[p].policy.models, m) then w
      else World(WithPolicy(d, p, m, UserSource), w.process)
    case StartTraining(p) =>
      if w.process.Some? || p !in d.files || d.files[p].journal.Some? || d.files[p].ledger != {} then w
      else World(WithFiles(d, p, d.files[p].(state := TrainingState(None, None, 0, None))), None)
  }

  function Exec(w: World, actions: seq<Action>): World {
    if actions == [] then w else Act(Exec(w, actions[..|actions| - 1]), actions[|actions| - 1])
  }

  /** A fresh endpoint: nothing pending, no candidates, and what the alias holds, if
      anything, is trusted.  Any policy may already route to it and any may own it. */
  ghost predicate Init(w: World) {
    var d := w.disk;
    && w.process.None? && d.transition.None? && d.failSafe == {}
    && (forall a <- d.aliases :: a == Personal)
    && (Personal in d.aliases ==> d.aliases[Personal] in d.trusted)
    && (forall p <- d.files ::
          && d.files[p].journal.None? && d.files[p].ledger == {}
          && d.files[p].state == TrainingState(None, None, 0, None))
  }
}
