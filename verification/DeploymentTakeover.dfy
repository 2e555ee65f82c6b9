/** Routing safety without assuming that routing starts out owned: what matters is who
    takes control of the alias while others still lay claim to it. */
module DeploymentTakeover {
  import opened Options
  import opened DeploymentModel
  import opened DeploymentInvariant
  import opened DeploymentRouting

  /** An uncommitted rollback that would bring the alias back into the tiers. */
  predicate PendingRollback(d: Disk, p: PolicyId)
    requires p in d.files
  {
    var f := d.files[p];
    f.journal.Some? && f.journal.value.RollbackJournal? && f.state.rolledBack != Some(f.journal.value.id)
    && NamesPersonal(f.journal.value.prior)
  }

  /** The policy routes to the alias, or its pending rollback would make it. */
  predicate Claims(d: Disk, p: PolicyId)
    requires p in d.files
  {
    NamesPersonal(d.files[p].policy.models) || PendingRollback(d, p)
  }

  /** No other policy claims the alias. */
  ghost predicate Alone(d: Disk, q: PolicyId) {
    forall p <- d.files | p != q :: !Claims(d, p)
  }

  /** A deployment that recovery can neither undo nor finish: it waits for the operator. */
  predicate Stuck(d: Disk, q: PolicyId) {
    && HasDeploy(d, q) && !CommittedDeploy(d.files[q], d.files[q].journal.value)
    && !PolicyRecoverable(d.files[q].policy, d.files[q].journal.value)
  }

  /** A deployment that has written the alias or committed. */
  predicate Landed(d: Disk, q: PolicyId) {
    && HasDeploy(d, q)
    && (CommittedDeploy(d.files[q], d.files[q].journal.value)
        || PersonalContent(d) != d.files[q].journal.value.previous)
  }

  /** The action makes its policy the one that may write an alias nobody owned: it adopts
      an existing alias, or its first deployment is admitted because there is none. */
  predicate Takes(w: World, a: Action) {
    && a.Step? && w.process.Some? && w.process.value.policy in w.disk.files && w.disk.owner.None? && a.choice.probe
    && (|| (w.process.value.pc == Entry(Adopt) && a.choice.ok && Personal in w.disk.aliases)
        || (w.process.value.pc == Proposing(Check) && w.process.value.previous.None?
            && Personal !in w.disk.aliases))
  }

  /** What adoption and a first deployment would have to check. */
  ghost predicate SoundTakeover(w: World, a: Action) {
    Takes(w, a) ==> Alone(w.disk, w.process.value.policy) || Stuck(w.disk, w.process.value.policy)
  }

  ghost predicate SoundTakeovers(w: World, actions: seq<Action>) {
    actions == [] ||
    (SoundTakeovers(w, actions[..|actions| - 1])
     && SoundTakeover(Exec(w, actions[..|actions| - 1]), actions[|actions| - 1]))
  }

  /** Whoever can write the alias, or has, is the only one to claim it. */
  ghost predicate Exclusive(w: World) {
    && (forall q <- w.disk.files | OwnedBy(w.disk, q) :: Alone(w.disk, q) || Stuck(w.disk, q))
    && (forall q <- w.disk.files | Landed(w.disk, q) :: Alone(w.disk, q))
    && (w.process.Some? && w.process.value.pc.Publishing? ==> Alone(w.disk, w.process.value.policy))
  }

  lemma ExclusiveIsSafe(w: World)
    requires Inv(w) && Exclusive(w)
    ensures RoutingSafe(w.disk)
  {
    var d := w.disk;
    if !TrustedPersonal(d) {
      var h := d.transition.value.policy;
      assert Holding(d) && Landed(d, h);
      forall p <- d.files ensures !NamesPersonal(d.files[p].policy.models) {
        assert p != h ==> !Claims(d, p);
      }
    }
  }

  // ----- one step --------------------------------------------------------------

  /** What a step of policy p leaves alone: the files of others, the owner record unless
      it is its own or given up, and, unless it is deploying, the alias and its claim. */
  predicate Contained(d: Disk, e: Disk, p: PolicyId) {
    && p in d.files && p in e.files && e.files == d.files[p := e.files[p]]
    && (e.owner == d.owner || e.owner.None? || OwnedBy(e, p))
    && (HasDeploy(d, p) || (PersonalContent(e) == PersonalContent(d) && (Claims(e, p) ==> Claims(d, p))))
  }

  /** Control of the alias by policy p, given whether it is alone in claiming it. */
  predicate Guarded(d: Disk, p: PolicyId, alone: bool) {
    && (OwnedBy(d, p) ==> alone || Stuck(d, p))
    && (Landed(d, p) ==> alone)
  }

  predicate Guards(v: World, p: PolicyId, alone: bool) {
    && Guarded(v.disk, p, alone)
    && (v.process.Some? && v.process.value.pc.Publishing? ==> v.process.value.policy == p && alone)
  }

  lemma AloneFrame(d: Disk, e: Disk, p: PolicyId, q: PolicyId)
    requires p in d.files && p in e.files && e.files == d.files[p := e.files[p]] && Alone(d, q)
    requires p != q ==> !Claims(e, p)
    ensures Alone(e, q)
  {
    forall r <- e.files | r != q ensures !Claims(e, r) {
      assert r != p ==> e.files[r] == d.files[r] && !Claims(d, r);
    }
  }

  lemma CarefulKeeps(w: World, v: World, p: PolicyId)
    requires Linked(w.disk) && Exclusive(w) && Contained(w.disk, v.disk, p) && Guards(v, p, Alone(w.disk, p))
    ensures Exclusive(v)
  {
    var d, e := w.disk, v.disk;
    if Alone(d, p) {
      AloneFrame(d, e, p, p);
    }
    forall q <- e.files | q != p && (OwnedBy(e, q) || Landed(e, q))
      ensures (OwnedBy(e, q) ==> Alone(e, q) || Stuck(e, q)) && (Landed(e, q) ==> Alone(e, q))
    {
      assert e.files[q] == d.files[q];
      assert OwnedBy(e, q) ==> OwnedBy(d, q) && !HasDeploy(d, p);
      assert Landed(e, q) ==> HasDeploy(d, q) && !HasDeploy(d, p) && Landed(d, q);
      assert Stuck(d, q) ==> Stuck(e, q);
      if Alone(d, q) {
        assert !Claims(d, p);
        AloneFrame(d, e, p, q);
      }
    }
  }

  lemma EntryContained(d: Disk, pr: Process, pc: EntryPc, c: Choice)
    requires pr.policy in d.files && Personal !in d.files[pr.policy].ledger
    ensures Contained(d, StepEntry(d, pr, pc, c).disk, pr.policy)
  {
  }

  lemma EntryGuards(d: Disk, pr: Process, pc: EntryPc, c: Choice, alone: bool)
    requires pr.policy in d.files && Personal !in d.files[pr.policy].ledger && Guarded(d, pr.policy, alone)
    requires pc.Adopt? && d.owner.None? && c.probe && c.ok && Personal in d.aliases ==> alone || Stuck(d, pr.policy)
    ensures Guards(StepEntry(d, pr, pc, c), pr.policy, alone)
  {
  }

  lemma RecoverContained(d: Disk, pr: Process, c: Choice)
    requires Base(d) && pr.policy in d.files
    ensures Contained(d, RecoverStep(d, pr, c).disk, pr.policy)
  {
    assert FileOk(d.files[pr.policy], pr.policy, d.nextId);
  }

  lemma RecoverGuards(d: Disk, pr: Process, c: Choice, alone: bool)
    requires pr.policy in d.files && Guarded(d, pr.policy, alone)
    ensures Guards(RecoverStep(d, pr, c), pr.policy, alone)
  {
  }

  lemma RecoveringContained(d: Disk, pr: Process, pc: RecoverPc, c: Choice)
    requires Base(d) && pr.policy in d.files && RecoverInv(d, pr, pc)
    ensures Contained(d, StepRecover(d, pr, pc, c).disk, pr.policy)
  {
    if pc.Recover? {
      RecoverContained(d, pr, c);
    }
  }

  lemma RecoveringGuards(d: Disk, pr: Process, pc: RecoverPc, c: Choice, alone: bool)
    requires pr.policy in d.files && RecoverInv(d, pr, pc) && Guarded(d, pr.policy, alone)
    ensures Guards(StepRecover(d, pr, pc, c), pr.policy, alone)
  {
    if pc.Recover? {
      RecoverGuards(d, pr, c, alone);
    }
  }

  lemma ClearingCareful(d: Disk, pr: Process, pc: ClearPc, c: Choice, alone: bool)
    requires pr.policy in d.files && ClearInv(d, pr, pc) && Guarded(d, pr.policy, alone)
    ensures Contained(d, StepClear(d, pr, pc, c).disk, pr.policy)
    ensures Guards(StepClear(d, pr, pc, c), pr.policy, alone)
  {
  }

  lemma ProposingContained(d: Disk, pr: Process, pc: ProposePc, c: Choice)
    requires pr.policy in d.files && ProposeInv(d, pr, pc)
    ensures Contained(d, StepPropose(d, pr, pc, c).disk, pr.policy)
  {
  }

  lemma ProposingGuards(d: Disk, pr: Process, pc: ProposePc, c: Choice, alone: bool)
    requires pr.policy in d.files && ProposeInv(d, pr, pc) && Guarded(d, pr.policy, alone)
    requires pc.Check? && d.owner.None? && c.probe && pr.previous.None? && Personal !in d.aliases ==> alone
    ensures Guards(StepPropose(d, pr, pc, c), pr.policy, alone)
  {
  }

  lemma PublishingCareful(d: Disk, pr: Process, pc: PublishPc, c: Choice)
    requires pr.policy in d.files && PublishInv(d, pr, pc)
    ensures Contained(d, StepPublish(d, pr, pc, c).disk, pr.policy)
    ensures Guards(StepPublish(d, pr, pc, c), pr.policy, true)
  {
    assert HasDeploy(d, pr.policy);
  }

  lemma UndoingCareful(d: Disk, pr: Process, pc: UndoPc, c: Choice, alone: bool)
    requires Base(d) && pr.policy in d.files && UndoInv(d, pr, pc) && Guarded(d, pr.policy, alone)
    ensures Contained(d, StepUndo(d, pr, pc, c).disk, pr.policy)
    ensures Guards(StepUndo(d, pr, pc, c), pr.policy, alone)
  {
    if pc.UndoAlias? || pc.UndoPolicy? {
      assert Holding(d) && DeployOk(d, pr.policy, d.files[pr.policy].journal.value);
      assert !Stuck(d, pr.policy);
    }
  }

  lemma RollingBackCareful(d: Disk, pr: Process, pc: RollbackPc, c: Choice, alone: bool)
    requires Linked(d) && pr.policy in d.files && RollbackInv(d, pr, pc) && Guarded(d, pr.policy, alone)
    ensures Contained(d, StepRollback(d, pr, pc, c).disk, pr.policy)
    ensures Guards(StepRollback(d, pr, pc, c), pr.policy, alone)
  {
    assert !HasDeploy(d, pr.policy);
  }

  lemma NotStuckAtCheck(d: Disk, pr: Process)
    requires pr.policy in d.files && ProposeInv(d, pr, Check)
    ensures !Stuck(d, pr.policy)
  {
  }

  lemma StepCareful(d: Disk, pr: Process, c: Choice)
    requires Base(d) && ProcessOk(d, pr) && Exclusive(World(d, Some(pr)))
    requires SoundTakeover(World(d, Some(pr)), Step(c))
    ensures Contained(d, StepProcess(d, pr, c).disk, pr.policy)
    ensures Guards(StepProcess(d, pr, c), pr.policy, Alone(d, pr.policy))
  {
    var alone := Alone(d, pr.policy);
    assert Guarded(d, pr.policy, alone);
    assert FileOk(d.files[pr.policy], pr.policy, d.nextId);
    match pr.pc {
      case Entry(pc) => EntryContained(d, pr, pc, c); EntryGuards(d, pr, pc, c, alone);
      case Recovering(pc) => RecoveringContained(d, pr, pc, c); RecoveringGuards(d, pr, pc, c, alone);
      case ClearingJournal(pc) => ClearingCareful(d, pr, pc, c, alone);
      case Proposing(pc) =>
        if pc.Check? { NotStuckAtCheck(d, pr); }
        ProposingContained(d, pr, pc, c);
        ProposingGuards(d, pr, pc, c, alone);
      case Publishing(pc) => PublishingCareful(d, pr, pc, c);
      case Undoing(pc) => UndoingCareful(d, pr, pc, c, alone);
      case RollingBack(pc) => RollingBackCareful(d, pr, pc, c, alone);
    }
  }

  lemma ActExclusive(w: World, a: Action)
    requires Inv(w) && Exclusive(w) && SoundTakeover(w, a)
    ensures Exclusive(Act(w, a))
  {
    match a {
      case Step(c) =>
        if w.process.Some? {
          StepCareful(w.disk, w.process.value, c);
          CarefulKeeps(w, Act(w, a), w.process.value.policy);
        }
      case UserUpdate(p, m) => if p in w.disk.files { QuietFileExclusive(w, Act(w, a), p); }
      case StartTraining(p) => if p in w.disk.files { QuietFileExclusive(w, Act(w, a), p); }
      case _ =>
    }
  }

  /** Something outside the protocol touches the files of a policy with no journal. */
  lemma QuietFileExclusive(w: World, v: World, p: PolicyId)
    requires Linked(w.disk) && Exclusive(w) && p in w.disk.files && p in v.disk.files && v.process == w.process
    requires v.disk == w.disk.(files := w.disk.files[p := v.disk.files[p]])
    requires v.disk.files[p] == w.disk.files[p] ||
             (&& w.disk.files[p].journal.None? && v.disk.files[p].journal.None?
              && (Claims(v.disk, p) ==> Claims(w.disk, p)))
    ensures Exclusive(v)
  {
    var d, e := w.disk, v.disk;
    forall q <- d.files | Alone(d, q) ensures Alone(e, q) {
      assert p != q ==> !Claims(d, p);
      AloneFrame(d, e, p, q);
    }
    forall q <- e.files ensures Landed(e, q) == Landed(d, q) && Stuck(e, q) == Stuck(d, q) {
      assert q != p ==> e.files[q] == d.files[q];
    }
    if w.process.Some? && w.process.value.pc.Publishing? && Alone(d, w.process.value.policy) {
      assert p != w.process.value.policy ==> !Claims(d, p);
      AloneFrame(d, e, p, w.process.value.policy);
    }
  }

  // ----- whole runs ---------------------------------------------------------------

  /** From any state in which control is exclusive, runs whose takeovers are sound never
      route to an untrusted alias. */
  lemma {:induction false} SoundTakeoversStaySafe(w: World, actions: seq<Action>)
    requires Inv(w) && Exclusive(w) && SoundTakeovers(w, actions)
    ensures Inv(Exec(w, actions)) && Exclusive(Exec(w, actions)) && RoutingSafe(Exec(w, actions).disk)
  {
    ExecKeeps(w, actions);
    if actions != [] {
      var before := actions[..|actions| - 1];
      SoundTakeoversStaySafe(w, before);
      ActExclusive(Exec(w, before), actions[|actions| - 1]);
    }
    ExclusiveIsSafe(Exec(w, actions));
  }

  /** With several policies, under every interleaving, crash and failure, no tier of any
      policy names an untrusted alias, provided a recorded owner is alone to begin with
      and control is only ever taken while no other policy claims the alias. */
  lemma NoPolicyRoutesUntrusted(w: World, actions: seq<Action>)
    requires Init(w) && (forall q <- w.disk.files | OwnedBy(w.disk, q) :: Alone(w.disk, q))
    requires SoundTakeovers(w, actions)
    ensures RoutingSafe(Exec(w, actions).disk)
  {
    InitInv(w);
    SoundTakeoversStaySafe(w, actions);
  }
}
