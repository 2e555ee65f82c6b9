/** Routing safety: no policy routes to the personal alias while the alias holds
    a candidate that has not passed the final suite. */
module DeploymentRouting {
  import opened Options
  import opened DeploymentModel
  import opened DeploymentInvariant

  /** No tier of any policy names an alias whose content is not trusted. */
  ghost predicate RoutingSafe(d: Disk) {
    forall p <- d.files | NamesPersonal(d.files[p].policy.models) :: TrustedPersonal(d)
  }

  /** Recovery of this policy would route to the personal alias: its pending journal is
      uncommitted, was written over models that name the alias, and can be undone. */
  predicate WouldRoute(d: Disk, p: PolicyId)
    requires p in d.files
  {
    var f := d.files[p];
    && f.journal.Some? && NamesPersonal(f.journal.value.prior)
    && var j := f.journal.value;
       if j.RollbackJournal? then f.state.rolledBack != Some(j.id)
       else !CommittedDeploy(f, j) && PolicyRecoverable(f.policy, j)
  }

  /** Whoever routes to the alias, or would again after recovery, owns it or is deploying to it. */
  ghost predicate Routed(d: Disk) {
    forall p <- d.files ::
      && (NamesPersonal(d.files[p].policy.models) ==> OwnedBy(d, p) || HasDeploy(d, p))
      && (WouldRoute(d, p) ==> OwnedBy(d, p))
  }

  /** The action releases ownership. */
  predicate Releases(w: World, a: Action) {
    && a.Step? && a.choice.ok && w.process.Some? && w.process.value.pc == Entry(Release)
    && w.process.value.policy in w.disk.files && OwnedBy(w.disk, w.process.value.policy)
    && !NamesPersonal(w.disk.files[w.process.value.policy].policy.models)
  }

  /** What a release would have to check besides the current tiers. */
  predicate SoundRelease(w: World, a: Action) {
    Releases(w, a) ==> !WouldRoute(w.disk, w.process.value.policy)
  }

  predicate SoundReleases(w: World, actions: seq<Action>) {
    actions == [] ||
    (SoundReleases(w, actions[..|actions| - 1])
     && SoundRelease(Exec(w, actions[..|actions| - 1]), actions[|actions| - 1]))
  }

  // ----- what any run guarantees -------------------------------------------

  /** In every run whatsoever, an untrusted alias is held by one deploying policy,
      and that policy itself does not route to it. */
  lemma HolderNeverRoutesUntrusted(w: World, actions: seq<Action>)
    requires Init(w)
    ensures var d := Exec(w, actions).disk;
            !TrustedPersonal(d) ==>
              && d.transition.Some? && d.transition.value.policy in d.files
              && !NamesPersonal(d.files[d.transition.value.policy].policy.models)
  {
    InitInv(w);
    ExecKeeps(w, actions);
  }

  lemma RoutedIsSafe(d: Disk)
    requires Base(d) && Routed(d)
    ensures RoutingSafe(d)
  {
    if !TrustedPersonal(d) {
      var h := d.transition.value.policy;
      forall p <- d.files ensures !NamesPersonal(d.files[p].policy.models) {
        assert HasDeploy(d, p) ==> p == h;
      }
    }
  }

  // ----- routing stays owned -----------------------------------------------

  /** Only the acting policy's files and the owner record can change. */
  lemma RoutedFrame(d: Disk, e: Disk, p: PolicyId)
    requires Routed(d) && p in d.files && p in e.files && e.files == d.files[p := e.files[p]]
    requires e.owner == d.owner || ((d.owner.None? || OwnedBy(d, p)) && OwnedBy(e, p))
    requires NamesPersonal(e.files[p].policy.models) ==> OwnedBy(e, p) || HasDeploy(e, p)
    requires WouldRoute(e, p) ==> OwnedBy(e, p)
    ensures Routed(e)
  {
    forall q <- e.files | q != p
      ensures NamesPersonal(e.files[q].policy.models) ==> OwnedBy(e, q) || HasDeploy(e, q)
      ensures WouldRoute(e, q) ==> OwnedBy(e, q)
    {
      assert e.files[q] == d.files[q] && (WouldRoute(e, q) ==> WouldRoute(d, q));
    }
  }

  /** A step that touches neither models nor owner, and gives recovery nothing new to restore. */
  predicate SameRoutes(d: Disk, e: Disk, p: PolicyId)
    requires p in d.files && p in e.files
  {
    && e.files == d.files[p := e.files[p]] && e.owner == d.owner
    && e.files[p].policy == d.files[p].policy
    && HasDeploy(e, p) == HasDeploy(d, p)
    && (WouldRoute(e, p) ==> WouldRoute(d, p))
  }

  lemma SameRoutesRouted(d: Disk, e: Disk, p: PolicyId)
    requires Routed(d) && p in d.files && p in e.files && SameRoutes(d, e, p)
    ensures Routed(e)
  {
    RoutedFrame(d, e, p);
  }

  lemma EntrySame(d: Disk, pr: Process, pc: EntryPc, c: Choice)
    requires pr.policy in d.files && !pc.Adopt? && !pc.Release?
    ensures SameRoutes(d, StepEntry(d, pr, pc, c).disk, pr.policy)
  {
  }

  lemma RecoveringSame(d: Disk, pr: Process, pc: RecoverPc, c: Choice)
    requires pr.policy in d.files && !pc.Recover? && !pc.RecoverOwner? && !pc.RecoverPolicy?
    requires RecoverInv(d, pr, pc)
    ensures SameRoutes(d, StepRecover(d, pr, pc, c).disk, pr.policy)
  {
  }

  lemma ProposingSame(d: Disk, pr: Process, pc: ProposePc, c: Choice)
    requires pr.policy in d.files && !pc.Reserve? && ProposeInv(d, pr, pc)
    ensures SameRoutes(d, StepPropose(d, pr, pc, c).disk, pr.policy)
  {
  }

  /** While a deployment is underway its policy is one recovery recognises. */
  lemma UnderwayRecoverable(d: Disk, pr: Process, pc: PublishPc)
    requires Base(d) && pr.policy in d.files && PublishInv(d, pr, pc) && !AfterCommit(pc)
    ensures PolicyRecoverable(d.files[pr.policy].policy, d.files[pr.policy].journal.value)
    ensures !CommittedDeploy(d.files[pr.policy], d.files[pr.policy].journal.value)
  {
    assert Holding(d) && DeployOk(d, pr.policy, d.files[pr.policy].journal.value);
  }

  lemma PublishingSame(d: Disk, pr: Process, pc: PublishPc, c: Choice)
    requires Base(d) && pr.policy in d.files && PublishInv(d, pr, pc)
    requires !pc.Quiesce? && !pc.Activate? && !pc.WriteOwner?
    ensures SameRoutes(d, StepPublish(d, pr, pc, c).disk, pr.policy)
  {
    if !AfterCommit(pc) {
      UnderwayRecoverable(d, pr, pc);
    }
  }

  lemma UndoingSame(d: Disk, pr: Process, pc: UndoPc, c: Choice)
    requires pr.policy in d.files && !pc.UndoPolicy?
    ensures SameRoutes(d, StepUndo(d, pr, pc, c).disk, pr.policy)
  {
  }

  lemma RollingBackSame(d: Disk, pr: Process, pc: RollbackPc, c: Choice)
    requires pr.policy in d.files && !pc.RollbackReserve? && !pc.RollbackUpdate? && RollbackInv(d, pr, pc)
    ensures SameRoutes(d, StepRollback(d, pr, pc, c).disk, pr.policy)
  {
  }

  lemma AdoptRouted(d: Disk, pr: Process, c: Choice)
    requires Routed(d) && pr.policy in d.files
    ensures Routed(AdoptStep(d, pr, c).disk)
  {
    RoutedFrame(d, AdoptStep(d, pr, c).disk, pr.policy);
  }

  lemma ReleaseRouted(d: Disk, pr: Process, c: Choice)
    requires Routed(d) && Releases(World(d, Some(pr)), Step(c)) && !WouldRoute(d, pr.policy)
    ensures Routed(ReleaseStep(d, pr, c).disk)
  {
    var e := ReleaseStep(d, pr, c).disk;
    assert e == d.(owner := None);
    forall p <- e.files
      ensures NamesPersonal(e.files[p].policy.models) ==> HasDeploy(e, p)
      ensures !WouldRoute(e, p)
    {
      assert WouldRoute(e, p) ==> WouldRoute(d, p);
    }
  }

  lemma RecoverRouted(d: Disk, pr: Process, c: Choice)
    requires Base(d) && Routed(d) && pr.policy in d.files
    ensures Routed(RecoverStep(d, pr, c).disk)
  {
    assert FileOk(d.files[pr.policy], pr.policy, d.nextId);
    RoutedFrame(d, RecoverStep(d, pr, c).disk, pr.policy);
  }

  lemma RecoverOwnerRouted(d: Disk, pr: Process, c: Choice)
    requires Routed(d) && Linked(d) && HasDeploy(d, pr.policy)
    ensures Routed(RecoverOwnerStep(d, pr, c).disk)
  {
    RoutedFrame(d, RecoverOwnerStep(d, pr, c).disk, pr.policy);
  }

  lemma RecoverPolicyRouted(d: Disk, pr: Process, c: Choice)
    requires Routed(d) && HasDeploy(d, pr.policy)
    requires !CommittedDeploy(d.files[pr.policy], d.files[pr.policy].journal.value)
    ensures Routed(RecoverPolicyStep(d, pr, c).disk)
  {
    RoutedFrame(d, RecoverPolicyStep(d, pr, c).disk, pr.policy);
  }

  lemma ClearingRouted(d: Disk, pr: Process, pc: ClearPc, c: Choice)
    requires Routed(d) && pr.policy in d.files && ClearInv(d, pr, pc)
    ensures Routed(StepClear(d, pr, pc, c).disk)
  {
    RoutedFrame(d, StepClear(d, pr, pc, c).disk, pr.policy);
  }

  lemma ReserveRouted(d: Disk, pr: Process, c: Choice)
    requires Routed(d) && pr.policy in d.files
    ensures Routed(ReserveStep(d, pr, c).disk)
    ensures Routed(RollbackReserveStep(d, pr, c).disk)
  {
    RoutedFrame(d, ReserveStep(d, pr, c).disk, pr.policy);
    RoutedFrame(d, RollbackReserveStep(d, pr, c).disk, pr.policy);
  }

  lemma SwapRouted(d: Disk, pr: Process, c: Choice, pc: PublishPc)
    requires Base(d) && Routed(d) && pr.policy in d.files && PublishInv(d, pr, pc)
    ensures pc.Quiesce? ==> Routed(QuiesceStep(d, pr, c).disk)
    ensures pc.Activate? ==> Routed(ActivateStep(d, pr, c).disk)
    ensures pc.WriteOwner? ==> Routed(WriteOwnerStep(d, pr, c).disk)
  {
    if pc.WriteOwner? {
      RoutedFrame(d, WriteOwnerStep(d, pr, c).disk, pr.policy);
    } else if pc.Quiesce? {
      UnderwayRecoverable(d, pr, pc);
      RoutedFrame(d, QuiesceStep(d, pr, c).disk, pr.policy);
    } else if pc.Activate? {
      UnderwayRecoverable(d, pr, pc);
      RoutedFrame(d, ActivateStep(d, pr, c).disk, pr.policy);
    }
  }

  lemma UndoPolicyRouted(d: Disk, pr: Process, c: Choice)
    requires Base(d) && Routed(d) && pr.policy in d.files && UndoInv(d, pr, UndoPolicy)
    ensures Routed(UndoPolicyStep(d, pr, c).disk)
  {
    assert Holding(d) && DeployOk(d, pr.policy, d.files[pr.policy].journal.value);
    RoutedFrame(d, UndoPolicyStep(d, pr, c).disk, pr.policy);
  }

  lemma RollbackUpdateRouted(d: Disk, pr: Process, c: Choice)
    requires Routed(d) && pr.policy in d.files && RollbackInv(d, pr, RollbackUpdate)
    ensures Routed(RollbackUpdateStep(d, pr, c).disk)
  {
    RoutedFrame(d, RollbackUpdateStep(d, pr, c).disk, pr.policy);
  }

  lemma LifecycleRouted(d: Disk, pr: Process, c: Choice)
    requires Base(d) && Routed(d) && ProcessOk(d, pr) && (pr.pc.Entry? || pr.pc.Recovering?)
    requires SoundRelease(World(d, Some(pr)), Step(c))
    ensures Routed(StepProcess(d, pr, c).disk)
  {
    var e := StepProcess(d, pr, c).disk;
    match pr.pc {
      case Entry(pc) =>
        if pc.Adopt? { AdoptRouted(d, pr, c); }
        else if pc.Release? {
          if Releases(World(d, Some(pr)), Step(c)) { ReleaseRouted(d, pr, c); }
        } else { EntrySame(d, pr, pc, c); SameRoutesRouted(d, e, pr.policy); }
      case Recovering(pc) =>
        match pc {
          case Recover => RecoverRouted(d, pr, c);
          case RecoverOwner => RecoverOwnerRouted(d, pr, c);
          case RecoverPolicy => RecoverPolicyRouted(d, pr, c);
          case _ => RecoveringSame(d, pr, pc, c); SameRoutesRouted(d, e, pr.policy);
        }
    }
  }

  lemma StepRouted(d: Disk, pr: Process, c: Choice)
    requires Base(d) && Routed(d) && ProcessOk(d, pr)
    requires SoundRelease(World(d, Some(pr)), Step(c))
    ensures Routed(StepProcess(d, pr, c).disk)
  {
    var e := StepProcess(d, pr, c).disk;
    match pr.pc {
      case Entry(_) => LifecycleRouted(d, pr, c);
      case Recovering(_) => LifecycleRouted(d, pr, c);
      case ClearingJournal(pc) => ClearingRouted(d, pr, pc, c);
      case Proposing(pc) =>
        if pc.Reserve? { ReserveRouted(d, pr, c); }
        else { ProposingSame(d, pr, pc, c); SameRoutesRouted(d, e, pr.policy); }
      case Publishing(pc) =>
        if pc.Quiesce? || pc.Activate? || pc.WriteOwner? { SwapRouted(d, pr, c, pc); }
        else { PublishingSame(d, pr, pc, c); SameRoutesRouted(d, e, pr.policy); }
      case Undoing(pc) =>
        if pc.UndoPolicy? { UndoPolicyRouted(d, pr, c); }
        else { UndoingSame(d, pr, pc, c); SameRoutesRouted(d, e, pr.policy); }
      case RollingBack(pc) =>
        if pc.RollbackReserve? { ReserveRouted(d, pr, c); }
        else if pc.RollbackUpdate? { RollbackUpdateRouted(d, pr, c); }
        else { RollingBackSame(d, pr, pc, c); SameRoutesRouted(d, e, pr.policy); }
    }
  }

  lemma ActRouted(w: World, a: Action)
    requires Inv(w) && Routed(w.disk) && SoundRelease(w, a)
    ensures Routed(Act(w, a).disk)
  {
    match a {
      case Step(c) => if w.process.Some? { StepRouted(w.disk, w.process.value, c); }
      case UserUpdate(p, m) => if p in w.disk.files { RoutedFrame(w.disk, Act(w, a).disk, p); }
      case StartTraining(p) => if p in w.disk.files { RoutedFrame(w.disk, Act(w, a).disk, p); }
      case _ =>
    }
  }

  /** From any state in which routing is owned, runs whose releases are sound keep it
      owned, and so never route to an untrusted alias: every interleaving, crash and
      failure of any number of policies included. */
  lemma {:induction false} SoundReleasesStaySafe(w: World, actions: seq<Action>)
    requires Inv(w) && Routed(w.disk) && SoundReleases(w, actions)
    ensures Inv(Exec(w, actions)) && Routed(Exec(w, actions).disk) && RoutingSafe(Exec(w, actions).disk)
  {
    ExecKeeps(w, actions);
    if actions != [] {
      var before := actions[..|actions| - 1];
      SoundReleasesStaySafe(w, before);
      ActRouted(Exec(w, before), actions[|actions| - 1]);
    }
    RoutedIsSafe(Exec(w, actions).disk);
  }
}
