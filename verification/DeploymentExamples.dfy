/** Two concrete runs in which no call fails and an unverified candidate is routed to. */
module DeploymentExamples {
  import opened Options
  import opened DeploymentModel
  import opened DeploymentRouting

  // ----- the setting --------------------------------------------------------------

  const GOOD := Choice(true, true, true, true, true, 7, {})
  const PLAIN := Models(OtherModel(0), OtherModel(1), OtherModel(2), OtherModel(3), OtherModel(4))

  function Clean(m: Models): Files {
    Files(Policy(m, 0, UserSource), None, {}, TrainingState(None, None, 0, None))
  }

  /** Policy 0 owns the alias and routes to it; policy 1 shares the endpoint. */
  function TwoPolicies(): World {
    World(Disk(map[0 := Clean(Activated(PLAIN)), 1 := Clean(PLAIN)], map[Personal := 3], None,
               Some(Owner(0, 3)), 0, {3}, {}), None)
  }

  /** The same endpoint after policy 0's rollback stopped once its policy was updated. */
  function Pending(models: Models, revision: nat, source: Source, owner: Option<Owner>): Disk {
    TwoPolicies().disk.(
      files := map[0 := Files(Policy(models, revision, source),
                              Some(RollbackJournal(0, ReservedPhase, Activated(PLAIN), 0, 0)), {},
                              TrainingState(None, None, 0, None)),
                   1 := Clean(PLAIN)],
      owner := owner, nextId := 1)
  }

  /** A command of policy p that takes n steps and is then killed. */
  function Command(w: World, p: PolicyId, op: Op, n: nat): World {
    Act(Steps(Act(w, Start(p, op)), n), Crash)
  }

  function Steps(w: World, n: nat): World
    decreases n
  {
    if n == 0 then w else Steps(Act(w, Step(GOOD)), n - 1)
  }

  lemma RollbackStarts(w: World)
    requires w == Act(TwoPolicies(), Start(0, RollbackOp))
    ensures var e := Steps(w, 3);
            && e.process.Some? && e.process.value.pc == RollingBack(RollbackReserve) && e.process.value.policy == 0
            && e.disk == TwoPolicies().disk
  {
    var w1 := Act(w, Step(GOOD));
    var w2 := Act(w1, Step(GOOD));
    var w3 := Act(w2, Step(GOOD));
    assert Steps(w, 3) == Steps(w1, 2) == Steps(w2, 1) == w3;
  }

  lemma RollbackReserves(w: World)
    requires w.process.Some? && w.process.value.pc == RollingBack(RollbackReserve) && w.process.value.policy == 0
    requires w.disk == TwoPolicies().disk
    ensures var e := Act(w, Step(GOOD));
            && e.process.Some? && e.process.value.pc == RollingBack(RollbackUpdate) && e.process.value.policy == 0
            && e.process.value.revision == 0
            && e.disk == Pending(Activated(PLAIN), 0, UserSource, Some(Owner(0, 3)))
  {
    var e := Act(w, Step(GOOD)).disk;
    var f := Pending(Activated(PLAIN), 0, UserSource, Some(Owner(0, 3)));
    assert e.files[0] == f.files[0] && e.files[1] == f.files[1];
    assert e.files == f.files;
  }

  lemma RollbackUpdates(w: World)
    requires w.process.Some? && w.process.value.pc == RollingBack(RollbackUpdate) && w.process.value.policy == 0
    requires w.process.value.revision == 0 && w.disk == Pending(Activated(PLAIN), 0, UserSource, Some(Owner(0, 3)))
    ensures Act(w, Step(GOOD)).disk == Pending(RolledBack(Activated(PLAIN)), 1, RollbackSource, Some(Owner(0, 3)))
  {
    var e := Act(w, Step(GOOD)).disk;
    var f := Pending(RolledBack(Activated(PLAIN)), 1, RollbackSource, Some(Owner(0, 3)));
    assert e.files[0] == f.files[0] && e.files[1] == f.files[1];
    assert e.files == f.files;
  }

  lemma {:induction false} RollbackStops()
    ensures Command(TwoPolicies(), 0, RollbackOp, 5)
            == World(Pending(RolledBack(Activated(PLAIN)), 1, RollbackSource, Some(Owner(0, 3))), None)
  {
    var w := Act(TwoPolicies(), Start(0, RollbackOp));
    RollbackStarts(w);
    RollbackReserves(Steps(w, 3));
    StepsSnoc(w, 3);
    RollbackUpdates(Steps(w, 4));
    StepsSnoc(w, 4);
  }

  lemma OwnerReleases(m: Models)
    requires !NamesPersonal(m)
    ensures Command(World(Pending(m, 1, RollbackSource, Some(Owner(0, 3))), None), 0, ReleaseOp, 2)
            == World(Pending(m, 1, RollbackSource, None), None)
  {
    var w := World(Pending(m, 1, RollbackSource, Some(Owner(0, 3))), None);
    var w1 := Act(w, Start(0, ReleaseOp));
    var w2 := Act(w1, Step(GOOD));
    assert w2.process.value.pc == Entry(Release) && w2.disk == w.disk;
    assert Steps(w1, 2) == Steps(w2, 1) == Act(w2, Step(GOOD));
  }

  lemma NeighbourAdopts(m: Models)
    ensures Command(World(Pending(m, 1, RollbackSource, None), None), 1, AdoptOp, 2)
            == World(Pending(m, 1, RollbackSource, Some(Owner(1, 3))), None)
  {
    var w := World(Pending(m, 1, RollbackSource, None), None);
    var w1 := Act(w, Start(1, AdoptOp));
    var w2 := Act(w1, Step(GOOD));
    assert w2.process.value.pc == Entry(Adopt) && w2.disk == w.disk;
    assert Steps(w1, 2) == Steps(w2, 1) == Act(w2, Step(GOOD));
  }

  lemma RollbackRecovers()
    ensures Command(World(Pending(RolledBack(Activated(PLAIN)), 1, RollbackSource, Some(Owner(1, 3))), None),
                    0, RollbackOp, 3)
            == World(Pending(Activated(PLAIN), 2, RollbackRestoreSource, Some(Owner(1, 3))), None)
  {
    var d := Pending(RolledBack(Activated(PLAIN)), 1, RollbackSource, Some(Owner(1, 3)));
    var w1 := Act(World(d, None), Start(0, RollbackOp));
    var w2 := Act(w1, Step(GOOD));
    var w3 := Act(w2, Step(GOOD));
    assert w3.process.value.pc == Recovering(Recover) && w3.disk == d;
    var w4 := Act(w3, Step(GOOD));
    assert w4.disk.files == Pending(Activated(PLAIN), 2, RollbackRestoreSource, Some(Owner(1, 3))).files;
    assert Steps(w1, 3) == Steps(w2, 2) == Steps(w3, 1) == w4;
  }

  /** Policy 1 owns the alias and is about to deploy, next to a policy that routes to it. */
  ghost predicate NeighbourReady(d: Disk) {
    && d.files.Keys == {0, 1} && NamesPersonal(d.files[0].policy.models) && d.files[1] == Clean(PLAIN)
    && d.transition.None? && d.owner == Some(Owner(1, 3)) && d.aliases == map[Personal := 3]
    && d.nextId == 1 && 7 !in d.trusted
  }

  lemma NeighbourReserves(d: Disk, w: World)
    requires NeighbourReady(d)
    requires w == Act(World(d, None), Start(1, DeployOp))
    ensures var e := Steps(w, 8);
            && e.process.Some? && e.process.value.pc == Proposing(AdvanceTransition) && e.process.value.policy == 1
            && e.process.value.id == 1 && e.process.value.previous == Some(3) && e.process.value.prior == PLAIN
            && e.disk.owner == d.owner && e.disk.trusted == d.trusted
            && e.disk.files.Keys == {0, 1} && e.disk.files[0] == d.files[0] && e.disk.files[1].journal.Some?
            && e.disk.transition.Some? && e.disk.aliases == map[Personal := 3, Candidate(1, 1) := 7]
  {
    var w1 := Act(w, Step(GOOD));
    var w2 := Act(w1, Step(GOOD));
    var w3 := Act(w2, Step(GOOD));
    assert w3.process.value.pc == Proposing(Record) && w3.disk == d;
    var w4 := Act(w3, Step(GOOD));
    var w5 := Act(w4, Step(GOOD));
    assert w5.process.value.pc == Proposing(Gate) && w5.disk.aliases == map[Personal := 3, Candidate(1, 1) := 7];
    var w6 := Act(w5, Step(GOOD));
    var w7 := Act(w6, Step(GOOD));
    assert w7.process.value.pc == Proposing(Reserve);
    var w8 := Act(w7, Step(GOOD));
    assert w8.process.value.pc == Proposing(AdvanceTransition);
    assert Steps(w, 8) == Steps(w1, 7) == Steps(w2, 6) == Steps(w3, 5) == Steps(w4, 4);
    assert Steps(w4, 4) == Steps(w5, 3) == Steps(w6, 2) == Steps(w7, 1) == w8;
  }

  lemma NeighbourBacksUp(w: World)
    requires && w.process.Some? && w.process.value.pc == Proposing(AdvanceTransition) && w.process.value.policy == 1
             && w.process.value.id == 1 && w.process.value.previous == Some(3) && w.process.value.prior == PLAIN
             && w.disk.owner == Some(Owner(1, 3)) && w.disk.files.Keys == {0, 1} && w.disk.files[1].journal.Some?
             && w.disk.transition.Some? && w.disk.aliases == map[Personal := 3, Candidate(1, 1) := 7]
    ensures var e := Steps(w, 3);
            && e.process.Some? && e.process.value.pc == Proposing(NoteBackedUp) && e.process.value.policy == 1
            && e.process.value.id == 1 && e.process.value.prior == PLAIN
            && e.disk.files == w.disk.files && e.disk.trusted == w.disk.trusted
            && Get(e.disk, Candidate(1, 1)) == Some(7)
  {
    var w1 := Act(w, Step(GOOD));
    assert w1.process.value.pc == Proposing(Check) && w1.disk.files == w.disk.files;
    var w2 := Act(w1, Step(GOOD));
    assert w2.process.value.pc == Proposing(Backup) && w2.disk == w1.disk;
    var w3 := Act(w2, Step(GOOD));
    assert Steps(w, 3) == Steps(w1, 2) == Steps(w2, 1) == w3;
  }

  lemma NeighbourSkipsQuiesce(w: World)
    requires && w.process.Some? && w.process.value.pc == Proposing(NoteBackedUp) && w.process.value.policy == 1
             && w.process.value.id == 1 && w.process.value.prior == PLAIN
             && w.disk.files.Keys == {0, 1} && w.disk.files[1].journal.Some?
    ensures var e := Steps(w, 2);
            && e.process.Some? && e.process.value.pc == Publishing(NotePublishing) && e.process.value.policy == 1
            && e.process.value.id == 1 && e.disk.files.Keys == {0, 1} && e.disk.files[0] == w.disk.files[0]
            && e.disk.files[1].journal.Some? && e.disk.trusted == w.disk.trusted && e.disk.aliases == w.disk.aliases
  {
    var w1 := Act(w, Step(GOOD));
    assert w1.process.Some? && w1.process.value == w.process.value.(pc := Publishing(Quiesce));
    assert w1.disk.files.Keys == {0, 1} && w1.disk.files[0] == w.disk.files[0] && w1.disk.files[1].journal.Some?;
    assert w1.disk.trusted == w.disk.trusted && w1.disk.aliases == w.disk.aliases;
    assert Steps(w, 2) == Steps(w1, 1) == Act(w1, Step(GOOD));
  }

  lemma NeighbourPublishes(w: World)
    requires && w.process.Some? && w.process.value.pc == Publishing(NotePublishing) && w.process.value.policy == 1
             && w.process.value.id == 1 && w.disk.files.Keys == {0, 1} && w.disk.files[1].journal.Some?
             && Get(w.disk, Candidate(1, 1)) == Some(7)
    ensures var e := Steps(w, 2);
            e.disk.files.Keys == {0, 1} && e.disk.files[0] == w.disk.files[0] && e.disk.trusted == w.disk.trusted
            && Get(e.disk, Personal) == Some(7)
  {
    var w1 := Act(w, Step(GOOD));
    assert w1.process.value.pc == Publishing(Publish);
    assert Steps(w, 2) == Steps(w1, 1) == Act(w1, Step(GOOD));
  }

  lemma {:induction false} StepsSnoc(w: World, n: nat)
    ensures Steps(w, n + 1) == Act(Steps(w, n), Step(GOOD))
    decreases n
  {
    if n > 0 {
      StepsSnoc(Act(w, Step(GOOD)), n - 1);
    }
  }

  lemma {:induction false} StepsAdd(w: World, m: nat, n: nat)
    ensures Steps(Steps(w, m), n) == Steps(w, m + n)
    decreases n
  {
    if n > 0 {
      StepsAdd(w, m, n - 1);
      StepsSnoc(Steps(w, m), n - 1);
      StepsSnoc(w, m + n - 1);
    }
  }

  lemma NeighbourRuns(d: Disk, w: World)
    requires NeighbourReady(d)
    requires w == Act(World(d, None), Start(1, DeployOp))
    ensures var e := Steps(w, 15).disk;
            0 in e.files && e.files[0] == d.files[0] && e.trusted == d.trusted && Get(e, Personal) == Some(7)
  {
    NeighbourReserves(d, w);
    NeighbourBacksUp(Steps(w, 8));
    StepsAdd(w, 8, 3);
    NeighbourSkipsQuiesce(Steps(w, 11));
    StepsAdd(w, 11, 2);
    NeighbourPublishes(Steps(w, 13));
    StepsAdd(w, 13, 2);
  }

  lemma NeighbourDeploys(d: Disk)
    requires NeighbourReady(d)
    ensures !RoutingSafe(Command(World(d, None), 1, DeployOp, 15).disk)
  {
    NeighbourRuns(d, Act(World(d, None), Start(1, DeployOp)));
  }

  /** A command is a run: its start, its steps and the kill. */
  lemma {:induction false} CommandIsRun(w: World, p: PolicyId, op: Op, n: nat)
    ensures Command(w, p, op, n) == Exec(w, Run(p, op, n) + [Crash])
  {
    StepsAreRun(w, p, op, n);
    ExecSnoc(w, Run(p, op, n), Crash);
  }

  function Run(p: PolicyId, op: Op, n: nat): seq<Action> {
    [Start(p, op)] + seq(n, _ => Step(GOOD))
  }

  lemma RunGrows(p: PolicyId, op: Op, n: nat)
    ensures Run(p, op, n + 1) == Run(p, op, n) + [Step(GOOD)]
  {
  }

  lemma {:induction false} ExecSnoc(w: World, actions: seq<Action>, a: Action)
    ensures Exec(w, actions + [a]) == Act(Exec(w, actions), a)
  {
    var all := actions + [a];
    assert all[..|all| - 1] == actions && all[|all| - 1] == a;
  }

  lemma {:induction false} StepsAreRun(w: World, p: PolicyId, op: Op, n: nat)
    ensures Steps(Act(w, Start(p, op)), n) == Exec(w, Run(p, op, n))
  {
    if n == 0 {
      assert Run(p, op, 0) == [] + [Start(p, op)];
      ExecSnoc(w, [], Start(p, op));
    } else {
      StepsAreRun(w, p, op, n - 1);
      StepsSnoc(Act(w, Start(p, op)), n - 1);
      RunGrows(p, op, n - 1);
      ExecSnoc(w, Run(p, op, n - 1), Step(GOOD));
    }
  }

  /** Rollback (killed), release, the neighbour's adoption, rollback recovery (killed). */
  function Prelude(): World {
    var released := Command(Command(TwoPolicies(), 0, RollbackOp, 5), 0, ReleaseOp, 2);
    Command(Command(released, 1, AdoptOp, 2), 0, RollbackOp, 3)
  }

  lemma PreludeLeaves()
    ensures Prelude() == World(Pending(Activated(PLAIN), 2, RollbackRestoreSource, Some(Owner(1, 3))), None)
  {
    RollbackStops();
    OwnerReleases(RolledBack(Activated(PLAIN)));
    NeighbourAdopts(RolledBack(Activated(PLAIN)));
    RollbackRecovers();
  }

  lemma TwoPoliciesStart()
    ensures Init(TwoPolicies()) && Init(Legacy())
  {
  }

  /** The unchecked release is a real hole: although every external call succeeds,
      the neighbour's deployment leaves policy 0 routing to an unverified candidate. */
  lemma UncheckedReleaseRoutesUntrusted()
    ensures Init(TwoPolicies()) && !RoutingSafe(Command(Prelude(), 1, DeployOp, 15).disk)
  {
    TwoPoliciesStart();
    PreludeLeaves();
    NeighbourDeploys(Pending(Activated(PLAIN), 2, RollbackRestoreSource, Some(Owner(1, 3))));
  }

  /** An endpoint from before ownership was recorded: policy 0 routes to the alias. */
  function Legacy(): World {
    World(TwoPolicies().disk.(owner := None, nextId := 1), None)
  }

  lemma LegacyAdopted()
    ensures Command(Legacy(), 1, AdoptOp, 2) == World(Legacy().disk.(owner := Some(Owner(1, 3))), None)
  {
    var w := Legacy();
    var w1 := Act(w, Start(1, AdoptOp));
    var w2 := Act(w1, Step(GOOD));
    assert w2.process.value.pc == Entry(Adopt) && w2.disk == w.disk;
    assert Steps(w1, 2) == Steps(w2, 1) == Act(w2, Step(GOOD));
  }

  /** So is the unchecked adoption: the neighbour adopts the alias policy 0 routes to,
      deploys, and policy 0 routes to an unverified candidate; nothing was released. */
  lemma UncheckedAdoptionRoutesUntrusted()
    ensures Init(Legacy()) && RoutingSafe(Legacy().disk)
    ensures !RoutingSafe(Command(Command(Legacy(), 1, AdoptOp, 2), 1, DeployOp, 15).disk)
  {
    TwoPoliciesStart();
    LegacyAdopted();
    NeighbourDeploys(Legacy().disk.(owner := Some(Owner(1, 3))));
  }
}
