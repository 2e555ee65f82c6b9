/** Crash recovery: what the next lifecycle command does with a pending deployment
    when no call fails, from every state a crash can leave behind. */
module DeploymentRecovery {
  import opened Options
  import opened DeploymentModel
  import opened DeploymentInvariant

  /** Nothing fails, and every ledgered alias is removed. */
  function Faultless(d: Disk, p: PolicyId): Choice
    requires p in d.files
  {
    Choice(true, true, true, true, true, 0, d.files[p].ledger)
  }

  function Drive(w: World, n: nat): World
    decreases n
  {
    if n == 0 || w.process.None? || w.process.value.policy !in w.disk.files then w
    else Drive(StepProcess(w.disk, w.process.value, Faultless(w.disk, w.process.value.policy)), n - 1)
  }

  lemma {:induction false} DriveAdd(w: World, m: nat, n: nat)
    ensures Drive(Drive(w, m), n) == Drive(w, m + n)
    decreases m
  {
    if m > 0 && w.process.Some? && w.process.value.policy in w.disk.files {
      var v := StepProcess(w.disk, w.process.value, Faultless(w.disk, w.process.value.policy));
      assert Drive(w, m) == Drive(v, m - 1) && Drive(w, m + n) == Drive(v, m - 1 + n);
      DriveAdd(v, m - 1, n);
    }
  }

  lemma DriveKeeps(w: World, n: nat)
    requires Inv(w)
    ensures Inv(Drive(w, n))
    decreases n
  {
    if n > 0 && w.process.Some? && w.process.value.policy in w.disk.files {
      var c := Faultless(w.disk, w.process.value.policy);
      StepKeeps(w.disk, w.process.value, c);
      DriveKeeps(StepProcess(w.disk, w.process.value, c), n - 1);
    }
  }

  /** Steps from the start of a command to the end of its recovery. */
  function EntrySteps(d: Disk, p: PolicyId): nat
    requires p in d.files
  {
    if d.files[p].ledger == {} then 2 else 3
  }

  function UndoSteps(d: Disk, p: PolicyId): nat
    requires HasDeploy(d, p)
  {
    EntrySteps(d, p) + 3 + (if d.files[p].journal.value.previous.Some? then 5 else 3) + 3
  }

  function FinalizeSteps(d: Disk, p: PolicyId): nat
    requires HasDeploy(d, p)
  {
    EntrySteps(d, p) + 2 + (if d.files[p].journal.value.oldRecovery.Some? then 5 else 3) + 3
  }

  /** What entering the lifecycle leaves alone. */
  predicate SameDeployment(d: Disk, e: Disk, p: PolicyId)
    requires HasDeploy(d, p)
  {
    && HasDeploy(e, p) && e.files[p].journal == d.files[p].journal && e.files[p].policy == d.files[p].policy
    && e.files[p].state == d.files[p].state && PersonalContent(e) == PersonalContent(d)
    && e.transition == d.transition && e.owner == d.owner && e.failSafe == d.failSafe
  }

  predicate At(w: World, p: PolicyId, op: Op, pc: Pc) {
    && w.process.Some? && w.process.value.policy == p && w.process.value.op == op && w.process.value.pc == pc
    && p in w.disk.files
  }

  lemma Entering(d: Disk, p: PolicyId, op: Op)
    requires Base(d) && HasDeploy(d, p) && (op.DeployOp? || op.RollbackOp?)
    ensures var w := Drive(Act(World(d, None), Start(p, op)), EntrySteps(d, p));
            Inv(w) && At(w, p, op, Recovering(Recover)) && SameDeployment(d, w.disk, p)
  {
    var w0 := Act(World(d, None), Start(p, op));
    var pr := w0.process.value;
    var c := Faultless(d, p);
    var w1 := PrepareStep(d, pr, c);
    assert StepProcess(d, pr, c) == w1;
    assert At(w1, p, op, Entry(CleanRemove)) && w1.disk == d;
    var w2 := CleanRemoveStep(d, w1.process.value, c);
    assert StepProcess(d, w1.process.value, c) == w2;
    assert Drive(w0, 2) == Drive(w1, 1) == w2;
    if d.files[p].ledger != {} {
      assert FileOk(d.files[p], p, d.nextId);
      assert PersonalContent(w2.disk) == PersonalContent(d);
      var w3 := CleanForgetStep(w2.disk, w2.process.value, c);
      assert StepProcess(w2.disk, w2.process.value, c) == w3;
      var gone := set m | m in d.files[p].ledger && m !in w2.disk.aliases && m in c.removed;
      assert gone == d.files[p].ledger;
      assert Drive(w0, 3) == Drive(w1, 2) == Drive(w2, 1) == w3;
    }
    DriveKeeps(w0, EntrySteps(d, p));
  }

  /** The pending deployment of a state, as the invariant describes it. */
  predicate Recoverable(d: Disk, p: PolicyId) {
    && HasDeploy(d, p) && DeployOk(d, p, d.files[p].journal.value) && !ForeignOwner(d, p)
    && d.transition.Some? && d.transition.value.policy == p && d.transition.value.id == d.files[p].journal.value.id
  }

  lemma InvRecoverable(d: Disk, p: PolicyId)
    requires Base(d) && HasDeploy(d, p)
    ensures Recoverable(d, p)
  {
    assert Holding(d) && d.transition.value.policy == p;
  }

  /** The aliases an undone deployment leaves to remove. */
  function Leftovers(p: PolicyId, j: Journal): seq<Alias>
    requires j.DeployJournal?
  {
    [Candidate(p, j.id)] + (if j.previous.Some? then [Previous(p, j.id)] else [])
  }

  /** Undoing the alias and the policy. */
  lemma Undoing3(w: World, p: PolicyId, op: Op)
    requires At(w, p, op, Recovering(Recover)) && Recoverable(w.disk, p)
    requires !CommittedDeploy(w.disk.files[p], w.disk.files[p].journal.value)
    ensures var j := w.disk.files[p].journal.value;
            var e := Drive(w, 3);
            && HasDeploy(e.disk, p) && e.disk.files[p].journal == w.disk.files[p].journal
            && PersonalContent(e.disk) == j.previous && e.disk.transition == w.disk.transition
            && e.disk.owner == w.disk.owner
            && (if PolicyRecoverable(w.disk.files[p].policy, j) then
                  && At(e, p, op, Recovering(RemoveAlias)) && e.disk.files[p].policy.models == j.prior
                  && e.process.value.clean
                  && e.process.value.todo == Leftovers(p, j)
                else e.process.None? && e.disk.files[p].policy == w.disk.files[p].policy)
  {
    Undoing2(w, p, op);
    var w2 := Drive(w, 2);
    var w3 := RecoverPolicyStep(w2.disk, w2.process.value, Faultless(w2.disk, p));
    assert StepProcess(w2.disk, w2.process.value, Faultless(w2.disk, p)) == w3;
    DriveAdd(w, 2, 1);
    assert Drive(w2, 1) == Drive(w3, 0) == w3;
  }

  /** Undoing the alias. */
  lemma Undoing2(w: World, p: PolicyId, op: Op)
    requires At(w, p, op, Recovering(Recover)) && Recoverable(w.disk, p)
    requires !CommittedDeploy(w.disk.files[p], w.disk.files[p].journal.value)
    ensures var e := Drive(w, 2);
            && At(e, p, op, Recovering(RecoverPolicy)) && e.process.value.restored
            && e.disk.files == w.disk.files && e.disk.transition == w.disk.transition
            && e.disk.owner == w.disk.owner
            && PersonalContent(e.disk) == w.disk.files[p].journal.value.previous
  {
    var d := w.disk;
    var c := Faultless(d, p);
    var j := d.files[p].journal.value;
    var w1 := RecoverStep(d, w.process.value, c);
    assert At(w1, p, op, Recovering(RecoverAlias)) && w1.disk == d;
    var w2 := RecoverAliasStep(d, w1.process.value, c);
    assert At(w2, p, op, Recovering(RecoverPolicy)) && w2.process.value.restored;
    assert PersonalContent(w2.disk) == j.previous;
    assert Drive(w, 2) == Drive(w1, 1) == w2;
  }

  /** Removing one alias and forgetting it. */
  lemma RemovingOne(w: World, p: PolicyId, op: Op)
    requires At(w, p, op, Recovering(RemoveAlias)) && HasDeploy(w.disk, p) && w.process.value.todo != []
    ensures var e := Drive(w, 2);
            && At(e, p, op, Recovering(RemoveAlias)) && e.process.value.todo == w.process.value.todo[1..]
            && e.process.value.clean == w.process.value.clean
            && e.disk.aliases == w.disk.aliases - {w.process.value.todo[0]}
            && e.disk.files[p].journal == w.disk.files[p].journal && e.disk.files[p].policy == w.disk.files[p].policy
            && e.disk.owner == w.disk.owner && e.disk.transition == w.disk.transition
  {
    var d := w.disk;
    var c := Faultless(d, p);
    var w1 := RemoveAliasStep(d, w.process.value, c);
    assert At(w1, p, op, Recovering(RemoveLedger));
    assert w1.disk == d.(aliases := d.aliases - {w.process.value.todo[0]});
    var w2 := RemoveLedgerStep(w1.disk, w1.process.value, c);
    assert StepProcess(d, w.process.value, c) == w1;
    assert StepProcess(w1.disk, w1.process.value, c) == w2;
    assert Drive(w, 2) == Drive(w1, 1) == w2;
  }

  /** Removing what is left to remove. */
  lemma RemovingAll(w: World, p: PolicyId, op: Op)
    requires At(w, p, op, Recovering(RemoveAlias)) && HasDeploy(w.disk, p) && Personal !in w.process.value.todo
    ensures var e := Drive(w, 2 * |w.process.value.todo|);
            && At(e, p, op, Recovering(RemoveAlias)) && e.process.value.todo == []
            && e.process.value.clean == w.process.value.clean
            && HasDeploy(e.disk, p) && e.disk.files[p].policy == w.disk.files[p].policy
            && e.disk.owner == w.disk.owner && e.disk.transition == w.disk.transition
            && e.disk.aliases == w.disk.aliases - (set a <- w.process.value.todo)
    decreases |w.process.value.todo|
  {
    var todo := w.process.value.todo;
    if todo != [] {
      RemovingOne(w, p, op);
      var e := Drive(w, 2);
      RemovingAll(e, p, op);
      DriveAdd(w, 2, 2 * |todo[1..]|);
      assert (set a <- todo) == {todo[0]} + (set a <- todo[1..]);
    } else {
      assert w.disk.aliases - (set a <- todo) == w.disk.aliases;
    }
  }

  lemma ClearingStarts(w: World, p: PolicyId, op: Op)
    requires At(w, p, op, Recovering(RemoveAlias)) && HasDeploy(w.disk, p) && w.process.value.todo == []
    requires w.disk.transition.Some? && w.disk.transition.value.policy == p
    ensures var e := Drive(w, 2);
            && At(e, p, op, ClearingJournal(ClearFinish)) && e.process.value.after == InRecovery
            && e.process.value.clean == w.process.value.clean && HasDeploy(e.disk, p)
            && e.disk == w.disk.(transition := Some(w.disk.transition.value.(phase := Clearing)))
  {
    var c := Faultless(w.disk, p);
    var w1 := RemoveAliasStep(w.disk, w.process.value, c);
    assert At(w1, p, op, ClearingJournal(ClearMark)) && w1.disk == w.disk;
    var w2 := ClearMarkStep(w.disk, w1.process.value, c);
    assert Drive(w, 2) == Drive(w1, 1) == w2;
  }

  lemma ClearingEnds(w: World, p: PolicyId, op: Op)
    requires At(w, p, op, ClearingJournal(ClearFinish)) && HasDeploy(w.disk, p)
    requires w.disk.transition.Some? && w.disk.transition.value.policy == p
    requires w.process.value.after == InRecovery && w.process.value.clean && (op.DeployOp? || op.RollbackOp?)
    ensures var e := Drive(w, 2);
            && e.disk == WithJournal(w.disk, p, None).(transition := None)
            && At(e, p, op, if op.DeployOp? then Proposing(Record) else RollingBack(RollbackReserve))
  {
    var w1 := ClearFinishStep(w.disk, w.process.value, Faultless(w.disk, p));
    assert At(w1, p, op, ClearingJournal(ClearTransition));
    var w2 := ClearTransitionStep(w1.disk, w1.process.value, Faultless(w1.disk, p));
    assert Drive(w, 2) == Drive(w1, 1) == w2;
  }

  /** The last removal and the three writes that clear the journal. */
  lemma Clearing4(w: World, p: PolicyId, op: Op)
    requires At(w, p, op, Recovering(RemoveAlias)) && HasDeploy(w.disk, p) && w.process.value.todo == []
    requires w.disk.transition.Some? && w.disk.transition.value.policy == p
    requires w.process.value.clean && (op.DeployOp? || op.RollbackOp?)
    ensures var e := Drive(w, 4);
            && e.disk == WithJournal(w.disk, p, None).(transition := None)
            && At(e, p, op, if op.DeployOp? then Proposing(Record) else RollingBack(RollbackReserve))
  {
    ClearingStarts(w, p, op);
    ClearingEnds(Drive(w, 2), p, op);
    DriveAdd(w, 2, 2);
  }

  /** From the first removal to the end of recovery. */
  lemma Finishing(w: World, p: PolicyId, op: Op)
    requires At(w, p, op, Recovering(RemoveAlias)) && HasDeploy(w.disk, p) && Personal !in w.process.value.todo
    requires w.disk.transition.Some? && w.disk.transition.value.policy == p
    requires w.process.value.clean && (op.DeployOp? || op.RollbackOp?)
    ensures var e := Drive(w, 2 * |w.process.value.todo| + 4);
            && At(e, p, op, if op.DeployOp? then Proposing(Record) else RollingBack(RollbackReserve))
            && e.disk.files[p].journal.None? && e.disk.transition.None? && e.disk.owner == w.disk.owner
            && e.disk.files[p].policy == w.disk.files[p].policy
            && e.disk.aliases == w.disk.aliases - (set a <- w.process.value.todo)
  {
    var m := 2 * |w.process.value.todo|;
    RemovingAll(w, p, op);
    Clearing4(Drive(w, m), p, op);
    DriveAdd(w, m, 4);
  }

  // ----- the theorems ------------------------------------------------------

  /** What the next command makes of an uncommitted deployment. */
  predicate Recovered(d: Disk, e: World, p: PolicyId, op: Op)
    requires HasDeploy(d, p)
  {
    var j := d.files[p].journal.value;
    && p in e.disk.files && PersonalContent(e.disk) == j.previous && e.disk.owner == d.owner
    && (if PolicyRecoverable(d.files[p].policy, j) then
          && e.disk.files[p].journal.None? && e.disk.transition.None?
          && e.disk.files[p].policy.models == j.prior
          && Candidate(p, j.id) !in e.disk.aliases
          && (j.previous.Some? ==> Previous(p, j.id) !in e.disk.aliases)
          && At(e, p, op, if op.DeployOp? then Proposing(Record) else RollingBack(RollbackReserve))
        else
          e.process.None? && e.disk.files[p].policy == d.files[p].policy && e.disk.files[p].journal == Some(j))
  }

  lemma UndoTail(d: Disk, w: World, p: PolicyId, op: Op)
    requires At(w, p, op, Recovering(Recover)) && HasDeploy(d, p) && SameDeployment(d, w.disk, p)
    requires Recoverable(w.disk, p) && (op.DeployOp? || op.RollbackOp?)
    requires !CommittedDeploy(d.files[p], d.files[p].journal.value)
    ensures Recovered(d, Drive(w, if d.files[p].journal.value.previous.Some? then 11 else 9), p, op)
  {
    var j := d.files[p].journal.value;
    Undoing3(w, p, op);
    DriveAdd(w, 3, if j.previous.Some? then 8 else 6);
    if PolicyRecoverable(d.files[p].policy, j) {
      UndoEnds(d, Drive(w, 3), p, op);
    }
  }

  lemma UndoEnds(d: Disk, w: World, p: PolicyId, op: Op)
    requires HasDeploy(d, p) && HasDeploy(w.disk, p) && (op.DeployOp? || op.RollbackOp?)
    requires w.disk.transition.Some? && w.disk.transition.value.policy == p && w.disk.owner == d.owner
    requires var j := d.files[p].journal.value;
             && PolicyRecoverable(d.files[p].policy, j) && PersonalContent(w.disk) == j.previous
             && At(w, p, op, Recovering(RemoveAlias)) && w.disk.files[p].policy.models == j.prior
             && w.process.value.clean && w.process.value.todo == Leftovers(p, j)
    ensures Recovered(d, Drive(w, if d.files[p].journal.value.previous.Some? then 8 else 6), p, op)
  {
    Finishing(w, p, op);
    UndoEnded(d, w, Drive(w, 2 * |w.process.value.todo| + 4), p, op);
  }

  lemma UndoEnded(d: Disk, w: World, e: World, p: PolicyId, op: Op)
    requires HasDeploy(d, p) && HasDeploy(w.disk, p) && w.disk.owner == d.owner
    requires var j := d.files[p].journal.value;
             && PolicyRecoverable(d.files[p].policy, j) && PersonalContent(w.disk) == j.previous
             && w.disk.files[p].policy.models == j.prior
             && e.disk.aliases == w.disk.aliases - (set a <- Leftovers(p, j))
    requires At(e, p, op, if op.DeployOp? then Proposing(Record) else RollingBack(RollbackReserve))
    requires e.disk.files[p].journal.None? && e.disk.transition.None? && e.disk.owner == w.disk.owner
    requires e.disk.files[p].policy == w.disk.files[p].policy
    ensures Recovered(d, e, p, op)
  {
    var j := d.files[p].journal.value;
    var todo := Leftovers(p, j);
    assert todo[0] == Candidate(p, j.id) && (j.previous.Some? ==> todo[1] == Previous(p, j.id));
    assert forall a <- todo :: a == Candidate(p, j.id) || a == Previous(p, j.id);
  }

  /** An interrupted, uncommitted deployment, whatever step it stopped at: the next
      command puts the recorded alias content back, and clears the journal with the
      recorded models in force exactly when the policy is one recovery recognises.
      Otherwise it stops, leaving policy and journal for the operator. */
  lemma InterruptedDeploymentRecovers(w: World, p: PolicyId, op: Op)
    requires Inv(w) && w.process.None? && HasDeploy(w.disk, p) && (op.DeployOp? || op.RollbackOp?)
    requires !CommittedDeploy(w.disk.files[p], w.disk.files[p].journal.value)
    ensures Recovered(w.disk, Drive(Act(w, Start(p, op)), UndoSteps(w.disk, p)), p, op)
  {
    Entering(w.disk, p, op);
    var s := Act(w, Start(p, op));
    var k := EntrySteps(w.disk, p);
    InvRecoverable(Drive(s, k).disk, p);
    UndoTail(w.disk, Drive(s, k), p, op);
    DriveAdd(s, k, if w.disk.files[p].journal.value.previous.Some? then 11 else 9);
  }

  lemma FinalizeTail(d: Disk, w: World, p: PolicyId, op: Op)
    requires At(w, p, op, Recovering(Recover)) && HasDeploy(d, p) && SameDeployment(d, w.disk, p)
    requires Recoverable(w.disk, p)
    requires var j := d.files[p].journal.value; CommittedDeploy(d.files[p], j) && j.id !in d.failSafe
    requires op.DeployOp? || op.RollbackOp?
    ensures var j := d.files[p].journal.value;
            var e := Drive(w, if j.oldRecovery.Some? then 10 else 8);
            && At(e, p, op, if op.DeployOp? then Proposing(Record) else RollingBack(RollbackReserve))
            && e.disk.files[p].journal.None? && e.disk.transition.None?
            && PersonalContent(e.disk) == Some(j.candidate) && e.disk.owner == Some(Owner(p, j.candidate))
            && e.disk.files[p].policy == d.files[p].policy && Candidate(p, j.id) !in e.disk.aliases
  {
    var c := Faultless(w.disk, p);
    var j := d.files[p].journal.value;
    var w1 := RecoverStep(w.disk, w.process.value, c);
    assert At(w1, p, op, Recovering(RecoverOwner)) && w1.disk == w.disk;
    var w2 := RecoverOwnerStep(w.disk, w1.process.value, c);
    assert Drive(w, 2) == Drive(w1, 1) == w2;
    assert w2.process.value.todo[0] == Candidate(p, j.id);
    Finishing(w2, p, op);
    DriveAdd(w, 2, 2 * |w2.process.value.todo| + 4);
  }

  /** A deployment that had committed is finalized, never undone: the published
      content and the activated policy stay, ownership is recorded, and the journal goes. */
  lemma CommittedDeploymentFinalizes(w: World, p: PolicyId, op: Op)
    requires Inv(w) && w.process.None? && HasDeploy(w.disk, p) && (op.DeployOp? || op.RollbackOp?)
    requires var j := w.disk.files[p].journal.value;
             CommittedDeploy(w.disk.files[p], j) && j.id !in w.disk.failSafe
    ensures var j := w.disk.files[p].journal.value;
            var e := Drive(Act(w, Start(p, op)), FinalizeSteps(w.disk, p));
            && p in e.disk.files && e.disk.files[p].journal.None? && e.disk.transition.None?
            && PersonalContent(e.disk) == Some(j.candidate) && e.disk.owner == Some(Owner(p, j.candidate))
            && e.disk.files[p].policy == w.disk.files[p].policy
            && w.disk.files[p].policy.models == Activated(j.prior)
            && Candidate(p, j.id) !in e.disk.aliases
  {
    var d := w.disk;
    Entering(d, p, op);
    var s := Act(w, Start(p, op));
    var k := EntrySteps(d, p);
    InvRecoverable(Drive(s, k).disk, p);
    FinalizeTail(d, Drive(s, k), p, op);
    DriveAdd(s, k, if d.files[p].journal.value.oldRecovery.Some? then 10 else 8);
    InvRecoverable(d, p);
  }

  // ----- interrupted rollbacks ---------------------------------------------

  predicate HasRollback(d: Disk, p: PolicyId) {
    p in d.files && d.files[p].journal.Some? && d.files[p].journal.value.RollbackJournal?
  }

  /** Entering the lifecycle with no deployment pending anywhere. */
  lemma EnteringIdle(d: Disk, p: PolicyId, op: Op)
    requires Base(d) && p in d.files && d.transition.None? && (op.DeployOp? || op.RollbackOp?)
    requires op.DeployOp? ==> !ForeignOwner(d, p)
    ensures var w := Drive(Act(World(d, None), Start(p, op)), EntrySteps(d, p));
            && At(w, p, op, Recovering(Recover)) && w.disk.files[p] == d.files[p].(ledger := {})
            && w.disk.transition.None? && PersonalContent(w.disk) == PersonalContent(d) && w.disk.owner == d.owner
  {
    var w0 := Act(World(d, None), Start(p, op));
    var c := Faultless(d, p);
    assert !HasDeploy(d, p);
    var w1 := PrepareStep(d, w0.process.value, c);
    assert StepProcess(d, w0.process.value, c) == w1;
    var w2 := CleanRemoveStep(d, w1.process.value, c);
    assert StepProcess(d, w1.process.value, c) == w2;
    assert Drive(w0, 2) == Drive(w1, 1) == w2;
    if d.files[p].ledger != {} {
      assert FileOk(d.files[p], p, d.nextId);
      var w3 := CleanForgetStep(w2.disk, w2.process.value, c);
      assert StepProcess(w2.disk, w2.process.value, c) == w3;
      var gone := set m | m in d.files[p].ledger && m !in w2.disk.aliases && m in c.removed;
      assert gone == d.files[p].ledger;
      assert Drive(w0, 3) == Drive(w1, 2) == Drive(w2, 1) == w3;
    }
  }

  /** Steps of recovery proper: one more when the policy has to be restored. */
  function RollbackSteps(f: Files): nat
    requires f.journal.Some?
  {
    if f.state.rolledBack == Some(f.journal.value.id) || f.policy.models == f.journal.value.prior then 3 else 4
  }

  lemma RollbackTail(w: World, p: PolicyId, op: Op)
    requires At(w, p, op, Recovering(Recover)) && HasRollback(w.disk, p) && w.disk.transition.None?
    requires RollbackOk(w.disk.files[p], w.disk.files[p].journal.value) && (op.DeployOp? || op.RollbackOp?)
    ensures var f := w.disk.files[p];
            var e := Drive(w, RollbackSteps(f));
            && At(e, p, op, if op.DeployOp? then Proposing(Record) else RollingBack(RollbackReserve))
            && e.disk.files[p].journal.None? && e.disk.transition.None? && e.disk.owner == w.disk.owner
            && e.disk.files[p].policy.models
               == (if f.state.rolledBack == Some(f.journal.value.id) then f.policy.models else f.journal.value.prior)
            && PersonalContent(e.disk) == PersonalContent(w.disk)
  {
    var c := Faultless(w.disk, p);
    var f := w.disk.files[p];
    var w1 := RecoverStep(w.disk, w.process.value, c);
    if RollbackSteps(f) == 3 {
      var w2 := ClearMarkStep(w1.disk, w1.process.value, c);
      var w3 := ClearFinishStep(w2.disk, w2.process.value, c);
      assert Drive(w, 3) == Drive(w1, 2) == Drive(w2, 1) == w3;
    } else {
      var w2 := RollbackNoteStep(w1.disk, w1.process.value, c);
      var w3 := ClearMarkStep(w2.disk, w2.process.value, c);
      var w4 := ClearFinishStep(w3.disk, w3.process.value, c);
      assert Drive(w, 4) == Drive(w1, 3) == Drive(w2, 2) == Drive(w3, 1) == w4;
    }
  }

  /** An interrupted rollback: if it had committed it stands, otherwise the models from
      before it come back; either way the journal is cleared and the alias is untouched. */
  lemma InterruptedRollbackRecovers(w: World, p: PolicyId)
    requires Inv(w) && w.process.None? && HasRollback(w.disk, p) && w.disk.transition.None?
    ensures var f := w.disk.files[p];
            var e := Drive(Act(w, Start(p, RollbackOp)), EntrySteps(w.disk, p) + RollbackSteps(f)).disk;
            && p in e.files && e.files[p].journal.None? && e.transition.None? && e.owner == w.disk.owner
            && e.files[p].policy.models
               == (if f.state.rolledBack == Some(f.journal.value.id) then f.policy.models else f.journal.value.prior)
            && PersonalContent(e) == PersonalContent(w.disk)
  {
    EnteringIdle(w.disk, p, RollbackOp);
    var s := Act(w, Start(p, RollbackOp));
    var k := EntrySteps(w.disk, p);
    assert FileOk(w.disk.files[p], p, w.disk.nextId);
    RollbackTail(Drive(s, k), p, RollbackOp);
    DriveAdd(s, k, RollbackSteps(w.disk.files[p]));
  }
}
