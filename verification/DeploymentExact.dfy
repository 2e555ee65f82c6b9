/** The exact conditions under which releases and takeovers keep routing safe. */
module DeploymentExact {
  import opened Options
  import opened DeploymentModel
  import opened DeploymentInvariant
  import opened DeploymentRouting
  import opened DeploymentTakeover
  import opened DeploymentRecovery
  import opened DeploymentConverse

  // ----- plain runs neither release nor take ------------------------------------------

  lemma {:induction false} PlainOps(w: World, actions: seq<Action>, ops: set<Op>)
    requires w.process.None? && Plain(actions, ops)
    ensures var e := Exec(w, actions);
            e.process.Some? ==>
              OpMatches(e.process.value) && (e.process.value.op in ops || e.process.value.op.RecoverOnly?)
    ensures w.disk.owner.Some? && ReleaseOp !in ops ==> Exec(w, actions).disk.owner.Some?
  {
    if actions != [] {
      var before, a := actions[..|actions| - 1], actions[|actions| - 1];
      assert a in actions && forall b <- before :: b in actions;
      PlainOps(w, before, ops);
      PlainStep(Exec(w, before), a, ops);
    }
  }

  lemma PlainStep(w: World, a: Action, ops: set<Op>)
    requires a.Step? || a.Crash? || (a.Start? && a.op in ops)
    requires w.process.Some? ==>
               OpMatches(w.process.value) && (w.process.value.op in ops || w.process.value.op.RecoverOnly?)
    ensures var e := Act(w, a);
            e.process.Some? ==>
              OpMatches(e.process.value) && (e.process.value.op in ops || e.process.value.op.RecoverOnly?)
    ensures w.disk.owner.Some? && ReleaseOp !in ops ==> Act(w, a).disk.owner.Some?
  {
    if a.Step? && w.process.Some? && w.process.value.policy in w.disk.files {
      StepFollows(w.disk, w.process.value, a.choice);
    }
  }

  lemma {:induction false} PlainReleasesNothing(w: World, actions: seq<Action>, ops: set<Op>)
    requires w.process.None? && Plain(actions, ops) && ReleaseOp !in ops
    ensures SoundReleases(w, actions)
  {
    if actions != [] {
      var before := actions[..|actions| - 1];
      assert forall b <- before :: b in actions;
      PlainReleasesNothing(w, before, ops);
      PlainOps(w, before, ops);
    }
  }

  lemma {:induction false} PlainTakesNothing(w: World, actions: seq<Action>, ops: set<Op>)
    requires w.process.None? && Plain(actions, ops) && ReleaseOp !in ops && AdoptOp !in ops
    requires w.disk.owner.Some? || DeployOp !in ops
    ensures SoundTakeovers(w, actions)
  {
    if actions != [] {
      var before := actions[..|actions| - 1];
      assert forall b <- before :: b in actions;
      PlainTakesNothing(w, before, ops);
      PlainOps(w, before, ops);
    }
  }

  // ----- sound continuations -------------------------------------------------------------

  ghost predicate SoundlyReaches(w: World, e: World) {
    exists actions :: SoundTakeovers(w, actions) && Exec(w, actions) == e
  }

  /** Whatever follows, as long as control is taken soundly, routing stays safe. */
  ghost predicate SafeUnlessTaken(w: World) {
    forall actions | SoundTakeovers(w, actions) :: RoutingSafe(Exec(w, actions).disk)
  }

  /** Whatever follows, as long as ownership is given up soundly, routing stays safe. */
  ghost predicate SafeUnlessReleased(w: World) {
    forall actions | SoundReleases(w, actions) :: RoutingSafe(Exec(w, actions).disk)
  }

  lemma SoundlyUnsafe(w: World, e: World)
    requires SoundlyReaches(w, e) && !RoutingSafe(e.disk)
    ensures !SafeUnlessTaken(w)
  {
    var actions :| SoundTakeovers(w, actions) && Exec(w, actions) == e;
    assert !RoutingSafe(Exec(w, actions).disk);
  }

  lemma PlainlyUnsafe(w: World, e: World, ops: set<Op>)
    requires w.process.None? && Reaches(w, e, ops) && ReleaseOp !in ops && !RoutingSafe(e.disk)
    ensures !SafeUnlessReleased(w)
  {
    var actions :| Plain(actions, ops) && Exec(w, actions) == e;
    PlainReleasesNothing(w, actions, ops);
    assert !RoutingSafe(Exec(w, actions).disk);
  }

  lemma ExclusiveStaysSafe(w: World)
    requires Inv(w) && Exclusive(w)
    ensures SafeUnlessTaken(w)
  {
    forall actions | SoundTakeovers(w, actions) ensures RoutingSafe(Exec(w, actions).disk) {
      SoundTakeoversStaySafe(w, actions);
    }
  }

  lemma RoutedStaysSafe(w: World)
    requires Inv(w) && Routed(w.disk)
    ensures SafeUnlessReleased(w)
  {
    forall actions | SoundReleases(w, actions) ensures RoutingSafe(Exec(w, actions).disk) {
      SoundReleasesStaySafe(w, actions);
    }
  }

  lemma {:induction false} SoundAppend(w: World, a: seq<Action>, b: seq<Action>)
    requires SoundTakeovers(w, a) && SoundTakeovers(Exec(w, a), b)
    ensures SoundTakeovers(w, a + b)
    decreases |b|
  {
    if b == [] {
      assert a + b == a;
    } else {
      var n := |b| - 1;
      assert (a + b)[..|a + b| - 1] == a + b[..n] && (a + b)[|a + b| - 1] == b[n];
      SoundAppend(w, a, b[..n]);
      ExecAppend(w, a, b[..n]);
    }
  }

  lemma SoundlyThen(w: World, e: World, f: World)
    requires SoundlyReaches(w, e) && SoundlyReaches(e, f)
    ensures SoundlyReaches(w, f)
  {
    var a :| SoundTakeovers(w, a) && Exec(w, a) == e;
    var b :| SoundTakeovers(e, b) && Exec(e, b) == f;
    SoundAppend(w, a, b);
    ExecAppend(w, a, b);
  }

  lemma SoundlyAct(w: World, a: Action)
    requires !Takes(w, a)
    ensures SoundlyReaches(w, Act(w, a))
  {
    var actions := [a];
    assert actions[..0] == [] && Exec(w, []) == w && SoundTakeovers(w, []);
    assert Exec(w, actions) == Act(w, a) && SoundTakeovers(w, actions);
  }

  lemma PlainlySoundly(w: World, e: World, ops: set<Op>)
    requires w.process.None? && Reaches(w, e, ops) && ReleaseOp !in ops && AdoptOp !in ops
    requires w.disk.owner.Some? || DeployOp !in ops
    ensures SoundlyReaches(w, e)
  {
    var actions :| Plain(actions, ops) && Exec(w, actions) == e;
    PlainTakesNothing(w, actions, ops);
  }

  // ----- from an admitted first deployment to recorded ownership --------------------------

  /** Policy q is publishing, and no fail-safe routing was written for it. */
  ghost predicate IsPublishing(w: World, q: PolicyId, pc: PublishPc) {
    && Inv(w) && w.process.Some? && w.process.value.policy == q && w.process.value.pc == Publishing(pc)
    && w.process.value.id !in w.disk.failSafe
  }

  function NextPublish(pr: Process): PublishPc
    requires pr.pc.Publishing?
  {
    match pr.pc.publish
    case Quiesce => if NamesPersonal(pr.prior) then NoteQuiesced else NotePublishing
    case NoteQuiesced => NotePublishing
    case NotePublishing => Publish
    case Publish => NotePublished
    case NotePublished => FinalSuite
    case FinalSuite => NoteVerified
    case NoteVerified => Activate
    case Activate => NoteActivated
    case NoteActivated => NoteOld
    case NoteOld => CommitState
    case CommitState => WriteOwner
    case other => other
  }

  function PublishingLeft(pc: PublishPc): nat {
    match pc
    case Quiesce => 11
    case NoteQuiesced => 10
    case NotePublishing => 9
    case Publish => 8
    case NotePublished => 7
    case FinalSuite => 6
    case NoteVerified => 5
    case Activate => 4
    case NoteActivated => 3
    case NoteOld => 2
    case CommitState => 1
    case _ => 0
  }

  /** What a successful step of the publication leaves. */
  predicate Onward(w: World, v: World, q: PolicyId)
    requires w.process.Some? && w.process.value.pc.Publishing?
  {
    && v.process.Some? && v.process.value.policy == q
    && v.process.value.pc == Publishing(NextPublish(w.process.value))
    && v.process.value.id == w.process.value.id && v.disk.failSafe == w.disk.failSafe
  }

  lemma NoteOnward(w: World, q: PolicyId, pc: PublishPc)
    requires IsPublishing(w, q, pc)
    requires pc.NoteQuiesced? || pc.NotePublishing? || pc.NotePublished? || pc.NoteVerified? || pc.NoteActivated?
    ensures Onward(w, Act(w, Step(Succeeds(0))), q)
  {
  }

  lemma WriteOnward(w: World, q: PolicyId, pc: PublishPc)
    requires IsPublishing(w, q, pc)
    requires pc.Quiesce? || pc.Publish? || pc.FinalSuite? || pc.Activate?
    ensures Onward(w, Act(w, Step(Succeeds(0))), q)
  {
  }

  lemma CommitOnward(w: World, q: PolicyId, pc: PublishPc)
    requires IsPublishing(w, q, pc) && (pc.NoteOld? || pc.CommitState?)
    ensures Onward(w, Act(w, Step(Succeeds(0))), q)
  {
  }

  lemma PublishingDwindles(pr: Process)
    requires pr.pc.Publishing? && !AfterCommit(pr.pc.publish)
    ensures PublishingLeft(NextPublish(pr)) < PublishingLeft(pr.pc.publish)
    ensures AfterCommit(NextPublish(pr)) ==> NextPublish(pr).WriteOwner?
  {
  }

  lemma StepOnward(w: World, q: PolicyId, pc: PublishPc)
    requires IsPublishing(w, q, pc) && !AfterCommit(pc)
    ensures Onward(w, Act(w, Step(Succeeds(0))), q)
  {
    if pc.NoteOld? || pc.CommitState? {
      CommitOnward(w, q, pc);
    } else if pc.Quiesce? || pc.Publish? || pc.FinalSuite? || pc.Activate? {
      WriteOnward(w, q, pc);
    } else {
      NoteOnward(w, q, pc);
    }
  }

  lemma PublishingStep(w: World, q: PolicyId, pc: PublishPc) returns (v: World, next: PublishPc)
    requires IsPublishing(w, q, pc) && !AfterCommit(pc)
    ensures SoundlyReaches(w, v) && IsPublishing(v, q, next) && OwnFiles(w.disk, v.disk, q)
    ensures PublishingLeft(next) < PublishingLeft(pc) && (AfterCommit(next) ==> next.WriteOwner?)
  {
    var c := Succeeds(0);
    PublishingDwindles(w.process.value);
    StepOnward(w, q, pc);
    ActKeeps(w, Step(c));
    StepOwnFiles(w, c);
    SoundlyAct(w, Step(c));
    v, next := Act(w, Step(c)), NextPublish(w.process.value);
  }

  /** A deployment that may publish can be driven to its commit, without taking anything. */
  lemma {:induction false} Commits(w: World, q: PolicyId, pc: PublishPc) returns (e: World)
    requires IsPublishing(w, q, pc) && (AfterCommit(pc) ==> pc.WriteOwner?)
    ensures SoundlyReaches(w, e) && IsPublishing(e, q, WriteOwner) && OwnFiles(w.disk, e.disk, q)
    decreases PublishingLeft(pc)
  {
    if pc.WriteOwner? {
      assert SoundTakeovers(w, []) && Exec(w, []) == w;
      e := w;
    } else {
      var v, next := PublishingStep(w, q, pc);
      e := Commits(v, q, next);
      SoundlyThen(w, v, e);
      OwnFilesThen(w.disk, v.disk, e.disk, q);
    }
  }

  /** Killed there and recovered, its policy owns the alias and nothing is pending. */
  lemma BecomesOwner(w: World, q: PolicyId) returns (e: World)
    requires IsPublishing(w, q, Quiesce)
    ensures SoundlyReaches(w, e) && Inv(e) && e.process.None? && e.disk.transition.None?
    ensures OwnFiles(w.disk, e.disk, q) && OwnedBy(e.disk, q)
    ensures PersonalContent(e.disk) == Some(e.disk.owner.value.content)
  {
    var v := Commits(w, q, Quiesce);
    e := RecoversToOwner(v, q);
    SoundlyThen(w, v, e);
    OwnFilesThen(w.disk, v.disk, e.disk, q);
  }

  lemma RecoversToOwner(v: World, q: PolicyId) returns (e: World)
    requires IsPublishing(v, q, WriteOwner)
    ensures SoundlyReaches(v, e) && Inv(e) && e.process.None? && e.disk.transition.None?
    ensures OwnFiles(v.disk, e.disk, q) && OwnedBy(e.disk, q)
    ensures PersonalContent(e.disk) == Some(e.disk.owner.value.content)
  {
    var dead := Act(v, Crash);
    SoundlyAct(v, Crash);
    ActKeeps(v, Crash);
    CommittedDeploymentFinalizes(dead, q, RollbackOp);
    e := CommandReaches(dead, q, RollbackOp, FinalizeSteps(dead.disk, q), {RollbackOp});
    PlainlySoundly(dead, e, {RollbackOp});
    SoundlyThen(v, dead, e);
  }

  // ----- takeovers -------------------------------------------------------------------------

  /** The claim of another policy, next to an owner with nothing pending, can be turned
      into a route to something untrusted. */
  lemma OwnerRoutesOthers(w: World, p: PolicyId, q: PolicyId) returns (e: World)
    requires Inv(w) && w.process.None? && p in w.disk.files && q in w.disk.files && p != q
    requires w.disk.transition.None? && Claims(w.disk, p) && OwnedBy(w.disk, q)
    requires PersonalContent(w.disk) == Some(w.disk.owner.value.content)
    ensures SoundlyReaches(w, e) && !RoutingSafe(e.disk)
  {
    var ops := {RollbackOp, DeployOp};
    e := ClaimMeetsOwner(w, p, q, ops);
    PlainlySoundly(w, e, ops);
  }

  /** An owner with an uncommitted deployment that recovery can undo gets rid of it. */
  lemma RecoversToIdle(v: World, q: PolicyId) returns (e: World)
    requires Inv(v) && v.process.None? && HasDeploy(v.disk, q)
    requires var j := v.disk.files[q].journal.value;
             && !CommittedDeploy(v.disk.files[q], j) && PolicyRecoverable(v.disk.files[q].policy, j)
    ensures SoundlyReaches(v, e) && Inv(e) && e.process.None? && e.disk.transition.None?
    ensures OwnFiles(v.disk, e.disk, q) && e.disk.owner == v.disk.owner
    ensures PersonalContent(e.disk) == v.disk.files[q].journal.value.previous
  {
    InterruptedDeploymentRecovers(v, q, RollbackOp);
    e := CommandReaches(v, q, RollbackOp, UndoSteps(v.disk, q), {RollbackOp});
    PlainlySoundly(v, e, {RollbackOp});
  }

  lemma UnsoundAdoption(w: World, c: Choice, p: PolicyId) returns (e: World)
    requires Inv(w) && Exclusive(w) && Takes(w, Step(c)) && w.process.value.pc == Entry(Adopt)
    requires p in w.disk.files && p != w.process.value.policy && Claims(w.disk, p)
    requires !Stuck(w.disk, w.process.value.policy)
    ensures SoundlyReaches(Act(w, Step(c)), e) && !RoutingSafe(e.disk)
  {
    var q, v := w.process.value.policy, Act(w, Step(c));
    ActKeeps(w, Step(c));
    assert v == World(w.disk.(owner := Some(Owner(q, w.disk.aliases[Personal]))), None);
    if w.disk.transition.None? {
      e := OwnerRoutesOthers(v, p, q);
    } else {
      assert HasDeploy(v.disk, q) && !Landed(w.disk, q);
      var idle := RecoversToIdle(v, q);
      e := OwnerRoutesOthers(idle, p, q);
      SoundlyThen(v, idle, e);
    }
  }

  lemma UnsoundFirstDeployment(w: World, c: Choice, p: PolicyId) returns (e: World)
    requires Inv(w) && Takes(w, Step(c)) && w.process.value.pc == Proposing(Check)
    requires p in w.disk.files && p != w.process.value.policy && Claims(w.disk, p)
    ensures SoundlyReaches(Act(w, Step(c)), e) && !RoutingSafe(e.disk)
  {
    var q, v := w.process.value.policy, Act(w, Step(c));
    ActKeeps(w, Step(c));
    assert v.disk == w.disk && IsPublishing(v, q, Quiesce);
    var idle := BecomesOwner(v, q);
    assert idle.disk.files[p] == w.disk.files[p];
    e := OwnerRoutesOthers(idle, p, q);
    SoundlyThen(v, idle, e);
  }

  lemma UnsoundTakeover(w: World, a: Action)
    requires Inv(w) && Exclusive(w) && Takes(w, a) && !SoundTakeover(w, a)
    ensures !SafeUnlessTaken(Act(w, a))
  {
    var p :| p in w.disk.files && p != w.process.value.policy && Claims(w.disk, p);
    var e: World;
    if w.process.value.pc == Entry(Adopt) {
      e := UnsoundAdoption(w, a.choice, p);
    } else {
      e := UnsoundFirstDeployment(w, a.choice, p);
    }
    SoundlyUnsafe(Act(w, a), e);
  }

  /** Taking control of an unowned alias is safe, whatever follows, if and only if no
      other policy claims the alias, or the taker's own deployment is beyond recovery. */
  lemma TakeoverIsSafeIff(w: World, a: Action)
    requires Inv(w) && Exclusive(w) && Takes(w, a)
    ensures SafeUnlessTaken(Act(w, a)) <==> SoundTakeover(w, a)
  {
    if SoundTakeover(w, a) {
      ActKeeps(w, a);
      ActExclusive(w, a);
      ExclusiveStaysSafe(Act(w, a));
    } else {
      UnsoundTakeover(w, a);
    }
  }

  /** An endpoint with a recorded owner of what the alias holds is safe to run on if and
      only if no other policy routes to the alias. */
  lemma StartIsSafeIff(w: World, q: PolicyId)
    requires Init(w) && q in w.disk.files && OwnedBy(w.disk, q)
    requires PersonalContent(w.disk) == Some(w.disk.owner.value.content)
    ensures SafeUnlessTaken(w) <==> Alone(w.disk, q)
  {
    InitInv(w);
    if Alone(w.disk, q) {
      ExclusiveStaysSafe(w);
    } else {
      var p :| p in w.disk.files && p != q && Claims(w.disk, p);
      var e := OwnerRoutesOthers(w, p, q);
      SoundlyUnsafe(w, e);
    }
  }

  // ----- releases -----------------------------------------------------------------------------

  /** Another policy adopts the alias it finds, if it finds one. */
  lemma BecomesAdmissible(w: World, q: PolicyId, ops: set<Op>) returns (e: World)
    requires Inv(w) && w.process.None? && q in w.disk.files && w.disk.transition.None? && w.disk.owner.None?
    requires AdoptOp in ops
    ensures Reaches(w, e, ops) && Inv(e) && e.process.None? && e.disk.transition.None?
    ensures e.disk.files == w.disk.files && Admissible(e.disk, q)
  {
    if Personal !in w.disk.aliases {
      ReachesItself(w, ops);
      e := w;
    } else {
      var c := Succeeds(0);
      var w1 := Act(w, Start(q, AdoptOp));
      var w2 := Act(w1, Step(c));
      assert w2.process.Some? && w2.process.value.pc == Entry(Adopt) && w2.disk == w.disk;
      assert w2.process.value.policy == q;
      e := Act(w2, Step(c));
      assert e == World(w.disk.(owner := Some(Owner(q, w.disk.aliases[Personal]))), None);
      ReachesAct(w, Start(q, AdoptOp), ops);
      ReachesAct(w1, Step(c), ops);
      ReachesAct(w2, Step(c), ops);
      ReachesThen(w, w1, w2, ops);
      ReachesThen(w, w2, e, ops);
      ReachesKeeps(w, e, ops);
    }
  }

  lemma UnsoundRelease(w: World, c: Choice, q: PolicyId) returns (e: World, ops: set<Op>)
    requires Inv(w) && Releases(w, Step(c)) && WouldRoute(w.disk, w.process.value.policy)
    requires q in w.disk.files && q != w.process.value.policy
    ensures ReleaseOp !in ops && Reaches(Act(w, Step(c)), e, ops) && !RoutingSafe(e.disk)
  {
    var p, v := w.process.value.policy, Act(w, Step(c));
    ops := {RollbackOp, AdoptOp, DeployOp};
    ActKeeps(w, Step(c));
    assert v == World(w.disk.(owner := None), None) && WouldRoute(v.disk, p);
    assert Entered(w.disk, w.process.value);
    e := UnownedRouteIsUnsafe(v, p, q, ops);
  }

  /** Without an owner, a policy that would route and any second policy make it unsafe. */
  lemma UnownedRouteIsUnsafe(v: World, p: PolicyId, q: PolicyId, ops: set<Op>) returns (e: World)
    requires Inv(v) && v.process.None? && p in v.disk.files && q in v.disk.files && p != q
    requires v.disk.owner.None? && WouldRoute(v.disk, p) && (v.disk.transition.None? || HasDeploy(v.disk, p))
    requires ops == {RollbackOp, AdoptOp, DeployOp}
    ensures Reaches(v, e, ops) && !RoutingSafe(e.disk)
  {
    var routed := RouteRestored(v, p, ops);
    var ready := BecomesAdmissible(routed, q, ops);
    e := RouteMeetsDeployment(ready, p, q, ops);
    ReachesThen(v, routed, ready, ops);
    ReachesThen(v, ready, e, ops);
  }

  /** On an endpoint that a second policy shares, giving up ownership is safe, whatever
      follows, if and only if recovery of the releasing policy would not route to the alias. */
  lemma ReleaseIsSafeIff(w: World, a: Action, q: PolicyId)
    requires Inv(w) && Routed(w.disk) && Releases(w, a) && q in w.disk.files && q != w.process.value.policy
    ensures SafeUnlessReleased(Act(w, a)) <==> SoundRelease(w, a)
  {
    if SoundRelease(w, a) {
      ActKeeps(w, a);
      ActRouted(w, a);
      RoutedStaysSafe(Act(w, a));
    } else {
      var e, ops := UnsoundRelease(w, a.choice, q);
      PlainlyUnsafe(Act(w, a), e, ops);
    }
  }
}
