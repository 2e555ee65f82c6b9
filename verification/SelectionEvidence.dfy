/** Evidence rows grouped into interactions and streamed through the selector. */
module SelectionEvidence {
  import opened Options
  import opened Selection

  const MAX_EVIDENCE: nat := 200_000
  const MAX_INTERACTIONS: nat := 50_000

  /** An SQLite row id, a signed 64-bit number. */
  type RowId = x: int | -0x8000_0000_0000_0000 <= x < 0x8000_0000_0000_0000

  /** What the selection needs to know of an interaction's task and response. */
  datatype Text = Text(
    hasText: bool, fieldTooLarge: bool, private: bool, key: string, chars: nat, encoded: Option<nat>,
    recordChars: nat)

  /** One recorded outcome, joined with its interaction; a reward that is not a finite
      number is `None`. */
  datatype Evidence = Evidence(
    id: string, signal: string, reward: Option<real>, byCaller: bool, rowid: RowId, text: Text)

  // ----- what one outcome says ----------------------------------------------------

  /** The shipped prices, in hundredths. */
  function Price(signal: string): Option<int> {
    if signal == "tests_passed" then Some(100)
    else if signal == "used" then Some(90)
    else if signal == "copied" then Some(85)
    else if signal == "accepted" then Some(80)
    else if signal == "edited" then Some(75)
    else if signal == "compiled" then Some(70)
    else if signal == "rejected" then Some(-50)
    else if signal == "failed" then Some(-100)
    else None
  }

  predicate Execution(signal: string) {
    signal == "tests_passed" || signal == "compiled" || signal == "failed"
  }

  predicate Canonical(e: Evidence) {
    Price(e.signal).Some? && e.reward == Some(Price(e.signal).value as real / 100.0)
  }

  /** Trustworthy and at or above the threshold of 0.71. */
  predicate Endorses(e: Evidence) {
    Canonical(e) && Price(e.signal).value >= 71
  }

  /** Untrustworthy or negative. A weak positive neither endorses nor disputes. */
  predicate Disputes(e: Evidence) {
    !Canonical(e) || Price(e.signal).value < 0
  }

  /** Whether a caller judged the work, or the runtime itself. */
  predicate CallerJudged(e: Evidence) {
    e.byCaller || !Execution(e.signal)
  }

  /** The evidence tuple (population, price, row id) as one number: it compares alike,
      and no two outcomes share it. */
  function Rank(e: Evidence): int
    requires Price(e.signal).Some?
  {
    ((if CallerJudged(e) then 2000 else 1000) + Price(e.signal).value) * 0x1_0000_0000_0000_0000 + e.rowid
  }

  lemma RankCompares(a: Evidence, b: Evidence)
    requires Endorses(a) && Endorses(b)
    ensures Rank(a) < Rank(b)
            <==> (if CallerJudged(a) != CallerJudged(b) then CallerJudged(b)
                  else if Price(a.signal) != Price(b.signal) then Price(a.signal).value < Price(b.signal).value
                  else a.rowid < b.rowid)
    ensures Rank(a) == Rank(b) ==> a.rowid == b.rowid
  {
    var width := 0x1_0000_0000_0000_0000;
    var x := (if CallerJudged(a) then 2000 else 1000) + Price(a.signal).value;
    var y := (if CallerJudged(b) then 2000 else 1000) + Price(b.signal).value;
    assert Rank(a) == x * width + a.rowid && Rank(b) == y * width + b.rowid;
    if x < y {
      assert (x + 1) * width <= y * width;
    } else if y < x {
      assert (y + 1) * width <= x * width;
    }
  }

  // ----- one interaction ------------------------------------------------------------

  /** An interaction while its rows come in. */
  datatype Tally = Tally(first: Evidence, best: Option<Good>, contradictory: bool)

  type Good = e: Evidence | Endorses(e)
    witness Evidence("", "tests_passed", Some(1.0), false, 0, Text(false, false, false, "", 0, None, 0))

  /** One more row of the same interaction. */
  function Weigh(t: Tally, e: Evidence): Tally {
    if !Canonical(e) then t.(contradictory := true)
    else if Price(e.signal).value >= 71 then
      if t.best.None? || Rank(e) > Rank(t.best.value) then t.(best := Some(e)) else t
    else if Price(e.signal).value < 0 then t.(contradictory := true)
    else t
  }

  function TallyOf(run: seq<Evidence>): Tally
    requires run != []
  {
    if |run| == 1 then Weigh(Tally(run[0], None, false), run[0])
    else Weigh(TallyOf(run[..|run| - 1]), run[|run| - 1])
  }

  /** What the selector is given for the interaction. */
  function Finished(t: Tally): Group {
    var text := t.first.text;
    Group(text.hasText, text.fieldTooLarge, t.best.Some?, t.contradictory, text.private,
          Candidate(text.key, if t.best.Some? then Rank(t.best.value) else 0, text.chars, text.encoded,
                    text.recordChars))
  }

  lemma {:induction false} TallyDisputes(run: seq<Evidence>)
    requires run != []
    ensures TallyOf(run).first == run[0]
    ensures TallyOf(run).contradictory <==> exists e <- run :: Disputes(e)
  {
    var before, e := run[..|run| - 1], run[|run| - 1];
    assert run == before + [e];
    assert e in run;
    if before != [] {
      TallyDisputes(before);
      assert (exists d <- run :: Disputes(d)) <==> Disputes(e) || exists d <- before :: Disputes(d);
    }
  }

  lemma {:induction false} TallyEndorses(run: seq<Evidence>)
    requires run != []
    ensures var best := TallyOf(run).best;
            && (best.None? ==> forall e <- run :: !Endorses(e))
            && (best.Some? ==> best.value in run && Strongest(best.value, run))
  {
    var before, e := run[..|run| - 1], run[|run| - 1];
    assert run == before + [e];
    if before != [] {
      TallyEndorses(before);
    }
  }

  /** The interaction speaks for its first row, is disputed exactly when some row disputes
      it, and rests on the strongest row that endorses it, if there is one. */
  lemma TallyMeans(run: seq<Evidence>)
    requires run != []
    ensures var t := TallyOf(run);
            && t.first == run[0]
            && (t.contradictory <==> exists e <- run :: Disputes(e))
            && (t.best.None? <==> forall e <- run :: !Endorses(e))
            && (t.best.Some? ==> t.best.value in run && Strongest(t.best.value, run))
  {
    TallyDisputes(run);
    TallyEndorses(run);
  }

  ghost predicate Strongest(b: Evidence, run: seq<Evidence>) {
    Endorses(b) && forall e <- run | Endorses(e) :: Rank(e) <= Rank(b)
  }

  /** A caller's judgement is never displaced by the runtime's own marking. */
  lemma CallerComesFirst(run: seq<Evidence>, e: Evidence)
    requires e in run && Endorses(e) && CallerJudged(e)
    ensures var t := TallyOf(run); t.best.Some? && CallerJudged(t.best.value)
  {
    TallyMeans(run);
    RankCompares(TallyOf(run).best.value, e);
  }

  // ----- interactions ----------------------------------------------------------------

  type Run = r: seq<Evidence> | r != [] witness
    [Evidence("", "", None, false, 0, Text(false, false, false, "", 0, None, 0))]

  predicate Continues(runs: seq<Run>, e: Evidence) {
    runs != [] && e.id == runs[|runs| - 1][0].id
  }

  function Joined(runs: seq<Run>, e: Evidence): (r: seq<Run>)
    ensures r != []
  {
    if Continues(runs, e) then runs[..|runs| - 1] + [runs[|runs| - 1] + [e]] else runs + [[e]]
  }

  /** The rows cut where the interaction changes. */
  function Runs(rows: seq<Evidence>): seq<Run> {
    if rows == [] then [] else Joined(Runs(rows[..|rows| - 1]), rows[|rows| - 1])
  }

  function GroupsOf(runs: seq<Run>): (g: seq<Group>)
    ensures |g| == |runs| && forall i | 0 <= i < |runs| :: g[i] == Finished(TallyOf(runs[i]))
  {
    seq(|runs|, i requires 0 <= i < |runs| => Finished(TallyOf(runs[i])))
  }

  function Flat(runs: seq<Run>): seq<Evidence> {
    if runs == [] then [] else Flat(runs[..|runs| - 1]) + runs[|runs| - 1]
  }

  ghost predicate OneInteraction(run: Run) {
    forall e <- run :: e.id == run[0].id
  }

  lemma RunsStep(rows: seq<Evidence>, e: Evidence)
    ensures Runs(rows + [e]) == Joined(Runs(rows), e)
  {
    assert (rows + [e])[..|rows|] == rows;
  }

  lemma JoinedFlat(runs: seq<Run>, e: Evidence)
    ensures Flat(Joined(runs, e)) == Flat(runs) + [e]
  {
    var next := Joined(runs, e);
    if Continues(runs, e) {
      assert next[..|next| - 1] == runs[..|runs| - 1];
      assert Flat(runs[..|runs| - 1]) + (runs[|runs| - 1] + [e]) == Flat(runs) + [e];
    } else {
      assert next[..|next| - 1] == runs;
    }
  }

  /** Every row is in exactly one run, in its place; a run is one interaction, and the
      next run is another one. */
  lemma {:induction false} RunsPartition(rows: seq<Evidence>)
    ensures Flat(Runs(rows)) == rows
    ensures forall run <- Runs(rows) :: OneInteraction(run)
    ensures forall i | 0 < i < |Runs(rows)| :: Runs(rows)[i - 1][0].id != Runs(rows)[i][0].id
  {
    if rows != [] {
      var before, e := rows[..|rows| - 1], rows[|rows| - 1];
      RunsPartition(before);
      JoinedFlat(Runs(before), e);
      assert rows == before + [e];
      JoinedRuns(Runs(before), e);
    }
  }

  ghost predicate Alternate(runs: seq<Run>) {
    && (forall run <- runs :: OneInteraction(run))
    && (forall i | 0 < i < |runs| :: runs[i - 1][0].id != runs[i][0].id)
  }

  lemma JoinedRuns(runs: seq<Run>, e: Evidence)
    requires Alternate(runs)
    ensures Alternate(Joined(runs, e))
  {
    var next := Joined(runs, e);
    var n := |next| - 1;
    assert OneInteraction(next[n]) by {
      if Continues(runs, e) {
        assert runs[n] in runs;
      }
    }
    forall run <- next ensures OneInteraction(run) {
      if run != next[n] {
        assert run in runs;
      }
    }
  }

  // ----- whole interactions -----------------------------------------------------------

  /** The rows of one interaction stand together, as the query orders them. */
  ghost predicate Clustered(rows: seq<Evidence>) {
    forall i, j, k | 0 <= i < j < k < |rows| && rows[i].id == rows[k].id :: rows[j].id == rows[i].id
  }

  function Of(rows: seq<Evidence>, id: string): seq<Evidence> {
    if rows == [] then []
    else Of(rows[..|rows| - 1], id) + if rows[|rows| - 1].id == id then [rows[|rows| - 1]] else []
  }

  ghost predicate Whole(rows: seq<Evidence>, runs: seq<Run>) {
    && (forall i | 0 <= i < |runs| :: runs[i] == Of(rows, runs[i][0].id))
    && (forall i, j | 0 <= i < j < |runs| :: runs[i][0].id != runs[j][0].id)
  }

  lemma OfNone(rows: seq<Evidence>, id: string)
    ensures Of(rows, id) == [] <==> forall e <- rows :: e.id != id
  {
    if rows != [] {
      OfNone(rows[..|rows| - 1], id);
      assert rows == rows[..|rows| - 1] + [rows[|rows| - 1]];
    }
  }

  lemma ClusteredFresh(rows: seq<Evidence>, e: Evidence)
    requires rows != [] && Clustered(rows + [e]) && rows[|rows| - 1].id != e.id
    ensures forall d <- rows :: d.id != e.id
  {
    var all := rows + [e];
    forall d <- rows ensures d.id != e.id {
      var i :| 0 <= i < |rows| && rows[i] == d;
      assert all[i] == d && all[|rows| - 1] == rows[|rows| - 1] && all[|rows|] == e;
    }
  }

  lemma LastRun(rows: seq<Evidence>)
    requires rows != []
    ensures Runs(rows) != [] && Runs(rows)[|Runs(rows)| - 1][0].id == rows[|rows| - 1].id
  {
  }

  lemma OfStep(rows: seq<Evidence>, e: Evidence, id: string)
    ensures Of(rows + [e], id) == Of(rows, id) + if e.id == id then [e] else []
  {
    assert (rows + [e])[..|rows|] == rows;
  }

  lemma WholeContinued(rows: seq<Evidence>, runs: seq<Run>, e: Evidence)
    requires Whole(rows, runs) && Continues(runs, e)
    ensures Whole(rows + [e], Joined(runs, e))
  {
    var next := Joined(runs, e);
    forall i | 0 <= i < |next| ensures next[i][0] == runs[i][0] && next[i] == Of(rows + [e], next[i][0].id) {
      OfStep(rows, e, runs[i][0].id);
      assert runs[i] + [] == runs[i];
    }
  }

  lemma WholeStarted(rows: seq<Evidence>, runs: seq<Run>, e: Evidence)
    requires Whole(rows, runs) && !Continues(runs, e) && Of(rows, e.id) == []
    ensures Whole(rows + [e], Joined(runs, e))
  {
    var next := Joined(runs, e);
    OfStep(rows, e, e.id);
    assert next[|runs|] == [e] == Of(rows + [e], e.id);
    forall i | 0 <= i < |runs| ensures next[i] == runs[i] == Of(rows + [e], runs[i][0].id) && runs[i][0].id != e.id {
      OfStep(rows, e, runs[i][0].id);
      assert runs[i] == Of(rows, runs[i][0].id);
      assert runs[i] + [] == runs[i];
    }
  }

  lemma WholeNext(rows: seq<Evidence>, e: Evidence)
    requires Whole(rows, Runs(rows)) && Clustered(rows + [e])
    ensures Whole(rows + [e], Joined(Runs(rows), e))
  {
    if Continues(Runs(rows), e) {
      WholeContinued(rows, Runs(rows), e);
    } else {
      if rows != [] {
        LastRun(rows);
        ClusteredFresh(rows, e);
      }
      OfNone(rows, e.id);
      WholeStarted(rows, Runs(rows), e);
    }
  }

  /** When the rows of an interaction stand together, each run is all the evidence there
      is for its interaction, and no interaction is counted twice. */
  lemma {:induction false} InteractionsAreWhole(rows: seq<Evidence>)
    requires Clustered(rows)
    ensures Whole(rows, Runs(rows))
  {
    if rows != [] {
      var before, e := rows[..|rows| - 1], rows[|rows| - 1];
      assert rows == before + [e];
      InteractionsAreWhole(before);
      WholeNext(before, e);
    }
  }

  // ----- distinct ranks -----------------------------------------------------------------

  ghost predicate DistinctRows(rows: seq<Evidence>) {
    forall i, j | 0 <= i < j < |rows| :: rows[i].rowid != rows[j].rowid
  }

  ghost predicate Within(run: Run, rows: seq<Evidence>) {
    forall e <- run :: e in rows
  }

  ghost predicate RowsApart(a: Run, b: Run) {
    forall d <- a, e <- b :: d.rowid != e.rowid
  }

  lemma {:induction false} RunsWithin(rows: seq<Evidence>)
    ensures forall run <- Runs(rows) :: Within(run, rows)
  {
    if rows != [] {
      var before, e := rows[..|rows| - 1], rows[|rows| - 1];
      RunsWithin(before);
      assert rows == before + [e];
      var runs := Runs(before);
      forall run <- Joined(runs, e) ensures Within(run, rows) {
        if Continues(runs, e) {
          assert runs[|runs| - 1] in runs && Within(runs[|runs| - 1], before);
        }
        assert run in runs ==> Within(run, before);
      }
    }
  }

  lemma {:induction false} RunsApart(rows: seq<Evidence>)
    requires DistinctRows(rows)
    ensures forall i, j | 0 <= i < j < |Runs(rows)| :: RowsApart(Runs(rows)[i], Runs(rows)[j])
  {
    if rows != [] {
      var before, e := rows[..|rows| - 1], rows[|rows| - 1];
      RunsApart(before);
      RunsWithin(before);
      var runs := Runs(before);
      var next := Joined(runs, e);
      forall i, j | 0 <= i < j < |next| ensures RowsApart(next[i], next[j]) {
        assert runs[i] in runs && next[i] == runs[i];
        assert j < |runs| ==> RowsApart(runs[i], runs[j]);
        assert forall d <- next[i] :: d in before && d.rowid != e.rowid;
      }
    }
  }

  lemma RanksDiffer(a: Run, b: Run)
    requires RowsApart(a, b) && TallyOf(a).best.Some? && TallyOf(b).best.Some?
    ensures Finished(TallyOf(a)).candidate.rank != Finished(TallyOf(b)).candidate.rank
  {
    TallyMeans(a);
    TallyMeans(b);
    RankCompares(TallyOf(a).best.value, TallyOf(b).best.value);
  }

  /** No two interactions that stand for selection share a rank. */
  lemma GroupsDistinct(rows: seq<Evidence>)
    requires DistinctRows(rows)
    ensures DistinctInteractions(GroupsOf(Runs(rows)))
  {
    var runs := Runs(rows);
    var groups := GroupsOf(runs);
    RunsApart(rows);
    forall i, j | 0 <= i < j < |groups| && Ineligible(groups[i]).None? && Ineligible(groups[j]).None?
      ensures groups[i].candidate.rank != groups[j].candidate.rank
    {
      RanksDiffer(runs[i], runs[j]);
    }
  }

  // ----- the loop ---------------------------------------------------------------------------

  lemma {:induction false} RunsGrow(rows: seq<Evidence>, n: nat)
    requires n <= |rows|
    ensures |Runs(rows[..n])| <= |Runs(rows)|
    decreases |rows|
  {
    if n < |rows| {
      RunsGrow(rows[..|rows| - 1], n);
      assert rows[..|rows| - 1][..n] == rows[..n];
    } else {
      assert rows[..n] == rows;
    }
  }

  /** The interactions that are over once these rows have been seen. */
  ghost function ClosedOf(rows: seq<Evidence>): seq<Run> {
    var runs := Runs(rows);
    if runs == [] then [] else runs[..|runs| - 1]
  }

  /** The interaction still under way. */
  ghost function OpenOf(rows: seq<Evidence>): Option<Tally> {
    var runs := Runs(rows);
    if runs == [] then None else Some(TallyOf(runs[|runs| - 1]))
  }

  /** The next row belongs to the interaction under way, or closes it and opens another. */
  lemma NextStanding(rows: seq<Evidence>, e: Evidence)
    ensures var open := OpenOf(rows);
            if open.Some? && e.id == open.value.first.id
            then ClosedOf(rows + [e]) == ClosedOf(rows) && OpenOf(rows + [e]) == Some(Weigh(open.value, e))
            else ClosedOf(rows + [e]) == Runs(rows)
                 && OpenOf(rows + [e]) == Some(Weigh(Tally(e, None, false), e))
  {
    var runs := Runs(rows);
    RunsStep(rows, e);
    if runs != [] {
      var run := runs[|runs| - 1];
      assert (run + [e])[..|run|] == run;
      TallyDisputes(run);
    }
  }

  /** Where the loop stands after some rows. */
  ghost predicate Upto(s: Selector, rows: seq<Evidence>, current: Option<Tally>, count: nat)
    reads s
  {
    current == OpenOf(rows) && count == |ClosedOf(rows)| && Streamed(s, GroupsOf(ClosedOf(rows)))
  }

  ghost predicate Completes(groups: seq<Group>, closed: seq<Group>, g: Group) {
    DistinctInteractions(groups) && groups == closed + [g]
  }

  lemma CloseReady(rows: seq<Evidence>)
    requires DistinctRows(rows) && OpenOf(rows).Some?
    ensures |Runs(rows)| == |ClosedOf(rows)| + 1
    ensures Completes(GroupsOf(Runs(rows)), GroupsOf(ClosedOf(rows)), Finished(OpenOf(rows).value))
  {
    GroupsDistinct(rows);
    var groups := GroupsOf(Runs(rows));
    assert groups == groups[..|groups| - 1] + [groups[|groups| - 1]];
    assert groups[..|groups| - 1] == GroupsOf(ClosedOf(rows));
  }

  method CloseGroup(s: Selector, g: Group, ghost groups: seq<Group>, ghost closed: seq<Group>)
    requires Completes(groups, closed, g) && Streamed(s, closed)
    modifies s
    ensures Streamed(s, groups)
  {
    assert groups[..|closed|] == closed && groups[..|closed| + 1] == groups;
    StreamNext(s, g, groups, |closed|);
  }

  /** The interaction under way goes through the selector. */
  method Close(s: Selector, t: Tally, ghost rows: seq<Evidence>, ghost count: nat)
    requires DistinctRows(rows) && Upto(s, rows, Some(t), count)
    modifies s
    ensures Streamed(s, GroupsOf(Runs(rows)))
  {
    CloseReady(rows);
    CloseGroup(s, Finished(t), GroupsOf(Runs(rows)), GroupsOf(ClosedOf(rows)));
  }

  lemma Prefixes(rows: seq<Evidence>, i: nat)
    requires DistinctRows(rows) && i < |rows|
    ensures rows[..i + 1] == rows[..i] + [rows[i]] && DistinctRows(rows[..i])
  {
  }

  /** One row of the loop; it fails when it closes one interaction too many. */
  method TakeRow(s: Selector, open: Option<Tally>, before: nat, e: Evidence, ghost rows: seq<Evidence>)
    returns (ok: bool, current: Option<Tally>, count: nat)
    requires DistinctRows(rows) && Upto(s, rows, open, before) && before <= MAX_INTERACTIONS
    modifies s
    ensures ok ==> Upto(s, rows + [e], current, count) && count <= MAX_INTERACTIONS
    ensures !ok ==> |Runs(rows)| > MAX_INTERACTIONS
  {
    NextStanding(rows, e);
    if open.Some? {
      CloseReady(rows);
    }
    ok, current, count := true, open, before;
    if current.None? || e.id != current.value.first.id {
      if current.Some? {
        count := count + 1;
        if count > MAX_INTERACTIONS {
          ok := false;
          return;
        }
        Close(s, current.value, rows, before);
      }
      current := Some(Tally(e, None, false));
    }
    current := Some(Weigh(current.value, e));
  }

  /** The loop over the rows. */
  method TakeRows(s: Selector, rows: seq<Evidence>) returns (ok: bool, current: Option<Tally>, count: nat)
    requires DistinctRows(rows) && Upto(s, [], None, 0)
    modifies s
    ensures ok ==> Upto(s, rows, current, count) && |rows| <= MAX_EVIDENCE
    ensures !ok ==> |rows| > MAX_EVIDENCE || |Runs(rows)| > MAX_INTERACTIONS
  {
    ok, current, count := true, None, 0;
    for i := 0 to |rows|
      invariant i <= MAX_EVIDENCE && count <= MAX_INTERACTIONS && Upto(s, rows[..i], current, count)
    {
      ok := i + 1 <= MAX_EVIDENCE;
      if ok {
        Prefixes(rows, i);
        ok, current, count := TakeRow(s, current, count, rows[i], rows[..i]);
      }
      if !ok {
        RunsGrow(rows, i);
        return;
      }
    }
    ok := true;
    assert rows[..|rows|] == rows;
  }

  /** All the evidence: refused exactly when there are too many rows or too many
      interactions; otherwise every interaction has gone through the selector. */
  method StreamAll(rows: seq<Evidence>, l: Limits) returns (ok: bool, s: Selector)
    requires DistinctRows(rows)
    ensures ok <==> |rows| <= MAX_EVIDENCE && |Runs(rows)| <= MAX_INTERACTIONS
    ensures ok ==> fresh(s) && s.limits == l && Streamed(s, GroupsOf(Runs(rows)))
  {
    s := new Selector(l);
    var current, count;
    ok, current, count := TakeRows(s, rows);
    if ok && current.Some? {
      CloseReady(rows);
      ok := count + 1 <= MAX_INTERACTIONS;
      if ok {
        Close(s, current.value, rows, count);
      }
    }
  }

  /** `_select_examples`: too much evidence is an error; otherwise the examples are the
      selection's accepted ones in the order of their prompts, with the exact counts. */
  method SelectExamples(rows: seq<Evidence>, l: Limits)
    returns (ok: bool, accepted: seq<Candidate>, examples: seq<Candidate>, eligible: nat, rejected: multiset<Reason>)
    requires DistinctRows(rows)
    ensures ok <==> |rows| <= MAX_EVIDENCE && |Runs(rows)| <= MAX_INTERACTIONS
    ensures ok ==> Selects(GroupsOf(Runs(rows)), l, accepted, rejected)
    ensures ok ==> eligible == |Eligible(GroupsOf(Runs(rows)))|
    ensures ok ==> multiset(examples) == multiset(accepted) && KeysAscend(examples) && DistinctKeys(examples)
  {
    accepted, examples, eligible, rejected := [], [], 0, multiset{};
    var s;
    ok, s := StreamAll(rows, l);
    if ok {
      accepted, rejected := FinalPass(s, GroupsOf(Runs(rows)));
      eligible := s.eligible;
      examples := ByKey(accepted);
      ByKeySorts(accepted);
      DistinctKeysOf(accepted, examples);
    }
  }
}
