/** Recording a repair loop against a live provider and replaying it from the tape. */
module Replay {
  import opened Options

  // ----- the repair loop -------------------------------------------------------

  /** What running a candidate said; `None` when the runner itself raised. */
  datatype Grade = Grade(ok: bool, output: string)

  /** A scenario and the deterministic parts of its loop. */
  datatype Scenario = Scenario(
    id: string, prompt: string, maxAttempts: nat,
    extract: string -> Option<string>,
    run: string -> Option<Grade>,
    autofix: (string, string) -> string,
    repair: (string, Option<string>, string) -> string)

  datatype Event =
    | Generated(attempt: nat, prompt: string, response: Option<string>, error: bool)
    | Executed(attempt: nat, ok: bool)

  /** Where the loop stands: the next prompt and the last code seen. */
  datatype Standing = Standing(prompt: string, lastCode: Option<string>)

  datatype Turn = Turn(events: seq<Event>, passed: bool, next: Standing)

  const NO_ANSWER := "generation failed; try again"
  const NO_CODE_HINT := "no code block"
  const RUN_ERROR := "run_code error"

  function GradeOf(g: Option<Grade>): Grade {
    if g.Some? then g.value else Grade(false, RUN_ERROR)
  }

  function ExecEvents(attempt: nat, g: Option<Grade>): seq<Event> {
    if g.Some? then [Executed(attempt, g.value.ok)] else []
  }

  /** Grading one candidate: run it, and once more with its imports repaired. */
  function Graded(s: Scenario, attempt: nat, code: string): Turn {
    var first := s.run(code);
    var g := GradeOf(first);
    var events := ExecEvents(attempt, first);
    var fixed := s.autofix(code, g.output);
    if g.ok then Turn(events, true, Standing(s.prompt, Some(code)))
    else if fixed == code then Turn(events, false, Standing(s.repair(s.prompt, Some(code), g.output), Some(code)))
    else
      var second := s.run(fixed);
      var both := events + ExecEvents(attempt, second);
      if GradeOf(second).ok then Turn(both, true, Standing(s.prompt, Some(code)))
      else Turn(both, false, Standing(s.repair(s.prompt, Some(code), g.output), Some(code)))
  }

  /** One attempt, given what the provider answered (`None`: it raised). */
  function Attempt(s: Scenario, k: nat, st: Standing, answer: Option<string>): Turn {
    var asked := Generated(k + 1, st.prompt, answer, answer.None?);
    match answer
    case None => Turn([asked], false, Standing(s.repair(s.prompt, st.lastCode, NO_ANSWER), st.lastCode))
    case Some(response) =>
      match s.extract(response)
      case None => Turn([asked], false, Standing(s.repair(s.prompt, st.lastCode, NO_CODE_HINT), st.lastCode))
      case Some(code) =>
        var t := Graded(s, k + 1, code);
        Turn([asked] + t.events, t.passed, t.next)
  }

  /** A provider seen from one case: the answer to its `k`-th call. */
  type Answers = nat -> Option<string>

  function Start(s: Scenario): Standing {
    Standing(s.prompt, None)
  }

  function EventsFrom(s: Scenario, ask: Answers, k: nat, st: Standing): seq<Event>
    decreases s.maxAttempts - k
  {
    if k >= s.maxAttempts then []
    else
      var t := Attempt(s, k, st, ask(k));
      t.events + if t.passed then [] else EventsFrom(s, ask, k + 1, t.next)
  }

  /** How many calls a case makes. */
  function CallsFrom(s: Scenario, ask: Answers, k: nat, st: Standing): nat
    decreases s.maxAttempts - k
  {
    if k >= s.maxAttempts then 0
    else
      var t := Attempt(s, k, st, ask(k));
      1 + if t.passed then 0 else CallsFrom(s, ask, k + 1, t.next)
  }

  // ----- the tape ---------------------------------------------------------------

  datatype Entry = Entry(prompt: string, response: string)

  /** What a recording of the case puts on tape: the answers, not the errors. */
  function TapeFrom(s: Scenario, ask: Answers, k: nat, st: Standing): seq<Entry>
    decreases s.maxAttempts - k
  {
    if k >= s.maxAttempts then []
    else
      var t := Attempt(s, k, st, ask(k));
      (if ask(k).Some? then [Entry(st.prompt, ask(k).value)] else [])
      + if t.passed then [] else TapeFrom(s, ask, k + 1, t.next)
  }

  function Tape(s: Scenario, ask: Answers): seq<Entry> {
    TapeFrom(s, ask, 0, Start(s))
  }

  /** A tape played back; running off its end is a miss, which raises like an error. */
  function Player(tape: seq<Entry>): Answers {
    (k: nat) => if k < |tape| then Some(tape[k].response) else None
  }

  // ----- the trajectory -----------------------------------------------------------

  datatype Step = Step(attempt: nat, response: Option<string>, providerError: bool, execOk: Option<bool>)

  function FoldEvent(steps: seq<Step>, pending: Option<Step>, e: Event): (seq<Step>, Option<Step>) {
    match e
    case Generated(attempt, _, response, error) =>
      (if pending.Some? then steps + [pending.value] else steps, Some(Step(attempt, response, error, None)))
    case Executed(_, ok) =>
      (steps, if pending.Some? then Some(pending.value.(execOk := Some(ok))) else None)
  }

  function Fold(events: seq<Event>, steps: seq<Step>, pending: Option<Step>): seq<Step>
    decreases |events|
  {
    if events == [] then (if pending.Some? then steps + [pending.value] else steps)
    else
      var (s, p) := FoldEvent(steps, pending, events[0]);
      Fold(events[1..], s, p)
  }

  /** `_trajectory_record`: one step per call, with the last execution after it. */
  method TrajectoryRecord(events: seq<Event>) returns (steps: seq<Step>)
    ensures steps == Fold(events, [], None)
  {
    steps := [];
    var pending: Option<Step> := None;
    assert events[0..] == events;
    for i := 0 to |events|
      invariant Fold(events, [], None) == Fold(events[i..], steps, pending)
    {
      assert events[i..][1..] == events[i + 1..];
      var e := events[i];
      match e
      case Generated(attempt, _, response, error) =>
        if pending.Some? {
          steps := steps + [pending.value];
        }
        pending := Some(Step(attempt, response, error, None));
      case Executed(_, ok) =>
        if pending.Some? {
          pending := Some(pending.value.(execOk := Some(ok)));
        }
    }
    if pending.Some? {
      steps := steps + [pending.value];
    }
  }

  /** The step of one attempt, without going through events. */
  function StepOf(s: Scenario, k: nat, answer: Option<string>): Step {
    Step(k + 1, answer, answer.None?, if answer.Some? then VerdictOn(s, answer.value) else None)
  }

  /** What the last execution said about a response, if there was one. */
  function VerdictOn(s: Scenario, response: string): Option<bool> {
    if s.extract(response).Some? then LastRun(s, s.extract(response).value) else None
  }

  function LastRun(s: Scenario, code: string): Option<bool> {
    var first := s.run(code);
    var g := GradeOf(first);
    var fixed := s.autofix(code, g.output);
    var once := if first.Some? then Some(first.value.ok) else None;
    if g.ok || fixed == code then once
    else if s.run(fixed).Some? then Some(s.run(fixed).value.ok) else once
  }

  function StepsFrom(s: Scenario, ask: Answers, k: nat, st: Standing): seq<Step>
    decreases s.maxAttempts - k
  {
    if k >= s.maxAttempts then []
    else
      var t := Attempt(s, k, st, ask(k));
      [StepOf(s, k, ask(k))] + if t.passed then [] else StepsFrom(s, ask, k + 1, t.next)
  }

  function Trajectory(s: Scenario, ask: Answers): seq<Step> {
    Fold(EventsFrom(s, ask, 0, Start(s)), [], None)
  }

  predicate AllExecuted(events: seq<Event>) {
    forall e <- events :: e.Executed?
  }

  function LastOk(events: seq<Event>, before: Option<bool>): Option<bool>
    requires AllExecuted(events)
  {
    if events == [] then before else Some(events[|events| - 1].ok)
  }

  lemma FoldRuns(runs: seq<Event>, rest: seq<Event>, steps: seq<Step>, p: Step)
    requires AllExecuted(runs)
    ensures Fold(runs + rest, steps, Some(p)) == Fold(rest, steps, Some(p.(execOk := LastOk(runs, p.execOk))))
    decreases |runs|
  {
    if runs == [] {
      assert runs + rest == rest;
    } else {
      assert (runs + rest)[0] == runs[0] && (runs + rest)[1..] == runs[1..] + rest;
      assert runs[0] in runs;
      FoldRuns(runs[1..], rest, steps, p.(execOk := Some(runs[0].ok)));
    }
  }

  lemma GradedRuns(s: Scenario, attempt: nat, code: string)
    ensures AllExecuted(Graded(s, attempt, code).events)
    ensures LastOk(Graded(s, attempt, code).events, None) == LastRun(s, code)
  {
  }

  lemma FoldAttempt(s: Scenario, k: nat, st: Standing, answer: Option<string>, rest: seq<Event>,
                    steps: seq<Step>, pending: Option<Step>)
    ensures var done := if pending.Some? then steps + [pending.value] else steps;
            Fold(Attempt(s, k, st, answer).events + rest, steps, pending)
            == Fold(rest, done, Some(StepOf(s, k, answer)))
  {
    var events := Attempt(s, k, st, answer).events;
    var done := if pending.Some? then steps + [pending.value] else steps;
    var p := Step(k + 1, answer, answer.None?, None);
    assert (events + rest)[0] == events[0] && (events + rest)[1..] == events[1..] + rest;
    assert Fold(events + rest, steps, pending) == Fold(events[1..] + rest, done, Some(p));
    if answer.Some? && s.extract(answer.value).Some? {
      var code := s.extract(answer.value).value;
      GradedRuns(s, k + 1, code);
      assert events[1..] == Graded(s, k + 1, code).events;
      FoldRuns(events[1..], rest, done, p);
    } else {
      assert events[1..] + rest == rest;
    }
  }

  lemma {:induction false} FoldIsSteps(s: Scenario, ask: Answers, k: nat, st: Standing,
                                       steps: seq<Step>, pending: Option<Step>)
    ensures Fold(EventsFrom(s, ask, k, st), steps, pending)
            == (if pending.Some? then steps + [pending.value] else steps) + StepsFrom(s, ask, k, st)
    decreases s.maxAttempts - k
  {
    if k < s.maxAttempts {
      var t := Attempt(s, k, st, ask(k));
      var rest := if t.passed then [] else EventsFrom(s, ask, k + 1, t.next);
      var done := if pending.Some? then steps + [pending.value] else steps;
      FoldAttempt(s, k, st, ask(k), rest, steps, pending);
      if !t.passed {
        FoldIsSteps(s, ask, k + 1, t.next, done, Some(StepOf(s, k, ask(k))));
      }
    }
  }

  // ----- record and replay ---------------------------------------------------------

  /** Once the provider has failed, it answers nothing more in this case. */
  ghost predicate ErrorsLast(ask: Answers, from: nat, calls: nat) {
    forall i, j | from <= i < j < from + calls && ask(i).None? :: ask(j).None?
  }

  lemma TapeLength(s: Scenario, ask: Answers, k: nat, st: Standing)
    ensures |TapeFrom(s, ask, k, st)| <= CallsFrom(s, ask, k, st)
    ensures (forall j | k <= j < k + CallsFrom(s, ask, k, st) :: ask(j).None?) <==> TapeFrom(s, ask, k, st) == []
    decreases s.maxAttempts - k
  {
    if k < s.maxAttempts {
      var t := Attempt(s, k, st, ask(k));
      if !t.passed {
        TapeLength(s, ask, k + 1, t.next);
      }
    }
  }

  lemma SameAnswers(s: Scenario, ask: Answers, other: Answers, k: nat, st: Standing)
    requires forall j | k <= j < k + CallsFrom(s, ask, k, st) :: other(j) == ask(j)
    ensures StepsFrom(s, other, k, st) == StepsFrom(s, ask, k, st)
    ensures CallsFrom(s, other, k, st) == CallsFrom(s, ask, k, st)
    ensures TapeFrom(s, other, k, st) == TapeFrom(s, ask, k, st)
    decreases s.maxAttempts - k
  {
    if k < s.maxAttempts {
      var t := Attempt(s, k, st, ask(k));
      assert other(k) == ask(k);
      if !t.passed {
        SameAnswers(s, ask, other, k + 1, t.next);
      }
    }
  }

  /** When the errors come last, the tape holds every answer at its own place. */
  lemma {:induction false} TapeInPlace(s: Scenario, ask: Answers, k: nat, st: Standing, j: nat)
    requires ErrorsLast(ask, k, CallsFrom(s, ask, k, st)) && k <= j < k + CallsFrom(s, ask, k, st)
    ensures var tape := TapeFrom(s, ask, k, st);
            ask(j) == if j - k < |tape| then Some(tape[j - k].response) else None
    decreases s.maxAttempts - k
  {
    if k < s.maxAttempts {
      var t := Attempt(s, k, st, ask(k));
      if ask(k).None? {
        TapeLength(s, ask, k, st);
      } else if j > k {
        assert !t.passed;
        TapeInPlace(s, ask, k + 1, t.next, j);
      }
    }
  }

  /** In both scenarios the last executions of the responses say the same. */
  ghost predicate SameVerdicts(s: Scenario, t: Scenario, ask: Answers, from: nat, calls: nat) {
    forall j | from <= j < from + calls && ask(j).Some? :: VerdictOn(s, ask(j).value) == VerdictOn(t, ask(j).value)
  }

  /** An attempt passes exactly when the last execution says so, whatever the prompt was. */
  lemma PassedIff(s: Scenario, k: nat, st: Standing, answer: Option<string>)
    ensures Attempt(s, k, st, answer).passed <==> answer.Some? && VerdictOn(s, answer.value) == Some(true)
  {
  }

  /** The trajectory has one step for each call, and the step is that call's. */
  lemma {:induction false} StepsAt(s: Scenario, ask: Answers, k: nat, st: Standing)
    ensures |StepsFrom(s, ask, k, st)| == CallsFrom(s, ask, k, st)
    ensures forall j | k <= j < k + CallsFrom(s, ask, k, st) ::
              StepsFrom(s, ask, k, st)[j - k] == StepOf(s, j, ask(j))
    decreases s.maxAttempts - k
  {
    if k < s.maxAttempts {
      var t := Attempt(s, k, st, ask(k));
      if !t.passed {
        StepsAt(s, ask, k + 1, t.next);
        var rest := StepsFrom(s, ask, k + 1, t.next);
        forall j | k < j < k + CallsFrom(s, ask, k, st)
          ensures StepsFrom(s, ask, k, st)[j - k] == StepOf(s, j, ask(j))
        {
          assert StepsFrom(s, ask, k, st)[j - k] == rest[j - (k + 1)];
        }
      }
    }
  }

  function Responses(tape: seq<Entry>): (r: seq<string>)
    ensures |r| == |tape| && forall i | 0 <= i < |tape| :: r[i] == tape[i].response
  {
    seq(|tape|, i requires 0 <= i < |tape| => tape[i].response)
  }

  /** The same answers with the same verdicts give the same steps, although the prompts
      in between may differ. */
  lemma {:induction false} AlikeSteps(
    s: Scenario, t: Scenario, ask: Answers, other: Answers, k: nat, st: Standing, u: Standing)
    requires t.maxAttempts == s.maxAttempts
    requires forall j | k <= j < k + CallsFrom(s, ask, k, st) :: other(j) == ask(j)
    requires SameVerdicts(s, t, ask, k, CallsFrom(s, ask, k, st))
    ensures StepsFrom(t, other, k, u) == StepsFrom(s, ask, k, st)
    ensures CallsFrom(t, other, k, u) == CallsFrom(s, ask, k, st)
    ensures Responses(TapeFrom(t, other, k, u)) == Responses(TapeFrom(s, ask, k, st))
    decreases s.maxAttempts - k
  {
    if k < s.maxAttempts {
      var a, b := Attempt(s, k, st, ask(k)), Attempt(t, k, u, other(k));
      assert other(k) == ask(k);
      PassedIff(s, k, st, ask(k));
      PassedIff(t, k, u, other(k));
      if !a.passed {
        AlikeSteps(s, t, ask, other, k + 1, a.next, b.next);
        assert Responses(TapeFrom(t, other, k, u)) == Responses(TapeFrom(s, ask, k, st));
      }
    }
  }

  lemma {:induction false} TrajectoryIsSteps(s: Scenario, ask: Answers)
    ensures Trajectory(s, ask) == StepsFrom(s, ask, 0, Start(s))
  {
    FoldIsSteps(s, ask, 0, Start(s), [], None);
    assert [] + StepsFrom(s, ask, 0, Start(s)) == StepsFrom(s, ask, 0, Start(s));
  }

  lemma {:induction false} PlayerAnswers(s: Scenario, ask: Answers)
    requires ErrorsLast(ask, 0, CallsFrom(s, ask, 0, Start(s)))
    ensures forall j | 0 <= j < 0 + CallsFrom(s, ask, 0, Start(s)) :: Player(Tape(s, ask))(j) == ask(j)
  {
    forall j | 0 <= j < 0 + CallsFrom(s, ask, 0, Start(s)) ensures Player(Tape(s, ask))(j) == ask(j) {
      TapeInPlace(s, ask, 0, Start(s), j);
    }
  }

  /** Equal trajectories have the same answers at the same calls, with the same verdicts. */
  lemma EqualStepsAgree(s: Scenario, t: Scenario, ask: Answers, other: Answers)
    requires StepsFrom(t, other, 0, Start(t)) == StepsFrom(s, ask, 0, Start(s))
    ensures var calls := CallsFrom(s, ask, 0, Start(s));
            (forall j | 0 <= j < calls :: other(j) == ask(j)) && SameVerdicts(s, t, ask, 0, calls)
  {
    StepsAt(s, ask, 0, Start(s));
    StepsAt(t, other, 0, Start(t));
    forall j | 0 <= j < CallsFrom(s, ask, 0, Start(s)) ensures StepOf(t, j, other(j)) == StepOf(s, j, ask(j)) {
      assert StepsFrom(s, ask, 0, Start(s))[j - 0] == StepOf(s, j, ask(j));
      assert StepsFrom(t, other, 0, Start(t))[j - 0] == StepOf(t, j, other(j));
    }
  }

  /** A recording made with `s` replays with `t` to the same trajectory exactly when no
      answer was recorded after a provider error, and the verdicts on the recorded answers
      are the same. What the executions print, and so the repair prompts, may differ. */
  lemma {:induction false} ReplayEqualIff(s: Scenario, t: Scenario, ask: Answers)
    requires t.maxAttempts == s.maxAttempts
    ensures Trajectory(t, Player(Tape(s, ask))) == Trajectory(s, ask)
            <==> (&& ErrorsLast(ask, 0, CallsFrom(s, ask, 0, Start(s)))
                  && SameVerdicts(s, t, ask, 0, CallsFrom(s, ask, 0, Start(s))))
  {
    var player, calls := Player(Tape(s, ask)), CallsFrom(s, ask, 0, Start(s));
    TrajectoryIsSteps(s, ask);
    TrajectoryIsSteps(t, player);
    if ErrorsLast(ask, 0, calls) && SameVerdicts(s, t, ask, 0, calls) {
      PlayerAnswers(s, ask);
      AlikeSteps(s, t, ask, player, 0, Start(s), Start(t));
    } else if StepsFrom(t, player, 0, Start(t)) == StepsFrom(s, ask, 0, Start(s)) {
      EqualStepsAgree(s, t, ask, player);
    }
  }

  function OkOf(g: Option<Grade>): Option<bool> {
    if g.Some? then Some(g.value.ok) else None
  }

  /** The two scenarios grade alike: they extract the same code, run it to the same verdict
      and repair its imports to the same code. What a run prints may differ. */
  ghost predicate GradesAlike(s: Scenario, t: Scenario) {
    && (forall response :: s.extract(response) == t.extract(response))
    && (forall code :: OkOf(s.run(code)) == OkOf(t.run(code)))
    && (forall code :: s.autofix(code, GradeOf(s.run(code)).output) == t.autofix(code, GradeOf(t.run(code)).output))
  }

  lemma AlikeRuns(s: Scenario, t: Scenario, code: string)
    requires GradesAlike(s, t)
    ensures LastRun(s, code) == LastRun(t, code)
  {
    var fixed := s.autofix(code, GradeOf(s.run(code)).output);
    assert OkOf(s.run(code)) == OkOf(t.run(code)) && OkOf(s.run(fixed)) == OkOf(t.run(fixed));
  }

  /** So tracebacks that differ from run to run change no verdict. */
  lemma AlikeVerdicts(s: Scenario, t: Scenario, ask: Answers, from: nat, calls: nat)
    requires GradesAlike(s, t)
    ensures SameVerdicts(s, t, ask, from, calls)
  {
    forall j | from <= j < from + calls && ask(j).Some?
      ensures VerdictOn(s, ask(j).value) == VerdictOn(t, ask(j).value)
    {
      if s.extract(ask(j).value).Some? {
        AlikeRuns(s, t, s.extract(ask(j).value).value);
      }
    }
  }

  /** Two attempts at a task whose answers hold no code. */
  function TwoTries(): Scenario {
    Scenario("case", "task", 2, (response: string) => None, (code: string) => None,
             (code: string, output: string) => code,
             (prompt: string, code: Option<string>, output: string) => prompt)
  }

  /** A provider that fails once and then answers. */
  function FailsOnce(): Answers {
    (k: nat) => if k == 0 then None else Some("prose")
  }

  /** The recording has the error first and the answer second; its replay has the answer
      first and then runs off the tape. */
  lemma ErrorThenAnswerParts()
    ensures Tape(TwoTries(), FailsOnce()) == [Entry("task", "prose")]
    ensures Trajectory(TwoTries(), FailsOnce())
            == [Step(1, None, true, None), Step(2, Some("prose"), false, None)]
    ensures Trajectory(TwoTries(), Player([Entry("task", "prose")]))
            == [Step(1, Some("prose"), false, None), Step(2, None, true, None)]
  {
    var s, st, player := TwoTries(), Start(TwoTries()), Player([Entry("task", "prose")]);
    TrajectoryIsSteps(s, FailsOnce());
    TrajectoryIsSteps(s, player);
    assert Attempt(s, 0, st, FailsOnce()(0)).next == st && Attempt(s, 1, st, FailsOnce()(1)).next == st;
    assert TapeFrom(s, FailsOnce(), 2, st) == [];
    assert TapeFrom(s, FailsOnce(), 1, st) == [Entry("task", "prose")];
    assert StepsFrom(s, FailsOnce(), 1, st) == [Step(2, Some("prose"), false, None)];
    assert StepsFrom(s, player, 1, st) == [Step(2, None, true, None)];
  }

  /** A recording without provider errors replays in full with anything that grades alike:
      no miss, the same responses and an equal trajectory; and with the scenario itself
      the same prompts as well. */
  lemma CleanRecordingReplays(s: Scenario, t: Scenario, ask: Answers)
    requires t.maxAttempts == s.maxAttempts && GradesAlike(s, t)
    requires forall j | 0 <= j < CallsFrom(s, ask, 0, Start(s)) :: ask(j).Some?
    ensures var player := Player(Tape(s, ask));
            && Trajectory(t, player) == Trajectory(s, ask)
            && CallsFrom(t, player, 0, Start(t)) == |Tape(s, ask)|
            && Responses(Tape(t, player)) == Responses(Tape(s, ask))
            && Tape(s, player) == Tape(s, ask)
  {
    var calls := CallsFrom(s, ask, 0, Start(s));
    AlikeVerdicts(s, t, ask, 0, calls);
    ReplayEqualIff(s, t, ask);
    PlayerAnswers(s, ask);
    AlikeSteps(s, t, ask, Player(Tape(s, ask)), 0, Start(s), Start(t));
    SameAnswers(s, ask, Player(Tape(s, ask)), 0, Start(s));
    TapeLength(s, ask, 0, Start(s));
    if |Tape(s, ask)| < calls {
      TapeInPlace(s, ask, 0, Start(s), calls - 1);
    }
  }

  // ----- drift -----------------------------------------------------------------------

  /** The calls whose prompt is not the recorded one. */
  function Drift(id: string, recorded: seq<Entry>, asked: seq<Entry>): seq<(string, nat)> {
    if asked == [] then []
    else
      var n := |asked| - 1;
      Drift(id, recorded, asked[..n])
      + if n < |recorded| && recorded[n].prompt != asked[n].prompt then [(id, n)] else []
  }

  /** A call is noted exactly when its prompt is not the recorded one. */
  lemma {:induction false} DriftIff(id: string, recorded: seq<Entry>, asked: seq<Entry>, i: nat)
    ensures (id, i) in Drift(id, recorded, asked)
            <==> i < |asked| && i < |recorded| && recorded[i].prompt != asked[i].prompt
  {
    if asked != [] {
      DriftIff(id, recorded, asked[..|asked| - 1], i);
    }
  }

  /** One attempt fails with an output that differs from run to run, as paths in tracebacks
      do, and the output is quoted in the next prompt. */
  function Traceback(path: string): Scenario {
    Scenario("case", "task", 2, (response: string) => Some(response),
             (code: string) => Some(Grade(code == "good", path)),
             (code: string, output: string) => code,
             (prompt: string, code: Option<string>, output: string) => output)
  }

  function BadThenGood(): Answers {
    (k: nat) => if k == 0 then Some("bad") else Some("good")
  }

  lemma TracebackTape(path: string, ask: Answers)
    requires ask(0) == Some("bad") && ask(1) == Some("good")
    ensures Tape(Traceback(path), ask) == [Entry("task", "bad"), Entry(path, "good")]
  {
    var s := Traceback(path);
    var first := Attempt(s, 0, Start(s), ask(0));
    assert !first.passed && first.next.prompt == path by {
      assert "bad"[0] != "good"[0];
    }
    assert TapeFrom(s, ask, 1, first.next) == [Entry(path, "good")];
  }

  /** Replaying elsewhere: an equal trajectory, and the second prompt noted as drift. */
  lemma TracebackDrifts(here: string, there: string)
    requires here != there
    ensures var s, t := Traceback(here), Traceback(there);
            var player := Player(Tape(s, BadThenGood()));
            && Trajectory(t, player) == Trajectory(s, BadThenGood())
            && Drift("case", Tape(s, BadThenGood()), Tape(t, player)) == [("case", 1)]
  {
    var s, t := Traceback(here), Traceback(there);
    var tape := Tape(s, BadThenGood());
    TracebackTape(here, BadThenGood());
    CleanRecordingReplays(s, t, BadThenGood());
    TracebackTape(there, Player(tape));
    var asked := [Entry("task", "bad"), Entry(there, "good")];
    assert asked[..1] == [Entry("task", "bad")] && asked[..1][..0] == [];
    assert Drift("case", tape, asked[..1]) == [];
  }
}
