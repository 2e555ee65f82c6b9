/** The two providers and whole suites run against them. */
module ReplayProviders {
  import opened Options
  import opened Replay

  type Entries = map<string, seq<Entry>>

  function Get(entries: Entries, id: string): seq<Entry> {
    if id in entries then entries[id] else []
  }

  /** The answers of a live provider from its `n`-th call on. */
  function From(live: Answers, n: nat): Answers {
    (k: nat) => live(n + k)
  }

  class RecordingProvider {
    const live: Answers            // whatever the model says, call by call; `None` raises
    var calls: nat
    var scenario: string
    var entries: Entries

    constructor (inner: Answers)
      ensures live == inner && calls == 0 && entries == map[]
    {
      live, calls, scenario, entries := inner, 0, "", map[];
    }

    method BeginCase(id: string)
      modifies this`scenario
      ensures scenario == id
    {
      scenario := id;
    }

    /** An answer goes on tape under the current scenario; an error leaves no trace. */
    method Generate(prompt: string) returns (r: Option<string>)
      modifies this`calls, this`entries
      ensures r == live(old(calls)) && calls == old(calls) + 1
      ensures entries == if r.None? then old(entries)
                         else old(entries)[scenario := Get(old(entries), scenario) + [Entry(prompt, r.value)]]
    {
      r := live(calls);
      calls := calls + 1;
      if r.Some? {
        entries := entries[scenario := Get(entries, scenario) + [Entry(prompt, r.value)]];
      }
    }
  }

  class ReplayProvider {
    const entries: Entries
    var scenario: string
    var cursor: nat
    var drift: seq<(string, nat)>  // calls whose prompt differs from the recorded one

    constructor (cassette: Entries)
      ensures entries == cassette && cursor == 0 && drift == []
    {
      entries, scenario, cursor, drift := cassette, "", 0, [];
    }

    method BeginCase(id: string)
      modifies this`scenario, this`cursor
      ensures scenario == id && cursor == 0
    {
      scenario, cursor := id, 0;
    }

    /** The recorded answer under the cursor, or a miss. */
    method Generate(prompt: string) returns (r: Option<string>)
      modifies this`cursor, this`drift
      ensures r == Player(Get(entries, scenario))(old(cursor))
      ensures cursor == old(cursor) + if r.Some? then 1 else 0
      ensures drift == old(drift) + if r.Some? && Get(entries, scenario)[old(cursor)].prompt != prompt
                                    then [(scenario, old(cursor))] else []
    {
      var recorded := Get(entries, scenario);
      if cursor >= |recorded| {
        return None;
      }
      var entry := recorded[cursor];
      if entry.prompt != prompt {
        drift := drift + [(scenario, cursor)];
      }
      cursor := cursor + 1;
      return Some(entry.response);
    }
  }

  // ----- one case --------------------------------------------------------------

  /** What one call adds to a tape. */
  function Used(prompt: string, answer: Option<string>): seq<Entry> {
    if answer.Some? then [Entry(prompt, answer.value)] else []
  }

  /** How far a case has come after `k` calls. */
  ghost predicate Reached(
    s: Scenario, ask: Answers, k: nat, st: Standing, passed: bool, events: seq<Event>, tape: seq<Entry>)
  {
    && events + (if passed then [] else EventsFrom(s, ask, k, st)) == EventsFrom(s, ask, 0, Start(s))
    && tape + (if passed then [] else TapeFrom(s, ask, k, st)) == Tape(s, ask)
    && k + (if passed then 0 else CallsFrom(s, ask, k, st)) == CallsFrom(s, ask, 0, Start(s))
  }

  lemma ReachedFirst(s: Scenario, ask: Answers)
    ensures Reached(s, ask, 0, Start(s), false, [], [])
  {
  }

  lemma ReachedNext(s: Scenario, ask: Answers, k: nat, st: Standing, events: seq<Event>, tape: seq<Entry>)
    requires k < s.maxAttempts && Reached(s, ask, k, st, false, events, tape)
    ensures var t := Attempt(s, k, st, ask(k));
            Reached(s, ask, k + 1, t.next, t.passed, events + t.events, tape + Used(st.prompt, ask(k)))
  {
    var t := Attempt(s, k, st, ask(k));
    var more := Used(st.prompt, ask(k));
    var rest := if t.passed then [] else EventsFrom(s, ask, k + 1, t.next);
    var later := if t.passed then [] else TapeFrom(s, ask, k + 1, t.next);
    assert events + (t.events + rest) == (events + t.events) + rest;
    assert tape + (more + later) == (tape + more) + later;
  }

  lemma ReachedEnd(
    s: Scenario, ask: Answers, k: nat, st: Standing, passed: bool, events: seq<Event>, tape: seq<Entry>)
    requires Reached(s, ask, k, st, passed, events, tape) && (passed || k >= s.maxAttempts)
    ensures events == EventsFrom(s, ask, 0, Start(s)) && tape == Tape(s, ask)
    ensures k == CallsFrom(s, ask, 0, Start(s))
  {
  }

  /** Exactly these answers have gone on one scenario's tape. */
  ghost predicate Taped(before: Entries, after: Entries, id: string, tape: seq<Entry>) {
    && Get(after, id) == Get(before, id) + tape
    && forall other | other != id :: Get(after, other) == Get(before, other)
  }

  lemma TapedMore(before: Entries, entries: Entries, id: string, tape: seq<Entry>, e: Entry)
    requires Taped(before, entries, id, tape)
    ensures Taped(before, entries[id := Get(entries, id) + [e]], id, tape + [e])
  {
    assert Get(before, id) + tape + [e] == Get(before, id) + (tape + [e]);
  }

  method AskLive(p: RecordingProvider, prompt: string, ghost before: Entries, ghost tape: seq<Entry>)
    returns (answer: Option<string>)
    requires Taped(before, p.entries, p.scenario, tape)
    modifies p`calls, p`entries
    ensures answer == p.live(old(p.calls)) && p.calls == old(p.calls) + 1
    ensures Taped(before, p.entries, p.scenario, tape + Used(prompt, answer))
  {
    ghost var entries := p.entries;
    answer := p.Generate(prompt);
    if answer.Some? {
      TapedMore(before, entries, p.scenario, tape, Entry(prompt, answer.value));
    } else {
      assert tape + [] == tape;
    }
  }

  /** The events of a scenario run live. */
  method RecordEvents(p: RecordingProvider, s: Scenario) returns (events: seq<Event>)
    requires p.scenario == s.id
    modifies p`calls, p`entries
    ensures var ask := From(p.live, old(p.calls));
            && events == EventsFrom(s, ask, 0, Start(s))
            && p.calls == old(p.calls) + CallsFrom(s, ask, 0, Start(s))
            && Taped(old(p.entries), p.entries, s.id, Tape(s, ask))
  {
    ghost var ask := From(p.live, p.calls);
    ghost var tape: seq<Entry> := [];
    events := [];
    var st, k, passed := Start(s), 0, false;
    ReachedFirst(s, ask);
    while k < s.maxAttempts && !passed
      invariant p.calls == old(p.calls) + k && Reached(s, ask, k, st, passed, events, tape)
      invariant Taped(old(p.entries), p.entries, s.id, tape)
      decreases s.maxAttempts - k
    {
      var answer := AskLive(p, st.prompt, old(p.entries), tape);
      assert answer == ask(k);
      ReachedNext(s, ask, k, st, events, tape);
      var t := Attempt(s, k, st, answer);
      tape := tape + Used(st.prompt, answer);
      events := events + t.events;
      passed, st, k := t.passed, t.next, k + 1;
    }
    ReachedEnd(s, ask, k, st, passed, events, tape);
  }

  /** Runs a scenario live: its trace, and exactly its answers on tape. */
  method RecordCase(p: RecordingProvider, s: Scenario) returns (steps: seq<Step>)
    modifies p
    ensures steps == Trajectory(s, From(p.live, old(p.calls)))
    ensures p.calls == old(p.calls) + CallsFrom(s, From(p.live, old(p.calls)), 0, Start(s))
    ensures Get(p.entries, s.id) == Get(old(p.entries), s.id) + Tape(s, From(p.live, old(p.calls)))
    ensures forall id | id != s.id :: Get(p.entries, id) == Get(old(p.entries), id)
  {
    p.BeginCase(s.id);
    var events := RecordEvents(p, s);
    steps := TrajectoryRecord(events);
  }

  lemma DriftNext(id: string, recorded: seq<Entry>, asked: seq<Entry>, prompt: string, before: seq<(string, nat)>)
    ensures var n := |asked|;
            before + Drift(id, recorded, asked + Used(prompt, Player(recorded)(n)))
            == before + Drift(id, recorded, asked)
               + if n < |recorded| && recorded[n].prompt != prompt then [(id, n)] else []
  {
    var n := |asked|;
    if n < |recorded| {
      assert (asked + [Entry(prompt, recorded[n].response)])[..n] == asked;
    } else {
      assert asked + [] == asked;
    }
  }

  /** Where the provider stands after `k` calls that used these entries of the tape. */
  ghost predicate UsedUp(p: ReplayProvider, before: seq<(string, nat)>, tape: seq<Entry>, k: nat)
    reads p
  {
    var recorded := Get(p.entries, p.scenario);
    && p.cursor == |tape| == (if k < |recorded| then k else |recorded|)
    && p.drift == before + Drift(p.scenario, recorded, tape)
  }

  method Ask(p: ReplayProvider, prompt: string, ghost before: seq<(string, nat)>, ghost tape: seq<Entry>, ghost k: nat)
    returns (answer: Option<string>)
    requires UsedUp(p, before, tape, k)
    modifies p`cursor, p`drift
    ensures answer == Player(Get(p.entries, p.scenario))(k)
    ensures UsedUp(p, before, tape + Used(prompt, answer), k + 1)
  {
    DriftNext(p.scenario, Get(p.entries, p.scenario), tape, prompt, before);
    answer := p.Generate(prompt);
  }

  /** How far a replayed case has come, and where its provider stands. */
  ghost predicate Replaying(
    p: ReplayProvider, s: Scenario, before: seq<(string, nat)>, k: nat, st: Standing, passed: bool,
    events: seq<Event>, tape: seq<Entry>)
    reads p
  {
    && p.scenario == s.id && UsedUp(p, before, tape, k)
    && Reached(s, Player(Get(p.entries, s.id)), k, st, passed, events, tape)
  }

  lemma ReplayingFirst(p: ReplayProvider, s: Scenario)
    requires p.scenario == s.id && p.cursor == 0
    ensures Replaying(p, s, p.drift, 0, Start(s), false, [], [])
  {
    ReachedFirst(s, Player(Get(p.entries, s.id)));
    assert p.drift + [] == p.drift;
  }

  lemma ReplayingEnd(
    p: ReplayProvider, s: Scenario, before: seq<(string, nat)>, k: nat, st: Standing, passed: bool,
    events: seq<Event>, tape: seq<Entry>)
    requires Replaying(p, s, before, k, st, passed, events, tape) && (passed || k >= s.maxAttempts)
    ensures events == EventsFrom(s, Player(Get(p.entries, s.id)), 0, Start(s))
    ensures p.drift == before + DriftOf(p.entries, s)
  {
    ReachedEnd(s, Player(Get(p.entries, s.id)), k, st, passed, events, tape);
  }

  /** One attempt of a replayed case. */
  method ReplayTurn(
    p: ReplayProvider, s: Scenario, k: nat, st: Standing, ghost before: seq<(string, nat)>,
    ghost events: seq<Event>, ghost tape: seq<Entry>)
    returns (t: Turn, ghost used: seq<Entry>)
    requires k < s.maxAttempts && Replaying(p, s, before, k, st, false, events, tape)
    modifies p`cursor, p`drift
    ensures Replaying(p, s, before, k + 1, t.next, t.passed, events + t.events, used)
  {
    var answer := Ask(p, st.prompt, before, tape, k);
    ReachedNext(s, Player(Get(p.entries, s.id)), k, st, events, tape);
    t, used := Attempt(s, k, st, answer), tape + Used(st.prompt, answer);
  }

  /** The events of a scenario replayed from the tape. */
  method ReplayEvents(p: ReplayProvider, s: Scenario) returns (events: seq<Event>)
    requires p.scenario == s.id && p.cursor == 0
    modifies p`cursor, p`drift
    ensures events == EventsFrom(s, Player(Get(p.entries, s.id)), 0, Start(s))
    ensures p.drift == old(p.drift) + DriftOf(p.entries, s)
  {
    ghost var tape: seq<Entry> := [];
    events := [];
    var st, k, passed := Start(s), 0, false;
    ReplayingFirst(p, s);
    while k < s.maxAttempts && !passed
      invariant Replaying(p, s, old(p.drift), k, st, passed, events, tape)
      decreases s.maxAttempts - k
    {
      var t;
      t, tape := ReplayTurn(p, s, k, st, old(p.drift), events, tape);
      events := events + t.events;
      passed, st, k := t.passed, t.next, k + 1;
    }
    ReplayingEnd(p, s, old(p.drift), k, st, passed, events, tape);
  }

  /** Replays a scenario: the same loop over what is on tape for it. Prompts other than the
      recorded ones are noted and change nothing. */
  method ReplayCase(p: ReplayProvider, s: Scenario) returns (steps: seq<Step>)
    modifies p
    ensures steps == Replayed(p.entries, s)
    ensures p.drift == old(p.drift) + DriftOf(p.entries, s)
  {
    p.BeginCase(s.id);
    var events := ReplayEvents(p, s);
    steps := TrajectoryRecord(events);
  }

  /** The trajectory of a scenario replayed from its tape. */
  function Replayed(entries: Entries, s: Scenario): seq<Step> {
    Trajectory(s, Player(Get(entries, s.id)))
  }

  /** What replaying a scenario notes. */
  function DriftOf(entries: Entries, s: Scenario): seq<(string, nat)> {
    Drift(s.id, Get(entries, s.id), Tape(s, Player(Get(entries, s.id))))
  }

  // ----- whole suites --------------------------------------------------------------

  ghost predicate DistinctIds(suite: seq<Scenario>) {
    forall i, j | 0 <= i < j < |suite| :: suite[i].id != suite[j].id
  }

  /** Whether the recording of one case can be replayed with another scenario. */
  ghost predicate Replayable(s: Scenario, t: Scenario, ask: Answers) {
    ErrorsLast(ask, 0, CallsFrom(s, ask, 0, Start(s))) && SameVerdicts(s, t, ask, 0, CallsFrom(s, ask, 0, Start(s)))
  }

  ghost predicate RecordedAs(s: Scenario, ask: Answers, steps: seq<Step>, tape: seq<Entry>) {
    steps == Trajectory(s, ask) && tape == Tape(s, ask)
  }

  ghost predicate AllRecorded(
    live: Answers, suite: seq<Scenario>, entries: Entries, recorded: seq<seq<Step>>, starts: seq<nat>)
  {
    && |recorded| == |starts| <= |suite|
    && forall j | 0 <= j < |recorded| ::
         RecordedAs(suite[j], From(live, starts[j]), recorded[j], Get(entries, suite[j].id))
  }

  lemma AlsoRecorded(
    live: Answers, suite: seq<Scenario>, before: Entries, after: Entries,
    recorded: seq<seq<Step>>, steps: seq<Step>, starts: seq<nat>, start: nat)
    requires DistinctIds(suite) && AllRecorded(live, suite, before, recorded, starts) && |recorded| < |suite|
    requires RecordedAs(suite[|recorded|], From(live, start), steps, Get(after, suite[|recorded|].id))
    requires forall id | id != suite[|recorded|].id :: Get(after, id) == Get(before, id)
    ensures AllRecorded(live, suite, after, recorded + [steps], starts + [start])
    ensures forall j | |recorded| < j < |suite| :: Get(after, suite[j].id) == Get(before, suite[j].id)
  {
    var n := |recorded|;
    forall j | 0 <= j <= n
      ensures RecordedAs(suite[j], From(live, (starts + [start])[j]), (recorded + [steps])[j], Get(after, suite[j].id))
    {
      if j < n {
        assert RecordedAs(suite[j], From(live, starts[j]), recorded[j], Get(before, suite[j].id));
      }
    }
  }

  method RecordSuite(live: Answers, suite: seq<Scenario>)
    returns (entries: Entries, recorded: seq<seq<Step>>, starts: seq<nat>)
    requires DistinctIds(suite)
    ensures |recorded| == |suite| && AllRecorded(live, suite, entries, recorded, starts)
  {
    var p := new RecordingProvider(live);
    recorded, starts := [], [];
    for i := 0 to |suite|
      invariant fresh(p) && p.live == live && |recorded| == i
      invariant AllRecorded(live, suite, p.entries, recorded, starts)
      invariant forall j | i <= j < |suite| :: Get(p.entries, suite[j].id) == []
    {
      var start := p.calls;
      ghost var before := p.entries;
      var steps := RecordCase(p, suite[i]);
      assert Get(p.entries, suite[i].id) == Tape(suite[i], From(live, start));
      AlsoRecorded(live, suite, before, p.entries, recorded, steps, starts, start);
      starts, recorded := starts + [start], recorded + [steps];
    }
    entries := p.entries;
  }

  function AllDrift(entries: Entries, suite: seq<Scenario>, order: seq<nat>): seq<(string, nat)>
    requires forall i | 0 <= i < |order| :: order[i] < |suite|
  {
    if order == [] then []
    else AllDrift(entries, suite, order[..|order| - 1]) + DriftOf(entries, suite[order[|order| - 1]])
  }

  /** These are the trajectories and the drift of replaying scenarios in this order. */
  ghost predicate AllReplayed(
    entries: Entries, suite: seq<Scenario>, order: seq<nat>, replayed: seq<seq<Step>>, drift: seq<(string, nat)>)
  {
    && (forall i | 0 <= i < |order| :: order[i] < |suite|)
    && |replayed| == |order| && drift == AllDrift(entries, suite, order)
    && forall i | 0 <= i < |order| :: replayed[i] == Replayed(entries, suite[order[i]])
  }

  lemma AlsoReplayed(
    entries: Entries, suite: seq<Scenario>, order: seq<nat>, i: nat, replayed: seq<seq<Step>>,
    drift: seq<(string, nat)>)
    requires i < |order| && order[i] < |suite| && AllReplayed(entries, suite, order[..i], replayed, drift)
    ensures AllReplayed(entries, suite, order[..i + 1], replayed + [Replayed(entries, suite[order[i]])],
                        drift + DriftOf(entries, suite[order[i]]))
  {
    assert order[..i + 1] == order[..i] + [order[i]];
    assert order[..i + 1][..i] == order[..i];
  }

  method ReplaySuite(entries: Entries, suite: seq<Scenario>, order: seq<nat>)
    returns (replayed: seq<seq<Step>>, drift: seq<(string, nat)>)
    requires forall i | 0 <= i < |order| :: order[i] < |suite|
    ensures AllReplayed(entries, suite, order, replayed, drift)
  {
    var p := new ReplayProvider(entries);
    replayed := [];
    for i := 0 to |order|
      invariant fresh(p) && p.entries == entries && AllReplayed(entries, suite, order[..i], replayed, p.drift)
    {
      AlsoReplayed(entries, suite, order, i, replayed, p.drift);
      var steps := ReplayCase(p, suite[order[i]]);
      replayed := replayed + [steps];
    }
    assert order[..|order|] == order;
    drift := p.drift;
  }

  /** Another run of a suite: the same cases, perhaps graded differently. */
  ghost predicate SameCases(suite: seq<Scenario>, again: seq<Scenario>) {
    && |again| == |suite|
    && forall i | 0 <= i < |suite| :: again[i].id == suite[i].id && again[i].maxAttempts == suite[i].maxAttempts
  }

  /** Records a suite, then replays its scenarios as they are graded now, in any order, any
      number of times: each replay equals its recording exactly when that case is
      replayable, and other prompts are only noted. */
  method RecordThenReplay(live: Answers, suite: seq<Scenario>, again: seq<Scenario>, order: seq<nat>)
    returns (entries: Entries, recorded: seq<seq<Step>>, starts: seq<nat>, replayed: seq<seq<Step>>,
             drift: seq<(string, nat)>)
    requires DistinctIds(suite) && SameCases(suite, again) && forall i | 0 <= i < |order| :: order[i] < |suite|
    ensures |recorded| == |starts| == |suite| && |replayed| == |order|
    ensures forall i | 0 <= i < |suite| :: recorded[i] == Trajectory(suite[i], From(live, starts[i]))
    ensures forall i | 0 <= i < |order| ::
              replayed[i] == recorded[order[i]]
              <==> Replayable(suite[order[i]], again[order[i]], From(live, starts[order[i]]))
    ensures drift == AllDrift(entries, again, order)
  {
    entries, recorded, starts := RecordSuite(live, suite);
    replayed, drift := ReplaySuite(entries, again, order);
    forall i | 0 <= i < |order|
      ensures replayed[i] == recorded[order[i]]
              <==> Replayable(suite[order[i]], again[order[i]], From(live, starts[order[i]]))
    {
      var n := order[i];
      assert RecordedAs(suite[n], From(live, starts[n]), recorded[n], Get(entries, suite[n].id));
      ReplayEqualIff(suite[n], again[n], From(live, starts[n]));
    }
  }
}
