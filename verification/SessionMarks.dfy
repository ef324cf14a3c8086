/** How long the event that marks a group stays the group's entry (irrigation_scheduler.py). */
module SessionMarks {
  import opened Common
  import opened GroupSessions

  predicate EntryIs(s: State, g: int, e: EventId) {
    g in s.events && s.events[g] == e
  }

  /** The action drops whatever entry the group has. */
  predicate PopsEntry(s: State, a: Action, g: int)
    requires Enabled(s, a)
  {
    match a
    case SequencePop(t) => s.sequences[t].group == g
    case ProgramPop(t) => s.programs[t].phase.next == g
    case _ => false
  }

  ghost predicate NeverPopped(s: State, run: seq<Action>, g: int)
    requires CanRun(s, run)
    decreases run
  {
    run == [] || (!PopsEntry(s, run[0], g) && NeverPopped(Next(s, run[0]), run[1..], g))
  }

  /** An event that has been replaced never comes back. */
  lemma EntryStep(s: State, a: Action, g: int, e: EventId)
    requires Enabled(s, a) && e < s.nextEvent
    ensures e < Next(s, a).nextEvent
    ensures EntryIs(Next(s, a), g, e) <==> EntryIs(s, g, e) && !PopsEntry(s, a, g)
  {
  }

  /** Whatever the interleaving, an event is still the group's entry if and only if it was and nobody
      has popped the group's entry since. Identity tests and start calls never decide it. */
  lemma {:induction false} EntryStandsIff(s: State, run: seq<Action>, g: int, e: EventId)
    requires CanRun(s, run) && e < s.nextEvent
    ensures EntryIs(After(s, run), g, e) <==> EntryIs(s, g, e) && NeverPopped(s, run, g)
    decreases run
  {
    if run != [] {
      EntryStep(s, run[0], g, e);
      EntryStandsIff(Next(s, run[0]), run[1..], g, e);
    }
  }

  // ---- Events are fresh ----

  predicate SoundEntries(s: State) {
    && (forall g | g in s.events :: s.events[g] < s.nextEvent)
    && (forall g, h | g in s.events && h in s.events && g != h :: s.events[g] != s.events[h])
  }

  predicate SoundSequence(s: State, q: Sequence) {
    q.phase.Holding? && q.phase.captured.Some? ==>
      var e := q.phase.captured.value;
      e < s.nextEvent && forall h | h in s.events && h != q.group :: s.events[h] != e
  }

  /** Every event that marks or has marked a group has been made, and for that group only. */
  ghost predicate Sound(s: State) {
    SoundEntries(s) && forall u | u in s.sequences :: SoundSequence(s, s.sequences[u])
  }

  lemma StepKeepsEntries(s: State, a: Action)
    requires SoundEntries(s) && Enabled(s, a)
    ensures SoundEntries(Next(s, a))
  {
  }

  lemma StepKeepsSequence(s: State, a: Action, q: Sequence)
    requires Enabled(s, a) && SoundSequence(s, q)
    ensures SoundSequence(Next(s, a), q)
  {
  }

  lemma StepKeepsSound(s: State, a: Action)
    requires Sound(s) && Enabled(s, a)
    ensures Sound(Next(s, a))
  {
    var s' := Next(s, a);
    StepKeepsEntries(s, a);
    forall u | u in s'.sequences
      ensures SoundSequence(s', s'.sequences[u])
    {
      if u in s.sequences && s'.sequences[u] == s.sequences[u] {
        StepKeepsSequence(s, a, s.sequences[u]);
      }
    }
  }

  /** So it is in every state that the idle scheduler can come to. */
  lemma {:induction false} RunKeepsSound(s: State, run: seq<Action>)
    requires Sound(s) && CanRun(s, run)
    ensures Sound(After(s, run))
    decreases run
  {
    if run != [] {
      StepKeepsSound(s, run[0]);
      RunKeepsSound(Next(s, run[0]), run[1..]);
    }
  }

  /** Event e has been made and marks no group but h. */
  predicate OnlyFor(s: State, h: int, e: EventId) {
    e < s.nextEvent && forall g | g in s.events && g != h :: s.events[g] != e
  }

  lemma OnlyForStep(s: State, a: Action, h: int, e: EventId)
    requires Enabled(s, a) && OnlyFor(s, h, e) && a != CancelSet(h)
    ensures OnlyFor(Next(s, a), h, e) && (e in Next(s, a).cancelled ==> e in s.cancelled)
  {
  }

  lemma {:induction false} OnlyOwnCancelRaises(s: State, run: seq<Action>, h: int, e: EventId)
    requires CanRun(s, run) && OnlyFor(s, h, e) && e !in s.cancelled && CancelSet(h) !in run
    ensures e !in After(s, run).cancelled
    decreases run
  {
    if run != [] {
      assert run[0] in run && forall a | a in run[1..] :: a in run;
      OnlyForStep(s, run[0], h, e);
      OnlyOwnCancelRaises(Next(s, run[0]), run[1..], h, e);
    }
  }

  /** A cancel reaches its own group only: in no run without a cancel of group h does the flag of h's
      entry, or of an event that a sequence of h has captured, go up. */
  lemma OthersAreNotCancelled(s: State, run: seq<Action>, h: int, e: EventId)
    requires Sound(s) && CanRun(s, run) && CancelSet(h) !in run && e !in s.cancelled
    requires EntryIs(s, h, e) || exists u :: u in s.sequences && s.sequences[u] == Sequence(h, Holding(Some(e)))
    ensures e !in After(s, run).cancelled
  {
    if !EntryIs(s, h, e) {
      var u :| u in s.sequences && s.sequences[u] == Sequence(h, Holding(Some(e)));
      assert SoundSequence(s, s.sequences[u]);
    }
    OnlyOwnCancelRaises(s, run, h, e);
  }

  // ---- A program and a sequence that share one event ----

  function Joining(g: int, second: nat): seq<Action> {
    [StartPlant(1, g), StartRemoveOld(1, {}), StartEnqueue(1, second), JobBegins(Job(g, second), 2)] +
    [SequenceCapture(2)]
  }

  /** A program plants the group's event, and a start call that came too late to be seen by the guard
      queues a sequence, which captures the same event. */
  function SharedEvent(g: int, second: nat): seq<Action> {
    [ProgramBegin(0, {g}), ProgramGuard(0, g), ProgramDecide(0), ProgramPlant(0, g)] + Joining(g, second)
  }

  /** Program 0 waters group g and sequence 2 holds the same event; nothing else is under way. */
  predicate Shares(s: State, g: int) {
    && s.events == map[g := 0] && 0 < s.nextEvent && 0 !in s.cancelled
    && s.starts == map[] && s.jobs == {}
    && s.programs == map[0 := Program({g}, Planting({}, map[g := 0]))]
    && s.sequences == map[2 := Sequence(g, Holding(Some(0)))]
  }

  lemma ProgramPlantsAlone(g: int, rest: seq<Action>)
    requires g != 0 && g != 999
    requires CanRun(State(map[g := 0], {}, 1, map[], {}, map[], map[0 := Program({g}, Planting({}, map[g := 0]))]), rest)
    ensures var run := [ProgramBegin(0, {g}), ProgramGuard(0, g), ProgramDecide(0), ProgramPlant(0, g)] + rest;
      var planted := State(map[g := 0], {}, 1, map[], {}, map[], map[0 := Program({g}, Planting({}, map[g := 0]))]);
      CanRun(Idle, run) && After(Idle, run) == After(planted, rest)
  {
    var a, b, c, d := ProgramBegin(0, {g}), ProgramGuard(0, g), ProgramDecide(0), ProgramPlant(0, g);
    var s1 := Next(Idle, a);
    assert s1.programs == map[0 := Program({g}, Guarding({g}, false))];
    var s2 := Next(s1, b);
    assert {g} - {g} == {};
    assert s2.programs == map[0 := Program({g}, Guarding({}, false))];
    var s3 := Next(s2, c);
    assert s3.programs == map[0 := Program({g}, Planting({g}, map[]))];
    var s4 := Next(s3, d);
    assert s4.programs == map[0 := Program({g}, Planting({}, map[g := 0]))] && s4.events == map[g := 0];
    FourThen(Idle, s1, s2, s3, a, b, c, d, rest);
  }

  lemma SequenceJoins(s: State, g: int, second: nat)
    requires s == State(map[g := 0], {}, 1, map[], {}, map[], map[0 := Program({g}, Planting({}, map[g := 0]))])
    ensures CanRun(s, Joining(g, second)) && Shares(After(s, Joining(g, second)), g)
  {
    var a, b, c, d := StartPlant(1, g), StartRemoveOld(1, {}), StartEnqueue(1, second), JobBegins(Job(g, second), 2);
    var s1 := Next(s, a);
    assert s1.events == map[g := 0] && s1.starts == map[1 := g];
    var s2 := Next(s1, b);
    assert s2.jobs == {};
    var s3 := Next(s2, c);
    assert s3.starts == map[] && s3.jobs == {Job(g, second)};
    var s4 := Next(s3, d);
    assert s4.jobs == {} && s4.sequences == map[2 := Sequence(g, Begun)];
    var s5 := Next(s4, SequenceCapture(2));
    assert s5.sequences == map[2 := Sequence(g, Holding(Some(0)))];
    RunOfOne(s4, SequenceCapture(2));
    FourThen(s, s1, s2, s3, a, b, c, d, [SequenceCapture(2)]);
  }

  lemma SharedEventHappens(g: int, second: nat)
    requires g != 0 && g != 999
    ensures CanRun(Idle, SharedEvent(g, second)) && Shares(After(Idle, SharedEvent(g, second)), g)
  {
    var planted := State(map[g := 0], {}, 1, map[], {}, map[], map[0 := Program({g}, Planting({}, map[g := 0]))]);
    SequenceJoins(planted, g, second);
    ProgramPlantsAlone(g, Joining(g, second));
  }

  // ---- The identity test and the pop are two steps ----

  function LateExit(g: int): seq<Action> {
    [ProgramLeave(0, g), SequenceLeave(2), SequencePop(2), StartPlant(3, g)] + [ProgramPop(0)]
  }

  lemma LateExitHappens(s: State, g: int)
    requires Shares(s, g)
    ensures CanRun(s, LateExit(g)) && !IsActive(After(s, LateExit(g)), g) && Holds(After(s, LateExit(g)), g, ByStart(3))
  {
    var a, b, c, d := ProgramLeave(0, g), SequenceLeave(2), SequencePop(2), StartPlant(3, g);
    var s1 := Next(s, a);
    var s2 := Next(s1, b);
    var s3 := Next(s2, c);
    RunOfOne(Next(s3, d), ProgramPop(0));
    FourThen(s, s1, s2, s3, a, b, c, d, [ProgramPop(0)]);
  }

  /** Two owners of one event may leave together: the second pop then drops the entry of a start call
      made in between, and the group looks idle while that call is under way. */
  lemma LatePopDropsNewEntry(g: int, second: nat)
    requires g != 0 && g != 999
    ensures var run := SharedEvent(g, second) + LateExit(g);
      CanRun(Idle, run) && !IsActive(After(Idle, run), g) && Holds(After(Idle, run), g, ByStart(3))
  {
    SharedEventHappens(g, second);
    LateExitHappens(After(Idle, SharedEvent(g, second)), g);
    RunsJoin(Idle, SharedEvent(g, second), LateExit(g));
  }

  // ---- A running program can lose its mark ----

  /** Program 0 still runs, its group looks idle, and a cancel of the group reaches nobody. */
  predicate RunsUnmarked(s: State, g: int) {
    && 0 in s.programs && s.programs[0].phase == Planting({}, map[g := 0])
    && !IsActive(s, g) && Next(s, CancelSet(g)) == s
  }

  lemma SequenceTakesMark(s: State, g: int)
    requires Shares(s, g)
    ensures CanRun(s, [SequenceLeave(2), SequencePop(2)])
    ensures RunsUnmarked(After(s, [SequenceLeave(2), SequencePop(2)]), g)
  {
    RunOfOne(Next(s, SequenceLeave(2)), SequencePop(2));
    RunBegins(s, SequenceLeave(2), [SequencePop(2)]);
    assert [SequenceLeave(2)] + [SequencePop(2)] == [SequenceLeave(2), SequencePop(2)];
  }

  /** The sequence pops the program's event while the program still runs. By ProgramKeepsMarkIff it
      takes such a pop before the program's own. */
  lemma RunningProgramLosesMark(g: int, second: nat)
    requires g != 0 && g != 999
    ensures var run := SharedEvent(g, second) + [SequenceLeave(2), SequencePop(2)];
      CanRun(Idle, run) && RunsUnmarked(After(Idle, run), g)
  {
    SharedEventHappens(g, second);
    SequenceTakesMark(After(Idle, SharedEvent(g, second)), g);
    RunsJoin(Idle, SharedEvent(g, second), [SequenceLeave(2), SequencePop(2)]);
  }

  /** A program that has planted the group finds its own event there, whenever it comes to look, if and
      only if nobody has popped the group's entry in the meantime. */
  lemma ProgramKeepsMarkIff(s: State, run: seq<Action>, g: int, t: Thread)
    requires CanRun(s, run) && Holds(s, g, ByProgram(t)) && s.events[g] < s.nextEvent
    ensures EntryIs(After(s, run), g, s.programs[t].phase.planted[g]) <==> NeverPopped(s, run, g)
  {
    EntryStandsIff(s, run, g, s.events[g]);
  }
}
