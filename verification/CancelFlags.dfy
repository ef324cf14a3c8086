/** Whether a group's cancel flag stays set until the cancelled sequence has seen it
    (irrigation_scheduler.py, cancel_group_jobs and the clean-up of _run_group_sequence). */
module CancelFlags {
  import opened Common
  import opened GroupSessions
  import opened SessionMarks
  import opened MarkSafety

  /** Sequence t of group g holds event e, whose flag is set; e marks no other group. */
  ghost predicate Cancelled(s: State, g: int, e: EventId, t: Thread) {
    && e < s.nextEvent && e in s.cancelled
    && t in s.sequences && s.sequences[t] == Sequence(g, Holding(Some(e)))
    && (forall g' | g' in s.events && g' != g :: s.events[g'] != e)
  }

  /** In a state that the idle scheduler can come to, that is any sequence whose event's flag is set. */
  lemma ReachableIsCancelled(run: seq<Action>, g: int, e: EventId, t: Thread)
    requires CanRun(Idle, run)
    ensures var s := After(Idle, run);
      Cancelled(s, g, e, t) <==>
        e in s.cancelled && t in s.sequences && s.sequences[t] == Sequence(g, Holding(Some(e)))
  {
    RunKeepsSound(Idle, run);
    var s := After(Idle, run);
    if t in s.sequences {
      assert SoundSequence(s, s.sequences[t]);
    }
  }

  /** No other sequence of the group that has begun holds e or can still come to hold it, and no program
      is still to look for e there. */
  predicate NobodyHolds(s: State, g: int, e: EventId, t: Thread) {
    && (forall u | u in s.sequences && u != t && s.sequences[u].group == g ::
          !s.sequences[u].phase.Begun? && s.sequences[u].phase != Holding(Some(e)))
    && (forall p | p in s.programs :: !WillLook(s, p, g, e))
  }

  /** Nor is anybody on the way to hold it. */
  predicate Alone(s: State, g: int, e: EventId, t: Thread) {
    NobodyComing(s, g) && NobodyHolds(s, g, e, t)
  }

  predicate BeginsOn(a: Action, g: int) {
    a.JobBegins? && a.job.group == g
  }

  // ---- The flag stays set ----

  lemma ProgramsLookElsewhere(s: State, a: Action, g: int, e: EventId)
    requires Enabled(s, a) && EntryIs(s, g, e) && e < s.nextEvent && !PopsEntry(s, a, g)
    requires forall p | p in s.programs :: !WillLook(s, p, g, e)
    ensures forall p | p in Next(s, a).programs :: !WillLook(Next(s, a), p, g, e)
  {
    assert a.ProgramPop? ==> !PopsNext(s, a.t, g);
    assert a.ProgramLeave? && a.group == g ==> !WillLook(s, a.t, g, e);
  }

  lemma NobodyHoldsStep(s: State, a: Action, g: int, e: EventId, t: Thread)
    requires Enabled(s, a) && e < s.nextEvent && EntryIs(s, g, e) && NobodyHolds(s, g, e, t) && !BeginsOn(a, g)
    ensures NobodyHolds(Next(s, a), g, e, t) || !EntryIs(Next(s, a), g, e)
  {
    EntryStep(s, a, g, e);
    if EntryIs(Next(s, a), g, e) {
      ProgramsLookElsewhere(s, a, g, e);
    }
  }

  lemma CancelledStep(s: State, a: Action, g: int, e: EventId, t: Thread)
    requires Enabled(s, a) && Cancelled(s, g, e, t) && a != SequenceLeave(t)
    requires EntryIs(s, g, e) ==> NobodyHolds(s, g, e, t)
    ensures Cancelled(Next(s, a), g, e, t)
  {
    assert a.ProgramLeave? && a.group == g && EntryIs(s, g, e) ==> !WillLook(s, a.t, g, e);
  }

  /** While the event is no longer the entry, or nobody else holds it and no further sequence of the group
      begins, a set flag stays set until t itself cleans up, whatever all threads do. */
  lemma {:induction false} CancelStaysSet(s: State, run: seq<Action>, g: int, e: EventId, t: Thread)
    requires Cancelled(s, g, e, t) && CanRun(s, run) && SequenceLeave(t) !in run
    requires EntryIs(s, g, e) ==> NobodyHolds(s, g, e, t) && forall a | a in run :: !BeginsOn(a, g)
    ensures Cancelled(After(s, run), g, e, t)
    ensures EntryIs(After(s, run), g, e) ==> NobodyHolds(After(s, run), g, e, t)
    decreases run
  {
    if run != [] {
      assert run[0] in run && forall a | a in run[1..] :: a in run;
      EntryStep(s, run[0], g, e);
      CancelledStep(s, run[0], g, e, t);
      if EntryIs(s, g, e) {
        NobodyHoldsStep(s, run[0], g, e, t);
      }
      CancelStaysSet(Next(s, run[0]), run[1..], g, e, t);
    }
  }

  // ---- The exact condition ----

  /** Nobody starts the group again, and t has not come to its clean-up. */
  predicate NoNewStart(run: seq<Action>, g: int, t: Thread) {
    forall a | a in run :: a != SequenceLeave(t) && !(a.StartPlant? && a.group == g)
  }

  ghost predicate FlagStands(s: State, run: seq<Action>, g: int, e: EventId, t: Thread) {
    CanRun(s, run) && NoNewStart(run, g, t) ==> e in After(s, run).cancelled
  }

  /** From here on the flag stays set until t has cleaned up, unless somebody starts the group anew. */
  ghost predicate FlagIsSafe(s: State, g: int, e: EventId, t: Thread) {
    forall run: seq<Action> :: FlagStands(s, run, g, e, t)
  }

  lemma NobodyComingStep(s: State, a: Action, g: int)
    requires Enabled(s, a) && NobodyComing(s, g) && !(a.StartPlant? && a.group == g)
    ensures NobodyComing(Next(s, a), g) && !BeginsOn(a, g)
  {
  }

  lemma {:induction false} NobodyBegins(s: State, run: seq<Action>, g: int, t: Thread)
    requires NobodyComing(s, g) && CanRun(s, run) && NoNewStart(run, g, t)
    ensures forall a | a in run :: !BeginsOn(a, g)
    decreases run
  {
    if run != [] {
      assert run[0] in run && forall a | a in run[1..] :: a in run;
      NobodyComingStep(s, run[0], g);
      NobodyBegins(Next(s, run[0]), run[1..], g, t);
      assert run == [run[0]] + run[1..];
    }
  }

  /** Another sequence that holds the entry lowers the flag when it leaves. */
  lemma OtherSequenceLowersFlag(s: State, g: int, e: EventId, t: Thread) returns (run: seq<Action>)
    requires Cancelled(s, g, e, t) && EntryIs(s, g, e)
    requires exists u :: u in s.sequences && u != t && s.sequences[u] == Sequence(g, Holding(Some(e)))
    ensures CanRun(s, run) && NoNewStart(run, g, t) && e !in After(s, run).cancelled
    ensures t in After(s, run).sequences && After(s, run).sequences[t] == s.sequences[t]
  {
    var u :| u in s.sequences && u != t && s.sequences[u] == Sequence(g, Holding(Some(e)));
    RunOfOne(s, SequenceLeave(u));
    run := [SequenceLeave(u)];
  }

  /** A sequence that is started, queued or just begun captures the event, stops and lowers the flag. */
  lemma NewcomerLowersFlag(s: State, g: int, e: EventId, t: Thread) returns (run: seq<Action>)
    requires Cancelled(s, g, e, t) && EntryIs(s, g, e)
    requires !NobodyComing(s, g) || exists v :: v in s.sequences && s.sequences[v] == Sequence(g, Begun)
    ensures CanRun(s, run) && NoNewStart(run, g, t) && e !in After(s, run).cancelled
    ensures t in After(s, run).sequences && After(s, run).sequences[t] == s.sequences[t]
  {
    var way, u := SomebodyCaptures(s, g, e);
    RunOfOne(After(s, way), SequenceLeave(u));
    RunsJoin(s, way, [SequenceLeave(u)]);
    run := way + [SequenceLeave(u)];
  }

  /** So does a program that has planted the event, when it cleans up. */
  lemma ProgramLowersFlag(s: State, g: int, e: EventId, t: Thread, p: Thread) returns (run: seq<Action>)
    requires Cancelled(s, g, e, t) && EntryIs(s, g, e) && WillLook(s, p, g, e)
    ensures CanRun(s, run) && NoNewStart(run, g, t) && e !in After(s, run).cancelled
    ensures t in After(s, run).sequences && After(s, run).sequences[t] == s.sequences[t]
  {
    var way := ProceedsToLook(s, p, g, e);
    RunOfOne(After(s, way), ProgramLeave(p, g));
    RunsJoin(s, way, [ProgramLeave(p, g)]);
    run := way + [ProgramLeave(p, g)];
  }

  /** Whenever the condition fails, some run lowers the flag while t goes on holding the event. */
  lemma FlagIsLowered(s: State, g: int, e: EventId, t: Thread) returns (run: seq<Action>)
    requires Cancelled(s, g, e, t) && EntryIs(s, g, e) && !Alone(s, g, e, t)
    ensures CanRun(s, run) && NoNewStart(run, g, t) && e !in After(s, run).cancelled
    ensures t in After(s, run).sequences && After(s, run).sequences[t] == s.sequences[t]
  {
    if p :| p in s.programs && WillLook(s, p, g, e) {
      run := ProgramLowersFlag(s, g, e, t, p);
    } else if u :| u in s.sequences && u != t && s.sequences[u] == Sequence(g, Holding(Some(e))) {
      run := OtherSequenceLowersFlag(s, g, e, t);
    } else {
      run := NewcomerLowersFlag(s, g, e, t);
    }
  }

  /** The flag of a cancelled sequence is safe if and only if its event is no longer the group's entry, or
      nobody else holds the event or may come to hold it. */
  lemma FlagIsSafeIff(s: State, g: int, e: EventId, t: Thread)
    requires Cancelled(s, g, e, t)
    ensures FlagIsSafe(s, g, e, t) <==> !EntryIs(s, g, e) || Alone(s, g, e, t)
  {
    if !EntryIs(s, g, e) || Alone(s, g, e, t) {
      forall run: seq<Action>
        ensures FlagStands(s, run, g, e, t)
      {
        if CanRun(s, run) && NoNewStart(run, g, t) {
          if NobodyComing(s, g) { NobodyBegins(s, run, g, t); }
          CancelStaysSet(s, run, g, e, t);
        }
      }
    } else {
      var run := FlagIsLowered(s, g, e, t);
      assert !FlagStands(s, run, g, e, t);
    }
  }

  // ---- Cancelling an event that a program and a sequence share ----

  lemma SharedThenLowered(s: State, g: int, a: Action)
    requires Shares(s, g) && (a == ProgramLeave(0, g) || a == SequenceLeave(2))
    ensures CanRun(s, [CancelSet(g)] + [a])
    ensures After(s, [CancelSet(g)] + [a]) == Next(Next(s, CancelSet(g)), a)
    ensures 0 !in Next(Next(s, CancelSet(g)), a).cancelled
  {
    RunOfOne(Next(s, CancelSet(g)), a);
    RunBegins(s, CancelSet(g), [a]);
  }

  /** The program's clean-up lowers the flag before the sequence has seen it: the sequence goes on. */
  lemma ProgramUndoesCancel(g: int, second: nat)
    requires g != 0 && g != 999
    ensures var run := SharedEvent(g, second) + ([CancelSet(g)] + [ProgramLeave(0, g)]);
      && CanRun(Idle, run) && 0 !in After(Idle, run).cancelled
      && 2 in After(Idle, run).sequences && After(Idle, run).sequences[2] == Sequence(g, Holding(Some(0)))
  {
    SharedEventHappens(g, second);
    var s := After(Idle, SharedEvent(g, second));
    SharedThenLowered(s, g, ProgramLeave(0, g));
    RunsJoin(Idle, SharedEvent(g, second), [CancelSet(g)] + [ProgramLeave(0, g)]);
  }

  /** The sequence's clean-up lowers the flag before the program has seen it: the program goes on. */
  lemma SequenceUndoesCancel(g: int, second: nat)
    requires g != 0 && g != 999
    ensures var run := SharedEvent(g, second) + ([CancelSet(g)] + [SequenceLeave(2)]);
      && CanRun(Idle, run) && 0 !in After(Idle, run).cancelled
      && 0 in After(Idle, run).programs && After(Idle, run).programs[0].phase == Planting({}, map[g := 0])
  {
    SharedEventHappens(g, second);
    var s := After(Idle, SharedEvent(g, second));
    SharedThenLowered(s, g, SequenceLeave(2));
    RunsJoin(Idle, SharedEvent(g, second), [CancelSet(g)] + [SequenceLeave(2)]);
  }

  // ---- Starting a group while its cancelled sequence still runs ----

  function CancelledRun(g: int, second: nat): seq<Action> {
    [StartPlant(0, g), StartRemoveOld(0, {}), StartEnqueue(0, second), JobBegins(Job(g, second), 1)] +
    ([SequenceCapture(1)] + [CancelSet(g)])
  }

  function Restart(g: int, second: nat): seq<Action> {
    [StartPlant(2, g), StartRemoveOld(2, {}), StartEnqueue(2, second), JobBegins(Job(g, second), 3)] +
    ([SequenceCapture(3)] + [SequenceLeave(3)])
  }

  /** Sequence 1 alone is under way, and cancelled. */
  predicate CancelledAlone(s: State, g: int) {
    && s.events == map[g := 0] && s.nextEvent == 1 && s.cancelled == {0}
    && s.starts == map[] && s.jobs == {} && s.programs == map[]
    && s.sequences == map[1 := Sequence(g, Holding(Some(0)))]
  }

  lemma CancelledRunHappens(g: int, second: nat)
    ensures CanRun(Idle, CancelledRun(g, second)) && CancelledAlone(After(Idle, CancelledRun(g, second)), g)
  {
    var a, b, c, d := StartPlant(0, g), StartRemoveOld(0, {}), StartEnqueue(0, second), JobBegins(Job(g, second), 1);
    var s1 := Next(Idle, a);
    assert s1.events == map[g := 0] && s1.starts == map[0 := g];
    var s2 := Next(s1, b);
    assert s2.jobs == {};
    var s3 := Next(s2, c);
    assert s3.starts == map[] && s3.jobs == {Job(g, second)};
    var s4 := Next(s3, d);
    assert s4.jobs == {} && s4.sequences == map[1 := Sequence(g, Begun)];
    var s5 := Next(s4, SequenceCapture(1));
    assert s5.sequences == map[1 := Sequence(g, Holding(Some(0)))];
    RunOfOne(s5, CancelSet(g));
    RunBegins(s4, SequenceCapture(1), [CancelSet(g)]);
    FourThen(Idle, s1, s2, s3, a, b, c, d, [SequenceCapture(1)] + [CancelSet(g)]);
  }

  lemma RestartHappens(s: State, g: int, second: nat)
    requires CancelledAlone(s, g)
    ensures CanRun(s, Restart(g, second)) && 0 !in After(s, Restart(g, second)).cancelled
    ensures 1 in After(s, Restart(g, second)).sequences
    ensures After(s, Restart(g, second)).sequences[1] == Sequence(g, Holding(Some(0)))
  {
    var a, b, c, d := StartPlant(2, g), StartRemoveOld(2, {}), StartEnqueue(2, second), JobBegins(Job(g, second), 3);
    var s1 := Next(s, a);
    assert s1.events == map[g := 0] && s1.starts == map[2 := g];
    var s2 := Next(s1, b);
    assert s2.jobs == {};
    var s3 := Next(s2, c);
    var s4 := Next(s3, d);
    var s5 := Next(s4, SequenceCapture(3));
    assert s5.sequences[3] == Sequence(g, Holding(Some(0)));
    RunOfOne(s5, SequenceLeave(3));
    RunBegins(s4, SequenceCapture(3), [SequenceLeave(3)]);
    FourThen(s, s1, s2, s3, a, b, c, d, [SequenceCapture(3)] + [SequenceLeave(3)]);
  }

  /** The new sequence takes over the set event, stops at its first check and lowers the flag in its
      clean-up: the cancelled sequence polls a lowered flag and goes on watering. */
  lemma RestartUndoesCancel(g: int, second: nat, later: nat)
    ensures var run := CancelledRun(g, second) + Restart(g, later);
      && CanRun(Idle, run) && 0 !in After(Idle, run).cancelled
      && 1 in After(Idle, run).sequences && After(Idle, run).sequences[1] == Sequence(g, Holding(Some(0)))
  {
    CancelledRunHappens(g, second);
    RestartHappens(After(Idle, CancelledRun(g, second)), g, later);
    RunsJoin(Idle, CancelledRun(g, second), Restart(g, later));
  }
}
