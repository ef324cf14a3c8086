/** The scheduler object whose dictionaries the threads of GroupSessions share, and its functions as one
    thread runs them when no other gets in between (irrigation_scheduler.py). The functions that start, run
    and clean up sequences and programs are runs of the step machine that strand nothing; a cancel may
    strand its group, and says when. */
module SessionTable {
  import opened Common
  import opened GroupSessions

  // ---- Being a run of the step machine ----

  ghost predicate IsWay(s: State, run: seq<Action>, s': State) {
    CanRun(s, run) && HarmlessRun(s, run) && After(s, run) == s'
  }

  /** Some run leads from s to s', and no cancel in it strands anything. */
  ghost predicate Reaches(s: State, s': State) {
    exists run: seq<Action> :: IsWay(s, run, s')
  }

  lemma ReachesItself(s: State)
    ensures Reaches(s, s)
  {
    assert IsWay(s, [], s);
  }

  lemma {:induction false} HarmlessRunsJoin(s: State, first: seq<Action>, second: seq<Action>)
    requires CanRun(s, first) && HarmlessRun(s, first)
    requires CanRun(After(s, first), second) && HarmlessRun(After(s, first), second)
    ensures CanRun(s, first + second) && HarmlessRun(s, first + second)
    decreases first
  {
    if first == [] {
      assert first + second == second;
    } else {
      HarmlessRunsJoin(Next(s, first[0]), first[1..], second);
      assert (first + second)[1..] == first[1..] + second;
    }
  }

  lemma ReachesFurther(s: State, mid: State, end: State)
    requires Reaches(s, mid) && Reaches(mid, end)
    ensures Reaches(s, end)
  {
    var first :| IsWay(s, first, mid);
    var second :| IsWay(mid, second, end);
    HarmlessRunsJoin(s, first, second);
    RunsJoin(s, first, second);
    assert IsWay(s, first + second, end);
  }

  lemma OneMoreStep(s: State, mid: State, a: Action, end: State)
    requires Reaches(s, mid) && Enabled(mid, a) && Harmless(mid, a) && end == Next(mid, a)
    ensures Reaches(s, end)
  {
    RunOfOne(mid, a);
    assert [a][1..] == [] && HarmlessRun(end, []);
    assert IsWay(mid, [a], end);
    ReachesFurther(s, mid, end);
  }

  /** Hence none of those functions leaves a mark that nobody will visit. */
  lemma ReachedIsCovered(s: State, s': State)
    requires Covered(s) && Reaches(s, s')
    ensures Covered(s')
  {
    var run :| IsWay(s, run, s');
    RunKeepsCovered(s, run);
  }

  /** A call that plants, clears the group's queue and enqueues is a run. */
  lemma StartIsRun(s0: State, s1: State, s2: State, s3: State, t: Thread, g: int, second: nat)
    requires t !in s0.starts && s1 == Next(s0, StartPlant(t, g))
    requires s2 == s1.(jobs := s1.jobs - set j | j in s1.jobs && j.group == g)
    requires s3 == s2.(jobs := s2.jobs + {Job(g, second)}, starts := s0.starts)
    ensures Reaches(s0, s3)
  {
    ReachesItself(s0);
    OneMoreStep(s0, s0, StartPlant(t, g), s1);
    OneMoreStep(s0, s1, StartRemoveOld(t, set j | j in s1.jobs && j.group == g), s2);
    assert s2.starts - {t} == s0.starts;
    OneMoreStep(s0, s2, StartEnqueue(t, second), s3);
  }

  // ---- The guard of a program ----

  predicate NoneActive(s: State, groups: set<int>) {
    forall g | g in groups :: !IsActive(s, g)
  }

  lemma AskedOneMore(s: State, asked: set<int>, g: int)
    ensures NoneActive(s, asked + {g}) <==> NoneActive(s, asked) && !IsActive(s, g)
  {
    assert g in asked + {g} && forall h | h in asked :: h in asked + {g};
  }

  function Asked(s: State, t: Thread, groups: set<int>, blocked: bool): State {
    s.(programs := s.programs[t := Program(groups, Guarding({}, blocked))])
  }

  lemma AskingIsRun(s: State, t: Thread, groups: set<int>, pending: set<int>, blocked: bool)
    requires t in s.programs && s.programs[t] == Program(groups, Guarding(pending, blocked))
    ensures Reaches(s, Asked(s, t, groups, blocked || !NoneActive(s, pending)))
    decreases pending
  {
    NonEmpty(pending);
    if pending == {} {
      assert s.programs[t := s.programs[t]] == s.programs;
      ReachesItself(s);
    } else {
      var g :| g in pending;
      var s1 := Next(s, ProgramGuard(t, g));
      var now := blocked || IsActive(s, g);
      ReachesItself(s);
      OneMoreStep(s, s, ProgramGuard(t, g), s1);
      AskingIsRun(s1, t, groups, pending - {g}, now);
      assert pending - {g} + {g} == pending;
      AskedOneMore(s, pending - {g}, g);
      assert NoneActive(s1, pending - {g}) <==> NoneActive(s, pending - {g});
      assert Asked(s1, t, groups, now || !NoneActive(s1, pending - {g})) == Asked(s, t, groups, blocked || !NoneActive(s, pending));
      ReachesFurther(s, s1, Asked(s, t, groups, blocked || !NoneActive(s, pending)));
    }
  }

  function Guarded(s: State, t: Thread, groups: set<int>): State {
    if NoneActive(s, groups) then s.(programs := s.programs[t := Program(groups, Planting(groups, map[]))]) else s
  }

  lemma DecisionIsGuarded(s: State, t: Thread, groups: set<int>)
    requires t !in s.programs && 0 !in groups && 999 !in groups
    ensures var s2 := Asked(Next(s, ProgramBegin(t, groups)), t, groups, !NoneActive(s, groups));
      Enabled(s2, ProgramDecide(t)) && Next(s2, ProgramDecide(t)) == Guarded(s, t, groups)
  {
    var s2 := Asked(Next(s, ProgramBegin(t, groups)), t, groups, !NoneActive(s, groups));
    assert s2.programs == s.programs[t := Program(groups, Guarding({}, !NoneActive(s, groups)))];
    assert s2.programs - {t} == s.programs;
  }

  /** Beginning, asking every group and giving up if one is active is a run. */
  lemma GuardIsRun(s: State, t: Thread, groups: set<int>)
    requires t !in s.programs && 0 !in groups && 999 !in groups
    ensures Reaches(s, Guarded(s, t, groups))
  {
    var s1 := Next(s, ProgramBegin(t, groups));
    var blocked := !NoneActive(s, groups);
    var s2 := Asked(s1, t, groups, blocked);
    ReachesItself(s);
    OneMoreStep(s, s, ProgramBegin(t, groups), s1);
    AskingIsRun(s1, t, groups, groups, false);
    ReachesFurther(s, s1, s2);
    DecisionIsGuarded(s, t, groups);
    OneMoreStep(s, s2, ProgramDecide(t), Guarded(s, t, groups));
  }

  lemma NoneTaken(groups: set<int>, taken: set<int>)
    requires forall g | g in groups :: g !in taken
    ensures groups - taken == groups
  {
    assert forall g | g in groups :: g in groups - taken;
    assert groups - taken == groups;
  }

  // ---- What a program plants ----

  /** The groups outside `toPlant` that had no entry have one of the program's own. */
  ghost predicate PlantedSoFar(before: map<int, EventId>, groups: set<int>, toPlant: set<int>,
                               planted: map<int, EventId>, entries: map<int, EventId>) {
    toPlant <= groups && planted.Keys == groups - toPlant - before.Keys && entries == before + planted
  }

  lemma PlantOneMore(before: map<int, EventId>, groups: set<int>, toPlant: set<int>, planted: map<int, EventId>,
                     entries: map<int, EventId>, g: int, e: EventId)
    requires PlantedSoFar(before, groups, toPlant, planted, entries) && g in toPlant
    ensures if g in entries then PlantedSoFar(before, groups, toPlant - {g}, planted, entries)
            else PlantedSoFar(before, groups, toPlant - {g}, planted[g := e], entries[g := e])
  {
    if g !in entries {
      assert entries[g := e] == before + planted[g := e];
      assert forall h :: h in planted[g := e] <==> h in groups - (toPlant - {g}) - before.Keys;
    } else {
      assert forall h :: h in planted <==> h in groups - (toPlant - {g}) - before.Keys;
    }
  }

  // ---- What a program's clean-up leaves ----

  /** The entries that are not the program's own events of the groups in `done`. */
  function Foreign(entries: map<int, EventId>, mine: map<int, EventId>, done: set<int>): map<int, EventId> {
    map h | h in entries && !(h in done && h in mine && entries[h] == mine[h]) :: entries[h]
  }

  /** Its own events of the groups in `done` that are still those groups' entries. */
  function StillOwn(entries: map<int, EventId>, mine: map<int, EventId>, done: set<int>): set<EventId> {
    set h | h in done && h in mine && h in entries && entries[h] == mine[h] :: mine[h]
  }

  lemma OneGroupLeft(entries: map<int, EventId>, mine: map<int, EventId>, done: set<int>, g: int)
    requires g !in done && g in mine
    ensures g in Foreign(entries, mine, done) <==> g in entries
    ensures if g in entries && entries[g] == mine[g]
      then Foreign(entries, mine, done + {g}) == Foreign(entries, mine, done) - {g} &&
           StillOwn(entries, mine, done + {g}) == StillOwn(entries, mine, done) + {mine[g]}
      else Foreign(entries, mine, done + {g}) == Foreign(entries, mine, done) &&
           StillOwn(entries, mine, done + {g}) == StillOwn(entries, mine, done)
  {
    assert g in done + {g} && forall h | h in done :: h in done + {g};
  }

  /** The clean-up has dealt with the groups in `done`. */
  ghost predicate LeftSoFar(entries: map<int, EventId>, flags: set<EventId>, mine: map<int, EventId>, done: set<int>,
                            now: map<int, EventId>, flagsNow: set<EventId>) {
    && done <= mine.Keys && now == Foreign(entries, mine, done) && flagsNow == flags - StillOwn(entries, mine, done)
  }

  lemma NoneLeftYet(entries: map<int, EventId>, flags: set<EventId>, mine: map<int, EventId>)
    ensures LeftSoFar(entries, flags, mine, {}, entries, flags) && mine - {} == mine
  {
    assert Foreign(entries, mine, {}) == entries && StillOwn(entries, mine, {}) == {};
  }

  lemma AllLeft(mine: map<int, EventId>, done: set<int>)
    requires done <= mine.Keys && mine.Keys - done == {}
    ensures done == mine.Keys && mine - done == map[]
  {
    assert forall g | g in mine.Keys :: g !in mine.Keys - done;
    assert done == mine.Keys;
  }

  lemma LeaveOneMore(entries: map<int, EventId>, flags: set<EventId>, mine: map<int, EventId>, done: set<int>,
                     now: map<int, EventId>, flagsNow: set<EventId>, g: int)
    requires LeftSoFar(entries, flags, mine, done, now, flagsNow) && g in mine && g !in done
    ensures mine - done - {g} == mine - (done + {g})
    ensures if g in now && now[g] == mine[g]
            then LeftSoFar(entries, flags, mine, done + {g}, now - {g}, flagsNow - {mine[g]})
            else LeftSoFar(entries, flags, mine, done + {g}, now, flagsNow)
  {
    OneGroupLeft(entries, mine, done, g);
  }

  /** Events planted where there were none are all that a clean-up takes away. */
  lemma PlantedAreOwn(entries: map<int, EventId>, planted: map<int, EventId>)
    requires forall h | h in planted :: h !in entries
    ensures Foreign(entries + planted, planted, planted.Keys) == entries
  {
    var left := Foreign(entries + planted, planted, planted.Keys);
    assert forall h :: h in left <==> h in entries;
    assert left == entries;
  }

  class IrrigationScheduler {
    var groupCancelEvents: map<int, EventId>
    var cancelled: set<EventId>
    var nextEvent: EventId
    var starts: map<Thread, int>
    var jobs: set<Job>
    var sequences: map<Thread, Sequence>
    var programs: map<Thread, Program>

    ghost function View(): State
      reads this
    {
      State(groupCancelEvents, cancelled, nextEvent, starts, jobs, sequences, programs)
    }

    constructor ()
      ensures View() == Idle && Covered(View())
    {
      groupCancelEvents, cancelled, nextEvent := map[], {}, 0;
      starts, jobs, sequences, programs := map[], {}, map[], map[];
    }

    method IsGroupSessionActive(g: int) returns (active: bool)
      ensures active == IsActive(View(), g)
    {
      active := g in groupCancelEvents;
    }

    /** The entry stays what it was if there is one; otherwise it is the new event. */
    method SetDefaultEvent(g: int) returns (event: EventId, planted: bool)
      modifies `groupCancelEvents, `nextEvent
      ensures View() == SetDefault(old(View()), g)
      ensures event == groupCancelEvents[g]
      ensures planted == (g !in old(groupCancelEvents))
    {
      var fresh' := nextEvent;
      nextEvent := nextEvent + 1;
      planted := g !in groupCancelEvents;
      if planted {
        groupCancelEvents := groupCancelEvents[g := fresh'];
      }
      event := groupCancelEvents[g];
    }

    /** Collects the group's queued sequences, then removes them one by one. */
    method RemoveQueued(g: int)
      modifies `jobs
      ensures jobs == old(jobs) - set j | j in old(jobs) && j.group == g
    {
      var toRemove := set j | j in jobs && j.group == g;
      ghost var all := toRemove;
      while toRemove != {}
        invariant toRemove <= all
        invariant jobs == old(jobs) - (all - toRemove)
        decreases toRemove
      {
        var j :| j in toRemove;
        jobs := jobs - {j};
        toRemove := toRemove - {j};
      }
    }

    // ---- start_group_sequence ----

    /** Without zones nothing happens. Otherwise the group is active afterwards, under the event it had if
        it had one, and exactly one sequence of it is queued. The id of this second cannot be taken, since
        the group's queue has just been cleared. */
    method StartGroupSequence(t: Thread, g: int, zones: seq<int>, second: nat) returns (ok: bool)
      requires t !in starts
      modifies this
      ensures ok <==> zones != []
      ensures !ok ==> View() == old(View())
      ensures ok ==> IsActive(View(), g) && (set j | j in jobs && j.group == g) == {Job(g, second)}
      ensures forall j: Job | j.group != g :: j in jobs <==> j in old(jobs)
      ensures forall h :: h in groupCancelEvents <==> h in old(groupCancelEvents) || (ok && h == g)
      ensures forall h | h in old(groupCancelEvents) :: groupCancelEvents[h] == old(groupCancelEvents)[h]
      ensures starts == old(starts) && sequences == old(sequences) && programs == old(programs)
      ensures cancelled == old(cancelled)
      ensures Reaches(old(View()), View())
    {
      ghost var s0 := View();
      if zones == [] {
        ReachesItself(s0);
        return false;
      }
      PlantForStart(t, g);
      ghost var s1 := View();
      RemoveQueued(g);
      ghost var s2 := View();
      jobs := jobs + {Job(g, second)};
      starts := starts - {t};
      assert starts == s0.starts;
      StartIsRun(s0, s1, s2, View(), t, g, second);
      ok := true;
    }

    method PlantForStart(t: Thread, g: int)
      requires t !in starts
      modifies `groupCancelEvents, `nextEvent, `starts
      ensures View() == Next(old(View()), StartPlant(t, g))
    {
      var event, ownsEvent := SetDefaultEvent(g);
      starts := starts[t := g];
    }

    // ---- _run_group_sequence ----

    /** A queued sequence begins and reads the group's event once. */
    method BeginSequence(job: Job, t: Thread) returns (captured: Option<EventId>)
      requires job in jobs && t !in sequences
      modifies `jobs, `sequences
      ensures captured.Some? <==> IsActive(old(View()), job.group)
      ensures captured.Some? ==> captured.value == groupCancelEvents[job.group]
      ensures jobs == old(jobs) - {job} && sequences == old(sequences)[t := Sequence(job.group, Holding(captured))]
      ensures Reaches(old(View()), View())
    {
      ghost var s0 := View();
      ReachesItself(s0);
      jobs := jobs - {job};
      sequences := sequences[t := Sequence(job.group, Begun)];
      ghost var s1 := View();
      OneMoreStep(s0, s0, JobBegins(job, t), s1);
      captured := if job.group in groupCancelEvents then Some(groupCancelEvents[job.group]) else None;
      sequences := sequences[t := Sequence(job.group, Holding(captured))];
      OneMoreStep(s0, s1, SequenceCapture(t), View());
    }

    /** The clean-up: the group is idle afterwards exactly if it was, or its entry is the captured event,
        whose flag then is down. No other entry and no other flag changes. */
    method FinishSequence(t: Thread)
      requires t in sequences && sequences[t].phase.Holding?
      modifies `groupCancelEvents, `cancelled, `sequences
      ensures var g, c, entries := old(sequences[t].group), old(sequences[t].phase.captured), old(groupCancelEvents);
        && (IsActive(View(), g) <==> g in entries && c != Some(entries[g]))
        && (forall h | h != g || IsActive(View(), g) :: h in groupCancelEvents <==> h in entries)
        && (forall h | h in groupCancelEvents :: groupCancelEvents[h] == entries[h])
        && cancelled == (if g in entries && c == Some(entries[g]) then old(cancelled) - {c.value} else old(cancelled))
      ensures sequences == old(sequences) - {t}
      ensures Reaches(old(View()), View())
    {
      ghost var s0 := View();
      ReachesItself(s0);
      var g, c := sequences[t].group, sequences[t].phase.captured;
      if c.Some? && g in groupCancelEvents && groupCancelEvents[g] == c.value {
        cancelled := cancelled - {c.value};
        ghost var s1 := s0.(cancelled := cancelled, sequences := sequences[t := Sequence(g, Leaving(c.value))]);
        OneMoreStep(s0, s0, SequenceLeave(t), s1);
        groupCancelEvents := groupCancelEvents - {g};
        sequences := sequences - {t};
        assert s1.sequences - {t} == sequences;
        OneMoreStep(s0, s1, SequencePop(t), View());
      } else {
        sequences := sequences - {t};
        OneMoreStep(s0, s0, SequenceLeave(t), View());
      }
    }

    /** A sequence that nobody disturbs, its watering left out: its group is idle afterwards. */
    method RunGroupSequence(job: Job, t: Thread)
      requires job in jobs && t !in sequences
      modifies this
      ensures !IsActive(View(), job.group)
      ensures forall h | h != job.group :: h in groupCancelEvents <==> h in old(groupCancelEvents)
      ensures sequences == old(sequences) && jobs == old(jobs) - {job}
      ensures Reaches(old(View()), View())
    {
      ghost var s0 := View();
      var captured := BeginSequence(job, t);
      ghost var s1 := View();
      FinishSequence(t);
      ReachesFurther(s0, s1, View());
    }

    // ---- _run_program_threaded ----

    /** The list of blocking groups, empty or not. */
    method AskEveryGroup(groups: set<int>) returns (blocked: bool)
      ensures blocked <==> !NoneActive(View(), groups)
    {
      var pending := groups;
      blocked := false;
      while pending != {}
        invariant pending <= groups
        invariant blocked <==> !NoneActive(View(), groups - pending)
        decreases pending
      {
        NonEmpty(pending);
        var g :| g in pending;
        var active := IsGroupSessionActive(g);
        blocked := blocked || active;
        AskedOneMore(View(), groups - pending, g);
        assert groups - (pending - {g}) == groups - pending + {g};
        pending := pending - {g};
      }
      assert groups - {} == groups;
    }

    /** Plants an event of its own where the group has none. */
    method PlantGroup(t: Thread, g: int) returns (planted: map<int, EventId>)
      requires Enabled(View(), ProgramPlant(t, g))
      modifies `groupCancelEvents, `nextEvent, `programs
      ensures var p, mine := old(programs[t]), old(programs[t].phase.planted);
        && planted == (if g in old(groupCancelEvents) then mine else mine[g := old(nextEvent)])
        && programs == old(programs)[t := p.(phase := Planting(p.phase.toPlant - {g}, planted))]
      ensures groupCancelEvents ==
        if g in old(groupCancelEvents) then old(groupCancelEvents) else old(groupCancelEvents)[g := old(nextEvent)]
      ensures Reaches(old(View()), View())
    {
      ghost var s0 := View();
      ReachesItself(s0);
      var p := programs[t];
      var event, isNew := SetDefaultEvent(g);
      planted := if isNew then p.phase.planted[g := event] else p.phase.planted;
      programs := programs[t := p.(phase := Planting(p.phase.toPlant - {g}, planted))];
      OneMoreStep(s0, s0, ProgramPlant(t, g), View());
    }

    /** Plants an event for every group that has none, and remembers those. */
    method PlantEveryGroup(t: Thread, groups: set<int>) returns (planted: map<int, EventId>)
      requires t in programs && programs[t] == Program(groups, Planting(groups, map[]))
      modifies `groupCancelEvents, `nextEvent, `programs
      ensures programs == old(programs)[t := Program(groups, Planting({}, planted))]
      ensures PlantedSoFar(old(groupCancelEvents), groups, {}, planted, groupCancelEvents)
      ensures Reaches(old(View()), View())
    {
      ghost var s0 := View();
      ReachesItself(s0);
      planted := map[];
      var toPlant := groups;
      assert groupCancelEvents == groupCancelEvents + planted;
      while toPlant != {}
        invariant programs == old(programs)[t := Program(groups, Planting(toPlant, planted))]
        invariant PlantedSoFar(s0.events, groups, toPlant, planted, groupCancelEvents)
        invariant Reaches(s0, View())
        decreases toPlant
      {
        NonEmpty(toPlant);
        var g :| g in toPlant;
        ghost var mid := View();
        PlantOneMore(s0.events, groups, toPlant, planted, groupCancelEvents, g, nextEvent);
        planted := PlantGroup(t, g);
        ReachesFurther(s0, mid, View());
        toPlant := toPlant - {g};
      }
    }

    /** A program goes on exactly if none of its groups is active, and then every one of them is, under an
        event of its own; otherwise it leaves no trace. */
    method BeginProgram(t: Thread, groups: set<int>) returns (go: bool, planted: map<int, EventId>)
      requires t !in programs && 0 !in groups && 999 !in groups
      modifies `groupCancelEvents, `nextEvent, `programs
      ensures go <==> forall g | g in groups :: !IsActive(old(View()), g)
      ensures !go ==> View() == old(View())
      ensures go ==> planted.Keys == groups && groupCancelEvents == old(groupCancelEvents) + planted
      ensures go ==> programs == old(programs)[t := Program(groups, Planting({}, planted))]
      ensures Reaches(old(View()), View())
    {
      ghost var s0 := View();
      planted := map[];
      var blocked := GuardProgram(t, groups);
      if blocked {
        return false, planted;
      }
      ghost var s1 := View();
      planted := PlantEveryGroup(t, groups);
      ReachesFurther(s0, s1, View());
      NoneTaken(groups, old(groupCancelEvents.Keys));
      return true, planted;
    }

    /** Asks every group, and gives up if one is active. */
    method GuardProgram(t: Thread, groups: set<int>) returns (blocked: bool)
      requires t !in programs && 0 !in groups && 999 !in groups
      modifies `programs
      ensures blocked <==> !NoneActive(old(View()), groups)
      ensures programs == if blocked then old(programs)
                          else old(programs)[t := Program(groups, Planting(groups, map[]))]
      ensures Reaches(old(View()), View())
    {
      GuardIsRun(View(), t, groups);
      blocked := AskEveryGroup(groups);
      if !blocked {
        programs := programs[t := Program(groups, Planting(groups, map[]))];
      }
    }

    /** One group's clean-up: the identity test, the clear and the pop. */
    method LeaveGroup(t: Thread, g: int)
      requires Enabled(View(), ProgramLeave(t, g))
      modifies `groupCancelEvents, `cancelled, `programs
      ensures var p, e := old(programs[t]), old(programs[t].phase.planted[g]);
        && programs == old(programs)[t := p.(phase := Planting({}, p.phase.planted - {g}))]
        && (if g in old(groupCancelEvents) && old(groupCancelEvents[g]) == e
            then groupCancelEvents == old(groupCancelEvents) - {g} && cancelled == old(cancelled) - {e}
            else groupCancelEvents == old(groupCancelEvents) && cancelled == old(cancelled))
      ensures Reaches(old(View()), View())
    {
      ghost var s0 := View();
      ReachesItself(s0);
      var p, mine := programs[t], programs[t].phase.planted;
      if g in groupCancelEvents && groupCancelEvents[g] == mine[g] {
        cancelled := cancelled - {mine[g]};
        programs := programs[t := p.(phase := Popping(g, mine))];
        ghost var left := View();
        OneMoreStep(s0, s0, ProgramLeave(t, g), left);
        groupCancelEvents := groupCancelEvents - {g};
        programs := programs[t := p.(phase := Planting({}, mine - {g}))];
        OneMoreStep(s0, left, ProgramPop(t), View());
      } else {
        programs := programs[t := p.(phase := Planting({}, mine - {g}))];
        OneMoreStep(s0, s0, ProgramLeave(t, g), View());
      }
    }

    /** The clean-up of all planted groups, one after another. */
    method LeaveEveryGroup(t: Thread, groups: set<int>, mine: map<int, EventId>)
      requires t in programs && programs[t] == Program(groups, Planting({}, mine))
      modifies `groupCancelEvents, `cancelled, `programs
      ensures LeftSoFar(old(groupCancelEvents), old(cancelled), mine, mine.Keys, groupCancelEvents, cancelled)
      ensures programs == old(programs)[t := Program(groups, Planting({}, map[]))]
      ensures Reaches(old(View()), View())
    {
      ghost var s0 := View();
      ReachesItself(s0);
      var left, done := mine.Keys, {};
      NoneLeftYet(s0.events, s0.cancelled, mine);
      while left != {}
        invariant left == mine.Keys - done
        invariant programs == old(programs)[t := Program(groups, Planting({}, mine - done))]
        invariant LeftSoFar(s0.events, s0.cancelled, mine, done, groupCancelEvents, cancelled)
        invariant Reaches(s0, View())
        decreases left
      {
        NonEmpty(left);
        var g :| g in left;
        ghost var mid := View();
        LeaveOneMore(s0.events, s0.cancelled, mine, done, groupCancelEvents, cancelled, g);
        LeaveGroup(t, g);
        ReachesFurther(s0, mid, View());
        left, done := left - {g}, done + {g};
      }
      AllLeft(mine, done);
    }

    /** The clean-up: of the planted groups exactly those that still have the planted event become idle,
        and the flags of those events are down. Nothing else changes. */
    method FinishProgram(t: Thread)
      requires t in programs && programs[t].phase.Planting? && programs[t].phase.toPlant == {}
      modifies `groupCancelEvents, `cancelled, `programs
      ensures var mine := old(programs[t].phase.planted);
        && groupCancelEvents == Foreign(old(groupCancelEvents), mine, mine.Keys)
        && cancelled == old(cancelled) - StillOwn(old(groupCancelEvents), mine, mine.Keys)
      ensures programs == old(programs) - {t}
      ensures Reaches(old(View()), View())
    {
      ghost var s0 := View();
      LeaveEveryGroup(t, programs[t].groups, programs[t].phase.planted);
      ghost var last := View();
      programs := programs - {t};
      assert programs == s0.programs - {t};
      OneMoreStep(s0, last, ProgramEnd(t), View());
    }

    /** A program that nobody disturbs, its watering left out, leaves every group as it found it. */
    method RunProgram(t: Thread, groups: set<int>) returns (ran: bool)
      requires t !in programs && 0 !in groups && 999 !in groups
      modifies this
      ensures ran <==> forall g | g in groups :: !IsActive(old(View()), g)
      ensures groupCancelEvents == old(groupCancelEvents) && programs == old(programs)
      ensures Reaches(old(View()), View())
    {
      ghost var s0 := View();
      var planted;
      ran, planted := BeginProgram(t, groups);
      if ran {
        PlantedAreOwn(old(groupCancelEvents), planted);
        ghost var s1 := View();
        FinishProgram(t);
        ReachesFurther(s0, s1, View());
      }
    }

    // ---- cancel_group_jobs ----

    /** Sets the flag of the group's own event and clears the group's own queue, nothing else. The group stays covered exactly when it had no entry, had
        no queued sequence, or some thread still works for it. */
    method CancelGroupJobs(g: int)
      modifies this
      ensures forall e :: e in cancelled <==>
        e in old(cancelled) || (g in old(groupCancelEvents) && e == old(groupCancelEvents)[g])
      ensures forall j :: j in jobs <==> j in old(jobs) && j.group != g
      ensures groupCancelEvents == old(groupCancelEvents) && nextEvent == old(nextEvent)
      ensures starts == old(starts) && sequences == old(sequences) && programs == old(programs)
      ensures View() == Next(Next(old(View()), CancelSet(g)),
                             CancelRemove(g, set j | j in old(jobs) && j.group == g))
      ensures old(Covered(View())) ==>
        (Covered(View()) <==> g !in old(groupCancelEvents)
                              || (forall j | j in old(jobs) :: j.group != g)
                              || old(HasThread(View(), g)))
    {
      ghost var before := View();
      if g in groupCancelEvents {
        cancelled := cancelled + {groupCancelEvents[g]};
      }
      ghost var mid := View();
      RemoveQueued(g);
      if Covered(before) {
        StepKeepsCovered(before, CancelSet(g));
        CancelKeepsCoveredIff(mid, g);
        assert forall h :: Holds(mid, g, h) <==> Holds(before, g, h);
        var queued := set j | j in mid.jobs && j.group == g;
        assert forall j | j in before.jobs && j.group == g :: j in queued;
      }
    }
  }
}
