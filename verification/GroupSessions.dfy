/** Who owns a group's watering session (irrigation_scheduler.py).

    Program runs, start calls and group sequences live in separate threads and meet only in the
    dictionary `group_cancel_events`. Each action below is one dictionary or event operation of one
    thread, so a list of actions is an interleaving of those threads. */
module GroupSessions {
  import opened Common

  /** The identity of a threading.Event; a fresh one is made for every planting attempt. */
  type EventId = nat
  type Thread = nat

  /** The id `group_seq:{group}:{second}` of a queued sequence. */
  datatype Job = Job(group: int, second: nat)

  datatype SequencePhase =
    | Begun                            // taken off the queue, nothing read yet
    | Holding(captured: Option<EventId>)  // the event read once, at the start of the run
    | Leaving(mine: EventId)           // identity test passed and event cleared, pop still to come

  datatype Sequence = Sequence(group: int, phase: SequencePhase)

  datatype ProgramPhase =
    | Guarding(pending: set<int>, blocked: bool)  // asking every group for a session
    | Planting(toPlant: set<int>, planted: map<int, EventId>)  // setdefault per group, running once none is left
    | Popping(next: int, planted: map<int, EventId>)           // identity test passed for `next`, pop still to come

  datatype Program = Program(groups: set<int>, phase: ProgramPhase)

  datatype State = State(
    events: map<int, EventId>,        // group_cancel_events
    cancelled: set<EventId>,          // the events whose flag is set
    nextEvent: EventId,
    starts: map<Thread, int>,         // start_group_sequence calls between setdefault and add_job
    jobs: set<Job>,
    sequences: map<Thread, Sequence>,
    programs: map<Thread, Program>)

  const Idle := State(map[], {}, 0, map[], {}, map[], map[])

  datatype Action =
    | StartPlant(t: Thread, group: int)
    | StartRemoveOld(t: Thread, former: set<Job>)
    | StartEnqueue(t: Thread, second: nat)
    | JobBegins(job: Job, t: Thread)
    | SequenceCapture(t: Thread)
    | SequenceLeave(t: Thread)
    | SequencePop(t: Thread)
    | ProgramBegin(t: Thread, groups: set<int>)
    | ProgramGuard(t: Thread, group: int)
    | ProgramDecide(t: Thread)
    | ProgramPlant(t: Thread, group: int)
    | ProgramLeave(t: Thread, group: int)
    | ProgramPop(t: Thread)
    | ProgramEnd(t: Thread)
    | CancelSet(group: int)
    | CancelRemove(group: int, queued: set<Job>)

  predicate IsActive(s: State, g: int) {
    g in s.events
  }

  predicate JobsOf(jobs: set<Job>, g: int) {
    forall j | j in jobs :: j.group == g
  }

  predicate Enabled(s: State, a: Action) {
    match a
    case StartPlant(t, g) => t !in s.starts
    case StartRemoveOld(t, former) => t in s.starts && former <= s.jobs && JobsOf(former, s.starts[t])
    case StartEnqueue(t, _) => t in s.starts
    case JobBegins(j, t) => j in s.jobs && t !in s.sequences
    case SequenceCapture(t) => t in s.sequences && s.sequences[t].phase.Begun?
    case SequenceLeave(t) => t in s.sequences && s.sequences[t].phase.Holding?
    case SequencePop(t) => t in s.sequences && s.sequences[t].phase.Leaving?
    case ProgramBegin(t, gs) => t !in s.programs && 0 !in gs && 999 !in gs
    case ProgramGuard(t, g) =>
      t in s.programs && s.programs[t].phase.Guarding? && g in s.programs[t].phase.pending
    case ProgramDecide(t) =>
      t in s.programs && s.programs[t].phase.Guarding? && s.programs[t].phase.pending == {}
    case ProgramPlant(t, g) =>
      t in s.programs && s.programs[t].phase.Planting? && g in s.programs[t].phase.toPlant
    case ProgramLeave(t, g) =>
      t in s.programs && s.programs[t].phase.Planting? && s.programs[t].phase.toPlant == {} &&
      g in s.programs[t].phase.planted
    case ProgramPop(t) => t in s.programs && s.programs[t].phase.Popping?
    case ProgramEnd(t) =>
      t in s.programs && s.programs[t].phase == Planting({}, map[])
    case CancelSet(_) => true
    case CancelRemove(g, queued) => queued <= s.jobs && JobsOf(queued, g)
  }

  /** dict.setdefault with a new event: what the dictionary holds afterwards. */
  function SetDefault(s: State, g: int): State {
    s.(events := if g in s.events then s.events else s.events[g := s.nextEvent], nextEvent := s.nextEvent + 1)
  }

  /** `if events.get(g) is e: e.clear()`; the pop is a later action. */
  function ClearIfMine(s: State, g: int, e: EventId): State {
    if g in s.events && s.events[g] == e then s.(cancelled := s.cancelled - {e}) else s
  }

  function Next(s: State, a: Action): State
    requires Enabled(s, a)
  {
    match a
    case StartPlant(t, g) => SetDefault(s, g).(starts := s.starts[t := g])
    case StartRemoveOld(t, former) => s.(jobs := s.jobs - former)
    case StartEnqueue(t, second) =>
      // A job id that is taken makes add_job raise; the call then returns False and leaves the job there.
      s.(jobs := s.jobs + {Job(s.starts[t], second)}, starts := s.starts - {t})
    case JobBegins(j, t) => s.(jobs := s.jobs - {j}, sequences := s.sequences[t := Sequence(j.group, Begun)])
    case SequenceCapture(t) =>
      var g := s.sequences[t].group;
      var e := if g in s.events then Some(s.events[g]) else None;
      s.(sequences := s.sequences[t := Sequence(g, Holding(e))])
    case SequenceLeave(t) =>
      var g, c := s.sequences[t].group, s.sequences[t].phase.captured;
      if c.Some? && g in s.events && s.events[g] == c.value then
        ClearIfMine(s, g, c.value).(sequences := s.sequences[t := Sequence(g, Leaving(c.value))])
      else s.(sequences := s.sequences - {t})
    case SequencePop(t) =>
      s.(events := s.events - {s.sequences[t].group}, sequences := s.sequences - {t})
    case ProgramBegin(t, gs) => s.(programs := s.programs[t := Program(gs, Guarding(gs, false))])
    case ProgramGuard(t, g) =>
      var p := s.programs[t];
      var blocked := p.phase.blocked || IsActive(s, g);
      s.(programs := s.programs[t := p.(phase := Guarding(p.phase.pending - {g}, blocked))])
    case ProgramDecide(t) =>
      var p := s.programs[t];
      if p.phase.blocked then s.(programs := s.programs - {t})
      else s.(programs := s.programs[t := p.(phase := Planting(p.groups, map[]))])
    case ProgramPlant(t, g) =>
      var p := s.programs[t];
      var planted := if g in s.events then p.phase.planted else p.phase.planted[g := s.nextEvent];
      SetDefault(s, g).(programs := s.programs[t := p.(phase := Planting(p.phase.toPlant - {g}, planted))])
    case ProgramLeave(t, g) =>
      var p, mine := s.programs[t], s.programs[t].phase.planted;
      if g in s.events && s.events[g] == mine[g] then
        ClearIfMine(s, g, mine[g]).(programs := s.programs[t := p.(phase := Popping(g, mine))])
      else s.(programs := s.programs[t := p.(phase := Planting({}, mine - {g}))])
    case ProgramPop(t) =>
      var p, g := s.programs[t], s.programs[t].phase.next;
      s.(events := s.events - {g},
         programs := s.programs[t := p.(phase := Planting({}, p.phase.planted - {g}))])
    case ProgramEnd(t) => s.(programs := s.programs - {t})
    case CancelSet(g) => if g in s.events then s.(cancelled := s.cancelled + {s.events[g]}) else s
    case CancelRemove(g, queued) => s.(jobs := s.jobs - queued)
  }

  ghost predicate CanRun(s: State, run: seq<Action>)
    decreases run
  {
    run == [] || (Enabled(s, run[0]) && CanRun(Next(s, run[0]), run[1..]))
  }

  ghost function After(s: State, run: seq<Action>): State
    requires CanRun(s, run)
    decreases run
  {
    if run == [] then s else After(Next(s, run[0]), run[1..])
  }

  lemma RunBegins(s: State, a: Action, rest: seq<Action>)
    requires Enabled(s, a) && CanRun(Next(s, a), rest)
    ensures CanRun(s, [a] + rest) && After(s, [a] + rest) == After(Next(s, a), rest)
  {
    var run := [a] + rest;
    assert run[0] == a && run[1..] == rest;
  }

  lemma RunOfOne(s: State, a: Action)
    requires Enabled(s, a)
    ensures CanRun(s, [a]) && After(s, [a]) == Next(s, a)
  {
    RunBegins(s, a, []);
    assert [a] + [] == [a];
  }

  /** A run that begins with four given actions, unfolded. */
  lemma FourThen(s: State, s1: State, s2: State, s3: State, a: Action, b: Action, c: Action, d: Action, rest: seq<Action>)
    requires Enabled(s, a) && s1 == Next(s, a)
    requires Enabled(s1, b) && s2 == Next(s1, b)
    requires Enabled(s2, c) && s3 == Next(s2, c)
    requires Enabled(s3, d) && CanRun(Next(s3, d), rest)
    ensures CanRun(s, [a, b, c, d] + rest) && After(s, [a, b, c, d] + rest) == After(Next(s3, d), rest)
  {
    RunBegins(s3, d, rest);
    RunBegins(s2, c, [d] + rest);
    RunBegins(s1, b, [c] + ([d] + rest));
    RunBegins(s, a, [b] + ([c] + ([d] + rest)));
    assert [a, b, c, d] + rest == [a] + ([b] + ([c] + ([d] + rest)));
  }

  lemma {:induction false} RunsJoin(s: State, first: seq<Action>, second: seq<Action>)
    requires CanRun(s, first) && CanRun(After(s, first), second)
    ensures CanRun(s, first + second) && After(s, first + second) == After(After(s, first), second)
    decreases first
  {
    if first == [] {
      assert first + second == second;
    } else {
      RunsJoin(Next(s, first[0]), first[1..], second);
      RunBegins(s, first[0], first[1..] + second);
      assert [first[0]] + (first[1..] + second) == first + second;
    }
  }

  // ---- No stuck session ----

  /** Something that will still visit group g's entry before it ends. */
  datatype Holder = ByStart(t: Thread) | ByJob(j: Job) | BySequence(t: Thread) | ByProgram(t: Thread)

  predicate Holds(s: State, g: int, h: Holder) {
    match h
    case ByStart(t) => t in s.starts && s.starts[t] == g
    case ByJob(j) => j in s.jobs && j.group == g
    case BySequence(t) =>
      t in s.sequences && s.sequences[t].group == g &&
      (match s.sequences[t].phase
       case Begun => true
       case Holding(c) => c.Some? && g in s.events && c.value == s.events[g]
       case Leaving(e) => g in s.events && e == s.events[g])
    case ByProgram(t) =>
      t in s.programs && !s.programs[t].phase.Guarding? && g in s.programs[t].phase.planted &&
      g in s.events && s.programs[t].phase.planted[g] == s.events[g]
  }

  ghost predicate HasHolder(s: State, g: int) {
    exists h :: Holds(s, g, h)
  }

  ghost predicate HasThread(s: State, g: int) {
    exists h :: Holds(s, g, h) && !h.ByJob?
  }

  /** Every session on record will be visited again. */
  ghost predicate Covered(s: State) {
    forall g | g in s.events :: HasHolder(s, g)
  }

  predicate Quiet(s: State) {
    s.starts == map[] && s.jobs == {} && s.sequences == map[] && s.programs == map[]
  }

  lemma ProgramStillHolds(s: State, a: Action, g: int, t: Thread)
    requires Enabled(s, a) && Holds(s, g, ByProgram(t)) && g in Next(s, a).events
    ensures Holds(Next(s, a), g, ByProgram(t))
  {
  }

  lemma SequenceStillHolds(s: State, a: Action, g: int, t: Thread)
    requires Enabled(s, a) && Holds(s, g, BySequence(t)) && g in s.events && g in Next(s, a).events
    ensures Holds(Next(s, a), g, BySequence(t))
  {
  }

  /** What becomes of one holder of g's entry in one action that leaves the entry in place.
      Only the removal of a queued job by a cancel can lose it. */
  lemma HolderAfter(s: State, a: Action, g: int, h: Holder) returns (h': Holder)
    requires Enabled(s, a) && Holds(s, g, h)
    requires g in s.events && g in Next(s, a).events
    requires !(a.CancelRemove? && h.ByJob? && h.j in a.queued)
    ensures Holds(Next(s, a), g, h')
    ensures !h.ByJob? && !a.StartEnqueue? ==> !h'.ByJob?
  {
    h' := h;
    if a.StartRemoveOld? && h.ByJob? && h.j in a.former {
      h' := ByStart(a.t);
    } else if a.StartEnqueue? && h == ByStart(a.t) {
      h' := ByJob(Job(g, a.second));
    } else if a.JobBegins? && h == ByJob(a.job) {
      h' := BySequence(a.t);
    } else if h.ByProgram? {
      ProgramStillHolds(s, a, g, h.t);
    } else if h.BySequence? {
      SequenceStillHolds(s, a, g, h.t);
    }
  }

  lemma NewEntryHasHolder(s: State, a: Action, g: int) returns (h: Holder)
    requires Enabled(s, a) && g !in s.events && g in Next(s, a).events
    ensures Holds(Next(s, a), g, h)
  {
    h := if a.StartPlant? then ByStart(a.t) else ByProgram(a.t);
  }

  /** The mark has a holder other than these jobs. */
  ghost predicate HasOther(s: State, g: int, queued: set<Job>) {
    exists h :: Holds(s, g, h) && !(h.ByJob? && h.j in queued)
  }

  /** A cancel may take queued jobs away from a group only if a thread, or a job that is not taken away,
      is still to visit the group. */
  ghost predicate Harmless(s: State, a: Action) {
    a.CancelRemove? && a.queued != {} && a.group in s.events ==> HasOther(s, a.group, a.queued)
  }

  lemma StepKeepsCovered(s: State, a: Action)
    requires Covered(s) && Enabled(s, a) && Harmless(s, a)
    ensures Covered(Next(s, a))
  {
    forall g | g in Next(s, a).events
      ensures HasHolder(Next(s, a), g)
    {
      if g in s.events {
        var h :| Holds(s, g, h);
        if a.CancelRemove? && h.ByJob? && h.j in a.queued {
          h :| Holds(s, g, h) && !(h.ByJob? && h.j in a.queued);
        }
        var h' := HolderAfter(s, a, g, h);
      } else {
        var h := NewEntryHasHolder(s, a, g);
      }
    }
  }

  ghost predicate HarmlessRun(s: State, run: seq<Action>)
    requires CanRun(s, run)
    decreases run
  {
    run == [] || (Harmless(s, run[0]) && HarmlessRun(Next(s, run[0]), run[1..]))
  }

  lemma {:induction false} RunKeepsCovered(s: State, run: seq<Action>)
    requires Covered(s) && CanRun(s, run) && HarmlessRun(s, run)
    ensures Covered(After(s, run))
    decreases run
  {
    if run != [] {
      StepKeepsCovered(s, run[0]);
      RunKeepsCovered(Next(s, run[0]), run[1..]);
    }
  }

  /** Whatever the interleaving, once every call, job, program and sequence has ended no group is
      left marked as busy. */
  lemma NoStuckSession(run: seq<Action>)
    requires CanRun(Idle, run) && HarmlessRun(Idle, run)
    ensures Covered(After(Idle, run))
    ensures Quiet(After(Idle, run)) ==> After(Idle, run).events == map[]
  {
    RunKeepsCovered(Idle, run);
    var s := After(Idle, run);
    if Quiet(s) {
      assert forall g :: !HasHolder(s, g);
      assert forall g :: g in s.events ==> HasHolder(s, g);
      assert forall g :: g !in s.events;
      assert s.events == map[];
    }
  }

  /** The guard in `Harmless` is exact: when a cancel clears the whole queue of a covered group, the
      group stays covered just in case it has no entry, had no queued job, or some thread works for it. */
  lemma CancelKeepsCoveredIff(s: State, g: int)
    requires Covered(s)
    ensures var queued := set j | j in s.jobs && j.group == g;
            Covered(Next(s, CancelRemove(g, queued))) <==> g !in s.events || queued == {} || HasThread(s, g)
  {
    var queued := set j | j in s.jobs && j.group == g;
    var s' := Next(s, CancelRemove(g, queued));
    if g !in s.events || queued == {} || HasThread(s, g) {
      if HasThread(s, g) {
        var h :| Holds(s, g, h) && !h.ByJob?;
        assert HasOther(s, g, queued);
      }
      StepKeepsCovered(s, CancelRemove(g, queued));
    } else if HasHolder(s', g) {
      var h :| Holds(s', g, h);
      assert Holds(s, g, h) && !h.ByJob?;
    }
  }

  // ---- A cancelled queued start is stranded ----

  /** The group is marked busy although nothing will ever visit the mark again. */
  ghost predicate Stranded(s: State, g: int) {
    && g in s.events
    && !HasHolder(s, g)
    && (forall t | t in s.sequences && s.sequences[t].group == g :: !s.sequences[t].phase.Leaving?)
    && (forall t | t in s.programs && s.programs[t].phase.Popping? :: s.programs[t].phase.next != g)
  }

  /** A start call whose job is cancelled before it begins leaves the mark behind for good. */
  lemma CancelStrandsQueuedStart(g: int, second: nat)
    ensures var run := [StartPlant(0, g), StartRemoveOld(0, {}), StartEnqueue(0, second),
                        CancelSet(g), CancelRemove(g, {Job(g, second)})];
            CanRun(Idle, run) && Quiet(After(Idle, run)) && Stranded(After(Idle, run), g)
  {
    var job := Job(g, second);
    var a0, a1, a2, a3, a4 := StartPlant(0, g), StartRemoveOld(0, {}), StartEnqueue(0, second),
                              CancelSet(g), CancelRemove(g, {job});
    var s1 := Next(Idle, a0);
    var s2 := Next(s1, a1);
    var s3 := Next(s2, a2);
    var s4 := Next(s3, a3);
    var s5 := Next(s4, a4);
    RunOfOne(s4, a4);
    FourThen(Idle, s1, s2, s3, a0, a1, a2, a3, [a4]);
    assert [a0, a1, a2, a3] + [a4] == [a0, a1, a2, a3, a4];
    assert s3.starts == map[] && s5.jobs == {};
  }

  lemma StrandedEntryStays(s: State, a: Action, g: int)
    requires Stranded(s, g) && Enabled(s, a)
    ensures var s' := Next(s, a);
      && g in s'.events && s'.events[g] == s.events[g]
      && (forall t | t in s'.sequences && s'.sequences[t].group == g :: !s'.sequences[t].phase.Leaving?)
      && (forall t | t in s'.programs && s'.programs[t].phase.Popping? :: s'.programs[t].phase.next != g)
  {
    if a.SequenceLeave? && s.sequences[a.t].group == g {
      assert !Holds(s, g, BySequence(a.t));
    } else if a.ProgramLeave? && a.group == g {
      assert !Holds(s, g, ByProgram(a.t));
    }
  }

  lemma ProgramHeldBefore(s: State, a: Action, g: int, t: Thread)
    requires Enabled(s, a) && g in s.events && g in Next(s, a).events && Next(s, a).events[g] == s.events[g]
    requires Holds(Next(s, a), g, ByProgram(t))
    ensures Holds(s, g, ByProgram(t))
  {
  }

  lemma SequenceHeldBefore(s: State, a: Action, g: int, t: Thread)
    requires Enabled(s, a) && g in s.events && g in Next(s, a).events && Next(s, a).events[g] == s.events[g]
    requires Holds(Next(s, a), g, BySequence(t)) && !(a.JobBegins? && a.t == t)
    ensures Holds(s, g, BySequence(t))
  {
  }

  /** Without a new start call, whatever holds an entry now already held it one action earlier. */
  lemma HolderBefore(s: State, a: Action, g: int, h: Holder) returns (before: Holder)
    requires Enabled(s, a) && !(a.StartPlant? && a.group == g)
    requires g in s.events && g in Next(s, a).events && Next(s, a).events[g] == s.events[g]
    requires Holds(Next(s, a), g, h)
    ensures Holds(s, g, before)
  {
    before := h;
    if a.StartEnqueue? && h.ByJob? && h.j !in s.jobs {
      before := ByStart(a.t);
    } else if a.JobBegins? && h == BySequence(a.t) {
      before := ByJob(a.job);
    } else if h.ByProgram? {
      ProgramHeldBefore(s, a, g, h.t);
    } else if h.BySequence? {
      SequenceHeldBefore(s, a, g, h.t);
    }
  }

  lemma StrandedStep(s: State, a: Action, g: int)
    requires Stranded(s, g) && Enabled(s, a) && !(a.StartPlant? && a.group == g)
    ensures Stranded(Next(s, a), g)
  {
    StrandedEntryStays(s, a, g);
    forall h | Holds(Next(s, a), g, h)
      ensures false
    {
      var before := HolderBefore(s, a, g, h);
      assert false;
    }
  }

  lemma {:induction false} StrandedUntilNewStart(s: State, run: seq<Action>, g: int)
    requires Stranded(s, g) && CanRun(s, run)
    requires forall a | a in run :: !(a.StartPlant? && a.group == g)
    ensures Stranded(After(s, run), g)
    decreases run
  {
    if run != [] {
      StrandedStep(s, run[0], g);
      StrandedUntilNewStart(Next(s, run[0]), run[1..], g);
    }
  }

  /** While a group is stranded the guard turns every program that waters it away. */
  lemma StrandedBlocksPrograms(s: State, t: Thread, g: int)
    requires Stranded(s, g) && Enabled(s, ProgramGuard(t, g))
    ensures Next(s, ProgramGuard(t, g)).programs[t].phase.blocked
  {
  }
}
