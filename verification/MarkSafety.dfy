/** What can be told from a state about the event that marks a group: who may yet come to hold it, and
    whether somebody may yet drop it (irrigation_scheduler.py). */
module MarkSafety {
  import opened Common
  import opened GroupSessions
  import opened SessionMarks

  // ---- Who may come to hold the event ----

  /** No start call of the group is under way and none of its sequences is queued. */
  predicate NobodyComing(s: State, g: int) {
    (forall u | u in s.starts :: s.starts[u] != g) && (forall j | j in s.jobs :: j.group != g)
  }

  /** Program p has passed its identity test for g; what is left is the pop. */
  predicate PopsNext(s: State, p: Thread, g: int) {
    p in s.programs && s.programs[p].phase.Popping? && s.programs[p].phase.next == g
  }

  /** Program p, past its guard, has planted e as the mark of g and has still to look for it there. */
  predicate WillLook(s: State, p: Thread, g: int, e: EventId) {
    && p in s.programs && !s.programs[p].phase.Guarding?
    && g in s.programs[p].phase.planted && s.programs[p].phase.planted[g] == e
    && !PopsNext(s, p, g)
  }

  lemma FreshThread(taken: set<Thread>) returns (u: Thread)
    ensures forall k | k in taken :: k < u
    decreases taken
  {
    if k :| k in taken {
      u := FreshThread(taken - {k});
      assert forall x | x in taken :: x == k || x in taken - {k};
      u := if k < u then u else k + 1;
    } else {
      u := 0;
    }
  }

  /** Another sequence u has come to hold e, and nothing else has happened to programs, marks, flags and
      the other sequences. */
  ghost predicate HoldsNow(s: State, end: State, g: int, e: EventId, u: Thread) {
    && u in end.sequences && end.sequences[u] == Sequence(g, Holding(Some(e)))
    && (u in s.sequences ==> s.sequences[u].phase.Begun?)
    && (forall v | v in s.sequences && v != u :: v in end.sequences && end.sequences[v] == s.sequences[v])
    && end.programs == s.programs && end.events == s.events && end.cancelled == s.cancelled
  }

  /** The run takes a sequence from its start call to the group's event, and does nothing else. */
  predicate OnlyArrives(run: seq<Action>) {
    forall a | a in run :: a.StartEnqueue? || a.JobBegins? || a.SequenceCapture?
  }

  lemma BegunCaptures(s: State, g: int, e: EventId, u: Thread) returns (run: seq<Action>)
    requires EntryIs(s, g, e) && u in s.sequences && s.sequences[u] == Sequence(g, Begun)
    ensures CanRun(s, run) && OnlyArrives(run) && HoldsNow(s, After(s, run), g, e, u)
  {
    run := [SequenceCapture(u)];
    RunOfOne(s, SequenceCapture(u));
  }

  lemma JobCaptures(s: State, g: int, e: EventId, j: Job) returns (run: seq<Action>, u: Thread)
    requires EntryIs(s, g, e) && j in s.jobs && j.group == g
    ensures CanRun(s, run) && OnlyArrives(run) && HoldsNow(s, After(s, run), g, e, u)
  {
    u := FreshThread(s.sequences.Keys);
    assert u !in s.sequences;
    var rest := BegunCaptures(Next(s, JobBegins(j, u)), g, e, u);
    RunBegins(s, JobBegins(j, u), rest);
    run := [JobBegins(j, u)] + rest;
  }

  lemma StartCaptures(s: State, g: int, e: EventId, c: Thread) returns (run: seq<Action>, u: Thread)
    requires EntryIs(s, g, e) && c in s.starts && s.starts[c] == g
    ensures CanRun(s, run) && OnlyArrives(run) && HoldsNow(s, After(s, run), g, e, u)
  {
    var rest;
    rest, u := JobCaptures(Next(s, StartEnqueue(c, 0)), g, e, Job(g, 0));
    RunBegins(s, StartEnqueue(c, 0), rest);
    run := [StartEnqueue(c, 0)] + rest;
  }

  /** Whoever is on the way to a sequence of the group, or has just begun one, can be run on until it
      holds the group's event. */
  lemma SomebodyCaptures(s: State, g: int, e: EventId) returns (run: seq<Action>, u: Thread)
    requires EntryIs(s, g, e)
    requires !NobodyComing(s, g) || exists v :: v in s.sequences && s.sequences[v] == Sequence(g, Begun)
    ensures CanRun(s, run) && OnlyArrives(run) && HoldsNow(s, After(s, run), g, e, u)
  {
    if c :| c in s.starts && s.starts[c] == g {
      run, u := StartCaptures(s, g, e, c);
    } else if j :| j in s.jobs && j.group == g {
      run, u := JobCaptures(s, g, e, j);
    } else {
      u :| u in s.sequences && s.sequences[u] == Sequence(g, Begun);
      run := BegunCaptures(s, g, e, u);
    }
  }

  // ---- A program on its way to its clean-up ----

  /** Program p is about to look for e, and nothing has happened to sequences, flags and the mark of g. */
  ghost predicate LooksNow(s: State, end: State, p: Thread, g: int, e: EventId) {
    && EntryIs(end, g, e) && end.cancelled == s.cancelled && end.sequences == s.sequences
    && p in end.programs && end.programs[p].phase.Planting? && end.programs[p].phase.toPlant == {}
    && g in end.programs[p].phase.planted && end.programs[p].phase.planted[g] == e
  }

  predicate OnlyProceeds(run: seq<Action>, p: Thread) {
    forall a | a in run :: (a.ProgramPlant? || a.ProgramPop?) && a.t == p
  }

  lemma PlantsOn(s: State, p: Thread, g: int, e: EventId) returns (run: seq<Action>)
    requires EntryIs(s, g, e) && WillLook(s, p, g, e) && s.programs[p].phase.Planting?
    ensures CanRun(s, run) && OnlyProceeds(run, p) && LooksNow(s, After(s, run), p, g, e)
    decreases s.programs[p].phase.toPlant
  {
    NonEmpty(s.programs[p].phase.toPlant);
    if s.programs[p].phase.toPlant == {} {
      run := [];
    } else {
      var h :| h in s.programs[p].phase.toPlant;
      var s1 := Next(s, ProgramPlant(p, h));
      var rest := PlantsOn(s1, p, g, e);
      RunBegins(s, ProgramPlant(p, h), rest);
      run := [ProgramPlant(p, h)] + rest;
    }
  }

  lemma ProceedsToLook(s: State, p: Thread, g: int, e: EventId) returns (run: seq<Action>)
    requires EntryIs(s, g, e) && WillLook(s, p, g, e)
    ensures CanRun(s, run) && OnlyProceeds(run, p) && LooksNow(s, After(s, run), p, g, e)
  {
    if s.programs[p].phase.Popping? {
      var s1 := Next(s, ProgramPop(p));
      var rest := PlantsOn(s1, p, g, e);
      RunBegins(s, ProgramPop(p), rest);
      run := [ProgramPop(p)] + rest;
    } else {
      run := PlantsOn(s, p, g, e);
    }
  }

  // ---- A mark that nobody is about to drop ----

  /** The action passes the identity test for group g. */
  predicate PassesTest(s: State, a: Action, g: int)
    requires Enabled(s, a)
  {
    match a
    case SequenceLeave(u) => s.sequences[u].group == g && Holds(s, g, BySequence(u))
    case ProgramLeave(p, h) => h == g && Holds(s, g, ByProgram(p))
    case _ => false
  }

  ghost predicate NobodyPasses(s: State, run: seq<Action>, g: int)
    requires CanRun(s, run)
    decreases run
  {
    run == [] || (!PassesTest(s, run[0], g) && NobodyPasses(Next(s, run[0]), run[1..], g))
  }

  /** Nobody has passed its identity test for the group and has the pop still to come. */
  predicate NoPopPending(s: State, g: int) {
    && (forall u | u in s.sequences && s.sequences[u].group == g :: !s.sequences[u].phase.Leaving?)
    && (forall p | p in s.programs :: !PopsNext(s, p, g))
  }

  lemma NoPopPendingStep(s: State, a: Action, g: int)
    requires Enabled(s, a) && NoPopPending(s, g) && !PassesTest(s, a, g)
    ensures NoPopPending(Next(s, a), g) && !PopsEntry(s, a, g)
  {
    assert a.ProgramPop? ==> !PopsNext(s, a.t, g);
  }

  lemma {:induction false} NoPopPendingStays(s: State, run: seq<Action>, g: int)
    requires CanRun(s, run) && NoPopPending(s, g) && NobodyPasses(s, run, g)
    ensures NeverPopped(s, run, g)
    decreases run
  {
    if run != [] {
      NoPopPendingStep(s, run[0], g);
      NoPopPendingStays(Next(s, run[0]), run[1..], g);
    }
  }

  ghost predicate StandsUntested(s: State, run: seq<Action>, g: int, e: EventId) {
    CanRun(s, run) && NobodyPasses(s, run, g) ==> EntryIs(After(s, run), g, e)
  }

  /** However the run goes on, the entry stands until somebody passes the identity test for it. */
  ghost predicate OnlyTestsDrop(s: State, g: int, e: EventId) {
    forall run: seq<Action> :: StandsUntested(s, run, g, e)
  }

  /** An entry can be dropped without a new identity test if and only if a pop is pending from an old one:
      that is when a late pop hits the mark of a newer start. */
  lemma OnlyTestsDropIff(s: State, g: int, e: EventId)
    requires EntryIs(s, g, e) && e < s.nextEvent
    ensures OnlyTestsDrop(s, g, e) <==> NoPopPending(s, g)
  {
    if NoPopPending(s, g) {
      forall run: seq<Action>
        ensures StandsUntested(s, run, g, e)
      {
        if CanRun(s, run) && NobodyPasses(s, run, g) {
          NoPopPendingStays(s, run, g);
          EntryStandsIff(s, run, g, e);
        }
      }
    } else {
      var a;
      if u :| u in s.sequences && s.sequences[u].group == g && s.sequences[u].phase.Leaving? {
        a := SequencePop(u);
      } else {
        var p :| p in s.programs && PopsNext(s, p, g);
        a := ProgramPop(p);
      }
      RunOfOne(s, a);
      assert NobodyPasses(Next(s, a), [a][1..], g);
      assert !StandsUntested(s, [a], g, e);
    }
  }

  // ---- A running program's mark ----

  /** Nobody starts the group, and program t does not come to its own clean-up of it. */
  predicate Undisturbed(run: seq<Action>, g: int, t: Thread) {
    forall a | a in run :: a != ProgramLeave(t, g) && !(a.StartPlant? && a.group == g)
  }

  /** Besides t nobody holds, or may come to hold, the event, and no pop is pending. */
  predicate NobodyElse(s: State, g: int, e: EventId, t: Thread) {
    && NobodyComing(s, g)
    && (forall u | u in s.sequences && s.sequences[u].group == g ::
          s.sequences[u].phase.Holding? && s.sequences[u].phase.captured != Some(e))
    && (forall p | p in s.programs && p != t :: !WillLook(s, p, g, e))
    && (forall p | p in s.programs :: !PopsNext(s, p, g))
  }

  lemma ProgramsStayElsewhere(s: State, a: Action, g: int, e: EventId, t: Thread)
    requires Enabled(s, a) && EntryIs(s, g, e) && e < s.nextEvent && a != ProgramLeave(t, g)
    requires forall p | p in s.programs && p != t :: !WillLook(s, p, g, e)
    requires forall p | p in s.programs :: !PopsNext(s, p, g)
    ensures forall p | p in Next(s, a).programs && p != t :: !WillLook(Next(s, a), p, g, e)
    ensures forall p | p in Next(s, a).programs :: !PopsNext(Next(s, a), p, g)
  {
    assert a.ProgramLeave? && a.group == g ==> !WillLook(s, a.t, g, e);
  }

  lemma NobodyElseStep(s: State, a: Action, g: int, e: EventId, t: Thread)
    requires Enabled(s, a) && EntryIs(s, g, e) && e < s.nextEvent && NobodyElse(s, g, e, t)
    requires a != ProgramLeave(t, g) && !(a.StartPlant? && a.group == g)
    ensures EntryIs(Next(s, a), g, e) && e < Next(s, a).nextEvent && NobodyElse(Next(s, a), g, e, t)
  {
    assert a.ProgramPop? ==> !PopsNext(s, a.t, g);
    EntryStep(s, a, g, e);
    ProgramsStayElsewhere(s, a, g, e, t);
  }

  lemma {:induction false} NobodyElseStays(s: State, run: seq<Action>, g: int, e: EventId, t: Thread)
    requires CanRun(s, run) && EntryIs(s, g, e) && e < s.nextEvent && NobodyElse(s, g, e, t) && Undisturbed(run, g, t)
    ensures EntryIs(After(s, run), g, e)
    decreases run
  {
    if run != [] {
      assert run[0] in run && forall a | a in run[1..] :: a in run;
      NobodyElseStep(s, run[0], g, e, t);
      NobodyElseStays(Next(s, run[0]), run[1..], g, e, t);
    }
  }

  ghost predicate MarkStands(s: State, run: seq<Action>, g: int, e: EventId, t: Thread) {
    CanRun(s, run) && Undisturbed(run, g, t) ==> EntryIs(After(s, run), g, e)
  }

  /** The mark lasts until the program's own clean-up, unless somebody starts the group. */
  ghost predicate MarkIsSafe(s: State, g: int, e: EventId, t: Thread) {
    forall run: seq<Action> :: MarkStands(s, run, g, e, t)
  }

  /** A sequence that holds the entry leaves and pops it. */
  lemma SequencePopsMark(s: State, g: int, e: EventId, u: Thread)
    requires EntryIs(s, g, e) && u in s.sequences && s.sequences[u] == Sequence(g, Holding(Some(e)))
    ensures var run := [SequenceLeave(u)] + [SequencePop(u)]; CanRun(s, run) && !IsActive(After(s, run), g)
  {
    RunOfOne(Next(s, SequenceLeave(u)), SequencePop(u));
    RunBegins(s, SequenceLeave(u), [SequencePop(u)]);
  }

  lemma ProgramPopsMark(s: State, g: int, e: EventId, p: Thread)
    requires LooksNow(s, s, p, g, e)
    ensures var run := [ProgramLeave(p, g)] + [ProgramPop(p)]; CanRun(s, run) && !IsActive(After(s, run), g)
  {
    RunOfOne(Next(s, ProgramLeave(p, g)), ProgramPop(p));
    RunBegins(s, ProgramLeave(p, g), [ProgramPop(p)]);
  }

  /** A pop that is pending drops the mark at once. */
  lemma PendingPopDrops(s: State, g: int, t: Thread) returns (run: seq<Action>)
    requires !NoPopPending(s, g)
    ensures CanRun(s, run) && Undisturbed(run, g, t) && !IsActive(After(s, run), g)
  {
    var a;
    if p :| p in s.programs && PopsNext(s, p, g) {
      a := ProgramPop(p);
    } else {
      var u :| u in s.sequences && s.sequences[u].group == g && s.sequences[u].phase.Leaving?;
      a := SequencePop(u);
    }
    RunOfOne(s, a);
    run := [a];
  }

  lemma HolderDrops(s: State, g: int, e: EventId, t: Thread) returns (run: seq<Action>)
    requires EntryIs(s, g, e)
    requires (exists u :: u in s.sequences && s.sequences[u] == Sequence(g, Holding(Some(e)))) ||
             (exists p :: p in s.programs && p != t && WillLook(s, p, g, e))
    ensures CanRun(s, run) && Undisturbed(run, g, t) && !IsActive(After(s, run), g)
  {
    if u :| u in s.sequences && s.sequences[u] == Sequence(g, Holding(Some(e))) {
      run := [SequenceLeave(u)] + [SequencePop(u)];
      SequencePopsMark(s, g, e, u);
    } else {
      var p :| p in s.programs && p != t && WillLook(s, p, g, e);
      var way := ProceedsToLook(s, p, g, e);
      ProgramPopsMark(After(s, way), g, e, p);
      RunsJoin(s, way, [ProgramLeave(p, g)] + [ProgramPop(p)]);
      run := way + ([ProgramLeave(p, g)] + [ProgramPop(p)]);
    }
  }

  lemma NewcomerDrops(s: State, g: int, e: EventId, t: Thread) returns (run: seq<Action>)
    requires EntryIs(s, g, e)
    requires !NobodyComing(s, g) || exists v :: v in s.sequences && s.sequences[v] == Sequence(g, Begun)
    ensures CanRun(s, run) && Undisturbed(run, g, t) && !IsActive(After(s, run), g)
  {
    var way, u := SomebodyCaptures(s, g, e);
    SequencePopsMark(After(s, way), g, e, u);
    RunsJoin(s, way, [SequenceLeave(u)] + [SequencePop(u)]);
    run := way + ([SequenceLeave(u)] + [SequencePop(u)]);
  }

  lemma MarkIsDropped(s: State, g: int, e: EventId, t: Thread) returns (run: seq<Action>)
    requires EntryIs(s, g, e) && !NobodyElse(s, g, e, t)
    ensures CanRun(s, run) && Undisturbed(run, g, t) && !IsActive(After(s, run), g)
  {
    if !NoPopPending(s, g) {
      run := PendingPopDrops(s, g, t);
    } else if u :| u in s.sequences && s.sequences[u] == Sequence(g, Holding(Some(e))) {
      run := HolderDrops(s, g, e, t);
    } else if p :| p in s.programs && p != t && WillLook(s, p, g, e) {
      run := HolderDrops(s, g, e, t);
    } else {
      run := NewcomerDrops(s, g, e, t);
    }
  }

  /** Program t's mark lasts until its own clean-up, in every run without a new start of the group, if and
      only if besides t nobody holds the event or may come to hold it, and no pop of the group is pending. */
  lemma MarkIsSafeIff(s: State, g: int, t: Thread)
    requires Holds(s, g, ByProgram(t)) && s.events[g] < s.nextEvent
    ensures MarkIsSafe(s, g, s.events[g], t) <==> NobodyElse(s, g, s.events[g], t)
  {
    var e := s.events[g];
    if NobodyElse(s, g, e, t) {
      forall run: seq<Action>
        ensures MarkStands(s, run, g, e, t)
      {
        if CanRun(s, run) && Undisturbed(run, g, t) {
          NobodyElseStays(s, run, g, e, t);
        }
      }
    } else {
      var run := MarkIsDropped(s, g, e, t);
      assert !MarkStands(s, run, g, e, t);
    }
  }
}
