/** The cached debug flag (services/audit.py, _is_debug_audit_enabled, invalidate_debug_audit_cache).
    A lookup that misses reads the settings outside the lock, so lookups and changes interleave. */
module DebugFlag {
  import opened Common

  const TTL: int := 5

  datatype Lookup =
    | Missed(begun: int)                       // the settings have still to be read
    | Fetched(begun: int, value: bool, read: nat)   // read at that step, to be stored

  datatype State = State(
    flag: bool,          // what the settings say
    value: bool,         // the cache
    fetchedAt: int,      // 0 when invalidated
    read: nat,           // the step at which the cached value was read
    lookups: map<nat, Lookup>)

  const Initial := State(false, false, 0, 0, map[])

  datatype Event =
    | SetFlag(value: bool)
    | Invalidate
    | Begin(t: nat)
    | Fetch(t: nat)
    | Store(t: nat)

  /** An event and the clock at that moment. */
  datatype Step = Step(event: Event, at: int)

  predicate Hits(s: State, at: int) {
    at - s.fetchedAt < TTL
  }

  function Next(s: State, step: Step, index: nat): State {
    match step.event
    case SetFlag(v) => s.(flag := v)
    case Invalidate => s.(fetchedAt := 0)
    case Begin(t) => if Hits(s, step.at) then s else s.(lookups := s.lookups[t := Missed(step.at)])
    case Fetch(t) =>
      if t in s.lookups && s.lookups[t].Missed? then
        s.(lookups := s.lookups[t := Fetched(s.lookups[t].begun, s.flag, index)])
      else s
    case Store(t) =>
      if t in s.lookups && s.lookups[t].Fetched? then
        var l := s.lookups[t];
        s.(value := l.value, fetchedAt := l.begun, read := l.read, lookups := s.lookups - {t})
      else s
  }

  function After(run: seq<Step>, k: nat): State
    requires k <= |run|
  {
    if k == 0 then Initial else Next(After(run, k - 1), run[k - 1], k - 1)
  }

  /** What step k answers to the caller of a lookup, if it answers one. */
  function Answer(run: seq<Step>, k: nat): Option<bool>
    requires k < |run|
  {
    var s := After(run, k);
    match run[k].event
    case Begin(_) => if Hits(s, run[k].at) then Some(s.value) else None
    case Store(t) => if t in s.lookups && s.lookups[t].Fetched? then Some(s.lookups[t].value) else None
    case _ => None
  }

  /** The clock does not run backwards and is past its first seconds. */
  ghost predicate ClockRuns(run: seq<Step>) {
    && (forall i | 0 <= i < |run| :: run[i].at >= TTL)
    && (forall i, j | 0 <= i <= j < |run| :: run[i].at <= run[j].at)
  }

  /** Step j read the settings, and found that value there. */
  ghost predicate ReadAt(run: seq<Step>, j: nat, value: bool) {
    j < |run| && run[j].event.Fetch? && After(run, j).flag == value
  }

  ghost predicate LookupGrounded(run: seq<Step>, l: Lookup, k: nat)
    requires k <= |run|
  {
    && (l.Missed? ==> k > 0 && l.begun <= run[k - 1].at)
    && (l.Fetched? ==> l.read < k && ReadAt(run, l.read, l.value) && run[l.read].at >= l.begun)
  }

  /** The state before step k: what is cached or waiting was read, no earlier than its lookup began. */
  ghost predicate Grounded(run: seq<Step>, s: State, k: nat)
    requires k <= |run|
  {
    && (s.fetchedAt != 0 ==> s.read < k && ReadAt(run, s.read, s.value) && run[s.read].at >= s.fetchedAt)
    && (forall t | t in s.lookups :: LookupGrounded(run, s.lookups[t], k))
  }

  lemma LookupStaysGrounded(run: seq<Step>, l: Lookup, k: nat)
    requires k < |run| && LookupGrounded(run, l, k) && (k > 0 ==> run[k - 1].at <= run[k].at)
    ensures LookupGrounded(run, l, k + 1)
  {
  }

  lemma StepStaysGrounded(run: seq<Step>, s: State, k: nat)
    requires k < |run| && (k > 0 ==> run[k - 1].at <= run[k].at)
    requires s.flag == After(run, k).flag && Grounded(run, s, k)
    ensures Grounded(run, Next(s, run[k], k), k + 1)
  {
    var s' := Next(s, run[k], k);
    forall t | t in s'.lookups
      ensures LookupGrounded(run, s'.lookups[t], k + 1)
    {
      if t in s.lookups {
        LookupStaysGrounded(run, s.lookups[t], k);
      }
    }
    if run[k].event.Store? && run[k].event.t in s.lookups {
      assert LookupGrounded(run, s.lookups[run[k].event.t], k);
    }
  }

  lemma {:induction false} EverythingIsGrounded(run: seq<Step>, k: nat)
    requires k <= |run| && ClockRuns(run)
    ensures Grounded(run, After(run, k), k)
  {
    if k > 0 {
      EverythingIsGrounded(run, k - 1);
      StepStaysGrounded(run, After(run, k - 1), k - 1);
    }
  }

  /** Every answer is what the settings held at some moment less than five seconds before the lookup
      was answered from the cache, or after it began. No interleaving makes it staler. */
  lemma AnswersAreRecent(run: seq<Step>, k: nat) returns (j: nat)
    requires k < |run| && ClockRuns(run) && Answer(run, k).Some?
    ensures j < k && After(run, j).flag == Answer(run, k).value
    ensures run[k].event.Begin? ==> run[j].at > run[k].at - TTL
    ensures run[k].event.Store? ==> run[j].at >= After(run, k).lookups[run[k].event.t].begun
  {
    EverythingIsGrounded(run, k);
    var s := After(run, k);
    if run[k].event.Store? {
      assert LookupGrounded(run, s.lookups[run[k].event.t], k);
    }
    j := if run[k].event.Begin? then s.read else s.lookups[run[k].event.t].read;
  }

  // ---- When a change takes effect ----

  lemma {:induction false} AfterExtends(prefix: seq<Step>, run: seq<Step>, k: nat)
    requires prefix <= run && k <= |prefix|
    ensures After(run, k) == After(prefix, k)
  {
    if k > 0 {
      AfterExtends(prefix, run, k - 1);
    }
  }

  /** The settings held that value at some moment after step i, up to step k. */
  ghost predicate HeldSince(run: seq<Step>, i: nat, k: nat, value: bool)
    requires k <= |run|
  {
    exists j :: i < j <= k && After(run, j).flag == value
  }

  /** Whatever is cached, or waiting to be, was held since step i. */
  ghost predicate Current(run: seq<Step>, s: State, i: nat, k: nat)
    requires k <= |run|
  {
    && (s.fetchedAt != 0 ==> HeldSince(run, i, k, s.value))
    && (forall t | t in s.lookups && s.lookups[t].Fetched? :: HeldSince(run, i, k, s.lookups[t].value))
  }

  lemma CurrentStays(run: seq<Step>, s: State, i: nat, k: nat)
    requires k < |run| && Current(run, s, i, k)
    ensures Current(run, s, i, k + 1)
  {
  }

  lemma StepStaysCurrent(run: seq<Step>, s: State, step: Step, index: nat, i: nat, k: nat)
    requires k <= |run| && Current(run, s, i, k) && HeldSince(run, i, k, s.flag)
    ensures Current(run, Next(s, step, index), i, k)
  {
  }

  /** No fetched value waits that differs from the settings. */
  predicate NoneStale(s: State) {
    forall t | t in s.lookups && s.lookups[t].Fetched? :: s.lookups[t].value == s.flag
  }

  lemma {:induction false} StaysCurrent(run: seq<Step>, i: nat, k: nat)
    requires i < k <= |run| && run[i].event.Invalidate? && NoneStale(After(run, i))
    ensures Current(run, After(run, k), i, k)
    decreases k
  {
    if k == i + 1 {
      assert After(run, k) == After(run, i).(fetchedAt := 0);
      assert HeldSince(run, i, k, After(run, k).flag);
    } else {
      StaysCurrent(run, i, k - 1);
      CurrentStays(run, After(run, k - 1), i, k - 1);
      assert HeldSince(run, i, k, After(run, k - 1).flag);
      StepStaysCurrent(run, After(run, k - 1), run[k - 1], k - 1, i, k);
    }
  }

  /** If step k of the run answers, it answers with a value that the settings held since step i. */
  ghost predicate AnswersCurrent(run: seq<Step>, i: nat, k: nat)
    requires k < |run|
  {
    Answer(run, k).Some? ==> HeldSince(run, i, k, Answer(run, k).value)
  }

  /** However the run goes on, every later answer is a value that the settings held since its step i. */
  ghost predicate Effective(run: seq<Step>, i: nat) {
    forall longer: seq<Step>, k: nat | run <= longer && ClockRuns(longer) && |run| <= k < |longer| ::
      AnswersCurrent(longer, i, k)
  }

  /** The lookup that waits puts its old value back: it answers with it, and caches it. */
  lemma LateStoreUndoesInvalidation(run: seq<Step>, t: nat)
    requires run != [] && ClockRuns(run) && run[|run| - 1].event.Invalidate?
    requires var s := After(run, |run| - 1); t in s.lookups && s.lookups[t].Fetched? && s.lookups[t].value != s.flag
    ensures var longer := run + [Step(Store(t), run[|run| - 1].at)];
      ClockRuns(longer) && run <= longer && !AnswersCurrent(longer, |run| - 1, |run|)
      && After(longer, |run| + 1).value != After(longer, |run| + 1).flag
  {
    var i := |run| - 1;
    var longer := run + [Step(Store(t), run[i].at)];
    AfterExtends(run, longer, |run|);
    assert After(run, |run|) == After(run, i).(fetchedAt := 0);
    assert After(longer, |run|).flag == After(run, i).flag;
    assert Answer(longer, |run|) == Some(After(run, i).lookups[t].value);
  }

  /** An invalidation takes effect, in every continuation, if and only if every fetched value that is
      waiting to be stored is what the settings hold at that moment. */
  lemma InvalidationTakesEffectIff(run: seq<Step>)
    requires run != [] && ClockRuns(run) && run[|run| - 1].event.Invalidate?
    ensures Effective(run, |run| - 1) <==> NoneStale(After(run, |run| - 1))
  {
    var i := |run| - 1;
    if NoneStale(After(run, i)) {
      forall longer: seq<Step>, k: nat | run <= longer && ClockRuns(longer) && |run| <= k < |longer|
        ensures AnswersCurrent(longer, i, k)
      {
        AfterExtends(run, longer, i);
        StaysCurrent(longer, i, k);
      }
    } else {
      var t :| t in After(run, i).lookups && After(run, i).lookups[t].Fetched? &&
               After(run, i).lookups[t].value != After(run, i).flag;
      LateStoreUndoesInvalidation(run, t);
    }
  }

  // ---- When answers are read anew ----

  /** Whatever is cached, or about to be, was read after step i. */
  ghost predicate OnlyNewer(s: State, i: nat) {
    (s.fetchedAt == 0 || s.read > i) && forall t | t in s.lookups && s.lookups[t].Fetched? :: s.lookups[t].read > i
  }

  predicate NoneFetched(s: State) {
    forall t | t in s.lookups :: s.lookups[t].Missed?
  }

  lemma NewerStep(s: State, step: Step, index: nat, i: nat)
    requires OnlyNewer(s, i) && index > i
    ensures OnlyNewer(Next(s, step, index), i)
  {
  }

  lemma {:induction false} StaysNewer(run: seq<Step>, i: nat, k: nat)
    requires i < k <= |run| && run[i].event.Invalidate? && NoneFetched(After(run, i))
    ensures OnlyNewer(After(run, k), i)
    decreases k
  {
    var s := After(run, k - 1);
    if k > i + 1 {
      StaysNewer(run, i, k - 1);
      NewerStep(s, run[k - 1], k - 1, i);
    } else {
      assert After(run, k) == s.(fetchedAt := 0);
    }
  }

  /** The step at which the answer of step k was read from the settings. */
  function ReadOf(run: seq<Step>, k: nat): nat
    requires k < |run| && Answer(run, k).Some?
  {
    var s := After(run, k);
    if run[k].event.Store? then s.lookups[run[k].event.t].read else s.read
  }

  ghost predicate AnswersAnew(run: seq<Step>, i: nat, k: nat)
    requires k < |run|
  {
    Answer(run, k).Some? ==> ReadOf(run, k) > i
  }

  ghost predicate ReadsAnew(run: seq<Step>, i: nat) {
    forall longer: seq<Step>, k: nat | run <= longer && ClockRuns(longer) && |run| <= k < |longer| ::
      AnswersAnew(longer, i, k)
  }

  /** After an invalidation every answer is read anew, in every continuation, if and only if no fetched
      value at all is waiting to be stored. */
  lemma InvalidationForcesReadsIff(run: seq<Step>)
    requires run != [] && ClockRuns(run) && run[|run| - 1].event.Invalidate?
    ensures ReadsAnew(run, |run| - 1) <==> NoneFetched(After(run, |run| - 1))
  {
    var i := |run| - 1;
    if NoneFetched(After(run, i)) {
      forall longer: seq<Step>, k: nat | run <= longer && ClockRuns(longer) && |run| <= k < |longer|
        ensures AnswersAnew(longer, i, k)
      {
        AfterExtends(run, longer, i);
        StaysNewer(longer, i, k);
      }
    } else {
      var t :| t in After(run, i).lookups && After(run, i).lookups[t].Fetched?;
      var longer := run + [Step(Store(t), run[i].at)];
      EverythingIsGrounded(run, i);
      assert LookupGrounded(run, After(run, i).lookups[t], i);
      AfterExtends(run, longer, |run|);
      assert After(run, |run|) == After(run, i).(fetchedAt := 0);
      assert ClockRuns(longer) && Answer(longer, |run|).Some? && ReadOf(longer, |run|) < i;
      assert !AnswersAnew(longer, i, |run|);
    }
  }

  /** Such a lookup does occur: caught between its read and its store while the flag is changed and the
      cache invalidated, it makes the next lookup answer with the old value. */
  lemma LateStoreHappens(at: int)
    requires at >= TTL
    ensures var run := [Step(Begin(0), at), Step(Fetch(0), at), Step(SetFlag(true), at), Step(Invalidate, at),
                        Step(Store(0), at), Step(Begin(1), at)];
      && ClockRuns(run)
      && Answer(run, 5) == Some(false)
      && forall j | 3 < j <= 5 :: After(run, j).flag
  {
    var run := [Step(Begin(0), at), Step(Fetch(0), at), Step(SetFlag(true), at), Step(Invalidate, at),
                Step(Store(0), at), Step(Begin(1), at)];
    assert After(run, 1) == Initial.(lookups := map[0 := Missed(at)]);
    assert After(run, 2) == Initial.(lookups := map[0 := Fetched(at, false, 1)]);
    assert After(run, 3) == After(run, 2).(flag := true);
    assert After(run, 4) == After(run, 3);
    assert After(run, 5) == State(true, false, at, 1, map[]);
  }

  // ---- The cache itself ----

  class DebugFlagCache {
    var settings: bool
    var value: bool
    var fetchedAt: int
    ghost var read: nat
    ghost var lookups: map<nat, Lookup>

    ghost function View(): State
      reads this
    {
      State(settings, value, fetchedAt, read, lookups)
    }

    /** What a lookup at that time answers if nobody comes in between. */
    function AnswerAt(now: int): bool
      reads this
    {
      if now - fetchedAt < TTL then value else settings
    }

    constructor ()
      ensures View() == Initial
    {
      settings, value, fetchedAt, read, lookups := false, false, 0, 0, map[];
    }

    /** A lookup by thread t that nobody disturbs, as up to three steps of the run from number k on. It
        and every further lookup of the next five seconds answer the same. */
    method IsDebugAuditEnabled(now: int, ghost t: nat, ghost k: nat) returns (val: bool)
      requires t !in lookups
      modifies this
      ensures val == old(AnswerAt(now))
      ensures now - old(fetchedAt) >= 5 ==> val == value == settings && fetchedAt == now
      ensures now - old(fetchedAt) < 5 ==> val == value == old(value) && fetchedAt == old(fetchedAt)
      ensures forall later | now <= later && later - fetchedAt < TTL :: AnswerAt(later) == val
      ensures settings == old(settings) && now - fetchedAt < TTL
      ensures View() ==
        if now - old(fetchedAt) < TTL then Next(old(View()), Step(Begin(t), now), k)
        else Next(Next(Next(old(View()), Step(Begin(t), now), k), Step(Fetch(t), now), k + 1), Step(Store(t), now), k + 2)
    {
      if now - fetchedAt < TTL {
        return value;
      }
      val := settings;
      assert lookups[t := Missed(now)][t := Fetched(now, settings, k + 1)] - {t} == lookups;
      value, fetchedAt, read := val, now, k + 1;
    }

    /** From then on every undisturbed lookup answers what the settings hold. */
    method InvalidateDebugAuditCache(now: int, ghost k: nat)
      modifies `fetchedAt
      ensures forall later | later >= TTL :: AnswerAt(later) == settings
      ensures View() == Next(old(View()), Step(Invalidate, now), k)
    {
      fetchedAt := 0;
    }
  }
}
