/** A cancelled sequence stops: the flag that the zone loop polls is the one that the threads share
    (irrigation_scheduler.py, cancel_group_jobs and _run_group_sequence). */
module BoundedCancel {
  import opened GroupSessions
  import opened SessionMarks
  import opened MarkSafety
  import opened CancelFlags
  import Runner = SequenceRunner

  /** Event e's flag is set after the first m actions. */
  ghost predicate FlagUp(s: State, run: seq<Action>, m: nat, e: EventId)
    requires m <= |run|
  {
    CanRun(s, run[..m]) && e in After(s, run[..m]).cancelled
  }

  /** The zone loop's n-th look at its flag happens after the first look(n) actions, and sees the flag as
      it is then. */
  ghost predicate LooksAt(sig: Runner.Signals, s: State, run: seq<Action>, e: EventId, look: nat -> nat) {
    && (forall n :: look(n) <= |run|)
    && (forall m, n | m <= n :: look(m) <= look(n))
    && (forall n :: sig.cancel(n) <==> FlagUp(s, run, look(n), e))
  }

  lemma {:induction false} RunSplits(s: State, run: seq<Action>, i: nat)
    requires CanRun(s, run) && i <= |run|
    ensures CanRun(s, run[..i]) && CanRun(After(s, run[..i]), run[i..])
    ensures After(After(s, run[..i]), run[i..]) == After(s, run)
    decreases i
  {
    if i == 0 {
      assert run[..0] == [] && run[0..] == run;
    } else {
      RunSplits(Next(s, run[0]), run[1..], i - 1);
      assert run[1..][..i - 1] == run[..i][1..] && run[1..][i - 1..] == run[i..];
    }
  }

  /** The flag is up after every longer part of the run. */
  lemma FlagStaysUp(s: State, run: seq<Action>, i: nat, m: nat, g: int, e: EventId, t: Thread)
    requires CanRun(s, run) && i <= m <= |run| && CanRun(s, run[..i])
    requires Cancelled(After(s, run[..i]), g, e, t) && NoNewStart(run[i..], g, t)
    requires !EntryIs(After(s, run[..i]), g, e) || Alone(After(s, run[..i]), g, e, t)
    ensures FlagUp(s, run, m, e)
  {
    RunSplits(s, run, m);
    RunSplits(s, run[..m], i);
    assert run[..m][..i] == run[..i];
    var part := run[..m][i..];
    assert forall a | a in part :: a in run[i..];
    FlagIsSafeIff(After(s, run[..i]), g, e, t);
    assert FlagStands(After(s, run[..i]), part, g, e, t);
  }

  /** Whatever the other threads do: from the first look after the flag went up, in a state in which it is
      safe, no zone passes its check, no zone gets another tick, and a zone that had just passed its check
      gets no tick at all and is the last. Only a new start of the group is left out. */
  lemma CancelledSequenceStops(p: Runner.Plan, sig: Runner.Signals, clock: nat, s: State, run: seq<Action>,
                               look: nat -> nat, i: nat, first: nat, g: int, e: EventId, t: Thread)
    requires CanRun(s, run) && i <= |run| && CanRun(s, run[..i]) && LooksAt(sig, s, run, e, look)
    requires Cancelled(After(s, run[..i]), g, e, t) && NoNewStart(run[i..], g, t)
    requires !EntryIs(After(s, run[..i]), g, e) || Alone(After(s, run[..i]), g, e, t)
    requires i <= look(first)
    ensures Runner.StopsAt(Runner.RunFrom(p, sig, 0, 0, clock).log, first)
  {
    forall n: nat | n >= first
      ensures sig.cancel(n)
    {
      assert look(first) <= look(n);
      FlagStaysUp(s, run, i, look(n), g, e, t);
    }
    Runner.CancelIsBounded(p, sig, 0, 0, clock, first);
  }
}
