/** Starting over after a crash, whatever the single steps do (db/migrations.py, init_database).

    An initialisation runs a fixed list of steps over what is on disk. `step` is a complete step, `cut`
    what a step leaves on disk when the process stops after k of its statements, and `done` the test by
    which a later start passes a step over. */
module Restarts {
  /** Taking the first i steps one after another, each from what the last one left. */
  function Iterate<M, D>(step: (M, D) -> D, items: seq<M>, i: nat, start: D): D
    requires i <= |items|
  {
    if i == 0 then start else step(items[i - 1], Iterate(step, items, i - 1, start))
  }

  lemma IterateStep<M, D>(step: (M, D) -> D, items: seq<M>, i: nat, start: D)
    requires i < |items|
    ensures Iterate(step, items, i + 1, start) == step(items[i], Iterate(step, items, i, start))
  {
  }

  function All<M, D>(step: (M, D) -> D, items: seq<M>, start: D): D {
    Iterate(step, items, |items|, start)
  }

  /** A start that stops in step i, after k of its statements. */
  function CutOff<M, D>(step: (M, D) -> D, cut: (M, nat, D) -> D, items: seq<M>, i: nat, k: nat, start: D): D
    requires i < |items|
  {
    cut(items[i], k, Iterate(step, items, i, start))
  }

  /** Where one start stops. */
  datatype Stop = Stop(step: nat, statements: nat)

  /** One start after another, each of them cut off; one that is said to stop past the last step runs to the end. */
  function AfterStops<M, D>(step: (M, D) -> D, cut: (M, nat, D) -> D, items: seq<M>, stops: seq<Stop>, start: D): D
    decreases stops
  {
    if stops == [] then start
    else
      var s := stops[0];
      var disk := if s.step < |items| then CutOff(step, cut, items, s.step, s.statements, start) else All(step, items, start);
      AfterStops(step, cut, items, stops[1..], disk)
  }

  /** What a list of steps needs in order to be restartable. */
  ghost predicate Restartable<M, D(!new)>(step: (M, D) -> D, cut: (M, nat, D) -> D, done: (M, D) -> bool, items: seq<M>) {
    && (forall i, d | 0 <= i < |items| && done(items[i], d) :: step(items[i], d) == d)
    && (forall i, d | 0 <= i < |items| :: done(items[i], step(items[i], d)))
    && (forall i, k: nat, d | 0 <= i < |items| :: step(items[i], cut(items[i], k, d)) == step(items[i], d))
    && (forall i, j, d | 0 <= i < |items| && 0 <= j < |items| && done(items[j], d) :: done(items[j], step(items[i], d)))
    && (forall i, j, k: nat, d | 0 <= i < |items| && 0 <= j < |items| && done(items[j], d) :: done(items[j], cut(items[i], k, d)))
  }

  lemma {:induction false} EarlierAreDone<M, D(!new)>(step: (M, D) -> D, cut: (M, nat, D) -> D, done: (M, D) -> bool,
                                                items: seq<M>, i: nat, start: D)
    requires i <= |items| && Restartable(step, cut, done, items)
    ensures forall j | 0 <= j < i :: done(items[j], Iterate(step, items, i, start))
  {
    if i > 0 {
      EarlierAreDone(step, cut, done, items, i - 1, start);
    }
  }

  lemma {:induction false} DoneAreSkipped<M, D>(step: (M, D) -> D, items: seq<M>, i: nat, start: D)
    requires i <= |items| && forall n | 0 <= n < i :: step(items[n], start) == start
    ensures Iterate(step, items, i, start) == start
  {
    if i > 0 {
      DoneAreSkipped(step, items, i - 1, start);
    }
  }

  lemma {:induction false} EqualFromThereOn<M, D>(step: (M, D) -> D, items: seq<M>, i: nat, j: nat, a: D, b: D)
    requires i <= j <= |items| && Iterate(step, items, i, a) == Iterate(step, items, i, b)
    ensures Iterate(step, items, j, a) == Iterate(step, items, j, b)
    decreases j - i
  {
    if i < j {
      EqualFromThereOn(step, items, i, j - 1, a, b);
    }
  }

  /** A start that is cut off anywhere, followed by a complete one, ends as one complete start would. */
  lemma RestartConverges<M, D(!new)>(step: (M, D) -> D, cut: (M, nat, D) -> D, done: (M, D) -> bool,
                               items: seq<M>, i: nat, k: nat, start: D)
    requires i < |items| && Restartable(step, cut, done, items)
    ensures All(step, items, CutOff(step, cut, items, i, k, start)) == All(step, items, start)
  {
    var disk := CutOff(step, cut, items, i, k, start);
    EarlierAreDone(step, cut, done, items, i, start);
    assert forall n | 0 <= n < i :: done(items[n], disk);
    DoneAreSkipped(step, items, i, disk);
    EqualFromThereOn(step, items, i + 1, |items|, disk, start);
  }

  lemma CompleteIsSettled<M, D(!new)>(step: (M, D) -> D, cut: (M, nat, D) -> D, done: (M, D) -> bool, items: seq<M>, start: D)
    requires Restartable(step, cut, done, items)
    ensures All(step, items, All(step, items, start)) == All(step, items, start)
  {
    EarlierAreDone(step, cut, done, items, |items|, start);
    DoneAreSkipped(step, items, |items|, All(step, items, start));
  }

  /** Any number of starts may be cut off, each anywhere: the next complete one ends as the first would have. */
  lemma {:induction false} StopsConverge<M, D(!new)>(step: (M, D) -> D, cut: (M, nat, D) -> D, done: (M, D) -> bool,
                                               items: seq<M>, stops: seq<Stop>, start: D)
    requires Restartable(step, cut, done, items)
    ensures All(step, items, AfterStops(step, cut, items, stops, start)) == All(step, items, start)
    decreases stops
  {
    if stops != [] {
      var s := stops[0];
      if s.step < |items| {
        RestartConverges(step, cut, done, items, s.step, s.statements, start);
        StopsConverge(step, cut, done, items, stops[1..], CutOff(step, cut, items, s.step, s.statements, start));
      } else {
        CompleteIsSettled(step, cut, done, items, start);
        StopsConverge(step, cut, done, items, stops[1..], All(step, items, start));
      }
    }
  }
}
