/** The job and result channels of main.go:182-201 while the producer loop
    runs. `jobs` is buffered with capacity `cores`, the worker count; `results`
    is unbuffered; main receives from `results` only after the producer loop
    and `close(jobs)`. A worker that has finished a job therefore blocks on
    its send, still holding the job, until main starts reading.

    A state counts jobs: how many the producer loop has sent, how many wait
    in the job channel, how many workers hold one, and how many results main
    has received. Each action is one channel operation. */
module Channels {
  import opened Wrappers

  datatype Action =
    | Send     // the producer loop's `jobs <- job{...}`
    | Take     // an idle worker's `for j := range js` receives a job
    | Deliver  // a holding worker's `rs <- result{...}` meets a receive in main

  datatype Phase = Phase(sent: nat, buffered: nat, held: nat, delivered: nat)

  const Start: Phase := Phase(0, 0, 0, 0)

  /** Whether the action can happen with `w` workers, a job channel of
      capacity `w` and `total` jobs to send; `reading` says whether main
      receives results while the producer loop is still sending. */
  predicate Enabled(w: nat, total: nat, reading: bool, s: Phase, a: Action) {
    match a
    case Send => s.sent < total && s.buffered < w
    case Take => s.buffered > 0 && s.held < w
    case Deliver => reading && s.held > 0
  }

  function Apply(s: Phase, a: Action): Phase
    requires a.Take? ==> s.buffered > 0
    requires a.Deliver? ==> s.held > 0
  {
    match a
    case Send => s.(sent := s.sent + 1, buffered := s.buffered + 1)
    case Take => s.(buffered := s.buffered - 1, held := s.held + 1)
    case Deliver => s.(held := s.held - 1, delivered := s.delivered + 1)
  }

  /** The state after a schedule of actions from the start, `None` if the
      schedule tries an action that cannot happen. */
  function Execute(w: nat, total: nat, reading: bool, schedule: seq<Action>): Option<Phase> {
    if schedule == [] then Some(Start)
    else
      var before := Execute(w, total, reading, schedule[..|schedule| - 1]);
      var a := schedule[|schedule| - 1];
      if before.Some? && Enabled(w, total, reading, before.value, a) then Some(Apply(before.value, a))
      else None
  }

  /** No action can happen: every goroutine involved is blocked. */
  predicate Stuck(w: nat, total: nat, reading: bool, s: Phase) {
    !Enabled(w, total, reading, s, Send) && !Enabled(w, total, reading, s, Take) &&
    !Enabled(w, total, reading, s, Deliver)
  }

  /** What every reachable state satisfies: each sent job is buffered, held or
      delivered; the channel and the workers never exceed their capacity; and
      without a reading main nothing is delivered. */
  predicate Consistent(w: nat, total: nat, reading: bool, s: Phase) {
    s.sent == s.buffered + s.held + s.delivered && s.sent <= total &&
    s.buffered <= w && s.held <= w && (!reading ==> s.delivered == 0)
  }

  lemma {:induction false} ExecuteConsistent(w: nat, total: nat, reading: bool, schedule: seq<Action>)
    requires Execute(w, total, reading, schedule).Some?
    ensures Consistent(w, total, reading, Execute(w, total, reading, schedule).value)
    decreases |schedule|
  {
    if schedule != [] {
      ExecuteConsistent(w, total, reading, schedule[..|schedule| - 1]);
    }
  }

  /** As written, the producer loop can hand out at most twice as many jobs
      as there are workers: `w` held by blocked workers and `w` in the buffer. */
  lemma ProducerSendsAtMostTwiceWorkers(w: nat, total: nat, schedule: seq<Action>)
    requires Execute(w, total, false, schedule).Some?
    ensures Execute(w, total, false, schedule).value.sent <= 2 * w
  {
    ExecuteConsistent(w, total, false, schedule);
  }

  /** As written, when all jobs fit (`total <= 2 * w`) the producer is never
      blocked for good before it has sent them all. */
  lemma ProducerNeverStuckWhenJobsFit(w: nat, total: nat, schedule: seq<Action>)
    requires total <= 2 * w
    requires Execute(w, total, false, schedule).Some?
    requires Execute(w, total, false, schedule).value.sent < total
    ensures !Stuck(w, total, false, Execute(w, total, false, schedule).value)
  {
    ExecuteConsistent(w, total, false, schedule);
  }

  /** In every state where the producer is blocked for good, each worker
      holds one job and the buffer is full: the channel hands jobs out in
      sending order, so the workers hold the first `w` jobs and have run
      `getPairs` on them. */
  lemma StuckWorkersHoldOneEach(w: nat, total: nat, schedule: seq<Action>)
    requires Execute(w, total, false, schedule).Some?
    requires var s := Execute(w, total, false, schedule).value;
      s.sent < total && Stuck(w, total, false, s)
    ensures var s := Execute(w, total, false, schedule).value;
      s.held == w && s.buffered == w && s.sent == 2 * w
  {
    ExecuteConsistent(w, total, false, schedule);
  }

  /** Whether the producer loop of main.go:193-199 runs to its end. */
  predicate ProducerFinishes(w: nat, total: nat) {
    total <= 2 * w
  }

  /** `ProducerFinishes` is exact: with more jobs than twice the workers no
      schedule ever sends them all; otherwise no schedule gets stuck first. */
  lemma ProducerFinishesIff(w: nat, total: nat, schedule: seq<Action>)
    requires Execute(w, total, false, schedule).Some?
    ensures !ProducerFinishes(w, total) ==> Execute(w, total, false, schedule).value.sent < total
    ensures ProducerFinishes(w, total) && Execute(w, total, false, schedule).value.sent < total ==>
      !Stuck(w, total, false, Execute(w, total, false, schedule).value)
  {
    ProducerSendsAtMostTwiceWorkers(w, total, schedule);
    if ProducerFinishes(w, total) && Execute(w, total, false, schedule).value.sent < total {
      ProducerNeverStuckWhenJobsFit(w, total, schedule);
    }
  }

  /** The schedule that fills everything: each worker takes one job, then the
      buffer fills. */
  function FillSchedule(w: nat, k: nat): seq<Action>
    requires k <= 2 * w
    decreases k
  {
    if k == 0 then []
    else if k <= w then FillSchedule(w, k - 1) + [Send, Take]
    else FillSchedule(w, k - 1) + [Send]
  }

  /** Running one more action after a schedule. */
  lemma ExecuteSnoc(w: nat, total: nat, reading: bool, schedule: seq<Action>, a: Action)
    ensures var before := Execute(w, total, reading, schedule);
      Execute(w, total, reading, schedule + [a]) ==
        if before.Some? && Enabled(w, total, reading, before.value, a) then Some(Apply(before.value, a)) else None
  {
    assert (schedule + [a])[..|schedule|] == schedule;
  }

  /** Along the filling schedule the first `w` jobs go to the workers and the
      rest wait in the buffer. */
  lemma FillScheduleState(w: nat, total: nat, k: nat)
    requires k <= 2 * w && k <= total
    ensures Execute(w, total, false, FillSchedule(w, k)) ==
      Some(if k <= w then Phase(k, 0, k, 0) else Phase(k, k - w, w, 0))
  {
    if k <= w {
      FillWorkers(w, total, k);
    } else {
      FillBuffer(w, total, k);
    }
  }

  /** The first `w` jobs: each is sent and at once taken by an idle worker. */
  lemma {:induction false} FillWorkers(w: nat, total: nat, k: nat)
    requires k <= w && k <= total
    ensures Execute(w, total, false, FillSchedule(w, k)) == Some(Phase(k, 0, k, 0))
    decreases k
  {
    if k > 0 {
      FillWorkers(w, total, k - 1);
      var before := FillSchedule(w, k - 1);
      var mid := before + [Send];
      ExecuteSnoc(w, total, false, before, Send);
      assert Execute(w, total, false, mid) == Some(Phase(k, 1, k - 1, 0));
      ExecuteSnoc(w, total, false, mid, Take);
      assert FillSchedule(w, k) == mid + [Take];
    }
  }

  /** The next `w` jobs: every worker holds one, so each waits in the buffer. */
  lemma {:induction false} FillBuffer(w: nat, total: nat, k: nat)
    requires w < k <= 2 * w && k <= total
    ensures Execute(w, total, false, FillSchedule(w, k)) == Some(Phase(k, k - w, w, 0))
    decreases k
  {
    var before := FillSchedule(w, k - 1);
    if k - 1 == w {
      FillWorkers(w, total, k - 1);
    } else {
      FillBuffer(w, total, k - 1);
    }
    assert Execute(w, total, false, before) == Some(Phase(k - 1, k - 1 - w, w, 0));
    ExecuteSnoc(w, total, false, before, Send);
    assert FillSchedule(w, k) == before + [Send];
  }

  /** The bound is reached: with `total > 2 * w` some schedule ends with every
      goroutine blocked after exactly `2 * w` jobs, so the run hangs. */
  lemma ProducerDeadlocks(w: nat, total: nat)
    requires total > 2 * w
    ensures Execute(w, total, false, FillSchedule(w, 2 * w)).Some?
    ensures var s := Execute(w, total, false, FillSchedule(w, 2 * w)).value;
      s.sent == 2 * w < total && Stuck(w, total, false, s)
  {
    FillScheduleState(w, total, 2 * w);
  }

  /** With main receiving results while it produces (the producer loop in a
      goroutine of its own), one worker suffices: no state is ever stuck
      before every job is sent. */
  lemma ReadingWhileProducingNeverStuck(w: nat, total: nat, schedule: seq<Action>)
    requires w >= 1
    requires Execute(w, total, true, schedule).Some?
    requires Execute(w, total, true, schedule).value.sent < total
    ensures !Stuck(w, total, true, Execute(w, total, true, schedule).value)
  {
    ExecuteConsistent(w, total, true, schedule);
  }
}
