/** A whole `parallel` statement with a schedule for every batch. */
module ScheduledStatement {
  import opened Wrappers
  import opened Ast
  import opened Values
  import opened Analysis
  import opened Evaluation
  import opened Typing
  import opened Worlds
  import opened Soundness
  import opened Budget
  import opened Schedule
  import opened Programs

  /** Prints the workers' lines in order; the first failure is the statement's. */
  function Replayed(cfg: Config, f: Frame, st: State, outcomes: seq<Outcome>): Out<Flow> {
    var (host, error) := Replay(cfg, f, st.host, outcomes, 0, None);
    Out(st.(host := host), if error.Some? then Err(error.value) else Ok(Normal))
  }

  /** Fork, let the workers take their steps as the schedule says, replay. */
  function ScheduledBatch(
    cfg: Config, f: Frame, st: State, snapshot: Snapshot, variable: string, values: seq<Value>, first: nat,
    body: Stmt, env: Environment, schedule: seq<nat>)
    : Out<Flow>
  {
    var forked := ForkFrom(cfg, f, st, |values|, []);
    match forked.res
    case Err(error) => Out(forked.st, Err(error))
    case Ok(hosts) =>
      var jobs := JobsOf(cfg, f, snapshot, variable, values, first, hosts, body, env);
      var m := Interleave(jobs, forked.st.steps, schedule);
      Replayed(cfg, f, forked.st.(steps := m.remaining), Reports(jobs, m))
  }

  function BatchTo(values: seq<Value>, start: nat, width: nat): (end: nat)
    requires width >= 1 && start < |values|
    ensures start < end <= |values|
  {
    if start + width <= |values| then start + width else |values|
  }

  function Head(schedules: seq<seq<nat>>): seq<nat> {
    if schedules == [] then [] else schedules[0]
  }

  function Tail(schedules: seq<seq<nat>>): seq<seq<nat>> {
    if schedules == [] then [] else schedules[1..]
  }

  /** Batch after batch, each with the next schedule. */
  function ScheduledBatches(
    cfg: Config, f: Frame, st: State, snapshot: Snapshot, variable: string, values: seq<Value>, start: nat, width: nat,
    body: Stmt, env: Environment, schedules: seq<seq<nat>>)
    : Out<Flow>
    requires width >= 1
    decreases |values| - start
  {
    if start >= |values| then Out(st, Ok(Normal))
    else
      var end := BatchTo(values, start, width);
      var b := ScheduledBatch(cfg, f, st, snapshot, variable, values[start..end], start, body, env, Head(schedules));
      if b.res.Err? then b
      else ScheduledBatches(cfg, f, b.st, snapshot, variable, values, end, width, body, env, Tail(schedules))
  }

  /** The batch is started with a schedule that lets all its workers finish or be refused. */
  ghost predicate Finishes(
    cfg: Config, f: Frame, st: State, snapshot: Snapshot, variable: string, values: seq<Value>, first: nat,
    body: Stmt, env: Environment, schedule: seq<nat>)
  {
    var forked := ForkFrom(cfg, f, st, |values|, []);
    forked.res.Ok? ==>
      var jobs := JobsOf(cfg, f, snapshot, variable, values, first, forked.res.value, body, env);
      Complete(jobs, Interleave(jobs, forked.st.steps, schedule))
  }

  ghost predicate Covered(
    cfg: Config, f: Frame, st: State, snapshot: Snapshot, variable: string, values: seq<Value>, first: nat, body: Stmt, env: Environment)
  {
    var forked := ForkFrom(cfg, f, st, |values|, []);
    forked.res.Ok? ==>
      BudgetCovers(JobsOf(cfg, f, snapshot, variable, values, first, forked.res.value, body, env), forked.st.steps)
  }

  /** Every batch that is reached finishes. */
  ghost predicate AllFinish(
    cfg: Config, f: Frame, st: State, snapshot: Snapshot, variable: string, values: seq<Value>, start: nat, width: nat,
    body: Stmt, env: Environment, schedules: seq<seq<nat>>)
    requires width >= 1
    decreases |values| - start
  {
    start < |values| ==>
      var end := BatchTo(values, start, width);
      var b := ScheduledBatch(cfg, f, st, snapshot, variable, values[start..end], start, body, env, Head(schedules));
      && Finishes(cfg, f, st, snapshot, variable, values[start..end], start, body, env, Head(schedules))
      && (b.res.Ok? ==> AllFinish(cfg, f, b.st, snapshot, variable, values, end, width, body, env, Tail(schedules)))
  }

  lemma BatchReplays(
    cfg: Config, f: Frame, st: State, snapshot: Snapshot, variable: string, values: seq<Value>, first: nat, body: Stmt, env: Environment)
    ensures var forked := ForkFrom(cfg, f, st, |values|, []);
            Batch(cfg, f, st, snapshot, variable, values, first, body, env) ==
              if forked.res.Err? then Out(forked.st, Err(forked.res.error))
              else
                var w := WorkersFrom(cfg, f, forked.st, snapshot, variable, values, first, forked.res.value, [], body, env);
                Replayed(cfg, f, w.st, w.outcomes)
  {
    hide ForkFrom, WorkersFrom, Replay;
  }

  /** A finished batch is the batch of the evaluator, or its budget ran out and it failed. */
  lemma FinishedBatch(
    cfg: Config, f: Frame, st: State, snapshot: Snapshot, variable: string, values: seq<Value>, first: nat,
    body: Stmt, env: Environment, schedule: seq<nat>)
    requires Finishes(cfg, f, st, snapshot, variable, values, first, body, env, schedule)
    ensures var o := ScheduledBatch(cfg, f, st, snapshot, variable, values, first, body, env, schedule);
            if Covered(cfg, f, st, snapshot, variable, values, first, body, env)
            then o == Batch(cfg, f, st, snapshot, variable, values, first, body, env)
            else o.res.Err? && o.st.steps == 0
  {
    hide ForkFrom, WorkersFrom, Replayed, Interleave, Complete, BudgetCovers, StarvedOutcome, Batch, Reports;
    BatchReplays(cfg, f, st, snapshot, variable, values, first, body, env);
    var forked := ForkFrom(cfg, f, st, |values|, []);
    if forked.res.Err? { return; }
    var hosts := forked.res.value;
    var jobs := JobsOf(cfg, f, snapshot, variable, values, first, hosts, body, env);
    InterleavingsRefineSequential(cfg, f, forked.st, snapshot, variable, values, first, hosts, body, env, schedule);
    var m := Interleave(jobs, forked.st.steps, schedule);
    if BudgetCovers(jobs, forked.st.steps) {
      assert WorkersFrom(cfg, f, forked.st, snapshot, variable, values, first, hosts, [], body, env).st == forked.st.(steps := m.remaining);
    } else {
      ReplayFails(cfg, f, forked.st.(steps := m.remaining), Reports(jobs, m));
    }
  }

  lemma ReplayFails(cfg: Config, f: Frame, st: State, outcomes: seq<Outcome>)
    requires exists i :: 0 <= i < |outcomes| && StarvedOutcome(outcomes[i])
    ensures var o := Replayed(cfg, f, st, outcomes); o.res.Err? && o.st.steps == st.steps
  {
    hide Replay;
    var i :| 0 <= i < |outcomes| && StarvedOutcome(outcomes[i]);
    ReplayKeepsError(cfg, f, st.host, outcomes, 0, None, i);
  }

  lemma {:induction false} ReplayKeepsError(
    cfg: Config, f: Frame, h: HostState, outcomes: seq<Outcome>, i: nat, first: Option<RuntimeError>, k: nat)
    requires first.Some? || (i <= k < |outcomes| && outcomes[k].error.Some?)
    ensures Replay(cfg, f, h, outcomes, i, first).1.Some?
    decreases |outcomes| - i
  {
    hide PrintFrom;
    if i < |outcomes| {
      var (next, failure) := PrintFrom(cfg, f, h, outcomes[i].lines, 0);
      ReplayKeepsError(cfg, f, next, outcomes, i + 1, first.Or(failure).Or(outcomes[i].error), k);
    }
  }

  /** Every batch that is reached has the steps it wants. */
  ghost predicate AllCovered(
    cfg: Config, f: Frame, st: State, snapshot: Snapshot, variable: string, values: seq<Value>, start: nat, width: nat,
    body: Stmt, env: Environment)
    requires width >= 1
    decreases |values| - start
  {
    start < |values| ==>
      var end := BatchTo(values, start, width);
      var b := Batch(cfg, f, st, snapshot, variable, values[start..end], start, body, env);
      && Covered(cfg, f, st, snapshot, variable, values[start..end], start, body, env)
      && (b.res.Ok? ==> AllCovered(cfg, f, b.st, snapshot, variable, values, end, width, body, env))
  }

  /**
   * The statement does not depend on the schedules: if every batch has the steps
   * it wants, all schedules that finish end as the evaluator does; otherwise all
   * of them fail with no step left.
   */
  lemma {:induction false} StatementIndependence(
    cfg: Config, f: Frame, st: State, snapshot: Snapshot, variable: string, values: seq<Value>, start: nat, width: nat,
    body: Stmt, env: Environment, schedules: seq<seq<nat>>)
    requires width >= 1 && AllFinish(cfg, f, st, snapshot, variable, values, start, width, body, env, schedules)
    ensures var o := ScheduledBatches(cfg, f, st, snapshot, variable, values, start, width, body, env, schedules);
            if AllCovered(cfg, f, st, snapshot, variable, values, start, width, body, env)
            then o == Batches(cfg, f, st, snapshot, variable, values, start, width, body, env)
            else o.res.Err? && o.st.steps == 0
    decreases |values| - start
  {
    hide ScheduledBatch, Batch, Covered, Finishes;
    if start >= |values| { return; }
    var end := BatchTo(values, start, width);
    FinishedBatch(cfg, f, st, snapshot, variable, values[start..end], start, body, env, Head(schedules));
    var b := ScheduledBatch(cfg, f, st, snapshot, variable, values[start..end], start, body, env, Head(schedules));
    if b.res.Ok? {
      StatementIndependence(cfg, f, b.st, snapshot, variable, values, end, width, body, env, Tail(schedules));
    }
  }

  // ----- soundness -----

  lemma ReportsAllowed(
    cfg: Config, base: nat, f: Frame, st: State, w: World, s: Stmt, values: seq<Value>, first: nat, hosts: seq<HostState>,
    body: Stmt, env: Environment, c: Context, budget: nat, schedule: seq<nat>)
    requires Point(cfg, base, f, st, w, env, c) && s.Parallel? && AllWellTyped(cfg, values) && |hosts| == |values|
    requires BodyErrors(IterationContext(c, s), body) == []
    ensures var jobs := JobsOf(cfg, f, Snap(st), s.variable, values, first, hosts, body, env);
            OutcomesAllowed(base, Reports(jobs, Interleave(jobs, budget, schedule)))
  {
    hide Point, BodyErrors, WellTyped, Allowed, IterationContext, Interleave;
    EveryInterleavingIsSound(cfg, base, f, st, w, s, values, first, hosts, body, env, c, budget, schedule);
  }

  lemma ScheduledBatchIsSound(
    cfg: Config, base: nat, f: Frame, st: State, start: State, w: World, s: Stmt, values: seq<Value>, first: nat,
    body: Stmt, env: Environment, c: Context, schedule: seq<nat>)
    requires Point(cfg, base, f, start, w, env, c) && s.Parallel? && AllWellTyped(cfg, values)
    requires BodyErrors(IterationContext(c, s), body) == []
    ensures var o := ScheduledBatch(cfg, f, st, Snap(start), s.variable, values, first, body, env, schedule);
            (o.res.Err? ==> Allowed(base, o.res.error)) && (o.res.Ok? ==> o.res.value == Normal)
  {
    hide Point, BodyErrors, WellTyped, ForkFrom, Replay, Allowed, OutcomesAllowed, IterationContext, Interleave;
    ForkHarmless(cfg, f, st, |values|, []);
    var forked := ForkFrom(cfg, f, st, |values|, []);
    if forked.res.Err? {
      HarmlessIsAllowed(base, forked.res.error);
      return;
    }
    var hosts, budget := forked.res.value, forked.st.steps;
    ReportsAllowed(cfg, base, f, start, w, s, values, first, hosts, body, env, c, budget, schedule);
    var jobs := JobsOf(cfg, f, Snap(start), s.variable, values, first, hosts, body, env);
    var outcomes := Reports(jobs, Interleave(jobs, budget, schedule));
    ReplayAllowed(cfg, base, f, forked.st.host, outcomes, 0, None);
  }

  lemma HarmlessIsAllowed(base: nat, error: RuntimeError)
    requires Harmless(error.message)
    ensures Allowed(base, error)
  {
  }

  /** Whatever the schedules, finished or not, an accepted statement ends normally or in an allowed error. */
  lemma {:induction false} EveryScheduleIsSound(
    cfg: Config, base: nat, f: Frame, st: State, start: State, w: World, s: Stmt, values: seq<Value>, from: nat, width: nat,
    body: Stmt, env: Environment, c: Context, schedules: seq<seq<nat>>)
    requires Point(cfg, base, f, start, w, env, c) && s.Parallel? && AllWellTyped(cfg, values) && width >= 1
    requires BodyErrors(IterationContext(c, s), body) == []
    ensures var o := ScheduledBatches(cfg, f, st, Snap(start), s.variable, values, from, width, body, env, schedules);
            (o.res.Err? ==> Allowed(base, o.res.error)) && (o.res.Ok? ==> o.res.value == Normal)
    decreases |values| - from
  {
    hide Point, BodyErrors, WellTyped, IterationContext, ScheduledBatch, Allowed;
    if from >= |values| { return; }
    var end := BatchTo(values, from, width);
    ScheduledBatchIsSound(cfg, base, f, st, start, w, s, values[from..end], from, body, env, c, Head(schedules));
    var b := ScheduledBatch(cfg, f, st, Snap(start), s.variable, values[from..end], from, body, env, Head(schedules));
    if b.res.Ok? {
      EveryScheduleIsSound(cfg, base, f, b.st, start, w, s, values, end, width, body, env, c, Tail(schedules));
    }
  }
}
