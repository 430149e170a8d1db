/** Every interleaving of a batch of workers. */
module Schedule {
  import opened Ast
  import opened Values
  import opened Evaluation
  import opened Budget

  datatype Job = Job(
    cfg: Config,
    frame: Frame,
    snapshot: Snapshot,
    host: HostState,
    value: Value,
    variable: string,
    body: Stmt,
    env: Environment,
    index: nat)

  /** The job by itself with a private budget. */
  function Alone(job: Job, steps: nat): (o: Out<Flow>)
    ensures o.st.steps <= steps
  {
    Worker(job.cfg, job.frame, job.snapshot, steps, job.host, job.value, job.variable, job.body, job.env)
  }

  function Report(job: Job, granted: nat): Outcome {
    WorkerOutcome(job.frame, Alone(job, granted), job.index)
  }

  /** After `granted` steps the job asks for one more. */
  predicate Wants(job: Job, granted: nat) {
    Alone(job, granted + 1).st.steps == 0
  }

  /** The number of steps a job takes when nobody stops it. */
  ghost predicate Demand(job: Job, need: nat) {
    !Wants(job, need) && forall n: nat | n < need :: Wants(job, n)
  }

  // ----- a job against its budget -----

  /** With a step to spare the job has seen all it wants of its budget. */
  lemma SpareStepsChangeNothing(job: Job, n: nat, k: nat)
    requires Alone(job, n).st.steps > 0
    ensures Alone(job, n + k).res == Alone(job, n).res
    ensures Alone(job, n + k).st == More(Alone(job, n).st, k)
  {
    hide Worker, Starving;
    WorkerSpends(job.cfg, job.frame, job.snapshot, n, job.host, job.value, job.variable, job.body, job.env, k);
  }

  /** The step limit, or the output limit if the job has forked workers of its own. */
  predicate ReportsStarvation(job: Job, n: nat) {
    && StarvedOutcome(Report(job, n))
    && (!HasForked(Alone(job, n).st.host.history) ==> Bare(Report(job, n).error.value.message) == StepLimit)
  }

  /** A job refused its next step reports a starved run. */
  lemma RefusedJobStarves(job: Job, n: nat)
    requires Wants(job, n)
    ensures ReportsStarvation(job, n)
  {
    hide Worker, Starving, WorkerOutcome, StarvedOutcome;
    WorkerSpends(job.cfg, job.frame, job.snapshot, n, job.host, job.value, job.variable, job.body, job.env, 1);
    OutcomeOfStarved(job.frame, Alone(job, n), job.index);
  }

  /** A finished job reports the same from any larger budget. */
  lemma FinishedJobIsAlone(job: Job, n: nat, budget: nat)
    requires !Wants(job, n) && n <= budget
    ensures Report(job, budget) == Report(job, n)
    ensures Alone(job, budget).st.steps == Alone(job, n).st.steps + (budget - n)
  {
    hide Worker, Starving, WorkerOutcome;
    WorkerSpends(job.cfg, job.frame, job.snapshot, n, job.host, job.value, job.variable, job.body, job.env, 1);
    SameReport(job.frame, Alone(job, n + 1), Alone(job, n), job.index);
    if n < budget {
      SpareStepsChangeNothing(job, n + 1, budget - n - 1);
      SameReport(job.frame, Alone(job, budget), Alone(job, n + 1), job.index);
    }
  }

  /** The steps a job takes out of a budget are its demand, or everything. */
  lemma UsedSteps(job: Job, budget: nat, n: nat)
    ensures n < budget - Alone(job, budget).st.steps ==> Wants(job, n)
    ensures n == budget - Alone(job, budget).st.steps && Alone(job, budget).st.steps > 0 ==> !Wants(job, n)
  {
    hide Worker, Starving;
    if n < budget && !Wants(job, n) {
      SpareStepsChangeNothing(job, n + 1, budget - n - 1);
    }
    if Alone(job, budget).st.steps > 0 && n == budget - Alone(job, budget).st.steps {
      var spare: nat := budget - n - 1;
      WorkerSpends(job.cfg, job.frame, job.snapshot, n + 1, job.host, job.value, job.variable, job.body, job.env, spare);
    }
  }

  // ----- interleavings -----

  datatype Machine = Machine(remaining: nat, granted: seq<nat>, refused: seq<bool>)

  function Idle(count: nat, budget: nat): Machine {
    Machine(budget, seq(count, _ => 0), seq(count, _ => false))
  }

  /** Worker `i` runs up to its next request; a refused or finished worker has none. */
  function Step(jobs: seq<Job>, m: Machine, i: nat): Machine
    requires |m.granted| == |m.refused| == |jobs|
  {
    if i >= |jobs| || m.refused[i] || !Wants(jobs[i], m.granted[i]) then m
    else if m.remaining == 0 then m.(refused := m.refused[i := true])
    else m.(remaining := m.remaining - 1, granted := m.granted[i := m.granted[i] + 1])
  }

  function Interleave(jobs: seq<Job>, budget: nat, schedule: seq<nat>): (m: Machine)
    ensures |m.granted| == |m.refused| == |jobs|
  {
    if schedule == [] then Idle(|jobs|, budget)
    else Step(jobs, Interleave(jobs, budget, schedule[..|schedule| - 1]), schedule[|schedule| - 1])
  }

  predicate Settled(jobs: seq<Job>, m: Machine, i: nat)
    requires |m.granted| == |m.refused| == |jobs| && i < |jobs|
  {
    m.refused[i] || !Wants(jobs[i], m.granted[i])
  }

  /** Nobody has anything left to ask. */
  predicate Complete(jobs: seq<Job>, m: Machine)
    requires |m.granted| == |m.refused| == |jobs|
  {
    forall i | 0 <= i < |jobs| :: Settled(jobs, m, i)
  }

  function Reports(jobs: seq<Job>, m: Machine): (outcomes: seq<Outcome>)
    requires |m.granted| == |jobs|
    ensures |outcomes| == |jobs|
    ensures forall i | 0 <= i < |jobs| :: outcomes[i] == Report(jobs[i], m.granted[i])
  {
    seq(|jobs|, i requires 0 <= i < |jobs| => Report(jobs[i], m.granted[i]))
  }

  function Sum(s: seq<nat>): nat {
    if s == [] then 0 else Sum(s[..|s| - 1]) + s[|s| - 1]
  }

  lemma {:induction false} SumOfZeros(s: seq<nat>)
    requires forall i | 0 <= i < |s| :: s[i] == 0
    ensures Sum(s) == 0
  {
    if s != [] {
      SumOfZeros(s[..|s| - 1]);
    }
  }

  lemma {:induction false} SumOfUpdate(s: seq<nat>, i: nat, x: nat)
    requires i < |s|
    ensures Sum(s[i := x]) == Sum(s) - s[i] + x
  {
    var last := |s| - 1;
    if i == last {
      assert s[i := x][..last] == s[..last];
    } else {
      assert s[i := x][..last] == s[..last][i := x];
      SumOfUpdate(s[..last], i, x);
    }
  }

  lemma {:induction false} SumMonotone(a: seq<nat>, b: seq<nat>)
    requires |a| == |b| && forall i | 0 <= i < |a| :: a[i] <= b[i]
    ensures Sum(a) <= Sum(b)
    ensures forall i | 0 <= i < |a| && a[i] < b[i] :: Sum(a) < Sum(b)
  {
    if a != [] {
      SumMonotone(a[..|a| - 1], b[..|b| - 1]);
      forall i | 0 <= i < |a| && a[i] < b[i]
        ensures Sum(a) < Sum(b)
      {
        if i < |a| - 1 {
          assert a[..|a| - 1][i] < b[..|b| - 1][i];
        }
      }
    }
  }

  /** What holds after every prefix of every schedule. */
  ghost predicate Reachable(jobs: seq<Job>, budget: nat, m: Machine) {
    && |m.granted| == |m.refused| == |jobs|
    && m.remaining + Sum(m.granted) == budget
    && (forall i, n: nat | 0 <= i < |jobs| && n < m.granted[i] :: Wants(jobs[i], n))
    && (forall i | 0 <= i < |jobs| && m.refused[i] :: m.remaining == 0 && Wants(jobs[i], m.granted[i]))
  }

  lemma StepKeepsReachable(jobs: seq<Job>, budget: nat, m: Machine, i: nat)
    requires Reachable(jobs, budget, m)
    ensures Reachable(jobs, budget, Step(jobs, m, i))
  {
    hide Wants, Sum;
    if i < |jobs| {
      SumOfUpdate(m.granted, i, m.granted[i] + 1);
    }
  }

  /** Conservation: whatever is gone from the shared counter was granted to some worker, once. */
  lemma {:induction false} StepsAreConserved(jobs: seq<Job>, budget: nat, schedule: seq<nat>)
    ensures Reachable(jobs, budget, Interleave(jobs, budget, schedule))
    ensures budget - Interleave(jobs, budget, schedule).remaining == Sum(Interleave(jobs, budget, schedule).granted)
  {
    hide Wants;
    if schedule == [] {
      SumOfZeros(Idle(|jobs|, budget).granted);
    } else {
      StepsAreConserved(jobs, budget, schedule[..|schedule| - 1]);
      StepKeepsReachable(jobs, budget, Interleave(jobs, budget, schedule[..|schedule| - 1]), schedule[|schedule| - 1]);
    }
  }

  ghost predicate Demands(jobs: seq<Job>, needs: seq<nat>) {
    |needs| == |jobs| && forall i | 0 <= i < |jobs| :: Demand(jobs[i], needs[i])
  }

  /** The budget covers what all the workers want together. */
  ghost predicate BudgetCovers(jobs: seq<Job>, budget: nat) {
    exists needs :: Demands(jobs, needs) && Sum(needs) <= budget
  }

  lemma GrantsAtMostDemand(jobs: seq<Job>, budget: nat, m: Machine, needs: seq<nat>)
    requires Reachable(jobs, budget, m) && Demands(jobs, needs)
    ensures forall i | 0 <= i < |jobs| :: m.granted[i] <= needs[i]
    ensures forall i | 0 <= i < |jobs| && !Wants(jobs[i], m.granted[i]) :: m.granted[i] == needs[i]
  {
    hide Wants;
    forall i | 0 <= i < |jobs|
      ensures m.granted[i] <= needs[i]
      ensures !Wants(jobs[i], m.granted[i]) ==> m.granted[i] == needs[i]
    {
      assert Demand(jobs[i], needs[i]);
    }
  }

  /** Enough budget: every complete schedule gives each worker exactly its demand. */
  lemma CoveredScheduleGrantsDemands(jobs: seq<Job>, budget: nat, schedule: seq<nat>, needs: seq<nat>)
    requires Demands(jobs, needs) && Sum(needs) <= budget
    requires Complete(jobs, Interleave(jobs, budget, schedule))
    ensures var m := Interleave(jobs, budget, schedule);
            m.granted == needs && m.remaining == budget - Sum(needs) && forall i | 0 <= i < |jobs| :: !m.refused[i]
  {
    hide Wants, Sum, Interleave;
    var m := Interleave(jobs, budget, schedule);
    StepsAreConserved(jobs, budget, schedule);
    GrantsAtMostDemand(jobs, budget, m, needs);
    SumMonotone(m.granted, needs);
    forall i | 0 <= i < |jobs|
      ensures !m.refused[i] && m.granted[i] == needs[i]
    {
      assert Settled(jobs, m, i);
      if m.refused[i] {
        assert false;
      }
    }
  }

  lemma UnrefusedIsCovered(jobs: seq<Job>, budget: nat, m: Machine)
    requires Reachable(jobs, budget, m) && Complete(jobs, m)
    requires forall i | 0 <= i < |jobs| :: !m.refused[i]
    ensures BudgetCovers(jobs, budget)
  {
    hide Wants, Sum;
    forall i | 0 <= i < |jobs|
      ensures Demand(jobs[i], m.granted[i])
    {
      assert Settled(jobs, m, i);
    }
    assert Demands(jobs, m.granted);
  }

  /**
   * Schedule independence. If the budget covers the batch, every complete
   * schedule leaves the same counter and gives each worker the outcome it has
   * alone with the whole budget; otherwise every complete schedule exhausts the
   * counter and refuses at least one worker a step. A refused worker reports that.
   */
  lemma ScheduleIndependence(jobs: seq<Job>, budget: nat, schedule: seq<nat>)
    requires Complete(jobs, Interleave(jobs, budget, schedule))
    ensures var m := Interleave(jobs, budget, schedule);
            BudgetCovers(jobs, budget) ==>
              && Demands(jobs, m.granted)
              && forall i | 0 <= i < |jobs| :: Reports(jobs, m)[i] == Report(jobs[i], budget)
    ensures var m := Interleave(jobs, budget, schedule);
            !BudgetCovers(jobs, budget) ==>
              m.remaining == 0 && exists i :: 0 <= i < |jobs| && m.refused[i] && StarvedOutcome(Reports(jobs, m)[i])
    ensures var m := Interleave(jobs, budget, schedule);
            forall i | 0 <= i < |jobs| && m.refused[i] :: ReportsStarvation(jobs[i], m.granted[i])
  {
    hide Wants, Sum, Interleave, Report, StarvedOutcome, Alone, HasForked;
    var m := Interleave(jobs, budget, schedule);
    StepsAreConserved(jobs, budget, schedule);
    forall i | 0 <= i < |jobs| && m.refused[i]
      ensures ReportsStarvation(jobs[i], m.granted[i])
    {
      RefusedJobStarves(jobs[i], m.granted[i]);
    }
    if BudgetCovers(jobs, budget) {
      var needs :| Demands(jobs, needs) && Sum(needs) <= budget;
      CoveredScheduleGrantsDemands(jobs, budget, schedule, needs);
      forall i | 0 <= i < |jobs|
        ensures Reports(jobs, m)[i] == Report(jobs[i], budget)
      {
        assert Demand(jobs[i], needs[i]);
        PartOfSum(needs, i);
        FinishedJobIsAlone(jobs[i], needs[i], budget);
      }
    } else {
      if forall i | 0 <= i < |jobs| :: !m.refused[i] {
        UnrefusedIsCovered(jobs, budget, m);
        assert false;
      }
      var i :| 0 <= i < |jobs| && m.refused[i];
      assert ReportsStarvation(jobs[i], m.granted[i]);
    }
  }

  lemma {:induction false} PartOfSum(s: seq<nat>, i: nat)
    requires i < |s|
    ensures s[i] <= Sum(s)
  {
    if i < |s| - 1 {
      PartOfSum(s[..|s| - 1], i);
    }
  }

  /** Two complete schedules of a covered batch are indistinguishable. */
  lemma CoveredSchedulesAgree(jobs: seq<Job>, budget: nat, one: seq<nat>, other: seq<nat>)
    requires BudgetCovers(jobs, budget)
    requires Complete(jobs, Interleave(jobs, budget, one)) && Complete(jobs, Interleave(jobs, budget, other))
    ensures Interleave(jobs, budget, one) == Interleave(jobs, budget, other)
  {
    hide Wants, Sum, Interleave;
    var needs :| Demands(jobs, needs) && Sum(needs) <= budget;
    CoveredScheduleGrantsDemands(jobs, budget, one, needs);
    CoveredScheduleGrantsDemands(jobs, budget, other, needs);
    assert Interleave(jobs, budget, one).refused == Interleave(jobs, budget, other).refused;
  }

  // ----- the canonical schedule -----

  function JobsOf(
    cfg: Config, f: Frame, snapshot: Snapshot, variable: string, values: seq<Value>, first: nat, hosts: seq<HostState>,
    body: Stmt, env: Environment)
    : (jobs: seq<Job>)
    requires |values| == |hosts|
    ensures |jobs| == |values|
    ensures forall i | 0 <= i < |jobs| :: jobs[i] == Job(cfg, f, snapshot, hosts[i], values[i], variable, body, env, first + i)
  {
    seq(|values|, i requires 0 <= i < |values| => Job(cfg, f, snapshot, hosts[i], values[i], variable, body, env, first + i))
  }

  /** Worker `k` asks `n` times in a row. */
  function Asking(k: nat, n: nat): seq<nat> {
    seq(n, _ => k)
  }

  lemma LastRequest(jobs: seq<Job>, budget: nat, schedule: seq<nat>)
    requires schedule != []
    ensures Interleave(jobs, budget, schedule) ==
            Step(jobs, Interleave(jobs, budget, schedule[..|schedule| - 1]), schedule[|schedule| - 1])
  {
    hide Step;
  }

  lemma {:induction false} AskingGrants(jobs: seq<Job>, budget: nat, schedule: seq<nat>, k: nat, n: nat)
    requires k < |jobs|
    requires var m := Interleave(jobs, budget, schedule);
             !m.refused[k] && m.granted[k] == 0 && n <= m.remaining && forall x: nat | x < n :: Wants(jobs[k], x)
    ensures var m := Interleave(jobs, budget, schedule);
            Interleave(jobs, budget, schedule + Asking(k, n)) == m.(remaining := m.remaining - n, granted := m.granted[k := n])
  {
    hide Wants, Interleave;
    var m := Interleave(jobs, budget, schedule);
    if n == 0 {
      assert schedule + Asking(k, 0) == schedule;
      assert m.granted[k := 0] == m.granted;
    } else {
      AskingGrants(jobs, budget, schedule, k, n - 1);
      var longer := schedule + Asking(k, n);
      assert longer[..|longer| - 1] == schedule + Asking(k, n - 1) && longer[|longer| - 1] == k;
      LastRequest(jobs, budget, longer);
      assert m.granted[k := n - 1][k := n] == m.granted[k := n];
    }
  }

  /** Let worker `k` run to its end: it takes what it takes alone from the remaining budget. */
  lemma RunJob(jobs: seq<Job>, budget: nat, schedule: seq<nat>, k: nat) returns (longer: seq<nat>)
    requires k < |jobs|
    requires var m := Interleave(jobs, budget, schedule); !m.refused[k] && m.granted[k] == 0
    ensures var m, r := Interleave(jobs, budget, schedule), Interleave(jobs, budget, longer);
            && Settled(jobs, r, k)
            && r.remaining == Alone(jobs[k], m.remaining).st.steps
            && Report(jobs[k], r.granted[k]) == Report(jobs[k], m.remaining)
            && (forall i | 0 <= i < |jobs| && i != k :: r.granted[i] == m.granted[i] && r.refused[i] == m.refused[i])
  {
    hide Alone, Report;
    var m := Interleave(jobs, budget, schedule);
    var left := Alone(jobs[k], m.remaining).st.steps;
    var used: nat := m.remaining - left;
    forall x: nat | x < used
      ensures Wants(jobs[k], x)
    {
      UsedSteps(jobs[k], m.remaining, x);
    }
    AskingGrants(jobs, budget, schedule, k, used);
    longer := schedule + Asking(k, used);
    UsedSteps(jobs[k], m.remaining, used);
    if left > 0 {
      FinishedJobIsAlone(jobs[k], used, m.remaining);
    } else if Wants(jobs[k], used) {
      var last := longer + [k];
      assert last[..|last| - 1] == longer;
      longer := last;
    }
  }

  lemma {:induction false} RunJobsFrom(
    cfg: Config, f: Frame, st: State, snapshot: Snapshot, variable: string, values: seq<Value>, first: nat,
    hosts: seq<HostState>, done: seq<Outcome>, body: Stmt, env: Environment, budget: nat, schedule: seq<nat>)
    returns (longer: seq<nat>)
    requires |values| == |hosts| && |done| <= |values|
    requires var jobs := JobsOf(cfg, f, snapshot, variable, values, first, hosts, body, env);
             var m := Interleave(jobs, budget, schedule);
             && m.remaining == st.steps
             && (forall i | 0 <= i < |done| :: Settled(jobs, m, i) && Report(jobs[i], m.granted[i]) == done[i])
             && (forall i | |done| <= i < |jobs| :: m.granted[i] == 0 && !m.refused[i])
    ensures var jobs := JobsOf(cfg, f, snapshot, variable, values, first, hosts, body, env);
            var m := Interleave(jobs, budget, longer);
            var w := WorkersFrom(cfg, f, st, snapshot, variable, values, first, hosts, done, body, env);
            Complete(jobs, m) && Reports(jobs, m) == w.outcomes && m.remaining == w.st.steps
    decreases |values| - |done|
  {
    var jobs := JobsOf(cfg, f, snapshot, variable, values, first, hosts, body, env);
    var k := |done|;
    if k == |values| {
      longer := schedule;
      assert Reports(jobs, Interleave(jobs, budget, schedule)) == done;
    } else {
      var next := RunJob(jobs, budget, schedule, k);
      NextWorker(cfg, f, st, snapshot, variable, values, first, hosts, done, body, env);
      var left := Alone(jobs[k], st.steps).st.steps;
      hide Wants, Alone, Report, WorkersFrom, Interleave;
      var more := done + [Report(jobs[k], st.steps)];
      SettledPrefix(jobs, Interleave(jobs, budget, schedule), Interleave(jobs, budget, next), done, Report(jobs[k], st.steps));
      longer := RunJobsFrom(cfg, f, st.(steps := left), snapshot, variable, values, first, hosts, more, body, env, budget, next);
    }
  }

  lemma SettledPrefix(jobs: seq<Job>, m: Machine, r: Machine, done: seq<Outcome>, outcome: Outcome)
    requires |m.granted| == |m.refused| == |r.granted| == |r.refused| == |jobs| && |done| < |jobs|
    requires forall i | 0 <= i < |done| :: Settled(jobs, m, i) && Report(jobs[i], m.granted[i]) == done[i]
    requires forall i | 0 <= i < |jobs| && i != |done| :: r.granted[i] == m.granted[i] && r.refused[i] == m.refused[i]
    requires Settled(jobs, r, |done|) && Report(jobs[|done|], r.granted[|done|]) == outcome
    ensures forall i | 0 <= i < |done| + 1 :: Settled(jobs, r, i) && Report(jobs[i], r.granted[i]) == (done + [outcome])[i]
  {
    hide Wants, Report;
    forall i | 0 <= i < |done| + 1
      ensures Settled(jobs, r, i) && Report(jobs[i], r.granted[i]) == (done + [outcome])[i]
    {
      if i < |done| {
        assert Settled(jobs, m, i);
      }
    }
  }

  lemma NextWorker(
    cfg: Config, f: Frame, st: State, snapshot: Snapshot, variable: string, values: seq<Value>, first: nat,
    hosts: seq<HostState>, done: seq<Outcome>, body: Stmt, env: Environment)
    requires |done| < |values| == |hosts|
    ensures var job := Job(cfg, f, snapshot, hosts[|done|], values[|done|], variable, body, env, first + |done|);
            WorkersFrom(cfg, f, st, snapshot, variable, values, first, hosts, done, body, env) ==
            WorkersFrom(cfg, f, st.(steps := Alone(job, st.steps).st.steps), snapshot, variable, values, first, hosts,
                        done + [Report(job, st.steps)], body, env)
  {
    hide Worker, WorkerOutcome;
  }

  /** Running the workers one after the other, as the evaluator does, is one of the complete schedules. */
  lemma SequentialIsASchedule(
    cfg: Config, f: Frame, st: State, snapshot: Snapshot, variable: string, values: seq<Value>, first: nat,
    hosts: seq<HostState>, body: Stmt, env: Environment)
    returns (schedule: seq<nat>)
    requires |values| == |hosts|
    ensures var jobs := JobsOf(cfg, f, snapshot, variable, values, first, hosts, body, env);
            var m := Interleave(jobs, st.steps, schedule);
            var w := WorkersFrom(cfg, f, st, snapshot, variable, values, first, hosts, [], body, env);
            Complete(jobs, m) && Reports(jobs, m) == w.outcomes && m.remaining == w.st.steps
  {
    schedule := RunJobsFrom(cfg, f, st, snapshot, variable, values, first, hosts, [], body, env, st.steps, []);
  }

  /** Any complete interleaving of a covered batch yields what the evaluator computes for the batch. */
  lemma InterleavingsRefineSequential(
    cfg: Config, f: Frame, st: State, snapshot: Snapshot, variable: string, values: seq<Value>, first: nat,
    hosts: seq<HostState>, body: Stmt, env: Environment, schedule: seq<nat>)
    requires |values| == |hosts|
    requires var jobs := JobsOf(cfg, f, snapshot, variable, values, first, hosts, body, env);
             Complete(jobs, Interleave(jobs, st.steps, schedule))
    ensures var jobs := JobsOf(cfg, f, snapshot, variable, values, first, hosts, body, env);
            var m := Interleave(jobs, st.steps, schedule);
            var w := WorkersFrom(cfg, f, st, snapshot, variable, values, first, hosts, [], body, env);
            && (BudgetCovers(jobs, st.steps) ==> Reports(jobs, m) == w.outcomes && m.remaining == w.st.steps)
            && (!BudgetCovers(jobs, st.steps) ==>
                  && m.remaining == 0 && w.st.steps == 0
                  && (exists i :: 0 <= i < |jobs| && StarvedOutcome(Reports(jobs, m)[i]))
                  && (exists i :: 0 <= i < |w.outcomes| && StarvedOutcome(w.outcomes[i])))
  {
    hide WorkersFrom, Interleave, Complete, BudgetCovers, StarvedOutcome;
    var jobs := JobsOf(cfg, f, snapshot, variable, values, first, hosts, body, env);
    var canonical := SequentialIsASchedule(cfg, f, st, snapshot, variable, values, first, hosts, body, env);
    ScheduleIndependence(jobs, st.steps, schedule);
    ScheduleIndependence(jobs, st.steps, canonical);
    if BudgetCovers(jobs, st.steps) {
      CoveredSchedulesAgree(jobs, st.steps, schedule, canonical);
    }
  }
}
