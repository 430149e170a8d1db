/** A parallel statement refines an in-order loop over its iterations. */
module Parallel {
  import opened Wrappers
  import opened Ast
  import opened Values
  import opened Operations
  import opened Evaluation
  import opened Evolution
  import opened Erasure
  import opened Schedule
  import opened Simulation

  // ----- output -----

  function Printed(history: seq<HostCall>): seq<string> {
    if history == [] then []
    else
      var last := history[|history| - 1];
      Printed(history[..|history| - 1]) + (if last.PrintLine? then [last.text] else [])
  }

  /** What a run has printed so far: in a worker the buffer, otherwise the host's lines. */
  function Output(h: HostState): seq<string> {
    if h.buffer.Some? then h.buffer.value.lines else Printed(h.history)
  }

  /** The host never refuses a line or a fork. */
  ghost predicate Obliging(cfg: Config) {
    && (forall history, text :: cfg.lib.reply(history + [PrintLine(text)]).Answer?)
    && (forall history :: cfg.lib.reply(history + [Fork]).Answer?)
  }

  /** A worker's buffer has room for so many more bytes. */
  predicate Roomy(cfg: Config, h: HostState, bytes: nat) {
    h.buffer.Some? ==> h.buffer.value.bytes + bytes <= cfg.limits.outputBytes
  }

  lemma PrintsOne(cfg: Config, h: HostState, text: string, more: nat)
    requires Obliging(cfg) && Roomy(cfg, h, Utf8Length(text) + 1 + more)
    ensures var (next, failure) := Print(cfg, h, text);
            failure.None? && Output(next) == Output(h) + [text] && Roomy(cfg, next, more) && next.buffer.Some? == h.buffer.Some?
  {
    if h.buffer.None? {
      var asked := h.history + [PrintLine(text)];
      assert asked[..|asked| - 1] == h.history;
    }
  }

  lemma {:induction false} PrintsAll(cfg: Config, f: Frame, h: HostState, lines: seq<string>, i: nat, more: nat)
    requires Obliging(cfg) && i <= |lines| && Roomy(cfg, h, Cost(lines[i..]) + more)
    ensures var (next, failure) := PrintFrom(cfg, f, h, lines, i);
            failure.None? && Output(next) == Output(h) + lines[i..] && Roomy(cfg, next, more) && next.buffer.Some? == h.buffer.Some?
    decreases |lines| - i
  {
    hide Obliging, Print, Output, Roomy, Utf8Length;
    if i == |lines| {
      assert lines[i..] == [];
      assert Output(h) + [] == Output(h);
    } else {
      assert lines[i..][1..] == lines[i + 1..];
      PrintsOne(cfg, h, lines[i], Cost(lines[i + 1..]) + more);
      PrintsAll(cfg, f, Print(cfg, h, lines[i]).0, lines, i + 1, more);
      assert Output(h) + [lines[i]] + lines[i + 1..] == Output(h) + lines[i..];
    }
  }

  /**
   * In a worker, replaying lines fails exactly when together they exceed the
   * room that is left. This is when a nested worker's own error, such as the
   * step limit, is hidden behind the output limit.
   */
  lemma {:induction false} ReplayFitsIff(cfg: Config, f: Frame, h: HostState, lines: seq<string>, i: nat)
    requires h.buffer.Some? && i <= |lines|
    ensures PrintFrom(cfg, f, h, lines, i).1.None?
       <==> i == |lines| || h.buffer.value.bytes + Cost(lines[i..]) <= cfg.limits.outputBytes
    decreases |lines| - i
  {
    hide Utf8Length;
    if i < |lines| {
      assert lines[i..][1..] == lines[i + 1..];
      if Print(cfg, h, lines[i]).1.None? {
        ReplayFitsIff(cfg, f, Print(cfg, h, lines[i]).0, lines, i + 1);
      }
    }
  }

  /** A nested worker that ran out of steps says so unless its lines overflow its parent's buffer. */
  lemma NestedStarvationShows(cfg: Config, f: Frame, h: HostState, outcome: Outcome)
    requires h.buffer.Some? && outcome.error.Some? && Bare(outcome.error.value.message) == StepLimit
    ensures var error := Replay(cfg, f, h, [outcome], 0, None).1;
            && error.Some?
            && (Bare(error.value.message) == StepLimit
                <==> outcome.lines == [] || h.buffer.value.bytes + Cost(outcome.lines) <= cfg.limits.outputBytes)
  {
    hide PrintFrom, Cost;
    ReplayFitsIff(cfg, f, h, outcome.lines, 0);
    assert outcome.lines[0..] == outcome.lines;
    var (next, failure) := PrintFrom(cfg, f, h, outcome.lines, 0);
    assert Replay(cfg, f, next, [outcome], 1, None.Or(failure).Or(outcome.error)).1 == failure.Or(outcome.error);
  }

  /** A full buffer loses the step limit of a starved nested worker that printed something. */
  lemma StarvationHidden(cfg: Config, f: Frame, h: HostState, starved: Outcome)
    requires h.buffer.Some? && h.buffer.value.bytes == cfg.limits.outputBytes
    requires starved.error.Some? && Bare(starved.error.value.message) == StepLimit && starved.lines != []
    ensures var error := Replay(cfg, f, h, [starved], 0, None).1;
            error.Some? && error.value.message == OutputLimit
  {
    NestedStarvationShows(cfg, f, h, starved);
    assert Cost(starved.lines) > 0;
  }

  // ----- replaying a batch -----

  function Lines(outcomes: seq<Outcome>): seq<string> {
    if outcomes == [] then [] else Lines(outcomes[..|outcomes| - 1]) + outcomes[|outcomes| - 1].lines
  }

  /** The first outcome with an error, or the number of outcomes. */
  function FirstFailure(outcomes: seq<Outcome>, from: nat): (k: nat)
    requires from <= |outcomes|
    ensures from <= k <= |outcomes|
    ensures forall i | from <= i < k :: outcomes[i].error.None?
    ensures k < |outcomes| ==> outcomes[k].error.Some?
    decreases |outcomes| - from
  {
    if from == |outcomes| || outcomes[from].error.Some? then from else FirstFailure(outcomes, from + 1)
  }

  lemma {:induction false} ReplaysAll(cfg: Config, f: Frame, h: HostState, outcomes: seq<Outcome>, i: nat, first: Option<RuntimeError>, more: nat)
    requires Obliging(cfg) && i <= |outcomes| && Roomy(cfg, h, Cost(Lines(outcomes[i..])) + more)
    ensures var (next, error) := Replay(cfg, f, h, outcomes, i, first);
            var k := FirstFailure(outcomes, i);
            && Output(next) == Output(h) + Lines(outcomes[i..])
            && Roomy(cfg, next, more) && next.buffer.Some? == h.buffer.Some?
            && error == first.Or(if k < |outcomes| then outcomes[k].error else None)
    decreases |outcomes| - i
  {
    hide Obliging, PrintFrom, Output, Roomy, Cost, Lines;
    if i == |outcomes| {
      assert outcomes[i..] == [];
      NoLines();
      assert Output(h) + [] == Output(h);
    } else {
      var lines := outcomes[i].lines;
      LinesHead(outcomes, i);
      CostAdds(lines, Lines(outcomes[i + 1..]));
      assert lines[0..] == lines;
      PrintsAll(cfg, f, h, lines, 0, Cost(Lines(outcomes[i + 1..])) + more);
      var (next, failure) := PrintFrom(cfg, f, h, lines, 0);
      ReplaysAll(cfg, f, next, outcomes, i + 1, first.Or(failure).Or(outcomes[i].error), more);
      assert Output(h) + lines + Lines(outcomes[i + 1..]) == Output(h) + Lines(outcomes[i..]);
    }
  }

  lemma NoLines()
    ensures Lines([]) == [] && Cost([]) == 0
  {
  }

  lemma {:induction false} LinesAdd(a: seq<Outcome>, b: seq<Outcome>)
    ensures Lines(a + b) == Lines(a) + Lines(b)
  {
    if b == [] {
      assert a + b == a;
      assert Lines(a) + [] == Lines(a);
    } else {
      var last := |b| - 1;
      assert (a + b)[..|a + b| - 1] == a + b[..last];
      LinesAdd(a, b[..last]);
      assert Lines(a) + (Lines(b[..last]) + b[last].lines) == (Lines(a) + Lines(b[..last])) + b[last].lines;
    }
  }

  lemma LinesHead(outcomes: seq<Outcome>, i: nat)
    requires i < |outcomes|
    ensures Lines(outcomes[i..]) == outcomes[i].lines + Lines(outcomes[i + 1..])
  {
    assert outcomes[i..] == [outcomes[i]] + outcomes[i + 1..];
    LinesAdd([outcomes[i]], outcomes[i + 1..]);
    assert Lines([outcomes[i]]) == outcomes[i].lines by {
      assert [outcomes[i]][..0] == [];
    }
  }

  lemma {:induction false} SameLines(a: seq<Outcome>, b: seq<Outcome>)
    requires SameOutcomes(a, b)
    ensures Lines(a) == Lines(b)
  {
    if a != [] {
      assert SameOutcome(a[|a| - 1], b[|b| - 1]);
      SameLines(a[..|a| - 1], b[..|b| - 1]);
    }
  }

  lemma {:induction false} SameFirstFailure(a: seq<Outcome>, b: seq<Outcome>, from: nat)
    requires SameOutcomes(a, b) && from <= |a|
    ensures FirstFailure(a, from) == FirstFailure(b, from)
    decreases |a| - from
  {
    if from < |a| {
      assert SameOutcome(a[from], b[from]);
      if a[from].error.None? {
        SameFirstFailure(a, b, from + 1);
      }
    }
  }

  // ----- what each iteration will do -----

  function ForkedHost(history: seq<HostCall>): HostState {
    HostState(history + [Forked], None)
  }

  predicate IsForked(h: HostState) {
    h.buffer.None? && h.history != [] && h.history[|h.history| - 1] == Forked
  }

  /** The outcome of one iteration and the steps it takes. */
  datatype Forecast = Forecast(outcome: Outcome, need: nat)

  /** Whatever its host did before the fork, and whatever budget it has to spare, the iteration does this. */
  ghost predicate Foreseen(
    cfg: Config, f: Frame, snapshot: Snapshot, value: Value, variable: string, body: Stmt, env: Environment, index: nat, c: Forecast)
  {
    forall history, n: nat | n >= c.need ::
      var o := Worker(cfg, f, snapshot, n, ForkedHost(history), value, variable, body, env);
      o.st.steps == n - c.need && SameOutcome(WorkerOutcome(f, o, index), c.outcome)
  }

  ghost predicate AllForeseen(
    cfg: Config, f: Frame, snapshot: Snapshot, values: seq<Value>, variable: string, body: Stmt, env: Environment, cast: seq<Forecast>)
  {
    |cast| == |values| && forall i | 0 <= i < |values| :: Foreseen(cfg, f, snapshot, values[i], variable, body, env, i, cast[i])
  }

  function Outcomes(cast: seq<Forecast>): (outcomes: seq<Outcome>)
    ensures |outcomes| == |cast| && forall i | 0 <= i < |cast| :: outcomes[i] == cast[i].outcome
  {
    seq(|cast|, i requires 0 <= i < |cast| => cast[i].outcome)
  }

  function Needs(cast: seq<Forecast>): (needs: seq<nat>)
    ensures |needs| == |cast| && forall i | 0 <= i < |cast| :: needs[i] == cast[i].need
  {
    seq(|cast|, i requires 0 <= i < |cast| => cast[i].need)
  }

  lemma {:induction false} ForksAll(cfg: Config, f: Frame, st: State, count: nat, hosts: seq<HostState>)
    requires Obliging(cfg) && |hosts| <= count <= |hosts| + st.steps
    requires forall i | 0 <= i < |hosts| :: IsForked(hosts[i])
    ensures var o := ForkFrom(cfg, f, st, count, hosts);
            && o.res.Ok? && |o.res.value| == count
            && (forall i | 0 <= i < count :: IsForked(o.res.value[i]))
            && o.st.steps == st.steps - (count - |hosts|)
            && Output(o.st.host) == Output(st.host) && o.st.host.buffer == st.host.buffer
    decreases count - |hosts|
  {
    if |hosts| < count {
      var asked := st.host.(history := st.host.history + [Fork]);
      assert asked.history[..|asked.history| - 1] == st.host.history;
      var child := HostState(asked.history + [Forked], None);
      assert IsForked(child);
      assert Ask(cfg, st.host, Fork).1.Answer?;
      hide Obliging, Output;
      ForksAll(cfg, f, st.(steps := st.steps - 1, host := asked), count, hosts + [child]);
      OutputOfFork(st.host);
    }
  }

  lemma OutputOfFork(h: HostState)
    ensures Output(h.(history := h.history + [Fork])) == Output(h)
  {
    var asked := h.history + [Fork];
    assert asked[..|asked| - 1] == h.history;
  }

  lemma {:induction false} WorkersForeseen(
    cfg: Config, f: Frame, st: State, snapshot: Snapshot, variable: string, values: seq<Value>, first: nat,
    hosts: seq<HostState>, done: seq<Outcome>, body: Stmt, env: Environment, cast: seq<Forecast>)
    requires |done| <= |values| == |hosts| && first + |values| <= |cast|
    requires forall i | 0 <= i < |hosts| :: IsForked(hosts[i])
    requires forall i | 0 <= i < |values| :: Foreseen(cfg, f, snapshot, values[i], variable, body, env, first + i, cast[first + i])
    requires SameOutcomes(done, Outcomes(cast)[first..first + |done|])
    requires st.steps >= Sum(Needs(cast)[first + |done|..first + |values|])
    ensures var w := WorkersFrom(cfg, f, st, snapshot, variable, values, first, hosts, done, body, env);
            && SameOutcomes(w.outcomes, Outcomes(cast)[first..first + |values|])
            && w.st.steps == st.steps - Sum(Needs(cast)[first + |done|..first + |values|])
    decreases |values| - |done|
  {
    hide Worker, WorkerOutcome, SameOutcome, ForkedHost, SameOutcomes;
    var i := |done|;
    if i == |values| {
      assert Needs(cast)[first + i..first + |values|] == [];
      return;
    }
    var history := hosts[i].history[..|hosts[i].history| - 1];
    HostFromFork(hosts[i]);
    SumHead(Needs(cast), first + i, first + |values|);
    var c := cast[first + i];
    assert st.steps >= c.need;
    assert Foreseen(cfg, f, snapshot, values[i], variable, body, env, first + i, c);
    var o := Worker(cfg, f, snapshot, st.steps, ForkedHost(history), values[i], variable, body, env);
    assert o.st.steps == st.steps - c.need && SameOutcome(WorkerOutcome(f, o, first + i), c.outcome);
    var more := done + [WorkerOutcome(f, o, first + i)];
    MoreOutcomes(done, Outcomes(cast), first, more);
    WorkersForeseen(cfg, f, st.(steps := o.st.steps), snapshot, variable, values, first, hosts, more, body, env, cast);
  }

  lemma HostFromFork(h: HostState)
    requires IsForked(h)
    ensures h == ForkedHost(h.history[..|h.history| - 1])
  {
  }

  lemma MoreOutcomes(done: seq<Outcome>, all: seq<Outcome>, first: nat, more: seq<Outcome>)
    requires first + |done| < |all| && SameOutcomes(done, all[first..first + |done|])
    requires |more| == |done| + 1 && more[..|done|] == done && SameOutcome(more[|done|], all[first + |done|])
    ensures SameOutcomes(more, all[first..first + |more|])
  {
    hide SameOutcome;
    forall i | 0 <= i < |more|
      ensures SameOutcome(more[i], all[first..first + |more|][i])
    {
      if i < |done| {
        assert more[i] == done[i] && SameOutcome(done[i], all[first..first + |done|][i]);
      }
    }
  }

  lemma {:induction false} SumHead(s: seq<nat>, lo: nat, hi: nat)
    requires lo < hi <= |s|
    ensures Sum(s[lo..hi]) == s[lo] + Sum(s[lo + 1..hi])
    decreases hi
  {
    assert s[lo..hi][..hi - lo - 1] == s[lo..hi - 1];
    if lo + 1 < hi {
      SumHead(s, lo, hi - 1);
      assert s[lo + 1..hi][..hi - lo - 2] == s[lo + 1..hi - 1];
    } else {
      assert s[lo..lo] == [] && s[lo + 1..hi] == [];
    }
  }

  lemma {:induction false} SumSplit(s: seq<nat>, lo: nat, mid: nat, hi: nat)
    requires lo <= mid <= hi <= |s|
    ensures Sum(s[lo..hi]) == Sum(s[lo..mid]) + Sum(s[mid..hi])
    decreases mid - lo
  {
    if lo == mid {
      assert s[lo..mid] == [];
    } else {
      SumHead(s, lo, hi);
      SumHead(s, lo, mid);
      SumSplit(s, lo + 1, mid, hi);
    }
  }

  // ----- the statement -----

  /** The end of the batch that contains `k`, counting batches of `width` from `start`; the whole input if `k` is its end. */
  function BatchEnd(start: nat, width: nat, k: nat, count: nat): (end: nat)
    requires width >= 1 && start <= k <= count
    ensures k <= end <= count && (k < count ==> k < end)
    decreases count - start
  {
    if start >= count then count
    else
      var end := if start + width <= count then start + width else count;
      if k < end then end else BatchEnd(end, width, k, count)
  }

  lemma BatchForeseen(
    cfg: Config, f: Frame, st: State, snapshot: Snapshot, variable: string, values: seq<Value>, start: nat, end: nat,
    body: Stmt, env: Environment, cast: seq<Forecast>, more: nat)
    requires Obliging(cfg) && AllForeseen(cfg, f, snapshot, values, variable, body, env, cast)
    requires start <= end <= |values|
    requires st.steps >= (end - start) + Sum(Needs(cast)[start..end])
    requires Roomy(cfg, st.host, Cost(Lines(Outcomes(cast)[start..end])) + more)
    ensures var o := Batch(cfg, f, st, snapshot, variable, values[start..end], start, body, env);
            var outcomes := Outcomes(cast)[start..end];
            var k := FirstFailure(outcomes, 0);
            && Output(o.st.host) == Output(st.host) + Lines(outcomes)
            && Roomy(cfg, o.st.host, more)
            && o.st.steps == st.steps - (end - start) - Sum(Needs(cast)[start..end])
            && (k == |outcomes| ==> o.res == Ok(Normal))
            && (k < |outcomes| ==> o.res.Err? && SameError(o.res.error, outcomes[k].error.value))
  {
    hide Obliging, Foreseen, Output, Roomy, Lines, Cost, FirstFailure, ForkFrom, WorkersFrom, Replay, Sum;
    var part := values[start..end];
    ForksAll(cfg, f, st, |part|, []);
    var forked := ForkFrom(cfg, f, st, |part|, []);
    var hosts := forked.res.value;
    forall i | 0 <= i < |part|
      ensures Foreseen(cfg, f, snapshot, part[i], variable, body, env, start + i, cast[start + i])
    {
    }
    NoOutcomesSame();
    assert Outcomes(cast)[start..start] == [];
    WorkersForeseen(cfg, f, forked.st, snapshot, variable, part, start, hosts, [], body, env, cast);
    var w := WorkersFrom(cfg, f, forked.st, snapshot, variable, part, start, hosts, [], body, env);
    var outcomes := Outcomes(cast)[start..end];
    SameLines(w.outcomes, outcomes);
    SameFirstFailure(w.outcomes, outcomes, 0);
    assert w.outcomes[0..] == w.outcomes;
    RoomyByBuffer(cfg, st.host, forked.st.host, Cost(Lines(outcomes)) + more);
    assert w.st.host == forked.st.host;
    ReplaysAll(cfg, f, w.st.host, w.outcomes, 0, None, more);
    var k := FirstFailure(outcomes, 0);
    if k < |outcomes| {
      assert SameOutcome(w.outcomes[k], outcomes[k]);
    }
  }

  lemma RoomyByBuffer(cfg: Config, h: HostState, k: HostState, bytes: nat)
    requires h.buffer == k.buffer && Roomy(cfg, h, bytes)
    ensures Roomy(cfg, k, bytes)
  {
  }

  /** What the iterations `start..end` leave behind when `k` is the first of them that fails. */
  predicate Refined(st: State, o: Out<Flow>, cast: seq<Forecast>, start: nat, k: nat, end: nat)
    requires start <= k <= |cast| && start <= end <= |cast| && (k < |cast| ==> cast[k].outcome.error.Some?)
  {
    && Output(o.st.host) == Output(st.host) + Lines(Outcomes(cast)[start..end])
    && o.st.steps == st.steps - (end - start) - Sum(Needs(cast)[start..end])
    && (if k == |cast| then o.res == Ok(Normal) else o.res.Err? && SameError(o.res.error, cast[k].outcome.error.value))
  }

  lemma RefinedStep(st: State, middle: State, o: Out<Flow>, cast: seq<Forecast>, start: nat, end: nat, k: nat, stop: nat)
    requires start <= end <= k <= |cast| && end <= stop <= |cast| && (k < |cast| ==> cast[k].outcome.error.Some?)
    requires Output(middle.host) == Output(st.host) + Lines(Outcomes(cast)[start..end])
    requires middle.steps == st.steps - (end - start) - Sum(Needs(cast)[start..end])
    requires Refined(middle, o, cast, end, k, stop)
    ensures Refined(st, o, cast, start, k, stop)
  {
    hide Output, Lines, Sum, Cost;
    JoinParts(Outcomes(cast), Needs(cast), start, end, stop);
  }

  lemma BatchesSteps(
    cfg: Config, f: Frame, st: State, snapshot: Snapshot, variable: string, values: seq<Value>, start: nat, width: nat,
    body: Stmt, env: Environment)
    requires width >= 1
    ensures start >= |values| ==> Batches(cfg, f, st, snapshot, variable, values, start, width, body, env) == Out(st, Ok(Normal))
    ensures start < |values| ==>
              var end := if start + width <= |values| then start + width else |values|;
              var b := Batch(cfg, f, st, snapshot, variable, values[start..end], start, body, env);
              Batches(cfg, f, st, snapshot, variable, values, start, width, body, env) ==
                if b.res.Err? then b else Batches(cfg, f, b.st, snapshot, variable, values, end, width, body, env)
  {
    hide Batch;
  }

  /** Enough steps and buffer room for the iterations from `start` on. */
  predicate Affordable(cfg: Config, st: State, cast: seq<Forecast>, start: nat)
    requires start <= |cast|
  {
    && st.steps >= (|cast| - start) + Sum(Needs(cast)[start..])
    && Roomy(cfg, st.host, Cost(Lines(Outcomes(cast)[start..])))
  }

  /** One batch of an affordable statement; what is left is affordable for the rest. */
  lemma AffordableBatch(
    cfg: Config, f: Frame, st: State, snapshot: Snapshot, variable: string, values: seq<Value>, start: nat, end: nat,
    body: Stmt, env: Environment, cast: seq<Forecast>)
    requires Obliging(cfg) && AllForeseen(cfg, f, snapshot, values, variable, body, env, cast)
    requires start <= end <= |values| == |cast| && Affordable(cfg, st, cast, start)
    ensures var o := Batch(cfg, f, st, snapshot, variable, values[start..end], start, body, env);
            var k := FirstFailure(Outcomes(cast), start);
            && Affordable(cfg, o.st, cast, end)
            && Output(o.st.host) == Output(st.host) + Lines(Outcomes(cast)[start..end])
            && o.st.steps == st.steps - (end - start) - Sum(Needs(cast)[start..end])
            && (k >= end ==> o.res == Ok(Normal))
            && (k < end ==> o.res.Err? && SameError(o.res.error, cast[k].outcome.error.value))
  {
    hide Obliging, AllForeseen, Output, Roomy, Lines, Cost, Batch, Sum, SameError, FirstFailure;
    var all, needs := Outcomes(cast), Needs(cast);
    JoinParts(all, needs, start, end, |values|);
    assert all[start..] == all[start..|values|] && all[end..] == all[end..|values|];
    assert needs[start..] == needs[start..|values|] && needs[end..] == needs[end..|values|];
    BatchForeseen(cfg, f, st, snapshot, variable, values, start, end, body, env, cast, Cost(Lines(all[end..])));
    FailureInSlice(all, start, end);
  }

  /**
   * The statement against its loop: the output is the concatenation in input
   * order through the batch of the first failing iteration, the error is that
   * iteration's, and the steps are those of the iterations plus one per fork.
   */
  lemma {:induction false} ParallelRefinesLoop(
    cfg: Config, f: Frame, st: State, snapshot: Snapshot, variable: string, values: seq<Value>, start: nat, width: nat,
    body: Stmt, env: Environment, cast: seq<Forecast>)
    requires Obliging(cfg) && AllForeseen(cfg, f, snapshot, values, variable, body, env, cast)
    requires width >= 1 && start <= |values| == |cast| && Affordable(cfg, st, cast, start)
    ensures var k := FirstFailure(Outcomes(cast), start);
            Refined(st, Batches(cfg, f, st, snapshot, variable, values, start, width, body, env), cast, start, k,
                    BatchEnd(start, width, k, |values|))
    decreases |values| - start
  {
    hide Obliging, AllForeseen, Output, Affordable, Lines, Cost, Batch, Batches, Sum, SameError;
    var all := Outcomes(cast);
    BatchesSteps(cfg, f, st, snapshot, variable, values, start, width, body, env);
    if start == |values| {
      assert all[start..start] == [] && Needs(cast)[start..start] == [];
      NoLines();
      NoSum();
      assert Output(st.host) + [] == Output(st.host);
      return;
    }
    var end := if start + width <= |values| then start + width else |values|;
    var k := FirstFailure(all, start);
    AffordableBatch(cfg, f, st, snapshot, variable, values, start, end, body, env, cast);
    if k < end { return; }
    var b := Batch(cfg, f, st, snapshot, variable, values[start..end], start, body, env);
    FailureAfter(all, start, end);
    ParallelRefinesLoop(cfg, f, b.st, snapshot, variable, values, end, width, body, env, cast);
    hide Refined;
    var o := Batches(cfg, f, st, snapshot, variable, values, start, width, body, env);
    RefinedStep(st, b.st, o, cast, start, end, k, BatchEnd(end, width, k, |values|));
  }

  /** Lines, bytes and steps of consecutive batches add up. */
  lemma JoinParts(all: seq<Outcome>, needs: seq<nat>, start: nat, end: nat, stop: nat)
    requires start <= end <= stop <= |all| == |needs|
    ensures Lines(all[start..stop]) == Lines(all[start..end]) + Lines(all[end..stop])
    ensures Cost(Lines(all[start..stop])) == Cost(Lines(all[start..end])) + Cost(Lines(all[end..stop]))
    ensures Sum(needs[start..stop]) == Sum(needs[start..end]) + Sum(needs[end..stop])
  {
    assert all[start..stop] == all[start..end] + all[end..stop];
    LinesAdd(all[start..end], all[end..stop]);
    CostAdds(Lines(all[start..end]), Lines(all[end..stop]));
    SumSplit(needs, start, end, stop);
  }

  lemma NoSum()
    ensures Sum([]) == 0
  {
  }

  lemma {:induction false} FailureInSlice(all: seq<Outcome>, start: nat, end: nat)
    requires start <= end <= |all|
    ensures var k := FirstFailure(all, start);
            FirstFailure(all[start..end], 0) == if k < end then k - start else end - start
  {
    var k, j := FirstFailure(all, start), FirstFailure(all[start..end], 0);
    if j < end - start {
      assert all[start + j].error.Some?;
    }
    if k < end {
      assert all[start..end][k - start].error.Some?;
    }
  }

  lemma {:induction false} FailureAfter(all: seq<Outcome>, start: nat, end: nat)
    requires start <= end <= |all| && FirstFailure(all, start) >= end
    ensures FirstFailure(all, end) == FirstFailure(all, start)
    decreases end - start
  {
    if start < end {
      FailureAfter(all, start + 1, end);
    }
  }

  // ----- where forecasts come from -----

  /** A forked runtime starts afresh: it answers from the calls made to it, whatever its parent did before. */
  ghost predicate ForksStartAfresh(cfg: Config) {
    forall history :: Interchangeable(cfg, Origin(history + [Forked], [Forked]))
  }

  function EraseFunctions(functions: seq<FunctionDef>): (bare: seq<FunctionDef>)
    ensures ErasedFunctions(functions, bare)
  {
    seq(|functions|, i requires 0 <= i < |functions| => functions[i].(body := EraseStmt(functions[i].body)))
  }

  lemma ForkedAlikeFresh(cfg: Config, history: seq<HostCall>)
    requires ForksStartAfresh(cfg)
    ensures Alike(cfg, Origin(history + [Forked], [Forked]), ForkedHost(history), ForkedHost([]))
  {
    var o := Origin(history + [Forked], [Forked]);
    assert Interchangeable(cfg, o);
    assert [] + [Forked] == [Forked];
    assert ForkedHost(history).history[|o.left|..] == [] == ForkedHost([]).history[|o.right|..];
  }

  /** Which host a worker was forked from makes no difference. */
  lemma WorkerIgnoresParent(
    cfg: Config, f: Frame, snapshot: Snapshot, steps: nat, history: seq<HostCall>, value: Value, variable: string, body: Stmt,
    env: Environment, index: nat)
    requires ForksStartAfresh(cfg)
    ensures var o := Worker(cfg, f, snapshot, steps, ForkedHost(history), value, variable, body, env);
            var anew := Worker(cfg, f, snapshot, steps, ForkedHost([]), value, variable, body, env);
            o.st.steps == anew.st.steps && SameOutcome(WorkerOutcome(f, o, index), WorkerOutcome(f, anew, index))
  {
    hide Worker, WorkerOutcome, EraseStmt, Alike, ErasedFunctions, ForkedHost, Interchangeable;
    var bare := Snapshot(snapshot.bindings, EraseFunctions(snapshot.functions));
    var one, two := Origin(history + [Forked], [Forked]), Origin([] + [Forked], [Forked]);
    ForkedAlikeFresh(cfg, history);
    ForkedAlikeFresh(cfg, []);
    WorkerSame(cfg, one, f, f, snapshot, bare, steps, ForkedHost(history), ForkedHost([]), value, variable, body, env);
    WorkerSame(cfg, two, f, f, snapshot, bare, steps, ForkedHost([]), ForkedHost([]), value, variable, body, env);
    var o := Worker(cfg, f, snapshot, steps, ForkedHost(history), value, variable, body, env);
    var anew := Worker(cfg, f, snapshot, steps, ForkedHost([]), value, variable, body, env);
    var erased := Worker(cfg, f, bare, steps, ForkedHost([]), value, variable, EraseStmt(body), env);
    WorkerOutcomeSame(cfg, one, f, f, o, erased, index);
    WorkerOutcomeSame(cfg, two, f, f, anew, erased, index);
  }

  /** Running an iteration once, alone, foretells it in every batch. */
  lemma AloneForetells(
    cfg: Config, f: Frame, snapshot: Snapshot, value: Value, variable: string, body: Stmt, env: Environment, index: nat, need: nat)
    requires ForksStartAfresh(cfg)
    requires Demand(Job(cfg, f, snapshot, ForkedHost([]), value, variable, body, env, index), need)
    ensures var job := Job(cfg, f, snapshot, ForkedHost([]), value, variable, body, env, index);
            Foreseen(cfg, f, snapshot, value, variable, body, env, index, Forecast(Report(job, need), need))
  {
    hide Worker, WorkerOutcome, ForksStartAfresh, ForkedHost;
    var job := Job(cfg, f, snapshot, ForkedHost([]), value, variable, body, env, index);
    assert Alone(job, need).st.steps == 0 by {
      if need > 0 {
        assert Wants(job, need - 1);
      }
    }
    forall history, n: nat | n >= need
      ensures var o := Worker(cfg, f, snapshot, n, ForkedHost(history), value, variable, body, env);
              o.st.steps == n - need && SameOutcome(WorkerOutcome(f, o, index), Report(job, need))
    {
      FinishedJobIsAlone(job, need, n);
      WorkerIgnoresParent(cfg, f, snapshot, n, history, value, variable, body, env, index);
    }
  }

  // ----- width -----

  lemma ForeseenFrom(
    cfg: Config, f: Frame, g: Frame, snapshot: Snapshot, values: seq<Value>, variable: string, body: Stmt, env: Environment, cast: seq<Forecast>)
    requires g.stack == f.stack && g.span == f.span && AllForeseen(cfg, f, snapshot, values, variable, body, env, cast)
    ensures AllForeseen(cfg, g, snapshot, values, variable, body, env, cast)
  {
    hide SameOutcome, ForkedHost;
    forall i | 0 <= i < |values|
      ensures Foreseen(cfg, g, snapshot, values[i], variable, body, env, i, cast[i])
    {
      assert Foreseen(cfg, f, snapshot, values[i], variable, body, env, i, cast[i]);
      forall history, n: nat | n >= cast[i].need
        ensures var o := Worker(cfg, g, snapshot, n, ForkedHost(history), values[i], variable, body, env);
                o.st.steps == n - cast[i].need && SameOutcome(WorkerOutcome(g, o, i), cast[i].outcome)
      {
        var o := Worker(cfg, f, snapshot, n, ForkedHost(history), values[i], variable, body, env);
        assert o == Worker(cfg, g, snapshot, n, ForkedHost(history), values[i], variable, body, env);
        assert WorkerOutcome(f, o, i) == WorkerOutcome(g, o, i);
      }
    }
  }

  /** A forecast failure carries the number of its iteration, counted from one. */
  lemma FailureNamesIteration(
    cfg: Config, f: Frame, snapshot: Snapshot, value: Value, variable: string, body: Stmt, env: Environment, index: nat, c: Forecast)
    requires Foreseen(cfg, f, snapshot, value, variable, body, env, index, c) && c.outcome.error.Some?
    ensures c.outcome.error.value.message.Iteration? && c.outcome.error.value.message.number == index + 1
  {
    hide ForkedHost, Worker;
    var o := Worker(cfg, f, snapshot, c.need, ForkedHost([]), value, variable, body, env);
    assert SameOutcome(WorkerOutcome(f, o, index), c.outcome);
  }

  /** The whole statement, from its first batch on. */
  lemma WholeStatement(
    cfg: Config, f: Frame, st: State, snapshot: Snapshot, variable: string, values: seq<Value>, width: nat, body: Stmt,
    env: Environment, cast: seq<Forecast>)
    requires Obliging(cfg) && width >= 1
    requires AllForeseen(cfg, f, snapshot, values, variable, body, env, cast) && |cast| == |values| && Affordable(cfg, st, cast, 0)
    ensures var o := Batches(cfg, f, st, snapshot, variable, values, 0, width, body, env);
            var k := FirstFailure(Outcomes(cast), 0);
            && (k == |values| ==>
                  o.res == Ok(Normal) && Output(o.st.host) == Output(st.host) + Lines(Outcomes(cast))
                  && st.steps - o.st.steps == |values| + Sum(Needs(cast)))
            && (k < |values| ==>
                  && o.res.Err? && SameError(o.res.error, cast[k].outcome.error.value)
                  && o.res.error.message.Iteration? && o.res.error.message.number == k + 1)
  {
    var k := FirstFailure(Outcomes(cast), 0);
    if k < |values| {
      assert Foreseen(cfg, f, snapshot, values[k], variable, body, env, k, cast[k]);
      FailureNamesIteration(cfg, f, snapshot, values[k], variable, body, env, k, cast[k]);
    }
    hide Foreseen, Obliging, AllForeseen, Affordable, Batches, Output, Lines, Sum;
    ParallelRefinesLoop(cfg, f, st, snapshot, variable, values, 0, width, body, env, cast);
    assert Outcomes(cast)[0..|values|] == Outcomes(cast);
    assert Needs(cast)[0..|values|] == Needs(cast);
  }

  /**
   * Width, and running nested at width one, change neither the error nor, when
   * there is none, the output and the steps.
   */
  lemma WidthsAgree(
    cfg: Config, f: Frame, g: Frame, a: State, b: State, snapshot: Snapshot, variable: string, values: seq<Value>,
    v: nat, w: nat, body: Stmt, env: Environment, cast: seq<Forecast>)
    requires Obliging(cfg) && g.stack == f.stack && g.span == f.span && v >= 1 && w >= 1
    requires AllForeseen(cfg, f, snapshot, values, variable, body, env, cast) && |cast| == |values|
    requires Affordable(cfg, a, cast, 0) && Affordable(cfg, b, cast, 0)
    ensures var x := Batches(cfg, f, a, snapshot, variable, values, 0, v, body, env);
            var y := Batches(cfg, g, b, snapshot, variable, values, 0, w, body, env);
            if FirstFailure(Outcomes(cast), 0) == |values| then
              && x.res == y.res == Ok(Normal)
              && Output(x.st.host) == Output(a.host) + Lines(Outcomes(cast))
              && Output(y.st.host) == Output(b.host) + Lines(Outcomes(cast))
              && a.steps - x.st.steps == b.steps - y.st.steps
            else x.res.Err? && y.res.Err? && SameError(x.res.error, y.res.error)
  {
    hide Foreseen, Obliging, AllForeseen, Affordable, Batches, Output, Lines, Sum, FirstFailure;
    ForeseenFrom(cfg, f, g, snapshot, values, variable, body, env, cast);
    WholeStatement(cfg, f, a, snapshot, variable, values, v, body, env, cast);
    WholeStatement(cfg, g, b, snapshot, variable, values, w, body, env, cast);
  }
}
