/**
 The bounded batch scheduler (scripts/run_ingest_batch.py, `main`). A task is the position of its URL in
 the list of pending URLs. The clock, the order in which probes complete and what they return are
 arbitrary inputs; of the event loop it is only used that a wait lets every created task start, and that a
 wait without a completed task lasts at least its timeout.
 */
module IngestBatch {
  import opened Wrappers
  import opened Ordering
  import opened IngestResume

  /** How a wait ends: some task completes with a status, or the timeout passes. */
  datatype WaitEnd =
    | Completes(task: nat, after: real, status: ParseStatus)
    | TimesOut(extra: real)

  function StatusOf(end: WaitEnd): ParseStatus { if end.Completes? then end.status else ParsedFailed }

  /** One recorded result: whose it is, what it is, and how long its probe had been running. */
  datatype Logged = Logged(position: nat, result: ProbeResult, elapsed: real)

  function Positions(log: seq<Logged>): set<nat> { set e | e in log :: e.position }

  /** Recording assigns into the dictionary, so a later result for the same URL would win. */
  function After(initial: Results, log: seq<Logged>): Results {
    if log == [] then initial
    else
      var last := log[|log| - 1].result;
      After(initial, log[..|log| - 1])[last.url := last]
  }

  function NonNegative(x: real): real { if x < 0.0 then 0.0 else x }

  function UpTo(n: nat): (s: set<nat>)
    ensures forall p: nat :: p in s <==> p < n
  {
    if n == 0 then {} else UpTo(n - 1) + {n - 1}
  }

  /** Recorded, in-flight and unstarted tasks partition the pending list. */
  ghost predicate Partitioned(pending: seq<Url>, recorded: set<nat>, inFlight: set<nat>, position: nat) {
    && position <= |pending|
    && (forall p :: p in inFlight ==> p < position && p !in recorded)
    && (forall p :: p in recorded ==> p < position)
    && (forall p :: 0 <= p < position ==> p in inFlight || p in recorded)
  }

  /** No task is recorded twice. */
  ghost predicate EachOnce(log: seq<Logged>) {
    forall i, j :: 0 <= i < j < |log| ==> log[i].position != log[j].position
  }

  /** Each recorded result belongs to the URL of its task; a watchdog result to an overdue one. */
  ghost predicate Belong(pending: seq<Url>, log: seq<Logged>, watchdog: real) {
    forall e :: e in log ==>
      && e.position < |pending| && e.result.url == pending[e.position]
      && (e.result.origin.WatchdogExpired? ==> e.elapsed >= watchdog)
  }

  /** The checkpoints: one right after each result. */
  function SavedAlong(plan: Plan, urls: seq<Url>, log: seq<Logged>): (saves: seq<seq<ProbeResult>>)
    ensures |saves| == |log|
  {
    if log == [] then []
    else SavedAlong(plan, urls, log[..|log| - 1]) + [Checkpoint(After(plan.results, log), plan.order, urls)]
  }

  /** The `k`-th result is what the probe of the `k`-th URL returned in the `k`-th wait. */
  ghost predicate InOrder(pending: seq<Url>, waits: nat -> WaitEnd, log: seq<Logged>)
    decreases |log|
  {
    log == [] ||
    var n := |log| - 1;
    && n < |pending| && log[n].position == n
    && log[n].result == ProbeResult(pending[n], StatusOf(waits(n)), Probed)
    && InOrder(pending, waits, log[..n])
  }

  lemma {:induction false} InOrderAt(pending: seq<Url>, waits: nat -> WaitEnd, log: seq<Logged>, k: nat)
    requires InOrder(pending, waits, log) && k < |log|
    ensures k < |pending|
    ensures log[k].position == k && log[k].result == ProbeResult(pending[k], StatusOf(waits(k)), Probed)
  {
    if k < |log| - 1 {
      InOrderAt(pending, waits, log[..|log| - 1], k);
    }
  }

  /** What holds of everything recorded so far. */
  ghost predicate Recorded(plan: Plan, urls: seq<Url>, watchdog: real, log: seq<Logged>,
                           saves: seq<seq<ProbeResult>>, recorded: set<nat>, results: Results) {
    && recorded == Positions(log) && EachOnce(log)
    && Belong(plan.pending, log, watchdog)
    && results == After(plan.results, log)
    && saves == SavedAlong(plan, urls, log)
  }

  class Batch {
    const urls: seq<Url>
    const plan: Plan                    // results to keep, their order, URLs to probe
    const concurrency: int
    const watchdog: real                // timeout + hard_cancel_grace
    const budget: Option<real>          // global_timeout

    var results: Results
    var recorded: set<nat>
    var position: nat
    var inFlight: set<nat>
    var startedAt: map<nat, real>
    var abandoned: set<nat>
    var completed: nat
    var log: seq<Logged>
    var saves: seq<seq<ProbeResult>>

    var batchStarted: real
    var now: real
    var readings: nat
    var waited: nat
    const pass: nat -> real             // how far the clock moves before its n-th reading
    const waits: nat -> WaitEnd         // how the n-th wait ends
    const partial: nat -> ParseStatus   // what a live probe had so far

    ghost predicate Valid()
      reads this`recorded, this`inFlight, this`position, this`log, this`saves, this`results, this`completed
    {
      && Partitioned(plan.pending, recorded, inFlight, position)
      && Recorded(plan, urls, watchdog, log, saves, recorded, results)
      && completed == |log|
      && |inFlight| <= (if concurrency < 0 then 0 else concurrency)
    }

    /** One slot, no budget, and every wait ends with a completion. */
    ghost predicate OneByOne() {
      concurrency == 1 && budget.None? && forall n :: waits(n).Completes?
    }

    /** Where the loop is then: the results are in order, and the next task, if any, is not started. */
    ghost predicate NextInLine()
      reads this`waited, this`log, this`inFlight, this`startedAt, this`position
    {
      && InOrder(plan.pending, waits, log) && waited == |log|
      && |log| <= position <= |log| + 1 && inFlight == (if position == |log| then {} else {|log|})
      && (forall p :: p in startedAt ==> p < |log|)
    }

    /** The wait is over in which the only task in flight completed with this status. */
    ghost predicate Returned(task: nat, status: ParseStatus)
      reads this`waited, this`log, this`inFlight, this`startedAt, this`position
    {
      && InOrder(plan.pending, waits, log) && waited == |log| + 1 && status == StatusOf(waits(|log|))
      && task == |log| && inFlight == {task} && position == |log| + 1
      && (forall p :: p in startedAt ==> p <= |log|)
    }

    constructor (plan: Plan, urls: seq<Url>, concurrency: int, watchdog: real, budget: Option<real>,
                 pass: nat -> real, waits: nat -> WaitEnd, partial: nat -> ParseStatus)
      ensures Valid() && log == [] && inFlight == {} && position == 0 && NextInLine()
      ensures this.pass == pass && this.waits == waits && this.partial == partial
      ensures this.urls == urls && this.plan == plan
      ensures this.concurrency == concurrency && this.watchdog == watchdog && this.budget == budget
    {
      this.urls, this.plan := urls, plan;
      this.concurrency, this.watchdog, this.budget := concurrency, watchdog, budget;
      this.pass, this.waits, this.partial := pass, waits, partial;
      results, recorded, position, inFlight, startedAt := plan.results, {}, 0, {}, map[];
      abandoned, completed, log, saves := {}, 0, [], [];
      batchStarted, now, readings, waited := 0.0, 0.0, 0, 0;
    }

    /** `time.monotonic()`. */
    method Clock() returns (t: real)
      modifies this`now, this`readings
      ensures t == now >= old(now)
    {
      now := now + NonNegative(pass(readings));
      readings := readings + 1;
      t := now;
    }

    /** `asyncio.wait(..., FIRST_COMPLETED)` and `next(iter(done))`. */
    method Wait(timeout: real) returns (done: Option<nat>, status: ParseStatus)
      requires inFlight != {} && timeout >= 0.0
      modifies this`now, this`startedAt, this`waited
      ensures now >= old(now)
      ensures done.Some? ==> done.value in inFlight
      ensures done.None? ==> now >= old(now) + timeout
      ensures OneByOne() && old(NextInLine()) ==> done.Some? && Returned(done.value, status)
      ensures forall p :: p in inFlight ==> p in startedAt
      ensures forall p :: p in old(startedAt) ==> p in startedAt && startedAt[p] == old(startedAt)[p]
    {
      var end := waits(waited);
      waited := waited + 1;
      startedAt := map p | p in startedAt.Keys + inFlight :: if p in startedAt then startedAt[p] else now;
      match end
      case Completes(task, after, s) =>
        now := now + NonNegative(after);
        status := s;
        if task in inFlight {
          done := Some(task);
        } else {
          var other :| other in inFlight;
          done := Some(other);
        }
      case TimesOut(extra) =>
        now := now + timeout + NonNegative(extra);
        done, status := None, ParsedFailed;
    }

    /** `_start_next_tasks`. */
    method StartNextTasks()
      requires Valid()
      modifies this`inFlight, this`position
      ensures Valid()
      ensures |inFlight| < concurrency ==> position == |plan.pending|
      ensures old(inFlight) <= inFlight
      ensures concurrency < 1 ==> inFlight == old(inFlight) && position == old(position)
      ensures concurrency == 1 && old(NextInLine()) ==> NextInLine()
    {
      while |inFlight| < concurrency
        invariant Valid() && old(inFlight) <= inFlight
        invariant concurrency < 1 ==> inFlight == old(inFlight) && position == old(position)
        invariant concurrency == 1 && old(NextInLine()) ==> NextInLine()
        decreases |plan.pending| - position
      {
        if position >= |plan.pending| {
          return;
        }
        inFlight := inFlight + {position};
        position := position + 1;
      }
    }

    /** Task `p` has left the in-flight table and is about to be recorded. */
    ghost predicate AboutToRecord(p: nat)
      reads this`recorded, this`inFlight, this`position, this`log, this`saves, this`results, this`completed
    {
      && p !in inFlight
      && Partitioned(plan.pending, recorded, inFlight + {p}, position)
      && Recorded(plan, urls, watchdog, log, saves, recorded, results)
      && completed == |log|
      && |inFlight| <= (if concurrency < 0 then 0 else concurrency)
    }

    /** `_record_result` and the incremental save. */
    method Write(e: Logged)
      modifies this`completed, this`results, this`recorded, this`log, this`saves
      ensures completed == old(completed) + 1 && results == old(results)[e.result.url := e.result]
      ensures recorded == old(recorded) + {e.position} && log == old(log) + [e]
      ensures saves == old(saves) + [Checkpoint(results, plan.order, urls)]
    {
      completed := completed + 1;
      results := results[e.result.url := e.result];
      recorded := recorded + {e.position};
      log := log + [e];
      saves := saves + [Checkpoint(results, plan.order, urls)];
    }

    /** Records the result of a task that has left the in-flight table. */
    method RecordResult(p: nat, r: ProbeResult, elapsed: real)
      requires AboutToRecord(p) && p < |plan.pending|
      requires r.url == plan.pending[p] && (r.origin.WatchdogExpired? ==> elapsed >= watchdog)
      modifies this`completed, this`results, this`recorded, this`log, this`saves
      ensures Valid()
      ensures log == old(log) + [Logged(p, r, elapsed)] && recorded == old(recorded) + {p}
    {
      var e := Logged(p, r, elapsed);
      RecordedAppend(plan, urls, watchdog, log, saves, recorded, results, e);
      LandingKeepsPartition(plan.pending, recorded, inFlight, position, p);
      Write(e);
    }

    method Earliest(tasks: set<nat>) returns (task: nat)
      requires tasks != {} && tasks <= startedAt.Keys
      ensures task in tasks && forall p :: p in tasks ==> startedAt[task] <= startedAt[p]
    {
      var at := startedAt;
      ghost var le := (p: nat, q: nat) => StartOf(at, p) <= StartOf(at, q);
      LeastExists(le, tasks);
      ghost var m :| m in tasks && forall p :: p in tasks ==> le(m, p);
      assert forall p :: p in tasks ==> StartOf(at, m) <= StartOf(at, p);
      task :| task in tasks && forall p :: p in tasks ==> StartOf(at, task) <= StartOf(at, p);
    }

    /** A task leaves the in-flight table, for good if it is cancelled. */
    method Pop(task: nat, cancel: bool)
      requires Valid() && task in inFlight
      modifies this`inFlight, this`abandoned
      ensures AboutToRecord(task) && task < |plan.pending| && inFlight == old(inFlight) - {task}
      ensures abandoned == old(abandoned) + if cancel then {task} else {}
    {
      inFlight := inFlight - {task};
      assert inFlight + {task} == old(inFlight);
      assert |inFlight| == |old(inFlight)| - 1;
      if cancel {
        abandoned := abandoned + {task};
      }
    }

    /** A task leaves the in-flight table with its result. */
    method Land(task: nat, cancel: bool, r: ProbeResult, elapsed: real)
      requires Valid() && task in inFlight
      requires r.url == plan.pending[task] && (r.origin.WatchdogExpired? ==> elapsed >= watchdog)
      modifies this`inFlight, this`abandoned, this`completed, this`results, this`recorded, this`log, this`saves
      ensures Valid() && inFlight == old(inFlight) - {task}
      ensures abandoned == old(abandoned) + if cancel then {task} else {}
      ensures log == old(log) + [Logged(task, r, elapsed)] && recorded == old(recorded) + {task}
    {
      Pop(task, cancel);
      RecordResult(task, r, elapsed);
    }

    /** The pending positions without a result. */
    ghost function Unrecorded(): set<nat>
      reads this`recorded
    {
      UpTo(|plan.pending|) - recorded
    }

    /** `_abandon_overdue_task`, and its result. */
    method AbandonOverdue(task: nat)
      requires Valid() && task in inFlight && task in startedAt && now - startedAt[task] >= watchdog
      modifies this`now, this`readings, this`inFlight, this`abandoned
      modifies this`completed, this`results, this`recorded, this`log, this`saves
      ensures Valid() && inFlight == old(inFlight) - {task}
      ensures recorded == old(recorded) + {task} && abandoned == old(abandoned) + {task}
      ensures Unrecorded() < old(Unrecorded())
      ensures Logs(old(log), log, task, plan.pending[task], WatchdogExpired, now - startedAt[task])
      ensures now >= old(now)
    {
      var t := Clock();
      var elapsed, r := t - startedAt[task], ProbeResult(plan.pending[task], partial(task), WatchdogExpired);
      FewerUnrecorded(|plan.pending|, recorded, task);
      Land(task, true, r, elapsed);
    }

    /** The budget is spent while `task` is in flight. */
    method FinalizeRunning(task: nat)
      requires Valid() && task in inFlight
      modifies this`now, this`readings, this`inFlight, this`abandoned
      modifies this`completed, this`results, this`recorded, this`log, this`saves
      ensures Valid() && inFlight == old(inFlight) - {task}
      ensures Logs(old(log), log, task, plan.pending[task], BudgetExhausted,
                   now - StartOr(startedAt, task, batchStarted))
    {
      var t := Clock();
      var elapsed := t - StartOr(startedAt, task, batchStarted);
      var r := ProbeResult(plan.pending[task], partial(task), BudgetExhausted);
      Land(task, true, r, elapsed);
    }

    /** The next position is passed over without starting its task. */
    method PassOver() returns (p: nat)
      requires Valid() && inFlight == {} && position < |plan.pending|
      modifies this`position
      ensures AboutToRecord(p) && p == old(position) && position == p + 1
    {
      p := position;
      position := p + 1;
    }

    /** The budget is spent before the next task could start. */
    method FinalizeUnstarted()
      requires Valid() && inFlight == {} && position < |plan.pending|
      modifies this`now, this`readings, this`position, this`completed, this`results, this`recorded, this`log, this`saves
      ensures Valid() && inFlight == {} && position == old(position) + 1
      ensures Logs(old(log), log, old(position), plan.pending[old(position)], BudgetExhausted, now - batchStarted)
    {
      var t := Clock();
      var p := PassOver();
      var elapsed, r := t - batchStarted, ProbeResult(plan.pending[p], ParsedFailed, BudgetExhausted);
      RecordResult(p, r, elapsed);
    }

    /** The whole budget is spent: every task in flight, then every one not started, gets its result. */
    method FinalizeAll()
      requires Valid()
      modifies this
      ensures Valid() && inFlight == {} && position == |plan.pending|
      ensures OnlyBudget(old(log), log)
    {
      ghost var log0 := log;
      while inFlight != {}
        invariant Valid() && OnlyBudget(log0, log)
        decreases inFlight
      {
        var task :| task in inFlight;
        ghost var log1 := log;
        FinalizeRunning(task);
        OnlyBudgetNext(log0, log1, log);
      }
      while position < |plan.pending|
        invariant Valid() && OnlyBudget(log0, log) && inFlight == {}
        invariant position <= |plan.pending|
        decreases |plan.pending| - position
      {
        ghost var log1 := log;
        FinalizeUnstarted();
        OnlyBudgetNext(log0, log1, log);
      }
    }

    /** How many more waits can pass without a result: until some task has started, and until the
        watchdog of one of them is due. */
    ghost function WaitsLeft(): nat
      reads this`inFlight, this`startedAt, this`now
    {
      if forall p :: p in inFlight ==> p !in startedAt then 2
      else if exists p :: p in inFlight && p in startedAt && now - startedAt[p] >= watchdog then 0
      else 1
    }

    /** One wait without an overdue task in the table. */
    method WaitForOne() returns (done: Option<nat>, status: ParseStatus)
      requires inFlight != {}
      modifies this`now, this`readings, this`startedAt, this`waited
      ensures done.Some? ==> done.value in inFlight && done.value in startedAt
      ensures OneByOne() && old(NextInLine()) ==> done.Some? && Returned(done.value, status)
      ensures done.None? && old(WaitsLeft()) != 0 ==> WaitsLeft() < old(WaitsLeft())
    {
      var started := set p | p in inFlight && p in startedAt;
      if started != {} {
        var first := Earliest(started);
        var t := Clock();
        var seconds := watchdog - (t - startedAt[first]);
        done, status := Wait(if seconds < 0.1 then 0.1 else seconds);
        assert done.None? ==> now >= t + seconds;
        assert done.None? ==> first in inFlight && first in startedAt && now - startedAt[first] >= watchdog;
      } else {
        assert forall p :: p in inFlight && p in startedAt ==> p in started;
        assert WaitsLeft() == 2;
        done, status := Wait(1.0);
        ghost var some :| some in inFlight;
        assert some in startedAt;
      }
    }

    /** `url_by_task.pop(task)`, and the result of a task that is done. */
    method LandDone(task: nat, status: ParseStatus)
      requires Valid() && task in inFlight && task in startedAt
      modifies this`inFlight, this`abandoned, this`completed, this`results, this`recorded, this`log, this`saves
      ensures Valid() && Unrecorded() < old(Unrecorded())
      ensures old(Returned(task, status)) ==> NextInLine()
    {
      var elapsed, r := now - startedAt[task], ProbeResult(plan.pending[task], status, Probed);
      ghost var returned, log' := Returned(task, status), log + [Logged(task, r, elapsed)];
      if returned {
        InOrderAppend(plan.pending, waits, log, Logged(task, r, elapsed));
      }
      FewerUnrecorded(|plan.pending|, recorded, task);
      Land(task, false, r, elapsed);
      if returned {
        assert log == log' && |log'| == task + 1 && inFlight == {};
      }
    }

    /** The task that has been overdue the longest, if there is one. */
    method FindOverdue() returns (task: Option<nat>)
      modifies this`now, this`readings
      ensures task.Some? ==>
                task.value in inFlight && task.value in startedAt && now - startedAt[task.value] >= watchdog
      ensures task.None? ==> WaitsLeft() != 0 && WaitsLeft() <= old(WaitsLeft())
      ensures NextInLine() ==> task.None?
    {
      var t := Clock();
      var overdue := set p | p in inFlight && p in startedAt && t - startedAt[p] >= watchdog;
      if overdue != {} {
        var first := Earliest(overdue);
        return Some(first);
      }
      assert forall p :: p in inFlight && p in startedAt ==> p !in overdue;
      task := None;
    }

    /** One wait, and the result of the task that is done, if any. */
    method WaitAndLand() returns (result: bool)
      requires Valid() && inFlight != {} && WaitsLeft() != 0
      modifies this`now, this`readings, this`startedAt, this`waited
      modifies this`inFlight, this`abandoned, this`completed, this`results, this`recorded, this`log, this`saves
      ensures Valid()
      ensures result ==> Unrecorded() < old(Unrecorded())
      ensures !result ==> recorded == old(recorded) && inFlight == old(inFlight) && WaitsLeft() < old(WaitsLeft())
      ensures OneByOne() && old(NextInLine()) ==> NextInLine()
    {
      var done, status := WaitForOne();
      result := done.Some?;
      if result {
        LandDone(done.value, status);
      }
    }

    /** One turn of the loop: either a task gets its result, or a wait passed. */
    method Turn() returns (result: bool)
      requires Valid() && inFlight != {}
      modifies this
      ensures Valid()
      ensures result ==> Unrecorded() < old(Unrecorded())
      ensures !result ==> recorded == old(recorded) && WaitsLeft() < old(WaitsLeft())
      ensures !result ==> inFlight == old(inFlight) && position == old(position)
      ensures OneByOne() && old(NextInLine()) ==> NextInLine()
    {
      var overdue := FindOverdue();
      if overdue.Some? {
        AbandonOverdue(overdue.value);
        return true;
      }
      result := WaitAndLand();
    }

    /** ... and after a result the free slots are filled again. */
    method TurnAndRefill() returns (result: bool)
      requires Valid() && inFlight != {} && concurrency >= 1
      requires |inFlight| < concurrency ==> position == |plan.pending|
      modifies this
      ensures Valid() && (|inFlight| < concurrency ==> position == |plan.pending|)
      ensures result ==> Unrecorded() < old(Unrecorded())
      ensures !result ==> recorded == old(recorded) && WaitsLeft() < old(WaitsLeft())
      ensures OneByOne() && old(NextInLine()) ==> NextInLine()
    {
      result := Turn();
      if result {
        ghost var unrecorded := Unrecorded();
        StartNextTasks();
        assert Unrecorded() == unrecorded;
      }
    }

    /** What the loop does once: with the budget spent it finishes, else it takes a turn. */
    method Iterate() returns (finished: bool)
      requires Valid() && inFlight != {} && concurrency >= 1
      requires |inFlight| < concurrency ==> position == |plan.pending|
      modifies this
      ensures Valid() && (|inFlight| < concurrency ==> position == |plan.pending|)
      ensures finished ==> inFlight == {}
      ensures !finished ==>
                || Unrecorded() < old(Unrecorded())
                || (recorded == old(recorded) && WaitsLeft() < old(WaitsLeft()))
      ensures OneByOne() && old(NextInLine()) ==> NextInLine()
    {
      var t := Clock();
      finished := budget.Some? && t - batchStarted >= budget.value;
      if finished {
        FinalizeAll();
      } else {
        ghost var left := WaitsLeft();
        var result := TurnAndRefill();
        assert left <= old(WaitsLeft());
      }
    }

    /** The batch loop. */
    method Run()
      requires Valid() && log == [] && inFlight == {} && position == 0 && NextInLine()
      modifies this
      ensures Valid() && inFlight == {}
      ensures OneByOne() ==> InOrder(plan.pending, waits, log)
      ensures concurrency >= 1 ==> position == |plan.pending|
      ensures concurrency < 1 ==> position == 0
    {
      batchStarted := Clock();
      StartNextTasks();
      while inFlight != {}
        invariant Valid()
        invariant |inFlight| < concurrency ==> position == |plan.pending|
        invariant concurrency < 1 ==> inFlight == {} && position == 0
        invariant OneByOne() ==> NextInLine()
        decreases Unrecorded(), WaitsLeft()
      {
        var finished := Iterate();
        if finished {
          break;
        }
      }
    }
  }

  /** The log grew by this entry. */
  predicate Logs(before: seq<Logged>, log: seq<Logged>, position: nat, url: Url, origin: Origin, elapsed: real) {
    && |log| == |before| + 1 && log[..|before|] == before
    && var e := log[|before|];
       e.position == position && e.result.url == url && e.result.origin == origin && e.elapsed == elapsed
  }

  /** All that was logged since `before` are results of the spent budget. */
  ghost predicate OnlyBudget(before: seq<Logged>, log: seq<Logged>) {
    && |before| <= |log| && log[..|before|] == before
    && forall i :: |before| <= i < |log| ==> log[i].result.origin.BudgetExhausted?
  }

  lemma OnlyBudgetNext(before: seq<Logged>, log: seq<Logged>, log': seq<Logged>)
    requires OnlyBudget(before, log) && |log'| == |log| + 1 && log'[..|log|] == log
    requires log'[|log|].result.origin.BudgetExhausted?
    ensures OnlyBudget(before, log')
  {
    assert forall i :: 0 <= i < |log| ==> log'[i] == log'[..|log|][i];
    assert log'[..|before|] == log[..|before|];
  }

  function StartOr(at: map<nat, real>, p: nat, otherwise: real): real { if p in at then at[p] else otherwise }

  function StartOf(at: map<nat, real>, p: nat): real { StartOr(at, p, 0.0) }

  lemma FewerUnrecorded(n: nat, recorded: set<nat>, p: nat)
    requires p < n && p !in recorded
    ensures UpTo(n) - (recorded + {p}) < UpTo(n) - recorded
  {
    assert p in UpTo(n) - recorded;
  }

  lemma InOrderAppend(pending: seq<Url>, waits: nat -> WaitEnd, log: seq<Logged>, e: Logged)
    requires InOrder(pending, waits, log) && e.position == |log| < |pending|
    requires e.result == ProbeResult(pending[|log|], StatusOf(waits(|log|)), Probed)
    ensures InOrder(pending, waits, log + [e])
  {
    assert (log + [e])[..|log|] == log;
  }

  /** A task that has left the in-flight table is recorded. */
  lemma LandingKeepsPartition(pending: seq<Url>, recorded: set<nat>, inFlight: set<nat>, position: nat, p: nat)
    requires p !in inFlight && Partitioned(pending, recorded, inFlight + {p}, position)
    ensures Partitioned(pending, recorded + {p}, inFlight, position) && p !in recorded
  {
    assert p in inFlight + {p};
  }

  lemma RecordedAppend(plan: Plan, urls: seq<Url>, watchdog: real, log: seq<Logged>, saves: seq<seq<ProbeResult>>,
                       recorded: set<nat>, results: Results, e: Logged)
    requires Recorded(plan, urls, watchdog, log, saves, recorded, results)
    requires e.position !in recorded && e.position < |plan.pending| && e.result.url == plan.pending[e.position]
    requires e.result.origin.WatchdogExpired? ==> e.elapsed >= watchdog
    ensures var results' := results[e.result.url := e.result];
            Recorded(plan, urls, watchdog, log + [e], saves + [Checkpoint(results', plan.order, urls)],
                     recorded + {e.position}, results')
  {
    LogAppend(log, e);
    assert (log + [e])[..|log|] == log;
  }

  lemma LogAppend(log: seq<Logged>, e: Logged)
    ensures Positions(log + [e]) == Positions(log) + {e.position}
    ensures EachOnce(log) && e.position !in Positions(log) ==> EachOnce(log + [e])
  {
    var log' := log + [e];
    assert forall x :: x in log' <==> x in log || x == e;
    assert forall i :: 0 <= i < |log| ==> log[i] in log;
  }

  // ----- a whole run ------------------------------------------------------------------------

  datatype Finished = Finished(plan: Plan, results: Results, log: seq<Logged>, saves: seq<seq<ProbeResult>>)

  /** `main`, from the saved file to the final results. Every selected URL ends with a result, for every
      behaviour of clock, probes and watchdog, exactly when at least one probe may run or none is pending. */
  method ProbeBatch(urls: seq<Url>, file: Option<SavedFile>, retryFailures: bool, concurrency: int, watchdog: real,
                    budget: Option<real>, pass: nat -> real, waits: nat -> WaitEnd, partial: nat -> ParseStatus)
    returns (outcome: Result<Finished>)
    ensures outcome.Failure? <==> MakePlan(urls, file, retryFailures).Failure?
    ensures outcome.Success? ==>
              var f := outcome.value;
              && f.plan == MakePlan(urls, file, retryFailures).value
              && Recorded(f.plan, urls, watchdog, f.log, f.saves, Positions(f.log), f.results)
              && Positions(f.log) == (if concurrency >= 1 then UpTo(|f.plan.pending|) else {})
              && ((forall u :: u in urls ==> u in f.results) <==> concurrency >= 1 || f.plan.pending == [])
              && (concurrency == 1 && budget.None? && (forall n :: waits(n).Completes?) ==>
                    InOrder(f.plan.pending, waits, f.log))
  {
    var plan := MakePlan(urls, file, retryFailures);
    if plan.Failure? {
      return Failure(plan.error);
    }
    var batch := new Batch(plan.value, urls, concurrency, watchdog, budget, pass, waits, partial);
    PlanIsFiled(urls, file, retryFailures);
    if plan.value.pending == [] {
      assert Positions([]) == {} == UpTo(0);
      return Success(Finished(plan.value, batch.results, [], []));
    }
    batch.Run();
    outcome := Success(Finished(plan.value, batch.results, batch.log, batch.saves));
    assert batch.recorded == UpTo(batch.position);
    AllRecordedOrNone(plan.value, urls, batch.log, batch.position);
  }

  lemma {:induction false} AfterKeys(initial: Results, log: seq<Logged>)
    ensures forall u :: u in After(initial, log) <==> u in initial || exists e :: e in log && e.result.url == u
  {
    if log != [] {
      var before, last := log[..|log| - 1], log[|log| - 1];
      assert log == before + [last];
      AfterKeys(initial, before);
      forall u
        ensures u in After(initial, log) <==> u in initial || exists e :: e in log && e.result.url == u
      {
        assert last in log;
        if u in After(initial, before) && u !in initial {
          var e :| e in before && e.result.url == u;
          assert e in log;
        }
      }
    }
  }

  lemma NothingRecorded(log: seq<Logged>)
    ensures Positions(log) == {} <==> log == []
  {
    if log != [] { assert log[0].position in Positions(log); }
  }

  lemma AllRecordedOrNone(plan: Plan, urls: seq<Url>, log: seq<Logged>, n: nat)
    requires plan.pending != [] && (n == |plan.pending| || n == 0)
    requires Positions(log) == UpTo(n)
    requires forall e :: e in log ==> e.position < |plan.pending| && e.result.url == plan.pending[e.position]
    requires forall u :: u in plan.pending <==> u in urls && u !in plan.results
    ensures (forall u :: u in urls ==> u in After(plan.results, log)) <==> n == |plan.pending|
  {
    AfterKeys(plan.results, log);
    if n == 0 {
      NothingRecorded(log);
      assert plan.pending[0] in plan.pending && log == [];
    } else {
      forall u | u in urls && u !in plan.results
        ensures exists e :: e in log && e.result.url == u
      {
        assert u in plan.pending;
        var p :| 0 <= p < |plan.pending| && plan.pending[p] == u;
        assert p in Positions(log);
        var e :| e in log && e.position == p;
      }
    }
  }

  /** A result, once recorded, is final: when no URL is pending twice, nothing recorded later, by a late
      completion of an abandoned probe or otherwise, overwrites it. */
  lemma {:induction false} ResultsAreFinal(plan: Plan, log: seq<Logged>, watchdog: real, e: Logged)
    requires Distinct(plan.pending) && EachOnce(log) && Belong(plan.pending, log, watchdog) && e in log
    ensures e.result.url in After(plan.results, log) && After(plan.results, log)[e.result.url] == e.result
  {
    var n := |log| - 1;
    var before, last := log[..n], log[n];
    assert log == before + [last] && last in log;
    if e != last {
      assert e in before;
      var i :| 0 <= i < n && log[i] == e;
      assert log[i].position != log[n].position;
      assert forall x :: x in before ==> x in log;
      ResultsAreFinal(plan, before, watchdog, e);
    }
  }

  /** Every recorded result is the one that is kept for its URL. */
  ghost predicate AllFinal(plan: Plan, log: seq<Logged>) {
    forall e :: e in log ==>
      e.result.url in After(plan.results, log) && After(plan.results, log)[e.result.url] == e.result
  }

  /** What the log of any run is: no position twice, each result for the URL of its position. */
  ghost predicate RunLog(plan: Plan, log: seq<Logged>, watchdog: real) {
    EachOnce(log) && Belong(plan.pending, log, watchdog)
  }

  /** Exactly: results are final in every run when no URL is pending twice, and only then. */
  lemma ResultsFinalExactly(plan: Plan, watchdog: real)
    ensures (forall log :: RunLog(plan, log, watchdog) ==> AllFinal(plan, log)) <==> Distinct(plan.pending)
  {
    if Distinct(plan.pending) {
      forall log | RunLog(plan, log, watchdog)
        ensures AllFinal(plan, log)
      {
        forall e: Logged | e in log
          ensures e.result.url in After(plan.results, log) && After(plan.results, log)[e.result.url] == e.result
        {
          ResultsAreFinal(plan, log, watchdog, e);
        }
      }
    } else {
      var p, q :| 0 <= p < q < |plan.pending| && plan.pending[p] == plan.pending[q];
      var log := PendingTwiceOverwrites(plan, watchdog, p, q, ParsedOk, ParsedFailed);
      assert RunLog(plan, log, watchdog) && !AllFinal(plan, log);
    }
  }

  /** Of two positions with one URL the later result replaces the earlier. */
  lemma PendingTwiceOverwrites(plan: Plan, watchdog: real, p: nat, q: nat, first: ParseStatus, second: ParseStatus)
    returns (log: seq<Logged>)
    requires p < q < |plan.pending| && plan.pending[p] == plan.pending[q] && first != second
    ensures RunLog(plan, log, watchdog) && |log| == 2 && log[0].position == p && log[1].position == q
    ensures log[0].result.status == first && log[1].result.status == second
    ensures After(plan.results, log)[plan.pending[p]] == log[1].result && !AllFinal(plan, log)
  {
    var u := plan.pending[p];
    log := [Logged(p, ProbeResult(u, first, Probed), 0.0), Logged(q, ProbeResult(u, second, Probed), 0.0)];
    assert log[0] in log;
    assert After(plan.results, log) == After(plan.results, log[..1])[u := log[1].result];
  }

  /** As many results as positions. */
  lemma {:induction false} CountPositions(log: seq<Logged>)
    requires EachOnce(log)
    ensures |Positions(log)| == |log|
  {
    if log != [] {
      var before, last := log[..|log| - 1], log[|log| - 1];
      assert log == before + [last];
      CountPositions(before);
      LogAppend(before, last);
      assert last.position !in Positions(before);
    }
  }

  /** The batch does that whenever a URL is pending twice: probed one after the other, with a good answer to all
      but one of the probes, it records two different results of one URL, so one of them is overwritten. */
  method OverwritingRun(urls: seq<Url>, file: Option<SavedFile>, retryFailures: bool, p: nat, q: nat, watchdog: real,
                        pass: nat -> real, partial: nat -> ParseStatus)
    returns (f: Finished)
    requires MakePlan(urls, file, retryFailures).Success?
    requires var pending := MakePlan(urls, file, retryFailures).value.pending;
             p < q < |pending| && pending[p] == pending[q]
    ensures f.plan == MakePlan(urls, file, retryFailures).value && RunLog(f.plan, f.log, watchdog)
    ensures Recorded(f.plan, urls, watchdog, f.log, f.saves, Positions(f.log), f.results)
    ensures |f.log| == |f.plan.pending| && f.log[p].result.url == f.log[q].result.url == f.plan.pending[p]
    ensures f.log[p].result.status.ParsedOk? && f.log[q].result.status.ParsedFailed? && !AllFinal(f.plan, f.log)
  {
    var waits: nat -> WaitEnd := (n: nat) => Completes(n, 0.0, if n == q then ParsedFailed else ParsedOk);
    var outcome := ProbeBatch(urls, file, retryFailures, 1, watchdog, None, pass, waits, partial);
    f := outcome.value;
    AllPositions(f.log, |f.plan.pending|);
    InOrderAt(f.plan.pending, waits, f.log, p);
    InOrderAt(f.plan.pending, waits, f.log, q);
    assert f.log[p] in f.log && f.log[q] in f.log;
  }

  lemma AllPositions(log: seq<Logged>, n: nat)
    requires EachOnce(log) && Positions(log) == UpTo(n)
    ensures |log| == n
  {
    CountPositions(log);
    CountUpTo(n);
  }

  lemma {:induction false} CountUpTo(n: nat)
    ensures |UpTo(n)| == n
  {
    if n > 0 {
      CountUpTo(n - 1);
    }
  }

  /** With one URL selected twice: two different results, the last of which is kept, and listed twice. */
  method ProbeTwice(u: Url, watchdog: real, pass: nat -> real, partial: nat -> ParseStatus) returns (f: Finished)
    ensures |f.log| == 2 && f.log[0].result.url == f.log[1].result.url == u
    ensures f.log[0].result.status.ParsedOk? && f.log[1].result.status.ParsedFailed?
    ensures u in f.results && f.results[u] == f.log[1].result
    ensures |f.saves| == 2 && f.saves[1] == [f.results[u], f.results[u]]
  {
    f := OverwritingRun([u, u], None, false, 0, 1, watchdog, pass, partial);
    assert f.plan == Plan(map[], [], [u, u]);
    assert f.results == After(f.plan.results, f.log[..1])[u := f.log[1].result];
    SelectedTwice(f.results, u);
  }

  lemma SelectedTwice(results: Results, u: Url)
    requires u in results
    ensures Checkpoint(results, [], [u, u]) == [results[u], results[u]]
  {
    FilterAll([u, u], v => v in results);
    assert CheckpointUrls(results, [], [u, u]) == [] + [u, u] == [u, u];
  }

  lemma {:induction false} NthCheckpoint(plan: Plan, urls: seq<Url>, log: seq<Logged>, i: nat)
    requires i < |log|
    ensures SavedAlong(plan, urls, log)[i] == Checkpoint(After(plan.results, log[..i + 1]), plan.order, urls)
  {
    var n := |log| - 1;
    if i < n {
      NthCheckpoint(plan, urls, log[..n], i);
      assert log[..n][..i + 1] == log[..i + 1];
    } else {
      assert log[..i + 1] == log;
    }
  }

  /** The recorded URLs only grow from one checkpoint of a run to the next. */
  lemma CheckpointsGrow(plan: Plan, log: seq<Logged>, i: nat, j: nat)
    requires i <= j <= |log|
    ensures After(plan.results, log[..i]).Keys <= After(plan.results, log[..j]).Keys
  {
    AfterKeys(plan.results, log[..i]);
    AfterKeys(plan.results, log[..j]);
    assert forall e :: e in log[..i] ==> e in log[..j];
  }

  lemma RecordedAreSelected(pending: seq<Url>, log: seq<Logged>, watchdog: real, n: nat, urls: seq<Url>)
    requires n <= |log| && Belong(pending, log, watchdog) && forall u :: u in pending ==> u in urls
    ensures forall e :: e in log[..n] ==> e.result.url in urls
  {
    forall e | e in log[..n]
      ensures e.result.url in urls
    {
      assert e in log;
      assert pending[e.position] in pending;
    }
  }

  /** Crash and resume: a run that is killed after any of its checkpoints and started again with `--resume`,
      even on another selection, keeps every recorded result and probes exactly the selected URLs without
      one. */
  lemma ResumeAfterCrash(urls: seq<Url>, file: Option<SavedFile>, retryFailures: bool, watchdog: real,
                         log: seq<Logged>, i: nat, selection: seq<Url>)
    requires MakePlan(urls, file, retryFailures).Success? && i < |log|
    requires Belong(MakePlan(urls, file, retryFailures).value.pending, log, watchdog)
    ensures var plan := MakePlan(urls, file, retryFailures).value;
            var results := After(plan.results, log[..i + 1]);
            var resumed := MakePlan(selection, Some(ToFile(SavedAlong(plan, urls, log)[i])), false);
            && resumed.Success? && resumed.value.results == results
            && resumed.value.pending == Missing(selection, results)
  {
    var plan := MakePlan(urls, file, retryFailures).value;
    NthCheckpoint(plan, urls, log, i);
    PlanIsFiled(urls, file, retryFailures);
    RecordedAreSelected(plan.pending, log, watchdog, i + 1, urls);
    AfterFiled(plan, urls, log[..i + 1]);
    ResumeProbesExactlyTheMissing(After(plan.results, log[..i + 1]), plan.order, urls, selection);
  }

  lemma {:induction false} AfterFiled(plan: Plan, urls: seq<Url>, log: seq<Logged>)
    requires Filed(plan.results, plan.order, urls)
    requires forall e :: e in log ==> e.result.url in urls
    ensures Filed(After(plan.results, log), plan.order, urls)
  {
    if log != [] {
      AfterFiled(plan, urls, log[..|log| - 1]);
    }
  }
}
