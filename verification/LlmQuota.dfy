/**
 Durable quota backoff (job_ftch/application/llm_quota.py).

 The persisted run-state keys form a small state machine. `QuotaStore` is the imperative code;
 `Pause`, `RecordFailure` and `BeforeRun` say what each entry point does to the stored state, and
 `Run` strings entry points together into histories, over which the guarantees are stated.
 Times are whole seconds on any clock, not necessarily a monotonic one.
 */
module LlmQuota {
  import opened Wrappers

  datatype Status = Unset | Ready | RetryScheduled | DisabledUntilSchedule | UnavailableUntilSchedule

  /** The six run-state keys, parsed. An absent, empty or unreadable time is `None`. */
  datatype State = State(
    retryCount: nat,
    blockedUntil: Option<int>,
    status: Status,
    lastError: string,
    nextDue: Option<int>,
    windowEnd: Option<int>)

  const FRESH := State(0, None, Unset, "", None, None)

  datatype Preflight = Preflight(available: bool, quotaExhausted: bool, error: string)

  datatype DecisionStatus =
    | RunReady | Waiting | Scheduled | Disabled | Unavailable

  datatype Decision = Decision(
    allowed: bool,
    status: DecisionStatus,
    retryAt: Option<int>,
    quotaExhausted: bool,
    retryNumber: nat)

  /** The three settings as the caller passes them; any integers. */
  datatype Config = Config(normalInterval: int, retryDelay: int, maxRetries: int) {
    function Interval(): int { if normalInterval < 1 then 1 else normalInterval }
    function Delay(): int { if retryDelay < 1 then 1 else retryDelay }
    function Max(): nat { if maxRetries < 0 then 0 else maxRetries }
  }

  // ----- what each entry point does ---------------------------------------------------------

  predicate Paused(s: State, now: int) {
    s.blockedUntil.Some? && s.blockedUntil.value > now
  }

  /** The pause has run out and the window or the schedule it belonged to is over. */
  predicate Expired(s: State, now: int) {
    && s.blockedUntil.Some? && s.blockedUntil.value <= now
    && (s.status.DisabledUntilSchedule? || s.status.UnavailableUntilSchedule?
        || (s.windowEnd.Some? && s.windowEnd.value <= now))
  }

  function Cleared(s: State): State {
    State(0, None, Ready, "", s.nextDue, None)
  }

  function AfterPause(s: State, now: int): State {
    if Expired(s, now) then Cleared(s) else s
  }

  function PauseDecision(s: State, now: int): Option<Decision> {
    if Paused(s, now)
    then Some(Decision(false, Waiting, s.blockedUntil,
                       s.retryCount > 0 || s.status.DisabledUntilSchedule?, s.retryCount))
    else None
  }

  /** The window a failure at `now` falls into: the stored one, else the next due run. */
  function Window(s: State, cfg: Config, now: int): int {
    match s.windowEnd
    case Some(w) => w
    case None =>
      if s.nextDue.Some? && s.nextDue.value > now then s.nextDue.value else now + cfg.Interval()
  }

  /** `s` is the state after the pause check; nothing is written while a pause is running. */
  function AfterFailure(s: State, cfg: Config, now: int): State {
    if Paused(s, now) then s
    else
      var w := Window(s, cfg, now);
      var disabled := s.retryCount + 1 > cfg.Max() || now + cfg.Delay() >= w;
      var retryAt := if disabled then w else now + cfg.Delay();
      State(
        if disabled then cfg.Max() else s.retryCount + 1,
        Some(retryAt),
        if disabled then DisabledUntilSchedule else RetryScheduled,
        "llm_quota_exhausted",
        Some(retryAt),
        Some(w))
  }

  function FailureDecision(s: State, cfg: Config, now: int): Decision {
    if Paused(s, now) then Decision(false, Waiting, s.blockedUntil, true, s.retryCount)
    else
      var t := AfterFailure(s, cfg, now);
      var n := s.retryCount + 1;
      Decision(false, if t.status.DisabledUntilSchedule? then Disabled else Scheduled, t.blockedUntil,
               true, if n <= cfg.Max() then n else cfg.Max())
  }

  /** What one entry point did: the new state, whether it cleared the old one first, whether it
      wrote a quota failure, whether it called the provider. */
  datatype Outcome = Outcome(state: State, cleared: bool, recorded: bool, called: bool)

  datatype Event =
    | PauseChecked(now: int)
    | RunChecked(now: int, given: Option<Preflight>, answer: Preflight)
    | FailureNoted(now: int)
    | DueWritten(due: Option<int>)    // the scheduler moves the next due run

  function RecordFailure(s: State, cfg: Config, now: int): Outcome {
    var t := AfterPause(s, now);
    Outcome(AfterFailure(t, cfg, now), Expired(s, now), !Paused(t, now), false)
  }

  function BeforeRun(s: State, cfg: Config, now: int, given: Option<Preflight>, answer: Preflight): Outcome {
    var t := AfterPause(s, now);
    if Paused(s, now) then Outcome(s, false, false, false)
    else
      var called := given.None?;
      var result := if given.Some? then given.value else answer;
      if result.available then
        var clear := t.retryCount != 0 || t.blockedUntil.Some?;
        Outcome(if clear then Cleared(t) else t, Expired(s, now) || clear, false, called)
      else if result.quotaExhausted then
        RecordFailure(t, cfg, now).(cleared := Expired(s, now) || Expired(t, now), called := called)
      else
        var retryAt := now + cfg.Interval();
        Outcome(
          State(0, Some(retryAt), UnavailableUntilSchedule,
                if result.error == "" then "llm_unavailable" else result.error,
                Some(retryAt), t.windowEnd),
          Expired(s, now), false, called)
  }

  function RunDecision(s: State, cfg: Config, now: int, given: Option<Preflight>, answer: Preflight): Decision {
    if Paused(s, now) then PauseDecision(s, now).value
    else
      var t := AfterPause(s, now);
      var result := if given.Some? then given.value else answer;
      if result.available then Decision(true, RunReady, None, false, 0)
      else if result.quotaExhausted then FailureDecision(AfterPause(t, now), cfg, now)
      else Decision(false, Unavailable, Some(now + cfg.Interval()), false, 0)
  }

  function Step(s: State, cfg: Config, e: Event): Outcome {
    match e
    case PauseChecked(now) => Outcome(AfterPause(s, now), Expired(s, now), false, false)
    case RunChecked(now, given, answer) => BeforeRun(s, cfg, now, given, answer)
    case FailureNoted(now) => RecordFailure(s, cfg, now)
    case DueWritten(due) => Outcome(s.(nextDue := due), false, false, false)
  }

  // ----- the code ---------------------------------------------------------------------------

  class QuotaStore {
    var retryCount: nat
    var blockedUntil: Option<int>
    var status: Status
    var lastError: string
    var nextDue: Option<int>
    var windowEnd: Option<int>
    var providerCalls: nat

    function Stored(): State
      reads this
    {
      State(retryCount, blockedUntil, status, lastError, nextDue, windowEnd)
    }

    constructor ()
      ensures Stored() == FRESH && providerCalls == 0
    {
      retryCount, blockedUntil, status, lastError := 0, None, Unset, "";
      nextDue, windowEnd, providerCalls := None, None, 0;
    }

    method SaveState(count: nat, until: int, newStatus: Status, error: string)
      modifies this`retryCount, this`blockedUntil, this`status, this`lastError, this`nextDue
      ensures Stored() == State(count, Some(until), newStatus, error, Some(until), old(windowEnd))
    {
      retryCount := count;
      blockedUntil := Some(until);
      status := newStatus;
      lastError := error;
      nextDue := Some(until);
    }

    method ClearState()
      modifies this`retryCount, this`blockedUntil, this`status, this`lastError, this`windowEnd
      ensures Stored() == Cleared(old(Stored()))
    {
      retryCount := 0;
      blockedUntil := None;
      status := Ready;
      lastError := "";
      windowEnd := None;
    }

    /** `check_llm_pause`. */
    method CheckPause(now: int) returns (pause: Option<Decision>)
      modifies this`retryCount, this`blockedUntil, this`status, this`lastError, this`windowEnd
      ensures Stored() == AfterPause(old(Stored()), now)
      ensures pause == PauseDecision(old(Stored()), now)
    {
      if blockedUntil.None? {
        return None;
      }
      if blockedUntil.value <= now {
        if status.DisabledUntilSchedule? || status.UnavailableUntilSchedule?
           || (windowEnd.Some? && windowEnd.value <= now) {
          ClearState();
        }
        return None;
      }
      pause := Some(Decision(false, Waiting, blockedUntil,
                             retryCount > 0 || status.DisabledUntilSchedule?, retryCount));
    }

    /** `_record_quota_failure`. */
    method RecordQuotaFailure(cfg: Config, now: int) returns (decision: Decision)
      modifies this
      ensures Stored() == RecordFailure(old(Stored()), cfg, now).state
      ensures decision == FailureDecision(AfterPause(old(Stored()), now), cfg, now)
      ensures providerCalls == old(providerCalls)
    {
      var _ := CheckPause(now);
      var current := retryCount;
      if blockedUntil.Some? && blockedUntil.value > now {
        return Decision(false, Waiting, blockedUntil, true, current);
      }
      var retryNumber := current + 1;
      var end: int;
      if windowEnd.Some? {
        end := windowEnd.value;
      } else {
        if nextDue.Some? && nextDue.value > now {
          end := nextDue.value;
        } else {
          end := now + cfg.Interval();
        }
        windowEnd := Some(end);
      }
      var disabled := retryNumber > cfg.Max() || now + cfg.Delay() >= end;
      var retryAt := if disabled then end else now + cfg.Delay();
      SaveState(if disabled then cfg.Max() else retryNumber, retryAt,
                if disabled then DisabledUntilSchedule else RetryScheduled, "llm_quota_exhausted");
      decision := Decision(false, if disabled then Disabled else Scheduled, Some(retryAt), true,
                           if retryNumber <= cfg.Max() then retryNumber else cfg.Max());
    }

    /** `check_llm_before_run`; `answer` is what the provider would say if it were asked. */
    method CheckBeforeRun(cfg: Config, now: int, given: Option<Preflight>, answer: Preflight)
      returns (decision: Decision)
      modifies this
      ensures Stored() == BeforeRun(old(Stored()), cfg, now, given, answer).state
      ensures decision == RunDecision(old(Stored()), cfg, now, given, answer)
      ensures providerCalls ==
              old(providerCalls) + if BeforeRun(old(Stored()), cfg, now, given, answer).called then 1 else 0
    {
      var pause := CheckPause(now);
      if pause.Some? {
        return pause.value;
      }
      var until, count := blockedUntil, retryCount;
      var result: Preflight;
      if given.Some? {
        result := given.value;
      } else {
        providerCalls := providerCalls + 1;
        result := answer;
      }
      if result.available {
        if count != 0 || until.Some? {
          ClearState();
        }
        return Decision(true, RunReady, None, false, 0);
      }
      if result.quotaExhausted {
        decision := RecordQuotaFailure(cfg, now);
        return;
      }
      var retryAt := now + cfg.Interval();
      SaveState(0, retryAt, UnavailableUntilSchedule,
                if result.error == "" then "llm_unavailable" else result.error);
      decision := Decision(false, Unavailable, Some(retryAt), false, 0);
    }

    /** `note_llm_quota_failure`. */
    method NoteQuotaFailure(cfg: Config, now: int) returns (decision: Decision)
      modifies this
      ensures Stored() == Step(old(Stored()), cfg, FailureNoted(now)).state
      ensures decision == FailureDecision(AfterPause(old(Stored()), now), cfg, now)
      ensures providerCalls == old(providerCalls)
    {
      decision := RecordQuotaFailure(cfg, now);
    }
  }

  // ----- histories --------------------------------------------------------------------------

  /** The stored state together with the times of the quota failures written since the last clear. */
  datatype History = History(state: State, failures: seq<int>)

  function Extend(h: History, cfg: Config, e: Event): History {
    var o := Step(h.state, cfg, e);
    var kept := if o.cleared then [] else h.failures;
    History(o.state, if o.recorded then kept + [e.now] else kept)
  }

  function Run(cfg: Config, events: seq<Event>): History {
    if events == [] then History(FRESH, [])
    else Extend(Run(cfg, events[..|events| - 1]), cfg, events[|events| - 1])
  }

  ghost predicate Spaced(times: seq<int>, gap: int) {
    forall i, j :: 0 <= i < j < |times| ==> times[j] >= times[i] + gap
  }

  /** What every reachable history satisfies: the status alone fixes the shape of the rest. */
  ghost predicate Consistent(h: History, cfg: Config) {
    var s := h.state;
    && s.retryCount <= cfg.Max()
    && Spaced(h.failures, cfg.Delay())
    && match s.status
       case Unset => s.blockedUntil.None? && s.windowEnd.None? && s.retryCount == 0 && h.failures == []
       case Ready => s.blockedUntil.None? && s.windowEnd.None? && s.retryCount == 0 && h.failures == []
       case RetryScheduled =>
         && s.blockedUntil.Some? && s.windowEnd.Some? && s.blockedUntil.value < s.windowEnd.value
         && 1 <= |h.failures| == s.retryCount
         && s.blockedUntil.value == h.failures[|h.failures| - 1] + cfg.Delay()
       case DisabledUntilSchedule =>
         && s.blockedUntil.Some? && s.blockedUntil == s.windowEnd
         && 1 <= |h.failures| <= cfg.Max() + 1
         && h.failures[|h.failures| - 1] < s.windowEnd.value
       case UnavailableUntilSchedule =>
         s.blockedUntil.Some? && s.retryCount == 0 && |h.failures| <= cfg.Max()
  }

  lemma SpacedAppend(times: seq<int>, t: int, gap: int)
    requires gap >= 0 && Spaced(times, gap) && (times != [] ==> t >= times[|times| - 1] + gap)
    ensures Spaced(times + [t], gap)
  {
  }

  /** The history after the pause check, which both other entry points start with. */
  function Unpaused(h: History, now: int): History {
    History(AfterPause(h.state, now), if Expired(h.state, now) then [] else h.failures)
  }

  lemma ConsistentAfterPause(h: History, cfg: Config, now: int)
    requires Consistent(h, cfg)
    ensures Consistent(Unpaused(h, now), cfg)
    ensures !Expired(Unpaused(h, now).state, now)
  {
  }

  lemma ConsistentAfterFailure(h: History, cfg: Config, now: int)
    requires Consistent(h, cfg) && !Expired(h.state, now) && !Paused(h.state, now)
    ensures Consistent(History(AfterFailure(h.state, cfg, now), h.failures + [now]), cfg)
    ensures now < AfterFailure(h.state, cfg, now).blockedUntil.value
  {
    SpacedAppend(h.failures, now, cfg.Delay());
  }

  lemma ConsistentAfterNote(h: History, cfg: Config, now: int)
    requires Consistent(h, cfg)
    ensures Consistent(Extend(h, cfg, FailureNoted(now)), cfg)
  {
    var u := Unpaused(h, now);
    ConsistentAfterPause(h, cfg, now);
    if Paused(u.state, now) {
      assert Extend(h, cfg, FailureNoted(now)) == u;
    } else {
      ConsistentAfterFailure(u, cfg, now);
      assert Extend(h, cfg, FailureNoted(now)) == History(AfterFailure(u.state, cfg, now), u.failures + [now]);
    }
  }

  lemma ConsistentAfterCheck(h: History, cfg: Config, now: int, given: Option<Preflight>, answer: Preflight)
    requires Consistent(h, cfg)
    ensures Consistent(Extend(h, cfg, RunChecked(now, given, answer)), cfg)
  {
    var e := RunChecked(now, given, answer);
    var h' := Extend(h, cfg, e);
    var u := Unpaused(h, now);
    ConsistentAfterPause(h, cfg, now);
    var result := if given.Some? then given.value else answer;
    if Paused(h.state, now) {
      assert h' == h;
    } else if result.available {
      assert h' == u || h' == History(Cleared(u.state), []);
    } else if result.quotaExhausted {
      ConsistentAfterFailure(u, cfg, now);
      assert h' == History(AfterFailure(u.state, cfg, now), u.failures + [now]);
    } else {
      assert h'.failures == u.failures;
    }
  }

  lemma ConsistentStep(h: History, cfg: Config, e: Event)
    requires Consistent(h, cfg)
    ensures Consistent(Extend(h, cfg, e), cfg)
  {
    match e
    case PauseChecked(now) => ConsistentAfterPause(h, cfg, now);
    case RunChecked(now, given, answer) => ConsistentAfterCheck(h, cfg, now, given, answer);
    case FailureNoted(now) => ConsistentAfterNote(h, cfg, now);
    case DueWritten(due) =>
  }

  lemma {:induction false} EveryHistoryIsConsistent(cfg: Config, events: seq<Event>)
    ensures Consistent(Run(cfg, events), cfg)
  {
    if events != [] {
      var before := events[..|events| - 1];
      EveryHistoryIsConsistent(cfg, before);
      ConsistentStep(Run(cfg, before), cfg, events[|events| - 1]);
    }
  }

  /** Bounded pressure: whatever the calls, their order and the clock, between two clears at most
      `max_retries + 1` quota failures are written, each at least the retry delay after the last. */
  lemma BoundedPressure(cfg: Config, events: seq<Event>)
    ensures |Run(cfg, events).failures| <= cfg.Max() + 1
    ensures Spaced(Run(cfg, events).failures, cfg.Delay())
  {
    EveryHistoryIsConsistent(cfg, events);
  }

  /** The stored keys of every reachable state fit together. */
  lemma {:induction false} StoredKeysFitTogether(cfg: Config, events: seq<Event>)
    ensures var s := Run(cfg, events).state;
            && (s.windowEnd.Some? ==> s.blockedUntil.Some?)
            && s.retryCount <= cfg.Max()
            && (s.status.DisabledUntilSchedule? ==> s.blockedUntil == s.windowEnd)
  {
    EveryHistoryIsConsistent(cfg, events);
  }

  lemma WrittenFailureBlocks(h: History, cfg: Config, e: Event)
    requires Consistent(h, cfg) && Step(h.state, cfg, e).recorded
    ensures var s := Step(h.state, cfg, e).state;
            s.blockedUntil.Some? && s.windowEnd.Some? && e.now < s.blockedUntil.value <= s.windowEnd.value
  {
    var h' := Extend(h, cfg, e);
    ConsistentStep(h, cfg, e);
    assert h'.failures != [] && h'.failures[|h'.failures| - 1] == e.now;
  }

  /** In every reachable state, a quota failure that gets written blocks until strictly after now
      and never past the end of the window it is counted in. */
  lemma WrittenFailureBlocksWithinWindow(cfg: Config, events: seq<Event>, e: Event)
    requires Step(Run(cfg, events).state, cfg, e).recorded
    ensures var s := Run(cfg, events + [e]).state;
            s.blockedUntil.Some? && s.windowEnd.Some? && e.now < s.blockedUntil.value <= s.windowEnd.value
  {
    EveryHistoryIsConsistent(cfg, events);
    assert (events + [e])[..|events|] == events;
    WrittenFailureBlocks(Run(cfg, events), cfg, e);
  }

  /** Once stored, the window end changes only by a clear. */
  lemma {:induction false} WindowFixedUntilCleared(cfg: Config, events: seq<Event>, e: Event)
    ensures var s := Run(cfg, events).state;
            var o := Step(s, cfg, e);
            s.windowEnd.Some? && !o.cleared ==> o.state.windowEnd == s.windowEnd
  {
    EveryHistoryIsConsistent(cfg, events);
  }

  /** The provider is asked only when no pause is running, so between a written failure and the next
      question at least the retry delay passes unless the window ended or the state was cleared. */
  lemma ProviderAskedOnlyAfterThePause(cfg: Config, events: seq<Event>, e: Event)
    requires Step(Run(cfg, events).state, cfg, e).called
    ensures var h := Run(cfg, events);
            && (h.state.blockedUntil.Some? ==> h.state.blockedUntil.value <= e.now)
            && (h.state.status.RetryScheduled? ==>
                  h.failures != [] && e.now >= h.failures[|h.failures| - 1] + cfg.Delay())
            && (h.state.status.DisabledUntilSchedule? ==>
                  h.state.windowEnd.Some? && h.state.windowEnd.value <= e.now && Step(h.state, cfg, e).cleared)
  {
    EveryHistoryIsConsistent(cfg, events);
  }

  // ----- the bound is reached, and where the spacing ends -----------------------------------

  const EXHAUSTED := Preflight(false, true, "")

  /** The `n`-th retry time after `start`. */
  function RetryTime(cfg: Config, start: int, n: nat): int {
    if n == 0 then start else RetryTime(cfg, start, n - 1) + cfg.Delay()
  }

  lemma {:induction false} RetryTimesAreInWindow(cfg: Config, start: int, n: nat, m: nat)
    requires n <= m
    ensures RetryTime(cfg, start, n) == start + n * cfg.Delay()
    ensures RetryTime(cfg, start, n) <= RetryTime(cfg, start, m) == start + m * cfg.Delay()
  {
    if m > 0 {
      RetryTimesAreInWindow(cfg, start, if n < m then n else m - 1, m - 1);
      assert m * cfg.Delay() == (m - 1) * cfg.Delay() + cfg.Delay();
    }
  }

  /** A provider out of quota, asked again at each retry time. */
  function Storm(cfg: Config, start: int, n: nat): seq<Event> {
    if n == 0 then []
    else Storm(cfg, start, n - 1) + [RunChecked(RetryTime(cfg, start, n - 1), None, EXHAUSTED)]
  }

  /** One answer of the storm, at the moment the pause of the answer before is over. */
  lemma StormStep(cfg: Config, h: History, now: int, w: int)
    requires h.state.status.RetryScheduled? && h.state.blockedUntil == Some(now) && h.state.windowEnd == Some(w)
    requires h.state.retryCount <= cfg.Max() && now < w
    requires h.state.retryCount < cfg.Max() ==> now + cfg.Delay() < w
    ensures var h', k := Extend(h, cfg, RunChecked(now, None, EXHAUSTED)), h.state.retryCount + 1;
            && h'.failures == h.failures + [now] && h'.state.windowEnd == Some(w)
            && (k <= cfg.Max() ==> h'.state.status.RetryScheduled? && h'.state.retryCount == k
                                   && h'.state.blockedUntil == Some(now + cfg.Delay()))
            && (k > cfg.Max() ==> h'.state.status.DisabledUntilSchedule?)
  {
  }

  /** The first answer of the storm. */
  lemma StormStart(cfg: Config, now: int)
    requires cfg.Max() > 0 ==> cfg.Delay() < cfg.Interval()
    ensures var h := Extend(History(FRESH, []), cfg, RunChecked(now, None, EXHAUSTED));
            && h.failures == [now] && h.state.windowEnd == Some(now + cfg.Interval())
            && (cfg.Max() > 0 ==> h.state.status.RetryScheduled? && h.state.retryCount == 1
                                  && h.state.blockedUntil == Some(now + cfg.Delay()))
            && (cfg.Max() == 0 ==> h.state.status.DisabledUntilSchedule?)
  {
  }

  /** The bound is exact: in a window longer than all the delays, the provider is asked
      `max_retries + 1` times and each answer is written. */
  lemma {:induction false} StormReachesTheBound(cfg: Config, start: int, n: nat)
    requires cfg.Interval() > cfg.Max() * cfg.Delay()
    requires 1 <= n <= cfg.Max() + 1
    ensures var h := Run(cfg, Storm(cfg, start, n));
            && |h.failures| == n && h.state.windowEnd == Some(start + cfg.Interval())
            && h.failures[n - 1] == RetryTime(cfg, start, n - 1)
            && (n <= cfg.Max() ==> h.state.status.RetryScheduled? && h.state.retryCount == n
                                   && h.state.blockedUntil == Some(RetryTime(cfg, start, n)))
            && (n == cfg.Max() + 1 ==> h.state.status.DisabledUntilSchedule?)
  {
    var before := Storm(cfg, start, n - 1);
    assert Storm(cfg, start, n)[..|before|] == before;
    RetryTimesAreInWindow(cfg, start, if n <= cfg.Max() then n else n - 1, cfg.Max());
    if n == 1 {
      StormStart(cfg, start);
    } else {
      StormReachesTheBound(cfg, start, n - 1);
      RetryTimesAreInWindow(cfg, start, n - 1, cfg.Max());
      StormStep(cfg, Run(cfg, before), RetryTime(cfg, start, n - 1), start + cfg.Interval());
    }
  }

  // ----- across clears ----------------------------------------------------------------------

  function Time(e: Event): Option<int> { if e.DueWritten? then None else Some(e.now) }

  function Later(clock: Option<int>, e: Event): Option<int> { if Time(e).Some? then Time(e) else clock }

  /** The time of the last event that has one. */
  function Clock(events: seq<Event>): Option<int> {
    if events == [] then None else Later(Clock(events[..|events| - 1]), events[|events| - 1])
  }

  /** The clock never runs backwards. */
  ghost predicate Forward(events: seq<Event>) {
    forall i, j :: 0 <= i < j < |events| && Time(events[i]).Some? && Time(events[j]).Some? ==>
      Time(events[i]).value <= Time(events[j]).value
  }

  /** A written quota failure: when, what it blocks until, and the end of its window. */
  datatype QuotaFailure = QuotaFailure(at: int, until: int, window: int)

  function Or(x: Option<int>, otherwise: int): int { if x.Some? then x.value else otherwise }

  /** The failure that one event writes, if any. */
  function FailureOf(cfg: Config, s: State, e: Event): seq<QuotaFailure> {
    var o := Step(s, cfg, e);
    if o.recorded && !e.DueWritten?
    then [QuotaFailure(e.now, Or(o.state.blockedUntil, e.now), Or(o.state.windowEnd, e.now))] else []
  }

  /** All written failures of a history, whatever was cleared in between. */
  function Failures(cfg: Config, events: seq<Event>): seq<QuotaFailure> {
    if events == [] then []
    else
      var before := events[..|events| - 1];
      Failures(cfg, before) + FailureOf(cfg, Run(cfg, before).state, events[|events| - 1])
  }

  /** It blocks for the delay, or until its window ends if that comes first or no retry is left. */
  predicate WellBlocked(cfg: Config, f: QuotaFailure) {
    f.at < f.until <= f.window && (f.until == f.at + cfg.Delay() || f.until == f.window)
  }

  /** `clock` is at or after the end of the pause, or the pause is still stored. */
  predicate PauseKept(s: State, f: QuotaFailure, clock: Option<int>) {
    s.blockedUntil == Some(f.until) || (clock.Some? && clock.value >= f.until)
  }

  lemma {:induction false} ClockIsSome(events: seq<Event>)
    ensures Clock(events).Some? ==> exists i :: 0 <= i < |events| && Time(events[i]) == Clock(events)
  {
    if events != [] && Time(events[|events| - 1]).None? {
      var before := events[..|events| - 1];
      ClockIsSome(before);
      if Clock(before).Some? {
        var i :| 0 <= i < |before| && Time(before[i]) == Clock(before);
        assert events[i] == before[i];
      }
    } else if events != [] {
      assert Time(events[|events| - 1]) == Clock(events);
    }
  }

  /** One event later: nothing is written while the pause is stored, and it stays stored until it is over. */
  lemma PauseStep(cfg: Config, h: History, e: Event, f: QuotaFailure, clock: Option<int>)
    requires Consistent(h, cfg) && PauseKept(h.state, f, clock)
    requires Time(e).Some? && clock.Some? ==> clock.value <= e.now
    ensures var o := Step(h.state, cfg, e);
            && (o.recorded ==> Time(e).Some? && e.now >= f.until)
            && PauseKept(o.state, f, Later(clock, e))
  {
  }

  lemma RecordedIsWellBlocked(cfg: Config, h: History, e: Event)
    requires Consistent(h, cfg) && Step(h.state, cfg, e).recorded
    ensures var s := Step(h.state, cfg, e).state;
            Time(e).Some? && s.blockedUntil.Some? && s.windowEnd.Some?
            && WellBlocked(cfg, QuotaFailure(e.now, s.blockedUntil.value, s.windowEnd.value))
  {
    WrittenFailureBlocks(h, cfg, e);
  }

  /** What is written never overlaps, across windows and across clears. */
  ghost predicate NoOverlap(cfg: Config, fs: seq<QuotaFailure>) {
    && (forall i :: 0 <= i < |fs| ==> WellBlocked(cfg, fs[i]))
    && forall i, j :: 0 <= i < j < |fs| ==> fs[i].until <= fs[j].at
  }

  lemma NoOverlapNext(cfg: Config, fs: seq<QuotaFailure>, f: QuotaFailure)
    requires NoOverlap(cfg, fs) && WellBlocked(cfg, f) && (fs != [] ==> fs[|fs| - 1].until <= f.at)
    ensures NoOverlap(cfg, fs + [f])
  {
    if fs != [] {
      var last := fs[|fs| - 1];
      assert WellBlocked(cfg, last);
      assert forall i :: 0 <= i < |fs| - 1 ==> fs[i].until <= last.at;
    }
  }

  /** What an event adds, when the last failure before it still blocks or its pause is over. */
  lemma FailuresNext(cfg: Config, h: History, fs: seq<QuotaFailure>, e: Event, clock: Option<int>)
    requires Consistent(h, cfg) && NoOverlap(cfg, fs) && (fs != [] ==> PauseKept(h.state, fs[|fs| - 1], clock))
    requires Time(e).Some? && clock.Some? ==> clock.value <= e.now
    ensures var fs' := fs + FailureOf(cfg, h.state, e);
            && NoOverlap(cfg, fs')
            && (fs' != [] ==> PauseKept(Step(h.state, cfg, e).state, fs'[|fs'| - 1], Later(clock, e)))
  {
    if fs != [] {
      PauseStep(cfg, h, e, fs[|fs| - 1], clock);
    }
    if Step(h.state, cfg, e).recorded {
      RecordedIsWellBlocked(cfg, h, e);
      NoOverlapNext(cfg, fs, FailureOf(cfg, h.state, e)[0]);
    }
  }

  lemma ClockRunsForward(events: seq<Event>)
    requires Forward(events) && events != []
    ensures var e, clock := events[|events| - 1], Clock(events[..|events| - 1]);
            Time(e).Some? && clock.Some? ==> clock.value <= e.now
  {
    var before := events[..|events| - 1];
    ClockIsSome(before);
    if Clock(before).Some? {
      var i :| 0 <= i < |before| && Time(before[i]) == Clock(before);
      assert events[i] == before[i];
    }
  }

  /** Over any history with a clock that runs forward, whatever is cleared meanwhile, no quota failure is written
      before the pause of an earlier one is over. */
  lemma {:induction false} NoFailureDuringAPause(cfg: Config, events: seq<Event>)
    requires Forward(events)
    ensures NoOverlap(cfg, Failures(cfg, events))
    ensures var fs := Failures(cfg, events); fs != [] ==> PauseKept(Run(cfg, events).state, fs[|fs| - 1], Clock(events))
  {
    if events != [] {
      var before := events[..|events| - 1];
      assert Forward(before);
      NoFailureDuringAPause(cfg, before);
      EveryHistoryIsConsistent(cfg, before);
      ClockRunsForward(events);
      FailuresNext(cfg, Run(cfg, before), Failures(cfg, before), events[|events| - 1], Clock(before));
    }
  }

  /** So any two failures are at least a delay apart, unless the window of the earlier one was over by then. */
  lemma DelayedOrWindowOver(cfg: Config, events: seq<Event>, i: nat, j: nat)
    requires Forward(events) && i < j < |Failures(cfg, events)|
    ensures var f, g := Failures(cfg, events)[i], Failures(cfg, events)[j];
            f.until <= g.at && (f.at + cfg.Delay() <= g.at || f.window <= g.at)
  {
    NoFailureDuringAPause(cfg, events);
  }

  /** Told when a failure is written: a further one can be written less than a delay later exactly when the
      window it falls into ends less than a delay later. */
  lemma EarlyWindowExactly(cfg: Config, s: State, at: int)
    requires !Paused(s, at) && !Expired(s, at)
    ensures (exists g :: at <= g < at + cfg.Delay() && Step(AfterFailure(s, cfg, at), cfg, FailureNoted(g)).recorded)
            <==> Window(s, cfg, at) < at + cfg.Delay()
  {
    var t, w := AfterFailure(s, cfg, at), Window(s, cfg, at);
    if w < at + cfg.Delay() {
      var g := if w < at then at else w;
      assert Step(t, cfg, FailureNoted(g)).recorded;
    }
  }

  lemma HistoryNext(cfg: Config, before: seq<Event>, e: Event, events: seq<Event>)
    requires events == before + [e]
    ensures Run(cfg, events).state == Step(Run(cfg, before).state, cfg, e).state
    ensures Failures(cfg, events) == Failures(cfg, before) + FailureOf(cfg, Run(cfg, before).state, e)
  {
    assert events[..|events| - 1] == before && events[|events| - 1] == e;
  }

  lemma FirstEvent(cfg: Config, e: Event)
    ensures Run(cfg, [e]).state == Step(FRESH, cfg, e).state && Failures(cfg, [e]) == FailureOf(cfg, FRESH, e)
  {
    HistoryNext(cfg, [], e, [e]);
    assert Run(cfg, []) == History(FRESH, []) && Failures(cfg, []) == [];
  }

  lemma TwoEvents(cfg: Config, e: Event, f: Event, s1: State)
    requires Step(FRESH, cfg, e).state == s1
    ensures Run(cfg, [e, f]).state == Step(s1, cfg, f).state
    ensures Failures(cfg, [e, f]) == FailureOf(cfg, FRESH, e) + FailureOf(cfg, s1, f)
  {
    FirstEvent(cfg, e);
    HistoryNext(cfg, [e], f, [e, f]);
  }

  lemma ThreeEvents(cfg: Config, e: Event, f: Event, g: Event, s1: State, s2: State)
    requires Step(FRESH, cfg, e).state == s1 && Step(s1, cfg, f).state == s2
    ensures Failures(cfg, [e, f, g]) == FailureOf(cfg, FRESH, e) + FailureOf(cfg, s1, f) + FailureOf(cfg, s2, g)
  {
    TwoEvents(cfg, e, f, s1);
    HistoryNext(cfg, [e, f], g, [e, f, g]);
  }

  /** A scheduled run one second ahead: two failures one second apart, however long the delay. */
  lemma OneSecondApart(cfg: Config, t: int)
    requires cfg.Delay() > 1
    ensures var events := [DueWritten(Some(t + 1)), FailureNoted(t), FailureNoted(t + 1)];
            && Forward(events)
            && |Failures(cfg, events)| == 2
            && Failures(cfg, events)[0].at == t && Failures(cfg, events)[1].at == t + 1
  {
    var s1 := FRESH.(nextDue := Some(t + 1));
    ThreeEvents(cfg, DueWritten(Some(t + 1)), FailureNoted(t), FailureNoted(t + 1), s1, AfterFailure(s1, cfg, t));
  }

  // ----- interrupted writes -------------------------------------------------------------------

  /** One `set_run_state`. */
  datatype KeyWrite =
    | PutCount(count: nat)
    | PutUntil(until: Option<int>)
    | PutStatus(status: Status)
    | PutError(error: string)
    | PutDue(due: Option<int>)
    | PutWindow(window: Option<int>)

  function Put(s: State, w: KeyWrite): State {
    match w
    case PutCount(count) => s.(retryCount := count)
    case PutUntil(until) => s.(blockedUntil := until)
    case PutStatus(status) => s.(status := status)
    case PutError(error) => s.(lastError := error)
    case PutDue(due) => s.(nextDue := due)
    case PutWindow(window) => s.(windowEnd := window)
  }

  /** The stored state when the process dies after the first `n` writes. */
  function Torn(s: State, writes: seq<KeyWrite>, n: nat): State
    requires n <= |writes|
  {
    if n == 0 then s else Put(Torn(s, writes, n - 1), writes[n - 1])
  }

  /** The writes of `_clear_state`, in order. */
  const CLEAR_WRITES: seq<KeyWrite> :=
    [PutCount(0), PutUntil(None), PutStatus(Ready), PutError(""), PutWindow(None)]

  /** The writes of `_save_state`, in order. */
  function SaveWrites(t: State): seq<KeyWrite> {
    [PutCount(t.retryCount), PutUntil(t.blockedUntil), PutStatus(t.status), PutError(t.lastError), PutDue(t.nextDue)]
  }

  /** The writes of `_record_quota_failure` after its pause check: the window end first, if none is stored. */
  function FailureWrites(s: State, cfg: Config, now: int): seq<KeyWrite> {
    (if s.windowEnd.None? then [PutWindow(Some(Window(s, cfg, now)))] else []) + SaveWrites(AfterFailure(s, cfg, now))
  }

  /** Uninterrupted, the writes do what the entry points do. */
  lemma AllWrites(s: State, cfg: Config, now: int)
    requires !Paused(s, now)
    ensures Torn(s, CLEAR_WRITES, 5) == Cleared(s)
    ensures var ws := FailureWrites(s, cfg, now); Torn(s, ws, |ws|) == AfterFailure(s, cfg, now)
  {
    Five(s, CLEAR_WRITES);
    var t := AfterFailure(s, cfg, now);
    var ws := FailureWrites(s, cfg, now);
    if s.windowEnd.None? {
      assert ws[1..] == SaveWrites(t);
      Six(s, ws);
    } else {
      assert ws == SaveWrites(t);
      Five(s, ws);
    }
  }

  lemma Five(s: State, ws: seq<KeyWrite>)
    requires |ws| >= 5
    ensures Torn(s, ws, 1) == Put(s, ws[0]) && Torn(s, ws, 2) == Put(Torn(s, ws, 1), ws[1])
    ensures Torn(s, ws, 3) == Put(Torn(s, ws, 2), ws[2]) && Torn(s, ws, 4) == Put(Torn(s, ws, 3), ws[3])
    ensures Torn(s, ws, 5) == Put(Torn(s, ws, 4), ws[4])
  {
  }

  lemma Six(s: State, ws: seq<KeyWrite>)
    requires |ws| == 6
    ensures Torn(s, ws, 6) == Put(Torn(s, ws, 5), ws[5])
    ensures Torn(s, ws, 5) == Put(Put(Put(Put(Put(s, ws[0]), ws[1]), ws[2]), ws[3]), ws[4])
  {
    Five(s, ws);
  }

  /** A window end without a pause, which no complete call leaves. */
  predicate StaleWindow(s: State) { s.blockedUntil.None? && s.windowEnd.Some? }

  /** Whatever is stored, a failure at `now` leaves a pause that is running, exactly unless the stored window end
      has no pause with it and is over. */
  lemma PauseRunsExactly(s: State, cfg: Config, now: int)
    ensures Paused(RecordFailure(s, cfg, now).state, now) <==> !(StaleWindow(s) && s.windowEnd.value <= now)
  {
  }

  /** Which interruptions of `_clear_state` leave that: after the pause is emptied and before the window end is. */
  lemma TornClear(s: State, n: nat)
    requires n <= 5
    ensures StaleWindow(Torn(s, CLEAR_WRITES, n)) <==> s.windowEnd.Some? && (StaleWindow(s) || 2 <= n) && n <= 4
  {
    Five(s, CLEAR_WRITES);
    assert n == 0 || n == 1 || n == 2 || n == 3 || n == 4 || n == 5;
  }

  /** ... and which of `_record_quota_failure`, in every reachable state: between the window end and the pause. */
  lemma TornFailure(cfg: Config, events: seq<Event>, now: int, n: nat)
    requires var s := AfterPause(Run(cfg, events).state, now); !Paused(s, now) && n <= |FailureWrites(s, cfg, now)|
    ensures var s := AfterPause(Run(cfg, events).state, now);
            StaleWindow(Torn(s, FailureWrites(s, cfg, now), n)) <==> s.blockedUntil.None? && 1 <= n <= 2
  {
    EveryHistoryIsConsistent(cfg, events);
    ConsistentAfterPause(Run(cfg, events), cfg, now);
    var s := AfterPause(Run(cfg, events).state, now);
    var ws := FailureWrites(s, cfg, now);
    Five(s, ws);
    if |ws| == 6 {
      Six(s, ws);
    }
    assert n == 0 || n == 1 || n == 2 || n == 3 || n == 4 || n == 5 || n == 6;
  }

  /** A `_save_state` of its own, as after an unavailable provider, never leaves it. */
  lemma TornSave(s: State, t: State, n: nat)
    requires !StaleWindow(s) && t.blockedUntil.Some? && n <= 5
    ensures !StaleWindow(Torn(s, SaveWrites(t), n))
  {
    Five(s, SaveWrites(t));
    assert n == 0 || n == 1 || n == 2 || n == 3 || n == 4 || n == 5;
  }

  /** A reachable loss: the process dies while it writes its first failure, right after the window end; once that
      window is over, the next failure is written with a pause that is already over. */
  lemma TornWindowWrite(cfg: Config, now: int, later: int)
    requires later >= now + cfg.Interval()
    ensures var torn := Torn(Run(cfg, []).state, FailureWrites(Run(cfg, []).state, cfg, now), 1);
            var o := Step(torn, cfg, FailureNoted(later));
            o.recorded && !Paused(o.state, later)
  {
    var s := Run(cfg, []).state;
    assert FailureWrites(s, cfg, now)[0] == PutWindow(Some(now + cfg.Interval()));
    assert Torn(s, FailureWrites(s, cfg, now), 0) == s;
    PauseRunsExactly(Torn(s, FailureWrites(s, cfg, now), 1), cfg, later);
  }
}
