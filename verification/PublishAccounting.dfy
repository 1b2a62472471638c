/**
 What the outcome of a run adds up to, for every run: lemmas over the reports that
 `Publisher.PublishJobs` ties to its outcome by `Tally` and to the ledger by `Accounted`.
 The last part runs the code on two concrete inputs that mark the limits of the guarantees.
 */
module PublishAccounting {
  import opened Wrappers
  import opened PublicationProtocol
  import opened ChannelPublisher

  /** `remaining_publish_candidates`. */
  function RemainingCandidates(total: int, o: PublishOutcome): nat {
    var open := total - o.sent - o.skippedAlreadyPublished - o.skippedDuplicate - o.terminalSkips;
    if open < 0 then 0 else open
  }

  /** The number of reports with a verdict of the given kind. */
  function Count(reports: seq<Report>, p: Verdict -> bool): (n: nat)
    ensures n <= |reports|
  {
    if reports == [] then 0
    else Count(reports[..|reports| - 1], p) + if p(reports[|reports| - 1].verdict) then 1 else 0
  }

  predicate WasSent(v: Verdict) { v.Sent? }
  predicate WasPublished(v: Verdict) { v.OnLedger? || v.InOutbox? }
  predicate WasDuplicate(v: Verdict) { v.NearDuplicate? }
  predicate WasRejected(v: Verdict) { v.Rejected? }
  predicate WasFailed(v: Verdict) { v.Failed? }

  function WasRejectedFor(reason: string): Verdict -> bool { (v: Verdict) => v == Rejected(reason) }

  /** Every verdict is of exactly one of the five kinds. */
  lemma {:induction false} KindsPartition(reports: seq<Report>)
    ensures Count(reports, WasSent) + Count(reports, WasPublished) + Count(reports, WasDuplicate)
            + Count(reports, WasRejected) + Count(reports, WasFailed) == |reports|
  {
    if reports != [] {
      KindsPartition(reports[..|reports| - 1]);
    }
  }

  /** Each counter of the outcome counts the jobs with its verdict, and only those. */
  lemma {:induction false} CountersCount(jobs: seq<Job>, reports: seq<Report>)
    requires |reports| <= |jobs|
    ensures var o := Tally(jobs, reports);
            && o.sent == Count(reports, WasSent) == |o.delivered|
            && o.skippedAlreadyPublished == Count(reports, WasPublished)
            && o.skippedDuplicate == Count(reports, WasDuplicate)
            && o.terminalSkips == o.cardValidationRejections == Count(reports, WasRejected)
  {
    if reports != [] {
      var n := |reports| - 1;
      CountersCount(jobs, reports[..n]);
      CountersOfOne(Tally(jobs, reports[..n]), jobs[n], reports[n]);
    }
  }

  lemma CountersOfOne(o: PublishOutcome, job: Job, r: Report)
    ensures var p, v := Absorb(o, job, r), r.verdict;
            && p.sent == o.sent + (if WasSent(v) then 1 else 0)
            && |p.delivered| == |o.delivered| + (if WasSent(v) then 1 else 0)
            && p.skippedAlreadyPublished == o.skippedAlreadyPublished + (if WasPublished(v) then 1 else 0)
            && p.skippedDuplicate == o.skippedDuplicate + (if WasDuplicate(v) then 1 else 0)
            && p.terminalSkips == o.terminalSkips + (if WasRejected(v) then 1 else 0)
            && p.cardValidationRejections == o.cardValidationRejections + (if WasRejected(v) then 1 else 0)
  {
  }

  predicate OpensWindow(v: Verdict) { v.Failed? && KeepsWindowOpen(v.cause) }

  /** Each flag says that some job had a verdict of its kind. */
  lemma {:induction false} FlagsTell(jobs: seq<Job>, reports: seq<Report>)
    requires |reports| <= |jobs|
    ensures Tally(jobs, reports).targetUnusable <==> exists r :: r in reports && Stops(r.verdict)
    ensures Tally(jobs, reports).hadTransientFailure <==> exists r :: r in reports && OpensWindow(r.verdict)
  {
    if reports != [] {
      var n := |reports| - 1;
      FlagsTell(jobs, reports[..n]);
      assert forall r :: r in reports <==> r in reports[..n] || r == reports[n];
      FlagsOfOne(Tally(jobs, reports[..n]), jobs[n], reports[n]);
    }
  }

  lemma FlagsOfOne(o: PublishOutcome, job: Job, r: Report)
    ensures Absorb(o, job, r).targetUnusable <==> o.targetUnusable || Stops(r.verdict)
    ensures Absorb(o, job, r).hadTransientFailure <==> o.hadTransientFailure || OpensWindow(r.verdict)
  {
  }

  lemma {:induction false} ReasonsCount(jobs: seq<Job>, reports: seq<Report>, reason: string)
    requires |reports| <= |jobs|
    ensures ReasonCount(Tally(jobs, reports), reason) == Count(reports, WasRejectedFor(reason))
  {
    if reports != [] {
      ReasonsCount(jobs, reports[..|reports| - 1], reason);
    }
  }

  /** The sum of the counts in a map. */
  ghost function Total(m: map<string, nat>): nat
    decreases |m|
  {
    if m == map[] then 0
    else
      var k :| k in m;
      m[k] + Total(m - {k})
  }

  lemma {:induction false} TotalWithout(m: map<string, nat>, k: string)
    requires k in m
    ensures Total(m) == m[k] + Total(m - {k})
    decreases |m|
  {
    var j :| j in m && Total(m) == m[j] + Total(m - {j});
    if j != k {
      TotalWithout(m - {j}, k);
      TotalWithout(m - {k}, j);
      assert m - {j} - {k} == m - {k} - {j};
    }
  }

  lemma TotalBumped(m: map<string, nat>, k: string)
    ensures Total(m[k := (if k in m then m[k] else 0) + 1]) == Total(m) + 1
  {
    var m' := m[k := (if k in m then m[k] else 0) + 1];
    TotalWithout(m', k);
    if k in m {
      TotalWithout(m, k);
      assert m' - {k} == m - {k};
    } else {
      assert m' - {k} == m;
    }
  }

  /** The rejection reasons sum to the terminal skips. */
  lemma {:induction false} ReasonsSumToTerminalSkips(jobs: seq<Job>, reports: seq<Report>)
    requires |reports| <= |jobs|
    ensures Total(Tally(jobs, reports).terminalSkipReasons) == Tally(jobs, reports).terminalSkips
  {
    if reports != [] {
      var n := |reports| - 1;
      ReasonsSumToTerminalSkips(jobs, reports[..n]);
      var before := Tally(jobs, reports[..n]);
      if reports[n].verdict.Rejected? {
        TotalBumped(before.terminalSkipReasons, reports[n].verdict.reason);
      }
    }
  }

  /** What remains for a retry is what failed and what was not reached; the clamp never acts. */
  lemma {:induction false} RemainingIsFailedOrUnreached(jobs: seq<Job>, reports: seq<Report>)
    requires |reports| <= |jobs|
    ensures RemainingCandidates(|jobs|, Tally(jobs, reports))
            == |jobs| - |reports| + Count(reports, WasFailed)
  {
    CountersCount(jobs, reports);
    KindsPartition(reports);
  }

  /** The send limit is never exceeded. */
  lemma SendLimitKept(jobs: seq<Job>, reports: seq<Report>, l: Loaded, kind: StoreKind, same: (Job, Job) -> bool,
                      sendLimit: int)
    requires |reports| <= |jobs| && Accounted(jobs, reports, l, kind, same, sendLimit)
    ensures reports != [] ==> Tally(jobs, reports).sent <= sendLimit
  {
    if reports != [] {
      var n := |reports| - 1;
      assert Consulted(jobs, reports, n, l, kind, same);
      assert Tally(jobs, reports[..n]).sent < sendLimit;
    }
  }

  lemma {:induction false} InBasisOf(jobs: seq<Job>, reports: seq<Report>, i: nat)
    requires i < |reports| <= |jobs| && InBasis(reports[i].verdict)
    ensures jobs[i] in Basis(jobs, reports)
  {
    var n := |reports| - 1;
    if i < n {
      InBasisOf(jobs, reports[..n], i);
    }
  }

  /** No delivered job is the same vacancy as an earlier job of the batch that was delivered, or that the
      ledger knew as published. */
  lemma DeliveredAreNotNearDuplicates(jobs: seq<Job>, reports: seq<Report>, l: Loaded, kind: StoreKind,
                                      same: (Job, Job) -> bool, sendLimit: int, i: nat, j: nat)
    requires i < j < |reports| <= |jobs| && Accounted(jobs, reports, l, kind, same, sendLimit)
    requires reports[j].verdict.Sent? && InBasis(reports[i].verdict)
    ensures !same(jobs[j], jobs[i])
  {
    assert Consulted(jobs, reports, j, l, kind, same);
    InBasisOf(jobs, reports[..j], i);
  }

  lemma {:induction false} SentAreKnown(l: Loaded, jobs: seq<Job>, reports: seq<Report>, kind: StoreKind, i: nat)
    requires i < |reports| <= |jobs| && reports[i].verdict.Sent? && !kind.NoStore?
    ensures NameSet(jobs[i].id) <= Known(l, jobs, reports, kind).ids
    ensures NameSet(jobs[i].url) <= Known(l, jobs, reports, kind).urls
  {
    var n := |reports| - 1;
    if i < n {
      SentAreKnown(l, jobs, reports[..n], kind, i);
    }
  }

  /** Within one run on any store, even one without an outbox, no two delivered jobs share an identity. */
  lemma DeliveredShareNoIdentity(jobs: seq<Job>, reports: seq<Report>, l: Loaded, kind: StoreKind,
                                 same: (Job, Job) -> bool, sendLimit: int, i: nat, j: nat)
    requires i < j < |reports| <= |jobs| && Accounted(jobs, reports, l, kind, same, sendLimit)
    requires reports[i].verdict.Sent? && reports[j].verdict.Sent? && !kind.NoStore?
    ensures !SameVacancyIdentity(jobs[i], jobs[j])
  {
    assert Consulted(jobs, reports, j, l, kind, same);
    SentAreKnown(l, jobs, reports[..j], kind, i);
    assert jobs[i].id.Some? ==> jobs[i].id.value in NameSet(jobs[i].id);
    assert jobs[i].url.Some? ==> jobs[i].url.value in NameSet(jobs[i].url);
  }

  // ----- jobs that only the outbox knows --------------------------------------------------------

  /** Told before the run: the job is not on the ledgers, and the first of its identities that anybody holds is
      confirmed. */
  predicate OutboxOnly(l: Loaded, outbox: map<Key, Record>, target: string, job: Job) {
    !Published(job, l.ids, l.urls)
    && FirstHeld(outbox, Keys(target, job)).Some? && FirstHeld(outbox, Keys(target, job)).value.state.Delivered?
  }

  /** No earlier job has an identity of the i-th, so what the run learns meanwhile does not concern it. */
  lemma {:induction false} KnownApart(l: Loaded, jobs: seq<Job>, reports: seq<Report>, kind: StoreKind, target: string,
                                      i: nat)
    requires |reports| <= i < |jobs| && Apart(target, jobs, i)
    ensures Published(jobs[i], Known(l, jobs, reports, kind).ids, Known(l, jobs, reports, kind).urls)
            <==> Published(jobs[i], l.ids, l.urls)
  {
    if reports != [] {
      var n := |reports| - 1;
      KnownApart(l, jobs, reports[..n], kind, target, i);
      SharedKey(target, jobs[n], jobs[i]);
    }
  }

  /** In an undisturbed run a job is skipped as published by the outbox exactly when that can be told before the
      run and no earlier delivered or ledger-known job is the same vacancy. */
  lemma {:induction false} InOutboxExactly(jobs: seq<Job>, reports: seq<Report>, l: Loaded, kind: StoreKind,
                                           same: (Job, Job) -> bool, sendLimit: int, outbox: map<Key, Record>,
                                           target: string, sender: nat -> SendEvent, attempts: int, i: nat)
    requires i < |reports| <= |jobs| && Accounted(jobs, reports, l, kind, same, sendLimit)
    requires AllQuietlyDecided(reports, outbox, target, jobs, kind, sender, attempts) && Apart(target, jobs, i)
    ensures reports[i].verdict.InOutbox? <==>
              OutboxOnly(l, outbox, target, jobs[i]) && !exists b :: b in Basis(jobs, reports[..i]) && same(jobs[i], b)
  {
    assert Consulted(jobs, reports, i, l, kind, same);
    KnownApart(l, jobs, reports[..i], kind, target, i);
    if Looked(reports[i].verdict) {
      InOutboxByRecord(reports[i].verdict, outbox, Keys(target, jobs[i]), kind, sender, attempts);
    }
  }

  lemma {:induction false} InOutboxByRecord(v: Verdict, outbox: map<Key, Record>, keys: seq<Key>, kind: StoreKind,
                                            sender: nat -> SendEvent, attempts: int)
    requires QuietlyDecided(v, outbox, keys, kind, sender, attempts)
    ensures v.InOutbox? <==> FirstHeld(outbox, keys).Some? && FirstHeld(outbox, keys).value.state.Delivered?
  {
    var n: nat :| v == QuietVerdict(outbox, keys, kind, sender, n, attempts);
    assert !Planned(kind, Ending(sender, n, attempts)).InOutbox?;
  }

  /** The `i`-th job counts as already published. */
  predicate PublishedBefore(reports: seq<Report>, i: nat)
    requires i < |reports|
  {
    WasPublished(reports[i].verdict)
  }

  /** A delivered job is the same vacancy as an earlier already published one exactly when that one was known to
      the outbox only and was not itself skipped as a near-duplicate: for any relation `same`. */
  lemma {:induction false} NearDuplicateSentExactly(
    jobs: seq<Job>, reports: seq<Report>, l: Loaded, kind: StoreKind, same: (Job, Job) -> bool, sendLimit: int,
    outbox: map<Key, Record>, target: string, sender: nat -> SendEvent, attempts: int, i: nat, j: nat)
    requires i < j < |reports| <= |jobs| && Accounted(jobs, reports, l, kind, same, sendLimit)
    requires AllQuietlyDecided(reports, outbox, target, jobs, kind, sender, attempts) && Apart(target, jobs, i)
    requires reports[j].verdict.Sent?
    ensures PublishedBefore(reports, i) && same(jobs[j], jobs[i]) <==>
              && OutboxOnly(l, outbox, target, jobs[i]) && same(jobs[j], jobs[i])
              && !exists b :: b in Basis(jobs, reports[..i]) && same(jobs[i], b)
  {
    InOutboxExactly(jobs, reports, l, kind, same, sendLimit, outbox, target, sender, attempts, i);
    if reports[i].verdict.OnLedger? && same(jobs[j], jobs[i]) {
      DeliveredAreNotNearDuplicates(jobs, reports, l, kind, same, sendLimit, i, j);
    }
  }

  /** Every send arrives with a usable receipt. */
  ghost predicate AlwaysArrives(sender: nat -> SendEvent) {
    forall n :: sender(n).Receipted? && Confirmable(sender(n).receipt.message)
  }

  /** The condition is met by ordinary batches: of two jobs without a common identity, the first known to the
      outbox only and the second to nobody, the second is always sent, so the promise that no delivered job is the
      same vacancy as an earlier published one holds exactly for relations that tell them apart. */
  lemma {:induction false} PairExactly(jobs: seq<Job>, reports: seq<Report>, l: Loaded, canRelease: bool,
                                       same: (Job, Job) -> bool, sendLimit: int, outbox: map<Key, Record>,
                                       target: string, sender: nat -> SendEvent, attempts: int)
    requires |jobs| == 2 && |reports| <= 2 && Apart(target, jobs, 0) && Apart(target, jobs, 1)
    requires Accounted(jobs, reports, l, Outbox(canRelease, true), same, sendLimit)
    requires StopsInTime(jobs, reports, Tally(jobs, reports).sent, sendLimit)
    requires AllQuietlyDecided(reports, outbox, target, jobs, Outbox(canRelease, true), sender, attempts)
    requires AlwaysArrives(sender) && attempts >= 1 && sendLimit >= 1
    requires OutboxOnly(l, outbox, target, jobs[0])
    requires !Published(jobs[1], l.ids, l.urls) && FirstHeld(outbox, Keys(target, jobs[1])) == None
    ensures |reports| == 2 && reports[0].verdict == InOutbox && reports[1].verdict.Sent?
    ensures (forall i, j :: 0 <= i < j < 2 && reports[j].verdict.Sent? && PublishedBefore(reports, i)
               ==> !same(jobs[j], jobs[i]))
            <==> !same(jobs[1], jobs[0])
  {
    var kind := Outbox(canRelease, true);
    CountersCount(jobs, reports);
    assert |reports| > 0;
    assert reports[..0] == [] && Basis(jobs, reports[..0]) == [];
    InOutboxExactly(jobs, reports, l, kind, same, sendLimit, outbox, target, sender, attempts, 0);
    if |reports| == 1 {
      NoneSentYet(jobs, reports);
    }
    assert reports[..1] == [reports[0]] && [reports[0]][..0] == [];
    assert Consulted(jobs, reports, 1, l, kind, same);
    assert Basis(jobs, reports[..1]) == [];
    KnownApart(l, jobs, reports[..1], kind, target, 1);
    assert Looked(reports[1].verdict);
    var n: nat :| reports[1].verdict == QuietVerdict(outbox, Keys(target, jobs[1]), kind, sender, n, attempts);
    ArrivesAtOnce(sender, n, attempts);
  }

  lemma {:induction false} NoneSentYet(jobs: seq<Job>, reports: seq<Report>)
    requires |reports| == 1 <= |jobs| && reports[0].verdict.InOutbox?
    ensures Tally(jobs, reports).sent == 0
  {
    assert reports[..0] == [];
  }

  lemma {:induction false} ArrivesAtOnce(sender: nat -> SendEvent, n: nat, attempts: int)
    requires AlwaysArrives(sender) && attempts >= 1
    ensures LastEvent(sender, n, attempts) == sender(n) && sender(n).Receipted?
              && Confirmable(sender(n).receipt.message)
  {
  }

  // ----- two limits, on concrete runs -------------------------------------------------------

  const NOBODY: nat -> seq<Action> := n => []
  const GOOD_RECEIPT := Receipt("chat", Number(1), 0)
  const OBLIGING: nat -> SendEvent := n => Receipted(GOOD_RECEIPT)

  /** With `transient_attempts < 1` the send loop never runs, and the reservations are left behind: the
      card was never sent, nothing is at the target, and no later run will send it. */
  method LeakWithoutAttempts(id: Name, attempts: int) returns (w: World, first: Report, second: Report)
    requires attempts < 1
    ensures first.verdict == Failed(NothingTried) && first.attempt.Some?
    ensures first.attempt.value in w.tickets && !w.tickets[first.attempt.value].exposed
    ensures Holds(w, first.attempt.value, Intent("t", ById, id))
    ensures second.verdict == InOutbox || second.verdict == Failed(HeldElsewhere)
  {
    var p := new Publisher(EMPTY_STORE, [], NOBODY, OBLIGING);
    var job := Job(Some(id), None, 0);
    var key := Intent("t", ById, id);
    assert Keys("t", job) == [key];
    assert FirstHeld(p.world.outbox, [key]) == None;
    first := p.PublishOne(job, "t", attempts, Outbox(true, true));
    w := p.world;
    assert Holds(w, first.attempt.value, key);
    assert FirstHeld(w.outbox, [key]) == Some(w.outbox[key]);
    second := p.PublishOne(job, "t", 2, Outbox(true, true));
  }

  /** On a store that cannot release, a rejected card keeps its identities reserved. */
  method LeakWithoutRelease(id: Name, reason: string) returns (w: World, report: Report)
    ensures report.verdict == Rejected(reason) && SomethingReserved(w, report)
  {
    var p := new Publisher(EMPTY_STORE, [], NOBODY, n => CardRejected(reason));
    var job := Job(Some(id), None, 0);
    assert Keys("t", job) == [Intent("t", ById, id)];
    assert FirstHeld(p.world.outbox, [Intent("t", ById, id)]) == None;
    report := p.PublishOne(job, "t", 1, Outbox(false, true));
    w := p.world;
  }

  /** The steps of a publisher that delivers a card and dies before it writes the ledger. */
  function DeliveredWithoutLedger(job: Job, id: Name): seq<Action> {
    [Begin(0, "t", job), Reserve(0, Intent("t", ById, id)), Transmit(0, true, false),
     Confirm(0, Record(Intent("t", ById, id), Claim(0, Some(id), "t", None), Uncertain), GOOD_RECEIPT), Abandon(0)]
  }

  lemma AfterReserving(job: Job, id: Name)
    requires job == Job(Some(id), None, 0)
    ensures var key := Intent("t", ById, id);
            Run(EMPTY_STORE, DeliveredWithoutLedger(job, id)[..2])
            == World(map[key := Record(key, Claim(0, Some(id), "t", None), Uncertain)],
                     map[0 := Ticket("t", job, Active, false)], [], map[], [], [], [])
  {
    var acts := DeliveredWithoutLedger(job, id);
    assert Keys("t", job) == [Intent("t", ById, id)];
    assert acts[..2][..1] == acts[..1] && acts[..1][..0] == [];
    assert Run(EMPTY_STORE, acts[..1][..0]) == EMPTY_STORE && acts[..1][0] == acts[0];
    assert Run(EMPTY_STORE, acts[..1]) == Effect(EMPTY_STORE, acts[0]);
  }

  lemma AfterDeliveredWithoutLedger(job: Job, id: Name)
    requires job == Job(Some(id), None, 0)
    ensures var w := Run(EMPTY_STORE, DeliveredWithoutLedger(job, id));
            && w.outbox.Keys == {Intent("t", ById, id)}
            && w.outbox[Intent("t", ById, id)].state.Delivered?
            && w.targetIds == map[] && w.sentIds == [] && w.sentUrls == []
  {
    var acts := DeliveredWithoutLedger(job, id);
    assert Keys("t", job) == [Intent("t", ById, id)];
    assert acts[..5] == acts && acts[..5][..4] == acts[..4];
    assert acts[..4][..3] == acts[..3] && acts[..3][..2] == acts[..2];
    AfterReserving(job, id);
    var w2 := Run(EMPTY_STORE, acts[..2]);
    var w3 := Run(EMPTY_STORE, acts[..3]);
    assert w3 == Effect(w2, acts[2]);
    var w4 := Run(EMPTY_STORE, acts[..4]);
    assert w4 == Effect(w3, acts[3]);
  }

  /** A job that only the outbox knows as delivered is counted as already published, but later jobs of the
      batch are not compared with it: its near-duplicate `y` is sent. */
  method NearDuplicateOfOutboxDelivery(x: Name, y: Name)
    returns (jobs: seq<Job>, same: (Job, Job) -> bool, reports: seq<Report>)
    requires x != y
    ensures |jobs| == |reports| == 2 && same(jobs[1], jobs[0])
    ensures reports[0].verdict == InOutbox && reports[1].verdict.Sent?
  {
    var first := Job(Some(x), None, 0);
    jobs := [first, Job(Some(y), None, 0)];
    same := (a, b) => true;
    AfterDeliveredWithoutLedger(first, x);
    var p := new Publisher(EMPTY_STORE, DeliveredWithoutLedger(first, x), NOBODY, OBLIGING);
    ghost var outbox := p.world.outbox;
    var loaded: Loaded;
    reports, loaded := p.PublishJobs(jobs, "t", 10, false, 2, Outbox(true, true), same);
    assert loaded.ids == {} && loaded.urls == {};
    var keys := [Intent("t", ById, x)];
    assert Keys("t", first) == keys && FirstHeld(outbox, keys) == Some(outbox[keys[0]]);
    assert Keys("t", jobs[1]) == [Intent("t", ById, y)] && FirstHeld(outbox, [Intent("t", ById, y)]) == None;
    PairExactly(jobs, reports, loaded, true, same, 10, outbox, "t", OBLIGING, 2);
  }
}
