/**
 Chains of sessions on one results file (scripts/run_ingest_batch.py, `main`): each starts from what the
 file holds, on its own selection and options, is killed or ends after any number of results, and leaves its
 last checkpoint.
 */
module IngestSessions {
  import opened Wrappers
  import opened Ordering
  import opened IngestResume
  import opened IngestBatch

  /** One session and the results it recorded until it ended. */
  datatype Session = Session(urls: seq<Url>, resume: bool, retryFailures: bool, watchdog: real, log: seq<Logged>)

  function Start(file: Option<SavedFile>, s: Session): Result<Plan> {
    MakePlan(s.urls, if s.resume then file else None, s.retryFailures)
  }

  /** What a session can have recorded, as `IngestBatch.ProbeBatch` promises of every run. */
  ghost predicate Possible(file: Option<SavedFile>, s: Session) {
    Start(file, s).Success? ==> RunLog(Start(file, s).value, s.log, s.watchdog)
  }

  /** The file when the session is over: its last checkpoint, if it got to one. */
  function FileAfter(file: Option<SavedFile>, s: Session): Option<SavedFile> {
    var start := Start(file, s);
    if start.Failure? || s.log == [] then file
    else Some(ToFile(Checkpoint(After(start.value.results, s.log), start.value.order, s.urls)))
  }

  function FileAfterAll(file: Option<SavedFile>, sessions: seq<Session>): Option<SavedFile>
    decreases |sessions|
  {
    if sessions == [] then file else FileAfterAll(FileAfter(file, sessions[0]), sessions[1..])
  }

  ghost predicate AllPossible(file: Option<SavedFile>, sessions: seq<Session>)
    decreases |sessions|
  {
    sessions == [] || (Possible(file, sessions[0]) && AllPossible(FileAfter(file, sessions[0]), sessions[1..]))
  }

  /** The results and the URLs of a file. */
  function ResultsIn(file: Option<SavedFile>): Results {
    if file.Some? && file.value.Entries? then Indexed(file.value.entries) else map[]
  }

  function UrlsIn(file: Option<SavedFile>): seq<Url> {
    if file.Some? && file.value.Entries? then Listed(file.value.entries) else []
  }

  /** The file is the checkpoint saved after the last result. */
  lemma FileIsLastSave(file: Option<SavedFile>, s: Session)
    requires Start(file, s).Success? && s.log != []
    ensures FileAfter(file, s) == Some(ToFile(SavedAlong(Start(file, s).value, s.urls, s.log)[|s.log| - 1]))
  {
    NthCheckpoint(Start(file, s).value, s.urls, s.log, |s.log| - 1);
    assert s.log[..|s.log|] == s.log;
  }

  /** What the file holds after a session: the results at its end, under the URLs of its checkpoint. */
  lemma AfterSession(file: Option<SavedFile>, s: Session)
    requires Possible(file, s) && Start(file, s).Success? && s.log != []
    ensures var plan := Start(file, s).value;
            var results := After(plan.results, s.log);
            && ResultsIn(FileAfter(file, s)) == results
            && UrlsIn(FileAfter(file, s)) == CheckpointUrls(results, plan.order, s.urls)
            && Filed(results, plan.order, s.urls)
  {
    var plan := Start(file, s).value;
    PlanIsFiled(s.urls, if s.resume then file else None, s.retryFailures);
    assert s.log[..|s.log|] == s.log;
    RecordedAreSelected(plan.pending, s.log, s.watchdog, |s.log|, s.urls);
    AfterFiled(plan, s.urls, s.log);
    CheckpointRoundTrip(After(plan.results, s.log), plan.order, s.urls);
  }

  // ----- duplicates -------------------------------------------------------------------------------

  /** The saved URLs that a session starts from. */
  function Loaded(file: Option<SavedFile>, s: Session): seq<Url> { if s.resume then UrlsIn(file) else [] }

  lemma {:induction false} FilterTwice<T>(xs: seq<T>, p: T -> bool, q: T -> bool, r: T -> bool)
    requires forall x :: x in xs ==> (r(x) <==> p(x) && q(x))
    ensures Filter(Filter(xs, p), q) == Filter(xs, r)
  {
    if xs != [] {
      FilterTwice(xs[1..], p, q, r);
    }
  }

  lemma {:induction false} AfterKeeps(initial: Results, log: seq<Logged>)
    ensures initial.Keys <= After(initial, log).Keys
  {
    if log != [] {
      AfterKeeps(initial, log[..|log| - 1]);
    }
  }

  /** The unselected URLs of a checkpoint are those of the file the session started from. */
  lemma UnselectedKept(file: Option<SavedFile>, s: Session)
    requires Start(file, s).Success?
    ensures var plan := Start(file, s).value;
            var results := After(plan.results, s.log);
            Filter(plan.order, u => u in results && u !in s.urls) == Filter(Loaded(file, s), u => u !in s.urls)
  {
    var plan := Start(file, s).value;
    var results := After(plan.results, s.log);
    var urls := s.urls;
    AfterKeeps(plan.results, s.log);
    if s.resume && file.Some? {
      var entries := file.value.entries;
      ListedAreIndexed(entries);
      if s.retryFailures {
        FilterTwice(Listed(entries), u => u in plan.results, u => u in results && u !in urls, u => u !in urls);
      } else {
        FilterTwice(Listed(entries), u => u !in urls, u => u in results && u !in urls, u => u !in urls);
        FilterTwice(Listed(entries), u => u in results, u => u !in urls, u => u in results && u !in urls);
        FilterAll(Listed(entries), u => u in results);
      }
    }
  }

  lemma {:induction false} ListedAreIndexed(entries: seq<Entry>)
    ensures forall u :: u in Listed(entries) ==> u in Indexed(entries)
  {
    if entries != [] {
      ListedAreIndexed(entries[..|entries| - 1]);
    }
  }

  /** Exactly when the file a session leaves lists no URL twice: no URL with a result is selected twice, and
      no unselected one was listed twice before. After a complete session that is a condition on the
      selection and the old file alone. */
  lemma DuplicatesExactly(file: Option<SavedFile>, s: Session)
    requires Possible(file, s) && Start(file, s).Success? && s.log != []
    ensures var results := ResultsIn(FileAfter(file, s));
            && (Distinct(UrlsIn(FileAfter(file, s))) <==>
                  Distinct(Filter(Loaded(file, s), u => u !in s.urls)) && Distinct(Filter(s.urls, u => u in results)))
            && ((forall u :: u in s.urls ==> u in results) ==>
                  (Distinct(UrlsIn(FileAfter(file, s))) <==>
                     Distinct(Filter(Loaded(file, s), u => u !in s.urls)) && Distinct(s.urls)))
  {
    var plan := Start(file, s).value;
    var results := After(plan.results, s.log);
    AfterSession(file, s);
    CheckpointDuplicates(results, plan.order, s.urls);
    UnselectedKept(file, s);
    if forall u :: u in s.urls ==> u in results {
      FilterAll(s.urls, u => u in results);
    }
  }

  /** Over any chain of sessions on selections without duplicates, the file never lists a URL twice. */
  lemma {:induction false} NeverListedTwice(file: Option<SavedFile>, sessions: seq<Session>)
    requires AllPossible(file, sessions) && Distinct(UrlsIn(file))
    requires forall s :: s in sessions ==> Distinct(s.urls)
    ensures Distinct(UrlsIn(FileAfterAll(file, sessions)))
    decreases |sessions|
  {
    if sessions != [] {
      var s := sessions[0];
      assert s in sessions;
      if Start(file, s).Success? && s.log != [] {
        DuplicatesExactly(file, s);
        var results := ResultsIn(FileAfter(file, s));
        FilterDistinct(Loaded(file, s), u => u !in s.urls);
        FilterDistinct(s.urls, u => u in results);
      }
      NeverListedTwice(FileAfter(file, s), sessions[1..]);
    }
  }

  // ----- what is kept -----------------------------------------------------------------------------

  /** A session that resumes keeps a result unless it retries failures and selects it as one. */
  predicate Keeps(s: Session, r: ProbeResult) {
    s.resume && (s.retryFailures && r.url in s.urls ==> r.status.ParsedOk?)
  }

  lemma {:induction false} AfterWithout(initial: Results, log: seq<Logged>, u: Url)
    requires u in initial && forall e :: e in log ==> e.result.url != u
    ensures u in After(initial, log) && After(initial, log)[u] == initial[u]
  {
    if log != [] {
      var before, last := log[..|log| - 1], log[|log| - 1];
      assert log == before + [last] && last in log;
      assert forall e :: e in before ==> e in log;
      AfterWithout(initial, before, u);
    }
  }

  /** A session starts with a saved result exactly when it keeps it, and then never probes its URL. */
  lemma StartsWith(file: Option<SavedFile>, s: Session, r: ProbeResult)
    requires Possible(file, s) && Start(file, s).Success?
    requires r.url in ResultsIn(file) && ResultsIn(file)[r.url] == r
    ensures r.url in Start(file, s).value.results <==> Keeps(s, r)
    ensures Keeps(s, r) ==> Start(file, s).value.results[r.url] == r && forall e :: e in s.log ==> e.result.url != r.url
  {
    var plan := Start(file, s).value;
    PlanIsFiled(s.urls, if s.resume then file else None, s.retryFailures);
    forall e | e in s.log && Keeps(s, r)
      ensures e.result.url != r.url
    {
      assert plan.pending[e.position] in plan.pending;
    }
  }

  /** Exactly what becomes of a saved result: kept, or gone until its URL is probed again. */
  lemma KeptExactly(file: Option<SavedFile>, s: Session, r: ProbeResult)
    requires Possible(file, s) && Start(file, s).Success? && s.log != []
    requires r.url in ResultsIn(file) && ResultsIn(file)[r.url] == r
    ensures var after := ResultsIn(FileAfter(file, s));
            if Keeps(s, r) then r.url in after && after[r.url] == r
            else r.url in after <==> exists e :: e in s.log && e.result.url == r.url
  {
    var plan := Start(file, s).value;
    AfterSession(file, s);
    StartsWith(file, s, r);
    if Keeps(s, r) {
      AfterWithout(plan.results, s.log, r.url);
    } else {
      AfterKeys(plan.results, s.log);
    }
  }

  /** A result stays in the file over every chain of sessions that keep it. */
  lemma {:induction false} RecordedForGood(file: Option<SavedFile>, sessions: seq<Session>, r: ProbeResult)
    requires AllPossible(file, sessions) && r.url in ResultsIn(file) && ResultsIn(file)[r.url] == r
    requires forall s :: s in sessions ==> Keeps(s, r)
    ensures var after := ResultsIn(FileAfterAll(file, sessions)); r.url in after && after[r.url] == r
    decreases |sessions|
  {
    if sessions != [] {
      var s := sessions[0];
      assert s in sessions;
      if Start(file, s).Success? && s.log != [] {
        KeptExactly(file, s, r);
      }
      RecordedForGood(FileAfter(file, s), sessions[1..], r);
    }
  }

  /** No URL is probed twice over a chain of resumed sessions: what one session recorded, none after it
      records again unless it retries failures. */
  lemma ProbedOnce(file: Option<SavedFile>, first: Session, between: seq<Session>, last: Session, e: Logged, f: Logged)
    requires Possible(file, first) && AllPossible(FileAfter(file, first), between)
    requires Possible(FileAfterAll(FileAfter(file, first), between), last)
    requires Start(file, first).Success? && Start(FileAfterAll(FileAfter(file, first), between), last).Success?
    requires e in first.log && f in last.log
    requires forall s :: s in between + [last] ==> s.resume && !s.retryFailures
    ensures e.result.url != f.result.url
  {
    var saved := FileAfter(file, first);
    var plan, u := Start(file, first).value, e.result.url;
    AfterSession(file, first);
    AfterKeys(plan.results, first.log);
    var r := ResultsIn(saved)[u];
    assert r.url == u;
    assert last in between + [last];
    forall s | s in between
      ensures Keeps(s, r)
    {
      assert s in between + [last];
    }
    RecordedForGood(saved, between, r);
    StartsWith(FileAfterAll(saved, between), last, r);
  }
}
