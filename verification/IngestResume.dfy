/**
 Checkpoints and resume of the batch probe (scripts/run_ingest_batch.py): what `--resume` and
 `--retry-failures` make of a saved file, and what a checkpoint lists.
 */
module IngestResume {
  import opened Wrappers
  import opened Ordering

  type Url = string

  datatype ParseStatus = ParsedOk | ParsedPartial | ParsedFailed

  datatype Origin = Probed | WatchdogExpired | BudgetExhausted

  datatype ProbeResult = ProbeResult(url: Url, status: ParseStatus, origin: Origin)

  /** One element of the saved JSON list: a result, or something without a string `url`. */
  datatype Entry = Saved(result: ProbeResult) | Junk

  datatype SavedFile = NotAList | Entries(entries: seq<Entry>)

  type Results = map<Url, ProbeResult>

  // ----- loading ----------------------------------------------------------------------------

  /** The dictionary comprehension of `_load_resume_results`: a later entry for a URL wins. */
  function Indexed(entries: seq<Entry>): Results {
    if entries == [] then map[]
    else
      var before := Indexed(entries[..|entries| - 1]);
      match entries[|entries| - 1]
      case Saved(r) => before[r.url := r]
      case Junk => before
  }

  function Listed(entries: seq<Entry>): seq<Url> {
    if entries == [] then []
    else
      var before := Listed(entries[..|entries| - 1]);
      match entries[|entries| - 1]
      case Saved(r) => before + [r.url]
      case Junk => before
  }

  function Filter<T>(xs: seq<T>, p: T -> bool): (ys: seq<T>)
    ensures |ys| <= |xs|
  {
    if xs == [] then []
    else if p(xs[0]) then [xs[0]] + Filter(xs[1..], p)
    else Filter(xs[1..], p)
  }

  /** What a run starts from: the results it keeps, the order they were saved in, the URLs to probe. */
  datatype Plan = Plan(results: Results, order: seq<Url>, pending: seq<Url>)

  function Missing(urls: seq<Url>, results: Results): seq<Url> {
    Filter(urls, u => u !in results)
  }

  /** `file` is `None` without `--resume` or without a file to resume from. */
  function MakePlan(urls: seq<Url>, file: Option<SavedFile>, retryFailures: bool): Result<Plan> {
    match file
    case None => Success(Plan(map[], [], urls))
    case Some(NotAList) => Failure("--out-json must contain a JSON list to use --resume")
    case Some(Entries(entries)) =>
      var loaded, order := Indexed(entries), Listed(entries);
      if !retryFailures then Success(Plan(loaded, order, Missing(urls, loaded)))
      else
        var kept := map u | u in loaded && (u !in urls || loaded[u].status.ParsedOk?) :: loaded[u];
        Success(Plan(kept, Filter(order, u => u in kept), Missing(urls, kept)))
  }

  // ----- saving -----------------------------------------------------------------------------

  function Look(urls: seq<Url>, results: Results): seq<ProbeResult>
    requires forall u :: u in urls ==> u in results
  {
    seq(|urls|, i requires 0 <= i < |urls| => results[urls[i]])
  }

  /** The URLs a checkpoint lists: saved ones outside the selection in their old order, then the selected
      ones that have a result, in input order. */
  function CheckpointUrls(results: Results, order: seq<Url>, urls: seq<Url>): seq<Url> {
    Filter(order, u => u in results && u !in urls) + Filter(urls, u => u in results)
  }

  /** `_ordered_results`. */
  function Checkpoint(results: Results, order: seq<Url>, urls: seq<Url>): seq<ProbeResult> {
    FilterMembers(order, u => u in results && u !in urls);
    FilterMembers(urls, u => u in results);
    Look(CheckpointUrls(results, order, urls), results)
  }

  function ToFile(saved: seq<ProbeResult>): SavedFile {
    Entries(seq(|saved|, i requires 0 <= i < |saved| => Saved(saved[i])))
  }

  // ----- filters ----------------------------------------------------------------------------

  lemma {:induction false} FilterMembers<T>(xs: seq<T>, p: T -> bool)
    ensures forall x :: x in Filter(xs, p) <==> x in xs && p(x)
  {
    if xs != [] {
      FilterMembers(xs[1..], p);
      assert xs == [xs[0]] + xs[1..];
    }
  }

  lemma {:induction false} FilterDistinct<T>(xs: seq<T>, p: T -> bool)
    requires Distinct(xs)
    ensures Distinct(Filter(xs, p))
  {
    if xs != [] {
      var rest := xs[1..];
      assert forall i, j :: 0 <= i < j < |rest| ==> rest[i] == xs[i + 1] && rest[j] == xs[j + 1];
      FilterDistinct(rest, p);
      FilterMembers(rest, p);
      assert xs[0] !in rest;
    }
  }

  lemma {:induction false} FilterAll<T>(xs: seq<T>, p: T -> bool)
    requires forall x :: x in xs ==> p(x)
    ensures Filter(xs, p) == xs
  {
    if xs != [] {
      FilterAll(xs[1..], p);
      assert xs == [xs[0]] + xs[1..];
    }
  }

  lemma ConcatDistinct<T>(xs: seq<T>, ys: seq<T>)
    requires forall x :: x in xs ==> x !in ys
    ensures Distinct(xs + ys) <==> Distinct(xs) && Distinct(ys)
  {
    var zs := xs + ys;
    if Distinct(zs) {
      forall i, j | 0 <= i < j < |xs|
        ensures xs[i] != xs[j]
      {
        assert zs[i] == xs[i] && zs[j] == xs[j];
      }
      forall i, j | 0 <= i < j < |ys|
        ensures ys[i] != ys[j]
      {
        assert zs[|xs| + i] == ys[i] && zs[|xs| + j] == ys[j];
      }
    }
    if Distinct(xs) && Distinct(ys) {
      forall i, j | 0 <= i < j < |zs|
        ensures zs[i] != zs[j]
      {
        if i < |xs| <= j {
          assert zs[i] in xs && zs[j] == ys[j - |xs|] && zs[j] in ys;
        }
      }
    }
  }

  // ----- what a checkpoint is ---------------------------------------------------------------

  /** Every result is filed under its own URL, and every URL was either saved before or selected. */
  predicate Filed(results: Results, order: seq<Url>, urls: seq<Url>) {
    forall u :: u in results ==> results[u].url == u && (u in order || u in urls)
  }

  /** A checkpoint lists exactly the recorded results. */
  lemma CheckpointIsExact(results: Results, order: seq<Url>, urls: seq<Url>)
    requires Filed(results, order, urls)
    ensures var c := Checkpoint(results, order, urls);
            && (forall r :: r in c <==> r.url in results && results[r.url] == r)
            && (forall u :: u in results ==> results[u] in c)
  {
    var us := CheckpointUrls(results, order, urls);
    var c := Checkpoint(results, order, urls);
    FilterMembers(order, u => u in results && u !in urls);
    FilterMembers(urls, u => u in results);
    forall u | u in results
      ensures u in us && results[u] in c
    {
      assert u in us;
      var i :| 0 <= i < |us| && us[i] == u;
      assert c[i] == results[u];
    }
    forall r | r in c
      ensures r.url in results && results[r.url] == r
    {
      var i :| 0 <= i < |c| && c[i] == r;
      assert us[i] in us;
      assert r == results[us[i]];
    }
  }

  /** A checkpoint lists no URL twice exactly when no saved URL outside the selection and no selected URL
      occurs twice among those it lists. */
  lemma CheckpointDuplicates(results: Results, order: seq<Url>, urls: seq<Url>)
    requires Filed(results, order, urls)
    ensures Distinct(CheckpointUrls(results, order, urls)) <==>
            && Distinct(Filter(order, u => u in results && u !in urls))
            && Distinct(Filter(urls, u => u in results))
  {
    FilterMembers(order, u => u in results && u !in urls);
    FilterMembers(urls, u => u in results);
    ConcatDistinct(Filter(order, u => u in results && u !in urls), Filter(urls, u => u in results));
  }

  lemma CheckpointDistinct(results: Results, order: seq<Url>, urls: seq<Url>)
    requires Filed(results, order, urls) && Distinct(order) && Distinct(urls)
    ensures Distinct(CheckpointUrls(results, order, urls))
  {
    FilterDistinct(order, u => u in results && u !in urls);
    FilterDistinct(urls, u => u in results);
    CheckpointDuplicates(results, order, urls);
  }

  // ----- saving and loading again -----------------------------------------------------------

  lemma {:induction false} LoadedOrder(saved: seq<ProbeResult>)
    ensures Listed(ToFile(saved).entries) == seq(|saved|, i requires 0 <= i < |saved| => saved[i].url)
  {
    var entries := ToFile(saved).entries;
    if saved != [] {
      var before := saved[..|saved| - 1];
      LoadedOrder(before);
      assert entries[..|entries| - 1] == ToFile(before).entries;
    }
  }

  lemma {:induction false} LoadedResults(saved: seq<ProbeResult>, results: Results)
    requires forall r :: r in saved ==> r.url in results && results[r.url] == r
    ensures forall u :: u in Indexed(ToFile(saved).entries) <==> exists r :: r in saved && r.url == u
    ensures forall u :: u in Indexed(ToFile(saved).entries) ==>
              u in results && Indexed(ToFile(saved).entries)[u] == results[u]
  {
    var entries := ToFile(saved).entries;
    if saved != [] {
      var before, last := saved[..|saved| - 1], saved[|saved| - 1];
      assert saved == before + [last];
      LoadedResults(before, results);
      assert entries[..|entries| - 1] == ToFile(before).entries;
      assert Indexed(entries) == Indexed(ToFile(before).entries)[last.url := last];
      forall u
        ensures u in Indexed(entries) <==> exists r :: r in saved && r.url == u
      {
        if u in Indexed(ToFile(before).entries) {
          var r :| r in before && r.url == u;
          assert r in saved;
        }
        assert last in saved;
      }
    }
  }

  /** Round trip: loading a checkpoint gives back exactly the recorded results, in the listed order. */
  lemma CheckpointRoundTrip(results: Results, order: seq<Url>, urls: seq<Url>)
    requires Filed(results, order, urls)
    ensures var entries := ToFile(Checkpoint(results, order, urls)).entries;
            Indexed(entries) == results && Listed(entries) == CheckpointUrls(results, order, urls)
  {
    var c := Checkpoint(results, order, urls);
    CheckpointIsExact(results, order, urls);
    LoadedResults(c, results);
    LoadedOrder(c);
    var us := CheckpointUrls(results, order, urls);
    assert |us| == |c|;
    FilterMembers(order, u => u in results && u !in urls);
    FilterMembers(urls, u => u in results);
    forall i | 0 <= i < |us|
      ensures us[i] == c[i].url
    {
      assert us[i] in us;
    }
    forall u | u in results
      ensures u in Indexed(ToFile(c).entries)
    {
      assert results[u] in c && results[u].url == u;
    }
  }

  /** A crash loses nothing that was recorded: resuming from any checkpoint, with any selection, keeps
      every recorded result and probes exactly the selected URLs that have none. */
  lemma ResumeProbesExactlyTheMissing(results: Results, order: seq<Url>, urls: seq<Url>, selection: seq<Url>)
    requires Filed(results, order, urls)
    ensures var plan := MakePlan(selection, Some(ToFile(Checkpoint(results, order, urls))), false);
            && plan.Success?
            && plan.value.results == results
            && plan.value.pending == Missing(selection, results)
            && Filed(plan.value.results, plan.value.order, selection)
  {
    CheckpointRoundTrip(results, order, urls);
    FilterMembers(order, u => u in results && u !in urls);
    FilterMembers(urls, u => u in results);
  }

  /** With `--retry-failures` the parsed results and all results outside the selection are kept, and the
      selected URLs that are missing or failed are probed again. */
  lemma RetryKeepsParsedAndUnselected(results: Results, order: seq<Url>, urls: seq<Url>, selection: seq<Url>)
    requires Filed(results, order, urls)
    ensures var plan := MakePlan(selection, Some(ToFile(Checkpoint(results, order, urls))), true);
            && plan.Success?
            && (forall u :: u in plan.value.results <==>
                  u in results && (u !in selection || results[u].status.ParsedOk?))
            && (forall u :: u in plan.value.results ==> plan.value.results[u] == results[u])
            && (forall u :: u in plan.value.pending <==>
                  u in selection && (u !in results || !results[u].status.ParsedOk?))
            && Filed(plan.value.results, plan.value.order, selection)
  {
    CheckpointRoundTrip(results, order, urls);
    var plan := MakePlan(selection, Some(ToFile(Checkpoint(results, order, urls))), true).value;
    FilterMembers(CheckpointUrls(results, order, urls), u => u in plan.results);
    FilterMembers(selection, u => u !in plan.results);
    FilterMembers(order, u => u in results && u !in urls);
    FilterMembers(urls, u => u in results);
  }

  /** Whatever the file holds, the plan of a run is well filed and its pending URLs are the selected ones
      without a kept result. */
  lemma PlanIsFiled(urls: seq<Url>, file: Option<SavedFile>, retryFailures: bool)
    requires MakePlan(urls, file, retryFailures).Success?
    ensures var plan := MakePlan(urls, file, retryFailures).value;
            && Filed(plan.results, plan.order, urls)
            && (forall u :: u in plan.pending <==> u in urls && u !in plan.results)
            && (Distinct(urls) ==> Distinct(plan.pending))
  {
    var plan := MakePlan(urls, file, retryFailures).value;
    if file.Some? {
      IndexedIsFiled(file.value.entries);
      FilterMembers(urls, u => u !in plan.results);
      FilterMembers(Listed(file.value.entries), u => u in plan.results);
      if Distinct(urls) {
        FilterDistinct(urls, u => u !in plan.results);
      }
    }
  }

  lemma {:induction false} IndexedIsFiled(entries: seq<Entry>)
    ensures forall u :: u in Indexed(entries) ==> Indexed(entries)[u].url == u && u in Listed(entries)
  {
    if entries != [] {
      IndexedIsFiled(entries[..|entries| - 1]);
    }
  }
}
