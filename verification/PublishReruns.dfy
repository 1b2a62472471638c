/**
 What a run of `publish_jobs` writes to the ledgers, what a later run makes of it, and where writes of
 interleaved runs get lost. The outbox forgets nothing; the ledgers are lists that are read once, written
 whole and cut to a limit.
 */
module PublishReruns {
  import opened Wrappers
  import opened PublicationProtocol
  import opened ChannelPublisher
  import opened PublishAccounting

  // ----- what a run writes ------------------------------------------------------------------------

  /** The ids of the delivered jobs, in order. */
  function SentIds(jobs: seq<Job>, reports: seq<Report>): seq<Name>
    requires |reports| <= |jobs|
    decreases |reports|
  {
    if reports == [] then []
    else
      var n := |reports| - 1;
      SentIds(jobs, reports[..n])
      + if reports[n].verdict.Sent? && jobs[n].id.Some? then [jobs[n].id.value] else []
  }

  function SentUrls(jobs: seq<Job>, reports: seq<Report>): seq<Name>
    requires |reports| <= |jobs|
    decreases |reports|
  {
    if reports == [] then []
    else
      var n := |reports| - 1;
      SentUrls(jobs, reports[..n])
      + if reports[n].verdict.Sent? && jobs[n].url.Some? then [jobs[n].url.value] else []
  }

  function KeptReceipts(kind: StoreKind, reports: seq<Report>): seq<Receipt> {
    if reports == [] then []
    else
      var r := KeptReceipt(kind, reports[|reports| - 1].verdict);
      KeptReceipts(kind, reports[..|reports| - 1]) + if r.Some? then [r.value] else []
  }

  /** A stored list after `more` was appended: untouched if there was nothing to append, else its newest entries. */
  function Appended<T>(stored: seq<T>, more: seq<T>): seq<T> { if more == [] then stored else Trimmed(stored + more) }

  lemma AppendedOne<T>(stored: seq<T>, more: seq<T>, x: T)
    ensures Trimmed(Appended(stored, more) + [x]) == Appended(stored, more + [x])
  {
    var all := stored + more;
    assert stored + (more + [x]) == all + [x];
    if more == [] {
      assert all == stored;
    } else if |all| > LEDGER_LIMIT {
      var cut := all[|all| - LEDGER_LIMIT..];
      assert Trimmed(cut + [x]) == (cut + [x])[1..] == all[|all| - LEDGER_LIMIT + 1..] + [x];
      assert Trimmed(all + [x]) == (all + [x])[|all| + 1 - LEDGER_LIMIT..];
    }
  }

  /** Cutting after every single write is cutting once at the end: what a run knows at the end. */
  lemma {:induction false} KnownIdLists(l: Loaded, jobs: seq<Job>, reports: seq<Report>, kind: StoreKind)
    requires |reports| <= |jobs| && !kind.NoStore?
    ensures Known(l, jobs, reports, kind).idLedger == Appended(l.idLedger, SentIds(jobs, reports))
    ensures kind.Outbox? ==>
              Known(l, jobs, reports, kind).targetLedger == Appended(l.targetLedger, SentIds(jobs, reports))
  {
    if reports != [] {
      var n := |reports| - 1;
      var before := SentIds(jobs, reports[..n]);
      KnownIdLists(l, jobs, reports[..n], kind);
      if reports[n].verdict.Sent? && jobs[n].id.Some? {
        AppendedOne(l.idLedger, before, jobs[n].id.value);
        AppendedOne(l.targetLedger, before, jobs[n].id.value);
      } else {
        assert SentIds(jobs, reports) == before;
      }
    }
  }

  lemma {:induction false} KnownUrlList(l: Loaded, jobs: seq<Job>, reports: seq<Report>, kind: StoreKind)
    requires |reports| <= |jobs| && !kind.NoStore?
    ensures Known(l, jobs, reports, kind).urlLedger == Appended(l.urlLedger, SentUrls(jobs, reports))
  {
    if reports != [] {
      var n := |reports| - 1;
      var before := SentUrls(jobs, reports[..n]);
      KnownUrlList(l, jobs, reports[..n], kind);
      if reports[n].verdict.Sent? && jobs[n].url.Some? {
        AppendedOne(l.urlLedger, before, jobs[n].url.value);
      } else {
        assert SentUrls(jobs, reports) == before;
      }
    }
  }

  /** The stored lists after a run: each is what the run knows if the run wrote it, and untouched otherwise.
      What another run wrote meanwhile is in neither. */
  lemma {:induction false} WrittenIds(f: Files, l: Loaded, jobs: seq<Job>, reports: seq<Report>, target: string,
                                       kind: StoreKind)
    requires |reports| <= |jobs| && !kind.NoStore?
    ensures FiledAll(f, l, jobs, reports, target, kind).sentIds
            == if SentIds(jobs, reports) == [] then f.sentIds else Known(l, jobs, reports, kind).idLedger
  {
    if reports != [] {
      var n := |reports| - 1;
      WrittenIds(f, l, jobs, reports[..n], target, kind);
      if !(reports[n].verdict.Sent? && jobs[n].id.Some?) {
        assert SentIds(jobs, reports) == SentIds(jobs, reports[..n]);
      }
    }
  }

  lemma {:induction false} WrittenUrls(f: Files, l: Loaded, jobs: seq<Job>, reports: seq<Report>, target: string,
                                        kind: StoreKind)
    requires |reports| <= |jobs| && !kind.NoStore?
    ensures FiledAll(f, l, jobs, reports, target, kind).sentUrls
            == if SentUrls(jobs, reports) == [] then f.sentUrls else Known(l, jobs, reports, kind).urlLedger
  {
    if reports != [] {
      var n := |reports| - 1;
      WrittenUrls(f, l, jobs, reports[..n], target, kind);
      if !(reports[n].verdict.Sent? && jobs[n].url.Some?) {
        assert SentUrls(jobs, reports) == SentUrls(jobs, reports[..n]);
      }
    }
  }

  lemma {:induction false} WrittenTargets(f: Files, l: Loaded, jobs: seq<Job>, reports: seq<Report>, target: string,
                                           kind: StoreKind)
    requires |reports| <= |jobs| && !kind.NoStore?
    ensures FiledAll(f, l, jobs, reports, target, kind).targetIds
            == if SentIds(jobs, reports) == [] || !kind.Outbox? then f.targetIds
               else f.targetIds[target := Known(l, jobs, reports, kind).targetLedger]
  {
    if reports != [] {
      var n := |reports| - 1;
      WrittenTargets(f, l, jobs, reports[..n], target, kind);
      if !(reports[n].verdict.Sent? && jobs[n].id.Some?) {
        assert SentIds(jobs, reports) == SentIds(jobs, reports[..n]);
      }
    }
  }

  lemma {:induction false} WrittenReceipts(f: Files, l: Loaded, jobs: seq<Job>, reports: seq<Report>, target: string,
                                           kind: StoreKind)
    requires |reports| <= |jobs|
    ensures FiledAll(f, l, jobs, reports, target, kind).receipts == Appended(f.receipts, KeptReceipts(kind, reports))
  {
    if reports != [] {
      var n := |reports| - 1;
      WrittenReceipts(f, l, jobs, reports[..n], target, kind);
      var r := KeptReceipt(kind, reports[n].verdict);
      if r.Some? {
        assert KeptReceipts(kind, reports) == KeptReceipts(kind, reports[..n]) + [r.value];
        AppendedOne(f.receipts, KeptReceipts(kind, reports[..n]), r.value);
      }
    }
  }

  /** The lists of published names a run on this store consults. */
  function StoredIds(w: World, target: string, kind: StoreKind): seq<Name> {
    if kind.Outbox? then TargetIdsOf(w, target) else w.sentIds
  }

  /** A run that nobody disturbs appends the delivered ids and URLs and the receipts to the stored lists. */
  lemma QuietRunAppends(w: World, w': World, l: Loaded, jobs: seq<Job>, reports: seq<Report>, target: string,
                        kind: StoreKind)
    requires |reports| <= |jobs| && !kind.NoStore? && InStep(w, l, target, kind)
    requires FilesOf(w') == FiledAll(FilesOf(w), l, jobs, reports, target, kind)
    ensures w'.sentIds == Appended(w.sentIds, SentIds(jobs, reports))
    ensures w'.sentUrls == Appended(w.sentUrls, SentUrls(jobs, reports))
    ensures StoredIds(w', target, kind) == Appended(StoredIds(w, target, kind), SentIds(jobs, reports))
    ensures w'.receipts == Appended(w.receipts, KeptReceipts(kind, reports))
  {
    KnownIdLists(l, jobs, reports, kind);
    KnownUrlList(l, jobs, reports, kind);
    WrittenIds(FilesOf(w), l, jobs, reports, target, kind);
    WrittenUrls(FilesOf(w), l, jobs, reports, target, kind);
    WrittenTargets(FilesOf(w), l, jobs, reports, target, kind);
    WrittenReceipts(FilesOf(w), l, jobs, reports, target, kind);
  }

  // ----- a later run ------------------------------------------------------------------------------

  lemma {:induction false} SentIdIsListed(jobs: seq<Job>, reports: seq<Report>, i: nat)
    requires i < |reports| <= |jobs| && reports[i].verdict.Sent?
    ensures jobs[i].id.Some? ==> jobs[i].id.value in SentIds(jobs, reports)
    ensures jobs[i].url.Some? ==> jobs[i].url.value in SentUrls(jobs, reports)
  {
    var n := |reports| - 1;
    if i < n {
      SentIdIsListed(jobs, reports[..n], i);
    }
  }

  lemma {:induction false} SentIdsFew(jobs: seq<Job>, reports: seq<Report>)
    requires |reports| <= |jobs|
    ensures |SentIds(jobs, reports)| <= |reports| && |SentUrls(jobs, reports)| <= |reports|
  {
    if reports != [] {
      SentIdsFew(jobs, reports[..|reports| - 1]);
    }
  }

  lemma WithinLimit<T>(stored: seq<T>, more: seq<T>, x: T)
    requires |stored| + |more| <= LEDGER_LIMIT
    ensures x in Appended(stored, more) <==> x in stored || x in more
  {
  }

  /** What a run consults: what it loaded, and what it delivered since. */
  lemma {:induction false} KnownNames(l: Loaded, jobs: seq<Job>, reports: seq<Report>, kind: StoreKind)
    requires |reports| <= |jobs| && !kind.NoStore?
    ensures Known(l, jobs, reports, kind).ids == l.ids + NamesIn(SentIds(jobs, reports))
    ensures Known(l, jobs, reports, kind).urls == l.urls + NamesIn(SentUrls(jobs, reports))
  {
    if reports != [] {
      var n := |reports| - 1;
      var before := reports[..n];
      KnownNames(l, jobs, before, kind);
      NamesOfOneMore(SentIds(jobs, before), jobs[n].id);
      NamesOfOneMore(SentUrls(jobs, before), jobs[n].url);
      if !reports[n].verdict.Sent? {
        assert SentIds(jobs, reports) == SentIds(jobs, before) && SentUrls(jobs, reports) == SentUrls(jobs, before);
      }
    }
  }

  lemma NamesOfOneMore(names: seq<Name>, name: Option<Name>)
    ensures NamesIn(names + if name.Some? then [name.value] else []) == NamesIn(names) + NameSet(name)
  {
    if name.Some? {
      assert forall n :: n in names + [name.value] <==> n in names || n == name.value;
    } else {
      assert names + [] == names;
    }
  }

  /** A job is skipped by the ledger exactly when what the run loaded has its id or URL, or an earlier job of the
      run with it was delivered. */
  lemma SkippedExactly(l: Loaded, jobs: seq<Job>, reports: seq<Report>, kind: StoreKind, same: (Job, Job) -> bool,
                       sendLimit: int, j: nat)
    requires j < |reports| <= |jobs| && Accounted(jobs, reports, l, kind, same, sendLimit) && !kind.NoStore?
    ensures reports[j].verdict.OnLedger? <==>
              Published(jobs[j], l.ids + NamesIn(SentIds(jobs, reports[..j])),
                        l.urls + NamesIn(SentUrls(jobs, reports[..j])))
  {
    KnownNames(l, jobs, reports[..j], kind);
    assert Consulted(jobs, reports, j, l, kind, same);
  }

  /** The job is on the stored lists: by id, and on a store without an outbox by URL. */
  predicate OnBooks(w: World, job: Job, target: string, kind: StoreKind) {
    || (job.id.Some? && job.id.value in StoredIds(w, target, kind))
    || (kind.Ledgers? && job.url.Some? && job.url.value in w.sentUrls)
  }

  /** The ids a run loaded are those stored for it; on an outbox the owner of the legacy ledger has more. */
  predicate LoadedFrom(w: World, l: Loaded, target: string, kind: StoreKind) {
    && InStep(w, l, target, kind)
    && (kind.Ledgers? ==> l.ids == NamesIn(l.idLedger) && l.urls == NamesIn(l.urlLedger))
    && (kind.Outbox? ==> NamesIn(l.targetLedger) <= l.ids)
  }

  /** A run that starts with the job on the stored lists skips it by the ledger. */
  lemma OnBooksIsSkipped(w: World, l: Loaded, jobs: seq<Job>, reports: seq<Report>, target: string, kind: StoreKind,
                         same: (Job, Job) -> bool, sendLimit: int, j: nat)
    requires !kind.NoStore? && LoadedFrom(w, l, target, kind)
    requires j < |reports| <= |jobs| && Accounted(jobs, reports, l, kind, same, sendLimit)
    requires OnBooks(w, jobs[j], target, kind)
    ensures reports[j].verdict.OnLedger?
  {
    SkippedExactly(l, jobs, reports, kind, same, sendLimit, j);
    if jobs[j].id.Some? && jobs[j].id.value in StoredIds(w, target, kind) {
      assert jobs[j].id.value in l.ids;
    }
  }

  /** By what a later run recognises a delivered job: its id, and on ledgers only its URL. */
  predicate Recognised(job: Job, later: Job, kind: StoreKind) {
    (job.id.Some? && later.id == job.id) || (kind.Ledgers? && job.url.Some? && later.url == job.url)
  }

  /** Re-run idempotence of the ledgers. Two runs to one target, one after the other and undisturbed: a job the
      first delivered is skipped by the second, by its id on any store and by its URL on ledgers only, as long
      as the lists stay within the limit. */
  method RunTwice(p: Publisher, jobs: seq<Job>, again: seq<Job>, target: string, limits: (int, int), throttled: bool,
                  attempts: int, kind: StoreKind, same: (Job, Job) -> bool)
    returns (first: seq<Report>, second: seq<Report>)
    requires p.Valid() && p.Quiet() && !kind.NoStore?
    requires |StoredIds(p.world, target, kind)| + |jobs| <= LEDGER_LIMIT && |p.world.sentUrls| + |jobs| <= LEDGER_LIMIT
    modifies p
    ensures |first| <= |jobs| && |second| <= |again|
    ensures forall i, j :: 0 <= i < |first| && 0 <= j < |second| && first[i].verdict.Sent?
              && Recognised(jobs[i], again[j], kind)
              ==> second[j].verdict.OnLedger?
  {
    ghost var w0 := p.world;
    var l1, l2;
    first, l1 := p.PublishJobs(jobs, target, limits.0, throttled, attempts, kind, same);
    ghost var w1 := p.world;
    second, l2 := p.PublishJobs(again, target, limits.1, throttled, attempts, kind, same);
    if first != [] && second != [] {
      DeliveredAreOnBooks(w0, w1, l1, jobs, first, target, kind);
      assert LoadedFrom(w1, l2, target, kind);
      forall i, j | 0 <= i < |first| && 0 <= j < |second| && first[i].verdict.Sent?
        && Recognised(jobs[i], again[j], kind)
        ensures second[j].verdict.OnLedger?
      {
        OnBooksIsSkipped(w1, l2, again, second, target, kind, same, limits.1, j);
      }
    }
  }

  lemma DeliveredAreOnBooks(w: World, w': World, l: Loaded, jobs: seq<Job>, reports: seq<Report>, target: string,
                            kind: StoreKind)
    requires |reports| <= |jobs| && !kind.NoStore? && InStep(w, l, target, kind)
    requires FilesOf(w') == FiledAll(FilesOf(w), l, jobs, reports, target, kind)
    requires |StoredIds(w, target, kind)| + |jobs| <= LEDGER_LIMIT && |w.sentUrls| + |jobs| <= LEDGER_LIMIT
    ensures forall i :: 0 <= i < |reports| && reports[i].verdict.Sent? ==>
              && (jobs[i].id.Some? ==> jobs[i].id.value in StoredIds(w', target, kind))
              && (jobs[i].url.Some? ==> jobs[i].url.value in w'.sentUrls)
  {
    QuietRunAppends(w, w', l, jobs, reports, target, kind);
    SentIdsFew(jobs, reports);
    forall i | 0 <= i < |reports| && reports[i].verdict.Sent?
      ensures jobs[i].id.Some? ==> jobs[i].id.value in StoredIds(w', target, kind)
      ensures jobs[i].url.Some? ==> jobs[i].url.value in w'.sentUrls
    {
      SentIdIsListed(jobs, reports, i);
      if jobs[i].id.Some? {
        WithinLimit(StoredIds(w, target, kind), SentIds(jobs, reports), jobs[i].id.value);
      }
      if jobs[i].url.Some? {
        WithinLimit(w.sentUrls, SentUrls(jobs, reports), jobs[i].url.value);
      }
    }
  }

  // ----- ledgers only: what a run makes of the lists ------------------------------------------------

  /** The id list after a run that read it in `w0` and is alone from `w1` on. */
  function IdsAfter(w0: World, w1: World, jobs: seq<Job>, reports: seq<Report>): seq<Name>
    requires |reports| <= |jobs|
  {
    if SentIds(jobs, reports) == [] then w1.sentIds else Trimmed(w0.sentIds + SentIds(jobs, reports))
  }

  /** The URL list, which is read in `w1`. */
  function UrlsAfter(w1: World, jobs: seq<Job>, reports: seq<Report>): seq<Name>
    requires |reports| <= |jobs|
  {
    Appended(w1.sentUrls, SentUrls(jobs, reports))
  }

  lemma ListsAfter(w0: World, w1: World, w: World, l: Loaded, jobs: seq<Job>, reports: seq<Report>, target: string)
    requires |reports| <= |jobs| && FiledFrom(w0, w1, w, l, jobs, reports, target)
    ensures w.sentIds == IdsAfter(w0, w1, jobs, reports) && w.sentUrls == UrlsAfter(w1, jobs, reports)
  {
    KnownIdLists(l, jobs, reports, Ledgers);
    KnownUrlList(l, jobs, reports, Ledgers);
    WrittenIds(FilesOf(w1), l, jobs, reports, target, Ledgers);
    WrittenUrls(FilesOf(w1), l, jobs, reports, target, Ledgers);
  }

  /** Exactly what a run on ledgers only takes off the lists, when others move until it has read both: if it
      delivers something with an id, the stored ids that it had not read and does not add, and those beyond the
      limit; of the URLs, those beyond the limit. */
  method RunOnLedgers(p: Publisher, jobs: seq<Job>, target: string, sendLimit: int, throttled: bool, attempts: int,
                      same: (Job, Job) -> bool)
    returns (reports: seq<Report>, loaded: Loaded)
    requires p.Valid() && p.QuietAfter(2) && Acts(jobs, sendLimit)
    modifies p
    ensures p.Valid() && p.Quiet() && |reports| <= |jobs|
    ensures var w0, w1 := p.Moved(old(p.world), old(p.awaits)), p.WhenLoaded(old(p.world), old(p.awaits));
            && p.world.sentIds == IdsAfter(w0, w1, jobs, reports) && p.world.sentUrls == UrlsAfter(w1, jobs, reports)
            && (forall n :: n in w1.sentIds ==>
                  (n !in p.world.sentIds <==>
                     SentIds(jobs, reports) != [] && n !in Trimmed(w0.sentIds + SentIds(jobs, reports))))
            && (forall n :: n in w1.sentUrls ==>
                  (n !in p.world.sentUrls <==>
                     SentUrls(jobs, reports) != [] && n !in Trimmed(w1.sentUrls + SentUrls(jobs, reports))))
  {
    ghost var w0, w1 := p.Moved(p.world, p.awaits), p.WhenLoaded(p.world, p.awaits);
    reports, loaded := p.PublishJobs(jobs, target, sendLimit, throttled, attempts, Ledgers, same);
    ListsAfter(w0, w1, p.world, loaded, jobs, reports, target);
  }

  lemma {:induction false} NoIdSent(jobs: seq<Job>, reports: seq<Report>)
    requires |reports| <= |jobs| && !IdSent(jobs, reports)
    ensures SentIds(jobs, reports) == []
  {
    if reports != [] {
      var n := |reports| - 1;
      assert !IdSent(jobs, reports[..n]) by {
        forall i | 0 <= i < n
          ensures !(reports[..n][i].verdict.Sent? && jobs[i].id.Some?)
        {
          assert reports[..n][i] == reports[i];
        }
      }
      NoIdSent(jobs, reports[..n]);
    }
  }

  lemma {:induction false} NoUrlSent(jobs: seq<Job>, reports: seq<Report>)
    requires |reports| <= |jobs| && !UrlSent(jobs, reports)
    ensures SentUrls(jobs, reports) == []
  {
    if reports != [] {
      var n := |reports| - 1;
      assert !UrlSent(jobs, reports[..n]) by {
        forall i | 0 <= i < n
          ensures !(reports[..n][i].verdict.Sent? && jobs[i].url.Some?)
        {
          assert reports[..n][i] == reports[i];
        }
      }
      NoUrlSent(jobs, reports[..n]);
    }
  }

  /** A step that writes the id list. */
  predicate WritesIds(act: Action) { act.WriteSentIds? }

  predicate WritesUrls(act: Action) { act.WriteSentUrls? }

  /** Nobody writes it. */
  predicate NobodyWrites(acts: seq<Action>, writes: Action -> bool) { forall act :: act in acts ==> !writes(act) }

  lemma {:induction false} ListsStay(w: World, acts: seq<Action>)
    ensures NobodyWrites(acts, WritesIds) ==> Run(w, acts).sentIds == w.sentIds
    ensures NobodyWrites(acts, WritesUrls) ==> Run(w, acts).sentUrls == w.sentUrls
  {
    if acts != [] {
      var before, last := acts[..|acts| - 1], acts[|acts| - 1];
      assert last in acts && forall act :: act in before ==> act in acts;
      ListsStay(w, before);
    }
  }

  /** At moment `k` the id list becomes what was read with what is added. Of what is stored right before, exactly
      what is neither read nor added is gone, and what is beyond the limit; from then on the list changes only if
      somebody else writes it. */
  ghost predicate IdsOverwritten(store: World, history: seq<Action>, k: nat, read: seq<Name>, added: seq<Name>)
    requires k < |history|
  {
    var before, after := Run(store, history[..k]).sentIds, Run(store, history[..k + 1]).sentIds;
    && after == Trimmed(read + added)
    && (forall n :: n in before && n !in read && n !in added ==> n !in after)
    && (|read| + |added| <= LEDGER_LIMIT ==>
          forall n :: n in before ==> (n !in after <==> n !in read && n !in added))
    && (NobodyWrites(history[k + 1..], WritesIds) ==> Run(store, history).sentIds == after)
  }

  /** The same of the URL list. */
  ghost predicate UrlsOverwritten(store: World, history: seq<Action>, k: nat, read: seq<Name>, added: seq<Name>)
    requires k < |history|
  {
    var before, after := Run(store, history[..k]).sentUrls, Run(store, history[..k + 1]).sentUrls;
    && after == Trimmed(read + added)
    && (forall n :: n in before && n !in read && n !in added ==> n !in after)
    && (|read| + |added| <= LEDGER_LIMIT ==>
          forall n :: n in before ==> (n !in after <==> n !in read && n !in added))
    && (NobodyWrites(history[k + 1..], WritesUrls) ==> Run(store, history).sentUrls == after)
  }

  /** On any store a run that delivers something with an id writes the id list at some moment. */
  lemma IdWriteExactly(store: World, history: seq<Action>, since: nat, l: Loaded, jobs: seq<Job>,
                       reports: seq<Report>, kind: StoreKind)
    returns (k: nat)
    requires |reports| <= |jobs| && !kind.NoStore? && SentIds(jobs, reports) != []
    requires LastWritten(history, since, jobs, reports, Known(l, jobs, reports, kind))
    ensures since <= k < |history|
    ensures IdsOverwritten(store, history, k, l.idLedger, SentIds(jobs, reports))
  {
    if !IdSent(jobs, reports) {
      NoIdSent(jobs, reports);
    }
    KnownIdLists(l, jobs, reports, kind);
    var ids := Trimmed(l.idLedger + SentIds(jobs, reports));
    k := MomentOf(history, since, WriteSentIds(ids));
    WriteAt(store, history, k);
    ListsStay(Run(store, history[..k + 1]), history[k + 1..]);
  }

  /** The same of the URLs. */
  lemma UrlWriteExactly(store: World, history: seq<Action>, since: nat, l: Loaded, jobs: seq<Job>,
                        reports: seq<Report>, kind: StoreKind)
    returns (k: nat)
    requires |reports| <= |jobs| && !kind.NoStore? && SentUrls(jobs, reports) != []
    requires LastWritten(history, since, jobs, reports, Known(l, jobs, reports, kind))
    ensures since <= k < |history|
    ensures UrlsOverwritten(store, history, k, l.urlLedger, SentUrls(jobs, reports))
  {
    if !UrlSent(jobs, reports) {
      NoUrlSent(jobs, reports);
    }
    KnownUrlList(l, jobs, reports, kind);
    var urls := Trimmed(l.urlLedger + SentUrls(jobs, reports));
    k := MomentOf(history, since, WriteSentUrls(urls));
    WriteAt(store, history, k);
    ListsStay(Run(store, history[..k + 1]), history[k + 1..]);
  }

  lemma MomentOf(history: seq<Action>, since: nat, act: Action) returns (k: nat)
    requires since <= |history| && act in history[since..]
    ensures since <= k < |history| && history[k] == act
  {
    var i :| 0 <= i < |history| - since && history[since..][i] == act;
    k := since + i;
  }

  lemma WriteAt(store: World, history: seq<Action>, k: nat)
    requires k < |history| && (history[k].WriteSentIds? || history[k].WriteSentUrls?)
    ensures Run(store, history[..k + 1]) == Effect(Run(store, history[..k]), history[k])
    ensures Run(store, history) == Run(Run(store, history[..k + 1]), history[k + 1..])
  {
    assert history[..k + 1][..k] == history[..k];
    assert history == history[..k + 1] + history[k + 1..];
    RunConcat(store, history[..k + 1], history[k + 1..]);
  }

  /** Whatever the others do at any await: what a run on ledgers only makes of the lists it read, and of what was
      written since. */
  method RunAmongOthers(p: Publisher, jobs: seq<Job>, target: string, sendLimit: int, throttled: bool, attempts: int,
                        same: (Job, Job) -> bool)
    returns (reports: seq<Report>, ghost i: nat, ghost u: nat)
    requires p.Valid() && Acts(jobs, sendLimit)
    modifies p
    ensures p.Valid() && old(p.history) <= p.history && |reports| <= |jobs|
    ensures var w0, w1 := p.Moved(old(p.world), old(p.awaits)), p.WhenLoaded(old(p.world), old(p.awaits));
            && (SentIds(jobs, reports) != [] ==>
                  && |old(p.history)| <= i < |p.history|
                  && IdsOverwritten(p.genesis, p.history, i, w0.sentIds, SentIds(jobs, reports)))
            && (SentUrls(jobs, reports) != [] ==>
                  && |old(p.history)| <= u < |p.history|
                  && UrlsOverwritten(p.genesis, p.history, u, w1.sentUrls, SentUrls(jobs, reports)))
  {
    ghost var since := |p.history|;
    i, u := 0, 0;
    var l;
    reports, l := p.PublishJobs(jobs, target, sendLimit, throttled, attempts, Ledgers, same);
    if SentIds(jobs, reports) != [] {
      i := IdWriteExactly(p.genesis, p.history, since, l, jobs, reports, Ledgers);
    }
    if SentUrls(jobs, reports) != [] {
      u := UrlWriteExactly(p.genesis, p.history, since, l, jobs, reports, Ledgers);
    }
  }

  /** When a job goes out on ledgers only after another run: the second of two runs, with nobody else moving once
      the first has read both lists, sends a job exactly when neither the lists the first run left nor the second
      run's own deliveries have its id or URL, and it is no near-duplicate; if every send arrives. */
  method RunAgain(p: Publisher, jobs: seq<Job>, again: seq<Job>, target: string, limits: (int, int), throttled: bool,
                  attempts: int, same: (Job, Job) -> bool)
    returns (first: seq<Report>, second: seq<Report>)
    requires p.Valid() && p.QuietAfter(2) && Acts(jobs, limits.0) && Acts(again, limits.1)
    requires AlwaysArrives(p.sender) && attempts >= 1
    modifies p
    ensures |first| <= |jobs| && 0 < |second| <= |again|
    ensures var w0, w1 := p.Moved(old(p.world), old(p.awaits)), p.WhenLoaded(old(p.world), old(p.awaits));
            var ids, urls := IdsAfter(w0, w1, jobs, first), UrlsAfter(w1, jobs, first);
            && (second[0].verdict.Sent? <==> !Published(again[0], NamesIn(ids), NamesIn(urls)))
            && (forall j :: 0 <= j < |second| ==>
                  (second[j].verdict.Sent? <==> GoesOut(ids, urls, again, second, j, same)))
  {
    ghost var w0, w1 := p.Moved(p.world, p.awaits), p.WhenLoaded(p.world, p.awaits);
    var l1, l2;
    first, l1 := RunOnLedgers(p, jobs, target, limits.0, throttled, attempts, same);
    ghost var ids, urls := IdsAfter(w0, w1, jobs, first), UrlsAfter(w1, jobs, first);
    second, l2 := p.PublishJobs(again, target, limits.1, throttled, attempts, Ledgers, same);
    SomethingReached(again, second, limits.1);
    forall j | 0 <= j < |second|
      ensures second[j].verdict.Sent? <==> GoesOut(ids, urls, again, second, j, same)
    {
      SkippedExactly(l2, again, second, Ledgers, same, limits.1, j);
      LookedArrives(l2, again, second, target, same, limits.1, p.sender, attempts, j);
    }
    assert second[..0] == [];
  }

  /** What decides whether the `j`-th job is sent: the lists before the run, and what the run did so far. */
  ghost predicate GoesOut(ids: seq<Name>, urls: seq<Name>, jobs: seq<Job>, reports: seq<Report>, j: nat,
                          same: (Job, Job) -> bool)
    requires j < |reports| <= |jobs|
  {
    && !Published(jobs[j], NamesIn(ids) + NamesIn(SentIds(jobs, reports[..j])),
                  NamesIn(urls) + NamesIn(SentUrls(jobs, reports[..j])))
    && !exists b :: b in Basis(jobs, reports[..j]) && same(jobs[j], b)
  }

  lemma {:induction false} SomethingReached(jobs: seq<Job>, reports: seq<Report>, sendLimit: int)
    requires Acts(jobs, sendLimit) && |reports| <= |jobs|
    requires StopsInTime(jobs, reports, Tally(jobs, reports).sent, sendLimit)
    ensures reports != []
  {
  }

  /** On ledgers only a job that is neither known nor a near-duplicate is sent, if every send arrives. */
  lemma {:induction false} LookedArrives(l: Loaded, jobs: seq<Job>, reports: seq<Report>, target: string,
                                         same: (Job, Job) -> bool, sendLimit: int, sender: nat -> SendEvent,
                                         attempts: int, j: nat)
    requires j < |reports| <= |jobs| && Accounted(jobs, reports, l, Ledgers, same, sendLimit)
    requires AllDecided(reports, target, jobs, Ledgers, sender, attempts) && AlwaysArrives(sender) && attempts >= 1
    ensures reports[j].verdict.Sent? <==>
              !reports[j].verdict.OnLedger? && !exists b :: b in Basis(jobs, reports[..j]) && same(jobs[j], b)
  {
    assert Consulted(jobs, reports, j, l, Ledgers, same);
    if Looked(reports[j].verdict) {
      var n: nat :| OneVerdict(reports[j].verdict, target, jobs[j], Ledgers, sender, n, attempts);
      ArrivesAtOnce(sender, n, attempts);
    }
  }

  // ----- concrete losses ----------------------------------------------------------------------------

  /** Another run delivers `y` and files it while this one is reading. */
  function OtherRun(y: Name): seq<Action> { [TransmitBare("t", Job(Some(y), None, 0), true), WriteSentIds([y])] }

  lemma AfterOtherRun(y: Name)
    ensures Interference(EMPTY_STORE, OtherRun(y), None) == OtherRun(y)
    ensures Run(EMPTY_STORE, OtherRun(y)).sentIds == [y] && Run(EMPTY_STORE, OtherRun(y)).sentUrls == []
    ensures Run(EMPTY_STORE, OtherRun(y)).messages == [Message("t", Job(Some(y), None, 0), None)]
  {
    var acts := OtherRun(y);
    var w1 := Effect(EMPTY_STORE, acts[0]);
    var w2 := Effect(w1, acts[1]);
    assert acts[1..] == [acts[1]] && [acts[1]][1..] == [];
    assert Interference(w2, [], None) == [];
    assert Interference(w1, [acts[1]], None) == [acts[1]] + Interference(w2, [acts[1]][1..], None) == [acts[1]];
    assert Interference(EMPTY_STORE, acts, None) == [acts[0]] + Interference(w1, acts[1..], None);
    assert acts[..1] == [acts[0]] && [acts[0]][..0] == [];
    assert Run(EMPTY_STORE, [acts[0]]) == w1;
    assert Run(EMPTY_STORE, acts) == w2;
  }

  function AlwaysDelivered(r: Receipt): nat -> SendEvent { n => Receipted(r) }

  /** A single job that the run does not know is sent, when every send succeeds. */
  lemma {:induction false} LoneJobIsSent(job: Job, l: Loaded, reports: seq<Report>, receipt: Receipt,
                                         same: (Job, Job) -> bool)
    requires |reports| <= 1 && !Published(job, l.ids, l.urls)
    requires Accounted([job], reports, l, Ledgers, same, 1)
    requires StopsInTime([job], reports, Tally([job], reports).sent, 1)
    requires AllDecided(reports, "t", [job], Ledgers, AlwaysDelivered(receipt), 1)
    ensures |reports| == 1 && reports[0].verdict == Sent(Some(receipt))
  {
    assert reports != [];
    assert Consulted([job], reports, 0, l, Ledgers, same) && reports[..0] == [];
    assert Looked(reports[0].verdict);
    var n: nat :| OneVerdict(reports[0].verdict, "t", job, Ledgers, AlwaysDelivered(receipt), n, 1);
  }

  lemma {:induction false} LoneIds(x: Name, reports: seq<Report>)
    requires |reports| == 1 && reports[0].verdict.Sent?
    ensures SentIds([Job(Some(x), None, 0)], reports) == [x]
  {
    assert reports[..0] == [];
  }

  /** A run with one job that it does not find on the list: sent, and the list is what was read and its id. */
  method SendLone(p: Publisher, x: Name, receipt: Receipt, same: (Job, Job) -> bool) returns (reports: seq<Report>)
    requires p.Valid() && p.QuietAfter(2) && p.sender == AlwaysDelivered(receipt)
    requires x !in p.Moved(p.world, p.awaits).sentIds
    modifies p
    ensures p.Valid() && p.Quiet() && |reports| == 1 && reports[0].verdict.Sent?
    ensures p.world.sentIds == Trimmed(p.Moved(old(p.world), old(p.awaits)).sentIds + [x])
    ensures p.WhenLoaded(old(p.world), old(p.awaits)).messages <= p.world.messages
  {
    ghost var w0, w1 := p.Moved(p.world, p.awaits), p.WhenLoaded(p.world, p.awaits);
    var job := Job(Some(x), None, 0);
    var l;
    reports, l := p.PublishJobs([job], "t", 1, false, 1, Ledgers, same);
    LoneJobIsSent(job, l, reports, receipt, same);
    LoneIds(x, reports);
    ListsAfter(w0, w1, p.world, l, [job], reports, "t");
  }

  /** Nobody moves at the next await. */
  lemma StaysPut(p: Publisher)
    requires p.Quiet()
    ensures p.Moved(p.world, p.awaits) == p.world
  {
    assert p.others(p.awaits) == [];
  }

  /** A lost update on ledgers only: the other run's id is read by nobody, overwritten by this run, and the job
      it delivered is sent again by the next run. */
  method LostUpdate(x: Name, y: Name, receipt: Receipt)
    returns (w: World, first: seq<Report>, second: seq<Report>)
    requires x != y
    ensures |first| == 1 && first[0].verdict.Sent? && w.sentIds == [x]
    ensures Message("t", Job(Some(y), None, 0), None) in w.messages
    ensures |second| == 1 && second[0].verdict.Sent?
  {
    var others: nat -> seq<Action> := n => if n == 1 then OtherRun(y) else [];
    var never: (Job, Job) -> bool := (a, b) => false;
    var p := new Publisher(EMPTY_STORE, [], others, AlwaysDelivered(receipt));
    AfterOtherRun(y);
    assert p.Moved(EMPTY_STORE, 0) == EMPTY_STORE && p.WhenLoaded(EMPTY_STORE, 0) == Run(EMPTY_STORE, OtherRun(y));
    first := SendLone(p, x, receipt, never);
    w := p.world;
    assert w.messages[0] == Message("t", Job(Some(y), None, 0), None);
    StaysPut(p);
    second := SendLone(p, y, receipt, never);
  }

  /** Names of growing length. */
  function Word(n: nat): Name { seq(n + 1, i => 'x') }

  /** A full list of different names. */
  function FullList(): (names: seq<Name>)
    ensures |names| == LEDGER_LIMIT && forall i :: 0 <= i < |names| ==> |names[i]| == i + 1
  {
    seq(LEDGER_LIMIT, i requires 0 <= i < LEDGER_LIMIT => Word(i))
  }

  lemma CutFirst<T>(names: seq<T>, x: T)
    requires |names| == LEDGER_LIMIT
    ensures Trimmed(names + [x]) == names[1..] + [x]
  {
    assert (names + [x])[1..] == names[1..] + [x];
  }

  /** Past the limit undisturbed runs lose names too: with a full list, one delivery takes the oldest id off it, and
      the job of that id, which no run would have sent before, is sent. */
  method ForgottenPastTheLimit(receipt: Receipt)
    returns (stored: seq<Name>, w: World, first: seq<Report>, second: seq<Report>)
    ensures |stored| == LEDGER_LIMIT && |w.sentIds| == LEDGER_LIMIT && stored[0] !in w.sentIds
    ensures |first| == 1 && first[0].verdict.Sent? && |second| == 1 && second[0].verdict.Sent?
  {
    stored := FullList();
    var x, oldest := Word(LEDGER_LIMIT), stored[0];
    var never: (Job, Job) -> bool := (a, b) => false;
    first, second, w := FillUp(stored, x, oldest, receipt, never);
  }

  method FillUp(stored: seq<Name>, x: Name, oldest: Name, receipt: Receipt, never: (Job, Job) -> bool)
    returns (first: seq<Report>, second: seq<Report>, w: World)
    requires |stored| == LEDGER_LIMIT && stored[0] == oldest && oldest !in stored[1..] && x !in stored
    ensures w.sentIds == stored[1..] + [x] && oldest !in w.sentIds
    ensures |first| == 1 && first[0].verdict.Sent? && |second| == 1 && second[0].verdict.Sent?
  {
    var p := new Publisher(EMPTY_STORE.(sentIds := stored), [], NOBODY, AlwaysDelivered(receipt));
    StaysPut(p);
    first := SendLone(p, x, receipt, never);
    CutFirst(stored, x);
    w := p.world;
    StaysPut(p);
    second := SendLone(p, oldest, receipt, never);
  }

  /** The receipts are read and written whole in the same way: of what is stored right before the write, exactly
      what was not read, or is beyond the limit, is gone. */
  lemma ReceiptsLostExactly(p: Publisher, w: World, n: nat, self: Option<Attempt>, receipt: Receipt)
    ensures var read := p.MovedBeside(w, n, self);
            var before, after := p.MovedBeside(read, n + 1, self).receipts, p.Persisted(w, n, self, receipt).receipts;
            && (forall r :: r in before && r !in read.receipts && r != receipt ==> r !in after)
            && (|read.receipts| < LEDGER_LIMIT ==> forall r :: r in before ==>
                  (r !in after <==> r !in read.receipts && r != receipt))
  {
  }

  /** What another run filed between the two is gone. */
  method LostReceipt(receipt: Receipt, other: Receipt) returns (p: Publisher)
    requires receipt != other
    ensures p.world == p.Persisted(EMPTY_STORE, 0, None, receipt)
    ensures other in p.MovedBeside(p.MovedBeside(EMPTY_STORE, 0, None), 1, None).receipts
    ensures other !in p.world.receipts
  {
    var others: nat -> seq<Action> := n => if n == 1 then [WriteReceipts([other])] else [];
    p := new Publisher(EMPTY_STORE, [], others, AlwaysDelivered(receipt));
    OneWriteBeside(EMPTY_STORE, WriteReceipts([other]));
    assert p.MovedBeside(EMPTY_STORE, 0, None) == EMPTY_STORE;
    p.PersistReceipt(receipt, None);
  }

  lemma OneWriteBeside(w: World, act: Action)
    requires act.WriteReceipts?
    ensures Run(w, Interference(w, [act], None)) == Effect(w, act) && Run(w, Interference(w, [], None)) == w
  {
    assert [act][1..] == [] && Interference(Effect(w, act), [], None) == [];
    assert Interference(w, [act], None) == [act] + [] == [act];
    assert [act][..0] == [];
  }
}
