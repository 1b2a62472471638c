/**
 `publish_jobs` (job_ftch/application/channel_publisher.py), statement by statement, on a store that
 other publishers, the operator and dying processes use at the same time.

 A `Publisher` is one process. At each `await` the moves of everybody else come first
 (`others(n)` at the n-th await, any sequence at all); then the process takes its own step, which
 must be `Enabled`. `sender(n)` is how the n-th send of the process ends.
 */
module ChannelPublisher {
  import opened Wrappers
  import opened PublicationProtocol

  const LEDGER_LIMIT: nat := 10_000

  /** `NoStore` is `store=None`; `Ledgers` has run state only; `Outbox` may lack the two optional calls. */
  datatype StoreKind = NoStore | Ledgers | Outbox(canRelease: bool, canConfirm: bool)

  /** How one `sender.send` ends. A receipt means the card arrived; any other returned value, and any
      exception that is not one of the two send errors, may or may not mean it. */
  datatype SendEvent =
    | Receipted(receipt: Receipt)
    | Unreceipted(arrived: bool)
    | CardRejected(reason: string)
    | Flooded(detail: string)                    // TransientSendError
    | TargetGone(detail: string)                 // FatalTargetError
    | Raised(detail: string, fatal: bool, retryable: bool, arrived: bool)

  predicate Reached(e: SendEvent) {
    e.Receipted? || (e.Unreceipted? && e.arrived) || (e.Raised? && e.arrived)
  }

  /** The card certainly did not arrive. */
  predicate Definite(e: SendEvent) {
    e.CardRejected? || e.Flooded? || e.TargetGone?
  }

  /** `str(message_id).isdigit() and int(message_id) > 0`. */
  predicate Confirmable(m: MessageId) {
    match m
    case Number(n) => n > 0
    case Text(s) => s != "" && (forall c :: c in s ==> '0' <= c <= '9') && exists c :: c in s && c != '0'
  }

  datatype Cause =
    | NoIdentity | HeldElsewhere | NothingTried | FloodExhausted | TargetUnusable
    | SendRaised(retryable: bool) | TargetRefused | BadReceipt | NoReceipt
    | Unconfirmed(receipt: Receipt)       // it arrived, and the receipt is kept

  datatype Verdict =
    | Sent(receipt: Option<Receipt>)
    | OnLedger            // already published, by the ledger
    | InOutbox            // already published, by a confirmed reservation
    | NearDuplicate
    | Rejected(reason: string)
    | Failed(cause: Cause)

  datatype Report = Report(verdict: Verdict, attempt: Option<Attempt>, error: Option<string>)

  datatype PublishOutcome = PublishOutcome(
    sent: nat,
    skippedAlreadyPublished: nat,
    skippedDuplicate: nat,
    error: Option<string>,
    hadTransientFailure: bool,
    targetUnusable: bool,
    delivered: seq<Job>,
    receipts: seq<Receipt>,
    cardValidationRejections: nat,
    terminalSkips: nat,
    terminalSkipReasons: map<string, nat>)

  const NO_OUTCOME := PublishOutcome(0, 0, 0, None, false, false, [], [], 0, 0, map[])

  // ----- the sequential meaning of one job ------------------------------------------------

  /** The event that ends the send loop: floods are retried while attempts are left. */
  function LastEvent(sender: nat -> SendEvent, n: nat, attempts: int): SendEvent
    requires attempts >= 1
    decreases attempts
  {
    if sender(n).Flooded? && attempts > 1 then LastEvent(sender, n + 1, attempts - 1) else sender(n)
  }

  /** The verdict on a job whose send loop ended with `e`, if every confirmation succeeds. */
  function AfterSending(kind: StoreKind, e: SendEvent): Verdict {
    match e
    case CardRejected(reason) => Rejected(reason)
    case Flooded(_) => Failed(FloodExhausted)
    case TargetGone(_) => Failed(TargetUnusable)
    case Raised(_, fatal, retryable, _) => Failed(if fatal then TargetRefused else SendRaised(retryable))
    case Unreceipted(_) => if kind.Outbox? then Failed(NoReceipt) else Sent(None)
    case Receipted(r) =>
      if kind.Outbox? && !Confirmable(r.message) then Failed(BadReceipt)
      else if kind.Outbox? && !kind.canConfirm then Failed(Unconfirmed(r))
      else Sent(Some(r))
  }

  /** The first identity somebody already holds. */
  function FirstHeld(outbox: map<Key, Record>, keys: seq<Key>): Option<Record> {
    if keys == [] then None
    else if keys[0] in outbox then Some(outbox[keys[0]])
    else FirstHeld(outbox, keys[1..])
  }

  predicate Stops(v: Verdict) {
    v.Failed? && (v.cause.TargetUnusable? || v.cause.TargetRefused?)
  }

  /** The causes that tell the caller to keep its retry window open. */
  predicate KeepsWindowOpen(c: Cause) {
    c.HeldElsewhere? || c.FloodExhausted? || c.BadReceipt? || c.NoReceipt? || (c.SendRaised? && c.retryable)
  }

  /** What the accounting of one job adds to the outcome. */
  function Absorb(o: PublishOutcome, job: Job, r: Report): PublishOutcome {
    var p := o.(error := if r.error.Some? then r.error else o.error);
    match r.verdict
    case Sent(receipt) =>
      p.(sent := o.sent + 1, delivered := o.delivered + [job],
         receipts := if receipt.Some? then o.receipts + [receipt.value] else o.receipts)
    case OnLedger => p.(skippedAlreadyPublished := o.skippedAlreadyPublished + 1)
    case InOutbox => p.(skippedAlreadyPublished := o.skippedAlreadyPublished + 1)
    case NearDuplicate => p.(skippedDuplicate := o.skippedDuplicate + 1)
    case Rejected(reason) =>
      p.(cardValidationRejections := o.cardValidationRejections + 1,
         terminalSkips := o.terminalSkips + 1,
         terminalSkipReasons := o.terminalSkipReasons[reason := ReasonCount(o, reason) + 1])
    case Failed(cause) =>
      p.(hadTransientFailure := o.hadTransientFailure || KeepsWindowOpen(cause),
         targetUnusable := o.targetUnusable || Stops(r.verdict))
  }

  /** A flood leaves its text as the error even if a later send succeeds. */
  function Noted(o: PublishOutcome, flood: Option<string>): PublishOutcome {
    o.(error := if flood.Some? then flood else o.error)
  }

  lemma AbsorbNoted(o: PublishOutcome, flood: Option<string>, job: Job, r: Report)
    requires flood.Some? ==> r.error.Some?
    ensures Absorb(Noted(o, flood), job, r) == Absorb(o, job, r)
  {
  }

  function ReasonCount(o: PublishOutcome, reason: string): nat {
    if reason in o.terminalSkipReasons then o.terminalSkipReasons[reason] else 0
  }

  function Tally(jobs: seq<Job>, reports: seq<Report>): PublishOutcome
    requires |reports| <= |jobs|
    decreases |reports|
  {
    if reports == [] then NO_OUTCOME
    else
      var n := |reports| - 1;
      Absorb(Tally(jobs, reports[..n]), jobs[n], reports[n])
  }

  // ----- what a report promises about the shared world -------------------------------------

  /** The attempt is over, and finished properly exactly when its card may have arrived or its reservations
      were given back (`NoLeaks` says that nothing uncertain is left of the latter). */
  ghost predicate Closed(w: World, target: string, job: Job, kind: StoreKind, attempts: int, r: Report) {
    r.attempt.Some? ==>
      && kind.Outbox?
      && r.attempt.value in w.tickets
      && var t := w.tickets[r.attempt.value];
         && t.target == target && t.job == job && !t.phase.Active?
         && (t.phase.Finished? <==> MayHaveArrived(r.verdict) || (kind.canRelease && r.verdict != Failed(NothingTried)))
         && (t.exposed <==> MayHaveArrived(r.verdict))
         && (r.verdict == Failed(NothingTried) ==> attempts < 1)
  }

  /** What the verdict says is true of the outbox and of the target. */
  ghost predicate Backed(w: World, target: string, job: Job, r: Report) {
    match r.verdict
    case Sent(_) =>
      && r.attempt.Some? && ReachedTarget(w, r.attempt.value)
      && forall k :: k in Keys(target, job) ==> Holds(w, r.attempt.value, k) && w.outbox[k].state.Delivered?
    case InOutbox => exists k :: k in Keys(target, job) && k in w.outbox && w.outbox[k].state.Delivered?
    case OnLedger => r.attempt.None?
    case NearDuplicate => r.attempt.None?
    case Rejected(_) => true
    case Failed(_) => true
  }

  /** What holds of a job that has been dealt with, for good: see `SettledForGood`. */
  ghost predicate Settled(w: World, target: string, job: Job, kind: StoreKind, attempts: int, r: Report) {
    Closed(w, target, job, kind, attempts, r) && (kind.Outbox? ==> Backed(w, target, job, r))
  }

  /** The verdicts after a send that may have reached the target. */
  predicate MayHaveArrived(v: Verdict) {
    v.Sent?
    || (v.Failed? && (v.cause.SendRaised? || v.cause.TargetRefused? || v.cause.BadReceipt?
                      || v.cause.NoReceipt? || v.cause.Unconfirmed?))
  }

  /** The verdicts on a job that somebody else holds an identity of. */
  predicate Blocked(v: Verdict) { v.InOutbox? || v == Failed(HeldElsewhere) }

  /** The verdicts that leave reservations uncertain on such a store: the card may have arrived without proof,
      no attempt was allowed, or the store cannot release. */
  predicate Keeps(kind: StoreKind, v: Verdict) {
    !v.Sent? && (MayHaveArrived(v) || v == Failed(NothingTried) || (kind.Outbox? && !kind.canRelease))
  }

  lemma ReachedForGood(w: World, w': World, a: Attempt)
    requires w.messages <= w'.messages && ReachedTarget(w, a)
    ensures ReachedTarget(w', a)
  {
    var i :| 0 <= i < |w.messages| && w.messages[i].attempt == Some(a);
    assert w'.messages[i].attempt == Some(a);
  }

  /** The attempt of the report still holds something uncertain. */
  ghost predicate SomethingReserved(w: World, r: Report) {
    r.attempt.Some? && exists k :: HoldsUncertain(w, r.attempt.value, k)
  }

  function AttemptOf(r: Report): set<Attempt> { if r.attempt.Some? then {r.attempt.value} else {} }

  /** Only identities of its job are ever reserved by an attempt. */
  lemma HeldAreKeys(w: World, a: Attempt, k: Key)
    requires Inv(w) && Holds(w, a, k)
    ensures a in w.tickets && k in TicketKeys(w.tickets[a])
  {
    assert RecordWellKeyed(w, k);
  }

  /** What an undisturbed attempt still has in hand: `intents` are the records it got. */
  ghost predicate StillInHand(w: World, a: Attempt, intents: seq<Record>, target: string, job: Job, kind: StoreKind,
                              v: Verdict, outbox: map<Key, Record>) {
    var keys := Keys(target, job);
    && keys != [] && ClaimsOf(w, a, intents) && (intents == [] <==> keys[0] in outbox)
    && (Keeps(kind, v) ==> AllStored(w, intents))
    && (if Blocked(v) then kind.Outbox? && (kind.canRelease || HoldsUpTo(w, a, keys, |intents|))
        else |intents| == |keys|)
  }

  /** In an undisturbed run the verdict and the outbox before the call tell whether anything stays reserved. */
  lemma ReservedExactly(w: World, a: Attempt, intents: seq<Record>, target: string, job: Job, kind: StoreKind,
                        attempts: int, r: Report, outbox: map<Key, Record>)
    requires Inv(w) && kind.Outbox? && r.attempt == Some(a) && Keys(target, job) != []
    requires Settled(w, target, job, kind, attempts, r) && LeftBehind(w, target, job, kind, r)
    requires StillInHand(w, a, intents, target, job, kind, r.verdict, outbox)
    ensures SomethingReserved(w, r) <==> StaysReserved(outbox, Keys(target, job), kind, r.verdict)
  {
    var keys := Keys(target, job);
    if StaysReserved(outbox, keys, kind, r.verdict) {
      assert StillStored(w, intents[0]) && intents[0] == Claimed(w, a, keys[0]);
      assert HoldsUncertain(w, a, keys[0]);
    }
    forall k | HoldsUncertain(w, a, k)
      ensures StaysReserved(outbox, keys, kind, r.verdict)
    {
      HeldAreKeys(w, a, k);
      var j :| 0 <= j < |keys| && keys[j] == k;
    }
  }

  lemma SettledForGood(w: World, w': World, target: string, job: Job, kind: StoreKind, attempts: int, r: Report)
    requires Kept(w, w') && Settled(w, target, job, kind, attempts, r)
    ensures Settled(w', target, job, kind, attempts, r)
  {
    if kind.Outbox? && r.verdict.Sent? {
      ReachedForGood(w, w', r.attempt.value);
    }
  }

  // ----- the process ------------------------------------------------------------------------

  class Publisher {
    var world: World
    var outcome: PublishOutcome
    var awaits: nat
    var sends: nat
    ghost var history: seq<Action>
    ghost var mine: set<Attempt>          // the attempts this process began
    ghost const genesis: World
    const others: nat -> seq<Action>
    const sender: nat -> SendEvent

    ghost predicate Valid()
      reads this
    {
      Genesis(genesis) && world == Run(genesis, history)
    }

    /** Nobody else moves from here on. */
    ghost predicate Quiet()
      reads this
    {
      forall n :: n >= awaits ==> others(n) == []
    }

    /** Nobody else moves after the next `n` awaits. */
    ghost predicate QuietAfter(n: nat)
      reads this
    {
      forall m :: m >= awaits + n ==> others(m) == []
    }

    /** The world after the moves of the others at the `n`-th await. */
    function MovedBeside(w: World, n: nat, self: Option<Attempt>): World {
      PublicationProtocol.Run(w, Interference(w, others(n), self))
    }

    /** ... outside any attempt. */
    function Moved(w: World, n: nat): World { MovedBeside(w, n, None) }

    /** The world when both ledgers have been read. */
    function WhenLoaded(w: World, n: nat): World { Moved(Moved(w, n), n + 1) }

    constructor (store: World, past: seq<Action>, others: nat -> seq<Action>, sender: nat -> SendEvent)
      requires Genesis(store)
      ensures Valid() && world == Run(store, past) && history == past && awaits == 0 && sends == 0
      ensures this.others == others && this.sender == sender && mine == {}
    {
      this.world := Run(store, past);
      this.history, this.mine := past, {};
      this.genesis := store;
      this.others := others;
      this.sender := sender;
      this.awaits, this.sends := 0, 0;
      this.outcome := NO_OUTCOME;
    }

    /** What has been true since an earlier moment of the history. */
    lemma KeptSince(w: World, past: seq<Action>)
      requires Valid() && w == Run(genesis, past) && past <= history
      ensures Inv(w) && Inv(world) && Kept(w, world)
    {
      EveryRunKeepsInv(genesis, past);
      EveryRunKeepsInv(genesis, history);
      var since := history[|past|..];
      assert history == past + since;
      RunConcat(genesis, past, since);
      EveryRunKeeps(w, since);
    }

    /** The pause of an `await`: all other parties move. */
    method Yield(self: Option<Attempt>)
      requires Valid() && (self.Some? ==> Running(world, self.value))
      modifies this`world, this`history, this`awaits
      ensures Valid() && awaits == old(awaits) + 1
      ensures world == MovedBeside(old(world), old(awaits), self)
      ensures self.Some? ==> Undisturbed(old(world), world, self.value)
      ensures old(history) <= history
      ensures old(Quiet()) ==> Quiet() && world == old(world)
    {
      var taken := Interference(world, others(awaits), self);
      EveryRunKeepsInv(genesis, history);
      InterferenceKeeps(world, others(awaits), self);
      RunConcat(genesis, history, taken);
      assert others(awaits) == [] ==> taken == [];
      history := history + taken;
      world := Run(world, taken);
      awaits := awaits + 1;
    }

    /** The process's own step. */
    method Take(act: Action)
      requires Valid() && Enabled(world, act) && OwnStep(act, mine)
      modifies this`world, this`history
      ensures Valid() && world == Effect(old(world), act)
      ensures history == old(history) + [act]
    {
      EveryRunKeepsInv(genesis, history);
      assert (history + [act])[..|history|] == history;
      history := history + [act];
      world := Effect(world, act);
    }

    /** A fresh `uuid4`: the only step that makes an attempt this process's own. */
    method BeginAttempt(target: string, job: Job) returns (a: Attempt)
      requires Valid()
      modifies this`world, this`history, this`mine
      ensures Valid() && old(history) <= history
      ensures mine == old(mine) + {a} && a !in old(world).tickets
      ensures a in world.tickets && world.tickets[a] == Ticket(target, job, Active, false)
      ensures forall k :: !Holds(world, a, k)
      ensures world.outbox == old(world).outbox && SameFiles(old(world), world)
    {
      EveryRunKeepsInv(genesis, history);
      FreshExists(world.tickets.Keys);
      a :| a !in world.tickets.Keys;
      forall k
        ensures !Holds(world, a, k)
      {
        assert Holds(world, a, k) ==> a in world.tickets;
      }
      var act := Begin(a, target, job);
      assert (history + [act])[..|history|] == history;
      history := history + [act];
      world := Effect(world, act);
      mine := mine + {a};
    }

    /** `enqueue_outbox` for one identity. */
    method Enqueue(a: Attempt, k: Key) returns (stored: Record)
      requires Valid() && a in mine && Running(world, a) && !world.tickets[a].exposed
      requires k in TicketKeys(world.tickets[a]) && !Holds(world, a, k)
      modifies this`world, this`history, this`awaits
      ensures Valid() && old(history) <= history
      ensures Running(world, a) && world.tickets[a] == old(world).tickets[a]
      ensures k in world.outbox && stored == world.outbox[k] && stored.key == k
      ensures Owned(stored, a) ==> stored == Claimed(world, a, k)
      ensures forall k' :: Holds(world, a, k') <==> Holds(old(world), a, k') || (k' == k && Owned(stored, a))
      ensures StaysInHand(old(world), world, a)
      ensures old(Quiet()) ==>
                && Quiet() && SameFiles(old(world), world)
                && world.outbox == if k in old(world).outbox then old(world).outbox
                                   else old(world).outbox[k := Claimed(world, a, k)]
    {
      Yield(Some(a));
      Take(Reserve(a, k));
      stored := world.outbox[k];
      EveryRunKeepsInv(genesis, history);
    }

    /** One turn of the reservation loop; `held` are the identities reserved so far. */
    method ReserveNext(a: Attempt, k: Key, ghost held: seq<Key>, ghost intents: seq<Record>) returns (stored: Record)
      requires Valid() && a in mine && Running(world, a) && !world.tickets[a].exposed
      requires k in TicketKeys(world.tickets[a]) && k !in held
      requires Reserving(world, a, held, intents)
      modifies this`world, this`history, this`awaits
      ensures Valid() && old(history) <= history
      ensures Running(world, a) && world.tickets[a] == old(world).tickets[a]
      ensures k in world.outbox && stored == world.outbox[k] && stored.key == k
      ensures if Owned(stored, a) then Reserving(world, a, held + [k], intents + [stored])
              else Reserving(world, a, held, intents)
      ensures old(Quiet()) ==>
                && Quiet() && SameFiles(old(world), world)
                && (Owned(stored, a) <==> k !in old(world).outbox)
                && (old(AllStored(world, intents)) ==>
                      AllStored(world, if Owned(stored, a) then intents + [stored] else intents))
                && Frame(old(world).outbox, world.outbox, [k])
      ensures old(Quiet()) && k in old(world).outbox ==> stored == old(world).outbox[k]
    {
      ghost var w0 := world;
      stored := Enqueue(a, k);
      ReservingOneMore(w0, world, a, k, held, intents, stored);
    }

    /** The `i`-th turn; `w0` is the world before the loop. */
    method ReserveAt(a: Attempt, keys: seq<Key>, i: nat, ghost intents: seq<Record>, ghost w0: World, ghost quiet: bool)
      returns (stored: Record)
      requires Valid() && a in mine && Running(world, a) && !world.tickets[a].exposed
      requires keys == TicketKeys(world.tickets[a]) && i < |keys| && Reserving(world, a, keys[..i], intents)
      requires quiet ==> Quiet() && AllStored(world, intents) && SameFiles(w0, world)
      requires quiet ==> Searched(w0.outbox, world.outbox, keys, i)
      modifies this`world, this`history, this`awaits
      ensures Valid() && old(history) <= history
      ensures Running(world, a) && world.tickets[a] == old(world).tickets[a]
      ensures stored.key == keys[i] && keys[i] in world.outbox && stored == world.outbox[keys[i]]
      ensures if Owned(stored, a) then Reserving(world, a, keys[..i + 1], intents + [stored])
              else Reserving(world, a, keys[..i], intents)
      ensures quiet ==>
                && Quiet() && SameFiles(w0, world)
                && AllStored(world, if Owned(stored, a) then intents + [stored] else intents)
                && if Owned(stored, a) then Searched(w0.outbox, world.outbox, keys, i + 1)
                   else SearchResult(w0.outbox, world.outbox, keys, i, Some(stored))
    {
      NextKey(world.tickets[a], i);
      ghost var w1 := world;
      stored := ReserveNext(a, keys[i], keys[..i], intents);
      if quiet {
        if Owned(stored, a) {
          SearchGoesOn(w0.outbox, w1.outbox, world.outbox, keys, i);
        } else {
          SearchEnds(w0.outbox, w1.outbox, world.outbox, keys, i);
        }
      }
    }

    /** The loop: reserves one identity after the other until somebody else holds one. */
    method ReserveInTurn(a: Attempt, keys: seq<Key>) returns (intents: seq<Record>, blocker: Option<Record>)
      requires Valid() && a in mine && Running(world, a) && !world.tickets[a].exposed
      requires keys == TicketKeys(world.tickets[a]) && forall k :: !Holds(world, a, k)
      modifies this`world, this`history, this`awaits
      ensures Valid() && old(history) <= history
      ensures Running(world, a) && world.tickets[a] == old(world).tickets[a]
      ensures |intents| <= |keys| && Reserving(world, a, keys[..|intents|], intents)
      ensures if blocker.None? then |intents| == |keys|
              else && |intents| < |keys| && blocker.value.key == keys[|intents|] && blocker.value.key in world.outbox
                   && blocker.value == world.outbox[blocker.value.key]
      ensures old(Quiet()) ==> Quiet() && AllStored(world, intents) && SameFiles(old(world), world)
      ensures old(Quiet()) ==> SearchResult(old(world).outbox, world.outbox, keys, |intents|, blocker)
    {
      ghost var w0 := world;
      intents, blocker := [], None;
      ghost var quiet := Quiet();
      var i := 0;
      while i < |keys|
        invariant 0 <= i == |intents| <= |keys|
        invariant Valid() && old(history) <= history
        invariant Running(world, a) && world.tickets[a] == w0.tickets[a]
        invariant Reserving(world, a, keys[..i], intents)
        invariant quiet ==> Quiet() && AllStored(world, intents) && SameFiles(w0, world)
        invariant quiet ==> Searched(w0.outbox, world.outbox, keys, i)
      {
        var stored := ReserveAt(a, keys, i, intents, w0, quiet);
        if !Owned(stored, a) {
          blocker := Some(stored);
          return;
        }
        intents := intents + [stored];
        i := i + 1;
      }
    }

    /** Reserves every identity in turn, stopping at the first one that somebody else holds. */
    method ReserveAll(a: Attempt) returns (intents: seq<Record>, blocker: Option<Record>)
      requires Valid() && a in mine && Running(world, a) && !world.tickets[a].exposed
      requires forall k :: !Holds(world, a, k)
      modifies this`world, this`history, this`awaits
      ensures Valid() && old(history) <= history
      ensures Running(world, a) && world.tickets[a] == old(world).tickets[a]
      ensures ClaimsOf(world, a, intents) && InHand(world, a, intents)
      ensures HoldsUpTo(world, a, TicketKeys(world.tickets[a]), |intents|)
      ensures var keys := TicketKeys(world.tickets[a]);
              if blocker.None? then |intents| == |keys| && HoldsAll(world, a, keys)
              else && |intents| < |keys|
                   && blocker.value.key in keys && blocker.value.key in world.outbox
                   && blocker.value == world.outbox[blocker.value.key]
      ensures old(Quiet()) ==> Quiet() && AllStored(world, intents) && SameFiles(old(world), world)
      ensures old(Quiet()) ==>
                SearchResult(old(world).outbox, world.outbox, TicketKeys(world.tickets[a]), |intents|, blocker)
    {
      var keys := TicketKeys(world.tickets[a]);
      intents, blocker := ReserveInTurn(a, keys);
      HoldsPrefix(world, a, |intents|, intents);
    }

    /** `release_uncertain_outbox`: `rest` are the records still to be given back. */
    method ReleaseOne(a: Attempt, r: Record, ghost rest: seq<Record>)
      requires Valid() && a in mine && Running(world, a) && !world.tickets[a].exposed
      requires Owned(r, a) && InHand(world, a, [r] + rest)
      modifies this`world, this`history, this`awaits
      ensures Valid() && old(history) <= history && (old(Quiet()) ==> Quiet())
      ensures Running(world, a) && world.tickets[a] == old(world).tickets[a]
      ensures InHand(world, a, rest)
      ensures old(Quiet()) ==> SameFiles(old(world), world) && Frame(old(world).outbox, world.outbox, [r.key])
    {
      Yield(Some(a));
      assert InHand(world, a, [r] + rest);
      EveryRunKeepsInv(genesis, history);
      Take(Release(a, r));
    }

    /** `confirm_uncertain_outbox`: `None`, here `false`, when the record is not the caller's any more. */
    method ConfirmOne(a: Attempt, r: Record, receipt: Receipt, ghost rest: seq<Record>) returns (confirmed: bool)
      requires Valid() && a in mine && Running(world, a) && world.tickets[a].exposed
      requires Owned(r, a) && InHand(world, a, [r] + rest)
      modifies this`world, this`history, this`awaits
      ensures Valid() && old(history) <= history && (old(Quiet()) ==> Quiet())
      ensures Running(world, a) && world.tickets[a] == old(world).tickets[a]
      ensures forall k :: Holds(world, a, k) <==> Holds(old(world), a, k)
      ensures confirmed ==>
                InHand(world, a, rest) && r.key in world.outbox && world.outbox[r.key] == Confirmed(r, receipt)
      ensures old(Quiet()) ==>
                && SameFiles(old(world), world) && confirmed == StillStored(old(world), r)
                && world.outbox == if confirmed then old(world).outbox[r.key := Confirmed(r, receipt)]
                                   else old(world).outbox
    {
      Yield(Some(a));
      assert InHand(world, a, [r] + rest);
      EveryRunKeepsInv(genesis, history);
      confirmed := StillStored(world, r);
      Take(Confirm(a, r, receipt));
    }

    /** Gives back what the attempt acquired, if the store can. */
    method ReleaseAll(a: Attempt, intents: seq<Record>, kind: StoreKind)
      requires Valid() && a in mine && Running(world, a) && !world.tickets[a].exposed && kind.Outbox?
      requires ClaimsOf(world, a, intents) && InHand(world, a, intents)
      modifies this`world, this`history, this`awaits
      ensures Valid() && old(history) <= history && (old(Quiet()) ==> Quiet())
      ensures Running(world, a) && world.tickets[a] == old(world).tickets[a]
      ensures kind.canRelease ==> NothingUncertain(world, a)
      ensures !kind.canRelease ==> world == old(world)
      ensures old(Quiet()) ==>
        SameFiles(old(world), world)
        && Frame(old(world).outbox, world.outbox, TicketKeys(world.tickets[a]))
    {
      if !kind.canRelease {
        return;
      }
      var i := 0;
      ghost var quiet := Quiet();
      while i < |intents|
        invariant 0 <= i <= |intents|
        invariant Valid() && old(history) <= history && (quiet ==> Quiet())
        invariant Running(world, a) && world.tickets[a] == old(world).tickets[a]
        invariant InHand(world, a, intents[i..])
        invariant quiet ==>
          SameFiles(old(world), world)
          && Frame(old(world).outbox, world.outbox, TicketKeys(world.tickets[a]))
      {
        assert intents[i..] == [intents[i]] + intents[i + 1..];
        ReleaseOne(a, intents[i], intents[i + 1..]);
        i := i + 1;
      }
      assert intents[i..] == [];
    }

    /** Confirms the reservations of a card that arrived, until one is no longer the caller's. */
    method ConfirmAll(a: Attempt, intents: seq<Record>, receipt: Receipt) returns (ok: bool)
      requires Valid() && a in mine && Running(world, a) && world.tickets[a].exposed
      requires ClaimsOf(world, a, intents) && InHand(world, a, intents)
      requires HoldsAll(world, a, TicketKeys(world.tickets[a]))
      modifies this`world, this`history, this`awaits
      ensures Valid() && old(history) <= history
      ensures Running(world, a) && world.tickets[a] == old(world).tickets[a]
      ensures HoldsAll(world, a, TicketKeys(world.tickets[a]))
      ensures ok ==> forall k :: k in TicketKeys(world.tickets[a]) ==> !HoldsUncertain(world, a, k)
      ensures old(Quiet()) ==>
                && Quiet() && SameFiles(old(world), world) && (old(AllStored(world, intents)) ==> ok)
                && Frame(old(world).outbox, world.outbox, TicketKeys(world.tickets[a]))
    {
      KeysDistinct(world.tickets[a].target, world.tickets[a].job);
      var i := 0;
      ghost var quiet := Quiet();
      while i < |intents|
        invariant 0 <= i <= |intents|
        invariant Valid() && old(history) <= history
        invariant Running(world, a) && world.tickets[a] == old(world).tickets[a]
        invariant InHand(world, a, intents[i..])
        invariant HoldsAll(world, a, TicketKeys(world.tickets[a]))
        invariant quiet ==> Quiet() && (old(AllStored(world, intents)) ==> AllStored(world, intents[i..]))
        invariant quiet ==>
          SameFiles(old(world), world)
          && Frame(old(world).outbox, world.outbox, TicketKeys(world.tickets[a]))
      {
        assert intents[i..] == [intents[i]] + intents[i + 1..];
        var confirmed := ConfirmOne(a, intents[i], receipt, intents[i + 1..]);
        if !confirmed {
          return false;
        }
        i := i + 1;
      }
      assert intents[i..] == [];
      ok := true;
    }

    /** One `sender.send` of a card whose identities are all reserved. */
    method SendOnce(a: Attempt) returns (e: SendEvent)
      requires Valid() && a in mine && Running(world, a) && !world.tickets[a].exposed
      requires TicketKeys(world.tickets[a]) != []
      requires HoldsAll(world, a, TicketKeys(world.tickets[a]))
      modifies this`world, this`history, this`awaits, this`sends
      ensures Valid() && old(history) <= history
      ensures e == sender(old(sends)) && sends == old(sends) + 1
      ensures Running(world, a) && world.tickets[a] == old(world).tickets[a].(exposed := !Definite(e))
      ensures SameHoldings(old(world), world, a)
      ensures Reached(e) ==> ReachedTarget(world, a)
      ensures old(Quiet()) ==> Quiet() && SameFiles(old(world), world) && world.outbox == old(world).outbox
    {
      Yield(Some(a));
      e := sender(sends);
      sends := sends + 1;
      Take(Transmit(a, Reached(e), Definite(e)));
      if Reached(e) {
        assert world.messages[|world.messages| - 1].attempt == Some(a);
      }
    }

    /** One turn of the send loop: send, and after a flood wait note it and sleep if another attempt is left. */
    method SendThenWait(a: Attempt, more: bool) returns (e: SendEvent)
      requires Valid() && a in mine && Running(world, a) && !world.tickets[a].exposed
      requires TicketKeys(world.tickets[a]) != []
      requires HoldsAll(world, a, TicketKeys(world.tickets[a]))
      modifies this`world, this`history, this`awaits, this`sends, this`outcome
      ensures Valid() && old(history) <= history
      ensures e == sender(old(sends)) && sends == old(sends) + 1
      ensures outcome == Noted(old(outcome), if e.Flooded? then Some(e.detail) else None)
      ensures Running(world, a) && world.tickets[a] == old(world).tickets[a].(exposed := !Definite(e))
      ensures SameHoldings(old(world), world, a)
      ensures Reached(e) ==> ReachedTarget(world, a)
      ensures old(Quiet()) ==> Quiet() && SameFiles(old(world), world) && world.outbox == old(world).outbox
    {
      ghost var w0 := world;
      e := SendOnce(a);
      if e.Flooded? {
        Note(e.detail);
        if more {
          ghost var w1 := world;
          Yield(Some(a));      // sleep(retry_after + 1)
          HoldingsChain(w0, w1, world, a);
        }
      }
    }

    /** The send loop for a card whose identities are all reserved. */
    method SendReserved(a: Attempt, attempts: int) returns (last: Option<SendEvent>, flood: Option<string>)
      requires Valid() && a in mine && Running(world, a) && !world.tickets[a].exposed
      requires TicketKeys(world.tickets[a]) != []
      requires HoldsAll(world, a, TicketKeys(world.tickets[a]))
      modifies this`world, this`history, this`awaits, this`sends, this`outcome
      ensures Valid() && old(history) <= history && (old(Quiet()) ==> Quiet())
      ensures last == Ending(sender, old(sends), attempts)
      ensures outcome == Noted(old(outcome), flood)
      ensures Running(world, a)
      ensures world.tickets[a] == old(world).tickets[a].(exposed := last.Some? && !Definite(last.value))
      ensures SameHoldings(old(world), world, a)
      ensures last.Some? && Reached(last.value) ==> ReachedTarget(world, a)
      ensures last.Some? && last.value.Flooded? ==> flood == Some(last.value.detail)
      ensures old(Quiet()) ==> SameFiles(old(world), world) && world.outbox == old(world).outbox
    {
      last, flood := None, None;
      var n := 1;
      ghost var quiet, w0 := Quiet(), world;
      ghost var left, ending := attempts, Ending(sender, sends, attempts);
      while n <= attempts
        invariant 1 <= n && (n <= attempts || attempts < 1)
        invariant Valid() && old(history) <= history && (quiet ==> Quiet())
        invariant last == None && outcome == Noted(old(outcome), flood)
        invariant left == attempts - n + 1 && Ending(sender, sends, left) == ending
        invariant Running(world, a) && world.tickets[a] == w0.tickets[a]
        invariant SameHoldings(w0, world, a)
        invariant quiet ==> SameFiles(w0, world) && world.outbox == w0.outbox
        decreases attempts - n
      {
        ghost var w1 := world;
        NextAttempt(sender, sends, left);
        StillAllHeld(w0, world, a);
        var e := SendThenWait(a, n < attempts);
        HoldingsChain(w0, w1, world, a);
        if !e.Flooded? {
          last := Some(e);
          return;
        }
        flood := Some(e.detail);
        if n >= attempts {
          last := Some(e);
          return;
        }
        n := n + 1;
        left := left - 1;
      }
    }

    method SendOnceBare(target: string, job: Job) returns (e: SendEvent)
      requires Valid()
      modifies this`world, this`history, this`awaits, this`sends
      ensures Valid() && old(history) <= history && (old(Quiet()) ==> Quiet() && SameFiles(old(world), world))
      ensures e == sender(old(sends)) && sends == old(sends) + 1
    {
      Yield(None);
      e := sender(sends);
      sends := sends + 1;
      Take(TransmitBare(target, job, Reached(e)));
    }

    /** The send loop on a store without an outbox: nothing is reserved. */
    method SendBare(target: string, job: Job, attempts: int) returns (last: Option<SendEvent>, flood: Option<string>)
      requires Valid()
      modifies this`world, this`history, this`awaits, this`sends, this`outcome
      ensures Valid() && old(history) <= history && (old(Quiet()) ==> Quiet() && SameFiles(old(world), world))
      ensures last == Ending(sender, old(sends), attempts)
      ensures outcome == Noted(old(outcome), flood)
      ensures last.Some? && last.value.Flooded? ==> flood == Some(last.value.detail)
    {
      last, flood := None, None;
      var n := 1;
      ghost var quiet := Quiet();
      ghost var left, ending := attempts, Ending(sender, sends, attempts);
      while n <= attempts
        invariant 1 <= n && (n <= attempts || attempts < 1)
        invariant Valid() && old(history) <= history && (quiet ==> Quiet() && SameFiles(old(world), world))
        invariant last == None && outcome == Noted(old(outcome), flood)
        invariant left == attempts - n + 1 && Ending(sender, sends, left) == ending
        decreases attempts - n
      {
        NextAttempt(sender, sends, left);
        var e := SendOnceBare(target, job);
        if !e.Flooded? {
          last := Some(e);
          return;
        }
        flood := Some(e.detail);
        Note(e.detail);
        if n >= attempts {
          last := Some(e);
          return;
        }
        Yield(None);         // sleep(retry_after + 1)
        n := n + 1;
        left := left - 1;
      }
    }

    /** The code is done with an attempt. */
    method Close(a: Attempt, phase: Phase)
      requires Valid() && a in mine && Running(world, a) && !phase.Active?
      requires phase.Finished? ==> world.tickets[a].exposed || NothingUncertain(world, a)
      modifies this`world, this`history
      ensures Valid() && old(history) <= history
      ensures a in world.tickets && world.tickets[a] == old(world).tickets[a].(phase := phase)
      ensures world.outbox == old(world).outbox && world.messages == old(world).messages
      ensures SameFiles(old(world), world)
    {
      Take(if phase.Finished? then Finish(a) else Abandon(a));
    }

    /** The code is done with an attempt whose card certainly did not arrive. */
    method GiveUp(a: Attempt, intents: seq<Record>, kind: StoreKind)
      requires Valid() && a in mine && Running(world, a) && !world.tickets[a].exposed && kind.Outbox?
      requires ClaimsOf(world, a, intents) && InHand(world, a, intents)
      modifies this`world, this`history, this`awaits
      ensures Valid() && old(history) <= history && (old(Quiet()) ==> Quiet())
      ensures a in world.tickets
      ensures world.tickets[a] ==
              old(world).tickets[a].(phase := if kind.canRelease then Finished else Abandoned)
      ensures if kind.canRelease then NothingUncertain(world, a) else world.outbox == old(world).outbox
      ensures old(Quiet()) ==>
        SameFiles(old(world), world)
        && Frame(old(world).outbox, world.outbox, TicketKeys(world.tickets[a]))
    {
      ReleaseAll(a, intents, kind);
      ghost var w1 := world;
      Close(a, if kind.canRelease then Finished else Abandoned);
      OutboxDecides(w1, world, a, [], 0);
    }

    /** The receipts are what was read and the new one, whatever the others wrote between read and write. */
    function Persisted(w: World, n: nat, self: Option<Attempt>, receipt: Receipt): World {
      var read := MovedBeside(w, n, self);
      MovedBeside(read, n + 1, self).(receipts := Trimmed(read.receipts + [receipt]))
    }

    /** `persist_delivery_receipt`: a read and a write, with others in between. */
    method PersistReceipt(receipt: Receipt, self: Option<Attempt>)
      requires Valid() && (self.Some? ==> Running(world, self.value))
      modifies this`world, this`history, this`awaits
      ensures Valid() && old(history) <= history && (old(Quiet()) ==> Quiet())
      ensures self.Some? ==>
                Running(world, self.value) && world.tickets[self.value] == old(world).tickets[self.value]
                && SameHoldings(old(world), world, self.value)
      ensures self.Some? && old(ReachedTarget(world, self.value)) ==> ReachedTarget(world, self.value)
      ensures receipt in world.receipts
      ensures world == Persisted(old(world), old(awaits), self, receipt)
      ensures old(Quiet()) ==>
                && SameLists(old(world), world) && world.outbox == old(world).outbox
                && world.receipts == Trimmed(old(world).receipts + [receipt])
    {
      ghost var w0, h0 := world, history;
      Yield(self);
      var rows := world.receipts;
      Yield(self);
      Take(WriteReceipts(Trimmed(rows + [receipt])));
      KeepsLast(rows, receipt);
      KeptSince(w0, h0);
      if self.Some? && ReachedTarget(w0, self.value) {
        ReachedForGood(w0, world, self.value);
      }
    }

    /** A card that arrived and has a usable receipt: persist it, then confirm the reservations. */
    method Settle(a: Attempt, intents: seq<Record>, kind: StoreKind, receipt: Receipt) returns (ok: bool)
      requires Valid() && a in mine && Running(world, a) && world.tickets[a].exposed && kind.Outbox?
      requires ReachedTarget(world, a)
      requires ClaimsOf(world, a, intents) && InHand(world, a, intents)
      requires HoldsAll(world, a, TicketKeys(world.tickets[a]))
      modifies this`world, this`history, this`awaits
      ensures Valid() && old(history) <= history && (old(Quiet()) ==> Quiet())
      ensures a in world.tickets && world.tickets[a] == old(world).tickets[a].(phase := Finished)
      ensures ok ==> ReachedTarget(world, a) && forall k :: k in TicketKeys(world.tickets[a]) ==>
                       Holds(world, a, k) && world.outbox[k].state.Delivered?
      ensures !kind.canConfirm ==> !ok
      ensures old(Quiet()) && !kind.canConfirm ==> world.outbox == old(world).outbox
      ensures HoldsAll(world, a, TicketKeys(world.tickets[a]))
      ensures old(Quiet()) ==>
        Receiving(old(world), world, receipt)
        && Frame(old(world).outbox, world.outbox, TicketKeys(world.tickets[a]))
      ensures old(Quiet()) && kind.canConfirm && old(AllStored(world, intents)) ==> ok
    {
      ghost var w0, h0 := world, history;
      PersistReceipt(receipt, Some(a));
      ok := false;
      if kind.canConfirm {
        ok := ConfirmAll(a, intents, receipt);
      }
      Close(a, Finished);
      KeptSince(w0, h0);
      ReachedForGood(w0, world, a);
    }

    method Note(error: string)
      modifies this`outcome
      ensures outcome == old(outcome).(error := Some(error))
    {
      outcome := outcome.(error := Some(error));
    }

    /** Somebody else holds one of the identities. */
    method RefuseBlocked(a: Attempt, intents: seq<Record>, blocker: Record, job: Job, target: string,
                         kind: StoreKind, attempts: int)
      returns (report: Report)
      requires Valid() && a in mine && Prepared(world, a, target, job) && !world.tickets[a].exposed && kind.Outbox?
      requires ClaimsOf(world, a, intents) && InHand(world, a, intents)
      requires blocker.key in Keys(target, job)
      requires blocker.key in world.outbox && world.outbox[blocker.key] == blocker
      requires |intents| < |Keys(target, job)| && HoldsUpTo(world, a, Keys(target, job), |intents|)
      modifies this`world, this`history, this`awaits, this`outcome
      ensures Valid() && old(history) <= history && (old(Quiet()) ==> Quiet())
      ensures report.attempt == Some(a) && Settled(world, target, job, kind, attempts, report)
      ensures old(Quiet()) ==> SameFiles(old(world), world) && Frame(old(world).outbox, world.outbox, Keys(target, job))
      ensures outcome == Absorb(old(outcome), job, report)
      ensures report.verdict == if blocker.state.Delivered? then InOutbox else Failed(HeldElsewhere)
      ensures LeftBehind(world, target, job, kind, report)
      ensures kind.canRelease || HoldsUpTo(world, a, Keys(target, job), |intents|)
      ensures !kind.canRelease ==> world.outbox == old(world).outbox
    {
      ghost var w1, h1 := world, history;
      GiveUp(a, intents, kind);
      KeptSince(w1, h1);
      if blocker.state.Delivered? {
        outcome := outcome.(skippedAlreadyPublished := outcome.skippedAlreadyPublished + 1);
        report := Report(InOutbox, Some(a), None);
      } else {
        report := CountUnclear(HeldElsewhere, job, Some(a));
      }
      BlockedIsSettled(w1, world, a, |intents|, blocker, job, target, kind, attempts, report);
    }

    /** The accounting of a card that certainly did not arrive. */
    method CountUnsent(e: SendEvent, flood: Option<string>, job: Job, kind: StoreKind, attempt: Option<Attempt>)
      returns (report: Report)
      requires Definite(e) && (flood.Some? ==> outcome.error == flood)
      modifies this`outcome
      ensures report.attempt == attempt && report.verdict == AfterSending(kind, e)
      ensures outcome == Absorb(old(outcome), job, report) && (flood.Some? ==> report.error.Some?)
    {
      match e
      case CardRejected(reason) =>
        outcome := outcome.(
          cardValidationRejections := outcome.cardValidationRejections + 1,
          terminalSkips := outcome.terminalSkips + 1,
          terminalSkipReasons := outcome.terminalSkipReasons[reason := ReasonCount(outcome, reason) + 1]);
        report := Report(Rejected(reason), attempt, flood);
      case Flooded(detail) =>
        outcome := outcome.(hadTransientFailure := true);
        report := Report(Failed(FloodExhausted), attempt, flood);
      case TargetGone(detail) =>
        Note(detail);
        outcome := outcome.(targetUnusable := true);
        report := Report(Failed(TargetUnusable), attempt, Some(detail));
    }

    /** The accounting of a send that raised an unknown exception. */
    method CountRaised(detail: string, fatal: bool, retryable: bool, job: Job, attempt: Option<Attempt>)
      returns (report: Report)
      modifies this`outcome
      ensures report.attempt == attempt && report.error.Some?
      ensures report.verdict == Failed(if fatal then TargetRefused else SendRaised(retryable))
      ensures outcome == Absorb(old(outcome), job, report)
    {
      Note(detail);
      if fatal {
        outcome := outcome.(targetUnusable := true);
        return Report(Failed(TargetRefused), attempt, Some(detail));
      }
      if retryable {
        outcome := outcome.(hadTransientFailure := true);
      }
      report := Report(Failed(SendRaised(retryable)), attempt, Some(detail));
    }

    /** The accounting of a delivery. */
    method CountSent(receipt: Option<Receipt>, flood: Option<string>, job: Job, attempt: Option<Attempt>)
      returns (report: Report)
      requires flood.Some? ==> outcome.error == flood
      modifies this`outcome
      ensures report == Report(Sent(receipt), attempt, flood)
      ensures outcome == Absorb(old(outcome), job, report)
    {
      outcome := outcome.(sent := outcome.sent + 1, delivered := outcome.delivered + [job]);
      if receipt.Some? {
        outcome := outcome.(receipts := outcome.receipts + [receipt.value]);
      }
      report := Report(Sent(receipt), attempt, flood);
    }

    /** The accounting on a store without an outbox. */
    method CountBare(last: Option<SendEvent>, flood: Option<string>, job: Job, kind: StoreKind)
      returns (report: Report)
      requires !kind.Outbox? && (flood.Some? ==> outcome.error == flood)
      modifies this`outcome
      ensures report.attempt == None && report.verdict == Planned(kind, last)
      ensures outcome == Absorb(old(outcome), job, report) && (flood.Some? ==> report.error.Some?)
    {
      if last.None? {
        report := Report(Failed(NothingTried), None, flood);
      } else if Definite(last.value) {
        report := CountUnsent(last.value, flood, job, kind, None);
      } else if last.value.Raised? {
        report := CountRaised(last.value.detail, last.value.fatal, last.value.retryable, job, None);
      } else {
        report := CountSent(if last.value.Receipted? then Some(last.value.receipt) else None, flood, job, None);
      }
    }

    /** The accounting of a publication the operator has to reconcile. */
    method CountUnclear(cause: Cause, job: Job, attempt: Option<Attempt>) returns (report: Report)
      requires cause.HeldElsewhere? || cause.NoReceipt? || cause.BadReceipt? || cause.Unconfirmed?
      modifies this`outcome
      ensures report == Report(Failed(cause), attempt, Some("delivery_requires_reconciliation"))
      ensures outcome == Absorb(old(outcome), job, report)
    {
      Note("delivery_requires_reconciliation");
      if !cause.Unconfirmed? {
        outcome := outcome.(hadTransientFailure := true);
      }
      report := Report(Failed(cause), attempt, Some("delivery_requires_reconciliation"));
    }

    /** The last send certainly did not reach the target: give the reservations back. */
    method ConcludeUnsent(a: Attempt, intents: seq<Record>, e: SendEvent, flood: Option<string>, job: Job,
                          target: string, kind: StoreKind, attempts: int)
      returns (report: Report)
      requires Valid() && a in mine && Prepared(world, a, target, job) && !world.tickets[a].exposed && kind.Outbox?
      requires ClaimsOf(world, a, intents) && InHand(world, a, intents)
      requires HoldsAll(world, a, Keys(target, job))
      requires Definite(e) && attempts >= 1 && (flood.Some? ==> outcome.error == flood)
      modifies this`world, this`history, this`awaits, this`outcome
      ensures Valid() && old(history) <= history && (old(Quiet()) ==> Quiet())
      ensures report.attempt == Some(a) && Settled(world, target, job, kind, attempts, report)
      ensures old(Quiet()) ==> SameFiles(old(world), world) && Frame(old(world).outbox, world.outbox, Keys(target, job))
      ensures outcome == Absorb(old(outcome), job, report) && (flood.Some? ==> report.error.Some?)
      ensures report.verdict == AfterSending(kind, e) && LeftBehind(world, target, job, kind, report)
      ensures !kind.canRelease ==> world.outbox == old(world).outbox
    {
      GiveUp(a, intents, kind);
      report := CountUnsent(e, flood, job, kind, Some(a));
    }

    /** The card may have reached the target, and nothing proves it: the reservations stay. */
    method ConcludeUnknown(a: Attempt, e: SendEvent, job: Job, target: string, kind: StoreKind, attempts: int)
      returns (report: Report)
      requires Valid() && a in mine && Prepared(world, a, target, job) && world.tickets[a].exposed && kind.Outbox?
      requires e.Raised? || e.Unreceipted? || (e.Receipted? && !Confirmable(e.receipt.message))
      requires HoldsAll(world, a, Keys(target, job))
      modifies this`world, this`history, this`awaits, this`outcome
      ensures Valid() && old(history) <= history && (old(Quiet()) ==> Quiet())
      ensures report.attempt == Some(a) && Settled(world, target, job, kind, attempts, report)
      ensures old(Quiet()) ==> SameFiles(old(world), world) && Frame(old(world).outbox, world.outbox, Keys(target, job))
      ensures outcome == Absorb(old(outcome), job, report) && report.error.Some?
      ensures report.verdict == AfterSending(kind, e) && LeftBehind(world, target, job, kind, report)
      ensures world.outbox == old(world).outbox
    {
      Close(a, Finished);
      if e.Raised? {
        report := CountRaised(e.detail, e.fatal, e.retryable, job, Some(a));
      } else {
        report := CountUnclear(if e.Unreceipted? then NoReceipt else BadReceipt, job, Some(a));
      }
    }

    /** The card arrived, with a usable receipt. */
    method ConcludeReceipted(a: Attempt, intents: seq<Record>, receipt: Receipt, flood: Option<string>, job: Job,
                             target: string, kind: StoreKind, attempts: int)
      returns (report: Report)
      requires Valid() && a in mine && Prepared(world, a, target, job) && world.tickets[a].exposed && kind.Outbox?
      requires ReachedTarget(world, a) && Confirmable(receipt.message)
      requires ClaimsOf(world, a, intents) && InHand(world, a, intents)
      requires HoldsAll(world, a, Keys(target, job))
      requires flood.Some? ==> outcome.error == flood
      modifies this`world, this`history, this`awaits, this`outcome
      ensures Valid() && old(history) <= history && (old(Quiet()) ==> Quiet())
      ensures report.attempt == Some(a) && Settled(world, target, job, kind, attempts, report)
      ensures old(Quiet()) ==>
        Receiving(old(world), world, receipt)
        && Frame(old(world).outbox, world.outbox, Keys(target, job))
      ensures outcome == Absorb(old(outcome), job, report) && (flood.Some? ==> report.error.Some?)
      ensures report.verdict == AfterSending(kind, Receipted(receipt)) || report.verdict == Failed(Unconfirmed(receipt))
      ensures LeftBehind(world, target, job, kind, report)
      ensures old(Quiet()) && !kind.canConfirm ==> world.outbox == old(world).outbox
      ensures old(Quiet()) && old(AllStored(world, intents)) ==>
                report.verdict == AfterSending(kind, Receipted(receipt))
    {
      var ok := Settle(a, intents, kind, receipt);
      if ok {
        report := CountSent(Some(receipt), flood, job, Some(a));
      } else {
        report := CountUnclear(Unconfirmed(receipt), job, Some(a));
      }
    }

    /** The loop body never ran: no attempt was allowed. The reservations stay behind. */
    method ConcludeUntried(a: Attempt, flood: Option<string>, job: Job, target: string, kind: StoreKind, attempts: int)
      returns (report: Report)
      requires Valid() && a in mine && Prepared(world, a, target, job) && !world.tickets[a].exposed && kind.Outbox?
      requires HoldsAll(world, a, Keys(target, job))
      requires attempts < 1 && (flood.Some? ==> outcome.error == flood)
      modifies this`world, this`history, this`awaits, this`outcome
      ensures Valid() && old(history) <= history && (old(Quiet()) ==> Quiet())
      ensures report.attempt == Some(a) && Settled(world, target, job, kind, attempts, report)
      ensures old(Quiet()) ==> SameFiles(old(world), world) && Frame(old(world).outbox, world.outbox, Keys(target, job))
      ensures outcome == Absorb(old(outcome), job, report) && report.error == flood
      ensures report.verdict == Failed(NothingTried) && LeftBehind(world, target, job, kind, report)
      ensures world.outbox == old(world).outbox
    {
      Close(a, Abandoned);
      report := Report(Failed(NothingTried), Some(a), flood);
    }

    /** After the send loop: `last` is how it ended, if there was one. */
    method Conclude(a: Attempt, intents: seq<Record>, last: Option<SendEvent>, flood: Option<string>, job: Job,
                    target: string, kind: StoreKind, attempts: int)
      returns (report: Report)
      requires Valid() && a in mine && Prepared(world, a, target, job) && kind.Outbox?
      requires world.tickets[a].exposed <==> last.Some? && !Definite(last.value)
      requires last.Some? <==> attempts >= 1
      requires flood.Some? ==> outcome.error == flood
      requires last.Some? && Reached(last.value) ==> ReachedTarget(world, a)
      requires ClaimsOf(world, a, intents) && InHand(world, a, intents)
      requires HoldsAll(world, a, Keys(target, job))
      modifies this`world, this`history, this`awaits, this`outcome
      ensures Valid() && old(history) <= history && (old(Quiet()) ==> Quiet())
      ensures report.attempt == Some(a) && Settled(world, target, job, kind, attempts, report)
      ensures old(Quiet()) ==>
        FilesAfter(old(world), world, kind, report.verdict)
        && Frame(old(world).outbox, world.outbox, Keys(target, job))
      ensures outcome == Absorb(old(outcome), job, report) && (flood.Some? ==> report.error.Some?)
      ensures LeftBehind(world, target, job, kind, report)
      ensures Fits(report.verdict, Planned(kind, last))
      ensures old(Quiet()) && old(AllStored(world, intents)) ==>
                && report.verdict == Planned(kind, last)
                && (Keeps(kind, report.verdict) ==> AllStored(world, intents))
    {
      if last.None? {
        report := ConcludeUntried(a, flood, job, target, kind, attempts);
        return;
      }
      var e := last.value;
      if Definite(e) {
        report := ConcludeUnsent(a, intents, e, flood, job, target, kind, attempts);
      } else if e.Receipted? && Confirmable(e.receipt.message) {
        report := ConcludeReceipted(a, intents, e.receipt, flood, job, target, kind, attempts);
      } else {
        report := ConcludeUnknown(a, e, job, target, kind, attempts);
      }
    }

    /** All identities are reserved: send, then release or confirm. */
    method SendAndConclude(a: Attempt, intents: seq<Record>, job: Job, target: string, attempts: int, kind: StoreKind)
      returns (report: Report)
      requires Valid() && a in mine && Prepared(world, a, target, job) && !world.tickets[a].exposed && kind.Outbox?
      requires Keys(target, job) != [] && HoldsAll(world, a, Keys(target, job))
      requires ClaimsOf(world, a, intents) && InHand(world, a, intents)
      modifies this`world, this`history, this`awaits, this`sends, this`outcome
      ensures Valid() && old(history) <= history && (old(Quiet()) ==> Quiet())
      ensures report.attempt == Some(a) && Settled(world, target, job, kind, attempts, report)
      ensures outcome == Absorb(old(outcome), job, report)
      ensures Fits(report.verdict, Planned(kind, Ending(sender, old(sends), attempts)))
      ensures LeftBehind(world, target, job, kind, report)
      ensures old(Quiet()) ==>
                && FilesAfter(old(world), world, kind, report.verdict)
                && Frame(old(world).outbox, world.outbox, Keys(target, job))
      ensures old(Quiet()) && old(AllStored(world, intents)) ==>
                && report.verdict == Planned(kind, Ending(sender, old(sends), attempts))
                && (Keeps(kind, report.verdict) ==> AllStored(world, intents))
    {
      ghost var stored := AllStored(world, intents);
      var last, flood := SendReserved(a, attempts);
      report := Conclude(a, intents, last, flood, job, target, kind, attempts);
      AbsorbNoted(old(outcome), flood, job, report);
    }

    /** A fresh attempt: reserve the identities, then send if all of them are its own. */
    method ReserveAndSend(a: Attempt, job: Job, target: string, attempts: int, kind: StoreKind)
      returns (report: Report, intents: seq<Record>)
      requires Valid() && a in mine && Prepared(world, a, target, job) && !world.tickets[a].exposed && kind.Outbox?
      requires Keys(target, job) != [] && forall k :: !Holds(world, a, k)
      modifies this`world, this`history, this`awaits, this`sends, this`outcome
      ensures Valid() && old(history) <= history && (old(Quiet()) ==> Quiet())
      ensures report.attempt == Some(a) && Settled(world, target, job, kind, attempts, report)
      ensures outcome == Absorb(old(outcome), job, report)
      ensures AllowedVerdict(report.verdict, kind, sender, old(sends), attempts)
      ensures LeftBehind(world, target, job, kind, report)
      ensures old(Quiet()) ==>
                && FilesAfter(old(world), world, kind, report.verdict)
                && Frame(old(world).outbox, world.outbox, Keys(target, job))
                && StillInHand(world, a, intents, target, job, kind, report.verdict, old(world).outbox)
      ensures old(Quiet()) ==>
                report.verdict == QuietVerdict(old(world).outbox, Keys(target, job), kind, sender, old(sends), attempts)
    {
      ghost var w0, quiet, n := world, Quiet(), sends;
      var blocker;
      intents, blocker := ReserveAll(a);
      ghost var w1 := world;
      if blocker.Some? {
        report := RefuseBlocked(a, intents, blocker.value, job, target, kind, attempts);
      } else {
        report := SendAndConclude(a, intents, job, target, attempts, kind);
      }
      if quiet {
        QuietOutcome(w0, w1, world, a, intents, blocker, target, job, kind, sender, n, attempts, report.verdict);
      }
    }

    /** One job on a store with an outbox. */
    method PublishReserved(job: Job, target: string, attempts: int, kind: StoreKind) returns (report: Report)
      requires Valid() && kind.Outbox? && Keys(target, job) != []
      modifies this
      ensures Valid() && old(history) <= history && (old(Quiet()) ==> Quiet())
      ensures report.attempt.Some? && Settled(world, target, job, kind, attempts, report)
      ensures mine == old(mine) + AttemptOf(report)
      ensures outcome == Absorb(old(outcome), job, report)
      ensures AllowedVerdict(report.verdict, kind, sender, old(sends), attempts)
      ensures LeftBehind(world, target, job, kind, report)
      ensures old(Quiet()) ==>
                && FilesAfter(old(world), world, kind, report.verdict)
                && Frame(old(world).outbox, world.outbox, Keys(target, job))
      ensures old(Quiet()) ==>
                report.verdict == QuietVerdict(old(world).outbox, Keys(target, job), kind, sender, old(sends), attempts)
      ensures old(Quiet()) ==>
                (SomethingReserved(world, report) <==>
                   StaysReserved(old(world).outbox, Keys(target, job), kind, report.verdict))
    {
      var a := BeginAttempt(target, job);
      ghost var intents;
      report, intents := ReserveAndSend(a, job, target, attempts, kind);
      EveryRunKeepsInv(genesis, history);
      if old(Quiet()) {
        ReservedExactly(world, a, intents, target, job, kind, attempts, report, old(world).outbox);
      }
    }

    /** One job on a store without an outbox: just send. */
    method PublishBare(job: Job, target: string, attempts: int, kind: StoreKind) returns (report: Report)
      requires Valid() && !kind.Outbox?
      modifies this`world, this`history, this`awaits, this`sends, this`outcome
      ensures Valid() && old(history) <= history && (old(Quiet()) ==> Quiet())
      ensures report.attempt == None
      ensures old(Quiet()) ==> FilesAfter(old(world), world, kind, report.verdict)
      ensures outcome == Absorb(old(outcome), job, report)
      ensures report.verdict == Planned(kind, Ending(sender, old(sends), attempts))
    {
      var last, flood := SendBare(target, job, attempts);
      if last.Some? && last.value.Receipted? && kind.Ledgers? {
        PersistReceipt(last.value.receipt, None);
      }
      report := CountBare(last, flood, job, kind);
      AbsorbNoted(old(outcome), flood, job, report);
    }

    /** One job that is neither known nor a near-duplicate. */
    method PublishOne(job: Job, target: string, attempts: int, kind: StoreKind) returns (report: Report)
      requires Valid()
      modifies this
      ensures Valid() && old(history) <= history && (old(Quiet()) ==> Quiet())
      ensures Settled(world, target, job, kind, attempts, report)
      ensures outcome == Absorb(old(outcome), job, report)
      ensures kind.Outbox? && Keys(target, job) != [] ==> report.attempt.Some?
      ensures LeftBehind(world, target, job, kind, report)
      ensures OneVerdict(report.verdict, target, job, kind, sender, old(sends), attempts)
      ensures mine == old(mine) + AttemptOf(report)
      ensures old(Quiet()) ==> FilesAfter(old(world), world, kind, report.verdict)
      ensures old(Quiet()) && kind.Outbox? ==> Frame(old(world).outbox, world.outbox, Keys(target, job))
      ensures old(Quiet()) ==>
                (SomethingReserved(world, report) <==>
                   report.attempt.Some? && StaysReserved(old(world).outbox, Keys(target, job), kind, report.verdict))
      ensures old(Quiet()) ==>
                report.verdict == QuietOne(old(world).outbox, target, job, kind, sender, old(sends), attempts)
    {
      if !kind.Outbox? {
        report := PublishBare(job, target, attempts, kind);
      } else if Keys(target, job) == [] {
        Note("delivery_identity_missing");
        report := Report(Failed(NoIdentity), None, Some("delivery_identity_missing"));
      } else {
        report := PublishReserved(job, target, attempts, kind);
      }
    }

    // ----- ledgers ----------------------------------------------------------------------------

    /** Claims the legacy ledger for `target` unless some target already has it. */
    method ClaimLegacy(target: string, ids: seq<Name>, urls: seq<Name>) returns (legacy: Payload)
      requires Valid()
      modifies this`world, this`history, this`awaits
      ensures Valid() && old(history) <= history && (old(Quiet()) ==> Quiet())
      ensures Anchor in world.outbox && world.outbox[Anchor].payload == legacy && legacy.LegacyLedger?
      ensures world.outbox[Anchor].state.Delivered?
      ensures old(Quiet()) ==>
                && legacy == (if Anchor in old(world).outbox then old(world).outbox[Anchor].payload
                              else LegacyLedger(target, ids, urls))
                && SameFiles(old(world), world)
                && Frame(old(world).outbox, world.outbox, [Anchor])
    {
      Yield(None);
      Take(PutAnchor(target, ids, urls));
      ghost var w1, h1 := world, history;
      legacy := world.outbox[Anchor].payload;
      Yield(None);
      Take(SealAnchor);
      KeptSince(w1, h1);
    }

    /** Loads the ledgers and settles who owns the legacy one. */
    method LoadPublished(target: string, kind: StoreKind) returns (l: Loaded)
      requires Valid()
      modifies this`world, this`history, this`awaits
      ensures Valid() && old(history) <= history && (old(Quiet()) ==> Quiet())
      ensures kind.NoStore? ==> l == Loaded({}, {}, [], [], [])
      ensures kind.Ledgers? ==>
                && l.ids == NamesIn(l.idLedger) && l.urls == NamesIn(l.urlLedger)
                && l.idLedger == Moved(old(world), old(awaits)).sentIds && l.urlLedger == world.sentUrls
                && world == WhenLoaded(old(world), old(awaits)) && awaits == old(awaits) + 2
      ensures kind.Outbox? ==>
                Backing(world, target, l.targetLedger) && OwnsLegacy(world, target, l)
      ensures old(Quiet()) ==> SameFiles(old(world), world) && Frame(old(world).outbox, world.outbox, [Anchor])
      ensures old(Quiet()) && !kind.NoStore? ==> InStep(old(world), l, target, kind)
      ensures old(Quiet()) && kind.Outbox? && Anchor !in old(world).outbox ==>
                world.outbox[Anchor].payload == LegacyLedger(target, old(world).sentIds, old(world).sentUrls)
    {
      if kind.NoStore? {
        return Loaded({}, {}, [], [], []);
      }
      Yield(None);
      var idLedger := world.sentIds;
      Yield(None);
      var urlLedger := world.sentUrls;
      if kind.Ledgers? {
        return Loaded(NamesIn(idLedger), NamesIn(urlLedger), idLedger, urlLedger, []);
      }
      var legacy := ClaimLegacy(target, idLedger, urlLedger);
      ghost var w1, h1 := world, history;
      Yield(None);
      KeptSince(w1, h1);
      var targetLedger := TargetIdsOf(world, target);
      if legacy.target == target {
        l := Loaded(NamesIn(targetLedger) + NamesIn(legacy.ids), NamesIn(legacy.urls),
                    idLedger, urlLedger, targetLedger);
      } else {
        l := Loaded(NamesIn(targetLedger), {}, idLedger, urlLedger, targetLedger);
      }
    }

    /** The list was written since the history had this length. */
    ghost predicate Wrote(since: nat, act: Action)
      reads this
    {
      since <= |history| && act in history[since..]
    }

    /** The target's own list on a store with an outbox; `ids` are confirmed at this target. */
    method RecordTargetIds(target: string, ids: seq<Name>)
      requires Valid() && Backing(world, target, ids)
      modifies this`world, this`history, this`awaits
      ensures Valid() && old(history) <= history && (old(Quiet()) ==> Quiet())
      ensures Backing(world, target, ids) && TargetIdsOf(world, target) == ids
      ensures old(Quiet()) ==> world == old(world).(targetIds := old(world).targetIds[target := ids])
    {
      ghost var w0, h0 := world, history;
      Yield(None);
      KeptSince(w0, h0);
      Take(WriteTargetIds(target, ids));
    }

    lemma BackingSince(w: World, past: seq<Action>, target: string, ids: seq<Name>)
      requires Valid() && w == Run(genesis, past) && past <= history && Backing(w, target, ids)
      ensures Backing(world, target, ids)
    {
      KeptSince(w, past);
    }

    lemma BackingOneMore(w: World, target: string, ids: seq<Name>, id: Name)
      requires Backing(w, target, ids) && Backing(w, target, [id])
      ensures Backing(w, target, Trimmed(ids + [id]))
    {
    }

    /** The id lists: what the run knows, and both stored lists. */
    method RecordId(l: Loaded, id: Name, target: string, kind: StoreKind) returns (l': Loaded)
      requires Valid() && !kind.NoStore?
      requires kind.Outbox? ==> Backing(world, target, l.targetLedger) && Backing(world, target, [id])
      modifies this`world, this`history, this`awaits
      ensures Valid() && old(history) <= history && (old(Quiet()) ==> Quiet())
      ensures l' == LearnId(l, Some(id), kind)
      ensures kind.Outbox? ==> Backing(world, target, l'.targetLedger) && TargetIdsOf(world, target) == l'.targetLedger
      ensures kind.Ledgers? ==> world.sentIds == l'.idLedger
      ensures Wrote(|old(history)|, WriteSentIds(l'.idLedger))
      ensures old(Quiet()) ==>
                world == if kind.Outbox?
                         then old(world).(sentIds := l'.idLedger,
                                          targetIds := old(world).targetIds[target := l'.targetLedger])
                         else old(world).(sentIds := l'.idLedger)
    {
      ghost var w0, h0 := world, history;
      l' := l.(ids := l.ids + {id}, idLedger := Trimmed(l.idLedger + [id]));
      Yield(None);
      Take(WriteSentIds(l'.idLedger));
      ghost var h1 := history;
      InSuffix(h0, h1);
      if kind.Outbox? {
        l' := l'.(targetLedger := Trimmed(l'.targetLedger + [id]));
        BackingOneMore(w0, target, l.targetLedger, id);
        BackingSince(w0, h0, target, l'.targetLedger);
        RecordTargetIds(target, l'.targetLedger);
        StillInSuffix(|h0|, h1, history, WriteSentIds(l'.idLedger));
      }
    }

    /** Writes a delivered job into the ledgers. */
    method RecordDelivery(l: Loaded, job: Job, target: string, kind: StoreKind) returns (l': Loaded)
      requires Valid()
      requires kind.Outbox? ==> Backing(world, target, l.targetLedger)
      requires kind.Outbox? && job.id.Some? ==> Backing(world, target, [job.id.value])
      modifies this`world, this`history, this`awaits
      ensures Valid() && old(history) <= history && (old(Quiet()) ==> Quiet())
      ensures kind.Outbox? ==> Backing(world, target, l'.targetLedger)
      ensures l' == Learn(l, job, kind)
      ensures !kind.NoStore? && job.url.Some? ==> world.sentUrls == l'.urlLedger
      ensures kind.Ledgers? && job.id.Some? && job.url.None? ==> world.sentIds == l'.idLedger
      ensures !kind.NoStore? ==> Filing(history, |old(history)|, l', job)
      ensures old(Quiet()) ==>
                && world.outbox == old(world).outbox
                && FilesOf(world) == Written(FilesOf(old(world)), l', job, target, kind)
    {
      l' := l;
      ghost var h0 := history;
      if kind.NoStore? {
        return;
      }
      if job.id.Some? {
        l' := RecordId(l', job.id.value, target, kind);
      }
      if job.url.Some? {
        ghost var w1, h1 := world, history;
        l' := l'.(urls := l'.urls + {job.url.value}, urlLedger := Trimmed(l'.urlLedger + [job.url.value]));
        Yield(None);
        Take(WriteSentUrls(l'.urlLedger));
        KeptSince(w1, h1);
        InSuffix(h0, history);
        if job.id.Some? {
          StillInSuffix(|h0|, h1, history, WriteSentIds(l'.idLedger));
        }
      }
    }

    // ----- the batch --------------------------------------------------------------------------

    /** After a delivery: the ledgers, then the pause before the next card. */
    method FileDelivery(report: Report, l: Loaded, job: Job, target: string, attempts: int, kind: StoreKind,
                        throttled: bool)
      returns (l': Loaded)
      requires Valid() && report.verdict.Sent? && Settled(world, target, job, kind, attempts, report)
      requires kind.Outbox? ==> Backing(world, target, l.targetLedger)
      modifies this`world, this`history, this`awaits
      ensures Valid() && old(history) <= history && (old(Quiet()) ==> Quiet())
      ensures Settled(world, target, job, kind, attempts, report)
      ensures kind.Outbox? ==> Backing(world, target, l'.targetLedger)
      ensures l' == Learn(l, job, kind)
      ensures !kind.NoStore? ==> Filing(history, |old(history)|, l', job)
      ensures old(Quiet()) ==>
                && world.outbox == old(world).outbox
                && FilesOf(world) == Written(FilesOf(old(world)), l', job, target, kind)
    {
      ghost var w1, h1 := world, history;
      assert job.id.Some? ==> Intent(target, ById, job.id.value) in Keys(target, job);
      l' := RecordDelivery(l, job, target, kind);
      ghost var w2, h2 := world, history;
      if throttled {
        Yield(None);
      }
      KeptSince(w2, h2);
      KeptSince(w1, h1);
      if !kind.NoStore? {
        FilingStays(h2, history, |h1|, |h1|, l', job);
      }
      SettledForGood(w1, world, target, job, kind, attempts, report);
    }

    /** A job that is neither known nor a near-duplicate: publish it, and file the delivery. */
    method PublishAndFile(job: Job, target: string, attempts: int, kind: StoreKind, throttled: bool, l: Loaded)
      returns (report: Report, l': Loaded)
      requires Valid()
      requires kind.Outbox? ==> Backing(world, target, l.targetLedger)
      modifies this
      ensures Valid() && old(history) <= history && (old(Quiet()) ==> Quiet())
      ensures kind.Outbox? ==> Backing(world, target, l'.targetLedger)
      ensures Settled(world, target, job, kind, attempts, report) && mine == old(mine) + AttemptOf(report)
      ensures outcome == Absorb(old(outcome), job, report)
      ensures Looked(report.verdict) && Decided(report.verdict, target, job, kind, sender, attempts)
      ensures l' == Filed(l, job, report.verdict, kind)
      ensures !kind.NoStore? && report.verdict.Sent? ==> Filing(history, |old(history)|, l', job)
      ensures old(Quiet()) ==>
                FilesOf(world) == FiledOne(FilesOf(old(world)), l', job, report.verdict, target, kind)
      ensures old(Quiet()) && kind.Outbox? ==>
                && Frame(old(world).outbox, world.outbox, Keys(target, job))
                && (Keys(target, job) != [] ==>
                      QuietlyDecided(report.verdict, old(world).outbox, Keys(target, job), kind, sender, attempts))
    {
      ghost var w0, h0 := world, history;
      report := PublishOne(job, target, attempts, kind);
      KeptSince(w0, h0);
      l' := l;
      if report.verdict.Sent? {
        ghost var h1 := history;
        l' := FileDelivery(report, l, job, target, attempts, kind, throttled);
        if !kind.NoStore? {
          FilingStays(history, history, |h1|, |h0|, l', job);
        }
      }
    }

    /** One turn of the batch loop. */
    method PublishNext(job: Job, target: string, attempts: int, kind: StoreKind, same: (Job, Job) -> bool,
                       throttled: bool, l: Loaded, basis: seq<Job>)
      returns (report: Report, l': Loaded, basis': seq<Job>)
      requires Valid()
      requires kind.Outbox? ==> Backing(world, target, l.targetLedger)
      modifies this
      ensures Valid() && old(history) <= history && (old(Quiet()) ==> Quiet())
      ensures kind.Outbox? ==> Backing(world, target, l'.targetLedger)
      ensures Settled(world, target, job, kind, attempts, report) && mine == old(mine) + AttemptOf(report)
      ensures outcome == Absorb(old(outcome), job, report)
      ensures report.verdict.OnLedger? <==> Published(job, l.ids, l.urls)
      ensures report.verdict.NearDuplicate? <==>
              !Published(job, l.ids, l.urls) && exists b :: b in basis && same(job, b)
      ensures Looked(report.verdict) ==> Decided(report.verdict, target, job, kind, sender, attempts)
      ensures basis' == (if InBasis(report.verdict) then basis + [job] else basis)
      ensures l' == Filed(l, job, report.verdict, kind)
      ensures !kind.NoStore? && report.verdict.Sent? ==> Filing(history, |old(history)|, l', job)
      ensures old(Quiet()) ==>
                FilesOf(world) == FiledOne(FilesOf(old(world)), l', job, report.verdict, target, kind)
      ensures old(Quiet()) && kind.Outbox? ==>
                && Frame(old(world).outbox, world.outbox, Keys(target, job))
                && (Looked(report.verdict) && Keys(target, job) != [] ==>
                      QuietlyDecided(report.verdict, old(world).outbox, Keys(target, job), kind, sender, attempts))
    {
      l', basis' := l, basis;
      if Published(job, l.ids, l.urls) {
        outcome := outcome.(skippedAlreadyPublished := outcome.skippedAlreadyPublished + 1);
        basis' := basis + [job];
        return Report(OnLedger, None, None), l', basis';
      }
      if exists b :: b in basis && same(job, b) {
        outcome := outcome.(skippedDuplicate := outcome.skippedDuplicate + 1);
        return Report(NearDuplicate, None, None), l', basis';
      }
      report, l' := PublishAndFile(job, target, attempts, kind, throttled, l);
      if report.verdict.Sent? {
        basis' := basis + [job];
      }
    }

    /** The batch loop has got as far as `reports`. */
    ghost predicate Underway(jobs: seq<Job>, reports: seq<Report>, loaded: Loaded, l: Loaded, basis: seq<Job>,
                             target: string, sendLimit: int, attempts: int, kind: StoreKind,
                             same: (Job, Job) -> bool, mine0: set<Attempt>)
      reads this
    {
      && |reports| <= |jobs| && outcome == Tally(jobs, reports) && basis == Basis(jobs, reports)
      && (kind.Outbox? ==> Backing(world, target, l.targetLedger))
      && l == Known(loaded, jobs, reports, kind)
      && Accounted(jobs, reports, loaded, kind, same, sendLimit)
      && Reported(world, mine0, mine, target, jobs, kind, sender, attempts, reports)
    }

    /** One turn of the batch loop. */
    method PublishTurn(jobs: seq<Job>, reports: seq<Report>, l: Loaded, basis: seq<Job>, target: string,
                       sendLimit: int, throttled: bool, attempts: int, kind: StoreKind, same: (Job, Job) -> bool,
                       ghost loaded: Loaded, ghost mine0: set<Attempt>, ghost w0: World, ghost since: nat,
                       ghost quiet: bool)
      returns (report: Report, l': Loaded, basis': seq<Job>)
      requires Valid() && |reports| < |jobs| && outcome.sent < sendLimit
      requires Underway(jobs, reports, loaded, l, basis, target, sendLimit, attempts, kind, same, mine0)
      requires forall j :: 0 <= j < |reports| ==> !Stops(reports[j].verdict)
      requires quiet ==> Quiet() && Undisturbedly(w0, world, loaded, target, jobs, kind, sender, attempts, reports)
      requires !kind.NoStore? ==> LastWritten(history, since, jobs, reports, l)
      modifies this
      ensures Valid() && old(history) <= history
      ensures Underway(jobs, reports + [report], loaded, l', basis', target, sendLimit, attempts, kind, same, mine0)
      ensures quiet ==>
                Quiet() && Undisturbedly(w0, world, loaded, target, jobs, kind, sender, attempts, reports + [report])
      ensures !kind.NoStore? ==> LastWritten(history, since, jobs, reports + [report], l')
    {
      ghost var w2, h2, mine2 := world, history, mine;
      report, l', basis' := PublishNext(jobs[|reports|], target, attempts, kind, same, throttled, l, basis);
      KeptSince(w2, h2);
      AccountedAppend(jobs, reports, report, loaded, kind, same, sendLimit);
      ReportedAppend(w2, world, mine0, mine2, mine, target, jobs, kind, sender, attempts, reports, report);
      if quiet {
        UndisturbedlyAppend(w0, w2, world, loaded, target, jobs, kind, sender, attempts, reports, report);
      }
      if !kind.NoStore? {
        LastWrittenAppend(h2, history, since, jobs, reports, report, l, kind);
      }
    }

    /** The batch loop. */
    method PublishBatch(jobs: seq<Job>, target: string, sendLimit: int, throttled: bool, attempts: int,
                        kind: StoreKind, same: (Job, Job) -> bool, loaded: Loaded)
      returns (reports: seq<Report>)
      requires Valid() && outcome == NO_OUTCOME
      requires kind.Outbox? ==> Backing(world, target, loaded.targetLedger)
      modifies this
      ensures Valid() && old(history) <= history && (old(Quiet()) ==> Quiet())
      ensures |reports| <= |jobs| && outcome == Tally(jobs, reports)
      ensures Reported(world, old(mine), mine, target, jobs, kind, sender, attempts, reports)
      ensures Accounted(jobs, reports, loaded, kind, same, sendLimit)
      ensures StopsInTime(jobs, reports, outcome.sent, sendLimit)
      ensures old(Quiet()) ==>
                Undisturbedly(old(world), world, loaded, target, jobs, kind, sender, attempts, reports)
      ensures !kind.NoStore? ==>
                LastWritten(history, |old(history)|, jobs, reports, Known(loaded, jobs, reports, kind))
    {
      ghost var quiet, w0, mine0, since := Quiet(), world, mine, |history|;
      var l := loaded;
      var basis: seq<Job> := [];
      reports := [];
      var i := 0;
      while i < |jobs| && outcome.sent < sendLimit
        invariant 0 <= i == |reports|
        invariant Valid() && old(history) <= history && (quiet ==> Quiet())
        invariant Underway(jobs, reports, loaded, l, basis, target, sendLimit, attempts, kind, same, mine0)
        invariant forall j :: 0 <= j < |reports| ==> !Stops(reports[j].verdict)
        invariant quiet ==> Undisturbedly(w0, world, loaded, target, jobs, kind, sender, attempts, reports)
        invariant !kind.NoStore? ==> LastWritten(history, since, jobs, reports, l)
      {
        var report: Report;
        report, l, basis := PublishTurn(jobs, reports, l, basis, target, sendLimit, throttled, attempts, kind, same,
                                        loaded, mine0, w0, since, quiet);
        i := i + 1;
        reports := reports + [report];
        if Stops(report.verdict) {
          break;
        }
      }
    }

    /** A run that has something to do: load, then publish. */
    method LoadAndPublish(jobs: seq<Job>, target: string, sendLimit: int, throttled: bool, attempts: int,
                          kind: StoreKind, same: (Job, Job) -> bool)
      returns (reports: seq<Report>, loaded: Loaded)
      requires Valid() && outcome == NO_OUTCOME
      modifies this
      ensures Valid() && old(history) <= history && (old(Quiet()) ==> Quiet())
      ensures |reports| <= |jobs| && outcome == Tally(jobs, reports)
      ensures AllSettled(world, target, jobs, kind, attempts, reports) && mine == old(mine) + Attempts(reports)
      ensures Accounted(jobs, reports, loaded, kind, same, sendLimit)
      ensures StopsInTime(jobs, reports, outcome.sent, sendLimit)
      ensures AllDecided(reports, target, jobs, kind, sender, attempts)
      ensures kind.Outbox? ==> OwnsLegacy(world, target, loaded)
      ensures kind.Ledgers? ==> loaded.ids == NamesIn(loaded.idLedger) && loaded.urls == NamesIn(loaded.urlLedger)
      ensures kind.Ledgers? ==> ReadFrom(Moved(old(world), old(awaits)), WhenLoaded(old(world), old(awaits)), loaded)
      ensures !kind.NoStore? ==>
                LastWritten(history, |old(history)|, jobs, reports, Known(loaded, jobs, reports, kind))
      ensures kind.Ledgers? && old(QuietAfter(2)) ==>
                && Quiet()
                && FiledFrom(Moved(old(world), old(awaits)), WhenLoaded(old(world), old(awaits)), world, loaded, jobs,
                             reports, target)
      ensures old(Quiet()) ==> FilesOf(world) == FiledAll(FilesOf(old(world)), loaded, jobs, reports, target, kind)
      ensures old(Quiet()) && !kind.NoStore? ==> InStep(old(world), loaded, target, kind)
      ensures old(Quiet()) && kind.Outbox? ==>
                AllQuietlyDecided(reports, old(world).outbox, target, jobs, kind, sender, attempts)
      ensures old(Quiet()) && kind.Outbox? && Anchor !in old(world).outbox ==>
                && loaded.ids == NamesIn(TargetIdsOf(old(world), target)) + NamesIn(old(world).sentIds)
                && loaded.urls == NamesIn(old(world).sentUrls)
    {
      ghost var outbox, quiet, h0 := world.outbox, Quiet(), history;
      loaded := LoadPublished(target, kind);
      ghost var w1, h1 := world, history;
      reports := PublishBatch(jobs, target, sendLimit, throttled, attempts, kind, same, loaded);
      KeptSince(w1, h1);
      if !kind.NoStore? {
        LastWrittenSince(history, |h1|, |h0|, jobs, reports, Known(loaded, jobs, reports, kind));
      }
      if quiet && kind.Outbox? {
        AfterAnchor(reports, outbox, w1.outbox, target, jobs, kind, sender, attempts);
      }
    }

    /** `publish_jobs`. */
    method PublishJobs(jobs: seq<Job>, target: string, sendLimit: int, throttled: bool, attempts: int,
                       kind: StoreKind, same: (Job, Job) -> bool)
      returns (reports: seq<Report>, loaded: Loaded)
      requires Valid()
      modifies this
      ensures Valid() && old(history) <= history && AtMostOnce(world) && (old(Quiet()) ==> Quiet())
      ensures |reports| <= |jobs| && outcome == Tally(jobs, reports)
      ensures AllSettled(world, target, jobs, kind, attempts, reports)
      ensures mine == old(mine) + Attempts(reports) && ReservedOnlyBy(world, Attempts(reports), reports, kind)
      ensures Accounted(jobs, reports, loaded, kind, same, sendLimit)
      ensures StopsInTime(jobs, reports, outcome.sent, sendLimit)
      ensures AllDecided(reports, target, jobs, kind, sender, attempts)
      ensures Acts(jobs, sendLimit) && kind.Outbox? ==> OwnsLegacy(world, target, loaded)
      ensures Acts(jobs, sendLimit) && kind.Ledgers? ==>
                && loaded.ids == NamesIn(loaded.idLedger) && loaded.urls == NamesIn(loaded.urlLedger)
                && ReadFrom(Moved(old(world), old(awaits)), WhenLoaded(old(world), old(awaits)), loaded)
      ensures !kind.NoStore? ==>
                LastWritten(history, |old(history)|, jobs, reports, Known(loaded, jobs, reports, kind))
      ensures Acts(jobs, sendLimit) && kind.Ledgers? && old(QuietAfter(2)) ==>
                && Quiet()
                && FiledFrom(Moved(old(world), old(awaits)), WhenLoaded(old(world), old(awaits)), world, loaded, jobs,
                             reports, target)
      ensures old(Quiet()) ==> FilesOf(world) == FiledAll(FilesOf(old(world)), loaded, jobs, reports, target, kind)
      ensures old(Quiet()) && Acts(jobs, sendLimit) && !kind.NoStore? ==> InStep(old(world), loaded, target, kind)
      ensures old(Quiet()) && kind.Outbox? ==>
                AllQuietlyDecided(reports, old(world).outbox, target, jobs, kind, sender, attempts)
      ensures old(Quiet()) && kind.Outbox? && Acts(jobs, sendLimit) && Anchor !in old(world).outbox ==>
                && loaded.ids == NamesIn(TargetIdsOf(old(world), target)) + NamesIn(old(world).sentIds)
                && loaded.urls == NamesIn(old(world).sentUrls)
    {
      outcome := NO_OUTCOME;
      reports, loaded := [], Loaded({}, {}, [], [], []);
      if sendLimit > 0 && jobs != [] {
        reports, loaded := LoadAndPublish(jobs, target, sendLimit, throttled, attempts, kind, same);
      }
      AtMostOnceDelivery(genesis, history);
      EveryRunKeepsInv(genesis, history);
      OnlyUnclearStayReserved(world, target, jobs, kind, attempts, reports);
    }
  }

  /** The guard of `publish_jobs`. */
  predicate Acts(jobs: seq<Job>, sendLimit: int) { sendLimit > 0 && jobs != [] }

  /** A run on ledgers only reads the ids in `w0` and the URLs in `w1`. */
  predicate ReadFrom(w0: World, w1: World, l: Loaded) { l.idLedger == w0.sentIds && l.urlLedger == w1.sentUrls }

  /** ... and from there nobody else moves. */
  predicate FiledFrom(w0: World, w1: World, w: World, l: Loaded, jobs: seq<Job>, reports: seq<Report>, target: string)
    requires |reports| <= |jobs|
  {
    && ReadFrom(w0, w1, l) && w1.messages <= w.messages
    && FilesOf(w) == FiledAll(FilesOf(w1), l, jobs, reports, target, Ledgers)
  }

  /** The batch ends early only at the send limit or at a target that cannot be used. */
  predicate StopsInTime(jobs: seq<Job>, reports: seq<Report>, sent: nat, sendLimit: int) {
    && (forall i :: 0 <= i < |reports| && Stops(reports[i].verdict) ==> i == |reports| - 1)
    && (|reports| < |jobs| ==> sent >= sendLimit || (reports != [] && Stops(reports[|reports| - 1].verdict)))
  }

  /** Inserting the anchor decides nothing about any job. */
  lemma AfterAnchor(reports: seq<Report>, m: map<Key, Record>, m': map<Key, Record>, target: string, jobs: seq<Job>,
                    kind: StoreKind, sender: nat -> SendEvent, attempts: int)
    requires |reports| <= |jobs| && Frame(m, m', [Anchor])
    requires AllQuietlyDecided(reports, m', target, jobs, kind, sender, attempts)
    ensures AllQuietlyDecided(reports, m, target, jobs, kind, sender, attempts)
  {
    forall i | 0 <= i < |reports| && Looked(reports[i].verdict) && Apart(target, jobs, i)
      ensures QuietlyDecided(reports[i].verdict, m, Keys(target, jobs[i]), kind, sender, attempts)
    {
      var keys := Keys(target, jobs[i]);
      SameDecision(reports[i].verdict, m, m', keys, kind, sender, attempts);
    }
  }

  ghost predicate AllSettled(w: World, target: string, jobs: seq<Job>, kind: StoreKind, attempts: int,
                             reports: seq<Report>)
    requires |reports| <= |jobs|
  {
    forall i :: 0 <= i < |reports| ==> Settled(w, target, jobs[i], kind, attempts, reports[i])
  }

  lemma AllSettledAppend(w: World, w': World, target: string, jobs: seq<Job>, kind: StoreKind, attempts: int,
                         reports: seq<Report>, r: Report)
    requires |reports| < |jobs| && Kept(w, w') && AllSettled(w, target, jobs, kind, attempts, reports)
    requires Settled(w', target, jobs[|reports|], kind, attempts, r)
    ensures AllSettled(w', target, jobs, kind, attempts, reports + [r])
  {
    forall i | 0 <= i < |reports|
      ensures Settled(w', target, jobs[i], kind, attempts, reports[i])
    {
      SettledForGood(w, w', target, jobs[i], kind, attempts, reports[i]);
    }
  }

  /** Every job was consulted properly, and while the limit was not reached. */
  ghost predicate Accounted(jobs: seq<Job>, reports: seq<Report>, l: Loaded, kind: StoreKind,
                            same: (Job, Job) -> bool, sendLimit: int)
    requires |reports| <= |jobs|
  {
    forall i :: 0 <= i < |reports| ==>
      Consulted(jobs, reports, i, l, kind, same) && Tally(jobs, reports[..i]).sent < sendLimit
  }

  lemma AccountedAppend(jobs: seq<Job>, reports: seq<Report>, r: Report, l: Loaded, kind: StoreKind,
                        same: (Job, Job) -> bool, sendLimit: int)
    requires |reports| < |jobs| && Accounted(jobs, reports, l, kind, same, sendLimit)
    requires Tally(jobs, reports).sent < sendLimit
    requires var known := Known(l, jobs, reports, kind);
             var published := Published(jobs[|reports|], known.ids, known.urls);
             && (r.verdict.OnLedger? <==> published)
             && (r.verdict.NearDuplicate? <==>
                   !published && exists b :: b in Basis(jobs, reports) && same(jobs[|reports|], b))
    ensures var reports' := reports + [r];
            && Accounted(jobs, reports', l, kind, same, sendLimit)
            && Tally(jobs, reports') == Absorb(Tally(jobs, reports), jobs[|reports|], r)
            && Basis(jobs, reports')
               == (if InBasis(r.verdict) then Basis(jobs, reports) + [jobs[|reports|]] else Basis(jobs, reports))
            && Known(l, jobs, reports', kind) == Filed(Known(l, jobs, reports, kind), jobs[|reports|], r.verdict, kind)
  {
    var reports' := reports + [r];
    assert reports'[..|reports|] == reports;
    forall i | 0 <= i < |reports'|
      ensures Consulted(jobs, reports', i, l, kind, same) && Tally(jobs, reports'[..i]).sent < sendLimit
    {
      if i < |reports| {
        assert reports'[..i] == reports[..i];
        assert Consulted(jobs, reports, i, l, kind, same);
      }
    }
  }

  /** Only identities of the first `n` jobs, and the anchor, may have changed. */
  ghost predicate BatchFrame(m: map<Key, Record>, m': map<Key, Record>, target: string, jobs: seq<Job>, n: nat)
    requires n <= |jobs|
  {
    forall k :: k != Anchor && (forall j :: 0 <= j < n ==> k !in Keys(target, jobs[j])) ==>
      (k in m <==> k in m') && (k in m ==> m[k] == m'[k])
  }

  /** In an undisturbed run every job whose identities no earlier job of the batch has gets the verdict
      that the outbox before the run and the sends call for. */
  ghost predicate AllQuietlyDecided(reports: seq<Report>, outbox: map<Key, Record>, target: string, jobs: seq<Job>,
                                    kind: StoreKind, sender: nat -> SendEvent, attempts: int)
    requires |reports| <= |jobs|
  {
    forall i :: 0 <= i < |reports| && Looked(reports[i].verdict) && Apart(target, jobs, i) ==>
      QuietlyDecided(reports[i].verdict, outbox, Keys(target, jobs[i]), kind, sender, attempts)
  }

  /** The verdict is one that the sends of the process, in its state then, allow. */
  ghost predicate Decided(v: Verdict, target: string, job: Job, kind: StoreKind, sender: nat -> SendEvent,
                          attempts: int)
  {
    exists n: nat :: OneVerdict(v, target, job, kind, sender, n, attempts)
  }

  ghost predicate AllDecided(reports: seq<Report>, target: string, jobs: seq<Job>, kind: StoreKind,
                             sender: nat -> SendEvent, attempts: int)
    requires |reports| <= |jobs|
  {
    forall i :: 0 <= i < |reports| && Looked(reports[i].verdict) ==>
      Decided(reports[i].verdict, target, jobs[i], kind, sender, attempts)
  }

  lemma {:induction false} FirstHeldSame(m: map<Key, Record>, m': map<Key, Record>, keys: seq<Key>)
    requires forall k :: k in keys ==> (k in m <==> k in m') && (k in m ==> m[k] == m'[k])
    ensures FirstHeld(m, keys) == FirstHeld(m', keys)
  {
    if keys != [] {
      FirstHeldSame(m, m', keys[1..]);
    }
  }

  lemma {:induction false} SameDecision(v: Verdict, m: map<Key, Record>, m': map<Key, Record>, keys: seq<Key>,
                                        kind: StoreKind, sender: nat -> SendEvent, attempts: int)
    requires forall k :: k in keys ==> (k in m <==> k in m') && (k in m ==> m[k] == m'[k])
    requires QuietlyDecided(v, m', keys, kind, sender, attempts)
    ensures QuietlyDecided(v, m, keys, kind, sender, attempts)
  {
    FirstHeldSame(m, m', keys);
    var n: nat :| v == QuietVerdict(m', keys, kind, sender, n, attempts);
    assert v == QuietVerdict(m, keys, kind, sender, n, attempts);
  }

  /** What the batch did so far does not touch the identities of a job that shares none with earlier ones. */
  lemma Untouched(m: map<Key, Record>, m': map<Key, Record>, target: string, jobs: seq<Job>, i: nat)
    requires i < |jobs| && BatchFrame(m, m', target, jobs, i) && Apart(target, jobs, i)
    ensures forall k :: k in Keys(target, jobs[i]) ==> (k in m <==> k in m') && (k in m ==> m[k] == m'[k])
  {
  }

  lemma BatchFrameAppend(m0: map<Key, Record>, m: map<Key, Record>, m': map<Key, Record>, target: string,
                         jobs: seq<Job>, i: nat)
    requires i < |jobs| && BatchFrame(m0, m, target, jobs, i) && Frame(m, m', Keys(target, jobs[i]))
    ensures BatchFrame(m0, m', target, jobs, i + 1)
  {
  }

  lemma QuietAppend(m0: map<Key, Record>, m: map<Key, Record>, m': map<Key, Record>, target: string, jobs: seq<Job>,
                    kind: StoreKind, sender: nat -> SendEvent, attempts: int, reports: seq<Report>, r: Report)
    requires |reports| < |jobs|
    requires BatchFrame(m0, m, target, jobs, |reports|)
    requires AllQuietlyDecided(reports, m0, target, jobs, kind, sender, attempts)
    requires Frame(m, m', Keys(target, jobs[|reports|]))
    requires Looked(r.verdict) && Keys(target, jobs[|reports|]) != [] ==>
               QuietlyDecided(r.verdict, m, Keys(target, jobs[|reports|]), kind, sender, attempts)
    ensures BatchFrame(m0, m', target, jobs, |reports| + 1)
    ensures AllQuietlyDecided(reports + [r], m0, target, jobs, kind, sender, attempts)
  {
    var i, reports' := |reports|, reports + [r];
    BatchFrameAppend(m0, m, m', target, jobs, i);
    forall j | 0 <= j < |reports'| && Looked(reports'[j].verdict) && Apart(target, jobs, j)
      ensures QuietlyDecided(reports'[j].verdict, m0, Keys(target, jobs[j]), kind, sender, attempts)
    {
      if j < i {
        assert reports'[j] == reports[j];
      } else {
        Untouched(m0, m, target, jobs, i);
        SameDecision(r.verdict, m0, m, Keys(target, jobs[i]), kind, sender, attempts);
      }
    }
  }

  /** A job on the ledger, by id or by URL. */
  predicate Published(job: Job, ids: set<Name>, urls: set<Name>) {
    (job.id.Some? && job.id.value in ids) || (job.url.Some? && job.url.value in urls)
  }

  /** The jobs later ones of the batch are compared with: the delivered, and those the ledger knew. A job
      that only the outbox knew as delivered is not one of them. */
  predicate InBasis(v: Verdict) { v.Sent? || v.OnLedger? }

  /** The verdicts that come from looking at the outbox and sending. */
  predicate Looked(v: Verdict) { !v.OnLedger? && !v.NearDuplicate? }

  function LearnId(l: Loaded, id: Option<Name>, kind: StoreKind): Loaded {
    if id.None? then l
    else l.(ids := l.ids + {id.value}, idLedger := Trimmed(l.idLedger + [id.value]),
            targetLedger := if kind.Outbox? then Trimmed(l.targetLedger + [id.value]) else l.targetLedger)
  }

  function LearnUrl(l: Loaded, url: Option<Name>): Loaded {
    if url.None? then l else l.(urls := l.urls + {url.value}, urlLedger := Trimmed(l.urlLedger + [url.value]))
  }

  /** Since the history had this length, the lists that a delivered job belongs on were written. */
  ghost predicate Filing(history: seq<Action>, since: nat, l: Loaded, job: Job) {
    && since <= |history|
    && (job.id.Some? ==> WriteSentIds(l.idLedger) in history[since..])
    && (job.url.Some? ==> WriteSentUrls(l.urlLedger) in history[since..])
  }

  /** The last entry was made since `before`. */
  lemma InSuffix(before: seq<Action>, history: seq<Action>)
    requires before <= history && |before| < |history|
    ensures history[|history| - 1] in history[|before|..]
  {
    assert history[|before|..][|history| - 1 - |before|] == history[|history| - 1];
  }

  lemma StillInSuffix(since: nat, history: seq<Action>, history': seq<Action>, act: Action)
    requires since <= |history| && history <= history' && act in history[since..]
    ensures act in history'[since..]
  {
    var i :| 0 <= i < |history| - since && history[since..][i] == act;
    assert history'[since..][i] == act;
  }

  lemma EarlierSuffix(history: seq<Action>, since: nat, earlier: nat, act: Action)
    requires earlier <= since <= |history| && act in history[since..]
    ensures act in history[earlier..]
  {
    assert history[earlier..][since - earlier..] == history[since..];
  }

  lemma FilingStays(history: seq<Action>, history': seq<Action>, since: nat, earlier: nat, l: Loaded, job: Job)
    requires Filing(history, since, l, job) && history <= history' && earlier <= since
    ensures Filing(history', earlier, l, job)
  {
    if job.id.Some? {
      EarlierSuffix(history, since, earlier, WriteSentIds(l.idLedger));
      StillInSuffix(earlier, history, history', WriteSentIds(l.idLedger));
    }
    if job.url.Some? {
      EarlierSuffix(history, since, earlier, WriteSentUrls(l.urlLedger));
      StillInSuffix(earlier, history, history', WriteSentUrls(l.urlLedger));
    }
  }

  /** Some delivered job has an id. */
  ghost predicate IdSent(jobs: seq<Job>, reports: seq<Report>) {
    exists i :: 0 <= i < |reports| && i < |jobs| && reports[i].verdict.Sent? && jobs[i].id.Some?
  }

  ghost predicate UrlSent(jobs: seq<Job>, reports: seq<Report>) {
    exists i :: 0 <= i < |reports| && i < |jobs| && reports[i].verdict.Sent? && jobs[i].url.Some?
  }

  /** What a batch has written last, whatever the others do: the lists as the run knows them. */
  ghost predicate LastWritten(history: seq<Action>, since: nat, jobs: seq<Job>, reports: seq<Report>, l: Loaded) {
    && since <= |history|
    && (IdSent(jobs, reports) ==> WriteSentIds(l.idLedger) in history[since..])
    && (UrlSent(jobs, reports) ==> WriteSentUrls(l.urlLedger) in history[since..])
  }

  lemma LastWrittenAppend(history: seq<Action>, history': seq<Action>, since: nat, jobs: seq<Job>,
                          reports: seq<Report>, r: Report, l: Loaded, kind: StoreKind)
    requires |reports| < |jobs| && history <= history' && !kind.NoStore?
    requires LastWritten(history, since, jobs, reports, l)
    requires r.verdict.Sent? ==>
               Filing(history', |history|, Learn(l, jobs[|reports|], kind), jobs[|reports|])
    ensures LastWritten(history', since, jobs, reports + [r], Filed(l, jobs[|reports|], r.verdict, kind))
  {
    var n, reports', l' := |reports|, reports + [r], Filed(l, jobs[|reports|], r.verdict, kind);
    if r.verdict.Sent? {
      FilingStays(history', history', |history|, since, l', jobs[n]);
    }
    if IdSent(jobs, reports') && !(r.verdict.Sent? && jobs[n].id.Some?) {
      var i :| 0 <= i < |reports'| && i < |jobs| && reports'[i].verdict.Sent? && jobs[i].id.Some?;
      assert reports[i] == reports'[i] && l'.idLedger == l.idLedger;
      StillInSuffix(since, history, history', WriteSentIds(l.idLedger));
    }
    if UrlSent(jobs, reports') && !(r.verdict.Sent? && jobs[n].url.Some?) {
      var i :| 0 <= i < |reports'| && i < |jobs| && reports'[i].verdict.Sent? && jobs[i].url.Some?;
      assert reports[i] == reports'[i] && l'.urlLedger == l.urlLedger;
      StillInSuffix(since, history, history', WriteSentUrls(l.urlLedger));
    }
  }

  lemma LastWrittenSince(history: seq<Action>, since: nat, earlier: nat, jobs: seq<Job>, reports: seq<Report>,
                         l: Loaded)
    requires LastWritten(history, since, jobs, reports, l) && earlier <= since
    ensures LastWritten(history, earlier, jobs, reports, l)
  {
    if IdSent(jobs, reports) {
      EarlierSuffix(history, since, earlier, WriteSentIds(l.idLedger));
    }
    if UrlSent(jobs, reports) {
      EarlierSuffix(history, since, earlier, WriteSentUrls(l.urlLedger));
    }
  }

  /** What a run knows after delivering a job. */
  function Learn(l: Loaded, job: Job, kind: StoreKind): Loaded {
    if kind.NoStore? then l else LearnUrl(LearnId(l, job.id, kind), job.url)
  }

  function Filed(l: Loaded, job: Job, v: Verdict, kind: StoreKind): Loaded {
    if v.Sent? then Learn(l, job, kind) else l
  }

  /** What a run knows after these reports. */
  function Known(l: Loaded, jobs: seq<Job>, reports: seq<Report>, kind: StoreKind): Loaded
    requires |reports| <= |jobs|
    decreases |reports|
  {
    if reports == [] then l
    else
      var n := |reports| - 1;
      Filed(Known(l, jobs, reports[..n], kind), jobs[n], reports[n].verdict, kind)
  }

  // ----- the files ------------------------------------------------------------------------------

  /** The lists a run writes besides the outbox. */
  datatype Files = Files(
    sentIds: seq<Name>, sentUrls: seq<Name>, targetIds: map<string, seq<Name>>, receipts: seq<Receipt>)

  function FilesOf(w: World): Files { Files(w.sentIds, w.sentUrls, w.targetIds, w.receipts) }

  function TargetIdsOf(w: World, target: string): seq<Name> {
    if target in w.targetIds then w.targetIds[target] else []
  }

  /** A delivered job is written: every list it belongs on becomes what the run knows. */
  function Written(f: Files, l: Loaded, job: Job, target: string, kind: StoreKind): Files {
    if kind.NoStore? then f
    else f.(sentIds := if job.id.Some? then l.idLedger else f.sentIds,
            sentUrls := if job.url.Some? then l.urlLedger else f.sentUrls,
            targetIds := if kind.Outbox? && job.id.Some? then f.targetIds[target := l.targetLedger] else f.targetIds)
  }

  /** One job; `l` is what the run knows afterwards. */
  function FiledOne(f: Files, l: Loaded, job: Job, v: Verdict, target: string, kind: StoreKind): Files {
    var f' := f.(receipts := WithReceipt(f.receipts, kind, v));
    if v.Sent? then Written(f', l, job, target, kind) else f'
  }

  /** The files after a batch that nobody disturbs. */
  function FiledAll(f: Files, l: Loaded, jobs: seq<Job>, reports: seq<Report>, target: string, kind: StoreKind): Files
    requires |reports| <= |jobs|
    decreases |reports|
  {
    if reports == [] then f
    else
      var n := |reports| - 1;
      FiledOne(FiledAll(f, l, jobs, reports[..n], target, kind), Known(l, jobs, reports, kind), jobs[n],
               reports[n].verdict, target, kind)
  }

  lemma FiledAppend(f: Files, l: Loaded, jobs: seq<Job>, reports: seq<Report>, r: Report, target: string,
                    kind: StoreKind)
    requires |reports| < |jobs|
    ensures FiledAll(f, l, jobs, reports + [r], target, kind)
         == FiledOne(FiledAll(f, l, jobs, reports, target, kind),
                     Filed(Known(l, jobs, reports, kind), jobs[|reports|], r.verdict, kind), jobs[|reports|], r.verdict,
                     target, kind)
  {
    assert (reports + [r])[..|reports|] == reports;
  }

  /** What the run loaded is what the store holds. */
  predicate InStep(w: World, l: Loaded, target: string, kind: StoreKind) {
    w.sentIds == l.idLedger && w.sentUrls == l.urlLedger && (kind.Outbox? ==> TargetIdsOf(w, target) == l.targetLedger)
  }

  function Attempts(reports: seq<Report>): set<Attempt> {
    if reports == [] then {} else Attempts(reports[..|reports| - 1]) + AttemptOf(reports[|reports| - 1])
  }

  /** What holds of the reports of a batch so far, whatever the others do. */
  ghost predicate Reported(w: World, mine0: set<Attempt>, mine: set<Attempt>, target: string, jobs: seq<Job>,
                           kind: StoreKind, sender: nat -> SendEvent, attempts: int, reports: seq<Report>)
    requires |reports| <= |jobs|
  {
    && AllSettled(w, target, jobs, kind, attempts, reports)
    && AllDecided(reports, target, jobs, kind, sender, attempts)
    && mine == mine0 + Attempts(reports)
  }

  /** ... and what besides when nobody else moves. */
  ghost predicate Undisturbedly(w0: World, w: World, l: Loaded, target: string, jobs: seq<Job>, kind: StoreKind,
                                sender: nat -> SendEvent, attempts: int, reports: seq<Report>)
    requires |reports| <= |jobs|
  {
    && FilesOf(w) == FiledAll(FilesOf(w0), l, jobs, reports, target, kind)
    && (kind.Outbox? ==>
          && BatchFrame(w0.outbox, w.outbox, target, jobs, |reports|)
          && AllQuietlyDecided(reports, w0.outbox, target, jobs, kind, sender, attempts))
  }

  lemma ReportedAppend(w: World, w': World, mine0: set<Attempt>, mine: set<Attempt>, mine': set<Attempt>,
                       target: string, jobs: seq<Job>, kind: StoreKind, sender: nat -> SendEvent, attempts: int,
                       reports: seq<Report>, r: Report)
    requires |reports| < |jobs| && Kept(w, w')
    requires Reported(w, mine0, mine, target, jobs, kind, sender, attempts, reports)
    requires Settled(w', target, jobs[|reports|], kind, attempts, r) && mine' == mine + AttemptOf(r)
    requires Looked(r.verdict) ==> Decided(r.verdict, target, jobs[|reports|], kind, sender, attempts)
    ensures Reported(w', mine0, mine', target, jobs, kind, sender, attempts, reports + [r])
  {
    AllSettledAppend(w, w', target, jobs, kind, attempts, reports, r);
    AttemptsAppend(mine0, mine, mine', reports, r);
  }

  lemma UndisturbedlyAppend(w0: World, w: World, w': World, l: Loaded, target: string, jobs: seq<Job>, kind: StoreKind,
                            sender: nat -> SendEvent, attempts: int, reports: seq<Report>, r: Report)
    requires |reports| < |jobs| && Undisturbedly(w0, w, l, target, jobs, kind, sender, attempts, reports)
    requires FilesOf(w') == FiledOne(FilesOf(w), Filed(Known(l, jobs, reports, kind), jobs[|reports|], r.verdict, kind),
                                     jobs[|reports|], r.verdict, target, kind)
    requires kind.Outbox? ==>
               && Frame(w.outbox, w'.outbox, Keys(target, jobs[|reports|]))
               && (Looked(r.verdict) && Keys(target, jobs[|reports|]) != [] ==>
                     QuietlyDecided(r.verdict, w.outbox, Keys(target, jobs[|reports|]), kind, sender, attempts))
    ensures Undisturbedly(w0, w', l, target, jobs, kind, sender, attempts, reports + [r])
  {
    FiledAppend(FilesOf(w0), l, jobs, reports, r, target, kind);
    if kind.Outbox? {
      QuietAppend(w0.outbox, w.outbox, w'.outbox, target, jobs, kind, sender, attempts, reports, r);
    }
  }

  lemma AttemptsAppend(mine: set<Attempt>, mine1: set<Attempt>, mine2: set<Attempt>, reports: seq<Report>, r: Report)
    requires mine1 == mine + Attempts(reports) && mine2 == mine1 + AttemptOf(r)
    ensures mine2 == mine + Attempts(reports + [r])
  {
    assert (reports + [r])[..|reports|] == reports;
  }

  /** Whatever an attempt of the run still holds uncertain belongs to a report whose verdict says so. */
  ghost predicate ReservedOnlyBy(w: World, attempts: set<Attempt>, reports: seq<Report>, kind: StoreKind) {
    forall a, k :: a in attempts && HoldsUncertain(w, a, k) ==>
      exists r :: r in reports && r.attempt == Some(a) && Keeps(kind, r.verdict)
  }

  lemma {:induction false} AttemptsAre(reports: seq<Report>, a: Attempt)
    ensures a in Attempts(reports) <==> exists r :: r in reports && r.attempt == Some(a)
  {
    if reports != [] {
      var before, last := reports[..|reports| - 1], reports[|reports| - 1];
      AttemptsAre(before, a);
      assert reports == before + [last];
      assert forall r :: r in reports <==> r in before || r == last;
    }
  }

  /** A settled attempt holds something uncertain only if its verdict keeps it. */
  lemma SettledReserves(w: World, target: string, job: Job, kind: StoreKind, attempts: int, r: Report, k: Key)
    requires Inv(w) && Settled(w, target, job, kind, attempts, r)
    requires r.attempt.Some? && HoldsUncertain(w, r.attempt.value, k)
    ensures Keeps(kind, r.verdict)
  {
    HeldAreKeys(w, r.attempt.value, k);
  }

  lemma OnlyUnclearStayReserved(w: World, target: string, jobs: seq<Job>, kind: StoreKind, attempts: int,
                                reports: seq<Report>)
    requires Inv(w) && |reports| <= |jobs| && AllSettled(w, target, jobs, kind, attempts, reports)
    ensures ReservedOnlyBy(w, Attempts(reports), reports, kind)
  {
    forall a, k | a in Attempts(reports) && HoldsUncertain(w, a, k)
      ensures exists r :: r in reports && r.attempt == Some(a) && Keeps(kind, r.verdict)
    {
      AttemptsAre(reports, a);
      var r :| r in reports && r.attempt == Some(a);
      var i :| 0 <= i < |reports| && reports[i] == r;
      SettledReserves(w, target, jobs[i], kind, attempts, r, k);
    }
  }

  /** No leaked reservations: on a store that can release, with an attempt allowed, whatever a run still holds
      uncertain belongs to a card that may have arrived and was not confirmed. */
  lemma NoLeakedReservations(w: World, target: string, jobs: seq<Job>, kind: StoreKind, attempts: int,
                             reports: seq<Report>, a: Attempt, k: Key)
    requires |reports| <= |jobs| && AllSettled(w, target, jobs, kind, attempts, reports)
    requires ReservedOnlyBy(w, Attempts(reports), reports, kind)
    requires kind.Outbox? && kind.canRelease && attempts >= 1
    requires a in Attempts(reports) && HoldsUncertain(w, a, k)
    ensures exists r :: r in reports && r.attempt == Some(a) && MayHaveArrived(r.verdict) && !r.verdict.Sent?
  {
    var r :| r in reports && r.attempt == Some(a) && Keeps(kind, r.verdict);
    var i :| 0 <= i < |reports| && reports[i] == r;
    assert Settled(w, target, jobs[i], kind, attempts, reports[i]);
  }

  function Basis(jobs: seq<Job>, reports: seq<Report>): seq<Job>
    requires |reports| <= |jobs|
    decreases |reports|
  {
    if reports == [] then []
    else
      var n := |reports| - 1;
      var before := Basis(jobs, reports[..n]);
      if InBasis(reports[n].verdict) then before + [jobs[n]] else before
  }

  /** Which jobs were skipped without looking at the outbox, and why. */
  ghost predicate Consulted(jobs: seq<Job>, reports: seq<Report>, i: nat, l: Loaded, kind: StoreKind,
                            same: (Job, Job) -> bool)
    requires i < |reports| <= |jobs|
  {
    var known := Known(l, jobs, reports[..i], kind);
    var published := Published(jobs[i], known.ids, known.urls);
    && (reports[i].verdict.OnLedger? <==> published)
    && (reports[i].verdict.NearDuplicate? <==>
          !published && exists b :: b in Basis(jobs, reports[..i]) && same(jobs[i], b))
  }

  /** A run inherits the legacy ledger exactly when its target is the one the anchor names. */
  ghost predicate OwnsLegacy(w: World, target: string, l: Loaded) {
    && Anchor in w.outbox && w.outbox[Anchor].payload.LegacyLedger? && w.outbox[Anchor].state.Delivered?
    && var legacy := w.outbox[Anchor].payload;
       l.ids == NamesIn(l.targetLedger) + (if legacy.target == target then NamesIn(legacy.ids) else {})
       && l.urls == (if legacy.target == target then NamesIn(legacy.urls) else {})
  }

  /** No earlier job of the batch has an identity of the i-th. */
  ghost predicate Apart(target: string, jobs: seq<Job>, i: nat)
    requires i < |jobs|
  {
    Keys(target, jobs[i]) != []
    && forall j, k :: 0 <= j < i && k in Keys(target, jobs[j]) ==> k !in Keys(target, jobs[i])
  }

  ghost predicate QuietlyDecided(v: Verdict, outbox: map<Key, Record>, keys: seq<Key>, kind: StoreKind,
                                 sender: nat -> SendEvent, attempts: int) {
    exists n: nat :: v == QuietVerdict(outbox, keys, kind, sender, n, attempts)
  }

  /** What the end of the send loop calls for. */
  function Planned(kind: StoreKind, last: Option<SendEvent>): Verdict {
    if last.None? then Failed(NothingTried) else AfterSending(kind, last.value)
  }

  /** The verdict is as planned, except that a confirmation may come too late. */
  predicate Fits(v: Verdict, planned: Verdict) {
    v == planned
    || (planned.Sent? && planned.receipt.Some? && v == Failed(Unconfirmed(planned.receipt.value)))
  }

  function Ending(sender: nat -> SendEvent, n: nat, attempts: int): Option<SendEvent> {
    if attempts < 1 then None else Some(LastEvent(sender, n, attempts))
  }

  lemma NextAttempt(sender: nat -> SendEvent, n: nat, attempts: int)
    requires attempts >= 1
    ensures Ending(sender, n, attempts) ==
            if sender(n).Flooded? && attempts > 1 then Ending(sender, n + 1, attempts - 1) else Some(sender(n))
  {
  }

  /** What a run knows as published: the two sets it consults, and the ledgers it will write back. */
  datatype Loaded = Loaded(
    ids: set<Name>, urls: set<Name>, idLedger: seq<Name>, urlLedger: seq<Name>, targetLedger: seq<Name>)

  function NamesIn(names: seq<Name>): set<Name> { set n | n in names }

  function NameSet(n: Option<Name>): set<Name> { if n.Some? then {n.value} else {} }

  /** Every id a target's ledger names stands for a confirmed reservation. */
  ghost predicate Backing(w: World, target: string, ids: seq<Name>) {
    forall id :: id in ids ==>
      Intent(target, ById, id) in w.outbox && w.outbox[Intent(target, ById, id)].state.Delivered?
  }

  predicate OneVerdict(v: Verdict, target: string, job: Job, kind: StoreKind, sender: nat -> SendEvent, n: nat,
                       attempts: int) {
    if !kind.Outbox? then v == Planned(kind, Ending(sender, n, attempts))
    else if Keys(target, job) == [] then v == Failed(NoIdentity)
    else AllowedVerdict(v, kind, sender, n, attempts)
  }

  function QuietOne(outbox: map<Key, Record>, target: string, job: Job, kind: StoreKind, sender: nat -> SendEvent,
                    n: nat, attempts: int): Verdict {
    if !kind.Outbox? then Planned(kind, Ending(sender, n, attempts))
    else if Keys(target, job) == [] then Failed(NoIdentity)
    else QuietVerdict(outbox, Keys(target, job), kind, sender, n, attempts)
  }

  ghost predicate Prepared(w: World, a: Attempt, target: string, job: Job) {
    Running(w, a) && w.tickets[a].target == target && w.tickets[a].job == job
  }

  function Trimmed<T>(xs: seq<T>): seq<T> {
    if |xs| <= LEDGER_LIMIT then xs else xs[|xs| - LEDGER_LIMIT..]
  }

  /** The verdicts a run can reach on a job, whatever the others do meanwhile: the reservation fails, or
      the verdict is what the sends call for. */
  predicate AllowedVerdict(v: Verdict, kind: StoreKind, sender: nat -> SendEvent, n: nat, attempts: int) {
    v.InOutbox? || v == Failed(HeldElsewhere) || Fits(v, Planned(kind, Ending(sender, n, attempts)))
  }

  /** The verdict when nobody else moves. */
  function QuietVerdict(outbox: map<Key, Record>, keys: seq<Key>, kind: StoreKind, sender: nat -> SendEvent,
                        n: nat, attempts: int): Verdict {
    match FirstHeld(outbox, keys)
    case Some(r) => if r.state.Delivered? then InOutbox else Failed(HeldElsewhere)
    case None => Planned(kind, Ending(sender, n, attempts))
  }

  ghost predicate NothingUncertain(w: World, a: Attempt) {
    forall k :: !HoldsUncertain(w, a, k)
  }

  /** What an attempt holds is read off the outbox. */
  lemma OutboxDecides(w: World, w': World, a: Attempt, keys: seq<Key>, n: nat)
    requires w'.outbox == w.outbox
    ensures NothingUncertain(w, a) ==> NothingUncertain(w', a)
    ensures HoldsUpTo(w, a, keys, n) ==> HoldsUpTo(w', a, keys, n)
    ensures HoldsAll(w, a, keys) ==> HoldsAll(w', a, keys)
  {
    forall k
      ensures HoldsUncertain(w', a, k) <==> HoldsUncertain(w, a, k)
      ensures Holds(w', a, k) <==> Holds(w, a, k)
    {
    }
  }

  ghost predicate HoldsAll(w: World, a: Attempt, keys: seq<Key>) {
    forall k :: k in keys ==> Holds(w, a, k)
  }

  /** The attempt holds the first `n` of the identities and no other. */
  ghost predicate HoldsUpTo(w: World, a: Attempt, keys: seq<Key>, n: nat) {
    forall j :: 0 <= j < |keys| ==> (Holds(w, a, keys[j]) <==> j < n)
  }

  /** What the attempt of a report has reserved when the report is made. */
  ghost predicate LeftBehind(w: World, target: string, job: Job, kind: StoreKind, r: Report) {
    r.attempt.Some? && kind.Outbox? ==>
      var a, keys := r.attempt.value, Keys(target, job);
      if MayHaveArrived(r.verdict) || r.verdict == Failed(NothingTried) then HoldsAll(w, a, keys)
      else if kind.canRelease then NothingUncertain(w, a)
      else if Blocked(r.verdict) then exists n :: 0 <= n < |keys| && HoldsUpTo(w, a, keys, n)
      else HoldsAll(w, a, keys)
  }

  /** When nobody else moves: whether a reservation is left uncertain, told from the outbox before the call,
      the abilities of the store and the verdict. */
  predicate StaysReserved(outbox: map<Key, Record>, keys: seq<Key>, kind: StoreKind, v: Verdict) {
    if v.Sent? then false
    else if Blocked(v) then kind.Outbox? && !kind.canRelease && keys != [] && keys[0] !in outbox
    else Keeps(kind, v)
  }

  /** The steps a process takes itself, besides beginning an attempt: they name its own attempts only. */
  predicate OwnStep(act: Action, mine: set<Attempt>) {
    match act
    case Begin(_, _, _) => false
    case Reserve(a, _) => a in mine
    case Transmit(a, _, _) => a in mine
    case Release(a, _) => a in mine
    case Confirm(a, _, _) => a in mine
    case Finish(a) => a in mine
    case Abandon(a) => a in mine
    case OperatorRelease(_) => false
    case OperatorConfirm(_, _) => false
    case _ => true
  }

  /** The three lists of published names are as they were. */
  predicate SameLists(w: World, w': World) {
    w'.sentIds == w.sentIds && w'.sentUrls == w.sentUrls && w'.targetIds == w.targetIds
  }

  predicate SameFiles(w: World, w': World) { SameLists(w, w') && w'.receipts == w.receipts }

  predicate Receiving(w: World, w': World, receipt: Receipt) {
    SameLists(w, w') && w'.receipts == Trimmed(w.receipts + [receipt])
  }

  /** The receipt that is kept of a job with this verdict. */
  function KeptReceipt(kind: StoreKind, v: Verdict): Option<Receipt> {
    if kind.NoStore? then None
    else if v.Sent? then v.receipt
    else if v.Failed? && v.cause.Unconfirmed? then Some(v.cause.receipt)
    else None
  }

  function WithReceipt(receipts: seq<Receipt>, kind: StoreKind, v: Verdict): seq<Receipt> {
    if KeptReceipt(kind, v).Some? then Trimmed(receipts + [KeptReceipt(kind, v).value]) else receipts
  }

  /** What one job leaves in the files before the lists are written. */
  predicate FilesAfter(w: World, w': World, kind: StoreKind, v: Verdict) {
    SameLists(w, w') && w'.receipts == WithReceipt(w.receipts, kind, v)
  }

  /** A blocked attempt that was given up. */
  lemma BlockedIsSettled(w1: World, w: World, a: Attempt, n: nat, blocker: Record, job: Job, target: string,
                         kind: StoreKind, attempts: int, r: Report)
    requires Kept(w1, w) && Prepared(w1, a, target, job) && kind.Outbox? && !w1.tickets[a].exposed
    requires a in w.tickets && w.tickets[a] == w1.tickets[a].(phase := if kind.canRelease then Finished else Abandoned)
    requires if kind.canRelease then NothingUncertain(w, a) else w.outbox == w1.outbox
    requires blocker.key in Keys(target, job) && blocker.key in w1.outbox && w1.outbox[blocker.key] == blocker
    requires n < |Keys(target, job)| && HoldsUpTo(w1, a, Keys(target, job), n)
    requires r.attempt == Some(a) && r.verdict == if blocker.state.Delivered? then InOutbox else Failed(HeldElsewhere)
    ensures Settled(w, target, job, kind, attempts, r) && LeftBehind(w, target, job, kind, r)
    ensures kind.canRelease || HoldsUpTo(w, a, Keys(target, job), n)
  {
    if !kind.canRelease {
      OutboxDecides(w1, w, a, Keys(target, job), n);
    }
  }

  lemma QuietChain(w0: World, w1: World, w2: World, keys: seq<Key>, kind: StoreKind, v: Verdict)
    requires SameFiles(w0, w1) && Frame(w0.outbox, w1.outbox, keys)
    requires FilesAfter(w1, w2, kind, v) && Frame(w1.outbox, w2.outbox, keys)
    ensures FilesAfter(w0, w2, kind, v) && Frame(w0.outbox, w2.outbox, keys)
  {
  }

  lemma HandIsKept(w1: World, w2: World, a: Attempt, intents: seq<Record>, target: string, job: Job, kind: StoreKind,
                   v: Verdict, outbox: map<Key, Record>)
    requires Keys(target, job) != [] && kind.Outbox? && (intents == [] <==> Keys(target, job)[0] in outbox)
    requires Prepared(w1, a, target, job) && ClaimsOf(w1, a, intents) && AllStored(w1, intents)
    requires a in w2.tickets && w2.tickets[a].target == target && w2.tickets[a].job == job
    requires if Blocked(v) then if kind.canRelease then true
                                else HoldsUpTo(w2, a, Keys(target, job), |intents|) && w2.outbox == w1.outbox
             else |intents| == |Keys(target, job)| && (Keeps(kind, v) ==> AllStored(w2, intents))
    ensures StillInHand(w2, a, intents, target, job, kind, v, outbox)
  {
  }

  /** The verdict on an attempt that nobody disturbs, and what it has in hand at the end. */
  lemma QuietOutcome(w0: World, w1: World, w2: World, a: Attempt, intents: seq<Record>, blocker: Option<Record>,
                     target: string, job: Job, kind: StoreKind, sender: nat -> SendEvent, n: nat, attempts: int,
                     v: Verdict)
    requires Keys(target, job) != [] && kind.Outbox? && SameFiles(w0, w1)
    requires SearchResult(w0.outbox, w1.outbox, Keys(target, job), |intents|, blocker)
    requires FilesAfter(w1, w2, kind, v) && Frame(w1.outbox, w2.outbox, Keys(target, job))
    requires Prepared(w1, a, target, job) && ClaimsOf(w1, a, intents) && AllStored(w1, intents)
    requires a in w2.tickets && w2.tickets[a].target == target && w2.tickets[a].job == job
    requires blocker.None? ==>
               && |intents| == |Keys(target, job)| && v == Planned(kind, Ending(sender, n, attempts))
               && (Keeps(kind, v) ==> AllStored(w2, intents))
    requires blocker.Some? ==>
               && v == (if blocker.value.state.Delivered? then InOutbox else Failed(HeldElsewhere))
               && (kind.canRelease || HoldsUpTo(w2, a, Keys(target, job), |intents|))
               && (!kind.canRelease ==> w2.outbox == w1.outbox)
    ensures FilesAfter(w0, w2, kind, v) && Frame(w0.outbox, w2.outbox, Keys(target, job))
    ensures StillInHand(w2, a, intents, target, job, kind, v, w0.outbox)
    ensures v == QuietVerdict(w0.outbox, Keys(target, job), kind, sender, n, attempts)
  {
    QuietChain(w0, w1, w2, Keys(target, job), kind, v);
    FirstHeldIsFound(w0.outbox, Keys(target, job), blocker);
    HandIsKept(w1, w2, a, intents, target, job, kind, v, w0.outbox);
  }

  lemma KeepsLast<T>(xs: seq<T>, x: T)
    ensures x in Trimmed(xs + [x])
  {
    var ys := xs + [x];
    assert ys[|ys| - 1] == x;
    assert Trimmed(ys)[|Trimmed(ys)| - 1] == x;
  }

  /** What the process knows about the reservations of its attempt: each is still the record it got
      back, or has been confirmed by the operator meanwhile. */
  ghost predicate InHand(w: World, a: Attempt, intents: seq<Record>) {
    forall k :: Holds(w, a, k) ==> w.outbox[k].state.Delivered? || w.outbox[k] in intents
  }

  /** The records the attempt got back, in the order of its identities. */
  ghost predicate ClaimsOf(w: World, a: Attempt, intents: seq<Record>) {
    && a in w.tickets
    && |intents| <= |TicketKeys(w.tickets[a])|
    && forall i :: 0 <= i < |intents| ==> intents[i] == Claimed(w, a, TicketKeys(w.tickets[a])[i])
  }

  /** The attempt holds exactly `held`, and `intents` are the records it got for them. */
  ghost predicate Reserving(w: World, a: Attempt, held: seq<Key>, intents: seq<Record>) {
    && a in w.tickets
    && |intents| == |held|
    && (forall i :: 0 <= i < |held| ==> intents[i] == Claimed(w, a, held[i]))
    && (forall k :: Holds(w, a, k) <==> k in held)
    && InHand(w, a, intents)
  }

  lemma ReservingOneMore(w: World, w': World, a: Attempt, k: Key, held: seq<Key>, intents: seq<Record>, stored: Record)
    requires Reserving(w, a, held, intents) && StaysInHand(w, w', a)
    requires a in w'.tickets && w'.tickets[a] == w.tickets[a]
    requires k in w'.outbox && stored == w'.outbox[k] && (Owned(stored, a) ==> stored == Claimed(w', a, k))
    requires forall k' :: Holds(w', a, k') <==> Holds(w, a, k') || (k' == k && Owned(stored, a))
    ensures if Owned(stored, a) then Reserving(w', a, held + [k], intents + [stored])
            else Reserving(w', a, held, intents)
  {
  }

  lemma HoldsPrefix(w: World, a: Attempt, i: nat, intents: seq<Record>)
    requires a in w.tickets && i <= |TicketKeys(w.tickets[a])|
    requires Reserving(w, a, TicketKeys(w.tickets[a])[..i], intents)
    ensures HoldsUpTo(w, a, TicketKeys(w.tickets[a]), i)
  {
    var keys := TicketKeys(w.tickets[a]);
    KeysDistinct(w.tickets[a].target, w.tickets[a].job);
    forall j | 0 <= j < |keys|
      ensures keys[j] in keys[..i] <==> j < i
    {
      if j < i {
        assert keys[..i][j] == keys[j];
      }
    }
  }

  ghost predicate AllStored(w: World, intents: seq<Record>) {
    forall i :: 0 <= i < |intents| ==> StillStored(w, intents[i])
  }

  /** The reservations of the attempt stay, at most confirmed by the operator. */
  ghost predicate StaysInHand(w: World, w': World, a: Attempt) {
    forall k :: Holds(w, a, k) ==> Holds(w', a, k) && (w'.outbox[k] == w.outbox[k] || w'.outbox[k].state.Delivered?)
  }

  /** ... and nothing is added to them. */
  ghost predicate SameHoldings(w: World, w': World, a: Attempt) {
    StaysInHand(w, w', a) && forall k :: Holds(w', a, k) ==> Holds(w, a, k)
  }

  lemma StillAllHeld(w: World, w': World, a: Attempt)
    requires a in w.tickets && a in w'.tickets && w'.tickets[a] == w.tickets[a]
    requires SameHoldings(w, w', a) && HoldsAll(w, a, TicketKeys(w.tickets[a]))
    ensures HoldsAll(w', a, TicketKeys(w'.tickets[a]))
  {
  }

  lemma HoldingsChain(w0: World, w1: World, w2: World, a: Attempt)
    requires SameHoldings(w0, w1, a) && SameHoldings(w1, w2, a)
    ensures SameHoldings(w0, w2, a)
  {
  }

  /** Nothing changed but, perhaps, the records of `keys`. */
  ghost predicate Frame(m: map<Key, Record>, m': map<Key, Record>, keys: seq<Key>) {
    forall k :: k !in keys ==> (k in m <==> k in m') && (k in m ==> m[k] == m'[k])
  }

  ghost predicate FreeBefore(m: map<Key, Record>, keys: seq<Key>, i: nat)
    requires i <= |keys|
  {
    forall j :: 0 <= j < i ==> keys[j] !in m
  }

  ghost predicate SameFrom(m: map<Key, Record>, m': map<Key, Record>, keys: seq<Key>, i: nat) {
    forall j :: i <= j < |keys| ==>
      (keys[j] in m <==> keys[j] in m') && (keys[j] in m ==> m[keys[j]] == m'[keys[j]])
  }

  /** The first `i` identities were free and are now reserved; nothing else was touched. */
  ghost predicate Searched(m: map<Key, Record>, m': map<Key, Record>, keys: seq<Key>, i: nat) {
    i <= |keys| && Frame(m, m', keys) && FreeBefore(m, keys, i) && SameFrom(m, m', keys, i)
  }

  lemma SearchGoesOn(m: map<Key, Record>, m1: map<Key, Record>, m2: map<Key, Record>, keys: seq<Key>, i: nat)
    requires Searched(m, m1, keys, i) && i < |keys| && keys[i] !in m1 && Frame(m1, m2, [keys[i]])
    requires forall j :: i < j < |keys| ==> keys[j] != keys[i]
    ensures Searched(m, m2, keys, i + 1)
  {
  }

  /** `found` is what looking the identities up in order finds first. */
  ghost predicate IsFirstHeld(m: map<Key, Record>, keys: seq<Key>, found: Option<Record>) {
    if found.None? then FreeBefore(m, keys, |keys|)
    else exists i :: 0 <= i < |keys| && FreeBefore(m, keys, i) && keys[i] in m && m[keys[i]] == found.value
  }

  /** What is known when the reservations end after `n`: what was found first, and that nothing else changed. */
  ghost predicate SearchResult(m: map<Key, Record>, m': map<Key, Record>, keys: seq<Key>, n: nat,
                               found: Option<Record>) {
    && Frame(m, m', keys) && IsFirstHeld(m, keys, found)
    && (n == 0 <==> keys == [] || keys[0] in m)
  }

  lemma SearchEnds(m: map<Key, Record>, m1: map<Key, Record>, m2: map<Key, Record>, keys: seq<Key>, i: nat)
    requires Searched(m, m1, keys, i) && i < |keys| && keys[i] in m1 && Frame(m1, m2, [keys[i]])
    ensures SearchResult(m, m2, keys, i, Some(m1[keys[i]]))
  {
  }

  lemma {:induction false} FirstHeldIsFound(m: map<Key, Record>, keys: seq<Key>, found: Option<Record>)
    requires IsFirstHeld(m, keys, found)
    ensures FirstHeld(m, keys) == found
  {
    if keys != [] && keys[0] !in m {
      var rest := keys[1..];
      if found.Some? {
        var i :| 0 <= i < |keys| && FreeBefore(m, keys, i) && keys[i] in m && m[keys[i]] == found.value;
        assert rest[i - 1] == keys[i];
        assert forall j :: 0 <= j < i - 1 ==> rest[j] == keys[j + 1];
        assert FreeBefore(m, rest, i - 1);
      } else {
        assert forall j :: 0 <= j < |rest| ==> rest[j] == keys[j + 1];
      }
      FirstHeldIsFound(m, rest, found);
    }
  }

  /** The i-th identity is none of the others. */
  lemma NextKey(t: Ticket, i: nat)
    requires i < |TicketKeys(t)|
    ensures var keys := TicketKeys(t);
            && keys[i] !in keys[..i] && keys[..i + 1] == keys[..i] + [keys[i]]
            && forall j :: i < j < |keys| ==> keys[j] != keys[i]
  {
    KeysDistinct(t.target, t.job);
  }

  lemma KeysDistinct(target: string, job: Job)
    ensures var keys := Keys(target, job); forall i, j :: 0 <= i < j < |keys| ==> keys[i] != keys[j]
  {
  }

  lemma {:induction false} FreshExists(used: set<Attempt>)
    ensures exists a: Attempt :: a !in used
  {
    var bound := Above(used);
    assert bound !in used;
  }

  ghost function Above(used: set<Attempt>): (b: Attempt)
    ensures forall a :: a in used ==> a < b
  {
    if used == {} then 0
    else
      var a :| a in used;
      var rest := Above(used - {a});
      assert used == (used - {a}) + {a};
      if a < rest then rest else a + 1
  }
}
