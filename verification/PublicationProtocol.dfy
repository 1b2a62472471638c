/**
 The durable publication protocol (job_ftch/application/channel_publisher.py), one atomic step per
 `await`: reserving an identity, sending a card, releasing or confirming a reservation.

 A `World` is what all publishers share: the outbox, the ledgers, and what really reached the
 targets. An `Action` is one atomic step of any publisher, of the operator, or of a process that
 dies. `Enabled` says when the protocol allows a step; ChannelPublisher.dfy proves that the code
 never takes another. Everything here is stated for every sequence of allowed actions, that is, for
 any number of publishers in any interleaving and any sequence of runs.
 Hashes are taken to be injective, so a key is its target, kind and identity.
 */
module PublicationProtocol {
  import opened Wrappers

  /** A job id or a canonical URL; the extraction functions never return an empty one. */
  type Name = s: string | s != "" witness "x"

  type Attempt = nat

  datatype Kind = ById | ByUrl

  /** An idempotency key: the owner of the legacy ledger, or one identity at one target. */
  datatype Key = Anchor | Intent(target: string, kind: Kind, identity: Name)

  datatype Job = Job(id: Option<Name>, url: Option<Name>, card: int)

  datatype MessageId = Number(n: int) | Text(digits: string)

  datatype Receipt = Receipt(chat: string, message: MessageId, at: int)

  datatype Payload =
    | LegacyLedger(target: string, ids: seq<Name>, urls: seq<Name>)
    | Claim(attempt: Attempt, job: Option<Name>, target: string, receipt: Option<Receipt>)

  datatype RecordState = Uncertain | Delivered

  datatype Record = Record(key: Key, payload: Payload, state: RecordState)

  /** One card that appeared at its target; `attempt` is `None` when the store has no outbox. */
  datatype Message = Message(target: string, job: Job, attempt: Option<Attempt>)

  datatype Phase = Active | Finished | Abandoned

  /** The bookkeeping of one attempt: `exposed` once a send may have reached the target. */
  datatype Ticket = Ticket(target: string, job: Job, phase: Phase, exposed: bool)

  datatype World = World(
    outbox: map<Key, Record>,
    tickets: map<Attempt, Ticket>,
    messages: seq<Message>,
    targetIds: map<string, seq<Name>>,
    sentIds: seq<Name>,
    sentUrls: seq<Name>,
    receipts: seq<Receipt>)

  /** A store that nothing was written to, and a target that nothing was sent to. */
  const EMPTY_STORE := World(map[], map[], [], map[], [], [], [])

  /** The identities of a job at a target, in the order they are reserved. */
  function Keys(target: string, job: Job): seq<Key> {
    (if job.id.Some? then [Intent(target, ById, job.id.value)] else [])
    + (if job.url.Some? then [Intent(target, ByUrl, job.url.value)] else [])
  }

  function TicketKeys(t: Ticket): seq<Key> { Keys(t.target, t.job) }

  predicate Owned(r: Record, a: Attempt) {
    r.payload.Claim? && r.payload.attempt == a
  }

  predicate Holds(w: World, a: Attempt, k: Key) {
    k in w.outbox && Owned(w.outbox[k], a)
  }

  predicate HoldsUncertain(w: World, a: Attempt, k: Key) {
    Holds(w, a, k) && w.outbox[k].state.Uncertain?
  }

  /** The record an attempt asks the outbox to insert. */
  function Claimed(w: World, a: Attempt, k: Key): Record
    requires a in w.tickets
  {
    var t := w.tickets[a];
    Record(k, Claim(a, t.job.id, t.target, None), Uncertain)
  }

  predicate ReachedTarget(w: World, a: Attempt) {
    exists i :: 0 <= i < |w.messages| && w.messages[i].attempt == Some(a)
  }

  // ----- actions --------------------------------------------------------------------------

  datatype Action =
    | PutAnchor(target: string, ids: seq<Name>, urls: seq<Name>)
    | SealAnchor
    | Begin(a: Attempt, target: string, job: Job)      // a fresh attempt id
    | Reserve(a: Attempt, key: Key)                    // enqueue_outbox
    | Transmit(a: Attempt, reached: bool, definite: bool)
    | TransmitBare(target: string, job: Job, reached: bool)  // a store without an outbox
    | Release(a: Attempt, record: Record)              // release_uncertain_outbox
    | Confirm(a: Attempt, record: Record, receipt: Receipt)  // confirm_uncertain_outbox
    | Finish(a: Attempt)                               // the code is done with the attempt
    | Abandon(a: Attempt)                              // it stopped with reservations in hand, or died
    | OperatorRelease(key: Key)                        // verified as not sent
    | OperatorConfirm(key: Key, receipt: Receipt)      // verified as sent
    | WriteTargetIds(target: string, ids: seq<Name>)
    | WriteSentIds(ids: seq<Name>)
    | WriteSentUrls(urls: seq<Name>)
    | WriteReceipts(receipts: seq<Receipt>)

  predicate Running(w: World, a: Attempt) {
    a in w.tickets && w.tickets[a].phase.Active?
  }

  predicate Enabled(w: World, act: Action) {
    match act
    case PutAnchor(_, _, _) => true
    case SealAnchor => true
    case Begin(a, _, _) => a !in w.tickets
    case Reserve(a, k) => Running(w, a) && !w.tickets[a].exposed && k in TicketKeys(w.tickets[a])
    case Transmit(a, reached, definite) =>
      // every identity is held by this very attempt, and no earlier send of it may have arrived
      && Running(w, a) && !w.tickets[a].exposed
      && TicketKeys(w.tickets[a]) != []
      && (forall k :: k in TicketKeys(w.tickets[a]) ==> Holds(w, a, k))
      && (reached ==> !definite)
    case TransmitBare(_, _, _) => true
    case Release(a, r) => Running(w, a) && !w.tickets[a].exposed && Owned(r, a)
    case Confirm(a, r, _) => Running(w, a) && w.tickets[a].exposed && Owned(r, a)
    case Finish(a) =>
      Running(w, a) && (w.tickets[a].exposed || forall k :: k in w.outbox ==> !HoldsUncertain(w, a, k))
    case Abandon(a) => Running(w, a)
    case OperatorRelease(k) =>
      // a truthful verdict on an attempt that is over
      && k in w.outbox && w.outbox[k].payload.Claim? && w.outbox[k].state.Uncertain?
      && !Running(w, w.outbox[k].payload.attempt) && !ReachedTarget(w, w.outbox[k].payload.attempt)
    case OperatorConfirm(k, _) => k in w.outbox && w.outbox[k].payload.Claim? && w.outbox[k].state.Uncertain?
    case WriteTargetIds(t, ids) =>
      forall id :: id in ids ==> Intent(t, ById, id) in w.outbox && w.outbox[Intent(t, ById, id)].state.Delivered?
    case WriteSentIds(_) => true
    case WriteSentUrls(_) => true
    case WriteReceipts(_) => true
  }

  /** Insert if absent. */
  function Enqueued(w: World, r: Record): World {
    if r.key in w.outbox then w else w.(outbox := w.outbox[r.key := r])
  }

  /** Both conditional updates act only on a record that is still exactly the caller's. */
  predicate StillStored(w: World, r: Record) {
    r.state.Uncertain? && r.key in w.outbox && w.outbox[r.key] == r
  }

  function Confirmed(r: Record, receipt: Receipt): Record
    requires r.payload.Claim?
  {
    r.(payload := r.payload.(receipt := Some(receipt)), state := Delivered)
  }

  function Effect(w: World, act: Action): World
    requires Enabled(w, act)
  {
    match act
    case PutAnchor(t, ids, urls) => Enqueued(w, Record(Anchor, LegacyLedger(t, ids, urls), Uncertain))
    case SealAnchor =>
      if Anchor in w.outbox then w.(outbox := w.outbox[Anchor := w.outbox[Anchor].(state := Delivered)]) else w
    case Begin(a, t, job) => w.(tickets := w.tickets[a := Ticket(t, job, Active, false)])
    case Reserve(a, k) => Enqueued(w, Claimed(w, a, k))
    case Transmit(a, reached, definite) =>
      var t := w.tickets[a];
      w.(messages := if reached then w.messages + [Message(t.target, t.job, Some(a))] else w.messages,
         tickets := w.tickets[a := t.(exposed := !definite)])
    case TransmitBare(t, job, reached) =>
      if reached then w.(messages := w.messages + [Message(t, job, None)]) else w
    case Release(_, r) => if StillStored(w, r) then w.(outbox := w.outbox - {r.key}) else w
    case Confirm(_, r, receipt) =>
      if StillStored(w, r) then w.(outbox := w.outbox[r.key := Confirmed(r, receipt)]) else w
    case Finish(a) => w.(tickets := w.tickets[a := w.tickets[a].(phase := Finished)])
    case Abandon(a) => w.(tickets := w.tickets[a := w.tickets[a].(phase := Abandoned)])
    case OperatorRelease(k) => w.(outbox := w.outbox - {k})
    case OperatorConfirm(k, receipt) => w.(outbox := w.outbox[k := Confirmed(w.outbox[k], receipt)])
    case WriteTargetIds(t, ids) => w.(targetIds := w.targetIds[t := ids])
    case WriteSentIds(ids) => w.(sentIds := ids)
    case WriteSentUrls(urls) => w.(sentUrls := urls)
    case WriteReceipts(rs) => w.(receipts := rs)
  }

  /** An action that is not allowed does not happen. */
  function Apply(w: World, act: Action): World {
    if Enabled(w, act) then Effect(w, act) else w
  }

  function Run(w: World, acts: seq<Action>): World {
    if acts == [] then w else Apply(Run(w, acts[..|acts| - 1]), acts[|acts| - 1])
  }

  lemma {:induction false} RunConcat(w: World, a: seq<Action>, b: seq<Action>)
    ensures Run(w, a + b) == Run(Run(w, a), b)
  {
    if b == [] {
      assert a + b == a;
    } else {
      RunConcat(w, a, b[..|b| - 1]);
      assert (a + b)[..|a + b| - 1] == a + b[..|b| - 1];
    }
  }

  /** A store before the first publication through the outbox; the legacy ledgers may hold anything. */
  predicate Genesis(w: World) {
    w.outbox == map[] && w.tickets == map[] && w.messages == [] && w.targetIds == map[]
  }

  // ----- the invariant ----------------------------------------------------------------------

  ghost predicate RecordWellKeyed(w: World, k: Key)
    requires k in w.outbox
  {
    var r := w.outbox[k];
    && r.key == k
    && (k.Anchor? <==> r.payload.LegacyLedger?)
    && (r.payload.Claim? ==>
          && r.payload.attempt in w.tickets
          && k in TicketKeys(w.tickets[r.payload.attempt])
          && r.payload.target == w.tickets[r.payload.attempt].target
          && r.payload.job == w.tickets[r.payload.attempt].job.id)
  }

  ghost predicate WellKeyed(w: World) {
    forall k :: k in w.outbox ==> RecordWellKeyed(w, k)
  }

  /** A message keeps its identities reserved: its attempt still holds every key. */
  ghost predicate MessageHeld(w: World, m: Message) {
    m.attempt.Some? ==>
      var a := m.attempt.value;
      && a in w.tickets && w.tickets[a].exposed
      && w.tickets[a].target == m.target && w.tickets[a].job == m.job
      && forall k :: k in Keys(m.target, m.job) ==> Holds(w, a, k)
  }

  ghost predicate MessagesHeld(w: World) {
    forall i :: 0 <= i < |w.messages| ==> MessageHeld(w, w.messages[i])
  }

  ghost predicate OneMessagePerAttempt(w: World) {
    forall i, j :: 0 <= i < j < |w.messages| && w.messages[i].attempt.Some? ==>
      w.messages[i].attempt != w.messages[j].attempt
  }

  ghost predicate LedgerBacked(w: World) {
    forall t, id :: t in w.targetIds && id in w.targetIds[t] ==>
      Intent(t, ById, id) in w.outbox && w.outbox[Intent(t, ById, id)].state.Delivered?
  }

  /** Nothing uncertain is left of an attempt that finished and never exposed its card. */
  ghost predicate NoLeaks(w: World) {
    forall a, k :: a in w.tickets && w.tickets[a].phase.Finished? && HoldsUncertain(w, a, k) ==>
      w.tickets[a].exposed
  }

  ghost predicate Inv(w: World) {
    WellKeyed(w) && MessagesHeld(w) && OneMessagePerAttempt(w) && LedgerBacked(w) && NoLeaks(w)
  }

  lemma RecordWellKeyedStep(w: World, act: Action, k: Key)
    requires WellKeyed(w) && Enabled(w, act)
    ensures k in Effect(w, act).outbox ==> RecordWellKeyed(Effect(w, act), k)
  {
    assert k in w.outbox ==> RecordWellKeyed(w, k);
  }

  lemma WellKeyedStep(w: World, act: Action)
    requires WellKeyed(w) && Enabled(w, act)
    ensures WellKeyed(Effect(w, act))
  {
    forall k | k in Effect(w, act).outbox
      ensures RecordWellKeyed(Effect(w, act), k)
    {
      RecordWellKeyedStep(w, act, k);
    }
  }

  lemma MessageHeldStep(w: World, act: Action, m: Message)
    requires Inv(w) && Enabled(w, act) && m in w.messages
    ensures MessageHeld(Effect(w, act), m)
  {
    assert MessageHeld(w, m);
    if m.attempt.Some? {
      forall k | k in Keys(m.target, m.job)
        ensures Holds(Effect(w, act), m.attempt.value, k)
      {
        assert Holds(w, m.attempt.value, k);
      }
    }
  }

  lemma MessagesStep(w: World, act: Action)
    requires Inv(w) && Enabled(w, act)
    ensures MessagesHeld(Effect(w, act)) && OneMessagePerAttempt(Effect(w, act))
  {
    var w' := Effect(w, act);
    forall i | 0 <= i < |w.messages|
      ensures MessageHeld(w, w.messages[i]) && MessageHeld(w', w.messages[i])
    {
      assert w.messages[i] in w.messages;
      MessageHeldStep(w, act, w.messages[i]);
    }
    if act.Transmit? && act.reached {
      var m := w'.messages[|w.messages|];
      assert forall k :: k in TicketKeys(w.tickets[act.a]) ==> Holds(w, act.a, k) && Holds(w', act.a, k);
      assert MessageHeld(w', m);
    }
  }

  lemma NoLeaksStep(w: World, act: Action)
    requires WellKeyed(w) && NoLeaks(w) && Enabled(w, act)
    ensures NoLeaks(Effect(w, act))
  {
    var w' := Effect(w, act);
    forall a, k | a in w'.tickets && w'.tickets[a].phase.Finished? && HoldsUncertain(w', a, k)
      ensures w'.tickets[a].exposed
    {
      assert HoldsUncertain(w, a, k) || act.Reserve?;
    }
  }

  lemma InvStep(w: World, act: Action)
    requires Inv(w) && Enabled(w, act)
    ensures Inv(Effect(w, act))
  {
    WellKeyedStep(w, act);
    MessagesStep(w, act);
    NoLeaksStep(w, act);
  }

  lemma {:induction false} EveryRunKeepsInv(w: World, acts: seq<Action>)
    requires Inv(w)
    ensures Inv(Run(w, acts))
  {
    if acts != [] {
      EveryRunKeepsInv(w, acts[..|acts| - 1]);
      var before := Run(w, acts[..|acts| - 1]);
      if Enabled(before, acts[|acts| - 1]) {
        InvStep(before, acts[|acts| - 1]);
      }
    }
  }

  // ----- the guarantees ---------------------------------------------------------------------

  predicate SameVacancyIdentity(a: Job, b: Job) {
    (a.id.Some? && a.id == b.id) || (a.url.Some? && a.url == b.url)
  }

  /** At-most-once delivery: no two cards that reached one target through the outbox share a job id or
      a canonical URL. */
  ghost predicate AtMostOnce(w: World) {
    forall i, j :: 0 <= i < j < |w.messages|
      && w.messages[i].attempt.Some? && w.messages[j].attempt.Some?
      && w.messages[i].target == w.messages[j].target
      ==> !SameVacancyIdentity(w.messages[i].job, w.messages[j].job)
  }

  /** ... for any number of publishers, any interleaving, any sequence of runs, any crash and any
      truthful operator. */
  lemma AtMostOnceDelivery(w: World, acts: seq<Action>)
    requires Genesis(w)
    ensures AtMostOnce(Run(w, acts))
  {
    EveryRunKeepsInv(w, acts);
    var v := Run(w, acts);
    forall i, j | 0 <= i < j < |v.messages|
      && v.messages[i].attempt.Some? && v.messages[j].attempt.Some?
      && v.messages[i].target == v.messages[j].target
      ensures !SameVacancyIdentity(v.messages[i].job, v.messages[j].job)
    {
      assert MessageHeld(v, v.messages[i]) && MessageHeld(v, v.messages[j]);
      SharedKey(v.messages[i].target, v.messages[i].job, v.messages[j].job);
    }
  }

  lemma SharedKey(target: string, a: Job, b: Job)
    ensures SameVacancyIdentity(a, b) <==> exists k :: k in Keys(target, a) && k in Keys(target, b)
  {
    if a.id.Some? && a.id == b.id {
      assert Intent(target, ById, a.id.value) in Keys(target, a) && Intent(target, ById, a.id.value) in Keys(target, b);
    }
    if a.url.Some? && a.url == b.url {
      assert Intent(target, ByUrl, a.url.value) in Keys(target, a)
               && Intent(target, ByUrl, a.url.value) in Keys(target, b);
    }
  }

  /** Re-run idempotence: once a card reached its target, no later step of any run can send a card
      with one of its identities there, whatever happens to the ledgers. */
  lemma NeverSentAgain(w: World, acts: seq<Action>, i: nat, a: Attempt, reached: bool, definite: bool)
    requires Inv(w) && i < |w.messages| && w.messages[i].attempt.Some?
    requires var v := Run(w, acts);
             && Enabled(v, Transmit(a, reached, definite))
             && v.tickets[a].target == w.messages[i].target
    ensures !SameVacancyIdentity(Run(w, acts).tickets[a].job, w.messages[i].job)
  {
    EveryRunKeepsInv(w, acts);
    MessagesStay(w, acts);
    var v := Run(w, acts);
    assert MessageHeld(v, v.messages[i]);
    SharedKey(v.messages[i].target, v.tickets[a].job, v.messages[i].job);
  }

  lemma {:induction false} MessagesStay(w: World, acts: seq<Action>)
    ensures w.messages <= Run(w, acts).messages
  {
    if acts != [] {
      MessagesStay(w, acts[..|acts| - 1]);
    }
  }

  // ----- what other parties leave alone -------------------------------------------------------

  /** `act` is not a step of attempt `self`. */
  predicate Foreign(act: Action, self: Option<Attempt>) {
    self.Some? ==>
      match act
      case Begin(a, _, _) => a != self.value
      case Reserve(a, _) => a != self.value
      case Transmit(a, _, _) => a != self.value
      case Release(a, _) => a != self.value
      case Confirm(a, _, _) => a != self.value
      case Finish(a) => a != self.value
      case Abandon(a) => a != self.value
      case _ => true
  }

  /** What every party can rely on while others act. */
  ghost predicate Kept(w: World, w': World) {
    && w.messages <= w'.messages
    && (forall a :: a in w.tickets ==>
          && a in w'.tickets
          && w'.tickets[a].target == w.tickets[a].target && w'.tickets[a].job == w.tickets[a].job
          && (!w.tickets[a].phase.Active? ==> w'.tickets[a] == w.tickets[a]))
    && (forall k :: k in w.outbox && w.outbox[k].state.Delivered? ==> k in w'.outbox && w'.outbox[k] == w.outbox[k])
    && (forall a, k :: a in w.tickets && !w.tickets[a].phase.Active? && HoldsUncertain(w', a, k) ==>
          HoldsUncertain(w, a, k))
    && (Anchor in w.outbox ==> Anchor in w'.outbox && w'.outbox[Anchor].payload == w.outbox[Anchor].payload)
  }

  /** What a running attempt can rely on besides: its reservations stay, at most confirmed by the
      operator, and nobody sends in its name. */
  ghost predicate Undisturbed(w: World, w': World, a: Attempt) {
    && a in w.tickets && a in w'.tickets && w'.tickets[a] == w.tickets[a]
    && (forall k :: Holds(w, a, k) <==> Holds(w', a, k))
    && (forall k :: Holds(w, a, k) ==> w'.outbox[k] == w.outbox[k] || w'.outbox[k].state.Delivered?)
    && (ReachedTarget(w', a) ==> ReachedTarget(w, a))
  }

  /** A confirmed record is never touched, and the anchor keeps its payload. */
  lemma RecordsStep(w: World, act: Action, k: Key)
    requires Inv(w) && Enabled(w, act) && k in w.outbox
    ensures w.outbox[k].state.Delivered? ==> k in Effect(w, act).outbox && Effect(w, act).outbox[k] == w.outbox[k]
    ensures k.Anchor? ==> k in Effect(w, act).outbox && Effect(w, act).outbox[k].payload == w.outbox[k].payload
  {
  }

  lemma TicketsStep(w: World, act: Action, a: Attempt)
    requires Enabled(w, act) && a in w.tickets
    ensures a in Effect(w, act).tickets
    ensures var t, t' := w.tickets[a], Effect(w, act).tickets[a];
            t'.target == t.target && t'.job == t.job && (!t.phase.Active? ==> t' == t)
  {
  }

  /** Only a running attempt reserves. */
  lemma ReservationsStep(w: World, act: Action, a: Attempt, k: Key)
    requires Enabled(w, act) && !Running(w, a) && HoldsUncertain(Effect(w, act), a, k)
    ensures HoldsUncertain(w, a, k)
  {
  }

  lemma KeptStep(w: World, act: Action)
    requires Inv(w) && Enabled(w, act)
    ensures Kept(w, Effect(w, act))
  {
    var w' := Effect(w, act);
    assert w.messages <= w'.messages;
    forall k | k in w.outbox {
      RecordsStep(w, act, k);
    }
    forall a | a in w.tickets {
      TicketsStep(w, act, a);
    }
    forall a, k | a in w.tickets && !w.tickets[a].phase.Active? && HoldsUncertain(w', a, k)
      ensures HoldsUncertain(w, a, k)
    {
      ReservationsStep(w, act, a, k);
    }
  }

  lemma KeptTransitive(u: World, v: World, w: World)
    requires Kept(u, v) && Kept(v, w)
    ensures Kept(u, w)
  {
  }

  /** Whatever happens, by whoever, keeps all this. */
  lemma {:induction false} EveryRunKeeps(w: World, acts: seq<Action>)
    requires Inv(w)
    ensures Kept(w, Run(w, acts))
  {
    if acts != [] {
      var before := Run(w, acts[..|acts| - 1]);
      EveryRunKeeps(w, acts[..|acts| - 1]);
      EveryRunKeepsInv(w, acts[..|acts| - 1]);
      if Enabled(before, acts[|acts| - 1]) {
        KeptStep(before, acts[|acts| - 1]);
        KeptTransitive(w, before, Run(w, acts));
      }
    }
  }

  lemma HoldingsStep(w: World, act: Action, a: Attempt, k: Key)
    requires Inv(w) && Running(w, a) && Enabled(w, act) && Foreign(act, Some(a))
    ensures Holds(w, a, k) <==> Holds(Effect(w, act), a, k)
    ensures Holds(w, a, k) ==>
              Effect(w, act).outbox[k] == w.outbox[k] || Effect(w, act).outbox[k].state.Delivered?
  {
  }

  lemma UndisturbedStep(w: World, act: Action, a: Attempt)
    requires Inv(w) && Running(w, a) && Enabled(w, act) && Foreign(act, Some(a))
    ensures Undisturbed(w, Effect(w, act), a)
  {
    var w' := Effect(w, act);
    forall k {
      HoldingsStep(w, act, a, k);
    }
    assert forall i :: 0 <= i < |w.messages| ==> w'.messages[i] == w.messages[i];
  }

  lemma UndisturbedTransitive(u: World, v: World, w: World, a: Attempt)
    requires Undisturbed(u, v, a) && Undisturbed(v, w, a)
    ensures Undisturbed(u, w, a)
  {
  }

  /** The moves of all other parties while attempt `self` waits, in order. */
  function Interference(w: World, moves: seq<Action>, self: Option<Attempt>): (taken: seq<Action>)
    decreases |moves|
  {
    if moves == [] then []
    else
      var rest := moves[1..];
      if Foreign(moves[0], self) && Enabled(w, moves[0])
      then [moves[0]] + Interference(Effect(w, moves[0]), rest, self)
      else Interference(w, rest, self)
  }

  lemma {:induction false} InterferenceKeeps(w: World, moves: seq<Action>, self: Option<Attempt>)
    requires Inv(w) && (self.Some? ==> Running(w, self.value))
    ensures var w' := Run(w, Interference(w, moves, self));
            && Inv(w')
            && (self.Some? ==> Undisturbed(w, w', self.value))
    decreases |moves|
  {
    if moves != [] {
      var act := moves[0];
      if Foreign(act, self) && Enabled(w, act) {
        var v := Effect(w, act);
        InvStep(w, act);
        if self.Some? { UndisturbedStep(w, act, self.value); }
        InterferenceKeeps(v, moves[1..], self);
        var rest := Interference(v, moves[1..], self);
        RunConcat(w, [act], rest);
        assert Run(w, [act]) == v by { assert [act][..0] == []; assert Run(w, []) == w; }
        if self.Some? { UndisturbedTransitive(w, v, Run(v, rest), self.value); }
      } else {
        InterferenceKeeps(w, moves[1..], self);
      }
    }
  }

  /** A reservation that was confirmed stays confirmed: no step takes it away or rewrites it. */
  lemma {:induction false} ConfirmedForGood(w: World, acts: seq<Action>, k: Key)
    requires Inv(w) && k in w.outbox && w.outbox[k].state.Delivered?
    ensures k in Run(w, acts).outbox && Run(w, acts).outbox[k] == w.outbox[k]
  {
    EveryRunKeeps(w, acts);
  }

  // ----- the legacy ledger ------------------------------------------------------------------

  /** The first target to publish is recorded as the owner of the legacy ledger, with the ledgers as
      it found them; nothing ever changes that record. */
  lemma {:induction false} LegacyOwnerFixed(w: World, acts: seq<Action>)
    requires Inv(w) && Anchor in w.outbox
    ensures Anchor in Run(w, acts).outbox && Run(w, acts).outbox[Anchor].payload == w.outbox[Anchor].payload
  {
    EveryRunKeeps(w, acts);
  }

  function FirstAnchor(acts: seq<Action>): Option<Payload> {
    if acts == [] then None
    else if acts[0].PutAnchor? then Some(LegacyLedger(acts[0].target, acts[0].ids, acts[0].urls))
    else FirstAnchor(acts[1..])
  }

  /** Over all runs on one store exactly one target inherits the legacy ledger: the first one that got
      to insert the anchor, with the ledgers it had loaded. */
  lemma {:induction false} FirstPublisherInheritsLegacy(w: World, acts: seq<Action>)
    requires Inv(w) && Anchor !in w.outbox
    ensures var v := Run(w, acts);
            if Anchor in v.outbox then FirstAnchor(acts) == Some(v.outbox[Anchor].payload)
            else FirstAnchor(acts) == None
    decreases |acts|
  {
    if acts != [] {
      var v := Apply(w, acts[0]);
      assert acts == [acts[0]] + acts[1..];
      RunConcat(w, [acts[0]], acts[1..]);
      assert Run(w, [acts[0]]) == Apply(Run(w, []), acts[0]) by { assert [acts[0]][..0] == []; }
      if Enabled(w, acts[0]) { InvStep(w, acts[0]); }
      if acts[0].PutAnchor? {
        LegacyOwnerFixed(v, acts[1..]);
      } else {
        FirstPublisherInheritsLegacy(v, acts[1..]);
      }
    }
  }
}
