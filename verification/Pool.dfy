/**
 * The deliverer's worker pool as an interleaved step system: N copies of the consumer loop over one
 * shared subscription, with redelivery after crashes and draining after cancellation.
 */
module Pool {
  import opened Text
  import opened Notifications
  import opened Ledger
  import opened Dispatching
  import opened Consumer
  import opened Sandbox

  type MessageId = nat

  /** A message of the topic: whether some private key opens it, what its body decodes to, its property. */
  datatype Delivery = Delivery(decryptable: bool, decoded: Option<Notification>, property: string)

  /**
   * Settings, the topic's messages, and whether the reader reports a message it cannot decrypt as a policy violation,
   * as its contract says, or returns an error like any other, as the Pulsar adapter does.
   */
  datatype Config = Config(max: int, registered: set<string>, message: MessageId -> Delivery, reports: bool)

  /** Where a worker stands: between messages, in the retry loop, past the record, or finished. */
  datatype Pc =
    | Idle
    | Received(m: MessageId)
    | Looping(m: MessageId, n: Notification, now: Time, made: seq<Attempt>)
    | Settling(m: MessageId, n: Notification, now: Time, made: seq<Attempt>)
    | Recorded(m: MessageId)
    | Returned

  /** What an outcome was recorded for: a message that was met and not opened, or one and its dispatch. */
  datatype Source = NoSource | Violation(met: MessageId) | OfMessage(m: MessageId, now: Time, run: Run)

  datatype Push = Push(n: Notification, response: PushResult)

  /** What crashes cost: pushes and handlings without an outcome, deliveries and outcomes that may repeat. */
  datatype Lost = Lost(pushes: nat, handled: nat, delivered: multiset<string>, recorded: multiset<MessageId>)

  const NOTHING_LOST := Lost(0, 0, multiset{}, multiset{})

  datatype State = State(
    published: set<MessageId>,
    backlog: multiset<MessageId>,
    workers: seq<Pc>,
    acked: multiset<MessageId>,
    records: seq<Outcome>,
    sources: seq<Source>,
    counters: Counters,
    pushes: seq<Push>,
    cancelled: bool,
    violations: nat,
    lost: Lost)

  function Initial(workers: nat): State {
    State({}, multiset{}, seq(workers, _ => Idle), multiset{}, [], [], NO_COUNTS, [], false, 0, NOTHING_LOST)
  }

  // --- One worker ----------------------------------------------------------------------------

  /** What a worker can do next. */
  datatype Action =
    | Receive(m: MessageId)
    | ReceiveViolation(m: MessageId)
    | ReceiveUnopened(m: MessageId)
    | ReceiveCancelled
    | ReaderError
    | Handle(now: Time)
    | PushOnce(attempt: Attempt)
    | SleepFails
    | Exhaust
    | Settle
    | Ack
    | Crash

  /** The notification a worker dispatches for m. */
  function Note(d: Delivery): Notification
    requires d.decoded.Some?
  {
    Identified(d.decoded.value, d.property)
  }

  /** The outcome of a message that needs no push, if there is one. */
  function Unpushed(cfg: Config, m: MessageId, now: Time): Option<Outcome> {
    var d := cfg.message(m);
    if d.decoded.None? then Some(MalformedOutcome(d.property))
    else if IsExpired(Note(d), now) then Some(ExpiredOutcome(Note(d).id, now))
    else if !Resolves(Note(d), cfg.registered) then Some(UnresolvedOutcome(Note(d).id, now))
    else None
  }

  predicate LastIsTerminal(made: seq<Attempt>) {
    made != [] && IsTerminal(made[|made| - 1].response)
  }

  /** A pending message that no private key opens: whoever receives it cannot take it off the backlog. */
  predicate Unopenable(cfg: Config, s: State, m: MessageId) {
    m in s.backlog && !cfg.message(m).decryptable
  }

  predicate CanAct(cfg: Config, s: State, pc: Pc, a: Action) {
    match a
    case Receive(m) => pc.Idle? && m in s.backlog && cfg.message(m).decryptable
    case ReceiveViolation(m) => pc.Idle? && cfg.reports && Unopenable(cfg, s, m)
    case ReceiveUnopened(m) => pc.Idle? && !cfg.reports && Unopenable(cfg, s, m)
    case ReceiveCancelled => pc.Idle? && s.cancelled
    case ReaderError => pc.Idle?
    case Handle(_) => pc.Received?
    case PushOnce(_) => pc.Looping? && |pc.made| < cfg.max
    case SleepFails => pc.Looping? && 0 < |pc.made| < cfg.max && s.cancelled
    case Exhaust => pc.Looping? && |pc.made| >= cfg.max
    case Settle => pc.Settling?
    case Ack => pc.Recorded?
    case Crash => true
  }

  /**
   * Everything an action changes: the worker, what it takes from and gives to the shared state, and the
   * worker state a crash destroys (Idle when there is none).
   */
  datatype Move = Move(
    pc: Pc,
    taken: Option<MessageId>,
    acked: Option<MessageId>,
    consumed: bool,
    push: Option<Push>,
    outcome: Option<Outcome>,
    source: Source,
    casualty: Pc)

  function To(pc: Pc): Move {
    Move(pc, None, None, false, None, None, NoSource, Idle)
  }

  /** The message a worker holds unacknowledged. */
  function Held(pc: Pc): Option<MessageId> {
    if pc.Idle? || pc.Returned? then None else Some(pc.m)
  }

  /** The one whose outcome is recorded but not acknowledged. */
  function Pending(pc: Pc): Option<MessageId> {
    if pc.Recorded? then Some(pc.m) else None
  }

  function InFlight(pc: Pc): nat {
    if pc.Looping? || pc.Settling? then |pc.made| else 0
  }

  function Busy(pc: Pc): nat {
    if pc.Looping? || pc.Settling? then 1 else 0
  }

  /** The id of a notification accepted by the provider whose outcome is not recorded yet. */
  function Accepting(pc: Pc): Option<string> {
    if pc.Settling? && pc.made != [] && pc.made[|pc.made| - 1].response.Accepted? then Some(pc.n.id) else None
  }

  /** The loop ends with an outcome. */
  function Ending(pc: Pc, aborted: bool): Move
    requires pc.Looping? || pc.Settling?
  {
    var run := Run(pc.made, aborted);
    To(Recorded(pc.m)).(outcome := Some(OutcomeOf(pc.n.id, run)), source := OfMessage(pc.m, pc.now, run))
  }

  function Acted(cfg: Config, s: State, pc: Pc, a: Action): Move
    requires CanAct(cfg, s, pc, a)
  {
    match a
    case Receive(m) => To(Received(m)).(taken := Some(m))
    case ReceiveViolation(m) => To(Idle).(outcome := Some(ViolationOutcome()), source := Violation(m))
    case ReceiveUnopened(_) => To(Returned)
    case ReceiveCancelled => To(Returned)
    case ReaderError => To(Returned)
    case Handle(now) =>
      var unpushed := Unpushed(cfg, pc.m, now);
      if unpushed.Some? then
        To(Recorded(pc.m)).(consumed := true, outcome := unpushed, source := OfMessage(pc.m, now, Run([], false)))
      else To(Looping(pc.m, Note(cfg.message(pc.m)), now, [])).(consumed := true)
    case PushOnce(attempt) =>
      To(Settling(pc.m, pc.n, pc.now, pc.made + [attempt.(slept := true)])).(push := Some(Push(pc.n, attempt.response)))
    case SleepFails => Ending(pc, true)
    case Exhaust => Ending(pc, false)
    case Settle =>
      if LastIsTerminal(pc.made) then Ending(pc, false) else To(Looping(pc.m, pc.n, pc.now, pc.made))
    case Ack => To(Idle).(acked := Some(pc.m))
    case Crash => To(Idle).(casualty := pc)
  }

  // --- The pool ----------------------------------------------------------------------------------

  datatype Step = Publish(m: MessageId) | Cancel | Act(w: nat, action: Action)

  predicate Enabled(cfg: Config, s: State, step: Step) {
    match step
    case Publish(m) => m !in s.published
    case Cancel => true
    case Act(w, a) => w < |s.workers| && CanAct(cfg, s, s.workers[w], a)
  }

  function Opt<T>(o: Option<T>): seq<T> {
    if o.Some? then [o.value] else []
  }

  function Bag<T(==)>(o: Option<T>): multiset<T> {
    if o.Some? then multiset{o.value} else multiset{}
  }

  function One<T(==)>(o: Option<T>, x: T): nat {
    if o == Some(x) then 1 else 0
  }

  lemma BagCounts<T>(b: multiset<T>, o: Option<T>, x: T)
    ensures (b + Bag(o))[x] == b[x] + One(o, x)
    ensures One(o, x) <= b[x] ==> (b - Bag(o))[x] == b[x] - One(o, x)
  {
  }

  lemma TradeCounts<T>(b: multiset<T>, taken: Option<T>, given: Option<T>, x: T)
    requires One(taken, x) <= b[x]
    ensures (b - Bag(taken) + Bag(given))[x] == b[x] - One(taken, x) + One(given, x)
  {
    BagCounts(b, taken, x);
    BagCounts(b - Bag(taken), given, x);
  }

  function Counted(c: Counters, mv: Move): Counters {
    var consumed := if mv.consumed then CountConsumed(c) else c;
    var pushed := if mv.push.Some? then CountAttempt(consumed, ClassOf(mv.push.value.response)) else consumed;
    if mv.outcome.Some? then CountOutcome(pushed, mv.outcome.value.reason, mv.outcome.value.attempts) else pushed
  }

  function Moved(s: State, w: nat, mv: Move): State
    requires w < |s.workers|
  {
    s.(backlog := s.backlog - Bag(mv.taken) + Bag(Held(mv.casualty)),
       workers := s.workers[w := mv.pc],
       acked := s.acked + Bag(mv.acked),
       records := s.records + Opt(mv.outcome),
       sources := s.sources + NewSource(mv),
       counters := Counted(s.counters, mv),
       pushes := s.pushes + Opt(mv.push),
       violations := s.violations + IsViolation(mv),
       lost := LostWith(s.lost, mv.casualty))
  }

  function LostWith(lost: Lost, casualty: Pc): Lost {
    Lost(lost.pushes + InFlight(casualty), lost.handled + Busy(casualty),
         lost.delivered + Bag(Accepting(casualty)), lost.recorded + Bag(Pending(casualty)))
  }

  function NewSource(mv: Move): seq<Source> {
    if mv.outcome.Some? then [mv.source] else []
  }

  function IsViolation(mv: Move): nat {
    if mv.outcome.Some? && mv.source.Violation? then 1 else 0
  }

  function Next(cfg: Config, s: State, step: Step): State
    requires Enabled(cfg, s, step)
  {
    match step
    case Publish(m) => s.(published := s.published + {m}, backlog := s.backlog + multiset{m})
    case Cancel => s.(cancelled := true)
    case Act(w, a) => Moved(s, w, Acted(cfg, s, s.workers[w], a))
  }

  /** The state a schedule leads to, if every step of it can be taken. */
  function After(cfg: Config, workers: nat, schedule: seq<Step>): Option<State> {
    if schedule == [] then Some(Initial(workers))
    else
      var before := After(cfg, workers, schedule[..|schedule| - 1]);
      var step := schedule[|schedule| - 1];
      if before.Some? && Enabled(cfg, before.value, step) then Some(Next(cfg, before.value, step)) else None
  }

  // --- Sums over the workers -----------------------------------------------------------------------

  function Sum(ws: seq<Pc>, f: Pc -> nat): nat {
    if ws == [] then 0 else Sum(ws[..|ws| - 1], f) + f(ws[|ws| - 1])
  }

  lemma {:induction false} SumMoved(ws: seq<Pc>, w: nat, pc: Pc, f: Pc -> nat)
    requires w < |ws|
    ensures Sum(ws[w := pc], f) + f(ws[w]) == Sum(ws, f) + f(pc)
  {
    var last := |ws| - 1;
    if w == last {
      assert ws[w := pc][..last] == ws[..last];
    } else {
      SumMoved(ws[..last], w, pc, f);
      assert ws[w := pc][..last] == ws[..last][w := pc];
    }
  }

  lemma {:induction false} SumOfNothing(ws: seq<Pc>, f: Pc -> nat)
    requires forall w | 0 <= w < |ws| :: f(ws[w]) == 0
    ensures Sum(ws, f) == 0
  {
    if ws != [] {
      SumOfNothing(ws[..|ws| - 1], f);
    }
  }

  function HeldOf(m: MessageId): Pc -> nat {
    (pc: Pc) => One(Held(pc), m)
  }

  function PendingOf(m: MessageId): Pc -> nat {
    (pc: Pc) => One(Pending(pc), m)
  }

  function AcceptingOf(id: string): Pc -> nat {
    (pc: Pc) => One(Accepting(pc), id)
  }

  // --- What a single worker keeps ------------------------------------------------------------------

  /** What a worker has gone through so far: it could open its message, and no attempt but the last was final. */
  predicate InLoop(cfg: Config, pc: Pc) {
    && (Held(pc).Some? ==> cfg.message(Held(pc).value).decryptable)
    && match pc
       case Looping(m, n, now, made) =>
         && Unpushed(cfg, m, now).None? && n == Note(cfg.message(m))
         && (|made| <= cfg.max || made == [])
         && !LastIsTerminal(made)
         && (forall i | 0 <= i < |made| :: made[i].slept)
         && forall i | 0 <= i < |made| - 1 :: !IsTerminal(made[i].response)
       case Settling(m, n, now, made) =>
         && Unpushed(cfg, m, now).None? && n == Note(cfg.message(m))
         && 0 < |made| <= cfg.max
         && (forall i | 0 <= i < |made| :: made[i].slept)
         && forall i | 0 <= i < |made| - 1 :: !IsTerminal(made[i].response)
       case _ => true
  }

  lemma ActionKeepsLoop(cfg: Config, s: State, pc: Pc, a: Action)
    requires InLoop(cfg, pc) && CanAct(cfg, s, pc, a)
    ensures InLoop(cfg, Acted(cfg, s, pc, a).pc)
  {
    if a.PushOnce? {
      var made := pc.made + [a.attempt.(slept := true)];
      forall i | 0 <= i < |made| - 1 ensures !IsTerminal(made[i].response) {
        assert made[i] == pc.made[i];
      }
    }
  }

  /** Message m, had or taken by a worker, is still held, acknowledged, or given back. */
  predicate MessageKept(pc: Pc, mv: Move, m: MessageId) {
    One(Held(pc), m) + One(mv.taken, m) == One(Held(mv.pc), m) + One(mv.acked, m) + One(Held(mv.casualty), m)
  }

  /** An outcome of m awaits its acknowledgement, unless the worker crashes first. */
  predicate PendingKept(pc: Pc, mv: Move, m: MessageId) {
    One(Pending(pc), m) + One(Concerned(mv), m)
    == One(Pending(mv.pc), m) + One(mv.acked, m) + One(Pending(mv.casualty), m)
  }

  /** An accepted push of id is a delivery in flight until its outcome says so. */
  predicate DeliveryKept(pc: Pc, mv: Move, id: string) {
    One(Accepting(pc), id) + One(AcceptedIn(mv), id)
    == One(Accepting(mv.pc), id) + One(DeliveredIn(mv), id) + One(Accepting(mv.casualty), id)
  }

  /** A push is in flight until an outcome counts it or a crash loses it. */
  predicate PushesKept(pc: Pc, mv: Move) {
    InFlight(pc) + |Opt(mv.push)| == InFlight(mv.pc) + AttemptsIn(mv) + InFlight(mv.casualty)
  }

  /** A consumed message or a violation is in hand until its outcome is recorded or a crash loses it. */
  predicate HandledKept(pc: Pc, mv: Move) {
    Busy(pc) + (if mv.consumed then 1 else 0) + IsViolation(mv) == Busy(mv.pc) + |Opt(mv.outcome)| + Busy(mv.casualty)
  }

  lemma ActionKeepsMessage(cfg: Config, s: State, pc: Pc, a: Action, m: MessageId)
    requires CanAct(cfg, s, pc, a)
    ensures MessageKept(pc, Acted(cfg, s, pc, a), m) && One(Acted(cfg, s, pc, a).taken, m) <= s.backlog[m]
  {
  }

  lemma ActionKeepsPending(cfg: Config, s: State, pc: Pc, a: Action, m: MessageId)
    requires CanAct(cfg, s, pc, a)
    ensures PendingKept(pc, Acted(cfg, s, pc, a), m)
  {
  }

  lemma EndingReadsRun(pc: Pc, aborted: bool)
    requires pc.Looping? || pc.Settling?
    requires aborted || pc.Looping? ==> !LastIsTerminal(pc.made)
    ensures var mv := Ending(pc, aborted); AttemptsIn(mv) == InFlight(pc) && DeliveredIn(mv) == Accepting(pc)
  {
    OutcomeReadsRun(pc.n.id, Run(pc.made, aborted));
  }

  /** The end of a loop, when an action is one. */
  lemma ActionEnds(cfg: Config, s: State, pc: Pc, a: Action)
    requires InLoop(cfg, pc) && CanAct(cfg, s, pc, a) && (a.SleepFails? || a.Exhaust? || a.Settle?)
    ensures var mv := Acted(cfg, s, pc, a);
      && (mv.outcome.Some? ==> AttemptsIn(mv) == InFlight(pc) && DeliveredIn(mv) == Accepting(pc))
      && (mv.outcome.None? ==> InFlight(mv.pc) == InFlight(pc) && Accepting(pc) == None)
  {
    EndingReadsRun(pc, a.SleepFails?);
  }

  lemma ActionKeepsPushes(cfg: Config, s: State, pc: Pc, a: Action)
    requires InLoop(cfg, pc) && CanAct(cfg, s, pc, a)
    ensures PushesKept(pc, Acted(cfg, s, pc, a))
  {
    if a.SleepFails? || a.Exhaust? || a.Settle? {
      ActionEnds(cfg, s, pc, a);
    }
  }

  lemma ActionKeepsHandled(cfg: Config, s: State, pc: Pc, a: Action)
    requires CanAct(cfg, s, pc, a)
    ensures HandledKept(pc, Acted(cfg, s, pc, a))
  {
  }

  lemma UnpushedNotDelivered(cfg: Config, m: MessageId, now: Time)
    ensures var o := Unpushed(cfg, m, now); o.Some? ==> o.value.status != Delivered && o.value.attempts == 0
  {
  }

  lemma ActionKeepsDelivery(cfg: Config, s: State, pc: Pc, a: Action, id: string)
    requires InLoop(cfg, pc) && CanAct(cfg, s, pc, a)
    ensures DeliveryKept(pc, Acted(cfg, s, pc, a), id)
  {
    if a.SleepFails? || a.Exhaust? || a.Settle? {
      ActionEnds(cfg, s, pc, a);
    } else if a.Handle? {
      UnpushedNotDelivered(cfg, pc.m, a.now);
    }
  }

  lemma ActionKeepsDeliveries(cfg: Config, s: State, pc: Pc, a: Action)
    requires InLoop(cfg, pc) && CanAct(cfg, s, pc, a)
    ensures forall id :: DeliveryKept(pc, Acted(cfg, s, pc, a), id)
  {
    forall id: string ensures DeliveryKept(pc, Acted(cfg, s, pc, a), id) {
      ActionKeepsDelivery(cfg, s, pc, a, id);
    }
  }

  function Concerned(mv: Move): Option<MessageId> {
    if mv.outcome.Some? && mv.source.OfMessage? then Some(mv.source.m) else None
  }

  function AttemptsIn(mv: Move): nat {
    if mv.outcome.Some? then mv.outcome.value.attempts else 0
  }

  function AcceptedIn(mv: Move): Option<string> {
    if mv.push.Some? && mv.push.value.response.Accepted? then Some(mv.push.value.n.id) else None
  }

  function DeliveredIn(mv: Move): Option<string> {
    if mv.outcome.Some? && mv.outcome.value.status == Delivered then Some(mv.outcome.value.notificationId) else None
  }

  // --- Invariants of the pool -------------------------------------------------------------------------

  predicate WorkersInLoop(cfg: Config, s: State) {
    forall w | 0 <= w < |s.workers| :: InLoop(cfg, s.workers[w])
  }

  /** In how many places a message is: the backlog, each worker that holds it, each acknowledgement. */
  function Places(s: State, m: MessageId): nat {
    s.backlog[m] + Sum(s.workers, HeldOf(m)) + s.acked[m]
  }

  /** Each published message is in exactly one place, any other in none. */
  ghost predicate EachInOnePlace(s: State) {
    forall m: MessageId :: Places(s, m) == if m in s.published then 1 else 0
  }

  function OutcomesOf(sources: seq<Source>, m: MessageId): nat {
    if sources == [] then 0
    else
      var last := sources[|sources| - 1];
      OutcomesOf(sources[..|sources| - 1], m) + if last.OfMessage? && last.m == m then 1 else 0
  }

  /** Outcomes of a message: one per acknowledgement, one awaiting its, one per crash in between. */
  ghost predicate OutcomesMatchAcks(s: State) {
    forall m: MessageId :: OutcomesOf(s.sources, m) == s.acked[m] + Sum(s.workers, PendingOf(m)) + s.lost.recorded[m]
  }

  /** Conservation of pushes and messages, with what is in flight and what crashes lost. */
  predicate Conserved(s: State) {
    && |s.pushes| == SumAttempts(s.records) + Sum(s.workers, InFlight) + s.lost.pushes
    && s.counters.consumed + s.violations == |s.records| + Sum(s.workers, Busy) + s.lost.handled
  }

  predicate CountersMatch(s: State) {
    Reconciled(s.records, s.counters) && |s.pushes| == TotalAttempts(s.counters)
  }

  function AcceptedIds(pushes: seq<Push>): seq<string> {
    if pushes == [] then []
    else
      var last := pushes[|pushes| - 1];
      AcceptedIds(pushes[..|pushes| - 1]) + if last.response.Accepted? then [last.n.id] else []
  }

  /** Every accepted push is a recorded delivery, one in flight, or one a crash lost. */
  ghost predicate DeliveriesMatch(s: State) {
    forall id: string ::
      multiset(AcceptedIds(s.pushes))[id]
      == multiset(DeliveredIds(s.records))[id] + Sum(s.workers, AcceptingOf(id)) + s.lost.delivered[id]
  }

  /** The answers a finished run stands for; past its end the sleep fails. */
  function FutureOf(run: Run): Future {
    (i: nat) => if i < |run.attempts| then run.attempts[i] else Attempt(false, 0, 0, Accepted(None))
  }

  /** The outcome is the one the sequential dispatcher records for that message and those answers. */
  predicate Justified(cfg: Config, source: Source, o: Outcome) {
    match source
    case NoSource => false
    case Violation(m) => !cfg.message(m).decryptable && o == ViolationOutcome()
    case OfMessage(m, now, run) =>
      var d := cfg.message(m);
      d.decryptable &&
      if d.decoded.None? then o == MalformedOutcome(d.property)
      else (o, run) == Dispatched(Note(d), now, cfg.registered, cfg.max, FutureOf(run))
  }

  predicate AllJustified(cfg: Config, s: State) {
    |s.sources| == |s.records| && forall i | 0 <= i < |s.records| :: Justified(cfg, s.sources[i], s.records[i])
  }

  /** A dispatch is cut short only after the pool was cancelled. */
  predicate AbortsNeedCancel(s: State) {
    forall i | 0 <= i < |s.sources| :: s.sources[i].OfMessage? && s.sources[i].run.aborted ==> s.cancelled
  }

  /** Only messages that could be decrypted are acknowledged. */
  ghost predicate OnlyOpened(cfg: Config, s: State) {
    forall m: MessageId | !cfg.message(m).decryptable :: s.acked[m] == 0
  }

  /** Violations recorded for a message. */
  function ViolationsOf(sources: seq<Source>): nat {
    if sources == [] then 0
    else ViolationsOf(sources[..|sources| - 1]) + if sources[|sources| - 1].Violation? then 1 else 0
  }

  /** Every violation counted was recorded for a message that had been published. */
  predicate ViolationsHaveCause(s: State) {
    && s.violations == ViolationsOf(s.sources)
    && forall i | 0 <= i < |s.sources| && s.sources[i].Violation? :: s.sources[i].met in s.published
  }

  ghost predicate Inv(cfg: Config, s: State) {
    && WorkersInLoop(cfg, s)
    && EachInOnePlace(s)
    && OutcomesMatchAcks(s)
    && Conserved(s)
    && CountersMatch(s)
    && DeliveriesMatch(s)
    && AllJustified(cfg, s)
    && AbortsNeedCancel(s)
    && OnlyOpened(cfg, s)
    && ViolationsHaveCause(s)
  }

  // --- Every move keeps them ---------------------------------------------------------------------------

  lemma MovePlaces(s: State, w: nat, mv: Move, m: MessageId)
    requires w < |s.workers| && MessageKept(s.workers[w], mv, m) && One(mv.taken, m) <= s.backlog[m]
    ensures Places(Moved(s, w, mv), m) == Places(s, m)
  {
    SumMoved(s.workers, w, mv.pc, HeldOf(m));
    TradeCounts(s.backlog, mv.taken, Held(mv.casualty), m);
    BagCounts(s.acked, mv.acked, m);
  }

  lemma MoveKeepsPlaces(s: State, w: nat, mv: Move)
    requires w < |s.workers| && EachInOnePlace(s)
    requires forall m :: MessageKept(s.workers[w], mv, m) && One(mv.taken, m) <= s.backlog[m]
    ensures EachInOnePlace(Moved(s, w, mv))
  {
    forall m: MessageId ensures Places(Moved(s, w, mv), m) == if m in s.published then 1 else 0 {
      assert Places(s, m) == if m in s.published then 1 else 0;
      assert MessageKept(s.workers[w], mv, m) && One(mv.taken, m) <= s.backlog[m];
      MovePlaces(s, w, mv, m);
    }
  }

  lemma SourcesNext(sources: seq<Source>, mv: Move, m: MessageId)
    ensures OutcomesOf(sources + NewSource(mv), m) == OutcomesOf(sources, m) + One(Concerned(mv), m)
  {
    if mv.outcome.Some? {
      assert (sources + NewSource(mv))[..|sources|] == sources;
    } else {
      assert sources + NewSource(mv) == sources;
    }
  }

  lemma MoveKeepsOutcomes(s: State, w: nat, mv: Move)
    requires w < |s.workers| && OutcomesMatchAcks(s)
    requires forall m :: PendingKept(s.workers[w], mv, m)
    ensures OutcomesMatchAcks(Moved(s, w, mv))
  {
    var s' := Moved(s, w, mv);
    forall m: MessageId
      ensures OutcomesOf(s'.sources, m) == s'.acked[m] + Sum(s'.workers, PendingOf(m)) + s'.lost.recorded[m]
    {
      SumMoved(s.workers, w, mv.pc, PendingOf(m));
      assert PendingKept(s.workers[w], mv, m);
      BagCounts(s.acked, mv.acked, m);
      BagCounts(s.lost.recorded, Pending(mv.casualty), m);
      SourcesNext(s.sources, mv, m);
    }
  }

  lemma MoveConserves(s: State, w: nat, mv: Move)
    requires w < |s.workers| && Conserved(s)
    requires PushesKept(s.workers[w], mv) && HandledKept(s.workers[w], mv)
    ensures Conserved(Moved(s, w, mv))
  {
    SumMoved(s.workers, w, mv.pc, InFlight);
    SumMoved(s.workers, w, mv.pc, Busy);
    if mv.outcome.Some? {
      AppendedAttempts(s.records, mv.outcome.value);
    } else {
      assert s.records + [] == s.records;
    }
  }

  lemma MoveKeepsCounters(s: State, w: nat, mv: Move)
    requires w < |s.workers| && CountersMatch(s)
    ensures CountersMatch(Moved(s, w, mv))
  {
    var consumed := if mv.consumed then CountConsumed(s.counters) else s.counters;
    var pushed := if mv.push.Some? then CountAttempt(consumed, ClassOf(mv.push.value.response)) else consumed;
    if mv.push.Some? {
      CountingAttempt(consumed, ClassOf(mv.push.value.response));
    }
    assert Reconciled(s.records, pushed);
    if mv.outcome.Some? {
      RecordingReconciles(s.records, pushed, mv.outcome.value);
    } else {
      assert s.records + [] == s.records;
    }
  }

  lemma AcceptedNext(pushes: seq<Push>, mv: Move)
    ensures multiset(AcceptedIds(pushes + Opt(mv.push))) == multiset(AcceptedIds(pushes)) + Bag(AcceptedIn(mv))
  {
    if mv.push.Some? {
      assert (pushes + Opt(mv.push))[..|pushes|] == pushes;
    } else {
      assert pushes + Opt(mv.push) == pushes;
    }
  }

  lemma DeliveredNext(records: seq<Outcome>, mv: Move)
    ensures multiset(DeliveredIds(records + Opt(mv.outcome))) == multiset(DeliveredIds(records)) + Bag(DeliveredIn(mv))
  {
    if mv.outcome.Some? {
      AppendedDelivered(records, mv.outcome.value);
    } else {
      assert records + Opt(mv.outcome) == records;
    }
  }

  lemma MoveKeepsDeliveries(s: State, w: nat, mv: Move)
    requires w < |s.workers| && DeliveriesMatch(s)
    requires forall id :: DeliveryKept(s.workers[w], mv, id)
    ensures DeliveriesMatch(Moved(s, w, mv))
  {
    var pushes, records := s.pushes + Opt(mv.push), s.records + Opt(mv.outcome);
    AcceptedNext(s.pushes, mv);
    DeliveredNext(s.records, mv);
    forall id: string
      ensures multiset(AcceptedIds(pushes))[id]
           == multiset(DeliveredIds(records))[id] + Sum(s.workers[w := mv.pc], AcceptingOf(id))
              + (s.lost.delivered + Bag(Accepting(mv.casualty)))[id]
    {
      SumMoved(s.workers, w, mv.pc, AcceptingOf(id));
      assert DeliveryKept(s.workers[w], mv, id);
      BagCounts(multiset(AcceptedIds(s.pushes)), AcceptedIn(mv), id);
      BagCounts(multiset(DeliveredIds(s.records)), DeliveredIn(mv), id);
      BagCounts(s.lost.delivered, Accepting(mv.casualty), id);
    }
  }

  /** Answers that stop where the run stopped drive the sequential loop to that run. */
  lemma {:induction false} LoopReplays(max: int, run: Run, k: nat)
    requires k <= |run.attempts| && (|run.attempts| <= max || run.attempts == [])
    requires forall i | 0 <= i < |run.attempts| :: run.attempts[i].slept
    requires forall i | 0 <= i < |run.attempts| - 1 :: !IsTerminal(run.attempts[i].response)
    requires k == |run.attempts| ==> !LastIsTerminal(run.attempts)
    requires if run.aborted then 0 < |run.attempts| < max && !LastIsTerminal(run.attempts)
             else |run.attempts| >= max || LastIsTerminal(run.attempts)
    ensures RunFrom(max, FutureOf(run), run.attempts[..k]) == run
    decreases |run.attempts| - k
  {
    if k < |run.attempts| {
      assert run.attempts[..k] + [run.attempts[k]] == run.attempts[..k + 1];
      if k + 1 == |run.attempts| && LastIsTerminal(run.attempts) {
        assert run.attempts[..k + 1] == run.attempts;
      } else {
        LoopReplays(max, run, k + 1);
      }
    } else {
      assert run.attempts[..k] == run.attempts;
    }
  }

  /** Whatever the interleaving, a worker records what the sequential dispatcher would have. */
  lemma ActionJustified(cfg: Config, s: State, pc: Pc, a: Action)
    requires InLoop(cfg, pc) && CanAct(cfg, s, pc, a)
    ensures var mv := Acted(cfg, s, pc, a); mv.outcome.Some? ==> Justified(cfg, mv.source, mv.outcome.value)
  {
    if (pc.Looping? || pc.Settling?) && Acted(cfg, s, pc, a).outcome.Some? {
      var run := Run(pc.made, a.SleepFails?);
      LoopReplays(cfg.max, run, 0);
      assert run.attempts[..0] == [];
    }
  }

  lemma MoveKeepsJustified(cfg: Config, s: State, w: nat, mv: Move)
    requires w < |s.workers| && AllJustified(cfg, s)
    requires mv.outcome.Some? ==> Justified(cfg, mv.source, mv.outcome.value)
    ensures AllJustified(cfg, Moved(s, w, mv))
  {
  }

  lemma MoveNeedsCancel(s: State, w: nat, mv: Move)
    requires w < |s.workers| && AbortsNeedCancel(s)
    requires mv.outcome.Some? && mv.source.OfMessage? && mv.source.run.aborted ==> s.cancelled
    ensures AbortsNeedCancel(Moved(s, w, mv))
  {
  }

  lemma ActKeepsMessages(cfg: Config, s: State, w: nat, a: Action, mv: Move)
    requires w < |s.workers| && CanAct(cfg, s, s.workers[w], a) && mv == Acted(cfg, s, s.workers[w], a)
    requires EachInOnePlace(s) && OutcomesMatchAcks(s)
    ensures EachInOnePlace(Moved(s, w, mv)) && OutcomesMatchAcks(Moved(s, w, mv))
  {
    forall m: MessageId
      ensures MessageKept(s.workers[w], mv, m) && One(mv.taken, m) <= s.backlog[m] && PendingKept(s.workers[w], mv, m)
    {
      ActionKeepsMessage(cfg, s, s.workers[w], a, m);
      ActionKeepsPending(cfg, s, s.workers[w], a, m);
    }
    MoveKeepsPlaces(s, w, mv);
    MoveKeepsOutcomes(s, w, mv);
  }

  lemma ActConserves(cfg: Config, s: State, w: nat, a: Action)
    requires w < |s.workers| && CanAct(cfg, s, s.workers[w], a) && InLoop(cfg, s.workers[w]) && Conserved(s)
    ensures Conserved(Next(cfg, s, Act(w, a)))
  {
    ActionKeepsPushes(cfg, s, s.workers[w], a);
    ActionKeepsHandled(cfg, s, s.workers[w], a);
    MoveConserves(s, w, Acted(cfg, s, s.workers[w], a));
  }

  lemma ActKeepsCounters(cfg: Config, s: State, w: nat, a: Action)
    requires w < |s.workers| && CanAct(cfg, s, s.workers[w], a) && CountersMatch(s)
    ensures CountersMatch(Next(cfg, s, Act(w, a)))
  {
    MoveKeepsCounters(s, w, Acted(cfg, s, s.workers[w], a));
  }

  lemma ActKeepsDeliveries(cfg: Config, s: State, w: nat, a: Action, mv: Move)
    requires w < |s.workers| && CanAct(cfg, s, s.workers[w], a) && mv == Acted(cfg, s, s.workers[w], a)
    requires InLoop(cfg, s.workers[w]) && DeliveriesMatch(s)
    ensures DeliveriesMatch(Moved(s, w, mv))
  {
    ActionKeepsDeliveries(cfg, s, s.workers[w], a);
    MoveKeepsDeliveries(s, w, mv);
  }

  lemma ActKeepsLoops(cfg: Config, s: State, w: nat, a: Action)
    requires w < |s.workers| && CanAct(cfg, s, s.workers[w], a) && WorkersInLoop(cfg, s)
    ensures WorkersInLoop(cfg, Next(cfg, s, Act(w, a)))
  {
    assert InLoop(cfg, s.workers[w]);
    ActionKeepsLoop(cfg, s, s.workers[w], a);
  }

  lemma ActKeepsJustified(cfg: Config, s: State, w: nat, a: Action, mv: Move)
    requires w < |s.workers| && CanAct(cfg, s, s.workers[w], a) && mv == Acted(cfg, s, s.workers[w], a)
    requires InLoop(cfg, s.workers[w]) && AllJustified(cfg, s)
    ensures AllJustified(cfg, Moved(s, w, mv))
  {
    assert mv.outcome.Some? ==> Justified(cfg, mv.source, mv.outcome.value) by {
      ActionJustified(cfg, s, s.workers[w], a);
    }
    MoveKeepsJustified(cfg, s, w, mv);
  }

  lemma ActNeedsCancel(cfg: Config, s: State, w: nat, a: Action, mv: Move)
    requires w < |s.workers| && CanAct(cfg, s, s.workers[w], a) && mv == Acted(cfg, s, s.workers[w], a)
    requires AbortsNeedCancel(s)
    ensures AbortsNeedCancel(Moved(s, w, mv))
  {
    MoveNeedsCancel(s, w, mv);
  }

  lemma ActionAcks(cfg: Config, s: State, pc: Pc, a: Action)
    requires CanAct(cfg, s, pc, a)
    ensures Acted(cfg, s, pc, a).acked == if a.Ack? then Some(pc.m) else None
  {
  }

  lemma ActAcksHeld(cfg: Config, s: State, pc: Pc, a: Action, m: MessageId)
    requires CanAct(cfg, s, pc, a)
    ensures Acted(cfg, s, pc, a).acked == Some(m) ==> Held(pc) == Some(m)
  {
  }

  lemma ActKeepsOpen(cfg: Config, s: State, w: nat, a: Action)
    requires w < |s.workers| && CanAct(cfg, s, s.workers[w], a) && InLoop(cfg, s.workers[w]) && OnlyOpened(cfg, s)
    ensures OnlyOpened(cfg, Next(cfg, s, Act(w, a)))
  {
    var mv := Acted(cfg, s, s.workers[w], a);
    forall m: MessageId | !cfg.message(m).decryptable ensures (s.acked + Bag(mv.acked))[m] == 0 {
      ActAcksHeld(cfg, s, s.workers[w], a, m);
      BagCounts(s.acked, mv.acked, m);
    }
  }

  lemma ViolationsNext(sources: seq<Source>, mv: Move)
    ensures ViolationsOf(sources + NewSource(mv)) == ViolationsOf(sources) + IsViolation(mv)
  {
    if mv.outcome.Some? {
      assert (sources + NewSource(mv))[..|sources|] == sources;
    } else {
      assert sources + NewSource(mv) == sources;
    }
  }

  lemma ActionMeets(cfg: Config, s: State, pc: Pc, a: Action)
    requires CanAct(cfg, s, pc, a)
    ensures var mv := Acted(cfg, s, pc, a);
      mv.outcome.Some? && mv.source.Violation? ==> Unopenable(cfg, s, mv.source.met)
  {
  }

  lemma PendingIsPublished(s: State, m: MessageId)
    requires EachInOnePlace(s) && m in s.backlog
    ensures m in s.published
  {
    assert Places(s, m) == if m in s.published then 1 else 0;
  }

  lemma MoveKeepsCauses(s: State, w: nat, mv: Move)
    requires w < |s.workers| && ViolationsHaveCause(s)
    requires mv.outcome.Some? && mv.source.Violation? ==> mv.source.met in s.published
    ensures ViolationsHaveCause(Moved(s, w, mv))
  {
    ViolationsNext(s.sources, mv);
    var sources := s.sources + NewSource(mv);
    forall i | 0 <= i < |sources| && sources[i].Violation? ensures sources[i].met in s.published {
      assert i < |s.sources| ==> sources[i] == s.sources[i];
    }
  }

  lemma ActKeepsCauses(cfg: Config, s: State, w: nat, a: Action, mv: Move)
    requires w < |s.workers| && CanAct(cfg, s, s.workers[w], a) && mv == Acted(cfg, s, s.workers[w], a)
    requires EachInOnePlace(s) && ViolationsHaveCause(s)
    ensures ViolationsHaveCause(Moved(s, w, mv))
  {
    ActionMeets(cfg, s, s.workers[w], a);
    if mv.outcome.Some? && mv.source.Violation? {
      PendingIsPublished(s, mv.source.met);
    }
    MoveKeepsCauses(s, w, mv);
  }

  lemma StepKeepsInv(cfg: Config, s: State, step: Step)
    requires Inv(cfg, s) && Enabled(cfg, s, step)
    ensures Inv(cfg, Next(cfg, s, step))
  {
    match step
    case Publish(m) => PublishKeepsPlaces(s, m);
    case Cancel =>
    case Act(w, a) =>
      assert InLoop(cfg, s.workers[w]);
      var mv := Acted(cfg, s, s.workers[w], a);
      ActKeepsMessages(cfg, s, w, a, mv);
      ActConserves(cfg, s, w, a);
      ActKeepsCounters(cfg, s, w, a);
      ActKeepsDeliveries(cfg, s, w, a, mv);
      ActKeepsLoops(cfg, s, w, a);
      ActKeepsJustified(cfg, s, w, a, mv);
      ActNeedsCancel(cfg, s, w, a, mv);
      ActKeepsOpen(cfg, s, w, a);
      ActKeepsCauses(cfg, s, w, a, mv);
  }

  lemma PublishKeepsPlaces(s: State, m: MessageId)
    requires EachInOnePlace(s) && m !in s.published
    ensures EachInOnePlace(s.(published := s.published + {m}, backlog := s.backlog + multiset{m}))
  {
    forall k: MessageId
      ensures (s.backlog + multiset{m})[k] + Sum(s.workers, HeldOf(k)) + s.acked[k]
           == if k in s.published + {m} then 1 else 0
    {
      assert Places(s, k) == if k in s.published then 1 else 0;
    }
  }

  lemma InitialPlaces(workers: nat)
    ensures EachInOnePlace(Initial(workers)) && OutcomesMatchAcks(Initial(workers))
  {
    var ws := Initial(workers).workers;
    forall m: MessageId ensures Sum(ws, HeldOf(m)) == 0 && Sum(ws, PendingOf(m)) == 0 {
      SumOfNothing(ws, HeldOf(m));
      SumOfNothing(ws, PendingOf(m));
    }
  }

  lemma InitialInv(cfg: Config, workers: nat)
    ensures Inv(cfg, Initial(workers))
  {
    var ws := Initial(workers).workers;
    InitialPlaces(workers);
    forall id: string ensures Sum(ws, AcceptingOf(id)) == 0 {
      SumOfNothing(ws, AcceptingOf(id));
    }
    SumOfNothing(ws, InFlight);
    SumOfNothing(ws, Busy);
  }

  /** The invariants hold in every reachable state of any number of workers. */
  lemma {:induction false} Reachable(cfg: Config, workers: nat, schedule: seq<Step>)
    requires After(cfg, workers, schedule).Some?
    ensures Inv(cfg, After(cfg, workers, schedule).value)
  {
    if schedule == [] {
      InitialInv(cfg, workers);
    } else {
      var before := schedule[..|schedule| - 1];
      Reachable(cfg, workers, before);
      StepKeepsInv(cfg, After(cfg, workers, before).value, schedule[|schedule| - 1]);
    }
  }

  // --- What it means for messages ----------------------------------------------------------------------

  lemma {:induction false} SumAtLeastTwo(ws: seq<Pc>, f: Pc -> nat, v: nat, w: nat)
    requires v < w < |ws|
    ensures Sum(ws, f) >= f(ws[v]) + f(ws[w])
  {
    var last := |ws| - 1;
    if w < last {
      SumAtLeastTwo(ws[..last], f, v, w);
    } else {
      SumAtLeastOne(ws[..last], f, v);
    }
  }

  lemma {:induction false} SumAtLeastOne(ws: seq<Pc>, f: Pc -> nat, w: nat)
    requires w < |ws|
    ensures Sum(ws, f) >= f(ws[w])
  {
    if w < |ws| - 1 {
      SumAtLeastOne(ws[..|ws| - 1], f, w);
    }
  }

  /** Worker w holds m. */
  predicate Holds(s: State, w: nat, m: MessageId) {
    w < |s.workers| && Held(s.workers[w]) == Some(m)
  }

  lemma {:induction false} SomeHolder(ws: seq<Pc>, m: MessageId) returns (w: nat)
    requires Sum(ws, HeldOf(m)) > 0
    ensures w < |ws| && Held(ws[w]) == Some(m)
  {
    var last := |ws| - 1;
    if Held(ws[last]) == Some(m) {
      w := last;
    } else {
      w := SomeHolder(ws[..last], m);
    }
  }

  /**
   * In every reachable state a published message is in exactly one of three places: once in the backlog,
   * with exactly one worker, or acknowledged exactly once.
   */
  lemma ExactlyOnePlace(cfg: Config, workers: nat, schedule: seq<Step>, m: MessageId)
    requires After(cfg, workers, schedule).Some?
    ensures var s := After(cfg, workers, schedule).value;
      m in s.published ==>
        && s.backlog[m] <= 1 && s.acked[m] <= 1 && !(m in s.backlog && m in s.acked)
        && (forall v, w | Holds(s, v, m) && Holds(s, w, m) :: v == w)
        && ((exists w :: Holds(s, w, m)) <==> m !in s.backlog && m !in s.acked)
  {
    Reachable(cfg, workers, schedule);
    var s := After(cfg, workers, schedule).value;
    assert Places(s, m) == if m in s.published then 1 else 0;
    if m in s.published {
      forall v, w | Holds(s, v, m) && Holds(s, w, m) ensures v == w {
        if v < w {
          SumAtLeastTwo(s.workers, HeldOf(m), v, w);
        } else if w < v {
          SumAtLeastTwo(s.workers, HeldOf(m), w, v);
        }
      }
      if w :| Holds(s, w, m) {
        SumAtLeastOne(s.workers, HeldOf(m), w);
      } else if Sum(s.workers, HeldOf(m)) > 0 {
        var w := SomeHolder(s.workers, m);
        assert Holds(s, w, m);
      }
    }
  }

  /** Nothing is acknowledged before an outcome for it is recorded, in any reachable state, crashes included. */
  lemma AckedHasOutcome(cfg: Config, workers: nat, schedule: seq<Step>, m: MessageId)
    requires After(cfg, workers, schedule).Some?
    ensures var s := After(cfg, workers, schedule).value; OutcomesOf(s.sources, m) >= s.acked[m]
  {
    Reachable(cfg, workers, schedule);
    var s := After(cfg, workers, schedule).value;
    assert OutcomesOf(s.sources, m) == s.acked[m] + Sum(s.workers, PendingOf(m)) + s.lost.recorded[m];
  }

  /** The id an outcome of the message must carry: the body's own, or the property when there is none. */
  function MessageIdOf(d: Delivery): string {
    if d.decoded.None? || d.decoded.value.id == "" then d.property else d.decoded.value.id
  }

  lemma JustifiedCarriesId(cfg: Config, source: Source, o: Outcome)
    requires Justified(cfg, source, o) && source.OfMessage?
    ensures o.notificationId == MessageIdOf(cfg.message(source.m))
  {
    var d := cfg.message(source.m);
    if d.decoded.Some? {
      AttemptsAreCounted(Note(d), source.now, cfg.registered, cfg.max, FutureOf(source.run));
    }
  }

  /** In every reachable state, whatever interleaved or crashed, each outcome of a message carries that message's id. */
  lemma OutcomesCarryId(cfg: Config, workers: nat, schedule: seq<Step>, m: MessageId)
    requires After(cfg, workers, schedule).Some?
    ensures var s := After(cfg, workers, schedule).value;
      && |s.records| == |s.sources|
      && forall i | 0 <= i < |s.sources| && s.sources[i].OfMessage? && s.sources[i].m == m ::
           s.records[i].notificationId == MessageIdOf(cfg.message(m))
  {
    Reachable(cfg, workers, schedule);
    var s := After(cfg, workers, schedule).value;
    forall i | 0 <= i < |s.sources| && s.sources[i].OfMessage? && s.sources[i].m == m
      ensures s.records[i].notificationId == MessageIdOf(cfg.message(m))
    {
      assert Justified(cfg, s.sources[i], s.records[i]);
      JustifiedCarriesId(cfg, s.sources[i], s.records[i]);
    }
  }

  lemma {:induction false} NoSourceNoOutcome(sources: seq<Source>, m: MessageId)
    requires forall i | 0 <= i < |sources| :: sources[i].OfMessage? ==> sources[i].m != m
    ensures OutcomesOf(sources, m) == 0
  {
    if sources != [] {
      NoSourceNoOutcome(sources[..|sources| - 1], m);
    }
  }

  lemma InvUnopenable(cfg: Config, s: State, m: MessageId)
    requires Inv(cfg, s) && !cfg.message(m).decryptable
    ensures s.acked[m] == 0 && OutcomesOf(s.sources, m) == 0 && s.backlog[m] == if m in s.published then 1 else 0
  {
    assert Places(s, m) == if m in s.published then 1 else 0;
    forall w | 0 <= w < |s.workers| ensures HeldOf(m)(s.workers[w]) == 0 {
      assert InLoop(cfg, s.workers[w]);
    }
    SumOfNothing(s.workers, HeldOf(m));
    forall i | 0 <= i < |s.sources| ensures s.sources[i].OfMessage? ==> s.sources[i].m != m {
      assert Justified(cfg, s.sources[i], s.records[i]);
    }
    NoSourceNoOutcome(s.sources, m);
  }

  /**
   * A message no key opens stays in the backlog whoever meets it: never held, never acknowledged, and whatever
   * outcomes it causes do not name it.
   */
  lemma UnopenableStays(cfg: Config, workers: nat, schedule: seq<Step>, m: MessageId)
    requires After(cfg, workers, schedule).Some? && !cfg.message(m).decryptable
    ensures var s := After(cfg, workers, schedule).value;
      && s.acked[m] == 0 && OutcomesOf(s.sources, m) == 0
      && s.backlog[m] == (if m in s.published then 1 else 0)
      && |s.records| == |s.sources|
      && forall i | 0 <= i < |s.sources| && s.sources[i] == Violation(m) :: s.records[i] == ViolationOutcome()
  {
    Reachable(cfg, workers, schedule);
    var s := After(cfg, workers, schedule).value;
    InvUnopenable(cfg, s, m);
    forall i | 0 <= i < |s.sources| && s.sources[i] == Violation(m) ensures s.records[i] == ViolationOutcome() {
      assert Justified(cfg, s.sources[i], s.records[i]);
    }
  }

  lemma {:induction false} ViolationHasSource(sources: seq<Source>) returns (i: nat)
    requires ViolationsOf(sources) > 0
    ensures i < |sources| && sources[i].Violation?
  {
    var last := |sources| - 1;
    if sources[last].Violation? {
      i := last;
    } else {
      i := ViolationHasSource(sources[..last]);
    }
  }

  /** No violation is ever counted without such a message, and that message is still pending. */
  lemma ViolationNeedsUnopenable(cfg: Config, workers: nat, schedule: seq<Step>) returns (m: MessageId)
    requires After(cfg, workers, schedule).Some?
    ensures var s := After(cfg, workers, schedule).value; s.violations > 0 ==> Unopenable(cfg, s, m)
  {
    Reachable(cfg, workers, schedule);
    var s := After(cfg, workers, schedule).value;
    m := 0;
    if s.violations > 0 {
      var i := ViolationHasSource(s.sources);
      assert Justified(cfg, s.sources[i], s.records[i]);
      m := s.sources[i].met;
      InvUnopenable(cfg, s, m);
    }
  }

  /** It can be recorded any number of times: each time the subscription hands it out again. */
  lemma {:induction false} ViolationsRepeat(cfg: Config, s: State, w: nat, m: MessageId, times: nat)
    returns (steps: seq<Step>, end: State)
    requires cfg.reports && Unopenable(cfg, s, m) && w < |s.workers| && s.workers[w].Idle?
    ensures Runs(cfg, s, steps, end) && |steps| == times
    ensures end.violations == s.violations + times && |end.records| == |s.records| + times
    ensures end.backlog == s.backlog && end.acked == s.acked
    decreases times
  {
    steps, end := [], s;
    if times > 0 {
      var step := Act(w, ReceiveViolation(m));
      var next := Next(cfg, s, step);
      assert next.backlog == s.backlog && next.acked == s.acked;
      var rest;
      rest, end := ViolationsRepeat(cfg, next, w, m, times - 1);
      steps := [step] + rest;
      assert steps[1..] == rest;
    }
  }

  // --- Crash-free runs and quiescence ------------------------------------------------------------------

  predicate CrashFree(schedule: seq<Step>) {
    forall i | 0 <= i < |schedule| :: schedule[i].Act? ==> !schedule[i].action.Crash?
  }

  lemma NoCasualtyNoLoss(lost: Lost)
    ensures LostWith(lost, Idle) == lost
  {
    assert lost.delivered + multiset{} == lost.delivered;
    assert lost.recorded + multiset{} == lost.recorded;
  }

  lemma OnlyCrashKills(cfg: Config, s: State, pc: Pc, a: Action)
    requires CanAct(cfg, s, pc, a) && !a.Crash?
    ensures Acted(cfg, s, pc, a).casualty == Idle
  {
  }

  lemma {:induction false} CrashFreeLosesNothing(cfg: Config, workers: nat, schedule: seq<Step>)
    requires After(cfg, workers, schedule).Some? && CrashFree(schedule)
    ensures After(cfg, workers, schedule).value.lost == NOTHING_LOST
  {
    if schedule != [] {
      CrashFreeLosesNothing(cfg, workers, schedule[..|schedule| - 1]);
      var s := After(cfg, workers, schedule[..|schedule| - 1]).value;
      match schedule[|schedule| - 1]
      case Act(w, a) =>
        OnlyCrashKills(cfg, s, s.workers[w], a);
        NoCasualtyNoLoss(s.lost);
      case _ =>
    }
  }

  /** No worker is in the middle of a message. */
  predicate Quiescent(s: State) {
    forall w | 0 <= w < |s.workers| :: s.workers[w].Idle? || s.workers[w].Returned?
  }

  /** Without crashes every acknowledged message has exactly one outcome, and every outcome but a pending one an ack. */
  lemma OneOutcomePerAck(cfg: Config, workers: nat, schedule: seq<Step>, m: MessageId)
    requires After(cfg, workers, schedule).Some? && CrashFree(schedule)
    ensures var s := After(cfg, workers, schedule).value;
      && OutcomesOf(s.sources, m) <= 1
      && (m in s.acked ==> OutcomesOf(s.sources, m) == 1 && s.acked[m] == 1)
      && (Quiescent(s) ==> OutcomesOf(s.sources, m) == s.acked[m])
  {
    Reachable(cfg, workers, schedule);
    CrashFreeLosesNothing(cfg, workers, schedule);
    var s := After(cfg, workers, schedule).value;
    assert Places(s, m) == if m in s.published then 1 else 0;
    PendingIsHeld(s.workers, m);
    assert OutcomesOf(s.sources, m) == s.acked[m] + Sum(s.workers, PendingOf(m)) + s.lost.recorded[m];
    if Quiescent(s) {
      SumOfNothing(s.workers, PendingOf(m));
    }
  }

  lemma {:induction false} PendingIsHeld(ws: seq<Pc>, m: MessageId)
    ensures Sum(ws, PendingOf(m)) <= Sum(ws, HeldOf(m))
  {
    if ws != [] {
      PendingIsHeld(ws[..|ws| - 1], m);
    }
  }

  /**
   * Conservation at quiescence, without crashes: attempts recorded = pushes made = provider attempts counted;
   * outcomes = messages consumed + violations = outcome counter; decrypt failures = outcomes with that reason.
   */
  lemma QuiescentBooksBalance(cfg: Config, workers: nat, schedule: seq<Step>)
    requires After(cfg, workers, schedule).Some? && CrashFree(schedule)
    requires Quiescent(After(cfg, workers, schedule).value)
    ensures var s := After(cfg, workers, schedule).value; var c := s.counters;
      && SumAttempts(s.records) == |s.pushes| == TotalAttempts(c)
      && |s.records| == c.consumed + s.violations == c.outcomes
      && c.decryptFailures == CountReason(s.records, REASON_ENCRYPTION_POLICY_VIOLATION)
      && c.attemptsHistogram == PositiveAttempts(s.records)
  {
    Reachable(cfg, workers, schedule);
    CrashFreeLosesNothing(cfg, workers, schedule);
    var s := After(cfg, workers, schedule).value;
    SumOfNothing(s.workers, InFlight);
    SumOfNothing(s.workers, Busy);
  }

  /** Under any interleaving what the provider accepted is, as a multiset, what the outcomes call delivered. */
  lemma QuiescentDeliveriesMatch(cfg: Config, workers: nat, schedule: seq<Step>)
    requires After(cfg, workers, schedule).Some? && CrashFree(schedule)
    requires Quiescent(After(cfg, workers, schedule).value)
    ensures var s := After(cfg, workers, schedule).value;
      multiset(AcceptedIds(s.pushes)) == multiset(DeliveredIds(s.records))
  {
    Reachable(cfg, workers, schedule);
    CrashFreeLosesNothing(cfg, workers, schedule);
    var s := After(cfg, workers, schedule).value;
    forall id: string ensures multiset(AcceptedIds(s.pushes))[id] == multiset(DeliveredIds(s.records))[id] {
      SumOfNothing(s.workers, AcceptingOf(id));
    }
  }

  function Calls(pushes: seq<Push>): (calls: seq<Option<Notification>>)
    ensures |calls| == |pushes| && forall i | 0 <= i < |pushes| :: calls[i] == Some(pushes[i].n)
  {
    seq(|pushes|, i requires 0 <= i < |pushes| => Some(pushes[i].n))
  }

  /** Every push was answered by one sandbox running this script. */
  predicate AnsweredBySandbox(script: Script, pushes: seq<Push>) {
    forall i | 0 <= i < |pushes| :: pushes[i].response == Response(script, i, Some(pushes[i].n))
  }

  lemma {:induction false} SandboxAccepts(script: Script, pushes: seq<Push>)
    requires AnsweredBySandbox(script, pushes)
    ensures Ids(DeliveredOf(script, Calls(pushes))) == AcceptedIds(pushes)
  {
    if pushes != [] {
      var front := pushes[..|pushes| - 1];
      SandboxAccepts(script, front);
      assert Calls(pushes)[..|front|] == Calls(front);
    }
  }

  /** N workers over one sandbox: at quiescence it holds exactly the delivered messages, in some order. */
  lemma SandboxHoldsDeliveredUnordered(cfg: Config, workers: nat, schedule: seq<Step>, script: Script)
    requires After(cfg, workers, schedule).Some? && CrashFree(schedule)
    requires Quiescent(After(cfg, workers, schedule).value)
    requires AnsweredBySandbox(script, After(cfg, workers, schedule).value.pushes)
    ensures var s := After(cfg, workers, schedule).value;
      multiset(Ids(DeliveredOf(script, Calls(s.pushes)))) == multiset(DeliveredIds(s.records))
  {
    SandboxAccepts(script, After(cfg, workers, schedule).value.pushes);
    QuiescentDeliveriesMatch(cfg, workers, schedule);
  }

  // --- Crashes ---------------------------------------------------------------------------------------------

  /** Crashes of workers that were in such a state. */
  function CrashesIn(cfg: Config, workers: nat, schedule: seq<Step>, such: Pc -> bool): nat
    requires After(cfg, workers, schedule).Some?
  {
    if schedule == [] then 0
    else
      var before, step := schedule[..|schedule| - 1], schedule[|schedule| - 1];
      var s := After(cfg, workers, before).value;
      CrashesIn(cfg, workers, before, such)
      + if step.Act? && step.action.Crash? && such(s.workers[step.w]) then 1 else 0
  }

  function Holding(m: MessageId): Pc -> bool {
    pc => Held(pc) == Some(m)
  }

  function DispatchingId(id: string): Pc -> bool {
    (pc: Pc) => (pc.Looping? || pc.Settling?) && pc.n.id == id
  }

  function Any(): Pc -> bool {
    pc => true
  }

  function Budget(cfg: Config): nat {
    if cfg.max > 0 then cfg.max else 0
  }

  lemma CasualtyOf(cfg: Config, s: State, pc: Pc, a: Action)
    requires CanAct(cfg, s, pc, a)
    ensures Acted(cfg, s, pc, a).casualty == if a.Crash? then pc else Idle
  {
  }

  lemma CasualtyCosts(cfg: Config, lost: Lost, pc: Pc, m: MessageId, id: string)
    requires InLoop(cfg, pc)
    ensures var after := LostWith(lost, pc);
      && after.recorded[m] <= lost.recorded[m] + (if Holding(m)(pc) then 1 else 0)
      && after.delivered[id] <= lost.delivered[id] + (if DispatchingId(id)(pc) then 1 else 0)
      && after.handled <= lost.handled + 1
      && after.pushes <= lost.pushes + Budget(cfg)
  {
    BagCounts(lost.recorded, Pending(pc), m);
    BagCounts(lost.delivered, Accepting(pc), id);
  }

  /** What a step adds to the losses, at most. */
  lemma StepCosts(cfg: Config, s: State, step: Step, m: MessageId, id: string)
    requires Inv(cfg, s) && Enabled(cfg, s, step)
    ensures var crash := step.Act? && step.action.Crash?;
      var lost, after := s.lost, Next(cfg, s, step).lost;
      && after.recorded[m] <= lost.recorded[m] + (if crash && Holding(m)(s.workers[step.w]) then 1 else 0)
      && after.delivered[id] <= lost.delivered[id] + (if crash && DispatchingId(id)(s.workers[step.w]) then 1 else 0)
      && after.handled <= lost.handled + (if crash then 1 else 0)
      && after.pushes <= lost.pushes + (if crash then Budget(cfg) else 0)
  {
    if step.Act? {
      var pc := s.workers[step.w];
      assert InLoop(cfg, pc);
      CasualtyOf(cfg, s, pc, step.action);
      CasualtyCosts(cfg, s.lost, pc, m, id);
      NoCasualtyNoLoss(s.lost);
    }
  }

  lemma OneMoreBudget(before: nat, after: nat, crashes: nat, more: nat, budget: nat)
    requires before <= crashes * budget
    requires (more == crashes && after <= before) || (more == crashes + 1 && after <= before + budget)
    ensures after <= more * budget
  {
    assert (crashes + 1) * budget == crashes * budget + budget;
  }

  /** What crashes cost is bounded by the crashes: of workers on the message, on the id, or at all. */
  lemma {:induction false} RecordedLossBounded(cfg: Config, workers: nat, schedule: seq<Step>, m: MessageId)
    requires After(cfg, workers, schedule).Some?
    ensures After(cfg, workers, schedule).value.lost.recorded[m] <= CrashesIn(cfg, workers, schedule, Holding(m))
    decreases |schedule|
  {
    if schedule != [] {
      var before, step := schedule[..|schedule| - 1], schedule[|schedule| - 1];
      RecordedLossBounded(cfg, workers, before, m);
      Reachable(cfg, workers, before);
      StepCosts(cfg, After(cfg, workers, before).value, step, m, "");
    }
  }

  lemma {:induction false} DeliveredLossBounded(cfg: Config, workers: nat, schedule: seq<Step>, id: string)
    requires After(cfg, workers, schedule).Some?
    ensures After(cfg, workers, schedule).value.lost.delivered[id]
         <= CrashesIn(cfg, workers, schedule, DispatchingId(id))
    decreases |schedule|
  {
    if schedule != [] {
      var before, step := schedule[..|schedule| - 1], schedule[|schedule| - 1];
      DeliveredLossBounded(cfg, workers, before, id);
      Reachable(cfg, workers, before);
      StepCosts(cfg, After(cfg, workers, before).value, step, 0, id);
    }
  }

  lemma {:induction false} HandledLossBounded(cfg: Config, workers: nat, schedule: seq<Step>)
    requires After(cfg, workers, schedule).Some?
    ensures After(cfg, workers, schedule).value.lost.handled <= CrashesIn(cfg, workers, schedule, Any())
    decreases |schedule|
  {
    if schedule != [] {
      var before, step := schedule[..|schedule| - 1], schedule[|schedule| - 1];
      HandledLossBounded(cfg, workers, before);
      Reachable(cfg, workers, before);
      StepCosts(cfg, After(cfg, workers, before).value, step, 0, "");
    }
  }

  lemma {:induction false} PushesLossBounded(cfg: Config, workers: nat, schedule: seq<Step>)
    requires After(cfg, workers, schedule).Some?
    ensures After(cfg, workers, schedule).value.lost.pushes <= CrashesIn(cfg, workers, schedule, Any()) * Budget(cfg)
    decreases |schedule|
  {
    if schedule != [] {
      var before, step := schedule[..|schedule| - 1], schedule[|schedule| - 1];
      PushesLossBounded(cfg, workers, before);
      Reachable(cfg, workers, before);
      StepCosts(cfg, After(cfg, workers, before).value, step, 0, "");
      OneMoreBudget(After(cfg, workers, before).value.lost.pushes,
                    After(cfg, workers, schedule).value.lost.pushes,
                    CrashesIn(cfg, workers, before, Any()), CrashesIn(cfg, workers, schedule, Any()), Budget(cfg));
    }
  }

  /**
   * At quiescence of any schedule, crashes included: a message has an outcome for each acknowledgement, and at most one
   * more for each crash of a worker that held it; an id was accepted as often as recorded delivered, and at most once
   * more for each crash of a worker that dispatched it.
   */
  lemma QuiescentDespiteCrashes(cfg: Config, workers: nat, schedule: seq<Step>, m: MessageId, id: string)
    requires After(cfg, workers, schedule).Some? && Quiescent(After(cfg, workers, schedule).value)
    ensures var s := After(cfg, workers, schedule).value;
      && s.acked[m] <= OutcomesOf(s.sources, m) <= s.acked[m] + CrashesIn(cfg, workers, schedule, Holding(m))
      && multiset(DeliveredIds(s.records))[id] <= multiset(AcceptedIds(s.pushes))[id]
         <= multiset(DeliveredIds(s.records))[id] + CrashesIn(cfg, workers, schedule, DispatchingId(id))
  {
    Reachable(cfg, workers, schedule);
    var s := After(cfg, workers, schedule).value;
    RecordedLossBounded(cfg, workers, schedule, m);
    DeliveredLossBounded(cfg, workers, schedule, id);
    SumOfNothing(s.workers, PendingOf(m));
    SumOfNothing(s.workers, AcceptingOf(id));
    assert OutcomesOf(s.sources, m) == s.acked[m] + Sum(s.workers, PendingOf(m)) + s.lost.recorded[m];
  }

  /** The books at quiescence despite crashes: each crash costs at most one handling and one budget of pushes. */
  lemma BooksDespiteCrashes(cfg: Config, workers: nat, schedule: seq<Step>)
    requires After(cfg, workers, schedule).Some? && Quiescent(After(cfg, workers, schedule).value)
    ensures var s := After(cfg, workers, schedule).value; var c := s.counters;
      var crashes := CrashesIn(cfg, workers, schedule, Any());
      && c.outcomes == |s.records| && |s.pushes| == TotalAttempts(c)
      && |s.records| <= c.consumed + s.violations <= |s.records| + crashes
      && SumAttempts(s.records) <= |s.pushes|
         <= SumAttempts(s.records) + crashes * Budget(cfg)
  {
    Reachable(cfg, workers, schedule);
    var s := After(cfg, workers, schedule).value;
    HandledLossBounded(cfg, workers, schedule);
    PushesLossBounded(cfg, workers, schedule);
    SumOfNothing(s.workers, InFlight);
    SumOfNothing(s.workers, Busy);
  }

  // --- Draining ------------------------------------------------------------------------------------------

  /** The most steps of its own a worker takes before it returns, if it receives nothing more. */
  function Work(cfg: Config, pc: Pc): nat {
    var max := if cfg.max > 0 then cfg.max else 0;
    match pc
    case Returned => 0
    case Idle => 1
    case Recorded(_) => 2
    case Looping(_, _, _, made) => 3 + if max > |made| then 2 * (max - |made|) else 0
    case Settling(_, _, _, made) => 4 + if max > |made| then 2 * (max - |made|) else 0
    case Received(_) => 4 + 2 * max
  }

  function WorkOf(cfg: Config): Pc -> nat {
    pc => Work(cfg, pc)
  }

  /** A step towards the end: anything but a receive of something that leaves the worker running, or a crash. */
  predicate Drains(a: Action) {
    !a.Receive? && !a.ReceiveViolation? && !a.Crash?
  }

  lemma DrainingShrinks(cfg: Config, s: State, pc: Pc, a: Action)
    requires InLoop(cfg, pc) && CanAct(cfg, s, pc, a) && Drains(a)
    ensures Work(cfg, Acted(cfg, s, pc, a).pc) < Work(cfg, pc)
  {
  }

  predicate Runs(cfg: Config, s: State, steps: seq<Step>, end: State)
    decreases |steps|
  {
    if steps == [] then end == s else Enabled(cfg, s, steps[0]) && Runs(cfg, Next(cfg, s, steps[0]), steps[1..], end)
  }

  /** Neither receives nor crashes: publishing, cancelling and draining only. */
  predicate OnlyDrains(steps: seq<Step>) {
    forall i | 0 <= i < |steps| :: steps[i].Act? ==> Drains(steps[i].action)
  }

  predicate NoReaderFault(schedule: seq<Step>) {
    forall i | 0 <= i < |schedule| :: schedule[i].Act? ==> !schedule[i].action.ReaderError?
  }

  function Actions(steps: seq<Step>): nat {
    if steps == [] then 0 else (if steps[0].Act? then 1 else 0) + Actions(steps[1..])
  }

  lemma StepDrains(cfg: Config, s: State, step: Step)
    requires Inv(cfg, s) && Enabled(cfg, s, step) && (step.Act? ==> Drains(step.action))
    ensures Sum(Next(cfg, s, step).workers, WorkOf(cfg)) + (if step.Act? then 1 else 0) <= Sum(s.workers, WorkOf(cfg))
  {
    if step.Act? {
      assert InLoop(cfg, s.workers[step.w]);
      DrainingShrinks(cfg, s, s.workers[step.w], step.action);
      SumMoved(s.workers, step.w, Acted(cfg, s, s.workers[step.w], step.action).pc, WorkOf(cfg));
    }
  }

  /** Whatever the order, workers that receive nothing take no more steps together than the work they have left. */
  lemma {:induction false} DrainingBounded(cfg: Config, s: State, steps: seq<Step>, end: State)
    requires Inv(cfg, s) && OnlyDrains(steps) && Runs(cfg, s, steps, end)
    ensures Inv(cfg, end) && Actions(steps) + Sum(end.workers, WorkOf(cfg)) <= Sum(s.workers, WorkOf(cfg))
    decreases |steps|
  {
    if steps != [] {
      StepKeepsInv(cfg, s, steps[0]);
      StepDrains(cfg, s, steps[0]);
      DrainingBounded(cfg, Next(cfg, s, steps[0]), steps[1..], end);
    }
  }

  /** Workers stop receiving: the pool is cancelled, or the adapter meets a message that no key opens. */
  predicate Stopping(cfg: Config, s: State) {
    s.cancelled || (!cfg.reports && exists m | m in s.backlog :: Unopenable(cfg, s, m))
  }

  lemma NeverStuck(cfg: Config, s: State, pc: Pc, now: Time, attempt: Attempt) returns (a: Action)
    requires InLoop(cfg, pc) && Stopping(cfg, s) && !pc.Returned?
    ensures CanAct(cfg, s, pc, a) && Drains(a) && !a.ReaderError?
  {
    match pc
    case Idle =>
      if s.cancelled {
        a := ReceiveCancelled;
      } else {
        var m :| m in s.backlog && Unopenable(cfg, s, m);
        a := ReceiveUnopened(m);
      }
    case Received(_) => a := Handle(now);
    case Looping(_, _, _, made) => a := if |made| < cfg.max then PushOnce(attempt) else Exhaust;
    case Settling(_, _, _, _) => a := Settle;
    case Recorded(_) => a := Ack;
  }

  predicate AllReturned(s: State) {
    forall w | 0 <= w < |s.workers| :: s.workers[w].Returned?
  }

  lemma DrainTakesNothing(cfg: Config, s: State, pc: Pc, a: Action)
    requires CanAct(cfg, s, pc, a) && Drains(a)
    ensures Acted(cfg, s, pc, a).taken == None && Acted(cfg, s, pc, a).casualty == Idle
  {
  }

  lemma DrainingKeepsBacklog(cfg: Config, s: State, w: nat, a: Action, next: State)
    requires w < |s.workers| && CanAct(cfg, s, s.workers[w], a) && Drains(a) && next == Next(cfg, s, Act(w, a))
    ensures next.backlog == s.backlog && next.cancelled == s.cancelled
  {
    DrainTakesNothing(cfg, s, s.workers[w], a);
    assert s.backlog - multiset{} + multiset{} == s.backlog;
  }

  /** One more step towards the end for a worker that has not returned. */
  lemma DrainOne(cfg: Config, s: State, w: nat, now: Time, attempt: Attempt) returns (step: Step, next: State)
    requires Inv(cfg, s) && Stopping(cfg, s) && w < |s.workers| && !s.workers[w].Returned?
    ensures step.Act? && Drains(step.action) && !step.action.ReaderError?
    ensures Enabled(cfg, s, step) && next == Next(cfg, s, step)
    ensures Inv(cfg, next) && Sum(next.workers, WorkOf(cfg)) < Sum(s.workers, WorkOf(cfg))
    ensures next.backlog == s.backlog && next.cancelled == s.cancelled && Stopping(cfg, next)
  {
    assert InLoop(cfg, s.workers[w]);
    var a := NeverStuck(cfg, s, s.workers[w], now, attempt);
    step, next := Act(w, a), Next(cfg, s, Act(w, a));
    DrainingShrinks(cfg, s, s.workers[w], a);
    SumMoved(s.workers, w, Acted(cfg, s, s.workers[w], a).pc, WorkOf(cfg));
    StepKeepsInv(cfg, s, step);
    StoppingKept(cfg, s, step);
    DrainingKeepsBacklog(cfg, s, w, a, next);
  }

  /** These draining steps lead from s to a state in which all have returned and the backlog is as it was. */
  predicate DrainedBy(cfg: Config, s: State, steps: seq<Step>, end: State) {
    && Runs(cfg, s, steps, end) && OnlyDrains(steps) && NoReaderFault(steps)
    && |steps| <= Sum(s.workers, WorkOf(cfg))
    && AllReturned(end) && end.backlog == s.backlog && end.cancelled == s.cancelled
  }

  lemma RunsOnwards(cfg: Config, s: State, step: Step, rest: seq<Step>, end: State)
    requires Enabled(cfg, s, step) && Runs(cfg, Next(cfg, s, step), rest, end)
    ensures Runs(cfg, s, [step] + rest, end)
  {
    assert ([step] + rest)[1..] == rest;
  }

  lemma StepsOnwards(step: Step, rest: seq<Step>)
    requires step.Act? && Drains(step.action) && !step.action.ReaderError?
    requires OnlyDrains(rest) && NoReaderFault(rest)
    ensures OnlyDrains([step] + rest) && NoReaderFault([step] + rest)
  {
  }

  /** Once the workers stop receiving, they can all be run to their return, with the backlog left as it was. */
  lemma {:induction false} PoolDrains(cfg: Config, s: State, now: Time, attempt: Attempt)
    returns (steps: seq<Step>, end: State)
    requires Inv(cfg, s) && Stopping(cfg, s)
    ensures DrainedBy(cfg, s, steps, end)
    decreases Sum(s.workers, WorkOf(cfg))
  {
    steps, end := [], s;
    if w :| 0 <= w < |s.workers| && !s.workers[w].Returned? {
      var step, next := DrainOne(cfg, s, w, now, attempt);
      var rest;
      rest, end := PoolDrains(cfg, next, now, attempt);
      steps := [step] + rest;
      RunsOnwards(cfg, s, step, rest, end);
      StepsOnwards(step, rest);
    }
  }

  /** No worker can take another step towards its return, reader faults aside. */
  ghost predicate Stuck(cfg: Config, s: State) {
    forall w, a | 0 <= w < |s.workers| && Drains(a) && !a.ReaderError? :: !CanAct(cfg, s, s.workers[w], a)
  }

  /** Once the workers stop receiving, only returned ones are stuck. */
  lemma StuckIsReturned(cfg: Config, s: State)
    requires Inv(cfg, s) && Stopping(cfg, s) && Stuck(cfg, s)
    ensures AllReturned(s)
  {
    forall w | 0 <= w < |s.workers| ensures s.workers[w].Returned? {
      assert InLoop(cfg, s.workers[w]);
      if !s.workers[w].Returned? {
        var a := NeverStuck(cfg, s, s.workers[w], 0, Attempt(true, 0, 0, Accepted(None)));
        assert false;
      }
    }
  }

  // --- The Pulsar adapter and a message that no key opens ----------------------------------------------------

  lemma OnlyStopsReturn(cfg: Config, s: State, pc: Pc, a: Action)
    requires CanAct(cfg, s, pc, a) && Acted(cfg, s, pc, a).pc.Returned?
    ensures s.cancelled || a.ReaderError? || (a.ReceiveUnopened? && !cfg.reports && Unopenable(cfg, s, a.m))
  {
  }

  lemma StoppingKept(cfg: Config, s: State, step: Step)
    requires Inv(cfg, s) && Stopping(cfg, s) && Enabled(cfg, s, step)
    ensures Stopping(cfg, Next(cfg, s, step))
  {
    StepKeepsInv(cfg, s, step);
    if !s.cancelled {
      var m :| m in s.backlog && Unopenable(cfg, s, m);
      PendingIsPublished(s, m);
      InvUnopenable(cfg, Next(cfg, s, step), m);
    }
  }

  lemma {:induction false} RunsKeepStopping(cfg: Config, s: State, steps: seq<Step>, end: State)
    requires Inv(cfg, s) && Stopping(cfg, s) && Runs(cfg, s, steps, end)
    ensures Stopping(cfg, end)
    decreases |steps|
  {
    if steps != [] {
      StepKeepsInv(cfg, s, steps[0]);
      StoppingKept(cfg, s, steps[0]);
      RunsKeepStopping(cfg, Next(cfg, s, steps[0]), steps[1..], end);
    }
  }

  /**
   * What the shutdown waits for: once the workers stop receiving, every order of their steps that cannot be continued
   * has been no longer than the work they had left, and ends with all of them returned.
   */
  lemma EveryMaximalRunReturns(cfg: Config, s: State, steps: seq<Step>, end: State)
    requires Inv(cfg, s) && Stopping(cfg, s) && OnlyDrains(steps) && Runs(cfg, s, steps, end)
    ensures Actions(steps) <= Sum(s.workers, WorkOf(cfg))
    ensures Stuck(cfg, end) ==> AllReturned(end)
  {
    DrainingBounded(cfg, s, steps, end);
    RunsKeepStopping(cfg, s, steps, end);
    if Stuck(cfg, end) {
      StuckIsReturned(cfg, end);
    }
  }

  /** Some worker has returned only if the workers are stopping. */
  predicate ReturnsHaveCause(cfg: Config, s: State) {
    (exists w | 0 <= w < |s.workers| :: s.workers[w].Returned?) ==> Stopping(cfg, s)
  }

  lemma ReturningStops(cfg: Config, s: State, step: Step, w: nat)
    requires Enabled(cfg, s, step) && (step.Act? ==> !step.action.ReaderError?)
    requires w < |s.workers| && Next(cfg, s, step).workers[w].Returned?
    ensures s.workers[w].Returned? || Stopping(cfg, s)
  {
    if step.Act? && step.w == w {
      OnlyStopsReturn(cfg, s, s.workers[w], step.action);
    }
  }

  lemma NextWorkers(cfg: Config, s: State, step: Step)
    requires Enabled(cfg, s, step)
    ensures |Next(cfg, s, step).workers| == |s.workers|
  {
  }

  /** Without reader faults a worker returns before the pool is cancelled only over a message that no key opens. */
  lemma ReturnsKeepCause(cfg: Config, s: State, step: Step)
    requires Inv(cfg, s) && ReturnsHaveCause(cfg, s)
    requires Enabled(cfg, s, step) && (step.Act? ==> !step.action.ReaderError?)
    ensures ReturnsHaveCause(cfg, Next(cfg, s, step))
  {
    NextWorkers(cfg, s, step);
    if w :| 0 <= w < |Next(cfg, s, step).workers| && Next(cfg, s, step).workers[w].Returned? {
      ReturningStops(cfg, s, step, w);
      StoppingKept(cfg, s, step);
    }
  }

  lemma {:induction false} ReturnNeedsUnopenable(cfg: Config, workers: nat, schedule: seq<Step>)
    requires After(cfg, workers, schedule).Some? && NoReaderFault(schedule)
    ensures ReturnsHaveCause(cfg, After(cfg, workers, schedule).value)
    ensures |After(cfg, workers, schedule).value.workers| == workers
    decreases |schedule|
  {
    if schedule != [] {
      var before, step := schedule[..|schedule| - 1], schedule[|schedule| - 1];
      ReturnNeedsUnopenable(cfg, workers, before);
      Reachable(cfg, workers, before);
      ReturnsKeepCause(cfg, After(cfg, workers, before).value, step);
      NextWorkers(cfg, After(cfg, workers, before).value, step);
    }
  }

  lemma {:induction false} RunsKeepCause(cfg: Config, s: State, steps: seq<Step>, end: State)
    requires Inv(cfg, s) && ReturnsHaveCause(cfg, s) && NoReaderFault(steps) && Runs(cfg, s, steps, end)
    ensures ReturnsHaveCause(cfg, end) && |end.workers| == |s.workers|
    decreases |steps|
  {
    if steps != [] {
      StepKeepsInv(cfg, s, steps[0]);
      ReturnsKeepCause(cfg, s, steps[0]);
      NextWorkers(cfg, s, steps[0]);
      RunsKeepCause(cfg, Next(cfg, s, steps[0]), steps[1..], end);
    }
  }

  /** Some pending message is opened by no key, and the reader does not report it as such. */
  predicate Poisoned(cfg: Config, s: State) {
    !cfg.reports && exists m | m in s.backlog :: Unopenable(cfg, s, m)
  }

  /**
   * Without a reader fault or a cancellation, the workers of a pool can all come to return, leaving the backlog as it
   * is, if and only if the Pulsar adapter has a message to hand out that no key opens.
   */
  lemma PoolStopsIff(cfg: Config, workers: nat, schedule: seq<Step>)
    requires After(cfg, workers, schedule).Some? && NoReaderFault(schedule) && workers >= 1
    ensures var s := After(cfg, workers, schedule).value;
      !s.cancelled ==> ((exists steps, end :: DrainedBy(cfg, s, steps, end)) <==> Poisoned(cfg, s))
  {
    Reachable(cfg, workers, schedule);
    ReturnNeedsUnopenable(cfg, workers, schedule);
    var s := After(cfg, workers, schedule).value;
    if Poisoned(cfg, s) {
      var steps, end := PoolDrains(cfg, s, 0, Attempt(true, 0, 0, Accepted(None)));
    }
    forall steps, end | DrainedBy(cfg, s, steps, end) && !s.cancelled ensures Poisoned(cfg, s) {
      RunsKeepCause(cfg, s, steps, end);
      assert end.workers[0].Returned?;
      var m :| m in end.backlog && Unopenable(cfg, end, m);
      assert m in s.backlog && Unopenable(cfg, s, m);
    }
  }

  /** When all workers have returned nothing is held: every published message is in the backlog or acknowledged. */
  lemma ReturnedHoldsNothing(cfg: Config, workers: nat, schedule: seq<Step>, m: MessageId)
    requires After(cfg, workers, schedule).Some?
    requires var s := After(cfg, workers, schedule).value; forall w | 0 <= w < |s.workers| :: s.workers[w].Returned?
    ensures var s := After(cfg, workers, schedule).value; s.backlog[m] + s.acked[m] == if m in s.published then 1 else 0
  {
    Reachable(cfg, workers, schedule);
    var s := After(cfg, workers, schedule).value;
    assert Places(s, m) == if m in s.published then 1 else 0;
    SumOfNothing(s.workers, HeldOf(m));
  }
}
