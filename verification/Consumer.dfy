/** The deliverer's receive, handle, acknowledge loop (internal/deliverer/consumer). */
module Consumer {
  import opened Text
  import opened Notifications
  import opened ErrorTrees
  import opened Ledger
  import opened Retry
  import opened Dispatching
  import opened Dispatcher
  import opened Sandbox

  /** What one Receive call yields; a policy violation comes without its message. */
  datatype Received =
    | Message(body: Bytes, property: string)
    | PolicyViolation
    | Cancelled
    | Broken(err: Err)

  /** A subscription that yields its inbox and then blocks until the context is cancelled. */
  class Reader {
    const inbox: seq<Received>
    var pos: nat
    var acked: seq<nat>
    var nacked: seq<nat>

    constructor (inbox: seq<Received>)
      ensures this.inbox == inbox && pos == 0 && acked == [] && nacked == []
    {
      this.inbox := inbox;
      pos, acked, nacked := 0, [], [];
    }

    method Receive() returns (r: Received)
      modifies this`pos
      ensures r == ItemAt(inbox, old(pos))
      ensures pos == if old(pos) < |inbox| then old(pos) + 1 else old(pos)
    {
      if pos < |inbox| {
        r := inbox[pos];
        pos := pos + 1;
      } else {
        r := Cancelled;
      }
    }

    method Ack(i: nat)
      modifies this`acked
      ensures acked == old(acked) + [i]
    {
      acked := acked + [i];
    }

    method Nack(i: nat)
      modifies this`nacked
      ensures nacked == old(nacked) + [i]
    {
      nacked := nacked + [i];
    }
  }

  function ItemAt(inbox: seq<Received>, i: nat): Received {
    if i < |inbox| then inbox[i] else Cancelled
  }

  // --- The loop as a function of the books --------------------------------------------------

  datatype Setup = Setup(streams: Streams, policy: Policy, registered: set<string>, codec: Codec)

  /** Outcome log, counters and environment use: everything a worker changes. */
  datatype Books = Books(records: seq<Outcome>, counters: Counters, used: Usage)

  /** The body's own id, or the plaintext property when it has none. */
  function Identified(n: Notification, property: string): Notification {
    if n.id == "" then n.(id := property) else n
  }

  function MalformedOutcome(property: string): Outcome {
    Outcome(property, PermanentlyFailed, REASON_REJECTED_PAYLOAD, "", 0, ZERO_TIME, ZERO_TIME)
  }

  function ViolationOutcome(): Outcome {
    Outcome("", PermanentlyFailed, REASON_ENCRYPTION_POLICY_VIOLATION, "", 0, ZERO_TIME, ZERO_TIME)
  }

  function CountConsumed(c: Counters): Counters {
    c.(consumed := c.consumed + 1)
  }

  function Booked(b: Books, o: Outcome): Books {
    b.(records := b.records + [o], counters := CountOutcome(b.counters, o.reason, o.attempts))
  }

  function Handled(cfg: Setup, b: Books, body: Bytes, property: string): Books {
    var counted := b.(counters := CountConsumed(b.counters));
    match cfg.codec.unmarshal(body)
    case None => Booked(counted, MalformedOutcome(property))
    case Some(decoded) =>
      var n := Identified(decoded, property);
      var (o, run) := DispatchedAt(cfg.streams, b.used, cfg.policy, cfg.registered, n);
      Booked(counted.(counters := CountAttempts(counted.counters, run.attempts),
                      used := UsedBy(cfg.streams, b.used, cfg.policy, n, run)), o)
  }

  /** What taking one item does to the books. */
  function Taken(cfg: Setup, b: Books, item: Received): Books {
    match item
    case Message(body, property) => Handled(cfg, b, body, property)
    case PolicyViolation => Booked(b, ViolationOutcome())
    case _ => b
  }

  type Step = (Books, Received) -> Books

  function StepOf(cfg: Setup): Step {
    (b: Books, item: Received) => Taken(cfg, b, item)
  }

  /** Books, acknowledgements and result when the loop ends, and how many items it took. */
  datatype End = End(books: Books, acked: seq<nat>, err: Option<Err>, taken: nat)

  predicate IsTaken(item: Received) {
    item.Message? || item.PolicyViolation?
  }

  function RanFrom(step: Step, inbox: seq<Received>, i: nat, b: Books, acked: seq<nat>): End
    requires i <= |inbox|
    decreases |inbox| - i
  {
    var item := ItemAt(inbox, i);
    match item
    case Cancelled => End(b, acked, None, i)
    case Broken(err) => End(b, acked, Some(err), i)
    case _ => RanFrom(step, inbox, i + 1, step(b, item), if item.Message? then acked + [i] else acked)
  }

  /** The loop goes on over an item that is taken, and ends at any other. */
  lemma RanOn(cfg: Setup, inbox: seq<Received>, i: nat, b: Books, acked: seq<nat>)
    requires i <= |inbox|
    ensures var item, step := ItemAt(inbox, i), StepOf(cfg); var end := RanFrom(step, inbox, i, b, acked);
      if IsTaken(item) then
        i < |inbox| &&
        end == RanFrom(step, inbox, i + 1, Taken(cfg, b, item), if item.Message? then acked + [i] else acked)
      else end.books == b && end.acked == acked && end.err == if item.Broken? then Some(item.err) else None
  {
  }

  function Ran(cfg: Setup, inbox: seq<Received>, b: Books, acked: seq<nat>): End {
    RanFrom(StepOf(cfg), inbox, 0, b, acked)
  }

  class Consumer {
    const reader: Reader
    const dispatcher: Dispatcher
    const codec: Codec

    constructor (reader: Reader, dispatcher: Dispatcher, codec: Codec)
      ensures this.reader == reader && this.dispatcher == dispatcher && this.codec == codec
    {
      this.reader, this.dispatcher, this.codec := reader, dispatcher, codec;
    }

    function Configured(): Setup {
      Setup(dispatcher.env.streams, dispatcher.policy, dispatcher.registered, codec)
    }

    function Snapshot(): Books
      reads dispatcher.env, dispatcher.recorder, dispatcher.metrics
    {
      Books(dispatcher.recorder.records, dispatcher.metrics.counters, dispatcher.env.Used())
    }

    /** Reads until cancelled or broken; every message read is handled and then acknowledged, none is refused. */
    method Run() returns (err: Option<Err>)
      requires reader.pos == 0
      modifies reader, dispatcher.env, dispatcher.recorder, dispatcher.metrics
      ensures var end := Ran(Configured(), reader.inbox, old(Snapshot()), old(reader.acked));
        Snapshot() == end.books && reader.acked == end.acked && err == end.err
      ensures reader.nacked == old(reader.nacked)
    {
      ghost var step := StepOf(Configured());
      while true
        invariant reader.pos <= |reader.inbox| && reader.nacked == old(reader.nacked)
        invariant RanFrom(step, reader.inbox, reader.pos, Snapshot(), reader.acked)
               == RanFrom(step, reader.inbox, 0, old(Snapshot()), old(reader.acked))
        decreases |reader.inbox| - reader.pos
      {
        ghost var i, books := reader.pos, Snapshot();
        RanOn(Configured(), reader.inbox, i, books, reader.acked);
        var item := reader.Receive();
        match item {
          case Cancelled => return None;
          case Broken(e) => return Some(e);
          case _ => Take(item, i);
        }
      }
    }

    /** One turn of the loop: a violation is recorded, a message handled and acknowledged. */
    method Take(item: Received, ghost i: nat)
      requires IsTaken(item) && reader.pos == i + 1
      modifies reader`acked, dispatcher.env, dispatcher.recorder, dispatcher.metrics
      ensures Snapshot() == Taken(Configured(), old(Snapshot()), item)
      ensures reader.acked == if item.Message? then old(reader.acked) + [i] else old(reader.acked)
    {
      match item {
        case PolicyViolation => RecordPolicyViolation("");
        case Message(body, property) =>
          Handle(body, property);
          reader.Ack(reader.pos - 1);
      }
    }

    method Handle(body: Bytes, property: string)
      modifies dispatcher.env, dispatcher.recorder, dispatcher.metrics
      ensures Snapshot() == Handled(Configured(), old(Snapshot()), body, property)
    {
      ghost var cfg, used := Configured(), dispatcher.env.Used();
      dispatcher.metrics.RecordConsumed();
      var decoded := codec.unmarshal(body);
      if decoded.None? {
        dispatcher.recorder.Record(
          Outcome(property, PermanentlyFailed, REASON_REJECTED_PAYLOAD, "", 0, ZERO_TIME, ZERO_TIME));
        dispatcher.metrics.RecordOutcome(REASON_REJECTED_PAYLOAD, 0);
        return;
      }
      var n := decoded.value;
      if n.id == "" {
        n := n.(id := property);
      }
      var ok, o, run := dispatcher.Dispatch(Some(n));
      assert (o, run) == DispatchedAt(cfg.streams, used, cfg.policy, cfg.registered, n);
      assert dispatcher.env.Used() == UsedBy(cfg.streams, used, cfg.policy, n, run);
    }

    method RecordPolicyViolation(id: string)
      modifies dispatcher.recorder, dispatcher.metrics
      ensures id == "" ==> Snapshot() == Booked(old(Snapshot()), ViolationOutcome())
      ensures dispatcher.recorder.records
           == old(dispatcher.recorder.records) + [ViolationOutcome().(notificationId := id)]
    {
      dispatcher.recorder.Record(
        Outcome(id, PermanentlyFailed, REASON_ENCRYPTION_POLICY_VIOLATION, "", 0, ZERO_TIME, ZERO_TIME));
      dispatcher.metrics.RecordOutcome(REASON_ENCRYPTION_POLICY_VIOLATION, 0);
    }
  }

  // --- Conservation ----------------------------------------------------------------------------

  /** The books balance: attempts recorded = pushes made = pushes counted, outcomes = messages + violations. */
  predicate Balanced(b: Books, violations: nat) {
    && Reconciled(b.records, b.counters)
    && SumAttempts(b.records) == |b.used.pushed| == TotalAttempts(b.counters)
    && |b.records| == b.counters.consumed + violations
  }

  /** The pushes made for one message, as the provider answered them, and the outcome they led to. */
  predicate Explains(streams: Streams, pushed: seq<Notification>, n: Notification, made: seq<Attempt>, o: Outcome) {
    && o.attempts == |made|
    && (forall i | 0 <= i < |made| :: made[i].response == streams.respond(|pushed| + i, n))
    && (forall i | 0 <= i < |made| - 1 :: !IsTerminal(made[i].response))
    && (o.status == Delivered <==> made != [] && made[|made| - 1].response.Accepted?)
  }

  /** The attempts of a dispatch and their number, without what led to them. */
  lemma AttemptsCounted(cfg: Setup, u: Usage, n: Notification, future: Future, o: Outcome, run: Run)
    requires future == FutureAt(cfg.streams, u.(ticks := u.ticks + 1), cfg.policy, n)
    requires (o, run) == Dispatched(n, cfg.streams.clock(u.ticks), cfg.registered, cfg.policy.maxAttempts, future)
    ensures o.attempts == |run.attempts| && o.notificationId == n.id && run.attempts == Prefix(future, |run.attempts|)
  {
    AttemptsAreCounted(n, cfg.streams.clock(u.ticks), cfg.registered, cfg.policy.maxAttempts, future);
  }

  lemma AttemptsAnswered(cfg: Setup, u: Usage, n: Notification, run: Run)
    requires run.attempts == Prefix(FutureAt(cfg.streams, u.(ticks := u.ticks + 1), cfg.policy, n), |run.attempts|)
    ensures forall i | 0 <= i < |run.attempts| :: run.attempts[i].response == cfg.streams.respond(|u.pushed| + i, n)
  {
    AnsweredByStream(cfg.streams, u.(ticks := u.ticks + 1), cfg.policy, n, run.attempts);
  }

  lemma AttemptsExplained(cfg: Setup, u: Usage, n: Notification, o: Outcome, run: Run)
    requires (o, run) == DispatchedAt(cfg.streams, u, cfg.policy, cfg.registered, n)
    ensures o.attempts == |run.attempts| && o.notificationId == n.id
    ensures forall i | 0 <= i < |run.attempts| :: run.attempts[i].response == cfg.streams.respond(|u.pushed| + i, n)
  {
    AttemptsCounted(cfg, u, n, FutureAt(cfg.streams, u.(ticks := u.ticks + 1), cfg.policy, n), o, run);
    AttemptsAnswered(cfg, u, n, run);
  }

  lemma DispatchExplained(cfg: Setup, u: Usage, n: Notification, o: Outcome, run: Run)
    requires (o, run) == DispatchedAt(cfg.streams, u, cfg.policy, cfg.registered, n)
    ensures Explains(cfg.streams, u.pushed, n, run.attempts, o) && o.notificationId == n.id
  {
    AttemptsExplained(cfg, u, n, o, run);
    OnlyLastIsFinal(n, cfg.streams.clock(u.ticks), cfg.registered, cfg.policy.maxAttempts,
                    FutureAt(cfg.streams, u.(ticks := u.ticks + 1), cfg.policy, n));
  }

  /** Handling a message, reduced to what the books need: one outcome, its attempts and its pushes. */
  lemma HandledParts(cfg: Setup, b: Books, body: Bytes, property: string)
    returns (o: Outcome, n: Notification, made: seq<Attempt>)
    ensures var after := Handled(cfg, b, body, property);
      && after.records == b.records + [o]
      && after.counters == CountOutcome(CountAttempts(CountConsumed(b.counters), made), o.reason, |made|)
      && after.used.pushed == b.used.pushed + Copies(n, |made|)
    ensures Explains(cfg.streams, b.used.pushed, n, made, o)
    ensures o.notificationId == IdOf(cfg.codec, Message(body, property))
    ensures made != [] ==> n.id == o.notificationId
  {
    var decoded := cfg.codec.unmarshal(body);
    if decoded.None? {
      o, made := MalformedOutcome(property), [];
      n :| true;
      assert b.used.pushed + Copies(n, 0) == b.used.pushed;
    } else {
      n := Identified(decoded.value, property);
      var (o', run) := DispatchedAt(cfg.streams, b.used, cfg.policy, cfg.registered, n);
      DispatchExplained(cfg, b.used, n, o', run);
      o, made := o', run.attempts;
    }
  }

  lemma BookingBalances(b: Books, after: Books, o: Outcome, made: seq<Attempt>, consumed: Counters, violations: nat)
    requires Balanced(b, violations) && o.attempts == |made|
    requires consumed == b.counters || consumed == CountConsumed(b.counters)
    requires after.records == b.records + [o] && |after.used.pushed| == |b.used.pushed| + |made|
    requires after.counters == CountOutcome(CountAttempts(consumed, made), o.reason, |made|)
    ensures Balanced(after, if consumed == b.counters then violations + 1 else violations)
  {
    CountAttemptsTotal(consumed, made);
    RecordingReconciles(b.records, CountAttempts(consumed, made), o);
    Appended(b.records, o);
  }

  lemma HandlingBalances(cfg: Setup, b: Books, body: Bytes, property: string, violations: nat)
    requires Balanced(b, violations)
    ensures Balanced(Handled(cfg, b, body, property), violations)
  {
    var o, n, made := HandledParts(cfg, b, body, property);
    BookingBalances(b, Handled(cfg, b, body, property), o, made, CountConsumed(b.counters), violations);
  }

  lemma ViolationBalances(b: Books, violations: nat)
    requires Balanced(b, violations)
    ensures Balanced(Booked(b, ViolationOutcome()), violations + 1)
  {
    BookingBalances(b, Booked(b, ViolationOutcome()), ViolationOutcome(), [], b.counters, violations);
  }

  function Violations(items: seq<Received>): nat {
    if items == [] then 0
    else Violations(items[..|items| - 1]) + if items[|items| - 1].PolicyViolation? then 1 else 0
  }

  function MessageIndices(items: seq<Received>): seq<nat> {
    if items == [] then []
    else
      var i := |items| - 1;
      MessageIndices(items[..i]) + if items[i].Message? then [i] else []
  }

  /** A run acknowledges exactly the messages it took, in order, and stops for a reason. */
  lemma {:induction false} RunAcknowledges(step: Step, inbox: seq<Received>, i: nat, b: Books, acked: seq<nat>)
    requires i <= |inbox| && acked == MessageIndices(inbox[..i])
    ensures var end := RanFrom(step, inbox, i, b, acked);
      && i <= end.taken <= |inbox|
      && end.acked == MessageIndices(inbox[..end.taken])
      && (forall j | i <= j < end.taken :: IsTaken(inbox[j]))
      && (end.err.None? ==> end.taken == |inbox| || inbox[end.taken].Cancelled?)
      && (end.err.Some? ==> end.taken < |inbox| && inbox[end.taken] == Broken(end.err.value))
    decreases |inbox| - i
  {
    if i < |inbox| && IsTaken(inbox[i]) {
      assert inbox[..i + 1][..i] == inbox[..i];
      RunAcknowledges(step, inbox, i + 1, step(b, inbox[i]), if inbox[i].Message? then acked + [i] else acked);
    }
  }

  /** What every taken item keeps, given the items before it, holds at the end of every run. */
  lemma {:induction false} RunKeeps(
    step: Step, inv: (Books, seq<Received>) -> bool, inbox: seq<Received>, i: nat, b: Books, acked: seq<nat>)
    requires i <= |inbox| && inv(b, inbox[..i])
    requires forall c, items, item :: inv(c, items) && IsTaken(item) ==> inv(step(c, item), items + [item])
    ensures var end := RanFrom(step, inbox, i, b, acked);
      i <= end.taken <= |inbox| && inv(end.books, inbox[..end.taken])
    decreases |inbox| - i
  {
    if i < |inbox| && IsTaken(inbox[i]) {
      assert inbox[..i + 1] == inbox[..i] + [inbox[i]];
      RunKeeps(step, inv, inbox, i + 1, step(b, inbox[i]), if inbox[i].Message? then acked + [i] else acked);
    }
  }

  lemma TakingBalances(cfg: Setup, b: Books, items: seq<Received>, item: Received)
    requires Balanced(b, Violations(items)) && IsTaken(item)
    ensures Balanced(Taken(cfg, b, item), Violations(items + [item]))
  {
    assert (items + [item])[..|items|] == items;
    match item
    case Message(body, property) => HandlingBalances(cfg, b, body, property, Violations(items));
    case PolicyViolation => ViolationBalances(b, Violations(items));
  }

  /** Every run keeps the books balanced, whatever the provider, the clock and the codec do. */
  lemma RunConserves(cfg: Setup, inbox: seq<Received>, b: Books)
    requires Balanced(b, 0)
    ensures var end := Ran(cfg, inbox, b, []);
      end.taken <= |inbox| && Balanced(end.books, Violations(inbox[..end.taken]))
  {
    var inv := (c: Books, items: seq<Received>) => Balanced(c, Violations(items));
    forall c, items, item | inv(c, items) && IsTaken(item) ensures inv(StepOf(cfg)(c, item), items + [item]) {
      TakingBalances(cfg, c, items, item);
    }
    assert inbox[..0] == [];
    RunKeeps(StepOf(cfg), inv, inbox, 0, b, []);
  }

  // --- One outcome per item, under the right id ---------------------------------------------------

  /** The id the outcome of an item must carry. */
  function IdOf(codec: Codec, item: Received): string {
    match item
    case Message(body, property) =>
      var decoded := codec.unmarshal(body);
      if decoded.None? || decoded.value.id == "" then property else decoded.value.id
    case _ => ""
  }

  /** The records of `after` extend those of `before` by one outcome per item, each under its item's id. */
  predicate OnePerItem(codec: Codec, items: seq<Received>, before: seq<Outcome>, after: seq<Outcome>) {
    && |after| == |before| + |items|
    && after[..|before|] == before
    && forall j | 0 <= j < |items| :: after[|before| + j].notificationId == IdOf(codec, items[j])
  }

  lemma TakingAppendsOne(cfg: Setup, b: Books, items: seq<Received>, item: Received, before: seq<Outcome>)
    requires OnePerItem(cfg.codec, items, before, b.records) && IsTaken(item)
    ensures OnePerItem(cfg.codec, items + [item], before, Taken(cfg, b, item).records)
  {
    var o: Outcome;
    match item
    case Message(body, property) =>
      var o', n, made := HandledParts(cfg, b, body, property);
      o := o';
    case PolicyViolation => o := ViolationOutcome();
    assert Taken(cfg, b, item).records == b.records + [o] && o.notificationId == IdOf(cfg.codec, item);
    assert (b.records + [o])[..|before|] == b.records[..|before|];
  }

  /** The records grow by exactly one outcome for each item taken, in order and under that item's id. */
  lemma OneOutcomePerItem(cfg: Setup, inbox: seq<Received>, b: Books)
    ensures var end := Ran(cfg, inbox, b, []);
      end.taken <= |inbox| && OnePerItem(cfg.codec, inbox[..end.taken], b.records, end.books.records)
  {
    var inv := (c: Books, items: seq<Received>) => OnePerItem(cfg.codec, items, b.records, c.records);
    forall c, items, item | inv(c, items) && IsTaken(item) ensures inv(StepOf(cfg)(c, item), items + [item]) {
      TakingAppendsOne(cfg, c, items, item, b.records);
    }
    assert inbox[..0] == [] && b.records[..|b.records|] == b.records;
    assert inv(b, inbox[..0]);
    RunKeeps(StepOf(cfg), inv, inbox, 0, b, []);
  }

  // --- The sandbox's delivered list ------------------------------------------------------------------

  function Ids(ns: seq<Notification>): (ids: seq<string>)
    ensures |ids| == |ns| && forall i | 0 <= i < |ns| :: ids[i] == ns[i].id
  {
    seq(|ns|, i requires 0 <= i < |ns| => ns[i].id)
  }

  /** What the sandbox has delivered is, in order, what the records call delivered. */
  predicate SandboxAgrees(script: Script, b: Books) {
    Ids(DeliveredOf(script, AllSome(b.used.pushed))) == DeliveredIds(b.records)
  }

  lemma DeliveredOfNext(script: Script, pushed: seq<Notification>, n: Notification)
    ensures DeliveredOf(script, AllSome(pushed + [n]))
         == DeliveredOf(script, AllSome(pushed)) + if AsStream(script)(|pushed|, n).Accepted? then [n] else []
  {
    assert AllSome(pushed + [n])[..|pushed|] == AllSome(pushed);
  }

  /** Push i after these, of the same notification, is not accepted. */
  predicate Refused(script: Script, pushed: seq<Notification>, n: Notification, i: nat) {
    !AsStream(script)(|pushed| + i, n).Accepted?
  }

  lemma {:induction false} RefusedPushes(script: Script, pushed: seq<Notification>, n: Notification, count: nat)
    requires forall i: nat | i < count :: Refused(script, pushed, n, i)
    ensures DeliveredOf(script, AllSome(pushed + Copies(n, count))) == DeliveredOf(script, AllSome(pushed))
  {
    if count == 0 {
      assert pushed + Copies(n, 0) == pushed;
    } else {
      RefusedPushes(script, pushed, n, count - 1);
      assert pushed + Copies(n, count - 1) + [n] == pushed + Copies(n, count);
      assert Refused(script, pushed, n, count - 1);
      DeliveredOfNext(script, pushed + Copies(n, count - 1), n);
    }
  }

  lemma LastOfPushes(script: Script, pushed: seq<Notification>, n: Notification, last: nat)
    requires forall i: nat | i < last :: Refused(script, pushed, n, i)
    ensures DeliveredOf(script, AllSome(pushed + Copies(n, last + 1)))
         == DeliveredOf(script, AllSome(pushed)) + if Refused(script, pushed, n, last) then [] else [n]
  {
    RefusedPushes(script, pushed, n, last);
    assert pushed + Copies(n, last) + [n] == pushed + Copies(n, last + 1);
    DeliveredOfNext(script, pushed + Copies(n, last), n);
  }

  /** Pushes of one run deliver its notification once if its last attempt is accepted, and not otherwise. */
  lemma PushesOfRun(script: Script, pushed: seq<Notification>, n: Notification, made: seq<Attempt>)
    requires forall i | 0 <= i < |made| :: made[i].response == AsStream(script)(|pushed| + i, n)
    requires forall i | 0 <= i < |made| - 1 :: !made[i].response.Accepted?
    ensures DeliveredOf(script, AllSome(pushed + Copies(n, |made|)))
         == DeliveredOf(script, AllSome(pushed))
            + if made != [] && made[|made| - 1].response.Accepted? then [n] else []
  {
    if made == [] {
      assert pushed + Copies(n, 0) == pushed;
    } else {
      forall i: nat | i < |made| ensures Refused(script, pushed, n, i) == !made[i].response.Accepted? {
      }
      LastOfPushes(script, pushed, n, |made| - 1);
    }
  }

  lemma BookingAgrees(
    script: Script, streams: Streams, b: Books, after: Books, n: Notification, made: seq<Attempt>, o: Outcome)
    requires streams.respond == AsStream(script) && SandboxAgrees(script, b)
    requires Explains(streams, b.used.pushed, n, made, o) && (made != [] ==> n.id == o.notificationId)
    requires after.records == b.records + [o] && after.used.pushed == b.used.pushed + Copies(n, |made|)
    ensures SandboxAgrees(script, after)
  {
    Appended(b.records, o);
    PushesOfRun(script, b.used.pushed, n, made);
    var before := DeliveredOf(script, AllSome(b.used.pushed));
    assert Ids(before + [n]) == Ids(before) + [n.id];
    assert Ids(before + []) == Ids(before);
  }

  lemma TakingAgrees(cfg: Setup, script: Script, b: Books, item: Received)
    requires cfg.streams.respond == AsStream(script) && SandboxAgrees(script, b) && IsTaken(item)
    ensures SandboxAgrees(script, Taken(cfg, b, item))
  {
    match item
    case Message(body, property) =>
      var o, n, made := HandledParts(cfg, b, body, property);
      BookingAgrees(script, cfg.streams, b, Taken(cfg, b, item), n, made, o);
    case PolicyViolation => Appended(b.records, ViolationOutcome());
  }

  /** With a scripted sandbox and one worker, the sandbox holds exactly the delivered messages, in order. */
  lemma SandboxHoldsDelivered(cfg: Setup, script: Script, inbox: seq<Received>, b: Books)
    requires cfg.streams.respond == AsStream(script) && SandboxAgrees(script, b)
    ensures SandboxAgrees(script, Ran(cfg, inbox, b, []).books)
  {
    var inv := (c: Books, items: seq<Received>) => SandboxAgrees(script, c);
    forall c, items, item | inv(c, items) && IsTaken(item) ensures inv(StepOf(cfg)(c, item), items + [item]) {
      TakingAgrees(cfg, script, c, item);
    }
    RunKeeps(StepOf(cfg), inv, inbox, 0, b, []);
  }

  /** So it is for the provider itself, called once for each push of the run; and what its own count then says. */
  lemma ProviderHoldsDelivered(
    provider: Provider, cfg: Setup, inbox: seq<Received>, b: Books, pushed: seq<Notification>)
    requires provider.Valid() && cfg.streams.respond == AsStream(provider.scripted)
    requires SandboxAgrees(provider.scripted, b)
    requires pushed == Ran(cfg, inbox, b, []).books.used.pushed && provider.calls == AllSome(pushed)
    ensures Ids(provider.delivered) == DeliveredIds(Ran(cfg, inbox, b, []).books.records)
    ensures provider.Attempts() == |pushed| <==>
            forall i | 0 <= i < Consumed(provider.scripted, |pushed|) :: provider.scripted[i].Some?
  {
    SandboxHoldsDelivered(cfg, provider.scripted, inbox, b);
    AttemptsIsCallsIff(provider.scripted, pushed);
  }
}
